// The solution strategies (Solutions/*): for each way of resolving a statement line, whether a
// ledger candidate fits it (isFitRelatedDeal), whether the line as a whole fits it (isFit), how a
// administrator's choice is recorded (updateSolutionToDeal) and what applying it does
// (applySolution).
//
// The line item is a value: an operation that changes the line in place returns the new line.
// The ledger behind applySolution is given as a `Ledger` (the deals findOne can see) and an
// `Outcome` (what the ledger's own operations report); apply returns the ledger operations it
// asked for.

module Solutions {
  import opened Wrappers
  import opened Domain
  import opened Text
  import opened PolicyNumbers
  import opened Compliance
  import opened LineItems

  /** One value per solution class. */
  datatype Strategy =
    | MatchSolution | MatchCombinedSolution | ChargeBackSolution | ReinstatementSolution
    | UploadSolution | UploadSubDealSolution | UploadSubDealCombinedSolution
    | UploadRenewalSubDealSolution | UploadRenewalsSolution | UploadCombinedSolution
    | UploadAhaSolution | UploadToAdvisorSolution | SsqUploadToAdvisorSolution
    | UnmatchSolution | UnmatchIASolution

  /** The class constant SOLUTION (a subclass that does not redefine it inherits its parent's). */
  function Key(st: Strategy): (k: SolutionKind)
    ensures k != Skip
    ensures k == Unmatch <==> st.UnmatchSolution? || st.UnmatchIASolution?
    ensures k == UploadToAdvisor <==> st.UploadToAdvisorSolution? || st.SsqUploadToAdvisorSolution?
  {
    match st
    case MatchSolution => Match
    case MatchCombinedSolution => Match
    case ChargeBackSolution => ChargeBack
    case ReinstatementSolution => Reinstatement
    case UploadSolution => Upload
    case UploadSubDealSolution => UploadSubDeal
    case UploadSubDealCombinedSolution => UploadSubDeal
    case UploadRenewalSubDealSolution => UploadRenewalSubDeal
    case UploadRenewalsSolution => UploadRenewals
    case UploadCombinedSolution => Upload
    case UploadAhaSolution => Upload
    case UploadToAdvisorSolution => UploadToAdvisor
    case SsqUploadToAdvisorSolution => UploadToAdvisor
    case UnmatchSolution => Unmatch
    case UnmatchIASolution => Unmatch
  }

  predicate IsUnmatchStrategy(st: Strategy)
  {
    st.UnmatchSolution? || st.UnmatchIASolution?
  }

  predicate IsToAdvisorStrategy(st: Strategy)
  {
    st.UploadToAdvisorSolution? || st.SsqUploadToAdvisorSolution?
  }

  predicate IsMatchStrategy(st: Strategy)
  {
    st.MatchSolution? || st.MatchCombinedSolution?
  }

  /** The strategies that put the line under an Insurance deal. */
  predicate IsSubDealStrategy(st: Strategy)
  {
    st.UploadSubDealSolution? || st.UploadSubDealCombinedSolution? || st.UploadRenewalSubDealSolution?
  }

  /** The uploads whose Renewal lines skip the commission test. */
  predicate IsCombinedUploadStrategy(st: Strategy)
  {
    st.UploadCombinedSolution? || st.UploadRenewalsSolution?
  }

  // ---- messages ----------------------------------------------------------------------

  const OverChargeBackNote: string := "The Amount of the Chargeback exceeds the Amount of the Deal."
  const MgaOnlyNote: string := "Only on MGA statement - Do not pay"
  const UnpaidChargeBackNote: string :=
    "The amount of the deal is less than \U{201C}0\U{201D} and the relevant deals found are not paid - check and reach out to provider if needed"
  const NoDealsNote: string := "No deals found for matching"
  const ZeroNote: string := "Deal equals zero"
  const SplitAgentMissingNote: string := "No match found for one of the split agents"
  const SplitSkippedNote: string := "The deal will be skipped from the Manual Matching because of the Split"

  const NotFoundError: string := "Matched deal not found."
  const PaidOrChargedError: string := "Matched deal already paid or has charge back."
  const MatchingError: string := "Error occurred when matching deal."
  const ClassMismatchError: string := "Matched class should be equal to parsed deal class."
  const ChargeBackImpossibleError: string := "Charge back is impossible."
  const ChargingError: string := "Error occurred when charging back."
  const ReinstatementImpossibleError: string := "Reinstatement is impossible."
  const ReinstatingError: string := "Error occurred when reinstating."
  const InsertError: string := "Error occurred when inserting new deal."
  const AdvisorNotFoundError: string := "Advisor not found."
  const AgentNotFoundError: string := "Error occurred when inserting new deal (Agent not found)."

  // ---- per-candidate fitness (isFitRelatedDeal) --------------------------------------

  /** The answer of isFitRelatedDeal and the explanation it appended to the line, if any. */
  datatype Fit = Fit(fits: bool, note: Option<string>)

  /** A credit line against a candidate with nothing paid: more is charged back than was paid. */
  predicate ExceedsPaid(item: LineItem, c: Candidate)
  {
    item.line.commission < 0 && c.amount <= 0
  }

  /** The parser's compliance check for the candidate's agents (getEoLicenseChecks). */
  predicate Complies(g: Gate, item: LineItem, c: Candidate)
  {
    Passes(g, OfDeal(item.line.kind), c.userId, c.shareAdvisorId, c.stateId, false)
  }

  /** The candidate has the line's class and, when it is an Insurance deal, no parent. */
  predicate TopLevelOfSameKind(item: LineItem, c: Candidate)
  {
    item.line.kind == c.kind && (c.kind != Insurance || c.parentDealId == 0)
  }

  /** Only the over-charge-back rejection leaves an explanation, and it never fits. */
  predicate NoteOnlyOnOverCharge(item: LineItem, c: Candidate, r: Fit)
  {
    r.note.Some? ==> !r.fits && r.note == Some(OverChargeBackNote) && ExceedsPaid(item, c)
  }

  /** MatchSolution::isFitRelatedDeal: an unpaid deal for a positive line that is not a renewal. */
  function FitMatch(item: LineItem, c: Candidate): (r: Fit)
    ensures NoteOnlyOnOverCharge(item, c, r)
    ensures r.fits <==> item.line.commission > 0 && c.amount == 0 && item.line.kind != Renewal
  {
    if ExceedsPaid(item, c) then Fit(false, Some(OverChargeBackNote))
    else Fit(item.line.kind != Renewal && c.amount == 0 && item.line.commission > 0, None)
  }

  /** MatchInsuranceAndRenewalCombinedSolution::isFitRelatedDeal: an unpaid top-level deal of the line's class. */
  function FitMatchCombined(item: LineItem, c: Candidate): (r: Fit)
    ensures NoteOnlyOnOverCharge(item, c, r)
    ensures r.fits <==> item.line.commission >= 0 && c.amount == 0 && TopLevelOfSameKind(item, c)
  {
    if ExceedsPaid(item, c) then Fit(false, Some(OverChargeBackNote))
    else Fit(TopLevelOfSameKind(item, c) && c.amount == 0, None)
  }

  /** ChargeBackSolution::isFitRelatedDeal: a credit against a paid deal that can take a charge back. */
  function FitChargeBack(item: LineItem, c: Candidate): (r: Fit)
    ensures r.note.None?
    ensures r.fits <==> item.line.commission < 0 && c.amount > 0 && item.line.kind == c.kind && c.chargeBackCapable
  {
    Fit(item.line.kind == c.kind && item.line.commission < 0 && c.chargeBackCapable && c.amount > 0, None)
  }

  /** ReinstatementSolution::isFitRelatedDeal: a positive Insurance line against a reinstatable Insurance deal. */
  function FitReinstatement(item: LineItem, c: Candidate): (r: Fit)
    ensures r.note.None?
    ensures r.fits <==> item.line.commission > 0 && item.line.kind == Insurance && c.kind == Insurance &&
                        c.reinstatementPossible
  {
    Fit(c.kind == Insurance && item.line.kind == Insurance && c.reinstatementPossible && item.line.commission > 0, None)
  }

  /** UploadSolution::isFitRelatedDeal, which several subclasses reuse. */
  function FitUpload(g: Gate, item: LineItem, c: Candidate): (r: Fit)
    ensures NoteOnlyOnOverCharge(item, c, r)
    ensures r.fits <==> item.line.kind != Renewal && !ExceedsPaid(item, c) && Complies(g, item, c) &&
                        TopLevelOfSameKind(item, c)
  {
    if item.line.kind == Renewal then Fit(false, None)
    else if ExceedsPaid(item, c) then Fit(false, Some(OverChargeBackNote))
    else if !Complies(g, item, c) then Fit(false, None)
    else Fit(TopLevelOfSameKind(item, c), None)
  }

  /** UploadSubDealSolution::isFitRelatedDeal: a sub-deal goes under an Insurance deal. */
  function FitSubDeal(g: Gate, item: LineItem, c: Candidate): (r: Fit)
    ensures NoteOnlyOnOverCharge(item, c, r)
    ensures r.fits ==> c.kind == Insurance && (item.line.kind == Insurance || item.line.kind == Renewal)
    ensures r.fits && item.line.commission > 0 ==> Complies(g, item, c)
    ensures r.fits && item.line.kind == Renewal ==> c.amount != 0
  {
    if ExceedsPaid(item, c) then Fit(false, Some(OverChargeBackNote))
    else if item.line.commission > 0 && !Complies(g, item, c) then Fit(false, None)
    else if item.line.kind == Renewal && c.amount == 0 then Fit(false, None)
    else Fit((item.line.kind == Insurance || item.line.kind == Renewal) && c.kind == Insurance, None)
  }

  /** UploadSubDealInsuranceRenewalCombinedSolution::isFitRelatedDeal */
  function FitSubDealCombined(g: Gate, item: LineItem, c: Candidate): (r: Fit)
    ensures NoteOnlyOnOverCharge(item, c, r)
    ensures r.fits ==> PolicyMatches(item.line.policyNumber, c.clientPolicy) && c.isPaid
    ensures r.fits ==> item.line.kind == Insurance && c.kind == Insurance
    ensures r.fits && item.line.commission > 0 ==> Complies(g, item, c)
  {
    var policyCheck := PolicyMatches(item.line.policyNumber, c.clientPolicy);
    if item.line.kind == Renewal || !policyCheck || (policyCheck && !c.isPaid) then Fit(false, None)
    else if ExceedsPaid(item, c) then Fit(false, Some(OverChargeBackNote))
    else if item.line.commission > 0 && !Complies(g, item, c) then Fit(false, None)
    else Fit((item.line.kind == Insurance || item.line.kind == Renewal) && c.kind == Insurance, None)
  }

  /** UploadRenewalSubDealSolution::isFitRelatedDeal: a renewal under a paid Insurance deal. */
  function FitRenewalSubDeal(g: Gate, item: LineItem, c: Candidate): (r: Fit)
    ensures r.note.None?
    ensures r.fits <==> item.line.kind == Renewal && c.amount != 0 && c.kind == Insurance &&
                        (item.line.commission > 0 ==> Complies(g, item, c))
  {
    if item.line.kind != Renewal || c.amount == 0 then Fit(false, None)
    else if item.line.commission > 0 && !Complies(g, item, c) then Fit(false, None)
    else Fit(c.kind == Insurance, None)
  }

  /** UploadRenewalsSolution::isFitRelatedDeal: a renewal against a paid top-level deal of its class. */
  function FitRenewals(g: Gate, item: LineItem, c: Candidate): (r: Fit)
    ensures r.note.None?
    ensures r.fits <==> item.line.kind == Renewal && c.amount != 0 && Complies(g, item, c) &&
                        TopLevelOfSameKind(item, c)
  {
    if item.line.kind != Renewal || c.amount == 0 then Fit(false, None)
    else if !Complies(g, item, c) then Fit(false, None)
    else Fit(TopLevelOfSameKind(item, c), None)
  }

  /** UploadInsuranceAndRenewalsCombinedSolution::isFitRelatedDeal: a paid deal must carry the line's policy. */
  function FitUploadCombined(g: Gate, item: LineItem, c: Candidate): (r: Fit)
    ensures NoteOnlyOnOverCharge(item, c, r)
    ensures r.fits <==> (PolicyMatches(item.line.policyNumber, c.clientPolicy) || !c.isPaid) &&
                        FitUpload(g, item, c).fits
  {
    if !PolicyMatches(item.line.policyNumber, c.clientPolicy) && c.isPaid then Fit(false, None)
    else FitUpload(g, item, c)
  }

  /** The strategies that test a candidate against the ledger: the matches, charge back and reinstatement. */
  predicate IsLedgerStrategy(st: Strategy)
  {
    IsMatchStrategy(st) || st.ChargeBackSolution? || st.ReinstatementSolution?
  }

  /** isFitRelatedDeal of the ledger strategies. */
  function FitLedger(st: Strategy, item: LineItem, c: Candidate): (r: Fit)
    requires IsLedgerStrategy(st)
    ensures NoteOnlyOnOverCharge(item, c, r)
    ensures r.fits && st.ChargeBackSolution? ==>
              item.line.commission < 0 && c.amount > 0 && item.line.kind == c.kind && c.chargeBackCapable
    ensures r.fits && st.ReinstatementSolution? ==>
              item.line.commission > 0 && item.line.kind == Insurance && c.kind == Insurance
    ensures r.fits && st.MatchSolution? ==> item.line.commission > 0 && c.amount == 0 && item.line.kind != Renewal
    ensures r.fits && st.MatchCombinedSolution? ==>
              item.line.commission >= 0 && c.amount == 0 && TopLevelOfSameKind(item, c)
  {
    match st
    case MatchSolution => FitMatch(item, c)
    case MatchCombinedSolution => FitMatchCombined(item, c)
    case ChargeBackSolution => FitChargeBack(item, c)
    case ReinstatementSolution => FitReinstatement(item, c)
  }

  /** The strategies that upload the line as a new deal or sub deal. */
  predicate IsUploadStrategy(st: Strategy)
  {
    || st.UploadSolution? || st.UploadAhaSolution? || IsSubDealStrategy(st)
    || st.UploadRenewalsSolution? || st.UploadCombinedSolution?
  }

  /** isFitRelatedDeal of the upload strategies. */
  function FitUploads(st: Strategy, g: Gate, item: LineItem, c: Candidate): (r: Fit)
    requires IsUploadStrategy(st)
    ensures NoteOnlyOnOverCharge(item, c, r)
    ensures r.fits && (st.UploadRenewalsSolution? || st.UploadRenewalSubDealSolution?) ==>
              item.line.kind == Renewal && c.amount != 0
    ensures r.fits && IsSubDealStrategy(st) ==> c.kind == Insurance
  {
    match st
    case UploadSolution => FitUpload(g, item, c)
    case UploadAhaSolution => FitUpload(g, item, c)
    case UploadSubDealSolution => FitSubDeal(g, item, c)
    case UploadSubDealCombinedSolution => FitSubDealCombined(g, item, c)
    case UploadRenewalSubDealSolution => FitRenewalSubDeal(g, item, c)
    case UploadRenewalsSolution => FitRenewals(g, item, c)
    case UploadCombinedSolution => FitUploadCombined(g, item, c)
  }

  /**
   * isFitRelatedDeal of each strategy. The contract states what a fit means for each kind of
   * solution: a charge back needs a credit line against a paid deal of the same class, a match
   * needs an unpaid deal and never takes a credit, and only an over-charge-back rejection
   * leaves an explanation.
   */
  function FitRelated(st: Strategy, g: Gate, item: LineItem, c: Candidate): (r: Fit)
    ensures IsUnmatchStrategy(st) ==> r == Fit(true, None)
    ensures IsToAdvisorStrategy(st) ==> r == Fit(false, None)
    ensures NoteOnlyOnOverCharge(item, c, r)
    ensures r.fits && st.ChargeBackSolution? ==>
              item.line.commission < 0 && c.amount > 0 && item.line.kind == c.kind && c.chargeBackCapable
    ensures r.fits && st.ReinstatementSolution? ==>
              item.line.commission > 0 && item.line.kind == Insurance && c.kind == Insurance
    ensures r.fits && st.MatchSolution? ==> item.line.commission > 0 && c.amount == 0 && item.line.kind != Renewal
    ensures r.fits && st.MatchCombinedSolution? ==>
              item.line.commission >= 0 && c.amount == 0 && TopLevelOfSameKind(item, c)
    ensures r.fits && (st.UploadRenewalsSolution? || st.UploadRenewalSubDealSolution?) ==>
              item.line.kind == Renewal && c.amount != 0
    ensures r.fits && IsSubDealStrategy(st) ==> c.kind == Insurance
  {
    if IsLedgerStrategy(st) then FitLedger(st, item, c)
    else if IsUploadStrategy(st) then FitUploads(st, g, item, c)
    else if IsUnmatchStrategy(st) then Fit(true, None)
    else Fit(false, None)
  }

  /**
   * The candidate tests read only the statement row: explanations and flags added to the line
   * while its candidates are classified do not change any verdict.
   */
  lemma FitReadsLine(st: Strategy, g: Gate, a: LineItem, b: LineItem, c: Candidate)
    requires a.line == b.line
    ensures FitRelated(st, g, a, c) == FitRelated(st, g, b, c)
  {
  }

  /** No candidate fits both a charge back and a match: they need opposite payment states. */
  lemma ChargeBackExcludesMatch(g: Gate, item: LineItem, c: Candidate, m: Strategy)
    requires IsMatchStrategy(m)
    ensures !(FitRelated(ChargeBackSolution, g, item, c).fits && FitRelated(m, g, item, c).fits)
  {
  }

  /** A line is never both charged back and reinstated against the same candidate. */
  lemma ChargeBackExcludesReinstatement(g: Gate, item: LineItem, c: Candidate)
    ensures !(FitRelated(ChargeBackSolution, g, item, c).fits && FitRelated(ReinstatementSolution, g, item, c).fits)
  {
  }

  /** A plain upload fits a candidate only if the agents pass the licence gate. */
  lemma UploadNeedsCompliance(g: Gate, item: LineItem, c: Candidate)
    requires FitRelated(UploadSolution, g, item, c).fits
    ensures Complies(g, item, c)
  {
  }

  /** The combined upload refuses a paid candidate whose policy does not match the line. */
  lemma CombinedUploadChecksPolicy(g: Gate, item: LineItem, c: Candidate)
    requires c.isPaid && !PolicyMatches(item.line.policyNumber, c.clientPolicy)
    ensures FitRelated(UploadCombinedSolution, g, item, c) == Fit(false, None)
  {
  }

  // ---- container fitness (isFit) ------------------------------------------------------

  /**
   * What isFit reads of the line's related-deals manager: the candidates still attached and
   * the solution keys that tagged at least one of them (existsDealsWithSolution).
   */
  datatype Related = Related(deals: seq<Candidate>, found: set<SolutionKind>)

  /** The answer of isFit and the line as isFit left it. */
  datatype Verdict = Verdict(fits: bool, item: LineItem)

  /**
   * The fields the Unmatch checks may set on the line: four flags and the explanation log,
   * which grows by at most one entry.
   */
  predicate OnlyFlagsChanged(item: LineItem, r: LineItem)
  {
    r == item.(flags := r.flags, log := r.log)
    && r.flags == item.flags.(excludeFromManualMatch := r.flags.excludeFromManualMatch, info := r.flags.info,
                              forceToUnmatch := r.flags.forceToUnmatch,
                              skipToUnmatchReport := r.flags.skipToUnmatchReport)
    && r.log == item.log.(explanations := r.log.explanations)
    && |item.log.explanations| <= |r.log.explanations| <= |item.log.explanations| + 1
    && r.log.explanations[..|item.log.explanations|] == item.log.explanations
  }

  /** A line that matches no deal at all. */
  predicate Unmatchable(item: LineItem, rel: Related)
  {
    item.line.commission == 0 || rel.deals == [] || item.flags.forceToUnmatch || item.flags.skipToUnmatchReport
    || item.line.advisorName == UnmatchAdvisorName || IsUnmatchCode(item.line.contractCode)
  }

  /** UnmatchSolution::isFit: a ladder of reasons, each logging why the line goes unmatched. */
  function UnmatchFit(item: LineItem, rel: Related): (v: Verdict)
    ensures !v.fits ==> v.item == item
    ensures Unmatchable(item, rel) ==> v.fits
    ensures v.fits && !Unmatchable(item, rel) ==>
              item.line.commission < 0 || (item.flags.hasAgentWithoutEoOrLicense && !IsShared(item))
  {
    if item.line.advisorName == UnmatchAdvisorName || IsUnmatchCode(item.line.contractCode) then
      Verdict(true, AddExplanation(item, MgaOnlyNote))
    else if item.line.commission < 0 && |rel.deals| > 0 && AllUnpaid(rel.deals) then
      Verdict(true, AddExplanation(item.(flags := item.flags.(excludeFromManualMatch := true, info := OverChargeBackNote)),
                                   UnpaidChargeBackNote))
    else if item.line.commission < 0 && ChargeBack !in rel.found && UploadSubDeal !in rel.found
            && UploadRenewalSubDeal !in rel.found && Upload !in rel.found && UploadRenewals !in rel.found then
      Verdict(true, AddExplanation(item, NoDealsNote))
    else if item.line.commission == 0 then
      Verdict(true, AddExplanation(item, ZeroNote))
    else if |rel.deals| == 0 then
      Verdict(true, AddExplanation(item, NoDealsNote))
    else
      Verdict(item.flags.forceToUnmatch || item.flags.skipToUnmatchReport ||
              (item.flags.hasAgentWithoutEoOrLicense && !IsShared(item)), item)
  }

  /**
   * UnmatchIASolution::isFit: a policy carried under several contract codes in the batch, or
   * a split line missing one of its agents' names, is forced to unmatch first.
   */
  function UnmatchIAFit(item: LineItem, rel: Related, clients: map<string, set<string>>): (v: Verdict)
    ensures item.line.policyNumber in clients && |clients[item.line.policyNumber]| > 1 ==>
              v.fits && v.item.flags.forceToUnmatch &&
              v.item.log.explanations == item.log.explanations + ["Split deal for " + item.line.policyNumber]
    ensures Unmatchable(item, rel) ==> v.fits
    ensures !v.fits ==> v.item == item
  {
    if item.line.policyNumber in clients && |clients[item.line.policyNumber]| > 1 then
      Verdict(true, AddExplanation(item.(flags := item.flags.(forceToUnmatch := true)), "Split deal for " + item.line.policyNumber))
    else if IsShared(item) && (!Truthy(item.line.advisorName) || !Truthy(item.line.shareAdvisorName)) then
      var logged := AddExplanation(item, SplitAgentMissingNote);
      Verdict(true, logged.(flags := logged.flags.(forceToUnmatch := true, skipToUnmatchReport := true)))
    else
      var v := UnmatchFit(item, rel);
      Verdict(v.fits || v.item.flags.forceToUnmatch, v.item)
  }

  /** The plain Unmatch test only logs and flags; it never forces the line to unmatch. */
  lemma UnmatchFitFrame(item: LineItem, rel: Related)
    ensures OnlyFlagsChanged(item, UnmatchFit(item, rel).item)
    ensures UnmatchFit(item, rel).item.flags.forceToUnmatch == item.flags.forceToUnmatch
  {
  }

  /** The IA Unmatch test changes no more of the line than the plain one. */
  lemma UnmatchIAFitFrame(item: LineItem, rel: Related, clients: map<string, set<string>>)
    ensures OnlyFlagsChanged(item, UnmatchIAFit(item, rel, clients).item)
  {
    if !(item.line.policyNumber in clients && |clients[item.line.policyNumber]| > 1)
       && !(IsShared(item) && (!Truthy(item.line.advisorName) || !Truthy(item.line.shareAdvisorName))) {
      UnmatchFitFrame(item, rel);
    }
  }

  /** UploadToAdvisorSolution::isFit */
  predicate ToAdvisorFits(item: LineItem)
  {
    !item.flags.forceToUnmatch && item.line.commission > 0 && |item.data.relevantAdvisors| > 0
    && !item.flags.hasAgentWithoutEoOrLicense && item.flags.hasDealWithoutBlockedCompany != Some(false)
  }

  /** The Insurance-and-Renewals upload test: a Renewal line does not look at the commission. */
  predicate CombinedUploadFits(st: Strategy, item: LineItem, rel: Related)
  {
    if item.line.kind == Renewal then
      !item.flags.hasAgentWithoutEoOrLicense && Match !in rel.found && Key(st) in rel.found
    else
      !item.flags.hasAgentWithoutEoOrLicense && item.line.commission != 0 && Match !in rel.found && Key(st) in rel.found
  }

  /**
   * isFit of the strategies that only look at the line: a fit other than Unmatch needs a
   * tagged candidate (or, for AHA, any candidate) and a non-zero commission, except that the
   * combined uploads of a Renewal line and the match tests do not look at the commission.
   */
  predicate Qualifies(st: Strategy, item: LineItem, rel: Related)
    requires !IsUnmatchStrategy(st)
    ensures Qualifies(st, item, rel) && !IsToAdvisorStrategy(st) && !st.UploadAhaSolution? ==> Key(st) in rel.found
    ensures Qualifies(st, item, rel) && !IsCombinedUploadStrategy(st) && !IsMatchStrategy(st) ==>
              item.line.commission != 0
    ensures Qualifies(st, item, rel) && st.UploadAhaSolution? ==> rel.deals != []
    ensures Qualifies(st, item, rel) && IsToAdvisorStrategy(st) ==> item.line.commission > 0 && !item.flags.forceToUnmatch
    ensures Qualifies(st, item, rel) && (IsMatchStrategy(st) || st.UploadSolution?) ==> !item.flags.hasAgentWithoutEoOrLicense
  {
    match st
    case MatchSolution => !item.flags.hasAgentWithoutEoOrLicense && Match in rel.found
    case MatchCombinedSolution => !item.flags.hasAgentWithoutEoOrLicense && Match in rel.found
    case ChargeBackSolution => item.line.commission < 0 && ChargeBack in rel.found
    case ReinstatementSolution => item.line.commission > 0 && Reinstatement in rel.found
    case UploadSolution =>
      !item.flags.hasAgentWithoutEoOrLicense && item.line.commission != 0 && Match !in rel.found && Upload in rel.found
    case UploadSubDealSolution => item.line.commission != 0 && Match !in rel.found && UploadSubDeal in rel.found
    case UploadSubDealCombinedSolution => item.line.commission != 0 && Match !in rel.found && UploadSubDeal in rel.found
    case UploadRenewalSubDealSolution =>
      item.line.commission != 0 && Match !in rel.found && UploadRenewalSubDeal in rel.found
    case UploadRenewalsSolution => CombinedUploadFits(st, item, rel)
    case UploadCombinedSolution => CombinedUploadFits(st, item, rel)
    case UploadAhaSolution => item.line.commission != 0 && |rel.deals| > 0
    case UploadToAdvisorSolution => ToAdvisorFits(item)
    case SsqUploadToAdvisorSolution => ToAdvisorFits(item)
  }

  /**
   * isFit of each strategy, with the line as it leaves the test. Only the Unmatch tests and
   * the SSQ manual-match test change the line: the SSQ test takes a split line out of manual
   * matching and logs why.
   */
  function IsFit(st: Strategy, item: LineItem, rel: Related, clients: map<string, set<string>>): (v: Verdict)
    ensures !IsUnmatchStrategy(st) && !(st.SsqUploadToAdvisorSolution? && IsShared(item)) ==>
              v == Verdict(Qualifies(st, item, rel), item)
    ensures IsUnmatchStrategy(st) ==> OnlyFlagsChanged(item, v.item)
    ensures IsUnmatchStrategy(st) && Unmatchable(item, rel) ==> v.fits
    ensures !v.fits && !st.SsqUploadToAdvisorSolution? ==> v.item == item
    ensures st.SsqUploadToAdvisorSolution? && IsShared(item) ==>
              !v.fits && v.item.flags.excludeFromManualMatch && v.item.flags.info == SplitSkippedNote &&
              v.item.log.explanations == item.log.explanations + [SplitSkippedNote]
  {
    if st.UnmatchSolution? then
      UnmatchFitFrame(item, rel);
      UnmatchFit(item, rel)
    else if st.UnmatchIASolution? then
      UnmatchIAFitFrame(item, rel, clients);
      UnmatchIAFit(item, rel, clients)
    else if st.SsqUploadToAdvisorSolution? && IsShared(item) then
      Verdict(false, AddExplanation(item.(flags := item.flags.(excludeFromManualMatch := true, info := SplitSkippedNote)),
                                    SplitSkippedNote))
    else Verdict(Qualifies(st, item, rel), item)
  }

  /** A line already forced to unmatch always fits Unmatch, in either variant. */
  lemma ForcedLineUnmatches(st: Strategy, item: LineItem, rel: Related, clients: map<string, set<string>>)
    requires IsUnmatchStrategy(st) && item.flags.forceToUnmatch
    ensures IsFit(st, item, rel, clients).fits
  {
  }

  /** The AHA upload ignores the licence flag and the Match tags. */
  lemma AhaUploadIgnoresFlags(item: LineItem, rel: Related, clients: map<string, set<string>>)
    requires item.line.commission != 0 && rel.deals != []
    ensures IsFit(UploadAhaSolution, item, rel, clients).fits
  {
  }

  /** A charge back and a reinstatement never both fit one line. */
  lemma ChargeBackOrReinstatement(item: LineItem, rel: Related, clients: map<string, set<string>>)
    ensures !(IsFit(ChargeBackSolution, item, rel, clients).fits && IsFit(ReinstatementSolution, item, rel, clients).fits)
  {
  }

  // ---- setSolutionToDeal and updateSolutionToDeal -------------------------------------

  /** setSolutionToDeal: only the solution changes, to the class constant. */
  function SetSolution(st: Strategy, item: LineItem): (r: LineItem)
    ensures r.state.solution == Some(Key(st)) && r.state.solution != Some(Skip)
    ensures r == item.(state := item.state.(solution := r.state.solution))
  {
    item.(state := item.state.(solution := Some(Key(st))))
  }

  /** The fields an administrator submits for one line. Ids of 0 stand for an absent entry. */
  datatype UserInput = UserInput(
    solution: SolutionKind,
    matchedId: nat,
    matchedAdvisorId: nat,
    matchedShareAdvisorId: nat,
    dealType: string,
    companyId: nat)

  /** The status a submitted choice leaves: unchanged when only the counters are refreshed. */
  function SubmittedStatus(item: LineItem, onlyCounters: bool, final: Status): (s: Status)
    ensures onlyCounters ==> s == item.state.status
    ensures !onlyCounters ==> s == final
  {
    if onlyCounters then item.state.status else final
  }

  /** BaseSolution::updateSolutionToDeal */
  function BaseUpdate(item: LineItem, input: UserInput, onlyCounters: bool): (r: LineItem)
    ensures r.state.solution == Some(input.solution) && r.state.dealId == input.matchedId
    ensures r.state.status == SubmittedStatus(item, onlyCounters, Pending)
    ensures r == item.(state := item.state.(solution := r.state.solution, dealId := r.state.dealId,
                                            status := r.state.status))
  {
    item.(state := item.state.(solution := Some(input.solution), dealId := input.matchedId,
                               status := SubmittedStatus(item, onlyCounters, Pending)))
  }

  /** The legal name of a chosen agent, when the agent is on file; the statement name otherwise. */
  function ChosenName(id: nat, users: map<nat, Advisor>, current: string): (name: string)
    ensures id != 0 && id in users ==> name == users[id].legalName
    ensures id == 0 || id !in users ==> name == current
  {
    if id != 0 && id in users then users[id].legalName else current
  }

  /**
   * UploadToAdvisorSolution::updateSolutionToDeal: without a chosen agent the line falls back
   * to Unmatch; the agents' legal names replace the statement names when they are on file.
   */
  function ToAdvisorUpdate(item: LineItem, input: UserInput, onlyCounters: bool, users: map<nat, Advisor>): (r: LineItem)
    ensures r.state == item.state.(solution := Some(if input.matchedAdvisorId == 0 then Unmatch else input.solution),
                                   status := SubmittedStatus(item, onlyCounters, Pending))
    ensures r.choice == Choice(input.matchedAdvisorId, input.matchedShareAdvisorId, input.dealType, input.companyId)
    ensures onlyCounters ==> r.line == item.line
    ensures !onlyCounters ==>
              r.line == item.line.(advisorName := ChosenName(input.matchedAdvisorId, users, item.line.advisorName),
                                   shareAdvisorName := ChosenName(input.matchedShareAdvisorId, users, item.line.shareAdvisorName))
    ensures r == item.(line := r.line, state := r.state, choice := r.choice)
  {
    var chosen := item.(state := item.state.(solution := Some(if input.matchedAdvisorId == 0 then Unmatch else input.solution),
                                             status := SubmittedStatus(item, onlyCounters, Pending)),
                        choice := Choice(input.matchedAdvisorId, input.matchedShareAdvisorId, input.dealType, input.companyId));
    if onlyCounters then chosen
    else
      chosen.(line := item.line.(advisorName := ChosenName(input.matchedAdvisorId, users, item.line.advisorName),
                                 shareAdvisorName := ChosenName(input.matchedShareAdvisorId, users, item.line.shareAdvisorName)))
  }

  /** The class of deal each strategy records as matched when a choice is submitted. */
  function SubmittedKind(st: Strategy, item: LineItem): (k: Option<DealKind>)
    ensures IsMatchStrategy(st) || IsUnmatchStrategy(st) || IsToAdvisorStrategy(st) ==> k == item.state.matchedKind
    ensures IsSubDealStrategy(st) ==> k == Some(Insurance)
    ensures !IsMatchStrategy(st) && !IsUnmatchStrategy(st) && !IsToAdvisorStrategy(st) && !IsSubDealStrategy(st) ==>
              k == Some(item.line.kind)
  {
    match st
    case MatchSolution => item.state.matchedKind
    case MatchCombinedSolution => item.state.matchedKind
    case UnmatchSolution => item.state.matchedKind
    case UnmatchIASolution => item.state.matchedKind
    case UploadToAdvisorSolution => item.state.matchedKind
    case SsqUploadToAdvisorSolution => item.state.matchedKind
    case UploadSubDealSolution => Some(Insurance)
    case UploadSubDealCombinedSolution => Some(Insurance)
    case UploadRenewalSubDealSolution => Some(Insurance)
    case _ => Some(item.line.kind)
  }

  /**
   * updateSolutionToDeal of each strategy: the chosen solution is recorded; Unmatch is final
   * at once (Applied), the others wait for apply (Pending); a charge back, reinstatement or
   * upload records which class the chosen deal belongs to. Only the manual-match upload
   * touches the agents; no strategy touches the flags, the log or the additional data.
   */
  function Update(st: Strategy, item: LineItem, input: UserInput, onlyCounters: bool, users: map<nat, Advisor>): (r: LineItem)
    ensures !IsToAdvisorStrategy(st) ==> r.state.solution == Some(input.solution)
    ensures IsToAdvisorStrategy(st) ==> r == ToAdvisorUpdate(item, input, onlyCounters, users)
    ensures r.state.status == SubmittedStatus(item, onlyCounters, if IsUnmatchStrategy(st) then Applied else Pending)
    ensures !IsToAdvisorStrategy(st) ==> r.state.dealId == (if IsUnmatchStrategy(st) then item.state.dealId else input.matchedId)
    ensures r.state.matchedKind == SubmittedKind(st, item)
    ensures !IsToAdvisorStrategy(st) ==> r == item.(state := r.state)
    ensures r.data == item.data && r.flags == item.flags && r.log == item.log
  {
    if IsToAdvisorStrategy(st) then ToAdvisorUpdate(item, input, onlyCounters, users)
    else if IsUnmatchStrategy(st) then
      item.(state := item.state.(solution := Some(input.solution), status := SubmittedStatus(item, onlyCounters, Applied)))
    else
      var base := BaseUpdate(item, input, onlyCounters);
      base.(state := base.state.(matchedKind := SubmittedKind(st, item)))
  }

  /** Submitting the same choice twice leaves the line as submitting it once. */
  lemma UpdateIdempotent(st: Strategy, item: LineItem, input: UserInput, onlyCounters: bool, users: map<nat, Advisor>)
    requires !IsToAdvisorStrategy(st)
    ensures var once := Update(st, item, input, onlyCounters, users);
            Update(st, once, input, onlyCounters, users).state.solution == once.state.solution &&
            Update(st, once, input, onlyCounters, users).state.dealId == once.state.dealId
  {
  }

  // ---- applySolution ------------------------------------------------------------------

  /** What applySolution needs to know of a ledger deal. */
  datatype LedgerDeal = LedgerDeal(
    hasPaidMember: bool,
    hasChargeBack: bool,
    chargeBackPossible: bool,        // isPossibleChargeBack
    lastChargeBack: Option<bool>,    // the last charge back, if any: whether it was reinstated
    parentDealId: nat,
    userId: nat,                     // 0 = no agent on the deal
    companyId: nat,
    clientPolicy: string)

  /** The part of the ledger applySolution reads. */
  datatype Ledger = Ledger(
    deals: map<(DealKind, nat), LedgerDeal>,   // findOne by class and id
    agentByCode: map<(string, nat), nat>,      // UserContracting::findByCode: (code, company) -> user
    firstCompanyId: nat)                       // the parser's first company

  /** What the ledger's operations report during one apply. */
  datatype Outcome = Outcome(
    callSucceeds: bool,   // matchImportedDeal, chargeBack, reinstatement, save + generateMembers
    newId: nat,           // the id uploadImportedDeal / uploadDealToAdvisor / the new deal returns; 0 = failure
    itemSaves: bool,      // the line passes validation on save()
    parentSaves: bool)    // the parent deal saves after its policy is rewritten

  /** The ledger operations apply asks for. */
  datatype LedgerOp =
    | MatchImported(kind: DealKind, id: nat)
    | ChargeBackBy(kind: DealKind, id: nat, amount: int)
    | Reinstate(id: nat, amount: int)
    | UploadImported(kind: DealKind, target: nat, asSubDeal: bool)
    | CreateRenewal(companyId: nat, clientName: string, grossAmount: int, parentDealId: nat, userId: nat)
    | SetClientPolicy(id: nat, policy: string)
    | UploadToAdvisorOp(kind: DealKind)

  datatype ApplyResult = ApplyResult(ok: bool, item: LineItem, ops: seq<LedgerOp>)

  /**
   * What every apply promises: success leaves the line Applied; failure keeps the solution
   * or downgrades it to Unmatch, and changes the status only when a final save failed; the
   * error list gains at most the one message the failure adds, and nothing on success.
   */
  predicate Settles(item: LineItem, out: Outcome, r: ApplyResult)
  {
    (r.ok ==> r.item.state.status == Applied)
    && item.log.errors <= r.item.log.errors && |r.item.log.errors| <= |item.log.errors| + 1
    && (r.ok ==> r.item.log.errors == item.log.errors)
    && (!r.ok ==> r.item.state.solution == item.state.solution || r.item.state.solution == Some(Unmatch))
    && (!r.ok ==> r.item.state.status == item.state.status || !out.itemSaves || !out.parentSaves)
  }

  /** findOne: a null id finds nothing. */
  function Lookup(ledger: Ledger, kind: DealKind, id: nat): (d: Option<LedgerDeal>)
    ensures d.Some? <==> id != 0 && (kind, id) in ledger.deals
  {
    if id != 0 && (kind, id) in ledger.deals then Some(ledger.deals[(kind, id)]) else None
  }

  /** An error that also downgrades the line to Unmatch. */
  function Reject(item: LineItem, msg: string, ops: seq<LedgerOp>): (r: ApplyResult)
    ensures !r.ok && r.item.state.solution == Some(Unmatch) && r.item.log.errors == item.log.errors + [msg]
    ensures r.item.state == item.state.(solution := Some(Unmatch))
  {
    ApplyResult(false, item.(log := item.log.(errors := item.log.errors + [msg]),
                             state := item.state.(solution := Some(Unmatch))), ops)
  }

  /** An error that keeps the solution. */
  function Refuse(item: LineItem, msg: string, ops: seq<LedgerOp>): (r: ApplyResult)
    ensures !r.ok && r.item.state == item.state && r.item.log.errors == item.log.errors + [msg]
  {
    ApplyResult(false, item.(log := item.log.(errors := item.log.errors + [msg])), ops)
  }

  /** The line resolved with the given solution. */
  function Resolved(item: LineItem, k: SolutionKind): (r: LineItem)
    ensures r == item.(state := item.state.(solution := Some(k), status := Applied))
  {
    item.(state := item.state.(solution := Some(k), status := Applied))
  }

  /** The line resolved by a new ledger deal. */
  function Created(item: LineItem, id: nat, kind: Option<DealKind>): (r: LineItem)
    ensures r == item.(state := item.state.(createdDealId := id, createdKind := kind, status := Applied))
  {
    item.(state := item.state.(createdDealId := id, createdKind := kind, status := Applied))
  }

  /** save(): validation may refuse; a saved line has its explanation log merged. */
  function Persist(item: LineItem, saves: bool): (r: LineItem)
    ensures r.state.status == item.state.status && r.state.solution == item.state.solution && r.log.errors == item.log.errors
    ensures r.state.createdDealId == item.state.createdDealId && r.state.createdKind == item.state.createdKind
    ensures r.state.matchedKind == item.state.matchedKind
  {
    if saves then Save(item) else item
  }

  /** The matching step shared by both match applies. */
  function MatchFound(item: LineItem, out: Outcome): (r: ApplyResult)
    ensures Settles(item, out, r)
    ensures r.ops == [MatchImported(item.line.kind, item.state.dealId)]
    ensures r.ok ==> r.item.state.status == Applied && r.item.state.matchedKind == Some(item.line.kind)
  {
    var ops := [MatchImported(item.line.kind, item.state.dealId)];
    if !out.callSucceeds then Reject(item, MatchingError, ops)
    else ApplyResult(out.itemSaves, Persist(item.(state := item.state.(matchedKind := Some(item.line.kind), status := Applied)), out.itemSaves), ops)
  }

  /**
   * MatchSolution::applySolution as written: the charge-back half of the guard asks the
   * statement line, which has no such method, so only a paid member stops the match.
   */
  function ApplyMatchAsWritten(item: LineItem, ledger: Ledger, out: Outcome): (r: ApplyResult)
    ensures Settles(item, out, r)
    ensures r.ok ==> Lookup(ledger, item.line.kind, item.state.dealId).Some? &&
                     !Lookup(ledger, item.line.kind, item.state.dealId).value.hasPaidMember
  {
    match Lookup(ledger, item.line.kind, item.state.dealId)
    case None => Reject(item, NotFoundError, [])
    case Some(d) =>
      if d.hasPaidMember then Reject(item, PaidOrChargedError, [])
      else MatchFound(item, out)
  }

  /** MatchSolution::applySolution as intended: a deal already paid or charged back is refused. */
  function ApplyMatch(item: LineItem, ledger: Ledger, out: Outcome): (r: ApplyResult)
    ensures Settles(item, out, r)
    ensures r.ok ==> Lookup(ledger, item.line.kind, item.state.dealId).Some? &&
                     !Lookup(ledger, item.line.kind, item.state.dealId).value.hasPaidMember &&
                     !Lookup(ledger, item.line.kind, item.state.dealId).value.hasChargeBack
    ensures r.ok ==> r.item.state.status == Applied && r.item.state.matchedKind == Some(item.line.kind)
    ensures !r.ok && r.item.state.status != Applied ==> r.item.state.solution == Some(Unmatch)
  {
    match Lookup(ledger, item.line.kind, item.state.dealId)
    case None => Reject(item, NotFoundError, [])
    case Some(d) =>
      if d.hasPaidMember || d.hasChargeBack then Reject(item, PaidOrChargedError, [])
      else MatchFound(item, out)
  }

  /** The guard as written lets a charged-back, unpaid deal be matched again. */
  lemma MatchOfChargedBackDeal(item: LineItem, ledger: Ledger, out: Outcome, d: LedgerDeal)
    requires Lookup(ledger, item.line.kind, item.state.dealId) == Some(d)
    requires d.hasChargeBack && !d.hasPaidMember && out.callSucceeds && out.itemSaves
    ensures ApplyMatchAsWritten(item, ledger, out).ok
    ensures !ApplyMatch(item, ledger, out).ok
    ensures ApplyMatch(item, ledger, out).item.log.errors == item.log.errors + [PaidOrChargedError]
  {
  }

  /** ChargeBackSolution::applySolution: the ledger deal is charged the credit's amount. */
  function ApplyChargeBack(item: LineItem, ledger: Ledger, out: Outcome): (r: ApplyResult)
    ensures Settles(item, out, r)
    ensures r.ok ==> r.item.state.solution == Some(ChargeBack) && r.item.state.status == Applied
    ensures r.ok ==> Lookup(ledger, item.line.kind, item.state.dealId).Some? &&
                     Lookup(ledger, item.line.kind, item.state.dealId).value.chargeBackPossible
    ensures r.ok ==> r.ops == [ChargeBackBy(item.line.kind, item.state.dealId, -item.line.commission)]
    ensures item.state.matchedKind.Some? && item.state.matchedKind != Some(item.line.kind) ==>
              r == Reject(item, ClassMismatchError, [])
    ensures !r.ok ==> r.item.state.solution == Some(Unmatch)
  {
    if item.state.matchedKind.Some? && item.state.matchedKind != Some(item.line.kind) then Reject(item, ClassMismatchError, [])
    else match Lookup(ledger, item.line.kind, item.state.dealId)
      case None => Reject(item, NotFoundError, [])
      case Some(d) =>
        if !d.chargeBackPossible then Reject(item, ChargeBackImpossibleError, [])
        else
          var ops := [ChargeBackBy(item.line.kind, item.state.dealId, -item.line.commission)];
          if !out.callSucceeds then Reject(item, ChargingError, ops)
          else ApplyResult(true, Save(Resolved(item, ChargeBack)), ops)
  }

  /** The class test shared by both reinstatement applies. */
  predicate ReinstatableClass(item: LineItem)
  {
    item.state.matchedKind == Some(item.line.kind) && item.line.kind == Insurance
  }

  function Reinstated(item: LineItem, out: Outcome): (r: ApplyResult)
    ensures Settles(item, out, r)
    ensures r.ops == [Reinstate(item.state.dealId, item.line.commission)]
  {
    var ops := [Reinstate(item.state.dealId, item.line.commission)];
    if !out.callSucceeds then Reject(item, ReinstatingError, ops)
    else ApplyResult(true, Save(Resolved(item, Reinstatement)), ops)
  }

  /**
   * ReinstatementSolution::applySolution as written: the test for an earlier reinstatement
   * reads a property of the solution object, which is never set, so only a missing charge
   * back stops the reinstatement.
   */
  function ApplyReinstatementAsWritten(item: LineItem, ledger: Ledger, out: Outcome): (r: ApplyResult)
    ensures Settles(item, out, r)
    ensures r.ok ==> Lookup(ledger, Insurance, item.state.dealId).Some? &&
                     Lookup(ledger, Insurance, item.state.dealId).value.lastChargeBack.Some?
  {
    if !ReinstatableClass(item) then Reject(item, ClassMismatchError, [])
    else match Lookup(ledger, Insurance, item.state.dealId)
      case None => Reject(item, NotFoundError, [])
      case Some(d) =>
        if d.lastChargeBack.None? then Reject(item, ReinstatementImpossibleError, [])
        else Reinstated(item, out)
  }

  /**
   * ReinstatementSolution::applySolution as intended: only a deal whose last charge back has
   * not been reinstated yet is reinstated, by the line's commission.
   */
  function ApplyReinstatement(item: LineItem, ledger: Ledger, out: Outcome): (r: ApplyResult)
    ensures Settles(item, out, r)
    ensures r.ok ==> Lookup(ledger, Insurance, item.state.dealId).Some? &&
                     Lookup(ledger, Insurance, item.state.dealId).value.lastChargeBack == Some(false)
    ensures r.ok ==> r.item.state.solution == Some(Reinstatement) && r.item.state.status == Applied &&
                     r.ops == [Reinstate(item.state.dealId, item.line.commission)]
    ensures !ReinstatableClass(item) ==> r == Reject(item, ClassMismatchError, [])
    ensures !r.ok ==> r.item.state.solution == Some(Unmatch)
  {
    if !ReinstatableClass(item) then Reject(item, ClassMismatchError, [])
    else match Lookup(ledger, Insurance, item.state.dealId)
      case None => Reject(item, NotFoundError, [])
      case Some(d) =>
        if d.lastChargeBack != Some(false) then Reject(item, ReinstatementImpossibleError, [])
        else Reinstated(item, out)
  }

  /** The guard as written reinstates the same charge back a second time. */
  lemma ReinstatementTwice(item: LineItem, ledger: Ledger, out: Outcome, d: LedgerDeal)
    requires ReinstatableClass(item)
    requires Lookup(ledger, Insurance, item.state.dealId) == Some(d) && d.lastChargeBack == Some(true)
    requires out.callSucceeds
    ensures ApplyReinstatementAsWritten(item, ledger, out).ok
    ensures ApplyReinstatementAsWritten(item, ledger, out).ops == [Reinstate(item.state.dealId, item.line.commission)]
    ensures !ApplyReinstatement(item, ledger, out).ok
  {
  }

  /**
   * UploadSolution::applySolution: the line is uploaded under the matched deal, or under its
   * parent when the matched deal is an Insurance sub-deal. A failed upload keeps the solution.
   */
  function ApplyUpload(item: LineItem, ledger: Ledger, out: Outcome): (r: ApplyResult)
    ensures Settles(item, out, r)
    ensures r.ok ==> item.state.matchedKind.Some? && r.item.state.status == Applied &&
                     r.item.state.createdDealId == out.newId != 0 && r.item.state.createdKind == item.state.matchedKind
    ensures r.ok ==> |r.ops| == 1 && r.ops[0].UploadImported? &&
                     r.ops[0].asSubDeal == (item.state.solution == Some(UploadSubDeal))
    ensures !r.ok ==> r.item.state.solution in {item.state.solution, Some(Unmatch)}
  {
    if item.state.matchedKind.None? then Reject(item, NotFoundError, [])
    else match Lookup(ledger, item.state.matchedKind.value, item.state.dealId)
      case None => Reject(item, NotFoundError, [])
      case Some(d) =>
        var target :=
          if item.state.matchedKind == Some(Insurance) && d.parentDealId != 0 then d.parentDealId else item.state.dealId;
        var ops := [UploadImported(item.state.matchedKind.value, target, item.state.solution == Some(UploadSubDeal))];
        if out.newId == 0 then Refuse(item, InsertError, ops)
        else
          var done := Created(item, out.newId, item.state.matchedKind);
          ApplyResult(out.itemSaves, Persist(done, out.itemSaves), ops)
  }

  /** stripos($policy, 'Pending') !== false */
  predicate PendingPolicy(policy: string)
  {
    Contains(ToLower(policy), "pending")
  }

  /**
   * UploadSubDealInsuranceRenewalCombinedSolution::applySolution: an Insurance line is a
   * plain upload; a Renewal line becomes a new Renewal deal under the matched Insurance deal,
   * paid the line's commission, and a parent policy still marked pending takes the line's.
   */
  function ApplyRenewalSubDeal(item: LineItem, ledger: Ledger, out: Outcome): (r: ApplyResult)
    ensures Settles(item, out, r)
    ensures item.line.kind == Insurance ==> r == ApplyUpload(item, ledger, out)
    ensures item.line.kind != Insurance && r.ok ==>
              Lookup(ledger, Insurance, item.state.dealId).Some? && r.item.state.status == Applied &&
              r.item.state.createdKind == Some(Renewal) && |r.ops| >= 1 && r.ops[0].CreateRenewal? &&
              r.ops[0].parentDealId == item.state.dealId && r.ops[0].grossAmount == item.line.commission
    ensures item.line.kind != Insurance && r.ok && PendingPolicy(Lookup(ledger, Insurance, item.state.dealId).value.clientPolicy) ==>
              |r.ops| == 2 && r.ops[1..] == [SetClientPolicy(item.state.dealId, item.line.policyNumber)]
  {
    if item.line.kind == Insurance then ApplyUpload(item, ledger, out)
    else match Lookup(ledger, Insurance, item.state.dealId)
      case None => Reject(item, NotFoundError, [])
      case Some(d) =>
        var owner :=
          if !item.line.isSharedFlag && IsShared(item) then
            (if (item.line.contractCode, d.companyId) in ledger.agentByCode
             then ledger.agentByCode[(item.line.contractCode, d.companyId)] else 0)
          else d.userId;
        var create := [CreateRenewal(d.companyId, item.line.clientName, item.line.commission, item.state.dealId, owner)];
        if !out.callSucceeds then Reject(item, InsertError, create)
        else
          var done := Created(item, out.newId, Some(Renewal));
          var rename := PendingPolicy(d.clientPolicy);
          var ops := create + (if rename then [SetClientPolicy(item.state.dealId, item.line.policyNumber)] else []);
          var parentOk := if rename then out.parentSaves else true;
          ApplyResult(out.itemSaves && parentOk, Persist(done, out.itemSaves), ops)
  }

  /**
   * UploadInsuranceAndRenewalsCombinedSolution::applySolution: a non-Renewal line with a
   * matched deal is a plain upload; otherwise a new top-level Renewal deal is created for the
   * line's saved agent, or for the matched deal's agent when none was saved.
   */
  function ApplyNewRenewal(item: LineItem, ledger: Ledger, out: Outcome): (r: ApplyResult)
    ensures Settles(item, out, r)
    ensures item.state.dealId != 0 && item.line.kind != Renewal ==> r == ApplyUpload(item, ledger, out)
    ensures (item.state.dealId == 0 || item.line.kind == Renewal) && r.ok ==>
              r.item.state.status == Applied && r.item.state.createdKind == Some(Renewal) &&
              |r.ops| == 1 && r.ops[0].CreateRenewal? && r.ops[0].userId != 0 &&
              r.ops[0].grossAmount == item.line.commission && r.ops[0].parentDealId == 0
    ensures (item.state.dealId == 0 || item.line.kind == Renewal) && item.data.user.Some? && item.data.user.value.userId != 0 ==>
              |r.ops| == 1 && r.ops[0].CreateRenewal? && r.ops[0].userId == item.data.user.value.userId
  {
    if item.state.dealId != 0 && item.line.kind != Renewal then ApplyUpload(item, ledger, out)
    else
      var advisorId: Option<nat> :=
        if item.data.user.Some? then Some(item.data.user.value.userId)
        else if item.state.matchedKind.None? then None
        else match Lookup(ledger, item.state.matchedKind.value, item.state.dealId)
          case None => None
          case Some(d) => Some(d.userId);
      if advisorId.None? then Reject(item, NotFoundError, [])
      else if item.data.user.None? && advisorId == Some(0) then Reject(item, AdvisorNotFoundError, [])
      else if advisorId == Some(0) then Refuse(item, AgentNotFoundError, [])
      else
        var ops := [CreateRenewal(ledger.firstCompanyId, item.line.clientName, item.line.commission, 0, advisorId.value)];
        if !out.callSucceeds then Refuse(item, InsertError, ops)
        else
          var done := Created(item, out.newId, Some(Renewal));
          ApplyResult(out.itemSaves, Persist(done, out.itemSaves), ops)
  }

  /** UploadToAdvisorSolution::applySolution: a new deal of the line's class for the chosen agent. */
  function ApplyToAdvisor(item: LineItem, out: Outcome): (r: ApplyResult)
    ensures Settles(item, out, r)
    ensures r.ops == [UploadToAdvisorOp(item.line.kind)]
    ensures r.ok ==> r.item.state.createdDealId == out.newId != 0 && r.item.state.createdKind == Some(item.line.kind) &&
                     r.item.state.status == Applied
    ensures !r.ok ==> r.item.state.solution == item.state.solution
  {
    var ops := [UploadToAdvisorOp(item.line.kind)];
    if out.newId == 0 then Refuse(item, InsertError, ops)
    else
      var done := Created(item, out.newId, Some(item.line.kind));
      ApplyResult(out.itemSaves, Persist(done, out.itemSaves), ops)
  }

  /**
   * applySolution of each strategy. Whatever the strategy, a successful apply leaves the line
   * Applied; a failed one either keeps the solution or downgrades it to Unmatch, and never
   * changes the status unless a final save was refused.
   */
  function Apply(st: Strategy, item: LineItem, ledger: Ledger, out: Outcome): (r: ApplyResult)
    ensures Settles(item, out, r)
    ensures IsUnmatchStrategy(st) ==> r.ok && r.item.state.solution == Some(Unmatch) && r.ops == []
  {
    match st
    case UnmatchSolution => ApplyResult(true, Save(Resolved(item, Unmatch)), [])
    case UnmatchIASolution => ApplyResult(true, Save(Resolved(item, Unmatch)), [])
    case MatchSolution => ApplyMatch(item, ledger, out)
    case MatchCombinedSolution => ApplyMatch(item, ledger, out)
    case ChargeBackSolution => ApplyChargeBack(item, ledger, out)
    case ReinstatementSolution => ApplyReinstatement(item, ledger, out)
    case UploadSolution => ApplyUpload(item, ledger, out)
    case UploadSubDealSolution => ApplyUpload(item, ledger, out)
    case UploadAhaSolution => ApplyUpload(item, ledger, out)
    case UploadSubDealCombinedSolution => ApplyRenewalSubDeal(item, ledger, out)
    case UploadRenewalSubDealSolution => ApplyRenewalSubDeal(item, ledger, out)
    case UploadCombinedSolution => ApplyNewRenewal(item, ledger, out)
    case UploadRenewalsSolution => ApplyNewRenewal(item, ledger, out)
    case UploadToAdvisorSolution => ApplyToAdvisor(item, out)
    case SsqUploadToAdvisorSolution => ApplyToAdvisor(item, out)
  }
}
