// What the resolvers decide, as values: the solution class map of each resolver, the
// first-fit cascade that picks a line's solution, the candidate filter, the explanations the
// search leaves, the advisor search and the apply step of one line. The Resolver class in
// resolver.dfy runs these over a batch of lines.
//
// Resolver variants: StandardResolver and its subclasses InsuranceAndRenewalsCombinedResolver,
// IndustrialAllianceInsuranceAndRenewalsResolver and SsqInsuranceAndRenewalsResolver (both
// through InsuranceAndRenewalsCombinedWithCodeResolver), EdgeBenefitsTravelAndHealthResolver
// and AhaResolver.

module ResolverSpec {
  import opened Wrappers
  import opened Domain
  import opened Text
  import opened Compliance
  import opened LineItems
  import opened Solutions
  import opened RelatedDeals

  datatype Variant = Standard | Combined | IndustrialAlliance | Ssq | Edge | Aha

  /** The resolvers that extend InsuranceAndRenewalsCombinedResolver. */
  predicate IsCombinedFamily(v: Variant)
  {
    v == Combined || v == IndustrialAlliance || v == Ssq
  }

  /** RELATED_DEALS_LIMIT: the most candidates a search returns. */
  const RelatedDealsLimit: nat := 5

  // ---- the solution class maps --------------------------------------------------------

  /**
   * The keys of getSolutionClassNames, in declaration order (getPossibleSolutions). The IA and
   * SSQ maps are array_merge overrides of the combined map: an overridden key keeps its place.
   */
  function PossibleSolutions(v: Variant): (ks: seq<SolutionKind>)
    ensures Unmatch in ks && UploadToAdvisor in ks && Skip !in ks
    ensures forall i, j :: 0 <= i < j < |ks| ==> ks[i] != ks[j]
  {
    match v
    case Standard =>
      [Match, ChargeBack, Reinstatement, UploadSubDeal, UploadRenewalSubDeal, UploadRenewals, Upload,
       UploadToAdvisor, Unmatch]
    case Edge => [Match, ChargeBack, Reinstatement, UploadSubDeal, Upload, UploadToAdvisor, Unmatch]
    case Aha => [Upload, UploadToAdvisor, Unmatch]
    case _ =>
      [Match, ChargeBack, Reinstatement, UploadRenewalSubDeal, UploadSubDeal, UploadRenewals, Upload,
       UploadToAdvisor, Unmatch]
  }

  /** StandardResolver's class map, under key `k`. */
  function StandardClass(k: SolutionKind): (r: Option<Strategy>)
    ensures r.Some? <==> k in PossibleSolutions(Standard)
    ensures r.Some? ==> Key(r.value) == k
  {
    match k
    case Skip => None
    case Match => Some(MatchSolution)
    case ChargeBack => Some(ChargeBackSolution)
    case Reinstatement => Some(ReinstatementSolution)
    case UploadSubDeal => Some(UploadSubDealSolution)
    case UploadRenewalSubDeal => Some(UploadRenewalSubDealSolution)
    case UploadRenewals => Some(UploadRenewalsSolution)
    case Upload => Some(UploadSolution)
    case UploadToAdvisor => Some(UploadToAdvisorSolution)
    case Unmatch => Some(UnmatchSolution)
  }

  /** InsuranceAndRenewalsCombinedResolver's class map, under key `k`. */
  function CombinedClass(k: SolutionKind): (r: Option<Strategy>)
    ensures r.Some? <==> k in PossibleSolutions(Combined)
    ensures r.Some? ==> Key(r.value) == k
  {
    match k
    case Skip => None
    case Match => Some(MatchCombinedSolution)
    case ChargeBack => Some(ChargeBackSolution)
    case Reinstatement => Some(ReinstatementSolution)
    case UploadSubDeal => Some(UploadSubDealCombinedSolution)
    case UploadRenewalSubDeal => Some(UploadRenewalSubDealSolution)
    case UploadRenewals => Some(UploadRenewalsSolution)
    case Upload => Some(UploadCombinedSolution)
    case UploadToAdvisor => Some(UploadToAdvisorSolution)
    case Unmatch => Some(UnmatchSolution)
  }

  /** EdgeBenefitsTravelAndHealthResolver's class map, under key `k`: no renewal uploads. */
  function EdgeClass(k: SolutionKind): (r: Option<Strategy>)
    ensures r.Some? <==> k in PossibleSolutions(Edge)
    ensures r.Some? ==> Key(r.value) == k
  {
    match k
    case Match => Some(MatchSolution)
    case ChargeBack => Some(ChargeBackSolution)
    case Reinstatement => Some(ReinstatementSolution)
    case UploadSubDeal => Some(UploadSubDealSolution)
    case Upload => Some(UploadSolution)
    case UploadToAdvisor => Some(UploadToAdvisorSolution)
    case Unmatch => Some(UnmatchSolution)
    case _ => None
  }

  /** AhaResolver's class map, under key `k`. */
  function AhaClass(k: SolutionKind): (r: Option<Strategy>)
    ensures r.Some? <==> k in PossibleSolutions(Aha)
    ensures r.Some? ==> Key(r.value) == k
  {
    match k
    case Upload => Some(UploadAhaSolution)
    case UploadToAdvisor => Some(UploadToAdvisorSolution)
    case Unmatch => Some(UnmatchSolution)
    case _ => None
  }

  /** getSolutions()[k]: the solution class each resolver declares under key `k`, if any. */
  function SolutionFor(v: Variant, k: SolutionKind): (r: Option<Strategy>)
    ensures r.Some? <==> k in PossibleSolutions(v)
    ensures r.Some? ==> Key(r.value) == k
  {
    match v
    case Standard => StandardClass(k)
    case Combined => CombinedClass(k)
    case IndustrialAlliance => if k == Unmatch then Some(UnmatchIASolution) else CombinedClass(k)
    case Ssq => if k == UploadToAdvisor then Some(SsqUploadToAdvisorSolution) else CombinedClass(k)
    case Edge => EdgeClass(k)
    case Aha => AhaClass(k)
  }

  /** getSolutionClassNames: solution key => solution class, in declaration order. */
  function ClassNames(v: Variant): (m: seq<(SolutionKind, Strategy)>)
    ensures |m| == |PossibleSolutions(v)|
    ensures forall i :: 0 <= i < |m| ==> m[i].0 == PossibleSolutions(v)[i] && Some(m[i].1) == SolutionFor(v, m[i].0)
  {
    var ks := PossibleSolutions(v);
    seq(|ks|, i requires 0 <= i < |ks| => (ks[i], SolutionFor(v, ks[i]).value))
  }

  /** The solutions a related-deals manager of this resolver tries: the class map's classes, in its order. */
  function Strategies(v: Variant): (ss: seq<Strategy>)
  {
    var ks := PossibleSolutions(v);
    seq(|ks|, i requires 0 <= i < |ks| => SolutionFor(v, ks[i]).value)
  }

  /** getSolutions instantiates the class map's classes in its order. */
  lemma StrategiesAreClassNames(v: Variant)
    ensures |Strategies(v)| == |ClassNames(v)|
    ensures forall i :: 0 <= i < |Strategies(v)| ==> Strategies(v)[i] == ClassNames(v)[i].1
  {
  }

  /** Each solution carries the key it is declared under, so the keys come in declaration order, each once. */
  lemma StrategiesKeys(v: Variant)
    ensures Keys(Strategies(v)) == PossibleSolutions(v)
    ensures DistinctKeys(Strategies(v))
  {
    var ss := Strategies(v);
    var ks := PossibleSolutions(v);
    assert forall i :: 0 <= i < |ss| ==> Key(ss[i]) == ks[i];
  }

  /** Every declared class is among the solutions a manager tries. */
  lemma StrategiesCover(v: Variant)
    ensures forall k :: k in PossibleSolutions(v) ==> SolutionFor(v, k).value in Strategies(v)
  {
    var ss := Strategies(v);
    var ks := PossibleSolutions(v);
    forall k | k in ks
      ensures SolutionFor(v, k).value in ss
    {
      var i :| 0 <= i < |ks| && ks[i] == k;
      assert ss[i] == SolutionFor(v, k).value;
    }
  }

  /** The IA resolver declares the same keys as the combined one and swaps only its Unmatch class. */
  lemma IndustrialAllianceSwapsUnmatch()
    ensures PossibleSolutions(IndustrialAlliance) == PossibleSolutions(Combined)
    ensures SolutionFor(IndustrialAlliance, Unmatch) == Some(UnmatchIASolution)
    ensures forall k :: k != Unmatch ==> SolutionFor(IndustrialAlliance, k) == SolutionFor(Combined, k)
  {
  }

  /** The SSQ resolver declares the same keys as the combined one and swaps only its manual-match upload. */
  lemma SsqSwapsUploadToAdvisor()
    ensures PossibleSolutions(Ssq) == PossibleSolutions(Combined)
    ensures SolutionFor(Ssq, UploadToAdvisor) == Some(SsqUploadToAdvisorSolution)
    ensures forall k :: k != UploadToAdvisor ==> SolutionFor(Ssq, k) == SolutionFor(Combined, k)
  {
  }

  /** The Edge resolver has no renewal uploads. */
  lemma EdgeHasNoRenewalUploads()
    ensures UploadRenewalSubDeal !in PossibleSolutions(Edge) && UploadRenewals !in PossibleSolutions(Edge)
    ensures |PossibleSolutions(Edge)| == 7
  {
  }

  /** The AHA resolver has exactly three solutions, and its upload is the AHA one. */
  lemma AhaSolutionSet()
    ensures forall k :: k in PossibleSolutions(Aha) <==> k == Upload || k == UploadToAdvisor || k == Unmatch
    ensures SolutionFor(Aha, Upload) == Some(UploadAhaSolution)
  {
  }

  /** SOLUTION_COUNTER_LABELS, in its declaration order. */
  const CounterOrder: seq<SolutionKind> :=
    [UploadSubDeal, UploadRenewalSubDeal, Upload, UploadRenewals, Match, Unmatch, UploadToAdvisor,
     ChargeBack, Reinstatement]

  /** The keys a label list names. */
  function LabelKeys(r: seq<(SolutionKind, string)>): seq<SolutionKind>
  {
    seq(|r|, i requires 0 <= i < |r| => r[i].0)
  }

  /** The labels of the given keys that the resolver declares (array_intersect_key keeps the first order). */
  function LabelsOf(v: Variant, order: seq<SolutionKind>): (r: seq<(SolutionKind, string)>)
    requires Skip !in order
    ensures forall p :: p in r ==> p.0 in order && p.0 in PossibleSolutions(v) && Some(p.1) == CounterLabel(p.0)
    ensures forall k :: k in order && k in PossibleSolutions(v) ==> k in LabelKeys(r)
  {
    if order == [] then []
    else
      var rest := LabelsOf(v, order[1..]);
      assert forall k :: k in order[1..] && k in PossibleSolutions(v) ==> k in LabelKeys(rest);
      if order[0] in PossibleSolutions(v) then
        var r := [(order[0], CounterLabel(order[0]).value)] + rest;
        assert LabelKeys(r) == [order[0]] + LabelKeys(rest);
        r
      else rest
  }

  /** getSolutionsCountersLabels: the counter labels restricted to the resolver's solution keys. */
  function CounterLabels(v: Variant): (r: seq<(SolutionKind, string)>)
    ensures forall p :: p in r ==> p.0 in PossibleSolutions(v) && Some(p.1) == CounterLabel(p.0)
  {
    LabelsOf(v, CounterOrder)
  }

  /** Every key but Skip is in the counter order. */
  lemma InCounterOrder(k: SolutionKind)
    requires k != Skip
    ensures k in CounterOrder
  {
    match k {
      case Upload =>
      case UploadRenewals =>
      case UploadSubDeal =>
      case UploadRenewalSubDeal =>
      case UploadToAdvisor =>
      case ChargeBack =>
      case Reinstatement =>
      case Match =>
      case Unmatch =>
    }
  }

  lemma CounterKeyIsPossible(v: Variant, k: SolutionKind)
    requires k in LabelKeys(CounterLabels(v))
    ensures k in PossibleSolutions(v)
  {
    var r := CounterLabels(v);
    var i :| 0 <= i < |r| && LabelKeys(r)[i] == k;
    assert r[i] in r;
  }

  /** Every solution of the resolver has a counter, and no other key has one. */
  lemma CounterLabelsMatchSolutions(v: Variant, k: SolutionKind)
    ensures k in LabelKeys(CounterLabels(v)) <==> k in PossibleSolutions(v)
  {
    if k in PossibleSolutions(v) {
      InCounterOrder(k);
    }
    if k in LabelKeys(CounterLabels(v)) {
      CounterKeyIsPossible(v, k);
    }
  }

  // ---- findSolutions: the first-fit cascade ------------------------------------------

  /** The order in which findSolutions asks the solutions whether they fit. */
  function CascadeOrder(v: Variant): (order: seq<SolutionKind>)
    ensures |order| > 0 && order[0] == Unmatch
    ensures forall k :: k in order ==> k in PossibleSolutions(v) && k != UploadToAdvisor
  {
    match v
    case Edge => [Unmatch, ChargeBack, Reinstatement, UploadSubDeal, Match, Upload]
    case Aha => [Unmatch, Upload]
    case _ => [Unmatch, ChargeBack, Reinstatement, Match, UploadSubDeal, UploadRenewalSubDeal, Upload, UploadRenewals]
  }

  /** The solution the cascade picks and the line as the fitness tests left it. */
  datatype Pick = Pick(solution: SolutionKind, item: LineItem)

  /** The fitness test of key `k` in resolver `v` (false for a key the resolver lacks: isset). */
  function FitOf(v: Variant, k: SolutionKind, item: LineItem, rel: Related, clients: map<string, set<string>>): (f: Verdict)
    ensures SolutionFor(v, k).None? ==> f == Verdict(false, item)
    ensures k != UploadToAdvisor && !f.fits ==> f.item == item
  {
    match SolutionFor(v, k)
    case None => Verdict(false, item)
    case Some(st) => IsFit(st, item, rel, clients)
  }

  /**
   * switch (true): the keys are tried in order and the first whose isFit holds is picked; the
   * tests that did not fit may still have logged on the line; with no fit the default case
   * picks Unmatch.
   */
  function Cascade(v: Variant, order: seq<SolutionKind>, item: LineItem, rel: Related, clients: map<string, set<string>>): (p: Pick)
    ensures p.solution in PossibleSolutions(v)
  {
    if order == [] then Pick(Unmatch, item)
    else
      var f := FitOf(v, order[0], item, rel, clients);
      if f.fits then Pick(order[0], f.item) else Cascade(v, order[1..], f.item, rel, clients)
  }

  /** The cascade picks the first key whose test fits, and the line as that test left it. */
  lemma {:induction false} CascadeFirstFit(v: Variant, order: seq<SolutionKind>, item: LineItem, rel: Related,
                                           clients: map<string, set<string>>, j: nat)
    requires j < |order| && UploadToAdvisor !in order
    requires forall h :: 0 <= h < j ==> !FitOf(v, order[h], item, rel, clients).fits
    requires FitOf(v, order[j], item, rel, clients).fits
    ensures Cascade(v, order, item, rel, clients) == Pick(order[j], FitOf(v, order[j], item, rel, clients).item)
  {
    if j > 0 {
      assert !FitOf(v, order[0], item, rel, clients).fits;
      assert order[1..][j - 1] == order[j];
      forall h | 0 <= h < j - 1 ensures !FitOf(v, order[1..][h], item, rel, clients).fits {
        assert order[1..][h] == order[h + 1];
      }
      CascadeFirstFit(v, order[1..], item, rel, clients, j - 1);
    }
  }

  /** When no test fits, the default case picks Unmatch and the line is as it was. */
  lemma {:induction false} CascadeDefault(v: Variant, order: seq<SolutionKind>, item: LineItem, rel: Related,
                                          clients: map<string, set<string>>)
    requires UploadToAdvisor !in order
    requires forall h :: 0 <= h < |order| ==> !FitOf(v, order[h], item, rel, clients).fits
    ensures Cascade(v, order, item, rel, clients) == Pick(Unmatch, item)
  {
    if order != [] {
      assert !FitOf(v, order[0], item, rel, clients).fits;
      forall h | 0 <= h < |order| - 1 ensures !FitOf(v, order[1..][h], item, rel, clients).fits {
        assert order[1..][h] == order[h + 1];
      }
      CascadeDefault(v, order[1..], item, rel, clients);
    }
  }

  /** The batch map of the IA resolver; the other resolvers pass none. */
  function ClientsFor(v: Variant, batch: map<string, set<string>>): (clients: map<string, set<string>>)
    ensures v != IndustrialAlliance ==> clients == map[]
  {
    if v == IndustrialAlliance then batch else map[]
  }

  /** The resolvers whose findSolutions copies a pre-tagged solution (the combined one, inherited by SSQ). */
  predicate CopiesPreTag(v: Variant)
  {
    v == Combined || v == Ssq
  }

  /**
   * The solution findSolutions gives one line, once its candidates are classified: a pre-tagged
   * solution is copied as it is, otherwise the cascade's pick is set.
   */
  function Resolve(v: Variant, item: LineItem, rel: Related, clients: map<string, set<string>>): (r: LineItem)
    ensures r.state.solution.Some?
    ensures CopiesPreTag(v) && item.data.preTaggedSolution.Some? ==>
              r == item.(state := item.state.(solution := item.data.preTaggedSolution))
    ensures !(CopiesPreTag(v) && item.data.preTaggedSolution.Some?) ==>
              r.state.solution.value in PossibleSolutions(v) &&
              r == Cascade(v, CascadeOrder(v), item, rel, clients).item.(state := r.state) &&
              r.state == item.state.(solution := r.state.solution)
  {
    if CopiesPreTag(v) && item.data.preTaggedSolution.Some? then
      item.(state := item.state.(solution := item.data.preTaggedSolution))
    else
      var p := Cascade(v, CascadeOrder(v), item, rel, clients);
      CascadeKeepsState(v, CascadeOrder(v), item, rel, clients);
      SetSolution(SolutionFor(v, p.solution).value, p.item)
  }

  /** The fitness tests never touch the resolution part of the line. */
  lemma {:induction false} CascadeKeepsState(v: Variant, order: seq<SolutionKind>, item: LineItem, rel: Related,
                                             clients: map<string, set<string>>)
    ensures Cascade(v, order, item, rel, clients).item.state == item.state
  {
    if order != [] {
      var f := FitOf(v, order[0], item, rel, clients);
      assert f.item.state == item.state by {
        match SolutionFor(v, order[0])
        case None =>
        case Some(st) =>
      }
      if !f.fits {
        CascadeKeepsState(v, order[1..], f.item, rel, clients);
      }
    }
  }

  /** A line with no reason to match anything is unmatched, whatever the resolver. */
  lemma UnmatchableLineUnmatches(v: Variant, item: LineItem, rel: Related, clients: map<string, set<string>>)
    requires !(CopiesPreTag(v) && item.data.preTaggedSolution.Some?)
    requires Unmatchable(item, rel)
    ensures Resolve(v, item, rel, clients).state.solution == Some(Unmatch)
  {
    var order := CascadeOrder(v);
    assert FitOf(v, order[0], item, rel, clients).fits;
    CascadeFirstFit(v, order, item, rel, clients, 0);
  }

  /** The cascade's default: with no fit, the line is set to Unmatch and nothing else changes. */
  lemma NoFitUnmatches(v: Variant, item: LineItem, rel: Related, clients: map<string, set<string>>)
    requires !(CopiesPreTag(v) && item.data.preTaggedSolution.Some?)
    requires forall k :: k in CascadeOrder(v) ==> !FitOf(v, k, item, rel, clients).fits
    ensures Resolve(v, item, rel, clients) == item.(state := item.state.(solution := Some(Unmatch)))
  {
    var order := CascadeOrder(v);
    forall h | 0 <= h < |order| ensures !FitOf(v, order[h], item, rel, clients).fits {
      assert order[h] in order;
    }
    CascadeDefault(v, order, item, rel, clients);
  }

  /** The standard order: a match is preferred to every upload, a charge back to a match. */
  lemma StandardPrefersMatchToUpload(item: LineItem, rel: Related)
    requires !Unmatchable(item, rel) && !item.flags.hasAgentWithoutEoOrLicense
    requires item.line.commission > 0 && Match in rel.found && Reinstatement !in rel.found
    ensures Resolve(Standard, item, rel, map[]).state.solution == Some(Match)
  {
    StandardPicksMatch(item, rel);
  }

  /** The standard cascade passes over Unmatch, ChargeBack and Reinstatement and stops at Match. */
  lemma StandardPicksMatch(item: LineItem, rel: Related)
    requires !Unmatchable(item, rel) && !item.flags.hasAgentWithoutEoOrLicense
    requires item.line.commission > 0 && Match in rel.found && Reinstatement !in rel.found
    ensures Cascade(Standard, CascadeOrder(Standard), item, rel, map[]).solution == Match
  {
    var order := CascadeOrder(Standard);
    StandardHeadFits(item, rel);
    StandardMatchFits(item, rel);
    CascadeSkip(Standard, order, item, rel, map[]);
    CascadeSkip(Standard, order[1..], item, rel, map[]);
    CascadeSkip(Standard, order[2..], item, rel, map[]);
    assert order[1..][1..] == order[2..] && order[2..][1..] == order[3..] && order[3] == Match;
  }

  /** A key whose test does not fit passes the line on unchanged to the rest of the order. */
  lemma CascadeSkip(v: Variant, order: seq<SolutionKind>, item: LineItem, rel: Related, clients: map<string, set<string>>)
    requires order != [] && order[0] != UploadToAdvisor && !FitOf(v, order[0], item, rel, clients).fits
    ensures Cascade(v, order, item, rel, clients) == Cascade(v, order[1..], item, rel, clients)
  {
  }

  /** The first three tests of the standard order do not fit such a line. */
  lemma StandardHeadFits(item: LineItem, rel: Related)
    requires !Unmatchable(item, rel) && !item.flags.hasAgentWithoutEoOrLicense
    requires item.line.commission > 0 && Reinstatement !in rel.found
    ensures !FitOf(Standard, Unmatch, item, rel, map[]).fits
    ensures !FitOf(Standard, ChargeBack, item, rel, map[]).fits
    ensures !FitOf(Standard, Reinstatement, item, rel, map[]).fits
  {
  }

  /** Match fits a line with a Match candidate and no compliance flag. */
  lemma StandardMatchFits(item: LineItem, rel: Related)
    requires !item.flags.hasAgentWithoutEoOrLicense && Match in rel.found
    ensures FitOf(Standard, Match, item, rel, map[]) == Verdict(true, item)
  {
  }

  /**
   * A sub-deal upload needs no Match candidate and a match needs one, so the Edge order, which
   * asks the sub-deal upload first, picks the same as the standard one between these two.
   */
  lemma SubDealExcludesMatch(v: Variant, item: LineItem, rel: Related, clients: map<string, set<string>>)
    ensures !(FitOf(v, UploadSubDeal, item, rel, clients).fits && FitOf(v, Match, item, rel, clients).fits)
  {
    var sub, m := SolutionFor(v, UploadSubDeal), SolutionFor(v, Match);
    if sub.Some? && m.Some? {
      KeyedExclusion(sub.value, m.value, item, rel);
    }
  }

  /** Any sub-deal upload test and any match test disagree on whether a Match candidate exists. */
  lemma KeyedExclusion(sub: Strategy, m: Strategy, item: LineItem, rel: Related)
    requires Key(sub) == UploadSubDeal && Key(m) == Match
    ensures !(Qualifies(sub, item, rel) && Qualifies(m, item, rel))
  {
  }

  // ---- filterRelevantDeals -------------------------------------------------------------

  /** skipIncorrectDeal: an Insurance candidate split differently from the line, or under a parent with no paid member. */
  predicate SkipsIncorrect(item: LineItem, c: Candidate)
  {
    c.kind == Insurance && (IsShared(item) != c.isShared || (c.parentDealId != 0 && !c.parentHasPaidMember))
  }

  /**
   * isUserBlockedForCompany against the blocked users of each company (`db`): no company, or
   * no ids, blocks nothing; an id of 0 (null) is never a blocked user.
   */
  predicate Blocked(db: nat -> set<nat>, ids: seq<nat>, companyId: nat)
  {
    companyId != 0 && exists i :: 0 <= i < |ids| && ids[i] != 0 && ids[i] in db(companyId)
  }

  /** The candidate's agents, as filterRelevantDeals passes them. */
  function Agents(c: Candidate): seq<nat>
  {
    [c.userId, c.shareAdvisorId]
  }

  /** A candidate the blocked-company check looks at and lets through. */
  predicate Unblocked(db: nat -> set<nat>, item: LineItem, c: Candidate)
  {
    !SkipsIncorrect(item, c) && !Blocked(db, Agents(c), c.companyId)
  }

  /** skipDealWithoutNbt does something only in the standard resolver and the Edge one, which inherits it. */
  predicate DropsWithoutNbt(v: Variant)
  {
    v == Standard || v == Edge
  }

  /** The candidates filterRelevantDeals passes over without a licence check. */
  predicate ShapeSkip(item: LineItem, c: Candidate)
  {
    (item.line.commission > 0 && c.amount == 0) || (item.line.commission < 0 && c.amount > 0)
    || FitReinstatement(item, c).fits
  }

  /** The licence check of a candidate, for the line's class. */
  predicate Licensed(g: Gate, item: LineItem, c: Candidate)
  {
    Passes(g, OfDeal(item.line.kind), c.userId, c.shareAdvisorId, c.stateId, false)
  }

  /**
   * The candidates that survive the filter: not incorrect, not blocked, not dropped for a
   * missing NBT record, and either passed over by the shape test, licensed, or under a split
   * line (a split line keeps unlicensed candidates).
   */
  predicate Keeps(v: Variant, g: Gate, db: nat -> set<nat>, item: LineItem, c: Candidate)
  {
    Unblocked(db, item, c) && !(DropsWithoutNbt(v) && c.kind != Renewal && !c.hasNbt)
    && (ShapeSkip(item, c) || Licensed(g, item, c) || IsShared(item))
  }

  /** The line and its remaining candidates as the filter goes. */
  datatype Filtered = Filtered(item: LineItem, entries: seq<Entry>)

  /** The blocked-company flag: `?? false` keeps a value already set and turns null into false. */
  function WithBlockFlag(item: LineItem, b: Option<bool>): (r: LineItem)
    ensures r.flags.hasDealWithoutBlockedCompany == b
    ensures r == item.(flags := item.flags.(hasDealWithoutBlockedCompany := b))
  {
    item.(flags := item.flags.(hasDealWithoutBlockedCompany := b))
  }

  /** The licence flag and its explanation. */
  function WithLicence(item: LineItem, without: bool, e: string): (r: LineItem)
    ensures r.flags.hasAgentWithoutEoOrLicense == without && r.flags.withoutEoOrLicenseExplanation == e
    ensures r == item.(flags := item.flags.(hasAgentWithoutEoOrLicense := without, withoutEoOrLicenseExplanation := e))
  {
    item.(flags := item.flags.(hasAgentWithoutEoOrLicense := without, withoutEoOrLicenseExplanation := e))
  }

  /**
   * What one pass of the inner loop of filterRelevantDeals does to the line's flags for the
   * candidate `c`: an incorrect candidate is passed over, a blocked one sets the blocked-company
   * flag with `?? false`, any other sets it true and, unless the shape test passes it over,
   * sets the licence flag (for an unsplit line that fails the check, with its explanation).
   */
  function StepItem(v: Variant, g: Gate, db: nat -> set<nat>, item: LineItem, c: Candidate): (r: LineItem)
    ensures r == item.(flags := r.flags)
    ensures SkipsIncorrect(item, c) ==> r == item
    ensures !SkipsIncorrect(item, c) ==>
              r.flags.hasDealWithoutBlockedCompany ==
                Some(!Blocked(db, Agents(c), c.companyId) || item.flags.hasDealWithoutBlockedCompany == Some(true))
    ensures Unblocked(db, item, c) && !ShapeSkip(item, c) ==>
              (r.flags.hasAgentWithoutEoOrLicense <==> !Licensed(g, item, c) && !IsShared(item))
  {
    if SkipsIncorrect(item, c) then item
    else if Blocked(db, Agents(c), c.companyId) then
      WithBlockFlag(item, Some(item.flags.hasDealWithoutBlockedCompany == Some(true)))
    else
      var seen := WithBlockFlag(item, Some(true));
      if ShapeSkip(item, c) then seen
      else if !Licensed(g, item, c) && !IsShared(item) then
        WithLicence(seen, true, WithoutEoOrLicenseExplanation(OfDeal(item.line.kind), g.enabled))
      else WithLicence(seen, false, seen.flags.withoutEoOrLicenseExplanation)
  }

  /**
   * One pass of the inner loop over the snapshot entry `e`. Every way the loop drops a
   * candidate is an unsetDeal of its key, and a second unset of the same key changes nothing,
   * so the candidate is dropped exactly when `Keeps` rejects it.
   */
  function FilterStep(v: Variant, g: Gate, db: nat -> set<nat>, f: Filtered, e: Entry): (r: Filtered)
    ensures r.item == StepItem(v, g, db, f.item, e.deal)
    ensures forall x :: x in r.entries <==> x in f.entries && (x.key != e.key || Keeps(v, g, db, f.item, e.deal))
  {
    Filtered(StepItem(v, g, db, f.item, e.deal),
             if Keeps(v, g, db, f.item, e.deal) then f.entries else Without(f.entries, e.key))
  }

  /** The inner loop over the first `n` candidates of the snapshot taken before it. */
  function FilterUpTo(v: Variant, g: Gate, db: nat -> set<nat>, item: LineItem, snap: seq<Entry>, n: nat): (r: Filtered)
    requires n <= |snap|
    ensures r.item.line == item.line && r.item.data == item.data && r.item.state == item.state && r.item.log == item.log
  {
    if n == 0 then Filtered(item, snap)
    else FilterStep(v, g, db, FilterUpTo(v, g, db, item, snap, n - 1), snap[n - 1])
  }

  /** The filter only removes entries, so keys unique in the snapshot stay unique. */
  lemma {:induction false} FilterUnique(v: Variant, g: Gate, db: nat -> set<nat>, item: LineItem, snap: seq<Entry>, n: nat)
    requires n <= |snap| && UniqueKeys(snap)
    ensures UniqueKeys(FilterUpTo(v, g, db, item, snap, n).entries)
  {
    if n > 0 {
      FilterUnique(v, g, db, item, snap, n - 1);
      StepUniqueAt(v, g, db, item, snap, n);
    }
  }

  /** The induction step of FilterUnique. */
  lemma StepUniqueAt(v: Variant, g: Gate, db: nat -> set<nat>, item: LineItem, snap: seq<Entry>, n: nat)
    requires 0 < n <= |snap| && UniqueKeys(FilterUpTo(v, g, db, item, snap, n - 1).entries)
    ensures UniqueKeys(FilterUpTo(v, g, db, item, snap, n).entries)
  {
    StepUnique(v, g, db, FilterUpTo(v, g, db, item, snap, n - 1), snap[n - 1]);
  }

  /** One pass keeps the keys unique. */
  lemma StepUnique(v: Variant, g: Gate, db: nat -> set<nat>, f: Filtered, e: Entry)
    requires UniqueKeys(f.entries)
    ensures UniqueKeys(FilterStep(v, g, db, f, e).entries)
  {
    WithoutUnique(f.entries, e.key);
  }

  /** The filter keeps exactly the candidates `Keeps` accepts, each once. */
  lemma {:induction false} FilterKeeps(v: Variant, g: Gate, db: nat -> set<nat>, item: LineItem, snap: seq<Entry>, n: nat)
    requires n <= |snap| && UniqueKeys(snap)
    ensures forall x :: x in FilterUpTo(v, g, db, item, snap, n).entries <==>
                        x in snap && (x in snap[..n] ==> Keeps(v, g, db, item, x.deal))
  {
    if n > 0 {
      FilterKeeps(v, g, db, item, snap, n - 1);
      forall x ensures x in FilterUpTo(v, g, db, item, snap, n).entries <==>
                       x in snap && (x in snap[..n] ==> Keeps(v, g, db, item, x.deal))
      {
        FilterKeepsOne(v, g, db, item, snap, n, x);
      }
    }
  }

  /** Over the whole snapshot: the filter keeps exactly the candidates `Keeps` accepts, each once. */
  lemma FilterAll(v: Variant, g: Gate, db: nat -> set<nat>, item: LineItem, snap: seq<Entry>)
    requires UniqueKeys(snap)
    ensures UniqueKeys(FilterUpTo(v, g, db, item, snap, |snap|).entries)
    ensures forall x :: x in FilterUpTo(v, g, db, item, snap, |snap|).entries <==> x in snap && Keeps(v, g, db, item, x.deal)
  {
    FilterKeeps(v, g, db, item, snap, |snap|);
    FilterUnique(v, g, db, item, snap, |snap|);
    assert snap[..|snap|] == snap;
  }

  /** The induction step of FilterKeeps for one entry. */
  lemma FilterKeepsOne(v: Variant, g: Gate, db: nat -> set<nat>, item: LineItem, snap: seq<Entry>, n: nat, x: Entry)
    requires 0 < n <= |snap| && UniqueKeys(snap)
    requires x in FilterUpTo(v, g, db, item, snap, n - 1).entries <==>
             x in snap && (x in snap[..n - 1] ==> Keeps(v, g, db, item, x.deal))
    ensures x in FilterUpTo(v, g, db, item, snap, n).entries <==>
            x in snap && (x in snap[..n] ==> Keeps(v, g, db, item, x.deal))
  {
    var prev := FilterUpTo(v, g, db, item, snap, n - 1);
    var e := snap[n - 1];
    assert prev.item.line == item.line;
    KeepsReadsLine(v, g, db, prev.item, item, e.deal);
    assert snap[..n] == snap[..n - 1] + [e];
    if x in snap && x.key == e.key {
      SameKeyIsEntry(snap, n, x);
    }
  }

  /** In a list with unique keys, the entry with the key of entry `n - 1` is that entry, and not earlier. */
  lemma SameKeyIsEntry(snap: seq<Entry>, n: nat, x: Entry)
    requires 0 < n <= |snap| && UniqueKeys(snap) && x in snap && x.key == snap[n - 1].key
    ensures x == snap[n - 1] && x !in snap[..n - 1]
  {
    var i :| 0 <= i < |snap| && snap[i] == x;
    KeyDetermines(snap, i, n - 1);
    forall j | 0 <= j < n - 1 ensures snap[j] != x {
      assert snap[j].key != snap[n - 1].key;
    }
  }

  /** In a list with unique keys, the key determines the position. */
  lemma KeyDetermines(es: seq<Entry>, i: nat, j: nat)
    requires UniqueKeys(es) && i < |es| && j < |es|
    ensures es[i].key == es[j].key ==> i == j
  {
  }

  /** The filter's tests read only the statement row of the line. */
  lemma KeepsReadsLine(v: Variant, g: Gate, db: nat -> set<nat>, a: LineItem, b: LineItem, c: Candidate)
    requires a.line == b.line
    ensures Keeps(v, g, db, a, c) == Keeps(v, g, db, b, c)
    ensures SkipsIncorrect(a, c) == SkipsIncorrect(b, c) && Unblocked(db, a, c) == Unblocked(db, b, c)
  {
    assert IsShared(a) == IsShared(b);
    assert FitReinstatement(a, c) == FitReinstatement(b, c);
  }

  /**
   * The blocked-company flag after the first `n` candidates of the snapshot, stated on its own:
   * an incorrect candidate leaves it, any other sets it with `?? false`, true once a candidate
   * outside a blocked company was looked at.
   */
  function BlockFlag(db: nat -> set<nat>, item: LineItem, snap: seq<Entry>, n: nat): Option<bool>
    requires n <= |snap|
  {
    if n == 0 then item.flags.hasDealWithoutBlockedCompany
    else
      var c := snap[n - 1].deal;
      if SkipsIncorrect(item, c) then BlockFlag(db, item, snap, n - 1)
      else Some(!Blocked(db, Agents(c), c.companyId) || BlockFlag(db, item, snap, n - 1) == Some(true))
  }

  /** The inner loop leaves the blocked-company flag that BlockFlag describes. */
  lemma {:induction false} FilterBlockFlag(v: Variant, g: Gate, db: nat -> set<nat>, item: LineItem, snap: seq<Entry>, n: nat)
    requires n <= |snap|
    ensures FilterUpTo(v, g, db, item, snap, n).item.flags.hasDealWithoutBlockedCompany == BlockFlag(db, item, snap, n)
  {
    if n > 0 {
      FilterBlockFlag(v, g, db, item, snap, n - 1);
      BlockFlagAt(v, g, db, item, snap, n);
    }
  }

  /** The induction step of FilterBlockFlag. */
  lemma BlockFlagAt(v: Variant, g: Gate, db: nat -> set<nat>, item: LineItem, snap: seq<Entry>, n: nat)
    requires 0 < n <= |snap|
    requires FilterUpTo(v, g, db, item, snap, n - 1).item.flags.hasDealWithoutBlockedCompany == BlockFlag(db, item, snap, n - 1)
    ensures FilterUpTo(v, g, db, item, snap, n).item.flags.hasDealWithoutBlockedCompany == BlockFlag(db, item, snap, n)
  {
    var prev := FilterUpTo(v, g, db, item, snap, n - 1);
    var c := snap[n - 1].deal;
    assert FilterUpTo(v, g, db, item, snap, n).item == StepItem(v, g, db, prev.item, c);
    StepBlockFlag(v, g, db, prev.item, item, c);
  }

  /** One candidate's effect on the blocked-company flag, read against the line's own row. */
  lemma StepBlockFlag(v: Variant, g: Gate, db: nat -> set<nat>, a: LineItem, item: LineItem, c: Candidate)
    requires a.line == item.line
    ensures StepItem(v, g, db, a, c).flags.hasDealWithoutBlockedCompany ==
              if SkipsIncorrect(item, c) then a.flags.hasDealWithoutBlockedCompany
              else Some(!Blocked(db, Agents(c), c.companyId) || a.flags.hasDealWithoutBlockedCompany == Some(true))
  {
    KeepsReadsLine(v, g, db, a, item, c);
  }

  /** hasDealWithoutBlockedCompany is true once a looked-at candidate passed the blocked check. */
  lemma {:induction false} UnblockedSetsFlag(db: nat -> set<nat>, item: LineItem, snap: seq<Entry>, n: nat, i: nat)
    requires i < n <= |snap| && Unblocked(db, item, snap[i].deal)
    ensures BlockFlag(db, item, snap, n) == Some(true)
  {
    if i < n - 1 {
      UnblockedSetsFlag(db, item, snap, n - 1, i);
    }
  }

  /** With no candidate looked at, the flag is as it was. */
  lemma {:induction false} AllIncorrectKeepsFlag(db: nat -> set<nat>, item: LineItem, snap: seq<Entry>, n: nat)
    requires n <= |snap| && forall i :: 0 <= i < n ==> SkipsIncorrect(item, snap[i].deal)
    ensures BlockFlag(db, item, snap, n) == item.flags.hasDealWithoutBlockedCompany
  {
    if n > 0 {
      AllIncorrectKeepsFlag(db, item, snap, n - 1);
    }
  }

  /**
   * When every looked-at candidate was blocked, the flag is false unless it was already true:
   * `?? false` turns null into false.
   */
  lemma {:induction false} AllBlockedClearsFlag(db: nat -> set<nat>, item: LineItem, snap: seq<Entry>, n: nat)
    requires n <= |snap| && forall i :: 0 <= i < n ==> !Unblocked(db, item, snap[i].deal)
    requires exists i :: 0 <= i < n && !SkipsIncorrect(item, snap[i].deal)
    ensures BlockFlag(db, item, snap, n) == Some(item.flags.hasDealWithoutBlockedCompany == Some(true))
  {
    if exists i :: 0 <= i < n - 1 && !SkipsIncorrect(item, snap[i].deal) {
      AllBlockedClearsFlag(db, item, snap, n - 1);
    } else {
      AllIncorrectKeepsFlag(db, item, snap, n - 1);
    }
  }
}
