// Entities shared by the whole commission-statement matching engine: the deal classes of the
// ledger, the solution keys, the line-item statuses, the ledger candidates and the statement
// line items themselves (DealContainer).
//
// Conventions used throughout the model:
//  * money is an integer number of cents;
//  * a record id of 0 stands for PHP null (ids of stored records are positive, so PHP's
//    truthiness of an id and `id != 0` agree);
//  * a nullable string is modelled as a string where "" stands for null.

module Domain {
  import opened Wrappers

  /** The ledger deal classes the engine distinguishes. */
  datatype DealKind = Insurance | Renewal | Unlicensed | Other

  /** The solution keys of DocumentParserInterface, in declaration order. */
  datatype SolutionKind =
    | Skip | Upload | UploadRenewals | UploadSubDeal | UploadRenewalSubDeal
    | UploadToAdvisor | ChargeBack | Reinstatement | Match | Unmatch

  /** The string stored in the `solution` column for each key. */
  function SolutionKey(s: SolutionKind): (k: string)
    ensures |k| > 0
  {
    match s
    case Skip => "skip"
    case Upload => "upload"
    case UploadRenewals => "upload_renewal"
    case UploadSubDeal => "upload_sub_deal"
    case UploadRenewalSubDeal => "upload_renewal_sub_deal"
    case UploadToAdvisor => "upload_to_advisor"
    case ChargeBack => "charge_back"
    case Reinstatement => "reinstatement"
    case Match => "match"
    case Unmatch => "unmatch"
  }

  /** The counter label of a solution key; `skip` has none. */
  function CounterLabel(s: SolutionKind): (r: Option<string>)
    ensures r.None? <==> s == Skip
  {
    match s
    case Skip => None
    case Upload => Some("Insert as new")
    case UploadRenewals => Some("Insert record as new Renewals")
    case UploadSubDeal => Some("Insert as new FYC sub deal")
    case UploadRenewalSubDeal => Some("Insert Record as new Renewal sub deal")
    case UploadToAdvisor => Some("Insert as new manual matching")
    case ChargeBack => Some("Charged Back")
    case Reinstatement => Some("Reinstated")
    case Match => Some("Matched")
    case Unmatch => Some("Unmatched")
  }

  /** MANUAL_MATCH_SOLUTIONS */
  predicate IsManualMatchKind(s: SolutionKind)
  {
    s == UploadToAdvisor || s == Unmatch
  }

  /** The statuses of a statement line item. */
  datatype Status = Pending | PendingMatch | PendingAdmin | Applied | Skipped | Error

  /** A ledger deal that may be the target of a statement line item. */
  datatype Candidate = Candidate(
    id: nat,
    kind: DealKind,
    companyId: nat,
    amount: int,                // amount already paid, in cents
    premium: int,               // in cents
    userId: nat,                // 0 = none
    shareAdvisorId: nat,        // 0 = none
    stateId: nat,               // 0 = none
    parentDealId: nat,          // 0 = none
    isShared: bool,             // the Insurance `is_shared` column
    parentHasPaidMember: bool,  // the parent deal has a paid member
    hasNbt: bool,               // an NBT record exists for the deal
    chargeBackCapable: bool,    // supports charge backs and one is possible now
    reinstatementPossible: bool,
    clientPolicy: string,
    isPaid: bool)

  /** An agent (user) as the engine sees it. */
  datatype Advisor = Advisor(userId: nat, stateId: nat, legalName: string)

  /** The statement row as parsed. */
  datatype Line = Line(
    id: nat,
    clientName: string,
    advisorName: string,
    shareAdvisorName: string,
    policyNumber: string,
    contractCode: string,
    fsCode: string,
    commission: int,            // in cents
    premium: int,               // in cents
    isSharedFlag: bool,         // the `is_shared` column
    sharePercent: int,
    kind: DealKind,             // parsed_deal_class
    industrialAlliancePlan: string,
    skipsSplitRenewals: bool)   // the parser's isSkippedSplitRenewals()

  /** What the parser put in the line's additional_data. */
  datatype AdditionalData = AdditionalData(
    preTaggedSolution: Option<SolutionKind>,  // additional_data['solution']
    user: Option<Advisor>,                    // additional_data['user']
    sharedUser: Option<Advisor>,              // additional_data['sharedUser']
    userContractCode: string,
    sharedUserContractCode: string,
    relevantAdvisors: seq<Advisor>)

  /** Where the line stands in the resolution. */
  datatype Resolution = Resolution(
    status: Status,
    solution: Option<SolutionKind>,
    savedSolution: Option<SolutionKind>,   // the value last written to storage
    dealId: nat,                           // matched deal id, 0 = none
    matchedKind: Option<DealKind>,
    createdDealId: nat,
    createdKind: Option<DealKind>)

  /** The agent and deal settings an administrator chose for a manual match. */
  datatype Choice = Choice(
    matchedAdvisorId: nat,
    matchedShareAdvisorId: nat,
    dealType: string,
    companyId: nat)

  /** The flags the resolver sets while it looks for a solution. */
  datatype Flags = Flags(
    hasDealWithoutBlockedCompany: Option<bool>,
    hasAgentWithoutEoOrLicense: bool,
    withoutEoOrLicenseExplanation: string,
    forceToUnmatch: bool,
    toUnmatchWithoutAdvisorName: bool,
    excludeFromManualMatch: bool,
    skipToUnmatchReport: bool,
    info: string)

  /** The line's explanations and errors. */
  datatype Log = Log(
    explanations: seq<string>,              // explanationErrorArray
    storedExplanation: Option<string>,      // additional_report_data['Explanation']
    errors: seq<string>)

  /** A statement line item (DealContainer). */
  datatype LineItem = LineItem(
    line: Line,
    data: AdditionalData,
    state: Resolution,
    choice: Choice,
    flags: Flags,
    log: Log)

  /** Appends one explanation (setExplanationToDeal). */
  function AddExplanation(item: LineItem, e: string): (r: LineItem)
    ensures r.log.explanations == item.log.explanations + [e]
    ensures r == item.(log := r.log) && r.log == item.log.(explanations := r.log.explanations)
  {
    item.(log := item.log.(explanations := item.log.explanations + [e]))
  }

  // ---- candidate lists (RelatedDealsManager's static checks) ------------------------

  /** checkAllDealsArePaid: no candidate has a zero amount. */
  predicate AllPaid(cs: seq<Candidate>)
  {
    forall i :: 0 <= i < |cs| ==> cs[i].amount != 0
  }

  /** checkAllDealsAreUnpaid: every candidate has a zero amount. */
  predicate AllUnpaid(cs: seq<Candidate>)
  {
    forall i :: 0 <= i < |cs| ==> cs[i].amount == 0
  }

  /** Both checks hold of the empty list, and only of it. */
  lemma PaidAndUnpaid(cs: seq<Candidate>)
    ensures AllPaid([]) && AllUnpaid([])
    ensures AllPaid(cs) && AllUnpaid(cs) <==> cs == []
  {
    if cs != [] {
      assert cs[0].amount == 0 || cs[0].amount != 0;
    }
  }
}
