// The resolver's run over a batch of statement lines (Resolver, StandardResolver and the
// resolvers that extend it): it attaches the candidates the searches found to each line,
// filters them, picks each line's solution, looks for agents for the lines left unmatched,
// saves the batch, and later records the users' choices and applies the solutions. The lines
// are values held in a sequence the methods reassign; each line's RelatedDealsManager is an
// object. The database queries are inputs: what each search returned, the blocked users of
// each company, the compliance oracle, and the ledger each apply sees.

module Resolvers {
  import opened Wrappers
  import opened Domain
  import opened Text
  import opened Compliance
  import opened LineItems
  import opened Solutions
  import opened RelatedDeals
  import opened ResolverSpec
  import opened DocumentParsers

  // ---- findRelevantDeals -----------------------------------------------------------------

  /** What the candidate queries of one line returned. */
  datatype Search = Search(
    agentCount: nat,                 // the base query: the line's agent in the parser's companies
    policyCount: nat,                // narrowed by policy number (or by client when there is no policy)
    clientCount: nat,                // narrowed by client name, asked only when policyCount is 0
    deals: seq<Candidate>,           // the narrowed query restricted to the line's split agents, newest first
    renewalFallback: seq<Candidate>) // the combined resolvers' Renewal query

  const NoAgentNote: string := "No relevant Agent’s Name found in the system"
  /** The Edge resolver's copy of the same text, stored with a mis-encoded apostrophe. */
  const EdgeNoAgentNote: string := "No relevant Agentâ€™s Name found in the system"
  const NoClientNote: string := "No relevant Client’s Name found in the system"
  const NotSplitNote: string := "The deal in the system is not split - Check and adjust accordingly"
  const SplitNote: string := "The deal in the system is split - Check and adjust accordingly"
  const BlockedNote: string := "This Agent is blocked from the deal creation. "
  const SplitNotFoundNote: string := "The split deal not found in the system"

  /** `->limit(n)`: the first `n` rows. */
  function Limit(ds: seq<Candidate>, n: nat): (r: seq<Candidate>)
    ensures |r| <= n && r <= ds
    ensures |ds| <= n ==> r == ds
  {
    if |ds| <= n then ds else ds[..n]
  }

  /** The line and the candidates its manager starts with. */
  datatype Located = Located(item: LineItem, deals: seq<Candidate>)

  /**
   * findRelevantDeals for one line. An empty agent search is explained; except in the AHA
   * resolver, a line found by neither policy nor client is explained, and a line whose policy
   * or client is known but none of whose candidates has the line's split agents is forced to
   * unmatch, with a note saying which way the split differs.
   */
  function Locate(v: Variant, item: LineItem, s: Search): (r: Located)
    ensures r.deals == Limit(s.deals, RelatedDealsLimit)
    ensures r.item == item.(flags := r.item.flags, log := r.item.log)
    ensures r.item.log == item.log.(explanations := r.item.log.explanations)
    ensures item.log.explanations <= r.item.log.explanations
    ensures s.agentCount == 0 ==>
              |r.item.log.explanations| > |item.log.explanations| &&
              r.item.log.explanations[|item.log.explanations|] == (if v == Edge then EdgeNoAgentNote else NoAgentNote)
    ensures s.agentCount > 0 && v == Aha ==> r.item == item
    ensures r.item.flags.forceToUnmatch <==>
              item.flags.forceToUnmatch || (v != Aha && (s.policyCount > 0 || s.clientCount > 0) && s.deals == [])
    ensures v != Aha && s.policyCount == 0 && s.clientCount == 0 ==> NoClientNote in r.item.log.explanations
  {
    var agent := if s.agentCount == 0 then AddExplanation(item, if v == Edge then EdgeNoAgentNote else NoAgentNote) else item;
    if v == Aha then Located(agent, Limit(s.deals, RelatedDealsLimit))
    else
      var client := if s.policyCount == 0 && s.clientCount == 0 then AddExplanation(agent, NoClientNote) else agent;
      var related := if s.policyCount > 0 then s.policyCount else s.clientCount;
      var located :=
        if related > 0 && s.deals == [] then
          AddExplanation(client.(flags := client.flags.(forceToUnmatch := true, skipToUnmatchReport := true)),
                         if IsShared(item) then NotSplitNote else SplitNote)
        else client;
      Located(located, Limit(s.deals, RelatedDealsLimit))
  }

  /**
   * The combined resolvers' second pass: a Renewal line left without candidates gets the
   * first row of the Renewal query; any other line gets nothing.
   */
  function RenewalFallback(v: Variant, item: LineItem, deals: seq<Candidate>, s: Search): (r: seq<Candidate>)
    ensures |r| <= 1
    ensures r != [] ==> IsCombinedFamily(v) && item.line.kind == Renewal && deals == [] && s.renewalFallback != [] && r == [s.renewalFallback[0]]
    ensures IsCombinedFamily(v) && item.line.kind == Renewal && deals == [] && s.renewalFallback != [] ==> r != []
  {
    if IsCombinedFamily(v) && item.line.kind == Renewal && deals == [] then Limit(s.renewalFallback, 1) else []
  }

  /** getBaseDealFindClass: a Renewal line searches the Insurance deals; any other its own class. */
  function BaseDealFindClass(kind: DealKind): (r: DealKind)
    ensures r != Renewal
    ensures kind != Renewal ==> r == kind
  {
    if kind == Renewal then Insurance else kind
  }

  // ---- searchDealErrorExplanation ------------------------------------------------------

  /**
   * The explanation left once the candidates are known: a line whose every looked-at
   * candidate was blocked says so; a line with an agent name explains a failed licence check;
   * an "ex" plan with nothing left to match says so. The SSQ resolver adds that a split line
   * other than a Renewal has no candidate.
   */
  function SearchDealErrorExplanation(v: Variant, item: LineItem, noDeals: bool): (r: LineItem)
    ensures r == item.(log := r.log) && r.log == item.log.(explanations := r.log.explanations)
    ensures item.log.explanations <= r.log.explanations
    ensures |r.log.explanations| <= |item.log.explanations| + 2
    ensures item.flags.hasDealWithoutBlockedCompany == Some(false) ==>
              |r.log.explanations| > |item.log.explanations| && r.log.explanations[|item.log.explanations|] == BlockedNote
    ensures item.flags.hasDealWithoutBlockedCompany != Some(false) && Truthy(Trim(item.line.advisorName)) ==>
              if item.flags.hasAgentWithoutEoOrLicense
              then |r.log.explanations| > |item.log.explanations| &&
                   r.log.explanations[|item.log.explanations|] == item.flags.withoutEoOrLicenseExplanation
              else v != Ssq ==> r == item
    ensures v == Ssq && item.line.kind != Renewal && IsShared(item) && noDeals ==>
              |r.log.explanations| > 0 && r.log.explanations[|r.log.explanations| - 1] == SplitNotFoundNote
    ensures v != Ssq ==> |r.log.explanations| <= |item.log.explanations| + 1
  {
    var base := BaseErrorExplanation(item, noDeals);
    if v == Ssq && item.line.kind != Renewal && IsShared(item) && noDeals then AddExplanation(base, SplitNotFoundNote) else base
  }

  /** The explanation every resolver leaves: at most one entry, chosen as above. */
  function BaseErrorExplanation(item: LineItem, noDeals: bool): (r: LineItem)
    ensures r == item.(log := r.log) && r.log == item.log.(explanations := r.log.explanations)
    ensures item.log.explanations <= r.log.explanations
    ensures |r.log.explanations| <= |item.log.explanations| + 1
    ensures item.flags.hasDealWithoutBlockedCompany == Some(false) ==>
              r.log.explanations == item.log.explanations + [BlockedNote]
    ensures item.flags.hasDealWithoutBlockedCompany != Some(false) && Truthy(Trim(item.line.advisorName)) ==>
              r == if item.flags.hasAgentWithoutEoOrLicense
                   then AddExplanation(item, item.flags.withoutEoOrLicenseExplanation) else item
  {
    if item.flags.hasDealWithoutBlockedCompany == Some(false) then AddExplanation(item, BlockedNote)
    else if Truthy(Trim(item.line.advisorName)) then
      if item.flags.hasAgentWithoutEoOrLicense then AddExplanation(item, item.flags.withoutEoOrLicenseExplanation) else item
    else if Contains(ToLower(item.line.industrialAlliancePlan), "ex") && noDeals then AddExplanation(item, NoDealsNote)
    else item
  }

  // ---- filterRelevantDeals, per line ---------------------------------------------------

  /** Unsetting a key twice is unsetting it once. */
  lemma WithoutTwice(es: seq<Entry>, key: nat)
    ensures Without(Without(es, key), key) == Without(es, key)
  {
    WithoutAbsent(Without(es, key), key);
  }

  /**
   * filterRelevantDeals for one line: the inner loop over the snapshot of its candidates, then
   * the licence flag cleared when a candidate survives, then the error explanation.
   */
  function FilterLine(v: Variant, g: Gate, db: nat -> set<nat>, item: LineItem, snap: seq<Entry>): (r: Filtered)
    ensures UniqueKeys(snap) ==> forall x :: x in r.entries <==> x in snap && Keeps(v, g, db, item, x.deal)
    ensures UniqueKeys(snap) ==> UniqueKeys(r.entries)
    ensures r.entries != [] ==> !r.item.flags.hasAgentWithoutEoOrLicense && r.item.flags.withoutEoOrLicenseExplanation == ""
    ensures r.item.flags.hasDealWithoutBlockedCompany == BlockFlag(db, item, snap, |snap|)
    ensures r.item.line == item.line && r.item.data == item.data && r.item.state == item.state
    ensures item.log.explanations <= r.item.log.explanations
  {
    var f := FilterUpTo(v, g, db, item, snap, |snap|);
    assert UniqueKeys(snap) ==> UniqueKeys(f.entries) && forall x :: x in f.entries <==> x in snap && Keeps(v, g, db, item, x.deal) by {
      if UniqueKeys(snap) {
        FilterAll(v, g, db, item, snap);
      }
    }
    FilterBlockFlag(v, g, db, item, snap, |snap|);
    var kept := if f.entries != [] then WithLicence(f.item, false, "") else f.item;
    Filtered(SearchDealErrorExplanation(v, kept, f.entries == []), f.entries)
  }

  // ---- findSolutions, per line ----------------------------------------------------------

  /** The IA resolver's batch map: each policy number with the contract codes it appears under. */
  function ClientsOf(items: seq<LineItem>): map<string, set<string>>
  {
    if items == [] then map[]
    else
      var m := ClientsOf(items[..|items| - 1]);
      var l := items[|items| - 1].line;
      m[l.policyNumber := (if l.policyNumber in m then m[l.policyNumber] else {}) + {l.contractCode}]
  }

  /** The batch map holds exactly the policy numbers of the batch. */
  lemma {:induction false} ClientsOfKeys(items: seq<LineItem>)
    ensures forall p :: p in ClientsOf(items) <==> exists i :: 0 <= i < |items| && items[i].line.policyNumber == p
  {
    if items != [] {
      var last := |items| - 1;
      var init := items[..last];
      ClientsOfKeys(init);
      var m0, m, l := ClientsOf(init), ClientsOf(items), items[last].line;
      assert m == m0[l.policyNumber := (if l.policyNumber in m0 then m0[l.policyNumber] else {}) + {l.contractCode}];
      forall p ensures p in m <==> exists i :: 0 <= i < |items| && items[i].line.policyNumber == p {
        if p == l.policyNumber {
          assert items[last].line.policyNumber == p;
        }
        if p in m && p != l.policyNumber {
          assert p in m0;
          var i :| 0 <= i < |init| && init[i].line.policyNumber == p;
          assert items[i] == init[i];
        }
        if p != l.policyNumber && exists i :: 0 <= i < |items| && items[i].line.policyNumber == p {
          var i :| 0 <= i < |items| && items[i].line.policyNumber == p;
          assert i < last && init[i] == items[i];
        }
      }
    }
  }

  /** Each policy number of the batch map holds exactly the contract codes it appears under. */
  lemma {:induction false} ClientsOfCodes(items: seq<LineItem>)
    ensures forall p, c :: p in ClientsOf(items) ==>
              (c in ClientsOf(items)[p] <==>
               exists i :: 0 <= i < |items| && items[i].line.policyNumber == p && items[i].line.contractCode == c)
  {
    if items != [] {
      var last := |items| - 1;
      var init := items[..last];
      ClientsOfCodes(init);
      ClientsOfKeys(init);
      var m0, m, l := ClientsOf(init), ClientsOf(items), items[last].line;
      assert m == m0[l.policyNumber := (if l.policyNumber in m0 then m0[l.policyNumber] else {}) + {l.contractCode}];
      forall p, c | p in m
        ensures c in m[p] <==> exists i :: 0 <= i < |items| && items[i].line.policyNumber == p && items[i].line.contractCode == c
      {
        if p == l.policyNumber && c == l.contractCode {
          assert items[last].line.policyNumber == p && items[last].line.contractCode == c;
        }
        if c in m[p] && !(p == l.policyNumber && c == l.contractCode) {
          assert p in m0 && c in m0[p];
          var i :| 0 <= i < |init| && init[i].line.policyNumber == p && init[i].line.contractCode == c;
          assert items[i] == init[i];
        }
        if !(p == l.policyNumber && c == l.contractCode) &&
           exists i :: 0 <= i < |items| && items[i].line.policyNumber == p && items[i].line.contractCode == c {
          var i :| 0 <= i < |items| && items[i].line.policyNumber == p && items[i].line.contractCode == c;
          assert i < last && init[i] == items[i] && p in m0;
        }
      }
    }
  }

  /**
   * findSolutions for one line whose candidates are `ds`: every candidate is classified, then
   * the line is resolved (a pre-tag copied, or the cascade's pick set).
   */
  function ResolvedLine(v: Variant, g: Gate, item: LineItem, ds: seq<Candidate>, clients: map<string, set<string>>): (r: LineItem)
    ensures r.state.solution.Some?
    ensures CopiesPreTag(v) && item.data.preTaggedSolution.Some? ==> r.state.solution == item.data.preTaggedSolution
    ensures !(CopiesPreTag(v) && item.data.preTaggedSolution.Some?) ==> r.state.solution.value in PossibleSolutions(v)
    ensures r.state == item.state.(solution := r.state.solution)
  {
    var ss := Strategies(v);
    var test := TestFor(g, item);
    var bySolution := Classify(ss, |ss|, test, ds, map[]);
    Resolve(v, WithNotes(item, AllNotes(ss, |ss|, test, ds)), Related(ds, set k | k in bySolution && bySolution[k] != []),
            ClientsFor(v, clients))
  }

  /** The solution of a resolved line is one its manager classified its candidates under. */
  lemma ResolvedKeyClassified(v: Variant, g: Gate, item: LineItem, ds: seq<Candidate>, clients: map<string, set<string>>)
    requires !(CopiesPreTag(v) && item.data.preTaggedSolution.Some?)
    ensures var ss := Strategies(v);
            ResolvedLine(v, g, item, ds, clients).state.solution.value in Classify(ss, |ss|, TestFor(g, item), ds, map[])
  {
    var ss := Strategies(v);
    StrategiesKeys(v);
    assert ss[..|ss|] == ss;
  }

  // ---- findRelevantAdvisors, per line ---------------------------------------------------

  /** What the agent search returned for one line, with and without the active-status condition. */
  datatype AdvisorSearch = AdvisorSearch(active: seq<Advisor>, any: seq<Advisor>)

  /**
   * searchAdvisorsByCondition: agents already resolved on the line are the answer, the line's
   * agent first; only a line with neither asks the query.
   */
  function SearchAdvisorsByCondition(item: LineItem, queried: seq<Advisor>): (r: seq<Advisor>)
    ensures item.data.user.None? && item.data.sharedUser.None? ==> r == queried
    ensures item.data.user.Some? ==> 0 < |r| <= 2 && r[0] == item.data.user.value
    ensures item.data.sharedUser.Some? ==> 0 < |r| <= 2 && r[|r| - 1] == item.data.sharedUser.value
    ensures item.data.user.Some? || item.data.sharedUser.Some? ==>
              forall a :: a in r ==> Some(a) == item.data.user || Some(a) == item.data.sharedUser
  {
    match (item.data.user, item.data.sharedUser)
    case (Some(u), Some(s)) => [u, s]
    case (Some(u), None) => [u]
    case (None, Some(s)) => [s]
    case (None, None) => queried
  }

  /** With a pre-resolved agent the query's answer is never looked at. */
  lemma {:induction false} PreResolvedSkipsSearch(item: LineItem, a: seq<Advisor>, b: seq<Advisor>)
    requires item.data.user.Some? || item.data.sharedUser.Some?
    ensures SearchAdvisorsByCondition(item, a) == SearchAdvisorsByCondition(item, b)
  {
    var ra, rb := SearchAdvisorsByCondition(item, a), SearchAdvisorsByCondition(item, b);
    assert |ra| == |rb| by {
      assert ra[0] == rb[0] || item.data.user.None?;
    }
  }

  /** The agent passes the licence check of the line's class on their own, or the line is split. */
  predicate AdvisorAllowed(g: Gate, item: LineItem, a: Advisor)
  {
    Passes(g, OfDeal(item.line.kind), a.userId, 0, a.stateId, false) || IsShared(item)
  }

  /** array_filter of the found agents by the licence check, order kept. */
  function AllowedAdvisors(g: Gate, item: LineItem, advisors: seq<Advisor>): (r: seq<Advisor>)
    ensures forall a :: a in r <==> a in advisors && AdvisorAllowed(g, item, a)
    ensures |r| <= |advisors|
    ensures IsShared(item) ==> r == advisors
  {
    if advisors == [] then []
    else (if AdvisorAllowed(g, item, advisors[0]) then [advisors[0]] else []) + AllowedAdvisors(g, item, advisors[1..])
  }

  /** The lines findRelevantAdvisors passes over. */
  predicate SkipsAdvisorSearch(item: LineItem)
  {
    item.state.solution != Some(Unmatch) || item.line.advisorName == "Experior" || item.flags.forceToUnmatch
  }

  /** The agents found: the active ones, or failing those any. */
  function FoundAdvisors(item: LineItem, s: AdvisorSearch): seq<Advisor>
  {
    var active := SearchAdvisorsByCondition(item, s.active);
    if active == [] then SearchAdvisorsByCondition(item, s.any) else active
  }

  /** The resolver's manual-match upload (the SSQ one in the SSQ resolver). */
  function ToAdvisorStrategy(v: Variant): (st: Strategy)
    ensures Some(st) == SolutionFor(v, UploadToAdvisor) && IsToAdvisorStrategy(st)
  {
    if v == Ssq then SsqUploadToAdvisorSolution else UploadToAdvisorSolution
  }

  /**
   * The agent search of an unmatched line without agents: the found agents that pass the
   * licence check are kept (all of them for a split line); when some were found and none
   * passes, the line is flagged with the explanation for its class.
   */
  function WithFoundAdvisors(g: Gate, item: LineItem, found: seq<Advisor>): (r: LineItem)
    ensures r.line == item.line && r.state == item.state && r.log == item.log
    ensures found == [] ==> r == item
    ensures found != [] ==> r.data.relevantAdvisors == AllowedAdvisors(g, item, found)
    ensures found != [] && r.data.relevantAdvisors == [] ==>
              r.flags.hasAgentWithoutEoOrLicense &&
              r.flags.withoutEoOrLicenseExplanation == WithoutEoOrLicenseExplanation(OfDeal(item.line.kind), g.enabled)
    ensures r.data.relevantAdvisors != [] ==> r.flags == item.flags
  {
    if found == [] then item
    else
      var kept := AllowedAdvisors(g, item, found);
      var withAgents := item.(data := item.data.(relevantAdvisors := kept));
      if kept == [] then WithLicence(withAgents, true, WithoutEoOrLicenseExplanation(OfDeal(item.line.kind), g.enabled))
      else withAgents
  }

  /** The manual-match upload is set when it fits; its test may leave a note and a flag on the line. */
  function PickToAdvisor(v: Variant, item: LineItem): (r: LineItem)
    ensures r.line == item.line && r.data == item.data && r.state == item.state.(solution := r.state.solution)
    ensures r.state.solution == item.state.solution || r.state.solution == Some(UploadToAdvisor)
    ensures r.state.solution != item.state.solution ==> ToAdvisorFits(item)
    ensures r.flags.hasAgentWithoutEoOrLicense == item.flags.hasAgentWithoutEoOrLicense
  {
    var st := ToAdvisorStrategy(v);
    var f := IsFit(st, item, Related([], {}), map[]);
    if f.fits then SetSolution(st, f.item) else f.item
  }

  /**
   * findRelevantAdvisors for one line: an unmatched line without agents gets the found agents
   * that pass the licence check and is flagged when none pass; then, if the manual-match
   * upload fits, it becomes the line's solution; then the error explanation is added.
   */
  function FindAdvisorsFor(v: Variant, g: Gate, item: LineItem, s: AdvisorSearch, noDeals: bool): (r: LineItem)
    ensures SkipsAdvisorSearch(item) ==> r == item
    ensures r.line == item.line && r.state == item.state.(solution := r.state.solution)
    ensures r.state.solution == item.state.solution || (!SkipsAdvisorSearch(item) && r.state.solution == Some(UploadToAdvisor))
    ensures r.state.solution != item.state.solution ==>
              r.data.relevantAdvisors != [] && item.line.commission > 0 && !r.flags.hasAgentWithoutEoOrLicense
    ensures item.data.relevantAdvisors != [] ==> r.data == item.data
    ensures forall a :: a in r.data.relevantAdvisors ==> a in item.data.relevantAdvisors || AdvisorAllowed(g, item, a)
    ensures (!SkipsAdvisorSearch(item) && item.data.relevantAdvisors == [] && FoundAdvisors(item, s) != [] &&
             AllowedAdvisors(g, item, FoundAdvisors(item, s)) == []) ==> r.flags.hasAgentWithoutEoOrLicense
  {
    if SkipsAdvisorSearch(item) then item
    else
      var searched := if item.data.relevantAdvisors != [] then item else WithFoundAdvisors(g, item, FoundAdvisors(item, s));
      SearchDealErrorExplanation(v, PickToAdvisor(v, searched), noDeals)
  }

  // ---- applySolutions, updateSolutions, saveActualSolution, per line -------------------

  /**
   * needChangeExplanation: only the IA resolver answers yes, and only for a split line whose
   * agents pass the licence check that asks only one of the two to pass; every other resolver
   * answers no. Nothing in the engine asks.
   */
  function NeedChangeExplanation(v: Variant, g: Gate, item: LineItem, userId: nat, shareAdvisorId: nat, stateId: nat)
    : (r: bool)
    ensures r ==> v == IndustrialAlliance && IsShared(item)
    ensures v == IndustrialAlliance && IsShared(item) && Passes(g, OfDeal(item.line.kind), userId, shareAdvisorId, stateId, false) ==> r
  {
    CheckForBothIsWeaker(g, OfDeal(item.line.kind), userId, shareAdvisorId, stateId);
    v == IndustrialAlliance && IsShared(item) && Passes(g, OfDeal(item.line.kind), userId, shareAdvisorId, stateId, true)
  }

  /**
   * One pass of applySolutions' inner loop: the line's solution is applied; a failure leaves
   * the line in Error, saved without validation, and its stored errors become the ones this
   * apply added, replacing those an earlier run left.
   */
  function ApplyOne(v: Variant, item: LineItem, ledger: Ledger, out: Outcome): (r: ApplyResult)
    requires item.state.solution.Some? && item.state.solution.value in PossibleSolutions(v)
    ensures r.ok ==> r.item.state.status == Applied && r.item.log.errors == item.log.errors
    ensures !r.ok ==> r.item.state.status == Error
    ensures r.ok == Apply(SolutionFor(v, item.state.solution.value).value, item, ledger, out).ok
    ensures !r.ok ==> r.item.state.solution == item.state.solution || r.item.state.solution == Some(Unmatch)
    ensures !r.ok ==> item.log.errors + r.item.log.errors ==
                      Apply(SolutionFor(v, item.state.solution.value).value, item, ledger, out).item.log.errors
    ensures !r.ok ==> |r.item.log.errors| <= 1
  {
    var a := Apply(SolutionFor(v, item.state.solution.value).value, item, ledger, out);
    if a.ok then a
    else
      var added := a.item.log.errors[|item.log.errors|..];
      ApplyResult(false, Save(a.item.(state := a.item.state.(status := Error), log := a.item.log.(errors := added))), a.ops)
  }

  /**
   * A line that failed before and was submitted again with Match, whose matched deal is still
   * missing, keeps only this run's message: the earlier errors are not carried over.
   */
  lemma RematchStoresOnlyNewError(v: Variant, item: LineItem, ledger: Ledger, out: Outcome)
    requires item.state.solution == Some(Match) && Match in PossibleSolutions(v)
    requires Lookup(ledger, item.line.kind, item.state.dealId).None?
    ensures !ApplyOne(v, item, ledger, out).ok
    ensures ApplyOne(v, item, ledger, out).item.log.errors == [NotFoundError]
    ensures ApplyOne(v, item, ledger, out).item.state.solution == Some(Unmatch)
  {
  }

  /** The line after applySolutions: a Pending line is applied, any other is left alone. */
  function AfterApply(v: Variant, item: LineItem, ledger: Ledger, out: Outcome): (r: LineItem)
    requires item.state.status == Pending ==> item.state.solution.Some? && item.state.solution.value in PossibleSolutions(v)
    ensures item.state.status != Pending ==> r == item
    ensures item.state.status == Pending ==> r.state.status == Applied || r.state.status == Error
    ensures item.state.status == Pending && r.state.status == Error ==> |r.log.errors| <= 1
  {
    if item.state.status == Pending then ApplyOne(v, item, ledger, out).item else item
  }

  /** A line the user submitted a choice for: the choice is recorded and the line saved. */
  function Submitted(v: Variant, item: LineItem, inputs: map<nat, UserInput>, onlyCounters: bool, users: map<nat, Advisor>)
    : (r: LineItem)
    requires Declared(v, item, inputs)
    ensures item.line.id !in inputs ==> r == item
    ensures item.line.id in inputs ==>
              r.state.savedSolution == r.state.solution &&
              (r.state.solution == Some(inputs[item.line.id].solution) || r.state.solution == Some(Unmatch))
    ensures item.line.id in inputs && onlyCounters ==> r.state.status == item.state.status
    ensures item.line.id in inputs && !onlyCounters ==> r.state.status == Pending || r.state.status == Applied
  {
    if item.line.id in inputs then
      var input := inputs[item.line.id];
      Save(Update(SolutionFor(v, input.solution).value, item, input, onlyCounters, users))
    else item
  }

  /** The choice submitted for the line, if any, is one the resolver declares. */
  predicate Declared(v: Variant, item: LineItem, inputs: map<nat, UserInput>)
  {
    item.line.id in inputs ==> inputs[item.line.id].solution in PossibleSolutions(v)
  }

  /**
   * The first line, in processing order, submitted with a key the resolver does not declare:
   * updateSolutions looks that key up in its solution map, gets null, and throws there.
   * `|items|` when there is none.
   */
  function FirstUndeclared(v: Variant, items: seq<LineItem>, inputs: map<nat, UserInput>): (n: nat)
    ensures n <= |items|
    ensures forall i :: 0 <= i < n ==> Declared(v, items[i], inputs)
    ensures n < |items| ==> !Declared(v, items[n], inputs)
  {
    if items == [] then 0
    else if !Declared(v, items[0], inputs) then 0
    else 1 + FirstUndeclared(v, items[1..], inputs)
  }

  /** The line's solution differs from the one last saved (getOldAttribute('solution') !== solution). */
  predicate Changed(item: LineItem)
  {
    item.state.savedSolution != item.state.solution
  }

  /** The positions among the first `n` lines whose solution changed, in order. */
  function ChangedPositions(xs: seq<LineItem>, n: nat): (ps: seq<nat>)
    requires n <= |xs|
    ensures forall p: nat :: p in ps <==> p < n && Changed(xs[p])
    ensures |ps| <= n
  {
    if n == 0 then [] else ChangedPositions(xs, n - 1) + (if Changed(xs[n - 1]) then [n - 1] else [])
  }

  /** A line as saveActualSolution leaves it: saved when its solution differs from the stored one. */
  function Actual(item: LineItem): (r: LineItem)
    ensures !Changed(r)
    ensures Changed(item) ==> r == Save(item)
    ensures !Changed(item) ==> r == item
  {
    if Changed(item) then Save(item) else item
  }

  /** saveActualSolution records some line exactly when some line changed (so a second run records nothing). */
  lemma {:induction false} RecordedIffChanged(xs: seq<LineItem>, n: nat)
    requires n <= |xs|
    ensures ChangedPositions(xs, n) == [] <==> forall i :: 0 <= i < n ==> !Changed(xs[i])
  {
    if n > 0 {
      RecordedIffChanged(xs, n - 1);
    }
  }


  // ---- one line of findRelevantDeals, with its manager ----------------------------------

  /** A fresh manager, not yet classified, over the line's candidates; the state every searched line starts in. */
  ghost predicate Fresh(v: Variant, m: RelatedDealsManager, before: LineItem, after: LineItem, s: Search, ss: seq<Strategy>)
    reads m
  {
    var l := Locate(v, before, s);
    after == l.item && m.Deals() == l.deals + RenewalFallback(v, l.item, l.deals, s)
    && m.strategies == ss && m.bySolution == map[] && m.checked.None? && UniqueKeys(m.entries)
  }

  /** Every line of `xs` was searched from the matching line of `src`, each by a manager of its own. */
  ghost predicate Prepared(v: Variant, ms: seq<RelatedDealsManager>, src: seq<LineItem>, xs: seq<LineItem>,
                           searches: seq<Search>, ss: seq<Strategy>)
    reads set m | m in ms
  {
    |ms| == |xs| <= |src| && |xs| <= |searches|
    && (forall h, k :: 0 <= h < k < |ms| ==> ms[h] != ms[k])
    && forall h :: 0 <= h < |ms| ==> Fresh(v, ms[h], src[h], xs[h], searches[h], ss)
  }

  lemma PreparedNext(v: Variant, ms: seq<RelatedDealsManager>, src: seq<LineItem>, xs: seq<LineItem>,
                     searches: seq<Search>, ss: seq<Strategy>, m: RelatedDealsManager, x: LineItem)
    requires Prepared(v, ms, src, xs, searches, ss) && |xs| < |src| && |xs| < |searches|
    requires m !in ms && Fresh(v, m, src[|xs|], x, searches[|xs|], ss)
    ensures Prepared(v, ms + [m], src, xs + [x], searches, ss)
  {
    var ms', xs' := ms + [m], xs + [x];
    forall h | 0 <= h < |ms'| ensures Fresh(v, ms'[h], src[h], xs'[h], searches[h], ss) {
      if h < |ms| {
        assert ms'[h] == ms[h] && xs'[h] == xs[h];
      } else {
        assert ms'[h] == m && xs'[h] == x;
      }
    }
    forall h, k | 0 <= h < k < |ms'| ensures ms'[h] != ms'[k] {
      if k == |ms| {
        assert ms'[k] == m && ms'[h] == ms[h];
      } else {
        assert ms'[k] == ms[k] && ms'[h] == ms[h];
      }
    }
  }

  /**
   * findRelevantDeals for one line: the line is explained and given a manager over what its
   * search found; a Renewal line of a combined resolver left without candidates also gets the
   * first row of the Renewal query.
   */
  method NewManager(v: Variant, item: LineItem, s: Search, ss: seq<Strategy>) returns (x: LineItem, m: RelatedDealsManager)
    ensures fresh(m) && Fresh(v, m, item, x, s, ss)
  {
    var l := Locate(v, item, s);
    x := l.item;
    m := new RelatedDealsManager(l.deals, ss);
    if IsCombinedFamily(v) && item.line.kind == Renewal && |m.Deals()| == 0 {
      m.AddDeals(Limit(s.renewalFallback, 1));
    }
  }

  /** The loop of findRelevantDeals: every line searched in order, each with its own manager. */
  method PrepareAll(v: Variant, src: seq<LineItem>, searches: seq<Search>, ss: seq<Strategy>)
    returns (xs: seq<LineItem>, ms: seq<RelatedDealsManager>)
    requires |searches| == |src|
    ensures |xs| == |src| && Prepared(v, ms, src, xs, searches, ss)
    ensures forall h :: 0 <= h < |ms| ==> fresh(ms[h])
  {
    xs, ms := [], [];
    var i := 0;
    while i < |src|
      invariant 0 <= i <= |src| && |xs| == i
      invariant forall h :: 0 <= h < |ms| ==> fresh(ms[h])
      invariant Prepared(v, ms, src, xs, searches, ss)
    {
      var x, m := NewManager(v, src[i], searches[i], ss);
      PreparedNext(v, ms, src, xs, searches, ss, m, x);
      xs, ms := xs + [x], ms + [m];
      i := i + 1;
    }
  }

  /** The candidates of each manager, as they stand. */
  ghost function EntriesOf(ms: seq<RelatedDealsManager>): (r: seq<seq<Entry>>)
    reads set m | m in ms
    ensures |r| == |ms| && forall j :: 0 <= j < |r| ==> r[j] == ms[j].entries
  {
    if ms == [] then [] else EntriesOf(ms[..|ms| - 1]) + [ms[|ms| - 1].entries]
  }

  /**
   * findSolutions has resolved `before` into `after` over the candidate rows `entries`, leaving
   * the classification `bySolution` and the mark `checked`: the line is what the per-line
   * definition gives, every candidate is classified, and the candidate setDealAsChecked marks
   * is the one `Touched` picks (none when a pre-tag was copied, which skips the marking).
   */
  ghost predicate ResolvedWith(v: Variant, g: Gate, entries: seq<Entry>, bySolution: map<SolutionKind, seq<nat>>,
                               checked: Option<nat>, before: LineItem, after: LineItem, clients: map<string, set<string>>)
  {
    var ss := Strategies(v);
    var ds := Values(entries);
    after == ResolvedLine(v, g, before, ds, clients)
    && bySolution == Classify(ss, |ss|, TestFor(g, before), ds, map[])
    && if CopiesPreTag(v) && before.data.preTaggedSolution.Some? then checked.None?
       else
         ResolvedKeyClassified(v, g, before, ds, clients);
         checked == Touched(bySolution[after.state.solution.value], ds, None)
  }

  /** `ResolvedWith` for the manager `m` of the line. */
  ghost predicate LineResolved(v: Variant, g: Gate, m: RelatedDealsManager, before: LineItem, after: LineItem,
                               clients: map<string, set<string>>)
    reads m
  {
    ResolvedWith(v, g, m.entries, m.bySolution, m.checked, before, after, clients)
  }

  /** What findSolutions leaves for one line: the line, its manager's classification and its mark. */
  datatype LineOutcome = LineOutcome(after: LineItem, bySolution: map<SolutionKind, seq<nat>>, checked: Option<nat>)

  /** The outcome `ResolvedWith` prescribes for the line `before` over the candidate rows `entries`. */
  function OutcomeOf(v: Variant, g: Gate, entries: seq<Entry>, before: LineItem, clients: map<string, set<string>>)
    : (o: LineOutcome)
    ensures ResolvedWith(v, g, entries, o.bySolution, o.checked, before, o.after, clients)
  {
    var ss := Strategies(v);
    var ds := Values(entries);
    var after := ResolvedLine(v, g, before, ds, clients);
    var bySolution := Classify(ss, |ss|, TestFor(g, before), ds, map[]);
    if CopiesPreTag(v) && before.data.preTaggedSolution.Some? then LineOutcome(after, bySolution, None)
    else
      ResolvedKeyClassified(v, g, before, ds, clients);
      LineOutcome(after, bySolution, Touched(bySolution[after.state.solution.value], ds, None))
  }

  /** The outcomes of a batch of lines `src` whose candidate rows are `snaps`, line by line. */
  lemma ExpectedOutcomes(v: Variant, g: Gate, src: seq<LineItem>, snaps: seq<seq<Entry>>, clients: map<string, set<string>>)
    returns (outs: seq<LineOutcome>)
    requires |src| == |snaps|
    ensures |outs| == |src|
    ensures forall j {:trigger OutcomeOf(v, g, snaps[j], src[j], clients)} ::
              0 <= j < |outs| ==> outs[j] == OutcomeOf(v, g, snaps[j], src[j], clients)
  {
    outs := seq(|src|, j requires 0 <= j < |src| => OutcomeOf(v, g, snaps[j], src[j], clients));
  }

  /** A line has one resolution: `ResolvedWith` fixes the line, the classification and the mark. */
  lemma ResolvedUnique(v: Variant, g: Gate, entries: seq<Entry>, before: LineItem, clients: map<string, set<string>>,
                       bySolution: map<SolutionKind, seq<nat>>, checked: Option<nat>, after: LineItem)
    requires ResolvedWith(v, g, entries, bySolution, checked, before, after, clients)
    ensures LineOutcome(after, bySolution, checked) == OutcomeOf(v, g, entries, before, clients)
  {
  }

  /** The body of findSolutions for one line `item` whose manager is `m`. */
  method ResolveWith(v: Variant, g: Gate, m: RelatedDealsManager, item: LineItem, clients: map<string, set<string>>)
    returns (r: LineItem)
    requires m.strategies == Strategies(v) && m.bySolution == map[] && m.checked.None? && UniqueKeys(m.entries)
    modifies m
    ensures LineResolved(v, g, m, item, r, clients) && m.entries == old(m.entries)
  {
    r := ClassifyAndResolve(v, g, m, item, clients);
    if !(CopiesPreTag(v) && item.data.preTaggedSolution.Some?) {
      ResolvedKeyClassified(v, g, item, m.Deals(), clients);
      m.SetDealAsChecked(r);
    }
  }

  /** findPossibleSolutions over the manager, then the choice of the line's solution. */
  method ClassifyAndResolve(v: Variant, g: Gate, m: RelatedDealsManager, item: LineItem, clients: map<string, set<string>>)
    returns (r: LineItem)
    requires m.strategies == Strategies(v) && m.bySolution == map[] && m.checked.None? && UniqueKeys(m.entries)
    modifies m
    ensures r == ResolvedLine(v, g, item, m.Deals(), clients) && m.entries == old(m.entries)
    ensures m.bySolution == Classify(Strategies(v), |Strategies(v)|, TestFor(g, item), m.Deals(), map[])
    ensures m.checked.None? && m.Valid() && Distinct(m.containers) && DealsOf(m.containers) == m.Deals()
    ensures forall i :: 0 <= i < |m.containers| ==> fresh(m.containers[i])
  {
    r := m.FindPossibleSolutions(TestFor(g, item), item);
    assert m.strategies[..|m.strategies|] == m.strategies;
    r := Resolve(v, r, m.View(), ClientsFor(v, clients));
    assert DealsOf(m.containers) == m.Deals();
  }

  /** Only the clients map the variant looks at matters. */
  lemma LineResolvedClients(v: Variant, g: Gate, m: RelatedDealsManager, before: LineItem, after: LineItem,
                            c1: map<string, set<string>>, c2: map<string, set<string>>)
    requires ClientsFor(v, c1) == ClientsFor(v, c2)
    ensures LineResolved(v, g, m, before, after, c1) == LineResolved(v, g, m, before, after, c2)
  {
    assert ResolvedLine(v, g, before, m.Deals(), c1) == ResolvedLine(v, g, before, m.Deals(), c2);
  }

  /** A resolved line always has a solution. */
  lemma ResolvedHasSolution(v: Variant, g: Gate, m: RelatedDealsManager, before: LineItem, after: LineItem,
                            clients: map<string, set<string>>)
    requires LineResolved(v, g, m, before, after, clients)
    ensures after.state.solution.Some?
  {
  }

  /** One more line of saveActualSolution's loop, saved if it changed. */
  lemma SavedStep(xs: seq<LineItem>, ys: seq<LineItem>, item: LineItem)
    requires |ys| < |xs| && forall j :: 0 <= j < |ys| ==> ys[j] == Actual(xs[j])
    requires item == Actual(xs[|ys|])
    ensures forall j :: 0 <= j < |ys| + 1 ==> (ys + [item])[j] == Actual(xs[j])
  {
  }

  /** The loop of saveActualSolution over the lines `xs`: the changed ones saved, and their positions. */
  method SaveChanged(xs: seq<LineItem>) returns (ys: seq<LineItem>, ps: seq<nat>)
    ensures |ys| == |xs| && forall j :: 0 <= j < |xs| ==> ys[j] == Actual(xs[j])
    ensures ps == ChangedPositions(xs, |xs|)
  {
    ys, ps := [], [];
    var i := 0;
    while i < |xs|
      invariant i <= |xs| && |ys| == i
      invariant forall j :: 0 <= j < i ==> ys[j] == Actual(xs[j])
      invariant ps == ChangedPositions(xs, i)
    {
      var item := xs[i];
      if Changed(item) {
        item := Save(item);
        ps := ps + [i];
      }
      SavedStep(xs, ys, item);
      ys := ys + [item];
      i := i + 1;
    }
  }

  /** One line of applySolutions: the line as it leaves the loop, and whether its apply went through. */
  method ApplyLine(v: Variant, item: LineItem, ledger: Ledger, out: Outcome) returns (line: LineItem, ok: bool)
    requires item.state.status == Pending ==> item.state.solution.Some? && item.state.solution.value in PossibleSolutions(v)
    ensures line == AfterApply(v, item, ledger, out)
    ensures ok <==> (item.state.status == Pending ==> ApplyOne(v, item, ledger, out).ok)
  {
    line, ok := item, true;
    if item.state.status == Pending {
      var r := ApplyOne(v, item, ledger, out);
      line, ok := r.item, r.ok;
    }
  }

  /** getSolutions' loop: one solution object per entry of the class map, in its order. */
  method Instantiate(m: seq<(SolutionKind, Strategy)>) returns (built: seq<Strategy>)
    ensures |built| == |m| && forall j :: 0 <= j < |m| ==> built[j] == m[j].1
  {
    built := [];
    var i := 0;
    while i < |m|
      invariant 0 <= i <= |m| && |built| == i
      invariant forall j :: 0 <= j < i ==> built[j] == m[j].1
    {
      built := built + [m[i].1];
      i := i + 1;
    }
  }

  // ---- the Resolver --------------------------------------------------------------------

  class Resolver {
    const variant: Variant
    const gate: Gate                         // the licence oracle behind EOLicenseChecker
    const blockedUsers: nat -> set<nat>      // UserBlockedCompany: the users blocked for each company
    var items: seq<LineItem>                 // getProcessingDealContainers
    var managers: seq<RelatedDealsManager>   // each line's relatedDealsManager, once searched
    var solutions: seq<Strategy>             // the getSolutions cache; [] until built
    var blockedCompanyUsers: map<nat, set<nat>>
    var updated: seq<nat>                    // updatedDealContainers, as positions in `items`

    /** The caches hold what they stand for. */
    ghost predicate Caches()
      reads this
    {
      (solutions == [] || solutions == Strategies(variant))
      && forall c :: c in blockedCompanyUsers ==> blockedCompanyUsers[c] == blockedUsers(c)
    }

    /** One manager per line, each its own object, trying the resolver's solutions. */
    ghost predicate Managed()
      reads this
    {
      |managers| == |items|
      && (forall i, j :: 0 <= i < j < |managers| ==> managers[i] != managers[j])
      && (forall i :: 0 <= i < |managers| ==> managers[i].strategies == Strategies(variant))
    }

    /** No manager has classified its candidates or checked one yet. */
    ghost predicate Unclassified()
      reads this, managers
    {
      forall i :: 0 <= i < |managers| ==>
        managers[i].bySolution == map[] && managers[i].checked.None? && UniqueKeys(managers[i].entries)
    }

    constructor (variant: Variant, gate: Gate, blockedUsers: nat -> set<nat>, items: seq<LineItem>)
      ensures this.variant == variant && this.gate == gate && this.blockedUsers == blockedUsers
      ensures this.items == items && managers == [] && solutions == [] && blockedCompanyUsers == map[] && updated == []
      ensures Caches()
    {
      this.variant := variant;
      this.gate := gate;
      this.blockedUsers := blockedUsers;
      this.items := items;
      managers := [];
      solutions := [];
      blockedCompanyUsers := map[];
      updated := [];
    }

    /** getSolutions: the class map is instantiated once, in its order, and reused afterwards. */
    method GetSolutions() returns (ss: seq<Strategy>)
      requires Caches()
      modifies this
      ensures ss == Strategies(variant) && solutions == ss && Caches()
      ensures old(solutions) != [] ==> solutions == old(solutions)
      ensures items == old(items) && managers == old(managers) && updated == old(updated)
      ensures blockedCompanyUsers == old(blockedCompanyUsers)
    {
      if solutions == [] {
        var built := Instantiate(ClassNames(variant));
        StrategiesAreClassNames(variant);
        assert built == Strategies(variant);
        solutions := built;
      }
      ss := solutions;
    }

    /**
     * isUserBlockedForCompany: no company or no ids block nothing; otherwise the company's
     * blocked users are loaded once and the answer is whether one of the ids is among them.
     */
    method IsUserBlockedForCompany(ids: seq<nat>, companyId: nat) returns (blocked: bool)
      requires Caches()
      modifies this
      ensures blocked == Blocked(blockedUsers, ids, companyId) && Caches()
      ensures old(blockedCompanyUsers).Keys <= blockedCompanyUsers.Keys
      ensures items == old(items) && managers == old(managers) && updated == old(updated) && solutions == old(solutions)
    {
      if |ids| == 0 || companyId == 0 {
        return false;
      }
      if companyId !in blockedCompanyUsers {
        blockedCompanyUsers := blockedCompanyUsers[companyId := blockedUsers(companyId)];
      }
      var list := blockedCompanyUsers[companyId];
      blocked := false;
      var i := 0;
      while i < |ids|
        invariant 0 <= i <= |ids|
        invariant blocked <==> exists j :: 0 <= j < i && ids[j] != 0 && ids[j] in list
      {
        blocked := blocked || (ids[i] != 0 && ids[i] in list);
        i := i + 1;
      }
    }

    /**
     * findRelevantDeals: each line is explained and given a fresh manager over the candidates
     * its search found; in the combined resolvers a Renewal line left without candidates also
     * gets the first row of the Renewal query (the source does this in a second pass over the
     * batch; the pass only reads and writes its own line, so it is done here line by line).
     */
    method FindRelevantDeals(searches: seq<Search>)
      requires |searches| == |items| && Caches()
      modifies this
      ensures Prepared(variant, managers, old(items), items, searches, Strategies(variant))
      ensures |items| == |old(items)| && Caches() && Managed() && Unclassified()
      ensures forall i :: 0 <= i < |items| ==> fresh(managers[i])
      ensures updated == old(updated) && blockedCompanyUsers == old(blockedCompanyUsers)
    {
      var ss := GetSolutions();
      var xs, ms := PrepareAll(variant, items, searches, ss);
      items := xs;
      managers := ms;
    }

    /**
     * One pass of the inner loop of filterRelevantDeals over the candidate `e` of the line
     * `cur`, whose manager is `m`: the branches in the source's order, each drop an unsetDeal.
     */
    method FilterEntry(m: RelatedDealsManager, cur: LineItem, e: Entry) returns (next: LineItem)
      requires Caches()
      modifies this, m
      ensures next == StepItem(variant, gate, blockedUsers, cur, e.deal)
      ensures m.entries == if Keeps(variant, gate, blockedUsers, cur, e.deal) then old(m.entries) else Without(old(m.entries), e.key)
      ensures m.containers == old(m.containers) && m.bySolution == old(m.bySolution) && m.checked == old(m.checked)
      ensures Caches() && items == old(items) && managers == old(managers) && updated == old(updated) && solutions == old(solutions)
    {
      var c := e.deal;
      if SkipsIncorrect(cur, c) {
        m.UnsetDeal(e.key);
        return cur;
      }
      var blocked := IsUserBlockedForCompany(Agents(c), c.companyId);
      if blocked {
        next := WithBlockFlag(cur, Some(cur.flags.hasDealWithoutBlockedCompany == Some(true)));
        m.UnsetDeal(e.key);
        return;
      }
      next := WithBlockFlag(cur, Some(true));
      var dropped := false;
      if DropsWithoutNbt(variant) && c.kind != Renewal && !c.hasNbt {
        m.UnsetDeal(e.key);
        dropped := true;
      }
      if ShapeSkip(cur, c) {
        return;
      }
      var without := !Licensed(gate, cur, c) && !IsShared(cur);
      if without {
        next := WithLicence(next, true, WithoutEoOrLicenseExplanation(OfDeal(cur.line.kind), gate.enabled));
        m.UnsetDeal(e.key);
        if dropped {
          WithoutTwice(old(m.entries), e.key);
        }
      } else {
        next := WithLicence(next, false, next.flags.withoutEoOrLicenseExplanation);
      }
    }

    /** The inner loop of filterRelevantDeals over the snapshot `snap` of the candidates of `item`. */
    method FilterLoop(m: RelatedDealsManager, item: LineItem, snap: seq<Entry>) returns (cur: LineItem)
      requires Caches() && m.entries == snap
      modifies this, m
      ensures Filtered(cur, m.entries) == FilterUpTo(variant, gate, blockedUsers, item, snap, |snap|)
      ensures m.containers == old(m.containers) && m.bySolution == old(m.bySolution) && m.checked == old(m.checked)
      ensures Caches() && items == old(items) && managers == old(managers) && updated == old(updated) && solutions == old(solutions)
    {
      cur := item;
      var n := 0;
      while n < |snap|
        invariant 0 <= n <= |snap|
        invariant Filtered(cur, m.entries) == FilterUpTo(variant, gate, blockedUsers, item, snap, n)
        invariant m.containers == old(m.containers) && m.bySolution == old(m.bySolution) && m.checked == old(m.checked)
        invariant Caches() && items == old(items) && managers == old(managers) && updated == old(updated) && solutions == old(solutions)
      {
        cur := FilterEntry(m, cur, snap[n]);
        n := n + 1;
      }
    }

    /**
     * filterRelevantDeals for line `i`: the inner loop over the snapshot of its candidates,
     * then the licence flag cleared when one survives, then the error explanation.
     */
    method FilterOne(i: nat)
      requires i < |items| && Managed() && Caches()
      modifies this, managers[i]
      ensures managers == old(managers) && |items| == |old(items)|
      ensures var f := FilterLine(variant, gate, blockedUsers, old(items[i]), old(managers[i].entries));
              items == old(items)[i := f.item] && managers[i].entries == f.entries
      ensures managers[i].containers == old(managers[i].containers) && managers[i].bySolution == old(managers[i].bySolution)
      ensures managers[i].checked == old(managers[i].checked)
      ensures Caches() && updated == old(updated) && solutions == old(solutions)
    {
      var m := managers[i];
      var cur := FilterLoop(m, items[i], m.entries);
      if m.entries != [] {
        cur := WithLicence(cur, false, "");
      }
      items := items[i := SearchDealErrorExplanation(variant, cur, m.entries == [])];
    }

    /** filterRelevantDeals has filtered the first `n` lines of `src`, whose candidates were `snaps`. */
    ghost predicate FilteredUpTo(n: nat, src: seq<LineItem>, snaps: seq<seq<Entry>>)
      reads this, managers
    {
      Managed() && Unclassified() && Caches() && n <= |items| && |items| == |src| == |snaps|
      && (forall j :: 0 <= j < n ==>
            var f := FilterLine(variant, gate, blockedUsers, src[j], snaps[j]);
            items[j] == f.item && managers[j].entries == f.entries)
      && (forall j :: n <= j < |items| ==> items[j] == src[j] && managers[j].entries == snaps[j])
    }

    /** One line more of filterRelevantDeals. */
    method FilterNext(n: nat, ghost src: seq<LineItem>, ghost snaps: seq<seq<Entry>>)
      requires FilteredUpTo(n, src, snaps) && n < |items|
      modifies this, managers[n]
      ensures FilteredUpTo(n + 1, src, snaps)
      ensures managers == old(managers) && updated == old(updated) && solutions == old(solutions)
    {
      assert items[n] == src[n] && managers[n].entries == snaps[n];
      FilterOne(n);
      ghost var f := FilterLine(variant, gate, blockedUsers, src[n], snaps[n]);
      assert items[n] == f.item && managers[n].entries == f.entries;
      forall j | 0 <= j < |managers| && j != n
        ensures managers[j].entries == old(managers[j].entries) && managers[j].bySolution == old(managers[j].bySolution)
        ensures managers[j].checked == old(managers[j].checked)
      {
        assert managers[j] != managers[n];
      }
    }

    /** filterRelevantDeals: every line filtered in turn. */
    method FilterRelevantDeals()
      requires Managed() && Unclassified() && Caches()
      modifies this, managers
      ensures managers == old(managers) && |items| == |old(items)| && Managed() && Unclassified() && Caches()
      ensures forall j :: 0 <= j < |items| ==>
                var f := FilterLine(variant, gate, blockedUsers, old(items[j]), old(managers[j].entries));
                items[j] == f.item && managers[j].entries == f.entries
      ensures updated == old(updated) && solutions == old(solutions)
    {
      ghost var src := items;
      ghost var snaps := EntriesOf(managers);
      var n := 0;
      while n < |items|
        invariant n <= |items| && FilteredUpTo(n, src, snaps)
        invariant managers == old(managers) && updated == old(updated) && solutions == old(solutions)
      {
        FilterNext(n, src, snaps);
        n := n + 1;
      }
    }

    /** The IA resolver's map of each policy number to its contract codes, built over the batch. */
    method BuildClients() returns (clients: map<string, set<string>>)
      ensures clients == ClientsOf(items)
    {
      clients := map[];
      var i := 0;
      while i < |items|
        invariant i <= |items| && clients == ClientsOf(items[..i])
      {
        var l := items[i].line;
        assert items[..i + 1][..i] == items[..i];
        clients := clients[l.policyNumber := (if l.policyNumber in clients then clients[l.policyNumber] else {}) + {l.contractCode}];
        i := i + 1;
      }
      assert items[..i] == items;
    }

    /** findSolutions for line `i`: its candidates classified, the line resolved, one candidate marked. */
    method ResolveLine(i: nat, clients: map<string, set<string>>, ghost snap: seq<Entry>, ghost before: LineItem)
      requires i < |items| && Managed() && Caches() && items[i] == before && managers[i].entries == snap
      requires managers[i].bySolution == map[] && managers[i].checked.None? && UniqueKeys(snap)
      modifies this, managers[i]
      ensures managers == old(managers) && |items| == |old(items)| && items == old(items)[i := items[i]]
      ensures managers[i].entries == snap
      ensures Caches() && updated == old(updated) && solutions == old(solutions)
      ensures LineOutcome(items[i], managers[i].bySolution, managers[i].checked) == OutcomeOf(variant, gate, snap, before, clients)
    {
      var r := ResolveWith(variant, gate, managers[i], items[i], clients);
      ResolvedUnique(variant, gate, snap, before, clients, managers[i].bySolution, managers[i].checked, r);
      items := items[i := r];
    }

    /**
     * findSolutions has resolved the first `n` lines of `src`, whose candidates are `snaps`, into
     * the outcomes `outs`; the other lines are untouched.
     */
    ghost predicate ResolvedUpTo(n: nat, src: seq<LineItem>, snaps: seq<seq<Entry>>, outs: seq<LineOutcome>)
      reads this, managers
    {
      Managed() && Caches() && n <= |items| && |items| == |src| == |snaps| == |outs|
      && (forall j :: 0 <= j < |items| ==> managers[j].entries == snaps[j])
      && (forall j :: 0 <= j < n ==>
            items[j] == outs[j].after && managers[j].bySolution == outs[j].bySolution
            && managers[j].checked == outs[j].checked)
      && (forall j :: n <= j < |items| ==>
            items[j] == src[j] && managers[j].bySolution == map[] && managers[j].checked.None? && UniqueKeys(snaps[j]))
    }

    /** One line more of findSolutions. */
    method ResolveNext(n: nat, ghost src: seq<LineItem>, ghost snaps: seq<seq<Entry>>, ghost outs: seq<LineOutcome>,
                       clients: map<string, set<string>>)
      requires ResolvedUpTo(n, src, snaps, outs) && n < |items|
      requires outs[n] == OutcomeOf(variant, gate, snaps[n], src[n], clients)
      modifies this, managers[n]
      ensures ResolvedUpTo(n + 1, src, snaps, outs)
      ensures managers == old(managers) && updated == old(updated) && solutions == old(solutions)
    {
      ResolveLine(n, clients, snaps[n], src[n]);
    }

    /** The loop of findSolutions, with the batch's clients map `all` (of which `clients` is what the variant uses). */
    method ResolveAll(clients: map<string, set<string>>, ghost all: map<string, set<string>>)
      requires Managed() && Unclassified() && Caches() && ClientsFor(variant, clients) == ClientsFor(variant, all)
      modifies this, managers
      ensures managers == old(managers) && |items| == |old(items)| && Managed() && Caches()
      ensures forall j :: 0 <= j < |items| ==> managers[j].entries == old(managers[j].entries)
      ensures updated == old(updated)
      ensures forall j {:trigger LineResolved(variant, gate, managers[j], old(items[j]), items[j], all)} ::
                0 <= j < |items| ==> LineResolved(variant, gate, managers[j], old(items[j]), items[j], all)
    {
      ghost var src := items;
      ghost var snaps := EntriesOf(managers);
      ghost var outs := ExpectedOutcomes(variant, gate, src, snaps, clients);
      var n := 0;
      while n < |items|
        invariant n <= |items| && ResolvedUpTo(n, src, snaps, outs)
        invariant managers == old(managers) && updated == old(updated)
      {
        ResolveNext(n, src, snaps, outs, clients);
        n := n + 1;
      }
      ResolvedWithAll(src, snaps, outs, clients, all);
    }

    /** Every line resolved with the map the variant uses is resolved with the whole batch's map. */
    lemma ResolvedWithAll(src: seq<LineItem>, snaps: seq<seq<Entry>>, outs: seq<LineOutcome>,
                          clients: map<string, set<string>>, all: map<string, set<string>>)
      requires |outs| == |src| == |snaps|
      requires forall j {:trigger OutcomeOf(variant, gate, snaps[j], src[j], clients)} ::
                 0 <= j < |outs| ==> outs[j] == OutcomeOf(variant, gate, snaps[j], src[j], clients)
      requires ResolvedUpTo(|items|, src, snaps, outs) && ClientsFor(variant, clients) == ClientsFor(variant, all)
      ensures forall j {:trigger LineResolved(variant, gate, managers[j], src[j], items[j], all)} ::
                0 <= j < |items| ==> LineResolved(variant, gate, managers[j], src[j], items[j], all)
    {
      forall j | 0 <= j < |items|
        ensures LineResolved(variant, gate, managers[j], src[j], items[j], all)
      {
        assert outs[j] == OutcomeOf(variant, gate, snaps[j], src[j], clients);
        assert LineResolved(variant, gate, managers[j], src[j], items[j], clients);
        LineResolvedClients(variant, gate, managers[j], src[j], items[j], clients, all);
      }
    }

    /**
     * findSolutions: every line's candidates classified and the line resolved, in order. The IA
     * resolver first maps every policy number of the batch to its contract codes.
     */
    method FindSolutions()
      requires Managed() && Unclassified() && Caches()
      modifies this, managers
      ensures managers == old(managers) && |items| == |old(items)| && Managed() && Caches()
      ensures forall j :: 0 <= j < |items| ==> managers[j].entries == old(managers[j].entries)
      ensures updated == old(updated)
      ensures forall j {:trigger LineResolved(variant, gate, managers[j], old(items[j]), items[j], ClientsOf(old(items)))} ::
                0 <= j < |items| ==> LineResolved(variant, gate, managers[j], old(items[j]), items[j], ClientsOf(old(items)))
    {
      var ss := GetSolutions();
      var clients: map<string, set<string>> := map[];
      if variant == IndustrialAlliance {
        clients := BuildClients();
      }
      ResolveAll(clients, ClientsOf(items));
    }

    /** findRelevantAdvisors: every line looked at in turn for an advisor to upload it to. */
    method FindRelevantAdvisors(searches: seq<AdvisorSearch>)
      requires |searches| == |items| == |managers|
      modifies this
      ensures managers == old(managers) && |items| == |old(items)|
      ensures forall i :: 0 <= i < |items| ==>
                items[i] == FindAdvisorsFor(variant, gate, old(items[i]), searches[i], managers[i].entries == [])
      ensures managers == old(managers) && updated == old(updated) && solutions == old(solutions)
      ensures blockedCompanyUsers == old(blockedCompanyUsers)
    {
      var i := 0;
      while i < |items|
        invariant i <= |items| == |old(items)| && managers == old(managers)
        invariant forall j :: 0 <= j < i ==>
                    items[j] == FindAdvisorsFor(variant, gate, old(items[j]), searches[j], managers[j].entries == [])
        invariant forall j :: i <= j < |items| ==> items[j] == old(items[j])
        invariant managers == old(managers) && updated == old(updated) && solutions == old(solutions)
        invariant blockedCompanyUsers == old(blockedCompanyUsers)
      {
        items := items[i := FindAdvisorsFor(variant, gate, items[i], searches[i], managers[i].entries == [])];
        i := i + 1;
      }
    }

    /** saveDeals (the parser's, over the batch): every line stamped and saved, see `SavedDeal`. */
    method SaveDeals(status: Option<Status>, err: string)
      modifies this
      ensures |items| == |old(items)| && forall i :: 0 <= i < |items| ==> items[i] == SavedDeal(old(items[i]), status, err)
      ensures managers == old(managers) && updated == old(updated) && solutions == old(solutions)
      ensures blockedCompanyUsers == old(blockedCompanyUsers)
    {
      ghost var before := items;
      var i := 0;
      while i < |items|
        invariant i <= |items| == |before|
        invariant forall j :: 0 <= j < i ==> items[j] == SavedDeal(before[j], status, err)
        invariant forall j :: i <= j < |items| ==> items[j] == before[j]
        invariant managers == old(managers) && updated == old(updated) && solutions == old(solutions)
        invariant blockedCompanyUsers == old(blockedCompanyUsers)
      {
        items := items[i := SavedDeal(items[i], status, err)];
        i := i + 1;
      }
    }

    /** The last two stages of matchDeals: findSolutions, then (when `advisors`) findRelevantAdvisors. */
    method SolveStages(advisorSearches: seq<AdvisorSearch>, advisors: bool)
      requires Managed() && Unclassified() && Caches() && |advisorSearches| == |items|
      modifies this, managers
      ensures |items| == |old(items)|
      ensures advisors ==> forall i :: 0 <= i < |items| ==> items[i].state.solution.Some?
    {
      FindSolutions();
      forall j | 0 <= j < |items| ensures items[j].state.solution.Some? {
        ResolvedHasSolution(variant, gate, managers[j], old(items[j]), items[j], ClientsOf(old(items)));
      }
      if advisors {
        ghost var solved := items;
        FindRelevantAdvisors(advisorSearches);
        forall j | 0 <= j < |items| ensures items[j].state.solution.Some? {
          assert solved[j].state.solution.Some?;
        }
      }
    }

    /** The stages of matchDeals that complete before the first `stage` (all four when `stage` is 4 or more). */
    method RunStages(searches: seq<Search>, advisorSearches: seq<AdvisorSearch>, stage: nat)
      requires |searches| == |items| && |advisorSearches| == |items| && Caches()
      modifies this
      ensures |items| == |old(items)|
      ensures stage >= 4 ==> forall i :: 0 <= i < |items| ==> items[i].state.solution.Some?
    {
      if stage > 0 {
        FindRelevantDeals(searches);
        if stage > 1 {
          FilterRelevantDeals();
          if stage > 2 {
            SolveStages(advisorSearches, stage > 3);
          }
        }
      }
    }

    /**
     * matchDeals: the four stages in order, then every line saved PendingAdmin. An exception
     * thrown by the storage after `thrownAfter` stages have completed skips the rest and saves
     * every line as Error with its message.
     */
    method MatchDeals(searches: seq<Search>, advisorSearches: seq<AdvisorSearch>, thrownAfter: Option<nat>, message: string)
      requires |searches| == |items| && |advisorSearches| == |items| && Caches()
      modifies this
      ensures |items| == |old(items)|
      ensures thrownAfter.None? ==>
                forall i :: 0 <= i < |items| ==>
                  items[i].state.solution.Some? && (items[i].state.status == PendingAdmin || items[i].state.status == Skipped)
      ensures thrownAfter.Some? ==>
                forall i :: 0 <= i < |items| ==>
                  items[i].state.status == Error || (!Truthy(message) && items[i].state.status == Skipped)
      ensures thrownAfter.Some? && Truthy(message) ==>
                forall i :: 0 <= i < |items| ==>
                  items[i].state.status == Error && items[i].state.solution == Some(Unmatch) && items[i].log.errors == [message]
    {
      RunStages(searches, advisorSearches, if thrownAfter.Some? then thrownAfter.value else 4);
      if thrownAfter.None? {
        SaveDeals(Some(PendingAdmin), "");
      } else {
        SaveDeals(Some(Error), message);
      }
    }

    /**
     * updateSolutions: each line the user submitted a choice for gets it through its solution's
     * update and is saved; the other lines are left alone. A choice the resolver does not
     * declare throws at its line, after the lines before it were updated (`None`). Otherwise
     * the answer is whether the parser is free of errors, which nothing here changes: a line
     * whose save fails records its errors on the line, not on the parser.
     */
    method UpdateSolutions(inputs: map<nat, UserInput>, onlyCounters: bool, users: map<nat, Advisor>, parserHasErrors: bool)
      returns (r: Option<bool>)
      modifies this
      ensures |items| == |old(items)|
      ensures var n := FirstUndeclared(variant, old(items), inputs);
              (forall i :: 0 <= i < n ==> items[i] == Submitted(variant, old(items[i]), inputs, onlyCounters, users)) &&
              (forall i :: n <= i < |items| ==> items[i] == old(items[i]))
      ensures r.None? <==> exists i :: 0 <= i < |old(items)| && !Declared(variant, old(items[i]), inputs)
      ensures r.Some? ==> r.value == !parserHasErrors
      ensures managers == old(managers) && updated == old(updated) && solutions == old(solutions)
      ensures blockedCompanyUsers == old(blockedCompanyUsers)
    {
      ghost var before := items;
      ghost var n := FirstUndeclared(variant, before, inputs);
      var i := 0;
      while i < |items|
        invariant i <= |items| == |before| && i <= n
        invariant forall j :: 0 <= j < i ==> items[j] == Submitted(variant, before[j], inputs, onlyCounters, users)
        invariant forall j :: i <= j < |items| ==> items[j] == before[j]
        invariant managers == old(managers) && updated == old(updated) && solutions == old(solutions)
        invariant blockedCompanyUsers == old(blockedCompanyUsers)
      {
        if !Declared(variant, items[i], inputs) {
          return None;
        }
        items := items[i := Submitted(variant, items[i], inputs, onlyCounters, users)];
        i := i + 1;
      }
      r := Some(!parserHasErrors);
    }

    /** hasDealsUpdatedActualSolution: whether saveActualSolution has saved any line. */
    predicate HasDealsUpdatedActualSolution()
      reads this
    {
      |updated| > 0
    }

    /**
     * saveActualSolution: every line whose solution differs from the stored one is saved and
     * recorded as updated, in order; afterwards no line differs from what is stored.
     */
    method SaveActualSolution()
      modifies this
      ensures |items| == |old(items)|
      ensures forall i :: 0 <= i < |items| ==> items[i] == Actual(old(items[i])) && !Changed(items[i])
      ensures updated == old(updated) + ChangedPositions(old(items), |old(items)|)
      ensures HasDealsUpdatedActualSolution() <==>
                old(HasDealsUpdatedActualSolution()) || exists i :: 0 <= i < |items| && Changed(old(items[i]))
      ensures managers == old(managers) && solutions == old(solutions) && blockedCompanyUsers == old(blockedCompanyUsers)
    {
      var xs, ps := SaveChanged(items);
      items, updated := xs, updated + ps;
      RecordedIffChanged(old(items), |old(items)|);
    }

    /**
     * applySolutions: every Pending line is applied through its solution; a failed apply saves
     * the line as Error. The result says whether every apply succeeded. (The source pages
     * through the Pending lines a hundred at a time until none is left; every line it applies
     * leaves Pending, so the pages together are one pass over the batch.)
     */
    method ApplySolutions(ledgers: seq<Ledger>, outcomes: seq<Outcome>) returns (success: bool)
      requires |ledgers| == |items| && |outcomes| == |items|
      requires forall i :: 0 <= i < |items| && items[i].state.status == Pending ==>
                 items[i].state.solution.Some? && items[i].state.solution.value in PossibleSolutions(variant)
      modifies this
      ensures |items| == |old(items)|
      ensures forall i :: 0 <= i < |items| ==> items[i] == AfterApply(variant, old(items[i]), ledgers[i], outcomes[i])
      ensures forall i :: 0 <= i < |items| ==> items[i].state.status != Pending
      ensures success <==> forall i :: 0 <= i < |items| && old(items[i]).state.status == Pending ==>
                             ApplyOne(variant, old(items[i]), ledgers[i], outcomes[i]).ok
      ensures managers == old(managers) && updated == old(updated) && solutions == old(solutions)
      ensures blockedCompanyUsers == old(blockedCompanyUsers)
    {
      success := true;
      ghost var before := items;
      var i := 0;
      while i < |items|
        invariant i <= |items| == |before|
        invariant forall j :: 0 <= j < i ==> items[j] == AfterApply(variant, before[j], ledgers[j], outcomes[j])
        invariant forall j :: i <= j < |items| ==> items[j] == before[j]
        invariant success <==> forall j :: 0 <= j < i && before[j].state.status == Pending ==>
                                 ApplyOne(variant, before[j], ledgers[j], outcomes[j]).ok
        invariant managers == old(managers) && updated == old(updated) && solutions == old(solutions)
        invariant blockedCompanyUsers == old(blockedCompanyUsers)
      {
        var line, ok := ApplyLine(variant, items[i], ledgers[i], outcomes[i]);
        items := items[i := line];
        success := success && ok;
        i := i + 1;
      }
    }
  }
}

