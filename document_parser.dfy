// The batch-level operations of DocumentParser that the engine relies on: the status rule of
// saveDeals, the manual-matching lists, grouping by owner, combining duplicate rows, the
// simple-name parser and the two per-parser memos (licence checks, agents by contract code).

module DocumentParsers {
  import opened Wrappers
  import opened Domain
  import opened Text
  import opened Compliance
  import opened LineItems

  // ---- saveDeals ------------------------------------------------------------------------

  /**
   * What saveDeals does to one line: a given status is set, except that without an error a
   * manual-match solution that cannot be matched by hand is saved Skipped; an error message
   * forces Unmatch and replaces the errors with that one message; then the line is saved.
   */
  function SavedDeal(item: LineItem, status: Option<Status>, err: string): (r: LineItem)
    ensures Truthy(err) ==> r.state.solution == Some(Unmatch) && r.log.errors == [err]
    ensures !Truthy(err) ==> r.state.solution == item.state.solution && r.log.errors == item.log.errors
    ensures status.None? ==> r.state.status == item.state.status
    ensures status.Some? && Truthy(err) ==> r.state.status == status.value
    ensures status.Some? && !Truthy(err) ==>
              r.state.status == (if IsManualMatchSolution(item) && !IsPossibleManualMatch(item) then Skipped else status.value)
    ensures r.state.savedSolution == r.state.solution
    ensures r.log.explanations == StoredPieces(item) + item.log.explanations
    ensures r.line == item.line && r.data == item.data && r.choice == item.choice && r.flags == item.flags
  {
    var stamped :=
      if status.None? then item
      else if !Truthy(err) && IsManualMatchSolution(item) && !IsPossibleManualMatch(item) then
        item.(state := item.state.(status := Skipped))
      else item.(state := item.state.(status := status.value));
    var failed :=
      if Truthy(err) then stamped.(state := stamped.state.(solution := Some(Unmatch)), log := stamped.log.(errors := [err]))
      else stamped;
    Save(failed)
  }

  /** A line is saved Skipped only by a run without an error, and only when it cannot be matched by hand. */
  lemma SkippedOnlyWhenUnmatchable(item: LineItem, status: Status, err: string)
    requires status != Skipped
    requires SavedDeal(item, Some(status), err).state.status == Skipped
    ensures !Truthy(err) && IsManualMatchSolution(item) && !IsPossibleManualMatch(item)
  {
  }

  /** A failed run leaves every line unmatched with the failure as its only error, whatever it held. */
  lemma FailureUnmatches(item: LineItem, status: Status, err: string)
    requires Truthy(err)
    ensures var r := SavedDeal(item, Some(status), err);
            r.state.status == status && r.state.solution == Some(Unmatch) && r.log.errors == [err]
  {
  }

  // ---- the manual-matching lists --------------------------------------------------------

  /** The lines of `xs` that satisfy `p`, in their order (the append-in-a-loop of the source). */
  function Kept(xs: seq<LineItem>, p: LineItem -> bool): (r: seq<LineItem>)
    ensures |r| <= |xs|
    ensures forall x :: x in r <==> x in xs && p(x)
  {
    if xs == [] then []
    else
      var init := xs[..|xs| - 1];
      assert forall x :: x in xs <==> x in init || x == xs[|xs| - 1];
      Kept(init, p) + (if p(xs[|xs| - 1]) then [xs[|xs| - 1]] else [])
  }

  /** getUnmatchedParseResults: the lines whose solution is one a user may match by hand, in order. */
  method UnmatchedParseResults(items: seq<LineItem>) returns (r: seq<LineItem>)
    ensures r == Kept(items, IsManualMatchSolution)
  {
    r := [];
    var i := 0;
    while i < |items|
      invariant i <= |items| && r == Kept(items[..i], IsManualMatchSolution)
    {
      assert items[..i + 1][..i] == items[..i];
      if IsManualMatchSolution(items[i]) {
        r := r + [items[i]];
      }
      i := i + 1;
    }
    assert items[..i] == items;
  }

  /** What getDealsForManualMatching asks of an unmatched line besides its solution. */
  predicate ReadyForManualMatching(item: LineItem)
  {
    item.state.status == PendingAdmin && IsPossibleManualMatch(item)
  }

  /**
   * getDealsForManualMatching: of the unmatched lines, those awaiting the administrator that
   * can be matched by hand, in order.
   */
  method DealsForManualMatching(items: seq<LineItem>) returns (r: seq<LineItem>)
    ensures r == Kept(Kept(items, IsManualMatchSolution), ReadyForManualMatching)
    ensures forall x :: x in r <==>
              x in items && IsManualMatchSolution(x) && x.state.status == PendingAdmin && IsPossibleManualMatch(x)
  {
    var unmatched := UnmatchedParseResults(items);
    r := [];
    var i := 0;
    while i < |unmatched|
      invariant i <= |unmatched| && r == Kept(unmatched[..i], ReadyForManualMatching)
    {
      assert unmatched[..i + 1][..i] == unmatched[..i];
      if ReadyForManualMatching(unmatched[i]) {
        r := r + [unmatched[i]];
      }
      i := i + 1;
    }
    assert unmatched[..i] == unmatched;
  }

  /**
   * saveDeals and getDealsForManualMatching agree: after a run without an error saves a line
   * PendingAdmin, the line is offered for manual matching exactly when its solution is a
   * manual one and it can be matched by hand; a manual solution that cannot be is saved
   * Skipped instead and never offered.
   */
  lemma SavedThenOffered(item: LineItem)
    ensures var r := SavedDeal(item, Some(PendingAdmin), "");
            ReadyForManualMatching(r) && IsManualMatchSolution(r) <==>
              IsManualMatchSolution(item) && IsPossibleManualMatch(item)
    ensures var r := SavedDeal(item, Some(PendingAdmin), "");
            IsManualMatchSolution(item) && !IsPossibleManualMatch(item) ==> r.state.status == Skipped
  {
    var r := SavedDeal(item, Some(PendingAdmin), "");
    assert IsPossibleManualMatch(r) == IsPossibleManualMatch(item);
  }

  // ---- groupByAdvisor -------------------------------------------------------------------

  /**
   * The owner a line is grouped under (getFullOwnerName without duplicated names): the
   * advisor's full name, followed by " / " and the second advisor's for a split line. The
   * lookup of a full name by the name on the statement is a parameter; the source caches it
   * per name for the whole run, so one name always gives one full name.
   */
  function FullOwnerName(item: LineItem, fullName: string -> string): (r: string)
    ensures !item.line.isSharedFlag ==> r == fullName(item.line.advisorName)
    ensures item.line.isSharedFlag ==> r == fullName(item.line.advisorName) + " / " + fullName(item.line.shareAdvisorName)
  {
    if item.line.isSharedFlag then fullName(item.line.advisorName) + " / " + fullName(item.line.shareAdvisorName)
    else fullName(item.line.advisorName)
  }

  /** The lines of `xs` that groupByAdvisor puts under `owner`, in order. */
  function OwnedBy(xs: seq<LineItem>, owner: string, fullName: string -> string): (r: seq<LineItem>)
    ensures forall x :: x in r <==> x in xs && !IsManualMatchSolution(x) && FullOwnerName(x, fullName) == owner
  {
    if xs == [] then []
    else
      var init := xs[..|xs| - 1];
      var x := xs[|xs| - 1];
      assert forall y :: y in xs <==> y in init || y == x;
      OwnedBy(init, owner, fullName) + (if !IsManualMatchSolution(x) && FullOwnerName(x, fullName) == owner then [x] else [])
  }

  /** `groups` holds exactly the non-empty groups of the lines `xs`. */
  ghost predicate GroupedBy(groups: map<string, seq<LineItem>>, xs: seq<LineItem>, fullName: string -> string)
  {
    && (forall owner :: owner in groups ==> groups[owner] == OwnedBy(xs, owner, fullName) && groups[owner] != [])
    && (forall owner :: owner !in groups ==> OwnedBy(xs, owner, fullName) == [])
  }

  /** One more line joins the group of its owner, unless it is a manual match. */
  lemma OwnedByNext(xs: seq<LineItem>, x: LineItem, o: string, fullName: string -> string)
    ensures OwnedBy(xs + [x], o, fullName) ==
            OwnedBy(xs, o, fullName) + (if !IsManualMatchSolution(x) && FullOwnerName(x, fullName) == o then [x] else [])
  {
    assert (xs + [x])[..|xs|] == xs;
  }

  /** Adding one line to the groups of a prefix gives the groups of the longer prefix. */
  lemma GroupedByNext(groups: map<string, seq<LineItem>>, xs: seq<LineItem>, x: LineItem, fullName: string -> string)
    requires GroupedBy(groups, xs, fullName)
    ensures var owner := FullOwnerName(x, fullName);
            GroupedBy(if IsManualMatchSolution(x) then groups
                      else groups[owner := if owner in groups then groups[owner] + [x] else [x]],
                      xs + [x], fullName)
  {
    var owner := FullOwnerName(x, fullName);
    var groups' := if IsManualMatchSolution(x) then groups
                   else groups[owner := if owner in groups then groups[owner] + [x] else [x]];
    forall o | o in groups'
      ensures groups'[o] == OwnedBy(xs + [x], o, fullName) && groups'[o] != []
    {
      OwnedByNext(xs, x, o, fullName);
    }
    forall o | o !in groups'
      ensures OwnedBy(xs + [x], o, fullName) == []
    {
      OwnedByNext(xs, x, o, fullName);
    }
    assert GroupedBy(groups', xs + [x], fullName);
  }

  /** The groups of all the lines are keyed by exactly the owners of the lines kept. */
  lemma GroupedOwners(groups: map<string, seq<LineItem>>, xs: seq<LineItem>, fullName: string -> string)
    requires GroupedBy(groups, xs, fullName)
    ensures forall owner :: owner in groups <==>
              exists x :: x in xs && !IsManualMatchSolution(x) && FullOwnerName(x, fullName) == owner
  {
    forall owner | owner in groups
      ensures exists x :: x in xs && !IsManualMatchSolution(x) && FullOwnerName(x, fullName) == owner
    {
      assert groups[owner][0] in OwnedBy(xs, owner, fullName);
    }
    forall owner, x | x in xs && !IsManualMatchSolution(x) && FullOwnerName(x, fullName) == owner
      ensures owner in groups
    {
      assert x in OwnedBy(xs, owner, fullName);
    }
  }

  /**
   * groupByAdvisor: the lines that are not for manual matching, grouped by owner; each group
   * keeps the lines' order and every such line is in the group of its owner.
   */
  method GroupByAdvisor(deals: seq<LineItem>, fullName: string -> string) returns (groups: map<string, seq<LineItem>>)
    ensures forall owner :: owner in groups <==>
              exists x :: x in deals && !IsManualMatchSolution(x) && FullOwnerName(x, fullName) == owner
    ensures forall owner :: owner in groups ==> groups[owner] == OwnedBy(deals, owner, fullName)
  {
    groups := map[];
    var i := 0;
    while i < |deals|
      invariant i <= |deals| && GroupedBy(groups, deals[..i], fullName)
    {
      GroupedByNext(groups, deals[..i], deals[i], fullName);
      assert deals[..i + 1] == deals[..i] + [deals[i]];
      var x := deals[i];
      if !IsManualMatchSolution(x) {
        var owner := FullOwnerName(x, fullName);
        if owner in groups {
          groups := groups[owner := groups[owner] + [x]];
        } else {
          groups := groups[owner := [x]];
        }
      }
      i := i + 1;
    }
    assert deals[..i] == deals;
    GroupedOwners(groups, deals, fullName);
  }

  // ---- the per-parser memos -------------------------------------------------------------

  /** The memo key of a licence check: 'userId:%u-shareUserId:%u-type:%s-stateId:%u'. */
  datatype CheckKey = CheckKey(userId: nat, shareUserId: nat, t: CheckType, stateId: nat)

  /** The memo key of an agent lookup: the company id, '-', the contract code. */
  datatype AgentKey = AgentKey(companyId: nat, code: string)

  /**
   * The memos a parser keeps for one run. The licence checker, the contracting ids of a company
   * and the search of a user contracting by code are parameters; each memo entry equals what
   * its source would give, so a memoised answer is the one a fresh call would give.
   */
  class ParserCaches {
    const gate: Gate
    const contractingsOf: nat -> seq<nat>                    // Contracting ids of a company
    const findByCode: (string, nat, seq<nat>) -> Option<nat>  // UserContracting::findByCode()->user
    var eoLicenseChecks: map<CheckKey, bool>
    var contractingIds: map<nat, seq<nat>>
    var agentsFoundByCode: map<AgentKey, Option<nat>>

    ghost predicate Valid()
      reads this
    {
      && (forall k :: k in eoLicenseChecks ==>
            eoLicenseChecks[k] == Passes(gate, k.t, k.userId, k.shareUserId, k.stateId, false))
      && (forall c :: c in contractingIds ==> contractingIds[c] == contractingsOf(c))
      && (forall k :: k in agentsFoundByCode ==>
            Truthy(k.code) && agentsFoundByCode[k] == AgentFor(k.companyId, k.code))
    }

    /** The agent a contract code names at a company, when any. */
    function AgentFor(companyId: nat, code: string): Option<nat>
    {
      findByCode(code, companyId, contractingsOf(companyId))
    }

    constructor (gate: Gate, contractingsOf: nat -> seq<nat>, findByCode: (string, nat, seq<nat>) -> Option<nat>)
      ensures Valid()
      ensures this.gate == gate && this.contractingsOf == contractingsOf && this.findByCode == findByCode
      ensures eoLicenseChecks == map[] && contractingIds == map[] && agentsFoundByCode == map[]
    {
      this.gate := gate;
      this.contractingsOf := contractingsOf;
      this.findByCode := findByCode;
      eoLicenseChecks := map[];
      contractingIds := map[];
      agentsFoundByCode := map[];
    }

    /** getEoLicenseChecks: the checker's answer (both agents must pass), computed once per key. */
    method GetEoLicenseChecks(t: CheckType, userId: nat, shareUserId: nat, stateId: nat) returns (ok: bool)
      requires Valid()
      modifies this
      ensures Valid()
      ensures ok == Passes(gate, t, userId, shareUserId, stateId, false)
      ensures eoLicenseChecks == old(eoLicenseChecks)[CheckKey(userId, shareUserId, t, stateId) := ok]
      ensures contractingIds == old(contractingIds) && agentsFoundByCode == old(agentsFoundByCode)
    {
      var key := CheckKey(userId, shareUserId, t, stateId);
      if key !in eoLicenseChecks {
        eoLicenseChecks := eoLicenseChecks[key := Passes(gate, t, userId, shareUserId, stateId, false)];
      }
      ok := eoLicenseChecks[key];
    }

    /** getContractingIdsByCompany: the company's contracting ids, queried once per company. */
    method GetContractingIdsByCompany(companyId: nat) returns (ids: seq<nat>)
      requires Valid()
      modifies this
      ensures Valid()
      ensures ids == contractingsOf(companyId)
      ensures contractingIds == old(contractingIds)[companyId := ids]
      ensures eoLicenseChecks == old(eoLicenseChecks) && agentsFoundByCode == old(agentsFoundByCode)
    {
      if companyId !in contractingIds {
        contractingIds := contractingIds[companyId := contractingsOf(companyId)];
      }
      ids := contractingIds[companyId];
    }

    /**
     * getAgentByContractCode: no agent for an empty code; otherwise the agent the code names
     * at the company, looked up once per company and code (a missing agent is remembered too).
     */
    method GetAgentByContractCode(companyId: nat, code: string) returns (agent: Option<nat>)
      requires Valid()
      modifies this
      ensures Valid()
      ensures !Truthy(code) ==> agent.None? && agentsFoundByCode == old(agentsFoundByCode)
      ensures Truthy(code) ==> agent == AgentFor(companyId, code)
      ensures Truthy(code) ==> agentsFoundByCode == old(agentsFoundByCode)[AgentKey(companyId, code) := agent]
      ensures eoLicenseChecks == old(eoLicenseChecks)
    {
      if !Truthy(code) {
        return None;
      }
      var key := AgentKey(companyId, code);
      if key !in agentsFoundByCode {
        var ids := GetContractingIdsByCompany(companyId);
        agentsFoundByCode := agentsFoundByCode[key := findByCode(code, companyId, ids)];
      }
      agent := agentsFoundByCode[key];
    }
  }
}

