// The candidates of one statement line and their classification (RelatedDealsManager and
// RelatedDealContainer): every solution strategy of the resolver is tried on every candidate,
// each candidate collects the strategies it fits, each solution key collects its candidates, and
// once the line has a solution one candidate of that solution is marked as the checked one.
//
// The manager holds the candidates under their PHP array keys (unset does not renumber,
// array_merge does). The line item it classifies for is a value here: the operation that may add
// explanations to it takes it and returns the new line.

module RelatedDeals {
  import opened Wrappers
  import opened Domain
  import opened Compliance
  import opened LineItems
  import opened Solutions

  /** A candidate test: isFitRelatedDeal of a strategy on a candidate, for one line. */
  type Test = (Strategy, Candidate) -> Fit

  /** A candidate under its array key. */
  datatype Entry = Entry(key: nat, deal: Candidate)

  /** The candidates of a keyed list, in list order. */
  function Values(es: seq<Entry>): (ds: seq<Candidate>)
    ensures |ds| == |es|
    ensures forall i :: 0 <= i < |es| ==> ds[i] == es[i].deal
  {
    if es == [] then [] else [es[0].deal] + Values(es[1..])
  }

  /** A list as PHP numbers it: keys 0, 1, 2, ... */
  function Numbered(ds: seq<Candidate>): (es: seq<Entry>)
    ensures Values(es) == ds
    ensures forall i :: 0 <= i < |es| ==> es[i].key == i
  {
    if ds == [] then []
    else
      var init := Numbered(ds[..|ds| - 1]);
      assert Values(init + [Entry(|ds| - 1, ds[|ds| - 1])]) == ds;
      init + [Entry(|ds| - 1, ds[|ds| - 1])]
  }

  /** No key is used twice. */
  predicate UniqueKeys(es: seq<Entry>)
  {
    forall i, j :: 0 <= i < j < |es| ==> es[i].key != es[j].key
  }

  /** unset($deals[$key]): the list without the entry under `key`, order kept. */
  function Without(es: seq<Entry>, key: nat): (r: seq<Entry>)
    ensures forall e :: e in r <==> e in es && e.key != key
    ensures |r| <= |es|
  {
    if es == [] then []
    else
      var rest := Without(es[1..], key);
      assert forall e :: e in es <==> e == es[0] || e in es[1..];
      if es[0].key == key then rest else [es[0]] + rest
  }

  /** Unsetting keeps the keys unique. */
  lemma {:induction false} WithoutUnique(es: seq<Entry>, key: nat)
    requires UniqueKeys(es)
    ensures UniqueKeys(Without(es, key))
  {
    if es != [] {
      var rest := Without(es[1..], key);
      assert UniqueKeys(es[1..]) by {
        forall i, j | 0 <= i < j < |es[1..]| ensures es[1..][i].key != es[1..][j].key {
          assert es[1..][i] == es[i + 1] && es[1..][j] == es[j + 1];
        }
      }
      WithoutUnique(es[1..], key);
      if es[0].key != key {
        forall e | e in rest ensures e.key != es[0].key {
          var j :| 0 <= j < |es[1..]| && es[1..][j] == e;
          assert es[j + 1] == e;
        }
        var r := [es[0]] + rest;
        forall i, j | 0 <= i < j < |r| ensures r[i].key != r[j].key {
          assert r[j] == rest[j - 1];
          if i > 0 {
            assert r[i] == rest[i - 1];
          }
        }
      }
    }
  }

  /** Unsetting a key that is not in the list changes nothing. */
  lemma {:induction false} WithoutAbsent(es: seq<Entry>, key: nat)
    requires forall e :: e in es ==> e.key != key
    ensures Without(es, key) == es
  {
    if es != [] {
      assert es[0] in es;
      forall e | e in es[1..] ensures e.key != key {
        assert e in es;
      }
      WithoutAbsent(es[1..], key);
      assert [es[0]] + es[1..] == es;
    }
  }

  // ---- classification, as values --------------------------------------------------------

  /** The keys of a list of strategies, in order (the solution keys json-encoded by a container). */
  function Keys(ss: seq<Strategy>): (ks: seq<SolutionKind>)
    ensures |ks| == |ss|
    ensures forall i :: 0 <= i < |ss| ==> ks[i] == Key(ss[i])
  {
    if ss == [] then [] else [Key(ss[0])] + Keys(ss[1..])
  }

  /** The first `m` strategies that fit candidate `c`, in the resolver's order. */
  function FitsOf(ss: seq<Strategy>, m: nat, test: Test, c: Candidate): (r: seq<Strategy>)
    requires m <= |ss|
    ensures |r| <= m
  {
    if m == 0 then []
    else FitsOf(ss, m - 1, test, c) + (if test(ss[m - 1], c).fits then [ss[m - 1]] else [])
  }

  /** A candidate collects exactly the strategies that fit it, each at most once per occurrence. */
  lemma {:induction false} FitsOfExactly(ss: seq<Strategy>, m: nat, test: Test, c: Candidate)
    requires m <= |ss|
    ensures forall s :: s in FitsOf(ss, m, test, c) <==> s in ss[..m] && test(s, c).fits
  {
    if m > 0 {
      FitsOfExactly(ss, m - 1, test, c);
      assert forall s :: s in ss[..m] <==> s in ss[..m - 1] || s == ss[m - 1];
    }
  }

  /** Every position in the list is below `n`. */
  predicate InRange(ps: seq<nat>, n: nat)
  {
    forall i :: 0 <= i < |ps| ==> ps[i] < n
  }

  /** The positions are strictly increasing. */
  predicate Increasing(ps: seq<nat>)
  {
    forall a, b :: 0 <= a < b < |ps| ==> ps[a] < ps[b]
  }

  /** The positions, among the first `n` candidates, of those strategy `s` fits. */
  function Tagged(s: Strategy, test: Test, ds: seq<Candidate>, n: nat): (r: seq<nat>)
    requires n <= |ds|
    ensures InRange(r, n)
  {
    if n == 0 then []
    else Tagged(s, test, ds, n - 1) + (if test(s, ds[n - 1]).fits then [n - 1] else [])
  }

  /** A strategy lists exactly the candidates it fits, in candidate order. */
  lemma {:induction false} TaggedExactly(s: Strategy, test: Test, ds: seq<Candidate>, n: nat)
    requires n <= |ds|
    ensures forall k: nat :: k in Tagged(s, test, ds, n) <==> k < n && test(s, ds[k]).fits
    ensures Increasing(Tagged(s, test, ds, n))
  {
    if n > 0 {
      TaggedExactly(s, test, ds, n - 1);
      var prev := Tagged(s, test, ds, n - 1);
      assert InRange(prev, n - 1);
      var r := Tagged(s, test, ds, n);
      assert forall a :: 0 <= a < |prev| ==> r[a] == prev[a];
      assert forall a, b :: 0 <= a < b < |r| ==> r[a] < r[b] by {
        forall a, b | 0 <= a < b < |r|
          ensures r[a] < r[b]
        {
          if b < |prev| {
            assert Increasing(prev);
          }
        }
      }
    }
  }

  /** The explanations strategy `s` leaves while it tests the first `n` candidates. */
  function Notes(s: Strategy, test: Test, ds: seq<Candidate>, n: nat): (r: seq<string>)
    requires n <= |ds|
    ensures |r| <= n
  {
    if n == 0 then []
    else
      var f := test(s, ds[n - 1]);
      Notes(s, test, ds, n - 1) + (if f.note.Some? then [f.note.value] else [])
  }

  /** The explanations the first `m` strategies leave over all candidates, strategy by strategy. */
  function AllNotes(ss: seq<Strategy>, m: nat, test: Test, ds: seq<Candidate>): (r: seq<string>)
    requires m <= |ss|
    ensures |r| <= m * |ds|
  {
    if m == 0 then [] else AllNotes(ss, m - 1, test, ds) + Notes(ss[m - 1], test, ds, |ds|)
  }

  /** dealsBySolutions after the first `m` strategies were tried, starting from `base`. */
  function Classify(ss: seq<Strategy>, m: nat, test: Test, ds: seq<Candidate>,
                    base: map<SolutionKind, seq<nat>>): (r: map<SolutionKind, seq<nat>>)
    requires m <= |ss|
    ensures forall k :: k in r <==> k in base || k in Keys(ss[..m])
    ensures forall k :: k in r ==> InRange(r[k], |ds|) || (k in base && r[k] == base[k])
  {
    if m == 0 then base
    else
      var init := Classify(ss, m - 1, test, ds, base);
      KeysGrow(ss, m);
      init[Key(ss[m - 1]) := Tagged(ss[m - 1], test, ds, |ds|)]
  }

  /** One more strategy adds its key to the keys of the prefix. */
  lemma KeysGrow(ss: seq<Strategy>, m: nat)
    requires 0 < m <= |ss|
    ensures forall k :: k in Keys(ss[..m]) <==> k in Keys(ss[..m - 1]) || k == Key(ss[m - 1])
  {
    assert Keys(ss[..m]) == Keys(ss[..m - 1]) + [Key(ss[m - 1])];
  }

  /** Each strategy of the resolver has its own solution key (the class map is keyed by it). */
  predicate DistinctKeys(ss: seq<Strategy>)
  {
    forall i, j :: 0 <= i < j < |ss| ==> Key(ss[i]) != Key(ss[j])
  }

  /**
   * With distinct keys, each solution key lists exactly the candidates its strategy fits, in
   * candidate order, and a key no strategy has keeps what it had.
   */
  lemma {:induction false} ClassifiedExactly(ss: seq<Strategy>, m: nat, test: Test, ds: seq<Candidate>,
                                             base: map<SolutionKind, seq<nat>>, j: nat)
    requires m <= |ss| && DistinctKeys(ss) && j < m
    ensures Classify(ss, m, test, ds, base)[Key(ss[j])] == Tagged(ss[j], test, ds, |ds|)
  {
    if j < m - 1 {
      assert Key(ss[m - 1]) != Key(ss[j]);
      ClassifiedExactly(ss, m - 1, test, ds, base, j);
    }
  }

  /** A key no strategy carries keeps its entry: nothing is classified under it. */
  lemma {:induction false} UnclassifiedUntouched(ss: seq<Strategy>, m: nat, test: Test, ds: seq<Candidate>,
                                                 base: map<SolutionKind, seq<nat>>, k: SolutionKind)
    requires m <= |ss| && forall i :: 0 <= i < m ==> Key(ss[i]) != k
    ensures k in Classify(ss, m, test, ds, base) <==> k in base
    ensures k in base ==> Classify(ss, m, test, ds, base)[k] == base[k]
  {
    if m > 0 {
      UnclassifiedUntouched(ss, m - 1, test, ds, base, k);
    }
  }

  // ---- the solution tests of a line -------------------------------------------------------

  /** isFitRelatedDeal of every strategy for the given line. */
  function TestFor(g: Gate, item: LineItem): Test
  {
    (s, c) => FitRelated(s, g, item, c)
  }

  /** A candidate is tagged Unmatch whenever the resolver has an Unmatch strategy. */
  lemma UnmatchTagsEveryCandidate(ss: seq<Strategy>, m: nat, g: Gate, item: LineItem, c: Candidate, u: Strategy)
    requires m <= |ss| && u in ss[..m] && IsUnmatchStrategy(u)
    ensures u in FitsOf(ss, m, TestFor(g, item), c)
  {
    FitsOfExactly(ss, m, TestFor(g, item), c);
  }

  /** The only explanation a candidate test leaves is the over-charge-back one. */
  lemma {:induction false} NotesAreOverCharge(s: Strategy, g: Gate, item: LineItem, ds: seq<Candidate>, n: nat)
    requires n <= |ds|
    ensures forall e :: e in Notes(s, TestFor(g, item), ds, n) ==> e == OverChargeBackNote
    ensures Notes(s, TestFor(g, item), ds, n) != [] ==> exists k :: 0 <= k < n && ExceedsPaid(item, ds[k])
  {
    if n > 0 {
      NotesAreOverCharge(s, g, item, ds, n - 1);
      var f := FitRelated(s, g, item, ds[n - 1]);
      assert Notes(s, TestFor(g, item), ds, n) ==
             Notes(s, TestFor(g, item), ds, n - 1) + (if f.note.Some? then [f.note.value] else []);
    }
  }

  /** Over all strategies, too, the line only collects over-charge-back explanations. */
  lemma {:induction false} AllNotesAreOverCharge(ss: seq<Strategy>, m: nat, g: Gate, item: LineItem, ds: seq<Candidate>)
    requires m <= |ss|
    ensures forall e :: e in AllNotes(ss, m, TestFor(g, item), ds) ==> e == OverChargeBackNote
  {
    if m > 0 {
      AllNotesAreOverCharge(ss, m - 1, g, item, ds);
      NotesAreOverCharge(ss[m - 1], g, item, ds, |ds|);
    }
  }

  // ---- the checked candidate, as values --------------------------------------------------

  /** The candidates at the given positions. */
  function Select(ps: seq<nat>, ds: seq<Candidate>): (r: seq<Candidate>)
    requires InRange(ps, |ds|)
    ensures |r| == |ps|
    ensures forall i :: 0 <= i < |ps| ==> r[i] == ds[ps[i]]
  {
    if ps == [] then [] else [ds[ps[0]]] + Select(ps[1..], ds)
  }

  /** The first position in the list whose candidate has a positive premium. */
  function FirstPremium(ps: seq<nat>, ds: seq<Candidate>): (r: Option<nat>)
    requires InRange(ps, |ds|)
    ensures r.Some? ==> exists i :: 0 <= i < |ps| && ps[i] == r.value && ds[ps[i]].premium > 0 &&
                                    forall h :: 0 <= h < i ==> ds[ps[h]].premium <= 0
    ensures r.None? ==> forall i :: 0 <= i < |ps| ==> ds[ps[i]].premium <= 0
  {
    if ps == [] then None
    else if ds[ps[0]].premium > 0 then Some(ps[0])
    else
      var r := FirstPremium(ps[1..], ds);
      if r.Some? then
        var i :| 0 <= i < |ps[1..]| && ps[1..][i] == r.value && ds[ps[1..][i]].premium > 0 &&
                 forall h :: 0 <= h < i ==> ds[ps[1..][h]].premium <= 0;
        assert ps[i + 1] == r.value;
        r
      else r
  }

  /**
   * The container setDealAsChecked marks, given the list of the line's solution and the
   * previously checked one: when every candidate is paid, the first with a positive premium;
   * failing that, and if nothing was checked before, the first candidate; nothing for an empty
   * list.
   */
  function Touched(ps: seq<nat>, ds: seq<Candidate>, prev: Option<nat>): (r: Option<nat>)
    requires InRange(ps, |ds|)
    ensures ps == [] ==> r.None?
    ensures r.Some? ==> r.value in ps
    ensures ps != [] && AllPaid(Select(ps, ds)) && FirstPremium(ps, ds).Some? ==> r == FirstPremium(ps, ds)
    ensures ps != [] && prev.None? ==> r.Some?
    ensures r.Some? && r != Some(ps[0]) ==> AllPaid(Select(ps, ds)) && ds[r.value].premium > 0
  {
    if ps == [] then None
    else if AllPaid(Select(ps, ds)) && FirstPremium(ps, ds).Some? then FirstPremium(ps, ds)
    else if prev.None? then Some(ps[0])
    else None
  }

  /** A list with an unpaid candidate checks its first candidate. */
  lemma UnpaidChecksFirst(ps: seq<nat>, ds: seq<Candidate>, i: nat)
    requires InRange(ps, |ds|)
    requires i < |ps| && ds[ps[i]].amount == 0
    ensures Touched(ps, ds, None) == Some(ps[0])
  {
    assert Select(ps, ds)[i].amount == 0;
  }

  // ---- RelatedDealContainer ------------------------------------------------------------

  /** One candidate of a line and the solutions it fits. */
  class RelatedDealContainer {
    const deal: Candidate
    var solutions: seq<Strategy>
    var checked: bool

    /** (new RelatedDealContainer())->setDeal($deal) */
    constructor (deal: Candidate)
      ensures this.deal == deal && solutions == [] && !checked
    {
      this.deal := deal;
      solutions := [];
      checked := false;
    }

    /** addSolution: appends and keeps earlier entries. */
    method AddSolution(s: Strategy)
      modifies this
      ensures solutions == old(solutions) + [s] && checked == old(checked)
      ensures ActiveSolutions() == old(ActiveSolutions()) + [Key(s)]
    {
      solutions := solutions + [s];
      assert Keys(solutions) == Keys(old(solutions)) + [Key(s)];
    }

    method SetChecked(b: bool)
      modifies this
      ensures checked == b && solutions == old(solutions)
    {
      checked := b;
    }

    /** getActiveSolutionsJson, before encoding: the solution keys in the order they were added. */
    function ActiveSolutions(): (keys: seq<SolutionKind>)
      reads this
      ensures |keys| == |solutions|
    {
      Keys(solutions)
    }

    /** getPrioritySolution: the first key added, or unmatch when none was. */
    function PrioritySolution(): (k: SolutionKind)
      reads this
      ensures ActiveSolutions() == [] ==> k == Unmatch
      ensures ActiveSolutions() != [] ==> k == ActiveSolutions()[0]
      ensures k != Skip
    {
      if solutions == [] then Unmatch else Key(solutions[0])
    }
  }

  /** No container is listed twice. */
  ghost predicate Distinct(cs: seq<RelatedDealContainer>)
  {
    forall i, j :: 0 <= i < j < |cs| ==> cs[i] != cs[j]
  }

  // ---- RelatedDealsManager -------------------------------------------------------------

  class RelatedDealsManager {
    var entries: seq<Entry>
    const strategies: seq<Strategy>
    var containers: seq<RelatedDealContainer>
    var bySolution: map<SolutionKind, seq<nat>>   // positions in `containers`
    var checked: Option<nat>                      // position in `containers`

    /** The positions stored under every key point at containers. */
    predicate Valid()
      reads this
    {
      (forall k | k in bySolution :: InRange(bySolution[k], |containers|))
      && (checked.Some? ==> checked.value < |containers|)
    }

    /** setRelatedManagerToDeal: a fresh manager over the line's candidates, keyed 0, 1, 2, ... */
    constructor (deals: seq<Candidate>, strategies: seq<Strategy>)
      ensures Deals() == deals && UniqueKeys(entries)
      ensures this.strategies == strategies
      ensures containers == [] && bySolution == map[] && checked.None? && Valid()
    {
      entries := Numbered(deals);
      this.strategies := strategies;
      containers := [];
      bySolution := map[];
      checked := None;
    }

    /** getDeals */
    function Deals(): (ds: seq<Candidate>)
      reads this
      ensures |ds| == |entries|
    {
      Values(entries)
    }

    /** existsDealsWithSolution: some candidate was classified under `k`. */
    predicate ExistsDealsWithSolution(k: SolutionKind)
      reads this
    {
      k in bySolution && bySolution[k] != []
    }

    /** What the solution tests read of the manager. */
    function View(): (rel: Related)
      reads this
      ensures rel.deals == Deals()
      ensures forall k :: k in rel.found <==> ExistsDealsWithSolution(k)
    {
      Related(Deals(), set k | k in bySolution && bySolution[k] != [])
    }

    /** addDeals: array_merge appends the new candidates and renumbers every key. */
    method AddDeals(deals: seq<Candidate>)
      modifies this
      ensures Deals() == old(Deals()) + deals && UniqueKeys(entries)
      ensures containers == old(containers) && bySolution == old(bySolution) && checked == old(checked)
    {
      entries := Numbered(Values(entries) + deals);
    }

    /** unsetDeal: removes the entry under `key` and no other; the other keys stay as they were. */
    method UnsetDeal(key: nat)
      modifies this
      ensures entries == Without(old(entries), key)
      ensures forall e :: e in entries <==> e in old(entries) && e.key != key
      ensures containers == old(containers) && bySolution == old(bySolution) && checked == old(checked)
    {
      entries := Without(entries, key);
    }

    /** createDealContainers: one fresh container per candidate, in order. */
    method CreateContainers() returns (cs: seq<RelatedDealContainer>)
      ensures |cs| == |Deals()| && Distinct(cs)
      ensures forall i :: 0 <= i < |cs| ==> fresh(cs[i]) && cs[i].deal == Deals()[i] && cs[i].solutions == [] && !cs[i].checked
    {
      var ds := Values(entries);
      cs := [];
      var i := 0;
      while i < |ds|
        invariant 0 <= i <= |ds| && |cs| == i && Distinct(cs)
        invariant forall h :: 0 <= h < i ==> fresh(cs[h]) && cs[h].deal == ds[h] && cs[h].solutions == [] && !cs[h].checked
      {
        var c := new RelatedDealContainer(ds[i]);
        cs := cs + [c];
        i := i + 1;
      }
    }

    /**
     * findPossibleSolutionsForRelatedDeals: tries every strategy on every candidate. Each
     * container ends with the strategies that fit its candidate, in strategy order; each
     * strategy's key lists the positions of the candidates it fits; the line gets the
     * over-charge-back explanations of the rejections, strategy by strategy.
     */
    method FindPossibleSolutions(test: Test, item: LineItem) returns (r: LineItem)
      modifies this
      ensures entries == old(entries) && checked == old(checked)
      ensures |containers| == |Deals()| && Distinct(containers)
      ensures forall i :: 0 <= i < |containers| ==> fresh(containers[i])
      ensures Classified(strategies, |strategies|, test, containers, Deals())
      ensures bySolution == Classify(strategies, |strategies|, test, Deals(), old(bySolution))
      ensures r == WithNotes(item, AllNotes(strategies, |strategies|, test, Deals()))
      ensures old(bySolution) == map[] && old(checked).None? ==> Valid()
    {
      var cs := CreateContainers();
      containers := cs;
      var ds := Values(entries);
      bySolution, r := TryAll(strategies, test, cs, ds, bySolution, item);
    }

    /**
     * setDealAsChecked: marks one candidate of the line's solution (see `Touched`). A line whose
     * solution was never classified makes the source fail on an undefined index.
     */
    method SetDealAsChecked(item: LineItem)
      requires Valid() && Distinct(containers)
      requires item.state.solution.Some? && item.state.solution.value in bySolution
      modifies this, containers
      ensures containers == old(containers)
      ensures var ps := old(bySolution)[item.state.solution.value];
              var t := Touched(ps, DealsOf(old(containers)), old(checked));
              checked == (if t.Some? then t else old(checked)) &&
              forall i :: 0 <= i < |containers| ==> containers[i].checked == (old(containers[i].checked) || t == Some(i))
      ensures entries == old(entries) && bySolution == old(bySolution) && Valid()
      ensures forall i :: 0 <= i < |containers| ==> containers[i].solutions == old(containers[i].solutions)
    {
      var ps := bySolution[item.state.solution.value];
      var t: Option<nat> := None;
      if |ps| > 0 {
        if AllPaid(Select(ps, DealsOf(containers))) {
          t := ScanPremium(ps, containers);
        }
        if t.None? && checked.None? {
          t := Some(ps[0]);
        }
      }
      if t.Some? {
        containers[t.value].SetChecked(true);
        checked := t;
      }
    }
  }

  /** The premium scan of setDealAsChecked: the first listed candidate with a positive premium. */
  method ScanPremium(ps: seq<nat>, cs: seq<RelatedDealContainer>) returns (r: Option<nat>)
    requires InRange(ps, |cs|)
    ensures r == FirstPremium(ps, DealsOf(cs))
  {
    var i := 0;
    while i < |ps|
      invariant i <= |ps| && forall h :: 0 <= h < i ==> cs[ps[h]].deal.premium <= 0
    {
      if cs[ps[i]].deal.premium > 0 {
        FirstPremiumAt(ps, DealsOf(cs), i);
        return Some(ps[i]);
      }
      i := i + 1;
    }
    return None;
  }

  /** The line with `notes` appended to its explanations. */
  function WithNotes(item: LineItem, notes: seq<string>): (r: LineItem)
    ensures r.line == item.line && r.data == item.data && r.state == item.state
    ensures r.choice == item.choice && r.flags == item.flags
    ensures r.log.explanations == item.log.explanations + notes
  {
    item.(log := item.log.(explanations := item.log.explanations + notes))
  }

  /** Every container holds its candidate, is unchecked, and has the fits of the first `j` strategies. */
  ghost predicate Classified(ss: seq<Strategy>, j: nat, test: Test, cs: seq<RelatedDealContainer>, ds: seq<Candidate>)
    requires j <= |ss| && |cs| == |ds|
    reads set i | 0 <= i < |cs| :: cs[i]
  {
    forall i :: 0 <= i < |cs| ==>
      cs[i].deal == ds[i] && !cs[i].checked && cs[i].solutions == FitsOf(ss, j, test, ds[i])
  }

  /** Midway through strategy `ss[j]`: the containers before `p` have been tried, the rest not yet. */
  ghost predicate Midway(ss: seq<Strategy>, j: nat, test: Test, cs: seq<RelatedDealContainer>,
                         ds: seq<Candidate>, p: nat)
    requires j < |ss| && |cs| == |ds| && p <= |cs|
    reads set i | 0 <= i < |cs| :: cs[i]
  {
    (forall i :: 0 <= i < |cs| ==> cs[i].deal == ds[i] && !cs[i].checked)
    && (forall i :: 0 <= i < p ==> cs[i].solutions == FitsOf(ss, j + 1, test, ds[i]))
    && (forall i :: p <= i < |cs| ==> cs[i].solutions == FitsOf(ss, j, test, ds[i]))
  }

  /**
   * One test of strategy `ss[j]` on container `cs[p]`: a fit is recorded on it and its position
   * on the strategy's list, a note on the line.
   */
  method TryOne(ss: seq<Strategy>, j: nat, test: Test, cs: seq<RelatedDealContainer>, ds: seq<Candidate>,
                p: nat, list0: seq<nat>, ghost base: LineItem, r0: LineItem) returns (list: seq<nat>, r: LineItem)
    requires j < |ss| && |cs| == |ds| && p < |cs| && Distinct(cs)
    requires Midway(ss, j, test, cs, ds, p)
    requires list0 == Tagged(ss[j], test, ds, p) && r0 == WithNotes(base, Notes(ss[j], test, ds, p))
    modifies cs[p]
    ensures Midway(ss, j, test, cs, ds, p + 1)
    ensures list == Tagged(ss[j], test, ds, p + 1) && r == WithNotes(base, Notes(ss[j], test, ds, p + 1))
  {
    var s, c := ss[j], cs[p];
    var fit := test(s, c.deal);
    list, r := list0, r0;
    if fit.note.Some? {
      r := AddExplanation(r, fit.note.value);
    }
    assert r.log.explanations == base.log.explanations + Notes(s, test, ds, p + 1);
    if fit.fits {
      c.AddSolution(s);
      list := list + [p];
    }
  }

  /**
   * One pass of findPossibleSolutionsForRelatedDeals: strategy `ss[j]` is tried on every
   * container; those it fits get it appended, and its over-charge-back rejections are logged.
   */
  method TryStrategy(ss: seq<Strategy>, j: nat, test: Test, cs: seq<RelatedDealContainer>,
                     ds: seq<Candidate>, r0: LineItem) returns (list: seq<nat>, r: LineItem)
    requires j < |ss| && |cs| == |ds| && Distinct(cs) && Classified(ss, j, test, cs, ds)
    modifies cs
    ensures Classified(ss, j + 1, test, cs, ds)
    ensures list == Tagged(ss[j], test, ds, |ds|) && r == WithNotes(r0, Notes(ss[j], test, ds, |ds|))
  {
    list := [];
    r := r0;
    assert r0 == WithNotes(r0, []);
    var p: nat := 0;
    while p < |cs|
      invariant p <= |cs| && Midway(ss, j, test, cs, ds, p)
      invariant list == Tagged(ss[j], test, ds, p) && r == WithNotes(r0, Notes(ss[j], test, ds, p))
    {
      list, r := TryOne(ss, j, test, cs, ds, p, list, r0, r);
      p := p + 1;
    }
  }

  /**
   * The loop of findPossibleSolutionsForRelatedDeals: every strategy in turn is tried on every
   * container and stored under its key.
   */
  method TryAll(ss: seq<Strategy>, test: Test, cs: seq<RelatedDealContainer>, ds: seq<Candidate>,
                base: map<SolutionKind, seq<nat>>, item: LineItem) returns (m: map<SolutionKind, seq<nat>>, r: LineItem)
    requires |cs| == |ds| && Distinct(cs) && Classified(ss, 0, test, cs, ds)
    modifies cs
    ensures Classified(ss, |ss|, test, cs, ds)
    ensures m == Classify(ss, |ss|, test, ds, base)
    ensures r == WithNotes(item, AllNotes(ss, |ss|, test, ds))
  {
    m, r := base, item;
    assert r == WithNotes(item, []);
    var j: nat := 0;
    while j < |ss|
      invariant j <= |ss| && Classified(ss, j, test, cs, ds)
      invariant m == Classify(ss, j, test, ds, base) && r == WithNotes(item, AllNotes(ss, j, test, ds))
    {
      m, r := TryNext(ss, j, test, cs, ds, base, item, m, r);
      j := j + 1;
    }
  }

  /** One turn of `TryAll`: strategy `ss[j]` is tried and its list stored under its key. */
  method TryNext(ss: seq<Strategy>, j: nat, test: Test, cs: seq<RelatedDealContainer>, ds: seq<Candidate>,
                 ghost base: map<SolutionKind, seq<nat>>, ghost item: LineItem,
                 m0: map<SolutionKind, seq<nat>>, r0: LineItem) returns (m: map<SolutionKind, seq<nat>>, r: LineItem)
    requires j < |ss| && |cs| == |ds| && Distinct(cs) && Classified(ss, j, test, cs, ds)
    requires m0 == Classify(ss, j, test, ds, base) && r0 == WithNotes(item, AllNotes(ss, j, test, ds))
    modifies cs
    ensures Classified(ss, j + 1, test, cs, ds)
    ensures m == Classify(ss, j + 1, test, ds, base) && r == WithNotes(item, AllNotes(ss, j + 1, test, ds))
  {
    var list;
    list, r := TryStrategy(ss, j, test, cs, ds, r0);
    NextStep(ss, j, test, ds, base);
    m := m0[Key(ss[j]) := list];
  }

  /** What one more strategy adds to the classification and to the notes. */
  lemma NextStep(ss: seq<Strategy>, j: nat, test: Test, ds: seq<Candidate>, base: map<SolutionKind, seq<nat>>)
    requires j < |ss|
    ensures Classify(ss, j + 1, test, ds, base) == Classify(ss, j, test, ds, base)[Key(ss[j]) := Tagged(ss[j], test, ds, |ds|)]
    ensures AllNotes(ss, j + 1, test, ds) == AllNotes(ss, j, test, ds) + Notes(ss[j], test, ds, |ds|)
  {
  }

  /** The candidates of a list of containers, in order. */
  function DealsOf(cs: seq<RelatedDealContainer>): (ds: seq<Candidate>)
    ensures |ds| == |cs|
    ensures forall i :: 0 <= i < |cs| ==> ds[i] == cs[i].deal
  {
    seq(|cs|, i requires 0 <= i < |cs| => cs[i].deal)
  }

  /** The first position with a positive premium is the one the scan stops at. */
  lemma FirstPremiumAt(ps: seq<nat>, ds: seq<Candidate>, i: nat)
    requires InRange(ps, |ds|)
    requires i < |ps| && ds[ps[i]].premium > 0 && forall h :: 0 <= h < i ==> ds[ps[h]].premium <= 0
    ensures FirstPremium(ps, ds) == Some(ps[i])
  {
  }
}
