// SplitParser: the statement lists each share of a split policy as a row of its own. Rows of
// the same policy and client are gathered; a gathered group whose rows carry more than one
// contract code is marked shared between the first and the last advisor of the group.

module SplitParsing {
  import opened Wrappers
  import opened Text
  import opened Domain
  import opened SimpleNames
  import opened DocumentParsers

  // ---------------------------------------------------------------------------------------
  // Gathering the rows of a split

  /** The key under which the rows of one split are gathered: policy number and client name run together. */
  function SplitKey(item: LineItem): string
  {
    item.line.policyNumber + item.line.clientName
  }

  /** A renewal row, or a row holding the whole commission, is never gathered with others. */
  predicate StandsAlone(item: LineItem)
  {
    item.line.kind == Renewal || item.line.sharePercent == 100
  }

  /**
   * An entry of the grouping dictionary `$deals`, in insertion order: the rows under a split
   * key, or a single row under a fresh numeric key (`$deals[][] = $deal`), which has no key here.
   */
  datatype Bucket = Bucket(key: Option<string>, rows: seq<LineItem>)

  /** The position of the entry under split key `k`, or |bs| when there is none. */
  function KeyPosition(bs: seq<Bucket>, k: string): (p: nat)
    ensures p <= |bs| && (p < |bs| ==> bs[p].key == Some(k))
    ensures forall j :: 0 <= j < p ==> bs[j].key != Some(k)
  {
    if bs == [] then 0 else if bs[0].key == Some(k) then 0 else 1 + KeyPosition(bs[1..], k)
  }

  /** One accepted row enters the dictionary. */
  function AddToBuckets(bs: seq<Bucket>, x: LineItem): seq<Bucket>
  {
    if StandsAlone(x) then bs + [Bucket(None, [x])]
    else
      var p := KeyPosition(bs, SplitKey(x));
      if p < |bs| then bs[p := Bucket(bs[p].key, bs[p].rows + [x])]
      else bs + [Bucket(Some(SplitKey(x)), [x])]
  }

  /** The dictionary after the rows, where `accepted` is checkDeal (every matched column present). */
  function Buckets(rows: seq<LineItem>, accepted: LineItem -> bool): seq<Bucket>
  {
    if rows == [] then []
    else
      var init := Buckets(rows[..|rows| - 1], accepted);
      if accepted(rows[|rows| - 1]) then AddToBuckets(init, rows[|rows| - 1]) else init
  }

  /** The rows of the entries, entry after entry. */
  function Flatten(bs: seq<Bucket>): seq<LineItem>
  {
    if bs == [] then [] else Flatten(bs[..|bs| - 1]) + bs[|bs| - 1].rows
  }

  /** Every entry holds at least one row. */
  ghost predicate NonEmpty(bs: seq<Bucket>)
  {
    forall i :: 0 <= i < |bs| ==> |bs[i].rows| > 0
  }

  /** An entry without a split key holds one row, and that row stands alone. */
  ghost predicate AloneUnkeyed(bs: seq<Bucket>)
  {
    forall i :: 0 <= i < |bs| && bs[i].key.None? ==> |bs[i].rows| == 1 && StandsAlone(bs[i].rows[0])
  }

  /** The rows under a split key have that key and do not stand alone. */
  ghost predicate KeyedRows(bs: seq<Bucket>)
  {
    forall i, r :: 0 <= i < |bs| && bs[i].key.Some? && r in bs[i].rows ==>
      !StandsAlone(r) && SplitKey(r) == bs[i].key.value
  }

  /** No split key is used twice. */
  ghost predicate DistinctKeys(bs: seq<Bucket>)
  {
    forall i, j :: 0 <= i < j < |bs| && bs[i].key.Some? ==> bs[i].key != bs[j].key
  }

  lemma AddNonEmpty(bs: seq<Bucket>, x: LineItem)
    requires NonEmpty(bs)
    ensures NonEmpty(AddToBuckets(bs, x))
  {
  }

  lemma AddAloneUnkeyed(bs: seq<Bucket>, x: LineItem)
    requires AloneUnkeyed(bs)
    ensures AloneUnkeyed(AddToBuckets(bs, x))
  {
  }

  lemma AddKeyedRows(bs: seq<Bucket>, x: LineItem)
    requires KeyedRows(bs)
    ensures KeyedRows(AddToBuckets(bs, x))
  {
    var r := AddToBuckets(bs, x);
    if !StandsAlone(x) {
      var p := KeyPosition(bs, SplitKey(x));
      if p < |bs| {
        forall i, y | 0 <= i < |r| && r[i].key.Some? && y in r[i].rows
          ensures !StandsAlone(y) && SplitKey(y) == r[i].key.value
        {
          if i == p && y !in bs[p].rows {
            assert y == x;
          }
        }
      }
    }
  }

  lemma AddDistinctKeys(bs: seq<Bucket>, x: LineItem)
    requires DistinctKeys(bs)
    ensures DistinctKeys(AddToBuckets(bs, x))
  {
    var r := AddToBuckets(bs, x);
    if !StandsAlone(x) && KeyPosition(bs, SplitKey(x)) == |bs| {
      forall i, j | 0 <= i < j < |r| && r[i].key.Some?
        ensures r[i].key != r[j].key
      {
        if j == |bs| {
          assert r[i] == bs[i];
        }
      }
    }
  }

  /**
   * The shape of the dictionary: no entry is empty; a row that stands alone has an entry of its
   * own; the rows under a split key all have that key and none of them stands alone; and no key
   * is used twice, so all the rows of a split end up in the same entry.
   */
  lemma {:induction false} BucketsShape(rows: seq<LineItem>, accepted: LineItem -> bool)
    ensures var bs := Buckets(rows, accepted);
            NonEmpty(bs) && AloneUnkeyed(bs) && KeyedRows(bs) && DistinctKeys(bs)
  {
    if rows != [] {
      var init := rows[..|rows| - 1];
      var x := rows[|rows| - 1];
      BucketsShape(init, accepted);
      if accepted(x) {
        var bs := Buckets(init, accepted);
        AddNonEmpty(bs, x);
        AddAloneUnkeyed(bs, x);
        AddKeyedRows(bs, x);
        AddDistinctKeys(bs, x);
      }
    }
  }

  lemma {:induction false} FlattenAppend(a: seq<Bucket>, b: seq<Bucket>)
    ensures Flatten(a + b) == Flatten(a) + Flatten(b)
    decreases |b|
  {
    if b != [] {
      var b' := b[..|b| - 1];
      assert (a + b)[..|a + b| - 1] == a + b';
      assert (a + b)[|a + b| - 1] == b[|b| - 1];
      FlattenAppend(a, b');
      assert Flatten(a + b) == Flatten(a + b') + b[|b| - 1].rows;
      assert Flatten(b) == Flatten(b') + b[|b| - 1].rows;
    } else {
      assert a + b == a;
    }
  }

  /** Appending a row to entry `p` adds that row to the rows of the dictionary. */
  lemma FlattenJoin(bs: seq<Bucket>, p: nat, x: LineItem)
    requires p < |bs|
    ensures multiset(Flatten(bs[p := Bucket(bs[p].key, bs[p].rows + [x])])) == multiset(Flatten(bs)) + multiset{x}
  {
    var b' := Bucket(bs[p].key, bs[p].rows + [x]);
    var front := bs[..p];
    var back := bs[p + 1..];
    assert bs == front + [bs[p]] + back;
    assert bs[p := b'] == front + [b'] + back;
    FlattenAppend(front + [bs[p]], back);
    FlattenAppend(front, [bs[p]]);
    FlattenAppend(front + [b'], back);
    FlattenAppend(front, [b']);
    assert Flatten([b']) == b'.rows;
    assert Flatten([bs[p]]) == bs[p].rows;
  }

  lemma AddCounts(bs: seq<Bucket>, x: LineItem)
    ensures multiset(Flatten(AddToBuckets(bs, x))) == multiset(Flatten(bs)) + multiset{x}
  {
    if !StandsAlone(x) && KeyPosition(bs, SplitKey(x)) < |bs| {
      FlattenJoin(bs, KeyPosition(bs, SplitKey(x)), x);
    } else {
      var b := if StandsAlone(x) then Bucket(None, [x]) else Bucket(Some(SplitKey(x)), [x]);
      assert (bs + [b])[..|bs|] == bs;
    }
  }

  /** Every accepted row is in the dictionary exactly once, and nothing else is. */
  lemma {:induction false} BucketsPermute(rows: seq<LineItem>, accepted: LineItem -> bool)
    ensures multiset(Flatten(Buckets(rows, accepted))) == multiset(Kept(rows, accepted))
  {
    if rows != [] {
      var init := rows[..|rows| - 1];
      var x := rows[|rows| - 1];
      BucketsPermute(init, accepted);
      if accepted(x) {
        AddCounts(Buckets(init, accepted), x);
      }
    }
  }

  /** The dictionary's index: the position of the entry under each split key seen so far. */
  ghost predicate Indexed(bs: seq<Bucket>, index: map<string, nat>)
  {
    forall k :: (k in index <==> KeyPosition(bs, k) < |bs|) && (k in index ==> index[k] == KeyPosition(bs, k))
  }

  lemma KeyPositionAppend(bs: seq<Bucket>, b: Bucket, k: string)
    ensures KeyPosition(bs, k) < |bs| ==> KeyPosition(bs + [b], k) == KeyPosition(bs, k)
    ensures KeyPosition(bs, k) == |bs| ==> KeyPosition(bs + [b], k) == if b.key == Some(k) then |bs| else |bs| + 1
  {
    var p := KeyPosition(bs, k);
    if p < |bs| {
      assert (bs + [b])[p] == bs[p];
    } else if b.key == Some(k) {
      assert (bs + [b])[|bs|] == b;
    }
  }

  lemma KeyPositionJoin(bs: seq<Bucket>, p: nat, x: LineItem, k: string)
    requires p < |bs|
    ensures KeyPosition(bs[p := Bucket(bs[p].key, bs[p].rows + [x])], k) == KeyPosition(bs, k)
  {
    var bs' := bs[p := Bucket(bs[p].key, bs[p].rows + [x])];
    assert forall j :: 0 <= j < |bs| ==> bs'[j].key == bs[j].key;
  }

  /**
   * One iteration of the gathering loop over an accepted row: a row that stands alone gets a
   * fresh entry; another row joins the entry of its split key, found through the index, or
   * opens one at the end.
   */
  method AddRow(bs: seq<Bucket>, index: map<string, nat>, x: LineItem)
    returns (bs': seq<Bucket>, index': map<string, nat>)
    requires Indexed(bs, index)
    ensures bs' == AddToBuckets(bs, x) && Indexed(bs', index')
  {
    if StandsAlone(x) {
      bs', index' := bs + [Bucket(None, [x])], index;
      forall k
        ensures KeyPosition(bs', k) < |bs'| <==> KeyPosition(bs, k) < |bs|
        ensures KeyPosition(bs, k) < |bs| ==> KeyPosition(bs', k) == KeyPosition(bs, k)
      {
        KeyPositionAppend(bs, Bucket(None, [x]), k);
      }
    } else {
      var key := SplitKey(x);
      if key in index {
        var p := index[key];
        bs', index' := bs[p := Bucket(bs[p].key, bs[p].rows + [x])], index;
        forall k
          ensures KeyPosition(bs', k) == KeyPosition(bs, k)
        {
          KeyPositionJoin(bs, p, x, k);
        }
      } else {
        bs', index' := bs + [Bucket(Some(key), [x])], index[key := |bs|];
        forall k
          ensures KeyPosition(bs', k) < |bs'| <==> KeyPosition(bs, k) < |bs| || k == key
          ensures KeyPosition(bs, k) < |bs| ==> KeyPosition(bs', k) == KeyPosition(bs, k)
          ensures k == key ==> KeyPosition(bs', k) == |bs|
        {
          KeyPositionAppend(bs, Bucket(Some(key), [x]), k);
        }
      }
    }
  }

  lemma PrefixStep(rows: seq<LineItem>, i: nat)
    requires i < |rows|
    ensures rows[..i + 1][..i] == rows[..i] && rows[..i + 1][i] == rows[i]
  {
  }

  /** The first loop of parseAndCreateDealsContainers: the accepted rows gathered into the dictionary. */
  method GatherRows(rows: seq<LineItem>, accepted: LineItem -> bool) returns (bs: seq<Bucket>)
    ensures bs == Buckets(rows, accepted)
  {
    bs := [];
    var index: map<string, nat> := map[];
    var i := 0;
    while i < |rows|
      invariant i <= |rows| && bs == Buckets(rows[..i], accepted) && Indexed(bs, index)
    {
      PrefixStep(rows, i);
      if accepted(rows[i]) {
        bs, index := AddRow(bs, index, rows[i]);
      }
      i := i + 1;
    }
    assert rows[..i] == rows;
  }

  // ---------------------------------------------------------------------------------------
  // Marking a split

  /** The contract codes of the rows, row by row. */
  function CodesOf(group: seq<LineItem>): (cs: seq<string>)
    ensures |cs| == |group| && forall i :: 0 <= i < |group| ==> cs[i] == group[i].line.contractCode
  {
    seq(|group|, i requires 0 <= i < |group| => group[i].line.contractCode)
  }

  /** The distinct contract codes of the rows, in the order they are first seen. */
  function DistinctCodes(group: seq<LineItem>): (codes: seq<string>)
    ensures forall c :: c in codes <==> c in CodesOf(group)
    ensures forall p, q :: 0 <= p < q < |codes| ==> codes[p] != codes[q]
  {
    if group == [] then []
    else
      var init := group[..|group| - 1];
      var c := group[|group| - 1].line.contractCode;
      assert CodesOf(group) == CodesOf(init) + [c];
      if c in DistinctCodes(init) then DistinctCodes(init) else DistinctCodes(init) + [c]
  }

  /** The advisor name of the last row with contract code `code`, or null when there is none. */
  function LastNameFor(group: seq<LineItem>, code: string): string
  {
    if group == [] then ""
    else if group[|group| - 1].line.contractCode == code then group[|group| - 1].line.advisorName
    else LastNameFor(group[..|group| - 1], code)
  }

  /**
   * `HArray::map($group, 'contract_code', 'advisor_name')`: one entry per distinct contract code,
   * in the order the codes are first seen, holding the advisor name of the last row with it.
   */
  function UniqueAdvisors(group: seq<LineItem>): seq<(string, string)>
  {
    var codes := DistinctCodes(group);
    seq(|codes|, p requires 0 <= p < |codes| => (codes[p], LastNameFor(group, codes[p])))
  }

  /** array_keys of the map. */
  function CodesOfMap(ua: seq<(string, string)>): seq<string>
  {
    seq(|ua|, p requires 0 <= p < |ua| => ua[p].0)
  }

  /** `$name ? getParseSimpleName($name) : null`, null being the empty name. */
  function SimpleOrNull(name: string): (r: string)
    ensures Truthy(name) ==> Some(r) == ParseSimpleName(name)
    ensures !Truthy(name) ==> r == ""
  {
    match ParseSimpleName(name)
    case Some(n) => n
    case None => ""
  }

  /**
   * parseSplitAdvisorName: with more than one contract code in the group, the row's advisor is
   * the simple name of the first code's advisor, its share advisor that of the last code's,
   * and the row is marked shared. Nothing else changes.
   */
  function WithSplitNames(item: LineItem, ua: seq<(string, string)>): (r: LineItem)
    ensures r == item.(line := r.line)
    ensures r.line == item.line.(advisorName := r.line.advisorName, shareAdvisorName := r.line.shareAdvisorName,
                                 isSharedFlag := r.line.isSharedFlag)
    ensures |ua| <= 1 ==> r == item
  {
    if |ua| > 1 then
      item.(line := item.line.(advisorName := SimpleOrNull(ua[0].1),
                               shareAdvisorName := SimpleOrNull(ua[|ua| - 1].1),
                               isSharedFlag := true))
    else item
  }

  /**
   * parseSplitContractCode: with more than one contract code, the first code becomes the
   * user's contract code and the last the shared user's; each user is set only when an agent
   * holds that code. Nothing else changes.
   */
  function WithSplitCodes(item: LineItem, codes: seq<string>, agentFor: string -> Option<Advisor>): (r: LineItem)
    ensures r == item.(data := r.data)
    ensures r.data == item.data.(userContractCode := r.data.userContractCode, user := r.data.user,
                                 sharedUserContractCode := r.data.sharedUserContractCode,
                                 sharedUser := r.data.sharedUser)
    ensures |codes| <= 1 ==> r == item
  {
    if |codes| > 1 then
      var first := codes[0];
      var last := codes[|codes| - 1];
      item.(data := item.data.(
        userContractCode := first,
        user := if agentFor(first).Some? then agentFor(first) else item.data.user,
        sharedUserContractCode := last,
        sharedUser := if agentFor(last).Some? then agentFor(last) else item.data.sharedUser))
    else item
  }

  /** Both rewrites, as the second loop applies them to one row of a group. */
  function SplitRow(item: LineItem, ua: seq<(string, string)>, agentFor: string -> Option<Advisor>): LineItem
  {
    WithSplitCodes(WithSplitNames(item, ua), CodesOfMap(ua), agentFor)
  }

  /** A group after the second loop: rewritten row by row when it has more than one row. */
  function SplitGroup(group: seq<LineItem>, agentFor: string -> Option<Advisor>): (out: seq<LineItem>)
    ensures |out| == |group|
  {
    if |group| > 1 then
      var ua := UniqueAdvisors(group);
      seq(|group|, i requires 0 <= i < |group| => SplitRow(group[i], ua, agentFor))
    else group
  }

  /** What the second loop appends: the groups one after the other, each rewritten. */
  function SplitAll(bs: seq<Bucket>, agentFor: string -> Option<Advisor>): seq<LineItem>
  {
    if bs == [] then [] else SplitAll(bs[..|bs| - 1], agentFor) + SplitGroup(bs[|bs| - 1].rows, agentFor)
  }

  /** Two rows of the group carry different contract codes. */
  predicate HasTwoCodes(group: seq<LineItem>)
  {
    exists i, j :: 0 <= i < |group| && 0 <= j < |group| && group[i].line.contractCode != group[j].line.contractCode
  }

  /** The map has more than one entry exactly when the group has two different contract codes. */
  lemma TwoCodes(group: seq<LineItem>)
    ensures |DistinctCodes(group)| > 1 <==> HasTwoCodes(group)
  {
    var codes := DistinctCodes(group);
    if |codes| > 1 {
      assert codes[0] in CodesOf(group) && codes[1] in CodesOf(group);
      var i :| 0 <= i < |group| && CodesOf(group)[i] == codes[0];
      var j :| 0 <= j < |group| && CodesOf(group)[j] == codes[1];
    }
    if HasTwoCodes(group) {
      var i, j :| 0 <= i < |group| && 0 <= j < |group| && group[i].line.contractCode != group[j].line.contractCode;
      assert CodesOf(group)[i] in codes && CodesOf(group)[j] in codes;
    }
  }

  /** The first distinct code is the first row's. */
  lemma {:induction false} FirstCode(group: seq<LineItem>)
    requires |group| > 0
    ensures |DistinctCodes(group)| > 0 && DistinctCodes(group)[0] == group[0].line.contractCode
  {
    var init := group[..|group| - 1];
    if |init| > 0 {
      FirstCode(init);
      assert init[0] == group[0];
    }
  }

  /** LastNameFor is the advisor name of some row with that code, when there is one. */
  lemma {:induction false} LastNameIsARowName(group: seq<LineItem>, code: string)
    requires code in CodesOf(group)
    ensures exists i :: 0 <= i < |group| && group[i].line.contractCode == code &&
                        group[i].line.advisorName == LastNameFor(group, code) &&
                        forall j :: i < j < |group| ==> group[j].line.contractCode != code
  {
    var n := |group| - 1;
    if group[n].line.contractCode != code {
      var init := group[..n];
      assert CodesOf(group) == CodesOf(init) + [group[n].line.contractCode];
      LastNameIsARowName(init, code);
      var i :| 0 <= i < |init| && init[i].line.contractCode == code &&
               init[i].line.advisorName == LastNameFor(init, code) &&
               forall j :: i < j < |init| ==> init[j].line.contractCode != code;
      assert group[i] == init[i];
    }
  }

  /**
   * A group of more than one row with two different contract codes: every row is marked shared;
   * its advisor is the simple name of the advisor of the first row's code and its user contract
   * code is that code; its share advisor is the simple name of the advisor of another code of
   * the group, which is its shared user contract code; a user is set when an agent holds the code.
   */
  lemma SplitMarksShared(group: seq<LineItem>, agentFor: string -> Option<Advisor>)
    requires |group| > 1 && HasTwoCodes(group)
    ensures var out := SplitGroup(group, agentFor);
            var first := group[0].line.contractCode;
            forall i :: 0 <= i < |out| ==>
              && out[i].line.isSharedFlag
              && out[i].data.userContractCode == first
              && out[i].line.advisorName == SimpleOrNull(LastNameFor(group, first))
              && out[i].data.sharedUserContractCode != first
              && out[i].data.sharedUserContractCode in CodesOf(group)
              && out[i].line.shareAdvisorName == SimpleOrNull(LastNameFor(group, out[i].data.sharedUserContractCode))
              && (agentFor(first).Some? ==> out[i].data.user == agentFor(first))
              && (agentFor(out[i].data.sharedUserContractCode).Some? ==>
                    out[i].data.sharedUser == agentFor(out[i].data.sharedUserContractCode))
  {
    var ua := UniqueAdvisors(group);
    MapEnds(group);
    var out := SplitGroup(group, agentFor);
    forall i | 0 <= i < |out|
      ensures out[i] == SplitRow(group[i], ua, agentFor)
    {
    }
    forall i | 0 <= i < |out|
      ensures SplitRowMarks(out[i], ua, agentFor)
    {
      SplitRowShared(group[i], ua, agentFor);
    }
  }

  /** The ends of the map of a group with two different codes. */
  lemma MapEnds(group: seq<LineItem>)
    requires |group| > 0 && HasTwoCodes(group)
    ensures var ua := UniqueAdvisors(group);
            var first := group[0].line.contractCode;
            && |ua| > 1 && |CodesOfMap(ua)| == |ua|
            && ua[0] == (first, LastNameFor(group, first)) && CodesOfMap(ua)[0] == first
            && ua[|ua| - 1].0 != first && ua[|ua| - 1].0 in CodesOf(group)
            && ua[|ua| - 1].1 == LastNameFor(group, ua[|ua| - 1].0)
            && CodesOfMap(ua)[|ua| - 1] == ua[|ua| - 1].0
  {
    TwoCodes(group);
    FirstCode(group);
    var codes := DistinctCodes(group);
    assert codes[|codes| - 1] in codes;
  }

  /** What the rewrite of one row promises, in terms of the ends of the map. */
  ghost predicate SplitRowMarks(r: LineItem, ua: seq<(string, string)>, agentFor: string -> Option<Advisor>)
    requires |ua| > 1
  {
    var first := ua[0].0;
    var last := ua[|ua| - 1].0;
    && r.line.isSharedFlag
    && r.data.userContractCode == first
    && r.line.advisorName == SimpleOrNull(ua[0].1)
    && r.data.sharedUserContractCode == last
    && r.line.shareAdvisorName == SimpleOrNull(ua[|ua| - 1].1)
    && (agentFor(first).Some? ==> r.data.user == agentFor(first))
    && (agentFor(last).Some? ==> r.data.sharedUser == agentFor(last))
  }

  lemma SplitRowShared(item: LineItem, ua: seq<(string, string)>, agentFor: string -> Option<Advisor>)
    requires |ua| > 1
    ensures SplitRowMarks(SplitRow(item, ua, agentFor), ua, agentFor)
  {
    var codes := CodesOfMap(ua);
    assert codes[0] == ua[0].0 && codes[|codes| - 1] == ua[|ua| - 1].0;
  }

  /** A group whose rows all carry one contract code is left as it is. */
  lemma SingleCodeUnchanged(group: seq<LineItem>, agentFor: string -> Option<Advisor>)
    requires !HasTwoCodes(group)
    ensures SplitGroup(group, agentFor) == group
  {
    TwoCodes(group);
    if |group| > 1 {
      var ua := UniqueAdvisors(group);
      assert CodesOfMap(ua) == DistinctCodes(group);
      var out := SplitGroup(group, agentFor);
      assert forall i :: 0 <= i < |group| ==> out[i] == group[i];
    }
  }

  /** A row with the fields a split rewrites cleared: what a split leaves of the row. */
  function Unsplit(item: LineItem): LineItem
  {
    item.(line := item.line.(advisorName := "", shareAdvisorName := "", isSharedFlag := false),
          data := item.data.(userContractCode := "", user := None, sharedUserContractCode := "", sharedUser := None))
  }

  function Unsplits(xs: seq<LineItem>): (r: seq<LineItem>)
    ensures |r| == |xs| && forall i :: 0 <= i < |xs| ==> r[i] == Unsplit(xs[i])
  {
    seq(|xs|, i requires 0 <= i < |xs| => Unsplit(xs[i]))
  }

  lemma UnsplitsAppend(a: seq<LineItem>, b: seq<LineItem>)
    ensures Unsplits(a + b) == Unsplits(a) + Unsplits(b)
  {
  }

  lemma SplitGroupKeeps(group: seq<LineItem>, agentFor: string -> Option<Advisor>)
    ensures Unsplits(SplitGroup(group, agentFor)) == Unsplits(group)
  {
  }

  /**
   * The rows appended are the rows of the dictionary, entry after entry, each changed at
   * most in its advisor names, shared flag, contract codes and users.
   */
  lemma {:induction false} SplitAllKeeps(bs: seq<Bucket>, agentFor: string -> Option<Advisor>)
    ensures Unsplits(SplitAll(bs, agentFor)) == Unsplits(Flatten(bs))
  {
    if bs != [] {
      var init := bs[..|bs| - 1];
      var b := bs[|bs| - 1];
      SplitAllKeeps(init, agentFor);
      UnsplitsAppend(SplitAll(init, agentFor), SplitGroup(b.rows, agentFor));
      UnsplitsAppend(Flatten(init), b.rows);
      SplitGroupKeeps(b.rows, agentFor);
    }
  }

  /**
   * Every accepted row comes out exactly once: the rows appended are as many as the accepted
   * rows, and with the split fields cleared they are the rows of the dictionary, which are the
   * accepted rows regrouped.
   */
  lemma SplitOutput(rows: seq<LineItem>, accepted: LineItem -> bool, agentFor: string -> Option<Advisor>)
    ensures var bs := Buckets(rows, accepted);
            && |SplitAll(bs, agentFor)| == |Kept(rows, accepted)|
            && Unsplits(SplitAll(bs, agentFor)) == Unsplits(Flatten(bs))
            && multiset(Flatten(bs)) == multiset(Kept(rows, accepted))
  {
    var bs := Buckets(rows, accepted);
    SplitAllKeeps(bs, agentFor);
    BucketsPermute(rows, accepted);
    assert |Flatten(bs)| == |multiset(Flatten(bs))|;
    assert |Kept(rows, accepted)| == |multiset(Kept(rows, accepted))|;
  }

  /** The inner loop of the second loop: each row of a group of more than one row rewritten in turn. */
  method SplitRows(group: seq<LineItem>, agentFor: string -> Option<Advisor>) returns (out: seq<LineItem>)
    requires |group| > 1
    ensures out == SplitGroup(group, agentFor)
  {
    var ua := UniqueAdvisors(group);
    ghost var whole := SplitGroup(group, agentFor);
    out := [];
    var j := 0;
    while j < |group|
      invariant j <= |group| && out == whole[..j]
    {
      assert whole[j] == SplitRow(group[j], ua, agentFor);
      assert whole[..j + 1] == whole[..j] + [whole[j]];
      out := out + [SplitRow(group[j], ua, agentFor)];
      j := j + 1;
    }
    assert whole[..j] == whole;
  }

  /** The statement parser for split statements: the deals it has parsed so far. */
  class SplitParser {
    var deals: seq<LineItem>
    /** checkDeal: every matched column of the row is present. */
    const accepted: LineItem -> bool
    /** getAgentByContractCode for the parser's first company. */
    const agentFor: string -> Option<Advisor>

    constructor(accepted: LineItem -> bool, agentFor: string -> Option<Advisor>)
      ensures deals == [] && this.accepted == accepted && this.agentFor == agentFor
    {
      deals := [];
      this.accepted := accepted;
      this.agentFor := agentFor;
    }

    /**
     * parseAndCreateDealsContainers: the accepted rows are gathered into the dictionary, then
     * each entry is appended to the deals, a group of more than one row rewritten as a split.
     */
    method ParseAndCreateDealsContainers(rows: seq<LineItem>)
      modifies this
      ensures deals == old(deals) + SplitAll(Buckets(rows, accepted), agentFor)
    {
      var bs := GatherRows(rows, accepted);
      var appended := AppendGroups(bs, agentFor);
      deals := deals + appended;
    }
  }

  lemma SplitAllStep(bs: seq<Bucket>, b: nat, agentFor: string -> Option<Advisor>)
    requires b < |bs|
    ensures SplitAll(bs[..b + 1], agentFor) == SplitAll(bs[..b], agentFor) + SplitGroup(bs[b].rows, agentFor)
  {
    assert bs[..b + 1][..b] == bs[..b];
  }

  /** The second loop of parseAndCreateDealsContainers: the entries appended in turn, each group of more than one row split. */
  method AppendGroups(bs: seq<Bucket>, agentFor: string -> Option<Advisor>) returns (out: seq<LineItem>)
    ensures out == SplitAll(bs, agentFor)
  {
    out := [];
    var b := 0;
    while b < |bs|
      invariant b <= |bs| && out == SplitAll(bs[..b], agentFor)
    {
      SplitAllStep(bs, b, agentFor);
      var group := bs[b].rows;
      if |group| > 1 {
        var split := SplitRows(group, agentFor);
        out := out + split;
      } else {
        out := out + group;
      }
      b := b + 1;
    }
    assert bs[..b] == bs;
  }

  // ---------------------------------------------------------------------------------------
  // Money columns

  /** strrpos($value, ','): the position of the last comma. */
  function LastComma(value: string): (r: Option<nat>)
    ensures r.Some? ==> r.value < |value| && value[r.value] == ',' &&
                        forall j :: r.value < j < |value| ==> value[j] != ','
    ensures r.None? ==> forall j :: 0 <= j < |value| ==> value[j] != ','
  {
    if value == [] then None
    else if value[|value| - 1] == ',' then Some(|value| - 1)
    else LastComma(value[..|value| - 1])
  }

  predicate HasDigit(value: string)
  {
    exists i :: 0 <= i < |value| && '0' <= value[i] <= '9'
  }

  /**
   * parseMoneyColumn, up to the conversion: the text handed to Money::toFloat, the last comma
   * read as the decimal point, or null when the text has no digit.
   */
  function ParseMoneyColumn(value: string): (r: Option<string>)
  {
    var text := match LastComma(value)
      case Some(p) => value[p := '.']
      case None => value;
    if HasDigit(text) then Some(text) else None
  }

  /**
   * Only the last comma changes: it becomes the decimal point; every other character, the
   * earlier commas among them, is kept; and there is a result exactly when the value has a digit.
   */
  lemma MoneyCommaRule(value: string)
    ensures ParseMoneyColumn(value).None? <==> !HasDigit(value)
    ensures ParseMoneyColumn(value).Some? ==>
              var text := ParseMoneyColumn(value).value;
              |text| == |value| &&
              (forall j :: 0 <= j < |value| && value[j] != ',' ==> text[j] == value[j]) &&
              (forall j :: 0 <= j < |value| && value[j] == ',' ==>
                 (text[j] == '.' <==> forall k :: j < k < |value| ==> value[k] != ','))
  {
    var text := match LastComma(value)
      case Some(p) => value[p := '.']
      case None => value;
    assert forall j :: 0 <= j < |value| ==> ('0' <= text[j] <= '9' <==> '0' <= value[j] <= '9');
    if HasDigit(text) {
      var i :| 0 <= i < |text| && '0' <= text[i] <= '9';
    }
    if HasDigit(value) {
      var i :| 0 <= i < |value| && '0' <= value[i] <= '9';
      assert '0' <= text[i] <= '9';
    }
  }
}
