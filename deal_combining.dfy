// combineDeals of DocumentParser: parsed rows with the same policy number, advisor name and
// deal class are combined into one row carrying the sums of their commissions and premiums and
// the spreadsheet rows it was read from.

module DealCombining {
  import opened Domain

  /** A spreadsheet row as read: its cells. */
  type RawRow = seq<string>

  /** A parsed deal with the spreadsheet rows it was made from (DealContainer::$original). */
  datatype ParsedRow = ParsedRow(line: Line, original: seq<RawRow>)

  /**
   * getGroupDealKey: the digest of the policy number, the advisor name and the deal class run
   * together. The digest is taken to be injective, so the key is the concatenated text and the
   * class; the policy number and the advisor name are joined with no separator, as written.
   */
  datatype GroupKey = GroupKey(text: string, kind: DealKind)

  function GroupDealKey(row: ParsedRow): (k: GroupKey)
    ensures k.text == row.line.policyNumber + row.line.advisorName && k.kind == row.line.kind
  {
    GroupKey(row.line.policyNumber + row.line.advisorName, row.line.kind)
  }

  /** `$deal->original[0]`: the first spreadsheet row of a deal, or null (no cells) when it has none. */
  function FirstOriginal(row: ParsedRow): (r: RawRow)
    ensures |row.original| > 0 ==> r == row.original[0]
  {
    if |row.original| > 0 then row.original[0] else []
  }

  /**
   * What combineDeals does when a row joins an existing group: the amounts are added and the
   * joining row's first spreadsheet row is appended to the group's.
   */
  function Absorb(into: ParsedRow, row: ParsedRow): (r: ParsedRow)
    ensures r.line.commission == into.line.commission + row.line.commission
    ensures r.line.premium == into.line.premium + row.line.premium
    ensures r.original == into.original + [FirstOriginal(row)]
    ensures GroupDealKey(r) == GroupDealKey(into)
  {
    into.(line := into.line.(commission := into.line.commission + row.line.commission,
                             premium := into.line.premium + row.line.premium),
          original := into.original + [FirstOriginal(row)])
  }

  function KeysOf(xs: seq<ParsedRow>): (ks: seq<GroupKey>)
    ensures |ks| == |xs| && forall i :: 0 <= i < |xs| ==> ks[i] == GroupDealKey(xs[i])
  {
    if xs == [] then [] else KeysOf(xs[..|xs| - 1]) + [GroupDealKey(xs[|xs| - 1])]
  }

  /** The position of the first key `k` in `ks`, or |ks| when there is none. */
  function IndexOf(ks: seq<GroupKey>, k: GroupKey): (r: nat)
    ensures r <= |ks| && (r < |ks| ==> ks[r] == k)
    ensures forall j :: 0 <= j < r ==> ks[j] != k
  {
    if ks == [] then 0 else if ks[0] == k then 0 else 1 + IndexOf(ks[1..], k)
  }

  /** The distinct keys of `rows`, in the order they are first seen. */
  function FirstSeen(rows: seq<ParsedRow>): (r: seq<GroupKey>)
    ensures forall k :: k in r <==> k in KeysOf(rows)
    ensures forall i, j :: 0 <= i < j < |r| ==> r[i] != r[j]
  {
    if rows == [] then []
    else
      var init := rows[..|rows| - 1];
      var k := GroupDealKey(rows[|rows| - 1]);
      assert KeysOf(rows) == KeysOf(init) + [k];
      if k in FirstSeen(init) then FirstSeen(init) else FirstSeen(init) + [k]
  }

  /** The sum of the commissions of the rows with key `k`. */
  function CommissionOf(rows: seq<ParsedRow>, k: GroupKey): (c: int)
    ensures k !in KeysOf(rows) ==> c == 0
  {
    if rows == [] then 0
    else
      var init := rows[..|rows| - 1];
      assert KeysOf(rows) == KeysOf(init) + [GroupDealKey(rows[|rows| - 1])];
      CommissionOf(init, k) + (if GroupDealKey(rows[|rows| - 1]) == k then rows[|rows| - 1].line.commission else 0)
  }

  /** The sum of the premiums of the rows with key `k`. */
  function PremiumOf(rows: seq<ParsedRow>, k: GroupKey): (p: int)
    ensures k !in KeysOf(rows) ==> p == 0
  {
    if rows == [] then 0
    else
      var init := rows[..|rows| - 1];
      assert KeysOf(rows) == KeysOf(init) + [GroupDealKey(rows[|rows| - 1])];
      PremiumOf(init, k) + (if GroupDealKey(rows[|rows| - 1]) == k then rows[|rows| - 1].line.premium else 0)
  }

  /**
   * The spreadsheet rows of group `k`: those of its first row, then the first spreadsheet row
   * of every later row with key `k`, in order.
   */
  function OriginalsOf(rows: seq<ParsedRow>, k: GroupKey): seq<RawRow>
  {
    if rows == [] then []
    else
      var init := rows[..|rows| - 1];
      var x := rows[|rows| - 1];
      if GroupDealKey(x) != k then OriginalsOf(init, k)
      else if k in KeysOf(init) then OriginalsOf(init, k) + [FirstOriginal(x)]
      else x.original
  }

  /**
   * The combined row of group `k`: the first row with key `k`, carrying the sums of the
   * commissions and premiums of all the rows with that key, and their spreadsheet rows.
   */
  function GroupRow(rows: seq<ParsedRow>, k: GroupKey): (r: ParsedRow)
    requires k in KeysOf(rows)
    ensures GroupDealKey(r) == k
    ensures r.line.commission == CommissionOf(rows, k) && r.line.premium == PremiumOf(rows, k)
    ensures r.original == OriginalsOf(rows, k)
  {
    var first := rows[IndexOf(KeysOf(rows), k)];
    first.(line := first.line.(commission := CommissionOf(rows, k), premium := PremiumOf(rows, k)),
           original := OriginalsOf(rows, k))
  }

  /** The first spreadsheet rows of the rows with key `k`, in order. */
  function FirstOriginalsOf(rows: seq<ParsedRow>, k: GroupKey): (r: seq<RawRow>)
    ensures k !in KeysOf(rows) ==> r == []
  {
    if rows == [] then []
    else
      var init := rows[..|rows| - 1];
      assert KeysOf(rows) == KeysOf(init) + [GroupDealKey(rows[|rows| - 1])];
      FirstOriginalsOf(init, k) + (if GroupDealKey(rows[|rows| - 1]) == k then [FirstOriginal(rows[|rows| - 1])] else [])
  }

  /**
   * When every parsed row carries the one spreadsheet row it was read from, a combined row
   * carries the spreadsheet rows of all its group, in order.
   */
  lemma {:induction false} OneOriginalEach(rows: seq<ParsedRow>, k: GroupKey)
    requires forall i :: 0 <= i < |rows| ==> |rows[i].original| == 1
    ensures OriginalsOf(rows, k) == FirstOriginalsOf(rows, k)
  {
    if rows != [] {
      var init := rows[..|rows| - 1];
      var x := rows[|rows| - 1];
      OneOriginalEach(init, k);
      if GroupDealKey(x) == k && k !in KeysOf(init) {
        assert x.original == [FirstOriginal(x)];
      }
    }
  }

  /** `row` is the combined row of its own group. */
  predicate IsGroupRow(rows: seq<ParsedRow>, row: ParsedRow)
  {
    GroupDealKey(row) in KeysOf(rows) && row == GroupRow(rows, GroupDealKey(row))
  }

  lemma KeysOfAppend(xs: seq<ParsedRow>, x: ParsedRow)
    ensures KeysOf(xs + [x]) == KeysOf(xs) + [GroupDealKey(x)]
  {
  }

  /** Appending a key moves no earlier first position, and a new key lands at the end. */
  lemma IndexOfAppend(ks: seq<GroupKey>, k: GroupKey, k2: GroupKey)
    ensures k in ks ==> IndexOf(ks + [k2], k) == IndexOf(ks, k)
    ensures k !in ks && k == k2 ==> IndexOf(ks + [k2], k) == |ks|
  {
    var ks2 := ks + [k2];
    if k in ks {
      var n := IndexOf(ks, k);
      assert n < |ks|;
      assert ks2[n] == k;
    } else if k == k2 {
      assert ks2[|ks|] == k;
    }
  }

  /** One more row: the keys and the order of first sight. */
  lemma AppendKeys(init: seq<ParsedRow>, x: ParsedRow)
    ensures KeysOf(init + [x]) == KeysOf(init) + [GroupDealKey(x)]
    ensures FirstSeen(init + [x]) ==
              if GroupDealKey(x) in KeysOf(init) then FirstSeen(init) else FirstSeen(init) + [GroupDealKey(x)]
  {
    assert (init + [x])[..|init|] == init;
    KeysOfAppend(init, x);
  }

  /** One more row: the sums and the first positions. */
  lemma AppendRow(init: seq<ParsedRow>, x: ParsedRow, k: GroupKey)
    ensures KeysOf(init + [x]) == KeysOf(init) + [GroupDealKey(x)]
    ensures CommissionOf(init + [x], k) ==
              CommissionOf(init, k) + (if GroupDealKey(x) == k then x.line.commission else 0)
    ensures PremiumOf(init + [x], k) ==
              PremiumOf(init, k) + (if GroupDealKey(x) == k then x.line.premium else 0)
    ensures k in KeysOf(init) ==> IndexOf(KeysOf(init + [x]), k) == IndexOf(KeysOf(init), k)
    ensures k !in KeysOf(init) && k == GroupDealKey(x) ==> IndexOf(KeysOf(init + [x]), k) == |init|
    ensures OriginalsOf(init + [x], k) ==
              if GroupDealKey(x) != k then OriginalsOf(init, k)
              else if k in KeysOf(init) then OriginalsOf(init, k) + [FirstOriginal(x)]
              else x.original
  {
    assert (init + [x])[..|init|] == init;
    KeysOfAppend(init, x);
    IndexOfAppend(KeysOf(init), k, GroupDealKey(x));
  }

  /** A group the new row does not join is unchanged. */
  lemma OtherGroupStep(init: seq<ParsedRow>, x: ParsedRow, k: GroupKey)
    requires k in KeysOf(init) && k != GroupDealKey(x)
    ensures k in KeysOf(init + [x]) && GroupRow(init + [x], k) == GroupRow(init, k)
  {
    AppendRow(init, x, k);
    var f := IndexOf(KeysOf(init), k);
    assert (init + [x])[f] == init[f];
  }

  /** The group the new row joins takes the new row's amounts into its totals. */
  lemma SameGroupStep(init: seq<ParsedRow>, x: ParsedRow, row: ParsedRow)
    requires GroupDealKey(x) in KeysOf(init) && row == GroupRow(init, GroupDealKey(x))
    ensures GroupDealKey(x) in KeysOf(init + [x]) && GroupRow(init + [x], GroupDealKey(x)) == Absorb(row, x)
  {
    var k := GroupDealKey(x);
    AppendRow(init, x, k);
    var f := IndexOf(KeysOf(init), k);
    assert IndexOf(KeysOf(init + [x]), k) == f;
    assert (init + [x])[f] == init[f];
    assert CommissionOf(init + [x], k) == CommissionOf(init, k) + x.line.commission;
    assert PremiumOf(init + [x], k) == PremiumOf(init, k) + x.line.premium;
    assert OriginalsOf(init + [x], k) == OriginalsOf(init, k) + [FirstOriginal(x)];
  }

  /** A row whose key is new starts a group of its own. */
  lemma NewGroupStep(init: seq<ParsedRow>, x: ParsedRow)
    requires GroupDealKey(x) !in KeysOf(init)
    ensures GroupDealKey(x) in KeysOf(init + [x]) && GroupRow(init + [x], GroupDealKey(x)) == x
  {
    AppendRow(init, x, GroupDealKey(x));
    assert (init + [x])[|init|] == x;
  }

  /** Under each key of the dictionary is that group's combined row over the rows `done`. */
  ghost predicate GroupedRows(done: seq<ParsedRow>, grouped: map<GroupKey, ParsedRow>)
  {
    forall k :: k in grouped && k in KeysOf(done) ==> grouped[k] == GroupRow(done, k)
  }

  /**
   * The ordered dictionary of combineDeals after the rows `done`: its keys in insertion order
   * are the keys first seen, and under each key is that group's combined row.
   */
  ghost predicate Grouped(done: seq<ParsedRow>, order: seq<GroupKey>, grouped: map<GroupKey, ParsedRow>)
  {
    && order == FirstSeen(done)
    && (forall k :: k in grouped <==> k in KeysOf(done))
    && GroupedRows(done, grouped)
  }

  lemma JoinRows(done: seq<ParsedRow>, grouped: map<GroupKey, ParsedRow>, x: ParsedRow)
    requires GroupedRows(done, grouped) && GroupDealKey(x) in grouped && GroupDealKey(x) in KeysOf(done)
    ensures GroupedRows(done + [x], grouped[GroupDealKey(x) := Absorb(grouped[GroupDealKey(x)], x)])
  {
    var key := GroupDealKey(x);
    var g2 := grouped[key := Absorb(grouped[key], x)];
    KeysOfAppend(done, x);
    forall k | k in g2 && k in KeysOf(done + [x])
      ensures g2[k] == GroupRow(done + [x], k)
    {
      if k == key {
        SameGroupStep(done, x, grouped[key]);
      } else {
        assert k in KeysOf(done);
        OtherGroupStep(done, x, k);
      }
    }
  }

  lemma StartRows(done: seq<ParsedRow>, grouped: map<GroupKey, ParsedRow>, x: ParsedRow)
    requires GroupedRows(done, grouped) && GroupDealKey(x) !in KeysOf(done)
    ensures GroupedRows(done + [x], grouped[GroupDealKey(x) := x])
  {
    var key := GroupDealKey(x);
    var g2 := grouped[key := x];
    KeysOfAppend(done, x);
    forall k | k in g2 && k in KeysOf(done + [x])
      ensures g2[k] == GroupRow(done + [x], k)
    {
      if k == key {
        NewGroupStep(done, x);
      } else {
        assert k in KeysOf(done);
        OtherGroupStep(done, x, k);
      }
    }
  }

  /** A row whose key is already in the dictionary adds its amounts to that entry. */
  lemma GroupedJoin(done: seq<ParsedRow>, order: seq<GroupKey>, grouped: map<GroupKey, ParsedRow>, x: ParsedRow)
    requires Grouped(done, order, grouped) && GroupDealKey(x) in grouped
    ensures Grouped(done + [x], order, grouped[GroupDealKey(x) := Absorb(grouped[GroupDealKey(x)], x)])
  {
    AppendKeys(done, x);
    JoinRows(done, grouped, x);
  }

  /** A row whose key is new is put in the dictionary, after the keys already there. */
  lemma GroupedStart(done: seq<ParsedRow>, order: seq<GroupKey>, grouped: map<GroupKey, ParsedRow>, x: ParsedRow)
    requires Grouped(done, order, grouped) && GroupDealKey(x) !in grouped
    ensures Grouped(done + [x], order + [GroupDealKey(x)], grouped[GroupDealKey(x) := x])
  {
    AppendKeys(done, x);
    StartRows(done, grouped, x);
  }

  /** One iteration of the grouping loop: the row joins its group or starts one at the end. */
  method AddRow(order: seq<GroupKey>, grouped: map<GroupKey, ParsedRow>, ghost done: seq<ParsedRow>, x: ParsedRow)
    returns (order': seq<GroupKey>, grouped': map<GroupKey, ParsedRow>)
    requires Grouped(done, order, grouped)
    ensures Grouped(done + [x], order', grouped')
  {
    var key := GroupDealKey(x);
    if key in grouped {
      GroupedJoin(done, order, grouped, x);
      grouped' := grouped[key := Absorb(grouped[key], x)];
      order' := order;
    } else {
      GroupedStart(done, order, grouped, x);
      grouped' := grouped[key := x];
      order' := order + [key];
    }
  }

  lemma PrefixStep(rows: seq<ParsedRow>, i: nat)
    requires i < |rows|
    ensures rows[..i + 1] == rows[..i] + [rows[i]]
  {
  }

  /**
   * combineDeals: one row per key (policy number and advisor name run together, and deal
   * class), in the order the keys are first seen; each is the first row with its key carrying
   * the sums of the commissions and premiums of all the rows with that key.
   */
  method CombineDeals(rows: seq<ParsedRow>) returns (deals: seq<ParsedRow>)
    ensures KeysOf(deals) == FirstSeen(rows)
    ensures forall j :: 0 <= j < |deals| ==> IsGroupRow(rows, deals[j])
  {
    var order: seq<GroupKey> := [];
    var grouped: map<GroupKey, ParsedRow> := map[];
    var i := 0;
    while i < |rows|
      invariant i <= |rows| && Grouped(rows[..i], order, grouped)
    {
      order, grouped := AddRow(order, grouped, rows[..i], rows[i]);
      PrefixStep(rows, i);
      i := i + 1;
    }
    assert rows[..i] == rows;
    var values := ValuesInOrder(order, grouped);
    GroupedValues(rows, order, grouped, values);
    deals := values;
  }

  /** array_values of the ordered dictionary: the entries in insertion order. */
  method ValuesInOrder(order: seq<GroupKey>, grouped: map<GroupKey, ParsedRow>) returns (deals: seq<ParsedRow>)
    requires forall k :: k in order ==> k in grouped
    ensures |deals| == |order| && forall j :: 0 <= j < |order| ==> deals[j] == grouped[order[j]]
  {
    deals := [];
    var j := 0;
    while j < |order|
      invariant j <= |order| && |deals| == j
      invariant forall t :: 0 <= t < j ==> deals[t] == grouped[order[t]]
    {
      deals := deals + [grouped[order[j]]];
      j := j + 1;
    }
  }

  /** The entries of the dictionary after all the rows, in order, are the combined rows. */
  lemma GroupedValues(rows: seq<ParsedRow>, order: seq<GroupKey>, grouped: map<GroupKey, ParsedRow>, deals: seq<ParsedRow>)
    requires Grouped(rows, order, grouped)
    requires |deals| == |order| && forall j :: 0 <= j < |order| ==> deals[j] == grouped[order[j]]
    ensures KeysOf(deals) == order
    ensures forall j :: 0 <= j < |deals| ==> IsGroupRow(rows, deals[j])
  {
    assert forall j :: 0 <= j < |order| ==> order[j] in KeysOf(rows);
  }

  /** The rows of a key come out as one row whatever the rows between them. */
  lemma CombinedKeysDistinct(rows: seq<ParsedRow>, deals: seq<ParsedRow>)
    requires KeysOf(deals) == FirstSeen(rows)
    ensures |deals| <= |rows|
    ensures forall i, j :: 0 <= i < j < |deals| ==> GroupDealKey(deals[i]) != GroupDealKey(deals[j])
  {
    FirstSeenShorter(rows);
  }

  lemma {:induction false} FirstSeenShorter(rows: seq<ParsedRow>)
    ensures |FirstSeen(rows)| <= |rows|
  {
    if rows != [] {
      FirstSeenShorter(rows[..|rows| - 1]);
    }
  }
}
