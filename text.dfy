// The PHP string primitives the engine relies on: trim, strtolower, strpos-as-substring,
// explode/implode and array_unique, with the facts about them the rest of the model uses.

module Text {
  import opened Wrappers

  /** PHP truthiness of a string: "" and "0" are falsy. */
  predicate Truthy(s: string)
  {
    s != "" && s != "0"
  }

  /** The characters PHP's trim() strips by default. */
  predicate IsTrimChar(c: char)
  {
    c == ' ' || c == '\t' || c == '\n' || c == '\r' || c as int == 0 || c as int == 11
  }

  function TrimLeft(s: string): (r: string)
    ensures |r| <= |s| && r == s[|s| - |r|..]
    ensures |r| > 0 ==> !IsTrimChar(r[0])
    ensures forall i :: 0 <= i < |s| - |r| ==> IsTrimChar(s[i])
  {
    if |s| > 0 && IsTrimChar(s[0]) then TrimLeft(s[1..]) else s
  }

  function TrimRight(s: string): (r: string)
    ensures |r| <= |s| && r == s[..|r|]
    ensures |r| > 0 ==> !IsTrimChar(r[|r| - 1])
    ensures forall i :: |r| <= i < |s| ==> IsTrimChar(s[i])
  {
    if |s| > 0 && IsTrimChar(s[|s| - 1]) then TrimRight(s[..|s| - 1]) else s
  }

  /** trim(): the longest infix with no trimmable character at either end. */
  function Trim(s: string): (r: string)
    ensures Contains(s, r)
    ensures |r| > 0 ==> !IsTrimChar(r[0]) && !IsTrimChar(r[|r| - 1])
  {
    var l := TrimLeft(s);
    var r := TrimRight(l);
    assert r == s[|s| - |l|..][..|r|] == s[|s| - |l|..|s| - |l| + |r|];
    assert At(s, r, |s| - |l|);
    r
  }

  function LowerChar(c: char): char
  {
    if 'A' <= c <= 'Z' then (c as int + 32) as char else c
  }

  /** strtolower() on ASCII letters. */
  function ToLower(s: string): (r: string)
    ensures |r| == |s|
    ensures forall i :: 0 <= i < |s| ==> r[i] == LowerChar(s[i])
  {
    if s == [] then [] else [LowerChar(s[0])] + ToLower(s[1..])
  }

  /** `g` occurs in `s` at offset `j`. */
  predicate At(s: string, g: string, j: int)
  {
    0 <= j <= |s| - |g| && s[j..j + |g|] == g
  }

  /** `strpos($hay, $needle) !== false`; an empty needle is found at offset 0. */
  predicate Contains(hay: string, needle: string)
  {
    exists i | 0 <= i <= |hay| :: At(hay, needle, i)
  }

  lemma LowerInfix(s: string, i: int, n: int)
    requires 0 <= i <= i + n <= |s|
    ensures ToLower(s[i..i + n]) == ToLower(s)[i..i + n]
  {
  }

  lemma ContainsLower(hay: string, needle: string)
    requires Contains(hay, needle)
    ensures Contains(ToLower(hay), ToLower(needle))
  {
    var i :| At(hay, needle, i);
    assert At(hay, needle, i);
    LowerInfix(hay, i, |needle|);
    assert At(ToLower(hay), ToLower(needle), i);
  }

  // ---- explode / implode -------------------------------------------------------------

  /** The first offset at or after `from` where `g` occurs in `s`. */
  function Find(s: string, g: string, from: nat): (r: Option<nat>)
    requires |g| > 0
    ensures r.Some? ==> from <= r.value && At(s, g, r.value)
    ensures r.Some? ==> forall j :: from <= j < r.value ==> !At(s, g, j)
    ensures r.None? ==> forall j :: from <= j ==> !At(s, g, j)
    decreases |s| - from
  {
    if from + |g| > |s| then None
    else if s[from..from + |g|] == g then Some(from)
    else Find(s, g, from + 1)
  }

  /** explode($g, $s) */
  function Explode(s: string, g: string): (parts: seq<string>)
    requires |g| > 0
    ensures |parts| > 0
    decreases |s|
  {
    match Find(s, g, 0)
    case None => [s]
    case Some(i) => [s[..i]] + Explode(s[i + |g|..], g)
  }

  /** implode($g, $parts) */
  function Implode(parts: seq<string>, g: string): string
  {
    if |parts| == 0 then ""
    else if |parts| == 1 then parts[0]
    else parts[0] + g + Implode(parts[1..], g)
  }

  /** Joining the pieces of a split gives back the string, for every glue. */
  lemma {:induction false} ImplodeExplode(s: string, g: string)
    requires |g| > 0
    ensures Implode(Explode(s, g), g) == s
    decreases |s|
  {
    match Find(s, g, 0)
    case None =>
    case Some(i) =>
      var rest := s[i + |g|..];
      ImplodeExplode(rest, g);
      var tail := Explode(rest, g);
      assert Explode(s, g) == [s[..i]] + tail;
      assert s == s[..i] + g + rest;
  }

  /** The separator used for stored explanations. */
  const Glue: string := " | "

  /** An explanation holding no '|', so that it cannot fuse with the glue. */
  predicate Unglued(e: string)
  {
    '|' !in e
  }

  lemma NoGlueIn(s: string, from: nat)
    requires '|' !in s
    ensures Find(s, Glue, from).None?
  {
    forall j | 0 <= j <= |s| - 3 ensures !At(s, Glue, j) {
      assert s[j..j + 3][1] == s[j + 1];
      assert s[j + 1] in s;
    }
  }

  lemma FirstGlue(a: string, rest: string)
    requires '|' !in a
    ensures Find(a + Glue + rest, Glue, 0) == Some(|a|)
  {
    var s := a + Glue + rest;
    assert s[|a|..|a| + 3] == Glue;
    assert At(s, Glue, |a|);
    forall j | 0 <= j < |a| ensures !At(s, Glue, j) {
      assert s[j..j + 3][1] == s[j + 1];
      if j + 1 < |a| {
        assert s[j + 1] == a[j + 1];
        assert a[j + 1] in a;
      }
    }
  }

  /** Splitting a glued list gives back its elements when none holds a '|'. */
  lemma {:induction false} ExplodeImplode(xs: seq<string>)
    requires |xs| > 0
    requires forall e :: e in xs ==> Unglued(e)
    ensures Explode(Implode(xs, Glue), Glue) == xs
    decreases |xs|
  {
    if |xs| == 1 {
      assert xs[0] in xs;
      assert Unglued(xs[0]);
      NoGlueIn(xs[0], 0);
    } else {
      var rest := Implode(xs[1..], Glue);
      assert xs[0] in xs;
      assert Unglued(xs[0]);
      FirstGlue(xs[0], rest);
      var s := xs[0] + Glue + rest;
      assert s[..|xs[0]|] == xs[0];
      assert s[|xs[0]| + 3..] == rest;
      forall e | e in xs[1..] ensures Unglued(e) {
        assert e in xs;
      }
      ExplodeImplode(xs[1..]);
      assert xs == [xs[0]] + xs[1..];
    }
  }

  // ---- array_unique ------------------------------------------------------------------

  /** array_unique() on a list: first occurrences, in order. */
  function Unique(xs: seq<string>): (u: seq<string>)
    ensures forall e :: e in u <==> e in xs
    ensures forall i, j :: 0 <= i < j < |u| ==> u[i] != u[j]
    ensures |xs| > 0 ==> |u| > 0
  {
    if |xs| == 0 then []
    else
      var u := Unique(xs[..|xs| - 1]);
      assert forall e :: e in xs <==> e in xs[..|xs| - 1] || e == xs[|xs| - 1];
      if xs[|xs| - 1] in u then u else u + [xs[|xs| - 1]]
  }

  /** A list without duplicates is its own array_unique(). */
  lemma {:induction false} UniqueOfDistinct(xs: seq<string>)
    requires forall i, j :: 0 <= i < j < |xs| ==> xs[i] != xs[j]
    ensures Unique(xs) == xs
  {
    if |xs| > 0 {
      var init := xs[..|xs| - 1];
      UniqueOfDistinct(init);
      assert xs[|xs| - 1] !in init;
      assert init + [xs[|xs| - 1]] == xs;
    }
  }

  /** Appending elements already present does not change array_unique(). */
  lemma {:induction false} UniqueAbsorbs(xs: seq<string>, ys: seq<string>)
    requires forall e :: e in ys ==> e in xs
    ensures Unique(xs + ys) == Unique(xs)
    decreases |ys|
  {
    if |ys| > 0 {
      var init := ys[..|ys| - 1];
      assert (xs + ys)[..|xs + ys| - 1] == xs + init;
      forall e | e in init ensures e in xs {
        assert e in ys;
      }
      UniqueAbsorbs(xs, init);
      var last := ys[|ys| - 1];
      assert last in ys;
      assert last in Unique(xs + init);
      var n := |xs + ys|;
      assert (xs + ys)[n - 1] == last;
      assert Unique(xs + ys) == Unique((xs + ys)[..n - 1]);
    } else {
      assert xs + ys == xs;
    }
  }
}
