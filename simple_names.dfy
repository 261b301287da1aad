// getParseSimpleName of DocumentParser: a statement's "Last, First" name becomes "First Last",
// reduced to letters, spaces, apostrophes, backquotes and hyphens.

module SimpleNames {
  import opened Wrappers
  import opened Text

  /** The POSIX class [:print:] on one byte: space through tilde. */
  predicate IsPrintable(c: char)
  {
    ' ' <= c <= '~'
  }

  /** What the name filter keeps: `` ` `` `'` `-`, space and the ASCII letters. */
  predicate IsNameChar(c: char)
  {
    c == '`' || c == '\'' || c == '-' || c == ' ' || 'A' <= c <= 'Z' || 'a' <= c <= 'z'
  }

  /** A name part as a statement writes it: name characters without a space. */
  predicate IsWord(w: string)
  {
    |w| > 0 && forall i :: 0 <= i < |w| ==> IsNameChar(w[i]) && w[i] != ' '
  }

  /** Every character outside [:print:] becomes a space. */
  function Printable(s: string): (r: string)
    ensures |r| == |s|
    ensures forall i :: 0 <= i < |s| ==> r[i] == (if IsPrintable(s[i]) then s[i] else ' ')
  {
    if s == [] then [] else [if IsPrintable(s[0]) then s[0] else ' '] + Printable(s[1..])
  }

  /**
   * Runs of white space become one space. After Printable the only white space left is the
   * space itself (tab, line feed, vertical tab, form feed and carriage return are not printable).
   */
  function Squeeze(s: string): (r: string)
    ensures |r| <= |s|
    ensures |s| > 0 ==> |r| > 0 && r[0] == s[0]
    ensures forall i :: 0 <= i < |r| - 1 ==> !(r[i] == ' ' && r[i + 1] == ' ')
  {
    if |s| <= 1 then s
    else if s[0] == ' ' && s[1] == ' ' then Squeeze(s[1..])
    else [s[0]] + Squeeze(s[1..])
  }

  /** The filter of getParseSimpleName: every character it does not keep is dropped. */
  function KeepNameChars(s: string): (r: string)
    ensures |r| <= |s|
    ensures forall i :: 0 <= i < |r| ==> IsNameChar(r[i])
  {
    if s == [] then []
    else (if IsNameChar(s[0]) then [s[0]] else []) + KeepNameChars(s[1..])
  }

  /**
   * getParseSimpleName: nothing for an empty name; otherwise the part after the first comma
   * (the first name), a space and the part before it (the last name), each trimmed and
   * filtered, and the whole trimmed. Parts after a second comma are ignored.
   */
  function ParseSimpleName(name: string): (r: Option<string>)
    ensures r.None? <==> !Truthy(name)
  {
    if !Truthy(name) then None
    else
      var parts := Explode(Squeeze(Printable(name)), ",");
      var last := KeepNameChars(Trim(parts[0]));
      var first := if |parts| > 1 then KeepNameChars(Trim(parts[1])) else "";
      Some(Trim(first + " " + last))
  }

  lemma TrimChars(s: string)
    ensures forall i :: 0 <= i < |Trim(s)| ==> Trim(s)[i] in s
  {
    var l := TrimLeft(s);
    var r := TrimRight(l);
    forall i | 0 <= i < |r|
      ensures r[i] in s
    {
      assert r[i] == l[i] == s[|s| - |l| + i];
    }
  }

  /** Trimming a string of name characters leaves name characters and no space at either end. */
  lemma TrimNameChars(s: string)
    requires forall i :: 0 <= i < |s| ==> IsNameChar(s[i])
    ensures var r := Trim(s);
            (forall i :: 0 <= i < |r| ==> IsNameChar(r[i])) && (|r| > 0 ==> r[0] != ' ' && r[|r| - 1] != ' ')
  {
    TrimChars(s);
    var r := Trim(s);
    forall i | 0 <= i < |r|
      ensures IsNameChar(r[i])
    {
      var j :| 0 <= j < |s| && s[j] == r[i];
    }
  }

  /** Joining two filtered parts and trimming gives a clean name. */
  lemma JoinedIsClean(first: string, last: string)
    requires forall i :: 0 <= i < |first| ==> IsNameChar(first[i])
    requires forall i :: 0 <= i < |last| ==> IsNameChar(last[i])
    ensures var r := Trim(first + " " + last);
            (forall i :: 0 <= i < |r| ==> IsNameChar(r[i])) && (|r| > 0 ==> r[0] != ' ' && r[|r| - 1] != ' ')
  {
    var joined := first + " " + last;
    forall i | 0 <= i < |joined|
      ensures IsNameChar(joined[i])
    {
      if i < |first| {
        assert joined[i] == first[i];
      } else if i > |first| {
        assert joined[i] == last[i - |first| - 1];
      }
    }
    TrimNameChars(joined);
  }

  /** The parsed name holds only name characters and neither starts nor ends with a space. */
  lemma SimpleNameIsClean(name: string)
    requires Truthy(name)
    ensures var r := ParseSimpleName(name).value;
            (forall i :: 0 <= i < |r| ==> IsNameChar(r[i])) && (|r| > 0 ==> r[0] != ' ' && r[|r| - 1] != ' ')
  {
    var parts := Explode(Squeeze(Printable(name)), ",");
    var last := KeepNameChars(Trim(parts[0]));
    var first := if |parts| > 1 then KeepNameChars(Trim(parts[1])) else "";
    JoinedIsClean(first, last);
  }

  lemma {:induction false} PrintableKeeps(s: string)
    requires forall i :: 0 <= i < |s| ==> IsPrintable(s[i])
    ensures Printable(s) == s
  {
  }

  lemma {:induction false} KeepNameCharsKeeps(s: string)
    requires forall i :: 0 <= i < |s| ==> IsNameChar(s[i])
    ensures KeepNameChars(s) == s
  {
    if s != [] {
      KeepNameCharsKeeps(s[1..]);
    }
  }

  lemma {:induction false} SqueezeKeeps(s: string)
    requires forall i :: 0 <= i < |s| - 1 ==> !(s[i] == ' ' && s[i + 1] == ' ')
    ensures Squeeze(s) == s
  {
    if |s| > 1 {
      SqueezeKeeps(s[1..]);
    }
  }

  lemma TrimKeeps(s: string)
    requires |s| > 0 && !IsTrimChar(s[0]) && !IsTrimChar(s[|s| - 1])
    ensures Trim(s) == s
  {
  }

  lemma WordIsKept(w: string)
    requires IsWord(w)
    ensures KeepNameChars(w) == w && Trim(w) == w && ',' !in w
  {
    KeepNameCharsKeeps(w);
    TrimKeeps(w);
    assert forall i :: 0 <= i < |w| ==> w[i] != ',';
  }

  /** A string without a comma does not split. */
  lemma NoComma(s: string, from: nat)
    requires ',' !in s
    ensures Find(s, ",", from).None?
    decreases |s| - from
  {
    if from + 1 <= |s| {
      assert s[from..from + 1] == [s[from]];
      assert s[from] in s;
      NoComma(s, from + 1);
    }
  }

  /** The first comma of `a + "," + rest` at or after `from` is the one after `a`. */
  lemma FirstComma(a: string, rest: string, from: nat)
    requires ',' !in a && from <= |a|
    ensures Find(a + "," + rest, ",", from) == Some(|a|)
    decreases |a| - from
  {
    var s := a + "," + rest;
    if from == |a| {
      assert s[|a|..|a| + 1] == ",";
    } else {
      assert s[from..from + 1] == [a[from]];
      assert a[from] in a;
      FirstComma(a, rest, from + 1);
    }
  }

  lemma SplitAtComma(a: string, rest: string)
    requires ',' !in a && ',' !in rest
    ensures Explode(a + "," + rest, ",") == [a, rest]
  {
    var s := a + "," + rest;
    FirstComma(a, rest, 0);
    assert s[..|a|] == a && s[|a| + 1..] == rest;
    NoComma(rest, 0);
  }

  lemma TrimLeadingSpace(w: string)
    requires IsWord(w)
    ensures Trim(" " + w) == w
  {
    assert (" " + w)[1..] == w;
    TrimKeeps(w);
  }

  /** A single word is its own simple name. */
  lemma SimpleNameOfWord(w: string)
    requires IsWord(w) && w != "0"
    ensures ParseSimpleName(w) == Some(w)
  {
    WordIsKept(w);
    PrintableKeeps(w);
    SqueezeKeeps(w);
    NoComma(w, 0);
    TrimLeadingSpace(w);
  }

  /** The statement form "Last, First" of two words is printable and has no double space. */
  lemma ListedNameIsPlain(last: string, first: string)
    requires IsWord(last) && IsWord(first)
    ensures var name := last + "," + (" " + first);
            (forall i :: 0 <= i < |name| ==> IsPrintable(name[i])) &&
            (forall i :: 0 <= i < |name| - 1 ==> !(name[i] == ' ' && name[i + 1] == ' '))
  {
    var name := last + "," + (" " + first);
    forall i | 0 <= i < |name|
      ensures IsPrintable(name[i]) && (name[i] == ' ' <==> i == |last| + 1)
    {
      if i < |last| {
        assert name[i] == last[i];
      } else if i > |last| + 1 {
        assert name[i] == first[i - |last| - 2];
      }
    }
  }

  /** The statement form "Last, First" splits into the last name and the spaced first name. */
  lemma ListedNameParts(last: string, first: string)
    requires IsWord(last) && IsWord(first)
    ensures Explode(Squeeze(Printable(last + ", " + first)), ",") == [last, " " + first]
  {
    var name := last + "," + (" " + first);
    assert last + ", " + first == name;
    WordIsKept(last);
    ListedNameIsPlain(last, first);
    PrintableKeeps(name);
    SqueezeKeeps(name);
    WordIsKept(first);
    assert ',' !in " " + first;
    SplitAtComma(last, " " + first);
  }

  /** "Last, First" becomes "First Last". */
  lemma SimpleNameSwaps(last: string, first: string)
    requires IsWord(last) && IsWord(first)
    ensures ParseSimpleName(last + ", " + first) == Some(first + " " + last)
  {
    ListedNameParts(last, first);
    WordIsKept(last);
    WordIsKept(first);
    TrimLeadingSpace(first);
    TrimKeeps(first + " " + last);
  }
}
