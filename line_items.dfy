// The statement line item (DealContainer): name splitting, the split-deal test, the
// manual-match predicates, the explanation log written on save, and the name patterns used to
// look an agent up by name.

module LineItems {
  import opened Wrappers
  import opened Domain
  import opened Text
  import PhpNumbers

  // ---- advisor names ---------------------------------------------------------------

  /** getAdvisorFirstName: the text before the first space. */
  function FirstName(name: string): string
  {
    Explode(name, " ")[0]
  }

  /** getAdvisorLastName: everything after the first space, or "" when there is none. */
  function LastName(name: string): string
  {
    var parts := Explode(name, " ");
    if |parts| > 1 then Implode(parts[1..], " ") else ""
  }

  /** The two halves put back together with one space give the full name. */
  lemma {:induction false} NameRoundTrip(name: string)
    ensures ' ' in name ==> FirstName(name) + " " + LastName(name) == name
    ensures ' ' !in name ==> FirstName(name) == name && LastName(name) == ""
  {
    ImplodeExplode(name, " ");
    var parts := Explode(name, " ");
    if ' ' in name {
      var i :| 0 <= i < |name| && name[i] == ' ';
      assert name[i..i + 1] == " ";
      assert At(name, " ", i);
      assert Find(name, " ", 0).Some?;
      assert |parts| > 1;
    } else {
      forall j | 0 <= j < |name| ensures !At(name, " ", j) {
        assert name[j..j + 1][0] == name[j];
        assert name[j] in name;
      }
      assert parts == [name];
    }
  }

  // ---- split deals -------------------------------------------------------------------

  /**
   * getIsShared: the `is_shared` flag, or a share percentage strictly between nothing and
   * 100 — which, for a Renewal line, counts only when the parser does not skip split renewals.
   */
  predicate IsShared(item: LineItem)
  {
    item.line.isSharedFlag ||
    (item.line.sharePercent != 0 && item.line.sharePercent != 100 &&
     (item.line.kind != Renewal || !item.line.skipsSplitRenewals))
  }

  /** A line paid 100% to one agent is split only when flagged so. */
  lemma FullShareNotSplit(item: LineItem)
    requires item.line.sharePercent == 100 || item.line.sharePercent == 0
    ensures IsShared(item) <==> item.line.isSharedFlag
  {
  }

  /** Under a parser that skips split renewals, a Renewal line is split only when flagged. */
  lemma SkippedSplitRenewals(item: LineItem)
    requires item.line.kind == Renewal && item.line.skipsSplitRenewals
    ensures IsShared(item) <==> item.line.isSharedFlag
  {
  }

  // ---- manual matching ---------------------------------------------------------------

  /** UnmatchSolution::UNMATCH_ADVISOR_NAME */
  const UnmatchAdvisorName: string := "Experior Financial Group Inc."
  /** UnmatchSolution::UNMATCH_ADVISOR_CODE */
  const UnmatchAdvisorCode: nat := 107000

  /**
   * `$contract_code == 107000` under PHP 8's loose comparison. A numeric string is compared as
   * a number: exactly when it is an integer, and otherwise as a double, which equals 107000
   * when the string's value lies within 2^-37 of it (the doubles next to 107000 are 2^-36
   * apart, and a tie rounds to 107000, whose significand is even). Any other string is
   * compared as text with "107000", which is numeric, so it never equals it.
   */
  predicate IsUnmatchCode(code: string)
  {
    match PhpNumbers.ParseNumeric(code)
    case Some(d) => PhpNumbers.WithinHalfPow2(d, UnmatchAdvisorCode, 37)
    case None => false
  }

  /** A code of digits only is the unmatch code exactly when its value is 107000, leading zeros or not. */
  lemma DigitCodeIsUnmatchCode(code: string)
    requires |code| > 0 && forall i :: 0 <= i < |code| ==> PhpNumbers.IsDigit(code[i])
    ensures IsUnmatchCode(code) <==> PhpNumbers.DigitsValue(code) == UnmatchAdvisorCode
  {
    PhpNumbers.DigitStringNumeric(code);
    PhpNumbers.IntegralWithin(PhpNumbers.Decimal(false, PhpNumbers.DigitsValue(code), 0), UnmatchAdvisorCode, 37);
  }

  /** White space before or after a code does not change whether it is the unmatch code. */
  lemma PaddedUnmatchCode(c: char, code: string)
    requires PhpNumbers.IsNumericSpace(c)
    ensures IsUnmatchCode([c] + code) <==> IsUnmatchCode(code)
    ensures IsUnmatchCode(code + [c]) <==> IsUnmatchCode(code)
  {
    PhpNumbers.LeadingSpace(c, code);
    PhpNumbers.TrailingSpace(code, c);
  }

  /** A code that only starts with a number ("107000A") is not the unmatch code. */
  lemma LeadingNumericNotUnmatchCode(code: string)
    requires |code| > 0
    requires var c := code[|code| - 1]; !PhpNumbers.IsDigit(c) && c != '.' && !PhpNumbers.IsNumericSpace(c)
    ensures !IsUnmatchCode(code)
  {
    PhpNumbers.TrailingGarbage(code);
  }

  /** The same value followed by a point and zeros ("107000.", "107000.00") is the unmatch code too. */
  lemma ZeroFractionUnmatchCode(p: string, z: string)
    requires |p| > 0 && forall i :: 0 <= i < |p| ==> PhpNumbers.IsDigit(p[i])
    requires forall i :: 0 <= i < |z| ==> z[i] == '0'
    ensures IsUnmatchCode(p + "." + z) <==> PhpNumbers.DigitsValue(p) == UnmatchAdvisorCode
  {
    PhpNumbers.ZerosValue(z);
    PhpNumbers.PointNumeric(p, z);
    PhpNumbers.DigitsValueAppend(p, z);
    PhpNumbers.ScaledIntegralWithin(PhpNumbers.Decimal(false, PhpNumbers.DigitsValue(p + z), -|z|), PhpNumbers.DigitsValue(p), UnmatchAdvisorCode, 37);
  }

  /** Digits with an exponent ("107e3") are the unmatch code exactly when they are worth 107000. */
  lemma ExponentUnmatchCode(p: string, x: string)
    requires |p| > 0 && forall i :: 0 <= i < |p| ==> PhpNumbers.IsDigit(p[i])
    requires |x| > 0 && forall i :: 0 <= i < |x| ==> PhpNumbers.IsDigit(x[i])
    ensures IsUnmatchCode(p + "e" + x) <==>
      PhpNumbers.DigitsValue(p) * PhpNumbers.Pow10(PhpNumbers.DigitsValue(x)) == UnmatchAdvisorCode
  {
    PhpNumbers.ExponentNumeric(p, x);
    var d := PhpNumbers.Decimal(false, PhpNumbers.DigitsValue(p), PhpNumbers.DigitsValue(x));
    PhpNumbers.IntegralWithin(d, UnmatchAdvisorCode, 37);
  }

  /** isManualMatchSolution */
  predicate IsManualMatchSolution(item: LineItem)
  {
    !item.flags.excludeFromManualMatch && item.state.solution.Some? && IsManualMatchKind(item.state.solution.value)
  }

  /** isPossibleManualMatch */
  predicate IsPossibleManualMatch(item: LineItem)
  {
    item.line.commission != 0
    && item.line.advisorName != "Experior"
    && item.line.advisorName != UnmatchAdvisorName
    && !IsUnmatchCode(item.line.contractCode)
    && !item.flags.toUnmatchWithoutAdvisorName
    && !item.flags.hasAgentWithoutEoOrLicense
    && item.flags.hasDealWithoutBlockedCompany != Some(false)
    && !item.flags.excludeFromManualMatch
    && !item.flags.skipToUnmatchReport
  }

  /** A line taken out of manual matching is neither a manual-match solution nor matchable. */
  lemma ExcludedFromManualMatch(item: LineItem)
    requires item.flags.excludeFromManualMatch
    ensures !IsManualMatchSolution(item) && !IsPossibleManualMatch(item)
  {
  }

  // ---- the explanation log written on save -------------------------------------------

  /** The explanations already stored, as beforeSave reads them back. */
  function StoredPieces(item: LineItem): seq<string>
  {
    if item.log.storedExplanation.Some? && item.log.storedExplanation.value != "" then
      Explode(item.log.storedExplanation.value, Glue)
    else []
  }

  /**
   * beforeSave, as intended: the stored explanations are read back and put before the new
   * ones, and the distinct entries are stored joined with " | ". Saving also records the
   * solution as the stored one.
   */
  function Save(item: LineItem): (r: LineItem)
    ensures r.log.explanations == StoredPieces(item) + item.log.explanations
    ensures r.log.storedExplanation == Some(Implode(Unique(r.log.explanations), Glue))
    ensures r.state.savedSolution == item.state.solution
    ensures r == item.(log := r.log, state := r.state) && r.log.errors == item.log.errors
    ensures r.state == item.state.(savedSolution := item.state.solution)
  {
    var all := StoredPieces(item) + item.log.explanations;
    item.(log := item.log.(explanations := all, storedExplanation := Some(Implode(Unique(all), Glue))),
          state := item.state.(savedSolution := item.state.solution))
  }

  /**
   * beforeSave as written: any stored value, even "", is split and put in front, and
   * explode of "" yields one empty piece.
   */
  function SaveAsWritten(item: LineItem): (r: LineItem)
    ensures item.log.storedExplanation.Some? ==>
              r.log.explanations == Explode(item.log.storedExplanation.value, Glue) + item.log.explanations
    ensures r.log.storedExplanation == Some(Implode(Unique(r.log.explanations), Glue))
  {
    var all :=
      if item.log.storedExplanation.Some? then Explode(item.log.storedExplanation.value, Glue) + item.log.explanations
      else item.log.explanations;
    item.(log := item.log.(explanations := all, storedExplanation := Some(Implode(Unique(all), Glue))),
          state := item.state.(savedSolution := item.state.solution))
  }

  lemma EmptyStoredPiece(e: string)
    requires e != ""
    ensures Implode(Unique(Explode("", Glue) + [e]), Glue) == Glue + e
  {
    assert Explode("", Glue) == [""];
    var all := [""] + [e];
    assert all[..1] == [""];
    assert Unique([""]) == [""] by {
      assert [""][..0] == [];
    }
    assert Unique(all) == all;
    assert all[1..] == [e];
  }

  /** A line saved once with no explanation and again with one gets a leading separator. */
  lemma LeadingSeparatorAsWritten(item: LineItem, e: string)
    requires item.log.storedExplanation == Some("") && item.log.explanations == [e] && e != ""
    ensures SaveAsWritten(item).log.storedExplanation == Some(Glue + e)
  {
    EmptyStoredPiece(e);
  }

  /** Saving an empty log and then a real explanation stores just that explanation. */
  lemma NoLeadingSeparator(item: LineItem, e: string)
    requires item.log.storedExplanation == Some("") && item.log.explanations == [e]
    ensures Save(item).log.storedExplanation == Some(e)
  {
    assert Unique([e]) == [e] by { assert [e][..0] == []; }
  }

  /** Every explanation logged on the line can be read back from the stored value. */
  lemma SavedExplanationsKept(item: LineItem)
    requires |item.log.explanations| > 0
    requires forall e :: e in StoredPieces(item) + item.log.explanations ==> Unglued(e)
    ensures var r := Save(item);
            forall e :: e in item.log.explanations ==> e in Explode(r.log.storedExplanation.value, Glue)
  {
    var all := StoredPieces(item) + item.log.explanations;
    var u := Unique(all);
    forall e | e in u ensures Unglued(e) {
    }
    ExplodeImplode(u);
  }

  /** Saving twice stores the same explanation as saving once. */
  lemma {:induction false} SaveIdempotent(item: LineItem)
    requires forall e :: e in StoredPieces(item) + item.log.explanations ==> Unglued(e)
    ensures Save(Save(item)).log.storedExplanation == Save(item).log.storedExplanation
  {
    var once := Save(item);
    var all := once.log.explanations;
    var u := Unique(all);
    assert once.log.storedExplanation.value == Implode(u, Glue);
    var twice := Save(once);
    if Implode(u, Glue) == "" {
      assert StoredPieces(once) == [];
      assert twice.log.explanations == all;
    } else {
      assert |u| > 0;
      forall e | e in u ensures Unglued(e) {
      }
      ExplodeImplode(u);
      assert StoredPieces(once) == u;
      assert twice.log.explanations == u + all;
      UniqueAbsorbs(u, all);
      UniqueOfDistinct(u);
    }
  }

  // ---- name patterns for the agent search --------------------------------------------

  /** The characters kept by preg_replace('/[^\w\s\d-]/', '', ...). */
  predicate IsNameChar(c: char)
  {
    ('a' <= c <= 'z') || ('A' <= c <= 'Z') || ('0' <= c <= '9') || c == '_' || c == '-' ||
    c == ' ' || c == '\t' || c == '\n' || c == '\r' || c as int == 11 || c as int == 12
  }

  function KeepNameChars(s: string): (r: string)
    ensures forall i :: 0 <= i < |r| ==> IsNameChar(r[i])
    ensures |r| <= |s|
  {
    if s == [] then []
    else (if IsNameChar(s[0]) then [s[0]] else []) + KeepNameChars(s[1..])
  }

  /** The words of the name that take part in the patterns. */
  predicate IgnoredWord(w: string)
  {
    w == "Extra" || w == "EXTRA" || w == "2nd" || w == ""
  }

  function Kept(ws: seq<string>): (k: seq<string>)
    ensures forall w :: w in k ==> w in ws && !IgnoredWord(w)
  {
    if ws == [] then []
    else (if IgnoredWord(ws[0]) then [] else [ws[0]]) + Kept(ws[1..])
  }

  function Reverse<T>(s: seq<T>): (r: seq<T>)
    ensures |r| == |s|
    ensures forall i :: 0 <= i < |s| ==> r[i] == s[|s| - 1 - i]
  {
    if s == [] then [] else Reverse(s[1..]) + [s[0]]
  }

  lemma {:induction false} KeptAppend(a: seq<string>, b: seq<string>)
    ensures Kept(a + b) == Kept(a) + Kept(b)
  {
    if a != [] {
      assert (a + b)[1..] == a[1..] + b;
      KeptAppend(a[1..], b);
    } else {
      assert a + b == b;
    }
  }

  /** Dropping ignored words commutes with reversing the word list. */
  lemma {:induction false} KeptReverse(ws: seq<string>)
    ensures Kept(Reverse(ws)) == Reverse(Kept(ws))
  {
    if ws != [] {
      KeptReverse(ws[1..]);
      KeptAppend(Reverse(ws[1..]), [ws[0]]);
      assert Kept([ws[0]]) == (if IgnoredWord(ws[0]) then [] else [ws[0]]) by {
        assert [ws[0]][1..] == [];
      }
      var k := if IgnoredWord(ws[0]) then [] else [ws[0]];
      assert Kept(ws) == k + Kept(ws[1..]);
      ReverseAppend(k, Kept(ws[1..]));
    }
  }

  lemma ReverseAppend<T>(a: seq<T>, b: seq<T>)
    ensures Reverse(a + b) == Reverse(b) + Reverse(a)
  {
    assert forall i :: 0 <= i < |a + b| ==> Reverse(a + b)[i] == (Reverse(b) + Reverse(a))[i];
  }

  /** The i-th pattern: the first i+1 kept words, or in reverse mode the same words reversed. */
  function Condition(kept: seq<string>, i: nat, reverse: bool): seq<string>
    requires i < |kept|
  {
    if reverse then Reverse(kept[..i + 1]) else kept[..i + 1]
  }

  /** The regular expression: the patterns, longest first, each anchored and joined with '|'. */
  function Alternation(conds: seq<seq<string>>): string
  {
    if |conds| == 0 then ""
    else if |conds| == 1 then "^" + Implode(conds[0], " +")
    else "^" + Implode(conds[|conds| - 1], " +") + "|" + Alternation(conds[..|conds| - 1])
  }

  function Conditions(kept: seq<string>, reverse: bool): (cs: seq<seq<string>>)
    ensures |cs| == |kept|
    ensures forall i :: 0 <= i < |kept| ==> cs[i] == Condition(kept, i, reverse)
  {
    seq(|kept|, i requires 0 <= i < |kept| => Condition(kept, i, reverse))
  }

  /** The pattern a new kept word adds after the existing ones. */
  function NextCondition(kept: seq<string>, w: string, reverse: bool): seq<string>
  {
    if kept == [] then [w]
    else if reverse then [w] + Condition(kept, |kept| - 1, reverse)
    else Condition(kept, |kept| - 1, reverse) + [w]
  }

  lemma ConditionsGrow(kept: seq<string>, w: string, reverse: bool)
    ensures Conditions(kept + [w], reverse) == Conditions(kept, reverse) + [NextCondition(kept, w, reverse)]
  {
    var k2 := kept + [w];
    assert k2[..|kept| + 1] == k2;
    if kept != [] {
      assert kept[..|kept|] == kept;
      if reverse {
        ReverseAppend(kept, [w]);
      }
    }
    forall i | 0 <= i < |kept| ensures Condition(k2, i, reverse) == Condition(kept, i, reverse) {
      assert k2[..i + 1] == kept[..i + 1];
    }
    var lhs := Conditions(k2, reverse);
    var rhs := Conditions(kept, reverse) + [NextCondition(kept, w, reverse)];
    assert |lhs| == |rhs|;
    forall i | 0 <= i < |lhs| ensures lhs[i] == rhs[i] {
      if i == |kept| {
        assert lhs[i] == Condition(k2, i, reverse);
      }
    }
  }

  lemma KeptSnoc(ws: seq<string>, w: string)
    ensures Kept(ws + [w]) == Kept(ws) + (if IgnoredWord(w) then [] else [w])
  {
    KeptAppend(ws, [w]);
    assert [w][1..] == [];
  }

  /** One more word of the name: a kept word adds one pattern, an ignored word none. */
  lemma ConditionsStep(words: seq<string>, n: nat, reverse: bool)
    requires n < |words|
    ensures Conditions(Kept(words[..n + 1]), reverse) ==
            Conditions(Kept(words[..n]), reverse) +
            (if IgnoredWord(words[n]) then [] else [NextCondition(Kept(words[..n]), words[n], reverse)])
  {
    assert words[..n + 1] == words[..n] + [words[n]];
    KeptSnoc(words[..n], words[n]);
    if !IgnoredWord(words[n]) {
      ConditionsGrow(Kept(words[..n]), words[n], reverse);
    } else {
      assert Kept(words[..n + 1]) == Kept(words[..n]);
    }
  }

  /** The growing patterns of getRegNameCondition, one word at a time. */
  method GrowConditions(words: seq<string>, reverse: bool) returns (conditions: seq<seq<string>>)
    ensures conditions == Conditions(Kept(words), reverse)
  {
    conditions := [];
    var n := 0;
    while n < |words|
      invariant 0 <= n <= |words|
      invariant conditions == Conditions(Kept(words[..n]), reverse)
    {
      var word := words[n];
      ConditionsStep(words, n, reverse);
      if !IgnoredWord(word) {
        ghost var kept := Kept(words[..n]);
        var next: seq<string>;
        if conditions == [] {
          next := [word];
        } else {
          var last := conditions[|conditions| - 1];
          assert last == Condition(kept, |kept| - 1, reverse);
          next := if reverse then [word] + last else last + [word];
        }
        assert next == NextCondition(kept, word, reverse);
        conditions := conditions + [next];
      }
      n := n + 1;
    }
    assert words[..n] == words;
  }

  /** The patterns joined into one alternation, longest first. */
  method JoinConditions(conditions: seq<seq<string>>) returns (conditionName: string)
    ensures conditionName == Alternation(conditions)
  {
    conditionName := "";
    var j := 0;
    while j < |conditions|
      invariant 0 <= j <= |conditions|
      invariant conditionName == Alternation(conditions[..j])
      invariant j > 0 ==> conditionName != ""
    {
      var condition := Implode(conditions[j], " +");
      assert conditions[..j + 1][..j] == conditions[..j];
      if conditionName == "" {
        conditionName := "^" + condition;
      } else {
        conditionName := "^" + condition + "|" + conditionName;
      }
      j := j + 1;
    }
    assert conditions[..j] == conditions;
  }

  /** The closure in getRegNameCondition: growing patterns, then one alternation. */
  method NameCondition(words: seq<string>, reverse: bool) returns (conditionName: string)
    ensures conditionName == Alternation(Conditions(Kept(words), reverse))
  {
    var conditions := GrowConditions(words, reverse);
    conditionName := JoinConditions(conditions);
  }

  /** The words getRegNameCondition splits the name into. */
  function NameWords(advisorName: string): seq<string>
  {
    Explode(Trim(KeepNameChars(advisorName)), " ")
  }

  /**
   * getRegNameCondition: the first-name pattern grows from the first word, the last-name
   * pattern grows leftwards from the last word.
   */
  method RegNameCondition(advisorName: string) returns (firstName: string, lastName: string)
    ensures firstName == Alternation(Conditions(Kept(NameWords(advisorName)), false))
    ensures lastName == Alternation(Conditions(Reverse(Kept(NameWords(advisorName))), true))
  {
    var words := NameWords(advisorName);
    firstName := NameCondition(words, false);
    lastName := NameCondition(Reverse(words), true);
    KeptReverse(words);
  }

  /** The i-th last-name pattern is the last i+1 kept words, in their original order. */
  lemma LastNamePatternsAreSuffixes(kept: seq<string>, i: nat)
    requires i < |kept|
    ensures Condition(Reverse(kept), i, true) == kept[|kept| - 1 - i..]
  {
    var r := Reverse(kept);
    var a := Reverse(r[..i + 1]);
    assert Condition(r, i, true) == a;
    ReversedPrefix(r, i, a);
    SuffixOfReversed(kept, r, a, i);
  }

  /** The reversal of the first i+1 elements reads them backwards. */
  lemma ReversedPrefix(r: seq<string>, i: nat, a: seq<string>)
    requires i < |r| && a == Reverse(r[..i + 1])
    ensures |a| == i + 1 && forall j :: 0 <= j <= i ==> a[j] == r[i - j]
  {
    var p := r[..i + 1];
    forall j | 0 <= j <= i
      ensures a[j] == r[i - j]
    {
      assert a[j] == p[i - j];
    }
  }

  /** Reading the first i+1 elements of a reversal backwards gives the last i+1 elements. */
  lemma SuffixOfReversed(kept: seq<string>, r: seq<string>, a: seq<string>, i: nat)
    requires i < |kept| == |r| && forall k :: 0 <= k < |r| ==> r[k] == kept[|kept| - 1 - k]
    requires |a| == i + 1 && forall j :: 0 <= j <= i ==> a[j] == r[i - j]
    ensures a == kept[|kept| - 1 - i..]
  {
    var b := kept[|kept| - 1 - i..];
    forall j | 0 <= j <= i ensures a[j] == b[j] {
      assert a[j] == r[i - j];
    }
  }
}
