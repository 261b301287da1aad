// Policy-number comparison between a statement line and a ledger deal (DealQueryHelper).
// A statement policy number is tried in up to five spellings: as is, without a trailing
// "(C)" or "(P)" marker, and without a leading "012-" or "101-" prefix.

module PolicyNumbers {
  import opened Text

  /** preg_replace("/<m>$/", "", s): `$` also matches just before a final newline. */
  function StripSuffix(s: string, m: string): (r: string)
    ensures |r| <= |s|
  {
    if |s| >= |m| && s[|s| - |m|..] == m then s[..|s| - |m|]
    else if |s| >= |m| + 1 && s[|s| - 1] == '\n' && s[|s| - 1 - |m|..|s| - 1] == m
    then s[..|s| - 1 - |m|] + "\n"
    else s
  }

  /** preg_replace("/^<m>/", "", s) */
  function StripPrefix(s: string, m: string): (r: string)
    ensures |r| <= |s|
  {
    if |s| >= |m| && s[..|m|] == m then s[|m|..] else s
  }

  /** The five spellings, before duplicates are dropped. */
  function Spellings(p: string): seq<string>
  {
    [Trim(p),
     Trim(StripSuffix(p, "(C)")),
     Trim(StripSuffix(p, "(P)")),
     Trim(StripPrefix(p, "012-")),
     Trim(StripPrefix(p, "101-"))]
  }

  /** getAvailablePolicyNumbers: the distinct spellings, first occurrences first. */
  function AvailablePolicyNumbers(p: string): (vs: seq<string>)
    ensures forall v :: v in vs <==> v in Spellings(p)
    ensures forall i, j :: 0 <= i < j < |vs| ==> vs[i] != vs[j]
    ensures 1 <= |vs| <= 5 && vs[0] == Trim(p)
  {
    var vs := Unique(Spellings(p));
    UniqueLength(Spellings(p));
    UniqueHead(Spellings(p));
    vs
  }

  lemma {:induction false} UniqueLength(xs: seq<string>)
    ensures |Unique(xs)| <= |xs|
  {
    if |xs| > 0 {
      UniqueLength(xs[..|xs| - 1]);
    }
  }

  lemma {:induction false} UniqueHead(xs: seq<string>)
    requires |xs| > 0
    ensures Unique(xs)[0] == xs[0]
  {
    if |xs| > 1 {
      UniqueHead(xs[..|xs| - 1]);
    }
  }

  /** One spelling occurs, case-insensitively, in the ledger policy. */
  predicate SpellingFound(v: string, dealPolicy: string)
  {
    Contains(ToLower(dealPolicy), ToLower(v))
  }

  /** What comparePolicyNumber decides. */
  predicate PolicyMatches(parsedPolicy: string, dealPolicy: string)
  {
    Truthy(parsedPolicy) && Truthy(dealPolicy) &&
    exists v | v in AvailablePolicyNumbers(parsedPolicy) :: SpellingFound(v, dealPolicy)
  }

  /**
   * comparePolicyNumber: false when either policy is falsy; otherwise the flag is raised by
   * every spelling found in the ledger policy.
   */
  method ComparePolicyNumber(parsedPolicy: string, dealPolicy: string) returns (policyCheck: bool)
    ensures policyCheck <==> PolicyMatches(parsedPolicy, dealPolicy)
    ensures policyCheck ==> exists k :: 0 <= k < 5 && SpellingFound(Spellings(parsedPolicy)[k], dealPolicy)
  {
    if !Truthy(parsedPolicy) || !Truthy(dealPolicy) {
      return false;
    }
    var vs := AvailablePolicyNumbers(parsedPolicy);
    policyCheck := false;
    var i := 0;
    while i < |vs|
      invariant 0 <= i <= |vs|
      invariant policyCheck <==> exists j :: 0 <= j < i && SpellingFound(vs[j], dealPolicy)
    {
      if SpellingFound(vs[i], dealPolicy) {
        policyCheck := true;
      }
      i := i + 1;
    }
    if policyCheck {
      var j :| 0 <= j < |vs| && SpellingFound(vs[j], dealPolicy);
      assert vs[j] in Spellings(parsedPolicy);
    }
  }

  /** Any one spelling found in a truthy ledger policy is enough. */
  lemma FoundSpelling(p: string, d: string, k: int)
    requires Truthy(p) && Truthy(d) && 0 <= k < 5
    requires SpellingFound(Spellings(p)[k], d)
    ensures PolicyMatches(p, d)
  {
    assert Spellings(p)[k] in Spellings(p);
    assert Spellings(p)[k] in AvailablePolicyNumbers(p);
  }

  /** The trimmed policy number occurs in the policy number itself. */
  lemma TrimFound(p: string)
    ensures SpellingFound(Trim(p), p)
  {
    var v := Trim(p);
    var i :| 0 <= i <= |p| && At(p, v, i);
    assert At(p, v, i);
    ContainsLower(p, v);
  }

  /** Every truthy policy number matches itself. */
  lemma Reflexive(p: string)
    requires Truthy(p)
    ensures PolicyMatches(p, p)
  {
    TrimFound(p);
    FoundSpelling(p, p, 0);
  }

  /** "0" is falsy in PHP, so it does not match itself. */
  lemma ZeroIsNotReflexive()
    ensures !PolicyMatches("0", "0")
  {
  }

  /** A statement policy carrying a "(C)" marker matches the ledger policy without it. */
  lemma MarkerIgnored(p: string)
    requires Truthy(p)
    ensures PolicyMatches(p + "(C)", p)
  {
    var q := p + "(C)";
    assert q[|q| - 3..] == "(C)" && q[..|q| - 3] == p;
    assert StripSuffix(q, "(C)") == p;
    TrimFound(p);
    FoundSpelling(q, p, 1);
  }

  /** A statement policy carrying a "012-" prefix matches the ledger policy without it. */
  lemma PrefixIgnored(p: string)
    requires Truthy(p)
    ensures PolicyMatches("012-" + p, p)
  {
    var q := "012-" + p;
    assert q[..4] == "012-" && q[4..] == p;
    assert StripPrefix(q, "012-") == p;
    TrimFound(p);
    FoundSpelling(q, p, 3);
  }

  /**
   * A policy number with a spelling that trims to nothing matches every truthy ledger policy:
   * stripos finds the empty needle at position 0.
   */
  lemma BlankSpellingMatchesAll(p: string, d: string)
    requires Truthy(p) && Truthy(d)
    requires "" in AvailablePolicyNumbers(p)
    ensures PolicyMatches(p, d)
  {
    assert At(ToLower(d), ToLower(""), 0);
    assert SpellingFound("", d);
  }

  /** A bare "(C)" marker is such a policy number: stripped of the marker it is blank. */
  lemma MarkerOnlyIsBlank()
    ensures Truthy("(C)") && "" in AvailablePolicyNumbers("(C)")
  {
    var q := "(C)";
    assert q[|q| - 3..] == "(C)";
    BlankTrims(StripSuffix(q, "(C)"));
    SpellingAvailable(q, 1);
  }

  lemma BlankTrims(s: string)
    requires s == ""
    ensures Trim(s) == ""
  {
  }

  lemma SpellingAvailable(p: string, k: int)
    requires 0 <= k < 5
    ensures Spellings(p)[k] in AvailablePolicyNumbers(p)
  {
    assert Spellings(p)[k] in Spellings(p);
  }
}
