// The licence / errors-and-omissions (E&O) gate (EOLicenseChecker).
//
// Which checks apply depends on the transaction or deal type; the checks themselves are run by
// an external checker (ForbidDealChecker), which is not part of this model and is given as the
// function `run(userId, checks, stateId)`. The checker's three flags are distinct single bits;
// their numeric values live in ForbidDealChecker and are chosen symbolically here.

module Compliance {
  import opened Wrappers
  import opened Domain

  /** ForbidDealChecker::CURRENT_ALLOW */
  const CurrentAllow: nat := 1
  /** ForbidDealChecker::EXPIRED_LESS_YEAR_ALLOW */
  const ExpiredLessYearAllow: nat := 2
  /** ForbidDealChecker::EXPIRED_MORE_YEAR_NEGATIVE_ALLOW */
  const ExpiredMoreYearNegativeAllow: nat := 4
  /** EXPIRED_LESS_YEAR_ALLOW | EXPIRED_MORE_YEAR_NEGATIVE_ALLOW (distinct bits, so a sum) */
  const ExpiredAnyAllow: nat := ExpiredLessYearAllow + ExpiredMoreYearNegativeAllow

  /** The types the checker knows: two virtgate transaction types and the deal classes. */
  datatype CheckType = FirstYear | ServiceFee | OfDeal(kind: DealKind) | Trail | Segregated | MutualFund | Dsc

  /** The external checker and the `enable_import_forbid_check` setting (default on). */
  datatype Gate = Gate(enabled: bool, run: (nat, nat, nat) -> bool)

  /** checksByType: the bitmask for a type, None for a type that is not listed. */
  function ChecksByType(t: CheckType): (m: Option<nat>)
    ensures m.Some? ==> m.value in {CurrentAllow, ExpiredAnyAllow, ExpiredMoreYearNegativeAllow}
    ensures t == OfDeal(Insurance) ==> m == Some(CurrentAllow)
    ensures t == OfDeal(Renewal) ==> m == Some(ExpiredAnyAllow)
  {
    match t
    case FirstYear => Some(ExpiredMoreYearNegativeAllow)
    case ServiceFee => Some(ExpiredAnyAllow)
    case OfDeal(k) =>
      if k == Insurance then Some(CurrentAllow)
      else if k == Renewal then Some(ExpiredAnyAllow)
      else None
    case Trail => Some(ExpiredAnyAllow)
    case Segregated => Some(ExpiredMoreYearNegativeAllow)
    case MutualFund => Some(CurrentAllow)
    case Dsc => Some(CurrentAllow)
  }

  /** getChecksForType: 0 when the type is not listed or the gate is switched off. */
  function ChecksForType(t: CheckType, enabled: bool): (c: nat)
    ensures c == 0 <==> !enabled || ChecksByType(t).None?
    ensures c != 0 ==> Some(c) == ChecksByType(t)
  {
    if !enabled || ChecksByType(t).None? then 0 else ChecksByType(t).value
  }

  /** The explanations for the three allowances, most lenient first. */
  const ExpiredMoreYearText := "Agent's License expired more than year ago but Agent does not have a negative report."
  const ExpiredAnyText := "Agent's License or E&O has expired more than 1 year ago and Agent does not have a negative report."
  const CurrentText := "The Agent doesn't currently have valid License or E&O"

  /** getWithoutEoOrLicenseExplanation */
  function WithoutEoOrLicenseExplanation(t: CheckType, enabled: bool): (e: string)
    ensures e == "" <==> ChecksForType(t, enabled) == 0
    ensures ChecksForType(t, enabled) == CurrentAllow ==> e == CurrentText
  {
    var checks := ChecksForType(t, enabled);
    if checks == 0 then ""
    else if checks == ExpiredMoreYearNegativeAllow then ExpiredMoreYearText
    else if checks == ExpiredAnyAllow then ExpiredAnyText
    else if checks == CurrentAllow then CurrentText
    else ""
  }

  /**
   * EOLicenseChecker::check, as a value. With no checks for the type the agent passes; with a
   * share agent both must pass, or either when `checkForBoth` is set; otherwise the agent's
   * own result decides. Ids and state ids of 0 stand for null.
   */
  function Passes(g: Gate, t: CheckType, userId: nat, shareAdvisorId: nat, stateId: nat, checkForBoth: bool): (ok: bool)
    ensures ChecksForType(t, g.enabled) == 0 ==> ok
    ensures ChecksForType(t, g.enabled) != 0 && shareAdvisorId == 0 ==>
              ok == g.run(userId, ChecksForType(t, g.enabled), stateId)
  {
    var checks := ChecksForType(t, g.enabled);
    if checks == 0 then true
    else
      var own := g.run(userId, checks, stateId);
      if shareAdvisorId != 0 then
        var share := g.run(shareAdvisorId, checks, stateId);
        if checkForBoth then own || share else own && share
      else own
  }

  /** Asking for either agent to pass is never stricter than asking for both. */
  lemma CheckForBothIsWeaker(g: Gate, t: CheckType, userId: nat, shareAdvisorId: nat, stateId: nat)
    ensures Passes(g, t, userId, shareAdvisorId, stateId, false) ==> Passes(g, t, userId, shareAdvisorId, stateId, true)
  {
  }

  /** A shared deal passes the strict check exactly when both agents pass on their own. */
  lemma SharedNeedsBoth(g: Gate, t: CheckType, userId: nat, shareAdvisorId: nat, stateId: nat)
    requires shareAdvisorId != 0
    ensures Passes(g, t, userId, shareAdvisorId, stateId, false) <==>
              Passes(g, t, userId, 0, stateId, false) && Passes(g, t, shareAdvisorId, 0, stateId, false)
  {
  }

  /** Every listed type has an explanation for an agent that fails the gate. */
  lemma ListedTypesExplained(t: CheckType)
    requires ChecksByType(t).Some?
    ensures WithoutEoOrLicenseExplanation(t, true) != ""
  {
  }

  /** The keys of the checker's static memo. */
  datatype MemoKey =
    | Composite(userId: nat, t: CheckType, stateId: nat)   // 'userId:%u-type:%s-stateId:%u'
    | Raw(id: nat)                                        // a bare id, as the lookup tests it

  /**
   * The static memo of EOLicenseChecker. Entries are stored under the composite key but the
   * lookup tests the bare user id, which is never a key, so every call runs the checker again.
   */
  class CheckerMemo {
    var memo: map<MemoKey, bool>

    ghost predicate Valid(g: Gate)
      reads this
    {
      forall k :: k in memo ==>
        k.Composite? && memo[k] == g.run(k.userId, ChecksForType(k.t, g.enabled), k.stateId)
    }

    constructor ()
      ensures memo == map[]
    {
      memo := map[];
    }

    /** check(): the memo never changes the answer a fresh evaluation gives. */
    method Check(g: Gate, t: CheckType, userId: nat, shareAdvisorId: nat, stateId: nat, checkForBoth: bool)
      returns (ok: bool)
      requires Valid(g)
      modifies this
      ensures Valid(g)
      ensures ok == Passes(g, t, userId, shareAdvisorId, stateId, checkForBoth)
      ensures old(memo).Keys <= memo.Keys
    {
      var checks := ChecksForType(t, g.enabled);
      if checks == 0 {
        return true;
      }
      var userKey := Composite(userId, t, stateId);
      if Raw(userId) !in memo {
        memo := memo[userKey := g.run(userId, checks, stateId)];
      }
      var shareUserKey := Composite(shareAdvisorId, t, stateId);
      if shareAdvisorId != 0 && Raw(shareAdvisorId) !in memo {
        memo := memo[shareUserKey := g.run(shareAdvisorId, checks, stateId)];
      }
      if checkForBoth && shareAdvisorId != 0 {
        return memo[userKey] || memo[shareUserKey];
      }
      if shareAdvisorId != 0 {
        ok := memo[userKey] && memo[shareUserKey];
      } else {
        ok := memo[userKey];
      }
    }
  }
}
