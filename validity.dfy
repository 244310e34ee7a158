/**
 * The validity window of a group's rebates: the rebate a group offers now
 * is its first rebate, in the default order (most recent `ValidFrom`
 * first), whose window strictly contains the current time.
 */
module RebateValidity {
  import opened RebateTypes

  /** The query's filter: the rebate belongs to the group and `ValidFrom < now < ValidUntil`. */
  predicate ValidAt(rebate: Rebate, groupId: GroupId, now: int)
  {
    rebate.groupId == groupId && rebate.validFrom < now && now < rebate.validUntil
  }

  /**
   * The first qualifying rebate under the default sort `ValidFrom DESC`;
   * rebates with the same `ValidFrom` keep their order in `rebates` (the
   * table order). None when no rebate qualifies.
   */
  function ValidCustomerRebate(rebates: seq<Rebate>, groupId: GroupId, now: int): (r: Option<Rebate>)
    ensures r.Some? ==> r.value in rebates && ValidAt(r.value, groupId, now)
    ensures r.Some? ==> forall j :: 0 <= j < |rebates| && ValidAt(rebates[j], groupId, now) ==>
      rebates[j].validFrom <= r.value.validFrom
    ensures r.None? <==> forall j :: 0 <= j < |rebates| ==> !ValidAt(rebates[j], groupId, now)
  {
    if rebates == [] then None
    else
      var rest := ValidCustomerRebate(rebates[1..], groupId, now);
      assert forall j :: 1 <= j < |rebates| ==> rebates[j] == rebates[1..][j - 1];
      if ValidAt(rebates[0], groupId, now) && (rest.None? || rest.value.validFrom <= rebates[0].validFrom)
      then Some(rebates[0])
      else rest
  }

  /** `hasValidCustomerRebate`: the group has a rebate whose window contains `now`. */
  predicate HasValidCustomerRebate(rebates: seq<Rebate>, groupId: GroupId, now: int)
    ensures HasValidCustomerRebate(rebates, groupId, now) <==>
      exists j :: 0 <= j < |rebates| && ValidAt(rebates[j], groupId, now)
  {
    ValidCustomerRebate(rebates, groupId, now).Some?
  }

  /**
   * Among qualifying rebates with the greatest `ValidFrom`, the result is the
   * first in table order: every qualifying rebate before it started strictly earlier.
   */
  lemma {:induction false} ValidCustomerRebateIsFirst(rebates: seq<Rebate>, groupId: GroupId, now: int)
    requires ValidCustomerRebate(rebates, groupId, now).Some?
    ensures exists k ::
      && 0 <= k < |rebates| && rebates[k] == ValidCustomerRebate(rebates, groupId, now).value
      && (forall j :: 0 <= j < k && ValidAt(rebates[j], groupId, now) ==>
            rebates[j].validFrom < ValidCustomerRebate(rebates, groupId, now).value.validFrom)
  {
    var r := ValidCustomerRebate(rebates, groupId, now).value;
    var rest := ValidCustomerRebate(rebates[1..], groupId, now);
    if ValidAt(rebates[0], groupId, now) && (rest.None? || rest.value.validFrom <= rebates[0].validFrom) {
      assert rebates[0] == r;
    } else {
      ValidCustomerRebateIsFirst(rebates[1..], groupId, now);
      var k :| 0 <= k < |rebates[1..]| && rebates[1..][k] == r
        && (forall j :: 0 <= j < k && ValidAt(rebates[1..][j], groupId, now) ==> rebates[1..][j].validFrom < r.validFrom);
      assert rebates[k + 1] == r;
      forall j | 0 <= j < k + 1 && ValidAt(rebates[j], groupId, now)
        ensures rebates[j].validFrom < r.validFrom
      {
        if j > 0 {
          assert rebates[j] == rebates[1..][j - 1];
        }
      }
    }
  }
}
