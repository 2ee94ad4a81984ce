/**
 * The per-category notification cooldown of `sendNotification`, shared by
 * both controllers. The category's timestamp is overwritten with `now`
 * BEFORE the cooldown is tested, so a suppressed attempt still restarts
 * the window.
 */
module Cooldown {

  /** `notificationCooldown`: 30 seconds between notifications, in milliseconds. */
  const NotificationCooldown: int := 30000

  /** The `type` argument of `sendNotification`. */
  datatype Category = Shoulder | Neck | Head | Mouth

  /** One attempted notification and whether the gate let it through. */
  datatype Attempt = Attempt(category: Category, fired: bool)

  /** The category's next timestamp, and whether a notification is shown. */
  datatype GateOutcome = GateOutcome(last: int, fired: bool)

  /**
   * One call for a category whose stored timestamp is `last`. Without
   * permission nothing changes; with it the timestamp becomes `now` and the
   * notification is shown iff at least the cooldown has passed since `last`.
   */
  function Gate(granted: bool, last: int, now: int): (r: GateOutcome)
    ensures !granted ==> r.last == last && !r.fired
    ensures granted ==> r.last == now
    ensures r.fired <==> granted && now - last >= NotificationCooldown
  {
    if !granted then GateOutcome(last, false)
    else GateOutcome(now, now - last >= NotificationCooldown)
  }

  /** Number of notifications shown by a series of permitted calls at the given times. */
  function FiredCount(last: int, calls: seq<int>): nat
    decreases |calls|
  {
    if calls == [] then 0
    else
      var g := Gate(true, last, calls[0]);
      (if g.fired then 1 else 0) + FiredCount(g.last, calls[1..])
  }

  /** Consecutive calls are less than a cooldown apart. */
  predicate SteadyCalls(calls: seq<int>) {
    forall i :: 0 < i < |calls| ==> calls[i] - calls[i - 1] < NotificationCooldown
  }

  /** Two permitted calls less than a cooldown apart: the second is suppressed. */
  lemma SecondCallWithinCooldownSuppressed(last: int, t1: int, t2: int)
    requires t2 - t1 < NotificationCooldown
    ensures !Gate(true, Gate(true, last, t1).last, t2).fired
  {
  }

  /** Two permitted calls at least a cooldown apart, the first a cooldown after `last`: both fire. */
  lemma SpacedCallsBothFire(last: int, t1: int, t2: int)
    requires t1 - last >= NotificationCooldown && t2 - t1 >= NotificationCooldown
    ensures Gate(true, last, t1).fired && Gate(true, Gate(true, last, t1).last, t2).fired
  {
  }

  /** A steady series that starts within the cooldown of `last` shows nothing. */
  lemma {:induction false} SteadyCallsWithinCooldownSilent(last: int, calls: seq<int>)
    requires SteadyCalls(calls)
    requires calls != [] ==> calls[0] - last < NotificationCooldown
    ensures FiredCount(last, calls) == 0
    decreases |calls|
  {
    if calls != [] {
      var rest := calls[1..];
      assert SteadyCalls(rest) by {
        forall i | 0 < i < |rest| ensures rest[i] - rest[i - 1] < NotificationCooldown {
          assert rest[i] == calls[i + 1] && rest[i - 1] == calls[i];
        }
      }
      if rest != [] {
        assert rest[0] - calls[0] < NotificationCooldown by {
          assert rest[0] == calls[1];
        }
      }
      SteadyCallsWithinCooldownSilent(calls[0], rest);
    }
  }

  /**
   * However long a condition keeps asking, a series of calls that are each
   * less than a cooldown apart shows at most one notification, at its first
   * call: every suppressed call restarts the window.
   */
  lemma SteadyCallsFireAtMostOnce(last: int, calls: seq<int>)
    requires SteadyCalls(calls)
    ensures FiredCount(last, calls) <= 1
    ensures calls != [] ==> (FiredCount(last, calls) == 1 <==> calls[0] - last >= NotificationCooldown)
  {
    if calls != [] {
      var rest := calls[1..];
      assert SteadyCalls(rest) by {
        forall i | 0 < i < |rest| ensures rest[i] - rest[i - 1] < NotificationCooldown {
          assert rest[i] == calls[i + 1] && rest[i - 1] == calls[i];
        }
      }
      if rest != [] {
        assert rest[0] == calls[1];
      }
      SteadyCallsWithinCooldownSilent(calls[0], rest);
    }
  }
}
