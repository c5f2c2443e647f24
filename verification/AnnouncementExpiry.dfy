// The timer that takes an expired announcement off the menu page. A browser timer cannot
// wait longer than a signed 32-bit number of milliseconds, so a long wait is re-armed.
module AnnouncementExpiry {
  import opened Prelude

  const LONGEST_DELAY := 2_147_483_647

  datatype Action = Nothing | Close | Arm(delay: int)

  // What one call of the scheduling function does at a given time.
  function Schedule(endsAt: Option<int>, now: int): Action {
    if endsAt.None? then Nothing
    else
      var remaining := endsAt.value - now;
      if remaining <= 0 then Close else Arm(if remaining < LONGEST_DELAY then remaining else LONGEST_DELAY)
  }

  // ---- What a browser makes of a delay: section 8.6 of the HTML Standard ----

  // Conversion to a signed 32-bit integer; a negative timeout counts as zero.
  function HostDelay(delay: int): (wait: nat)
    ensures wait <= LONGEST_DELAY
  {
    var low := delay % 0x1_0000_0000;
    if low <= LONGEST_DELAY then low else 0
  }

  /** Every delay asked for survives the conversion; the full remaining time would survive it
      exactly when it is no longer than the longest delay. */
  lemma DelaysSurvive(end: int, now: int)
    requires now < end
    ensures var delay := Schedule(Some(end), now).delay;
      1 <= delay <= LONGEST_DELAY && HostDelay(delay) == delay && now + delay <= end
    ensures HostDelay(end - now) == end - now <==> end - now <= LONGEST_DELAY
  {
  }

  // ---- The chain of timers ----

  // Each timer fires its delay later, or some lag after that.
  type Lags = nat -> nat

  // The time at which the announcement is closed, when the k-th call is made now.
  function ClosedAt(end: int, now: int, lags: Lags, k: nat): int
    decreases end - now
  {
    match Schedule(Some(end), now)
    case Arm(delay) => ClosedAt(end, now + HostDelay(delay) + lags(k), lags, k + 1)
    case _ => now
  }

  // How many timers are armed until then.
  function Armed(end: int, now: int, lags: Lags, k: nat): nat
    decreases end - now
  {
    match Schedule(Some(end), now)
    case Arm(delay) => 1 + Armed(end, now + HostDelay(delay) + lags(k), lags, k + 1)
    case _ => 0
  }

  /** However far the end and however late the timers: the announcement closes, never before
      its end, and after it by no more than the lag of the last timer. */
  lemma {:induction false} ClosesAfterItsEnd(end: int, now: int, lags: Lags, k: nat)
    ensures ClosedAt(end, now, lags, k) >= end
    ensures now >= end ==> ClosedAt(end, now, lags, k) == now && Armed(end, now, lags, k) == 0
    ensures now < end ==>
              Armed(end, now, lags, k) > 0 &&
              ClosedAt(end, now, lags, k) <= end + lags(k + Armed(end, now, lags, k) - 1)
    decreases end - now
  {
    if now < end {
      DelaysSurvive(end, now);
      var next := now + Schedule(Some(end), now).delay + lags(k);
      ClosesAfterItsEnd(end, next, lags, k + 1);
      assert ClosedAt(end, now, lags, k) == ClosedAt(end, next, lags, k + 1);
      assert Armed(end, now, lags, k) == 1 + Armed(end, next, lags, k + 1);
    }
  }

  /** Lags never cost an extra timer: one is armed for each full longest delay and one for
      the rest at most, and that many when every timer is punctual. */
  lemma {:induction false} TimersNeeded(end: int, now: int, lags: Lags, k: nat)
    requires now <= end
    ensures Armed(end, now, lags, k) <= (end - now + LONGEST_DELAY - 1) / LONGEST_DELAY
    ensures (forall j :: lags(j) == 0) ==>
              Armed(end, now, lags, k) == (end - now + LONGEST_DELAY - 1) / LONGEST_DELAY && ClosedAt(end, now, lags, k) == end
    decreases end - now
  {
    if now < end {
      DelaysSurvive(end, now);
      var delay := Schedule(Some(end), now).delay;
      var next := now + delay + lags(k);
      assert Armed(end, now, lags, k) == 1 + Armed(end, next, lags, k + 1);
      if next <= end {
        TimersNeeded(end, next, lags, k + 1);
        RoundsUp(end - now, end - next);
      } else {
        ClosesAfterItsEnd(end, next, lags, k + 1);
        assert end - now + LONGEST_DELAY - 1 >= LONGEST_DELAY;
      }
    }
  }

  lemma RoundsUp(before: nat, after: nat)
    requires after <= before && before > 0
    requires before - after >= (if before < LONGEST_DELAY then before else LONGEST_DELAY)
    ensures 1 + (after + LONGEST_DELAY - 1) / LONGEST_DELAY <= (before + LONGEST_DELAY - 1) / LONGEST_DELAY
    ensures before - after == (if before < LONGEST_DELAY then before else LONGEST_DELAY) ==>
              1 + (after + LONGEST_DELAY - 1) / LONGEST_DELAY == (before + LONGEST_DELAY - 1) / LONGEST_DELAY
  {
  }

  // ---- The component ----

  class MenuNotice {
    const endsAt: Option<int>
    var active: bool
    var open: bool
    // The time before which the running timer does not fire.
    var expiry: Option<int>

    constructor (endsAt: Option<int>)
      ensures this.endsAt == endsAt && active && open && expiry == None
    {
      this.endsAt := endsAt;
      active, open, expiry := true, true, None;
    }

    // The remaining time is on its way: shown without a running timer, the announcement has no end.
    predicate Timed()
      reads this
    {
      && (endsAt.Some? && (active || open) ==> expiry.Some?)
      && (expiry.Some? ==> endsAt.Some? && expiry.value <= endsAt.value)
    }

    method ScheduleExpiry(now: int)
      requires expiry.None?
      modifies this
      ensures Timed()
      ensures match Schedule(endsAt, now) {
        case Nothing => active == old(active) && open == old(open) && expiry == None
        case Close => !active && !open && expiry == None
        case Arm(delay) => active == old(active) && open == old(open) && expiry == Some(now + HostDelay(delay))
      }
    {
      if endsAt.None? { return; }
      var remaining := endsAt.value - now;
      if remaining <= 0 {
        active, open := false, false;
        return;
      }
      var delay := if remaining < LONGEST_DELAY then remaining else LONGEST_DELAY;
      DelaysSurvive(endsAt.value, now);
      expiry := Some(now + HostDelay(delay));
    }

    /** The timer fires, on time or late: the announcement closes exactly when its end has come. */
    method OnTimer(now: int)
      requires Timed() && expiry.Some? && now >= expiry.value
      modifies this
      ensures Timed()
      ensures now >= endsAt.value ==> !active && !open && expiry == None
      ensures now < endsAt.value ==> active == old(active) && open == old(open) && expiry.Some? && now < expiry.value
    {
      expiry := None;
      ScheduleExpiry(now);
      if now < endsAt.value { DelaysSurvive(endsAt.value, now); }
    }

    // The effect is torn down.
    method Stop()
      modifies this
      ensures active == old(active) && open == old(open) && expiry == None
    {
      expiry := None;
    }
  }
}
