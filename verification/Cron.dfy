/** Cron triggers: the catch-up scan and the decision to fire. */
module Cron {
  import opened FlowTypes

  /** A crontab expression: what the library answers lies after t only if it is the first scheduled
      instant after t. When it finds no instant within five years it answers with the zero time. */
  ghost predicate FirstAfter(next: Time -> Time) {
    forall t, u :: t <= u < next(t) ==> next(u) == next(t)
  }

  /** Every answer lies in the future. */
  ghost predicate Advances(next: Time -> Time) {
    forall t :: t < next(t)
  }

  /** The schedules that the library parses: crontab expressions, and `@every`, which always advances but
      has no instants of its own. */
  ghost predicate LibrarySchedule(next: Time -> Time) {
    FirstAfter(next) || Advances(next)
  }

  /** The library finds an instant from everywhere between t and now. */
  ghost predicate FindsNext(next: Time -> Time, t: Time, now: Time) {
    && t < next(t)
    && forall x :: t <= x <= now ==> x < next(x)
  }

  /** The instant is what the library answers to some earlier time. */
  ghost predicate IsAnswer(next: Time -> Time, x: Time) {
    exists t :: t < x && next(t) == x
  }

  ghost predicate Scheduled(next: Time -> Time, x: Time) {
    next(x - 1) == x
  }

  lemma NextIsFirst(next: Time -> Time, t: Time, x: Time)
    requires FirstAfter(next) && t < x && t < next(t)
    ensures Scheduled(next, next(t))
    ensures Scheduled(next, x) ==> next(t) <= x
  {
    assert next(next(t) - 1) == next(t);
    if x < next(t) {
      assert next(x - 1) == next(t);
    }
  }

  /** The instants of a crontab expression are the answers the library can give. */
  lemma AnswersAreScheduled(next: Time -> Time, x: Time)
    requires FirstAfter(next)
    ensures IsAnswer(next, x) <==> Scheduled(next, x)
  {
    if Scheduled(next, x) {
      assert x - 1 < x && next(x - 1) == x;
    }
  }

  /** Where the scan starts: a day ago, or the last fire if that is later. */
  function Lookback(now: Time, lastFired: Option<Time>): (t: Time) {
    if lastFired.Some? && lastFired.value > now - DAY then lastFired.value else now - DAY
  }

  /** The last instant the scan from t visits. */
  ghost function LastDue(next: Time -> Time, t: Time, now: Time): (r: Option<Time>)
    requires FindsNext(next, t, now)
    decreases if now > t then now - t else 0
  {
    var n := next(t);
    if n > now then None
    else
      var later := LastDue(next, n, now);
      if later.Some? then later else Some(n)
  }

  /** For any schedule: the scan finds an answer after t and up to now, and nothing exactly when the next
      one is still to come. */
  lemma {:induction false} LastDueInWindow(next: Time -> Time, t: Time, now: Time)
    requires FindsNext(next, t, now)
    ensures var r := LastDue(next, t, now);
            && (r.Some? <==> next(t) <= now)
            && (r.Some? ==> t < r.value <= now && IsAnswer(next, r.value))
    decreases if now > t then now - t else 0
  {
    var n := next(t);
    assert IsAnswer(next, n);
    if n <= now {
      LastDueInWindow(next, n, now);
    }
  }

  /** The scan finds the greatest scheduled instant after t and up to now, and nothing exactly when
      there is none. */
  lemma {:induction false} LastDueIsGreatest(next: Time -> Time, t: Time, now: Time)
    requires FirstAfter(next) && FindsNext(next, t, now)
    ensures var r := LastDue(next, t, now);
            && (r.Some? ==> t < r.value <= now && Scheduled(next, r.value))
            && (forall x :: t < x <= now && Scheduled(next, x) ==> r.Some? && x <= r.value)
    decreases if now > t then now - t else 0
  {
    var n := next(t);
    forall x | t < x ensures Scheduled(next, n) && (Scheduled(next, x) ==> n <= x) {
      NextIsFirst(next, t, x);
    }
    assert t < n;
    if n <= now {
      LastDueIsGreatest(next, n, now);
    }
  }

  // --- Does the scan end? ---------------------------------------------------------------------

  /** Where the scan from t is after n rounds of its loop. */
  function Visited(next: Time -> Time, t: Time, n: nat): (x: Time) {
    if n == 0 then t else next(Visited(next, t, n - 1))
  }

  /** The loop is left in some round. */
  ghost predicate ScanEnds(next: Time -> Time, t: Time, now: Time) {
    exists n: nat :: n > 0 && Visited(next, t, n) > now
  }

  lemma {:induction false} VisitedShift(next: Time -> Time, t: Time, n: nat)
    ensures Visited(next, t, n + 1) == Visited(next, next(t), n)
  {
    if n > 0 {
      VisitedShift(next, t, n - 1);
    }
  }

  lemma {:induction false} FoundScanEnds(next: Time -> Time, t: Time, now: Time) returns (n: nat)
    requires FindsNext(next, t, now)
    ensures n > 0 && Visited(next, t, n) > now
    decreases if now > t then now - t else 0
  {
    if next(t) > now {
      n := 1;
      assert Visited(next, t, 0) == t;
    } else {
      n := FoundScanEnds(next, next(t), now);
      VisitedShift(next, t, n);
      n := n + 1;
    }
  }

  /** The scan never gets past a time from which the library finds no instant. */
  lemma {:induction false} StuckBelow(next: Time -> Time, t: Time, x: Time, n: nat)
    requires FirstAfter(next) && t <= x && next(x) <= x
    ensures Visited(next, t, n) <= x
  {
    if n > 0 {
      StuckBelow(next, t, x, n - 1);
    }
  }

  /** Exactly when the scan ends: the library must find an instant from every time of the window. A
      schedule that can never be met, or not within five years of such a time, keeps it going forever. */
  lemma ScanEndsExactly(next: Time -> Time, t: Time, now: Time)
    requires LibrarySchedule(next) && t <= now
    ensures ScanEnds(next, t, now) <==> FindsNext(next, t, now)
  {
    if FindsNext(next, t, now) {
      var n := FoundScanEnds(next, t, now);
    } else {
      var x :| t <= x <= now && next(x) <= x;
      forall n: nat ensures Visited(next, t, n) <= now {
        StuckBelow(next, t, x, n);
      }
    }
  }

  /** The scan on a schedule that can never be met, such as the 30th of February, goes on forever. */
  lemma NeverMetNeverEnds(zero: Time, t: Time, now: Time)
    requires zero <= t <= now
    ensures var next := (x: Time) => zero; FirstAfter(next) && !ScanEnds(next, t, now)
  {
    var next := (x: Time) => zero;
    assert next(t) <= t;
    ScanEndsExactly(next, t, now);
  }

  method MostRecentSchedule(next: Time -> Time, now: Time, lastFired: Option<Time>) returns (last: Option<Time>)
    requires FindsNext(next, Lookback(now, lastFired), now)
    ensures last == LastDue(next, Lookback(now, lastFired), now)
  {
    var lookback := now - DAY;
    if lastFired.Some? && lastFired.value > lookback {
      lookback := lastFired.value;
    }
    var t := lookback;
    last := None;
    while true
      invariant FindsNext(next, t, now)
      invariant LastDue(next, lookback, now) == if LastDue(next, t, now).Some? then LastDue(next, t, now) else last
      decreases if now > t then now - t else 0
    {
      var n := next(t);
      if n > now {
        break;
      }
      last := Some(n);
      t := n;
    }
  }

  // --- The trigger ----------------------------------------------------------------------------

  datatype CronReason = Active | InvalidCron

  datatype CronStatus = CronStatus(lastFired: Option<Time>, firedCount: nat, nextFire: Option<Time>,
                                   ready: Option<CronReason>)

  /** The scan of a reconcile at the given time ends. */
  ghost predicate Scannable(next: Time -> Time, st: CronStatus, now: Time) {
    FindsNext(next, Lookback(now, st.lastFired), now)
  }

  /** Whether a reconcile at the given time fires. */
  ghost predicate Fires(next: Time -> Time, st: CronStatus, now: Time)
    requires Scannable(next, st, now)
  {
    LastDue(next, Lookback(now, st.lastFired), now).Some?
  }

  /** The status after a reconcile; `dispatched` says whether firing succeeded when it was due. A
      failed dispatch leaves the status as it is. */
  ghost function Reconciled(next: Time -> Time, st: CronStatus, now: Time, dispatched: bool): (r: CronStatus)
    requires Scannable(next, st, now)
  {
    if Fires(next, st, now) then
      if dispatched then CronStatus(Some(now), st.firedCount + 1, Some(next(now)), Some(Active)) else st
    else st.(nextFire := Some(next(now)), ready := Some(Active))
  }

  /** The extra test that the due instant is later than the last fire is implied by the scan. */
  lemma DueIsAfterLastFire(next: Time -> Time, st: CronStatus, now: Time)
    requires Scannable(next, st, now) && Fires(next, st, now) && st.lastFired.Some?
    ensures LastDue(next, Lookback(now, st.lastFired), now).value > st.lastFired.value
  {
    LastDueInWindow(next, Lookback(now, st.lastFired), now);
  }

  class Trigger {
    var status: CronStatus

    constructor (status: CronStatus)
      ensures this.status == status
    {
      this.status := status;
    }

    /** `schedule` is None when the expression is missing or does not parse; `later` is the clock when
        the delay to the next reconcile is computed. */
    method ReconcileCron(schedule: Option<Time -> Time>, now: Time, dispatched: bool, later: Time)
      returns (fired: bool, failed: bool, requeueAfter: Option<Time>)
      requires schedule.Some? ==> Scannable(schedule.value, status, now)
      modifies this
      ensures schedule.None? ==>
                status == old(status).(ready := Some(InvalidCron)) && !fired && !failed && requeueAfter.None?
      ensures schedule.Some? ==>
                && status == Reconciled(schedule.value, old(status), now, dispatched)
                && (fired <==> Fires(schedule.value, old(status), now) && dispatched)
                && (failed <==> Fires(schedule.value, old(status), now) && !dispatched)
                && requeueAfter == if failed then None else Some(schedule.value(now) - later + 1_000_000_000)
    {
      fired, failed, requeueAfter := false, false, None;
      if schedule.None? {
        status := status.(ready := Some(InvalidCron));
        return;
      }
      var next := schedule.value;
      var lastScheduled := MostRecentSchedule(next, now, status.lastFired);
      if lastScheduled.Some? && status.lastFired.Some? {
        DueIsAfterLastFire(next, status, now);
      }
      var shouldFire := lastScheduled.Some? && (status.lastFired.None? || lastScheduled.value > status.lastFired.value);
      if shouldFire {
        if !dispatched {
          failed := true;
          return;
        }
        status := status.(lastFired := Some(now), firedCount := status.firedCount + 1);
        fired := true;
      }
      status := status.(nextFire := Some(next(now)), ready := Some(Active));
      requeueAfter := Some(next(now) - later + NANOS_PER_SECOND);
    }
  }

  /** The requeue delay of a crontab expression ends a second after the next instant; a reconcile at or
      after that instant, and less than a day late, fires. */
  lemma WakeUpFires(next: Time -> Time, st: CronStatus, now: Time, dispatched: bool, wake: Time)
    requires FirstAfter(next) && Scannable(next, st, now) && (st.lastFired.Some? ==> st.lastFired.value <= now)
    requires Scannable(next, Reconciled(next, st, now, dispatched), wake)
    requires now < next(now) <= wake < next(now) + 86_400 * 1_000_000_000
    ensures Fires(next, Reconciled(next, st, now, dispatched), wake)
  {
    var after := Reconciled(next, st, now, dispatched);
    assert Scheduled(next, next(now)) by { NextIsFirst(next, now, next(now)); }
    LastDueIsGreatest(next, Lookback(wake, after.lastFired), wake);
  }

  /** What a reconcile records: the next answer of the library after now, which for a crontab expression is
      its first instant after now; the fire, if there is one; and nothing when dispatching fails. */
  lemma ReconcileRecords(next: Time -> Time, st: CronStatus, now: Time, dispatched: bool)
    requires Scannable(next, st, now) && now < next(now)
    ensures var r := Reconciled(next, st, now, dispatched);
            if Fires(next, st, now) && !dispatched then r == st
            else
              && r.nextFire == Some(next(now)) && r.ready == Some(Active)
              && (FirstAfter(next) ==>
                    Scheduled(next, r.nextFire.value)
                    && forall x :: now < x < r.nextFire.value ==> !Scheduled(next, x))
              && (if Fires(next, st, now) then r.lastFired == Some(now) && r.firedCount == st.firedCount + 1
                  else r.lastFired == st.lastFired && r.firedCount == st.firedCount)
  {
    if FirstAfter(next) {
      NextIsFirst(next, now, next(now));
      forall x | now < x < next(now) ensures !Scheduled(next, x) {
        NextIsFirst(next, now, x);
      }
    }
  }

  // --- Runs -----------------------------------------------------------------------------------

  datatype Check = Check(now: Time, dispatched: bool)

  datatype Fire = Fire(at: Time, instant: Time)

  datatype History = History(status: CronStatus, fires: seq<Fire>)

  ghost function After(next: Time -> Time, h: History, c: Check): (r: History)
    requires Advances(next)
  {
    var status := Reconciled(next, h.status, c.now, c.dispatched);
    if Fires(next, h.status, c.now) && c.dispatched
    then History(status, h.fires + [Fire(c.now, LastDue(next, Lookback(c.now, h.status.lastFired), c.now).value)])
    else History(status, h.fires)
  }

  ghost function Run(next: Time -> Time, checks: seq<Check>): (h: History)
    requires Advances(next)
  {
    if checks == [] then History(CronStatus(None, 0, None, None), [])
    else After(next, Run(next, checks[..|checks| - 1]), checks[|checks| - 1])
  }

  /** Each fire answers an instant that the library named, after the previous fire and at most a day ago. */
  ghost predicate FiresOk(next: Time -> Time, h: History) {
    && h.status.firedCount == |h.fires|
    && (h.status.lastFired == if h.fires == [] then None else Some(h.fires[|h.fires| - 1].at))
    && (forall k :: 0 <= k < |h.fires| ==>
          && IsAnswer(next, h.fires[k].instant)
          && h.fires[k].at - 86_400 * 1_000_000_000 < h.fires[k].instant <= h.fires[k].at
          && (k > 0 ==> h.fires[k - 1].at < h.fires[k].instant))
  }

  lemma CheckKeepsFiresOk(next: Time -> Time, h: History, c: Check)
    requires Advances(next) && FiresOk(next, h)
    ensures FiresOk(next, After(next, h, c))
  {
    LastDueInWindow(next, Lookback(c.now, h.status.lastFired), c.now);
    hide IsAnswer, LastDue;
  }

  lemma {:induction false} RunFiresOk(next: Time -> Time, checks: seq<Check>)
    requires Advances(next)
    ensures FiresOk(next, Run(next, checks))
  {
    hide After, FiresOk, Advances;
    if checks == [] {
      NoFiresYet(next);
    } else {
      RunFiresOk(next, checks[..|checks| - 1]);
      CheckKeepsFiresOk(next, Run(next, checks[..|checks| - 1]), checks[|checks| - 1]);
    }
  }

  lemma NoFiresYet(next: Time -> Time)
    ensures FiresOk(next, History(CronStatus(None, 0, None, None), []))
  {
  }

  /** No two fires answer the same instant. */
  lemma {:induction false} FiresAreInjective(next: Time -> Time, checks: seq<Check>, j: nat, k: nat)
    requires Advances(next) && j < k < |Run(next, checks).fires|
    ensures Run(next, checks).fires[j].at < Run(next, checks).fires[k].instant
    ensures Run(next, checks).fires[j].instant < Run(next, checks).fires[k].instant
  {
    RunFiresOk(next, checks);
    if j < k - 1 {
      FiresAreInjective(next, checks, j, k - 1);
    }
  }

  /** After a reconcile whose dispatch, if due, succeeded, every scheduled instant of the last day has
      a fire at or after it. */
  lemma NoInstantIsLeft(next: Time -> Time, checks: seq<Check>, x: Time)
    requires FirstAfter(next) && Advances(next) && checks != [] && checks[|checks| - 1].dispatched
    requires Scheduled(next, x)
    requires checks[|checks| - 1].now - 86_400 * 1_000_000_000 < x <= checks[|checks| - 1].now
    ensures exists k :: 0 <= k < |Run(next, checks).fires| && Run(next, checks).fires[k].at >= x
  {
    hide After, FiresOk, Scheduled, FirstAfter;
    RunFiresOk(next, checks[..|checks| - 1]);
    LastFireCovers(next, Run(next, checks[..|checks| - 1]), checks[|checks| - 1], x);
    var fires := Run(next, checks).fires;
    assert fires[|fires| - 1].at >= x;
  }

  lemma LastFireCovers(next: Time -> Time, h: History, c: Check, x: Time)
    requires FirstAfter(next) && Advances(next) && FiresOk(next, h) && c.dispatched
    requires Scheduled(next, x) && c.now - DAY < x <= c.now
    ensures var fires := After(next, h, c).fires; fires != [] && fires[|fires| - 1].at >= x
  {
    LastDueIsGreatest(next, Lookback(c.now, h.status.lastFired), c.now);
    hide LastDue, IsAnswer, Scheduled, FirstAfter;
  }

  // --- Constant delays ------------------------------------------------------------------------

  /** `@every`: a whole number of seconds after the current second. */
  function Every(seconds: nat): (next: Time -> Time) {
    t => t - t % 1_000_000_000 + seconds * 1_000_000_000
  }

  lemma EveryAdvances(seconds: nat)
    requires seconds > 0
    ensures Advances(Every(seconds))
  {
  }

  /** It is no crontab expression: what comes next depends on when one asks. */
  lemma EveryHasNoInstants(seconds: nat)
    requires seconds > 1
    ensures !FirstAfter(Every(seconds))
  {
    var next := Every(seconds);
    assert 0 <= NANOS_PER_SECOND < next(0) && next(NANOS_PER_SECOND) != next(0);
  }

  /** A delay of more than a day never fires, because the scan looks back no further. */
  lemma LongDelayNeverDue(seconds: nat, st: CronStatus, now: Time)
    requires seconds > 86_400
    ensures Scannable(Every(seconds), st, now) && !Fires(Every(seconds), st, now)
  {
    EveryAdvances(seconds);
    LastDueInWindow(Every(seconds), Lookback(now, st.lastFired), now);
  }

  /** Before the first fire, a reconcile of an `@every` trigger fires exactly when the delay is at most a
      day. */
  lemma EveryFirstFire(seconds: nat, st: CronStatus, now: Time)
    requires seconds > 0 && st.lastFired.None?
    ensures Scannable(Every(seconds), st, now)
    ensures Fires(Every(seconds), st, now) <==> seconds <= 86_400
  {
    EveryAdvances(seconds);
    LastDueInWindow(Every(seconds), Lookback(now, st.lastFired), now);
  }

  /** The reconcile after the requeue delay of an `@every` trigger, however late, fires exactly when the
      delay is at most a day. */
  lemma EveryWakeUp(seconds: nat, st: CronStatus, now: Time, dispatched: bool, wake: Time)
    requires seconds > 0 && (st.lastFired.Some? ==> st.lastFired.value <= now) && Every(seconds)(now) <= wake
    ensures Scannable(Every(seconds), st, now)
    ensures Scannable(Every(seconds), Reconciled(Every(seconds), st, now, dispatched), wake)
    ensures Fires(Every(seconds), Reconciled(Every(seconds), st, now, dispatched), wake) <==>
            seconds <= 86_400
  {
    EveryAdvances(seconds);
    var after := Reconciled(Every(seconds), st, now, dispatched);
    LastDueInWindow(Every(seconds), Lookback(wake, after.lastFired), wake);
  }

  lemma {:induction false} LongDelayNeverFires(seconds: nat, checks: seq<Check>)
    requires seconds > 86_400
    ensures Advances(Every(seconds)) && Run(Every(seconds), checks).fires == []
  {
    EveryAdvances(seconds);
    if checks != [] {
      LongDelayNeverFires(seconds, checks[..|checks| - 1]);
      var last := checks[|checks| - 1];
      LongDelayNeverDue(seconds, Run(Every(seconds), checks[..|checks| - 1]).status, last.now);
    }
  }

  /** A trigger with an `@every` schedule can fire at all if and only if its delay is at most a day. */
  lemma EveryCanFireExactly(seconds: nat)
    requires seconds > 0
    ensures Advances(Every(seconds))
    ensures (exists checks :: Run(Every(seconds), checks).fires != []) <==> seconds <= 86_400
  {
    EveryAdvances(seconds);
    if seconds <= 86_400 {
      var checks := [Check(0, true)];
      assert Run(Every(seconds), checks[..0]) == History(CronStatus(None, 0, None, None), []);
      EveryFirstFire(seconds, CronStatus(None, 0, None, None), 0);
      assert Run(Every(seconds), checks).fires != [];
    } else {
      forall checks: seq<Check> ensures Run(Every(seconds), checks).fires == [] {
        LongDelayNeverFires(seconds, checks);
      }
    }
  }
}
