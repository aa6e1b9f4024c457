/**
 What a reconcile of a cron backup decides, in terms of the instants of the schedule: when it keeps still, when a
 backup is created and recorded, and what its requeue delay aims at.
 */
module CronDecisions {
  import opened CronSchedule
  import opened CronRuns

  // ------------------------------------------------------------------ keeping still

  /** A paused cron backup creates nothing, keeps its status and is not looked at again. */
  lemma PausedDoesNothing(c: Cron, st: Status, backups: Backups, i: Input)
    requires Advances(c.next) && i.paused
    ensures Synced(c, st, backups, i) == Outcome(st, backups, None, false)
  {
  }

  ghost predicate AllPaused(run: seq<Step>) {
    forall s :: s in run && s.Reconciled? ==> s.input.paused
  }

  /** The status is the same, and no backup has come. */
  ghost predicate NoneCreated(w: World, w': World) {
    w'.status == w.status && w'.created == w.created && forall n :: n in w'.backups ==> n in w.backups
  }

  /** As long as it is paused nothing is created, whatever is removed, completed or lost meanwhile. */
  lemma {:induction false} PausedRunsCreateNothing(c: Cron, w: World, run: seq<Step>)
    requires Advances(c.next) && AllPaused(run)
    ensures NoneCreated(w, After(c, w, run))
    decreases |run|
  {
    if run != [] {
      assert run[0] in run;
      PausedStepCreatesNothing(c, w, run[0]);
      PausedRunsCreateNothing(c, Next(c, w, run[0]), run[1..]);
    }
  }

  lemma PausedStepCreatesNothing(c: Cron, w: World, s: Step)
    requires Advances(c.next) && (s.Reconciled? ==> s.input.paused)
    ensures NoneCreated(w, Next(c, w, s))
  {
  }

  /** The last backup cannot be asked for, or exists and is neither completed nor failed. */
  predicate Hindered(st: Status, backups: Backups, i: Input) {
    st.lastBackup.Some? && (i.getFails || (st.lastBackup.value in backups && !backups[st.lastBackup.value]))
  }

  /** While the last backup runs, or is not known, nothing is created or recorded, and the reconcile fails. */
  lemma HinderedChangesNothing(c: Cron, st: Status, backups: Backups, i: Input)
    requires Advances(c.next) && !i.paused && Hindered(st, backups, i)
    ensures Synced(c, st, backups, i) == Outcome(st, backups, None, true)
  {
  }

  // ------------------------------------------------------------------ what is created and recorded

  /** With nothing due an unhindered reconcile changes nothing and comes back after a delay. */
  lemma NothingDue(c: Cron, instants: iset<Time>, w: World, i: Input)
    requires Exact(c, instants) && Finds(c, instants) && Consistent(c, instants, w) && i.now >= w.now
    requires !i.paused && !Hindered(w.status, w.backups, i) && !Due(instants, Earliest(c, w.status), i.now)
    ensures
      var o := Synced(c, w.status, w.backups, i);
      o.status == w.status && o.backups == w.backups && !o.failed && o.delay.Some?
  {
    RecentIsLatest(c, instants, w, i.now);
  }

  /** What is picked is the latest instant due, if any. */
  lemma RecentIsLatest(c: Cron, instants: iset<Time>, w: World, now: Time)
    requires Exact(c, instants) && Finds(c, instants) && Consistent(c, instants, w)
    ensures
      var e := Earliest(c, w.status);
      var r := MostRecent(c.next, e, now);
      r.Recent? && (r.time.Some? <==> Due(instants, e, now)) && forall t :: IsLatest(instants, e, now, t) ==> r.time == Some(t)
  {
    var e := Earliest(c, w.status);
    assert e in instants || e == c.born;
    var r := MostRecent(c.next, e, now);
    assert r.Recent? && (r.time.Some? ==> IsLatest(instants, e, now, r.time.value));
  }

  /**
   With `t` the latest instant due, an unhindered reconcile creates the one backup named after it, unless the
   creation is refused or the backup exists; it records the instant and the backup exactly if it learns of no error.
   */
  lemma DueIsCreated(c: Cron, instants: iset<Time>, w: World, i: Input, t: Time)
    requires Exact(c, instants) && Finds(c, instants) && Consistent(c, instants, w) && i.now >= w.now
    requires !i.paused && !Hindered(w.status, w.backups, i) && IsLatest(instants, Earliest(c, w.status), i.now, t)
    ensures
      var o := Synced(c, w.status, w.backups, i);
      var known := BackupName(t) in w.backups;
      && (i.create.Refused? || known ==> o.backups == w.backups)
      && (!i.create.Refused? && !known ==> o.backups == w.backups[BackupName(t) := false])
      && (o.failed <==> i.create.Refused? || (i.create.Unseen? && !known))
      && (o.failed ==> o.status == w.status && o.delay == None)
      && (!o.failed ==> o.status == Status(Some(t), Some(BackupName(t))) && o.delay.Some?)
  {
    RecentIsLatest(c, instants, w, i.now);
  }

  // ------------------------------------------------------------------ the requeue delay

  /** The next instant is the least one that is later. */
  ghost predicate Least(c: Cron, instants: iset<Time>) {
    forall e, u :: (e in instants || e == c.born) && u in instants && e < u ==> c.next(e) <= u
  }

  lemma CronExpressionIsLeast(c: Cron, instants: iset<Time>)
    requires PicksFrom(c.next, instants)
    ensures Least(c, instants)
  {
  }

  lemma ConstantIntervalIsLeast(c: Cron, interval: nat)
    requires Steady(c.next, interval)
    ensures Least(c, Ticks(c, interval))
  {
    forall e, u | (e in Ticks(c, interval) || e == c.born) && u in Ticks(c, interval) && e < u
      ensures c.next(e) <= u
    {
      if e == c.born {
        var j: nat :| u == Tick(c, interval, j);
        Scale(j, 0, interval);
      } else {
        NextTick(c, interval, e);
      }
    }
  }

  /** The least instant after `now`. */
  ghost predicate IsNextInstant(instants: iset<Time>, now: Time, t: Time) {
    t in instants && now < t && forall u :: u in instants && now < u ==> t <= u
  }

  /** The delay ends a little after the next instant. */
  ghost predicate AimsAt(instants: iset<Time>, delay: Option<int>, now: Time) {
    delay.Some? && IsNextInstant(instants, now, now + delay.value - NEXT_SCHEDULE_DELTA)
  }

  /** An unhindered reconcile comes back just after the least instant to come: none is passed over, and none waited for in vain. */
  lemma DelayAimsAtNextInstant(c: Cron, instants: iset<Time>, w: World, i: Input)
    requires Exact(c, instants) && Finds(c, instants) && Least(c, instants) && Consistent(c, instants, w)
    requires i.now >= w.now >= c.born && !i.paused && !Hindered(w.status, w.backups, i) && i.create.Accepted?
    ensures AimsAt(instants, Synced(c, w.status, w.backups, i).delay, i.now)
  {
    var e := Earliest(c, w.status);
    assert e in instants || e == c.born;
    RecentIsLatest(c, instants, w, i.now);
    var r := MostRecent(c.next, e, i.now);
    assert r.Recent? && (r.time.Some? ==> IsLatest(instants, e, i.now, r.time.value));
    AimsAtNext(c, instants, Synced(c, w.status, w.backups, i), i.now);
  }

  /** The delay is counted from the last recorded instant, after which nothing is due. */
  ghost predicate FromLast(c: Cron, instants: iset<Time>, o: Outcome, now: Time)
    requires Advances(c.next)
  {
    var last := Earliest(c, o.status);
    && (last in instants || last == c.born) && last <= now && !Due(instants, last, now)
    && o.delay == Some(NextDelay(c.next, last, now))
  }

  lemma AimsAtNext(c: Cron, instants: iset<Time>, o: Outcome, now: Time)
    requires Exact(c, instants) && Finds(c, instants) && Least(c, instants) && FromLast(c, instants, o, now)
    ensures AimsAt(instants, o.delay, now)
  {
    var last := Earliest(c, o.status);
    NothingDueWaits(c, instants, last, now);
    assert c.next(last) in instants;
  }

  /** With a constant interval the count of missed instants is exact: the warning comes with the hundred-and-first. */
  lemma TooManyMissedIff(next: Schedule, interval: nat, earliest: Time, now: Time)
    requires Steady(next, interval)
    ensures MostRecent(next, earliest, now).Recent?
    ensures MostRecent(next, earliest, now).tooManyMissed <==> next(earliest) + 100 * interval <= now
  {
    var t1 := next(earliest);
    assert next(t1) == t1 + interval;
    if t1 + interval <= now {
      assert interval == RoundToSeconds(interval) * SECOND;
      ManyMissed(now - t1, RoundToSeconds(interval), interval);
    }
  }

  lemma ManyMissed(elapsed: nat, between: nat, interval: nat)
    requires between > 0 && interval == between * SECOND && elapsed >= interval
    ensures elapsed / SECOND / between + 1 > 100 <==> 100 * interval <= elapsed
  {
    JumpQuotient(elapsed, between);
    DivisionBounds(elapsed, interval);
    Reached(elapsed / interval, interval, elapsed);
  }

  lemma Reached(q: nat, interval: nat, elapsed: nat)
    requires q * interval <= elapsed < (q + 1) * interval
    ensures q >= 100 <==> 100 * interval <= elapsed
  {
    Scale(100, q, interval);
    Scale(q + 1, 100, interval);
  }
}
