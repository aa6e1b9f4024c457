/**
 Cron backups over whole runs: reconciles that may lose their status write, answers of the API server that
 may fail after the object was created, backups finishing and being removed in between.
 */
module CronRuns {
  import opened CronSchedule

  /** A backup is named after its scheduled time in whole seconds. */
  type Name = int

  function BackupName(t: Time): Name { t / SECOND }

  datatype Status = Status(lastScheduleTime: Option<Time>, lastBackup: Option<Name>)

  /** How the API server answers a creation; Unseen creates the object and still reports an error. */
  datatype CreateAnswer = Accepted | Refused | Unseen

  datatype Input = Input(paused: bool, now: Time, getFails: bool, create: CreateAnswer)

  /** `backups` are the objects that exist, true once completed or failed. */
  type Backups = map<Name, bool>

  datatype Outcome = Outcome(status: Status, backups: Backups, delay: Option<int>, failed: bool)

  datatype Cron = Cron(next: Schedule, born: Time)

  function Earliest(c: Cron, st: Status): Time {
    if st.lastScheduleTime.Some? then st.lastScheduleTime.value else c.born
  }

  function MayStart(st: Status, backups: Backups, getFails: bool): bool {
    st.lastBackup.None? || (!getFails && (st.lastBackup.value in backups ==> backups[st.lastBackup.value]))
  }

  /** An object of the same name is left alone. */
  function Created(backups: Backups, name: Name, answer: CreateAnswer): Backups {
    if answer.Refused? || name in backups then backups else backups[name := false]
  }

  function CreateFails(backups: Backups, name: Name, answer: CreateAnswer): bool {
    answer.Refused? || (answer.Unseen? && name !in backups)
  }

  /** What one reconcile does to the status in memory and to the backups. */
  function Synced(c: Cron, st: Status, backups: Backups, i: Input): Outcome
    requires Advances(c.next)
  {
    if i.paused then Outcome(st, backups, None, false)
    else if !MayStart(st, backups, i.getFails) then Outcome(st, backups, None, true)
    else
      var recent := MostRecent(c.next, Earliest(c, st), i.now);
      if recent.Invalid? then Outcome(st, backups, None, false)
      else if recent.time.None? then Outcome(st, backups, Some(NextDelay(c.next, Earliest(c, st), i.now)), false)
      else
        var t := recent.time.value;
        var name := BackupName(t);
        if CreateFails(backups, name, i.create) then Outcome(st, Created(backups, name, i.create), None, true)
        else
          Outcome(Status(Some(t), Some(name)), Created(backups, name, i.create), Some(NextDelay(c.next, t, i.now)), false)
  }

  class CronBackupManager {
    const cron: Cron
    var lastScheduleTime: Option<Time>
    var lastBackup: Option<Name>
    var backups: Backups

    constructor (cron: Cron)
      ensures this.cron == cron && CurrentStatus() == Status(None, None) && backups == map[]
    {
      this.cron := cron;
      lastScheduleTime, lastBackup, backups := None, None, map[];
    }

    function CurrentStatus(): Status reads this { Status(lastScheduleTime, lastBackup) }

    method CanPerformNextBackup(getFails: bool) returns (ok: bool)
      ensures ok == MayStart(CurrentStatus(), backups, getFails)
    {
      if lastBackup == None {
        return true;
      }
      if getFails {
        return false;
      }
      if lastBackup.value !in backups {
        return true;
      }
      return backups[lastBackup.value];
    }

    method CreateBackup(timestamp: Time, answer: CreateAnswer) returns (name: Name, failed: bool)
      modifies this`backups
      ensures name == BackupName(timestamp)
      ensures failed == CreateFails(old(backups), name, answer)
      ensures backups == Created(old(backups), name, answer)
    {
      name := BackupName(timestamp);
      if answer.Refused? {
        return name, true;
      }
      if name in backups {
        return name, false;
      }
      backups := backups[name := false];
      failed := answer.Unseen?;
    }

    method Sync(i: Input) returns (delay: Option<int>, failed: bool)
      requires Advances(cron.next)
      modifies this
      ensures Outcome(CurrentStatus(), backups, delay, failed) == Synced(cron, old(CurrentStatus()), old(backups), i)
    {
      if i.paused {
        return None, false;
      }
      var ok := CanPerformNextBackup(i.getFails);
      if !ok {
        return None, true;
      }
      var earliest := Earliest(cron, CurrentStatus());
      var recent := MostRecentScheduleTime(cron.next, earliest, i.now);
      if recent.Invalid? {
        return None, false;
      }
      if recent.time.None? {
        return Some(NextDelay(cron.next, earliest, i.now)), false;
      }
      var name, refused := CreateBackup(recent.time.value, i.create);
      if refused {
        return None, true;
      }
      lastBackup := Some(name);
      lastScheduleTime := Some(recent.time.value);
      return Some(NextDelay(cron.next, recent.time.value, i.now)), false;
    }
  }

  // ------------------------------------------------------------------ runs

  /** `created` lists the scheduled times of all objects ever created, in order. */
  datatype World = World(status: Status, backups: Backups, created: seq<Time>, now: Time)

  /**
   A reconcile syncs, removes expired backups and writes the status, unless the write is lost.
   Between reconciles a backup completes, or a finished one is removed.
   */
  datatype Step = Reconciled(input: Input, expired: set<Name>, written: bool) | Completed(name: Name) | Removed(name: Name)

  function Without(backups: Backups, names: set<Name>): Backups {
    map n | n in backups && !(n in names && backups[n]) :: backups[n]
  }

  function Logged(c: Cron, w: World, i: Input): seq<Time>
    requires Advances(c.next)
  {
    if Synced(c, w.status, w.backups, i).backups == w.backups then w.created
    else w.created + [Target(c, w.status, i.now)]
  }

  /** The scheduled time a reconcile creates a backup for, if it creates one. */
  function Target(c: Cron, st: Status, now: Time): Time
    requires Advances(c.next)
  {
    match MostRecent(c.next, Earliest(c, st), now)
    case Recent(Some(t), _) => t
    case _ => now
  }

  function Next(c: Cron, w: World, s: Step): World
    requires Advances(c.next)
  {
    match s
    case Reconciled(i, expired, written) =>
      var o := Synced(c, w.status, w.backups, i);
      World(
        if written then o.status else w.status,
        if o.failed then o.backups else Without(o.backups, expired),
        Logged(c, w, i),
        i.now)
    case Completed(n) => if n in w.backups then w.(backups := w.backups[n := true]) else w
    case Removed(n) => w.(backups := Without(w.backups, {n}))
  }

  function After(c: Cron, w: World, run: seq<Step>): World
    requires Advances(c.next)
    decreases |run|
  {
    if run == [] then w else After(c, Next(c, w, run[0]), run[1..])
  }

  function Start(born: Time): World { World(Status(None, None), map[], [], born) }

  /** The clock does not go back. */
  predicate Orderly(c: Cron, w: World, run: seq<Step>)
    requires Advances(c.next)
    decreases |run|
  {
    run != [] ==>
      && (run[0].Reconciled? ==> run[0].input.now >= w.now)
      && Orderly(c, Next(c, w, run[0]), run[1..])
  }

  /** `t` is recorded in the stored status, or a later instant has come: it will not be picked again. */
  ghost predicate Harmless(c: Cron, instants: iset<Time>, w: World, t: Time) {
    t <= Earliest(c, w.status) || exists u :: u in instants && t < u <= w.now
  }

  function Removable(s: Step): set<Name> {
    match s
    case Reconciled(_, expired, _) => expired
    case Completed(_) => {}
    case Removed(n) => {n}
  }

  /** The step removes only backups whose instant will not be picked again. */
  ghost predicate TidyStep(c: Cron, instants: iset<Time>, w: World, s: Step)
    requires Advances(c.next)
  {
    forall t :: t in w.created && BackupName(t) in Removable(s) ==> Harmless(c, instants, Next(c, w, s), t)
  }

  ghost predicate Tidy(c: Cron, instants: iset<Time>, w: World, run: seq<Step>)
    requires Advances(c.next)
    decreases |run|
  {
    run != [] ==> TidyStep(c, instants, w, run[0]) && Tidy(c, instants, Next(c, w, run[0]), run[1..])
  }

  /** Status writes are never lost, nor are the answers to creations. */
  predicate Durable(run: seq<Step>) {
    forall s :: s in run && s.Reconciled? ==> s.written && !s.input.create.Unseen?
  }

  // ------------------------------------------------------------------ schedules the theorems are about

  /** From the creation or any instant on, what is found due is the latest instant, and a new one. */
  ghost predicate Exact(c: Cron, instants: iset<Time>) {
    && Advances(c.next)
    && (forall t :: t in instants ==> t % SECOND == 0)
    && forall e, now :: e in instants || e == c.born ==>
         var r := MostRecent(c.next, e, now);
         r.Recent? && (r.time.Some? ==> IsLatest(instants, e, now, r.time.value))
  }

  lemma CronExpressionIsExact(c: Cron, instants: iset<Time>)
    requires PicksFrom(c.next, instants) && Advances(c.next)
    ensures Exact(c, instants)
  {
    forall e, now | e in instants || e == c.born
      ensures
        var r := MostRecent(c.next, e, now);
        r.Recent? && (r.time.Some? ==> IsLatest(instants, e, now, r.time.value))
    {
      ReturnedIsLatest(c.next, instants, e, now);
    }
  }

  /** The instants of a constant interval, counted from the first one after the creation. */
  ghost function Ticks(c: Cron, interval: nat): iset<Time> {
    iset k: nat :: Tick(c, interval, k)
  }

  function Tick(c: Cron, interval: nat, k: nat): Time { c.next(c.born) + k * interval }

  lemma ConstantIntervalIsExact(c: Cron, interval: nat)
    requires Steady(c.next, interval) && c.next(c.born) % SECOND == 0
    ensures Exact(c, Ticks(c, interval))
  {
    forall t | t in Ticks(c, interval) ensures t % SECOND == 0 {
      var k: nat :| t == Tick(c, interval, k);
      TickWhole(c.next(c.born), interval, k);
    }
    forall e, now | e in Ticks(c, interval) || e == c.born
      ensures
        var r := MostRecent(c.next, e, now);
        r.Recent? && (r.time.Some? ==> IsLatest(Ticks(c, interval), e, now, r.time.value))
    {
      var k: int :| k >= -1 && c.next(e) == c.next(c.born) + (k + 1) * interval by {
        if e == c.born {
          assert c.next(e) == c.next(c.born) + (-1 + 1) * interval;
        } else {
          var j: nat :| e == Tick(c, interval, j);
          SteadyOrbit(c.next, interval, c.born, j);
        }
      }
      TicksLatest(c, interval, e, k + 1, now);
    }
  }

  lemma TickWhole(first: Time, interval: nat, k: nat)
    requires first % SECOND == 0 && interval % SECOND == 0
    ensures (first + k * interval) % SECOND == 0
  {
    var a, b := first / SECOND, interval / SECOND;
    assert first + k * interval == (a + k * b) * SECOND;
  }

  lemma TicksLatest(c: Cron, interval: nat, e: Time, k: nat, now: Time)
    requires Steady(c.next, interval) && c.next(e) == Tick(c, interval, k)
    ensures
      var r := MostRecent(c.next, e, now);
      r.Recent? && (r.time.Some? ==> IsLatest(Ticks(c, interval), e, now, r.time.value))
  {
    if c.next(e) <= now {
      SteadyAlwaysFound(c.next, interval, e, now);
      var n := (now - c.next(e)) / interval;
      DivisionBounds(now - c.next(e), interval);
      NoTickBetween(c, interval, k, n, now);
    }
  }

  /** The tick `n` intervals after the k-th is the latest up to now. */
  lemma NoTickBetween(c: Cron, interval: nat, k: nat, n: nat, now: Time)
    requires Tick(c, interval, k) + n * interval <= now < Tick(c, interval, k) + (n + 1) * interval
    ensures Tick(c, interval, k) + n * interval == Tick(c, interval, k + n)
    ensures forall u :: u in Ticks(c, interval) && u <= now ==> u <= Tick(c, interval, k) + n * interval
  {
    forall u | u in Ticks(c, interval) && u <= now ensures u <= Tick(c, interval, k + n) {
      var j: nat :| u == Tick(c, interval, j);
      Scale(k + n + 1, j, interval);
      Scale(j, k + n, interval);
    }
  }

  // ------------------------------------------------------------------ never in the future, never back

  ghost predicate Sorted(times: seq<Time>) {
    forall i, j :: 0 <= i < j < |times| ==> times[i] <= times[j]
  }

  ghost predicate StrictlySorted(times: seq<Time>) {
    forall i, j :: 0 <= i < j < |times| ==> times[i] < times[j]
  }

  ghost predicate Consistent(c: Cron, instants: iset<Time>, w: World) {
    && (forall t :: t in w.created ==> t in instants && c.born < t <= w.now)
    && Sorted(w.created)
    && (w.status.lastScheduleTime.Some? ==>
          w.status.lastScheduleTime.value in instants && c.born < w.status.lastScheduleTime.value <= w.now)
    && w.status.lastBackup == (if w.status.lastScheduleTime.Some? then Some(BackupName(w.status.lastScheduleTime.value)) else None)
  }

  /** What a reconcile picks is an instant later than the stored one and than no other instant up to now. */
  lemma TargetIsLatest(c: Cron, instants: iset<Time>, w: World, i: Input)
    requires Exact(c, instants) && Consistent(c, instants, w) && i.now >= w.now
    ensures
      var o := Synced(c, w.status, w.backups, i);
      o.backups != w.backups || o.status != w.status ==>
        && IsLatest(instants, Earliest(c, w.status), i.now, Target(c, w.status, i.now))
        && o.backups == Created(w.backups, BackupName(Target(c, w.status, i.now)), i.create)
  {
    var e := Earliest(c, w.status);
    assert e in instants || e == c.born;
    assert MostRecent(c.next, e, i.now).Recent?;
  }

  lemma StepKeepsConsistent(c: Cron, instants: iset<Time>, w: World, s: Step)
    requires Exact(c, instants) && Consistent(c, instants, w)
    requires s.Reconciled? ==> s.input.now >= w.now
    ensures Consistent(c, instants, Next(c, w, s))
    ensures var before, after := w.status.lastScheduleTime, Next(c, w, s).status.lastScheduleTime;
            after == before || (after.Some? && (before.Some? ==> before.value < after.value))
  {
    if s.Reconciled? {
      TargetIsLatest(c, instants, w, s.input);
      LogSorted(w.created, Target(c, w.status, s.input.now));
    }
  }

  lemma LogSorted(created: seq<Time>, t: Time)
    requires Sorted(created) && forall u :: u in created ==> u <= t
    ensures Sorted(created + [t])
  {
    forall i, j | 0 <= i < j < |created + [t]| ensures (created + [t])[i] <= (created + [t])[j] {
      assert created[i] in created;
    }
  }

  /** Consistency holds in every run from the start. */
  lemma {:induction false} RunsStayConsistent(c: Cron, instants: iset<Time>, w: World, run: seq<Step>)
    requires Exact(c, instants) && Consistent(c, instants, w) && Orderly(c, w, run)
    ensures Consistent(c, instants, After(c, w, run))
    ensures w.status.lastScheduleTime.Some? ==>
              && After(c, w, run).status.lastScheduleTime.Some?
              && w.status.lastScheduleTime.value <= After(c, w, run).status.lastScheduleTime.value
    decreases |run|
  {
    if run != [] {
      StepKeepsConsistent(c, instants, w, run[0]);
      RunsStayConsistent(c, instants, Next(c, w, run[0]), run[1..]);
    }
  }

  // ------------------------------------------------------------------ one object per instant

  /** The backup of every instant that could be picked again still exists. */
  ghost predicate Kept(c: Cron, instants: iset<Time>, w: World) {
    forall t :: t in w.created ==> Harmless(c, instants, w, t) || BackupName(t) in w.backups
  }

  ghost predicate Sound(c: Cron, instants: iset<Time>, w: World) {
    Consistent(c, instants, w) && StrictlySorted(w.created) && Kept(c, instants, w)
  }

  lemma StepKeepsSound(c: Cron, instants: iset<Time>, w: World, s: Step)
    requires Exact(c, instants) && Sound(c, instants, w) && TidyStep(c, instants, w, s)
    requires s.Reconciled? ==> s.input.now >= w.now
    ensures Sound(c, instants, Next(c, w, s))
  {
    StepKeepsConsistent(c, instants, w, s);
    if s.Reconciled? {
      TargetIsLatest(c, instants, w, s.input);
    }
    forall t | t in Next(c, w, s).created
      ensures Harmless(c, instants, Next(c, w, s), t) || BackupName(t) in Next(c, w, s).backups
    {
      if t in w.created && Harmless(c, instants, w, t) {
        assert w.now <= Next(c, w, s).now;
      } else if t in w.created {
        assert BackupName(t) in w.backups;
      }
    }
  }

  /**
   Each instant yields at most one backup object in its life, even when status writes are lost, provided no
   backup is removed that could be picked again.
   */
  lemma {:induction false} CreatedOnce(c: Cron, instants: iset<Time>, w: World, run: seq<Step>)
    requires Exact(c, instants) && Sound(c, instants, w)
    requires Orderly(c, w, run) && Tidy(c, instants, w, run)
    ensures Sound(c, instants, After(c, w, run))
    decreases |run|
  {
    if run != [] {
      StepKeepsSound(c, instants, w, run[0]);
      CreatedOnce(c, instants, Next(c, w, run[0]), run[1..]);
    }
  }

  lemma StartIsSound(c: Cron, instants: iset<Time>)
    ensures Sound(c, instants, Start(c.born))
  {
  }

  /** A due instant is always found. */
  ghost predicate Finds(c: Cron, instants: iset<Time>)
    requires Advances(c.next)
  {
    forall e :: e in instants || e == c.born ==>
      && c.next(e) in instants
      && forall now :: Due(instants, e, now) ==> MostRecent(c.next, e, now).Recent? && MostRecent(c.next, e, now).time.Some?
  }

  /** A constant interval never misses anything. */
  lemma ConstantIntervalFinds(c: Cron, interval: nat)
    requires Steady(c.next, interval)
    ensures Finds(c, Ticks(c, interval))
  {
    forall e | e in Ticks(c, interval) || e == c.born
      ensures c.next(e) in Ticks(c, interval)
      ensures forall now :: Due(Ticks(c, interval), e, now) ==> MostRecent(c.next, e, now).Recent? && MostRecent(c.next, e, now).time.Some?
    {
      NextTick(c, interval, e);
      forall now | Due(Ticks(c, interval), e, now) ensures MostRecent(c.next, e, now).Recent? && MostRecent(c.next, e, now).time.Some? {
        SteadyAlwaysFound(c.next, interval, e, now);
      }
    }
  }

  /** The tick after `e` is the next one. */
  lemma NextTick(c: Cron, interval: nat, e: Time)
    requires Steady(c.next, interval) && (e in Ticks(c, interval) || e == c.born)
    ensures c.next(e) in Ticks(c, interval)
    ensures forall u :: u in Ticks(c, interval) && u > e ==> c.next(e) <= u
  {
    if e == c.born {
      assert c.next(e) == Tick(c, interval, 0);
    } else {
      var j: nat :| e == Tick(c, interval, j);
      SteadyOrbit(c.next, interval, c.born, j);
      assert c.next(e) == Tick(c, interval, j + 1);
      forall u | u in Ticks(c, interval) && u > e ensures c.next(e) <= u {
        var i: nat :| u == Tick(c, interval, i);
        Scale(i, j, interval);
        Scale(j + 1, i, interval);
      }
    }
  }

  /** How a removed backup comes back: the last recorded one finishes, and the next reconcile picks its instant. */
  function Relapse(w: World): seq<Step> {
    (if w.status.lastBackup.Some? then [Completed(w.status.lastBackup.value)] else [])
    + [Reconciled(Input(false, w.now, false, Accepted), {}, true)]
  }

  lemma PicksAgain(c: Cron, instants: iset<Time>, w: World, t: Time)
    requires Exact(c, instants) && Finds(c, instants) && Consistent(c, instants, w)
    requires t in w.created && BackupName(t) !in w.backups && !Harmless(c, instants, w, t)
    requires MayStart(w.status, w.backups, false)
    ensures Next(c, w, Reconciled(Input(false, w.now, false, Accepted), {}, true)).created == w.created + [t]
  {
    var e := Earliest(c, w.status);
    assert e in instants || e == c.born;
    assert Due(instants, e, w.now);
    assert MostRecent(c.next, e, w.now).time == Some(t);
  }

  lemma HarmfulRemovalRelapses(c: Cron, instants: iset<Time>, w: World, t: Time)
    requires Exact(c, instants) && Finds(c, instants) && Consistent(c, instants, w)
    requires t in w.created && BackupName(t) !in w.backups && !Harmless(c, instants, w, t)
    ensures Orderly(c, w, Relapse(w)) && Tidy(c, instants, w, Relapse(w))
    ensures !StrictlySorted(After(c, w, Relapse(w)).created)
  {
    var last := Reconciled(Input(false, w.now, false, Accepted), {}, true);
    var x := if w.status.lastBackup.Some? then Next(c, w, Completed(w.status.lastBackup.value)) else w;
    PicksAgain(c, instants, x, t);
    assert After(c, Next(c, x, last), []) == Next(c, x, last);
    assert [last][1..] == [];
    assert After(c, x, [last]) == Next(c, x, last);
    if w.status.lastBackup.Some? {
      assert Relapse(w)[1..] == [last];
    } else {
      assert Relapse(w) == [last];
    }
    var k :| 0 <= k < |w.created| && w.created[k] == t;
    assert (w.created + [t])[k] == (w.created + [t])[|w.created|];
  }

  /** Removing a finished backup can lead to a second object for its instant exactly if it is not harmless. */
  lemma RemovalIsSafeIff(c: Cron, instants: iset<Time>, w: World, t: Time)
    requires Exact(c, instants) && Finds(c, instants) && Sound(c, instants, w)
    requires t in w.created && BackupName(t) in w.backups && w.backups[BackupName(t)]
    ensures
      var w' := Next(c, w, Removed(BackupName(t)));
      (forall run :: Orderly(c, w', run) && Tidy(c, instants, w', run) ==> StrictlySorted(After(c, w', run).created))
      <==> Harmless(c, instants, w, t)
  {
    var s := Removed(BackupName(t));
    var w' := Next(c, w, s);
    StepKeepsConsistent(c, instants, w, s);
    if Harmless(c, instants, w, t) {
      assert TidyStep(c, instants, w, s) by { SameNameSameInstant(w.created, instants); }
      StepKeepsSound(c, instants, w, s);
      forall run | Orderly(c, w', run) && Tidy(c, instants, w', run)
        ensures StrictlySorted(After(c, w', run).created)
      {
        CreatedOnce(c, instants, w', run);
      }
    } else {
      HarmfulRemovalRelapses(c, instants, w', t);
    }
  }

  lemma SameNameSameInstant(created: seq<Time>, instants: iset<Time>)
    requires forall t :: t in created ==> t in instants
    requires forall t :: t in instants ==> t % SECOND == 0
    ensures forall t, u :: t in created && u in created && BackupName(t) == BackupName(u) ==> t == u
  {
  }

  // ------------------------------------------------------------------ one backup at a time

  /** Only the last recorded backup may still be running. */
  ghost predicate OneRunning(w: World) {
    forall n :: n in w.backups && !w.backups[n] ==> w.status.lastBackup == Some(n)
  }

  /** With durable status writes a new backup starts only once the one before is over. */
  lemma {:induction false} OneAtATime(c: Cron, w: World, run: seq<Step>)
    requires Advances(c.next) && OneRunning(w) && Durable(run)
    ensures OneRunning(After(c, w, run))
    decreases |run|
  {
    if run != [] {
      assert run[0] in run;
      StepKeepsOneRunning(c, w, run[0]);
      OneAtATime(c, Next(c, w, run[0]), run[1..]);
    }
  }

  lemma StepKeepsOneRunning(c: Cron, w: World, s: Step)
    requires Advances(c.next) && OneRunning(w)
    requires s.Reconciled? ==> s.written && !s.input.create.Unseen?
    ensures OneRunning(Next(c, w, s))
  {
  }

  /** No two backups are unfinished. */
  ghost predicate Single(w: World) {
    forall m, n :: m in w.backups && n in w.backups && !w.backups[m] && !w.backups[n] ==> m == n
  }

  /** No backup is named after a time to come. */
  ghost predicate NotAhead(w: World) {
    forall n :: n in w.backups ==> n <= BackupName(w.now)
  }

  /** What holds as long as every status write and every answer arrives. */
  ghost predicate Settled(c: Cron, instants: iset<Time>, w: World) {
    Consistent(c, instants, w) && OneRunning(w) && NotAhead(w)
  }

  lemma LaterName(t: Time, u: Time)
    requires t > u && t % SECOND == 0
    ensures BackupName(t) > BackupName(u)
  {
  }

  lemma NamesInOrder(t: Time, u: Time)
    requires t <= u
    ensures BackupName(t) <= BackupName(u)
  {
  }

  lemma StepKeepsNotAhead(c: Cron, instants: iset<Time>, w: World, s: Step)
    requires Exact(c, instants) && Consistent(c, instants, w) && NotAhead(w)
    requires s.Reconciled? ==> s.input.now >= w.now
    ensures NotAhead(Next(c, w, s))
  {
    if s.Reconciled? {
      TargetIsLatest(c, instants, w, s.input);
      NamesInOrder(w.now, s.input.now);
      if Synced(c, w.status, w.backups, s.input).backups != w.backups {
        NamesInOrder(Target(c, w.status, s.input.now), s.input.now);
      }
    }
  }

  /** Durable runs from the start stay settled. */
  lemma {:induction false} DurableRunsStaySettled(c: Cron, instants: iset<Time>, w: World, run: seq<Step>)
    requires Exact(c, instants) && Settled(c, instants, w) && Orderly(c, w, run) && Durable(run)
    ensures Settled(c, instants, After(c, w, run))
    decreases |run|
  {
    OneAtATime(c, w, run);
    if run != [] {
      assert [run[0]][0] in run;
      StepKeepsConsistent(c, instants, w, run[0]);
      StepKeepsNotAhead(c, instants, w, run[0]);
      StepKeepsOneRunning(c, w, run[0]);
      DurableRunsStaySettled(c, instants, Next(c, w, run[0]), run[1..]);
    }
  }

  /** The reconcile creates an object that the stored status does not record: its write, or the answer, is lost. */
  predicate CreatesUnrecorded(c: Cron, w: World, s: Step)
    requires Advances(c.next) && s.Reconciled?
  {
    var o := Synced(c, w.status, w.backups, s.input);
    o.backups != w.backups && (o.failed || !s.written)
  }

  /** The reconcile at the next instant after the one whose backup was not recorded. */
  function AtNextInstant(c: Cron, w: World, s: Step): Step
    requires Advances(c.next) && s.Reconciled?
  {
    Reconciled(Input(false, c.next(Target(c, w.status, s.input.now)), false, Accepted), {}, true)
  }

  lemma UnrecordedRunsTwo(c: Cron, instants: iset<Time>, w: World, s: Step)
    requires Exact(c, instants) && Finds(c, instants) && Settled(c, instants, w)
    requires s.Reconciled? && s.input.now >= w.now && CreatesUnrecorded(c, w, s)
    ensures
      var later := AtNextInstant(c, w, s);
      later.input.now > s.input.now && !Single(Next(c, Next(c, w, s), later))
  {
    UnrecordedLeaves(c, instants, w, s);
    StepKeepsNotAhead(c, instants, w, s);
    SecondStarts(c, instants, Next(c, w, s), Target(c, w.status, s.input.now));
  }

  /** An unrecorded backup runs on although the stored status lets the next one start. */
  lemma UnrecordedLeaves(c: Cron, instants: iset<Time>, w: World, s: Step)
    requires Exact(c, instants) && Finds(c, instants) && Settled(c, instants, w)
    requires s.Reconciled? && s.input.now >= w.now && CreatesUnrecorded(c, w, s)
    ensures
      var t := Target(c, w.status, s.input.now);
      var w' := Next(c, w, s);
      && t in instants && Earliest(c, w.status) < t <= s.input.now < c.next(t)
      && w'.status == w.status && w'.now == s.input.now
      && BackupName(t) in w'.backups && !w'.backups[BackupName(t)]
      && MayStart(w'.status, w'.backups, false)
  {
    var t := Target(c, w.status, s.input.now);
    TargetIsLatest(c, instants, w, s.input);
    LaterName(t, Earliest(c, w.status));
    assert MayStart(w.status, w.backups, s.input.getFails);
    assert c.next(t) in instants && c.next(t) > t;
  }

  lemma SecondStarts(c: Cron, instants: iset<Time>, w: World, t: Time)
    requires Exact(c, instants) && Finds(c, instants) && NotAhead(w)
    requires Earliest(c, w.status) in instants || Earliest(c, w.status) == c.born
    requires t in instants && Earliest(c, w.status) < t <= w.now < c.next(t)
    requires BackupName(t) in w.backups && !w.backups[BackupName(t)] && MayStart(w.status, w.backups, false)
    ensures !Single(Next(c, w, Reconciled(Input(false, c.next(t), false, Accepted), {}, true)))
  {
    var later := Reconciled(Input(false, c.next(t), false, Accepted), {}, true);
    NextIsPicked(c, instants, Earliest(c, w.status), t, c.next(t));
    var u := MostRecent(c.next, Earliest(c, w.status), c.next(t)).time.value;
    LaterName(u, w.now);
    LaterName(u, t);
    assert BackupName(u) !in w.backups;
    var v := Next(c, w, later).backups;
    assert v == w.backups[BackupName(u) := false];
    assert BackupName(t) in v && !v[BackupName(t)] && BackupName(u) in v && !v[BackupName(u)];
  }

  /** At the instant after `t` something later than `t` is picked. */
  lemma NextIsPicked(c: Cron, instants: iset<Time>, e: Time, t: Time, now: Time)
    requires Exact(c, instants) && Finds(c, instants) && (e in instants || e == c.born)
    requires t in instants && e < t && now == c.next(t)
    ensures MostRecent(c.next, e, now).Recent? && MostRecent(c.next, e, now).time.Some?
    ensures MostRecent(c.next, e, now).time.value in instants && MostRecent(c.next, e, now).time.value >= now
  {
    assert c.next(t) in instants && e < c.next(t) <= now;
    assert Due(instants, e, now);
  }

  /**
   Whether status write and answer of a reconcile arrive matters exactly if it creates an object: two backups
   can be unfinished at once afterwards, though all later writes arrive, if and only if it created one that the
   stored status does not record.
   */
  lemma LosingMattersIff(c: Cron, instants: iset<Time>, w: World, s: Step)
    requires Exact(c, instants) && Finds(c, instants) && Settled(c, instants, w)
    requires s.Reconciled? && s.input.now >= w.now
    ensures
      var w' := Next(c, w, s);
      (exists run :: Orderly(c, w', run) && Durable(run) && !Single(After(c, w', run))) <==> CreatesUnrecorded(c, w, s)
  {
    if CreatesUnrecorded(c, w, s) {
      UnrecordedRunsTwo(c, instants, w, s);
      RunOfOne(c, Next(c, w, s), AtNextInstant(c, w, s));
    } else {
      RecordedKeepsOneRunning(c, w, s);
      StaysSingle(c, Next(c, w, s));
    }
  }

  lemma RunOfOne(c: Cron, w: World, s: Step)
    requires Advances(c.next)
    ensures After(c, w, [s]) == Next(c, w, s)
    ensures Orderly(c, w, [s]) <==> (s.Reconciled? ==> s.input.now >= w.now)
  {
    var v := Next(c, w, s);
    assert [s][1..] == [];
    assert After(c, v, []) == v && Orderly(c, v, []);
  }

  lemma StaysSingle(c: Cron, w: World)
    requires Advances(c.next) && OneRunning(w)
    ensures forall run :: Orderly(c, w, run) && Durable(run) ==> Single(After(c, w, run))
  {
    forall run | Orderly(c, w, run) && Durable(run) ensures Single(After(c, w, run)) {
      OneAtATime(c, w, run);
    }
  }

  lemma RecordedKeepsOneRunning(c: Cron, w: World, s: Step)
    requires Advances(c.next) && OneRunning(w) && s.Reconciled? && !CreatesUnrecorded(c, w, s)
    ensures OneRunning(Next(c, w, s))
  {
  }

  // ------------------------------------------------------------------ nothing due is left behind

  /** What a reconcile must be met with for the backup that is due to start. */
  predicate Unhindered(w: World, i: Input) {
    !i.paused && !i.create.Refused? && MayStart(w.status, w.backups, i.getFails)
  }

  /**
   After an unhindered reconcile whose answers and status write arrive, no instant up to now is left: the
   latest one is recorded and its backup exists, and the next reconcile is due after a positive delay.
   */
  lemma CaughtUp(c: Cron, instants: iset<Time>, w: World, i: Input)
    requires Exact(c, instants) && Finds(c, instants) && Consistent(c, instants, w)
    requires i.now >= w.now && Unhindered(w, i) && i.create.Accepted?
    ensures
      var o := Synced(c, w.status, w.backups, i);
      && !o.failed && o.delay.Some? && o.delay.value > 0
      && !Due(instants, Earliest(c, o.status), i.now)
      && (Due(instants, Earliest(c, w.status), i.now) ==>
            && IsLatest(instants, Earliest(c, w.status), i.now, Earliest(c, o.status))
            && BackupName(Earliest(c, o.status)) in o.backups)
      && (!Due(instants, Earliest(c, w.status), i.now) ==> o.status == w.status)
  {
    var e := Earliest(c, w.status);
    assert e in instants || e == c.born;
    assert MostRecent(c.next, e, i.now).Recent?;
    var e' := Earliest(c, Synced(c, w.status, w.backups, i).status);
    assert !Due(instants, e', i.now);
    NothingDueWaits(c, instants, e', i.now);
  }

  /** With nothing due the delay ends just after the next instant. */
  lemma NothingDueWaits(c: Cron, instants: iset<Time>, e: Time, now: Time)
    requires Exact(c, instants) && Finds(c, instants) && (e in instants || e == c.born)
    requires !Due(instants, e, now)
    ensures NextDelay(c.next, e, now) == c.next(e) + NEXT_SCHEDULE_DELTA - now > 0
  {
    assert c.next(e) in instants;
    assert c.next(e) > now;
  }

  // ------------------------------------------------------------------ what the assumptions are needed for

  /** A backup every ten seconds. */
  function EveryTen(): Schedule { t => (t / (10 * SECOND) + 1) * (10 * SECOND) }

  function Sync(seconds: nat, written: bool): Step { Reconciled(Input(false, seconds * SECOND, false, Accepted), {}, written) }

  /** A lost status write lets a second backup start while the first is still running. */
  lemma LostWriteRunsTwo()
    ensures
      var c := Cron(EveryTen(), 0);
      Advances(c.next) && !OneRunning(After(c, Start(0), [Sync(10, false), Sync(20, true)]))
  {
    var c := Cron(EveryTen(), 0);
    var first, second := Sync(10, false), Sync(20, true);
    TenThenTwenty(c);
    var w := Next(c, Start(0), first);
    assert [first, second][1..] == [second] && [second][1..] == [];
    assert After(c, Next(c, w, second), []) == Next(c, w, second);
    assert After(c, w, [second]) == Next(c, w, second);
    assert After(c, Start(0), [first, second]) == After(c, w, [second]);
    RunsTwo(c, second);
  }

  lemma RunsTwo(c: Cron, second: Step)
    requires Advances(c.next) && c.born == 0
    requires MostRecent(c.next, 0, 10 * SECOND) == Recent(Some(10 * SECOND), false)
    requires MostRecent(c.next, 0, 20 * SECOND) == Recent(Some(20 * SECOND), false)
    requires second == Sync(20, true)
    ensures
      var w := Next(c, Start(0), Sync(10, false));
      !OneRunning(Next(c, w, second))
  {
    var w := Next(c, Start(0), Sync(10, false));
    assert w.backups == map[10 := false];
    var w' := Next(c, w, second);
    assert 10 in w'.backups && !w'.backups[10];
    assert w'.status.lastBackup == Some(20);
  }

  lemma TenThenTwenty(c: Cron)
    requires c == Cron(EveryTen(), 0)
    ensures Advances(c.next)
    ensures MostRecent(c.next, 0, 10 * SECOND) == Recent(Some(10 * SECOND), false)
    ensures MostRecent(c.next, 0, 20 * SECOND) == Recent(Some(20 * SECOND), false)
  {
    assert c.next(0) == 10 * SECOND && c.next(10 * SECOND) == 20 * SECOND && c.next(20 * SECOND) == 30 * SECOND;
    assert JumpTo(10 * SECOND, 20 * SECOND, 20 * SECOND) == 10 * SECOND;
    assert LastUpTo(c.next, 20 * SECOND, 20 * SECOND) == None;
    assert LastUpTo(c.next, 10 * SECOND, 20 * SECOND) == Some(20 * SECOND);
  }

  /** A removal that is not harmless can be reached: the status write of the only reconcile is lost, and the backup completes. */
  lemma HarmfulRemovalReachable()
    ensures
      var c := Cron(EveryTen(), 0);
      var instants := Ticks(c, 10 * SECOND);
      && Steady(c.next, 10 * SECOND) && Exact(c, instants) && Finds(c, instants)
      && var w := After(c, Start(0), [Sync(10, false), Completed(10)]);
         && Sound(c, instants, w) && 10 * SECOND in w.created && w.backups == map[10 := true]
         && !Harmless(c, instants, w, 10 * SECOND)
  {
    var c := Cron(EveryTen(), 0);
    TenThenTwenty(c);
    EveryTenIsSteady();
    ConstantIntervalIsExact(c, 10 * SECOND);
    ConstantIntervalFinds(c, 10 * SECOND);
    LostThenCompleted(c, Ticks(c, 10 * SECOND));
  }

  lemma LostThenCompleted(c: Cron, instants: iset<Time>)
    requires Exact(c, instants) && c.born == 0
    requires MostRecent(c.next, 0, 10 * SECOND) == Recent(Some(10 * SECOND), false)
    ensures
      var w := After(c, Start(0), [Sync(10, false), Completed(10)]);
      && Sound(c, instants, w) && 10 * SECOND in w.created && w.backups == map[10 := true]
      && !Harmless(c, instants, w, 10 * SECOND)
  {
    var first, second := Sync(10, false), Completed(10);
    var w := Next(c, Start(0), first);
    assert w == World(Status(None, None), map[10 := false], [10 * SECOND], 10 * SECOND);
    assert [first, second][1..] == [second];
    RunOfOne(c, w, second);
    assert After(c, Start(0), [first, second]) == After(c, w, [second]);
    StepKeepsSound(c, instants, Start(0), first);
    StepKeepsSound(c, instants, w, second);
  }

  lemma EveryTenIsSteady()
    ensures Steady(EveryTen(), 10 * SECOND)
  {
  }
}
