/**
 Progress of scaling when status writes are durable: at most one recorded job is outstanding at any time, and
 every reconcile in which nothing goes wrong brings the operation closer to its end.
 */
module StoragedProgress {
  import opened StoragedScaling
  import opened StoragedSafety

  ghost predicate Durable(env: Answers) {
    forall n: nat :: env(n).write == Stored
  }

  /** Every request made between the two points succeeded, and every polled job had finished. */
  ghost predicate Good(env: Answers, from: nat, to: nat) {
    forall n: nat :: from <= n < to ==> env(n).ok && env(n).jobId > 0 && env(n).state == Finished
  }

  /** The spaces still to be processed. */
  function Pending(spaces: seq<int>, done: seq<int>): seq<int> {
    if spaces == [] then []
    else if spaces[0] in done then Pending(spaces[1..], done)
    else [spaces[0]] + Pending(spaces[1..], done)
  }

  /** The recorded job is the one for the next space. */
  predicate JobPending(spaces: seq<int>, st: Status, kind: Kind) {
    var p := Pending(spaces, DoneOf(st, kind));
    p != [] && st.lastJob.Some? && st.lastJob.value.space == p[0]
  }

  /** How many good reconciles are left: one to start the next job, one per space to finish it. */
  function Left(spaces: seq<int>, st: Status, kind: Kind): nat {
    |Pending(spaces, DoneOf(st, kind))| + if JobPending(spaces, st, kind) then 0 else 1
  }

  /** The job started last, unless it has been reported as finished. */
  function Outstanding(trace: seq<Event>): Option<Job> {
    if trace == [] then None
    else
      match trace[|trace| - 1]
      case JobStarted(_, job, _) => Some(job)
      case JobReported(_, Finished) => None
      case _ => Outstanding(trace[..|trace| - 1])
  }

  /** A job is started only when none is outstanding, and an outstanding one is the only one asked for. */
  ghost predicate OneAtATime(trace: seq<Event>) {
    trace != [] ==>
      var earlier := trace[..|trace| - 1];
      OneAtATime(earlier) && InTurn(trace[|trace| - 1], Outstanding(earlier))
  }

  predicate InTurn(e: Event, outstanding: Option<Job>) {
    && (e.JobStarted? ==> outstanding == None)
    && (e.JobReported? && outstanding.Some? ==> outstanding.value == e.job)
  }

  /** The outstanding job is the recorded one, and it is the next space's. */
  ghost predicate Serial(kind: Kind, w: World, spaces: seq<int>) {
    && OneAtATime(w.trace)
    && (Outstanding(w.trace).Some? ==> w.status.lastJob == Outstanding(w.trace) && JobPending(spaces, w.status, kind))
  }

  // ------------------------------------------------------------------ pending spaces

  lemma {:induction false} PendingSubset(spaces: seq<int>, done: seq<int>)
    ensures forall s :: s in Pending(spaces, done) <==> s in spaces && s !in done
    ensures |Pending(spaces, done)| <= |spaces|
  {
    if spaces != [] {
      PendingSubset(spaces[1..], done);
      assert spaces == [spaces[0]] + spaces[1..];
    }
  }

  /** Completing a space that is not in the list changes nothing in the list. */
  lemma {:induction false} PendingOther(spaces: seq<int>, done: seq<int>, s: int)
    requires s !in spaces
    ensures Pending(spaces, done + [s]) == Pending(spaces, done)
  {
    if spaces != [] {
      assert spaces[0] != s;
      PendingOther(spaces[1..], done, s);
    }
  }

  /** Completing the next space takes it off the front. */
  lemma PendingNext(spaces: seq<int>, done: seq<int>)
    requires Distinct(spaces) && spaces != [] && spaces[0] !in done
    ensures Pending(spaces, done + [spaces[0]]) == Pending(spaces[1..], done + [spaces[0]]) == Pending(spaces[1..], done)
    ensures spaces[0] !in spaces[1..] && spaces[0] !in Pending(spaces[1..], done)
  {
    PendingOther(spaces[1..], done, spaces[0]);
    PendingSubset(spaces[1..], done);
  }

  lemma LeftPositive(spaces: seq<int>, st: Status, kind: Kind)
    ensures Left(spaces, st, kind) >= 1
  {}

  // ------------------------------------------------------------------ the trace

  lemma LogSerial(trace: seq<Event>, e: Event)
    requires OneAtATime(trace) && InTurn(e, Outstanding(trace))
    ensures OneAtATime(trace + [e])
    ensures Outstanding(trace + [e]) ==
      match e
      case JobStarted(_, job, _) => Some(job)
      case JobReported(_, Finished) => None
      case _ => Outstanding(trace)
  {
    assert (trace + [e])[..|trace|] == trace;
  }

  // ------------------------------------------------------------------ one space

  /** What one visit to a pending space does, when writes are durable. */
  lemma SpaceStep(kind: Kind, w: World, env: Answers, spaces: seq<int>, hosts: seq<int>)
    requires Durable(env) && Distinct(spaces) && spaces != [] && spaces[0] !in w.Done(kind)
    requires Serial(kind, w, spaces)
    ensures
      var (w', ok) := ProcessSpace(kind, w, env, spaces[0], hosts);
      && w.next < w'.next && w.trace <= w'.trace && w'.replicas == w.replicas
      && Serial(kind, w', if ok then spaces[1..] else spaces)
      && w'.status.phase == w.status.phase
      && (if ok then
            && w'.persisted == w'.status && w'.Done(kind) == w.Done(kind) + [spaces[0]]
            && JobPending(spaces, w.status, kind)
            && w'.status.lastJob == w.status.lastJob
          else
            && Left(spaces, w'.status, kind) <= Left(spaces, w.status, kind)
            && (Good(env, w.next, w'.next) ==> Left(spaces, w'.status, kind) < Left(spaces, w.status, kind)))
  {
    PendingNext(spaces, w.Done(kind));
    if w.status.lastJob.Some? && w.status.lastJob.value.space == spaces[0] {
      PollStep(kind, w, env, w.status.lastJob.value);
      if !PollJob(kind, w, env, w.status.lastJob.value).1 {
        PollFails(kind, w, env, w.status.lastJob.value);
      }
    } else {
      StartStep(kind, w, env, spaces, hosts);
    }
  }

  lemma StartStep(kind: Kind, w: World, env: Answers, spaces: seq<int>, hosts: seq<int>)
    requires Durable(env) && spaces != [] && spaces[0] !in w.Done(kind)
    requires Serial(kind, w, spaces) && !JobPending(spaces, w.status, kind)
    ensures
      var w' := StartJob(kind, w, env, spaces[0], hosts).0;
      && w.next < w'.next && w.trace <= w'.trace && w'.replicas == w.replicas
      && Serial(kind, w', spaces)
      && w'.status.phase == w.status.phase && w'.Done(kind) == w.Done(kind)
      && (w'.status == w.status || JobPending(spaces, w'.status, kind))
      && (Good(env, w.next, w'.next) ==> JobPending(spaces, w'.status, kind))
  {
    var a := env(w.next);
    if a.ok && a.jobId > 0 {
      LogSerial(w.trace, JobStarted(kind, Job(spaces[0], a.jobId), hosts));
    }
  }

  /** A finished job is entered into the status, unless balancing the leaders fails. */
  lemma FinishStep(kind: Kind, w: World, env: Answers, job: Job)
    requires Durable(env) && OneAtATime(w.trace) && Outstanding(w.trace) == None
    ensures
      var (w', ok) := FinishJob(kind, w, env, job);
      && w.next < w'.next && w.trace <= w'.trace && w'.replicas == w.replicas
      && OneAtATime(w'.trace) && Outstanding(w'.trace) == None
      && (if ok then w'.status == MarkDone(w, kind, job.space).status && w'.persisted == w'.status
          else w'.status == w.status && !env(w.next).ok)
  {
    if kind == Balance {
      LeaderStep(w, env, job.space);
    }
  }

  /** The trace of a request that found the job unfinished. */
  lemma UnfinishedTrace(trace: seq<Event>, job: Job, state: JobState)
    requires OneAtATime(trace) && (Outstanding(trace).Some? ==> Outstanding(trace).value == job)
    ensures OneAtATime(trace + [JobReported(job, state)])
    ensures Outstanding(trace + [JobReported(job, state)]) == if state == Finished then None else Outstanding(trace)
    ensures state == Failed ==>
      && OneAtATime(trace + [JobReported(job, state)] + [JobRecovered(job)])
      && Outstanding(trace + [JobReported(job, state)] + [JobRecovered(job)]) == Outstanding(trace)
  {
    LogSerial(trace, JobReported(job, state));
    LogSerial(trace + [JobReported(job, state)], JobRecovered(job));
  }

  lemma PollStep(kind: Kind, w: World, env: Answers, job: Job)
    requires Durable(env) && OneAtATime(w.trace)
    requires Outstanding(w.trace).Some? ==> Outstanding(w.trace).value == job
    ensures
      var (w', ok) := PollJob(kind, w, env, job);
      && w.next < w'.next && w.trace <= w'.trace && w'.replicas == w.replicas
      && OneAtATime(w'.trace)
      && (if ok then
            w'.status == MarkDone(w, kind, job.space).status && w'.persisted == w'.status && Outstanding(w'.trace) == None
          else
            w'.status == w.status && (Outstanding(w'.trace) == Outstanding(w.trace) || Outstanding(w'.trace) == None))
  {
    var a := env(w.next);
    if a.ok && a.state == Finished {
      FinishedStep(kind, w, env, job);
    } else {
      UnfinishedTrace(w.trace, job, a.state);
    }
  }

  lemma FinishedStep(kind: Kind, w: World, env: Answers, job: Job)
    requires Durable(env) && OneAtATime(w.trace) && env(w.next).ok && env(w.next).state == Finished
    requires Outstanding(w.trace).Some? ==> Outstanding(w.trace).value == job
    ensures
      var (w', ok) := PollJob(kind, w, env, job);
      && w.next < w'.next && w.trace <= w'.trace && w'.replicas == w.replicas
      && OneAtATime(w'.trace) && Outstanding(w'.trace) == None
      && (ok ==> w'.status == MarkDone(w, kind, job.space).status && w'.persisted == w'.status)
      && (!ok ==> w'.status == w.status)
  {
    UnfinishedTrace(w.trace, job, Finished);
    FinishStep(kind, w.Asked().Logged(JobReported(job, Finished)), env, job);
  }

  /** Asking for a job stops the reconcile only if something went wrong. */
  lemma PollFails(kind: Kind, w: World, env: Answers, job: Job)
    requires Durable(env) && !PollJob(kind, w, env, job).1
    ensures !Good(env, w.next, PollJob(kind, w, env, job).0.next)
  {
    var polled := w.Asked().Logged(JobReported(job, Finished));
    assert env(w.next).ok && env(w.next).state == Finished ==>
        PollJob(kind, w, env, job) == FinishJob(kind, polled, env, job) && !env(polled.next).ok;
  }

  // ------------------------------------------------------------------ all spaces

  /** The loop ends with nothing pending, or with no more left to do than before; less, if answered. */
  lemma {:induction false} SpacesStep(kind: Kind, w: World, env: Answers, spaces: seq<int>, hosts: seq<int>)
    requires Durable(env) && Distinct(spaces) && Serial(kind, w, spaces) && w.persisted == w.status
    ensures
      var (w', ok) := ProcessSpaces(kind, w, env, spaces, hosts);
      && w.next <= w'.next && w.trace <= w'.trace && w'.replicas == w.replicas
      && Serial(kind, w', spaces)
      && w'.status.phase == w.status.phase
      && (if ok then
            && Pending(spaces, w'.Done(kind)) == [] && w'.persisted == w'.status && Outstanding(w'.trace) == None
          else
            && Left(spaces, w'.status, kind) <= Left(spaces, w.status, kind)
            && (Good(env, w.next, w'.next) ==> Left(spaces, w'.status, kind) < Left(spaces, w.status, kind)))
    decreases |spaces|
  {
    if spaces != [] {
      if spaces[0] in w.Done(kind) {
        SpacesStep(kind, w, env, spaces[1..], hosts);
        DoneStays(kind, w, env, spaces[1..], hosts, spaces[0]);
      } else {
        SpaceStep(kind, w, env, spaces, hosts);
        var (w', ok) := ProcessSpace(kind, w, env, spaces[0], hosts);
        if ok {
          PendingNext(spaces, w.Done(kind));
          SpacesStep(kind, w', env, spaces[1..], hosts);
          DoneStays(kind, w', env, spaces[1..], hosts, spaces[0]);
        }
      }
    }
  }

  /** What has been completed stays so. */
  lemma {:induction false} DoneStays(kind: Kind, w: World, env: Answers, spaces: seq<int>, hosts: seq<int>, s: int)
    requires s in w.Done(kind)
    ensures s in ProcessSpaces(kind, w, env, spaces, hosts).0.Done(kind)
    decreases |spaces|
  {
    if spaces != [] {
      if spaces[0] in w.Done(kind) {
        DoneStays(kind, w, env, spaces[1..], hosts, s);
      } else {
        var (w', ok) := ProcessSpace(kind, w, env, spaces[0], hosts);
        if ok {
          DoneStays(kind, w', env, spaces[1..], hosts, s);
        }
      }
    }
  }

  // ------------------------------------------------------------------ scaling in

  lemma LeaderStep(w: World, env: Answers, space: int)
    requires Durable(env) && OneAtATime(w.trace)
    ensures
      var (w', ok) := BalanceLeader(w, env, space);
      && w.next < w'.next && w.trace <= w'.trace && w'.replicas == w.replicas
      && OneAtATime(w'.trace) && Outstanding(w'.trace) == Outstanding(w.trace)
      && (if ok then w'.status == MarkDone(w, Balance, space).status && w'.persisted == w'.status
          else w'.status == w.status && !env(w.next).ok)
  {
    LogSerial(w.trace, LeadersBalanced(space));
  }

  lemma {:induction false} LeadersStep(w: World, env: Answers, spaces: seq<int>)
    requires Durable(env) && OneAtATime(w.trace)
    ensures
      var (w', ok) := BalanceLeaders(w, env, spaces);
      && w.next <= w'.next && w.trace <= w'.trace && w'.replicas == w.replicas
      && OneAtATime(w'.trace) && Outstanding(w'.trace) == Outstanding(w.trace)
      && w'.status == w.status.(balanced := w'.status.balanced)
      && (ok || !Good(env, w.next, w'.next))
    decreases |spaces|
  {
    if spaces != [] {
      if spaces[0] in w.status.balanced {
        LeadersStep(w, env, spaces[1..]);
      } else {
        LeaderStep(w, env, spaces[0]);
        var (w', ok) := BalanceLeader(w, env, spaces[0]);
        if ok {
          LeadersStep(w', env, spaces[1..]);
        }
      }
    }
  }

  /** Moving the data and dropping the hosts: done, or closer to it. */
  lemma RemoveStep(w: World, env: Answers, c: Config, sight: Sight)
    requires Durable(env) && Distinct(c.spaces) && Serial(Removal, w, c.spaces) && w.persisted == w.status
    requires c.target < w.replicas
    ensures
      var (w', ok) := RemoveHosts(w, env, c, sight);
      && w.next <= w'.next && w.trace <= w'.trace && w'.replicas == w.replicas
      && Serial(Removal, w', c.spaces)
      && w'.status.phase == w.status.phase
      && (ok ==> Pending(c.spaces, w'.status.removed) == [] && Outstanding(w'.trace) == None && Dropped(w'.trace))
      && (!ok ==>
            && Left(c.spaces, w'.status, Removal) <= Left(c.spaces, w.status, Removal)
            && (Good(env, w.next, w'.next) && sight.hosts.Some? ==>
                  Left(c.spaces, w'.status, Removal) < Left(c.spaces, w.status, Removal)))
  {
    if sight.hosts.Some? {
      SpacesStep(Removal, w, env, c.spaces, sight.hosts.value);
      var (moved, ok) := ProcessSpaces(Removal, w, env, c.spaces, sight.hosts.value);
      if ok {
        DropStep(moved, env, c.spaces, sight.hosts.value);
        LeftPositive(c.spaces, w.status, Removal);
      }
    }
  }

  lemma DropStep(w: World, env: Answers, spaces: seq<int>, hosts: seq<int>)
    requires Serial(Removal, w, spaces) && Pending(spaces, w.status.removed) == [] && Outstanding(w.trace) == None
    ensures
      var (w', ok) := DropHosts(w, env, hosts);
      && w'.next == w.next + 1 && w.trace <= w'.trace && w'.replicas == w.replicas && w'.status == w.status
      && Serial(Removal, w', spaces) && Outstanding(w'.trace) == None
      && Left(spaces, w'.status, Removal) == 1
      && (if ok then Dropped(w'.trace) else !Good(env, w.next, w'.next))
  {
    LogSerial(w.trace, DropAsked(hosts));
    var asked := w.trace + [DropAsked(hosts)];
    LogSerial(asked, HostsDropped(hosts));
    assert (asked + [HostsDropped(hosts)])[|asked|].HostsDropped?;
    assert !DropHosts(w, env, hosts).1 ==> !env(w.next).ok;
  }

  ghost predicate Dropped(trace: seq<Event>) {
    exists i :: 0 <= i < |trace| && trace[i].HostsDropped?
  }

  lemma DroppedStays(trace: seq<Event>, longer: seq<Event>)
    requires trace <= longer && Dropped(trace)
    ensures Dropped(longer)
  {
    var i :| 0 <= i < |trace| && trace[i].HostsDropped?;
    assert longer[i].HostsDropped?;
  }

  lemma EnterStep(kind: Kind, w: World, env: Answers, phase: Phase, spaces: seq<int>)
    requires Durable(env) && Serial(kind, w, spaces)
    ensures
      var (entered, stored) := EnterPhase(w, env, phase);
      var (reached, listed) := ReachMeta(entered, env);
      && stored && entered.status == w.status.(phase := phase) && entered.persisted == entered.status
      && entered.trace == w.trace && entered.replicas == w.replicas && w.next < entered.next < reached.next
      && reached == entered.(next := reached.next)
      && Serial(kind, reached, spaces) && Serial(kind, entered, spaces)
      && Left(spaces, reached.status, kind) == Left(spaces, w.status, kind)
      && (listed || !Good(env, entered.next, reached.next))
  {}

  lemma ScaleInStep(w: World, env: Answers, c: Config, sight: Sight)
    requires Durable(env) && Distinct(c.spaces) && Serial(Removal, w, c.spaces)
    requires c.target < w.replicas
    ensures
      var (w', ok) := ScaleIn(w, env, c, sight);
      && w.next <= w'.next && w.trace <= w'.trace && w'.replicas == w.replicas
      && OneAtATime(w'.trace)
      && (if ok then w'.status == CLEARED && Outstanding(w'.trace) == None && Dropped(w'.trace)
          else
            && Serial(Removal, w', c.spaces) && w'.status.phase == ScalingIn
            && Left(c.spaces, w'.status, Removal) <= Left(c.spaces, w.status, Removal)
            && (Good(env, w.next, w'.next) && sight.hosts.Some? ==>
                  Left(c.spaces, w'.status, Removal) < Left(c.spaces, w.status, Removal)))
  {
    EnterStep(Removal, w, env, ScalingIn, c.spaces);
    var entered := EnterPhase(w, env, ScalingIn).0;
    var (reached, listed) := ReachMeta(entered, env);
    if listed {
      RemoveAndFinishStep(reached, env, c, sight);
    }
  }

  lemma RemoveAndFinishStep(w: World, env: Answers, c: Config, sight: Sight)
    requires Durable(env) && Distinct(c.spaces) && Serial(Removal, w, c.spaces) && w.persisted == w.status
    requires c.target < w.replicas
    ensures
      var (w', ok) := RemoveAndFinish(w, env, c, sight);
      && w.next <= w'.next && w.trace <= w'.trace && w'.replicas == w.replicas
      && OneAtATime(w'.trace)
      && (if ok then w'.status == CLEARED && Outstanding(w'.trace) == None && Dropped(w'.trace)
          else
            && Serial(Removal, w', c.spaces) && w'.status.phase == w.status.phase
            && Left(c.spaces, w'.status, Removal) <= Left(c.spaces, w.status, Removal)
            && (Good(env, w.next, w'.next) && sight.hosts.Some? ==>
                  Left(c.spaces, w'.status, Removal) < Left(c.spaces, w.status, Removal)))
  {
    RemoveStep(w, env, c, sight);
    var (removed, dropped) := RemoveHosts(w, env, c, sight);
    if dropped {
      CompleteStep(removed, env, c);
      LeftPositive(c.spaces, w.status, Removal);
    }
  }

  /** Once the hosts are dropped, only failing requests keep the operation from ending. */
  lemma CompleteStep(w: World, env: Answers, c: Config)
    requires Durable(env) && OneAtATime(w.trace) && Outstanding(w.trace) == None && Dropped(w.trace)
    requires Pending(c.spaces, w.status.removed) == []
    ensures
      var (balanced, ok) := BalanceLeaders(w, env, c.spaces);
      var (w', done) := if ok then FinishScaleIn(balanced, env) else (balanced, false);
      && w.next <= w'.next && w.trace <= w'.trace && w'.replicas == w.replicas
      && OneAtATime(w'.trace) && Outstanding(w'.trace) == None && Dropped(w'.trace)
      && (if done then w'.status == CLEARED
          else w'.status == w.status.(balanced := w'.status.balanced) && !Good(env, w.next, w'.next))
  {
    LeadersStep(w, env, c.spaces);
    var (balanced, ok) := BalanceLeaders(w, env, c.spaces);
    DroppedStays(w.trace, balanced.trace);
    if ok {
      FinishScaleInStep(balanced, env);
    }
  }

  lemma FinishScaleInStep(w: World, env: Answers)
    requires Durable(env) && OneAtATime(w.trace) && Outstanding(w.trace) == None && Dropped(w.trace)
    ensures
      var (w', ok) := FinishScaleIn(w, env);
      && w.next <= w'.next && w.trace <= w'.trace && w'.replicas == w.replicas
      && OneAtATime(w'.trace) && Outstanding(w'.trace) == None && Dropped(w'.trace)
      && (if ok then w'.status == CLEARED else w'.status == w.status && !Good(env, w.next, w'.next))
  {
    FinishTrace(w.trace);
    var marked := Request(w, env).0;
    assert !FinishScaleIn(w, env).1 ==> !env(w.next).ok || !env(marked.next).ok;
  }

  lemma FinishTrace(trace: seq<Event>)
    requires OneAtATime(trace) && Outstanding(trace) == None && Dropped(trace)
    ensures
      var marked := trace + [VolumesMarked];
      var cleared := marked + [VolumesGone] + [BookkeepingCleared];
      && OneAtATime(marked) && Outstanding(marked) == None && Dropped(marked)
      && OneAtATime(cleared) && Outstanding(cleared) == None && Dropped(cleared)
  {
    var marked := trace + [VolumesMarked];
    LogSerial(trace, VolumesMarked);
    LogSerial(marked, VolumesGone);
    LogSerial(marked + [VolumesGone], BookkeepingCleared);
    DroppedStays(trace, marked);
    DroppedStays(trace, marked + [VolumesGone] + [BookkeepingCleared]);
  }

  /** Between reconciles the persisted status is up to date. */
  ghost predicate AtRest(w: World, kind: Kind, spaces: seq<int>) {
    w.persisted == w.status && Serial(kind, w, spaces)
  }

  lemma ReconcileInStep(w: World, env: Answers, c: Config, sight: Sight)
    requires Durable(env) && Distinct(c.spaces) && AtRest(w, Removal, c.spaces)
    requires c.target < w.replicas
    ensures
      var w' := Reconcile(w, env, c, sight);
      && w.next <= w'.next && AtRest(w', Removal, c.spaces)
      && (if w'.status == CLEARED then
            && Dropped(w'.trace) && (w'.replicas == c.target || w'.replicas == w.replicas)
            && (Good(env, w.next, w'.next) ==> w'.replicas == c.target)
          else
            && w'.status.phase == ScalingIn && w'.replicas == w.replicas
            && Left(c.spaces, w'.status, Removal) <= Left(c.spaces, w.status, Removal)
            && (Good(env, w.next, w'.next) && sight.hosts.Some? ==>
                  Left(c.spaces, w'.status, Removal) < Left(c.spaces, w.status, Removal)))
  {
    var w0 := w.(status := w.persisted);
    ScaleInStep(w0, env, c, sight);
    var (scaled, ok) := ScaleIn(w0, env, c, sight);
    if ok {
      ResizeStep(scaled, env, c);
    }
  }

  lemma ResizeStep(w: World, env: Answers, c: Config)
    requires Durable(env) && OneAtATime(w.trace) && Outstanding(w.trace) == None && Dropped(w.trace) && c.target < w.replicas
    ensures
      var w' := UpdateWorkload(w, env, c);
      && w.next < w'.next && OneAtATime(w'.trace) && Outstanding(w'.trace) == None && Dropped(w'.trace)
      && w'.status == w.status && w'.persisted == w.persisted
      && w'.replicas == (if env(w.next).ok then c.target else w.replicas)
  {
    LogSerial(w.trace, WorkloadResized(c.target));
    DroppedStays(w.trace, w.trace + [WorkloadResized(c.target)]);
  }

  // ------------------------------------------------------------------ runs of scaling in

  /** The operation is under way, or over. */
  ghost predicate UnderWay(w: World, c: Config) {
    AtRest(w, Removal, c.spaces) && (c.target < w.replicas || (c.target == w.replicas && w.status == CLEARED))
  }

  lemma ReconcileKeepsProgress(w: World, env: Answers, c: Config, sight: Sight)
    requires Durable(env) && Distinct(c.spaces) && UnderWay(w, c)
    ensures UnderWay(Reconcile(w, env, c, sight), c)
    ensures w.next <= Reconcile(w, env, c, sight).next
  {
    if c.target < w.replicas {
      ReconcileInStep(w, env, c, sight);
    }
  }

  /** In every run with durable writes at most one recorded job is outstanding at any time. */
  lemma {:induction false} JobsOneAtATime(st: Status, replicas: int, env: Answers, c: Config, sights: seq<Sight>)
    requires Durable(env) && Distinct(c.spaces) && c.target < replicas
    ensures UnderWay(After(Initial(st, replicas), env, c, sights), c)
    ensures OneAtATime(After(Initial(st, replicas), env, c, sights).trace)
  {
    if sights != [] {
      var n := |sights| - 1;
      JobsOneAtATime(st, replicas, env, c, sights[..n]);
      ReconcileKeepsProgress(After(Initial(st, replicas), env, c, sights[..n]), env, c, sights[n]);
    }
  }

  /** How many of the reconciles saw the pods and had all their requests answered well. */
  ghost function GoodReconciles(w: World, env: Answers, c: Config, sights: seq<Sight>): nat {
    if sights == [] then 0
    else
      var n := |sights| - 1;
      var before := After(w, env, c, sights[..n]);
      GoodReconciles(w, env, c, sights[..n]) +
        if sights[n].hosts.Some? && Good(env, before.next, Reconcile(before, env, c, sights[n]).next) then 1 else 0
  }

  /** Some reconcile of the run ended with the bookkeeping cleared and the phase back to Running. */
  ghost predicate EverCleared(w: World, env: Answers, c: Config, sights: seq<Sight>) {
    sights != [] && (After(w, env, c, sights).persisted == CLEARED || EverCleared(w, env, c, sights[..|sights| - 1]))
  }

  lemma {:induction false} ProgressAddsUp(st: Status, replicas: int, env: Answers, c: Config, sights: seq<Sight>)
    requires Durable(env) && Distinct(c.spaces) && c.target < replicas
    requires !EverCleared(Initial(st, replicas), env, c, sights)
    ensures
      var w := After(Initial(st, replicas), env, c, sights);
      && w.replicas == replicas && AtRest(w, Removal, c.spaces)
      && Left(c.spaces, w.status, Removal) + GoodReconciles(Initial(st, replicas), env, c, sights) <= Left(c.spaces, st, Removal)
  {
    if sights != [] {
      var w0, n := Initial(st, replicas), |sights| - 1;
      ProgressAddsUp(st, replicas, env, c, sights[..n]);
      ReconcileInStep(After(w0, env, c, sights[..n]), env, c, sights[n]);
    }
  }

  /** One reconcile per space and one more in which nothing goes wrong clear the bookkeeping, however many others fail in between. */
  lemma GoodReconcilesClear(st: Status, replicas: int, env: Answers, c: Config, sights: seq<Sight>)
    requires Durable(env) && Distinct(c.spaces) && c.target < replicas
    requires GoodReconciles(Initial(st, replicas), env, c, sights) >= |c.spaces| + 1
    ensures EverCleared(Initial(st, replicas), env, c, sights)
  {
    if !EverCleared(Initial(st, replicas), env, c, sights) {
      ProgressAddsUp(st, replicas, env, c, sights);
      PendingSubset(c.spaces, st.removed);
      PendingSubset(c.spaces, After(Initial(st, replicas), env, c, sights).status.removed);
      LeftPositive(c.spaces, After(Initial(st, replicas), env, c, sights).status, Removal);
    }
  }
}
