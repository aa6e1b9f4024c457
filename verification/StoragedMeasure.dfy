/**
 A measure for scaling: every job started, every finished job entered and every leader balance lowers it by
 one, and nothing but the end of the operation raises it. From this follow exact numbers of jobs, and an end of
 the operation that needs no reconcile to go well from beginning to end.
 */
module StoragedMeasure {
  import opened StoragedScaling
  import opened StoragedSafety
  import opened StoragedProgress
  import opened StoragedScaleOut

  // ------------------------------------------------------------------ counting events

  function Starts(trace: seq<Event>): nat {
    if trace == [] then 0 else Starts(trace[..|trace| - 1]) + if trace[|trace| - 1].JobStarted? then 1 else 0
  }

  function Finishes(trace: seq<Event>): nat {
    if trace == [] then 0
    else Finishes(trace[..|trace| - 1]) + if trace[|trace| - 1].JobReported? && trace[|trace| - 1].state == Finished then 1 else 0
  }

  function LeaderBalances(trace: seq<Event>): nat {
    if trace == [] then 0 else LeaderBalances(trace[..|trace| - 1]) + if trace[|trace| - 1].LeadersBalanced? then 1 else 0
  }

  lemma Counted(trace: seq<Event>, e: Event)
    ensures Starts(trace + [e]) == Starts(trace) + if e.JobStarted? then 1 else 0
    ensures Finishes(trace + [e]) == Finishes(trace) + if e.JobReported? && e.state == Finished then 1 else 0
    ensures LeaderBalances(trace + [e]) == LeaderBalances(trace) + if e.LeadersBalanced? then 1 else 0
  {
    assert (trace + [e])[..|trace|] == trace;
  }

  /** What completes a space: the report of its finished removal job, or the balancing of its leaders. */
  function Completions(kind: Kind, trace: seq<Event>): nat {
    if kind == Removal then Finishes(trace) else LeaderBalances(trace)
  }

  // ------------------------------------------------------------------ what every step conserves

  function Unstarted(spaces: seq<int>, st: Status, kind: Kind): nat {
    if JobPending(spaces, st, kind) then 0 else 1
  }

  /** Spaces pending or completed, and jobs started or to be started for the spaces completed so far and the next. */
  function Ledger(kind: Kind, w: World, spaces: seq<int>): (int, int) {
    (|Pending(spaces, w.Done(kind))| + Completions(kind, w.trace),
     Starts(w.trace) + Unstarted(spaces, w.status, kind) - Completions(kind, w.trace))
  }

  /** Spaces whose leaders are still to be balanced, or have been. */
  function LeaderLedger(w: World, spaces: seq<int>): int {
    |Pending(spaces, w.status.balanced)| + LeaderBalances(w.trace)
  }

  /** What one visit to a pending space leaves unchanged. */
  ghost predicate Conserved(kind: Kind, w: World, w': World, spaces: seq<int>) {
    && Ledger(kind, w', spaces) == Ledger(kind, w, spaces) && w'.status.phase == w.status.phase
    && (kind == Removal ==> w'.status.balanced == w.status.balanced && LeaderBalances(w'.trace) == LeaderBalances(w.trace))
  }

  lemma StartConserves(kind: Kind, w: World, env: Answers, spaces: seq<int>, hosts: seq<int>)
    requires spaces != [] && spaces[0] !in w.Done(kind)
    requires !(w.status.lastJob.Some? && w.status.lastJob.value.space == spaces[0])
    ensures Conserved(kind, w, StartJob(kind, w, env, spaces[0], hosts).0, spaces)
  {
    var a := env(w.next);
    if a.ok && a.jobId > 0 {
      var e := JobStarted(kind, Job(spaces[0], a.jobId), hosts);
      Counted(w.trace, e);
      var w' := StartJob(kind, w, env, spaces[0], hosts).0;
      assert w'.trace == w.trace + [e] && w'.status == w.status.(lastJob := Some(Job(spaces[0], a.jobId)));
      assert Unstarted(spaces, w.status, kind) == 1 && Unstarted(spaces, w'.status, kind) == 0;
    }
  }

  /** Completing the next space, whose job is the recorded one, makes one less pending and the next one unstarted. */
  lemma CompletionShifts(kind: Kind, st: Status, done: Status, spaces: seq<int>)
    requires Distinct(spaces) && spaces != [] && spaces[0] !in DoneOf(st, kind)
    requires st.lastJob.Some? && st.lastJob.value.space == spaces[0] && done.lastJob == st.lastJob
    requires DoneOf(done, kind) == DoneOf(st, kind) + [spaces[0]]
    ensures |Pending(spaces, DoneOf(done, kind))| == |Pending(spaces, DoneOf(st, kind))| - 1
    ensures Unstarted(spaces, st, kind) == 0 && Unstarted(spaces, done, kind) == 1
  {
    PendingNext(spaces, DoneOf(st, kind));
  }

  /** The events of a poll that finds the job unfinished, or finished but without its leaders balanced. */
  lemma UnfinishedCounts(trace: seq<Event>, job: Job, state: JobState)
    ensures
      var polled := trace + [JobReported(job, state)];
      && Starts(polled) == Starts(trace) == Starts(polled + [JobRecovered(job)])
      && LeaderBalances(polled) == LeaderBalances(trace) == LeaderBalances(polled + [JobRecovered(job)])
      && Finishes(polled) == Finishes(polled + [JobRecovered(job)]) == Finishes(trace) + if state == Finished then 1 else 0
  {
    Counted(trace, JobReported(job, state));
    Counted(trace + [JobReported(job, state)], JobRecovered(job));
  }

  /** What a poll of the recorded job does, in terms of status and trace. */
  lemma PollOutcome(kind: Kind, w: World, env: Answers, job: Job)
    requires env(w.next).ok
    ensures
      var (w', ok) := PollJob(kind, w, env, job);
      var state := env(w.next).state;
      var polled := w.trace + [JobReported(job, state)];
      && (state == InProgress ==> w'.status == w.status && w'.trace == polled && !ok)
      && (state == Failed ==> w'.status == w.status && w'.trace == polled + [JobRecovered(job)] && !ok)
      && (state == Finished && kind == Removal ==> w'.status == MarkDone(w, kind, job.space).status && w'.trace == polled)
      && (state == Finished && kind == Balance ==>
            || (w'.status == w.status && w'.trace == polled && !ok)
            || (w'.status == MarkDone(w, kind, job.space).status && w'.trace == polled + [LeadersBalanced(job.space)]))
  {
  }

  lemma PollConserves(kind: Kind, w: World, env: Answers, spaces: seq<int>)
    requires Distinct(spaces) && spaces != [] && spaces[0] !in w.Done(kind)
    requires w.status.lastJob.Some? && w.status.lastJob.value.space == spaces[0]
    ensures
      var (w', ok) := PollJob(kind, w, env, w.status.lastJob.value);
      Conserved(kind, w, w', spaces) && (ok ==> spaces[0] in w'.Done(kind))
  {
    if env(w.next).ok {
      if kind == Removal {
        RemovalPollConserves(w, env, w.status.lastJob.value, spaces);
      } else {
        BalancePollConserves(w, env, w.status.lastJob.value, spaces);
      }
    }
  }

  lemma RemovalPollConserves(w: World, env: Answers, job: Job, spaces: seq<int>)
    requires Distinct(spaces) && spaces != [] && spaces[0] !in w.status.removed && env(w.next).ok
    requires w.status.lastJob == Some(job) && job.space == spaces[0]
    ensures
      var (w', ok) := PollJob(Removal, w, env, job);
      Conserved(Removal, w, w', spaces) && (ok ==> spaces[0] in w'.status.removed)
  {
    var w' := PollJob(Removal, w, env, job).0;
    PollOutcome(Removal, w, env, job);
    UnfinishedCounts(w.trace, job, env(w.next).state);
    if env(w.next).state == Finished {
      RemovalShifts(w, w', job, spaces);
    } else {
      NothingShifts(Removal, w, w', spaces);
    }
  }

  lemma RemovalShifts(w: World, w': World, job: Job, spaces: seq<int>)
    requires Distinct(spaces) && spaces != [] && spaces[0] !in w.status.removed
    requires w.status.lastJob == Some(job) && job.space == spaces[0] && w'.status == MarkDone(w, Removal, job.space).status
    requires Starts(w'.trace) == Starts(w.trace) && Finishes(w'.trace) == Finishes(w.trace) + 1
    requires LeaderBalances(w'.trace) == LeaderBalances(w.trace)
    ensures Conserved(Removal, w, w', spaces)
  {
    CompletionShifts(Removal, w.status, w'.status, spaces);
  }

  lemma BalancePollConserves(w: World, env: Answers, job: Job, spaces: seq<int>)
    requires Distinct(spaces) && spaces != [] && spaces[0] !in w.status.balanced && env(w.next).ok
    requires w.status.lastJob == Some(job) && job.space == spaces[0]
    ensures
      var (w', ok) := PollJob(Balance, w, env, job);
      Conserved(Balance, w, w', spaces) && (ok ==> spaces[0] in w'.status.balanced)
  {
    var w' := PollJob(Balance, w, env, job).0;
    PollOutcome(Balance, w, env, job);
    UnfinishedCounts(w.trace, job, env(w.next).state);
    if w'.status == w.status {
      NothingShifts(Balance, w, w', spaces);
    } else {
      Counted(w.trace + [JobReported(job, Finished)], LeadersBalanced(job.space));
      BalanceShifts(w, w', job, spaces);
    }
  }

  lemma NothingShifts(kind: Kind, w: World, w': World, spaces: seq<int>)
    requires w'.status == w.status && Starts(w'.trace) == Starts(w.trace)
    requires Completions(kind, w'.trace) == Completions(kind, w.trace) && LeaderBalances(w'.trace) == LeaderBalances(w.trace)
    ensures Conserved(kind, w, w', spaces)
  {
  }

  lemma BalanceShifts(w: World, w': World, job: Job, spaces: seq<int>)
    requires Distinct(spaces) && spaces != [] && spaces[0] !in w.status.balanced
    requires w.status.lastJob == Some(job) && job.space == spaces[0] && w'.status == MarkDone(w, Balance, job.space).status
    requires Starts(w'.trace) == Starts(w.trace) && LeaderBalances(w'.trace) == LeaderBalances(w.trace) + 1
    ensures Conserved(Balance, w, w', spaces)
  {
    CompletionShifts(Balance, w.status, w'.status, spaces);
  }

  lemma SpaceConserves(kind: Kind, w: World, env: Answers, spaces: seq<int>, hosts: seq<int>)
    requires Distinct(spaces) && spaces != [] && spaces[0] !in w.Done(kind)
    ensures
      var (w', ok) := ProcessSpace(kind, w, env, spaces[0], hosts);
      Conserved(kind, w, w', spaces) && (ok ==> spaces[0] in w'.Done(kind))
  {
    if w.status.lastJob.Some? && w.status.lastJob.value.space == spaces[0] {
      PollConserves(kind, w, env, spaces);
    } else {
      StartConserves(kind, w, env, spaces, hosts);
    }
  }

  lemma {:induction false} SpacesConserve(kind: Kind, w: World, env: Answers, spaces: seq<int>, hosts: seq<int>)
    requires Distinct(spaces)
    ensures Conserved(kind, w, ProcessSpaces(kind, w, env, spaces, hosts).0, spaces)
    decreases |spaces|
  {
    if spaces != [] {
      if spaces[0] in w.Done(kind) {
        SpacesConserve(kind, w, env, spaces[1..], hosts);
        DoneStays(kind, w, env, spaces[1..], hosts, spaces[0]);
        FirstDone(kind, w, ProcessSpaces(kind, w, env, spaces[1..], hosts).0, spaces);
      } else {
        SpaceConserves(kind, w, env, spaces, hosts);
        var (w', ok) := ProcessSpace(kind, w, env, spaces[0], hosts);
        if ok {
          SpacesConserve(kind, w', env, spaces[1..], hosts);
          DoneStays(kind, w', env, spaces[1..], hosts, spaces[0]);
          FirstDone(kind, w', ProcessSpaces(kind, w', env, spaces[1..], hosts).0, spaces);
        }
      }
    }
  }

  /** A first space that is done does not matter. */
  lemma FirstDone(kind: Kind, w: World, w': World, spaces: seq<int>)
    requires spaces != [] && spaces[0] in w.Done(kind) && spaces[0] in w'.Done(kind)
    requires Conserved(kind, w, w', spaces[1..])
    ensures Conserved(kind, w, w', spaces)
  {
  }

  /** Completing a pending space makes one less pending. */
  lemma {:induction false} OneLessPending(spaces: seq<int>, done: seq<int>, s: int)
    requires Distinct(spaces) && s in spaces && s !in done
    ensures |Pending(spaces, done + [s])| == |Pending(spaces, done)| - 1
  {
    if spaces[0] == s {
      PendingNext(spaces, done);
    } else {
      OneLessPending(spaces[1..], done, s);
    }
  }

  lemma LeaderConserves(w: World, env: Answers, space: int, all: seq<int>)
    requires Distinct(all) && space in all && space !in w.status.balanced
    ensures
      var w' := BalanceLeader(w, env, space).0;
      && LeaderLedger(w', all) == LeaderLedger(w, all)
      && w'.status == w.status.(balanced := w'.status.balanced)
      && Starts(w'.trace) == Starts(w.trace) && Finishes(w'.trace) == Finishes(w.trace)
      && (BalanceLeader(w, env, space).1 ==> space in w'.status.balanced)
  {
    var w' := BalanceLeader(w, env, space).0;
    LeaderOutcome(w, env, space);
    if env(w.next).ok {
      Counted(w.trace, LeadersBalanced(space));
      OneLessPending(all, w.status.balanced, space);
      BalancedLedger(w, w', space, all);
    }
  }

  /** What balancing the leaders of a space does, in terms of status and trace. */
  lemma LeaderOutcome(w: World, env: Answers, space: int)
    ensures
      var (w', ok) := BalanceLeader(w, env, space);
      && (!env(w.next).ok ==> w'.status == w.status && w'.trace == w.trace && !ok)
      && (env(w.next).ok ==>
            w'.status == w.status.(balanced := w.status.balanced + [space]) && w'.trace == w.trace + [LeadersBalanced(space)])
  {
  }

  lemma BalancedLedger(w: World, w': World, space: int, all: seq<int>)
    requires w'.status.balanced == w.status.balanced + [space] && LeaderBalances(w'.trace) == LeaderBalances(w.trace) + 1
    requires |Pending(all, w.status.balanced + [space])| == |Pending(all, w.status.balanced)| - 1
    ensures LeaderLedger(w', all) == LeaderLedger(w, all)
  {
  }

  lemma {:induction false} LeadersConserve(w: World, env: Answers, spaces: seq<int>, all: seq<int>)
    requires Distinct(all) && forall s :: s in spaces ==> s in all
    ensures
      var (w', ok) := BalanceLeaders(w, env, spaces);
      && LeaderLedger(w', all) == LeaderLedger(w, all)
      && w'.status == w.status.(balanced := w'.status.balanced)
      && Starts(w'.trace) == Starts(w.trace) && Finishes(w'.trace) == Finishes(w.trace)
    decreases |spaces|
  {
    if spaces != [] {
      if spaces[0] in w.status.balanced {
        LeadersConserve(w, env, spaces[1..], all);
      } else {
        LeaderConserves(w, env, spaces[0], all);
        LeadersConserve(BalanceLeader(w, env, spaces[0]).0, env, spaces[1..], all);
      }
    }
  }

  // ------------------------------------------------------------------ a reconcile that scales in

  /** Nothing was gained or lost between the two worlds. */
  ghost predicate Books(w: World, w': World, spaces: seq<int>) {
    && Ledger(Removal, w', spaces) == Ledger(Removal, w, spaces) && LeaderLedger(w', spaces) == LeaderLedger(w, spaces)
    && w'.status.phase == w.status.phase
  }

  lemma ConservedIsBooked(w: World, w': World, spaces: seq<int>)
    requires Conserved(Removal, w, w', spaces)
    ensures Books(w, w', spaces)
  {
  }

  lemma SameBooks(w: World, w': World, spaces: seq<int>)
    requires w'.status == w.status && w'.trace == w.trace
    ensures Books(w, w', spaces)
  {
  }

  /** Removals are booked the same if only leaders were balanced meanwhile. */
  lemma BookedByCounts(w: World, w': World, spaces: seq<int>)
    requires w'.status == w.status.(balanced := w'.status.balanced) && LeaderLedger(w', spaces) == LeaderLedger(w, spaces)
    requires Starts(w'.trace) == Starts(w.trace) && Finishes(w'.trace) == Finishes(w.trace)
    ensures Books(w, w', spaces)
  {
  }

  lemma SameCounts(w: World, w': World, spaces: seq<int>)
    requires w'.status == w.status && Starts(w'.trace) == Starts(w.trace)
    requires Finishes(w'.trace) == Finishes(w.trace) && LeaderBalances(w'.trace) == LeaderBalances(w.trace)
    ensures Books(w, w', spaces)
  {
  }

  predicate Uncounted(e: Event) { !e.JobStarted? && !e.JobReported? && !e.LeadersBalanced? }

  lemma UncountedCounts(trace: seq<Event>, e: Event)
    requires Uncounted(e)
    ensures Starts(trace + [e]) == Starts(trace) && Finishes(trace + [e]) == Finishes(trace)
    ensures LeaderBalances(trace + [e]) == LeaderBalances(trace)
  {
    Counted(trace, e);
  }

  /** Events that are not counted leave the books as they are. */
  lemma UncountedEvent(w: World, e: Event, spaces: seq<int>)
    requires Uncounted(e)
    ensures Books(w, w.Logged(e), spaces)
  {
    UncountedCounts(w.trace, e);
    var w' := w.Logged(e);
    assert w'.status == w.status && w'.trace == w.trace + [e];
    SameCounts(w, w', spaces);
  }

  /** Every space that was pending has been completed, and its leaders have been balanced. */
  ghost predicate BooksClosed(w: World, trace: seq<Event>, spaces: seq<int>) {
    && Ledger(Removal, w, spaces) == (Finishes(trace), Starts(trace) + 1 - Finishes(trace))
    && LeaderLedger(w, spaces) == LeaderBalances(trace)
  }

  lemma {:induction false} AllDoneIfOk(kind: Kind, w: World, env: Answers, spaces: seq<int>, hosts: seq<int>)
    requires Distinct(spaces) && ProcessSpaces(kind, w, env, spaces, hosts).1
    ensures Pending(spaces, ProcessSpaces(kind, w, env, spaces, hosts).0.Done(kind)) == []
    decreases |spaces|
  {
    if spaces != [] {
      if spaces[0] in w.Done(kind) {
        AllDoneIfOk(kind, w, env, spaces[1..], hosts);
        DoneStays(kind, w, env, spaces[1..], hosts, spaces[0]);
      } else {
        SpaceConserves(kind, w, env, spaces, hosts);
        var w' := ProcessSpace(kind, w, env, spaces[0], hosts).0;
        AllDoneIfOk(kind, w', env, spaces[1..], hosts);
        DoneStays(kind, w', env, spaces[1..], hosts, spaces[0]);
      }
    }
  }

  lemma {:induction false} BalancedStays(w: World, env: Answers, spaces: seq<int>, s: int)
    requires s in w.status.balanced
    ensures s in BalanceLeaders(w, env, spaces).0.status.balanced
    decreases |spaces|
  {
    if spaces != [] {
      if spaces[0] in w.status.balanced {
        BalancedStays(w, env, spaces[1..], s);
      } else {
        BalancedStays(BalanceLeader(w, env, spaces[0]).0, env, spaces[1..], s);
      }
    }
  }

  lemma {:induction false} AllBalancedIfOk(w: World, env: Answers, spaces: seq<int>)
    requires BalanceLeaders(w, env, spaces).1
    ensures Pending(spaces, BalanceLeaders(w, env, spaces).0.status.balanced) == []
    decreases |spaces|
  {
    if spaces != [] {
      if spaces[0] in w.status.balanced {
        AllBalancedIfOk(w, env, spaces[1..]);
        BalancedStays(w, env, spaces[1..], spaces[0]);
      } else {
        var w' := BalanceLeader(w, env, spaces[0]).0;
        AllBalancedIfOk(w', env, spaces[1..]);
        BalancedStays(w', env, spaces[1..], spaces[0]);
      }
    }
  }

  lemma RemoveConserves(w: World, env: Answers, c: Config, sight: Sight)
    requires Distinct(c.spaces) && c.target < w.replicas
    ensures
      var (w', ok) := RemoveHosts(w, env, c, sight);
      Books(w, w', c.spaces) && (ok ==> Pending(c.spaces, w'.status.removed) == [])
  {
    if sight.hosts.Some? {
      var hosts := sight.hosts.value;
      var (moved, ok) := ProcessSpaces(Removal, w, env, c.spaces, hosts);
      SpacesConserve(Removal, w, env, c.spaces, hosts);
      ConservedIsBooked(w, moved, c.spaces);
      if ok {
        AllDoneIfOk(Removal, w, env, c.spaces, hosts);
        DropConserves(w, moved, env, hosts, c.spaces);
      }
    } else {
      SameBooks(w, w, c.spaces);
    }
  }

  lemma DropConserves(w: World, moved: World, env: Answers, hosts: seq<int>, spaces: seq<int>)
    requires Books(w, moved, spaces)
    ensures Books(w, DropHosts(moved, env, hosts).0, spaces) && DropHosts(moved, env, hosts).0.status == moved.status
  {
    var asked := Request(moved.Logged(DropAsked(hosts)), env).0;
    UncountedEvent(moved, DropAsked(hosts), spaces);
    SameBooks(moved.Logged(DropAsked(hosts)), asked, spaces);
    UncountedEvent(asked, HostsDropped(hosts), spaces);
  }

  lemma LeadersKeepBooks(w: World, env: Answers, spaces: seq<int>)
    requires Distinct(spaces)
    ensures
      var (w', ok) := BalanceLeaders(w, env, spaces);
      Books(w, w', spaces) && w'.status.removed == w.status.removed && (ok ==> Pending(spaces, w'.status.balanced) == [])
  {
    LeadersConserve(w, env, spaces, spaces);
    BookedByCounts(w, BalanceLeaders(w, env, spaces).0, spaces);
    if BalanceLeaders(w, env, spaces).1 {
      AllBalancedIfOk(w, env, spaces);
    }
  }

  lemma RemoveAndFinishConserves(w: World, env: Answers, c: Config, sight: Sight)
    requires Durable(env) && Distinct(c.spaces) && c.target < w.replicas
    ensures
      var (w', ok) := RemoveAndFinish(w, env, c, sight);
      if ok then w'.status == CLEARED && BooksClosed(w, w'.trace, c.spaces) else Books(w, w', c.spaces)
  {
    var (removed, dropped) := RemoveHosts(w, env, c, sight);
    RemoveConserves(w, env, c, sight);
    if dropped {
      var (balanced, ok) := BalanceLeaders(removed, env, c.spaces);
      LeadersKeepBooks(removed, env, c.spaces);
      if ok {
        FinishClosesBooks(w, balanced, env, c.spaces);
      }
    }
  }

  lemma FinishClosesBooks(w: World, balanced: World, env: Answers, spaces: seq<int>)
    requires Durable(env) && Books(w, balanced, spaces)
    requires Pending(spaces, balanced.status.removed) == [] && Pending(spaces, balanced.status.balanced) == []
    ensures
      var (w', ok) := FinishScaleIn(balanced, env);
      if ok then w'.status == CLEARED && BooksClosed(w, w'.trace, spaces) else Books(w, w', spaces)
  {
    var marked := balanced.trace + [VolumesMarked];
    UncountedCounts(balanced.trace, VolumesMarked);
    UncountedCounts(marked, VolumesGone);
    UncountedCounts(marked + [VolumesGone], BookkeepingCleared);
    FinishOutcome(balanced, env);
    var (w', ok) := FinishScaleIn(balanced, env);
    if !ok {
      SameCounts(balanced, w', spaces);
    }
  }

  /** The drop counts as done, and the reconcile goes on, exactly if the request was answered without error. */
  lemma DropOutcome(w: World, env: Answers, hosts: seq<int>)
    ensures
      var (w', ok) := DropHosts(w, env, hosts);
      && (env(w.next).ok ==> ok && w'.trace == w.trace + [DropAsked(hosts)] + [HostsDropped(hosts)])
      && (!env(w.next).ok ==> !ok && w'.trace == w.trace + [DropAsked(hosts)])
      && w'.status == w.status && w'.persisted == w.persisted && w'.replicas == w.replicas
  {
  }

  /** A job counts as started, and is recorded, exactly if the meta service returned a job; the reconcile ends either way. */
  lemma StartOutcome(kind: Kind, w: World, env: Answers, space: int, hosts: seq<int>)
    ensures
      var (w', ok) := StartJob(kind, w, env, space, hosts);
      var job := Job(space, env(w.next).jobId);
      && !ok && w'.replicas == w.replicas
      && (if env(w.next).ok && job.id > 0 then
            w'.trace == w.trace + [JobStarted(kind, job, hosts)] && w'.status == w.status.(lastJob := Some(job))
          else
            w'.trace == w.trace && w'.status == w.status)
  {
  }

  /** The bookkeeping is cleared exactly if the volumes could be marked and are gone. */
  lemma FinishOutcome(w: World, env: Answers)
    requires Durable(env)
    ensures FinishScaleIn(w, env).1 <==> env(w.next).ok && env(w.next + 1).ok
    ensures
      var (w', ok) := FinishScaleIn(w, env);
      if ok then w'.status == CLEARED && w'.trace == w.trace + [VolumesMarked] + [VolumesGone] + [BookkeepingCleared]
      else w'.status == w.status && (w'.trace == w.trace || w'.trace == w.trace + [VolumesMarked])
  {
  }

  lemma ReconcileConserves(w: World, env: Answers, c: Config, sight: Sight)
    requires Durable(env) && Distinct(c.spaces) && c.target < w.replicas && w.persisted == w.status
    ensures
      var w' := Reconcile(w, env, c, sight);
      var entered := w.(status := w.status.(phase := ScalingIn));
      && w'.persisted == w'.status
      && (w'.status != CLEARED ==> Books(entered, w', c.spaces))
      && (w'.status == CLEARED ==> BooksClosed(entered, w'.trace, c.spaces))
  {
    var w0 := w.(status := w.persisted);
    var (scaled, ok) := ScaleIn(w0, env, c, sight);
    ScaleInConserves(w, env, c, sight);
    if ok {
      ResizeKeepsCounts(scaled, env, c);
    } else {
      SameBooks(scaled, WriteStatus(scaled, env).0, c.spaces);
    }
  }

  lemma ResizeKeepsCounts(w: World, env: Answers, c: Config)
    ensures
      var w' := UpdateWorkload(w, env, c);
      && w'.status == w.status && Starts(w'.trace) == Starts(w.trace)
      && Finishes(w'.trace) == Finishes(w.trace) && LeaderBalances(w'.trace) == LeaderBalances(w.trace)
  {
    Counted(w.trace, WorkloadResized(c.target));
  }

  lemma ScaleInConserves(w: World, env: Answers, c: Config, sight: Sight)
    requires Durable(env) && Distinct(c.spaces) && c.target < w.replicas && w.persisted == w.status
    ensures
      var (w', ok) := ScaleIn(w.(status := w.persisted), env, c, sight);
      var entered := w.(status := w.status.(phase := ScalingIn));
      if ok then w'.status == CLEARED && BooksClosed(entered, w'.trace, c.spaces) else Books(entered, w', c.spaces)
  {
    var entered := w.(status := w.status.(phase := ScalingIn));
    var (stored, _) := EnterPhase(w.(status := w.persisted), env, ScalingIn);
    var (reached, listed) := ReachMeta(stored, env);
    SameBooks(entered, reached, c.spaces);
    if listed {
      RemoveAndFinishConserves(reached, env, c, sight);
    }
  }

  // ------------------------------------------------------------------ the measure

  /** What is left of a removal: two for each space, one of them gone once its job is started, and one for its leaders. */
  function Measure(spaces: seq<int>, st: Status): nat {
    2 * |Pending(spaces, st.removed)| + Unstarted(spaces, st, Removal) + |Pending(spaces, st.balanced)|
  }

  /** Jobs started, jobs reported as finished, and leader balances. */
  function Progress(trace: seq<Event>): nat { Starts(trace) + Finishes(trace) + LeaderBalances(trace) }

  lemma {:induction false} CountsGrow(trace: seq<Event>, longer: seq<Event>)
    requires trace <= longer
    ensures Starts(trace) <= Starts(longer) && Finishes(trace) <= Finishes(longer) && LeaderBalances(trace) <= LeaderBalances(longer)
    decreases |longer|
  {
    if |trace| < |longer| {
      CountsGrow(trace, longer[..|longer| - 1]);
    } else {
      assert trace == longer;
    }
  }

  lemma MeasureAtMost(spaces: seq<int>, st: Status)
    ensures 1 <= Measure(spaces, st) <= 3 * |spaces| + 1
  {
    PendingSubset(spaces, st.removed);
    PendingSubset(spaces, st.balanced);
  }

  /**
   A reconcile that does not end the operation lowers the measure by exactly the number of jobs started, jobs
   finished and leaders balanced in it, and a good one lowers it.
   */
  lemma ReconcileLowers(w: World, env: Answers, c: Config, sight: Sight)
    requires Durable(env) && Distinct(c.spaces) && AtRest(w, Removal, c.spaces) && c.target < w.replicas
    ensures
      var w' := Reconcile(w, env, c, sight);
      w'.status != CLEARED ==>
        && Measure(c.spaces, w'.status) == Measure(c.spaces, w.status) - (Progress(w'.trace) - Progress(w.trace))
        && Progress(w'.trace) >= Progress(w.trace)
        && (sight.hosts.Some? && Good(env, w.next, w'.next) ==> Measure(c.spaces, w'.status) < Measure(c.spaces, w.status))
  {
    var w' := Reconcile(w, env, c, sight);
    ReconcileConserves(w, env, c, sight);
    ReconcileInStep(w, env, c, sight);
    ReconcileOnlyAdds(w, env, c, sight);
    CountsGrow(w.trace, w'.trace);
    if w'.status != CLEARED {
      Lowered(w, w', c.spaces);
    }
  }

  lemma ReconcileOnlyAdds(w: World, env: Answers, c: Config, sight: Sight)
    requires Durable(env) && Distinct(c.spaces) && AtRest(w, Removal, c.spaces) && c.target < w.replicas
    ensures w.trace <= Reconcile(w, env, c, sight).trace
  {
    ScaleInStep(w.(status := w.persisted), env, c, sight);
    ResizeOnlyAdds(ScaleIn(w.(status := w.persisted), env, c, sight).0, env, c);
  }

  lemma ResizeOnlyAdds(w: World, env: Answers, c: Config)
    ensures w.trace <= UpdateWorkload(w, env, c).trace
  {
  }

  lemma Lowered(w: World, w': World, spaces: seq<int>)
    requires Books(w.(status := w.status.(phase := ScalingIn)), w', spaces)
    requires Finishes(w.trace) <= Finishes(w'.trace) && LeaderBalances(w.trace) <= LeaderBalances(w'.trace)
    ensures Measure(spaces, w'.status) == Measure(spaces, w.status) - (Progress(w'.trace) - Progress(w.trace))
    ensures Left(spaces, w'.status, Removal) < Left(spaces, w.status, Removal) ==> Measure(spaces, w'.status) < Measure(spaces, w.status)
  {
  }

  // ------------------------------------------------------------------ runs

  /** The reconcile started or finished a job or balanced leaders, or nothing at all went wrong in it. */
  ghost predicate Useful(before: World, after: World, env: Answers, sight: Sight) {
    || Progress(after.trace) > Progress(before.trace)
    || (sight.hosts.Some? && Good(env, before.next, after.next))
  }

  ghost function UsefulReconciles(w: World, env: Answers, c: Config, sights: seq<Sight>): nat {
    if sights == [] then 0
    else
      var n := |sights| - 1;
      UsefulReconciles(w, env, c, sights[..n]) +
        if Useful(After(w, env, c, sights[..n]), After(w, env, c, sights), env, sights[n]) then 1 else 0
  }

  /** How often the bookkeeping was cleared while the workload could not be updated: the operation starts again. */
  ghost function Restarts(w: World, env: Answers, c: Config, sights: seq<Sight>): nat {
    if sights == [] then 0
    else
      var n := |sights| - 1;
      var after := After(w, env, c, sights);
      Restarts(w, env, c, sights[..n]) + if after.persisted == CLEARED && after.replicas != c.target then 1 else 0
  }

  /** The operation ended: the workload has the target size, and all bookkeeping is cleared. */
  ghost predicate EverEnded(w: World, env: Answers, c: Config, sights: seq<Sight>) {
    sights != [] &&
      var after := After(w, env, c, sights);
      (after.persisted == CLEARED && after.replicas == c.target) || EverEnded(w, env, c, sights[..|sights| - 1])
  }

  lemma OneReconcile(w: World, env: Answers, c: Config, sight: Sight)
    requires Durable(env) && Distinct(c.spaces) && AtRest(w, Removal, c.spaces) && c.target < w.replicas
    ensures
      var w' := Reconcile(w, env, c, sight);
      var again := w'.persisted == CLEARED && w'.replicas != c.target;
      && AtRest(w', Removal, c.spaces)
      && (!(w'.persisted == CLEARED && w'.replicas == c.target) ==>
            && w'.replicas == w.replicas
            && Measure(c.spaces, w'.status) + (if Useful(w, w', env, sight) then 1 else 0)
               <= Measure(c.spaces, w.status) + (if again then 3 * |c.spaces| + 1 else 0))
  {
    ReconcileInStep(w, env, c, sight);
    ReconcileLowers(w, env, c, sight);
    MeasureAtMost(c.spaces, w.status);
    MeasureAtMost(c.spaces, Reconcile(w, env, c, sight).status);
  }

  /** `k` times `m`. */
  function Times(k: nat, m: nat): nat {
    if k == 0 then 0 else Times(k - 1, m) + m
  }

  lemma {:induction false} TimesIsProduct(k: nat, m: nat)
    ensures Times(k, m) == k * m
  {
    if k > 0 {
      TimesIsProduct(k - 1, m);
      assert (k - 1) * m + m == k * m;
    }
  }

  /** The measure and the useful reconciles together stay within what the starts of the operation allow. */
  predicate WithinAllowance(start: nat, now: nat, cap: nat, useful: nat, restarts: nat) {
    now + useful <= start + Times(restarts, cap)
  }

  /** Fewer useful reconciles than the cap for each start of the operation. */
  predicate Bounded(cap: nat, useful: nat, restarts: nat) {
    useful < Times(restarts + 1, cap)
  }

  predicate InAllowance(spaces: seq<int>, st: Status, now: Status, useful: nat, restarts: nat) {
    && WithinAllowance(Measure(spaces, st), Measure(spaces, now), 3 * |spaces| + 1, useful, restarts)
    && FewUseful(spaces, useful, restarts)
  }

  /** There were fewer useful reconciles than three for each space and one more, for each start of the operation. */
  predicate FewUseful(spaces: seq<int>, useful: nat, restarts: nat) {
    Bounded(3 * |spaces| + 1, useful, restarts)
  }

  lemma InAllowanceKept(spaces: seq<int>, st: Status, before: Status, after: Status, useful: nat, useful': nat, restarts: nat, restarts': nat)
    requires InAllowance(spaces, st, before, useful, restarts) && restarts <= restarts' <= restarts + 1
    requires Measure(spaces, after) + (useful' - useful)
          <= Measure(spaces, before) + if restarts' > restarts then 3 * |spaces| + 1 else 0
    ensures InAllowance(spaces, st, after, useful', restarts')
  {
    MeasureAtMost(spaces, st);
    MeasureAtMost(spaces, after);
    AllowanceKept(Measure(spaces, st), Measure(spaces, before), Measure(spaces, after), 3 * |spaces| + 1, useful, useful', restarts, restarts');
  }

  lemma {:induction false} UsefulAddsUp(st: Status, replicas: int, env: Answers, c: Config, sights: seq<Sight>)
    requires Durable(env) && Distinct(c.spaces) && c.target < replicas
    requires !EverEnded(Initial(st, replicas), env, c, sights)
    ensures
      var w0, w := Initial(st, replicas), After(Initial(st, replicas), env, c, sights);
      && w.replicas == replicas && AtRest(w, Removal, c.spaces)
      && InAllowance(c.spaces, st, w.status, UsefulReconciles(w0, env, c, sights), Restarts(w0, env, c, sights))
  {
    if sights != [] {
      var w0, n := Initial(st, replicas), |sights| - 1;
      UsefulAddsUp(st, replicas, env, c, sights[..n]);
      OneReconcile(After(w0, env, c, sights[..n]), env, c, sights[n]);
      OneMoreCounted(w0, env, c, sights);
      InAllowanceKept(c.spaces, st, After(w0, env, c, sights[..n]).status, After(w0, env, c, sights).status,
                    UsefulReconciles(w0, env, c, sights[..n]), UsefulReconciles(w0, env, c, sights),
                    Restarts(w0, env, c, sights[..n]), Restarts(w0, env, c, sights));
    }
  }

  lemma OneMoreCounted(w0: World, env: Answers, c: Config, sights: seq<Sight>)
    requires sights != []
    ensures
      var n := |sights| - 1;
      var w, w' := After(w0, env, c, sights[..n]), After(w0, env, c, sights);
      && w' == Reconcile(w, env, c, sights[n])
      && UsefulReconciles(w0, env, c, sights) == UsefulReconciles(w0, env, c, sights[..n]) + (if Useful(w, w', env, sights[n]) then 1 else 0)
      && Restarts(w0, env, c, sights)
         == Restarts(w0, env, c, sights[..n]) + (if w'.persisted == CLEARED && w'.replicas != c.target then 1 else 0)
  {
  }

  lemma AllowanceKept(start: nat, before: nat, after: nat, cap: nat, useful: nat, useful': nat, restarts: nat, restarts': nat)
    requires WithinAllowance(start, before, cap, useful, restarts) && restarts <= restarts' <= restarts + 1
    requires after + (useful' - useful) <= before + if restarts' > restarts then cap else 0
    requires start <= cap && after >= 1
    ensures WithinAllowance(start, after, cap, useful', restarts') && Bounded(cap, useful', restarts')
  {
  }

  /**
   Scaling in ends, with the workload shrunk and all bookkeeping cleared, once three reconciles per space and one
   more were useful, for each time that the operation had to start (because the workload update failed after the
   bookkeeping had been cleared). A reconcile is useful if any job was started or finished or any leaders were
   balanced in it, however it ended.
   */
  lemma ScaleInEnds(st: Status, replicas: int, env: Answers, c: Config, sights: seq<Sight>)
    requires Durable(env) && Distinct(c.spaces) && c.target < replicas
    requires !FewUseful(c.spaces, UsefulReconciles(Initial(st, replicas), env, c, sights), Restarts(Initial(st, replicas), env, c, sights))
    ensures EverEnded(Initial(st, replicas), env, c, sights)
  {
    if !EverEnded(Initial(st, replicas), env, c, sights) {
      UsefulAddsUp(st, replicas, env, c, sights);
    }
  }

  // ------------------------------------------------------------------ exactly the work that is due

  lemma {:induction false} BooksOverRuns(st: Status, replicas: int, env: Answers, c: Config, sights: seq<Sight>)
    requires Durable(env) && Distinct(c.spaces) && c.target < replicas
    requires !EverCleared(Initial(st, replicas), env, c, sights)
    ensures
      var w0, w := Initial(st, replicas), After(Initial(st, replicas), env, c, sights);
      && w.persisted == w.status && w.replicas == replicas
      && Ledger(Removal, w, c.spaces) == Ledger(Removal, w0, c.spaces)
      && LeaderLedger(w, c.spaces) == LeaderLedger(w0, c.spaces)
  {
    if sights != [] {
      var n := |sights| - 1;
      var before := After(Initial(st, replicas), env, c, sights[..n]);
      BooksOverRuns(st, replicas, env, c, sights[..n]);
      ProgressAddsUp(st, replicas, env, c, sights);
      ReconcileConserves(before, env, c, sights[n]);
      PhaseDoesNotMatter(before, c.spaces);
    }
  }

  lemma PhaseDoesNotMatter(w: World, spaces: seq<int>)
    ensures
      var entered := w.(status := w.status.(phase := ScalingIn));
      Ledger(Removal, entered, spaces) == Ledger(Removal, w, spaces) && LeaderLedger(entered, spaces) == LeaderLedger(w, spaces)
  {
  }

  /** At no time before the end have more jobs finished, or leaders been balanced, than there are spaces. */
  lemma NoMoreThanDue(st: Status, replicas: int, env: Answers, c: Config, sights: seq<Sight>)
    requires Durable(env) && Distinct(c.spaces) && c.target < replicas
    requires !EverCleared(Initial(st, replicas), env, c, sights)
    ensures
      var trace := After(Initial(st, replicas), env, c, sights).trace;
      Finishes(trace) <= |c.spaces| && LeaderBalances(trace) <= |c.spaces| && Starts(trace) <= Finishes(trace) + 1
  {
    BooksOverRuns(st, replicas, env, c, sights);
    PendingSubset(c.spaces, st.removed);
    PendingSubset(c.spaces, st.balanced);
  }

  /** When the bookkeeping is first cleared, exactly the pending spaces have had a job finished, and their leaders balanced. */
  lemma ExactlyTheWorkDue(st: Status, replicas: int, env: Answers, c: Config, sights: seq<Sight>, last: Sight)
    requires Durable(env) && Distinct(c.spaces) && c.target < replicas
    requires !EverCleared(Initial(st, replicas), env, c, sights)
    requires After(Initial(st, replicas), env, c, sights + [last]).persisted == CLEARED
    ensures
      var trace := After(Initial(st, replicas), env, c, sights + [last]).trace;
      && Finishes(trace) == |Pending(c.spaces, st.removed)|
      && LeaderBalances(trace) == |Pending(c.spaces, st.balanced)|
      && Starts(trace) == Finishes(trace) - if JobPending(c.spaces, st, Removal) then 1 else 0
  {
    var before := After(Initial(st, replicas), env, c, sights);
    BooksOverRuns(st, replicas, env, c, sights);
    ReconcileConserves(before, env, c, last);
    PhaseDoesNotMatter(before, c.spaces);
    assert (sights + [last])[..|sights|] == sights;
  }
}
