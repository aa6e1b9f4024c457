/**
 Safety of scaling in, over every run and every behaviour of the environment, lost status writes
 included: hosts are dropped, and the workload is shrunk, only after every space has had a removal
 job for exactly those hosts reported as finished.
 */
module StoragedSafety {
  import opened StoragedScaling

  /** The world after a whole run of reconciles. */
  function After(w: World, env: Answers, c: Config, sights: seq<Sight>): World {
    if sights == [] then w
    else Reconcile(After(w, env, c, sights[..|sights| - 1]), env, c, sights[|sights| - 1])
  }

  ghost predicate Started(trace: seq<Event>, kind: Kind, job: Job, hosts: seq<int>) {
    JobStarted(kind, job, hosts) in trace
  }

  /** Some job of this kind for this space was started and later reported as finished. */
  ghost predicate JobDone(trace: seq<Event>, kind: Kind, space: int, hosts: seq<int>) {
    exists i: nat, id: int :: DoneAt(trace, kind, Job(space, id), hosts, i)
  }

  ghost predicate DoneAt(trace: seq<Event>, kind: Kind, job: Job, hosts: seq<int>, i: nat) {
    i < |trace| && trace[i] == JobReported(job, Finished) && Started(trace[..i], kind, job, hosts)
  }

  ghost predicate AllMoved(trace: seq<Event>, spaces: seq<int>, hosts: seq<int>) {
    forall s :: s in spaces ==> JobDone(trace, Removal, s, hosts)
  }

  /** The event gives hosts away, or ends the operation that does. */
  predicate Irreversible(e: Event) { e.DropAsked? || e.HostsDropped? || e.WorkloadResized? || e.BookkeepingCleared? }

  /**
   At every point where hosts are given away, all data had been moved off them; the workload is shrunk, and the
   bookkeeping cleared, only after the drop of exactly these hosts was answered well, and the bookkeeping only
   after the volumes were marked and gone.
   */
  ghost predicate Safe(trace: seq<Event>, spaces: seq<int>, hosts: seq<int>) {
    forall i :: 0 <= i < |trace| && Irreversible(trace[i]) ==>
      && AllMoved(trace[..i], spaces, hosts)
      && (trace[i].DropAsked? || trace[i].HostsDropped? ==> trace[i].hosts == hosts)
      && (trace[i].WorkloadResized? || trace[i].BookkeepingCleared? ==> HostsDropped(hosts) in trace[..i])
      && (trace[i].BookkeepingCleared? ==> Reclaimed(trace[..i]))
  }

  /** The volumes have just been marked and found gone. */
  predicate Reclaimed(trace: seq<Event>) {
    |trace| >= 2 && trace[|trace| - 2] == VolumesMarked && trace[|trace| - 1] == VolumesGone
  }

  /** Every reconcile that can see the pods sees the same hosts to remove. */
  ghost predicate SameHosts(sights: seq<Sight>, hosts: seq<int>) {
    forall i :: 0 <= i < |sights| && sights[i].hosts.Some? ==> sights[i].hosts.value == hosts
  }

  /**
   Bookkeeping from which a removal of hosts can start safely: no space counts as done, and no
   leftover job would be taken for the first space's removal.
   */
  predicate Clean(spaces: seq<int>, st: Status) {
    && (forall s :: s in spaces ==> s !in st.removed)
    && (st.lastJob.Some? && spaces != [] ==> st.lastJob.value.space != spaces[0])
  }

  predicate Distinct(spaces: seq<int>) {
    forall i, j :: 0 <= i < j < |spaces| ==> spaces[i] != spaces[j]
  }

  // ------------------------------------------------------------------ the invariant

  /** What the status says has really happened. */
  ghost predicate Honest(st: Status, trace: seq<Event>, spaces: seq<int>, hosts: seq<int>) {
    && (forall s :: s in spaces && s in st.removed ==> JobDone(trace, Removal, s, hosts))
    && (st.lastJob.Some? && st.lastJob.value.space in spaces ==>
          || Started(trace, Removal, st.lastJob.value, hosts)
          || (spaces[0] !in st.removed && st.lastJob.value.space != spaces[0]))
  }

  ghost predicate Sound(w: World, c: Config, hosts: seq<int>) {
    && Safe(w.trace, c.spaces, hosts)
    && Honest(w.persisted, w.trace, c.spaces, hosts)
    && Honest(w.status, w.trace, c.spaces, hosts)
  }

  /** The trace has grown. */
  ghost predicate Grown(w: World, w': World) {
    w.trace <= w'.trace && w.replicas == w'.replicas
  }

  lemma JobDoneStays(trace: seq<Event>, longer: seq<Event>, kind: Kind, space: int, hosts: seq<int>)
    requires trace <= longer && JobDone(trace, kind, space, hosts)
    ensures JobDone(longer, kind, space, hosts)
  {
    var i: nat, id: int :| DoneAt(trace, kind, Job(space, id), hosts, i);
    assert longer[..i] == trace[..i];
    assert DoneAt(longer, kind, Job(space, id), hosts, i);
  }

  lemma HonestStays(st: Status, trace: seq<Event>, longer: seq<Event>, spaces: seq<int>, hosts: seq<int>)
    requires trace <= longer && Honest(st, trace, spaces, hosts)
    ensures Honest(st, longer, spaces, hosts)
  {
    forall s | s in spaces && s in st.removed
      ensures JobDone(longer, Removal, s, hosts)
    {
      JobDoneStays(trace, longer, Removal, s, hosts);
    }
  }

  /** Harmless events keep a world sound. */
  lemma LogStays(w: World, e: Event, c: Config, hosts: seq<int>)
    requires Sound(w, c, hosts)
    requires Irreversible(e) ==>
      && AllMoved(w.trace, c.spaces, hosts)
      && (e.DropAsked? || e.HostsDropped? ==> e.hosts == hosts)
      && (e.WorkloadResized? || e.BookkeepingCleared? ==> HostsDropped(hosts) in w.trace)
      && (e.BookkeepingCleared? ==> Reclaimed(w.trace))
    ensures Sound(w.Logged(e), c, hosts)
  {
    HonestStays(w.persisted, w.trace, w.Logged(e).trace, c.spaces, hosts);
    HonestStays(w.status, w.trace, w.Logged(e).trace, c.spaces, hosts);
    forall i | 0 <= i < |w.trace|
      ensures w.Logged(e).trace[..i] == w.trace[..i]
    {}
    assert w.Logged(e).trace[..|w.trace|] == w.trace;
  }

  lemma PollStays(w: World, env: Answers, c: Config, hosts: seq<int>, job: Job)
    requires Sound(w, c, hosts) && Started(w.trace, Removal, job, hosts)
    requires w.status.lastJob == Some(job)
    ensures
      var (w', ok) := PollJob(Removal, w, env, job);
      && Sound(w', c, hosts) && Grown(w, w')
      && (ok ==> w'.status.removed == w.status.removed + [job.space])
  {
    var a := env(w.next);
    if a.ok {
      LogStays(w.Asked(), JobReported(job, a.state), c, hosts);
      var polled := w.Asked().Logged(JobReported(job, a.state));
      if a.state == Failed {
        LogStays(polled.Asked(), JobRecovered(job), c, hosts);
      } else if a.state == Finished {
        assert polled.trace[..|w.trace|] == w.trace;
        assert DoneAt(polled.trace, Removal, Job(job.space, job.id), hosts, |w.trace|);
        assert Honest(MarkDone(polled, Removal, job.space).status, polled.trace, c.spaces, hosts);
      }
    }
  }

  lemma StartStays(w: World, env: Answers, c: Config, hosts: seq<int>, space: int)
    requires Sound(w, c, hosts)
    ensures
      var (w', ok) := StartJob(Removal, w, env, space, hosts);
      Sound(w', c, hosts) && Grown(w, w') && !ok
  {
    var a := env(w.next);
    if a.ok && a.jobId > 0 {
      LogStays(w.Asked(), JobStarted(Removal, Job(space, a.jobId), hosts), c, hosts);
    }
  }

  /** The loop over the spaces: `done` are those already passed. */
  lemma {:induction false} ProcessStays(w: World, env: Answers, c: Config, hosts: seq<int>, done: seq<int>, rest: seq<int>)
    requires Sound(w, c, hosts) && done + rest == c.spaces
    requires forall s :: s in done ==> s in w.status.removed
    ensures
      var (w', ok) := ProcessSpaces(Removal, w, env, rest, hosts);
      && Sound(w', c, hosts) && Grown(w, w')
      && (ok ==> forall s :: s in c.spaces ==> s in w'.status.removed)
    decreases |rest|
  {
    if rest != [] {
      var s := rest[0];
      assert (done + [s]) + rest[1..] == c.spaces;
      if s in w.status.removed {
        ProcessStays(w, env, c, hosts, done + [s], rest[1..]);
      } else {
        var (w', ok) := ProcessSpace(Removal, w, env, s, hosts);
        if w.status.lastJob.Some? && w.status.lastJob.value.space == s {
          assert s in c.spaces;
          assert done != [] ==> c.spaces[0] == done[0];
          PollStays(w, env, c, hosts, w.status.lastJob.value);
        } else {
          StartStays(w, env, c, hosts, s);
        }
        if ok {
          ProcessStays(w', env, c, hosts, done + [s], rest[1..]);
        }
      }
    }
  }

  lemma LeaderStays(w: World, env: Answers, c: Config, hosts: seq<int>, space: int)
    requires Sound(w, c, hosts)
    ensures Sound(BalanceLeader(w, env, space).0, c, hosts) && Grown(w, BalanceLeader(w, env, space).0)
  {
    LogStays(w.Asked(), LeadersBalanced(space), c, hosts);
  }

  lemma {:induction false} LeadersStay(w: World, env: Answers, c: Config, hosts: seq<int>, rest: seq<int>)
    requires Sound(w, c, hosts)
    ensures
      var (w', ok) := BalanceLeaders(w, env, rest);
      Sound(w', c, hosts) && Grown(w, w')
    decreases |rest|
  {
    if rest != [] {
      if rest[0] in w.status.balanced {
        LeadersStay(w, env, c, hosts, rest[1..]);
      } else {
        LeaderStays(w, env, c, hosts, rest[0]);
        var (w', ok) := BalanceLeader(w, env, rest[0]);
        if ok {
          LeadersStay(w', env, c, hosts, rest[1..]);
        }
      }
    }
  }

  lemma RemoveStays(w: World, env: Answers, c: Config, hosts: seq<int>, sight: Sight)
    requires Sound(w, c, hosts) && c.target < w.replicas && SameHosts([sight], hosts)
    ensures
      var (w', ok) := RemoveHosts(w, env, c, sight);
      && Sound(w', c, hosts) && Grown(w, w')
      && (ok ==> AllMoved(w'.trace, c.spaces, hosts) && HostsDropped(hosts) in w'.trace)
  {
    assert [sight][0] == sight;
    if sight.hosts.Some? {
      ProcessStays(w, env, c, hosts, [], c.spaces);
      var (moved, ok) := ProcessSpaces(Removal, w, env, c.spaces, hosts);
      if ok {
        DropStays(moved, env, c, hosts);
      }
    }
  }

  lemma DropStays(w: World, env: Answers, c: Config, hosts: seq<int>)
    requires Sound(w, c, hosts) && AllMoved(w.trace, c.spaces, hosts)
    ensures
      var (w', ok) := DropHosts(w, env, hosts);
      && Sound(w', c, hosts) && Grown(w, w') && AllMoved(w'.trace, c.spaces, hosts)
      && (ok ==> HostsDropped(hosts) in w'.trace)
  {
    LogStays(w, DropAsked(hosts), c, hosts);
    var asked := Request(w.Logged(DropAsked(hosts)), env).0;
    AllMovedStays(w.trace, asked.trace, c.spaces, hosts);
    LogStays(asked, HostsDropped(hosts), c, hosts);
    AllMovedStays(w.trace, asked.Logged(HostsDropped(hosts)).trace, c.spaces, hosts);
  }

  lemma AllMovedStays(trace: seq<Event>, longer: seq<Event>, spaces: seq<int>, hosts: seq<int>)
    requires trace <= longer && AllMoved(trace, spaces, hosts)
    ensures AllMoved(longer, spaces, hosts)
  {
    forall s | s in spaces
      ensures JobDone(longer, Removal, s, hosts)
    {
      JobDoneStays(trace, longer, Removal, s, hosts);
    }
  }

  lemma FinishStays(w: World, env: Answers, c: Config, hosts: seq<int>)
    requires Sound(w, c, hosts) && AllMoved(w.trace, c.spaces, hosts) && HostsDropped(hosts) in w.trace
    ensures
      var (w', ok) := FinishScaleIn(w, env);
      && Sound(w', c, hosts) && Grown(w, w')
      && (ok ==> w'.status == CLEARED && w'.persisted == CLEARED)
  {
    var marked := Request(w, env).0;
    var reclaimed := Request(marked.Logged(VolumesMarked), env).0;
    LogStays(marked, VolumesMarked, c, hosts);
    ClearingStays(w, reclaimed, c, hosts);
    assert Honest(CLEARED, FinishScaleIn(w, env).0.trace, c.spaces, hosts) by {
      assert CLEARED.removed == [] && CLEARED.lastJob == None;
    }
  }

  lemma ClearingStays(w: World, reclaimed: World, c: Config, hosts: seq<int>)
    requires Sound(reclaimed, c, hosts) && reclaimed.trace == w.trace + [VolumesMarked]
    requires AllMoved(w.trace, c.spaces, hosts) && HostsDropped(hosts) in w.trace
    ensures Sound(reclaimed.Logged(VolumesGone).Logged(BookkeepingCleared), c, hosts)
  {
    LogStays(reclaimed, VolumesGone, c, hosts);
    var gone := reclaimed.Logged(VolumesGone);
    AllMovedStays(w.trace, gone.trace, c.spaces, hosts);
    LogStays(gone, BookkeepingCleared, c, hosts);
  }

  lemma EnterStays(w: World, env: Answers, c: Config, hosts: seq<int>)
    requires Sound(w, c, hosts)
    ensures
      var entered := EnterPhase(w, env, ScalingIn).0;
      var reached := ReachMeta(entered, env).0;
      && Sound(entered, c, hosts) && entered.trace == w.trace && entered.replicas == w.replicas
      && Sound(reached, c, hosts) && reached.trace == w.trace && reached.replicas == w.replicas
  {}

  lemma ScaleInStays(w: World, env: Answers, c: Config, hosts: seq<int>, sight: Sight)
    requires Sound(w, c, hosts) && c.target < w.replicas && SameHosts([sight], hosts)
    ensures
      var (w', ok) := ScaleIn(w, env, c, sight);
      && Sound(w', c, hosts) && Grown(w, w')
      && (ok ==> AllMoved(w'.trace, c.spaces, hosts) && HostsDropped(hosts) in w'.trace)
      && (ok ==> w'.status == CLEARED && w'.persisted == CLEARED)
  {
    EnterStays(w, env, c, hosts);
    var (entered, stored) := EnterPhase(w, env, ScalingIn);
    var (reached, listed) := ReachMeta(entered, env);
    if stored && listed {
      RemoveAndFinishStays(reached, env, c, hosts, sight);
    }
  }

  lemma RemoveAndFinishStays(w: World, env: Answers, c: Config, hosts: seq<int>, sight: Sight)
    requires Sound(w, c, hosts) && c.target < w.replicas && SameHosts([sight], hosts)
    ensures
      var (w', ok) := RemoveAndFinish(w, env, c, sight);
      && Sound(w', c, hosts) && Grown(w, w')
      && (ok ==> AllMoved(w'.trace, c.spaces, hosts) && HostsDropped(hosts) in w'.trace)
      && (ok ==> w'.status == CLEARED && w'.persisted == CLEARED)
  {
    RemoveStays(w, env, c, hosts, sight);
    var (removed, dropped) := RemoveHosts(w, env, c, sight);
    if dropped {
      LeadersStay(removed, env, c, hosts, c.spaces);
      var (balanced, ok) := BalanceLeaders(removed, env, c.spaces);
      AllMovedStays(removed.trace, balanced.trace, c.spaces, hosts);
      assert HostsDropped(hosts) in balanced.trace;
      if ok {
        FinishStays(balanced, env, c, hosts);
        AllMovedStays(removed.trace, FinishScaleIn(balanced, env).0.trace, c.spaces, hosts);
      }
    }
  }

  // ------------------------------------------------------------------ whole runs

  /** Before the workload is shrunk the bookkeeping is honest; afterwards there is nothing left to do. */
  ghost predicate RunInvariant(w: World, c: Config, hosts: seq<int>) {
    && Safe(w.trace, c.spaces, hosts)
    && c.target <= w.replicas
    && (c.target < w.replicas ==> Honest(w.persisted, w.trace, c.spaces, hosts))
    && (c.target == w.replicas ==> w.persisted.phase == Running)
  }

  lemma ReconcileStays(w: World, env: Answers, c: Config, hosts: seq<int>, sight: Sight)
    requires RunInvariant(w, c, hosts) && SameHosts([sight], hosts)
    ensures RunInvariant(Reconcile(w, env, c, sight), c, hosts)
  {
    if c.target < w.replicas {
      var w0 := w.(status := w.persisted);
      ScaleInStays(w0, env, c, hosts, sight);
      var (scaled, ok) := ScaleIn(w0, env, c, sight);
      if ok {
        LogStays(scaled.Asked(), WorkloadResized(c.target), c, hosts);
      }
    }
  }

  lemma {:induction false} RunsKeepInvariant(w: World, env: Answers, c: Config, hosts: seq<int>, sights: seq<Sight>)
    requires RunInvariant(w, c, hosts) && SameHosts(sights, hosts)
    ensures RunInvariant(After(w, env, c, sights), c, hosts)
  {
    if sights != [] {
      var n := |sights| - 1;
      RunsKeepInvariant(w, env, c, hosts, sights[..n]);
      ReconcileStays(After(w, env, c, sights[..n]), env, c, hosts, sights[n]);
    }
  }

  /** At the start of an operation: nothing has been asked for yet. */
  function Initial(st: Status, replicas: int): World {
    World(st, st, replicas, [], 0)
  }

  /** From clean bookkeeping no run, whatever is lost or fails, ever gives hosts away too early. */
  lemma ScaleInIsSafe(st: Status, replicas: int, env: Answers, c: Config, hosts: seq<int>, sights: seq<Sight>)
    requires c.target < replicas && Clean(c.spaces, st) && SameHosts(sights, hosts)
    ensures Safe(After(Initial(st, replicas), env, c, sights).trace, c.spaces, hosts)
  {
    RunsKeepInvariant(Initial(st, replicas), env, c, hosts, sights);
  }
}
