/**
 Where scaling in may start from. A run in which everything succeeds ends after one reconcile per
 space and one more; and the condition `Clean` on the bookkeeping found at the start is exactly what
 separates the operations that are safe in every run from those that are not.
 */
module StoragedStart {
  import opened StoragedScaling
  import opened StoragedSafety
  import opened StoragedProgress

  /** One reconcile in which everything succeeds. */
  lemma AllGoodStep(w: World, env: Answers, c: Config, sight: Sight)
    requires Durable(env) && (forall n: nat :: Good(env, 0, n)) && Distinct(c.spaces)
    requires AtRest(w, Removal, c.spaces) && c.target < w.replicas && sight.hosts.Some?
    ensures
      var w' := Reconcile(w, env, c, sight);
      || (w'.replicas == c.target && w'.status == CLEARED)
      || (w'.replicas == w.replicas && Left(c.spaces, w'.status, Removal) < Left(c.spaces, w.status, Removal))
  {
    ReconcileInStep(w, env, c, sight);
    assert Good(env, 0, Reconcile(w, env, c, sight).next);
  }

  /** The operation is over, or has at most this much left to do. */
  ghost predicate NearEnd(w: World, replicas: int, c: Config, left: int) {
    && UnderWay(w, c)
    && ((w.replicas == c.target && w.status == CLEARED) || (w.replicas == replicas && Left(c.spaces, w.status, Removal) <= left))
  }

  lemma AllGoodNearer(w: World, env: Answers, c: Config, sight: Sight, replicas: int, left: int)
    requires Durable(env) && (forall n: nat :: Good(env, 0, n)) && Distinct(c.spaces) && sight.hosts.Some?
    requires NearEnd(w, replicas, c, left) && c.target < replicas
    ensures NearEnd(Reconcile(w, env, c, sight), replicas, c, left - 1)
  {
    ReconcileKeepsProgress(w, env, c, sight);
    if w.replicas == replicas {
      AllGoodStep(w, env, c, sight);
    } else {
      assert Reconcile(w, env, c, sight).status == CLEARED;
    }
  }

  /** If everything succeeds, |spaces| + 1 reconciles shrink the workload and clear the bookkeeping. */
  lemma {:induction false} AllGoodEnds(st: Status, replicas: int, env: Answers, c: Config, sights: seq<Sight>)
    requires Durable(env) && (forall n: nat :: Good(env, 0, n)) && Distinct(c.spaces) && c.target < replicas
    requires forall i :: 0 <= i < |sights| ==> sights[i].hosts.Some?
    ensures
      var w := After(Initial(st, replicas), env, c, sights);
      || (w.replicas == c.target && w.status == CLEARED)
      || (w.replicas == replicas && Left(c.spaces, w.status, Removal) + |sights| <= |c.spaces| + 1)
    ensures UnderWay(After(Initial(st, replicas), env, c, sights), c)
  {
    if sights == [] {
      PendingSubset(c.spaces, st.removed);
    } else {
      var n := |sights| - 1;
      AllGoodEnds(st, replicas, env, c, sights[..n]);
      AllGoodNearer(After(Initial(st, replicas), env, c, sights[..n]), env, c, sights[n], replicas, |c.spaces| + 1 - n);
    }
  }

  // ------------------------------------------------------------------ a space that is never emptied

  /** The bookkeeping makes the operator skip starting a removal for `s`. */
  predicate Skips(spaces: seq<int>, st: Status, s: int) {
    s in st.removed || (spaces != [] && s == spaces[0] && st.lastJob.Some? && st.lastJob.value.space == s)
  }

  ghost predicate NeverStarted(trace: seq<Event>, s: int) {
    forall i :: 0 <= i < |trace| && trace[i].JobStarted? ==> trace[i].job.space != s
  }

  lemma PollSkips(w: World, env: Answers, s: int)
    requires w.status.lastJob.Some? && NeverStarted(w.trace, s)
    ensures
      var (w', ok) := PollJob(Removal, w, env, w.status.lastJob.value);
      && NeverStarted(w'.trace, s) && w'.replicas == w.replicas
      && w'.status.lastJob == w.status.lastJob
      && (w'.status.removed == w.status.removed + [w.status.lastJob.value.space]
          || (!ok && w'.status.removed == w.status.removed))
  {}

  lemma {:induction false} ProcessSkips(w: World, env: Answers, rest: seq<int>, hosts: seq<int>, s: int)
    requires Skips(rest, w.status, s) && NeverStarted(w.trace, s)
    ensures
      var (w', ok) := ProcessSpaces(Removal, w, env, rest, hosts);
      NeverStarted(w'.trace, s) && (Skips(rest, w'.status, s))
    decreases |rest|
  {
    if rest != [] {
      if rest[0] in w.status.removed {
        ProcessSkips(w, env, rest[1..], hosts, s);
        if s in w.status.removed {
          DoneStays(Removal, w, env, rest[1..], hosts, s);
        }
      } else {
        var (w', ok) := ProcessSpace(Removal, w, env, rest[0], hosts);
        if w.status.lastJob.Some? && w.status.lastJob.value.space == rest[0] {
          PollSkips(w, env, s);
        } else {
          assert s in w.status.removed && s != rest[0];
        }
        if ok {
          assert s in w'.status.removed;
          ProcessSkips(w', env, rest[1..], hosts, s);
          DoneStays(Removal, w', env, rest[1..], hosts, s);
        }
      }
    }
  }

  lemma {:induction false} LeadersSkip(w: World, env: Answers, rest: seq<int>, s: int)
    requires NeverStarted(w.trace, s)
    ensures
      var w' := BalanceLeaders(w, env, rest).0;
      NeverStarted(w'.trace, s) && w'.status == w.status.(balanced := w'.status.balanced)
    decreases |rest|
  {
    if rest != [] {
      if rest[0] in w.status.balanced {
        LeadersSkip(w, env, rest[1..], s);
      } else {
        var (w', ok) := BalanceLeader(w, env, rest[0]);
        if ok {
          LeadersSkip(w', env, rest[1..], s);
        }
      }
    }
  }

  lemma RemovalSkips(w: World, env: Answers, c: Config, sight: Sight, s: int)
    requires Skips(c.spaces, w.status, s) && NeverStarted(w.trace, s)
    ensures
      var w' := RemoveHosts(w, env, c, sight).0;
      NeverStarted(w'.trace, s) && Skips(c.spaces, w'.status, s)
  {
    if c.target < w.replicas && sight.hosts.Some? {
      ProcessSkips(w, env, c.spaces, sight.hosts.value, s);
    }
  }

  lemma FinishSkips(w: World, env: Answers, spaces: seq<int>, s: int)
    requires Skips(spaces, w.status, s) && NeverStarted(w.trace, s)
    ensures
      var (w', ok) := FinishScaleIn(w, env);
      NeverStarted(w'.trace, s) && (w'.status == CLEARED || Skips(spaces, w'.status, s))
  {
  }

  lemma ScaleInSkips(w: World, env: Answers, c: Config, sight: Sight, s: int)
    requires Skips(c.spaces, w.status, s) && NeverStarted(w.trace, s)
    ensures
      var (w', ok) := ScaleIn(w, env, c, sight);
      NeverStarted(w'.trace, s) && (w'.status == CLEARED || Skips(c.spaces, w'.status, s))
  {
    var (entered, stored) := EnterPhase(w, env, ScalingIn);
    var (reached, listed) := ReachMeta(entered, env);
    if stored && listed {
      RemovalSkips(reached, env, c, sight, s);
      var (removed, dropped) := RemoveHosts(reached, env, c, sight);
      LeadersSkip(removed, env, c.spaces, s);
      FinishSkips(BalanceLeaders(removed, env, c.spaces).0, env, c.spaces, s);
    }
  }

  lemma ReconcileSkips(w: World, env: Answers, c: Config, sight: Sight, s: int)
    requires Durable(env) && c.target < w.replicas
    requires Skips(c.spaces, w.persisted, s) && NeverStarted(w.trace, s)
    ensures
      var w' := Reconcile(w, env, c, sight);
      NeverStarted(w'.trace, s) && (w'.persisted == CLEARED || Skips(c.spaces, w'.persisted, s))
  {
    ScaleInSkips(w.(status := w.persisted), env, c, sight, s);
  }

  // ------------------------------------------------------------------ the run that goes wrong

  lemma {:induction false} SkipsUntilCleared(st: Status, replicas: int, env: Answers, c: Config, sights: seq<Sight>, s: int)
    requires Durable(env) && Distinct(c.spaces) && c.target < replicas && Skips(c.spaces, st, s)
    requires !EverCleared(Initial(st, replicas), env, c, sights)
    ensures
      var w := After(Initial(st, replicas), env, c, sights);
      w.replicas == replicas && Skips(c.spaces, w.persisted, s) && NeverStarted(w.trace, s)
  {
    ProgressAddsUp(st, replicas, env, c, sights);
    if sights != [] {
      var w0, n := Initial(st, replicas), |sights| - 1;
      SkipsUntilCleared(st, replicas, env, c, sights[..n], s);
      ReconcileSkips(After(w0, env, c, sights[..n]), env, c, sights[n], s);
    }
  }

  lemma NeverStartedNotDone(trace: seq<Event>, s: int, hosts: seq<int>)
    requires NeverStarted(trace, s)
    ensures !JobDone(trace, Removal, s, hosts)
  {
    forall j: nat, id: int
      ensures !DoneAt(trace, Removal, Job(s, id), hosts, j)
    {}
  }

  lemma NeverStartedUnsafe(trace: seq<Event>, spaces: seq<int>, hosts: seq<int>, s: int)
    requires NeverStarted(trace, s) && s in spaces && Dropped(trace)
    ensures !Safe(trace, spaces, hosts)
  {
    var i :| 0 <= i < |trace| && trace[i].HostsDropped?;
    NeverStartedNotDone(trace[..i], s, hosts);
    assert !AllMoved(trace[..i], spaces, hosts);
  }

  /** In this run hosts are given away before all data has been moved off them. */
  ghost predicate GoesWrong(st: Status, replicas: int, env: Answers, c: Config, hosts: seq<int>, sights: seq<Sight>) {
    SameHosts(sights, hosts) && !Safe(After(Initial(st, replicas), env, c, sights).trace, c.spaces, hosts)
  }

  /** The reconcile that first clears the bookkeeping has dropped the hosts, with `s` still on them. */
  lemma UnsafeWhenFirstCleared(w0: World, env: Answers, c: Config, hosts: seq<int>, sights: seq<Sight>, s: int)
    requires sights != []
    requires
      var n := |sights| - 1;
      !EverCleared(w0, env, c, sights[..n]) && EverCleared(w0, env, c, sights)
    requires Durable(env) && Distinct(c.spaces) && w0 == Initial(w0.persisted, w0.replicas) && c.target < w0.replicas
    requires Skips(c.spaces, w0.persisted, s) && s in c.spaces
    ensures !Safe(After(w0, env, c, sights).trace, c.spaces, hosts)
  {
    var n := |sights| - 1;
    SkipsUntilCleared(w0.persisted, w0.replicas, env, c, sights[..n], s);
    ProgressAddsUp(w0.persisted, w0.replicas, env, c, sights[..n]);
    ReconcileSkips(After(w0, env, c, sights[..n]), env, c, sights[n], s);
    ReconcileInStep(After(w0, env, c, sights[..n]), env, c, sights[n]);
    NeverStartedUnsafe(After(w0, env, c, sights).trace, c.spaces, hosts, s);
  }

  lemma {:induction false} UnsafeWhenCleared(st: Status, replicas: int, env: Answers, c: Config, hosts: seq<int>,
                                             sights: seq<Sight>, s: int)
    requires Durable(env) && Distinct(c.spaces) && c.target < replicas && Skips(c.spaces, st, s) && s in c.spaces
    requires SameHosts(sights, hosts) && EverCleared(Initial(st, replicas), env, c, sights)
    ensures exists some: seq<Sight> :: GoesWrong(st, replicas, env, c, hosts, some)
  {
    var n := |sights| - 1;
    if EverCleared(Initial(st, replicas), env, c, sights[..n]) {
      UnsafeWhenCleared(st, replicas, env, c, hosts, sights[..n], s);
    } else {
      UnsafeWhenFirstCleared(Initial(st, replicas), env, c, hosts, sights, s);
      assert GoesWrong(st, replicas, env, c, hosts, sights);
    }
  }

  /** Everything succeeds, every job finishes at once. */
  ghost function Friendly(): Answers {
    n => Answer(true, 1, Finished, Stored)
  }

  lemma UncleanIsUnsafe(st: Status, replicas: int, c: Config, hosts: seq<int>)
    requires Distinct(c.spaces) && c.target < replicas && !Clean(c.spaces, st)
    ensures exists sights: seq<Sight> :: GoesWrong(st, replicas, Friendly(), c, hosts, sights)
  {
    var s := if st.lastJob.Some? && c.spaces != [] && st.lastJob.value.space == c.spaces[0] then c.spaces[0]
             else var x :| x in c.spaces && x in st.removed; x;
    var sights := seq(|c.spaces| + 1, i => Sight(Some(hosts), true, true));
    AllGoodEnds(st, replicas, Friendly(), c, sights);
    LeftPositive(c.spaces, After(Initial(st, replicas), Friendly(), c, sights).status, Removal);
    UnsafeWhenCleared(st, replicas, Friendly(), c, hosts, sights, s);
  }

  /**
   Scaling in is safe in every run, under every behaviour of the environment, exactly when it starts
   from clean bookkeeping. A balance job left over from an interrupted scale-out, for the first
   space of the list, is the way to start from anything else.
   */
  lemma SafeStartIff(st: Status, replicas: int, c: Config, hosts: seq<int>)
    requires Distinct(c.spaces) && c.target < replicas
    ensures Clean(c.spaces, st)
      <==> forall env: Answers, sights: seq<Sight> :: !GoesWrong(st, replicas, env, c, hosts, sights)
  {
    if Clean(c.spaces, st) {
      forall env: Answers, sights: seq<Sight> | SameHosts(sights, hosts)
        ensures !GoesWrong(st, replicas, env, c, hosts, sights)
      {
        ScaleInIsSafe(st, replicas, env, c, hosts, sights);
      }
    } else {
      UncleanIsUnsafe(st, replicas, c, hosts);
    }
  }

  // ------------------------------------------------------------------ how unclean bookkeeping comes about

  /** Every request succeeds, and the job goes on. */
  ghost function Working(): Answers {
    n => Answer(true, 1, InProgress, Stored)
  }

  /** The new pods are waited for. */
  function Awaiting(): Sight { Sight(None, false, true) }

  /** They are ready. */
  function AllReady(): Sight { Sight(None, true, true) }

  lemma PodsCreated(replicas: int, c: Config)
    requires replicas < c.target
    ensures
      var w := Reconcile(Initial(CLEARED, replicas), Working(), c, Awaiting());
      w.replicas == c.target && w.persisted == Status(ScalingOut, [], [], None)
  {
  }

  lemma JobRecorded(w: World, c: Config)
    requires w.replicas == c.target && w.persisted == Status(ScalingOut, [], [], None) && c.spaces != []
    ensures
      var v := Reconcile(w, Working(), c, AllReady());
      v.replicas == c.target && v.persisted == Status(ScalingOut, [], [], Some(Job(c.spaces[0], 1)))
  {
    var w0 := w.(status := w.persisted);
    var entered := EnterPhase(w0, Working(), ScalingOut).0;
    var reached := ReachMeta(entered, Working()).0;
    assert ProcessSpaces(Balance, reached, Working(), c.spaces, [])
        == (ProcessSpace(Balance, reached, Working(), c.spaces[0], []).0, false);
  }

  /** A scale-out whose first balance job has been started leaves bookkeeping that is not clean. */
  lemma InterruptedScaleOut(replicas: int, c: Config)
    requires replicas < c.target && c.spaces != []
    ensures
      var w := After(Initial(CLEARED, replicas), Working(), c, [Awaiting(), AllReady()]);
      w.replicas == c.target && w.persisted == Status(ScalingOut, [], [], Some(Job(c.spaces[0], 1))) && !Clean(c.spaces, w.persisted)
  {
    var sights := [Awaiting(), AllReady()];
    assert sights[..1] == [Awaiting()] && [Awaiting()][..0] == [];
    var w0 := Initial(CLEARED, replicas);
    assert After(w0, Working(), c, [Awaiting()]) == Reconcile(w0, Working(), c, Awaiting());
    PodsCreated(replicas, c);
    JobRecorded(Reconcile(w0, Working(), c, Awaiting()), c);
  }

  /** When the target is then lowered below the new size, hosts can be dropped with data on them. */
  lemma InterruptedScaleOutIsUnsafe(replicas: int, c: Config, lower: int, hosts: seq<int>)
    requires replicas < c.target && c.spaces != [] && Distinct(c.spaces) && lower < c.target
    ensures
      var w := After(Initial(CLEARED, replicas), Working(), c, [Awaiting(), AllReady()]);
      exists sights: seq<Sight> :: GoesWrong(w.persisted, w.replicas, Friendly(), Config(c.spaces, lower), hosts, sights)
  {
    InterruptedScaleOut(replicas, c);
    UncleanIsUnsafe(Status(ScalingOut, [], [], Some(Job(c.spaces[0], 1))), c.target, Config(c.spaces, lower), hosts);
  }
}
