/**
 Progress of scaling out with durable status writes: one recorded job at a time, and an end with the
 phase back to Running once the created pods are ready and the jobs finish.
 */
module StoragedScaleOut {
  import opened StoragedScaling
  import opened StoragedSafety
  import opened StoragedProgress

  /** Scaling out is under way: nothing makes the next reconcile scale in. */
  ghost predicate Growing(w: World, c: Config) {
    && AtRest(w, Balance, c.spaces) && w.status.phase != ScalingIn
    && w.replicas <= c.target
  }

  lemma ScaleOutStep(w: World, env: Answers, c: Config, sight: Sight)
    requires Durable(env) && Distinct(c.spaces) && Serial(Balance, w, c.spaces)
    ensures
      var (w', ok) := ScaleOut(w, env, c, sight);
      && w.next <= w'.next && w'.replicas == w.replicas
      && Serial(Balance, w', c.spaces)
      && (w'.status.phase == ScalingOut || (ok && w'.status.phase == Running))
      && (w'.status.phase == Running && sight.autoBalance ==>
            w'.status.balanced == [] && w'.status.lastJob == None && Outstanding(w'.trace) == None)
      && (w'.status.phase == ScalingOut ==>
            && Left(c.spaces, w'.status, Balance) <= Left(c.spaces, w.status, Balance)
            && (Good(env, w.next, w'.next) && sight.ready ==>
                  Left(c.spaces, w'.status, Balance) < Left(c.spaces, w.status, Balance)))
  {
    EnterStep(Balance, w, env, ScalingOut, c.spaces);
    var entered := EnterPhase(w, env, ScalingOut).0;
    var (reached, listed) := ReachMeta(entered, env);
    if sight.ready && sight.autoBalance && listed {
      SpacesStep(Balance, reached, env, c.spaces, []);
    }
  }

  lemma ReconcileOutStep(w: World, env: Answers, c: Config, sight: Sight)
    requires Durable(env) && Distinct(c.spaces) && Growing(w, c)
    requires w.replicas < c.target || w.status.phase == ScalingOut
    ensures
      var w' := Reconcile(w, env, c, sight);
      && w.next <= w'.next && Growing(w', c) && w.replicas <= w'.replicas
      && (w'.status.phase == Running || w'.status.phase == ScalingOut)
      && (w'.status.phase == Running && sight.autoBalance ==>
            w'.status.balanced == [] && w'.status.lastJob == None && Outstanding(w'.trace) == None)
      && (w'.status.phase == ScalingOut ==>
            && Left(c.spaces, w'.status, Balance) <= Left(c.spaces, w.status, Balance)
            && (Good(env, w.next, w'.next) && sight.ready ==>
                  Left(c.spaces, w'.status, Balance) < Left(c.spaces, w.status, Balance)))
  {
    var w0 := w.(status := w.persisted);
    ScaleOutStep(w0, env, c, sight);
    GrowStep(ScaleOut(w0, env, c, sight).0, env, c);
  }

  lemma GrowStep(w: World, env: Answers, c: Config)
    requires Durable(env) && Serial(Balance, w, c.spaces) && w.replicas <= c.target
    ensures
      var w' := UpdateWorkload(w, env, c);
      && w.next <= w'.next && w'.status == w.status && w.replicas <= w'.replicas <= c.target
      && Serial(Balance, w', c.spaces) && Outstanding(w'.trace) == Outstanding(w.trace)
  {
    LogSerial(w.trace, WorkloadResized(c.target));
  }

  lemma ReconcileGrows(w: World, env: Answers, c: Config, sight: Sight)
    requires Durable(env) && Distinct(c.spaces) && Growing(w, c)
    ensures Growing(Reconcile(w, env, c, sight), c)
  {
    if w.replicas < c.target || w.status.phase == ScalingOut {
      ReconcileOutStep(w, env, c, sight);
    }
  }

  /** While scaling out, too, at most one recorded job is outstanding at any time. */
  lemma {:induction false} BalanceJobsOneAtATime(st: Status, replicas: int, env: Answers, c: Config, sights: seq<Sight>)
    requires Durable(env) && Distinct(c.spaces) && replicas < c.target && st.phase != ScalingIn
    ensures Growing(After(Initial(st, replicas), env, c, sights), c)
    ensures OneAtATime(After(Initial(st, replicas), env, c, sights).trace)
  {
    if sights != [] {
      var n := |sights| - 1;
      BalanceJobsOneAtATime(st, replicas, env, c, sights[..n]);
      ReconcileGrows(After(Initial(st, replicas), env, c, sights[..n]), env, c, sights[n]);
    }
  }

  /** How many of the reconciles found the created pods ready and had all their requests answered well. */
  ghost function GoodReconcilesOut(w: World, env: Answers, c: Config, sights: seq<Sight>): nat {
    if sights == [] then 0
    else
      var n := |sights| - 1;
      var before := After(w, env, c, sights[..n]);
      GoodReconcilesOut(w, env, c, sights[..n]) +
        if sights[n].ready && Good(env, before.next, Reconcile(before, env, c, sights[n]).next) then 1 else 0
  }

  /** The phase is Running again, nothing is recorded as balanced, and no job is recorded. */
  predicate Balanced(st: Status) { st.phase == Running && st.balanced == [] && st.lastJob == None }

  /** Automatic balancing stays enabled. */
  ghost predicate AutoBalanced(sights: seq<Sight>) {
    forall i :: 0 <= i < |sights| ==> sights[i].autoBalance
  }

  /** Some reconcile of the run ended with the phase back to Running and everything cleared. */
  ghost predicate EverRunning(w: World, env: Answers, c: Config, sights: seq<Sight>) {
    sights != [] &&
      (Balanced(After(w, env, c, sights).persisted) || EverRunning(w, env, c, sights[..|sights| - 1]))
  }

  lemma {:induction false} GrowthAddsUp(st: Status, replicas: int, env: Answers, c: Config, sights: seq<Sight>)
    requires Durable(env) && Distinct(c.spaces) && replicas < c.target && st.phase != ScalingIn
    requires AutoBalanced(sights) && !EverRunning(Initial(st, replicas), env, c, sights)
    ensures
      var w := After(Initial(st, replicas), env, c, sights);
      && Growing(w, c) && (w.replicas < c.target || w.status.phase == ScalingOut)
      && Left(c.spaces, w.status, Balance) + GoodReconcilesOut(Initial(st, replicas), env, c, sights) <= Left(c.spaces, st, Balance)
  {
    if sights != [] {
      var n := |sights| - 1;
      GrowthAddsUp(st, replicas, env, c, sights[..n]);
      ReconcileOutStep(After(Initial(st, replicas), env, c, sights[..n]), env, c, sights[n]);
    }
  }

  /** One reconcile per space and one more in which nothing goes wrong bring the phase back to Running, with everything cleared. */
  lemma GoodReconcilesBalance(st: Status, replicas: int, env: Answers, c: Config, sights: seq<Sight>)
    requires Durable(env) && Distinct(c.spaces) && replicas < c.target && st.phase != ScalingIn
    requires AutoBalanced(sights)
    requires GoodReconcilesOut(Initial(st, replicas), env, c, sights) >= |c.spaces| + 1
    ensures EverRunning(Initial(st, replicas), env, c, sights)
  {
    if !EverRunning(Initial(st, replicas), env, c, sights) {
      GrowthAddsUp(st, replicas, env, c, sights);
      PendingSubset(c.spaces, st.balanced);
      LeftPositive(c.spaces, After(Initial(st, replicas), env, c, sights).status, Balance);
    }
  }
}
