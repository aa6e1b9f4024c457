/**
 Suspending a cluster: each reconcile handles metad, storaged and graphd in this order, while components
 suspend in the opposite order. The flag may be toggled at any time, and status writes may be lost.
 */
module SuspendOrder {

  datatype Kind = Metad | Storaged | Graphd

  /** Busy stands for the updating and scaling phases. */
  datatype Phase = Fresh | Running | Suspend | Busy

  /** `reported`: the status holds a workload status; `present`: the workload object is there. */
  datatype Component = Component(phase: Phase, reported: bool, present: bool)

  datatype Cluster = Cluster(metad: Component, storaged: Component, graphd: Component)

  function Get(c: Cluster, k: Kind): Component {
    match k
    case Metad => c.metad
    case Storaged => c.storaged
    case Graphd => c.graphd
  }

  function Put(c: Cluster, k: Kind, x: Component): Cluster {
    match k
    case Metad => c.(metad := x)
    case Storaged => c.(storaged := x)
    case Graphd => c.(graphd := x)
  }

  predicate IsSuspended(x: Component, enabled: bool) {
    x.phase == Suspend && !(enabled && x.reported)
  }

  /** The components that must be suspended before `k`. */
  function Before(k: Kind): seq<Kind> {
    match k
    case Graphd => []
    case Storaged => [Graphd]
    case Metad => [Graphd, Storaged]
  }

  predicate CanSuspend(c: Cluster, k: Kind, enabled: bool) {
    && (Get(c, k).phase == Running || Get(c, k).phase == Suspend)
    && forall j :: 0 <= j < |Before(k)| ==> IsSuspended(Get(c, Before(k)[j]), enabled)
  }

  /** How the API server answers a creation; Unseen creates the object and still reports an error. */
  datatype CreateAnswer = Accepted | Refused | Unseen

  /**
   What happens to one component in one reconcile: an error before the suspend decision, whether a deletion
   succeeds, the phase found by the rest of the reconcile, whether the workload status is reported, how a
   creation is answered, and whether the reconcile ends after this component.
   */
  datatype Answers = Answers(failsBefore: bool, deletes: bool, phase: Phase, reports: bool, create: CreateAnswer, ends: bool)

  datatype Outcome = Outcome(cluster: Cluster, skip: bool, failed: bool)

  function Suspending(c: Cluster, k: Kind, enabled: bool, deletes: bool): Outcome {
    var x := Get(c, k);
    if !enabled then
      if x.phase == Suspend then Outcome(Put(c, k, x.(phase := Running)), true, false) else Outcome(c, false, false)
    else if x.phase != Suspend then
      if CanSuspend(c, k, enabled) then Outcome(Put(c, k, x.(phase := Suspend)), true, false) else Outcome(c, false, false)
    else if x.present && !deletes then Outcome(c, false, true)
    else Outcome(Put(c, k, x.(reported := false, present := false)), true, false)
  }

  /** The rest of the reconcile of a component that is not suspended. */
  function Maintained(x: Component, a: Answers): Component {
    if x.present then x.(phase := if a.phase == Suspend then x.phase else a.phase, reported := x.reported || a.reports)
    else
      match a.create
      case Accepted => x.(present := true, reported := true)
      case Refused => x
      case Unseen => x.(present := true)
  }

  function ReconcileOne(c: Cluster, k: Kind, enabled: bool, a: Answers): Outcome {
    if a.failsBefore then Outcome(c, false, true)
    else
      var o := Suspending(c, k, enabled, a.deletes);
      if o.failed || o.skip then o.(failed := o.failed || a.ends)
      else Outcome(Put(c, k, Maintained(Get(c, k), a)), false, a.ends || !Get(c, k).present)
  }

  /** The cluster in memory after a reconcile. */
  function ReconcileAll(c: Cluster, enabled: bool, m: Answers, s: Answers, g: Answers): Cluster {
    var first := ReconcileOne(c, Metad, enabled, m);
    if first.failed then first.cluster
    else
      var second := ReconcileOne(first.cluster, Storaged, enabled, s);
      if second.failed then second.cluster
      else ReconcileOne(second.cluster, Graphd, enabled, g).cluster
  }

  class NebulaCluster {
    var metad: Component
    var storaged: Component
    var graphd: Component

    function Value(): Cluster reads this { Cluster(metad, storaged, graphd) }

    method Set(k: Kind, x: Component)
      modifies this
      ensures Value() == Put(old(Value()), k, x)
    {
      match k {
        case Metad => metad := x;
        case Storaged => storaged := x;
        case Graphd => graphd := x;
      }
    }

    method CanSuspendComponent(k: Kind, enabled: bool) returns (can: bool)
      ensures can == CanSuspend(Value(), k, enabled)
    {
      if Get(Value(), k).phase != Running && Get(Value(), k).phase != Suspend {
        return false;
      }
      var order := [Graphd, Storaged, Metad];
      var j := 0;
      while order[j] != k
        invariant 0 <= j <= |Before(k)| && Before(k) == order[..|Before(k)|] && order[|Before(k)|] == k
        invariant forall i :: 0 <= i < j ==> IsSuspended(Get(Value(), Before(k)[i]), enabled)
        decreases |Before(k)| - j
      {
        assert j < |Before(k)| && Before(k)[j] == order[j];
        if !IsSuspended(Get(Value(), order[j]), enabled) {
          return false;
        }
        j := j + 1;
      }
      assert j == |Before(k)|;
      return true;
    }

    method SuspendComponent(k: Kind, enabled: bool, deletes: bool) returns (skip: bool, failed: bool)
      modifies this
      ensures Outcome(Value(), skip, failed) == Suspending(old(Value()), k, enabled, deletes)
    {
      var x := Get(Value(), k);
      if !enabled {
        if x.phase == Suspend {
          Set(k, x.(phase := Running));
          return true, false;
        }
        return false, false;
      }
      if x.phase != Suspend {
        var can := CanSuspendComponent(k, enabled);
        if !can {
          return false, false;
        }
        Set(k, x.(phase := Suspend));
        return true, false;
      }
      if x.present {
        if !deletes {
          return false, true;
        }
        x := x.(present := false);
      }
      Set(k, x.(reported := false));
      return true, false;
    }

    method ReconcileComponent(k: Kind, enabled: bool, a: Answers) returns (failed: bool)
      modifies this
      ensures var o := ReconcileOne(old(Value()), k, enabled, a); Value() == o.cluster && failed == o.failed
    {
      if a.failsBefore {
        return true;
      }
      var skip, refused := SuspendComponent(k, enabled, a.deletes);
      if refused || skip {
        return refused || a.ends;
      }
      var x := Get(Value(), k);
      Set(k, Maintained(x, a));
      return a.ends || !x.present;
    }

    method UpdateNebulaCluster(enabled: bool, m: Answers, s: Answers, g: Answers)
      modifies this
      ensures Value() == ReconcileAll(old(Value()), enabled, m, s, g)
    {
      var failed := ReconcileComponent(Metad, enabled, m);
      if failed {
        return;
      }
      failed := ReconcileComponent(Storaged, enabled, s);
      if failed {
        return;
      }
      failed := ReconcileComponent(Graphd, enabled, g);
    }
  }

  // ------------------------------------------------------------------ runs

  /** One reconcile with the flag as it is then; the status is written at its end unless the write is lost. */
  datatype Step = Step(enabled: bool, metad: Answers, storaged: Answers, graphd: Answers, written: bool)

  /** The status that is stored beside the objects that exist. */
  function Stored(before: Component, after: Component, written: bool): Component {
    if written then after else before.(present := after.present)
  }

  function Next(c: Cluster, s: Step): Cluster {
    var d := ReconcileAll(c, s.enabled, s.metad, s.storaged, s.graphd);
    Cluster(Stored(c.metad, d.metad, s.written), Stored(c.storaged, d.storaged, s.written), Stored(c.graphd, d.graphd, s.written))
  }

  function After(c: Cluster, run: seq<Step>): Cluster
    decreases |run|
  {
    if run == [] then c else After(Next(c, run[0]), run[1..])
  }

  // ------------------------------------------------------------------ the order of phases

  /** Storaged is suspended only if graphd is, and metad only if both are. */
  predicate Ordered(c: Cluster) {
    && (c.storaged.phase == Suspend ==> c.graphd.phase == Suspend)
    && (c.metad.phase == Suspend ==> c.storaged.phase == Suspend && c.graphd.phase == Suspend)
  }

  /** In the middle of a reconcile, components handled with the flag off are no longer suspended. */
  lemma ReconcileOneKeepsOrder(c: Cluster, k: Kind, enabled: bool, a: Answers)
    requires Ordered(c)
    requires !enabled && k != Metad ==> c.metad.phase != Suspend
    requires !enabled && k == Graphd ==> c.storaged.phase != Suspend
    ensures
      var o := ReconcileOne(c, k, enabled, a);
      && Ordered(o.cluster)
      && (!enabled && !o.failed ==> Get(o.cluster, k).phase != Suspend)
      && (forall j :: j != k ==> Get(o.cluster, j) == Get(c, j))
  {
    assert k == Storaged ==> Before(k)[0] == Graphd;
    assert k == Metad ==> Before(k)[0] == Graphd && Before(k)[1] == Storaged;
  }

  lemma ReconcileKeepsOrder(c: Cluster, s: Step)
    requires Ordered(c)
    ensures Ordered(ReconcileAll(c, s.enabled, s.metad, s.storaged, s.graphd)) && Ordered(Next(c, s))
  {
    ReconcileOneKeepsOrder(c, Metad, s.enabled, s.metad);
    var m := ReconcileOne(c, Metad, s.enabled, s.metad);
    if !m.failed {
      assert Get(m.cluster, Metad) == m.cluster.metad;
      ReconcileOneKeepsOrder(m.cluster, Storaged, s.enabled, s.storaged);
      var t := ReconcileOne(m.cluster, Storaged, s.enabled, s.storaged);
      assert Get(t.cluster, Metad) == Get(m.cluster, Metad);
      if !t.failed {
        ReconcileOneKeepsOrder(t.cluster, Graphd, s.enabled, s.graphd);
      }
    }
  }

  /** The order holds in every run, however the flag is toggled and whichever status writes are lost. */
  lemma {:induction false} RunsKeepOrder(c: Cluster, run: seq<Step>)
    requires Ordered(c)
    ensures Ordered(After(c, run))
    decreases |run|
  {
    if run != [] {
      ReconcileKeepsOrder(c, run[0]);
      RunsKeepOrder(Next(c, run[0]), run[1..]);
    }
  }

  // ------------------------------------------------------------------ the order of deletions

  /** The workloads that others wait for are reported if they exist. */
  predicate Reported(c: Cluster) {
    (c.storaged.present ==> c.storaged.reported) && (c.graphd.present ==> c.graphd.reported)
  }

  /** What a suspended component has waited for does not exist any more. */
  predicate Cleared(c: Cluster) {
    && Ordered(c)
    && (c.storaged.phase == Suspend ==> !c.graphd.present)
    && (c.metad.phase == Suspend ==> !c.storaged.present)
  }

  predicate Gone(c: Cluster) { Cleared(c) && Reported(c) }

  /** Status writes are not lost, nor are answers to creations. */
  predicate Durable(s: Step) {
    s.written && !s.metad.create.Unseen? && !s.storaged.create.Unseen? && !s.graphd.create.Unseen?
  }

  /** A workload disappears only once those before it in the order are gone. */
  predicate DeletesInOrder(before: Cluster, after: Cluster) {
    && (before.storaged.present && !after.storaged.present ==> !before.graphd.present)
    && (before.metad.present && !after.metad.present ==> !before.storaged.present && !before.graphd.present)
  }

  /** What one reconcile, whatever becomes of its status write, does to a component. */
  predicate Fits(before: Component, after: Component) {
    && (before.phase == Suspend && !before.present ==> !after.present)
    && (after.present && !before.present ==> before.phase != Suspend && after.phase == before.phase)
    && (after.present && before.present && before.reported ==> after.reported)
  }

  /** Only a creation can leave a workload unreported, and a creation ends the reconcile. */
  lemma ReconcileOneKeepsCleared(c: Cluster, k: Kind, enabled: bool, a: Answers)
    requires Gone(c)
    requires !enabled && k != Metad ==> c.metad.phase != Suspend
    requires !enabled && k == Graphd ==> c.storaged.phase != Suspend
    ensures
      var o := ReconcileOne(c, k, enabled, a);
      && Cleared(o.cluster) && DeletesInOrder(c, o.cluster)
      && (!o.failed || !a.create.Unseen? ==> Reported(o.cluster))
      && (forall j :: j != k ==> Get(o.cluster, j) == Get(c, j))
      && Fits(Get(c, k), Get(o.cluster, k))
  {
    ReconcileOneKeepsOrder(c, k, enabled, a);
    assert k == Storaged ==> Before(k)[0] == Graphd;
    assert k == Metad ==> Before(k)[0] == Graphd && Before(k)[1] == Storaged;
  }

  lemma ReconcileKeepsCleared(c: Cluster, s: Step)
    requires Gone(c)
    ensures
      var d := ReconcileAll(c, s.enabled, s.metad, s.storaged, s.graphd);
      && Cleared(d) && DeletesInOrder(c, d)
      && (!s.storaged.create.Unseen? && !s.graphd.create.Unseen? ==> Reported(d))
      && Fits(c.storaged, d.storaged) && Fits(c.graphd, d.graphd)
  {
    ReconcileOneKeepsCleared(c, Metad, s.enabled, s.metad);
    ReconcileOneKeepsOrder(c, Metad, s.enabled, s.metad);
    var m := ReconcileOne(c, Metad, s.enabled, s.metad);
    assert Get(m.cluster, Storaged) == Get(c, Storaged) && Get(m.cluster, Graphd) == Get(c, Graphd);
    if !m.failed {
      assert Get(m.cluster, Metad) == m.cluster.metad;
      ReconcileOneKeepsCleared(m.cluster, Storaged, s.enabled, s.storaged);
      ReconcileOneKeepsOrder(m.cluster, Storaged, s.enabled, s.storaged);
      var t := ReconcileOne(m.cluster, Storaged, s.enabled, s.storaged);
      assert Get(t.cluster, Metad) == Get(m.cluster, Metad) && Get(t.cluster, Graphd) == Get(m.cluster, Graphd);
      if !t.failed {
        ReconcileOneKeepsCleared(t.cluster, Graphd, s.enabled, s.graphd);
        var g := ReconcileOne(t.cluster, Graphd, s.enabled, s.graphd);
        assert Get(g.cluster, Metad) == Get(t.cluster, Metad) && Get(g.cluster, Storaged) == Get(t.cluster, Storaged);
      }
    }
  }

  lemma ReconcileKeepsGone(c: Cluster, s: Step)
    requires Gone(c)
    ensures Cleared(Next(c, s)) && DeletesInOrder(c, Next(c, s))
    ensures Durable(s) ==> Gone(Next(c, s))
  {
    ReconcileKeepsCleared(c, s);
    ReconcileKeepsOrder(c, s);
  }

  /** With durable writes workloads are deleted in the order graphd, storaged, metad. */
  lemma {:induction false} RunsDeleteInOrder(c: Cluster, run: seq<Step>, s: Step)
    requires Gone(c) && (forall t :: t in run ==> Durable(t)) && Durable(s)
    ensures Gone(After(c, run)) && DeletesInOrder(After(c, run), Next(After(c, run), s))
    decreases |run|
  {
    if run == [] {
      ReconcileKeepsGone(c, s);
    } else {
      assert run[0] in run;
      ReconcileKeepsGone(c, run[0]);
      RunsDeleteInOrder(Next(c, run[0]), run[1..], s);
    }
  }

  // ------------------------------------------------------------------ a lost status write

  function Smooth(): Answers { Answers(false, true, Running, true, Accepted, false) }

  function Failing(): Answers { Smooth().(failsBefore := true) }

  /** Everything goes well, except that the workload status is not read. */
  function Quiet(): Answers { Smooth().(reports := false) }

  const READY := Component(Running, true, true)
  const UNREPORTED := Component(Running, false, true)

  /** A durable run, and a durable step after it that deletes a workload too early. */
  predicate BreaksOrder(c: Cluster, run: seq<Step>, s: Step) {
    (forall t :: t in run ==> Durable(t)) && Durable(s) && !DeletesInOrder(After(c, run), Next(After(c, run), s))
  }

  /** A workload is unreported after a step only if the step created it; it is then not suspended. */
  lemma UnreportedIsNew(c: Cluster, s: Step)
    requires Gone(c)
    ensures
      var d := Next(c, s);
      && (d.graphd.present && !d.graphd.reported ==> !c.graphd.present && d.graphd.phase != Suspend)
      && (d.storaged.present && !d.storaged.reported ==> !c.storaged.present && d.storaged.phase != Suspend)
  {
    ReconcileKeepsCleared(c, s);
  }

  /** The settling steps, with the flag off, and the suspending ones, in which `k` is not reported. */
  function Settle(k: Kind): Step {
    Step(false, Smooth(), if k == Storaged then Quiet() else Smooth(), if k == Graphd then Quiet() else Smooth(), true)
  }

  function Settling(k: Kind): seq<Step> { [Settle(k), Settle(k), Settle(k), Settle(k)] }

  lemma SettlingIsDurable(k: Kind)
    ensures forall t :: t in Settling(k) ==> Durable(t)
  {
  }

  function Press(storaged: Answers, graphd: Answers): Step { Step(true, Smooth(), storaged, graphd, true) }

  lemma FourSteps(c: Cluster, a: Step, b: Step, x: Step, y: Step)
    ensures After(c, [a, b, x, y]) == Next(Next(Next(Next(c, a), b), x), y)
  {
    var d := Next(Next(c, a), b);
    assert [a, b, x, y][1..] == [b, x, y] && [b, x, y][1..] == [x, y] && [x, y][1..] == [y];
    assert After(Next(Next(d, x), y), []) == Next(Next(d, x), y);
    assert After(Next(d, x), [y]) == After(Next(Next(d, x), y), [y][1..]);
    assert After(d, [x, y]) == After(Next(d, x), [y]);
    assert After(Next(c, a), [b, x, y]) == After(d, [x, y]);
  }

  lemma {:induction false} Joined(c: Cluster, a: seq<Step>, b: seq<Step>)
    ensures After(c, a + b) == After(After(c, a), b)
    decreases |a|
  {
    if a == [] {
      assert a + b == b;
    } else {
      assert (a + b)[0] == a[0] && (a + b)[1..] == a[1..] + b;
      Joined(Next(c, a[0]), a[1..], b);
    }
  }

  /** A component after a settling step that reaches it. */
  function Up(x: Component, quiet: bool): Component {
    if x.phase == Suspend then x.(phase := Running)
    else if x.present then Component(Running, x.reported || !quiet, true)
    else x.(reported := true, present := true)
  }

  lemma SettleStep(c: Cluster, k: Kind)
    requires c.metad.phase != Suspend && c.storaged.phase != Suspend && k != Metad
    ensures
      var d := Next(c, Settle(k));
      && d.metad == Up(c.metad, false)
      && d.storaged == (if c.metad.present then Up(c.storaged, k == Storaged) else c.storaged)
      && d.graphd == (if c.metad.present && c.storaged.present then Up(c.graphd, k == Graphd) else c.graphd)
  {
  }

  /** With the flag off, everything comes up, and `k` stays unreported. */
  lemma Settles(c: Cluster, k: Kind)
    requires c.metad.phase != Suspend && c.storaged.phase != Suspend && k != Metad
    requires k == Graphd ==> c.graphd.phase != Suspend && c.graphd.present && !c.graphd.reported
    requires k == Storaged ==> c.storaged.present && !c.storaged.reported
    ensures After(c, Settling(k)) == Cluster(READY, if k == Storaged then UNREPORTED else READY, if k == Graphd then UNREPORTED else READY)
  {
    var c1 := Next(c, Settle(k));
    var c2 := Next(c1, Settle(k));
    var c3 := Next(c2, Settle(k));
    FourSteps(c, Settle(k), Settle(k), Settle(k), Settle(k));
    SettleStep(c, k);
    SettleStep(c1, k);
    SettleStep(c2, k);
    SettleStep(c3, k);
  }

  /** An unreported graphd is taken for suspended, and storaged is deleted before it. */
  function GraphdRun(): seq<Step> { [Press(Smooth(), Smooth()), Press(Smooth(), Failing())] }

  lemma GraphdTooLate()
    ensures BreaksOrder(Cluster(READY, READY, UNREPORTED), GraphdRun(), Press(Smooth(), Smooth()))
  {
    assert Before(Storaged)[0] == Graphd && Before(Metad)[0] == Graphd && Before(Metad)[1] == Storaged;
    var press, stumble := Press(Smooth(), Smooth()), Press(Smooth(), Failing());
    var c := Cluster(READY, READY, UNREPORTED);
    var c1 := Cluster(READY, READY, Component(Suspend, false, true));
    var c2 := Cluster(READY, Component(Suspend, true, true), Component(Suspend, false, true));
    assert Next(c, press) == c1;
    assert Next(c1, stumble) == c2;
    assert [press, stumble][1..] == [stumble];
    assert After(c2, [stumble][1..]) == c2;
    assert After(c1, [stumble]) == c2;
    assert After(c, [press, stumble]) == c2;
  }

  /** An unreported storaged is taken for suspended, and metad is deleted before it. */
  function StoragedRun(): seq<Step> {
    [Press(Quiet(), Smooth()), Press(Quiet(), Smooth()), Press(Quiet(), Smooth()), Press(Failing(), Smooth())]
  }

  lemma StoragedTooLate()
    ensures BreaksOrder(Cluster(READY, UNREPORTED, READY), StoragedRun(), Press(Quiet(), Smooth()))
  {
    var press, stumble := Press(Quiet(), Smooth()), Press(Failing(), Smooth());
    FourSteps(Cluster(READY, UNREPORTED, READY), press, press, press, stumble);
    GraphdGoes();
    StoragedIsSkipped();
  }

  lemma GraphdGoes()
    ensures
      var press := Press(Quiet(), Smooth());
      Next(Next(Next(Cluster(READY, UNREPORTED, READY), press), press), press)
      == Cluster(READY, Component(Suspend, false, true), Component(Suspend, false, false))
  {
    assert Before(Storaged)[0] == Graphd && Before(Metad)[0] == Graphd && Before(Metad)[1] == Storaged;
    var press := Press(Quiet(), Smooth());
    assert Next(Cluster(READY, UNREPORTED, READY), press) == Cluster(READY, UNREPORTED, Component(Suspend, true, true));
    assert Next(Cluster(READY, UNREPORTED, Component(Suspend, true, true)), press)
        == Cluster(READY, UNREPORTED, Component(Suspend, false, false));
  }

  lemma StoragedIsSkipped()
    ensures
      var c := Cluster(READY, Component(Suspend, false, true), Component(Suspend, false, false));
      var d := Next(c, Press(Failing(), Smooth()));
      !DeletesInOrder(d, Next(d, Press(Quiet(), Smooth())))
  {
    assert Before(Metad)[0] == Graphd && Before(Metad)[1] == Storaged;
    var c := Cluster(READY, Component(Suspend, false, true), Component(Suspend, false, false));
    assert Next(c, Press(Failing(), Smooth())) == c.(metad := Component(Suspend, true, true));
  }

  lemma UnreportedBreaks(c: Cluster, settle: seq<Step>, run: seq<Step>, s: Step)
    requires (forall t :: t in settle ==> Durable(t)) && BreaksOrder(After(c, settle), run, s)
    ensures BreaksOrder(c, settle + run, s)
  {
    Joined(c, settle, run);
  }

  /** The reconcile of the component reaches the creation of its workload, and it is not refused. */
  predicate Creates(c: Cluster, k: Kind, enabled: bool, a: Answers) {
    && !a.failsBefore && !Get(c, k).present && !a.create.Refused?
    && (if enabled then Get(c, k).phase != Suspend && !CanSuspend(c, k, enabled) else Get(c, k).phase != Suspend)
  }

  /**
   The step creates the workload of storaged or of graphd while its status does not report one, and the answer to
   the creation or the status write is lost.
   */
  predicate CreatesUnrecorded(c: Cluster, s: Step) {
    var m := ReconcileOne(c, Metad, s.enabled, s.metad);
    var t := ReconcileOne(m.cluster, Storaged, s.enabled, s.storaged);
    !m.failed &&
      if Creates(m.cluster, Storaged, s.enabled, s.storaged) then
        !c.storaged.reported && (!s.written || s.storaged.create.Unseen?)
      else
        !t.failed && Creates(t.cluster, Graphd, s.enabled, s.graphd) && !c.graphd.reported && (!s.written || s.graphd.create.Unseen?)
  }

  /** What a component is after its part of a reconcile, as far as its workload and the report of it go. */
  lemma UnreportedIffCreated(c: Cluster, k: Kind, enabled: bool, a: Answers)
    requires Get(c, k).present ==> Get(c, k).reported
    ensures
      var o := ReconcileOne(c, k, enabled, a);
      var x, y := Get(c, k), Get(o.cluster, k);
      && (Creates(c, k, enabled, a) ==> y.present && o.failed && (y.reported <==> x.reported || a.create.Accepted?))
      && (!Creates(c, k, enabled, a) ==> (y.present ==> x.present && y.reported))
  {
  }

  lemma UnrecordedIff(c: Cluster, s: Step)
    requires Gone(c)
    ensures CreatesUnrecorded(c, s) <==> !Reported(Next(c, s))
  {
    var m := ReconcileOne(c, Metad, s.enabled, s.metad);
    var t := ReconcileOne(m.cluster, Storaged, s.enabled, s.storaged);
    OthersUntouched(c, Metad, s.enabled, s.metad);
    OthersUntouched(m.cluster, Storaged, s.enabled, s.storaged);
    OthersUntouched(t.cluster, Graphd, s.enabled, s.graphd);
    UnreportedIffCreated(m.cluster, Storaged, s.enabled, s.storaged);
    UnreportedIffCreated(t.cluster, Graphd, s.enabled, s.graphd);
  }

  lemma OthersUntouched(c: Cluster, k: Kind, enabled: bool, a: Answers)
    ensures k != Metad ==> ReconcileOne(c, k, enabled, a).cluster.metad == c.metad
    ensures k != Storaged ==> ReconcileOne(c, k, enabled, a).cluster.storaged == c.storaged
    ensures k != Graphd ==> ReconcileOne(c, k, enabled, a).cluster.graphd == c.graphd
  {
  }

  /**
   Whether status write and answers of a reconcile arrive matters exactly if it creates graphd or storaged:
   a later reconcile can delete a workload too early, though all later writes arrive, if and only if the step
   creates one of these two whose stored status does not come to report it.
   */
  lemma LosingMattersIff(c: Cluster, s: Step)
    requires Gone(c)
    ensures (exists run, t :: BreaksOrder(Next(c, s), run, t)) <==> CreatesUnrecorded(c, s)
  {
    ReconcileKeepsGone(c, s);
    UnreportedIsNew(c, s);
    UnrecordedIff(c, s);
    if Reported(Next(c, s)) {
      GoneNeverBreaks(Next(c, s));
    } else {
      UnreportedCanBreak(Next(c, s));
    }
  }

  lemma GoneNeverBreaks(c: Cluster)
    requires Gone(c)
    ensures forall run, s :: !BreaksOrder(c, run, s)
  {
    forall run, s | (forall t :: t in run ==> Durable(t)) && Durable(s) ensures !BreaksOrder(c, run, s) {
      RunsDeleteInOrder(c, run, s);
    }
  }

  lemma UnreportedCanBreak(c: Cluster)
    requires Ordered(c) && !Reported(c)
    requires c.graphd.present && !c.graphd.reported ==> c.graphd.phase != Suspend
    requires c.storaged.present && !c.storaged.reported ==> c.storaged.phase != Suspend
    ensures exists run, s :: BreaksOrder(c, run, s)
  {
    if c.graphd.present && !c.graphd.reported {
      UnreportedGraphdBreaks(c);
    } else {
      UnreportedStoragedBreaks(c);
    }
  }

  lemma UnreportedGraphdBreaks(c: Cluster)
    requires c.metad.phase != Suspend && c.storaged.phase != Suspend && c.graphd == Component(c.graphd.phase, false, true)
    requires c.graphd.phase != Suspend
    ensures BreaksOrder(c, Settling(Graphd) + GraphdRun(), Press(Smooth(), Smooth()))
  {
    Settles(c, Graphd);
    SettlingIsDurable(Graphd);
    GraphdTooLate();
    UnreportedBreaks(c, Settling(Graphd), GraphdRun(), Press(Smooth(), Smooth()));
  }

  lemma UnreportedStoragedBreaks(c: Cluster)
    requires c.metad.phase != Suspend && c.storaged.phase != Suspend && c.storaged == Component(c.storaged.phase, false, true)
    ensures BreaksOrder(c, Settling(Storaged) + StoragedRun(), Press(Quiet(), Smooth()))
  {
    Settles(c, Storaged);
    SettlingIsDurable(Storaged);
    StoragedTooLate();
    UnreportedBreaks(c, Settling(Storaged), StoragedRun(), Press(Quiet(), Smooth()));
  }

  /** It does happen: after a resume graphd is created, and the status write is lost. */
  lemma LostWriteUnreported()
    ensures
      var c := Cluster(READY, READY, Component(Running, false, false));
      Gone(c) && CreatesUnrecorded(c, Step(false, Smooth(), Smooth(), Smooth(), false))
  {
  }

  // ------------------------------------------------------------------ suspension completes

  function Rank(x: Component): nat {
    if x.phase != Suspend then 0 else if x.reported || x.present then 1 else 2
  }

  function TotalRank(c: Cluster): nat { Rank(c.metad) + Rank(c.storaged) + Rank(c.graphd) }

  /** Every component is suspended, on its way, or running with its workload. */
  predicate Calm(c: Cluster) {
    && (c.metad == Component(Running, true, true) || c.metad.phase == Suspend)
    && (c.storaged == Component(Running, true, true) || c.storaged.phase == Suspend)
    && (c.graphd == Component(Running, true, true) || c.graphd.phase == Suspend)
  }

  function SuspendStep(): Step { Step(true, Smooth(), Smooth(), Smooth(), true) }

  /** Whether `k` moves on in an undisturbed reconcile: it is its turn and it is not there yet. */
  predicate Moves(c: Cluster, k: Kind) {
    Rank(Get(c, k)) == 1 || (Rank(Get(c, k)) == 0 && forall j :: 0 <= j < |Before(k)| ==> Rank(Get(c, Before(k)[j])) == 2)
  }

  lemma SmoothOne(c: Cluster, k: Kind)
    requires Calm(c)
    ensures
      var o := ReconcileOne(c, k, true, Smooth());
      && !o.failed && Calm(o.cluster)
      && o.cluster == Put(c, k, Get(o.cluster, k))
      && Rank(Get(o.cluster, k)) >= Rank(Get(c, k)) + if Moves(c, k) then 1 else 0
  {
  }

  lemma RankGrows(c: Cluster)
    requires Calm(c)
    ensures Calm(Next(c, SuspendStep()))
    ensures TotalRank(Next(c, SuspendStep())) >= if TotalRank(c) < 6 then TotalRank(c) + 1 else 6
  {
    assert Before(Storaged)[0] == Graphd && Before(Metad)[0] == Graphd && Before(Metad)[1] == Storaged;
    SmoothOne(c, Metad);
    var m := ReconcileOne(c, Metad, true, Smooth()).cluster;
    SmoothOne(m, Storaged);
    var t := ReconcileOne(m, Storaged, true, Smooth()).cluster;
    SmoothOne(t, Graphd);
    assert Moves(c, Metad) || Moves(m, Storaged) || Moves(t, Graphd) || TotalRank(c) == 6;
  }

  function SuspendSteps(n: nat): seq<Step> {
    if n == 0 then [] else [SuspendStep()] + SuspendSteps(n - 1)
  }

  /** Six undisturbed reconciles with the flag set suspend a running cluster and delete all its workloads. */
  lemma {:induction false} SuspensionCompletes(c: Cluster, n: nat)
    requires Calm(c) && TotalRank(c) + n >= 6
    ensures
      var d := After(c, SuspendSteps(n));
      d.metad == d.storaged == d.graphd == Component(Suspend, false, false)
    decreases n
  {
    if n > 0 {
      RankGrows(c);
      assert SuspendSteps(n)[0] == SuspendStep() && SuspendSteps(n)[1..] == SuspendSteps(n - 1);
      SuspensionCompletes(Next(c, SuspendStep()), n - 1);
    }
  }

  // ------------------------------------------------------------------ resumption completes

  function ResumeStep(): Step { Step(false, Smooth(), Smooth(), Smooth(), true) }

  function ResumeSteps(n: nat): seq<Step> {
    if n == 0 then [] else [ResumeStep()] + ResumeSteps(n - 1)
  }

  /** A component lets the ones after it have their turn unless its workload is just being created. */
  predicate Passes(x: Component) { x.phase == Suspend || x.present }

  lemma ResumeOne(c: Cluster)
    ensures
      var d := Next(c, ResumeStep());
      && d.metad == Up(c.metad, false)
      && d.storaged == (if Passes(c.metad) then Up(c.storaged, false) else c.storaged)
      && d.graphd == (if Passes(c.metad) && Passes(c.storaged) then Up(c.graphd, false) else c.graphd)
  {
  }

  /** How far a component is: suspended, without a workload, with one, and ready. */
  function Height(x: Component): nat {
    if x == READY then 3 else if x.phase == Suspend then 0 else if x.present then 2 else 1
  }

  /** How many more turns the component takes at most, given those it loses to the ones before it. */
  predicate Within(c: Cluster, n: nat) {
    && Height(c.metad) + n >= 3
    && Height(c.storaged) + n >= 3 + (if Height(c.metad) <= 1 then 1 else 0)
    && Height(c.graphd) + n >= 3 + (if Height(c.metad) <= 1 then 1 else 0) + (if Height(c.storaged) <= 1 then 1 else 0)
  }

  lemma WithinFive(c: Cluster)
    ensures Within(c, 5)
  {
  }

  lemma UpRises(x: Component)
    ensures Height(Up(x, false)) > Height(x) || Height(x) == 3
    ensures Height(x) == 3 ==> Up(x, false) == x
    ensures Passes(x) <==> Height(x) != 1
  {
  }

  lemma ResumeNearer(c: Cluster, n: nat)
    requires n > 0 && Within(c, n)
    ensures Within(Next(c, ResumeStep()), n - 1)
  {
    ResumeOne(c);
    UpRises(c.metad);
    UpRises(c.storaged);
    UpRises(c.graphd);
  }

  /**
   Five undisturbed reconciles with the flag off bring any cluster back, suspended, half-suspended or not: every
   component runs with its workload, which is reported; and more of them change nothing.
   */
  lemma {:induction false} ResumptionCompletes(c: Cluster, n: nat)
    requires Within(c, n)
    ensures After(c, ResumeSteps(n)) == Cluster(READY, READY, READY)
    decreases n
  {
    if n > 0 {
      ResumeNearer(c, n);
      assert ResumeSteps(n)[0] == ResumeStep() && ResumeSteps(n)[1..] == ResumeSteps(n - 1);
      ResumptionCompletes(Next(c, ResumeStep()), n - 1);
    }
  }

  lemma FiveResume(c: Cluster, n: nat)
    requires n >= 5
    ensures After(c, ResumeSteps(n)) == Cluster(READY, READY, READY)
  {
    ResumptionCompletes(c, n);
  }
}
