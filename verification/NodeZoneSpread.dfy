/**
 The spreading guarantee: in every interleaving of scheduling cycles, asynchronous binds, zone map
 writes, and deletion and re-creation of mapped pods, two placed pods of a triple are in different zones.
 */
module NodeZoneSpread {
  import opened NodeZone

  /** Zone labels are not empty: an empty entry of the zone map would count as no entry. */
  ghost predicate Labelled(nodes: Nodes) {
    forall n :: n in nodes && nodes[n].Some? ==> nodes[n].value != ""
  }

  predicate SameTriple(a: nat, b: nat) { a / AVAILABLE_ZONES == b / AVAILABLE_ZONES }

  /** `a` comes before `b` in their triple. */
  predicate Before(a: nat, b: nat) { SameTriple(a, b) && a < b }

  /** The pod's zone is settled: it is in the zone map, or will be. */
  predicate Settled(w: World, o: nat) {
    o in w.zoneMap || PodAt(w.pods, o).Bound?
  }

  /** The zone of a settled pod. */
  function SettledZone(w: World, nodes: Nodes, o: nat): Zone {
    if o in w.zoneMap then w.zoneMap[o]
    else if PodAt(w.pods, o).Bound? then Label(nodes, w.pods[o].node)
    else ""
  }

  /** Those before the pod in its triple are settled in other zones. */
  ghost predicate Admissible(w: World, nodes: Nodes, o: nat, zone: Zone) {
    forall a :: Before(a, o) ==> Settled(w, a) && SettledZone(w, nodes, a) != zone
  }

  /** What holds of one pod. */
  ghost predicate PodInvariant(w: World, nodes: Nodes, o: nat) {
    var pod := PodAt(w.pods, o);
    && (pod.Placed() ==> FitsMap(w, nodes, o, pod) && Admissible(w, nodes, o, Label(nodes, pod.node)))
    && (o in w.zoneMap ==> Served(nodes, w.zoneMap[o]))
  }

  /** A placed pod is in a zone, which is that of its entry in the zone map. */
  predicate FitsMap(w: World, nodes: Nodes, o: nat, pod: Pod)
    requires pod.Placed()
  {
    Label(nodes, pod.node) != "" && (o in w.zoneMap ==> w.zoneMap[o] == Label(nodes, pod.node))
  }

  /** Some node is in the zone. */
  ghost predicate Served(nodes: Nodes, zone: Zone) {
    zone != "" && exists node :: node in nodes && Label(nodes, node) == zone
  }

  ghost predicate CycleInvariant(w: World, nodes: Nodes) {
    w.cycle.Some? ==>
      var c := w.cycle.value;
      && PodAt(w.pods, c.pod).Pending?
      && (c.state.Some? && c.pod in w.zoneMap ==> c.pod in c.state.value && c.state.value[c.pod] == w.zoneMap[c.pod])
      && (c.node.Some? ==>
            && Label(nodes, c.node.value) != ""
            && (c.pod in w.zoneMap ==> w.zoneMap[c.pod] == Label(nodes, c.node.value)))
  }

  ghost predicate Invariant(w: World, nodes: Nodes) {
    (forall o :: PodInvariant(w, nodes, o)) && CycleInvariant(w, nodes)
  }

  // ------------------------------------------------------------------ one pod changes

  /** No pod that comes later in the triple is placed. */
  ghost predicate LastPlaced(w: World, o: nat) {
    forall b :: Before(o, b) ==> !PodAt(w.pods, b).Placed()
  }

  lemma PodChanges(w: World, nodes: Nodes, o: nat, pod: Pod)
    requires Invariant(w, nodes) && (w.cycle.Some? ==> w.cycle.value.pod != o)
    requires o in w.zoneMap || (PodAt(w.pods, o).Bound? ==> pod == PodAt(w.pods, o)) || LastPlaced(w, o)
    requires pod.Placed() ==> FitsMap(w, nodes, o, pod)
    requires pod.Placed() ==>
      (PodAt(w.pods, o).Placed() && PodAt(w.pods, o).node == pod.node) || Admissible(w, nodes, o, Label(nodes, pod.node))
    ensures Invariant(SetPod(w, o, pod), nodes)
  {
    var w' := SetPod(w, o, pod);
    assert PodInvariant(w, nodes, o);
    forall p: nat
      ensures PodInvariant(w', nodes, p)
    {
      assert PodInvariant(w, nodes, p);
      assert p != o ==> PodAt(w'.pods, p) == PodAt(w.pods, p);
      StaysAdmissible(w, w', nodes, o, p);
    }
  }

  /** A change of `o` leaves `p` admissible if `o` stays settled, does not come before `p`, or `p` is not placed. */
  lemma StaysAdmissible(w: World, w': World, nodes: Nodes, o: nat, p: nat)
    requires w'.zoneMap == w.zoneMap && forall q: nat :: q != o ==> PodAt(w'.pods, q) == PodAt(w.pods, q)
    requires Before(o, p) && Settled(w, o) ==>
      (Settled(w', o) && SettledZone(w', nodes, o) == SettledZone(w, nodes, o)) || !PodAt(w.pods, p).Placed()
    ensures forall zone :: Admissible(w, nodes, p, zone) && (Before(o, p) ==> PodAt(w.pods, p).Placed()) ==> Admissible(w', nodes, p, zone)
  {
    forall zone | Admissible(w, nodes, p, zone) && (Before(o, p) ==> PodAt(w.pods, p).Placed())
      ensures Admissible(w', nodes, p, zone)
    {
      forall a | Before(a, p) ensures Settled(w', a) && SettledZone(w', nodes, a) != zone {
        assert a != o ==> PodAt(w'.pods, a) == PodAt(w.pods, a);
      }
    }
  }

  /** Settlement only depends on the zone map and on which pods are bound where. */
  ghost predicate Alike(w: World, w': World) {
    w'.zoneMap == w.zoneMap && forall o :: o in w.pods || o in w'.pods ==>
      PodAt(w'.pods, o) == PodAt(w.pods, o) || (!PodAt(w.pods, o).Placed() && !PodAt(w'.pods, o).Placed())
  }

  lemma AlikeKeepsPods(w: World, w': World, nodes: Nodes)
    requires Alike(w, w') && forall o :: PodInvariant(w, nodes, o)
    ensures forall o :: PodInvariant(w', nodes, o)
  {
    assert forall p: nat :: PodAt(w'.pods, p) == PodAt(w.pods, p) || (!PodAt(w.pods, p).Placed() && !PodAt(w'.pods, p).Placed());
    forall p: nat
      ensures PodInvariant(w', nodes, p)
    {
      assert PodInvariant(w, nodes, p);
    }
  }

  lemma UnreserveKeepsInvariant(w: World, nodes: Nodes, o: nat)
    requires Invariant(w, nodes)
    ensures Invariant(w.(pods := Unreserve(w.pods, o)), nodes)
  {
    AlikeKeepsPods(w, w.(pods := Unreserve(w.pods, o)), nodes);
  }

  // ------------------------------------------------------------------ the steps

  /** What Permit has checked makes the pod's zone admissible. */
  lemma PermittedIsAdmissible(w: World, nodes: Nodes, o: nat, node: string)
    requires Permit(w.pods, nodes, o, node) == Success && (forall p :: PodInvariant(w, nodes, p))
    ensures Admissible(w, nodes, o, Label(nodes, node))
  {
    forall a | Before(a, o)
      ensures Settled(w, a) && SettledZone(w, nodes, a) != Label(nodes, node)
    {
      assert a == Anchor(o) || a == o - 1;
      assert PodInvariant(w, nodes, a);
    }
  }

  lemma PermitKeepsInvariant(w: World, nodes: Nodes)
    requires Invariant(w, nodes) && w.cycle.Some? && w.cycle.value.node.Some?
    ensures Invariant(Next(w, nodes, PermitNode), nodes)
  {
    var c := w.cycle.value;
    var done := w.(cycle := None);
    AlikeKeepsPods(w, done, nodes);
    match Permit(w.pods, nodes, c.pod, c.node.value)
    case Success =>
      PermittedIsAdmissible(done, nodes, c.pod, c.node.value);
      PodChanges(done, nodes, c.pod, Binding(c.node.value));
    case Wait =>
      PodChanges(done, nodes, c.pod, Waiting(c.node.value));
    case _ =>
      UnreserveKeepsInvariant(done, nodes, c.pod);
  }

  lemma MapKeepsInvariant(w: World, nodes: Nodes, o: nat)
    requires Invariant(w, nodes)
    ensures Invariant(Next(w, nodes, MapZone(o)), nodes)
  {
    var w' := Next(w, nodes, MapZone(o));
    assert PodInvariant(w, nodes, o);
    assert forall p: nat :: Settled(w, p) ==> Settled(w', p) && SettledZone(w', nodes, p) == SettledZone(w, nodes, p);
    forall p: nat
      ensures PodInvariant(w', nodes, p)
    {
      assert PodInvariant(w, nodes, p);
    }
  }

  /** Pods that are gone for good give up their entries, and nobody before them depends on them. */
  lemma TrimKeepsInvariant(w: World, nodes: Nodes, n: nat)
    requires Invariant(w, nodes)
    ensures Invariant(Next(w, nodes, Trim(n)), nodes)
  {
    var w' := Next(w, nodes, Trim(n));
    if w' != w {
      assert forall p: nat :: p >= n ==> PodAt(w.pods, p).Absent?;
      assert forall p: nat :: p < n && Settled(w, p) ==> Settled(w', p) && SettledZone(w', nodes, p) == SettledZone(w, nodes, p);
      forall p: nat
        ensures PodInvariant(w', nodes, p)
      {
        assert PodInvariant(w, nodes, p);
      }
    }
  }

  lemma CycleKeepsInvariant(w: World, nodes: Nodes, step: Step)
    requires Labelled(nodes) && Invariant(w, nodes) && (step.StartCycle? || step.FilterNode?)
    ensures Invariant(Next(w, nodes, step), nodes)
  {
    AlikeKeepsPods(w, Next(w, nodes, step), nodes);
    if w.cycle.Some? {
      assert PodInvariant(w, nodes, w.cycle.value.pod);
    }
  }

  /** A deletion keeps the invariant if the pod is in the zone map, or is not placed, or no later pod of its triple is. */
  lemma DeleteKeepsInvariant(w: World, nodes: Nodes, o: nat)
    requires Invariant(w, nodes) && (Tame(w, Delete(o)) || LastPlaced(w, o))
    ensures Invariant(Next(w, nodes, Delete(o)), nodes)
  {
    var pod := PodAt(w.pods, o);
    assert PodInvariant(w, nodes, o);
    var w0 := if w.cycle.Some? && w.cycle.value.pod == o then w.(cycle := None) else w;
    AlikeKeepsPods(w, w0, nodes);
    PodChanges(w0, nodes, o, if pod.Bound? then Terminating(pod.node) else if pod.Terminating? then pod else Absent);
  }

  lemma StepKeepsInvariant(w: World, nodes: Nodes, step: Step)
    requires Labelled(nodes) && Invariant(w, nodes) && Tame(w, step)
    ensures Invariant(Next(w, nodes, step), nodes)
  {
    match step
    case Create(o) =>
      if PodAt(w.pods, o).Absent? { PodChanges(w, nodes, o, Pending); }
    case StartCycle(_, _) =>
      CycleKeepsInvariant(w, nodes, step);
    case FilterNode(_) =>
      CycleKeepsInvariant(w, nodes, step);
    case PermitNode =>
      if w.cycle.Some? && w.cycle.value.node.Some? { PermitKeepsInvariant(w, nodes); }
    case Expire(o) =>
      if PodAt(w.pods, o).Waiting? {
        PodChanges(w, nodes, o, Pending);
        UnreserveKeepsInvariant(SetPod(w, o, Pending), nodes, o);
      }
    case BindDone(o) =>
      assert PodInvariant(w, nodes, o);
      if PodAt(w.pods, o).Binding? { PodChanges(w, nodes, o, Bound(w.pods[o].node)); }
    case BindFail(o) =>
      if PodAt(w.pods, o).Binding? {
        PodChanges(w, nodes, o, Pending);
        UnreserveKeepsInvariant(SetPod(w, o, Pending), nodes, o);
      }
    case MapZone(o) =>
      MapKeepsInvariant(w, nodes, o);
    case Trim(n) =>
      TrimKeepsInvariant(w, nodes, n);
    case Delete(o) =>
      DeleteKeepsInvariant(w, nodes, o);
    case Gone(o) =>
      assert PodInvariant(w, nodes, o);
      if PodAt(w.pods, o).Terminating? { PodChanges(w, nodes, o, Absent); }
  }

  lemma {:induction false} RunsKeepInvariant(nodes: Nodes, steps: seq<Step>)
    requires Labelled(nodes) && TameRun(nodes, steps)
    ensures Invariant(After(nodes, steps), nodes)
  {
    if steps != [] {
      var n := |steps| - 1;
      RunsKeepInvariant(nodes, steps[..n]);
      StepKeepsInvariant(After(nodes, steps[..n]), nodes, steps[n]);
    }
  }

  /** Two placed pods of the triple of `o` are in one zone. */
  ghost predicate Collides(w: World, nodes: Nodes, o: nat) {
    exists a, b :: a != b && SameTriple(a, o) && SameTriple(b, o) && PodAt(w.pods, a).Placed() && PodAt(w.pods, b).Placed()
      && Label(nodes, w.pods[a].node) == Label(nodes, w.pods[b].node)
  }

  lemma InvariantIsSpread(w: World, nodes: Nodes, o: nat)
    requires Invariant(w, nodes)
    ensures !Collides(w, nodes, o)
  {
    forall a: nat, b: nat | Before(a, b) && PodAt(w.pods, a).Placed() && PodAt(w.pods, b).Placed()
      ensures Label(nodes, w.pods[a].node) != Label(nodes, w.pods[b].node)
    {
      assert PodInvariant(w, nodes, a) && PodInvariant(w, nodes, b);
    }
  }

  /** In every interleaving two placed pods of one triple are on labelled nodes of different zones. */
  lemma PlacedPodsAreSpread(nodes: Nodes, steps: seq<Step>, a: nat, b: nat)
    requires Labelled(nodes) && TameRun(nodes, steps)
    requires a != b && SameTriple(a, b)
    ensures
      var pods := After(nodes, steps).pods;
      PodAt(pods, a).Placed() && PodAt(pods, b).Placed() ==>
        Label(nodes, pods[a].node) != "" && Label(nodes, pods[a].node) != Label(nodes, pods[b].node)
  {
    var w := After(nodes, steps);
    RunsKeepInvariant(nodes, steps);
    assert PodInvariant(w, nodes, a);
    InvariantIsSpread(w, nodes, a);
  }

  // ------------------------------------------------------------------ why deletions must wait for the map

  function Run(w: World, nodes: Nodes, steps: seq<Step>): World
    decreases |steps|
  {
    if steps == [] then w else Run(Next(w, nodes, steps[0]), nodes, steps[1..])
  }

  lemma {:induction false} RunExtends(nodes: Nodes, before: seq<Step>, steps: seq<Step>)
    ensures After(nodes, before + steps) == Run(After(nodes, before), nodes, steps)
    decreases |steps|
  {
    if steps == [] {
      assert before + steps == before;
    } else {
      assert (before + [steps[0]])[..|before|] == before;
      assert before + steps == (before + [steps[0]]) + steps[1..];
      RunExtends(nodes, before + [steps[0]], steps[1..]);
    }
  }

  /** Schedule a new pod onto a node. */
  function Place(o: nat, node: string): seq<Step> {
    [Create(o), StartCycle(o, true), FilterNode(node), PermitNode, BindDone(o)]
  }

  /** Placing a pod that both Filter and Permit let through on this node. */
  lemma PlaceSucceeds(w: World, nodes: Nodes, o: nat, node: string)
    requires w.cycle.None? && PodAt(w.pods, o).Absent?
    requires Filter(Some(w.zoneMap), w.pods[o := Pending], nodes, o, node) == Success
    requires Permit(w.pods[o := Pending], nodes, o, node) == Success
    ensures Run(w, nodes, Place(o, node)) == SetPod(w, o, Bound(node))
  {
    var steps := Place(o, node);
    var w1 := SetPod(w, o, Pending);
    assert Next(w, nodes, steps[0]) == w1;
    var w2 := w1.(cycle := Some(Cycle(o, Some(w.zoneMap), None)));
    assert Next(w1, nodes, steps[1]) == w2;
    var w3 := w2.(cycle := Some(Cycle(o, Some(w.zoneMap), Some(node))));
    assert Next(w2, nodes, steps[2]) == w3;
    var w4 := SetPod(w, o, Binding(node));
    assert w.pods[o := Pending][o := Binding(node)] == w.pods[o := Binding(node)];
    assert Next(w3, nodes, steps[3]) == w4;
    assert w4.pods[o := Bound(node)] == w.pods[o := Bound(node)];
    assert Next(w4, nodes, steps[4]) == SetPod(w, o, Bound(node));
    assert steps[1..][1..] == steps[2..] && steps[2..][1..] == steps[3..] && steps[3..][1..] == steps[4..] && steps[4..][1..] == [];
    assert Run(w4, nodes, steps[4..]) == SetPod(w, o, Bound(node));
    assert Run(w3, nodes, steps[3..]) == SetPod(w, o, Bound(node));
    assert Run(w1, nodes, steps[1..]) == SetPod(w, o, Bound(node));
  }

  ghost predicate Reachable(w: World, nodes: Nodes) {
    exists steps :: After(nodes, steps) == w
  }

  lemma ReachOn(w: World, nodes: Nodes, steps: seq<Step>)
    requires Reachable(w, nodes)
    ensures Reachable(Run(w, nodes, steps), nodes)
  {
    var before :| After(nodes, before) == w;
    RunExtends(nodes, before, steps);
  }

  /**
   Without that care the guarantee is lost: an anchor that is deleted before its zone is in the map
   can come back into its neighbour's zone, because an anchor outside the map is not checked.
   */
  lemma UnmappedAnchorLosesSpread()
    ensures Reachable(World(map[0 := Bound("n2"), 1 := Bound("n2")], map[], None), TwoZones())
  {
    TwoPlaced();
    var w2 := World(map[0 := Bound("n1"), 1 := Bound("n2")], map[], None);
    AnchorDeleted(w2, TwoZones());
    ReachOn(w2, TwoZones(), [Delete(0), Gone(0)]);
    var w3 := SetPod(w2, 0, Absent);
    PlaceSucceeds(w3, TwoZones(), 0, "n2");
    ReachOn(w3, TwoZones(), Place(0, "n2"));
    assert w3.pods[0 := Bound("n2")] == map[0 := Bound("n2"), 1 := Bound("n2")];
  }

  lemma TwoPlaced()
    ensures Reachable(World(map[0 := Bound("n1"), 1 := Bound("n2")], map[], None), TwoZones())
  {
    assert After(TwoZones(), []) == START;
    PlaceSucceeds(START, TwoZones(), 0, "n1");
    ReachOn(START, TwoZones(), Place(0, "n1"));
    var w1 := SetPod(START, 0, Bound("n1"));
    SecondFits(w1);
    PlaceSucceeds(w1, TwoZones(), 1, "n2");
    ReachOn(w1, TwoZones(), Place(1, "n2"));
    assert w1.pods[1 := Bound("n2")] == map[0 := Bound("n1"), 1 := Bound("n2")];
  }

  function TwoZones(): Nodes {
    map["n1" := Some("east"), "n2" := Some("west")]
  }

  lemma SecondFits(w: World)
    requires w == SetPod(START, 0, Bound("n1"))
    ensures Filter(Some(w.zoneMap), w.pods[1 := Pending], TwoZones(), 1, "n2") == Success
    ensures Permit(w.pods[1 := Pending], TwoZones(), 1, "n2") == Success
  {
    assert "east"[0] != "west"[0];
  }

  lemma AnchorDeleted(w: World, nodes: Nodes)
    requires w.cycle.None? && PodAt(w.pods, 0).Bound?
    ensures Run(w, nodes, [Delete(0), Gone(0)]) == SetPod(w, 0, Absent)
  {
    var steps := [Delete(0), Gone(0)];
    assert steps[1..][1..] == [];
    var w' := Next(w, nodes, steps[0]);
    assert w'.pods[0 := Absent] == w.pods[0 := Absent];
    assert Next(w', nodes, steps[1]) == SetPod(w, 0, Absent);
    assert Run(w', nodes, steps[1..]) == SetPod(w, 0, Absent);
  }
}
