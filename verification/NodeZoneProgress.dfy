/**
 What the plugin lets through: Filter and Permit in terms of the zones of a pod's triple, and that the spreading
 never leaves a triple stuck. From every state a careful run can reach, all three pods of any triple can be bound,
 provided that there are nodes in three zones.
 */
module NodeZoneProgress {
  import opened NodeZone
  import opened NodeZoneSpread
  import opened NodeZoneDeletion

  // ------------------------------------------------------------------ what Filter and Permit decide

  /** The pod is bound to a labelled node of another zone. */
  predicate Elsewhere(nodes: Nodes, pod: Pod, zone: Zone) {
    pod.Bound? && pod.node in nodes && nodes[pod.node].Some? && nodes[pod.node].value != zone
  }

  /** The other pods of the triple, as far as they are bound, are on labelled nodes of other zones. */
  ghost predicate NeighboursElsewhere(pods: Pods, nodes: Nodes, o: nat, zone: Zone) {
    forall p :: SameTriple(p, o) && p != o && PodAt(pods, p).Bound? ==> Elsewhere(nodes, PodAt(pods, p), zone)
  }

  /** The others of a triple, by what is left over when dividing by three. */
  lemma Others(p: nat, o: nat)
    requires SameTriple(p, o) && p != o
    ensures o % AVAILABLE_ZONES == 0 ==> p == o + 1 || p == o + 2
    ensures o % AVAILABLE_ZONES == 1 ==> p == Anchor(o) || p == o + 1
    ensures o % AVAILABLE_ZONES == 2 ==> p == Anchor(o) || p == o - 1
  {
  }

  /**
   Filter lets a labelled node through: for a pod in the zone map exactly if it is in the pod's zone, for another
   pod exactly if that is the first of its triple or the others of the triple are elsewhere.
   */
  lemma FilterIff(state: Option<map<nat, Zone>>, pods: Pods, nodes: Nodes, o: nat, node: string)
    ensures Filter(state, pods, nodes, o, node) == Error <==> state == None
    ensures Filter(state, pods, nodes, o, node) != Wait
    ensures state.Some? && !(node in nodes && nodes[node].Some?) ==> Filter(state, pods, nodes, o, node) == Unschedulable
    ensures state.Some? && node in nodes && nodes[node].Some? && o in state.value && state.value[o] != "" ==>
      (Filter(state, pods, nodes, o, node) == Success <==> state.value[o] == nodes[node].value)
    ensures state.Some? && node in nodes && nodes[node].Some? && (o !in state.value || state.value[o] == "") ==>
      (Filter(state, pods, nodes, o, node) == Success
       <==> o % AVAILABLE_ZONES == 0 || NeighboursElsewhere(pods, nodes, o, nodes[node].value))
  {
    if state.Some? && node in nodes && nodes[node].Some? && o % AVAILABLE_ZONES != 0 {
      var second := if o % AVAILABLE_ZONES == 1 then o + 1 else o - 1;
      assert SameTriple(Anchor(o), o) && SameTriple(second, o);
      forall p: nat | SameTriple(p, o) && p != o ensures p == Anchor(o) || p == second {
        Others(p, o);
      }
    }
  }

  /** Nothing more is to be known about `p`: it is bound to a known node of another zone. */
  predicate Clears(pods: Pods, nodes: Nodes, p: nat, node: string) {
    var pod := PodAt(pods, p);
    && pod.Bound? && node in nodes && pod.node in nodes && Label(nodes, pod.node) != Label(nodes, node)
    && (p % AVAILABLE_ZONES == 1 ==> nodes[pod.node].Some?)
  }

  /** The pod has to wait for `p`, the first before it in the triple that is not cleared. */
  ghost predicate WaitsFor(pods: Pods, nodes: Nodes, o: nat, node: string, p: nat) {
    Before(p, o) && !PodAt(pods, p).Bound? && forall q :: Before(q, p) ==> Clears(pods, nodes, q, node)
  }

  /** Permit lets a pod go exactly if those before it in the triple are elsewhere, and makes it wait for one not yet bound. */
  lemma PermitIff(pods: Pods, nodes: Nodes, o: nat, node: string)
    ensures Permit(pods, nodes, o, node) == Success <==> forall p :: Before(p, o) ==> Clears(pods, nodes, p, node)
    ensures Permit(pods, nodes, o, node) == Wait <==> exists p :: WaitsFor(pods, nodes, o, node, p)
    ensures Permit(pods, nodes, o, node) != Error
  {
    var a := Anchor(o);
    assert forall q: nat :: !Before(q, a);
    if o % AVAILABLE_ZONES == 0 {
      assert forall q: nat :: !Before(q, o);
    } else if o % AVAILABLE_ZONES == 1 {
      assert Before(a, o) && forall p: nat :: Before(p, o) ==> p == a;
      assert !PodAt(pods, a).Bound? ==> WaitsFor(pods, nodes, o, node, a);
    } else {
      var sibling: nat := o - 1;
      assert Before(a, o) && Before(sibling, o) && forall p: nat :: Before(p, o) ==> p == a || p == sibling;
      assert Before(a, sibling) && forall q: nat :: Before(q, sibling) ==> q == a;
      assert !PodAt(pods, a).Bound? ==> WaitsFor(pods, nodes, o, node, a);
      assert Clears(pods, nodes, a, node) && !PodAt(pods, sibling).Bound? ==> WaitsFor(pods, nodes, o, node, sibling);
    }
  }

  /** A pod that gives up its place takes the waiting pods of its triple with it, and changes nothing else; the first of a triple none. */
  lemma ReleasedTogether(pods: Pods, o: nat, p: nat)
    ensures
      PodAt(Unreserve(pods, o), p) ==
        if o % AVAILABLE_ZONES != 0 && SameTriple(p, o) && PodAt(pods, p).Waiting? then Pending else PodAt(pods, p)
  {
  }

  // ------------------------------------------------------------------ entries of the zone map

  /** The entries of the zone map fit together, and pods on their way out have one. */
  ghost predicate Firm(w: World, nodes: Nodes) {
    && Invariant(w, nodes)
    && (forall o :: o in w.zoneMap ==> Admissible(w, nodes, o, w.zoneMap[o]))
    && (forall o :: PodAt(w.pods, o).Terminating? ==> o in w.zoneMap)
  }

  /** A settled pod stays settled in its zone, unless the entries for pods gone for good are removed. */
  lemma SettledStays(w: World, nodes: Nodes, step: Step, p: nat)
    requires Invariant(w, nodes) && Tame(w, step) && Settled(w, p) && (step.Trim? ==> p < step.n)
    ensures
      var w' := Next(w, nodes, step);
      Settled(w', p) && SettledZone(w', nodes, p) == SettledZone(w, nodes, p)
  {
  }

  lemma AdmissibleStays(w: World, nodes: Nodes, step: Step, o: nat, zone: Zone)
    requires Invariant(w, nodes) && Tame(w, step) && Admissible(w, nodes, o, zone) && (step.Trim? ==> o < step.n)
    ensures Admissible(Next(w, nodes, step), nodes, o, zone)
  {
    forall a | Before(a, o)
      ensures Settled(Next(w, nodes, step), a) && SettledZone(Next(w, nodes, step), nodes, a) != zone
    {
      SettledStays(w, nodes, step, a);
    }
  }

  lemma EntryFirm(w: World, nodes: Nodes, step: Step, o: nat)
    requires Firm(w, nodes) && Tame(w, step) && o in Next(w, nodes, step).zoneMap
    ensures Admissible(Next(w, nodes, step), nodes, o, Next(w, nodes, step).zoneMap[o])
  {
    var w' := Next(w, nodes, step);
    assert PodInvariant(w, nodes, o);
    if step.Trim? && w'.zoneMap != w.zoneMap {
      assert o < step.n;
    }
    if step.Trim? && step.n <= o {
      assert w' == w;
    } else {
      AdmissibleStays(w, nodes, step, o, w'.zoneMap[o]);
    }
  }

  lemma LeavingFirm(w: World, nodes: Nodes, step: Step, o: nat)
    requires Firm(w, nodes) && Tame(w, step) && PodAt(Next(w, nodes, step).pods, o).Terminating?
    ensures o in Next(w, nodes, step).zoneMap
  {
  }

  lemma StepKeepsFirm(w: World, nodes: Nodes, step: Step)
    requires Labelled(nodes) && Firm(w, nodes) && Tame(w, step)
    ensures Firm(Next(w, nodes, step), nodes)
  {
    StepKeepsInvariant(w, nodes, step);
    var w' := Next(w, nodes, step);
    forall o | o in w'.zoneMap ensures Admissible(w', nodes, o, w'.zoneMap[o]) {
      EntryFirm(w, nodes, step, o);
    }
    forall o | PodAt(w'.pods, o).Terminating? ensures o in w'.zoneMap {
      LeavingFirm(w, nodes, step, o);
    }
  }

  lemma {:induction false} RunsStayFirm(nodes: Nodes, steps: seq<Step>)
    requires Labelled(nodes) && TameRun(nodes, steps)
    ensures Firm(After(nodes, steps), nodes)
  {
    if steps != [] {
      var n := |steps| - 1;
      RunsStayFirm(nodes, steps[..n]);
      StepKeepsFirm(After(nodes, steps[..n]), nodes, steps[n]);
    }
  }

  lemma {:induction false} ContinuationStaysFirm(w: World, nodes: Nodes, steps: seq<Step>)
    requires Labelled(nodes) && Firm(w, nodes) && TameFrom(w, nodes, steps)
    ensures Firm(Run(w, nodes, steps), nodes)
    decreases |steps|
  {
    if steps != [] {
      StepKeepsFirm(w, nodes, steps[0]);
      ContinuationStaysFirm(Next(w, nodes, steps[0]), nodes, steps[1..]);
    }
  }

  // ------------------------------------------------------------------ no triple is stuck

  /** There are nodes in at least three zones. */
  ghost predicate ThreeZones(nodes: Nodes) {
    exists x, y, z :: Served(nodes, x) && Served(nodes, y) && Served(nodes, z) && x != y && y != z && x != z
  }

  lemma FreshNode(nodes: Nodes, a: Zone, b: Zone) returns (node: string)
    requires ThreeZones(nodes)
    ensures node in nodes && Label(nodes, node) != "" && Label(nodes, node) != a && Label(nodes, node) != b
  {
    var x, y, z :| Served(nodes, x) && Served(nodes, y) && Served(nodes, z) && x != y && y != z && x != z;
    var zone := if x != a && x != b then x else if y != a && y != b then y else z;
    node :| node in nodes && Label(nodes, node) == zone;
  }

  /** A pod not bound and not in the map has no later pod of its triple before it. */
  lemma LaterUnbound(w: World, nodes: Nodes, o: nat, b: nat)
    requires Invariant(w, nodes) && Before(o, b) && !Settled(w, o)
    ensures !PodAt(w.pods, b).Bound?
  {
    assert PodInvariant(w, nodes, b);
  }

  /** The pods before `o` in its triple are bound. */
  ghost predicate EarlierBound(w: World, o: nat) {
    forall a :: Before(a, o) ==> PodAt(w.pods, a).Bound?
  }

  /** The node suits the pod: it has the mapped zone, or one in which no earlier pod is. */
  ghost predicate Suits(w: World, nodes: Nodes, o: nat, node: string) {
    && node in nodes && Label(nodes, node) != ""
    && (o in w.zoneMap ==> w.zoneMap[o] == Label(nodes, node))
    && (forall a :: Before(a, o) ==> SettledZone(w, nodes, a) != Label(nodes, node))
  }

  lemma SuitableNode(w: World, nodes: Nodes, o: nat) returns (node: string)
    requires Firm(w, nodes) && ThreeZones(nodes)
    ensures Suits(w, nodes, o, node)
  {
    if o in w.zoneMap {
      assert PodInvariant(w, nodes, o);
      node :| node in nodes && Label(nodes, node) == w.zoneMap[o];
    } else {
      var first := SettledZone(w, nodes, Anchor(o));
      var second := if o % AVAILABLE_ZONES == 2 then SettledZone(w, nodes, o - 1) else "";
      node := FreshNode(nodes, first, second);
      forall a | Before(a, o) ensures SettledZone(w, nodes, a) != Label(nodes, node) {
        Others(a, o);
      }
    }
  }

  /** A bound pod is on a known node of its settled zone. */
  lemma BoundAtLabel(w: World, nodes: Nodes, a: nat)
    requires Invariant(w, nodes) && PodAt(w.pods, a).Bound?
    ensures w.pods[a].node in nodes && nodes[w.pods[a].node].Some? && Label(nodes, w.pods[a].node) == SettledZone(w, nodes, a)
  {
    assert PodInvariant(w, nodes, a);
  }

  lemma SuitableIsLetThrough(w: World, nodes: Nodes, o: nat, node: string)
    requires Labelled(nodes) && Firm(w, nodes) && EarlierBound(w, o) && PodAt(w.pods, o).Absent? && Suits(w, nodes, o, node)
    ensures Filter(Some(w.zoneMap), w.pods[o := Pending], nodes, o, node) == Success
    ensures Permit(w.pods[o := Pending], nodes, o, node) == Success
  {
    var pods := w.pods[o := Pending];
    forall p | Before(p, o) ensures Clears(pods, nodes, p, node) && Elsewhere(nodes, PodAt(pods, p), Label(nodes, node)) {
      BoundAtLabel(w, nodes, p);
    }
    PermitIff(pods, nodes, o, node);
    if o !in w.zoneMap {
      forall p | SameTriple(p, o) && p != o && PodAt(pods, p).Bound? ensures Elsewhere(nodes, PodAt(pods, p), Label(nodes, node)) {
        if o < p {
          LaterUnbound(w, nodes, o, p);
        }
      }
    } else {
      assert PodInvariant(w, nodes, o);
    }
    FilterIff(Some(w.zoneMap), pods, nodes, o, node);
  }

  /** The next pod of a triple can be bound, in whatever state it is. */
  lemma NextBound(w: World, nodes: Nodes, o: nat) returns (steps: seq<Step>)
    requires Labelled(nodes) && ThreeZones(nodes) && Firm(w, nodes) && w.cycle.None? && EarlierBound(w, o)
    ensures TameFrom(w, nodes, steps)
    ensures
      var v := Run(w, nodes, steps);
      Firm(v, nodes) && OnlyDiffers(w, v, o) && PodAt(v.pods, o).Bound?
  {
    if PodAt(w.pods, o).Bound? {
      steps := [];
    } else if PodAt(w.pods, o).Binding? {
      steps := [BindDone(o)];
      OneStep(w, nodes, BindDone(o));
      StepKeepsFirm(w, nodes, BindDone(o));
    } else {
      var away := TakenAway(w, nodes, o);
      var v := Run(w, nodes, away);
      ContinuationStaysFirm(w, nodes, away);
      var node := SuitableNode(v, nodes, o);
      SuitableIsLetThrough(v, nodes, o, node);
      var place := PlacedAnew(v, nodes, o, node);
      Joined(w, nodes, away, place);
      steps := away + place;
      ContinuationStaysFirm(w, nodes, steps);
    }
  }

  /** All three pods of the triple are bound, in three zones. */
  ghost predicate Complete(w: World, nodes: Nodes, q: nat) {
    && (forall p :: SameTriple(p, 3 * q) ==> PodAt(w.pods, p).Bound? && Label(nodes, w.pods[p].node) != "")
    && !Collides(w, nodes, 3 * q)
  }

  lemma FirstTwoBound(w: World, nodes: Nodes, o: nat) returns (steps: seq<Step>)
    requires Labelled(nodes) && ThreeZones(nodes) && Firm(w, nodes) && w.cycle.None? && o % AVAILABLE_ZONES == 0
    ensures TameFrom(w, nodes, steps)
    ensures
      var v := Run(w, nodes, steps);
      Firm(v, nodes) && v.cycle.None? && PodAt(v.pods, o).Bound? && PodAt(v.pods, o + 1).Bound?
  {
    var first := NextBound(w, nodes, o);
    var v := Run(w, nodes, first);
    var next: nat := o + 1;
    assert forall a: nat :: Before(a, next) ==> a == o;
    var second := NextBound(v, nodes, next);
    Joined(w, nodes, first, second);
    steps := first + second;
  }

  lemma TripleBound(w: World, nodes: Nodes, q: nat) returns (steps: seq<Step>)
    requires Labelled(nodes) && ThreeZones(nodes) && Firm(w, nodes) && w.cycle.None?
    ensures TameFrom(w, nodes, steps) && Complete(Run(w, nodes, steps), nodes, q)
  {
    var o: nat := 3 * q;
    var two := FirstTwoBound(w, nodes, o);
    var v := Run(w, nodes, two);
    var last: nat := o + 2;
    assert forall a: nat :: Before(a, last) ==> a == o || a == o + 1;
    var third := NextBound(v, nodes, last);
    Joined(w, nodes, two, third);
    steps := two + third;
    assert forall p: nat :: SameTriple(p, o) ==> p == o || p == o + 1 || p == o + 2;
    BoundIsComplete(Run(v, nodes, third), nodes, q);
  }

  lemma BoundIsComplete(w: World, nodes: Nodes, q: nat)
    requires Labelled(nodes) && Firm(w, nodes) && forall p :: SameTriple(p, 3 * q) ==> PodAt(w.pods, p).Bound?
    ensures Complete(w, nodes, q)
  {
    InvariantIsSpread(w, nodes, 3 * q);
    forall p | SameTriple(p, 3 * q) ensures Label(nodes, w.pods[p].node) != "" {
      BoundAtLabel(w, nodes, p);
    }
  }

  lemma Completed(w: World, nodes: Nodes, q: nat) returns (steps: seq<Step>)
    requires Labelled(nodes) && ThreeZones(nodes) && Firm(w, nodes)
    ensures TameFrom(w, nodes, steps) && Complete(Run(w, nodes, steps), nodes, q)
  {
    var clear := CycleCleared(w, nodes);
    ContinuationStaysFirm(w, nodes, clear);
    var rest := TripleBound(Run(w, nodes, clear), nodes, q);
    Joined(w, nodes, clear, rest);
    steps := clear + rest;
  }

  /** Some careful continuation completes the triple. */
  ghost predicate Completable(w: World, nodes: Nodes, q: nat) {
    exists steps :: TameFrom(w, nodes, steps) && Complete(Run(w, nodes, steps), nodes, q)
  }

  /**
   No triple is ever stuck: after every careful run there is a careful continuation that has all its three pods
   bound, in three zones, exactly if the nodes are in three zones at all.
   */
  lemma TripleNeverStuckIff(nodes: Nodes, run: seq<Step>, q: nat)
    requires Labelled(nodes) && TameRun(nodes, run)
    ensures Completable(After(nodes, run), nodes, q) <==> ThreeZones(nodes)
  {
    var w := After(nodes, run);
    RunsStayFirm(nodes, run);
    if ThreeZones(nodes) {
      var steps := Completed(w, nodes, q);
      assert Completable(w, nodes, q);
    }
    if Completable(w, nodes, q) {
      var steps :| TameFrom(w, nodes, steps) && Complete(Run(w, nodes, steps), nodes, q);
      CompleteNeedsThree(Run(w, nodes, steps), nodes, q);
    }
  }

  lemma CompleteNeedsThree(w: World, nodes: Nodes, q: nat)
    requires Complete(w, nodes, q)
    ensures ThreeZones(nodes)
  {
    var o: nat := 3 * q;
    assert SameTriple(o, o) && SameTriple(o + 1, o) && SameTriple(o + 2, o);
    var x, y, z := Label(nodes, w.pods[o].node), Label(nodes, w.pods[o + 1].node), Label(nodes, w.pods[o + 2].node);
    assert Served(nodes, x) && Served(nodes, y) && Served(nodes, z);
    assert x != y && y != z && x != z;
  }
}
