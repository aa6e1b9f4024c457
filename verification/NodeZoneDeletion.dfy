/**
 Which deletions of pods outside the zone map endanger the spreading: for a pod that is placed but not in the
 map, exactly those while a later pod of its triple is placed.
 */
module NodeZoneDeletion {
  import opened NodeZone
  import opened NodeZoneSpread

  // ------------------------------------------------------------------ continuations

  ghost predicate TameFrom(w: World, nodes: Nodes, steps: seq<Step>)
    decreases |steps|
  {
    steps != [] ==> Tame(w, steps[0]) && TameFrom(Next(w, nodes, steps[0]), nodes, steps[1..])
  }

  lemma {:induction false} TameFromKeepsInvariant(w: World, nodes: Nodes, steps: seq<Step>)
    requires Labelled(nodes) && Invariant(w, nodes) && TameFrom(w, nodes, steps)
    ensures Invariant(Run(w, nodes, steps), nodes)
    decreases |steps|
  {
    if steps != [] {
      StepKeepsInvariant(w, nodes, steps[0]);
      TameFromKeepsInvariant(Next(w, nodes, steps[0]), nodes, steps[1..]);
    }
  }

  lemma {:induction false} Joined(w: World, nodes: Nodes, first: seq<Step>, second: seq<Step>)
    requires TameFrom(w, nodes, first) && TameFrom(Run(w, nodes, first), nodes, second)
    ensures TameFrom(w, nodes, first + second)
    ensures Run(w, nodes, first + second) == Run(Run(w, nodes, first), nodes, second)
    decreases |first|
  {
    if first == [] {
      assert first + second == second;
    } else {
      assert (first + second)[0] == first[0] && (first + second)[1..] == first[1..] + second;
      Joined(Next(w, nodes, first[0]), nodes, first[1..], second);
    }
  }

  lemma OneStep(w: World, nodes: Nodes, step: Step)
    ensures Run(w, nodes, [step]) == Next(w, nodes, step)
    ensures TameFrom(w, nodes, [step]) <==> Tame(w, step)
  {
    assert [step][1..] == [];
    assert Run(Next(w, nodes, step), nodes, []) == Next(w, nodes, step);
  }

  lemma {:induction false} WithoutDeletions(w: World, nodes: Nodes, steps: seq<Step>)
    requires forall i :: 0 <= i < |steps| ==> !steps[i].Delete?
    ensures TameFrom(w, nodes, steps)
    decreases |steps|
  {
    if steps != [] {
      assert !steps[0].Delete?;
      WithoutDeletions(Next(w, nodes, steps[0]), nodes, steps[1..]);
    }
  }

  // ------------------------------------------------------------------ the harmful continuation

  /** `o` is being deleted outside the map, while the later pod `b` of its triple is placed. */
  ghost predicate Exposed(w: World, nodes: Nodes, o: nat, b: nat, node: string) {
    && Before(o, b) && o !in w.zoneMap
    && PodAt(w.pods, b).Placed() && w.pods[b].node == node
    && FitsMap(w, nodes, b, w.pods[b])
    && (o % AVAILABLE_ZONES == 1 ==> AnchorElsewhere(w, nodes, o - 1, Label(nodes, node)))
  }

  /** The anchor is settled in another zone, and can be bound there. */
  ghost predicate AnchorElsewhere(w: World, nodes: Nodes, a: nat, zone: Zone) {
    && Settled(w, a) && SettledZone(w, nodes, a) != zone && SettledZone(w, nodes, a) != ""
    && (a in w.zoneMap ==> Served(nodes, w.zoneMap[a]))
    && (PodAt(w.pods, a).Placed() ==> FitsMap(w, nodes, a, w.pods[a]))
  }

  /** The cycle in progress, if any, ends with the deletion of its pod, which waits for a node. */
  lemma CycleCleared(w: World, nodes: Nodes) returns (steps: seq<Step>)
    requires w.cycle.Some? ==> PodAt(w.pods, w.cycle.value.pod).Pending?
    ensures TameFrom(w, nodes, steps)
    ensures
      var v := Run(w, nodes, steps);
      && v.cycle == None && v.zoneMap == w.zoneMap
      && forall p :: PodAt(w.pods, p).Placed() || PodAt(v.pods, p).Placed() ==> PodAt(v.pods, p) == PodAt(w.pods, p)
  {
    if w.cycle.Some? {
      steps := [Delete(w.cycle.value.pod)];
      OneStep(w, nodes, steps[0]);
    } else {
      steps := [];
    }
  }

  lemma PlacedStaysExposed(w: World, v: World, nodes: Nodes, o: nat, b: nat, node: string)
    requires Exposed(w, nodes, o, b, node) && v.zoneMap == w.zoneMap
    requires forall p :: PodAt(w.pods, p).Placed() || PodAt(v.pods, p).Placed() ==> p == o || PodAt(v.pods, p) == PodAt(w.pods, p)
    ensures Exposed(v, nodes, o, b, node)
  {
  }

  /** The pod `b` is kept out of the scheduler's sight: bound, it is put into the map and deleted. */
  lemma Hidden(w: World, nodes: Nodes, o: nat, b: nat, node: string) returns (steps: seq<Step>)
    requires Exposed(w, nodes, o, b, node) && w.cycle.None? && PodAt(w.pods, o).Absent?
    ensures TameFrom(w, nodes, steps)
    ensures
      var v := Run(w, nodes, steps);
      && Exposed(v, nodes, o, b, node) && v.cycle.None? && PodAt(v.pods, o).Absent? && !PodAt(v.pods, b).Scheduled()
  {
    if PodAt(w.pods, b).Bound? {
      steps := [MapZone(b)] + [Delete(b)];
      var mapped := Next(w, nodes, MapZone(b));
      OneStep(w, nodes, MapZone(b));
      OneStep(mapped, nodes, Delete(b));
      Joined(w, nodes, [MapZone(b)], [Delete(b)]);
    } else {
      steps := [];
    }
  }

  /** A world that differs from `w` only in the pod `o`. */
  ghost predicate OnlyDiffers(w: World, v: World, o: nat) {
    v.cycle == w.cycle && v.zoneMap == w.zoneMap && forall p: nat :: p != o ==> PodAt(v.pods, p) == PodAt(w.pods, p)
  }

  /** A pod that holds no node for good can be taken away. */
  lemma TakenAway(w: World, nodes: Nodes, o: nat) returns (steps: seq<Step>)
    requires w.cycle.None? && !PodAt(w.pods, o).Bound? && !PodAt(w.pods, o).Binding?
    ensures TameFrom(w, nodes, steps)
    ensures OnlyDiffers(w, Run(w, nodes, steps), o) && PodAt(Run(w, nodes, steps).pods, o).Absent?
  {
    var step := if PodAt(w.pods, o).Terminating? then Gone(o) else Delete(o);
    steps := [step];
    OneStep(w, nodes, step);
  }

  lemma PlacedAnew(w: World, nodes: Nodes, o: nat, node: string) returns (steps: seq<Step>)
    requires w.cycle.None? && PodAt(w.pods, o).Absent?
    requires Filter(Some(w.zoneMap), w.pods[o := Pending], nodes, o, node) == Success
    requires Permit(w.pods[o := Pending], nodes, o, node) == Success
    ensures TameFrom(w, nodes, steps) && Run(w, nodes, steps) == SetPod(w, o, Bound(node))
  {
    steps := Place(o, node);
    PlaceSucceeds(w, nodes, o, node);
    WithoutDeletions(w, nodes, steps);
  }

  /** A mapped anchor that is not bound comes back to its zone, in whatever state it is. */
  lemma AnchorBack(w: World, nodes: Nodes, a: nat, zone: Zone) returns (steps: seq<Step>)
    requires w.cycle.None? && a % AVAILABLE_ZONES == 0 && AnchorElsewhere(w, nodes, a, zone)
    ensures TameFrom(w, nodes, steps)
    ensures
      var v := Run(w, nodes, steps);
      && OnlyDiffers(w, v, a) && AnchorElsewhere(v, nodes, a, zone)
      && PodAt(v.pods, a).Bound? && Label(nodes, v.pods[a].node) != "" && Label(nodes, v.pods[a].node) != zone
  {
    if PodAt(w.pods, a).Bound? {
      steps := [];
    } else if PodAt(w.pods, a).Binding? {
      steps := [BindDone(a)];
      OneStep(w, nodes, BindDone(a));
    } else {
      steps := AnchorAnew(w, nodes, a, w.zoneMap[a]);
    }
  }

  lemma AnchorAnew(w: World, nodes: Nodes, a: nat, zone: Zone) returns (steps: seq<Step>)
    requires w.cycle.None? && a % AVAILABLE_ZONES == 0 && !PodAt(w.pods, a).Bound? && !PodAt(w.pods, a).Binding?
    requires a in w.zoneMap && w.zoneMap[a] == zone && Served(nodes, zone)
    ensures TameFrom(w, nodes, steps)
    ensures
      var v := Run(w, nodes, steps);
      OnlyDiffers(w, v, a) && PodAt(v.pods, a).Bound? && Label(nodes, v.pods[a].node) == zone
  {
    var node :| node in nodes && Label(nodes, node) == zone;
    var away := TakenAway(w, nodes, a);
    var v := Run(w, nodes, away);
    var back := PlacedAnew(v, nodes, a, node);
    Joined(w, nodes, away, back);
    steps := away + back;
  }

  /** Both nodes' zones are the same, and nobody the scheduler looks at is in it. */
  lemma SecondSlipsIn(w: World, nodes: Nodes, o: nat, node: string)
    requires o % AVAILABLE_ZONES == 1 && o !in w.zoneMap && Label(nodes, node) != ""
    requires PodAt(w.pods, o - 1).Bound? && !PodAt(w.pods, o + 1).Scheduled()
    requires Label(nodes, w.pods[o - 1].node) != "" && Label(nodes, w.pods[o - 1].node) != Label(nodes, node)
    ensures Filter(Some(w.zoneMap), w.pods[o := Pending], nodes, o, node) == Success
    ensures Permit(w.pods[o := Pending], nodes, o, node) == Success
  {
    var pods := w.pods[o := Pending];
    assert PodAt(pods, o - 1) == PodAt(w.pods, o - 1) && PodAt(pods, o + 1) == PodAt(w.pods, o + 1);
    assert Anchor(o) == o - 1;
  }

  lemma AnchorSlipsIn(w: World, nodes: Nodes, o: nat, node: string)
    requires o % AVAILABLE_ZONES == 0 && o !in w.zoneMap && Label(nodes, node) != ""
    ensures Filter(Some(w.zoneMap), w.pods[o := Pending], nodes, o, node) == Success
    ensures Permit(w.pods[o := Pending], nodes, o, node) == Success
  {
  }

  lemma BackIntoTheZone(w: World, nodes: Nodes, o: nat, b: nat, node: string) returns (steps: seq<Step>)
    requires Exposed(w, nodes, o, b, node) && w.cycle.None? && PodAt(w.pods, o).Absent?
    ensures TameFrom(w, nodes, steps) && Collides(Run(w, nodes, steps), nodes, o)
  {
    if o % AVAILABLE_ZONES == 0 {
      AnchorSlipsIn(w, nodes, o, node);
      steps := PlacedAnew(w, nodes, o, node);
      CollidesNow(SetPod(w, o, Bound(node)), nodes, o, b);
    } else {
      var hidden := Hidden(w, nodes, o, b, node);
      var v := Run(w, nodes, hidden);
      var back := AnchorBack(v, nodes, o - 1, Label(nodes, node));
      var u := Run(v, nodes, back);
      Joined(w, nodes, hidden, back);
      SecondSlipsIn(u, nodes, o, node);
      var place := PlacedAnew(u, nodes, o, node);
      Joined(w, nodes, hidden + back, place);
      steps := hidden + back + place;
      CollidesNow(SetPod(u, o, Bound(node)), nodes, o, b);
    }
  }

  lemma CollidesNow(w: World, nodes: Nodes, o: nat, b: nat)
    requires o != b && SameTriple(o, b) && PodAt(w.pods, o).Placed() && PodAt(w.pods, b).Placed()
    requires Label(nodes, w.pods[o].node) == Label(nodes, w.pods[b].node)
    ensures Collides(w, nodes, o)
  {
    assert SameTriple(b, o);
  }

  // ------------------------------------------------------------------ the exact condition

  lemma DeletionExposes(w: World, nodes: Nodes, o: nat, b: nat) returns (steps: seq<Step>, node: string)
    requires Invariant(w, nodes) && PodAt(w.pods, o).Placed() && o !in w.zoneMap
    requires Before(o, b) && PodAt(w.pods, b).Placed()
    ensures
      var w' := Next(w, nodes, Delete(o));
      var v := Run(w', nodes, steps);
      TameFrom(w', nodes, steps) && v.cycle.None? && PodAt(v.pods, o).Absent? && Exposed(v, nodes, o, b, node)
  {
    assert PodInvariant(w, nodes, o) && PodInvariant(w, nodes, b);
    assert o % AVAILABLE_ZONES == 1 ==> PodInvariant(w, nodes, o - 1) && Before(o - 1, b);
    node := w.pods[b].node;
    var w' := Next(w, nodes, Delete(o));
    assert Exposed(w', nodes, o, b, node);
    var clear := CycleCleared(w', nodes);
    var v := Run(w', nodes, clear);
    PlacedStaysExposed(w', v, nodes, o, b, node);
    var away := TakenAway(v, nodes, o);
    PlacedStaysExposed(v, Run(v, nodes, away), nodes, o, b, node);
    Joined(w', nodes, clear, away);
    steps := clear + away;
  }

  /**
   The deletion of a pod that is placed but not in the zone map can lead, with no further deletion of that kind,
   to two placed pods of its triple in one zone exactly if a later pod of its triple is placed.
   */
  lemma DeletionHarmsIff(nodes: Nodes, run: seq<Step>, o: nat)
    requires Labelled(nodes) && TameRun(nodes, run)
    requires var w := After(nodes, run); PodAt(w.pods, o).Placed() && o !in w.zoneMap
    ensures
      var w := After(nodes, run);
      var w' := Next(w, nodes, Delete(o));
      (exists steps :: TameFrom(w', nodes, steps) && Collides(Run(w', nodes, steps), nodes, o)) <==> !LastPlaced(w, o)
  {
    RunsKeepInvariant(nodes, run);
    var w := After(nodes, run);
    if LastPlaced(w, o) {
      LastIsHarmless(w, nodes, o);
    } else {
      var b :| Before(o, b) && PodAt(w.pods, b).Placed();
      EarlierIsHarmful(w, nodes, o, b);
    }
  }

  lemma LastIsHarmless(w: World, nodes: Nodes, o: nat)
    requires Labelled(nodes) && Invariant(w, nodes) && LastPlaced(w, o)
    ensures forall steps :: TameFrom(Next(w, nodes, Delete(o)), nodes, steps)
              ==> !Collides(Run(Next(w, nodes, Delete(o)), nodes, steps), nodes, o)
  {
    var w' := Next(w, nodes, Delete(o));
    DeleteKeepsInvariant(w, nodes, o);
    forall steps | TameFrom(w', nodes, steps) ensures !Collides(Run(w', nodes, steps), nodes, o) {
      TameFromKeepsInvariant(w', nodes, steps);
      InvariantIsSpread(Run(w', nodes, steps), nodes, o);
    }
  }

  lemma EarlierIsHarmful(w: World, nodes: Nodes, o: nat, b: nat)
    requires Invariant(w, nodes) && PodAt(w.pods, o).Placed() && o !in w.zoneMap
    requires Before(o, b) && PodAt(w.pods, b).Placed()
    ensures exists steps :: TameFrom(Next(w, nodes, Delete(o)), nodes, steps) && Collides(Run(Next(w, nodes, Delete(o)), nodes, steps), nodes, o)
  {
    var w' := Next(w, nodes, Delete(o));
    var expose, node := DeletionExposes(w, nodes, o, b);
    var back := BackIntoTheZone(Run(w', nodes, expose), nodes, o, b, node);
    Joined(w', nodes, expose, back);
  }
}
