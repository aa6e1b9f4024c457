/**
 The autoscaler controller: its per-key buffers, and one reconcile of one NebulaAutoscaler.

 `Decide` is the decision as a function of a recommendation history and of the counts at the start
 of each policy period; `Reconcile` evaluates it on the controller's buffers. The class below is the
 controller itself, each method proved to compute these functions.
 */
module Autoscaler {
  import opened ScaleEvents
  import opened ScalingRules
  import opened SlotBuffers

  datatype Option<+T> = None | Some(value: T)

  datatype Spec = Spec(minReplicas: int, maxReplicas: int, behavior: Option<Behavior>) {
    function UpPolicies(): seq<Policy> {
      if behavior.Some? then behavior.value.up.policies else []
    }

    function DownPolicies(): seq<Policy> {
      if behavior.Some? then behavior.value.down.policies else []
    }

    /** How long recommendations are kept; `window` is the controller-wide downscale window. */
    function Memory(window: nat): nat {
      match behavior
      case None => window
      case Some(b) => Max(b.up.Window(), b.down.Window())
    }

    function UpRetention(): nat { if behavior.Some? then behavior.value.up.Retention() else 0 }

    function DownRetention(): nat { if behavior.Some? then behavior.value.down.Retention() else 0 }

    /** Autoscaling is switched off by a zero count. */
    predicate Disables(current: int) { current == 0 && minReplicas != 0 }

    /** The metrics decide: the count is neither zero nor out of range. */
    predicate MetricsDecide(current: int) {
      !Disables(current) && minReplicas <= current <= maxReplicas
    }
  }

  /** What the controller remembers of one key. */
  datatype Buffers = Buffers(recommendations: seq<Stamped<int>>, ups: seq<ScaleEvent>, downs: seq<ScaleEvent>)

  // ------------------------------------------------------------------ stabilisation

  function Clamp(current: int, low: int, high: int): int {
    var r := if current < low then low else current;
    if r > high then high else r
  }

  function StabilizedPlain(recommendations: seq<Stamped<int>>, window: nat, proposal: int, now: int): int {
    MaxFrom(recommendations, now - window, proposal)
  }

  function StabilizedWithBehaviors(recommendations: seq<Stamped<int>>, behavior: Behavior, current: int,
                                   proposal: int, now: int): int {
    Clamp(current,
          MinFrom(recommendations, now - behavior.up.Window() + 1, proposal),
          MaxFrom(recommendations, now - behavior.down.Window() + 1, proposal))
  }

  // ------------------------------------------------------------------ one decision

  /** The count that a policy period started with, from the events inside the period. */
  function PeriodStart(ups: seq<Stamped<int>>, downs: seq<Stamped<int>>, current: int, period: nat, now: int): int {
    current - SumFrom(ups, now - period + 1) + SumFrom(downs, now - period + 1)
  }

  function PeriodStarts(policies: seq<Policy>, ups: seq<Stamped<int>>, downs: seq<Stamped<int>>,
                        current: int, now: int): (starts: seq<int>)
    ensures |starts| == |policies|
  {
    seq(|policies|, i requires 0 <= i < |policies| => PeriodStart(ups, downs, current, policies[i].Period(), now))
  }

  function Normalized(spec: Spec, window: nat, recommendations: seq<Stamped<int>>, upStarts: seq<int>,
                      downStarts: seq<int>, current: int, proposal: int, now: int): int
    requires |upStarts| == |spec.UpPolicies()| && |downStarts| == |spec.DownPolicies()|
  {
    match spec.behavior
    case None =>
      WithRules(current, StabilizedPlain(recommendations, window, proposal, now), spec.minReplicas, spec.maxReplicas)
    case Some(b) =>
      WithBehaviorRate(b, current, StabilizedWithBehaviors(recommendations, b, current, proposal, now),
                       spec.minReplicas, spec.maxReplicas, upStarts, downStarts)
  }

  /** The count a reconcile asks for, or None when no metric gave a proposal. */
  function Decide(spec: Spec, window: nat, recommendations: seq<Stamped<int>>, upStarts: seq<int>,
                  downStarts: seq<int>, current: int, proposal: Option<int>, now: int): Option<int>
    requires |upStarts| == |spec.UpPolicies()| && |downStarts| == |spec.DownPolicies()|
  {
    if spec.Disables(current) then Some(0)
    else if current > spec.maxReplicas then Some(spec.maxReplicas)
    else if current < spec.minReplicas then Some(spec.minReplicas)
    else
      match proposal
      case None => None
      case Some(p) => Some(Normalized(spec, window, recommendations, upStarts, downStarts, current, Max(p, 0), now))
  }

  // ------------------------------------------------------------------ one reconcile

  function Seeded(recommendations: seq<Stamped<int>>, current: int, now: int): seq<Stamped<int>> {
    if recommendations == [] then [Stamped(current, now)] else recommendations
  }

  /** The recommendations after the reconcile: a proposal is recorded when the metrics decide. */
  function Remembered(spec: Spec, window: nat, seeded: seq<Stamped<int>>, current: int,
                      proposal: Option<int>, now: int): seq<Stamped<int>> {
    if spec.MetricsDecide(current) && proposal.Some? then
      Recorded(seeded, now - spec.Memory(window), Stamped(Max(proposal.value, 0), now))
    else seeded
  }

  /** The event buffers after the count went from `before` to `after`. */
  function Noted(spec: Spec, b: Buffers, before: int, after: int, now: int): Buffers {
    match spec.behavior
    case None => b
    case Some(behavior) =>
      if after > before then b.(ups := Stored(b.ups, now - behavior.up.Retention(), after - before, now))
      else b.(downs := Stored(b.downs, now - behavior.down.Retention(), before - after, now))
  }

  function BufferDecision(spec: Spec, window: nat, b: Buffers, current: int, proposal: Option<int>, now: int): Option<int> {
    Decide(spec, window, Seeded(b.recommendations, current, now),
           PeriodStarts(spec.UpPolicies(), Strip(b.ups), Strip(b.downs), current, now),
           PeriodStarts(spec.DownPolicies(), Strip(b.ups), Strip(b.downs), current, now),
           current, proposal, now)
  }

  /** The buffers once the recommendations have been updated. */
  function WithProposal(spec: Spec, window: nat, b: Buffers, current: int, proposal: Option<int>, now: int): Buffers {
    b.(recommendations := Remembered(spec, window, Seeded(b.recommendations, current, now), current, proposal, now))
  }

  /** Buffers and replica count after one reconcile; `updated` says whether the new count could be written. */
  function Reconcile(spec: Spec, window: nat, b: Buffers, current: int, proposal: Option<int>,
                     updated: bool, now: int): (Buffers, int) {
    var decision := BufferDecision(spec, window, b, current, proposal, now);
    var b' := WithProposal(spec, window, b, current, proposal, now);
    if decision.None? || decision.value == current || !updated then (b', current)
    else (Noted(spec, b', current, decision.value, now), decision.value)
  }

  // ------------------------------------------------------------------ the controller

  function Lookup<T>(m: map<string, seq<T>>, key: string): seq<T> {
    if key in m then m[key] else []
  }

  class HorizontalController {
    const downscaleStabilisationWindow: nat
    var recommendations: map<string, seq<Stamped<int>>>
    var scaleUpEvents: map<string, seq<ScaleEvent>>
    var scaleDownEvents: map<string, seq<ScaleEvent>>

    constructor (window: nat)
      ensures downscaleStabilisationWindow == window
      ensures forall key :: View(key) == Buffers([], [], [])
    {
      downscaleStabilisationWindow := window;
      recommendations, scaleUpEvents, scaleDownEvents := map[], map[], map[];
    }

    /** What is remembered of one key. */
    ghost function View(key: string): Buffers
      reads this
    {
      Buffers(Lookup(recommendations, key), Lookup(scaleUpEvents, key), Lookup(scaleDownEvents, key))
    }

    /** Only `key` was touched. */
    twostate predicate OthersKept(key: string)
      reads this
    {
      forall k :: k != key ==> View(k) == old(View(k))
    }

    /** The autoscaler object is gone: forget its key. */
    method Forget(key: string)
      modifies this
      ensures View(key) == Buffers([], [], []) && OthersKept(key)
    {
      recommendations, scaleUpEvents, scaleDownEvents :=
        recommendations - {key}, scaleUpEvents - {key}, scaleDownEvents - {key};
    }

    method RecordInitialRecommendation(current: int, key: string, now: int)
      modifies this`recommendations
      ensures View(key) == old(View(key)).(recommendations := Seeded(old(View(key)).recommendations, current, now))
      ensures View(key).recommendations != [] && key in recommendations && OthersKept(key)
    {
      if key !in recommendations || recommendations[key] == [] {
        recommendations := recommendations[key := [Stamped(current, now)]];
      }
    }

    /** The greatest recommendation inside the downscale window; records the proposal. */
    method StabilizeRecommendation(key: string, proposal: int, now: int) returns (r: int)
      requires key in recommendations
      modifies this`recommendations
      ensures r == StabilizedPlain(old(View(key)).recommendations, downscaleStabilisationWindow, proposal, now)
      ensures View(key).recommendations
           == Recorded(old(View(key)).recommendations, now - downscaleStabilisationWindow, Stamped(proposal, now))
      ensures OthersKept(key)
    {
      r := proposal;
      var oldSample := -1;
      var cutoff := now - downscaleStabilisationWindow;
      var recs := recommendations[key];
      for i := 0 to |recs|
        invariant r == MaxFrom(recs[..i], cutoff, proposal)
        invariant oldSample == LastOlder(recs[..i], cutoff)
      {
        assert recs[..i + 1][..i] == recs[..i];
        if recs[i].timestamp < cutoff {
          oldSample := i;
        } else if recs[i].value > r {
          r := recs[i].value;
        }
      }
      assert recs[..|recs|] == recs;
      var entry := Stamped(proposal, now);
      recommendations := recommendations[key := if oldSample >= 0 then recs[oldSample := entry] else recs + [entry]];
    }

    /** The current count brought within the recent recommendations; records the proposal. */
    method StabilizeRecommendationWithBehaviors(key: string, behavior: Behavior, current: int, proposal: int, now: int)
      returns (r: int)
      requires key in recommendations
      modifies this`recommendations
      ensures r == StabilizedWithBehaviors(old(View(key)).recommendations, behavior, current, proposal, now)
      ensures View(key).recommendations
           == Recorded(old(View(key)).recommendations, now - Max(behavior.up.Window(), behavior.down.Window()),
                       Stamped(proposal, now))
      ensures OthersKept(key)
    {
      var oldSample := -1;
      var upRecommendation, downRecommendation := proposal, proposal;
      var upCutoff, downCutoff := now - behavior.up.Window(), now - behavior.down.Window();
      var recs := recommendations[key];
      for i := 0 to |recs|
        invariant upRecommendation == MinFrom(recs[..i], upCutoff + 1, proposal)
        invariant downRecommendation == MaxFrom(recs[..i], downCutoff + 1, proposal)
        invariant oldSample == LastOlder(recs[..i], now - Max(behavior.up.Window(), behavior.down.Window()))
      {
        assert recs[..i + 1][..i] == recs[..i];
        if recs[i].timestamp > upCutoff {
          upRecommendation := Min(recs[i].value, upRecommendation);
        }
        if recs[i].timestamp > downCutoff {
          downRecommendation := Max(recs[i].value, downRecommendation);
        }
        if recs[i].timestamp < upCutoff && recs[i].timestamp < downCutoff {
          oldSample := i;
        }
      }
      assert recs[..|recs|] == recs;
      r := current;
      if r < upRecommendation {
        r := upRecommendation;
      }
      if r > downRecommendation {
        r := downRecommendation;
      }
      var entry := Stamped(proposal, now);
      recommendations := recommendations[key := if oldSample >= 0 then recs[oldSample := entry] else recs + [entry]];
    }

    method MarkScaleEventsOutdated(events: seq<ScaleEvent>, longestPolicyPeriod: nat, now: int) returns (marked: seq<ScaleEvent>)
      ensures marked == Marked(events, now - longestPolicyPeriod * SECOND)
    {
      var cutoff := now - longestPolicyPeriod * SECOND;
      marked := events;
      for i := 0 to |events|
        invariant |marked| == |events|
        invariant forall j :: 0 <= j < i ==> marked[j] == Marked(events, cutoff)[j]
        invariant forall j :: i <= j < |events| ==> marked[j] == events[j]
      {
        if events[i].timestamp < cutoff {
          marked := marked[i := marked[i].(outdated := true)];
        }
      }
    }

    method StoreInto(events: seq<ScaleEvent>, longestPolicyPeriod: nat, change: int, now: int) returns (stored: seq<ScaleEvent>)
      ensures stored == Stored(events, now - longestPolicyPeriod * SECOND, change, now)
    {
      var marked := MarkScaleEventsOutdated(events, longestPolicyPeriod, now);
      var oldSample := -1;
      for i := 0 to |marked|
        invariant oldSample == LastOutdated(marked[..i])
      {
        assert marked[..i + 1][..i] == marked[..i];
        if marked[i].outdated {
          oldSample := i;
        }
      }
      assert marked[..|marked|] == marked;
      var event := ScaleEvent(change, now, false);
      stored := if oldSample >= 0 then marked[oldSample := event] else marked + [event];
    }

    method StoreScaleUpEvent(rules: Rules, key: string, change: int, now: int)
      modifies this`scaleUpEvents
      ensures View(key) == old(View(key)).(ups := Stored(old(View(key)).ups, now - rules.Retention(), change, now))
      ensures OthersKept(key)
    {
      var longest := GetLongestPolicyPeriod(rules.policies);
      var stored := StoreInto(Lookup(scaleUpEvents, key), longest, change, now);
      scaleUpEvents := scaleUpEvents[key := stored];
    }

    method StoreScaleDownEvent(rules: Rules, key: string, change: int, now: int)
      modifies this`scaleDownEvents
      ensures View(key) == old(View(key)).(downs := Stored(old(View(key)).downs, now - rules.Retention(), change, now))
      ensures OthersKept(key)
    {
      var longest := GetLongestPolicyPeriod(rules.policies);
      var stored := StoreInto(Lookup(scaleDownEvents, key), longest, change, now);
      scaleDownEvents := scaleDownEvents[key := stored];
    }

    method StoreScaleEvent(spec: Spec, key: string, previous: int, replicas: int, now: int)
      modifies this`scaleUpEvents, this`scaleDownEvents
      ensures View(key) == Noted(spec, old(View(key)), previous, replicas, now)
      ensures OthersKept(key)
    {
      if spec.behavior.None? {
        return;
      }
      ghost var before := View(key);
      var behavior := spec.behavior.value;
      if replicas > previous {
        StoreScaleUpEvent(behavior.up, key, replicas - previous, now);
        assert View(key) == before.(ups := Stored(before.ups, now - behavior.up.Retention(), replicas - previous, now));
      } else {
        StoreScaleDownEvent(behavior.down, key, previous - replicas, now);
        assert View(key) == before.(downs := Stored(before.downs, now - behavior.down.Retention(), previous - replicas, now));
      }
    }

    static method GetReplicasChangePerPeriod(periodSeconds: nat, events: seq<ScaleEvent>, now: int) returns (replicas: int)
      ensures replicas == SumFrom(Strip(events), now - periodSeconds * SECOND + 1)
    {
      var cutoff := now - periodSeconds * SECOND;
      replicas := 0;
      for i := 0 to |events|
        invariant replicas == SumFrom(Strip(events)[..i], cutoff + 1)
      {
        assert Strip(events)[..i + 1][..i] == Strip(events)[..i];
        if events[i].timestamp > cutoff {
          replicas := replicas + events[i].replicaChange;
        }
      }
      assert Strip(events)[..|events|] == Strip(events);
    }

    static method CalculateScaleUpLimitWithScalingRules(current: int, ups: seq<ScaleEvent>, downs: seq<ScaleEvent>,
                                                        rules: Rules, now: int) returns (limit: int)
      ensures limit == UpLimit(rules, PeriodStarts(rules.policies, Strip(ups), Strip(downs), current, now), current)
    {
      if rules.select == Disabled {
        return current;
      }
      ghost var proposals := ProposalsUp(rules.policies, PeriodStarts(rules.policies, Strip(ups), Strip(downs), current, now));
      limit := if rules.select == MinChange then MAX_INT32 else MIN_INT32;
      for i := 0 to |rules.policies|
        invariant limit == if rules.select == MinChange then Smallest(proposals[..i], MAX_INT32)
                                                        else Largest(proposals[..i], MIN_INT32)
      {
        assert proposals[..i + 1][..i] == proposals[..i];
        var policy := rules.policies[i];
        var added := GetReplicasChangePerPeriod(policy.periodSeconds, ups, now);
        var deleted := GetReplicasChangePerPeriod(policy.periodSeconds, downs, now);
        var proposed := policy.ProposedUp(current - added + deleted);
        limit := if rules.select == MinChange then Min(limit, proposed) else Max(limit, proposed);
      }
      assert proposals[..|rules.policies|] == proposals;
    }

    static method CalculateScaleDownLimitWithBehaviors(current: int, ups: seq<ScaleEvent>, downs: seq<ScaleEvent>,
                                                       rules: Rules, now: int) returns (limit: int)
      ensures limit == DownLimit(rules, PeriodStarts(rules.policies, Strip(ups), Strip(downs), current, now), current)
    {
      if rules.select == Disabled {
        return current;
      }
      ghost var proposals := ProposalsDown(rules.policies, PeriodStarts(rules.policies, Strip(ups), Strip(downs), current, now));
      limit := if rules.select == MinChange then MIN_INT32 else MAX_INT32;
      for i := 0 to |rules.policies|
        invariant limit == if rules.select == MinChange then Largest(proposals[..i], MIN_INT32)
                                                        else Smallest(proposals[..i], MAX_INT32)
      {
        assert proposals[..i + 1][..i] == proposals[..i];
        var policy := rules.policies[i];
        var added := GetReplicasChangePerPeriod(policy.periodSeconds, ups, now);
        var deleted := GetReplicasChangePerPeriod(policy.periodSeconds, downs, now);
        var proposed := policy.ProposedDown(current - added + deleted);
        limit := if rules.select == MinChange then Max(limit, proposed) else Min(limit, proposed);
      }
      assert proposals[..|rules.policies|] == proposals;
    }

    method ConvertDesiredReplicasWithBehaviorRate(spec: Spec, key: string, current: int, desired: int, now: int) returns (r: int)
      requires spec.behavior.Some?
      ensures r == WithBehaviorRate(spec.behavior.value, current, desired, spec.minReplicas, spec.maxReplicas,
                     PeriodStarts(spec.UpPolicies(), Strip(View(key).ups), Strip(View(key).downs), current, now),
                     PeriodStarts(spec.DownPolicies(), Strip(View(key).ups), Strip(View(key).downs), current, now))
    {
      var ups, downs := Lookup(scaleUpEvents, key), Lookup(scaleDownEvents, key);
      r := desired;
      if desired > current {
        var limit := CalculateScaleUpLimitWithScalingRules(current, ups, downs, spec.behavior.value.up, now);
        if limit < current {
          limit := current;
        }
        var maximumAllowed := spec.maxReplicas;
        if maximumAllowed > limit {
          maximumAllowed := limit;
        }
        if desired > maximumAllowed {
          r := maximumAllowed;
        }
      } else if desired < current {
        var limit := CalculateScaleDownLimitWithBehaviors(current, ups, downs, spec.behavior.value.down, now);
        if limit > current {
          limit := current;
        }
        var minimumAllowed := spec.minReplicas;
        if minimumAllowed < limit {
          minimumAllowed := limit;
        }
        if desired < minimumAllowed {
          r := minimumAllowed;
        }
      }
    }

    /** The proposal normalised, with or without behaviors. */
    method NormalizeDesiredReplicas(spec: Spec, key: string, current: int, proposal: int, now: int) returns (desired: int)
      requires key in recommendations
      modifies this`recommendations
      ensures
        var b := old(View(key));
        && desired == Normalized(spec, downscaleStabilisationWindow, b.recommendations,
                        PeriodStarts(spec.UpPolicies(), Strip(b.ups), Strip(b.downs), current, now),
                        PeriodStarts(spec.DownPolicies(), Strip(b.ups), Strip(b.downs), current, now),
                        current, proposal, now)
        && View(key) == b.(recommendations := Recorded(b.recommendations, now - spec.Memory(downscaleStabilisationWindow),
                                                       Stamped(proposal, now)))
      ensures OthersKept(key)
    {
      if spec.behavior.None? {
        var stabilized := StabilizeRecommendation(key, proposal, now);
        desired := WithRules(current, stabilized, spec.minReplicas, spec.maxReplicas);
      } else {
        var stabilized := StabilizeRecommendationWithBehaviors(key, spec.behavior.value, current, proposal, now);
        desired := ConvertDesiredReplicasWithBehaviorRate(spec, key, current, stabilized, now);
      }
    }

    /** The count to ask for; None when the metrics failed. */
    method ComputeDesired(spec: Spec, key: string, current: int, proposal: Option<int>, now: int)
      returns (decision: Option<int>)
      modifies this`recommendations
      ensures decision == BufferDecision(spec, downscaleStabilisationWindow, old(View(key)), current, proposal, now)
      ensures View(key) == WithProposal(spec, downscaleStabilisationWindow, old(View(key)), current, proposal, now)
      ensures OthersKept(key)
    {
      RecordInitialRecommendation(current, key, now);
      if current == 0 && spec.minReplicas != 0 {
        decision := Some(0);
      } else if current > spec.maxReplicas {
        decision := Some(spec.maxReplicas);
      } else if current < spec.minReplicas {
        decision := Some(spec.minReplicas);
      } else if proposal.None? {
        decision := None;
      } else {
        var desired := if proposal.value > 0 then proposal.value else 0;
        desired := NormalizeDesiredReplicas(spec, key, current, desired, now);
        decision := Some(desired);
      }
    }

    /** One reconcile, from the count read to the count written; `updated` is the cluster write's success. */
    method ReconcileAutoscaler(spec: Spec, key: string, current: int, proposal: Option<int>, updated: bool, now: int)
      returns (replicas: int)
      modifies this
      ensures (View(key), replicas)
           == Reconcile(spec, downscaleStabilisationWindow, old(View(key)), current, proposal, updated, now)
      ensures OthersKept(key)
    {
      var decision := ComputeDesired(spec, key, current, proposal, now);
      if decision.None? || decision.value == current || !updated {
        return current;
      }
      StoreScaleEvent(spec, key, current, decision.value, now);
      replicas := decision.value;
    }
  }
}
