/**
 The pure part of the autoscaler: scaling policies, the limits they put on one step, and the two
 ways of bringing a proposed replica count within limits.
 */
module ScalingRules {

  const SECOND: nat := 1_000_000_000  // nanoseconds

  const MAX_INT32: int := 0x7fff_ffff
  const MIN_INT32: int := -0x8000_0000

  datatype SelectPolicy = MaxChange | MinChange | Disabled

  datatype PolicyType = Pods | Percent

  datatype Policy = Policy(kind: PolicyType, value: int, periodSeconds: nat) {
    /** The period in nanoseconds. */
    function Period(): nat { periodSeconds * SECOND }

    /** How far up the policy allows to go, given the count at the start of its period. */
    function ProposedUp(start: int): int {
      match kind
      case Pods => start + value
      case Percent => CeilDiv(start * (100 + value), 100)
    }

    /** How far down the policy allows to go, given the count at the start of its period. */
    function ProposedDown(start: int): int {
      match kind
      case Pods => start - value
      case Percent => TruncDiv(start * (100 - value), 100)
    }
  }

  datatype Rules = Rules(windowSeconds: nat, select: SelectPolicy, policies: seq<Policy>) {
    function Window(): nat { windowSeconds * SECOND }

    /** How long an event of this direction is kept. */
    function Retention(): nat { LongestPeriod(policies) * SECOND }
  }

  datatype Behavior = Behavior(up: Rules, down: Rules)

  /** Division rounding towards positive infinity. */
  function CeilDiv(a: int, b: int): (q: int)
    requires b > 0
    ensures (q - 1) * b < a <= q * b
  {
    -((-a) / b)
  }

  /** Division rounding towards zero. */
  function TruncDiv(a: int, b: int): (q: int)
    requires b > 0
    ensures a >= 0 ==> q * b <= a < (q + 1) * b
    ensures a < 0 ==> (q - 1) * b < a <= q * b
  {
    if a >= 0 then a / b else -((-a) / b)
  }

  function LongestPeriod(policies: seq<Policy>): nat {
    if policies == [] then 0
    else
      var rest := LongestPeriod(policies[..|policies| - 1]);
      var last := policies[|policies| - 1].periodSeconds;
      if last > rest then last else rest
  }

  /** Every policy's period fits in what its own direction keeps. */
  lemma {:induction false} LongestCovers(policies: seq<Policy>)
    ensures forall i :: 0 <= i < |policies| ==> policies[i].periodSeconds <= LongestPeriod(policies)
    ensures policies == [] || exists i :: 0 <= i < |policies| && policies[i].periodSeconds == LongestPeriod(policies)
  {
    if policies != [] {
      var n := |policies| - 1;
      LongestCovers(policies[..n]);
      assert policies[..n] == [] || exists i :: 0 <= i < n && policies[..n][i] == policies[i] && policies[i].periodSeconds == LongestPeriod(policies[..n]);
      assert policies[n].periodSeconds == LongestPeriod(policies) || LongestPeriod(policies[..n]) == LongestPeriod(policies);
    }
  }

  lemma PeriodCovered(policies: seq<Policy>, i: nat)
    requires i < |policies|
    ensures policies[i].Period() <= LongestPeriod(policies) * SECOND
  {
    LongestCovers(policies);
  }

  method GetLongestPolicyPeriod(policies: seq<Policy>) returns (longest: nat)
    ensures longest == LongestPeriod(policies)
  {
    longest := 0;
    for i := 0 to |policies|
      invariant longest == LongestPeriod(policies[..i])
    {
      assert policies[..i + 1][..i] == policies[..i];
      if policies[i].periodSeconds > longest {
        longest := policies[i].periodSeconds;
      }
    }
    assert policies[..|policies|] == policies;
  }

  // ------------------------------------------------------------------ limits of one step

  function Largest(xs: seq<int>, seed: int): int {
    if xs == [] then seed
    else
      var rest := Largest(xs[..|xs| - 1], seed);
      if rest >= xs[|xs| - 1] then rest else xs[|xs| - 1]
  }

  function Smallest(xs: seq<int>, seed: int): int {
    if xs == [] then seed
    else
      var rest := Smallest(xs[..|xs| - 1], seed);
      if rest <= xs[|xs| - 1] then rest else xs[|xs| - 1]
  }

  lemma {:induction false} ExtremesBound(xs: seq<int>, seed: int)
    ensures forall x :: x in xs ==> Smallest(xs, seed) <= x <= Largest(xs, seed)
    ensures Smallest(xs, seed) <= seed <= Largest(xs, seed)
    ensures Smallest(xs, seed) == seed || Smallest(xs, seed) in xs
    ensures Largest(xs, seed) == seed || Largest(xs, seed) in xs
  {
    if xs != [] {
      var n := |xs| - 1;
      ExtremesBound(xs[..n], seed);
      assert xs == xs[..n] + [xs[n]];
    }
  }

  function ProposalsUp(policies: seq<Policy>, starts: seq<int>): seq<int>
    requires |starts| == |policies|
  {
    seq(|policies|, i requires 0 <= i < |policies| => policies[i].ProposedUp(starts[i]))
  }

  function ProposalsDown(policies: seq<Policy>, starts: seq<int>): seq<int>
    requires |starts| == |policies|
  {
    seq(|policies|, i requires 0 <= i < |policies| => policies[i].ProposedDown(starts[i]))
  }

  /** The limit on a rise, from the count that each policy's period started with. */
  function UpLimit(rules: Rules, starts: seq<int>, current: int): int
    requires |starts| == |rules.policies|
  {
    match rules.select
    case Disabled => current
    case MinChange => Smallest(ProposalsUp(rules.policies, starts), MAX_INT32)
    case MaxChange => Largest(ProposalsUp(rules.policies, starts), MIN_INT32)
  }

  /** The limit on a drop, from the count that each policy's period started with. */
  function DownLimit(rules: Rules, starts: seq<int>, current: int): int
    requires |starts| == |rules.policies|
  {
    match rules.select
    case Disabled => current
    case MinChange => Largest(ProposalsDown(rules.policies, starts), MIN_INT32)
    case MaxChange => Smallest(ProposalsDown(rules.policies, starts), MAX_INT32)
  }

  lemma StrictestUpLimit(rules: Rules, starts: seq<int>, current: int, i: nat)
    requires |starts| == |rules.policies| && i < |starts| && rules.select == MinChange
    ensures UpLimit(rules, starts, current) <= rules.policies[i].ProposedUp(starts[i])
  {
    var limits := ProposalsUp(rules.policies, starts);
    ExtremesBound(limits, MAX_INT32);
    assert limits[i] in limits;
  }

  lemma LaxestUpLimit(rules: Rules, starts: seq<int>, current: int) returns (i: nat)
    requires |starts| == |rules.policies| && rules.select == MaxChange
    requires UpLimit(rules, starts, current) > MIN_INT32
    ensures i < |starts| && UpLimit(rules, starts, current) == rules.policies[i].ProposedUp(starts[i])
  {
    var limits := ProposalsUp(rules.policies, starts);
    ExtremesBound(limits, MIN_INT32);
    i :| 0 <= i < |limits| && limits[i] == Largest(limits, MIN_INT32);
  }

  lemma StrictestDownLimit(rules: Rules, starts: seq<int>, current: int, i: nat)
    requires |starts| == |rules.policies| && i < |starts| && rules.select == MinChange
    ensures rules.policies[i].ProposedDown(starts[i]) <= DownLimit(rules, starts, current)
  {
    var limits := ProposalsDown(rules.policies, starts);
    ExtremesBound(limits, MIN_INT32);
    assert limits[i] in limits;
  }

  lemma LaxestDownLimit(rules: Rules, starts: seq<int>, current: int) returns (i: nat)
    requires |starts| == |rules.policies| && rules.select == MaxChange
    requires DownLimit(rules, starts, current) < MAX_INT32
    ensures i < |starts| && DownLimit(rules, starts, current) == rules.policies[i].ProposedDown(starts[i])
  {
    var limits := ProposalsDown(rules.policies, starts);
    ExtremesBound(limits, MAX_INT32);
    i :| 0 <= i < |limits| && limits[i] == Smallest(limits, MAX_INT32);
  }

  // ------------------------------------------------------------------ limits grow with the starts

  /** No percentage turns the sign of the count round: none takes away more than all of it. */
  predicate KeepsSign(policies: seq<Policy>) {
    forall i :: 0 <= i < |policies| && policies[i].kind == Percent ==> policies[i].value >= -100
  }

  lemma ProductAtMost(a: int, b: int, c: nat)
    requires a <= b
    ensures a * c <= b * c
  {
  }

  lemma CeilMonotone(a: int, b: int)
    requires a <= b
    ensures CeilDiv(a, 100) <= CeilDiv(b, 100)
  {
  }

  lemma TruncMonotone(a: int, b: int)
    requires a <= b
    ensures TruncDiv(a, 100) <= TruncDiv(b, 100)
  {
  }

  lemma ProposedUpMonotone(p: Policy, start: int, later: int)
    requires start <= later && (p.kind == Percent ==> p.value >= -100)
    ensures p.ProposedUp(start) <= p.ProposedUp(later)
  {
    if p.kind == Percent {
      ProductAtMost(start, later, 100 + p.value);
      CeilMonotone(start * (100 + p.value), later * (100 + p.value));
    }
  }

  lemma NotPositive(a: nat, b: int)
    requires b <= 0
    ensures a * b <= 0
  {
  }

  /** As far as the drop stays at or above zero, it ends the higher the higher it starts. */
  lemma ProposedDownMonotone(p: Policy, start: nat, later: int)
    requires start <= later
    ensures Max(0, p.ProposedDown(start)) <= Max(0, p.ProposedDown(later))
  {
    if p.kind == Percent {
      if p.value <= 100 {
        ProductAtMost(start, later, 100 - p.value);
        TruncMonotone(start * (100 - p.value), later * (100 - p.value));
      } else {
        NotPositive(start, 100 - p.value);
        TruncMonotone(start * (100 - p.value), 0);
      }
    }
  }

  ghost predicate AtMost(xs: seq<int>, ys: seq<int>) {
    |xs| == |ys| && forall i :: 0 <= i < |xs| ==> xs[i] <= ys[i]
  }

  ghost predicate AtMostFromZero(xs: seq<int>, ys: seq<int>) {
    |xs| == |ys| && forall i :: 0 <= i < |xs| ==> Max(0, xs[i]) <= Max(0, ys[i])
  }

  lemma {:induction false} ExtremesMonotone(xs: seq<int>, ys: seq<int>, seed: int)
    requires AtMost(xs, ys)
    ensures Largest(xs, seed) <= Largest(ys, seed) && Smallest(xs, seed) <= Smallest(ys, seed)
  {
    if xs != [] {
      var n := |xs| - 1;
      ExtremesMonotone(xs[..n], ys[..n], seed);
      assert xs[n] <= ys[n];
    }
  }

  lemma {:induction false} ExtremesMonotoneFromZero(xs: seq<int>, ys: seq<int>, seed: int)
    requires AtMostFromZero(xs, ys)
    ensures Max(0, Largest(xs, seed)) <= Max(0, Largest(ys, seed))
    ensures Max(0, Smallest(xs, seed)) <= Max(0, Smallest(ys, seed))
  {
    if xs != [] {
      var n := |xs| - 1;
      ExtremesMonotoneFromZero(xs[..n], ys[..n], seed);
      assert Max(0, xs[n]) <= Max(0, ys[n]);
    }
  }

  /** Lower starts give a stricter limit on rises. */
  lemma UpLimitMonotone(rules: Rules, starts: seq<int>, later: seq<int>, current: int)
    requires |starts| == |later| == |rules.policies| && AtMost(starts, later) && KeepsSign(rules.policies)
    ensures UpLimit(rules, starts, current) <= UpLimit(rules, later, current)
  {
    var xs, ys := ProposalsUp(rules.policies, starts), ProposalsUp(rules.policies, later);
    forall i | 0 <= i < |xs| ensures xs[i] <= ys[i] {
      ProposedUpMonotone(rules.policies[i], starts[i], later[i]);
    }
    ExtremesMonotone(xs, ys, MAX_INT32);
    ExtremesMonotone(xs, ys, MIN_INT32);
  }

  /** Higher starts give a stricter limit on drops. */
  lemma DownLimitMonotone(rules: Rules, starts: seq<int>, later: seq<int>, current: int)
    requires |starts| == |later| == |rules.policies| && AtMost(starts, later)
    requires forall i :: 0 <= i < |starts| ==> starts[i] >= 0
    ensures Max(0, DownLimit(rules, starts, current)) <= Max(0, DownLimit(rules, later, current))
  {
    var xs, ys := ProposalsDown(rules.policies, starts), ProposalsDown(rules.policies, later);
    forall i | 0 <= i < |xs| ensures Max(0, xs[i]) <= Max(0, ys[i]) {
      ProposedDownMonotone(rules.policies[i], starts[i], later[i]);
    }
    ExtremesMonotoneFromZero(xs, ys, MAX_INT32);
    ExtremesMonotoneFromZero(xs, ys, MIN_INT32);
  }

  // ------------------------------------------------------------------ normalisation

  function Max(a: int, b: int): int { if a >= b then a else b }

  function Min(a: int, b: int): int { if a <= b then a else b }

  function WithBehaviorRate(behavior: Behavior, current: int, desired: int, minReplicas: int, maxReplicas: int,
                            upStarts: seq<int>, downStarts: seq<int>): int
    requires |upStarts| == |behavior.up.policies|
    requires |downStarts| == |behavior.down.policies|
  {
    if desired > current then
      Min(desired, Min(maxReplicas, Max(UpLimit(behavior.up, upStarts, current), current)))
    else if desired < current then
      Max(desired, Max(minReplicas, Min(DownLimit(behavior.down, downStarts, current), current)))
    else
      desired
  }

  /** The step limit when no behavior is configured: at most double, but four are always allowed. */
  function PlainUpLimit(current: int): int {
    Max(2 * current, 4)
  }

  function WithRules(current: int, desired: int, minReplicas: int, maxReplicas: int): int {
    var maximumAllowed := Min(maxReplicas, PlainUpLimit(current));
    if desired < minReplicas then minReplicas
    else if desired > maximumAllowed then maximumAllowed
    else desired
  }

  /** A behavior step stays between the current count and the desired one, within the range. */
  lemma BehaviorRateBetween(behavior: Behavior, current: int, desired: int, minReplicas: int, maxReplicas: int,
                            upStarts: seq<int>, downStarts: seq<int>)
    requires |upStarts| == |behavior.up.policies| && |downStarts| == |behavior.down.policies|
    requires minReplicas <= current <= maxReplicas
    ensures
      var r := WithBehaviorRate(behavior, current, desired, minReplicas, maxReplicas, upStarts, downStarts);
      && minReplicas <= r <= maxReplicas
      && (desired >= current ==> current <= r <= desired)
      && (desired <= current ==> desired <= r <= current)
  {}

  lemma WithRulesInRange(current: int, desired: int, minReplicas: int, maxReplicas: int)
    requires 0 <= minReplicas <= current <= maxReplicas
    ensures minReplicas <= WithRules(current, desired, minReplicas, maxReplicas) <= maxReplicas
    ensures WithRules(current, desired, minReplicas, maxReplicas) <= PlainUpLimit(current)
  {}
}
