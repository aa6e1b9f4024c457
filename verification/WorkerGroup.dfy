/**
 A group of workers with bounded concurrency: one goroutine hands out tokens and starts the workers, each
 worker sends one answer, and Wait collects the answers and takes the tokens back.
 */
module WorkerGroup {

  datatype Option<+T> = None | Some(value: T)

  /** What a worker sends: nothing wrong, one error, or a list of errors. */
  datatype Answer = Fine | Failed(error: string) | FailedMany(errors: seq<string>)

  function ErrorsOf(a: Answer): seq<string> {
    match a
    case Fine => []
    case Failed(e) => [e]
    case FailedMany(es) => es
  }

  /** The errors in the answers of `workers`, in that order. */
  function Errors(workers: seq<nat>, answers: map<nat, Answer>): seq<string>
    requires forall i :: i in workers ==> i in answers
  {
    if workers == [] then []
    else Errors(workers[..|workers| - 1], answers) + ErrorsOf(answers[workers[|workers| - 1]])
  }

  /** `sent` lists the workers in the order in which their answers entered the channel; `result` is what Wait returned. */
  datatype Group = Group(tokens: nat, started: nat, running: set<nat>, sent: seq<nat>, answers: map<nat, Answer>,
                         received: nat, drained: nat, errors: seq<string>, result: Option<seq<string>>)

  datatype Config = Config(workers: nat, concurrency: nat)

  datatype Step = Token | Start | Finish(worker: nat, answer: Answer) | Receive | Drain

  function Begin(c: Config): Group {
    Group(0, 0, {}, [], map[], 0, 0, [], if c.workers == 0 then Some([]) else None)
  }

  predicate Enabled(c: Config, g: Group, s: Step) {
    match s
    case Token => g.started == g.tokens < c.workers && g.tokens < g.drained + c.concurrency
    case Start => g.started < g.tokens
    case Finish(i, _) => i in g.running
    case Receive => g.result.None? && g.received == g.drained && g.received < |g.sent| && g.sent[g.received] in g.answers
    case Drain => g.result.None? && g.drained < g.received && g.drained < g.tokens
  }

  function Next(c: Config, g: Group, s: Step): Group
    requires Enabled(c, g, s)
  {
    match s
    case Token => g.(tokens := g.tokens + 1)
    case Start => g.(started := g.started + 1, running := g.running + {g.started})
    case Finish(i, a) => g.(running := g.running - {i}, sent := g.sent + [i], answers := g.answers[i := a])
    case Receive => g.(received := g.received + 1, errors := g.errors + ErrorsOf(g.answers[g.sent[g.received]]))
    case Drain =>
      g.(drained := g.drained + 1, result := if g.drained + 1 == c.workers then Some(g.errors) else None)
  }

  predicate Possible(c: Config, g: Group, run: seq<Step>)
    decreases |run|
  {
    run != [] ==> Enabled(c, g, run[0]) && Possible(c, Next(c, g, run[0]), run[1..])
  }

  function After(c: Config, g: Group, run: seq<Step>): Group
    requires Possible(c, g, run)
    decreases |run|
  {
    if run == [] then g else After(c, Next(c, g, run[0]), run[1..])
  }

  // ------------------------------------------------------------------ invariant

  ghost predicate Counts(c: Config, g: Group) {
    && g.drained <= g.received <= g.drained + 1
    && g.received <= |g.sent| <= g.started <= g.tokens <= c.workers
    && g.tokens <= g.started + 1
    && g.tokens <= g.drained + c.concurrency
    && |g.running| + |g.sent| == g.started
    && (g.result.Some? <==> g.drained == c.workers)
  }

  ghost predicate Members(g: Group) {
    && (forall i :: i in g.running ==> i < g.started && i !in g.answers)
    && (forall i :: i in g.answers <==> i in g.sent)
    && (forall i :: 0 <= i < g.started ==> i in g.running || i in g.answers)
    && (forall i :: i in g.answers ==> i < g.started)
    && g.received <= |g.sent|
    && g.errors == Errors(g.sent[..g.received], g.answers)
    && (g.result.Some? ==> g.result.value == g.errors)
  }

  lemma {:induction false} ErrorsIgnores(workers: seq<nat>, answers: map<nat, Answer>, i: nat, a: Answer)
    requires i !in answers && forall j :: j in workers ==> j in answers
    ensures Errors(workers, answers[i := a]) == Errors(workers, answers)
  {
    if workers != [] {
      ErrorsIgnores(workers[..|workers| - 1], answers, i, a);
    }
  }

  lemma StepKeepsCounts(c: Config, g: Group, s: Step)
    requires Counts(c, g) && Members(g) && Enabled(c, g, s)
    ensures Counts(c, Next(c, g, s))
  {
  }

  lemma StepKeepsMembers(c: Config, g: Group, s: Step)
    requires Counts(c, g) && Members(g) && Enabled(c, g, s)
    ensures Members(Next(c, g, s))
  {
    match s
    case Finish(i, a) =>
      ErrorsIgnores(g.sent[..g.received], g.answers, i, a);
      assert (g.sent + [i])[..g.received] == g.sent[..g.received];
    case Receive => ReceiveKeepsMembers(c, g);
    case _ =>
  }

  lemma ReceiveKeepsMembers(c: Config, g: Group)
    requires Members(g) && Enabled(c, g, Receive)
    ensures Members(Next(c, g, Receive))
  {
    assert g.sent[..g.received + 1] == g.sent[..g.received] + [g.sent[g.received]];
  }

  /** Steps taken so far: five for each worker. */
  function Work(g: Group): nat {
    g.tokens + g.started + |g.sent| + g.received + g.drained
  }

  lemma {:induction false} RunsKeepInvariant(c: Config, g: Group, run: seq<Step>)
    requires Counts(c, g) && Members(g) && Possible(c, g, run)
    ensures Counts(c, After(c, g, run)) && Members(After(c, g, run))
    decreases |run|
  {
    if run != [] {
      StepKeepsCounts(c, g, run[0]);
      StepKeepsMembers(c, g, run[0]);
      RunsKeepInvariant(c, Next(c, g, run[0]), run[1..]);
    }
  }

  lemma {:induction false} StepsAreWork(c: Config, g: Group, run: seq<Step>)
    requires Possible(c, g, run)
    ensures Work(After(c, g, run)) == Work(g) + |run|
    decreases |run|
  {
    if run != [] {
      OneStepOfWork(c, g, run[0]);
      StepsAreWork(c, Next(c, g, run[0]), run[1..]);
    }
  }

  lemma OneStepOfWork(c: Config, g: Group, s: Step)
    requires Enabled(c, g, s)
    ensures Work(Next(c, g, s)) == Work(g) + 1
  {
  }

  // ------------------------------------------------------------------ the guarantees

  /** In every interleaving no more workers run, or wait to be collected, than the concurrency allows. */
  lemma ConcurrencyBounded(c: Config, run: seq<Step>)
    requires Possible(c, Begin(c), run)
    ensures
      var g := After(c, Begin(c), run);
      |g.running| <= g.started - g.drained <= c.concurrency
  {
    RunsKeepInvariant(c, Begin(c), run);
  }

  /** The step that is always possible before Wait returns. */
  lemma Unstuck(c: Config, g: Group) returns (s: Step)
    requires Counts(c, g) && Members(g) && c.concurrency >= 1 && g.result.None?
    ensures Enabled(c, g, s)
  {
    if g.drained < g.received {
      s := Drain;
    } else if g.received < |g.sent| {
      s := Receive;
    } else if g.running != {} {
      var i :| i in g.running;
      s := Finish(i, Fine);
    } else if g.started < g.tokens {
      s := Start;
    } else {
      s := Token;
    }
  }

  /** No reachable state before the return is stuck, exactly if the concurrency is not zero or there is no worker. */
  lemma NeverStuckIff(c: Config)
    ensures (forall run :: Possible(c, Begin(c), run) && After(c, Begin(c), run).result.None? ==>
               exists s :: Enabled(c, After(c, Begin(c), run), s))
      <==> c.concurrency >= 1 || c.workers == 0
  {
    if c.concurrency >= 1 {
      forall run | Possible(c, Begin(c), run) && After(c, Begin(c), run).result.None?
        ensures exists s :: Enabled(c, After(c, Begin(c), run), s)
      {
        RunsKeepInvariant(c, Begin(c), run);
        var s := Unstuck(c, After(c, Begin(c), run));
      }
    } else {
      assert After(c, Begin(c), []) == Begin(c);
      assert forall s :: !Enabled(c, Begin(c), s);
      assert c.workers == 0 ==> forall run :: Possible(c, Begin(c), run) ==> run == [];
    }
  }

  /**
   Wait returns in every interleaving after exactly five steps per worker, one receipt each, with every worker
   started and answered and nothing left running.
   */
  lemma ReturnsExactlyAtTheEnd(c: Config, run: seq<Step>)
    requires Possible(c, Begin(c), run)
    ensures
      var g := After(c, Begin(c), run);
      && |run| <= 5 * c.workers
      && (g.result.Some? <==> |run| == 5 * c.workers)
      && (g.result.Some? ==> g.received == g.started == c.workers && g.running == {})
  {
    RunsKeepInvariant(c, Begin(c), run);
    StepsAreWork(c, Begin(c), run);
  }

  /** Nothing went wrong: the worker sent no error, or an empty list of them. */
  predicate Well(a: Answer) { a == Fine || a == FailedMany([]) }

  lemma {:induction false} NoErrorsIff(workers: seq<nat>, answers: map<nat, Answer>)
    requires forall i :: i in workers ==> i in answers
    ensures Errors(workers, answers) == [] <==> forall i :: i in workers ==> Well(answers[i])
  {
    if workers != [] {
      var rest, last := workers[..|workers| - 1], workers[|workers| - 1];
      NoErrorsIff(rest, answers);
      assert forall i :: i in workers <==> i in rest || i == last;
    }
  }

  /** Wait returns nil exactly if every worker answered without an error. */
  lemma NilIffAllFine(c: Config, run: seq<Step>)
    requires Possible(c, Begin(c), run) && After(c, Begin(c), run).result.Some?
    ensures
      var g := After(c, Begin(c), run);
      && (forall i :: 0 <= i < c.workers ==> i in g.answers)
      && (g.result.value == [] <==> forall i :: 0 <= i < c.workers ==> Well(g.answers[i]))
  {
    RunsKeepInvariant(c, Begin(c), run);
    ReturnsExactlyAtTheEnd(c, run);
    EveryoneAnswered(c, After(c, Begin(c), run));
  }

  lemma EveryoneAnswered(c: Config, g: Group)
    requires Counts(c, g) && Members(g) && g.result.Some?
    requires g.received == g.started == c.workers && g.running == {}
    ensures |g.sent| == c.workers && g.result.value == Errors(g.sent, g.answers)
    ensures forall i :: 0 <= i < c.workers ==> i in g.answers && i in g.sent
    ensures g.result.value == [] <==> forall i :: 0 <= i < c.workers ==> Well(g.answers[i])
  {
    assert g.sent[..g.received] == g.sent;
    NoErrorsIff(g.sent, g.answers);
    SameWorkers(g.sent, g.answers, c.workers);
  }

  lemma SameWorkers(sent: seq<nat>, answers: map<nat, Answer>, n: nat)
    requires forall i :: i in sent <==> i in answers
    requires forall i: nat :: i < n <==> i in answers
    ensures (forall i :: i in sent ==> Well(answers[i])) <==> forall i :: 0 <= i < n ==> Well(answers[i])
  {
  }

  // ------------------------------------------------------------------ what is returned

  /** How often the worker told of the error. */
  function Told(a: Answer, error: string): nat {
    match a
    case Fine => 0
    case Failed(e) => if e == error then 1 else 0
    case FailedMany(es) => multiset(es)[error]
  }

  /** How often the first `n` workers told of the error. */
  function ToldByAll(n: nat, answers: map<nat, Answer>, error: string): nat
    requires forall i :: 0 <= i < n ==> i in answers
  {
    if n == 0 then 0 else ToldByAll(n - 1, answers, error) + Told(answers[n - 1], error)
  }

  function ToldBy(workers: seq<nat>, answers: map<nat, Answer>, error: string): nat
    requires forall i :: i in workers ==> i in answers
  {
    if workers == [] then 0
    else ToldBy(workers[..|workers| - 1], answers, error) + Told(answers[workers[|workers| - 1]], error)
  }

  lemma {:induction false} ErrorsTold(workers: seq<nat>, answers: map<nat, Answer>, error: string)
    requires forall i :: i in workers ==> i in answers
    ensures multiset(Errors(workers, answers))[error] == ToldBy(workers, answers, error)
  {
    if workers != [] {
      ErrorsTold(workers[..|workers| - 1], answers, error);
    }
  }

  lemma {:induction false} OneTakenOut(before: seq<nat>, i: nat, after: seq<nat>, answers: map<nat, Answer>, error: string)
    requires forall j :: j in before || j == i || j in after ==> j in answers
    ensures ToldBy(before + [i] + after, answers, error) == ToldBy(before + after, answers, error) + Told(answers[i], error)
    decreases |after|
  {
    if after == [] {
      assert before + [i] + after == before + [i] && before + after == before;
      assert (before + [i])[..|before|] == before;
    } else {
      var n := |after| - 1;
      assert (before + [i] + after)[..|before| + 1 + n] == before + [i] + after[..n];
      assert (before + after)[..|before| + n] == before + after[..n];
      OneTakenOut(before, i, after[..n], answers, error);
    }
  }

  lemma OthersRemain(before: seq<nat>, last: nat, after: seq<nat>)
    requires |before + after| == last && forall i: nat :: i <= last ==> i in before + [last] + after
    ensures forall i: nat :: i < last ==> i in before + after
  {
    forall i: nat | i < last ensures i in before + after {
      assert i in before + [last] + after;
    }
  }

  /** The order of the answers does not matter to the counts. */
  lemma {:induction false} InAnyOrder(sent: seq<nat>, n: nat, answers: map<nat, Answer>, error: string)
    requires |sent| == n && (forall i: nat :: i < n ==> i in sent) && forall i :: i in sent ==> i in answers
    ensures ToldBy(sent, answers, error) == ToldByAll(n, answers, error)
  {
    if n > 0 {
      var last: nat := n - 1;
      assert last in sent;
      var k: nat :| k < |sent| && sent[k] == last;
      var before, after := sent[..k], sent[k + 1..];
      assert sent == before + [last] + after;
      OneTakenOut(before, last, after, answers, error);
      OthersRemain(before, last, after);
      InAnyOrder(before + after, last, answers, error);
    }
  }

  /** Wait returns every error as often as the workers told of it, and nothing else. */
  lemma EveryErrorReturned(c: Config, run: seq<Step>, error: string)
    requires Possible(c, Begin(c), run) && After(c, Begin(c), run).result.Some?
    ensures
      var g := After(c, Begin(c), run);
      && (forall i :: 0 <= i < c.workers ==> i in g.answers)
      && multiset(g.result.value)[error] == ToldByAll(c.workers, g.answers, error)
  {
    var g := After(c, Begin(c), run);
    RunsKeepInvariant(c, Begin(c), run);
    ReturnsExactlyAtTheEnd(c, run);
    EveryoneAnswered(c, g);
    ErrorsTold(g.sent, g.answers, error);
    InAnyOrder(g.sent, c.workers, g.answers, error);
  }

  /** The errors of one worker, in their order and next to each other, from place `p` on. */
  predicate ToldAt(errors: seq<string>, a: Answer, p: nat) {
    match a
    case Fine => true
    case Failed(e) => p < |errors| && errors[p] == e
    case FailedMany(es) => p + |es| <= |errors| && errors[p..p + |es|] == es
  }

  lemma ToldAtTheEnd(earlier: seq<string>, a: Answer)
    ensures ToldAt(earlier + ErrorsOf(a), a, |earlier|)
  {
  }

  lemma ToldStays(earlier: seq<string>, later: seq<string>, a: Answer, p: nat)
    requires ToldAt(earlier, a, p)
    ensures ToldAt(earlier + later, a, p)
  {
    if a.FailedMany? {
      assert (earlier + later)[p..p + |a.errors|] == earlier[p..p + |a.errors|];
    }
  }

  lemma {:induction false} ToldTogether(workers: seq<nat>, answers: map<nat, Answer>, k: nat) returns (p: nat)
    requires k < |workers| && forall i :: i in workers ==> i in answers
    ensures ToldAt(Errors(workers, answers), answers[workers[k]], p)
    decreases |workers|
  {
    var n := |workers| - 1;
    var earlier, last := Errors(workers[..n], answers), answers[workers[n]];
    if k == n {
      p := |earlier|;
      ToldAtTheEnd(earlier, last);
    } else {
      p := ToldTogether(workers[..n], answers, k);
      ToldStays(earlier, ErrorsOf(last), answers[workers[k]], p);
    }
  }

  /** The errors of each worker are returned together, in their order. */
  lemma ErrorsStayTogether(c: Config, run: seq<Step>, i: nat)
    requires Possible(c, Begin(c), run) && After(c, Begin(c), run).result.Some? && i < c.workers
    ensures
      var g := After(c, Begin(c), run);
      i in g.answers && exists p :: ToldAt(g.result.value, g.answers[i], p)
  {
    var g := After(c, Begin(c), run);
    RunsKeepInvariant(c, Begin(c), run);
    ReturnsExactlyAtTheEnd(c, run);
    EveryoneAnswered(c, g);
    assert i in g.sent;
    var k: nat :| k < |g.sent| && g.sent[k] == i;
    var p := ToldTogether(g.sent, g.answers, k);
  }
}
