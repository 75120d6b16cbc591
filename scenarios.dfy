/**
 * Clients of `Measure`: a decorated function called once per argument, and replays of the
 * repository's own tests and documentation examples. The replays use an unbounded stub
 * clock whose k-th reading is `k + 1`.
 */
module MeasureScenarios {
  import opened Wrappers
  import opened Environment
  import opened MeasureSpec
  import opened Tim

  const Printing: string := "Printing took {}s"
  const Logic: string := "Logical operation took {}s"

  /** An unbounded stub clock whose k-th reading is `k + 1`. */
  function StubReading(k: nat): real
  {
    (k + 1) as real
  }

  /**
   * The decorated function called once per argument, in order: each call returns what
   * `fun` returns for that argument, the calls are `|args|` sequential measurements of the
   * trace model, so `times` gains exactly one entry per call, the duration of that call.
   */
  method CallRepeatedly<A, B, E>(m: Measure, fun: A -> Result<B, E>, args: seq<A>) returns (results: seq<Result<B, E>>)
    modifies m, m.clock, m.logger
    ensures |results| == |args|
    ensures forall i :: 0 <= i < |args| ==> results[i] == fun(args[i])
    ensures m.clock.taken == old(m.clock.taken) + 2 * |args|
    ensures var readings := Readings(m.clock.source, old(m.clock.taken), 2 * |args|);
      && Run(old(m.State()), Pairs(|args|), readings) == Success(m.State())
      && m.times == old(m.times) + Durations(readings)
  {
    ghost var s0 := m.State();
    ghost var c0 := m.clock.taken;
    results := [];
    var i := 0;
    while i < |args|
      invariant 0 <= i <= |args|
      invariant |results| == i
      invariant forall j :: 0 <= j < i ==> results[j] == fun(args[j])
      invariant m.clock.taken == c0 + 2 * i
      invariant Run(s0, Pairs(i), Readings(m.clock.source, c0, 2 * i)) == Success(m.State())
    {
      ghost var before := m.State();
      var r := m.Wrapped(fun, args[i]);
      results := results + [r];
      OneMoreCall(s0, i, m.clock.source, c0, before, m.State());
      i := i + 1;
    }
    RunPairs(s0, |args|, Readings(m.clock.source, c0, 2 * |args|));
  }

  /** `with m:` around a block: the one recorded duration is 2 - 1. */
  method ContextManagerScenario() returns (times: seq<real>)
    ensures times == [1.0]
  {
    var clock := new Clock(StubReading);
    var logger := new Logger();
    var m := new Measure(clock, logger, "Test {}");
    m.Enter();
    var body := 4 * 1000;
    var done := m.Exit();
    times := m.times;
  }

  /** A function decorated with `@m` and called once: its value comes back, one duration is recorded. */
  method DecoratorScenario() returns (result: Result<int, string>, times: seq<real>)
    ensures result == Success(4000)
    ensures times == [1.0]
  {
    var clock := new Clock(StubReading);
    var logger := new Logger();
    var m := new Measure(clock, logger, "Test {}");
    result := m.Wrapped((u: ()) => Success(4 * 1000), ());
    times := m.times;
  }

  /** A decorated function that raises: the same exception reaches the caller, and the call is still recorded and logged. */
  method FailingBodyScenario() returns (result: Result<int, string>, times: seq<real>, ghost log: seq<Notice>)
    ensures result == Failure("boom")
    ensures times == [1.0]
    ensures log == [Info(DefaultMessage, 1.0)]
  {
    var clock := new Clock(StubReading);
    var logger := new Logger();
    var m := new Measure(clock, logger);
    result := m.Wrapped((u: ()) => Failure("boom"), ());
    times := m.times;
    log := logger.records;
  }

  /**
   * Two trackers sharing one clock and one logger: one times a `with` block and then,
   * as a decorator, a function called three times; the other times three `with` blocks
   * interleaved with those calls. Each keeps its own durations; the logger sees every
   * notice in the order the measurements completed.
   */
  method SharedLoggerScenario() returns (printing: seq<real>, logic: seq<real>, ghost log: seq<Notice>)
    ensures printing == [1.0, 1.0, 1.0, 1.0]
    ensures logic == [1.0, 1.0, 1.0]
    ensures log == [Info(Printing, 1.0)] + Rounds(3)
  {
    var clock := new Clock(StubReading);
    var logger := new Logger();
    var p := new Measure(clock, logger, Printing);
    var l := new Measure(clock, logger, Logic);
    p.Enter();
    var done := p.Exit();
    var x := 0;
    while x < 3
      invariant 0 <= x <= 3
      invariant p.times == Ones(x + 1)
      invariant l.times == Ones(x)
      invariant p.t0 == None && p.msg == Printing
      invariant l.t0 == None && l.msg == Logic
      invariant logger.records == [Info(Printing, 1.0)] + Rounds(x)
    {
      Round(p, l, x);
      x := x + 1;
    }
    printing, logic, log := p.times, l.times, logger.records;
  }

  /**
   * One pass of that loop: `with logic:` around a condition, then the decorated
   * `show_formatted(condition)`, which prints it and returns `None`.
   */
  method Round(p: Measure, l: Measure, x: int)
    requires p != l && p.clock == l.clock && p.logger == l.logger
    requires p.clock.source == StubReading
    modifies p, l, p.clock, p.logger
    ensures p.msg == old(p.msg) && p.t0 == None && p.times == old(p.times) + [1.0]
    ensures l.msg == old(l.msg) && l.t0 == None && l.times == old(l.times) + [1.0]
    ensures p.logger.records == old(p.logger.records) + [Info(l.msg, 1.0), Info(p.msg, 1.0)]
  {
    l.Enter();
    var condition := x % 3 == 0;
    var done := l.Exit();
    var shown: Result<(), string> := p.Wrapped((c: bool) => Success(()), condition);
  }

  /** `n` durations of one second each. */
  function Ones(n: nat): seq<real>
  {
    if n == 0 then [] else Ones(n - 1) + [1.0]
  }

  /** The notices of `n` rounds of the loop above: the `with` block's, then the decorated call's. */
  function Rounds(n: nat): seq<Notice>
  {
    if n == 0 then [] else Rounds(n - 1) + [Info(Logic, 1.0), Info(Printing, 1.0)]
  }
}
