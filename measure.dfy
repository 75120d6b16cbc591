/**
 * The `Measure` class of `tim/measure.py`: a context manager that times the block it
 * guards, keeps every duration in `times` and reports each one to its logger, and a
 * decorator that times every call of the function it wraps.
 */
module Tim {
  import opened Wrappers
  import opened Environment
  import opened MeasureSpec

  class Measure {
    var msg: string
    var times: seq<real>
    var t0: Option<real>
    const logger: Logger
    /** Stands in for `time.time()`, which every `Measure` calls. */
    const clock: Clock

    /** The abstract value of this object and of what its logger has received. */
    ghost function State(): Snapshot
      reads this, logger
    {
      Snapshot(msg, t0, times, logger.records)
    }

    /** `Measure(msg, logger)`: Idle, nothing measured yet; the logger is shared, not reset. */
    constructor (clock: Clock, logger: Logger, msg: string := DefaultMessage)
      ensures this.clock == clock && this.logger == logger
      ensures State() == Snapshot(msg, None, [], logger.records)
    {
      this.msg := msg;
      this.logger := logger;
      this.times := [];
      this.t0 := None;
      this.clock := clock;
    }

    /** `__enter__`: takes one clock reading and starts the measurement at exactly that time. */
    method Enter()
      modifies this, clock
      ensures clock.taken == old(clock.taken) + 1
      ensures State() == EnterStep(old(State()), clock.source(old(clock.taken)))
    {
      var now := clock.Time();
      t0 := Some(now);
    }

    /**
     * `__exit__`: takes one clock reading; with a measurement open it closes it, records
     * its duration and logs it; with none open, the subtraction raises `TypeError` and
     * nothing is recorded.
     */
    method Exit() returns (r: Result<(), Fault>)
      modifies this, clock, logger
      ensures clock.taken == old(clock.taken) + 1
      ensures r.Failure? <==> old(t0).None?
      ensures r.Failure? ==> State() == old(State())
      ensures r.Success? ==> var dt := clock.source(old(clock.taken)) - old(t0).value;
        && msg == old(msg) && t0 == None
        && times == old(times) + [dt]
        && logger.records == old(logger.records) + [Info(msg, dt)]
      ensures r.Success? ==> ExitStep(old(State()), clock.source(old(clock.taken))) == Success(State())
    {
      var now := clock.Time();
      if t0.None? {
        return Failure(TypeError);
      }
      var dt := now - t0.value;
      t0 := None;
      times := times + [dt];
      logger.Info(msg, dt);
      r := Success(());
    }

    /**
     * One call of the function that `__call__` returns: runs `fun(x)` inside `with self:`.
     * The result, value or exception, is `fun`'s own, and the measurement around it is
     * recorded and logged either way, exactly one enter/exit pair.
     */
    method Wrapped<A, B, E>(fun: A -> Result<B, E>, x: A) returns (r: Result<B, E>)
      modifies this, clock, logger
      ensures r == fun(x)
      ensures clock.taken == old(clock.taken) + 2
      ensures var start, end := clock.source(old(clock.taken)), clock.source(old(clock.taken) + 1);
        && msg == old(msg) && t0 == None
        && times == old(times) + [end - start]
        && logger.records == old(logger.records) + [Info(msg, end - start)]
        && Run(old(State()), Pairs(1), [start, end]) == Success(State())
    {
      ghost var before := State();
      ghost var start := clock.source(clock.taken);
      ghost var end := clock.source(clock.taken + 1);
      Enter();
      r := fun(x);
      // `with` runs `__exit__` whether `fun` returned or raised; its result does not replace `r`.
      var done := Exit();
      assert done.Success?;
      OneCallIsOnePair(before, start, end);
    }
  }
}
