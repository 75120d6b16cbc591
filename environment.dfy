/**
 * The two collaborators `tim/measure.py` reaches outside itself for:
 * the wall clock `time.time()` and the logger handed to `Measure`.
 */
module Environment {

  /** One message handed to `logger.info`: the template `msg` and the duration it is formatted with. */
  datatype Notice = Info(template: string, dt: real)

  /**
   * An injected clock: `source(k)` is the value of the k-th call to `time.time()`.
   * `taken` counts the readings consumed so far, so every call pops the next one,
   * as the stubbed clock of the tests does.
   */
  class Clock {
    const source: nat -> real
    var taken: nat

    constructor (source: nat -> real)
      ensures this.source == source && taken == 0
    {
      this.source := source;
      taken := 0;
    }

    /** The next reading; no two calls see the same one. */
    method Time() returns (t: real)
      modifies this
      ensures t == source(old(taken))
      ensures taken == old(taken) + 1
    {
      t := source(taken);
      taken := taken + 1;
    }
  }

  /** A logging sink that keeps, in order, every informational message it received. */
  class Logger {
    ghost var records: seq<Notice>

    constructor ()
      ensures records == []
    {
      records := [];
    }

    method Info(template: string, dt: real)
      modifies this
      ensures records == old(records) + [Notice.Info(template, dt)]
    {
      records := records + [Notice.Info(template, dt)];
    }
  }
}
