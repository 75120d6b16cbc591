# timd: the `Measure` tracker, modelled in Dafny

`tim/measure.py` defines one class, `Measure`. It times a block of work and keeps
every duration it has measured in the list `times`. It also reports each duration
to a logger at info level. It is used in two ways:

- as a context manager (`with m: ...`): `__enter__` stores a clock reading in `t0`;
  `__exit__` subtracts it from a fresh reading, clears `t0`, appends the difference
  to `times` and logs `msg.format(dt)`;
- as a decorator (`@m`): `__call__` returns a wrapper that runs every call of the
  decorated function inside `with self:`.

The object is a two-state machine. It is Idle when `t0` is `None` and Active when
`t0` holds the start of the open measurement.

The model has these files:

- `wrappers.dfy`: `Option`, and `Result` for a value or a raised exception.
- `environment.dfy`: the clock and the logger. `Clock` stands in for
  `time.time()`. It is an injected, never-ending stream of readings, and each
  `Time()` call consumes the next one, as the stubbed clock of the tests does.
  `Logger` keeps, in a ghost sequence, every `(template, duration)` pair it was
  given at info level.
- `measure_spec.dfy` (module `MeasureSpec`): the object's state as a value, a
  `Snapshot` of `msg`, `t0`, `times` and the logger's records. `EnterStep` and
  `ExitStep` give the effect of `__enter__` and `__exit__` on it. `Run` executes a
  trace of enter/exit operations, each seeing one clock reading. The lemmas cover
  any trace and any number of sequential measurements.
- `measure.dfy` (module `Tim`): the class `Measure`, with fields `msg`, `times`
  and `t0` and methods `Enter`, `Exit` and `Wrapped`. The postconditions of `Enter`
  and `Exit` tie the new state to `EnterStep` and `ExitStep` of the old state; that
  of `Wrapped` ties it to `Run` of one enter/exit pair on the two readings taken.
- `scenarios.dfy` (module `MeasureScenarios`): `CallRepeatedly`, a client that
  calls a decorated function once per argument and is proved to be that many
  sequential measurements, and clients that replay the repository's unit tests and
  the tracker example of its package documentation.

`__exit__` on an Idle object is not ruled out by a precondition. The code reads the
clock and then fails on `time.time() - None`. The model does the same: it consumes
one reading and returns `Failure(TypeError)`, and nothing else changes.

`__enter__` on an Active object silently overwrites `t0`, and the model keeps that
behaviour. Two lemmas record what follows from it:
`OverlappingEnterOverwritesStart` and `NestedUseFailsOnOuterExit`. A `with m:`
nested inside `with m:` records only the inner block, and the outer `__exit__`
then raises `TypeError`. The code has no policy for overlapping use beyond this,
and the model adds none.

## Model

| member | source | states |
|---|---|---|
| `Tim.Measure.constructor` | tim/measure.py:7-11 | a new tracker has the given template (by default `Execution took {}s`), the given logger, empty `times` and `t0 == None`; the logger's records are not touched |
| `Tim.Measure.Enter` | tim/measure.py:13-14 | takes exactly one clock reading; the new state is `EnterStep` of the old one with that reading |
| `Tim.Measure.Exit` | tim/measure.py:16-20 | takes exactly one clock reading; fails with `TypeError`, changing nothing, exactly when `t0` was `None`; otherwise `t0` is cleared, `now - t0` is appended to the unchanged `times`, the logger receives one notice with the same duration, and the new state is `ExitStep` of the old one |
| `Tim.Measure.Wrapped` | tim/measure.py:22-28 | one call of the decorated function returns exactly `fun(x)`, value or exception; whichever it is, two clock readings are taken, one duration (second minus first) is appended, `t0` is cleared and one notice is logged; the new state is `Run` of one enter/exit pair (`Pairs(1)`) on those two readings |
| `MeasureSpec.EnterStep` | tim/measure.py:13-14 | `t0` becomes exactly the reading taken; `msg`, `times` and the log are unchanged |
| `MeasureSpec.ExitStep` | tim/measure.py:16-20 | fails (with `TypeError`) if and only if `t0` is `None`; on success the state is Idle, `msg` is kept, the old entries of `times` are kept, exactly one entry `now - t0` is appended, and the log gains exactly one notice carrying `msg` and that same duration |
| `MeasureSpec.Pairs` | tim/measure.py:25-26 | `n` decorated calls or `with` blocks in sequence make a trace of `2n` operations alternating enter and exit |
| `MeasureSpec.Durations` | tim/measure.py:17-19 | reference for what sequential measurements record: the k-th duration is reading `2k+1` minus reading `2k`, and there are half as many durations as readings |
| `MeasureSpec.Notices` | tim/measure.py:20 | the log entries for a list of durations are exactly one per duration |
| `MeasureSpec.NoticeAt` | tim/measure.py:19-20 | the k-th log entry carries the template and the k-th duration |
| `MeasureSpec.NoticesConcat` | tim/measure.py:20 | the log entries of two successive lists of durations are those of the first followed by those of the second |
| `MeasureSpec.StepExtends` | tim/measure.py:13-20 | a successful `__enter__` adds no duration and no notice; a successful `__exit__` adds exactly its one duration and its one notice |
| `MeasureSpec.ExtendsTransitive` | tim/measure.py:19-20 | growth composes: what two successive stretches of work add to `times` and the log is what the first adds followed by what the second adds |
| `MeasureSpec.RunAppendsOnly` | tim/measure.py:13-20 | for any trace that runs without failing, `msg` and the old entries of `times` are unchanged, exactly one entry per `__exit__` is appended, and the log gains exactly one notice per appended entry, in completion order and with the same duration |
| `MeasureSpec.RunPairs` | tim/measure.py:13-20 | `n` sequential measurements never fail from any state; they leave the tracker Idle (if `n > 0`), append exactly `Durations(readings)` in completion order and log one matching notice for each |
| `MeasureSpec.OneCallIsOnePair` | tim/measure.py:24-26 | from any state, one enter/exit pair clears `t0`, appends exactly `end - start` and logs exactly one notice with it, the explicit effect `Tim.Measure.Wrapped` promises |
| `MeasureSpec.RunConcat` | tim/measure.py:13-20 | running two traces one after the other is running their concatenation: the second starts from the state the first left, and a failure in the first ends the run |
| `MeasureSpec.PairsSnoc` | tim/measure.py:25-26 | `n + 1` measurements are `n` measurements followed by one more |
| `MeasureSpec.PairsThenOneMore` | tim/measure.py:25-26 | `n` measurements ending in some state, then one more measurement from that state, are `n + 1` measurements with the same final state |
| `MeasureSpec.OneMoreCall` | tim/measure.py:25-26 | the same, with the readings taken one after another from a clock |
| `MeasureScenarios.CallRepeatedly` | tim/measure.py:24-26 | calling a decorated function once per argument returns, call by call, exactly what the function returns; it takes two readings per call, the new state is `Run` of `|args|` sequential measurements on those readings, and `times` gains exactly `Durations` of them, one entry per call in call order |
| `MeasureSpec.OverlappingEnterOverwritesStart` | tim/measure.py:14 | observed behaviour: enter, enter, exit records only the time since the second enter |
| `MeasureSpec.NestedUseFailsOnOuterExit` | tim/measure.py:16-18 | observed behaviour: nesting `with m:` inside `with m:` makes the outer `__exit__` raise `TypeError` |
| `Environment.Clock.Time` | tests/test_measure.py:12-13 | each clock reading is the next pending one; no reading is seen twice |
| `Environment.Logger.Info` | tim/measure.py:20 | the logger's records gain exactly the one notice given, at the end |
| `MeasureScenarios.ContextManagerScenario` | tests/test_measure.py:15-22 | with the stub clock 1, 2, …, one `with` block records exactly one duration, equal to 1 |
| `MeasureScenarios.DecoratorScenario` | tests/test_measure.py:24-35 | with the stub clock, one call of a decorated function returns its value (4000) and records exactly one duration, equal to 1 |
| `MeasureScenarios.FailingBodyScenario` | tim/measure.py:24-26 | a decorated function that raises: the caller gets the same exception, and the call is still recorded (one duration) and logged once with the default template |
| `MeasureScenarios.Round` | timd/__init__.py:64-67 | one loop pass of the documented example: the logic tracker and then the printing tracker each record one duration, and the shared logger receives their two notices in that order |
| `MeasureScenarios.SharedLoggerScenario` | timd/__init__.py:51-76 | two trackers sharing one clock and one logger keep separate durations (4 printing, 3 logic), and the logger receives every notice in completion order |

## Left out

- `time.time()` is replaced by an injected stream of `real` readings (`Clock`). No monotonicity is assumed, so durations may be negative, as in the code.
- Floating point is not modelled: readings and durations are exact `real`s.
- The `logging` module is replaced by `Logger`. A notice is the pair (template, duration); rendering the float with `str.format` is not modelled, and neither is a template whose `format` call raises (for example one with two `{}` slots). In the code that exception would leave the duration appended and `t0` cleared but nothing logged.
- Tim.Measure.constructor: the default `logger=logging` (the process-wide root logger) is not modelled. A `Logger` must be passed. The template keeps its default.
- Tim.Measure.Wrapped: models one call of the function `__call__` returns. `__call__` itself only captures `fun` in a closure, and a method cannot return a stateful closure. Positional and keyword arguments are modelled as one argument of a generic type, and the decorated function as a total function to `Result`. So a function that touches the same tracker itself (re-entrant use) is not covered. Nor is a function that reads the clock, writes to the logger or runs another `Measure`. `Wrapped` promises that the exit reading is the one right after the entry reading. That holds only because the function takes no readings of its own. With the tests' global patched clock, a body that called `time.time()` would shift the exit reading.
- The plain `with m:` form around arbitrary code is modelled by calling `Enter` and `Exit` around it. An exception inside such a block is covered only through `Wrapped`, which is that same bracket around a call.
- `__exit__`'s exception arguments are ignored by the code and are not modelled.
- Threads and concurrent use of one tracker are not modelled: the code has no synchronisation and the model is sequential.
- `timd/__init__.py` has no logic of its own. Its documented examples serve as scenarios only. The module `timd.measure` that it re-exports is not part of this model.
