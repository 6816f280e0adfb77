# PerformanceMonitor, modelled in Dafny

A model of `PerformanceMonitor` from `om_performance_monitor/monitors.py`: a small
stateful timer. It holds an in-progress pair of clock readings (`start_time`,
`end_time`), a table `timer_blocks` of saved measurements keyed by block name, and
an optional logger. `start`, `end`, `reset`, `save_block` and `log_time` move it
between idle, running, stopped and saved. `__enter__`/`__exit__` let it time a
`with` region under the reserved name `"ctx_manager"`.

The project has three modules:

- `MonitorSpec` (`monitor_spec.dfy`) describes the monitor on values. `State`
  holds everything the object holds. Each method is a function from the state
  before the call to the new state or the error raised. The errors are
  `TimerError` (not started, no saved block, no logger) and `SaveError`. Lemmas
  cover the properties that relate several calls.
- `Sessions` (`sessions.dfy`) runs any sequence of calls, where the caller
  catches each error and carries on. Every call except `__exit__` raises before
  it changes anything. `__exit__` keeps the effects of the calls that succeeded
  before the one that raised: the new end reading, and the `ctx_manager` block
  when only `log_time` fails. Proofs by induction show what every session
  preserves.
- `Monitors` (`monitors.dfy`) is the class `PerformanceMonitor`. It has the
  source's fields, and each method updates them in place. Each method is proved
  to do exactly what its `MonitorSpec` function does.

Clock readings are integers: nanoseconds of the monotonic clock. The class takes
each reading as a `now` parameter, so `elapsed = end - start` is exact. The
logger is the flag `hasLogger`. What it would be handed is appended to a ghost
`log` as a `Record(name, start, end, elapsed)`, in the order the log line
prints those fields.

## Model

| member | source | states |
|---|---|---|
| MonitorSpec.Initial | om_performance_monitor/monitors.py:21-24 | a fresh monitor has no start and no end reading, the given table (empty by default), the given logger (present by default), an empty log, and satisfies `Valid` |
| MonitorSpec.Start | om_performance_monitor/monitors.py:35-39 | `start` sets the start reading to `now`, whatever was there before; the end reading, table, logger and log are unchanged; the result is always `Valid`, and `Sound` is kept |
| MonitorSpec.End | om_performance_monitor/monitors.py:41-50 | `end` fails, with `TimerError(NotStarted)`, exactly when there is no start reading; otherwise it sets the end reading to `now` (overwriting an earlier one) and changes nothing else |
| MonitorSpec.Reset | om_performance_monitor/monitors.py:52-62 | `reset` always removes both readings; the table becomes empty when `clearBlocks` holds and is untouched otherwise; logger and log are unchanged |
| MonitorSpec.SaveBlock | om_performance_monitor/monitors.py:64-80 | `save_block` fails, with `SaveError`, exactly when a reading is missing; otherwise `name` maps to `{start, end, end - start}`, the key set gains only `name`, every other entry is kept, and the readings are not cleared |
| MonitorSpec.LogTime | om_performance_monitor/monitors.py:82-98 | `log_time` fails with `TimerError(NoSavedBlock)` for an unsaved name (checked first), then with `TimerError(NoLogger)` when no logger is set; it succeeds exactly when both are present, appending one record of the saved name, start, end and elapsed, and changes nothing else |
| MonitorSpec.Exit | om_performance_monitor/monitors.py:30-33 | `__exit__` fails unchanged with `TimerError(NotStarted)` when not started; otherwise the end reading is `now`, `ctx_manager` maps to `{start, now, now - start}` and the outcome is success with one record logged if a logger is set, or `TimerError(NoLogger)` with nothing logged but the block still saved |
| MonitorSpec.ResetTwice | om_performance_monitor/monitors.py:52-62 | `reset` is idempotent: two resets equal one, clearing the table if either asked to |
| MonitorSpec.SaveNeedsStartAndEnd | om_performance_monitor/monitors.py:64-80 | saving right after a reset, or after a reset and a `start` alone, fails with `SaveError` |
| MonitorSpec.ResaveOverwrites | om_performance_monitor/monitors.py:70-78 | re-saving a name already in the table succeeds and leaves the key set and its size unchanged |
| MonitorSpec.NegativeElapsedKept | om_performance_monitor/monitors.py:35-80 | with readings `t0 <= t1 < t2`, start at `t0`, end at `t1` and start again at `t2` leaves the stale end reading in place, and `save_block` stores `{t2, t1, t1 - t2}`, a negative elapsed time, without complaint |
| MonitorSpec.ValidSaveNeedsOnlyEnd | om_performance_monitor/monitors.py:64-80 | in a `Valid` state, `save_block` fails exactly when there is no end reading |
| MonitorSpec.UnsavedNameReportedFirst | om_performance_monitor/monitors.py:86-94 | with neither the name saved nor a logger set, `log_time` reports the missing block, not the missing logger |
| MonitorSpec.EnterThenExit | om_performance_monitor/monitors.py:26-33 | entering at `t0` and leaving at `t1` always saves `ctx_manager` as `{t0, t1, t1 - t0}`, then succeeds with exactly that record logged if a logger is set, or fails with `TimerError(NoLogger)` and nothing logged |
| MonitorSpec.QuarterSecondBlock | om_performance_monitor/monitors.py:35-78 | start at 0, end at 0.25 s, save `"x"`: the table holds `{0, 0.25 s, 0.25 s}` under `"x"` |
| Sessions.Step | om_performance_monitor/monitors.py:26-98 | any single call keeps `Valid` and `Sound`, adds to the table only the name it saves, keeps the logger, and extends the log by at most one record |
| Sessions.FailureKeepsState | om_performance_monitor/monitors.py:41-98 | every call other than `__exit__` that fails leaves the monitor exactly as it was: `end` raises before stamping (lines 45-48), `save_block` before updating (lines 69, 79-80), `log_time` before logging (lines 86-94) |
| Sessions.Run | om_performance_monitor/monitors.py:26-98 | after any sequence of calls, the log starts with the earlier log, has at most one record more per call, and the logger is unchanged |
| Sessions.RunKeepsValid | om_performance_monitor/monitors.py:35-62 | across any sequence of calls, an end reading is only ever on record together with a start reading |
| Sessions.RunKeepsSound | om_performance_monitor/monitors.py:64-98 | across any sequence of calls, every saved block and every logged record keeps elapsed = end - start |
| Sessions.RunOnlySavesNamedBlocks | om_performance_monitor/monitors.py:64-80 | across any sequence of calls, a name is in the table only if it was there at the start or was saved by a `save_block` or `__exit__` in the sequence |
| Sessions.FreshSession | om_performance_monitor/monitors.py:21-24 | from a freshly built monitor with a consistent initial table, every sequence of calls ends valid, sound, and with only initial or saved names in the table |
| Monitors.PerformanceMonitor.constructor | om_performance_monitor/monitors.py:21-24 | the object starts in the state `Initial` gives, and `Valid` holds |
| Monitors.PerformanceMonitor.Enter | om_performance_monitor/monitors.py:26-28 | `__enter__` updates the fields exactly as `Start` does |
| Monitors.PerformanceMonitor.Exit | om_performance_monitor/monitors.py:30-33 | `__exit__` calls `End`, `SaveBlock` and `LogTime` in turn, stopping at the first error; its fields and outcome are exactly those of `MonitorSpec.Exit`; `Valid` is kept |
| Monitors.PerformanceMonitor.Start | om_performance_monitor/monitors.py:35-39 | the fields change exactly as `MonitorSpec.Start` says |
| Monitors.PerformanceMonitor.End | om_performance_monitor/monitors.py:41-50 | the fields and outcome are exactly those of `MonitorSpec.End`: nothing changes on failure; `Valid` is kept |
| Monitors.PerformanceMonitor.Reset | om_performance_monitor/monitors.py:52-62 | the fields change exactly as `MonitorSpec.Reset` says; `clearBlocks` defaults to false |
| Monitors.PerformanceMonitor.SaveBlock | om_performance_monitor/monitors.py:64-80 | the table is updated in place exactly as `MonitorSpec.SaveBlock` says; nothing changes on failure |
| Monitors.PerformanceMonitor.LogTime | om_performance_monitor/monitors.py:82-98 | only the ghost log changes, by the one record `MonitorSpec.LogTime` gives; nothing changes on failure |
| Monitors.TimedRegion | om_performance_monitor/monitors.py:21-33 | a default monitor around an empty `with` body succeeds, holds only the `ctx_manager` block for [t0, t1], and has logged exactly that block |
| Monitors.TimedRegionWithoutLogger | om_performance_monitor/monitors.py:21-33 | with the logger set to None, leaving the region fails with `TimerError(NoLogger)`, yet the `ctx_manager` block is saved and nothing is logged |

## Left out

- The clock `time.perf_counter` (monitors.py:39, 50) is not read. Each reading is the `now` parameter, an integer count of nanoseconds.
- Clock readings are unconstrained integers. The model does not assume the clock never goes back, so its properties hold for any readings.
- Floating point is not modelled. Readings and elapsed times are exact integers, not IEEE doubles.
- The `float(...)` conversion of arbitrary field values (monitors.py:69) is not modelled. Readings are typed as optional integers, so absence is the only way `save_block` can fail.
- The logger call and the f-string rendering of the log line (monitors.py:96-98) are not modelled. A logger call is a `Record` appended to the ghost `log`, and the text format of the numbers is not modelled.
- The logger is modelled only as present or absent (`hasLogger`). Which callable it is, and the default `print`, are not modelled. No method of the class reassigns it.
- The text of the exception messages is not modelled. The `exceptions` module that defines `TimerError` and `SaveError` is not part of this model. Errors are the `Error` datatype, with the cause of each `TimerError` made explicit.
- Python's exception propagation around the context manager is not modelled. This includes the `exc_info` arguments of `__exit__`, its `None` return (so an exception in the body is never suppressed), and the masking of a body's exception when `__exit__` itself raises. `Exit` is only the sequential composition of `end`, `save_block` and `log_time`.
- `__enter__` returning `self` is not modelled. `Enter` returns nothing, and the caller keeps its own reference.
- The sharing of the table with the caller is not modelled. The source stores the very dict given to the constructor, and `save_block` updates it in place, so the caller and any other monitor built on the same dict see the new entry. `reset(clear_blocks=True)` replaces the dict instead of emptying it, so those other holders keep their entries. Here the table is a map value owned by one monitor.
- Malformed initial table entries are not modelled. The initial table is typed `map<string, Block>`, so every entry has the three fields. The source accepts any dict there, and `log_time` on a malformed entry raises `KeyError` or `TypeError` while building the log line, not `TimerError`.
- Direct assignment to the dataclass fields from outside the methods is not modelled. The state changes only through the methods, and a session is a sequence of those calls.
