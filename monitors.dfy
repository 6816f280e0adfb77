/**
 * The `PerformanceMonitor` object itself, with the fields the source updates
 * in place. The clock is not read here: `Start`, `End`, `Enter` and `Exit`
 * take the reading as `now`. The logger is a flag saying whether one is set,
 * and what it is handed is appended to the ghost field `log`.
 */
module Monitors {
  import opened MonitorSpec

  class PerformanceMonitor {
    var startTime: Option<int>
    var endTime: Option<int>
    var timerBlocks: map<string, Block>
    var hasLogger: bool
    ghost var log: seq<Record>

    /** The monitor's state as a value. */
    ghost function Model(): State
      reads this
    {
      State(startTime, endTime, timerBlocks, hasLogger, log)
    }

    ghost predicate Valid()
      reads this
    {
      MonitorSpec.Valid(Model())
    }

    /** The dataclass constructor: the table and the logger may be given, the readings may not. */
    constructor (timerBlocks: map<string, Block> := map[], hasLogger: bool := true)
      ensures Model() == Initial(timerBlocks, hasLogger)
      ensures Valid()
    {
      this.startTime := None;
      this.endTime := None;
      this.timerBlocks := timerBlocks;
      this.hasLogger := hasLogger;
      this.log := [];
    }

    /** `__enter__`: start the timer. */
    method Enter(now: int)
      modifies this
      ensures Model() == MonitorSpec.Start(old(Model()), now)
      ensures Valid()
    {
      Start(now);
    }

    /** `__exit__`: end, save and log under `CtxBlock`, stopping at the first error. */
    method Exit(now: int) returns (o: Outcome)
      modifies this
      ensures Effect(Model(), o) == MonitorSpec.Exit(old(Model()), now)
      ensures old(Valid()) ==> Valid()
    {
      o := End(now);
      if o.Fail? {
        return;
      }
      o := SaveBlock(CtxBlock);
      if o.Fail? {
        return;
      }
      o := LogTime(CtxBlock);
    }

    method Start(now: int)
      modifies this
      ensures Model() == MonitorSpec.Start(old(Model()), now)
      ensures Valid()
    {
      startTime := Some(now);
    }

    method End(now: int) returns (o: Outcome)
      modifies this
      ensures Effect(Model(), o) == Attempt(old(Model()), MonitorSpec.End(old(Model()), now))
      ensures old(Valid()) ==> Valid()
    {
      if startTime.None? {
        return Fail(TimerError(NotStarted));
      }
      endTime := Some(now);
      o := Pass;
    }

    method Reset(clearBlocks: bool := false)
      modifies this
      ensures Model() == MonitorSpec.Reset(old(Model()), clearBlocks)
      ensures Valid()
    {
      startTime := None;
      endTime := None;
      if clearBlocks {
        timerBlocks := map[];
      }
    }

    method SaveBlock(name: string) returns (o: Outcome)
      modifies this
      ensures Effect(Model(), o) == Attempt(old(Model()), MonitorSpec.SaveBlock(old(Model()), name))
      ensures old(Valid()) ==> Valid()
    {
      if endTime.None? || startTime.None? {
        return Fail(SaveError);
      }
      var elapsed := endTime.value - startTime.value;
      timerBlocks := timerBlocks[name := Block(startTime.value, endTime.value, elapsed)];
      o := Pass;
    }

    method LogTime(name: string) returns (o: Outcome)
      modifies this
      ensures Effect(Model(), o) == Attempt(old(Model()), MonitorSpec.LogTime(old(Model()), name))
      ensures old(Valid()) ==> Valid()
    {
      if name !in timerBlocks {
        return Fail(TimerError(NoSavedBlock));
      }
      if !hasLogger {
        return Fail(TimerError(NoLogger));
      }
      var block := timerBlocks[name];
      log := log + [Record(name, block.startTime, block.endTime, block.elapsed)];
      o := Pass;
    }
  }

  /** A default monitor used as a context manager around a body that does nothing. */
  method TimedRegion(t0: int, t1: int) returns (m: PerformanceMonitor, o: Outcome)
    ensures o == Pass
    ensures m.timerBlocks == map[CtxBlock := Block(t0, t1, t1 - t0)]
    ensures m.log == [Record(CtxBlock, t0, t1, t1 - t0)]
  {
    m := new PerformanceMonitor();
    m.Enter(t0);
    o := m.Exit(t1);
  }

  /** With the logger set to None, leaving the region raises, but the block is saved first. */
  method TimedRegionWithoutLogger(t0: int, t1: int) returns (m: PerformanceMonitor, o: Outcome)
    ensures o == Fail(TimerError(NoLogger))
    ensures m.timerBlocks == map[CtxBlock := Block(t0, t1, t1 - t0)]
    ensures m.log == []
  {
    m := new PerformanceMonitor(hasLogger := false);
    m.Enter(t0);
    o := m.Exit(t1);
  }
}
