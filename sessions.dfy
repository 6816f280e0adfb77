/**
 * A session with one monitor: any sequence of calls to its public methods,
 * where a call that raises is caught by the caller, who carries on with the
 * next call. The lemmas here show what holds after every such session: the
 * end reading never outlives the start reading, every block and every logged
 * record reports elapsed = end - start, the log only grows, and a block name
 * is in the table only if it was there at the outset or was saved since.
 */
module Sessions {
  import S = MonitorSpec

  /** One call to the monitor, with the clock reading it takes where it takes one. */
  datatype Call =
    | Enter(now: int)
    | Exit(now: int)
    | Start(now: int)
    | End(now: int)
    | Reset(clearBlocks: bool)
    | SaveBlock(name: string)
    | LogTime(name: string)

  /** The names a call may add to the table. */
  function Saves(c: Call): set<string> {
    match c
    case SaveBlock(name) => {name}
    case Exit(_) => {S.CtxBlock}
    case _ => {}
  }

  function SavedNames(calls: seq<Call>): set<string>
    decreases |calls|
  {
    if calls == [] then {} else Saves(calls[0]) + SavedNames(calls[1..])
  }

  /** The effect of one call on the monitor. */
  function Step(s: S.State, c: Call): (e: S.Effect)
    ensures S.Valid(s) ==> S.Valid(e.state)
    ensures S.Sound(s) ==> S.Sound(e.state)
    ensures e.state.blocks.Keys <= s.blocks.Keys + Saves(c)
    ensures e.state.hasLogger == s.hasLogger
    ensures s.log <= e.state.log && |e.state.log| <= |s.log| + 1
  {
    match c
    case Enter(now) => S.Effect(S.Start(s, now), S.Pass)
    case Exit(now) => S.Exit(s, now)
    case Start(now) => S.Effect(S.Start(s, now), S.Pass)
    case End(now) => S.Attempt(s, S.End(s, now))
    case Reset(clearBlocks) => S.Effect(S.Reset(s, clearBlocks), S.Pass)
    case SaveBlock(name) => S.Attempt(s, S.SaveBlock(s, name))
    case LogTime(name) => S.Attempt(s, S.LogTime(s, name))
  }

  /**
   * Every call but `__exit__` raises before it changes anything: a call that
   * fails leaves the monitor exactly as it was.
   */
  lemma FailureKeepsState(s: S.State, c: Call)
    ensures !c.Exit? && Step(s, c).outcome.Fail? ==> Step(s, c).state == s
  {
  }

  /** The monitor after a whole session; each call adds at most one log record. */
  function Run(s: S.State, calls: seq<Call>): (r: S.State)
    ensures s.log <= r.log && |r.log| <= |s.log| + |calls|
    ensures r.hasLogger == s.hasLogger
    decreases |calls|
  {
    if calls == [] then s else Run(Step(s, calls[0]).state, calls[1..])
  }

  lemma {:induction false} RunKeepsValid(s: S.State, calls: seq<Call>)
    requires S.Valid(s)
    ensures S.Valid(Run(s, calls))
    decreases |calls|
  {
    if calls != [] {
      RunKeepsValid(Step(s, calls[0]).state, calls[1..]);
    }
  }

  lemma {:induction false} RunKeepsSound(s: S.State, calls: seq<Call>)
    requires S.Sound(s)
    ensures S.Sound(Run(s, calls))
    decreases |calls|
  {
    if calls != [] {
      RunKeepsSound(Step(s, calls[0]).state, calls[1..]);
    }
  }

  lemma {:induction false} RunOnlySavesNamedBlocks(s: S.State, calls: seq<Call>)
    ensures Run(s, calls).blocks.Keys <= s.blocks.Keys + SavedNames(calls)
    decreases |calls|
  {
    if calls != [] {
      var next := Step(s, calls[0]).state;
      RunOnlySavesNamedBlocks(next, calls[1..]);
    }
  }

  /**
   * From a freshly built monitor whose initial table is consistent, every
   * session ends in a valid, sound state whose table holds only initial
   * and saved names.
   */
  lemma FreshSession(blocks: map<string, S.Block>, hasLogger: bool, calls: seq<Call>)
    requires forall name :: name in blocks ==> S.ConsistentBlock(blocks[name])
    ensures var r := Run(S.Initial(blocks, hasLogger), calls);
      && S.Valid(r)
      && S.Sound(r)
      && r.blocks.Keys <= blocks.Keys + SavedNames(calls)
  {
    var s := S.Initial(blocks, hasLogger);
    RunKeepsValid(s, calls);
    RunKeepsSound(s, calls);
    RunOnlySavesNamedBlocks(s, calls);
  }
}
