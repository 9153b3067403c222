/**
 * A boolean debouncer (SongDetection/DebounceBoolean.swift): the reported
 * value follows the input only once the input has differed from it on
 * `checks` consecutive calls.
 */
module DebounceBoolean {

  /** What a debouncer remembers between calls: the reported value and the length of the current run of differing inputs. */
  datatype DebounceState = DebounceState(last: bool, count: int)

  /** The state after one call of `debounce(val)`. */
  function Next(checks: int, s: DebounceState, val: bool): (r: DebounceState)
    ensures val == s.last ==> r == DebounceState(val, 0)
    ensures val != s.last ==> (r.last == val <==> checks <= s.count + 1)
    ensures r.last != s.last ==> r.count == 0
    ensures 0 <= s.count ==> 0 <= r.count
  {
    if s.last == val then DebounceState(s.last, 0)
    else if checks <= s.count + 1 then DebounceState(val, 0)
    else DebounceState(s.last, s.count + 1)
  }

  /** The state after a sequence of calls, first input first. */
  function Run(checks: int, s: DebounceState, vals: seq<bool>): DebounceState
    decreases |vals|
  {
    if vals == [] then s else Run(checks, Next(checks, s, vals[0]), vals[1..])
  }

  /** With `checks >= 1` the pending count stays in `[0, checks)` from call to call. */
  lemma CountStaysBelowChecks(checks: int, s: DebounceState, val: bool)
    requires 1 <= checks && 0 <= s.count < checks
    ensures 0 <= Next(checks, s, val).count < checks
  {
  }

  /** With `checks <= 1` a differing input is taken at once. */
  lemma SmallChecksFollowAtOnce(checks: int, s: DebounceState, val: bool)
    requires checks <= 1 && 0 <= s.count
    ensures Next(checks, s, val) == DebounceState(val, 0)
  {
  }

  /** Once settled on `v`, further `v` inputs change nothing. */
  lemma {:induction false} SteadyRun(checks: int, v: bool, n: nat)
    ensures Run(checks, DebounceState(v, 0), seq(n, _ => v)) == DebounceState(v, 0)
  {
    if n > 0 {
      assert seq(n, _ => v)[1..] == seq(n - 1, _ => v);
      SteadyRun(checks, v, n - 1);
    }
  }

  /**
   * A run of `n` inputs all differing from the reported value flips it
   * exactly when the run, counted from the pending count, reaches `checks`.
   */
  lemma {:induction false} DifferingRun(checks: int, s: DebounceState, v: bool, n: nat)
    requires v != s.last && 0 <= s.count < checks
    ensures Run(checks, s, seq(n, _ => v)) ==
      if s.count + n < checks then DebounceState(s.last, s.count + n) else DebounceState(v, 0)
    decreases n
  {
    if n > 0 {
      assert seq(n, _ => v)[1..] == seq(n - 1, _ => v);
      if checks <= s.count + 1 {
        SteadyRun(checks, v, n - 1);
      } else {
        DifferingRun(checks, DebounceState(s.last, s.count + 1), v, n - 1);
      }
    }
  }

  /**
   * Fewer inputs than the calls still missing to reach `checks` can never
   * change the reported value, whatever they are: a matching input restarts
   * the run.
   */
  lemma {:induction false} ShortRunsNeverFlip(checks: int, s: DebounceState, vals: seq<bool>)
    requires 0 <= s.count && s.count + |vals| < checks
    ensures Run(checks, s, vals).last == s.last
    decreases |vals|
  {
    if vals != [] {
      ShortRunsNeverFlip(checks, Next(checks, s, vals[0]), vals[1..]);
    }
  }

  /** `DebounceBoolean`. */
  class DebounceBoolean {
    const checks: int
    var last: bool
    var count: int

    /** `init(checks:initial:)`; the initial value defaults to `false`. */
    constructor(checks: int, initial: bool := false)
      ensures this.checks == checks && last == initial && count == 0
    {
      this.checks := checks;
      last := initial;
      count := 0;
    }

    /** `lastValue`. */
    function LastValue(): bool
      reads this
    {
      last
    }

    function Snapshot(): DebounceState
      reads this
    {
      DebounceState(last, count)
    }

    /** `debounce(val)`: the returned value is the reported value after the call. */
    method Debounce(val: bool) returns (r: bool)
      modifies this
      ensures Snapshot() == Next(checks, old(Snapshot()), val)
      ensures r == LastValue()
    {
      if last == val {
        count := 0;
        return val;
      }
      count := count + 1;
      if checks <= count {
        last := val;
        count := 0;
        return val;
      }
      return last;
    }
  }

  /** A debouncer made without an initial value starts at `false` and keeps it on a `false` input. */
  method DefaultStartsFalse(checks: int) returns (initial: bool, r: bool)
    ensures !initial && !r
  {
    var d := new DebounceBoolean(checks);
    initial := d.LastValue();
    r := d.Debounce(false);
  }
}
