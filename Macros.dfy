/**
 * The error-handling and utility macros shared by the application
 * (macros_common.h).  A macro expansion is modelled by the control-flow
 * effect it has on the code around it: fall through, return a code from
 * the enclosing function, or halt the device (`k_oops`).
 */
module Macros {

  /** What an expanded macro does to the enclosing function. */
  datatype Flow = FallThrough | Oops | ReturnCode(code: int)

  /** A log line the macros emit before halting or returning. */
  datatype LogLine = Message(text: string) | OopsReport(code: int)

  datatype Effect = Effect(log: seq<LogLine>, flow: Flow)

  const NoEffect: Effect := Effect([], FallThrough)

  /** `ERR_CHK(err_code)`: a non-zero code reports the code and halts; zero has no effect. */
  function ErrChk(code: int): (e: Effect)
    ensures e.flow == Oops <==> code != 0
    ensures code == 0 ==> e == NoEffect
    ensures code != 0 ==> e.log == [OopsReport(code)]
  {
    if code != 0 then Effect([OopsReport(code)], Oops) else NoEffect
  }

  /** `ERR_CHK_MSG(err_code, msg)`: like ERR_CHK, with `msg` logged before the halt. */
  function ErrChkMsg(code: int, msg: string): (e: Effect)
    ensures e.flow == ErrChk(code).flow
    ensures code != 0 ==> e.log == [Message(msg)] + ErrChk(code).log
    ensures code == 0 ==> e == NoEffect
  {
    if code != 0 then Effect([Message(msg), OopsReport(code)], Oops) else NoEffect
  }

  /**
   * `ERR_ASSERT(assert_val)` on a C truth value: it halts exactly when
   * ERR_CHK of the same value would not.
   */
  function ErrAssert(val: int): (e: Effect)
    ensures e.flow == Oops <==> ErrChk(val).flow != Oops
    ensures val != 0 ==> e == NoEffect
  {
    if val == 0 then Effect([OopsReport(val)], Oops) else NoEffect
  }

  /** `ERR_ASSERT_MSG(assert_val, msg)`: ERR_ASSERT with `msg` logged before the halt. */
  function ErrAssertMsg(val: int, msg: string): (e: Effect)
    ensures e.flow == ErrAssert(val).flow
    ensures val == 0 ==> e.log == [Message(msg)] + ErrAssert(val).log
    ensures val != 0 ==> e == NoEffect
  {
    if val == 0 then Effect([Message(msg), OopsReport(val)], Oops) else NoEffect
  }

  /** `RET_IF_ERR(err_code)`: a non-zero code is returned unchanged; zero falls through. */
  function RetIfErr(code: int): (e: Effect)
    ensures e.flow == FallThrough <==> code == 0
    ensures e.flow != FallThrough ==> e.flow == ReturnCode(code)
    ensures e.log == []
  {
    if code != 0 then Effect([], ReturnCode(code)) else NoEffect
  }

  /** `RET_IF_ERR_MSG(err_code, msg)`: RET_IF_ERR with `msg` logged before the return. */
  function RetIfErrMsg(code: int, msg: string): (e: Effect)
    ensures e.flow == RetIfErr(code).flow
    ensures e.log == if code != 0 then [Message(msg)] else []
  {
    if code != 0 then Effect([Message(msg)], ReturnCode(code)) else NoEffect
  }

  /**
   * A function body that is a chain of calls, each followed by RET_IF_ERR,
   * and ends in `return 0`: the number of calls that are made when the
   * calls would return `codes`.
   */
  function CallsMade(codes: seq<int>): (n: nat)
    ensures n <= |codes|
    ensures forall i :: 0 <= i < n - 1 ==> codes[i] == 0
    ensures n == 0 <==> |codes| == 0
    ensures n < |codes| ==> codes[n - 1] != 0
    decreases |codes|
  {
    if |codes| == 0 then 0
    else if codes[0] != 0 then 1
    else 1 + CallsMade(codes[1..])
  }

  /** The value such a chain returns: the first non-zero code, or 0. */
  function ChainResult(codes: seq<int>): (r: int)
    ensures r == 0 <==> forall i :: 0 <= i < |codes| ==> codes[i] == 0
    ensures r != 0 ==> exists i :: 0 <= i < |codes| && codes[i] == r
                                 && (forall j :: 0 <= j < i ==> codes[j] == 0)
    decreases |codes|
  {
    if |codes| == 0 then 0
    else if codes[0] != 0 then codes[0]
    else ChainResult(codes[1..])
  }

  /** The chain's result is the code of the last call it made, or 0 when all calls succeed. */
  lemma {:induction false} ChainResultIsLastCall(codes: seq<int>)
    ensures var n := CallsMade(codes);
      ChainResult(codes) == if n > 0 && codes[n - 1] != 0 then codes[n - 1] else 0
    decreases |codes|
  {
    if |codes| > 0 && codes[0] == 0 {
      ChainResultIsLastCall(codes[1..]);
    }
  }

  /** `MIN(a, b)`. */
  function Min(a: int, b: int): (r: int)
    ensures r <= a && r <= b
    ensures r == a || r == b
  {
    if a < b then a else b
  }

  /** `BIT_SET(REG, BIT)`: the value REG holds afterwards. */
  function BitSet(reg: bv32, bits: bv32): (r: bv32)
    ensures r & bits == bits
    ensures r & !bits == reg & !bits
  {
    reg | bits
  }

  /** `BIT_CLEAR(REG, BIT)`: the value REG holds afterwards. */
  function BitClear(reg: bv32, bits: bv32): (r: bv32)
    ensures r & bits == 0
    ensures r & !bits == reg & !bits
  {
    reg & !bits
  }

  /**
   * The two postconditions above determine the result completely, so both
   * macros are idempotent and each undoes the other on the given bits.
   */
  lemma BitSetClearIdempotent(reg: bv32, bits: bv32)
    ensures BitSet(BitSet(reg, bits), bits) == BitSet(reg, bits)
    ensures BitClear(BitClear(reg, bits), bits) == BitClear(reg, bits)
  {
  }

  const U64_LIMIT: int := 0x1_0000_0000_0000_0000

  /**
   * The STACK_USAGE_PRINT test `k_uptime_get() - thread_ts > interval`:
   * the signed uptime minus the `uint64_t` timestamp is computed in 64-bit
   * unsigned arithmetic.
   */
  predicate StackReportDue(threadTs: nat, uptimeMs: int, intervalMs: nat)
  {
    (uptimeMs - threadTs) % U64_LIMIT > intervalMs
  }

  /**
   * The uptimes (in order) at which STACK_USAGE_PRINT reports, when it is
   * expanded at the given successive uptimes starting from `threadTs`.
   */
  function ReportTimes(threadTs: nat, uptimes: seq<nat>, intervalMs: nat): seq<nat>
    decreases |uptimes|
  {
    if |uptimes| == 0 then []
    else if StackReportDue(threadTs, uptimes[0], intervalMs)
    then [uptimes[0]] + ReportTimes(uptimes[0], uptimes[1..], intervalMs)
    else ReportTimes(threadTs, uptimes[1..], intervalMs)
  }

  predicate NonDecreasing(s: seq<nat>)
  {
    forall i, j :: 0 <= i < j < |s| ==> s[i] <= s[j]
  }

  /**
   * The rate limit: with a non-decreasing clock, every report comes from
   * the clock readings, and two successive reports are more than the
   * configured interval apart.
   */
  lemma {:induction false} ReportsAreSpaced(threadTs: nat, uptimes: seq<nat>, intervalMs: nat)
    requires NonDecreasing(uptimes)
    requires forall i :: 0 <= i < |uptimes| ==> threadTs <= uptimes[i] < U64_LIMIT
    ensures var r := ReportTimes(threadTs, uptimes, intervalMs);
      (forall k :: 0 <= k < |r| ==> r[k] in uptimes)
      && (|r| > 0 ==> r[0] - threadTs > intervalMs)
      && (forall k :: 0 <= k < |r| - 1 ==> r[k + 1] - r[k] > intervalMs)
    decreases |uptimes|
  {
    if |uptimes| > 0 {
      var rest := uptimes[1..];
      assert NonDecreasing(rest);
      if StackReportDue(threadTs, uptimes[0], intervalMs) {
        ReportsAreSpaced(uptimes[0], rest, intervalMs);
        assert (uptimes[0] - threadTs) % U64_LIMIT == uptimes[0] - threadTs;
      } else {
        ReportsAreSpaced(threadTs, rest, intervalMs);
      }
      var r := ReportTimes(threadTs, uptimes, intervalMs);
      forall k | 0 <= k < |r| ensures r[k] in uptimes {
        if StackReportDue(threadTs, uptimes[0], intervalMs) && k == 0 {
        } else {
          assert r[k] in rest;
        }
      }
    }
  }

  /**
   * The static `thread_ts` of one STACK_USAGE_PRINT expansion.  Without
   * CONFIG_INIT_STACKS and CONFIG_THREAD_ANALYZER the macro expands to
   * nothing, which `analyzerEnabled == false` stands for.
   */
  class StackUsageMonitor {
    const analyzerEnabled: bool
    const intervalMs: nat
    var threadTs: nat

    constructor (analyzerEnabled: bool, intervalMs: nat)
      ensures this.analyzerEnabled == analyzerEnabled && this.intervalMs == intervalMs
      ensures threadTs == 0
    {
      this.analyzerEnabled := analyzerEnabled;
      this.intervalMs := intervalMs;
      threadTs := 0;
    }

    /** One pass through the macro at uptime `uptimeMs`; `reported` says whether it logged. */
    method Print(uptimeMs: nat) returns (reported: bool)
      requires uptimeMs < U64_LIMIT
      modifies this
      ensures reported <==> analyzerEnabled && StackReportDue(old(threadTs), uptimeMs, intervalMs)
      ensures threadTs == if reported then uptimeMs else old(threadTs)
    {
      reported := false;
      if analyzerEnabled {
        if (uptimeMs - threadTs) % U64_LIMIT > intervalMs {
          threadTs := uptimeMs;
          reported := true;
        }
      }
    }
  }
}
