/**
 * The guard counter of `execute` as written: `isExecuted` is an int32 and
 * `atomic.AddInt32` wraps around in two's complement. The guard lets a
 * call through whenever the bumped value is not above 1, so once the
 * counter has wrapped past the largest int32 the action runs again.
 * Process.Claim in module Finally uses an unbounded counter instead.
 */
module Int32Guard {

  const MinInt32 := -0x8000_0000
  const MaxInt32 := 0x7FFF_FFFF

  predicate IsInt32(v: int) {
    MinInt32 <= v <= MaxInt32
  }

  /** `atomic.AddInt32`: the sum, wrapped into the int32 range. */
  function AddInt32(v: int, delta: int): (r: int)
    requires IsInt32(v) && IsInt32(delta)
    ensures IsInt32(r)
    ensures (r - (v + delta)) % 0x1_0000_0000 == 0
    ensures IsInt32(v + delta) ==> r == v + delta
  {
    (v + delta - MinInt32) % 0x1_0000_0000 + MinInt32
  }

  /** The value of `isExecuted` after `calls` calls of `execute` on one context. */
  function CounterAfter(calls: nat): (v: int)
    ensures IsInt32(v)
  {
    if calls == 0 then 0 else AddInt32(CounterAfter(calls - 1), 1)
  }

  /** Whether call number `n` (counting from 1) passes the guard at finally.go:102 and runs the action. */
  predicate GuardPasses(n: nat)
    requires n >= 1
  {
    !(CounterAfter(n) > 1)
  }

  /** Up to the largest int32 the counter counts the calls exactly. */
  lemma {:induction false} CounterCountsCalls(n: nat)
    requires n <= MaxInt32
    ensures CounterAfter(n) == n
  {
    if n > 0 {
      CounterCountsCalls(n - 1);
    }
  }

  /** Among the first 2^31 - 1 calls, only the first passes the guard. */
  lemma OnlyFirstPassesBeforeWrap(n: nat)
    requires 1 <= n <= MaxInt32
    ensures GuardPasses(n) <==> n == 1
  {
    CounterCountsCalls(n);
  }

  /** Call number 2^31 wraps the counter to the smallest int32, and the action runs a second time. */
  lemma {:induction false} WrappedGuardPassesAgain(n: nat)
    requires n == MaxInt32 + 1
    ensures CounterAfter(n) == MinInt32
    ensures GuardPasses(1) && GuardPasses(n)
  {
    CounterCountsCalls(n - 1);
    CounterCountsCalls(1);
  }
}
