/** The kernel's 64-bit unsigned arithmetic, written out: every sum and difference wraps. */
module U64 {
  const TWO63: int := 0x8000_0000_0000_0000
  const TWO64: int := 0x1_0000_0000_0000_0000

  type u64 = x: int | 0 <= x < TWO64

  /** The default time slice of sched_ext (20 ms) and its "run until done" slice. */
  const SCX_SLICE_DFL: u64 := 20_000_000
  const SCX_SLICE_INF: u64 := TWO64 - 1

  /** Both schedulers let a task lag behind the clock by one default slice. */
  const LAG_LIMIT: u64 := SCX_SLICE_DFL

  function Add(a: u64, b: u64): u64 {
    (a + b) % TWO64
  }

  function Sub(a: u64, b: u64): u64 {
    (a - b) % TWO64
  }

  /** time_before: the wrapped difference, read as a signed word, is negative. */
  predicate TimeBefore(a: u64, b: u64) {
    Sub(a, b) >= TWO63
  }

  lemma WrapShift(x: int, k: int)
    ensures (x + k * TWO64) % TWO64 == x % TWO64
  {}

  function Max(a: int, b: int): int {
    if a < b then b else a
  }

  function Min(a: int, b: int): int {
    if a < b then a else b
  }
}
