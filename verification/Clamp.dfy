/**
 The two spellings of the lag clamp: the guarded one that every enqueue path
 uses, and the unguarded one of the fallback path taken when the request queue
 is full.
 */
module Clamp {
  import opened U64

  /** Guarded: only compares when the clock is past LAG_LIMIT. */
  function Guarded(vtime: u64, clock: u64): u64 {
    if clock > LAG_LIMIT && TimeBefore(vtime, Sub(clock, LAG_LIMIT)) then Sub(clock, LAG_LIMIT) else vtime
  }

  /** Unguarded: `clock - SCX_SLICE_DFL` wraps while the clock is young. */
  function Unguarded(vtime: u64, clock: u64): u64 {
    if TimeBefore(vtime, Sub(clock, SCX_SLICE_DFL)) then Sub(clock, SCX_SLICE_DFL) else vtime
  }

  /** What the clamp is for: a task may not be more than LAG_LIMIT behind the clock. */
  function Lifted(vtime: nat, clock: nat): nat {
    Max(vtime, Max(0, clock - LAG_LIMIT))
  }

  /** How far `vtime` is from the floor `clock - LAG_LIMIT`, before any wrap-around. */
  function Margin(vtime: u64, clock: u64): int {
    vtime - (clock - LAG_LIMIT)
  }

  /** The guarded clamp is right exactly when the distance to the floor fits a signed 64-bit word. */
  lemma GuardedLiftsIff(vtime: u64, clock: u64)
    ensures Guarded(vtime, clock) == Lifted(vtime, clock)
       <==> clock <= LAG_LIMIT || -TWO63 <= Margin(vtime, clock) < TWO63
  {
    if clock > LAG_LIMIT {
      assert Sub(clock, LAG_LIMIT) == clock - LAG_LIMIT;
      var d := Margin(vtime, clock);
      assert Sub(vtime, clock - LAG_LIMIT) == if d < 0 then d + TWO64 else d;
    }
  }

  /** The spellings differ exactly on a young clock whose margin overflows a signed word. */
  lemma SpellingsAgreeIff(vtime: u64, clock: u64)
    ensures Guarded(vtime, clock) == Unguarded(vtime, clock)
       <==> clock > LAG_LIMIT || Margin(vtime, clock) < TWO63 || Margin(vtime, clock) >= TWO64
  {
    if clock <= LAG_LIMIT {
      var floor := Sub(clock, LAG_LIMIT);
      var d := Margin(vtime, clock);
      assert floor == if clock < LAG_LIMIT then clock - LAG_LIMIT + TWO64 else 0;
      assert Sub(vtime, floor) == if d >= TWO64 then d - TWO64 else d;
    }
  }

  /** In the working range both spellings are the integer clamp, floored at zero. */
  lemma ClampEquivalence(vtime: u64, clock: u64)
    requires vtime < TWO63 - SCX_SLICE_DFL && clock < TWO63 - SCX_SLICE_DFL
    ensures Guarded(vtime, clock) == Unguarded(vtime, clock) == Lifted(vtime, clock)
    ensures Lifted(vtime, clock) + LAG_LIMIT >= clock
  {
    GuardedLiftsIff(vtime, clock);
    SpellingsAgreeIff(vtime, clock);
  }

  /**
   The fallback's clamp comes right after enable has set the vtime to the clock: then both spellings leave it alone.
   */
  lemma FreshVtimeKept(clock: u64)
    ensures Guarded(clock, clock) == Unguarded(clock, clock) == clock
  {
    SpellingsAgreeIff(clock, clock);
  }

  /**
   If other CPUs move the clock between enable's store and the fallback, the spellings still agree on every word as
   long as the clock has not gone back by 2^63 less a slice; and if it has gone forward by less than 2^63, they are
   the integer clamp.
   */
  lemma MovedClockAgrees(enabled: u64, clock: u64)
    requires enabled - clock < TWO63 - LAG_LIMIT
    ensures Guarded(enabled, clock) == Unguarded(enabled, clock)
    ensures clock - enabled < TWO63 ==> Guarded(enabled, clock) == Lifted(enabled, clock)
  {
    SpellingsAgreeIff(enabled, clock);
    GuardedLiftsIff(enabled, clock);
  }
}
