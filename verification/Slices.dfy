/** The two tables that map a Fibonacci argument to a slice, and the codes they hold. */
module Slices {
  import opened U64

  const FIB_ARG_MIN := 24
  const FIB_ARG_MAX := 46

  /** Kernel table, indexed by argument minus FIB_ARG_MIN. */
  const KERNEL_TABLE: seq<u64> := [1, 1, 1, 1, 1, 1, 1, 1, 1, 1, 1, 1, 0, 0, 0, 0, 0, 0, 0, 0, 0, 0, 0]

  /** Userspace table of (argument, runtime) pairs. */
  const USER_TABLE: seq<(int, u64)> := [
    (24, 1), (25, 1), (26, 1), (27, 1), (28, 1), (29, 1), (30, 1), (31, 1), (32, 1), (33, 1), (34, 1), (35, 1),
    (36, 0), (37, 0), (38, 0), (39, 0), (40, 0), (41, 0), (42, 0), (43, 0), (44, 0), (45, 0), (46, 0)]

  /** The kernel-assigned variant's table lookup and its switch. */
  function KernelSlice(arg: u64): u64 {
    if FIB_ARG_MIN <= arg <= FIB_ARG_MAX then
      var v := KERNEL_TABLE[arg - FIB_ARG_MIN];
      if v == 0 then SCX_SLICE_DFL else if v == 1 then SCX_SLICE_INF else v
    else SCX_SLICE_DFL
  }

  /** get_slice_for_fib_arg: the code userspace sends. */
  function UserCode(arg: int): u64 {
    if arg < FIB_ARG_MIN || arg > FIB_ARG_MAX then 0 else USER_TABLE[arg - FIB_ARG_MIN].1
  }

  /** How the kernel reads the code in a reply. */
  function Decode(code: u64): u64 {
    if code <= 1 then (if code == 0 then SCX_SLICE_DFL else SCX_SLICE_INF) else code
  }

  /** Arguments that run to exhaustion. */
  predicate Short(arg: int) {
    24 <= arg <= 35
  }

  /** Direct indexing is sound, and both variants give short functions the infinite slice and all others the default. */
  lemma TablesAgree(arg: u64)
    ensures FIB_ARG_MIN <= arg <= FIB_ARG_MAX ==> USER_TABLE[arg - FIB_ARG_MIN].0 == arg
    ensures KernelSlice(arg) == Decode(UserCode(arg)) == if Short(arg) then SCX_SLICE_INF else SCX_SLICE_DFL
  {}
}
