/** get_task_slice: find the argument in the last bytes of a process's argument area. */
module KernelParser {
  import opened U64
  import opened Decimal
  import opened Slices

  const MAX_CMDLINE_LEN := 64

  /** The part of the argument area the parser looks at: at most 64 bytes, the last one overwritten by NUL. */
  function Window(args: seq<byte>): seq<byte>
    requires args != []
  {
    args[Max(0, |args| - MAX_CMDLINE_LEN)..|args| - 1]
  }

  /** The slice for the first run of digits in a window. */
  function SliceOfRun(run: seq<byte>): u64
    requires Digits(run)
  {
    if run == [] then SCX_SLICE_DFL else KernelSlice(Value(run) % TWO64)
  }

  function AssignedSlice(args: seq<byte>): u64 {
    if args == [] then SCX_SLICE_DFL else SliceOfRun(FirstRun(Window(args)))
  }

  /** One more digit on the accumulator, modulo 2^64. */
  lemma AccumulateDigit(seen: seq<byte>, d: byte)
    requires Digits(seen) && IsDigit(d)
    ensures Digits(seen + [d])
    ensures Value(seen + [d]) % TWO64 == Add(((Value(seen) % TWO64) * 10) % TWO64, d - ZERO)
  {
    assert (seen + [d])[..|seen|] == seen;
    var v := Value(seen);
    var q, r := v / TWO64, v % TWO64;
    WrapShift(r * 10 + (d - ZERO), q * 10);
    assert v * 10 + (d - ZERO) == r * 10 + (d - ZERO) + q * 10 * TWO64;
    var q', r' := (r * 10) / TWO64, (r * 10) % TWO64;
    WrapShift(r' + (d - ZERO), q');
  }

  /** The scan stands at `i`, with `seen` the part in front of it of the first run of digits. */
  ghost predicate Scanned(w: seq<byte>, i: nat, seen: seq<byte>)
    requires i <= |w|
  {
    FirstRun(w) == if seen != [] then seen + DigitRun(w[i..]) else FirstRun(w[i..])
  }

  lemma ScanDigit(w: seq<byte>, i: nat, seen: seq<byte>)
    requires i < |w| && Scanned(w, i, seen) && IsDigit(w[i])
    ensures Scanned(w, i + 1, seen + [w[i]])
  {
    assert w[i..][0] == w[i] && w[i..][1..] == w[i + 1..];
    assert seen + ([w[i]] + DigitRun(w[i + 1..])) == (seen + [w[i]]) + DigitRun(w[i + 1..]);
  }

  lemma ScanOther(w: seq<byte>, i: nat, seen: seq<byte>)
    requires i < |w| && Scanned(w, i, seen) && !IsDigit(w[i])
    ensures if seen != [] then FirstRun(w) == seen else Scanned(w, i + 1, seen)
  {
    assert w[i..][0] == w[i] && w[i..][1..] == w[i + 1..];
  }

  lemma ScanEnd(w: seq<byte>, seen: seq<byte>)
    requires Scanned(w, |w|, seen)
    ensures FirstRun(w) == seen
  {
    assert w[|w|..] == [];
  }

  /** The byte loop over the first totalLen - 1 bytes of the buffer, blanking NULs as it goes. */
  method ScanWindow(cmdline: array<byte>, totalLen: nat) returns (foundDigit: bool, fibArg: u64)
    requires cmdline.Length == MAX_CMDLINE_LEN && 1 <= totalLen <= MAX_CMDLINE_LEN
    modifies cmdline
    ensures var run := FirstRun(old(cmdline[..totalLen - 1]));
      (foundDigit <==> run != []) && fibArg == Value(run) % TWO64
  {
    ghost var w := cmdline[..totalLen - 1];
    ghost var seen: seq<byte> := [];
    ghost var done := false;
    assert w[0..] == w;
    fibArg := 0;
    foundDigit := false;
    var i := 0;
    while i < MAX_CMDLINE_LEN - 1
      invariant 0 <= i <= |w| == totalLen - 1
      invariant forall j | i <= j < |w| :: cmdline[j] == w[j]
      invariant Digits(seen) && fibArg == Value(seen) % TWO64 && (foundDigit <==> seen != [])
      invariant Scanned(w, i, seen) && !done
    {
      var c := cmdline[i];
      if i >= totalLen - 1 {
        break;
      }
      if IsDigit(c) {
        ScanDigit(w, i, seen);
      } else {
        ScanOther(w, i, seen);
        done := foundDigit;
      }
      if c == NUL {
        cmdline[i] := SPACE;
        if foundDigit {
          break;
        }
      } else if IsDigit(c) {
        foundDigit := true;
        AccumulateDigit(seen, c);
        fibArg := Add((fibArg * 10) % TWO64, c - ZERO);
        seen := seen + [c];
      } else if foundDigit {
        break;
      }
      i := i + 1;
    }
    if !done {
      ScanEnd(w, seen);
    }
  }

  /**
   `args` is the argument area and `beyond` what lies behind it in memory; the read always asks for 64 bytes
   and may be refused.
   */
  method GetTaskSlice(args: seq<byte>, beyond: seq<byte>, readable: bool) returns (slice: u64)
    requires readable ==> |args| + |beyond| >= MAX_CMDLINE_LEN
    ensures slice == if readable then AssignedSlice(args) else SCX_SLICE_DFL
  {
    var totalLen := |args|;
    if totalLen <= 0 {
      return SCX_SLICE_DFL;
    }
    var readStart := 0;
    if totalLen > MAX_CMDLINE_LEN {
      readStart := totalLen - MAX_CMDLINE_LEN;
      totalLen := MAX_CMDLINE_LEN;
    }
    if !readable {
      return SCX_SLICE_DFL;
    }
    var memory := args + beyond;
    var cmdline := new byte[MAX_CMDLINE_LEN](i requires 0 <= i < MAX_CMDLINE_LEN => memory[readStart + i]);
    cmdline[totalLen - 1] := NUL;
    assert cmdline[..totalLen - 1] == Window(args);
    var foundDigit, fibArg := ScanWindow(cmdline, totalLen);
    if !foundDigit {
      return SCX_SLICE_DFL;
    }
    slice := SCX_SLICE_DFL;
    if fibArg >= FIB_ARG_MIN && fibArg <= FIB_ARG_MAX {
      slice := KERNEL_TABLE[fibArg - FIB_ARG_MIN];
      if slice == 0 {
        slice := SCX_SLICE_DFL;
      } else if slice == 1 {
        slice := SCX_SLICE_INF;
      }
    }
  }

  lemma PrintFitsWindow(n: u64)
    ensures |Print(n)| <= 20
  {
    assert Pow10(4) == 10_000;
    assert Pow10(8) == 10_000 * Pow10(4);
    assert Pow10(12) == 10_000 * Pow10(8);
    assert Pow10(16) == 10_000 * Pow10(12);
    assert Pow10(20) == 10_000 * Pow10(16);
    PrintLength(n, 20);
  }

  /** What of the path the window still shows in front of the printed argument and its NUL. */
  function Visible(path: seq<byte>, n: u64): seq<byte> {
    path[Max(0, |path| - Max(0, MAX_CMDLINE_LEN - 1 - |Print(n)|))..]
  }

  lemma WindowOfCommand(path: seq<byte>, n: u64)
    ensures |Print(n)| <= 20
    ensures Window(path + Print(n) + [NUL]) == Visible(path, n) + Print(n)
  {
    PrintFitsWindow(n);
  }

  lemma RunOfPrint(n: u64)
    ensures FirstRun(Print(n)) == Print(n)
  {
    PrintRoundTrip(n);
    RunOfDigits(Print(n));
    assert IsDigit(Print(n)[0]);
  }

  lemma SliceOfNumber(run: seq<byte>, n: u64)
    requires Digits(run) && run != [] && Value(run) == n
    ensures SliceOfRun(run) == KernelSlice(n)
  {
    assert Value(run) % TWO64 == n;
  }

  lemma SliceOfPrint(n: u64)
    ensures Digits(Print(n)) && SliceOfRun(Print(n)) == KernelSlice(n)
  {
    PrintRoundTrip(n);
    SliceOfNumber(Print(n), n);
  }

  lemma VisibleDigitFree(path: seq<byte>, n: u64)
    requires DigitFree(path)
    ensures DigitFree(Visible(path, n))
  {}

  /** The parser undoes printing: behind a digit-free path of any length, truncated or not, it recovers n. */
  lemma ParserUndoesPrint(path: seq<byte>, n: u64)
    requires DigitFree(path)
    ensures var args := path + Print(n) + [NUL];
      FirstRun(Window(args)) == Print(n) && AssignedSlice(args) == KernelSlice(n)
  {
    WindowOfCommand(path, n);
    VisibleDigitFree(path, n);
    var shown, printed := Visible(path, n), Print(n);
    FirstRunOfConcat(shown, printed);
    RunOfPrint(n);
    SliceOfPrint(n);
  }
}
