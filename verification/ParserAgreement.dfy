/** When the kernel's parser and the daemon's parser give a process the same slice. */
module ParserAgreement {
  import opened U64
  import opened Decimal
  import opened Slices
  import opened KernelParser
  import opened UserParser

  const INT_MAX := 0x7fff_ffff

  /** A command line: a path, NUL, the printed argument, NUL. */
  function Command(path: seq<byte>, n: nat): seq<byte> {
    path + [NUL] + Print(n) + [NUL]
  }

  lemma {:induction false} NoNulString(s: seq<byte>)
    requires NUL !in s
    ensures CString(s) == s
    decreases |s|
  {
    if s != [] {
      NoNulString(s[1..]);
      assert s == [s[0]] + s[1..];
    }
  }

  lemma LastIndexBehind(a: seq<byte>, d: seq<byte>)
    requires Digits(d)
    ensures LastIndex(a + [SPACE] + d, SPACE) == |a|
  {
    var front := a + [SPACE];
    var s := front + d;
    assert s[|a|] == SPACE;
    forall k | |front| <= k < |s| ensures s[k] != SPACE {
      var j := k - |front|;
      assert s[k] == d[j] && IsDigit(d[j]);
    }
  }

  lemma AtoiUndoesPrint(n: nat)
    ensures Atoi(Print(n)) == n
  {
    PrintRoundTrip(n);
    RunOfDigits(Print(n));
    assert IsDigit(Print(n)[0]);
  }

  lemma TextOfCommand(path: seq<byte>, n: nat)
    requires |Command(path, n)| < CMDLINE_BUF
    ensures Text(Command(path, n)) == Blanked(path) + [SPACE] + Print(n)
  {
    PrintRoundTrip(n);
    var file := Command(path, n);
    var front := path + [NUL] + Print(n);
    assert Delivered(file, CMDLINE_BUF) == file;
    assert file[..|file| - 1] == front;
    assert Blanked(front) == Blanked(path) + [SPACE] + Print(n);
    StringEnds(Blanked(front), [NUL]);
    NoNulString(Blanked(front));
  }

  /** The daemon's parser recovers n behind any path at all. */
  lemma DaemonReadsArgument(path: seq<byte>, n: nat)
    requires |Command(path, n)| < CMDLINE_BUF && n <= INT_MAX
    ensures CodeFor(Readable(Command(path, n))) == UserCode(n)
  {
    TextOfCommand(path, n);
    PrintRoundTrip(n);
    LastIndexBehind(Blanked(path), Print(n));
    var text := Blanked(path) + [SPACE] + Print(n);
    assert text[|path| + 1..] == Print(n);
    AtoiUndoesPrint(n);
  }

  /** The two variants agree on every digit-free path. */
  lemma VariantsAgree(path: seq<byte>, n: nat)
    requires DigitFree(path) && |Command(path, n)| < CMDLINE_BUF && n <= INT_MAX
    ensures AssignedSlice(Command(path, n)) == Decode(CodeFor(Readable(Command(path, n))))
  {
    DaemonReadsArgument(path, n);
    ParserUndoesPrint(path + [NUL], n);
    TablesAgree(n);
  }

  /** The number the kernel takes for the argument: the first run of digits it can see, path included. */
  function KernelArgument(path: seq<byte>, n: u64): u64 {
    var shown := Visible(path + [NUL], n);
    if DigitFree(shown) then n else Value(FirstRun(shown)) % TWO64
  }

  lemma KernelTakesFirstNumber(path: seq<byte>, n: u64)
    ensures AssignedSlice(Command(path, n)) == KernelSlice(KernelArgument(path, n))
  {
    var shown := Visible(path + [NUL], n);
    WindowOfCommand(path + [NUL], n);
    FirstRunOfConcat(shown, Print(n));
    RunOfPrint(n);
    SliceOfPrint(n);
  }

  /**
   On any path the variants agree exactly when no digit of the path is in the kernel's window, or the number
   found there falls in the same class as the argument.
   */
  lemma VariantsAgreeIff(path: seq<byte>, n: nat)
    requires |Command(path, n)| < CMDLINE_BUF && n <= INT_MAX
    ensures AssignedSlice(Command(path, n)) == Decode(CodeFor(Readable(Command(path, n))))
       <==> || DigitFree(Visible(path + [NUL], n))
            || (Short(Value(FirstRun(Visible(path + [NUL], n))) % TWO64) <==> Short(n))
  {
    DaemonReadsArgument(path, n);
    KernelTakesFirstNumber(path, n);
    TablesAgree(n);
    TablesAgree(KernelArgument(path, n));
  }

  const VERSIONED: seq<byte> := [47, 118, 50, 47, 102] // "/v2/f"

  lemma VersionDigitFirst()
    ensures !DigitFree(VERSIONED + [NUL]) && FirstRun(VERSIONED + [NUL]) == [50]
  {
    var s := VERSIONED + [NUL];
    assert IsDigit(s[2]);
    assert s[1..] == [118, 50, 47, 102, 0] && s[1..][1..] == [50, 47, 102, 0] && s[1..][1..][1..] == [47, 102, 0];
    assert DigitRun(s[1..][1..][1..]) == [];
    assert FirstRun(s[1..][1..]) == [50];
    assert FirstRun(s[1..]) == [50];
  }

  /**
   A digit in the path is enough to part them: behind "/v2/f" every short argument gets the default slice in the
   kernel.
   */
  lemma PathDigitParts(n: nat)
    requires Short(n)
    ensures AssignedSlice(Command(VERSIONED, n)) == SCX_SLICE_DFL
    ensures Decode(CodeFor(Readable(Command(VERSIONED, n)))) == SCX_SLICE_INF
  {
    PrintLength(n, 2);
    VersionDigitFirst();
    assert Visible(VERSIONED + [NUL], n) == VERSIONED + [NUL];
    assert [50][..0] == [];
    assert KernelArgument(VERSIONED, n) == 2;
    KernelTakesFirstNumber(VERSIONED, n);
    DaemonReadsArgument(VERSIONED, n);
    TablesAgree(n);
    TablesAgree(2);
  }
}
