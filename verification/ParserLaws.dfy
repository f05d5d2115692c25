/**
 The two argument parsers byte by byte: which bytes of a command line each of them sees, and what every command line,
 well formed or not, is worth.
 */
module ParserLaws {
  import opened U64
  import opened Decimal
  import opened Slices
  import opened KernelParser
  import opened UserParser

  /** Digits up to a byte that is none. */
  lemma {:induction false} RunEnds(d: seq<byte>, b: seq<byte>)
    requires Digits(d) && (b == [] || !IsDigit(b[0]))
    ensures DigitRun(d + b) == d
    decreases |d|
  {
    if d == [] {
      assert d + b == b;
    } else {
      assert (d + b)[0] == d[0] && (d + b)[1..] == d[1..] + b;
      RunEnds(d[1..], b);
    }
  }

  lemma FirstRunIs(a: seq<byte>, d: seq<byte>, b: seq<byte>)
    requires DigitFree(a) && Digits(d) && d != [] && (b == [] || !IsDigit(b[0]))
    ensures FirstRun(a + (d + b)) == d
  {
    FirstRunOfConcat(a, d + b);
    RunEnds(d, b);
    assert (d + b)[0] == d[0];
  }

  lemma {:induction false} NoRun(s: seq<byte>)
    requires DigitFree(s)
    ensures FirstRun(s) == []
    decreases |s|
  {
    if s != [] {
      NoRun(s[1..]);
    }
  }

  // ---------- the kernel's parser ----------

  /** Where the kernel's parser starts to look: it sees the last 64 bytes but the very last. */
  function Begin(args: seq<byte>): nat {
    if |args| > 64 then |args| - 64 else 0
  }

  /** Without a digit in sight the slice is the default. */
  lemma NoDigitGetsDefault(args: seq<byte>)
    requires forall i | Begin(args) <= i < |args| - 1 :: !IsDigit(args[i])
    ensures AssignedSlice(args) == SCX_SLICE_DFL
  {
    if args != [] {
      NoRun(Window(args));
    }
  }

  /** The first number in sight decides, modulo 2^64. */
  lemma FirstNumberDecides(args: seq<byte>, i: nat, j: nat)
    requires Begin(args) <= i < j < |args|
    requires forall k | Begin(args) <= k < i :: !IsDigit(args[k])
    requires forall k | i <= k < j :: IsDigit(args[k])
    requires j == |args| - 1 || !IsDigit(args[j])
    ensures AssignedSlice(args) == KernelSlice(Value(args[i..j]) % TWO64)
  {
    var b := Begin(args);
    FirstRunIs(args[b..i], args[i..j], args[j..|args| - 1]);
    assert Window(args) == args[b..i] + (args[i..j] + args[j..|args| - 1]);
  }

  /** The last byte, and whatever is in front of the last 64, do not count. */
  lemma OnlyWindowCounts(front: seq<byte>, shown: seq<byte>, last: byte, other: byte)
    requires |shown| == 63
    ensures AssignedSlice(front + shown + [last]) == AssignedSlice(shown + [other])
  {
    assert Window(front + shown + [last]) == shown == Window(shown + [other]);
  }

  // ---------- atoi ----------

  lemma {:induction false} BlanksSkipped(blanks: seq<byte>, s: seq<byte>)
    requires (forall i | 0 <= i < |blanks| :: IsBlank(blanks[i])) && (s == [] || !IsBlank(s[0]))
    ensures SkipBlanks(blanks + s) == s
    decreases |blanks|
  {
    if blanks == [] {
      assert blanks + s == s;
    } else {
      assert (blanks + s)[0] == blanks[0] && (blanks + s)[1..] == blanks[1..] + s;
      BlanksSkipped(blanks[1..], s);
    }
  }

  /** Blanks, then perhaps a sign, then digits, then anything that does not start with a digit. */
  lemma AtoiReads(blanks: seq<byte>, d: seq<byte>, b: seq<byte>)
    requires forall i | 0 <= i < |blanks| :: IsBlank(blanks[i])
    requires Digits(d) && d != [] && (b == [] || !IsDigit(b[0]))
    ensures Atoi(blanks + (d + b)) == Atoi(blanks + ([43] + (d + b))) == Value(d)
    ensures Atoi(blanks + ([45] + (d + b))) == 0 - Value(d)
  {
    RunEnds(d, b);
    assert (d + b)[0] == d[0];
    BlanksSkipped(blanks, d + b);
    BlanksSkipped(blanks, [43] + (d + b));
    BlanksSkipped(blanks, [45] + (d + b));
    assert ([43] + (d + b))[1..] == d + b == ([45] + (d + b))[1..];
  }

  /** What starts with neither a blank, a sign nor a digit converts to zero, and so does nothing at all. */
  lemma AtoiOfWord(s: seq<byte>)
    requires s == [] || !(IsBlank(s[0]) || IsDigit(s[0]) || s[0] == 43 || s[0] == 45)
    ensures Atoi(s) == 0
  {
  }

  // ---------- the daemon's parser ----------

  /** How many bytes of a file the daemon's parser sees: at most 511, without a NUL at their end. */
  function Seen(file: seq<byte>): nat {
    var n := if |file| < 511 then |file| else 511;
    if n > 0 && file[n - 1] == NUL then n - 1 else n
  }

  predicate Separates(b: byte) {
    b == NUL || b == SPACE
  }

  lemma {:induction false} CStringOf(s: seq<byte>, last: byte)
    requires NUL !in s
    ensures CString(s + [last]) == if last == NUL then s else s + [last]
    decreases |s|
  {
    if s != [] {
      assert (s + [last])[0] == s[0] && (s + [last])[1..] == s[1..] + [last];
      CStringOf(s[1..], last);
      assert s == [s[0]] + s[1..];
    } else {
      assert (s + [last])[1..] == [];
    }
  }

  /** The text is what is seen of the file, with spaces for NULs. */
  lemma TextIsSeen(file: seq<byte>)
    requires file != []
    ensures |Text(file)| == Seen(file) <= |file|
    ensures forall i | 0 <= i < Seen(file) :: Text(file)[i] == if file[i] == NUL then SPACE else file[i]
  {
    var got := Delivered(file, CMDLINE_BUF);
    CStringOf(Blanked(got[..|got| - 1]), got[|got| - 1]);
  }

  /** The last argument in sight, behind a separator at `i`, converts to a number from 24 to 35. */
  predicate EndsShort(file: seq<byte>, i: nat) {
    && i < Seen(file) <= |file|
    && Separates(file[i]) && (forall j | i < j < Seen(file) :: !Separates(file[j]))
    && 24 <= Atoi(file[i + 1..Seen(file)]) <= 35
  }

  lemma UserCodeOf(arg: int)
    ensures UserCode(arg) == if 24 <= arg <= 35 then 1 else 0
  {
    if FIB_ARG_MIN <= arg <= FIB_ARG_MAX {
      TablesAgree(arg);
    }
  }

  lemma ArgumentBySpace(text: seq<byte>, i: nat)
    requires i < |text| && text[i] == SPACE && forall j | i < j < |text| :: text[j] != SPACE
    ensures ParseFibArg(text) == if Atoi(text[i + 1..]) <= 0 then -1 else Atoi(text[i + 1..])
  {
    assert LastIndex(text, SPACE) == i;
  }

  lemma CodeBySeparator(file: seq<byte>, i: nat)
    requires file != [] && Seen(file) <= |file|
    requires i < Seen(file) && Separates(file[i]) && forall j | i < j < Seen(file) :: !Separates(file[j])
    ensures CodeFor(Readable(file)) == if 24 <= Atoi(file[i + 1..Seen(file)]) <= 35 then 1 else 0
  {
    hide Text, Seen, Atoi, ParseFibArg, UserCode;
    TextIsSeen(file);
    ArgumentBySpace(Text(file), i);
    assert Text(file)[i + 1..] == file[i + 1..Seen(file)];
    UserCodeOf(ParseFibArg(Text(file)));
  }

  lemma {:induction false} LastSeparator(file: seq<byte>, n: nat) returns (i: int)
    requires n <= |file|
    ensures -1 <= i < n && (i >= 0 ==> Separates(file[i])) && forall j | i < j < n :: !Separates(file[j])
  {
    i := n - 1;
    if n > 0 && !Separates(file[n - 1]) {
      i := LastSeparator(file, n - 1);
    }
  }

  /** No separator in sight, no slice. */
  lemma NoSeparatorGetsDefault(file: seq<byte>)
    requires file != [] && Seen(file) <= |file| && forall j | 0 <= j < Seen(file) :: !Separates(file[j])
    ensures CodeFor(Readable(file)) == 0
  {
    TextIsSeen(file);
  }

  /**
   For every file: the infinite slice if and only if the file can be read, is not empty, has a separator in sight and
   what follows the last one converts to 24 up to 35; the default slice otherwise.
   */
  lemma CodeIff(file: File)
    ensures Decode(CodeFor(file)) == SCX_SLICE_INF || Decode(CodeFor(file)) == SCX_SLICE_DFL
    ensures Decode(CodeFor(file)) == SCX_SLICE_INF <==>
            file.Readable? && file.bytes != [] && exists i: nat :: EndsShort(file.bytes, i)
  {
    if file.Readable? && file.bytes != [] {
      TextIsSeen(file.bytes);
      var i := LastSeparator(file.bytes, Seen(file.bytes));
      if i < 0 {
        NoSeparatorGetsDefault(file.bytes);
      } else {
        CodeBySeparator(file.bytes, i);
        assert EndsShort(file.bytes, i) <==> CodeFor(file) == 1;
        forall k: nat | EndsShort(file.bytes, k) ensures k == i {
          assert !(k < i) && !(i < k);
        }
      }
    }
  }

  /** A process that is gone, or shows no command line, gets the default slice. */
  lemma UnreadableGetsDefault(file: File)
    requires file.Unreadable? || file.bytes == []
    ensures Decode(CodeFor(file)) == SCX_SLICE_DFL
  {
  }

  /** A code above 1 is the slice itself. */
  lemma CodesDecode(code: u64)
    ensures Decode(0) == SCX_SLICE_DFL && Decode(1) == SCX_SLICE_INF && (code > 1 ==> Decode(code) == code)
  {
  }
}
