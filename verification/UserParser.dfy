/** The daemon's side: read /proc/<pid>/cmdline into a buffer, take what follows the last space, convert it. */
module UserParser {
  import opened U64
  import opened Decimal
  import opened Slices

  const CMDLINE_BUF := 512
  const INVALID := -1

  // ----- the C library

  /** The string a C function sees in a buffer: everything in front of the first NUL. */
  function CString(buf: seq<byte>): seq<byte> {
    if buf == [] || buf[0] == NUL then [] else [buf[0]] + CString(buf[1..])
  }

  /** strrchr: the index of the last c, or -1. */
  function LastIndex(s: seq<byte>, c: byte): (i: int)
    ensures -1 <= i < |s|
    ensures i >= 0 ==> s[i] == c
    ensures forall j | i < j < |s| :: s[j] != c
    decreases |s|
  {
    if s == [] then -1 else if s[|s| - 1] == c then |s| - 1 else LastIndex(s[..|s| - 1], c)
  }

  predicate IsBlank(b: byte) {
    b == SPACE || 9 <= b <= 13
  }

  function SkipBlanks(s: seq<byte>): seq<byte> {
    if s == [] || !IsBlank(s[0]) then s else SkipBlanks(s[1..])
  }

  /** atoi on a value that fits an int: blanks, one sign, digits. */
  function Atoi(s: seq<byte>): int {
    var t := SkipBlanks(s);
    if t == [] then 0
    else if t[0] == 45 then 0 - Value(DigitRun(t[1..]))
    else if t[0] == 43 then Value(DigitRun(t[1..]))
    else Value(DigitRun(t))
  }

  // ----- the daemon

  function Blanked(s: seq<byte>): seq<byte> {
    seq(|s|, i requires 0 <= i < |s| => if s[i] == NUL then SPACE else s[i])
  }

  /** What fread delivers into a buffer of `size` bytes. */
  function Delivered(file: seq<byte>, size: nat): seq<byte>
    requires size > 0
  {
    file[..Min(|file|, size - 1)]
  }

  /** The text that parsing sees: NULs turned to spaces, except in the last byte. */
  function Text(file: seq<byte>): seq<byte>
    requires file != []
  {
    var got := Delivered(file, CMDLINE_BUF);
    CString(Blanked(got[..|got| - 1]) + [got[|got| - 1]])
  }

  datatype File = Unreadable | Readable(bytes: seq<byte>)

  /** fread of one item per byte. */
  method Fread(buf: array<byte>, size: nat, file: seq<byte>) returns (len: nat)
    requires 0 < size + 1 <= buf.Length
    modifies buf
    ensures len <= size && buf[..len] == Delivered(file, size + 1)
  {
    len := Min(|file|, size);
    var k := 0;
    while k < len
      invariant 0 <= k <= len
      invariant forall j | 0 <= j < k :: buf[j] == file[j]
    {
      buf[k] := file[k];
      k := k + 1;
    }
  }

  lemma {:induction false} StringEnds(a: seq<byte>, b: seq<byte>)
    requires b != [] && b[0] == NUL
    ensures CString(a + b) == CString(a)
    decreases |a|
  {
    if a != [] {
      assert (a + b)[0] == a[0] && (a + b)[1..] == a[1..] + b;
      StringEnds(a[1..], b);
    } else {
      assert a + b == b;
    }
  }

  /** read_cmdline; the buffer is the caller's. */
  method ReadCmdline(file: File, buf: array<byte>) returns (err: int)
    requires buf.Length == CMDLINE_BUF
    modifies buf
    ensures err == if file.Unreadable? || file.bytes == [] then -1 else 0
    ensures err == 0 ==> CString(buf[..]) == Text(file.bytes)
  {
    if file.Unreadable? {
      return -1;
    }
    var len := Fread(buf, buf.Length - 1, file.bytes);
    ghost var got := buf[..len];
    if len == 0 {
      return -1;
    }
    var i := 0;
    while i < len - 1
      invariant 0 <= i <= len - 1
      invariant forall j | 0 <= j < i :: buf[j] == if got[j] == NUL then SPACE else got[j]
      invariant forall j | i <= j < len :: buf[j] == got[j]
    {
      if buf[i] == NUL {
        buf[i] := SPACE;
      }
      i := i + 1;
    }
    buf[len] := NUL;
    ghost var shown := Blanked(got[..len - 1]) + [got[len - 1]];
    assert buf[..len] == shown;
    StringEnds(shown, buf[len..]);
    assert shown + buf[len..] == buf[..];
    return 0;
  }

  /** parse_fib_arg_from_cmdline. */
  function ParseFibArg(text: seq<byte>): int {
    var lastSpace := LastIndex(text, SPACE);
    if lastSpace < 0 then INVALID
    else
      var arg := Atoi(text[lastSpace + 1..]);
      if arg <= 0 then INVALID else arg
  }

  /** The code local_enqueue_task stores for a process: 0 unless its argument could be read and parsed. */
  function CodeFor(file: File): u64 {
    if file.Unreadable? || file.bytes == [] then 0
    else
      var arg := ParseFibArg(Text(file.bytes));
      if arg < 0 then 0 else UserCode(arg)
  }
}
