/**
 * Portability helpers of the library (src/lib/compat.c): the strndup
 * fallback, the debugging hex dump and the Winsock start-up, whose
 * non-Windows result is all that is modelled.
 */
module Compat {
  import opened Wrappers
  import opened LibC

  function Min(a: nat, b: nat): nat
  {
    if a < b then a else b
  }

  /**
   * strndup: NULL for NULL, otherwise a fresh copy of the first len
   * characters of str (all of it when it is shorter), terminated.
   */
  method Strndup(str: Option<string>, len: nat) returns (r: Option<string>)
    ensures str.None? <==> r.None?
    ensures str.Some? ==> |r.value| == Min(len, |str.value|) && r.value <= str.value
  {
    if str.None? {
      return None;
    }
    var s := str.value;
    var n := len;
    if |s| < n {
      n := |s|;
    }
    var buff := new char[n + 1];
    var i := 0;
    while i < n
      invariant 0 <= i <= n
      invariant buff[..i] == s[..i]
    {
      buff[i] := s[i];
      i := i + 1;
    }
    buff[n] := '\0';
    return Some(buff[..n]);
  }

  /** irislwz_InitWSA: without Winsock there is nothing to start, so it succeeds. */
  function InitWsa(): (r: int)
    ensures r == 1
  {
    1
  }

  // ---------------------------------------------------------------------
  // Hex dump

  function HexDigit(v: nat): (c: char)
    requires v < 16
    ensures ('0' <= c <= '9') || ('A' <= c <= 'F')
  {
    if v < 10 then ('0' as int + v) as char else ('A' as int + v - 10) as char
  }

  /** "%02X": two upper-case hex digits. */
  function Hex2(b: byte): (r: string)
    ensures |r| == 2
  {
    [HexDigit(b as nat / 16), HexDigit(b as nat % 16)]
  }

  /** "%08X" of a non-negative int below 2^32: its four octets, most significant first, in hex. */
  function Hex8(n: nat): (r: string)
    requires n < 0x1_0000_0000
    ensures |r| == 8
  {
    Hex2((n / 0x100_0000) as byte) + Hex2((n / 0x1_0000 % 256) as byte) +
    Hex2((n / 0x100 % 256) as byte) + Hex2((n % 256) as byte)
  }

  /** The value the hex digits stand for. */
  function HexValue(s: string): nat
  {
    if s == [] then 0 else HexValue(s[..|s| - 1]) * 16 + DigitOf(s[|s| - 1])
  }

  function DigitOf(c: char): nat
  {
    if '0' <= c <= '9' then c as nat - '0' as nat
    else if 'A' <= c <= 'F' then c as nat - 'A' as nat + 10
    else 0
  }

  /** Hex2 reads back as the octet. */
  lemma {:induction false} Hex2Value(b: byte)
    ensures HexValue(Hex2(b)) == b as nat
  {
    assert Hex2(b)[..1] == [HexDigit(b as nat / 16)];
    assert HexValue([HexDigit(b as nat / 16)]) == b as nat / 16 by {
      assert [HexDigit(b as nat / 16)][..0] == [];
    }
  }

  /** The clear-text column character: printable ASCII (32..127) as itself, anything else as '.'. */
  function ClearChar(b: byte): char
  {
    if 31 < b < 128 then CharOfByte(b) else '.'
  }

  /** The hex column of a line: each octet as two hex digits and a space. */
  function HexBytes(chunk: seq<byte>): (r: string)
    ensures |r| == 3 * |chunk|
  {
    if chunk == [] then [] else HexBytes(chunk[..|chunk| - 1]) + Hex2(chunk[|chunk| - 1]) + " "
  }

  /** The clear-text column of a line: one character per octet. */
  function ClearText(chunk: seq<byte>): (r: string)
  {
    seq(|chunk|, i requires 0 <= i < |chunk| => ClearChar(chunk[i]))
  }

  function Spaces(n: nat): (r: string)
    ensures |r| == n && forall i :: 0 <= i < n ==> r[i] == ' '
  {
    seq(n, _ => ' ')
  }

  /** The start of a line: "0x%08X: " with the offset of its first octet. */
  function OffsetText(at: nat): (r: string)
    requires at < 0x1_0000_0000
    ensures |r| == 12
  {
    "0x" + Hex8(at) + ": "
  }

  /** Padding with 63 blanks and cutting at column 60. */
  function Fit60(s: string): (r: string)
    ensures |r| == 60
    ensures |s| <= 60 ==> r == s + Spaces(60 - |s|)
    ensures |s| >= 60 ==> r == s[..60]
  {
    var padded := s + Spaces(63);
    assert |s| <= 60 ==> padded[..60] == s + Spaces(60 - |s|);
    padded[..60]
  }

  /** The octets line j of a dump shows: the 16 starting at 16 * j, fewer on the last line. */
  function Chunk(data: seq<byte>, j: nat): seq<byte>
    requires 16 * j < |data|
  {
    data[16 * j..Min(16 * j + 16, |data|)]
  }

  /** Line j of a dump of data. */
  /** What separates the hex column from the clear text. */
  const ClearSeparator := ": "

  function HexLine(data: seq<byte>, j: nat): string
    requires 16 * j < |data| < 0x8000_0000
  {
    Fit60(OffsetText(16 * j) + HexBytes(Chunk(data, j))) + ClearSeparator + ClearText(Chunk(data, j))
  }

  /** The lines irislwz_HexDump prints for data: one per started block of 16 octets. */
  function HexDumpText(data: seq<byte>): seq<string>
    requires |data| < 0x8000_0000
  {
    seq((|data| + 15) / 16, j requires 0 <= j < (|data| + 15) / 16 => HexLine(data, j))
  }

  /**
   * What a line of the dump says: it starts with the offset of its first
   * octet, shows each of its (at most 16) octets as two hex digits and a
   * blank, pads that to column 60, then ": " and one clear-text character
   * per octet.
   */
  lemma {:induction false} HexLineLayout(data: seq<byte>, j: nat)
    requires 16 * j < |data| < 0x8000_0000
    ensures var line := HexLine(data, j);
      var c := Chunk(data, j);
      1 <= |c| <= 16 && |line| == 62 + |c| &&
      line[..12] == OffsetText(16 * j) &&
      line[12..12 + 3 * |c|] == HexBytes(c) &&
      line[12 + 3 * |c|..60] == Spaces(48 - 3 * |c|) &&
      line[60..62] == ": " && line[62..] == ClearText(c)
  {
    var c := Chunk(data, j);
    var head := OffsetText(16 * j) + HexBytes(c);
    var line := HexLine(data, j);
    assert Fit60(head) == head + Spaces(60 - |head|);
    assert line[..60] == Fit60(head);
  }

  /** A dump has one line per started block of 16 octets, and none for no octets. */
  lemma {:induction false} HexDumpLineCount(data: seq<byte>)
    requires |data| < 0x8000_0000
    ensures |HexDumpText(data)| * 16 >= |data| > (|HexDumpText(data)| - 1) * 16
    ensures data == [] <==> HexDumpText(data) == []
  {
  }

  /** The hex column of a chunk grows by one octet at a time. */
  lemma {:induction false} HexBytesAppend(data: seq<byte>, from: nat, to: nat)
    requires from <= to < |data|
    ensures HexBytes(data[from..to + 1]) == HexBytes(data[from..to]) + Hex2(data[to]) + " "
    ensures ClearText(data[from..to + 1]) == ClearText(data[from..to]) + [ClearChar(data[to])]
  {
    assert data[from..to + 1][..to - from] == data[from..to];
  }

  /** The number of lines: the full blocks flushed, plus the last one when it holds any octet. */
  lemma {:induction false} LineCount(n: nat, full: nat, column: nat)
    requires n == 16 * full + column && column <= 16 && (n > 0 ==> column > 0)
    ensures (n + 15) / 16 == full + (if column > 0 then 1 else 0)
  {
  }

  /** The line for the block starting at 16 * j, from its hex column and clear text. */
  lemma {:induction false} FlushedLine(data: seq<byte>, j: nat, i: nat, buff: string, cleartext: string)
    requires 16 * j < i <= |data| < 0x8000_0000 && i <= 16 * j + 16
    requires i == |data| || i == 16 * j + 16
    requires buff == OffsetText(16 * j) + HexBytes(data[16 * j..i])
    requires cleartext == ClearText(data[16 * j..i])
    ensures Fit60(buff) + ClearSeparator + cleartext == HexLine(data, j)
  {
    assert Chunk(data, j) == data[16 * j..i];
  }

  /**
   * irislwz_HexDump: the lines it prints, built with a column counter that
   * flushes the current line when a 17th octet arrives, and the last,
   * partial line after the loop.
   */
  method HexDump(data: seq<byte>) returns (lines: seq<string>)
    requires |data| < 0x8000_0000
    ensures lines == HexDumpText(data)
  {
    lines := [];
    var start := 0;
    var buff, cleartext := StartLine(data, 0);
    var column := 0;
    var i := 0;
    while i < |data|
      invariant i <= |data| && Dumping(data, lines, start, column, i, buff, cleartext)
    {
      lines, start, column, buff, cleartext := NextOctet(data, lines, start, column, i, buff, cleartext);
      i := i + 1;
    }
    lines := LastLine(data, lines, start, buff, cleartext);
  }

  /**
   * The state of the dump after i octets: the lines of the full blocks
   * before start, and the hex column and clear text of the column octets
   * from start on.
   */
  ghost predicate Dumping(data: seq<byte>, lines: seq<string>, start: nat, column: nat, i: nat, buff: string, cleartext: string)
    requires |data| < 0x8000_0000
  {
    i <= |data| && start == 16 * |lines| && column <= 16 && i == start + column && (i > 0 ==> column > 0) &&
    buff == OffsetText(start) + HexBytes(data[start..i]) && cleartext == ClearText(data[start..i]) &&
    Dumped(data, lines)
  }

  /** One turn of the loop of irislwz_HexDump: flush a full line, then add octet i. */
  method NextOctet(data: seq<byte>, lines: seq<string>, start: nat, column: nat, i: nat, buff: string, cleartext: string)
      returns (lines': seq<string>, start': nat, column': nat, buff': string, cleartext': string)
    requires i < |data| < 0x8000_0000 && Dumping(data, lines, start, column, i, buff, cleartext)
    ensures Dumping(data, lines', start', column', i + 1, buff', cleartext')
    ensures lines' == if column > 15 then lines + [HexLine(data, |lines|)] else lines
  {
    lines', start', column', buff', cleartext' := lines, start, column, buff, cleartext;
    if column > 15 {
      lines' := FlushLine(data, lines, i, buff, cleartext);
      start' := i;
      buff', cleartext' := StartLine(data, i);
      column' := 0;
    }
    buff', cleartext' := AddOctet(data, start', i, buff', cleartext');
    column' := column' + 1;
  }

  /** Ends the line of block |lines|, whose octets run up to i. */
  method FlushLine(data: seq<byte>, lines: seq<string>, i: nat, buff: string, cleartext: string)
      returns (lines': seq<string>)
    requires 16 * |lines| < i <= |data| < 0x8000_0000 && i <= 16 * |lines| + 16
    requires i == |data| || i == 16 * |lines| + 16
    requires buff == OffsetText(16 * |lines|) + HexBytes(data[16 * |lines|..i])
    requires cleartext == ClearText(data[16 * |lines|..i])
    requires Dumped(data, lines)
    ensures lines' == lines + [HexLine(data, |lines|)]
    ensures Dumped(data, lines')
  {
    FlushedLine(data, |lines|, i, buff, cleartext);
    lines' := lines + [Fit60(buff) + ClearSeparator + cleartext];
    forall j | 0 <= j < |lines'|
      ensures 16 * j < |data| && lines'[j] == HexLine(data, j)
    {
      if j < |lines| {
        assert lines'[j] == lines[j];
      } else {
        assert lines'[j] == Fit60(buff) + ClearSeparator + cleartext;
      }
    }
  }

  /** Starts the line whose first octet is octet i: the offset, no octets yet. */
  method StartLine(data: seq<byte>, i: nat) returns (buff: string, cleartext: string)
    requires i <= |data| < 0x8000_0000
    ensures buff == OffsetText(i) + HexBytes(data[i..i])
    ensures cleartext == ClearText(data[i..i])
  {
    assert data[i..i] == [];
    buff := OffsetText(i);
    cleartext := "";
  }

  /** Adds octet i to the hex column and the clear text of the current line. */
  method AddOctet(data: seq<byte>, start: nat, i: nat, buff: string, cleartext: string)
      returns (buff': string, cleartext': string)
    requires start <= i < |data| && start < 0x1_0000_0000
    requires buff == OffsetText(start) + HexBytes(data[start..i])
    requires cleartext == ClearText(data[start..i])
    ensures buff' == OffsetText(start) + HexBytes(data[start..i + 1])
    ensures cleartext' == ClearText(data[start..i + 1])
  {
    HexBytesAppend(data, start, i);
    buff' := buff + Hex2(data[i]) + " ";
    cleartext' := cleartext + [ClearChar(data[i])];
  }

  /** After the last octet: flushes the partial line, if any, which completes the dump. */
  method LastLine(data: seq<byte>, lines: seq<string>, start: nat, buff: string, cleartext: string)
      returns (lines': seq<string>)
    requires |data| < 0x8000_0000 && start == 16 * |lines| <= |data| <= start + 16
    requires |data| > 0 ==> start < |data|
    requires buff == OffsetText(start) + HexBytes(data[start..|data|])
    requires cleartext == ClearText(data[start..|data|])
    requires Dumped(data, lines)
    ensures lines' == HexDumpText(data)
  {
    LineCount(|data|, |lines|, |data| - start);
    lines' := lines;
    if start < |data| {
      lines' := FlushLine(data, lines, |data|, buff, cleartext);
    }
    DumpLines(data, lines');
  }

  /** The first |lines| lines of the dump of data. */
  ghost predicate Dumped(data: seq<byte>, lines: seq<string>)
    requires |data| < 0x8000_0000
  {
    forall j :: 0 <= j < |lines| ==> 16 * j < |data| && lines[j] == HexLine(data, j)
  }

  lemma {:induction false} DumpLines(data: seq<byte>, lines: seq<string>)
    requires |data| < 0x8000_0000 && |lines| == (|data| + 15) / 16
    requires Dumped(data, lines)
    ensures lines == HexDumpText(data)
  {
  }
}
