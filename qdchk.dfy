/**
 * The two text helpers of the Qt front end (trunk/src/gui/qdchk.cpp):
 * Error2String, the one-line description of an object's last error, and
 * HexDump, which writes the debugging dump of the library into a string,
 * each line followed by a newline.
 */
module QDchk {
  import opened Wrappers
  import opened LibC
  import opened CppList
  import opened Compat

  // ---------------------------------------------------------------------
  // Error2String

  /** The text Error2String writes: "ERROR: <code>, <text>", then " [<detail>]" when there is a detail. */
  function ErrorMessage(code: int, text: string, additional: Option<string>): string
  {
    "ERROR: " + IntToString(code) + ", " + text + (if additional.Some? then " [" + additional.value + "]" else "")
  }

  /**
   * Error2String: the code and the table text of the object's last error,
   * then its detail text in brackets when it has one.
   */
  method Error2String(error: CError) returns (target: string)
    ensures target == ErrorMessage(error.code, error.GetErrorText(), error.errorText)
  {
    target := FormatError(error.GetErrorCode(), error.GetErrorText(), error.GetAdditionalErrorText());
  }

  /** The steps of Error2String: the sprintf of code and text, then " [", the detail and "]" appended one by one. */
  method FormatError(code: int, text: string, a: Option<string>) returns (target: string)
    ensures target == ErrorMessage(code, text, a)
  {
    target := "ERROR: " + IntToString(code) + ", " + text;
    if a.Some? {
      target := target + " [";
      target := target + a.value;
      target := target + "]";
    }
  }

  /** The code reads back from the message: atoi of the text after "ERROR: " is the code. */
  lemma {:induction false} ErrorMessageCode(code: int, text: string, additional: Option<string>)
    ensures var m := ErrorMessage(code, text, additional);
      |m| > 7 && m[..7] == "ERROR: " && Atoi(m[7..]) == code
  {
    var m := ErrorMessage(code, text, additional);
    var digits := IntToString(code);
    var rest := ", " + text + (if additional.Some? then " [" + additional.value + "]" else "");
    assert m == "ERROR: " + (digits + rest);
    assert m[7..] == digits + rest;
    AtoiOfIntToString(code, rest);
  }

  /**
   * The message ends with the detail in brackets when there is one, and
   * with the error text otherwise.
   */
  lemma {:induction false} ErrorMessageDetail(code: int, text: string, additional: Option<string>)
    ensures var m := ErrorMessage(code, text, additional);
      (additional.Some? ==> |m| >= |additional.value| + 3 && m[|m| - |additional.value| - 3..] == " [" + additional.value + "]") &&
      (additional.None? ==> |m| >= |text| && m[|m| - |text|..] == text)
  {
    var head := "ERROR: " + IntToString(code) + ", ";
    if additional.Some? {
      var tail := " [" + additional.value + "]";
      assert ErrorMessage(code, text, additional) == (head + text) + tail;
    } else {
      assert ErrorMessage(code, text, additional) == head + text;
    }
  }

  // ---------------------------------------------------------------------
  // HexDump

  /** The lines of a dump, each followed by a newline. */
  function Joined(lines: seq<string>): (r: string)
    ensures lines == [] ==> r == ""
  {
    if lines == [] then "" else Joined(lines[..|lines| - 1]) + lines[|lines| - 1] + "\n"
  }

  /** The newlines in s. */
  function Newlines(s: string): nat
  {
    if s == [] then 0 else Newlines(s[..|s| - 1]) + (if s[|s| - 1] == '\n' then 1 else 0)
  }

  /**
   * HexDump (the Qt version): clears the target, then appends the lines of
   * the library's dump, each ended by a newline, flushing a line when a
   * 17th octet arrives and the last, partial line after the loop.
   */
  method HexDump(data: seq<byte>) returns (target: string)
    requires |data| < 0x8000_0000
    ensures target == Joined(HexDumpText(data))
  {
    target := "";
    ghost var lines: seq<string> := [];
    var start := 0;
    var buff, cleartext := StartLine(data, 0);
    var column := 0;
    var i := 0;
    while i < |data|
      invariant i <= |data| && Dumping(data, lines, start, column, i, buff, cleartext)
      invariant target == Joined(lines)
    {
      target, lines, start, column, buff, cleartext := DumpOctet(data, target, lines, start, column, i, buff, cleartext);
      i := i + 1;
    }
    LineCount(|data|, |lines|, column);
    if column > 0 {
      target, lines := AppendLine(data, target, lines, i, buff, cleartext);
    }
    DumpLines(data, lines);
  }

  /** One turn of the loop of HexDump: flush a full line into the target, then add octet i. */
  method DumpOctet(data: seq<byte>, target: string, ghost lines: seq<string>, start: nat, column: nat, i: nat, buff: string, cleartext: string)
      returns (target': string, ghost lines': seq<string>, start': nat, column': nat, buff': string, cleartext': string)
    requires i < |data| < 0x8000_0000 && Dumping(data, lines, start, column, i, buff, cleartext)
    requires target == Joined(lines)
    ensures Dumping(data, lines', start', column', i + 1, buff', cleartext') && target' == Joined(lines')
  {
    target', lines', start', column', buff', cleartext' := target, lines, start, column, buff, cleartext;
    if column > 15 {
      target', lines' := AppendLine(data, target, lines, i, buff, cleartext);
      start' := i;
      buff', cleartext' := StartLine(data, i);
      column' := 0;
    }
    buff', cleartext' := AddOctet(data, start', i, buff', cleartext');
    column' := column' + 1;
  }

  /**
   * Ends the line of block |lines|, whose octets run up to i: pads the hex
   * column to 60 characters, adds ": " and the clear text, and appends the
   * line and a newline to the target.
   */
  method AppendLine(data: seq<byte>, target: string, ghost lines: seq<string>, i: nat, buff: string, cleartext: string)
      returns (target': string, ghost lines': seq<string>)
    requires 16 * |lines| < i <= |data| < 0x8000_0000 && i <= 16 * |lines| + 16
    requires i == |data| || i == 16 * |lines| + 16
    requires buff == OffsetText(16 * |lines|) + HexBytes(data[16 * |lines|..i])
    requires cleartext == ClearText(data[16 * |lines|..i])
    requires Dumped(data, lines) && target == Joined(lines)
    ensures lines' == lines + [HexLine(data, |lines|)]
    ensures Dumped(data, lines') && target' == Joined(lines')
  {
    FlushedLine(data, |lines|, i, buff, cleartext);
    var line := Fit60(buff) + ClearSeparator + cleartext;
    target' := target + line;
    target' := target' + "\n";
    DumpedAppend(data, lines, line);
    lines' := lines + [line];
    assert lines'[..|lines'| - 1] == lines;
  }

  /** The next line of the dump extends the lines dumped so far. */
  lemma {:induction false} DumpedAppend(data: seq<byte>, lines: seq<string>, line: string)
    requires 16 * |lines| < |data| < 0x8000_0000 && Dumped(data, lines)
    requires line == HexLine(data, |lines|)
    ensures Dumped(data, lines + [line])
  {
    var lines' := lines + [line];
    forall j | 0 <= j < |lines'|
      ensures 16 * j < |data| && lines'[j] == HexLine(data, j)
    {
      if j < |lines| {
        assert lines'[j] == lines[j];
      }
    }
  }

  /** Newlines add up over a concatenation. */
  lemma {:induction false} NewlinesAppend(a: string, b: string)
    ensures Newlines(a + b) == Newlines(a) + Newlines(b)
    decreases |b|
  {
    if b == [] {
      assert a + b == a;
    } else {
      assert (a + b)[..|a + b| - 1] == a + b[..|b| - 1];
      NewlinesAppend(a, b[..|b| - 1]);
    }
  }

  /** A string without '\n' has no newlines. */
  lemma {:induction false} NewlinesNone(s: string)
    requires '\n' !in s
    ensures Newlines(s) == 0
    decreases |s|
  {
    if s != [] {
      assert s[|s| - 1] in s;
      assert forall c :: c in s[..|s| - 1] ==> c in s;
      NewlinesNone(s[..|s| - 1]);
    }
  }

  /** Each line ended by a newline: as many newlines as lines when no line holds one. */
  lemma {:induction false} NewlinesJoined(lines: seq<string>)
    requires forall j :: 0 <= j < |lines| ==> '\n' !in lines[j]
    ensures Newlines(Joined(lines)) == |lines|
    decreases |lines|
  {
    if lines != [] {
      var last := lines[|lines| - 1];
      NewlinesJoined(lines[..|lines| - 1]);
      NewlinesNone(last);
      NewlinesAppend(Joined(lines[..|lines| - 1]), last);
      NewlinesAppend(Joined(lines[..|lines| - 1]) + last, "\n");
      assert Newlines("\n") == 1 by {
        assert "\n"[..0] == "";
      }
    }
  }

  /** The hex column of a chunk holds only hex digits and blanks. */
  lemma {:induction false} HexBytesPlain(chunk: seq<byte>)
    ensures '\n' !in HexBytes(chunk)
    decreases |chunk|
  {
    if chunk != [] {
      HexBytesPlain(chunk[..|chunk| - 1]);
      var h := Hex2(chunk[|chunk| - 1]);
      assert '\n' !in h by {
        assert h == [h[0], h[1]];
      }
    }
  }

  /** A line of the dump holds no newline: offset, hex digits, blanks, ": " and clear text. */
  lemma {:induction false} HexLinePlain(data: seq<byte>, j: nat)
    requires 16 * j < |data| < 0x8000_0000
    ensures '\n' !in HexLine(data, j)
  {
    var c := Chunk(data, j);
    var offset := Hex8(16 * j);
    assert '\n' !in offset by {
      var n := 16 * j;
      var parts := [Hex2((n / 0x100_0000) as byte), Hex2((n / 0x1_0000 % 256) as byte),
                    Hex2((n / 0x100 % 256) as byte), Hex2((n % 256) as byte)];
      forall k | 0 <= k < 4
        ensures '\n' !in parts[k]
      {
        assert parts[k] == [parts[k][0], parts[k][1]];
      }
    }
    HexBytesPlain(c);
    var head := OffsetText(16 * j) + HexBytes(c);
    assert '\n' !in head;
    var padded := head + Spaces(63);
    assert '\n' !in padded;
    assert '\n' !in Fit60(head) by {
      assert Fit60(head) == padded[..60];
      assert forall x :: x in padded[..60] ==> x in padded;
    }
    assert '\n' !in ClearText(c) by {
      forall k | 0 <= k < |c|
        ensures ClearText(c)[k] != '\n'
      {
      }
    }
  }

  /**
   * The Qt dump has one newline per started block of 16 octets, so 0
   * octets give the empty string.
   */
  lemma {:induction false} HexDumpNewlines(data: seq<byte>)
    requires |data| < 0x8000_0000
    ensures Newlines(Joined(HexDumpText(data))) == (|data| + 15) / 16
    ensures data == [] <==> Joined(HexDumpText(data)) == ""
  {
    var lines := HexDumpText(data);
    forall j | 0 <= j < |lines|
      ensures '\n' !in lines[j]
    {
      HexLinePlain(data, j);
    }
    NewlinesJoined(lines);
    HexDumpLineCount(data);
  }
}
