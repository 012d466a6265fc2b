/**
 * The DNS message parser the client carries for systems without one
 * (src/lib/ns_parse.c, derived from BIND): a message is the 12-octet header
 * of section 4.1.1 of RFC 1035 followed by the question, answer, authority
 * and additional sections, and a parse handle keeps a cursor (current
 * section, record number and position) so that records can be read one
 * after another or by number.
 *
 * Positions are offsets into the message; a NULL pointer is None. The
 * resolver library's dn_skipname and dn_expand are foreign and are
 * parameters (NameOps) with a contract on the lengths they report.
 */
module NsParse {
  import opened Wrappers
  import opened LibC

  /** ns_s_qd, ns_s_an, ns_s_ns, ns_s_ar; ns_s_max is one past the last. */
  const Question := 0
  const Answer := 1
  const SectionMax := 4

  /** Id, flags and the four record counts, two octets each. */
  const HeaderSize := 12

  /** What the parser stores in errno before returning -1. */
  datatype Errno = EMsgSize | ENoDev

  /** dn_expand's result: the expanded name and the number of octets the (possibly compressed) name occupies. */
  datatype Expanded = Expanded(name: string, length: nat)

  /**
   * dn_skipname(msg + pos, eom): the length of the name at pos, or a
   * negative value; dn_expand(msg, eom, msg + pos, ...): the name at pos,
   * or None.
   */
  datatype NameOps = NameOps(skip: (seq<byte>, int) -> int, expand: (seq<byte>, int) -> Option<Expanded>)

  /**
   * The length contract of the two library calls: a skipped name lies
   * inside the message, and a name that can be expanded has the length
   * dn_skipname reports for it (expansion can still fail where skipping
   * does not, on a bad compression pointer).
   */
  ghost predicate NamesAgree(names: NameOps)
  {
    (forall m, p :: names.skip(m, p) >= 0 ==> 0 <= p && p + names.skip(m, p) <= |m|) &&
    (forall m, p :: names.expand(m, p).Some? ==> names.skip(m, p) == names.expand(m, p).value.length)
  }

  // ---------------------------------------------------------------- flags

  /** The mask of entry flag of _ns_flagdata, in the order of the ns_flag enumeration: qr, opcode, aa, tc, rd, ra, z, ad, cd, rcode, then six unused entries. */
  function FlagMask(flag: int): bv16
  {
    if flag == 0 then 0x8000 else if flag == 1 then 0x7800 else if flag == 2 then 0x0400
    else if flag == 3 then 0x0200 else if flag == 4 then 0x0100 else if flag == 5 then 0x0080
    else if flag == 6 then 0x0040 else if flag == 7 then 0x0020 else if flag == 8 then 0x0010
    else if flag == 9 then 0x000f else 0
  }

  /** The shift of entry flag of _ns_flagdata. */
  function FlagShift(flag: int): bv16
  {
    if flag == 0 then 15 else if flag == 1 then 11 else if 2 <= flag <= 8 then (12 - flag) as bv16 else 0
  }

  /** dchk_bind_ns_msg_getflag: the field of the header's flags word selected by flag. */
  function GetFlag(flags: bv16, flag: int): (v: bv16)
    requires 0 <= flag < 16
  {
    (flags & FlagMask(flag)) >> FlagShift(flag)
  }

  /** The ten fields partition the flags word: putting each back at its shift rebuilds the word. */
  lemma {:induction false} FlagFields(flags: bv16)
    ensures flags == (GetFlag(flags, 0) << 15) | (GetFlag(flags, 1) << 11) | (GetFlag(flags, 2) << 10)
      | (GetFlag(flags, 3) << 9) | (GetFlag(flags, 4) << 8) | (GetFlag(flags, 5) << 7) | (GetFlag(flags, 6) << 6)
      | (GetFlag(flags, 7) << 5) | (GetFlag(flags, 8) << 4) | GetFlag(flags, 9)
  {
  }

  // ------------------------------------------------------ skipping records

  /** The unsigned 32-bit big-endian field in four octets (NS_GET32). */
  function BE32(a: byte, b: byte, c: byte, d: byte): (v: nat)
    ensures v < 0x1_0000_0000
  {
    BE16(a, b) * 65536 + BE16(c, d)
  }

  /**
   * Where the record at pos ends, as one round of dchk_bind_ns_skiprr steps
   * over it: its name, type and class, and outside the question section its
   * TTL, RDLENGTH and RDLENGTH octets of data. None when the name cannot be
   * skipped or the TTL and RDLENGTH fields do not fit before the end.
   */
  function RecordEnd(skip: (seq<byte>, int) -> int, msg: seq<byte>, pos: nat, question: bool): (e: Option<nat>)
    ensures e.Some? ==> e.value >= pos + 4
  {
    var b := skip(msg, pos);
    if b < 0 then None
    else if question then Some(pos + b + 4)
    else if pos + b + 4 + 6 > |msg| then None
    else Some(pos + b + 10 + BE16(msg[pos + b + 8], msg[pos + b + 9]))
  }

  /** Where count records from pos end; only the first failure matters, as in the loop. */
  function SkipEnd(skip: (seq<byte>, int) -> int, msg: seq<byte>, pos: nat, question: bool, count: int): (e: Option<nat>)
    ensures e.Some? ==> e.value >= pos
    decreases count
  {
    if count <= 0 then Some(pos)
    else match RecordEnd(skip, msg, pos, question)
      case None => None
      case Some(p) => SkipEnd(skip, msg, p, question, count - 1)
  }

  /** dchk_bind_ns_skiprr's result: the octets the records occupy, or -1 when they cannot be skipped or pass the end of the message. */
  function Skipped(skip: (seq<byte>, int) -> int, msg: seq<byte>, pos: nat, question: bool, count: int): (r: int)
    ensures r >= -1
    ensures r >= 0 ==> pos + r <= |msg|
  {
    match SkipEnd(skip, msg, pos, question, count)
    case None => -1
    case Some(e) => if e > |msg| then -1 else e - pos
  }

  /** dchk_bind_ns_skiprr: steps over count records from ptr, checking the end of the message only where the loop does. */
  method SkipRr(skip: (seq<byte>, int) -> int, msg: seq<byte>, ptr: nat, question: bool, count: int) returns (r: int, errno: Option<Errno>)
    ensures r == Skipped(skip, msg, ptr, question, count)
    ensures r < 0 ==> errno == Some(EMsgSize)
    ensures r >= 0 ==> errno == None
  {
    var p: nat := ptr;
    var n := count;
    while n > 0
      invariant SkipEnd(skip, msg, ptr, question, count) == SkipEnd(skip, msg, p, question, n)
      invariant p >= ptr
      decreases n
    {
      var b := skip(msg, p);
      if b < 0 {
        return -1, Some(EMsgSize);
      }
      p := p + b + 4;
      if !question {
        if p + 6 > |msg| {
          return -1, Some(EMsgSize);
        }
        p := p + 4;
        var rdlength := BE16(msg[p], msg[p + 1]);
        p := p + 2 + rdlength;
      }
      n := n - 1;
    }
    if p > |msg| {
      return -1, Some(EMsgSize);
    }
    return p - ptr, None;
  }

  /** Skipping m + n records is skipping m records and then n more from where they end. */
  lemma {:induction false} SkipEndSplit(skip: (seq<byte>, int) -> int, msg: seq<byte>, pos: nat, question: bool, m: nat, n: nat)
    ensures SkipEnd(skip, msg, pos, question, m + n) ==
      match SkipEnd(skip, msg, pos, question, m)
      case None => None
      case Some(e) => SkipEnd(skip, msg, e, question, n)
    decreases m
  {
    if m > 0 {
      match RecordEnd(skip, msg, pos, question)
      case None =>
      case Some(p) =>
        SkipEndSplit(skip, msg, p, question, m - 1, n);
    }
  }

  /**
   * When count records can be skipped from pos, so can the first j of them,
   * and the rest skip from where those end to the same place.
   */
  lemma {:induction false} SkippedPrefix(skip: (seq<byte>, int) -> int, msg: seq<byte>, pos: nat, question: bool, count: nat, j: nat)
    requires Skipped(skip, msg, pos, question, count) >= 0
    requires j <= count
    ensures Skipped(skip, msg, pos, question, j) >= 0
    ensures SkipEnd(skip, msg, pos + Skipped(skip, msg, pos, question, j), question, count - j) == SkipEnd(skip, msg, pos, question, count)
  {
    SkipEndSplit(skip, msg, pos, question, j, count - j);
  }

  /**
   * Within records that can all be skipped from start, skipping from the
   * start of record j to the start of record k covers exactly the records
   * between them.
   */
  lemma {:induction false} SkipBetween(skip: (seq<byte>, int) -> int, msg: seq<byte>, start: nat, question: bool, total: nat, j: nat, k: nat)
    requires Skipped(skip, msg, start, question, total) >= 0
    requires j <= k <= total
    ensures SkipEnd(skip, msg, start, question, j).Some? && SkipEnd(skip, msg, start, question, k).Some?
    ensures var pj := SkipEnd(skip, msg, start, question, j).value;
      Skipped(skip, msg, pj, question, k - j) >= 0 &&
      pj + Skipped(skip, msg, pj, question, k - j) == SkipEnd(skip, msg, start, question, k).value
  {
    SkippedPrefix(skip, msg, start, question, total, j);
    SkippedPrefix(skip, msg, start, question, total, k);
    SkipEndSplit(skip, msg, start, question, j, k - j);
  }

  // ------------------------------------------------------ the parse handle

  /** The handle's cursor: _sect, _rrnum and _msg_ptr. */
  datatype Cursor = Cursor(sect: int, rrnum: int, ptr: Option<nat>)

  /** What initparse records about a message: the message, _counts and _sections. */
  datatype Layout = Layout(msg: seq<byte>, counts: seq<nat>, sections: seq<Option<nat>>)

  /** A parsed resource record (ns_rr); rdata is an offset into the message, None for NULL. */
  datatype Rr = Rr(name: string, rrType: nat, rrClass: nat, ttl: nat, rdlength: nat, rdata: Option<nat>)

  /** The outcome of parserr: its result, what it stored in errno (None: left as dn_expand left it, or untouched), the record and the new cursor. */
  datatype Parse = Parse(r: int, errno: Option<Errno>, rr: Option<Rr>, cursor: Cursor)

  /** The four section counts of the header, after id and flags. */
  function Counts(msg: seq<byte>): (c: seq<nat>)
    requires |msg| >= HeaderSize
    ensures |c| == SectionMax
  {
    [BE16(msg[4], msg[5]), BE16(msg[6], msg[7]), BE16(msg[8], msg[9]), BE16(msg[10], msg[11])]
  }

  /**
   * The boundaries initparse finds for sections 0..i-1: the first section
   * starts right after the header and each one starts where the records of
   * the one before end; None when some section's records cannot be skipped.
   */
  function Bounds(skip: (seq<byte>, int) -> int, msg: seq<byte>, counts: seq<nat>, i: nat): (r: Option<seq<nat>>)
    requires |counts| == SectionMax && i <= SectionMax
    ensures r.Some? ==> |r.value| == i + 1 && r.value[0] == HeaderSize
    decreases i
  {
    if i == 0 then Some([HeaderSize])
    else match Bounds(skip, msg, counts, i - 1)
      case None => None
      case Some(bs) =>
        if counts[i - 1] == 0 then Some(bs + [bs[i - 1]])
        else
          var b := Skipped(skip, msg, bs[i - 1], i - 1 == Question, counts[i - 1]);
          if b < 0 then None else Some(bs + [bs[i - 1] + b])
  }

  /** The message initparse accepts: a whole header, and records that consume the rest exactly. */
  predicate Accepted(skip: (seq<byte>, int) -> int, msg: seq<byte>)
  {
    |msg| >= HeaderSize &&
    var bs := Bounds(skip, msg, Counts(msg), |Counts(msg)|);
    bs.Some? && bs.value[SectionMax] == |msg|
  }

  /** _sections: NULL for an empty section, otherwise where it starts. */
  function Starts(bs: seq<nat>, counts: seq<nat>): (s: seq<Option<nat>>)
    requires |bs| > SectionMax && |counts| == SectionMax
    ensures |s| == SectionMax
    ensures forall k :: 0 <= k < SectionMax ==> s[k] == if counts[k] == 0 then None else Some(bs[k])
  {
    seq(SectionMax, k requires 0 <= k < SectionMax => if counts[k] == 0 then None else Some(bs[k]))
  }

  /** The layout initparse leaves for an accepted message. */
  function Parsed(skip: (seq<byte>, int) -> int, msg: seq<byte>): (l: Layout)
    requires Accepted(skip, msg)
    ensures l.msg == msg && l.counts == Counts(msg)
  {
    var counts := Counts(msg);
    Layout(msg, counts, Starts(Bounds(skip, msg, counts, |counts|).value, counts))
  }

  /** What parserr relies on: four counts and starts, a start exactly for each non-empty section, and a position whenever the current section has records. */
  ghost predicate Consistent(l: Layout, c: Cursor)
  {
    |l.counts| == SectionMax && |l.sections| == SectionMax &&
    (forall k :: 0 <= k < SectionMax ==> (l.sections[k].Some? <==> l.counts[k] > 0)) &&
    0 <= c.sect <= SectionMax &&
    (c.sect < SectionMax ==> c.rrnum >= 0 && (l.counts[c.sect] > 0 ==> c.ptr.Some?))
  }

  /** dchk_setsection: the cursor at the first record of section s, or past the last section. */
  function SectionCursor(l: Layout, s: int): (c: Cursor)
    ensures 0 <= s < |l.sections| ==> c == Cursor(s, 0, l.sections[s])
  {
    if 0 <= s < |l.sections| then Cursor(s, 0, l.sections[s]) else Cursor(SectionMax, -1, None)
  }

  /**
   * The record at the cursor, as the parse part of parserr reads it: the
   * name, type and class, and outside the question section the TTL,
   * RDLENGTH and the data, each read checked against the end of the
   * message; the cursor then moves to the next record.
   */
  function ReadRecord(names: NameOps, l: Layout, c: Cursor, section: int): (p: Parse)
    requires c.ptr.Some? && 0 <= section < |l.counts|
  {
    var msg := l.msg;
    match names.expand(msg, c.ptr.value)
    case None => Parse(-1, None, None, c)
    case Some(x) =>
      var q := c.ptr.value + x.length;
      if q + 4 > |msg| then Parse(-1, Some(EMsgSize), None, c.(ptr := Some(q)))
      else
        var rrType := BE16(msg[q], msg[q + 1]);
        var rrClass := BE16(msg[q + 2], msg[q + 3]);
        if section == Question then
          Parse(0, None, Some(Rr(x.name, rrType, rrClass, 0, 0, None)), Advance(l, c, section, q + 4))
        else if q + 4 + 6 > |msg| then Parse(-1, Some(EMsgSize), None, c.(ptr := Some(q + 4)))
        else
          var ttl := BE32(msg[q + 4], msg[q + 5], msg[q + 6], msg[q + 7]);
          var rdlength := BE16(msg[q + 8], msg[q + 9]);
          if q + 10 + rdlength > |msg| then Parse(-1, Some(EMsgSize), None, c.(ptr := Some(q + 10)))
          else Parse(0, None, Some(Rr(x.name, rrType, rrClass, ttl, rdlength, Some(q + 10))), Advance(l, c, section, q + 10 + rdlength))
  }

  /** The cursor after a record: the next record number, and the next section once the count is passed (which the range check before makes impossible). */
  function Advance(l: Layout, c: Cursor, section: int, end: nat): Cursor
    requires 0 <= section < |l.counts|
  {
    if c.rrnum + 1 > l.counts[section] then SectionCursor(l, section + 1)
    else Cursor(section, c.rrnum + 1, Some(end))
  }

  /** dchk_bind_ns_parserr: the result, errno, record and cursor after asking for record rrnum (-1: the current one) of section. */
  function ParseRecord(names: NameOps, l: Layout, c: Cursor, section: int, rrnum: int): (p: Parse)
    requires Consistent(l, c)
    ensures Consistent(l, p.cursor)
    ensures p.r == 0 || p.r == -1
    ensures p.r == 0 <==> p.rr.Some?
    ensures !(0 <= section < SectionMax) ==> p == Parse(-1, Some(ENoDev), None, c)
    ensures 0 <= section < SectionMax && rrnum != -1 && !(0 <= rrnum < l.counts[section]) ==> p.r == -1 && p.errno == Some(ENoDev)
    ensures p.r == 0 ==>
      0 <= section < SectionMax && p.cursor.sect == section &&
      p.cursor.rrnum == (if rrnum != -1 then rrnum else if c.sect == section then c.rrnum else 0) + 1
    ensures p.r == 0 && section == Question ==> p.rr.value.ttl == 0 && p.rr.value.rdlength == 0 && p.rr.value.rdata.None?
    ensures p.r == 0 && section != Question ==> p.rr.value.rdata.Some? && p.rr.value.rdata.value + p.rr.value.rdlength <= |l.msg|
  {
    if !(0 <= section < SectionMax) then Parse(-1, Some(ENoDev), None, c)
    else
      var c1 := if section != c.sect then SectionCursor(l, section) else c;
      var n := if rrnum == -1 then c1.rrnum else rrnum;
      if n < 0 || n >= l.counts[section] then Parse(-1, Some(ENoDev), None, c1)
      else
        var c2 := if n < c1.rrnum then SectionCursor(l, section) else c1;
        Seek(names, l, c2, section, n)
  }

  /** The skip forward in parserr from the cursor to record n: the cursor at record n, or None when the records in between cannot be skipped. */
  function SeekTo(skip: (seq<byte>, int) -> int, l: Layout, c: Cursor, section: int, n: int): (d: Option<Cursor>)
    requires c.ptr.Some? && 0 <= c.rrnum <= n
    ensures d.Some? ==> d.value.sect == c.sect && d.value.rrnum == n && d.value.ptr.Some?
  {
    var ptr := c.ptr.value;
    if n > c.rrnum then
      var b := Skipped(skip, l.msg, ptr, section == Question, n - c.rrnum);
      if b < 0 then None else Some(Cursor(c.sect, n, Some(ptr + b)))
    else Some(c)
  }

  /** The skip forward in parserr, then the read. */
  function Seek(names: NameOps, l: Layout, c: Cursor, section: int, n: int): (p: Parse)
    requires Consistent(l, c) && 0 <= section < SectionMax && c.sect == section
    requires 0 <= c.rrnum <= n < l.counts[section]
    ensures Consistent(l, p.cursor)
    ensures p.r == 0 || p.r == -1
    ensures p.r == 0 <==> p.rr.Some?
    ensures p.r == 0 ==> p.cursor.sect == section && p.cursor.rrnum == n + 1
    ensures p.r == 0 && section == Question ==> p.rr.value.ttl == 0 && p.rr.value.rdlength == 0 && p.rr.value.rdata.None?
    ensures p.r == 0 && section != Question ==> p.rr.value.rdata.Some? && p.rr.value.rdata.value + p.rr.value.rdlength <= |l.msg|
  {
    match SeekTo(names.skip, l, c, section, n)
    case None => Parse(-1, Some(EMsgSize), None, c)
    case Some(d) => ReadRecord(names, l, d, section)
  }

  /**
   * A cursor that sits where initparse's layout says record rrnum of its
   * section starts (or past the last section).
   */
  ghost predicate Positioned(skip: (seq<byte>, int) -> int, l: Layout, c: Cursor)
    requires |l.counts| == SectionMax && |l.sections| == SectionMax
  {
    (c.sect == SectionMax && c.rrnum == -1 && c.ptr.None?) ||
    (0 <= c.sect < SectionMax && 0 <= c.rrnum <= l.counts[c.sect] &&
     c.ptr == match l.sections[c.sect]
              case None => None
              case Some(start) => SkipEnd(skip, l.msg, start, c.sect == Question, c.rrnum))
  }

  /** Bounds for fewer sections are a prefix of the bounds for more. */
  lemma {:induction false} BoundsPrefix(skip: (seq<byte>, int) -> int, msg: seq<byte>, counts: seq<nat>, i: nat, j: nat)
    requires |counts| == SectionMax && j <= i <= SectionMax
    requires Bounds(skip, msg, counts, i).Some?
    ensures Bounds(skip, msg, counts, j).Some?
    ensures Bounds(skip, msg, counts, j).value == Bounds(skip, msg, counts, i).value[..j + 1]
    decreases i
  {
    if j < i {
      BoundsPrefix(skip, msg, counts, i - 1, j);
      var bs := Bounds(skip, msg, counts, i - 1).value;
      assert Bounds(skip, msg, counts, i).value[..i] == bs;
    }
  }

  /** Positions that only grow and stay within limit. */
  predicate Ascending(bs: seq<nat>, limit: nat)
  {
    (forall k :: 0 <= k < |bs| - 1 ==> bs[k] <= bs[k + 1]) && (forall k :: 0 <= k < |bs| ==> bs[k] <= limit)
  }

  /** The boundaries only grow, and each lies inside the message. */
  lemma {:induction false} BoundsGrow(skip: (seq<byte>, int) -> int, msg: seq<byte>, counts: seq<nat>, i: nat)
    requires |counts| == SectionMax && i <= SectionMax && |msg| >= HeaderSize
    requires Bounds(skip, msg, counts, i).Some?
    ensures Ascending(Bounds(skip, msg, counts, i).value, |msg|)
    decreases i
  {
    if i > 0 {
      BoundsGrow(skip, msg, counts, i - 1);
    }
  }

  /**
   * The sections of an accepted message tile it: the first starts after the
   * header, the records of each section end exactly where the next section
   * starts, and the last ends at the end of the message; a section's start
   * is NULL exactly when its count is 0.
   */
  lemma {:induction false} SectionsTile(skip: (seq<byte>, int) -> int, msg: seq<byte>)
    requires Accepted(skip, msg)
    ensures var bs := Bounds(skip, msg, Counts(msg), |Counts(msg)|).value;
      bs[0] == HeaderSize && bs[SectionMax] == |msg| &&
      (forall k :: 0 <= k < SectionMax ==> SkipEnd(skip, msg, bs[k], k == Question, Counts(msg)[k]) == Some(bs[k + 1])) &&
      (forall k :: 0 <= k < SectionMax ==> (Parsed(skip, msg).sections[k].None? <==> Counts(msg)[k] == 0)) &&
      (forall k :: 0 <= k < SectionMax && Counts(msg)[k] > 0 ==> Parsed(skip, msg).sections[k] == Some(bs[k]))
  {
    var counts := Counts(msg);
    var bs := Bounds(skip, msg, counts, |counts|).value;
    forall k | 0 <= k < SectionMax
      ensures SkipEnd(skip, msg, bs[k], k == Question, counts[k]) == Some(bs[k + 1])
    {
      BoundsPrefix(skip, msg, counts, |counts|, k + 1);
      BoundsStep(skip, msg, counts, k);
      var prefix := Bounds(skip, msg, counts, k + 1).value;
      assert prefix[k] == bs[k] && prefix[k + 1] == bs[k + 1];
    }
  }

  /** One step of Bounds: the records of section i run from its boundary to the next. */
  lemma {:induction false} BoundsStep(skip: (seq<byte>, int) -> int, msg: seq<byte>, counts: seq<nat>, i: nat)
    requires |counts| == SectionMax && i < SectionMax
    requires Bounds(skip, msg, counts, i + 1).Some?
    ensures var bs := Bounds(skip, msg, counts, i + 1).value;
      SkipEnd(skip, msg, bs[i], i == Question, counts[i]) == Some(bs[i + 1])
  {
    var bs := Bounds(skip, msg, counts, i).value;
    if counts[i] == 0 {
      assert SkipEnd(skip, msg, bs[i], i == Question, 0) == Some(bs[i]);
    }
  }

  /** In an accepted message every non-empty section's records can be skipped from its start. */
  lemma {:induction false} SectionSkips(skip: (seq<byte>, int) -> int, msg: seq<byte>, s: int)
    requires Accepted(skip, msg) && 0 <= s < SectionMax
    ensures var l := Parsed(skip, msg);
      l.sections[s].Some? ==> Skipped(skip, msg, l.sections[s].value, s == Question, l.counts[s]) >= 0
  {
    SectionsTile(skip, msg);
    BoundsGrow(skip, msg, Counts(msg), |Counts(msg)|);
  }

  /** A layout in which every non-empty section's records can be skipped from its start. */
  ghost predicate Walkable(skip: (seq<byte>, int) -> int, l: Layout)
  {
    |l.counts| == SectionMax && |l.sections| == SectionMax &&
    (forall k :: 0 <= k < SectionMax ==> (l.sections[k].Some? <==> l.counts[k] > 0)) &&
    forall s :: 0 <= s < SectionMax && l.sections[s].Some? ==> Skipped(skip, l.msg, l.sections[s].value, s == Question, l.counts[s]) >= 0
  }

  /** initparse leaves a walkable layout. */
  lemma {:induction false} AcceptedWalkable(skip: (seq<byte>, int) -> int, msg: seq<byte>)
    requires Accepted(skip, msg)
    ensures Walkable(skip, Parsed(skip, msg))
  {
    forall s | 0 <= s < SectionMax
      ensures var l := Parsed(skip, msg);
        l.sections[s].Some? ==> Skipped(skip, msg, l.sections[s].value, s == Question, l.counts[s]) >= 0
    {
      SectionSkips(skip, msg, s);
    }
  }

  /**
   * Random access: asking for record k of a section gives the same result,
   * errno and record whatever record the cursor was at, as long as it was
   * positioned; on success the new cursor is the same too. So rewinding to
   * the section start and skipping forward never changes what is read.
   */
  lemma {:induction false} ParseIndependentOfCursor(names: NameOps, l: Layout, c: Cursor, section: int, k: int)
    requires Walkable(names.skip, l) && Consistent(l, c) && Positioned(names.skip, l, c)
    requires k != -1
    ensures var a := ParseRecord(names, l, c, section, k);
      var b := ParseRecord(names, l, SectionCursor(l, section), section, k);
      a.r == b.r && a.errno == b.errno && a.rr == b.rr && (a.r == 0 ==> a.cursor == b.cursor)
  {
    if 0 <= section < SectionMax && 0 <= k < l.counts[section] {
      var start := l.sections[section].value;
      var total := l.counts[section];
      SeekFromPositioned(names, l, SectionCursor(l, section), section, k, start, total);
      var c1 := if section != c.sect then SectionCursor(l, section) else c;
      if k >= c1.rrnum {
        SeekFromPositioned(names, l, c1, section, k, start, total);
      }
    }
  }

  /** Seeking from a positioned cursor to record k reads the record at k's start. */
  lemma {:induction false} SeekFromPositioned(names: NameOps, l: Layout, c: Cursor, section: int, k: int, start: nat, total: nat)
    requires Consistent(l, c) && 0 <= section < SectionMax && c.sect == section
    requires l.sections[section] == Some(start) && l.counts[section] == total
    requires Skipped(names.skip, l.msg, start, section == Question, total) >= 0
    requires 0 <= c.rrnum <= k < total
    requires c.ptr == SkipEnd(names.skip, l.msg, start, section == Question, c.rrnum)
    ensures SkipEnd(names.skip, l.msg, start, section == Question, k).Some?
    ensures SeekTo(names.skip, l, c, section, k) == Some(Cursor(section, k, SkipEnd(names.skip, l.msg, start, section == Question, k)))
  {
    var q := section == Question;
    SkipBetween(names.skip, l.msg, start, q, total, c.rrnum, k);
  }

  /**
   * With the length contract of the name calls, every parserr call keeps a
   * positioned cursor positioned: a successful read leaves it at the start
   * of the next record, so reading record -1 repeatedly walks the section in
   * order.
   */
  lemma {:induction false} ParseKeepsPositioned(names: NameOps, l: Layout, c: Cursor, section: int, rrnum: int)
    requires NamesAgree(names) && Walkable(names.skip, l)
    requires Consistent(l, c) && Positioned(names.skip, l, c)
    ensures Positioned(names.skip, l, ParseRecord(names, l, c, section, rrnum).cursor)
  {
    if 0 <= section < SectionMax {
      var c1 := if section != c.sect then SectionCursor(l, section) else c;
      var n := if rrnum == -1 then c1.rrnum else rrnum;
      if 0 <= n < l.counts[section] {
        var start := l.sections[section].value;
        var total := l.counts[section];
        var c2 := if n < c1.rrnum then SectionCursor(l, section) else c1;
        SeekFromPositioned(names, l, c2, section, n, start, total);
        ReadKeepsPositioned(names, l, section, n, start, total);
      }
    }
  }

  /** Reading record n at its start either leaves the cursor there or moves it to the start of record n + 1. */
  lemma {:induction false} ReadKeepsPositioned(names: NameOps, l: Layout, section: int, n: int, start: nat, total: nat)
    requires NamesAgree(names) && |l.counts| == SectionMax && |l.sections| == SectionMax
    requires 0 <= section < SectionMax && l.sections[section] == Some(start) && l.counts[section] == total
    requires Skipped(names.skip, l.msg, start, section == Question, total) >= 0
    requires 0 <= n < total
    ensures SkipEnd(names.skip, l.msg, start, section == Question, n).Some?
    ensures Positioned(names.skip, l, ReadRecord(names, l, Cursor(section, n, SkipEnd(names.skip, l.msg, start, section == Question, n)), section).cursor)
  {
    var q := section == Question;
    NextRecordStart(names.skip, l.msg, start, q, total, n);
    var e := SkipEnd(names.skip, l.msg, start, q, n + 1).value;
    ReadAtRecord(names, l, Cursor(section, n, SkipEnd(names.skip, l.msg, start, q, n)), section, e);
  }

  /** Within records that can all be skipped, record n + 1 starts where record n ends, inside the message. */
  lemma {:induction false} NextRecordStart(skip: (seq<byte>, int) -> int, msg: seq<byte>, start: nat, question: bool, total: nat, n: nat)
    requires Skipped(skip, msg, start, question, total) >= 0
    requires n < total
    ensures SkipEnd(skip, msg, start, question, n).Some? && SkipEnd(skip, msg, start, question, n + 1).Some?
    ensures SkipEnd(skip, msg, start, question, n + 1).value <= |msg|
    ensures RecordEnd(skip, msg, SkipEnd(skip, msg, start, question, n).value, question) == SkipEnd(skip, msg, start, question, n + 1)
  {
    SkippedPrefix(skip, msg, start, question, total, n);
    SkippedPrefix(skip, msg, start, question, total, n + 1);
    var pn := SkipEnd(skip, msg, start, question, n).value;
    SkipEndSplit(skip, msg, start, question, n, 1);
    match RecordEnd(skip, msg, pn, question)
    case None =>
    case Some(p) => assert SkipEnd(skip, msg, p, question, 0) == Some(p);
  }

  /** Where the name calls agree, a read that fits in the message moves the cursor exactly over the record that skipping steps over. */
  lemma {:induction false} ReadAtRecord(names: NameOps, l: Layout, c: Cursor, section: int, e: nat)
    requires NamesAgree(names) && |l.counts| == SectionMax
    requires 0 <= section < SectionMax && c.sect == section && 0 <= c.rrnum < l.counts[section] && c.ptr.Some?
    requires RecordEnd(names.skip, l.msg, c.ptr.value, section == Question) == Some(e) && e <= |l.msg|
    ensures ReadRecord(names, l, c, section).cursor ==
      if names.expand(l.msg, c.ptr.value).None? then c else Cursor(section, c.rrnum + 1, Some(e))
  {
    match names.expand(l.msg, c.ptr.value)
    case None =>
    case Some(x) =>
      var q := c.ptr.value + x.length;
      assert x.length == names.skip(l.msg, c.ptr.value);
      assert c.rrnum + 1 <= l.counts[section];
      if section == Question {
        assert e == q + 4;
      } else {
        assert q + 10 <= |l.msg| && e == q + 10 + BE16(l.msg[q + 8], l.msg[q + 9]);
      }
  }

  /**
   * A parse handle (dchk_ns_msg). The message, id, flags, counts and
   * section starts are set by InitParse; the cursor fields by SetSection
   * and ParseRr.
   */
  class NsMsg {
    var msg: seq<byte>
    var id: nat
    var flags: bv16
    var counts: seq<nat>
    var sections: seq<Option<nat>>
    var sect: int
    var rrnum: int
    var msgPtr: Option<nat>

    function LayoutOf(): Layout
      reads this
    {
      Layout(msg, counts, sections)
    }

    function CursorOf(): Cursor
      reads this
    {
      Cursor(sect, rrnum, msgPtr)
    }

    /** A handle with nothing parsed yet (the C handle is uninitialised storage). */
    constructor ()
      ensures msg == [] && counts == [] && sections == []
      ensures CursorOf() == Cursor(SectionMax, -1, None)
    {
      msg := [];
      id, flags := 0, 0;
      counts, sections := [], [];
      sect, rrnum, msgPtr := SectionMax, -1, None;
    }

    /** dchk_bind_ns_msg_count. */
    function Count(section: int): (n: nat)
      reads this
      requires 0 <= section < |counts|
      ensures n == LayoutOf().counts[section]
    {
      counts[section]
    }

    /** dchk_setsection. */
    method SetSection(s: int)
      modifies this
      ensures CursorOf() == SectionCursor(LayoutOf(), s)
      ensures LayoutOf() == old(LayoutOf()) && id == old(id) && flags == old(flags)
    {
      sect := s;
      if 0 <= s < |sections| {
        rrnum := 0;
        msgPtr := sections[s];
      } else {
        sect, rrnum, msgPtr := SectionMax, -1, None;
      }
    }

    /**
     * dchk_bind_ns_initparse: reads the header and steps over every section's
     * records; it succeeds exactly for an accepted message and then leaves
     * the cursor past the last section.
     */
    method InitParse(skip: (seq<byte>, int) -> int, m: seq<byte>) returns (r: int, errno: Option<Errno>)
      modifies this
      ensures msg == m
      ensures r == 0 || r == -1
      ensures r == 0 <==> Accepted(skip, m)
      ensures r == -1 ==> errno == Some(EMsgSize)
      ensures r == 0 ==> errno == None && id == BE16(m[0], m[1]) && flags == BE16(m[2], m[3]) as bv16
      ensures r == 0 ==> LayoutOf() == Parsed(skip, m) && CursorOf() == Cursor(SectionMax, -1, None)
    {
      msg := m;
      if |m| < 2 {
        return -1, Some(EMsgSize);
      }
      id := BE16(m[0], m[1]);
      if |m| < 4 {
        return -1, Some(EMsgSize);
      }
      flags := BE16(m[2], m[3]) as bv16;
      var pos := 4;
      counts := [];
      var i := 0;
      while i < SectionMax
        invariant 0 <= i <= SectionMax && pos == 4 + 2 * i && pos <= |m| && |counts| == i
        invariant forall k :: 0 <= k < i ==> counts[k] == BE16(m[4 + 2 * k], m[5 + 2 * k])
        invariant msg == m && id == BE16(m[0], m[1]) && flags == BE16(m[2], m[3]) as bv16
      {
        if pos + 2 > |m| {
          return -1, Some(EMsgSize);
        }
        counts := counts + [BE16(m[pos], m[pos + 1])];
        pos := pos + 2;
        i := i + 1;
      }
      assert counts == Counts(m);
      r, errno := LocateSections(skip);
    }

    /** The second loop of initparse: the section starts, then the check that the records end at the end of the message. */
    method LocateSections(skip: (seq<byte>, int) -> int) returns (r: int, errno: Option<Errno>)
      requires |msg| >= HeaderSize && counts == Counts(msg)
      modifies this
      ensures msg == old(msg) && id == old(id) && flags == old(flags)
      ensures r == 0 || r == -1
      ensures r == 0 <==> Accepted(skip, msg)
      ensures r == -1 ==> errno == Some(EMsgSize)
      ensures r == 0 ==> errno == None && LayoutOf() == Parsed(skip, msg) && CursorOf() == Cursor(SectionMax, -1, None)
    {
      var end, starts := FindStarts(skip, msg, counts);
      if end < 0 {
        return -1, Some(EMsgSize);
      }
      sections := starts;
      if end != |msg| {
        return -1, Some(EMsgSize);
      }
      SetSection(SectionMax);
      return 0, None;
    }

    /**
     * dchk_bind_ns_parserr: selects the section and record, skipping forward
     * or rewinding as needed, and reads the record; everything it does is
     * ParseRecord.
     */
    method ParseRr(names: NameOps, section: int, num: int) returns (r: int, errno: Option<Errno>, rr: Option<Rr>)
      requires Consistent(LayoutOf(), CursorOf())
      modifies this
      ensures LayoutOf() == old(LayoutOf()) && id == old(id) && flags == old(flags)
      ensures Parse(r, errno, rr, CursorOf()) == ParseRecord(names, LayoutOf(), old(CursorOf()), section, num)
    {
      if section < 0 || section >= SectionMax {
        return -1, Some(ENoDev), None;
      }
      if section != sect {
        SetSection(section);
      }
      var n := num;
      if n == -1 {
        n := rrnum;
      }
      if n < 0 || n >= counts[section] {
        return -1, Some(ENoDev), None;
      }
      if n < rrnum {
        SetSection(section);
      }
      r, errno, rr := SeekRr(names, section, n);
    }

    /** The skip forward in parserr, then the read. */
    method SeekRr(names: NameOps, section: int, n: int) returns (r: int, errno: Option<Errno>, rr: Option<Rr>)
      requires Consistent(LayoutOf(), CursorOf()) && 0 <= section < SectionMax && sect == section
      requires 0 <= rrnum <= n < counts[section]
      modifies this
      ensures LayoutOf() == old(LayoutOf()) && id == old(id) && flags == old(flags)
      ensures Parse(r, errno, rr, CursorOf()) == Seek(names, LayoutOf(), old(CursorOf()), section, n)
    {
      if n > rrnum {
        var b, e := SkipRr(names.skip, msg, msgPtr.value, section == Question, n - rrnum);
        if b < 0 {
          return -1, e, None;
        }
        msgPtr := Some(msgPtr.value + b);
        rrnum := n;
      }
      r, errno, rr := ReadRr(names, section);
    }

    /** The parse part of parserr, at the cursor. */
    method ReadRr(names: NameOps, section: int) returns (r: int, errno: Option<Errno>, rr: Option<Rr>)
      requires msgPtr.Some? && 0 <= section < |counts|
      modifies this
      ensures LayoutOf() == old(LayoutOf()) && id == old(id) && flags == old(flags)
      ensures Parse(r, errno, rr, CursorOf()) == ReadRecord(names, LayoutOf(), old(CursorOf()), section)
    {
      var start := CursorOf();
      var x := names.expand(msg, msgPtr.value);
      if x.None? {
        return -1, None, None;
      }
      var q := msgPtr.value + x.value.length;
      msgPtr := Some(q);
      if q + 4 > |msg| {
        return -1, Some(EMsgSize), None;
      }
      var rrType := BE16(msg[q], msg[q + 1]);
      var rrClass := BE16(msg[q + 2], msg[q + 3]);
      q := q + 4;
      msgPtr := Some(q);
      var record;
      if section == Question {
        record := Rr(x.value.name, rrType, rrClass, 0, 0, None);
      } else {
        if q + 6 > |msg| {
          return -1, Some(EMsgSize), None;
        }
        var ttl := BE32(msg[q], msg[q + 1], msg[q + 2], msg[q + 3]);
        var rdlength := BE16(msg[q + 4], msg[q + 5]);
        q := q + 6;
        msgPtr := Some(q);
        if q + rdlength > |msg| {
          return -1, Some(EMsgSize), None;
        }
        record := Rr(x.value.name, rrType, rrClass, ttl, rdlength, Some(q));
        q := q + rdlength;
        msgPtr := Some(q);
      }
      var next := Advance(LayoutOf(), start, section, q);
      sect, rrnum, msgPtr := next.sect, next.rrnum, next.ptr;
      return 0, None, Some(record);
    }
  }

  /** The loop of initparse over the sections: where each non-empty one starts and where the last one's records end, or -1 once some section's records cannot be skipped. */
  method FindStarts(skip: (seq<byte>, int) -> int, msg: seq<byte>, counts: seq<nat>) returns (end: int, starts: seq<Option<nat>>)
    requires |counts| == SectionMax
    ensures end >= -1
    ensures end >= 0 <==> Bounds(skip, msg, counts, |counts|).Some?
    ensures end >= 0 ==>
      end == Bounds(skip, msg, counts, |counts|).value[SectionMax] &&
      starts == Starts(Bounds(skip, msg, counts, |counts|).value, counts)
  {
    var bs: seq<nat> := [HeaderSize];
    var i := 0;
    while i < SectionMax
      invariant 0 <= i <= SectionMax
      invariant Bounds(skip, msg, counts, i) == Some(bs)
    {
      var next := NextBoundary(skip, msg, counts, i, bs[i], bs);
      if next < 0 {
        NoBoundsBeyond(skip, msg, counts, i + 1);
        return -1, [];
      }
      bs := bs + [next];
      i := i + 1;
    }
    return bs[SectionMax], Starts(bs, counts);
  }

  /** One round of that loop: an empty section ends where it starts, any other where its records can be skipped to. */
  method NextBoundary(skip: (seq<byte>, int) -> int, msg: seq<byte>, counts: seq<nat>, i: nat, pos: nat, ghost bs: seq<nat>) returns (next: int)
    requires |counts| == SectionMax && i < SectionMax
    requires Bounds(skip, msg, counts, i) == Some(bs) && pos == bs[i]
    ensures next >= -1
    ensures next >= 0 <==> Bounds(skip, msg, counts, i + 1).Some?
    ensures next >= 0 ==> Bounds(skip, msg, counts, i + 1) == Some(bs + [next])
  {
    if counts[i] == 0 {
      return pos;
    }
    var b, e := SkipRr(skip, msg, pos, i == Question, counts[i]);
    if b < 0 {
      return -1;
    }
    return pos + b;
  }

  /** Once the records of some section cannot be skipped, no later bounds exist either. */
  lemma {:induction false} NoBoundsBeyond(skip: (seq<byte>, int) -> int, msg: seq<byte>, counts: seq<nat>, i: nat)
    requires |counts| == SectionMax && i <= SectionMax
    requires Bounds(skip, msg, counts, i).None?
    ensures Bounds(skip, msg, counts, |counts|).None?
  {
    if Bounds(skip, msg, counts, |counts|).Some? {
      BoundsPrefix(skip, msg, counts, SectionMax, i);
    }
  }
}
