/**
 * Finding the DCHK server of a TLD through DNS (trunk/src/lib/resolver.c):
 * the TLD's NAPTR record whose service is "DCHK1:iris.lwz" (section 2 of
 * RFC 2915, section 3.2 of RFC 5144) names an SRV owner, and the first SRV
 * record of that owner (RFC 2782) gives the server's host name and port.
 *
 * res_init, res_query, hstrerror, dn_skipname and dn_expand are foreign: a
 * Dns value stands for their answers. Record data are offsets into the
 * answer message.
 */
module Resolver {
  import opened Wrappers
  import opened LibC
  import opened IrisTypes
  import opened Errors
  import opened IrisLwz
  import opened NsParse
  import Dchk

  /** ns_t_naptr and ns_t_srv. */
  const NaptrType := 35
  const SrvType := 33

  /** The octets of "DCHK1:iris.lwz". */
  const DchkService: seq<byte> := [68, 67, 72, 75, 49, 58, 105, 114, 105, 115, 46, 108, 119, 122]

  // ---------------------------------------------------------------- labels

  /** The characters of a run of octets. */
  function Text(b: seq<byte>): string
  {
    seq(|b|, i requires 0 <= i < |b| => CharOfByte(b[i]))
  }

  /**
   * The labels of the uncompressed name at pos: each a length octet and
   * that many octets, up to the zero octet that ends the name; None when
   * the name runs past the end of the message.
   */
  function Labels(msg: seq<byte>, pos: nat): Option<seq<seq<byte>>>
    decreases |msg| - pos
  {
    if pos >= |msg| then None
    else if msg[pos] == 0 then Some([])
    else
      var next := pos + msg[pos] as int + 1;
      if next > |msg| then None
      else match Labels(msg, next)
        case None => None
        case Some(rest) => Some([msg[pos + 1..next]] + rest)
  }

  /** The first label of a name and the labels after it. */
  lemma {:induction false} LabelsNext(msg: seq<byte>, pos: nat, next: nat)
    requires Labels(msg, pos).Some? && msg[pos] != 0 && next == pos + 1 + msg[pos] as int
    ensures next < |msg| && Labels(msg, pos).value != []
    ensures Labels(msg, pos).value[0] == msg[pos + 1..next]
    ensures Labels(msg, next) == Some(Labels(msg, pos).value[1..])
  {
    assert Labels(msg, pos).value == [msg[pos + 1..next]] + Labels(msg, next).value;
  }

  /** What strncat copies of a label: its octets up to the first zero octet. */
  function LabelText(part: seq<byte>): string
  {
    Text(UpToNul(part))
  }

  predicate NoNul(part: seq<byte>)
  {
    forall i :: 0 <= i < |part| ==> part[i] != 0
  }

  /** A name buffer after one more label: a '.' first when it already holds text, then the label. */
  function Extend(acc: string, part: seq<byte>): string
  {
    (if acc != "" then acc + "." else acc) + LabelText(part)
  }

  /** The name buffer after appending the labels one after another. */
  function JoinFrom(acc: string, labels: seq<seq<byte>>): string
    decreases |labels|
  {
    if labels == [] then acc else JoinFrom(Extend(acc, labels[0]), labels[1..])
  }

  /** The name both building loops spell from an empty buffer. */
  function Spelled(labels: seq<seq<byte>>): string
  {
    JoinFrom("", labels)
  }

  /** The text of each label. */
  function Texts(labels: seq<seq<byte>>): seq<string>
  {
    seq(|labels|, k requires 0 <= k < |labels| => LabelText(labels[k]))
  }

  lemma {:induction false} JoinAfter(acc: string, labels: seq<seq<byte>>)
    requires acc != "" && labels != []
    ensures JoinFrom(acc, labels) == acc + "." + Dchk.Join(Texts(labels), ".")
    decreases |labels|
  {
    var e := Extend(acc, labels[0]);
    assert Texts(labels)[0] == LabelText(labels[0]);
    if |labels| == 1 {
      assert labels[1..] == [];
    } else {
      JoinAfter(e, labels[1..]);
      assert Texts(labels)[1..] == Texts(labels[1..]);
    }
  }

  /**
   * Once the first label has text, the buffer ends up as the label texts
   * joined by single dots with no dot at the end; no labels spell "".
   */
  lemma {:induction false} SpelledIsDotted(labels: seq<seq<byte>>)
    requires labels != [] ==> LabelText(labels[0]) != ""
    ensures Spelled(labels) == Dchk.Join(Texts(labels), ".")
  {
    if labels != [] {
      var t := LabelText(labels[0]);
      assert Texts(labels)[0] == t;
      assert Extend("", labels[0]) == t;
      if |labels| == 1 {
        assert labels[1..] == [] && Texts(labels) == [t];
        assert Spelled(labels) == JoinFrom(t, []);
      } else {
        JoinAfter(t, labels[1..]);
        assert Texts(labels)[1..] == Texts(labels[1..]);
      }
    }
  }

  /** A label without a zero octet is copied whole. */
  lemma {:induction false} WholeLabel(part: seq<byte>)
    requires NoNul(part)
    ensures LabelText(part) == Text(part)
  {
  }

  // ---------------------------------------------------------------- NAPTR

  /** count after the sizing loop of dchk_ParseNAPTRRecord, started from count, before the final increment. */
  function Needed(count: nat, labels: seq<seq<byte>>): nat
    decreases |labels|
  {
    if labels == [] then count
    else Needed((if count != 0 then count + 1 else count) + |labels[0]|, labels[1..])
  }

  /** The octets dchk_ParseNAPTRRecord allocates for the replacement: the labels, a dot between two of them and the terminator. */
  function Allocation(labels: seq<seq<byte>>): nat
  {
    Needed(0, labels) + 1
  }

  lemma {:induction false} NeededCovers(acc: string, count: nat, labels: seq<seq<byte>>)
    requires |acc| <= count
    ensures |JoinFrom(acc, labels)| <= Needed(count, labels)
    ensures |acc| == count && (forall k :: 0 <= k < |labels| ==> NoNul(labels[k])) ==>
      |JoinFrom(acc, labels)| == Needed(count, labels)
    decreases |labels|
  {
    if labels != [] {
      var c := (if count != 0 then count + 1 else count) + |labels[0]|;
      NeededCovers(Extend(acc, labels[0]), c, labels[1..]);
      if |acc| == count && (forall k :: 0 <= k < |labels| ==> NoNul(labels[k])) {
        WholeLabel(labels[0]);
        assert forall k :: 0 <= k < |labels[1..]| ==> NoNul(labels[1..][k]) by {
          forall k | 0 <= k < |labels[1..]| ensures NoNul(labels[1..][k]) {
            assert labels[1..][k] == labels[k + 1];
          }
        }
      }
    }
  }

  /**
   * The allocation holds the replacement and its terminator, and is exactly
   * that size when no label holds a zero octet.
   */
  lemma {:induction false} ReplacementFits(labels: seq<seq<byte>>)
    ensures |Spelled(labels)| < Allocation(labels)
    ensures (forall k :: 0 <= k < |labels| ==> NoNul(labels[k])) ==> |Spelled(labels)| + 1 == Allocation(labels)
  {
    NeededCovers("", 0, labels);
  }

  /** The service field of the NAPTR data at data: after order and preference, two octets each, and the flags string. */
  function ServiceAt(msg: seq<byte>, data: nat): nat
    requires data + 4 < |msg|
  {
    data + 4 + msg[data + 4] as int + 1
  }

  /** The replacement of a NAPTR record whose 14-octet service field is at s: after the service and the regexp string. */
  function ReplacementAt(msg: seq<byte>, s: nat): nat
    requires s + 15 < |msg|
  {
    s + 15 + msg[s + 15] as int + 1
  }

  /** The service field at s is the 14 octets of "DCHK1:iris.lwz". */
  predicate IsDchkService(msg: seq<byte>, s: nat)
    requires s < |msg|
  {
    msg[s] == 14 && s + 15 <= |msg| && msg[s + 1..s + 15] == DchkService
  }

  /**
   * Every octet dchk_ParseNAPTRRecord reads lies inside the message: the
   * flags length, the service field and, for a DCHK service, the regexp
   * length and the replacement's labels.
   */
  predicate NaptrReadable(msg: seq<byte>, data: nat)
  {
    data + 4 < |msg| && ServiceAt(msg, data) < |msg| &&
    (msg[ServiceAt(msg, data)] == 14 ==> ServiceAt(msg, data) + 15 <= |msg|) &&
    (IsDchkService(msg, ServiceAt(msg, data)) ==>
      ServiceAt(msg, data) + 15 < |msg| && Labels(msg, ReplacementAt(msg, ServiceAt(msg, data))).Some?)
  }

  /** The name a NAPTR record offers the client: its replacement when its service is DCHK1:iris.lwz, otherwise None. */
  function NaptrReplacement(msg: seq<byte>, data: nat): Option<string>
    requires NaptrReadable(msg, data)
  {
    var s := ServiceAt(msg, data);
    if IsDchkService(msg, s) then Some(Spelled(Labels(msg, ReplacementAt(msg, s)).value)) else None
  }

  /** dchk_ParseNAPTRRecord: the replacement of a DCHK NAPTR record, or None with 74057. */
  method ParseNaptrRecord(h: Handle, msg: seq<byte>, data: nat) returns (name: Option<string>)
    requires NaptrReadable(msg, data)
    modifies h`error, h`errorText
    ensures name == NaptrReplacement(msg, data)
    ensures name.None? && old(h.initialized) ==> h.error == 74057 && h.errorText == None
    ensures name.Some? || !old(h.initialized) ==> h.error == old(h.error) && h.errorText == old(h.errorText)
  {
    var cp := data + 4;
    cp := cp + msg[cp] as int + 1;
    if msg[cp] != 14 || msg[cp + 1..cp + 15] != DchkService {
      SetError(h, 74057, None);
      return None;
    }
    cp := cp + msg[cp] as int + 1;
    cp := cp + msg[cp] as int + 1;
    var count := CountReplacement(msg, cp);
    var buffer := BuildReplacement(msg, cp, count);
    name := Some(buffer);
  }

  /** The sizing loop: the label lengths, one more per dot, then the terminator. */
  method CountReplacement(msg: seq<byte>, pos: nat) returns (count: int)
    requires Labels(msg, pos).Some?
    ensures count == Allocation(Labels(msg, pos).value)
  {
    var cp := pos;
    count := 0;
    while msg[cp] != 0
      invariant Labels(msg, cp).Some? && count >= 0
      invariant Needed(count, Labels(msg, cp).value) == Needed(0, Labels(msg, pos).value)
      decreases |msg| - cp
    {
      if count != 0 {
        count := count + 1;
      }
      count := count + msg[cp] as int;
      cp := cp + msg[cp] as int + 1;
    }
    count := count + 1;
  }

  /** The building loop: strcat of "." once the buffer holds text, strncat of each label; the name fits the count octets allocated for it. */
  method BuildReplacement(msg: seq<byte>, pos: nat, count: int) returns (buffer: string)
    requires Labels(msg, pos).Some? && count == Allocation(Labels(msg, pos).value)
    ensures buffer == Spelled(Labels(msg, pos).value) && |buffer| < count
  {
    ReplacementFits(Labels(msg, pos).value);
    var cp := pos;
    buffer := "";
    while msg[cp] != 0
      invariant Labels(msg, cp).Some?
      invariant JoinFrom(buffer, Labels(msg, cp).value) == Spelled(Labels(msg, pos).value)
      decreases |msg| - cp
    {
      var n := msg[cp] as int;
      if buffer != "" {
        buffer := buffer + ".";
      }
      buffer := buffer + LabelText(msg[cp + 1..cp + 1 + n]);
      cp := cp + n + 1;
    }
  }

  // ---------------------------------------------------------------- SRV

  /**
   * The host buffer of the SRV loop in dchk_SetHostByDNS: the name so far,
   * the octets allocated for it (0 while the pointer is NULL), the
   * hostbuffer counter, and whether every write so far stayed inside the
   * allocation.
   */
  datatype HostBuffer = HostBuffer(host: string, size: nat, room: int, inBounds: bool)

  const NoHost := HostBuffer("", 0, 0, true)

  /**
   * One label of the SRV target loop: when room < |label| + margin the
   * buffer is (re)allocated to strlen(host) + |label| + 256 octets and room
   * becomes |label| + 256; then "." when the buffer holds text, then the
   * label, each taken off room. As written the margin is 1.
   */
  function AppendLabel(b: HostBuffer, part: seq<byte>, margin: nat): HostBuffer
  {
    var n := |part|;
    var grown := if b.room < n + margin then HostBuffer(b.host, |b.host| + n + 256, n + 256, b.inBounds) else b;
    var dotted := if grown.host != "" then HostBuffer(grown.host + ".", grown.size, grown.room - 1, grown.inBounds) else grown;
    var host := dotted.host + LabelText(part);
    HostBuffer(host, dotted.size, dotted.room - n, dotted.inBounds && |host| + 1 <= dotted.size)
  }

  function HostAfter(b: HostBuffer, labels: seq<seq<byte>>, margin: nat): HostBuffer
    decreases |labels|
  {
    if labels == [] then b else HostAfter(AppendLabel(b, labels[0], margin), labels[1..], margin)
  }

  /** Whatever the margin, the host buffer spells the labels. */
  lemma {:induction false} HostAfterSpells(b: HostBuffer, labels: seq<seq<byte>>, margin: nat)
    ensures HostAfter(b, labels, margin).host == JoinFrom(b.host, labels)
    decreases |labels|
  {
    if labels != [] {
      HostAfterSpells(AppendLabel(b, labels[0], margin), labels[1..], margin);
    }
  }

  lemma {:induction false} HostAfterStep(b: HostBuffer, labels: seq<seq<byte>>, next: HostBuffer)
    requires labels != [] && next == AppendLabel(b, labels[0], 2)
    ensures HostAfter(b, labels, 2) == HostAfter(next, labels[1..], 2)
  {
  }

  /** A one-octet label followed by four of 63 octets. */
  function OverlongTarget(): seq<seq<byte>>
  {
    [[97]] + seq(4, _ => seq(63, _ => 98 as byte))
  }

  /**
   * As written the growth test lets the last of these labels in with room
   * 64 = 63 + 1: the dot and the label fill all 257 octets and the
   * terminator is written one octet past the allocation.
   */
  lemma {:induction false} SrvHostOverflowsAsWritten()
    ensures !HostAfter(NoHost, OverlongTarget(), 1).inBounds
  {
    var big := seq(63, _ => 98 as byte);
    var labels := OverlongTarget();
    assert labels == [[97], big, big, big, big];
    WholeLabel([97]);
    WholeLabel(big);
    var b1 := AppendLabel(NoHost, [97], 1);
    assert |b1.host| == 1 && b1.size == 257 && b1.room == 256 && b1.inBounds;
    var b2 := AppendLabel(b1, big, 1);
    assert |b2.host| == 65 && b2.size == 257 && b2.room == 192 && b2.inBounds;
    var b3 := AppendLabel(b2, big, 1);
    assert |b3.host| == 129 && b3.size == 257 && b3.room == 128 && b3.inBounds;
    var b4 := AppendLabel(b3, big, 1);
    assert |b4.host| == 193 && b4.size == 257 && b4.room == 64 && b4.inBounds;
    var b5 := AppendLabel(b4, big, 1);
    assert |b5.host| == 257 && b5.size == 257 && !b5.inBounds;
    assert labels[1..][1..][1..][1..][1..] == [];
    calc {
      HostAfter(NoHost, labels, 1);
      HostAfter(b1, labels[1..], 1);
      HostAfter(b2, labels[1..][1..], 1);
      HostAfter(b3, labels[1..][1..][1..], 1);
      HostAfter(b4, labels[1..][1..][1..][1..], 1);
      HostAfter(b5, labels[1..][1..][1..][1..][1..], 1);
      b5;
    }
  }

  lemma {:induction false} RoomKept(b: HostBuffer, labels: seq<seq<byte>>)
    requires b.inBounds && b.room <= b.size - |b.host|
    ensures HostAfter(b, labels, 2).inBounds
    decreases |labels|
  {
    if labels != [] {
      var next := AppendLabel(b, labels[0], 2);
      assert |LabelText(labels[0])| <= |labels[0]|;
      RoomKept(next, labels[1..]);
    }
  }

  /** Growing when room < |label| + 2 keeps every write inside the allocation, whatever the labels. */
  lemma {:induction false} SrvHostFits(labels: seq<seq<byte>>)
    ensures HostAfter(NoHost, labels, 2).inBounds
  {
    RoomKept(NoHost, labels);
  }

  function HostText(host: Option<string>): string
  {
    if host.Some? then host.value else ""
  }

  /**
   * The host-building loop of dchk_SetHostByDNS, with the growth test
   * corrected to leave room for the '.': None (a NULL host) when the target
   * has no labels, otherwise the labels joined by dots; every write stays
   * inside the allocation.
   */
  method SrvTarget(msg: seq<byte>, pos: nat) returns (host: Option<string>)
    requires Labels(msg, pos).Some?
    ensures host.None? <==> Labels(msg, pos).value == []
    ensures host.Some? ==> host.value == HostAfter(NoHost, Labels(msg, pos).value, 2).host == Spelled(Labels(msg, pos).value)
  {
    ghost var labels := Labels(msg, pos).value;
    HostAfterSpells(NoHost, labels, 2);
    host := None;
    var hostbuffer := 0;
    ghost var size := 0;
    ghost var todo := labels;
    var cp := pos;
    while msg[cp] != 0
      invariant cp < |msg| && Labels(msg, cp) == Some(todo)
      invariant host.None? ==> cp == pos && size == 0 && hostbuffer == 0
      invariant labels == [] ==> host.None?
      invariant size >= 0 && hostbuffer <= size - |HostText(host)|
      invariant HostAfter(HostBuffer(HostText(host), size, hostbuffer, true), todo, 2) == HostAfter(NoHost, labels, 2)
      decreases |msg| - cp
    {
      var n := msg[cp] as int;
      var next := cp + 1 + n;
      LabelsNext(msg, cp, next);
      ghost var before := HostBuffer(HostText(host), size, hostbuffer, true);
      var part := msg[cp + 1..next];
      assert part == todo[0];
      host, hostbuffer, size := AddLabel(host, hostbuffer, size, part);
      HostAfterStep(before, todo, HostBuffer(host.value, size, hostbuffer, true));
      todo := todo[1..];
      cp := next;
    }
  }

  /** One turn of the host-building loop, with the corrected growth test. */
  method AddLabel(host: Option<string>, hostbuffer: int, ghost size: nat, part: seq<byte>)
    returns (host': Option<string>, hostbuffer': int, ghost size': nat)
    requires host.None? ==> size == 0 && hostbuffer == 0
    requires hostbuffer <= size - |HostText(host)|
    ensures host'.Some? && hostbuffer' <= size' - |host'.value|
    ensures AppendLabel(HostBuffer(HostText(host), size, hostbuffer, true), part, 2) == HostBuffer(host'.value, size', hostbuffer', true)
  {
    var n := |part|;
    host', hostbuffer', size' := host, hostbuffer, size;
    if hostbuffer' < n + 2 {
      hostbuffer' := n + 256;
      if host'.Some? {
        size' := |host'.value| + hostbuffer';
      } else {
        host' := Some("");
        size' := hostbuffer';
      }
    }
    var text := host'.value;
    if |text| > 0 {
      text := text + ".";
      hostbuffer' := hostbuffer' - 1;
    }
    assert |LabelText(part)| <= n;
    text := text + LabelText(part);
    hostbuffer' := hostbuffer' - n;
    assert |text| + 1 <= size';
    host' := Some(text);
  }

  /** What the SRV decoding reads lies inside the message: priority, weight, port and the target's labels. */
  predicate SrvReadable(msg: seq<byte>, data: nat)
  {
    data + 6 < |msg| && Labels(msg, data + 6).Some?
  }

  /** The target (None for the root name) and port of an SRV record. */
  datatype Server = Server(host: Option<string>, port: nat)

  /** The server the SRV data at data names: priority and weight skipped, the port in network order, then the target. */
  function SrvServer(msg: seq<byte>, data: nat): Server
    requires SrvReadable(msg, data)
  {
    var labels := Labels(msg, data + 6).value;
    Server(if labels == [] then None else Some(Spelled(labels)), BE16(msg[data + 4], msg[data + 5]))
  }

  // ---------------------------------------------------------------- answers

  /** res_query's outcome: the answer message, or the h_errno it failed with. */
  datatype Reply = Answered(msg: seq<byte>) | QueryFailed(hErrno: int)

  /**
   * The resolver library: res_query(name, C_IN, type) is query(name, type),
   * res_init returns resInit, hErrno is the h_errno hstrerror is asked
   * about when res_init or the parse of an answer fails, describe is
   * hstrerror, and names are dn_skipname and dn_expand.
   */
  datatype Dns = Dns(query: (string, int) -> Reply, resInit: int, hErrno: int, describe: int -> string, names: NameOps)

  /** Answer record i as parserr reads it from the first record of the section. */
  ghost function AnswerRecord(names: NameOps, l: Layout, i: int): Parse
    requires Walkable(names.skip, l)
  {
    ParseRecord(names, l, SectionCursor(l, Answer), Answer, i)
  }

  /** The data of answer record i when it reads without error and has the type. */
  ghost function DataOf(names: NameOps, l: Layout, i: int, rrType: int): Option<nat>
    requires Walkable(names.skip, l)
  {
    var p := AnswerRecord(names, l, i);
    if p.r == 0 && p.rr.value.rrType == rrType then p.rr.value.rdata else None
  }

  /** What the answer loop sees, record by record: the data of each answer record of the type, None for the others. */
  ghost function AnswerData(names: NameOps, l: Layout, rrType: int): (ds: seq<Option<nat>>)
    requires Walkable(names.skip, l)
    ensures |ds| == l.counts[Answer]
    ensures forall i :: 0 <= i < |ds| ==> ds[i] == DataOf(names, l, i, rrType)
  {
    seq(l.counts[Answer], i requires 0 <= i < l.counts[Answer] => DataOf(names, l, i, rrType))
  }

  /** The decoding of a record of the type at data reads only octets of the message. */
  predicate RecordReadable(msg: seq<byte>, data: nat, rrType: int)
  {
    if rrType == NaptrType then NaptrReadable(msg, data) else SrvReadable(msg, data)
  }

  /** Every record of the type in ds can be decoded. */
  predicate DataReadable(msg: seq<byte>, ds: seq<Option<nat>>, rrType: int)
  {
    forall i :: 0 <= i < |ds| && ds[i].Some? ==> RecordReadable(msg, ds[i].value, rrType)
  }

  /** Every answer record of the type can be decoded without reading past the message. */
  ghost predicate ReadableAnswers(names: NameOps, l: Layout, rrType: int)
  {
    Walkable(names.skip, l) ==> DataReadable(l.msg, AnswerData(names, l, rrType), rrType)
  }

  /** The answer to the query of name for the type, if it parses, has records of that type the code can decode. */
  ghost predicate ReplyReadable(dns: Dns, name: string, rrType: int)
  {
    match dns.query(name, rrType)
    case QueryFailed(_) => true
    case Answered(m) => Accepted(dns.names.skip, m) ==> ReadableAnswers(dns.names, Parsed(dns.names.skip, m), rrType)
  }

  /** The replacement of the first DCHK NAPTR record among the records ds locates. */
  function FirstNaptr(msg: seq<byte>, ds: seq<Option<nat>>): Option<string>
    requires DataReadable(msg, ds, NaptrType)
  {
    if ds == [] then None
    else if ds[0].Some? && NaptrReplacement(msg, ds[0].value).Some? then NaptrReplacement(msg, ds[0].value)
    else FirstNaptr(msg, ds[1..])
  }

  /** The server of the first SRV record among the records ds locates. */
  function FirstServer(msg: seq<byte>, ds: seq<Option<nat>>): Option<Server>
    requires DataReadable(msg, ds, SrvType)
  {
    if ds == [] then None
    else if ds[0].Some? then Some(SrvServer(msg, ds[0].value))
    else FirstServer(msg, ds[1..])
  }

  /** FirstNaptr is the replacement of the DCHK NAPTR record of least index: records before it are not DCHK ones. */
  lemma {:induction false} FirstNaptrIsFirst(msg: seq<byte>, ds: seq<Option<nat>>)
    requires DataReadable(msg, ds, NaptrType)
    ensures FirstNaptr(msg, ds).Some? <==>
      exists k :: 0 <= k < |ds| && ds[k].Some? && NaptrReplacement(msg, ds[k].value).Some?
    ensures FirstNaptr(msg, ds).Some? ==>
      exists k :: 0 <= k < |ds| && ds[k].Some? && FirstNaptr(msg, ds) == NaptrReplacement(msg, ds[k].value) &&
        forall j :: 0 <= j < k && ds[j].Some? ==> NaptrReplacement(msg, ds[j].value).None?
  {
    if ds != [] && !(ds[0].Some? && NaptrReplacement(msg, ds[0].value).Some?) {
      var rest := ds[1..];
      FirstNaptrIsFirst(msg, rest);
      if FirstNaptr(msg, rest).Some? {
        var k :| 0 <= k < |rest| && rest[k].Some? && FirstNaptr(msg, rest) == NaptrReplacement(msg, rest[k].value) &&
          forall j :: 0 <= j < k && rest[j].Some? ==> NaptrReplacement(msg, rest[j].value).None?;
        assert ds[k + 1] == rest[k];
        assert forall j :: 0 <= j < k + 1 && ds[j].Some? ==> NaptrReplacement(msg, ds[j].value).None? by {
          forall j | 0 < j < k + 1 && ds[j].Some?
            ensures NaptrReplacement(msg, ds[j].value).None?
          {
            assert ds[j] == rest[j - 1];
          }
        }
      } else {
        forall k | 0 <= k < |ds| && ds[k].Some?
          ensures NaptrReplacement(msg, ds[k].value).None?
        {
          if k > 0 {
            assert ds[k] == rest[k - 1];
          }
        }
      }
    }
  }

  /** FirstServer is the server of the SRV record of least index, and None exactly when there is no SRV record. */
  lemma {:induction false} FirstServerIsFirst(msg: seq<byte>, ds: seq<Option<nat>>)
    requires DataReadable(msg, ds, SrvType)
    ensures FirstServer(msg, ds).None? <==> forall k :: 0 <= k < |ds| ==> ds[k].None?
    ensures FirstServer(msg, ds).Some? ==>
      exists k :: 0 <= k < |ds| && ds[k].Some? && FirstServer(msg, ds) == Some(SrvServer(msg, ds[k].value)) &&
        forall j :: 0 <= j < k ==> ds[j].None?
  {
    if ds != [] && ds[0].None? {
      var rest := ds[1..];
      FirstServerIsFirst(msg, rest);
      if FirstServer(msg, rest).Some? {
        var k :| 0 <= k < |rest| && rest[k].Some? && FirstServer(msg, rest) == Some(SrvServer(msg, rest[k].value)) &&
          forall j :: 0 <= j < k ==> rest[j].None?;
        assert ds[k + 1] == rest[k];
        assert forall j :: 0 <= j < k + 1 ==> ds[j].None? by {
          forall j | 0 < j < k + 1
            ensures ds[j].None?
          {
            assert ds[j] == rest[j - 1];
          }
        }
      } else {
        forall k | 0 <= k < |ds|
          ensures ds[k].None?
        {
          if k > 0 {
            assert ds[k] == rest[k - 1];
          }
        }
      }
    }
  }

  /** One step of the NAPTR loop: the search from record i is record i's DCHK replacement or the search from i + 1. */
  lemma {:induction false} FirstNaptrStep(msg: seq<byte>, ds: seq<Option<nat>>, i: nat)
    requires i < |ds| && DataReadable(msg, ds[i..], NaptrType)
    ensures ds[i].Some? ==> NaptrReadable(msg, ds[i].value)
    ensures DataReadable(msg, ds[i + 1..], NaptrType)
    ensures FirstNaptr(msg, ds[i..]) ==
      if ds[i].Some? && NaptrReplacement(msg, ds[i].value).Some? then NaptrReplacement(msg, ds[i].value)
      else FirstNaptr(msg, ds[i + 1..])
  {
    assert ds[i..][0] == ds[i];
    assert ds[i..][1..] == ds[i + 1..];
  }

  /** One step of the SRV loop: the search from record i is record i's server or the search from i + 1. */
  lemma {:induction false} FirstServerStep(msg: seq<byte>, ds: seq<Option<nat>>, i: nat)
    requires i < |ds| && DataReadable(msg, ds[i..], SrvType)
    ensures ds[i].Some? ==> SrvReadable(msg, ds[i].value)
    ensures DataReadable(msg, ds[i + 1..], SrvType)
    ensures FirstServer(msg, ds[i..]) ==
      if ds[i].Some? then Some(SrvServer(msg, ds[i].value)) else FirstServer(msg, ds[i + 1..])
  {
    assert ds[i..][0] == ds[i];
    assert ds[i..][1..] == ds[i + 1..];
  }

  /** The replacement of the first DCHK NAPTR record of an answer message, if it parses. */
  ghost function AnswerNaptr(names: NameOps, m: seq<byte>): Option<string>
    requires Accepted(names.skip, m) ==> ReadableAnswers(names, Parsed(names.skip, m), NaptrType)
  {
    if !Accepted(names.skip, m) then None
    else AcceptedWalkable(names.skip, m); var l := Parsed(names.skip, m); FirstNaptr(m, AnswerData(names, l, NaptrType))
  }

  /** The server of the first SRV record of an answer message, if it parses. */
  ghost function AnswerServer(names: NameOps, m: seq<byte>): Option<Server>
    requires Accepted(names.skip, m) ==> ReadableAnswers(names, Parsed(names.skip, m), SrvType)
  {
    if !Accepted(names.skip, m) then None
    else AcceptedWalkable(names.skip, m); var l := Parsed(names.skip, m); FirstServer(m, AnswerData(names, l, SrvType))
  }

  /** The SRV owner the NAPTR lookup of tld yields. */
  ghost function NaptrName(dns: Dns, tld: string): Option<string>
    requires ReplyReadable(dns, tld, NaptrType)
  {
    match dns.query(tld, NaptrType)
    case QueryFailed(_) => None
    case Answered(m) => AnswerNaptr(dns.names, m)
  }

  /** The server the SRV lookup of name yields. */
  ghost function ServerOf(dns: Dns, name: string): Option<Server>
    requires ReplyReadable(dns, name, SrvType)
  {
    match dns.query(name, SrvType)
    case QueryFailed(_) => None
    case Answered(m) => AnswerServer(dns.names, m)
  }

  /** The error a failed NAPTR query sets: 74002 for HOST_NOT_FOUND, 74004 for NO_DATA, otherwise 74001 with h_errno and its text. */
  function NaptrQueryError(tld: string, e: int, describe: int -> string): (int, Option<string>)
  {
    if e == 1 then (74002, Some(tld))
    else if e == 4 then (74004, Some(tld))
    else (74001, Some(IntToString(e) + ": " + describe(e)))
  }

  /** The error a failed SRV query sets: 74006 for HOST_NOT_FOUND, otherwise 74007, with h_errno and its text unless NO_DATA. */
  function SrvQueryError(name: string, e: int, describe: int -> string): (int, Option<string>)
  {
    if e == 1 then (74006, Some(name))
    else if e == 4 then (74007, Some(name))
    else (74007, Some(IntToString(e) + ": " + describe(e)))
  }

  // ---------------------------------------------------------------- lookups

  /** One turn of the NAPTR loop of dchk_GetNAPTR: parserr of answer i, and the NAPTR decoding when it is a NAPTR record; d is that record's data. */
  method TryNaptr(h: Handle, m: NsMsg, names: NameOps, i: int, ghost d: Option<nat>) returns (buffer: Option<string>)
    requires NamesAgree(names) && Walkable(names.skip, m.LayoutOf())
    requires Consistent(m.LayoutOf(), m.CursorOf()) && Positioned(names.skip, m.LayoutOf(), m.CursorOf())
    requires 0 <= i < m.LayoutOf().counts[Answer] && d == DataOf(names, m.LayoutOf(), i, NaptrType)
    requires d.Some? ==> NaptrReadable(m.msg, d.value)
    modifies m, h`error, h`errorText
    ensures m.LayoutOf() == old(m.LayoutOf())
    ensures Consistent(m.LayoutOf(), m.CursorOf()) && Positioned(names.skip, m.LayoutOf(), m.CursorOf())
    ensures buffer == if d.Some? then NaptrReplacement(m.msg, d.value) else None
    ensures (h.error == old(h.error) && h.errorText == old(h.errorText)) ||
      (old(h.initialized) && h.error == 74057 && h.errorText == None)
  {
    ghost var l := m.LayoutOf();
    ghost var c := m.CursorOf();
    var r, errno, rr := m.ParseRr(names, Answer, i);
    ParseIndependentOfCursor(names, l, c, Answer, i);
    ParseKeepsPositioned(names, l, c, Answer, i);
    assert r == 0 && rr.value.rrType == NaptrType <==> d.Some?;
    buffer := None;
    if r == 0 && rr.value.rrType == NaptrType {
      assert d == rr.value.rdata;
      buffer := ParseNaptrRecord(h, m.msg, rr.value.rdata.value);
    }
  }

  /** A turn of the NAPTR loop over the answers ds the layout l yields: the search from record i is the replacement found or the search from i + 1. */
  method NaptrTurn(h: Handle, m: NsMsg, names: NameOps, ghost l: Layout, ghost ds: seq<Option<nat>>, i: int) returns (buffer: Option<string>)
    requires NamesAgree(names) && Walkable(names.skip, l) && ds == AnswerData(names, l, NaptrType)
    requires m.LayoutOf() == l && Consistent(l, m.CursorOf()) && Positioned(names.skip, l, m.CursorOf())
    requires 0 <= i < |ds| && DataReadable(l.msg, ds[i..], NaptrType)
    modifies m, h`error, h`errorText
    ensures m.LayoutOf() == l && Consistent(l, m.CursorOf()) && Positioned(names.skip, l, m.CursorOf())
    ensures DataReadable(l.msg, ds[i + 1..], NaptrType)
    ensures buffer.Some? ==> buffer == FirstNaptr(l.msg, ds[i..])
    ensures buffer.None? ==> FirstNaptr(l.msg, ds[i + 1..]) == FirstNaptr(l.msg, ds[i..])
    ensures (h.error == old(h.error) && h.errorText == old(h.errorText)) ||
      (old(h.initialized) && h.error == 74057 && h.errorText == None)
  {
    FirstNaptrStep(l.msg, ds, i);
    buffer := TryNaptr(h, m, names, i, ds[i]);
  }

  /** The NAPTR loop of dchk_GetNAPTR: the first DCHK replacement among the answers; each NAPTR record of another service leaves 74057. */
  method SelectNaptr(h: Handle, m: NsMsg, names: NameOps) returns (name: Option<string>)
    requires NamesAgree(names) && Walkable(names.skip, m.LayoutOf()) && ReadableAnswers(names, m.LayoutOf(), NaptrType)
    requires Consistent(m.LayoutOf(), m.CursorOf()) && Positioned(names.skip, m.LayoutOf(), m.CursorOf())
    modifies m, h`error, h`errorText
    ensures name == FirstNaptr(old(m.msg), AnswerData(names, old(m.LayoutOf()), NaptrType))
    ensures (h.error == old(h.error) && h.errorText == old(h.errorText)) ||
      (old(h.initialized) && h.error == 74057 && h.errorText == None)
  {
    ghost var l := m.LayoutOf();
    ghost var ds := AnswerData(names, l, NaptrType);
    var nr := m.Count(Answer);
    var i := 0;
    name := None;
    while i < nr && name.None?
      invariant 0 <= i <= nr == |ds| && m.LayoutOf() == l
      invariant Consistent(l, m.CursorOf()) && Positioned(names.skip, l, m.CursorOf())
      invariant name.None? ==> DataReadable(l.msg, ds[i..], NaptrType) && FirstNaptr(l.msg, ds[i..]) == FirstNaptr(l.msg, ds)
      invariant name.Some? ==> name == FirstNaptr(l.msg, ds)
      invariant (h.error == old(h.error) && h.errorText == old(h.errorText)) ||
        (old(h.initialized) && h.error == 74057 && h.errorText == None)
    {
      name := NaptrTurn(h, m, names, l, ds, i);
      i := i + 1;
    }
  }

  /** dchk_GetNAPTR: res_query for the TLD's NAPTR records, then the first DCHK replacement among the answers. */
  method GetNaptr(h: Handle, dns: Dns, tld: string) returns (name: Option<string>)
    requires NamesAgree(dns.names) && ReplyReadable(dns, tld, NaptrType)
    modifies h`error, h`errorText
    ensures name == NaptrName(dns, tld)
    ensures !old(h.initialized) ==> h.error == old(h.error) && h.errorText == old(h.errorText)
    ensures name.Some? ==>
      (h.error == old(h.error) && h.errorText == old(h.errorText)) ||
      (old(h.initialized) && h.error == 74057 && h.errorText == None)
    ensures old(h.initialized) && dns.query(tld, NaptrType).QueryFailed? ==>
      (h.error, h.errorText) == NaptrQueryError(tld, dns.query(tld, NaptrType).hErrno, dns.describe)
    ensures old(h.initialized) && dns.query(tld, NaptrType).Answered? && !Accepted(dns.names.skip, dns.query(tld, NaptrType).msg) ==>
      h.error == 74003 && h.errorText == Some(dns.describe(dns.hErrno))
    ensures old(h.initialized) && dns.query(tld, NaptrType).Answered? && Accepted(dns.names.skip, dns.query(tld, NaptrType).msg) ==>
      (Counts(dns.query(tld, NaptrType).msg)[Answer] == 0 ==> h.error == 74004 && h.errorText == Some(tld)) &&
      (Counts(dns.query(tld, NaptrType).msg)[Answer] > 0 && name.None? ==> h.error == 74005 && h.errorText == Some(tld))
  {
    var reply := dns.query(tld, NaptrType);
    if reply.QueryFailed? {
      var e := NaptrQueryError(tld, reply.hErrno, dns.describe);
      SetError(h, e.0, e.1);
      return None;
    }
    var m := new NsMsg();
    var res, errno := m.InitParse(dns.names.skip, reply.msg);
    if res < 0 {
      SetError(h, 74003, Some(dns.describe(dns.hErrno)));
      return None;
    }
    AcceptedWalkable(dns.names.skip, reply.msg);
    var nr := m.Count(Answer);
    if nr == 0 {
      SetError(h, 74004, Some(tld));
      return None;
    }
    name := SelectNaptr(h, m, dns.names);
    if name.None? {
      SetError(h, 74005, Some(tld));
    }
  }

  /** One turn of the SRV loop of dchk_SetHostByDNS: parserr of answer i, and the SRV decoding when it is an SRV record; d is that record's data. */
  method TrySrv(m: NsMsg, names: NameOps, i: int, ghost d: Option<nat>) returns (server: Option<Server>)
    requires NamesAgree(names) && Walkable(names.skip, m.LayoutOf())
    requires Consistent(m.LayoutOf(), m.CursorOf()) && Positioned(names.skip, m.LayoutOf(), m.CursorOf())
    requires 0 <= i < m.LayoutOf().counts[Answer] && d == DataOf(names, m.LayoutOf(), i, SrvType)
    requires d.Some? ==> SrvReadable(m.msg, d.value)
    modifies m
    ensures m.LayoutOf() == old(m.LayoutOf())
    ensures Consistent(m.LayoutOf(), m.CursorOf()) && Positioned(names.skip, m.LayoutOf(), m.CursorOf())
    ensures server == if d.Some? then Some(SrvServer(m.msg, d.value)) else None
  {
    ghost var l := m.LayoutOf();
    ghost var c := m.CursorOf();
    var r, errno, rr := m.ParseRr(names, Answer, i);
    ParseIndependentOfCursor(names, l, c, Answer, i);
    ParseKeepsPositioned(names, l, c, Answer, i);
    assert r == 0 && rr.value.rrType == SrvType <==> d.Some?;
    server := None;
    if r == 0 && rr.value.rrType == SrvType {
      assert d == rr.value.rdata;
      var decoded := DecodeSrv(m.msg, rr.value.rdata.value);
      server := Some(decoded);
    }
  }

  /** The SRV decoding of dchk_SetHostByDNS: priority and weight skipped, the port read with ns_get16, then the target. */
  method DecodeSrv(msg: seq<byte>, data: nat) returns (server: Server)
    requires SrvReadable(msg, data)
    ensures server == SrvServer(msg, data)
  {
    var cp := data + 4;
    var port := BE16(msg[cp], msg[cp + 1]);
    cp := cp + 2;
    var host := SrvTarget(msg, cp);
    server := Server(host, port);
  }

  /** A turn of the SRV loop over the answers ds the layout l yields: the search from record i is the server found or the search from i + 1. */
  method SrvTurn(m: NsMsg, names: NameOps, ghost l: Layout, ghost ds: seq<Option<nat>>, i: int) returns (server: Option<Server>)
    requires NamesAgree(names) && Walkable(names.skip, l) && ds == AnswerData(names, l, SrvType)
    requires m.LayoutOf() == l && Consistent(l, m.CursorOf()) && Positioned(names.skip, l, m.CursorOf())
    requires 0 <= i < |ds| && DataReadable(l.msg, ds[i..], SrvType)
    modifies m
    ensures m.LayoutOf() == l && Consistent(l, m.CursorOf()) && Positioned(names.skip, l, m.CursorOf())
    ensures DataReadable(l.msg, ds[i + 1..], SrvType)
    ensures server.Some? ==> server == FirstServer(l.msg, ds[i..])
    ensures server.None? ==> FirstServer(l.msg, ds[i + 1..]) == FirstServer(l.msg, ds[i..])
  {
    FirstServerStep(l.msg, ds, i);
    server := TrySrv(m, names, i, ds[i]);
  }

  /** The SRV loop of dchk_SetHostByDNS: the server of the first SRV answer. */
  method SelectSrv(m: NsMsg, names: NameOps) returns (server: Option<Server>)
    requires NamesAgree(names) && Walkable(names.skip, m.LayoutOf()) && ReadableAnswers(names, m.LayoutOf(), SrvType)
    requires Consistent(m.LayoutOf(), m.CursorOf()) && Positioned(names.skip, m.LayoutOf(), m.CursorOf())
    modifies m
    ensures server == FirstServer(old(m.msg), AnswerData(names, old(m.LayoutOf()), SrvType))
  {
    ghost var l := m.LayoutOf();
    ghost var ds := AnswerData(names, l, SrvType);
    var nr := m.Count(Answer);
    var i := 0;
    server := None;
    while i < nr && server.None?
      invariant 0 <= i <= nr == |ds| && m.LayoutOf() == l
      invariant Consistent(l, m.CursorOf()) && Positioned(names.skip, l, m.CursorOf())
      invariant server.None? ==> DataReadable(l.msg, ds[i..], SrvType) && FirstServer(l.msg, ds[i..]) == FirstServer(l.msg, ds)
      invariant server.Some? ==> server == FirstServer(l.msg, ds)
    {
      server := SrvTurn(m, names, l, ds, i);
      i := i + 1;
    }
  }

  /** The parse of an SRV answer in dchk_SetHostByDNS: initparse, the check for answers and the SRV loop. */
  method ParseSrvAnswer(names: NameOps, m: seq<byte>) returns (accepted: bool, server: Option<Server>)
    requires NamesAgree(names) && (Accepted(names.skip, m) ==> ReadableAnswers(names, Parsed(names.skip, m), SrvType))
    ensures accepted == Accepted(names.skip, m)
    ensures server == AnswerServer(names, m)
  {
    var msg := new NsMsg();
    var res, errno := msg.InitParse(names.skip, m);
    if res < 0 {
      return false, None;
    }
    AcceptedWalkable(names.skip, m);
    accepted := true;
    var nr := msg.Count(Answer);
    if nr == 0 {
      assert AnswerData(names, msg.LayoutOf(), SrvType) == [];
      return accepted, None;
    }
    server := SelectSrv(msg, names);
  }

  /** The part of dchk_SetHostByDNS after the NAPTR lookup: res_init, the SRV query for name, then the answer. */
  method LookupServer(h: Handle, dns: Dns, name: string) returns (r: int)
    requires NamesAgree(dns.names) && ReplyReadable(dns, name, SrvType)
    modifies h`server, h`port, h`error, h`errorText
    ensures r == 0 || r == 1
    ensures r == 1 <==> dns.resInit >= 0 && ServerOf(dns, name).Some? && ServerOf(dns, name).value.host.Some?
    ensures r == 1 ==>
      h.server == ServerOf(dns, name).value.host &&
      h.port == (if ServerOf(dns, name).value.port != 0 then ServerOf(dns, name).value.port else DefaultPort) &&
      h.error == old(h.error) && h.errorText == old(h.errorText)
    ensures r == 0 ==> h.server == old(h.server) && h.port == old(h.port)
    ensures !old(h.initialized) ==> h.error == old(h.error) && h.errorText == old(h.errorText)
    ensures old(h.initialized) && dns.resInit < 0 ==> h.error == 74000 && h.errorText == Some(dns.describe(dns.hErrno))
    ensures old(h.initialized) && dns.resInit >= 0 && dns.query(name, SrvType).QueryFailed? ==>
      (h.error, h.errorText) == SrvQueryError(name, dns.query(name, SrvType).hErrno, dns.describe)
    ensures old(h.initialized) && dns.resInit >= 0 && dns.query(name, SrvType).Answered? ==>
      (!Accepted(dns.names.skip, dns.query(name, SrvType).msg) ==> h.error == 74003 && h.errorText == Some(dns.describe(dns.hErrno))) &&
      (Accepted(dns.names.skip, dns.query(name, SrvType).msg) && ServerOf(dns, name).None? ==> h.error == 74008 && h.errorText == Some(name)) &&
      (ServerOf(dns, name).Some? && ServerOf(dns, name).value.host.None? ==> h.error == 74025 && h.errorText == Some(HostArgumentText))
  {
    if dns.resInit < 0 {
      SetError(h, 74000, Some(dns.describe(dns.hErrno)));
      return 0;
    }
    var reply := dns.query(name, SrvType);
    if reply.QueryFailed? {
      var e := SrvQueryError(name, reply.hErrno, dns.describe);
      SetError(h, e.0, e.1);
      return 0;
    }
    r := UseSrvAnswer(h, dns.names, reply.msg, name, dns.describe(dns.hErrno));
  }

  /** The SRV answer for name: initparse, the SRV loop and irislwz_SetHost with the first SRV record; parseError is the hstrerror text. */
  method UseSrvAnswer(h: Handle, names: NameOps, m: seq<byte>, name: string, parseError: string) returns (r: int)
    requires NamesAgree(names) && (Accepted(names.skip, m) ==> ReadableAnswers(names, Parsed(names.skip, m), SrvType))
    modifies h`server, h`port, h`error, h`errorText
    ensures r == 0 || r == 1
    ensures r == 1 <==> AnswerServer(names, m).Some? && AnswerServer(names, m).value.host.Some?
    ensures r == 1 ==>
      h.server == AnswerServer(names, m).value.host &&
      h.port == (if AnswerServer(names, m).value.port != 0 then AnswerServer(names, m).value.port else DefaultPort) &&
      h.error == old(h.error) && h.errorText == old(h.errorText)
    ensures r == 0 ==> h.server == old(h.server) && h.port == old(h.port)
    ensures !old(h.initialized) ==> h.error == old(h.error) && h.errorText == old(h.errorText)
    ensures old(h.initialized) && !Accepted(names.skip, m) ==> h.error == 74003 && h.errorText == Some(parseError)
    ensures old(h.initialized) && Accepted(names.skip, m) && AnswerServer(names, m).None? ==> h.error == 74008 && h.errorText == Some(name)
    ensures old(h.initialized) && AnswerServer(names, m).Some? && AnswerServer(names, m).value.host.None? ==>
      h.error == 74025 && h.errorText == Some(HostArgumentText)
  {
    var accepted, server := ParseSrvAnswer(names, m);
    if !accepted {
      SetError(h, 74003, Some(parseError));
      return 0;
    }
    if server.None? {
      SetError(h, 74008, Some(name));
      return 0;
    }
    var ok := SetHost(h, server.value.host, server.value.port);
    r := if ok then 1 else 0;
  }

  /** The answers the lookups for tld read can be decoded: the NAPTR answer for tld, and the SRV answer for the owner it names. */
  ghost predicate DnsReadable(dns: Dns, tld: string)
  {
    ReplyReadable(dns, tld, NaptrType) &&
    (NaptrName(dns, tld).Some? ==> ReplyReadable(dns, NaptrName(dns, tld).value, SrvType))
  }

  /** The server DNS gives for tld: the first SRV answer for the owner its DCHK NAPTR record names, if res_init succeeds. */
  ghost function DnsServer(dns: Dns, tld: string): Option<Server>
    requires DnsReadable(dns, tld)
  {
    match NaptrName(dns, tld)
    case None => None
    case Some(name) => if dns.resInit < 0 then None else ServerOf(dns, name)
  }

  /** The error dchk_GetNAPTR leaves when DNS names no DCHK service for tld. */
  ghost predicate NaptrFailure(h: Handle, dns: Dns, tld: string)
    reads h
    requires NamesAgree(dns.names) && ReplyReadable(dns, tld, NaptrType)
  {
    var reply := dns.query(tld, NaptrType);
    (reply.QueryFailed? ==> (h.error, h.errorText) == NaptrQueryError(tld, reply.hErrno, dns.describe)) &&
    (reply.Answered? && !Accepted(dns.names.skip, reply.msg) ==> h.error == 74003 && h.errorText == Some(dns.describe(dns.hErrno))) &&
    (reply.Answered? && Accepted(dns.names.skip, reply.msg) ==>
      (Counts(reply.msg)[Answer] == 0 ==> h.error == 74004 && h.errorText == Some(tld)) &&
      (Counts(reply.msg)[Answer] > 0 ==> h.error == 74005 && h.errorText == Some(tld)))
  }

  /** The error the SRV lookup of dchk_SetHostByDNS leaves when it finds no server host for name. */
  ghost predicate ServerFailure(h: Handle, dns: Dns, name: string)
    reads h
    requires NamesAgree(dns.names) && ReplyReadable(dns, name, SrvType)
  {
    var reply := dns.query(name, SrvType);
    (dns.resInit < 0 ==> h.error == 74000 && h.errorText == Some(dns.describe(dns.hErrno))) &&
    (dns.resInit >= 0 && reply.QueryFailed? ==> (h.error, h.errorText) == SrvQueryError(name, reply.hErrno, dns.describe)) &&
    (dns.resInit >= 0 && reply.Answered? ==>
      (!Accepted(dns.names.skip, reply.msg) ==> h.error == 74003 && h.errorText == Some(dns.describe(dns.hErrno))) &&
      (Accepted(dns.names.skip, reply.msg) && ServerOf(dns, name).None? ==> h.error == 74008 && h.errorText == Some(name)) &&
      (ServerOf(dns, name).Some? && ServerOf(dns, name).value.host.None? ==> h.error == 74025 && h.errorText == Some(HostArgumentText)))
  }

  /**
   * dchk_SetHostByDNS: 1 when DNS names a server with a host name for the
   * TLD and irislwz_SetHost takes it, otherwise 0 with the error of the
   * step that failed.
   */
  method SetHostByDns(h: Handle?, dns: Dns, tld: Option<string>) returns (r: int)
    requires NamesAgree(dns.names)
    requires tld.Some? ==> DnsReadable(dns, tld.value)
    modifies (if h == null then {} else {h})`server, (if h == null then {} else {h})`port
    modifies (if h == null then {} else {h})`error, (if h == null then {} else {h})`errorText
    ensures r == 0 || r == 1
    ensures h == null ==> r == 0
    ensures h != null && tld.None? ==> r == 0 && (old(h.initialized) ==> h.error == 74021 && h.errorText == None)
    ensures h != null && tld.Some? ==>
      (r == 1 <==> DnsServer(dns, tld.value).Some? && DnsServer(dns, tld.value).value.host.Some?)
    ensures h != null && tld.Some? && r == 1 ==>
      h.server == DnsServer(dns, tld.value).value.host &&
      h.port == (if DnsServer(dns, tld.value).value.port != 0 then DnsServer(dns, tld.value).value.port else DefaultPort)
    ensures h != null && r == 0 ==> h.server == old(h.server) && h.port == old(h.port)
    ensures h != null && tld.Some? && r == 0 && old(h.initialized) ==>
      match NaptrName(dns, tld.value)
      case None => NaptrFailure(h, dns, tld.value)
      case Some(name) => ServerFailure(h, dns, name)
  {
    if h == null {
      return 0;
    }
    if tld.None? {
      SetError(h, 74021, None);
      return 0;
    }
    var name := GetNaptr(h, dns, tld.value);
    if name.None? {
      return 0;
    }
    r := LookupServer(h, dns, name.value);
  }
}
