/**
 * The IRIS-LWZ transaction engine (src/lib/irislwz.c): the handle setters,
 * the request header (RFC 4993 section 3.1), the test overrides, the
 * receive-side checks and inflate retry of a transaction, the query
 * builders and the classification of a response by payload type.
 */
module IrisLwz {
  import opened Wrappers
  import opened LibC
  import opened XmlTree
  import opened SocketErrors
  import opened IrisTypes
  import opened Errors
  import opened XmlParser

  // ---------------------------------------------------------------------
  // Version

  const VersionMajor := 0
  const VersionMinor := 5
  const VersionBuild := 8

  /**
   * irislwz_CheckMinVersion: 0 when the library is exactly the requested
   * version, 1 when it is newer, -1 when it is older, comparing the packed
   * values major<<16 + minor<<8 + build. The shifts must not overflow int.
   */
  function CheckMinVersion(major: int, minor: int, build: int): (r: int)
    requires 0 <= major < 32768 && 0 <= minor < 8388608
    requires -2147483648 <= major * 65536 + minor * 256 + build < 2147483648
    ensures r in {-1, 0, 1}
    ensures r == 0 <==> major * 65536 + minor * 256 + build == VersionMajor * 65536 + VersionMinor * 256 + VersionBuild
    ensures r == 1 <==> major * 65536 + minor * 256 + build < VersionMajor * 65536 + VersionMinor * 256 + VersionBuild
  {
    var lib := VersionMajor * 65536 + VersionMinor * 256 + VersionBuild;
    var req := major * 65536 + minor * 256 + build;
    if lib == req then 0 else if lib > req then 1 else -1
  }

  /** With minor and build below 256 the packed comparison is the lexicographic one. */
  lemma {:induction false} CheckMinVersionIsLexicographic(major: int, minor: int, build: int)
    requires 0 <= major < 32768 && 0 <= minor < 256 && 0 <= build < 256
    ensures CheckMinVersion(major, minor, build) == 1 <==>
      (major < VersionMajor || (major == VersionMajor && (minor < VersionMinor || (minor == VersionMinor && build < VersionBuild))))
    ensures CheckMinVersion(major, minor, build) == 0 <==>
      (major == VersionMajor && minor == VersionMinor && build == VersionBuild)
  {
    var req := major * 65536 + minor * 256 + build;
    if major > VersionMajor {
      assert req >= 65536;
    }
  }

  // ---------------------------------------------------------------------
  // Setters

  /** irislwz_SetTimeout. */
  method SetTimeout(h: Handle, seconds: int, useconds: int) returns (ok: bool)
    modifies h`timeoutSeconds, h`timeoutUseconds
    ensures ok && h.timeoutSeconds == seconds && h.timeoutUseconds == useconds
  {
    h.timeoutSeconds := seconds;
    h.timeoutUseconds := useconds;
    ok := true;
  }

  /**
   * irislwz_SetAuthority: NULL clears the authority and succeeds; a name of
   * more than 255 octets (which the one-octet length field cannot carry)
   * fails with 74027, its length as detail, and leaves the authority unset.
   */
  method SetAuthority(h: Handle, authority: Option<string>) returns (ok: bool)
    modifies h`authority, h`error, h`errorText
    ensures h.authority.Some? ==> |h.authority.value| <= 255
    ensures authority.None? ==> ok && h.authority.None?
    ensures authority.Some? && |authority.value| > 255 ==>
      !ok && h.authority.None? &&
      (old(h.initialized) ==> h.error == 74027 && h.errorText == Some(IntToString(|authority.value|)))
    ensures authority.Some? && |authority.value| <= 255 ==> ok && h.authority == authority
    ensures ok ==> h.error == old(h.error) && h.errorText == old(h.errorText)
  {
    h.authority := None;
    if authority.None? {
      return true;
    }
    if |authority.value| > 255 {
      SetError(h, 74027, Some(IntToString(|authority.value|)));
      return false;
    }
    h.authority := authority;
    ok := true;
  }

  /** The top-level label of a name: the text after its last '.', when it has one. */
  function Tld(domain: string): (t: Option<string>)
    ensures t.None? <==> '.' !in domain
    ensures t.Some? ==> '.' !in t.value && |t.value| < |domain|
    ensures t.Some? ==> domain == domain[..|domain| - |t.value| - 1] + "." + t.value
  {
    match LastIndexOf(domain, '.')
    case None => None
    case Some(i) =>
      assert domain == domain[..i] + "." + domain[i + 1..];
      Some(domain[i + 1..])
  }

  /** The German ENUM zone, the one arpa authority the client recognises. */
  const EnumAuthority := "9.4.e164.arpa"

  /** The authority irislwz_SetAuthorityByDomain picks for a name with a top-level label. */
  function AuthorityForDomain(domain: string): Option<string>
  {
    match Tld(domain)
    case None => None
    case Some(t) =>
      if CaseEq(t, "arpa") && Find(domain, EnumAuthority).Some? then Some(EnumAuthority) else Some(t)
  }

  /**
   * The authority is the top-level label, except that an arpa name inside
   * the German ENUM zone gets the zone itself.
   */
  lemma {:induction false} AuthorityForDomainMeaning(domain: string)
    ensures '.' !in domain ==> AuthorityForDomain(domain).None?
    ensures '.' in domain && !CaseEq(Tld(domain).value, "arpa") ==> AuthorityForDomain(domain) == Tld(domain)
    ensures '.' in domain && CaseEq(Tld(domain).value, "arpa") ==>
      (AuthorityForDomain(domain) == Some(EnumAuthority) <==> exists k :: MatchAt(domain, EnumAuthority, k))
  {
    if '.' in domain && CaseEq(Tld(domain).value, "arpa") && Find(domain, EnumAuthority).None? {
      assert Tld(domain).value != EnumAuthority;
    }
  }

  /**
   * irislwz_SetAuthorityByDomain: a name without '.' fails with 74058, the
   * name passed as the format of the detail; otherwise the authority is set as by irislwz_SetAuthority.
   * (A NULL name is undefined behaviour in the source, so the name is a string.)
   */
  method SetAuthorityByDomain(h: Handle, domain: string) returns (ok: bool)
    modifies h`authority, h`error, h`errorText
    ensures AuthorityForDomain(domain).None? ==>
      !ok && h.authority == old(h.authority) &&
      (old(h.initialized) ==> h.error == 74058 && h.errorText == Some(FormatDetail(domain)))
    ensures AuthorityForDomain(domain).Some? ==>
      var a := AuthorityForDomain(domain).value;
      (ok <==> |a| <= 255) && (h.authority == if ok then Some(a) else None)
    ensures AuthorityForDomain(domain).Some? && !ok && old(h.initialized) ==>
      h.error == 74027 && h.errorText == Some(IntToString(|AuthorityForDomain(domain).value|))
    ensures ok ==> h.error == old(h.error) && h.errorText == old(h.errorText)
    ensures old(h.Valid()) ==> h.Valid()
  {
    var t := Tld(domain);
    if t.None? {
      SetError(h, 74058, Some(FormatDetail(domain)));
      return false;
    }
    var authority := t.value;
    if CaseEq(authority, "arpa") {
      if Find(domain, EnumAuthority).Some? {
        authority := EnumAuthority;
      }
    }
    ok := SetAuthority(h, Some(authority));
  }

  /**
   * irislwz_SetAuthorityByDomainList: the authority of the first name of the
   * list; 74025 for a NULL list, 74042 for an empty one.
   */
  method SetAuthorityByDomainList(h: Handle, list: DomainList?) returns (ok: bool)
    modifies h`authority, h`error, h`errorText
    ensures list == null ==> !ok && h.authority == old(h.authority)
    ensures list == null && old(h.initialized) ==> h.error == 74025 && h.errorText == Some(DomainListArgumentText)
    ensures list != null && list.records == [] ==> !ok && h.authority == old(h.authority)
    ensures list != null && list.records == [] && old(h.initialized) ==> h.error == 74042 && h.errorText == Some("")
    ensures list != null && list.records != [] && AuthorityForDomain(list.records[0].domain).Some? ==>
      var a := AuthorityForDomain(list.records[0].domain).value;
      (ok <==> |a| <= 255) && h.authority == (if ok then Some(a) else None)
    ensures list != null && list.records != [] && AuthorityForDomain(list.records[0].domain).Some? && !ok && old(h.initialized) ==>
      h.error == 74027 && h.errorText == Some(IntToString(|AuthorityForDomain(list.records[0].domain).value|))
    ensures list != null && list.records != [] && AuthorityForDomain(list.records[0].domain).None? ==>
      !ok && h.authority == old(h.authority) &&
      (old(h.initialized) ==> h.error == 74058 && h.errorText == Some(FormatDetail(list.records[0].domain)))
    ensures ok ==> h.error == old(h.error) && h.errorText == old(h.errorText)
  {
    if list == null {
      SetError(h, 74025, Some(DomainListArgumentText));
      return false;
    }
    if |list.records| == 0 {
      SetError(h, 74042, Some(""));
      return false;
    }
    ok := SetAuthorityByDomain(h, list.records[0].domain);
  }

  const DomainListArgumentText := "int irislwz_SetAuthorityByDomainList(IRISLWZ_HANDLE *handle, ==> DCHK_DOMAINLIST *list <==)"
  const HostArgumentText := "int irislwz_SetHost(IRISLWZ_HANDLE *handle, ==> const char *host <==, int port)"

  /** irislwz_UseRFC1950: keeps the lowest bit of the flag. */
  method UseRFC1950(h: Handle, flag: int) returns (ok: bool)
    modifies h`rfc1950Workaround
    ensures ok && h.rfc1950Workaround as int == flag % 2
  {
    h.rfc1950Workaround := (flag % 2) as byte;
    ok := true;
  }

  /** irislwz_SetMaximumResponseLength. */
  method SetMaximumResponseLength(h: Handle, bytes: int) returns (ok: bool)
    modifies h`maximumResponseLength
    ensures ok && h.maximumResponseLength == bytes
  {
    h.maximumResponseLength := bytes;
    ok := true;
  }

  /** irislwz_SetHost: 74025 for a NULL host; port 0 selects the IRIS-LWZ default port 715. */
  method SetHost(h: Handle, host: Option<string>, port: int) returns (ok: bool)
    modifies h`server, h`port, h`error, h`errorText
    ensures host.None? ==> !ok && h.server == old(h.server) && h.port == old(h.port)
    ensures host.None? && old(h.initialized) ==> h.error == 74025 && h.errorText == Some(HostArgumentText)
    ensures host.Some? ==> ok && h.server == host && h.port == (if port != 0 then port else DefaultPort)
    ensures ok ==> h.port != 0 && h.error == old(h.error) && h.errorText == old(h.errorText)
    ensures !old(h.initialized) ==> h.error == old(h.error) && h.errorText == old(h.errorText)
  {
    if host.None? {
      SetError(h, 74025, Some(HostArgumentText));
      return false;
    }
    h.server := host;
    if port != 0 {
      h.port := port;
    } else {
      h.port := DefaultPort;
    }
    ok := true;
  }

  /** irislwz_GetHostname: the server, or NULL with 74026 when none is set. */
  method GetHostname(h: Handle) returns (host: Option<string>)
    modifies h`error, h`errorText
    ensures host == old(h.server)
    ensures host.None? && old(h.initialized) ==> h.error == 74026 && h.errorText.None?
    ensures host.Some? ==> h.error == old(h.error) && h.errorText == old(h.errorText)
  {
    if h.server.None? {
      SetError(h, 74026, None);
      return None;
    }
    return h.server;
  }

  /** irislwz_GetPort: the port, or 0 with 74026 when no server or no port is set. */
  method GetPort(h: Handle) returns (port: int)
    modifies h`error, h`errorText
    ensures port == (if h.server.None? || h.port == 0 then 0 else h.port)
    ensures port == 0 && old(h.initialized) ==> h.error == 74026 && h.errorText.None?
    ensures port != 0 ==> h.error == old(h.error) && h.errorText == old(h.errorText)
  {
    if h.server.None? || h.port == 0 {
      SetError(h, 74026, None);
      return 0;
    }
    return h.port;
  }

  /** irislwz_AcceptDeflated: stored as a char. */
  method AcceptDeflated(h: Handle, flag: int) returns (ok: bool)
    modifies h`acceptDeflated
    ensures ok && h.acceptDeflated == CharOf(flag)
  {
    h.acceptDeflated := CharOf(flag);
    ok := true;
  }

  /** irislwz_SendDeflated: stored as a char. */
  method SendDeflated(h: Handle, flag: int) returns (ok: bool)
    modifies h`sendDeflated
    ensures ok && h.sendDeflated == CharOf(flag)
  {
    h.sendDeflated := CharOf(flag);
    ok := true;
  }

  /** irislwz_IgnoreInvalidXML: stored as a char. */
  method IgnoreInvalidXml(h: Handle, flag: int) returns (ok: bool)
    modifies h`ignoreInvalidXml
    ensures ok && h.ignoreInvalidXml == CharOf(flag)
  {
    h.ignoreInvalidXml := CharOf(flag);
    ok := true;
  }

  /** irislwz_FlagSizeInfo: stored as a char. */
  method FlagSizeInfo(h: Handle, flag: int) returns (ok: bool)
    modifies h`flagSi
    ensures ok && h.flagSi == CharOf(flag)
  {
    h.flagSi := CharOf(flag);
    ok := true;
  }

  /** irislwz_FlagOtherInfo: stored as a char. */
  method FlagOtherInfo(h: Handle, flag: int) returns (ok: bool)
    modifies h`flagOi
    ensures ok && h.flagOi == CharOf(flag)
  {
    h.flagOi := CharOf(flag);
    ok := true;
  }

  // ---------------------------------------------------------------------
  // Test options

  /** Bits of test_flags: which overrides irislwz_Talk applies. */
  const TestVersionBit: bv8 := 1
  const TestHeaderBit: bv8 := 2
  const TestTidBit: bv8 := 4
  const TestAuthlenBit: bv8 := 8
  const TestTruncateBit: bv8 := 16
  const TestCorruptBit: bv8 := 32

  /** irislwz_TestSetVersion: the version is kept to its two bits. */
  method TestSetVersion(h: Handle, version: int) returns (ok: bool)
    modifies h`testFlags, h`testVersion
    ensures ok && h.testFlags == old(h.testFlags) | TestVersionBit && h.testVersion == version % 4
  {
    h.testFlags := h.testFlags | TestVersionBit;
    h.testVersion := version % 4;
    ok := true;
  }

  /** irislwz_TestSetTransactionId: the id is kept to 16 bits. */
  method TestSetTransactionId(h: Handle, tid: int) returns (ok: bool)
    modifies h`testFlags, h`testTid
    ensures ok && h.testFlags == old(h.testFlags) | TestTidBit && h.testTid == tid % 65536
  {
    h.testFlags := h.testFlags | TestTidBit;
    h.testTid := tid % 65536;
    ok := true;
  }

  /** irislwz_TestSetHeader: the flag octet is kept to 8 bits. */
  method TestSetHeader(h: Handle, header: int) returns (ok: bool)
    modifies h`testFlags, h`testHeader
    ensures ok && h.testFlags == old(h.testFlags) | TestHeaderBit && h.testHeader as int == header % 256
  {
    h.testFlags := h.testFlags | TestHeaderBit;
    h.testHeader := (header % 256) as byte;
    ok := true;
  }

  /** irislwz_TestTruncatePacket. */
  method TestTruncatePacket(h: Handle, bytes: int) returns (ok: bool)
    modifies h`testFlags, h`testTruncate
    ensures ok && h.testFlags == old(h.testFlags) | TestTruncateBit && h.testTruncate == bytes
  {
    h.testFlags := h.testFlags | TestTruncateBit;
    h.testTruncate := bytes;
    ok := true;
  }

  /** irislwz_TestSetAuthorityLength. */
  method TestSetAuthorityLength(h: Handle, bytes: int) returns (ok: bool)
    modifies h`testFlags, h`testAuthlen
    ensures ok && h.testFlags == old(h.testFlags) | TestAuthlenBit && h.testAuthlen == bytes
  {
    h.testFlags := h.testFlags | TestAuthlenBit;
    h.testAuthlen := bytes;
    ok := true;
  }

  /** irislwz_TestCorruptCompression: sets or clears bit 32 and no other. */
  method TestCorruptCompression(h: Handle, flag: int) returns (ok: bool)
    modifies h`testFlags
    ensures ok
    ensures flag != 0 ==> h.testFlags == old(h.testFlags) | TestCorruptBit
    ensures flag == 0 ==> h.testFlags == old(h.testFlags) & !TestCorruptBit
  {
    if flag != 0 {
      h.testFlags := h.testFlags | TestCorruptBit;
    } else {
      h.testFlags := h.testFlags & 0xDF;
    }
    ok := true;
  }

  /** irislwz_TestCleanup: no override stays active. */
  method TestCleanup(h: Handle) returns (ok: bool)
    modifies h`testFlags
    ensures ok && h.testFlags == 0
  {
    h.testFlags := 0;
    ok := true;
  }

  // ---------------------------------------------------------------------
  // Request header

  /** The fields of the 6-octet IRIS-LWZ request header (include/dchk.h). */
  datatype Header = Header(flags: byte, transactionId: nat, maxResponseLength: nat, authorityLength: byte)

  /** The wire form: flags, transaction id and maximum response length big-endian, authority length. */
  function EncodeHeader(hd: Header): (r: seq<byte>)
    ensures |r| == 6
  {
    [hd.flags] + ToBE16(hd.transactionId) + ToBE16(hd.maxResponseLength) + [hd.authorityLength]
  }

  function DecodeHeader(p: seq<byte>): Header
    requires |p| >= 6
  {
    Header(p[0], BE16(p[1], p[2]), BE16(p[3], p[4]), p[5])
  }

  /** Decoding an encoded header gives its fields back, the 16-bit ones modulo 2^16. */
  lemma {:induction false} HeaderRoundTrip(hd: Header, rest: seq<byte>)
    ensures DecodeHeader(EncodeHeader(hd) + rest) ==
      Header(hd.flags, hd.transactionId % 65536, hd.maxResponseLength % 65536, hd.authorityLength)
  {
    var p := EncodeHeader(hd) + rest;
    assert p[1..3] == ToBE16(hd.transactionId);
    assert p[3..5] == ToBE16(hd.maxResponseLength);
  }

  /**
   * The flag octet irislwz_PrepareQuery builds: 0, then 8 for accept-deflated,
   * 16 for send-deflated, 2 for size information and 3 for other information.
   */
  function RequestFlags(acceptDeflated: byte, sendDeflated: byte, flagSi: byte, flagOi: byte): bv8
  {
    var f0: bv8 := 0;
    var f1 := if acceptDeflated != 0 then f0 | 8 else f0;
    var f2 := if sendDeflated != 0 then f1 | 16 else f1;
    var f3 := if flagSi != 0 then f2 | 2 else f2;
    if flagOi != 0 then f3 | 3 else f3
  }

  /**
   * A request carries version 0, is not a response, advertises and uses
   * deflate exactly as the options say, and asks for other information
   * (type 3) over size information (type 2) over XML (type 0).
   */
  lemma {:induction false} RequestFlagsMeaning(acceptDeflated: byte, sendDeflated: byte, flagSi: byte, flagOi: byte)
    ensures var f := RequestFlags(acceptDeflated, sendDeflated, flagSi, flagOi);
      f & VersionMask == 0 && f & ResponseFlag == 0 &&
      (f & DeflateSupportedFlag != 0 <==> acceptDeflated != 0) &&
      (f & DeflatedFlag != 0 <==> sendDeflated != 0) &&
      f & PayloadTypeMask == (if flagOi != 0 then 3 else if flagSi != 0 then 2 else 0)
  {
  }

  /** The authority octets a request carries. */
  function AuthorityBytes(authority: Option<string>): seq<byte>
  {
    if authority.Some? then BytesOf(authority.value) else []
  }

  /** The request header of a handle, for transaction id tid. */
  function RequestHeader(h: Handle, tid: int): Header
    reads h`authority, h`acceptDeflated, h`sendDeflated, h`flagSi, h`flagOi, h`maximumResponseLength
    requires h.authority.Some? ==> |h.authority.value| <= 255
  {
    Header(OfBits(RequestFlags(h.acceptDeflated, h.sendDeflated, h.flagSi, h.flagOi)),
           tid % 65536, h.maximumResponseLength % 65536, |AuthorityBytes(h.authority)| as byte)
  }

  /**
   * irislwz_PrepareQuery: writes the header and the authority at offset 6 of
   * the request packet, with a fresh random transaction id in [1,65534],
   * leaving the rest of the packet as it was.
   */
  method PrepareQuery(h: Handle, env: Env) returns (ok: bool)
    requires EnvOk(env) && h.Valid()
    requires h.request.packet.Some? && |h.request.packet.value| >= 6 + |AuthorityBytes(h.authority)|
    modifies h.request`packet, h`draws
    ensures ok && h.draws == old(h.draws) + 1
    ensures h.request.packet.Some? && |h.request.packet.value| == |old(h.request.packet.value)|
    ensures var tid := env.rand(old(h.draws));
      1 <= tid <= 65534 &&
      h.request.packet.value == EncodeHeader(RequestHeader(h, tid)) + AuthorityBytes(h.authority) +
        old(h.request.packet.value)[6 + |AuthorityBytes(h.authority)|..]
  {
    var tid := env.rand(h.draws);
    h.draws := h.draws + 1;
    var p := h.request.packet.value;
    var auth := AuthorityBytes(h.authority);
    h.request.packet := Some(EncodeHeader(RequestHeader(h, tid)) + auth + p[6 + |auth|..]);
    ok := true;
  }

  /** What a prepared request packet says: the header fields and the authority after them. */
  lemma {:induction false} PreparedRequestDecodes(h: Handle, tid: int, rest: seq<byte>)
    requires h.authority.Some? ==> |h.authority.value| <= 255
    requires 1 <= tid <= 65534
    ensures var p := EncodeHeader(RequestHeader(h, tid)) + AuthorityBytes(h.authority) + rest;
      var hd := DecodeHeader(p);
      hd.transactionId == tid && 1 <= hd.transactionId <= 65534 &&
      hd.maxResponseLength == h.maximumResponseLength % 65536 &&
      hd.authorityLength as int == |AuthorityBytes(h.authority)| &&
      p[6..6 + hd.authorityLength as int] == AuthorityBytes(h.authority) &&
      Bits(hd.flags) == RequestFlags(h.acceptDeflated, h.sendDeflated, h.flagSi, h.flagOi)
  {
    var hd := RequestHeader(h, tid);
    HeaderRoundTrip(hd, AuthorityBytes(h.authority) + rest);
    assert EncodeHeader(hd) + AuthorityBytes(h.authority) + rest == EncodeHeader(hd) + (AuthorityBytes(h.authority) + rest);
    OfBitsRoundTrip(RequestFlags(h.acceptDeflated, h.sendDeflated, h.flagSi, h.flagOi));
  }

  // ---------------------------------------------------------------------
  // Transaction

  /**
   * The version bits test_version << 6 contributes to the flag octet: the
   * low two bits of the version moved to bits 7-6 (the rest of the shifted
   * value falls outside the octet).
   */
  function VersionField(version: int): (v: bv8)
    ensures v & 0x3F == 0
  {
    var q := version % 4;
    if q == 0 then 0 else if q == 1 then 64 else if q == 2 then 128 else 192
  }

  /**
   * The test overrides irislwz_Talk applies to the request header and size,
   * in the source's order: authority length, version bits, whole flag
   * octet, transaction id, truncation.
   */
  function Overridden(p: seq<byte>, size: int, flags: bv8, version: int, header: byte, tid: int, authlen: int, truncate: int): (r: (seq<byte>, int))
    requires |p| >= 6
    ensures |r.0| == |p|
  {
    var p1 := if flags & TestAuthlenBit != 0 then p[5 := (authlen % 256) as byte] else p;
    var p2 := if flags & TestVersionBit != 0 then p1[0 := OfBits((Bits(p1[0]) & 0x3F) | VersionField(version))] else p1;
    var p3 := if flags & TestHeaderBit != 0 then p2[0 := header] else p2;
    var t := ToBE16(tid);
    var p4 := if flags & TestTidBit != 0 then p3[1 := t[0]][2 := t[1]] else p3;
    (p4, if flags & TestTruncateBit != 0 && truncate < size then truncate else size)
  }

  /**
   * The flag octet after the overrides: a header override wins; otherwise
   * the version override changes only bits 7-6; otherwise it is untouched.
   */
  lemma {:induction false} OverriddenFlags(p: seq<byte>, size: int, flags: bv8, version: int, header: byte, tid: int, authlen: int, truncate: int)
    requires |p| >= 6
    ensures var f := Overridden(p, size, flags, version, header, tid, authlen, truncate).0[0];
      (flags & TestHeaderBit != 0 ==> f == header) &&
      (flags & TestHeaderBit == 0 && flags & TestVersionBit != 0 ==>
         Bits(f) & 0x3F == Bits(p[0]) & 0x3F && Bits(f) & VersionMask == VersionField(version)) &&
      (flags & TestHeaderBit == 0 && flags & TestVersionBit == 0 ==> f == p[0])
  {
    var f := Overridden(p, size, flags, version, header, tid, authlen, truncate).0[0];
    if flags & TestHeaderBit != 0 {
      assert f == header;
    } else if flags & TestVersionBit != 0 {
      var v := (Bits(p[0]) & 0x3F) | VersionField(version);
      assert f == OfBits(v);
      OfBitsRoundTrip(v);
      VersionBitsSplit(Bits(p[0]), VersionField(version));
    } else {
      assert f == p[0];
    }
  }

  lemma {:induction false} VersionBitsSplit(b: bv8, vf: bv8)
    requires vf & 0x3F == 0
    ensures ((b & 0x3F) | vf) & 0x3F == b & 0x3F
    ensures ((b & 0x3F) | vf) & VersionMask == vf
  {
  }

  /** The transaction id override replaces the id; without it the id octets stay. */
  lemma {:induction false} OverriddenTransactionId(p: seq<byte>, size: int, flags: bv8, version: int, header: byte, tid: int, authlen: int, truncate: int)
    requires |p| >= 6
    ensures var q := Overridden(p, size, flags, version, header, tid, authlen, truncate).0;
      (flags & TestTidBit != 0 ==> BE16(q[1], q[2]) == tid % 65536) &&
      (flags & TestTidBit == 0 ==> q[1] == p[1] && q[2] == p[2])
  {
  }

  /**
   * The authority length override replaces octet 5; the maximum response
   * length and everything after the header stay as they were.
   */
  lemma {:induction false} OverriddenRest(p: seq<byte>, size: int, flags: bv8, version: int, header: byte, tid: int, authlen: int, truncate: int)
    requires |p| >= 6
    ensures var q := Overridden(p, size, flags, version, header, tid, authlen, truncate).0;
      q[3] == p[3] && q[4] == p[4] && q[6..] == p[6..] &&
      (q[5] as int == if flags & TestAuthlenBit != 0 then authlen % 256 else p[5] as int)
  {
  }

  /** Truncation only ever shrinks the packet, and only to the requested size. */
  lemma {:induction false} OverriddenSize(p: seq<byte>, size: int, flags: bv8, version: int, header: byte, tid: int, authlen: int, truncate: int)
    requires |p| >= 6
    ensures var n := Overridden(p, size, flags, version, header, tid, authlen, truncate).1;
      n <= size && (n < size ==> flags & TestTruncateBit != 0 && n == truncate)
  {
  }

  /** With no override active, the request goes out as prepared. */
  lemma {:induction false} NoOverrides(p: seq<byte>, size: int, version: int, header: byte, tid: int, authlen: int, truncate: int)
    requires |p| >= 6
    ensures Overridden(p, size, 0, version, header, tid, authlen, truncate) == (p, size)
  {
  }

  /** The request as irislwz_Talk sends it. */
  function SentRequest(h: Handle): (seq<byte>, int)
    reads h, h.request
    requires h.request.packet.Some? && |h.request.packet.value| >= 6
  {
    Overridden(h.request.packet.value, h.request.size, h.testFlags, h.testVersion, h.testHeader,
               h.testTid, h.testAuthlen, h.testTruncate)
  }

  /** The testing-options step of irislwz_Talk, on the request header in place. */
  method ApplyTestOverrides(h: Handle)
    requires h.request.packet.Some? && |h.request.packet.value| >= 6
    modifies h.request`packet, h.request`size
    ensures (h.request.packet, h.request.size) == (Some(old(SentRequest(h)).0), old(SentRequest(h)).1)
  {
    var p := h.request.packet.value;
    if h.testFlags & TestAuthlenBit != 0 {
      p := p[5 := (h.testAuthlen % 256) as byte];
    }
    if h.testFlags & TestVersionBit != 0 {
      p := p[0 := OfBits((Bits(p[0]) & 0x3F) | VersionField(h.testVersion))];
    }
    if h.testFlags & TestHeaderBit != 0 {
      p := p[0 := h.testHeader];
    }
    if h.testFlags & TestTidBit != 0 {
      var t := ToBE16(h.testTid);
      p := p[1 := t[0]][2 := t[1]];
    }
    if h.testFlags & TestTruncateBit != 0 && h.testTruncate < h.request.size {
      h.request.size := h.testTruncate;
    }
    h.request.packet := Some(p);
  }

  /** The number of retries irislwz_Talk allows with a doubled buffer. */
  const MaxInflateRetries := 5

  /**
   * The inflate retry loop of irislwz_Talk from attempt retry on: inflate
   * into cap octets, and on Z_BUF_ERROR with retries left try again with
   * twice the room. The final status and the capacity it was obtained with.
   */
  function InflateRetry(inflate: (bool, seq<byte>, nat) -> InflateStatus, rfc1950: bool, data: seq<byte>, cap: nat, retry: nat): (InflateStatus, nat)
    requires retry <= MaxInflateRetries
    decreases MaxInflateRetries - retry
  {
    var st := inflate(rfc1950, data, cap);
    if st.InflateBufError? && retry < MaxInflateRetries then InflateRetry(inflate, rfc1950, data, cap + cap, retry + 1)
    else (st, cap)
  }

  /** How many times the loop doubles the buffer. */
  function Doublings(inflate: (bool, seq<byte>, nat) -> InflateStatus, rfc1950: bool, data: seq<byte>, cap: nat, retry: nat): nat
    requires retry <= MaxInflateRetries
    decreases MaxInflateRetries - retry
  {
    if inflate(rfc1950, data, cap).InflateBufError? && retry < MaxInflateRetries
    then 1 + Doublings(inflate, rfc1950, data, cap + cap, retry + 1)
    else 0
  }

  /** cap doubled n times. */
  function Grown(cap: nat, n: nat): nat
    decreases n
  {
    if n == 0 then cap else Grown(cap + cap, n - 1)
  }

  function Pow2(k: nat): (r: nat)
    ensures r >= 1
  {
    if k == 0 then 1 else 2 * Pow2(k - 1)
  }

  lemma {:induction false} GrownIsPower(cap: nat, n: nat)
    decreases n
    ensures Grown(cap, n) == cap * Pow2(n)
  {
    if n > 0 {
      GrownIsPower(cap + cap, n - 1);
    }
  }

  /**
   * The buffer only grows by doubling, only after Z_BUF_ERROR, at most five
   * times: the final capacity is cap doubled n <= 5 times, every smaller
   * capacity of the series failed with Z_BUF_ERROR, and the result is the
   * status inflate gives for the final capacity. Z_BUF_ERROR remains only
   * when all retries are used up.
   */
  lemma {:induction false} InflateRetryMeaning(inflate: (bool, seq<byte>, nat) -> InflateStatus, rfc1950: bool, data: seq<byte>, cap: nat, retry: nat)
    requires retry <= MaxInflateRetries
    ensures var n := Doublings(inflate, rfc1950, data, cap, retry);
      var (st, c) := InflateRetry(inflate, rfc1950, data, cap, retry);
      n <= MaxInflateRetries - retry && c == Grown(cap, n) && c == cap * Pow2(n) &&
      st == inflate(rfc1950, data, c) &&
      (forall k :: 0 <= k < n ==> inflate(rfc1950, data, Grown(cap, k)).InflateBufError?) &&
      (st.InflateBufError? ==> n == MaxInflateRetries - retry)
  {
    InflateRetryFinal(inflate, rfc1950, data, cap, retry);
    InflateRetryFailures(inflate, rfc1950, data, cap, retry);
    GrownIsPower(cap, Doublings(inflate, rfc1950, data, cap, retry));
  }

  /** The final status and capacity of the loop from attempt retry on, by induction on the retries left. */
  lemma {:induction false} InflateRetryFinal(inflate: (bool, seq<byte>, nat) -> InflateStatus, rfc1950: bool, data: seq<byte>, cap: nat, retry: nat)
    requires retry <= MaxInflateRetries
    decreases MaxInflateRetries - retry
    ensures var n := Doublings(inflate, rfc1950, data, cap, retry);
      var r := InflateRetry(inflate, rfc1950, data, cap, retry);
      n <= MaxInflateRetries - retry && r.1 == Grown(cap, n) && r.0 == inflate(rfc1950, data, r.1) &&
      (r.0.InflateBufError? ==> n == MaxInflateRetries - retry)
  {
    var st := inflate(rfc1950, data, cap);
    if st.InflateBufError? && retry < MaxInflateRetries {
      InflateRetryFinal(inflate, rfc1950, data, cap + cap, retry + 1);
      var m := Doublings(inflate, rfc1950, data, cap + cap, retry + 1);
      assert Doublings(inflate, rfc1950, data, cap, retry) == 1 + m;
      assert InflateRetry(inflate, rfc1950, data, cap, retry) == InflateRetry(inflate, rfc1950, data, cap + cap, retry + 1);
      assert Grown(cap, 1 + m) == Grown(cap + cap, m);
    } else {
      assert Doublings(inflate, rfc1950, data, cap, retry) == 0;
      assert InflateRetry(inflate, rfc1950, data, cap, retry) == (st, cap);
    }
  }

  /** Every capacity the loop leaves behind failed with Z_BUF_ERROR, by induction on the retries left. */
  lemma {:induction false} InflateRetryFailures(inflate: (bool, seq<byte>, nat) -> InflateStatus, rfc1950: bool, data: seq<byte>, cap: nat, retry: nat)
    requires retry <= MaxInflateRetries
    decreases MaxInflateRetries - retry
    ensures forall k :: 0 <= k < Doublings(inflate, rfc1950, data, cap, retry) ==> inflate(rfc1950, data, Grown(cap, k)).InflateBufError?
  {
    if inflate(rfc1950, data, cap).InflateBufError? && retry < MaxInflateRetries {
      InflateRetryFailures(inflate, rfc1950, data, cap + cap, retry + 1);
      var m := Doublings(inflate, rfc1950, data, cap + cap, retry + 1);
      forall k | 0 <= k < 1 + m
        ensures inflate(rfc1950, data, Grown(cap, k)).InflateBufError?
      {
        if k > 0 {
          assert Grown(cap, k) == Grown(cap + cap, k - 1);
        }
      }
    }
  }

  /** The while(1) loop of irislwz_Talk that inflates a deflated response payload. */
  method InflatePayload(env: Env, rfc1950: bool, data: seq<byte>, cap0: nat) returns (st: InflateStatus, cap: nat)
    ensures (st, cap) == InflateRetry(env.inflate, rfc1950, data, cap0, 0)
  {
    cap := cap0;
    var retry := 0;
    st := env.inflate(rfc1950, data, cap);
    while st.InflateBufError? && retry < MaxInflateRetries
      invariant 0 <= retry <= MaxInflateRetries
      invariant st == env.inflate(rfc1950, data, cap)
      invariant InflateRetry(env.inflate, rfc1950, data, cap0, 0) == InflateRetry(env.inflate, rfc1950, data, cap, retry)
      decreases MaxInflateRetries - retry
    {
      cap := cap + cap;
      retry := retry + 1;
      st := env.inflate(rfc1950, data, cap);
    }
  }

  /** The transaction id of a request or response header (octets 1 and 2). */
  function TransactionId(p: seq<byte>): nat
    requires |p| >= 3
  {
    BE16(p[1], p[2])
  }

  /** The id a server uses when it cannot tell which request it answers. */
  const UnknownTransactionId := 0xFFFF

  /**
   * The uncompressed payload irislwz_Talk accepts from a datagram answering
   * a request with id requestTid: None when the datagram is shorter than
   * the 3-octet response header, answers another request, or does not
   * inflate within the retries.
   */
  function ReceivedPayload(inflate: (bool, seq<byte>, nat) -> InflateStatus, rfc1950: bool, requestTid: nat, dg: seq<byte>): Option<seq<byte>>
  {
    if |dg| < 3 then None
    else if TransactionId(dg) != requestTid && TransactionId(dg) != UnknownTransactionId then None
    else if HasFlag(dg[0], DeflatedFlag) then
      match InflateRetry(inflate, rfc1950, dg[3..], (|dg| - 3) * 10 + 1024, 0).0
      case InflateOk(out) => Some(out)
      case _ => None
    else Some(dg[3..])
  }

  /** The error irislwz_Talk reports when ReceivedPayload gives nothing. */
  function ReceiveError(inflate: (bool, seq<byte>, nat) -> InflateStatus, rfc1950: bool, requestTid: nat, dg: seq<byte>): int
  {
    if |dg| < 3 then 74036
    else if TransactionId(dg) != requestTid && TransactionId(dg) != UnknownTransactionId then 74103
    else 74037
  }

  /**
   * The receive-side checks in order: a datagram shorter than 3 octets is
   * refused with 74036, one with a foreign transaction id (other than 0xFFFF)
   * with 74103, a deflated one that does not inflate with 74037; an
   * undeflated payload is the datagram after its 3-octet header.
   */
  lemma {:induction false} ReceivedPayloadMeaning(inflate: (bool, seq<byte>, nat) -> InflateStatus, rfc1950: bool, requestTid: nat, dg: seq<byte>)
    ensures |dg| < 3 ==> ReceivedPayload(inflate, rfc1950, requestTid, dg).None? && ReceiveError(inflate, rfc1950, requestTid, dg) == 74036
    ensures |dg| >= 3 && TransactionId(dg) != requestTid && TransactionId(dg) != UnknownTransactionId ==>
      ReceivedPayload(inflate, rfc1950, requestTid, dg).None? && ReceiveError(inflate, rfc1950, requestTid, dg) == 74103
    ensures |dg| >= 3 && (TransactionId(dg) == requestTid || TransactionId(dg) == UnknownTransactionId) ==>
      (!HasFlag(dg[0], DeflatedFlag) ==> ReceivedPayload(inflate, rfc1950, requestTid, dg) == Some(dg[3..])) &&
      (HasFlag(dg[0], DeflatedFlag) ==>
        var (st, cap) := InflateRetry(inflate, rfc1950, dg[3..], (|dg| - 3) * 10 + 1024, 0);
        (ReceivedPayload(inflate, rfc1950, requestTid, dg).Some? <==> st.InflateOk?) &&
        (st.InflateOk? ==> ReceivedPayload(inflate, rfc1950, requestTid, dg) == Some(st.out)) &&
        (st.InflateBufError? ==> cap == ((|dg| - 3) * 10 + 1024) * Pow2(MaxInflateRetries)))
    ensures ReceivedPayload(inflate, rfc1950, requestTid, dg).None? ==> ReceiveError(inflate, rfc1950, requestTid, dg) in {74036, 74103, 74037}
  {
    if |dg| >= 3 {
      InflateRetryMeaning(inflate, rfc1950, dg[3..], (|dg| - 3) * 10 + 1024, 0);
    }
  }

  /** The packet state irislwz_Talk leaves after storing a datagram of at least 3 octets. */
  ghost predicate HoldsDatagram(p: Packet, dg: seq<byte>)
    reads p
  {
    p.packet == Some(dg + [0]) && p.size == |dg| && p.payload == Some(3) && p.sizePayload == |dg| - 3
  }

  /**
   * The part of irislwz_Talk after a datagram arrived: store it as the
   * response packet, check it, inflate it if it is deflated, and validate
   * the payload as XML (74046 when it is not well formed).
   */
  method Receive(h: Handle, env: Env, dg: seq<byte>) returns (ok: bool)
    requires EnvOk(env) && h.request != h.response
    requires h.request.packet.Some? && |h.request.packet.value| >= 6
    modifies h`error, h`errorText, h.response
    ensures var tid := TransactionId(h.request.packet.value);
      var payload := ReceivedPayload(env.inflate, h.rfc1950Workaround != 0, tid, dg);
      (|dg| < 3 ==> unchanged(h.response)) &&
      (|dg| >= 3 ==> HoldsDatagram(h.response, dg)) &&
      (payload.None? ==> !ok && (old(h.initialized) ==>
         h.error == ReceiveError(env.inflate, h.rfc1950Workaround != 0, tid, dg) &&
         h.errorText == (if |dg| < 3 then Some(IntToString(|dg|) + BytesText) else None))) &&
      (payload.Some? ==>
         h.response.uncompressed == Some(payload.value + [0]) &&
         h.response.sizeUncompressed == |payload.value| &&
         h.response.uncompressedAliasesPayload == !HasFlag(dg[0], DeflatedFlag) &&
         (ok <==> env.parse(UpToNul(payload.value)).Some?) &&
         (ok ==> h.error == old(h.error) && h.errorText == old(h.errorText)) &&
         (!ok && old(h.initialized) ==> h.error == 74046 && h.errorText.None?))
    ensures ok ==> h.response.packet.Some? && |h.response.packet.value| > 3
    ensures ok ==> env.parse(UpToNul(h.response.UncompressedText())).Some?
    ensures ok ==> h.response.UncompressedText() == ReceivedPayload(env.inflate, h.rfc1950Workaround != 0, TransactionId(h.request.packet.value), dg).value
  {
    var tid := TransactionId(h.request.packet.value);
    if |dg| < 3 {
      SetError(h, 74036, Some(IntToString(|dg|) + BytesText));
      return false;
    }
    h.response.size := |dg|;
    h.response.packet := Some(dg + [0]);
    h.response.payload := Some(3);
    h.response.sizePayload := |dg| - 3;
    if TransactionId(dg) != tid && TransactionId(dg) != UnknownTransactionId {
      SetError(h, 74103, None);
      return false;
    }
    ok := Uncompress(h, env, dg, tid);
    if !ok {
      return false;
    }
    UpToNulTerminated(h.response.UncompressedText());
    ok := Validate(h, env.parse, h.response.uncompressed.value);
    if !ok && h.error == 74044 {
      h.error := 74046;
    }
  }

  /**
   * The inflate step of irislwz_Talk for a datagram that answers the
   * request: inflate a deflated payload (74037 when that fails), or let the
   * uncompressed payload alias the raw one.
   */
  method Uncompress(h: Handle, env: Env, dg: seq<byte>, ghost requestTid: nat) returns (ok: bool)
    requires EnvOk(env)
    requires |dg| >= 3 && (TransactionId(dg) == requestTid || TransactionId(dg) == UnknownTransactionId)
    modifies h`error, h`errorText, h.response`uncompressed, h.response`uncompressedAliasesPayload, h.response`sizeUncompressed
    ensures var payload := ReceivedPayload(env.inflate, h.rfc1950Workaround != 0, requestTid, dg);
      (ok <==> payload.Some?) &&
      (!ok && old(h.initialized) ==> h.error == 74037 && h.errorText.None?) &&
      (ok ==> h.error == old(h.error) && h.errorText == old(h.errorText)) &&
      (ok ==> h.response.uncompressed == Some(payload.value + [0]) &&
              h.response.sizeUncompressed == |payload.value| &&
              h.response.UncompressedText() == payload.value &&
              h.response.uncompressedAliasesPayload == !HasFlag(dg[0], DeflatedFlag))
  {
    if HasFlag(dg[0], DeflatedFlag) {
      var st, cap := InflatePayload(env, h.rfc1950Workaround != 0, dg[3..], (|dg| - 3) * 10 + 1024);
      if !st.InflateOk? {
        SetError(h, 74037, None);
        return false;
      }
      h.response.uncompressed := Some(st.out + [0]);
      h.response.uncompressedAliasesPayload := false;
      h.response.sizeUncompressed := |st.out|;
    } else {
      h.response.uncompressed := Some(dg[3..] + [0]);
      h.response.uncompressedAliasesPayload := true;
      h.response.sizeUncompressed := |dg| - 3;
    }
    ghost var payload := h.response.uncompressed.value[..h.response.sizeUncompressed];
    assert h.response.uncompressed.value == payload + [0];
    ok := true;
  }

  const NullText := "(null)"
  const PortSeparator := ":"
  const BytesLabel := ", Bytes: "
  const BytesText := " Bytes"

  /** The "server:port" detail of a failed send or receive. */
  function HostPort(h: Handle): string
    reads h
  {
    (if h.server.Some? then h.server.value else NullText) + PortSeparator + IntToString(h.port)
  }

  /** The error a failed recv reports: its socket error, with a timeout (1006) reported as 1031. */
  function RecvErrorCode(e: Errno): (code: int)
    ensures 1000 <= code <= 1062 && code != 1006
  {
    TranslateSocketErrorSound(e);
    var c := TranslateSocketError(e);
    if c == 1006 then 1031 else c
  }

  /** The size of the receive buffer: the maximum response length plus 8192 octets. */
  function ReceiveCapacity(h: Handle): int
    reads h`maximumResponseLength
  {
    h.maximumResponseLength + 8192
  }

  /** The outcome of sending the request packet and waiting for the answer. */
  function Exchange(h: Handle, env: Env): NetOutcome
    reads h`maximumResponseLength, h.request`packet, h.request`size
    requires h.request.packet.Some?
  {
    env.exchange(h.request.packet.value, h.request.size, ReceiveCapacity(h))
  }

  /**
   * What irislwz_Talk leaves behind on a connection once the request went
   * out: the socket error of a failed send (with "server:port"), the
   * receive error of a failed receive, or the datagram held as the response,
   * decoded (74033-74037, 74046 and the inflate errors otherwise).
   */
  ghost predicate Talked(h: Handle, env: Env, ok: bool)
    reads h, h.request, h.response
    requires h.request.packet.Some? && |h.request.packet.value| >= 6
  {
    var out := Exchange(h, env);
    (out.SendFailed? ==> (!ok &&
       (h.initialized ==> h.error == TranslateSocketError(out.sendErrno) && h.errorText == Some(HostPort(h))))) &&
    (out.RecvFailed? ==> (!ok &&
       (h.initialized ==> h.error == RecvErrorCode(out.recvErrno) && h.errorText == Some(HostPort(h) + BytesLabel + IntToString(out.received))))) &&
    (out.Received? ==>
       var dg := out.datagram;
       var tid := TransactionId(h.request.packet.value);
       var payload := ReceivedPayload(env.inflate, h.rfc1950Workaround != 0, tid, dg);
       (|dg| >= 3 ==> HoldsDatagram(h.response, dg)) &&
       (payload.None? ==> !ok && (h.initialized ==>
          h.error == ReceiveError(env.inflate, h.rfc1950Workaround != 0, tid, dg))) &&
       (payload.Some? ==>
          h.response.uncompressed == Some(payload.value + [0]) &&
          h.response.sizeUncompressed == |payload.value| &&
          (ok <==> env.parse(UpToNul(payload.value)).Some?) &&
          (!ok && h.initialized ==> h.error == 74046)))
  }

  /**
   * irislwz_Talk: 74032 without a connection; otherwise apply the test
   * overrides, send the request, and receive and check the answer.
   */
  method Talk(h: Handle, env: Env) returns (ok: bool)
    requires EnvOk(env) && h.Valid()
    requires h.request.packet.Some? && |h.request.packet.value| >= 6
    modifies h`error, h`errorText, h.request`packet, h.request`size, h.response
    ensures !old(h.connected) ==> !ok && unchanged(h.request, h.response)
    ensures !old(h.connected) && old(h.initialized) ==> h.error == 74032 && h.errorText.None?
    ensures old(h.connected) ==> h.request.packet == Some(old(SentRequest(h)).0) && h.request.size == old(SentRequest(h)).1
    ensures old(h.connected) && !Exchange(h, env).Received? ==> unchanged(h.response)
    ensures old(h.connected) ==> Talked(h, env, ok)
    ensures ok ==> old(h.connected) && env.parse(UpToNul(h.response.UncompressedText())).Some?
    ensures ok ==> h.response.packet.Some? && |h.response.packet.value| > 3
  {
    if !h.connected {
      SetError(h, 74032, None);
      return false;
    }
    ApplyTestOverrides(h);
    var out := env.exchange(h.request.packet.value, h.request.size, h.maximumResponseLength + 8192);
    match out
    case SendFailed(e) =>
      SetError(h, TranslateSocketError(e), Some(HostPort(h)));
      return false;
    case RecvFailed(e, received) =>
      SetError(h, RecvErrorCode(e), Some(HostPort(h) + BytesLabel + IntToString(received)));
      return false;
    case Received(dg) =>
      ok := Receive(h, env, dg);
  }

  /** irislwz_Disconnect: 74032 without a connection, otherwise the connection is closed. */
  method Disconnect(h: Handle) returns (ok: bool)
    modifies h`connected, h`error, h`errorText
    ensures ok == old(h.connected) && !h.connected
    ensures !ok && old(h.initialized) ==> h.error == 74032 && h.errorText.None?
    ensures ok ==> h.error == old(h.error) && h.errorText == old(h.errorText)
  {
    if !h.connected {
      SetError(h, 74032, None);
      return false;
    }
    h.connected := false;
    ok := true;
  }

  // ---------------------------------------------------------------------
  // Queries

  function Zeros(n: nat): (r: seq<byte>)
    ensures |r| == n
  {
    seq(n, _ => 0)
  }

  /** The flag octet of a version request: the prepared flags with payload type bit 1 set. */
  function VersionRequestFlags(h: Handle): bv8
    reads h
  {
    RequestFlags(h.acceptDeflated, h.sendDeflated, h.flagSi, h.flagOi) | 1
  }

  /** The request irislwz_QueryVersion sends before the test overrides: header and authority only. */
  function VersionRequestPacket(h: Handle, tid: int): seq<byte>
    reads h
    requires h.authority.Some? ==> |h.authority.value| <= 255
  {
    EncodeHeader(RequestHeader(h, tid).(flags := OfBits(VersionRequestFlags(h)))) + AuthorityBytes(h.authority)
  }

  /**
   * A version request has payload type 1 (version) unless size or other
   * information is also asked for, which turns it into type 3.
   */
  lemma {:induction false} VersionRequestType(h: Handle)
    ensures PayloadType(OfBits(VersionRequestFlags(h))) == if h.flagSi == 0 && h.flagOi == 0 then 1 else 3
  {
    RequestFlagsMeaning(h.acceptDeflated, h.sendDeflated, h.flagSi, h.flagOi);
    OfBitsRoundTrip(VersionRequestFlags(h));
    var f := RequestFlags(h.acceptDeflated, h.sendDeflated, h.flagSi, h.flagOi);
    PayloadTypeOfOr1(f);
  }

  lemma {:induction false} PayloadTypeOfOr1(f: bv8)
    ensures (f | 1) & PayloadTypeMask == if f & PayloadTypeMask == 0 then 1 else if f & PayloadTypeMask == 1 then 1 else 3
  {
  }

  /**
   * The first half of irislwz_QueryVersion: both packets freed, then a
   * request of header and authority prepared, with payload type bit 1 set.
   */
  method PrepareVersionRequest(h: Handle, env: Env)
    requires EnvOk(env) && h.Valid()
    modifies h.request, h.response, h`draws
    ensures h.draws == old(h.draws) + 1 && h.response.Empty()
    ensures var pkt := VersionRequestPacket(h, env.rand(old(h.draws)));
      |pkt| == 6 + |AuthorityBytes(h.authority)| &&
      h.request.packet == Some(pkt) && h.request.size == |pkt| &&
      h.request.payload.None? && h.request.uncompressed.None?
  {
    h.request.Free();
    h.response.Free();
    var size := 6 + |AuthorityBytes(h.authority)|;
    h.request.size := size;
    h.request.packet := Some(Zeros(size));
    ghost var tid := env.rand(h.draws);
    assert Zeros(size)[size..] == [];
    var _ := PrepareQuery(h, env);
    assert h.request.packet.value == EncodeHeader(RequestHeader(h, tid)) + AuthorityBytes(h.authority) + [];
    assert h.request.packet.value == EncodeHeader(RequestHeader(h, tid)) + AuthorityBytes(h.authority);
    SetVersionBit(h, tid);
  }

  /** The version-request step of irislwz_QueryVersion: payload type bit 1 set in the prepared flags. */
  method SetVersionBit(h: Handle, ghost tid: int)
    requires h.authority.Some? ==> |h.authority.value| <= 255
    requires h.request.packet == Some(EncodeHeader(RequestHeader(h, tid)) + AuthorityBytes(h.authority))
    modifies h.request`packet
    ensures h.request.packet == Some(VersionRequestPacket(h, tid))
  {
    var p := h.request.packet.value;
    h.request.packet := Some(p[0 := OfBits(Bits(p[0]) | 1)]);
    var hd := RequestHeader(h, tid);
    assert Bits(p[0]) == RequestFlags(h.acceptDeflated, h.sendDeflated, h.flagSi, h.flagOi) by {
      OfBitsRoundTrip(RequestFlags(h.acceptDeflated, h.sendDeflated, h.flagSi, h.flagOi));
    }
    var hd' := hd.(flags := OfBits(VersionRequestFlags(h)));
    assert EncodeHeader(hd') == EncodeHeader(hd)[0 := hd'.flags];
    assert h.request.packet.value == EncodeHeader(hd') + AuthorityBytes(h.authority);
  }

  /**
   * irislwz_QueryVersion: frees both packets, sends a request of header and
   * authority with payload type 1 and runs the transaction.
   */
  method QueryVersion(h: Handle, env: Env) returns (ok: bool)
    requires EnvOk(env) && h.Valid()
    modifies h`error, h`errorText, h`draws, h.request, h.response
    ensures h.draws == old(h.draws) + 1
    ensures var pkt := VersionRequestPacket(h, env.rand(old(h.draws)));
      (!old(h.connected) ==> !ok && h.request.packet == Some(pkt) && h.request.size == |pkt|) &&
      (old(h.connected) ==>
        var sent := Overridden(pkt, |pkt|, h.testFlags, h.testVersion, h.testHeader, h.testTid, h.testAuthlen, h.testTruncate);
        h.request.packet == Some(sent.0) && h.request.size == sent.1)
    ensures !old(h.connected) && old(h.initialized) ==> h.error == 74032 && h.errorText.None?
    ensures old(h.connected) ==> h.request.packet.Some? && |h.request.packet.value| >= 6 && Talked(h, env, ok)
    ensures ok ==> env.parse(UpToNul(h.response.UncompressedText())).Some?
    ensures ok ==> h.response.packet.Some? && |h.response.packet.value| > 3
  {
    PrepareVersionRequest(h, env);
    ok := Talk(h, env);
  }

  /**
   * irislwz_GetCompressedSize: the length of the first size octets of buffer
   * after compression (zlib format when rfc1950 is 1, raw deflate otherwise)
   * into room for size + 64 octets; 0 for a NULL buffer, a size of 0 or a
   * failed compression.
   */
  function GetCompressedSize(deflate: (bool, seq<byte>, nat) -> Option<seq<byte>>, buffer: Option<seq<byte>>, size: int, rfc1950: int): (r: nat)
    requires buffer.Some? && size != 0 ==> 0 <= size <= |buffer.value|
    ensures buffer.None? || size == 0 ==> r == 0
  {
    if buffer.None? || size == 0 then 0
    else match deflate(rfc1950 == 1, buffer.value[..size], size + 64)
      case None => 0
      case Some(out) => |out|
  }

  /** A positive compressed size is what zlib produced and never exceeds the room given. */
  lemma {:induction false} GetCompressedSizeBound(env: Env, buffer: seq<byte>, size: int, rfc1950: int)
    requires EnvOk(env) && 0 < size <= |buffer|
    ensures var r := GetCompressedSize(env.deflate, Some(buffer), size, rfc1950);
      r <= size + 64 &&
      (r > 0 <==> env.deflate(rfc1950 == 1, buffer[..size], size + 64).Some? &&
                  |env.deflate(rfc1950 == 1, buffer[..size], size + 64).value| > 0)
  {
  }

  /** The payload size a query announces: compressed when sending deflated (0 on failure). */
  function QuerySize(h: Handle, env: Env, payload: seq<byte>, bytes: int): nat
    reads h`sendDeflated, h`rfc1950Workaround
    requires 0 < bytes <= |payload|
  {
    if h.sendDeflated != 0 then GetCompressedSize(env.deflate, Some(payload), bytes, h.rfc1950Workaround as int)
    else bytes
  }

  /**
   * The payload octets a query carries: the C string in payload compressed
   * into room for size + 16 octets when sending deflated, otherwise the first
   * size octets of payload.
   */
  function QueryBody(h: Handle, env: Env, payload: seq<byte>, size: nat): Option<seq<byte>>
    reads h`sendDeflated, h`rfc1950Workaround
    requires h.sendDeflated == 0 ==> size <= |payload|
  {
    if h.sendDeflated != 0 then env.deflate(h.rfc1950Workaround != 0, UpToNul(payload), size + 16)
    else Some(payload[..size])
  }

  /**
   * The request packet irislwz_Query2 builds: header, authority, then the
   * body in a buffer of size + 16 octets (the octets after the body are
   * uninitialised memory in the source; the model fills them with zeros).
   */
  function QueryPacket(h: Handle, tid: int, body: seq<byte>, size: nat): seq<byte>
    reads h`authority, h`acceptDeflated, h`sendDeflated, h`flagSi, h`flagOi, h`maximumResponseLength
    requires h.authority.Some? ==> |h.authority.value| <= 255
    requires |body| <= size + 16
  {
    EncodeHeader(RequestHeader(h, tid)) + AuthorityBytes(h.authority) + body + Zeros(size + 16 - |body|)
  }

  /**
   * The layout step of irislwz_Query2: a buffer for header, authority and
   * size + 16 payload octets, the header prepared, the payload placed after
   * the authority.
   */
  method AllocateRequest(h: Handle, env: Env, size: nat)
    requires EnvOk(env) && h.Valid()
    modifies h.request`packet, h.request`size, h.request`payload, h.request`sizePayload, h`draws
    ensures h.draws == old(h.draws) + 1
    ensures var alen := |AuthorityBytes(h.authority)|;
      h.request.sizePayload == size && h.request.size == 6 + alen + size && h.request.payload == Some(6 + alen) &&
      h.request.packet == Some(EncodeHeader(RequestHeader(h, env.rand(old(h.draws)))) + AuthorityBytes(h.authority) + Zeros(size + 16))
  {
    var alen := |AuthorityBytes(h.authority)|;
    h.request.sizePayload := size;
    h.request.size := 6 + alen + size;
    h.request.packet := Some(Zeros(h.request.size + 16));
    var _ := PrepareQuery(h, env);
    h.request.payload := Some(6 + alen);
    assert Zeros(6 + alen + size + 16)[6 + alen..] == Zeros(size + 16);
  }

  /** Whether a query payload can be sized and encoded for sending. */
  predicate Encodable(h: Handle, env: Env, payload: seq<byte>, bytes: int)
    reads h`sendDeflated, h`rfc1950Workaround
    requires 0 < bytes <= |payload|
  {
    var size := QuerySize(h, env, payload, bytes);
    (h.sendDeflated == 0 || size > 0) && QueryBody(h, env, payload, size).Some?
  }

  /**
   * The request-building part of irislwz_Query2: size the payload, lay out
   * the request and place the body; 74039 when the payload does not
   * compress.
   */
  method BuildQuery(h: Handle, env: Env, payload: seq<byte>, bytes: int) returns (built: bool)
    requires EnvOk(env) && h.Valid()
    requires 0 < bytes <= |payload|
    modifies h`error, h`errorText, h`draws
    modifies h.request`packet, h.request`size, h.request`payload, h.request`sizePayload
    ensures built == old(Encodable(h, env, payload, bytes))
    ensures !built && old(h.initialized) ==> h.error == 74039 && h.errorText.None?
    ensures built ==> h.error == old(h.error) && h.errorText == old(h.errorText)
    ensures h.draws == old(h.draws) + (if h.sendDeflated != 0 && old(QuerySize(h, env, payload, bytes)) == 0 then 0 else 1)
    ensures built ==>
      var request := old(QueryRequest(h, env, payload, bytes, h.draws));
      h.request.sizePayload == old(QuerySize(h, env, payload, bytes)) && h.request.payload == Some(6 + |AuthorityBytes(h.authority)|) &&
      h.request.packet == Some(request.0) && h.request.size == request.1
  {
    var size := QuerySize(h, env, payload, bytes);
    if h.sendDeflated != 0 && size == 0 {
      SetError(h, 74039, None);
      return false;
    }
    built := LayOutQuery(h, env, payload, bytes, size);
  }

  /** The part of BuildQuery after sizing: lay out the request, then compress or copy the body into it. */
  method LayOutQuery(h: Handle, env: Env, payload: seq<byte>, bytes: int, size: nat) returns (built: bool)
    requires EnvOk(env) && h.Valid()
    requires 0 < bytes <= |payload| && size == QuerySize(h, env, payload, bytes)
    requires h.sendDeflated == 0 || size > 0
    modifies h`error, h`errorText, h`draws
    modifies h.request`packet, h.request`size, h.request`payload, h.request`sizePayload
    ensures built == old(QueryBody(h, env, payload, size)).Some?
    ensures !built && old(h.initialized) ==> h.error == 74039 && h.errorText.None?
    ensures built ==> h.error == old(h.error) && h.errorText == old(h.errorText)
    ensures h.draws == old(h.draws) + 1
    ensures built ==>
      h.request.sizePayload == size && h.request.payload == Some(6 + |AuthorityBytes(h.authority)|) &&
      h.request.packet == Some(QueryPacket(h, env.rand(old(h.draws)), old(QueryBody(h, env, payload, size)).value, size)) &&
      h.request.size == 6 + |AuthorityBytes(h.authority)| + size
  {
    ghost var tid := env.rand(h.draws);
    ghost var expected := QueryBody(h, env, payload, size);
    AllocateRequest(h, env, size);
    var body := QueryBody(h, env, payload, size);
    assert body == expected;
    if body.None? {
      SetError(h, 74039, None);
      return false;
    }
    PlaceBody(h, body.value, tid);
    built := true;
  }

  /** Writes the body over the zeroed payload area of a prepared request. */
  method PlaceBody(h: Handle, body: seq<byte>, ghost tid: int)
    requires h.authority.Some? ==> |h.authority.value| <= 255
    requires 0 <= h.request.sizePayload && |body| <= h.request.sizePayload + 16
    requires h.request.payload == Some(6 + |AuthorityBytes(h.authority)|)
    requires h.request.packet == Some(EncodeHeader(RequestHeader(h, tid)) + AuthorityBytes(h.authority) + Zeros(h.request.sizePayload + 16))
    modifies h.request`packet
    ensures h.request.packet == Some(QueryPacket(h, tid, body, h.request.sizePayload))
  {
    var at := h.request.payload.value;
    var p := h.request.packet.value;
    ghost var prefix := EncodeHeader(RequestHeader(h, tid)) + AuthorityBytes(h.authority);
    assert p[..at] == prefix;
    assert p[at + |body|..] == Zeros(h.request.sizePayload + 16 - |body|);
    h.request.packet := Some(p[..at] + body + p[at + |body|..]);
  }

  /** The request irislwz_Query2 builds for payload, before the test overrides: the packet and its size. */
  function QueryRequest(h: Handle, env: Env, payload: seq<byte>, bytes: int, draws: nat): (r: (seq<byte>, int))
    reads h`authority, h`acceptDeflated, h`sendDeflated, h`flagSi, h`flagOi, h`maximumResponseLength, h`rfc1950Workaround
    requires EnvOk(env) && (h.authority.Some? ==> |h.authority.value| <= 255)
    requires 0 < bytes <= |payload| && Encodable(h, env, payload, bytes)
    ensures |r.0| >= 6
  {
    var size := QuerySize(h, env, payload, bytes);
    (QueryPacket(h, env.rand(draws), QueryBody(h, env, payload, size).value, size), 6 + |AuthorityBytes(h.authority)| + size)
  }

  /**
   * The second half of irislwz_Query2: build the request, then run the
   * transaction.
   */
  method SendQuery(h: Handle, env: Env, payload: seq<byte>, bytes: int) returns (ok: bool)
    requires EnvOk(env) && h.Valid()
    requires 0 < bytes <= |payload|
    modifies h`error, h`errorText, h`draws, h.response
    modifies h.request`packet, h.request`size, h.request`payload, h.request`sizePayload
    ensures !old(Encodable(h, env, payload, bytes)) ==> !ok && (old(h.initialized) ==> h.error == 74039 && h.errorText.None?)
    ensures old(Encodable(h, env, payload, bytes)) ==>
      h.draws == old(h.draws) + 1 && h.request.sizePayload == old(QuerySize(h, env, payload, bytes)) &&
      h.request.payload == Some(6 + |AuthorityBytes(h.authority)|)
    ensures old(Encodable(h, env, payload, bytes)) ==>
      var built := old(QueryRequest(h, env, payload, bytes, h.draws));
      (!old(h.connected) ==> !ok && h.request.packet == Some(built.0) && h.request.size == built.1) &&
      (old(h.connected) ==>
         var sent := Overridden(built.0, built.1, h.testFlags, h.testVersion, h.testHeader, h.testTid, h.testAuthlen, h.testTruncate);
         h.request.packet == Some(sent.0) && h.request.size == sent.1)
    ensures old(Encodable(h, env, payload, bytes)) ==>
      (!old(h.connected) ==> !ok && (old(h.initialized) ==> h.error == 74032 && h.errorText.None?)) &&
      (old(h.connected) ==> h.request.packet.Some? && |h.request.packet.value| >= 6 && Talked(h, env, ok))
    ensures ok ==> env.parse(UpToNul(h.response.UncompressedText())).Some?
    ensures ok ==> h.response.packet.Some? && |h.response.packet.value| > 3
  {
    var built := BuildQuery(h, env, payload, bytes);
    if !built {
      return false;
    }
    ok := Talk(h, env);
  }

  /**
   * The first half of irislwz_Query2 once its arguments are checked: both
   * packets freed, a terminated copy of the payload kept as the uncompressed
   * request, and the copy validated unless told not to (74045; the query
   * goes on when invalid XML is ignored).
   */
  method StageQuery(h: Handle, env: Env, text: seq<byte>) returns (staged: bool)
    requires h.Valid()
    modifies h`error, h`errorText, h.request, h.response
    ensures h.Valid() && h.request.packet.None? && h.response.Empty()
    ensures h.request.uncompressed == Some(text + [0]) && h.request.sizeUncompressed == |text|
    ensures var invalid := h.dontValidateInput == 0 && env.parse(UpToNul(text)).None?;
      (staged <==> !invalid || h.ignoreInvalidXml != 0) &&
      (invalid && old(h.initialized) ==> h.error == 74045)
  {
    h.request.Free();
    h.response.Free();
    h.request.uncompressed := Some(text + [0]);
    h.request.sizeUncompressed := |text|;
    if h.dontValidateInput == 0 {
      UpToNulTerminated(text);
      var valid := Validate(h, env.parse, text + [0]);
      if !valid {
        if h.error == 74044 {
          h.error := 74045;
        }
        if h.ignoreInvalidXml == 0 {
          return false;
        }
      }
    }
    staged := true;
  }

  const QueryPayloadText := "int irislwz_Query(IRISLWZ_HANDLE *handle, ==> char *payload <==)"
  const Query2PayloadText := "int irislwz_Query2(IRISLWZ_HANDLE *handle, ==> char *payload <==, int bytes)"
  const Query2BytesText := "int irislwz_Query2(IRISLWZ_HANDLE *handle, char *payload, ==> int bytes <==)"

  /**
   * Whether irislwz_Query2 gets as far as irislwz_Talk with the first bytes
   * octets of payload: they pass validation (or it is off, or invalid XML is
   * ignored) and they can be encoded.
   */
  ghost predicate Sendable(h: Handle, env: Env, payload: seq<byte>, bytes: int)
    reads h
    requires 0 < bytes <= |payload|
  {
    Encodable(h, env, payload, bytes) &&
    (h.dontValidateInput != 0 || env.parse(UpToNul(payload[..bytes])).Some? || h.ignoreInvalidXml != 0)
  }

  /** The part of irislwz_Query2 after its argument checks: stages the payload, then sends it. */
  method StageAndSend(h: Handle, env: Env, payload: seq<byte>, bytes: int) returns (ok: bool)
    requires EnvOk(env) && h.Valid()
    requires 1 <= bytes <= |payload|
    modifies h`error, h`errorText, h`draws, h.request, h.response
    ensures
      var text := payload[..bytes];
      h.request.uncompressed == Some(text + [0]) && h.request.sizeUncompressed == bytes &&
      var invalid := h.dontValidateInput == 0 && env.parse(UpToNul(text)).None?;
      (invalid && h.ignoreInvalidXml == 0 ==> (!ok && h.draws == old(h.draws) && h.request.packet.None? &&
         (old(h.initialized) ==> h.error == 74045))) &&
      (!old(Encodable(h, env, payload, bytes)) && (!invalid || h.ignoreInvalidXml != 0) ==>
         !ok && (old(h.initialized) ==> h.error == 74039))
    ensures (old(Encodable(h, env, payload, bytes)) &&
             (h.dontValidateInput != 0 || env.parse(UpToNul(payload[..bytes])).Some? || h.ignoreInvalidXml != 0)) ==>
      var built := old(QueryRequest(h, env, payload, bytes, h.draws));
      h.draws == old(h.draws) + 1 && h.request.sizePayload == old(QuerySize(h, env, payload, bytes)) &&
      h.request.payload == Some(6 + |AuthorityBytes(h.authority)|) &&
      (!old(h.connected) ==> !ok && h.request.packet == Some(built.0) && h.request.size == built.1) &&
      (old(h.connected) ==>
         var sent := Overridden(built.0, built.1, h.testFlags, h.testVersion, h.testHeader, h.testTid, h.testAuthlen, h.testTruncate);
         h.request.packet == Some(sent.0) && h.request.size == sent.1)
    ensures old(Sendable(h, env, payload, bytes)) ==>
      (!old(h.connected) ==> !ok && (old(h.initialized) ==> h.error == 74032 && h.errorText.None?)) &&
      (old(h.connected) ==> h.request.packet.Some? && |h.request.packet.value| >= 6 && Talked(h, env, ok))
    ensures ok ==> env.parse(UpToNul(h.response.UncompressedText())).Some?
    ensures ok ==> h.response.packet.Some? && |h.response.packet.value| > 3
  {
    var staged := StageQuery(h, env, payload[..bytes]);
    if !staged {
      return false;
    }
    assert Encodable(h, env, payload, bytes) == old(Encodable(h, env, payload, bytes));
    assert QuerySize(h, env, payload, bytes) == old(QuerySize(h, env, payload, bytes));
    assert Encodable(h, env, payload, bytes) ==>
      QueryRequest(h, env, payload, bytes, h.draws) == old(QueryRequest(h, env, payload, bytes, h.draws));
    ok := SendQuery(h, env, payload, bytes);
  }

  /**
   * irislwz_Query2: 74025 for a NULL payload or fewer than 1 octet; keeps a
   * terminated copy of the payload as the uncompressed request, validates it
   * unless told not to (74045, fatal unless invalid XML is ignored), then
   * sends it.
   */
  method Query2(h: Handle, env: Env, payload: Option<seq<byte>>, bytes: int) returns (ok: bool)
    requires EnvOk(env) && h.Valid()
    requires payload.Some? && bytes >= 1 ==> bytes <= |payload.value|
    modifies h`error, h`errorText, h`draws, h.request, h.response
    ensures payload.None? ==> (!ok && unchanged(h.request, h.response) && h.draws == old(h.draws) &&
      (old(h.initialized) ==> h.error == 74025 && h.errorText == Some(Query2PayloadText)))
    ensures payload.Some? && bytes < 1 ==> (!ok && unchanged(h.request, h.response) && h.draws == old(h.draws) &&
      (old(h.initialized) ==> h.error == 74025 && h.errorText == Some(Query2BytesText)))
    ensures payload.Some? && bytes >= 1 ==>
      var text := payload.value[..bytes];
      h.request.uncompressed == Some(text + [0]) && h.request.sizeUncompressed == bytes &&
      var invalid := h.dontValidateInput == 0 && env.parse(UpToNul(text)).None?;
      (invalid && h.ignoreInvalidXml == 0 ==> (!ok && h.draws == old(h.draws) && h.request.packet.None? &&
         (old(h.initialized) ==> h.error == 74045))) &&
      (!old(Encodable(h, env, payload.value, bytes)) && (!invalid || h.ignoreInvalidXml != 0) ==>
         !ok && (old(h.initialized) ==> h.error == 74039))
    ensures (payload.Some? && bytes >= 1 && old(Encodable(h, env, payload.value, bytes)) &&
             (h.dontValidateInput != 0 || env.parse(UpToNul(payload.value[..bytes])).Some? || h.ignoreInvalidXml != 0)) ==>
      var built := old(QueryRequest(h, env, payload.value, bytes, h.draws));
      h.draws == old(h.draws) + 1 && h.request.sizePayload == old(QuerySize(h, env, payload.value, bytes)) &&
      h.request.payload == Some(6 + |AuthorityBytes(h.authority)|) &&
      (!old(h.connected) ==> !ok && h.request.packet == Some(built.0) && h.request.size == built.1) &&
      (old(h.connected) ==>
         var sent := Overridden(built.0, built.1, h.testFlags, h.testVersion, h.testHeader, h.testTid, h.testAuthlen, h.testTruncate);
         h.request.packet == Some(sent.0) && h.request.size == sent.1)
    ensures payload.Some? && bytes >= 1 && old(Sendable(h, env, payload.value, bytes)) ==>
      (!old(h.connected) ==> !ok && (old(h.initialized) ==> h.error == 74032 && h.errorText.None?)) &&
      (old(h.connected) ==> h.request.packet.Some? && |h.request.packet.value| >= 6 && Talked(h, env, ok))
    ensures ok ==> env.parse(UpToNul(h.response.UncompressedText())).Some?
    ensures ok ==> h.response.packet.Some? && |h.response.packet.value| > 3
  {
    if payload.None? {
      SetError(h, 74025, Some(Query2PayloadText));
      return false;
    }
    if bytes < 1 {
      SetError(h, 74025, Some(Query2BytesText));
      return false;
    }
    ok := StageAndSend(h, env, payload.value, bytes);
  }

  /** irislwz_Query: irislwz_Query2 on the C string payload; 74025 for NULL. */
  method Query(h: Handle, env: Env, payload: Option<seq<byte>>) returns (ok: bool)
    requires EnvOk(env) && h.Valid()
    modifies h`error, h`errorText, h`draws, h.request, h.response
    ensures payload.None? ==> (!ok && unchanged(h.request, h.response) &&
      (old(h.initialized) ==> h.error == 74025 && h.errorText == Some(QueryPayloadText)))
    ensures payload.Some? && UpToNul(payload.value) == [] ==> (!ok &&
      (old(h.initialized) ==> h.error == 74025 && h.errorText == Some(Query2BytesText)))
    ensures payload.Some? && UpToNul(payload.value) != [] ==>
      h.request.uncompressed == Some(UpToNul(payload.value) + [0]) && h.request.sizeUncompressed == |UpToNul(payload.value)|
    ensures payload.Some? && UpToNul(payload.value) != [] && old(Sendable(h, env, payload.value, |UpToNul(payload.value)|)) ==>
      (!old(h.connected) ==> !ok && (old(h.initialized) ==> h.error == 74032 && h.errorText.None?)) &&
      (old(h.connected) ==> h.request.packet.Some? && |h.request.packet.value| >= 6 && Talked(h, env, ok))
    ensures ok ==> env.parse(UpToNul(h.response.UncompressedText())).Some?
    ensures ok ==> h.response.packet.Some? && |h.response.packet.value| > 3
  {
    if payload.None? {
      SetError(h, 74025, Some(QueryPayloadText));
      return false;
    }
    ok := Query2(h, env, payload, |UpToNul(payload.value)|);
  }

  /** The size-information octets text of a document, if it has one. */
  function SizeInfoText(doc: Document): Option<string>
  {
    var texts := Reach(doc, SizePath);
    if texts == [] then None else Some(texts[0])
  }

  /** The detail text of 74040. */
  function SizeRequiredText(octets: int, maximum: int): string
  {
    "required: " + IntToString(octets) + " bytes, maximum set: " + IntToString(maximum) + " bytes"
  }

  /** The size-information step of irislwz_CheckResponse: 74040 when the server names a nonzero size. */
  method CheckSizeInfo(h: Handle, env: Env)
    modifies h`error, h`errorText
    ensures var doc := env.parse(h.response.UncompressedText());
      old(h.initialized) ==>
        (doc.None? ==> h.error == 74014) &&
        (doc.Some? && SizeInfoText(doc.value).None? ==> h.error == 74041) &&
        (doc.Some? && SizeInfoText(doc.value).Some? ==>
          var octets := Atoi(SizeInfoText(doc.value).value);
          (octets != 0 ==> h.error == 74040 && h.errorText == Some(SizeRequiredText(octets, h.maximumResponseLength))) &&
          (octets == 0 ==> h.error == old(h.error) && h.errorText == old(h.errorText)))
  {
    ghost var doc := env.parse(h.response.UncompressedText());
    var octets := ParseSize(h, env.parse);
    assert doc.Some? && SizeInfoText(doc.value).Some? ==> octets == Atoi(SizeInfoText(doc.value).value);
    if octets != 0 {
      var text := SizeRequiredText(octets, h.maximumResponseLength);
      SetError(h, 74040, Some(text));
    }
    assert doc == env.parse(h.response.UncompressedText());
  }

  /** The other-information step of irislwz_CheckResponse: the server's error, or 74047 when it cannot be read. */
  method CheckOtherInfo(h: Handle, env: Env)
    modifies h`error, h`errorText
    ensures var doc := env.parse(h.response.UncompressedText());
      old(h.initialized) ==>
        (doc.None? ==> h.error == 74047 && h.errorText.None?) &&
        (doc.Some? ==>
          var code := OtherCode(doc.value);
          (code == 74053 ==> h.error == 74047 && h.errorText.None?) &&
          (code != 74053 ==> h.error == code && h.errorText == OtherDetail(doc.value)))
  {
    var parsed := ParseOther(h, env.parse);
    if !parsed {
      SetError(h, 74047, None);
    }
  }

  /**
   * irislwz_CheckResponse: 1 for an XML or version payload (types 0 and 1);
   * 0 after the size-information or other-information step for types 2
   * and 3.
   */
  method CheckResponse(h: Handle, env: Env) returns (r: int)
    requires h.response.packet.Some? && |h.response.packet.value| >= 1
    modifies h`error, h`errorText
    ensures var pt := PayloadType(h.response.packet.value[0]);
      r == (if pt <= 1 then 1 else 0) &&
      (pt <= 1 ==> h.error == old(h.error) && h.errorText == old(h.errorText))
    ensures var doc := env.parse(h.response.UncompressedText());
      PayloadType(h.response.packet.value[0]) == 2 && old(h.initialized) ==>
        (doc.None? ==> h.error == 74014) &&
        (doc.Some? && SizeInfoText(doc.value).None? ==> h.error == 74041) &&
        (doc.Some? && SizeInfoText(doc.value).Some? ==>
          var octets := Atoi(SizeInfoText(doc.value).value);
          (octets != 0 ==> h.error == 74040 && h.errorText == Some(SizeRequiredText(octets, h.maximumResponseLength))) &&
          (octets == 0 ==> h.error == old(h.error) && h.errorText == old(h.errorText)))
    ensures var doc := env.parse(h.response.UncompressedText());
      PayloadType(h.response.packet.value[0]) == 3 && old(h.initialized) ==>
        (doc.None? ==> h.error == 74047 && h.errorText.None?) &&
        (doc.Some? ==>
          var code := OtherCode(doc.value);
          (code == 74053 ==> h.error == 74047 && h.errorText.None?) &&
          (code != 74053 ==> h.error == code && h.errorText == OtherDetail(doc.value)))
  {
    var pt := PayloadType(h.response.packet.value[0]);
    if pt == 2 {
      CheckSizeInfo(h, env);
      return 0;
    }
    if pt == 3 {
      CheckOtherInfo(h, env);
      return 0;
    }
    return 1;
  }

  /**
   * The error irislwz_CheckResponse leaves after refusing a size-information
   * (type 2) or other-information (type 3) response. A size information of
   * 0 octets sets no error and is not constrained here.
   */
  ghost predicate RefusalError(h: Handle, env: Env)
    reads h, h.response
    requires h.response.packet.Some? && |h.response.packet.value| >= 1
  {
    var pt := PayloadType(h.response.packet.value[0]);
    var doc := env.parse(h.response.UncompressedText());
    (pt == 2 ==>
      (doc.None? ==> h.error == 74014) &&
      (doc.Some? && SizeInfoText(doc.value).None? ==> h.error == 74041) &&
      (doc.Some? && SizeInfoText(doc.value).Some? && Atoi(SizeInfoText(doc.value).value) != 0 ==>
        h.error == 74040 && h.errorText == Some(SizeRequiredText(Atoi(SizeInfoText(doc.value).value), h.maximumResponseLength)))) &&
    (pt == 3 ==>
      (doc.None? ==> h.error == 74047 && h.errorText.None?) &&
      (doc.Some? && OtherCode(doc.value) == 74053 ==> h.error == 74047 && h.errorText.None?) &&
      (doc.Some? && OtherCode(doc.value) != 74053 ==> h.error == OtherCode(doc.value) && h.errorText == OtherDetail(doc.value)))
  }
}
