/**
 * The C++ interface to the IRIS-LWZ client (src/lib/CIrisLWZ.cpp): an
 * object that owns a connection handle and an error holder. Each wrapper
 * calls the C function on the handle and returns its result; when that
 * result is 0 the handle's error is copied into the object. The header
 * tests read the flag octet of a packet, by default the last response.
 */
module CppIris {
  import opened Wrappers
  import opened LibC
  import opened IrisTypes
  import opened Errors
  import opened IrisLwz
  import opened XmlParser
  import opened CppList

  /** The name GetPayloadType gives a payload type (0..3). */
  function PayloadTypeName(t: nat): (name: string)
    requires t < 4
  {
    if t == 0 then "XML" else if t == 1 then "Version Info" else if t == 2 then "Size Info" else "Other Info"
  }

  /** The four names differ, so the name tells the type. */
  lemma {:induction false} PayloadTypeNamesDiffer(s: nat, t: nat)
    requires s < 4 && t < 4
    ensures PayloadTypeName(s) == PayloadTypeName(t) <==> s == t
  {
    if s != t {
      assert PayloadTypeName(s)[0] != PayloadTypeName(t)[0] || |PayloadTypeName(s)| != |PayloadTypeName(t)|;
    }
  }

  /** CIrisLWZ: the handle it drives and the error state it inherits from CError. */
  class CIrisLwz {
    const err: CError
    const handle: Handle

    /** The handle has been initialised and keeps its invariant. */
    ghost predicate Valid()
      reads this, handle
    {
      handle.initialized && handle.Valid()
    }

    /** The constructor runs irislwz_Init on the handle. */
    constructor ()
      ensures Valid() && fresh(err) && fresh(handle) && fresh(handle.request) && fresh(handle.response)
      ensures err.code == 0 && err.errorText.None?
      ensures handle.error == 0 && handle.authority.None? && handle.server.None?
      ensures handle.acceptDeflated == 0 && handle.sendDeflated == 0
    {
      err := new CError();
      handle := new Handle.Init();
    }

    // -------------------------------------------------------------------
    // Wrappers

    /** SetAuthority: irislwz_SetAuthority; a refused authority (74027) reaches the object. */
    method SetAuthority(authority: Option<string>) returns (ok: bool)
      requires Valid()
      modifies handle`authority, handle`error, handle`errorText, err
      ensures Valid()
      ensures ok <==> authority.None? || |authority.value| <= 255
      ensures handle.authority == (if ok then authority else None)
      ensures !ok ==> err.Mirrors(handle) && err.code == 74027 && err.errorText == Some(IntToString(|authority.value|))
      ensures ok ==> err.code == old(err.code) && err.errorText == old(err.errorText)
    {
      ok := IrisLwz.SetAuthority(handle, authority);
      if !ok {
        err.CopyError(handle);
      }
    }

    /** SetAuthorityByDomain: irislwz_SetAuthorityByDomain; a name without '.' gives 74058. */
    method SetAuthorityByDomain(domain: string) returns (ok: bool)
      requires Valid()
      modifies handle`authority, handle`error, handle`errorText, err
      ensures Valid()
      ensures AuthorityForDomain(domain).None? ==>
        !ok && handle.authority == old(handle.authority) && err.code == 74058 && err.errorText == Some(FormatDetail(domain))
      ensures AuthorityForDomain(domain).Some? ==>
        var a := AuthorityForDomain(domain).value;
        (ok <==> |a| <= 255) && handle.authority == (if ok then Some(a) else None)
      ensures AuthorityForDomain(domain).Some? && !ok ==>
        err.code == 74027 && err.errorText == Some(IntToString(|AuthorityForDomain(domain).value|))
      ensures !ok ==> err.Mirrors(handle)
      ensures ok ==> err.code == old(err.code) && err.errorText == old(err.errorText)
    {
      ok := IrisLwz.SetAuthorityByDomain(handle, domain);
      if !ok {
        err.CopyError(handle);
      }
    }

    /**
     * SetAuthorityByDomainList: the authority of the first domain of the
     * list (which moves the list's cursor); an empty list gives 74042 with
     * an empty detail, and GetFirst records 74042 on the list as well.
     */
    method SetAuthorityByDomainList(list: CDomainList) returns (ok: bool)
      requires Valid() && list.Valid() && list.err != err
      modifies handle`authority, handle`error, handle`errorText, err, list`cursor, list.err
      ensures Valid() && list.Valid()
      ensures list.list.records == [] ==>
        !ok && handle.authority == old(handle.authority) && list.cursor == old(list.cursor) &&
        err.code == 74042 && err.errorText == Some("") && list.err.code == 74042
      ensures list.list.records != [] ==>
        var a := AuthorityForDomain(list.list.records[0].domain);
        list.cursor == (if |list.list.records| > 1 then Some(1) else None) &&
        (ok <==> a.Some? && |a.value| <= 255) &&
        (a.Some? ==> handle.authority == (if ok then a else None)) &&
        (a.None? ==>
          handle.authority == old(handle.authority) &&
          err.code == 74058 && err.errorText == Some(FormatDetail(list.list.records[0].domain))) &&
        (a.Some? && !ok ==> err.code == 74027 && err.errorText == Some(IntToString(|a.value|))) &&
        (!ok ==> err.Mirrors(handle)) &&
        (ok ==> err.code == old(err.code) && err.errorText == old(err.errorText))
    {
      var r := list.GetFirst();
      if r.None? {
        err.SetError(74042, Some(""));
        return false;
      }
      ok := SetAuthorityByDomain(r.value.domain);
    }

    /** SetHost: irislwz_SetHost; a NULL host gives 74025, port 0 the default port. */
    method SetHost(host: Option<string>, port: int) returns (ok: bool)
      requires Valid()
      modifies handle`server, handle`port, handle`error, handle`errorText, err
      ensures Valid()
      ensures ok <==> host.Some?
      ensures ok ==> handle.server == host && handle.port == (if port != 0 then port else DefaultPort)
      ensures !ok ==>
        handle.server == old(handle.server) && err.Mirrors(handle) &&
        err.code == 74025 && err.errorText == Some(HostArgumentText)
      ensures ok ==> err.code == old(err.code) && err.errorText == old(err.errorText)
    {
      ok := IrisLwz.SetHost(handle, host, port);
      if !ok {
        err.CopyError(handle);
      }
    }

    /** GetHostname: the server; NULL with 74026 when none is set. */
    method GetHostname() returns (host: Option<string>)
      requires Valid()
      modifies handle`error, handle`errorText, err
      ensures Valid()
      ensures host == handle.server
      ensures host.None? ==> err.Mirrors(handle) && err.code == 74026 && err.errorText.None?
      ensures host.Some? ==> err.code == old(err.code) && err.errorText == old(err.errorText)
    {
      host := IrisLwz.GetHostname(handle);
      if host.None? {
        err.CopyError(handle);
      }
    }

    /** GetPort: the port; 0 with 74026 when no server or port is set. */
    method GetPort() returns (port: int)
      requires Valid()
      modifies handle`error, handle`errorText, err
      ensures Valid()
      ensures port == (if handle.server.None? || handle.port == 0 then 0 else handle.port)
      ensures port == 0 ==> err.Mirrors(handle) && err.code == 74026 && err.errorText.None?
      ensures port != 0 ==> err.code == old(err.code) && err.errorText == old(err.errorText)
    {
      port := IrisLwz.GetPort(handle);
      if port == 0 {
        err.CopyError(handle);
      }
    }

    /** AcceptDeflated: irislwz_AcceptDeflated, which cannot fail, so no error is ever copied. */
    method AcceptDeflated(flag: int) returns (ok: bool)
      requires Valid()
      modifies handle`acceptDeflated
      ensures Valid() && ok && handle.acceptDeflated == CharOf(flag)
    {
      ok := IrisLwz.AcceptDeflated(handle, flag);
    }

    /** SendDeflated: irislwz_SendDeflated, which cannot fail, so no error is ever copied. */
    method SendDeflated(flag: int) returns (ok: bool)
      requires Valid()
      modifies handle`sendDeflated
      ensures Valid() && ok && handle.sendDeflated == CharOf(flag)
    {
      ok := IrisLwz.SendDeflated(handle, flag);
    }

    /** Query: irislwz_Query on the handle; a failed query leaves the handle's error in the object. */
    method Query(env: Env, payload: Option<seq<byte>>) returns (ok: bool)
      requires Valid() && EnvOk(env)
      modifies handle`error, handle`errorText, handle`draws, handle.request, handle.response, err
      ensures Valid()
      ensures payload.None? ==> !ok && err.code == 74025 && err.errorText == Some(QueryPayloadText)
      ensures ok ==> env.parse(UpToNul(handle.response.UncompressedText())).Some?
      ensures payload.Some? && UpToNul(payload.value) != [] && old(Sendable(handle, env, payload.value, |UpToNul(payload.value)|)) ==>
        (!old(handle.connected) ==> !ok && err.code == 74032 && err.errorText.None?) &&
        (old(handle.connected) ==> handle.request.packet.Some? && |handle.request.packet.value| >= 6 && Talked(handle, env, ok))
      ensures !ok ==> err.Mirrors(handle)
      ensures ok ==> err.code == old(err.code) && err.errorText == old(err.errorText)
    {
      ok := IrisLwz.Query(handle, env, payload);
      if !ok {
        err.CopyError(handle);
      }
    }

    /**
     * CheckResponse: irislwz_CheckResponse; 1 for XML and version payloads,
     * 0 otherwise, and then the handle's error (the server's error for other
     * information) is copied.
     */
    method CheckResponse(env: Env) returns (r: int)
      requires Valid()
      requires handle.response.packet.Some? && |handle.response.packet.value| >= 1
      modifies handle`error, handle`errorText, err
      ensures Valid()
      ensures r == (if PayloadType(handle.response.packet.value[0]) <= 1 then 1 else 0)
      ensures r == 0 ==> err.Mirrors(handle)
      ensures r == 0 && PayloadType(handle.response.packet.value[0]) == 3 ==>
        var doc := env.parse(handle.response.UncompressedText());
        err.code == (if doc.None? then 74047 else var c := OtherCode(doc.value);
                     if c == 74053 then 74047 else c)
      ensures r == 1 ==> err.code == old(err.code) && err.errorText == old(err.errorText)
    {
      r := IrisLwz.CheckResponse(handle, env);
      if r == 0 {
        err.CopyError(handle);
      }
    }

    // -------------------------------------------------------------------
    // Header tests

    /** The packet a header test reads: p, or the last response when p is NULL. */
    function Target(p: Packet?): (q: Packet)
      reads this
      ensures p != null ==> q == p
      ensures p == null ==> q == handle.response
    {
      if p == null then handle.response else p
    }

    /** The flag octet of the packet a header test reads, when it has a header. */
    function HeaderOf(p: Packet?): Option<byte>
      reads this, Target(p)
    {
      Target(p).Flags()
    }

    predicate IsResponse(p: Packet?)
      reads this, Target(p)
    {
      HeaderOf(p).Some? && HasFlag(HeaderOf(p).value, ResponseFlag)
    }

    predicate IsDeflated(p: Packet?)
      reads this, Target(p)
    {
      HeaderOf(p).Some? && HasFlag(HeaderOf(p).value, DeflatedFlag)
    }

    predicate IsDeflateSupported(p: Packet?)
      reads this, Target(p)
    {
      HeaderOf(p).Some? && HasFlag(HeaderOf(p).value, DeflateSupportedFlag)
    }

    predicate PayloadIsXml(p: Packet?)
      reads this, Target(p)
    {
      HeaderOf(p).Some? && Bits(HeaderOf(p).value) & PayloadTypeMask == 0
    }

    predicate PayloadIsVersion(p: Packet?)
      reads this, Target(p)
    {
      HeaderOf(p).Some? && Bits(HeaderOf(p).value) & PayloadTypeMask == 1
    }

    predicate PayloadIsSizeInfo(p: Packet?)
      reads this, Target(p)
    {
      HeaderOf(p).Some? && Bits(HeaderOf(p).value) & PayloadTypeMask == 2
    }

    predicate PayloadIsOther(p: Packet?)
      reads this, Target(p)
    {
      HeaderOf(p).Some? && Bits(HeaderOf(p).value) & PayloadTypeMask == 3
    }

    /** GetPayloadType: the name of the payload type; NULL for a packet without header. */
    function GetPayloadType(p: Packet?): (name: Option<string>)
      reads this, Target(p)
      ensures name.None? <==> HeaderOf(p).None?
      ensures name.Some? ==> name.value == PayloadTypeName(PayloadType(HeaderOf(p).value))
    {
      var h := HeaderOf(p);
      if h.None? then None
      else
        var t := Bits(h.value) & PayloadTypeMask;
        if t == 0 then Some("XML")
        else if t == 1 then Some("Version Info")
        else if t == 2 then Some("Size Info")
        else Some("Other Info")
    }

    /**
     * Without a header every test is false and there is no type name; with
     * one, exactly one of the four payload tests holds, and it is the one
     * GetPayloadType names.
     */
    lemma {:induction false} PayloadTestsExclusive(p: Packet?)
      ensures HeaderOf(p).None? ==>
        !IsResponse(p) && !IsDeflated(p) && !IsDeflateSupported(p) &&
        !PayloadIsXml(p) && !PayloadIsVersion(p) && !PayloadIsSizeInfo(p) && !PayloadIsOther(p) &&
        GetPayloadType(p).None?
      ensures HeaderOf(p).Some? ==>
        (if PayloadIsXml(p) then 1 else 0) + (if PayloadIsVersion(p) then 1 else 0) +
        (if PayloadIsSizeInfo(p) then 1 else 0) + (if PayloadIsOther(p) then 1 else 0) == 1
      ensures PayloadIsXml(p) <==> GetPayloadType(p) == Some("XML")
      ensures PayloadIsVersion(p) <==> GetPayloadType(p) == Some("Version Info")
      ensures PayloadIsSizeInfo(p) <==> GetPayloadType(p) == Some("Size Info")
      ensures PayloadIsOther(p) <==> GetPayloadType(p) == Some("Other Info")
    {
      if HeaderOf(p).Some? {
        var t := PayloadType(HeaderOf(p).value);
        PayloadTypeNamesDiffer(t, 0);
        PayloadTypeNamesDiffer(t, 1);
        PayloadTypeNamesDiffer(t, 2);
        PayloadTypeNamesDiffer(t, 3);
      }
    }

    /**
     * On a request irislwz_PrepareQuery encoded, the header tests read back
     * the options of the handle: not a response, deflate supported and used
     * as set, and other information over size information over XML.
     */
    lemma {:induction false} PreparedRequestTests(p: Packet, h: Handle, tid: int, rest: seq<byte>)
      requires h.authority.Some? ==> |h.authority.value| <= 255
      requires p.packet == Some(EncodeHeader(RequestHeader(h, tid)) + rest)
      ensures !IsResponse(p)
      ensures IsDeflateSupported(p) <==> h.acceptDeflated != 0
      ensures IsDeflated(p) <==> h.sendDeflated != 0
      ensures GetPayloadType(p) == Some(if h.flagOi != 0 then "Other Info" else if h.flagSi != 0 then "Size Info" else "XML")
    {
      var f := RequestFlags(h.acceptDeflated, h.sendDeflated, h.flagSi, h.flagOi);
      RequestFlagsMeaning(h.acceptDeflated, h.sendDeflated, h.flagSi, h.flagOi);
      OfBitsRoundTrip(f);
      assert HeaderOf(p) == Some(OfBits(f));
    }
  }
}
