/**
 * The state of an IRIS-LWZ connection (include/dchk.h): the request and
 * response packets, the connection handle, and the services the client
 * calls into but does not implement (random numbers, zlib, libxml2, the
 * socket), gathered as functions in an environment.
 */
module IrisTypes {
  import opened Wrappers
  import opened LibC
  import opened XmlTree
  import opened SocketErrors

  /** IRIS-LWZ payload descriptor flag bits (RFC 4993 section 3.1). */
  const VersionMask: bv8 := 192
  const ResponseFlag: bv8 := 32
  const DeflatedFlag: bv8 := 16
  const DeflateSupportedFlag: bv8 := 8
  const PayloadTypeMask: bv8 := 3

  const DefaultPort := 715
  const DefaultMaximumResponseLength := 1500

  /**
   * IRISLWZ_PACKET. The header is the first octets of the packet buffer, so it
   * exists exactly when the buffer does. The payload is an offset into the
   * buffer. The uncompressed payload either aliases the raw payload or is a
   * buffer of its own.
   */
  class Packet {
    var packet: Option<seq<byte>>
    var size: int
    var payload: Option<nat>
    var sizePayload: int
    var uncompressed: Option<seq<byte>>
    var uncompressedAliasesPayload: bool
    var sizeUncompressed: int

    /** A packet after irislwz_FreePacket: every pointer NULL, every size 0. */
    ghost predicate Empty()
      reads this
    {
      packet.None? && size == 0 && payload.None? && sizePayload == 0 &&
      uncompressed.None? && !uncompressedAliasesPayload && sizeUncompressed == 0
    }

    constructor ()
      ensures Empty()
    {
      packet := None;
      size := 0;
      payload := None;
      sizePayload := 0;
      uncompressed := None;
      uncompressedAliasesPayload := false;
      sizeUncompressed := 0;
    }

    /** The header flag octet, when the packet has a header. */
    function Flags(): Option<byte>
      reads this
    {
      if packet.Some? && |packet.value| > 0 then Some(packet.value[0]) else None
    }

    /** The size_uncompressed octets at uncompressed_payload that the XML parser is given. */
    function UncompressedText(): (t: seq<byte>)
      reads this
      ensures uncompressed.Some? && 0 <= sizeUncompressed <= |uncompressed.value| ==> |t| == sizeUncompressed
    {
      if uncompressed.Some? && 0 <= sizeUncompressed <= |uncompressed.value|
      then uncompressed.value[..sizeUncompressed] else []
    }

    /** irislwz_FreePacket. */
    method Free()
      modifies this
      ensures Empty()
    {
      packet := None;
      size := 0;
      payload := None;
      sizePayload := 0;
      uncompressed := None;
      uncompressedAliasesPayload := false;
      sizeUncompressed := 0;
    }
  }

  /** DCHK_RECORD: a domain name and what the server said about it. */
  datatype Record = Record(domain: string, lastDatabaseUpdate: Option<string>, status: Option<string>)

  /** DCHK_DOMAINLIST: the records in list order (first to last). */
  class DomainList {
    var records: seq<Record>

    /** dchk_NewDomainList: an empty list. */
    constructor ()
      ensures records == []
    {
      records := [];
    }
  }

  /** Whether the header flag octet has a bit of mask set. */
  predicate HasFlag(flags: byte, mask: bv8)
  {
    Bits(flags) & mask != 0
  }

  /** The payload type field (PT) of a header flag octet. */
  function PayloadType(flags: byte): (t: nat)
    ensures t < 4
  {
    (Bits(flags) & PayloadTypeMask) as nat
  }

  /** A C char flag (acceptDeflated, sendDeflated, ...) holding (char) flag. */
  function CharOf(flag: int): (c: byte)
    ensures (c != 0) <==> (flag % 256 != 0)
  {
    (flag % 256) as byte
  }

  /** IRISLWZ_HANDLE: the connection settings, the last error, the packets and the test options. */
  class Handle {
    var error: int
    var errorText: Option<string>
    var initialized: bool
    var authority: Option<string>
    var server: Option<string>
    var port: int
    var connected: bool
    var acceptDeflated: byte
    var sendDeflated: byte
    var flagSi: byte
    var flagOi: byte
    var rfc1950Workaround: byte
    var ignoreInvalidXml: byte
    var dontValidateInput: byte
    var maximumResponseLength: int
    var timeoutSeconds: int
    var timeoutUseconds: int
    const request: Packet
    const response: Packet
    var verboseFlag: int
    var testFlags: bv8
    var testVersion: int
    var testHeader: byte
    var testTid: int
    var testAuthlen: int
    var testTruncate: int
    /** How many transaction ids have been drawn from the random source. */
    var draws: nat

    ghost predicate Valid()
      reads this
    {
      request != response &&
      (authority.Some? ==> |authority.value| <= 255)
    }

    /** irislwz_Init: a zeroed handle with the default port, response length and timeout. */
    constructor Init()
      ensures Valid() && fresh(request) && fresh(response)
      ensures request.Empty() && response.Empty()
      ensures initialized && error == 0 && errorText.None?
      ensures authority.None? && server.None? && !connected
      ensures port == DefaultPort && maximumResponseLength == DefaultMaximumResponseLength
      ensures timeoutSeconds == 5 && timeoutUseconds == 0
      ensures acceptDeflated == 0 && sendDeflated == 0 && flagSi == 0 && flagOi == 0
      ensures rfc1950Workaround == 0 && ignoreInvalidXml == 0 && dontValidateInput == 0
      ensures testFlags == 0 && verboseFlag == 0 && draws == 0
    {
      error := 0;
      errorText := None;
      initialized := true;
      authority := None;
      server := None;
      port := DefaultPort;
      connected := false;
      acceptDeflated := 0;
      sendDeflated := 0;
      flagSi := 0;
      flagOi := 0;
      rfc1950Workaround := 0;
      ignoreInvalidXml := 0;
      dontValidateInput := 0;
      maximumResponseLength := DefaultMaximumResponseLength;
      timeoutSeconds := 5;
      timeoutUseconds := 0;
      request := new Packet();
      response := new Packet();
      verboseFlag := 0;
      testFlags := 0;
      testVersion := 0;
      testHeader := 0;
      testTid := 0;
      testAuthlen := 0;
      testTruncate := 0;
      draws := 0;
    }
  }

  /** What zlib's uncompress / rfc1951_inflate report. */
  datatype InflateStatus = InflateOk(out: seq<byte>) | InflateBufError | InflateFailed

  /** What one send/recv exchange on the connected socket yields. */
  datatype NetOutcome =
    | SendFailed(sendErrno: Errno)
    | RecvFailed(recvErrno: Errno, received: int)
    | Received(datagram: seq<byte>)

  /**
   * The services behind the client:
   * rand(k) is the k-th irislwz_rand(1, 65534);
   * deflate(rfc1950, data, capacity) is compress2 (rfc1950) or rfc1951_deflate into a buffer of capacity octets;
   * inflate(rfc1950, data, capacity) is uncompress (rfc1950) or rfc1951_inflate;
   * parse(text) is xmlReadMemory;
   * exchange(packet, size, capacity) sends size octets of packet and receives the answer
 * datagram into a buffer of capacity octets.
   */
  datatype Env = Env(
    rand: nat -> int,
    deflate: (bool, seq<byte>, nat) -> Option<seq<byte>>,
    inflate: (bool, seq<byte>, nat) -> InflateStatus,
    parse: seq<byte> -> Option<Document>,
    exchange: (seq<byte>, int, int) -> NetOutcome)

  /**
   * What the client takes for granted of these services: transaction ids in
   * [1,65534], compressed output that fits its buffer, inflated output that
   * leaves room for the terminator the client writes after it, a received
   * datagram of at least one octet that fits the receive buffer, and a failed
   * receive that returned -1 or 0 (an empty datagram).
   */
  ghost predicate EnvOk(env: Env)
  {
    (forall k :: 1 <= env.rand(k) <= 65534) &&
    (forall r, d, c :: env.deflate(r, d, c).Some? ==> |env.deflate(r, d, c).value| <= c) &&
    (forall r, d, c :: env.inflate(r, d, c).InflateOk? ==> |env.inflate(r, d, c).out| < c) &&
    (forall p, s, c :: env.exchange(p, s, c).Received? ==>
       |env.exchange(p, s, c).datagram| > 0 && (c >= 0 ==> |env.exchange(p, s, c).datagram| <= c)) &&
    (forall p, s, c :: env.exchange(p, s, c).RecvFailed? ==>
       env.exchange(p, s, c).received == -1 || env.exchange(p, s, c).received == 0)
  }
}
