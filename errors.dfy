/**
 * Error codes and their texts (trunk/src/lib/errors.c), and the error state
 * of a handle. Codes 74000..74061 are transport and library errors, 74100..74106
 * DCHK errors, 1000..1999 socket errors.
 */
module Errors {
  import opened Wrappers
  import opened SocketErrors
  import opened IrisTypes

  /** errorslwz[k] is the text of code 74000 + k. */
  const LwzErrorTexts: seq<string> := [
    "DNS: initialization of resolver failed",
    "DNS: query for DCHK NAPTR-record failed",
    "DNS: Unknown or invalid TLD",
    "DNS: parsing error",
    "DNS: No NAPTR records found for this TLD",
    "DCHK: No DCHK service registered for this TLD",
    "DNS: No DCHK service found for this TLD (Unknown or invalid SRV-record)",
    "DNS: No DCHK service found for this TLD (Query for SRV-record failed)",
    "DNS: No DCHK service found for this TLD (No SRV records found for this name)",
    "UDP: Sending request packet to DCHK server failed",
    "DCHK: Hostname missing",
    "DCHK: No domain names given",
    "DCHK: Could not resolve hostname",
    "DCHK: Could not open file with debug input (-i)",
    "DCHK: Parsing of XML response failed",
    "XML: unable to create new XPath context",
    "XML: libxml2 not available",
    "DCHK: Unknown XML response",
    "XML: unable to register namespace",
    "XML: Empty resultSet",
    "DCHK: Timeout - server did not respond in time",
    "DCHK: TLD is missing",
    "Sorry, automatic lookup of DCHK server by DNS is not supported on this platform",
    "DCHK object points to NULL",
    "Out of memory",
    "Parameter missing or NULL",
    "No hostname or port specified yet",
    "DCHK: Authority name is to long",
    "Could not initialize DCHK handle",
    "Could not add domain to query list",
    "Could not create socket",
    "Already connected to DCHK server",
    "Not connected to DCHK server",
    "Setting of socket timeout failed",
    "Socket error",
    "Operation timeout",
    "DCHK: Answer is too short",
    "Decompression of payload failed",
    "Nothing to do, domain list is empty",
    "Compression of payload failed",
    "DCHK: Answer is bigger than maximum allowed size",
    "DCHK: Server has set size information bit, but no size found",
    "Domain list is empty",
    "No more domains in list",
    "Payload contains not a valid XML document",
    "XML in request packet is invalid",
    "XML in response packet is invalid",
    "Server response with \"other information\"",
    "Server raised descriptor error",
    "Server raised payload error",
    "Server raised system error",
    "Server raised authority-error",
    "Server raised no-inflation-support-error",
    "Unknown server response",
    "Domain name too long",
    "String does not contain any domains",
    "Delimiter is empty, cannot explode string",
    "DNS: Not a NAPTR record",
    "invalid domain name",
    "could not open inputfile",
    "could not dtermine size of inputfile",
    "error while reading inputfile"
  ]

  /** errorsdchk[k] is the text of code 74100 + k. */
  const DchkErrorTexts: seq<string> := [
    "libxml2 is not installed",
    "DCHK: not a valid XML document",
    "DCHK: unexpected payload type in DCHK answer",
    "DCHK: transaction ID in answer does not match request",
    "DCHK: no or incomplete answer",
    "DCHK: connect to server failed",
    "DCHK: could not escape special chars in domainname"
  ]

  /** irislwz_GetError: the text of an error code, NULL when the code has none. */
  function GetError(code: int): (r: Option<string>)
    ensures 74000 <= code <= 74061 ==> r == Some(LwzErrorTexts[code - 74000])
    ensures 74100 <= code <= 74106 ==> r == Some(DchkErrorTexts[code - 74100])
    ensures 1000 <= code <= 1999 ==> r == GetSocketError(code)
    ensures r.Some? <==> (74000 <= code <= 74061 || 74100 <= code <= 74106 || 1000 <= code <= 1074)
  {
    if 74000 <= code <= 74000 + (|LwzErrorTexts| + 1 - 2) then Some(LwzErrorTexts[code - 74000])
    else if 74100 <= code <= 74100 + (|DchkErrorTexts| + 1 - 2) then Some(DchkErrorTexts[code - 74100])
    else if 1000 <= code <= 1999 then GetSocketError(code)
    else None
  }

  /** irislwz_GetErrorCode: the last error of the handle; 74023 for a NULL handle. */
  function GetErrorCode(h: Handle?): (code: int)
    reads h
    ensures h == null ==> code == 74023
    ensures h != null ==> code == h.error
  {
    if h == null then 74023 else h.error
  }

  /** irislwz_GetErrorText: the text of the last error, "unknown" when the code has none. */
  function GetErrorText(h: Handle?): (text: string)
    reads h
    ensures GetError(GetErrorCode(h)).Some? ==> text == GetError(GetErrorCode(h)).value
    ensures GetError(GetErrorCode(h)).None? ==> text == "unknown"
  {
    var t := if h == null then GetError(74023) else GetError(h.error);
    if t.None? then "unknown" else t.value
  }

  /** irislwz_GetAdditionalErrorText: the detail text of the last error, if any. */
  function GetAdditionalErrorText(h: Handle?): (text: Option<string>)
    reads h
    ensures h == null ==> text == GetError(74023)
    ensures h != null ==> text == h.errorText
  {
    if h == null then GetError(74023) else h.errorText
  }

  /**
   * irislwz_SetError. detail is the formatted additional text, None for a NULL
   * format. Nothing happens on a NULL or uninitialised handle.
   */
  method SetError(h: Handle?, code: int, detail: Option<string>)
    modifies (if h == null then {} else {h})`error, (if h == null then {} else {h})`errorText
    ensures h != null && old(h.initialized) ==> h.error == code && h.errorText == detail
    ensures h != null && !old(h.initialized) ==> h.error == old(h.error) && h.errorText == old(h.errorText)
  {
    if h == null || !h.initialized {
      return;
    }
    h.error := code;
    h.errorText := None;
    if detail.None? {
      return;
    }
    h.errorText := detail;
  }

  // ---------------------------------------------------------------------
  // A text passed as the format

  /**
   * What vasprintf makes of a format when no arguments follow it: "%%" is
   * one '%'. Any other conversion reads an argument that was never passed;
   * the model keeps such a conversion as written.
   */
  function FormatDetail(fmt: string): (r: string)
    ensures '%' !in fmt ==> r == fmt
    ensures |r| <= |fmt|
    decreases |fmt|
  {
    if fmt == [] then []
    else if |fmt| >= 2 && fmt[0] == '%' && fmt[1] == '%' then "%" + FormatDetail(fmt[2..])
    else [fmt[0]] + FormatDetail(fmt[1..])
  }

  /** The format that prints text unchanged: every '%' doubled. */
  function FormatLiteral(text: string): (r: string)
    ensures '%' !in text ==> r == text
    ensures |r| >= |text|
    decreases |text|
  {
    if text == [] then []
    else (if text[0] == '%' then "%%" else [text[0]]) + FormatLiteral(text[1..])
  }

  /** Formatting the doubled text gives the text back: the detail a "%s" format would give. */
  lemma {:induction false} FormatLiteralRoundTrip(text: string)
    ensures FormatDetail(FormatLiteral(text)) == text
    decreases |text|
  {
    if text != [] {
      var rest := FormatLiteral(text[1..]);
      FormatLiteralRoundTrip(text[1..]);
      if text[0] == '%' {
        assert FormatLiteral(text) == "%%" + rest;
        assert ("%%" + rest)[2..] == rest;
      } else {
        assert FormatLiteral(text) == [text[0]] + rest;
        assert ([text[0]] + rest)[1..] == rest;
      }
    }
  }

  /** A name holding "%%" loses a '%' when it is used as the format. */
  lemma {:induction false} FormatDetailCollapses()
    ensures FormatDetail("a%%b") == "a%b"
    ensures FormatDetail(FormatLiteral("a%%b")) == "a%%b"
  {
  }
}
