# dchk-client in Dafny

A model of the client library of dchk-client. The library speaks IRIS-LWZ, the
lightweight UDP transport of IRIS (RFC 4993). It carries DCHK queries, the
domain-availability registry type of RFC 5144.

The model covers:

- the connection handle and its setters;
- the encoding of the 6-octet request header;
- the steps of a transaction on the client side: the test overrides, the
  receive checks and the inflate retry loop;
- the classification of response payloads;
- the domain list, its delimiter splitting and the XML escaping of names;
- the loop that bundles a list into requests;
- the demultiplexing of a DCHK answer into the records of a request;
- the DNS steps that find a server: the NAPTR and SRV decoding and the
  BIND-derived message parser;
- the error tables;
- the C++ classes `CError`, `CDomainList`, `CIrisLWZ` and `CDchk`;
- the argument handling of the command-line client and the two text
  helpers of the Qt front end.

There is one Dafny module per source file. The C handle, packets and domain
list are classes whose fields the methods update. The C++ classes are classes
too; inheritance becomes a `base` field.

These services are function-valued parameters bundled in `IrisTypes.Env`:

- zlib (deflate and inflate);
- libxml2 (parsing, over the abstract tree of `XmlTree`);
- the socket exchange;
- `irislwz_rand`;
- `dn_skipname` and `dn_expand`;
- the resolver (`res_init`, `res_query`).

`IrisTypes.EnvOk` and `NsParse.NamesAgree` state what the code takes for
granted of these services.

C strings are `seq<char>` holding the characters before the terminator. Wire
data is `seq<byte>`. Undefined behaviour in the C code becomes a precondition,
or a branch whose modelled outcome "## Left out" names.

Shared modules:

- `Wrappers`: `Option`.
- `LibC`: the C-library functions the code relies on (`atoi`, `strncmp` as
  a prefix test, `tolower`, big-endian fields, `int` and `size_t`
  conversions).
- `XmlTree`: documents as element and text nodes.
- `IrisTypes`: the structures of include/dchk.h.

## Model

| member | source | states |
|---|---|---|
| Errors.GetError | trunk/src/lib/errors.c:154-161 | 74000..74061 give errorslwz[code-74000] and 74100..74106 give errorsdchk[code-74100]. 1000..1999 go to GetSocketError. Exactly those codes and 1000..1074 have a text. |
| Errors.GetErrorCode | trunk/src/lib/errors.c:178-179 | 74023 for a NULL handle, otherwise the stored code. |
| Errors.GetErrorText | trunk/src/lib/errors.c:194-197 | The table text of the handle's code (of 74023 for NULL), "unknown" when it has none. |
| Errors.GetAdditionalErrorText | trunk/src/lib/errors.c:211-213 | The stored detail text; the text of 74023 for a NULL handle. |
| Errors.SetError | trunk/src/lib/errors.c:230-235 | On an initialised handle: code stored, old text replaced by the new detail (none for a NULL format). A NULL or uninitialised handle is left unchanged. |
| Errors.FormatDetailCollapses | trunk/src/lib/errors.c:235-240 | A text used as the format loses a '%' of each "%%": the name "a%%b" is stored as "a%b". |
| Errors.FormatLiteralRoundTrip | trunk/src/lib/errors.c:235-240 | Doubling every '%' of a text and formatting it gives the text back, which is what a "%s" format with the text as argument stores. |
| SocketErrors.GetSocketError | src/lib/socketerrors.c:151-154 | A text exactly for 1000..1074: socketerrors[code-1000]. |
| SocketErrors.TranslateSocketErrorSound | src/lib/socketerrors.c:228-368 | Every errno maps into 1000..1062. 1000 comes exactly from the errno values the switch does not name. The code gives back the errno, up to the two shared pairs. |
| SocketErrors.TranslateSocketErrorRange | src/lib/socketerrors.c:228-368 | Codes lie in 1000..1062, inside the text table; 1000 iff the errno is unmapped. |
| SocketErrors.TranslateSocketErrorInverse | src/lib/socketerrors.c:228-364 | ErrnoOfCode inverts the mapping on the named errno values, with EPERM folded onto EACCES and ENFILE onto EMFILE. |
| SocketErrors.SharedSocketErrorCodes | src/lib/socketerrors.c:232-249 | Two different named errno values share a code iff they are EACCES/EPERM (1002) or EMFILE/ENFILE (1005). |
| SocketErrors.TranslateGaiErrorSound | src/lib/socketerrors.c:376-422 | EAI_ADDRFAMILY and EAI_FAMILY are exactly the results mapped to 1067. EAI_SYSTEM defers to the errno translation. Unnamed results give 1000. |
| Compat.Strndup | src/lib/compat.c:109-120 | NULL iff NULL; otherwise a prefix of str of length min(len, strlen(str)). |
| Compat.Hex2Value | src/lib/compat.c:200-201 | The two "%02X" digits of an octet read back as the octet. |
| Compat.HexLineLayout | src/lib/compat.c:187-204 | Line j has three parts. First, the 12-character offset text of octet 16j. Then each of its at most 16 octets as two hex digits and a blank, with blanks up to column 60. Then ": " and one clear-text character per octet ('.' outside 32..127). |
| Compat.HexDumpLineCount | src/lib/compat.c:189-212 | One line per started block of 16 octets, and no line for 0 octets. |
| Compat.HexDump | src/lib/compat.c:181-214 | The column-counter loop prints exactly HexDumpText(data), the lines HexLineLayout describes. |
| Compat.FlushedLine | src/lib/compat.c:190-194 | Padding the hex column with 63 blanks, cutting at 60, then ": " and the clear text gives the line of the block. |
| IrisTypes.Handle.Init | src/lib/irislwz.c:339-365 | irislwz_Init: an initialised handle with no error, authority or server. Port 715, maximum response length 1500, timeout 5 s, every flag 0, both packets empty. |
| IrisTypes.Packet.Free | src/lib/irislwz.c:1041-1057 | irislwz_FreePacket: every pointer NULL and every size 0. |
| IrisTypes.DomainList.constructor | trunk/src/lib/dchk.c:103-137 | dchk_NewDomainList: an empty list. |
| IrisLwz.CheckMinVersion | src/lib/irislwz.c:305-335 | 0 iff the packed version equals the library's, 1 iff the library is newer, -1 otherwise. |
| IrisLwz.CheckMinVersionIsLexicographic | src/lib/irislwz.c:305-335 | For minor and build below 256 the packed comparison is the lexicographic one on (major, minor, build). |
| IrisLwz.SetTimeout | src/lib/irislwz.c:469-494 | Stores both timeout fields and succeeds. |
| IrisLwz.SetAuthority | src/lib/irislwz.c:509-520 | NULL clears the authority. A name of at most 255 octets is stored. A longer one fails with 74027 and its length as detail, and leaves the authority unset. The stored authority never exceeds 255 octets. |
| IrisLwz.AuthorityForDomainMeaning | src/lib/irislwz.c:545-556 | The authority is the text after the last '.'. An "arpa" name (in any case) containing "9.4.e164.arpa" gets "9.4.e164.arpa" instead. |
| IrisLwz.SetAuthorityByDomain | src/lib/irislwz.c:545-556 | A name without '.' fails with 74058. Its detail is the name used as a printf format, so "%%" becomes "%". Otherwise the result and state are those of SetAuthority on AuthorityForDomain: stored when it has at most 255 octets, else unset with 74027 and its length as the detail. |
| IrisLwz.SetAuthorityByDomainList | src/lib/irislwz.c:559-586 | 74025 for a NULL list, 74042 for an empty one, otherwise SetAuthorityByDomain on the first name. That gives 74058 with the name as the detail's format, or 74027 with the length for an authority over 255 octets. |
| IrisLwz.UseRFC1950 | src/lib/irislwz.c:588-609 | Keeps the lowest bit of the flag. |
| IrisLwz.SetMaximumResponseLength | src/lib/irislwz.c:611-634 | Stores the length. |
| IrisLwz.SetHost | src/lib/irislwz.c:636-665 | 74025 for NULL, with server and port unchanged. Otherwise the server is stored and port 0 selects 715. |
| IrisLwz.GetHostname | src/lib/irislwz.c:668-687 | The server, or NULL with 74026 when none is set. |
| IrisLwz.GetPort | src/lib/irislwz.c:689-708 | The port, or 0 with 74026 when no server or no port is set. |
| IrisLwz.AcceptDeflated | src/lib/irislwz.c:710-725 | Stores (char) flag: nonzero iff flag mod 256 is nonzero. |
| IrisLwz.SendDeflated | src/lib/irislwz.c:727-742 | Stores (char) flag. |
| IrisLwz.IgnoreInvalidXml | src/lib/irislwz.c:744-761 | Stores (char) flag. |
| IrisLwz.FlagSizeInfo | src/lib/irislwz.c:764-778 | Stores (char) flag. |
| IrisLwz.FlagOtherInfo | src/lib/irislwz.c:780-794 | Stores (char) flag. |
| IrisLwz.TestSetVersion | src/lib/irislwz.c:796-812 | Activates the version override (bit 1) with the version kept to two bits. |
| IrisLwz.TestSetTransactionId | src/lib/irislwz.c:814-830 | Activates the id override (bit 4) with the id kept to 16 bits. |
| IrisLwz.TestSetHeader | src/lib/irislwz.c:832-848 | Activates the flag-octet override (bit 2) with the value kept to 8 bits. |
| IrisLwz.TestTruncatePacket | src/lib/irislwz.c:850-867 | Activates truncation (bit 16) to the given size. |
| IrisLwz.TestSetAuthorityLength | src/lib/irislwz.c:869-886 | Activates the authority-length override (bit 8). |
| IrisLwz.TestCorruptCompression | src/lib/irislwz.c:888-905 | Sets or clears bit 32 of the test flags and no other. |
| IrisLwz.TestCleanup | src/lib/irislwz.c:907-920 | No override stays active. |
| IrisLwz.HeaderRoundTrip | include/dchk.h:46-54 | Decoding the 6-octet wire form gives back flags, id, maximum length (both mod 2^16) and authority length. |
| IrisLwz.RequestFlagsMeaning | src/lib/irislwz.c:1077-1087 | Version 0, not a response, deflate advertised and used exactly as set. Payload type 3 with other information, else 2 with size information, else 0. |
| IrisLwz.PrepareQuery | src/lib/irislwz.c:1075-1088 | Writes the header for an id in [1,65534] and the authority at offset 6. The rest of the packet is unchanged. |
| IrisLwz.PreparedRequestDecodes | src/lib/irislwz.c:1077-1083 | The prepared packet reads back as RequestFlags, the id, the maximum length big-endian, strlen(authority), and the authority octets at offset 6. |
| IrisLwz.OverriddenFlags | src/lib/irislwz.c:1123-1129 | A header override wins. Otherwise a version override replaces only bits 7-6. Otherwise the octet is unchanged. |
| IrisLwz.OverriddenTransactionId | src/lib/irislwz.c:1130 | The id override replaces the id; without it the id octets stay. |
| IrisLwz.OverriddenRest | src/lib/irislwz.c:1122 | The authority-length override replaces octet 5. Octets 3-4 and everything after the header stay. |
| IrisLwz.OverriddenSize | src/lib/irislwz.c:1131 | Truncation only shrinks the packet, and only to the requested size. |
| IrisLwz.NoOverrides | src/lib/irislwz.c:1122-1131 | With no override active the request goes out as prepared. |
| IrisLwz.ApplyTestOverrides | src/lib/irislwz.c:1122-1131 | The in-place step leaves the request packet and size as Overridden says. |
| IrisLwz.InflateRetryMeaning | src/lib/irislwz.c:1193-1226 | The buffer starts at (bytes-3)*10+1024 and doubles only after Z_BUF_ERROR, at most 5 times. Every smaller capacity failed with Z_BUF_ERROR. The status is inflate's at the final capacity. Z_BUF_ERROR remains only when the retries are used up. |
| IrisLwz.InflatePayload | src/lib/irislwz.c:1196-1226 | The while(1) loop computes InflateRetry from attempt 0. |
| IrisLwz.ReceivedPayloadMeaning | src/lib/irislwz.c:1166-1231 | Checked in order: under 3 octets gives 74036; a foreign id other than 0xFFFF gives 74103; a deflated payload that does not inflate gives 74037. An undeflated payload is the datagram after its 3-octet header. |
| IrisLwz.Receive | src/lib/irislwz.c:1166-1248 | Stores the datagram as response and checks it. Inflates if deflated, else aliases the payload. Validates it (74046 when not well formed). Returns 1 exactly when all succeed. |
| IrisLwz.Uncompress | src/lib/irislwz.c:1189-1231 | A deflated payload inflates into the response (74037 on failure); an undeflated one aliases the raw payload with its size. |
| IrisLwz.RecvErrorCode | src/lib/irislwz.c:1160-1162 | A failed recv reports its socket error, with 1006 turned into 1031. |
| IrisLwz.Talk | src/lib/irislwz.c:1105-1249 | 74032 without a connection. Otherwise the overrides, then the send (socket error with "server:port"). A receive that returns -1 or 0 octets gives its socket error with "server:port, Bytes: " and that count. Otherwise the checks of Receive; the result is 1 exactly when the answer is accepted. |
| IrisLwz.Disconnect | src/lib/irislwz.c:1015-1039 | 74032 without a connection, otherwise the connection is closed. |
| IrisLwz.VersionRequestType | src/lib/irislwz.c:1290 | A version request has payload type 1 unless size or other information is asked for, which makes it type 3. |
| IrisLwz.QueryVersion | src/lib/irislwz.c:1275-1293 | Frees both packets and sends header and authority with payload bit 1 set. Without a connection it fails with 74032. With one, ok and the error are Talk's outcome (`Talked`): the send error, the receive error with host, port and byte count, 74046, or 1 iff the answer parses. |
| IrisLwz.GetCompressedSizeBound | src/lib/irislwz.c:1310-1324 | 0 for a NULL buffer, size 0 or a failed compression. A positive size is zlib's output length, at most size + 64. |
| IrisLwz.BuildQuery | src/lib/irislwz.c:1395-1440 | Sizes the payload (74039 when it does not compress). Lays out header, authority and body in a buffer of size + 16 octets. |
| IrisLwz.StageQuery | src/lib/irislwz.c:1376-1394 | Frees both packets and keeps a terminated copy of the payload. Validates it unless told not to: 74045, fatal unless invalid XML is ignored. |
| IrisLwz.Query2 | src/lib/irislwz.c:1365-1442 | 74025 for NULL or fewer than 1 octet. Otherwise StageQuery, then BuildQuery, then Talk. For a payload that validates and encodes (`Sendable`), an unconnected handle fails with 74032 and a connected one ends with Talk's outcome (`Talked`). |
| IrisLwz.Query | src/lib/irislwz.c:1338-1345 | 74025 for NULL, otherwise Query2 on the whole C string. The staged request is the string with its terminator. For a `Sendable` string the result is 74032 without a connection, or Talk's outcome (`Talked`). |
| IrisLwz.CheckResponse | src/lib/irislwz.c:1463-1477 | 1 for payload types 0 and 1. Type 2 gives 0, with 74040 when the size information names nonzero octets. Type 3 gives 0 with the server's error, or 74047 when it cannot be read. |
| XmlParser.Validate | trunk/src/lib/xmlparser.c:148-155 | Fails with 74044 exactly when the text is not a well-formed document. |
| XmlParser.ScanDomainChildren | trunk/src/lib/xmlparser.c:471-484 | The loop keeps, for each of status, domainName, idn and lastDatabaseUpdateDateTime, the children of the last such element child. |
| XmlParser.LastElementNameOf | trunk/src/lib/xmlparser.c:506-510 | The status loop finds the name of the last element node. |
| XmlParser.LastTextOf | trunk/src/lib/xmlparser.c:494-504 | The loops find the content of the last text node. |
| XmlParser.IdnReplacesDomainName | trunk/src/lib/xmlparser.c:489 | An idn child takes the place of domainName; without one domainName is read. The C code computes this name and never stores it, so it does not reach any record. |
| XmlParser.ParseDomain | trunk/src/lib/xmlparser.c:466-513 | 74017 unless status and domainName have children. Otherwise the last status element's name and the last update text are stored when found, and nothing else changes. |
| XmlParser.ParseResultSet | trunk/src/lib/xmlparser.c:226-253 | One pass gives the record ResultFor: nameNotFound gives "free" (before invalidName's "invalid"), else the domain answer, else nothing. |
| XmlParser.ParseResult | trunk/src/lib/xmlparser.c:186-259 | 74014 when the response does not parse. Otherwise record k gets the answer of resultSet k+1, and the call succeeds even where an answer was rejected (74017 left on the handle). |
| XmlParser.AnyUpToMeaning | trunk/src/lib/xmlparser.c:226-253 | The rejected-answer test is exactly "some resultSet in 1..n". |
| XmlParser.FirstReachable | trunk/src/lib/xmlparser.c:302-320 | The nested loops find the first text reachable along size/response/octets. |
| XmlParser.ParseSize | trunk/src/lib/xmlparser.c:285-323 | 0 with 74014 when the payload does not parse, 0 with 74041 when it has no octets text, otherwise atoi of that text. |
| XmlParser.OtherErrorCodeInverse | trunk/src/lib/xmlparser.c:433-437 | Each of the five RFC 4993 type names maps to its own code, ignoring case. Every type that maps to one of those codes equals that name up to case. |
| XmlParser.ParseOther | trunk/src/lib/xmlparser.c:392-444 | 74014 when the payload does not parse. The five types give 74048..74052; the detail is the description used as a printf format. Any other type, and a missing one, gives 74053 and 0. |
| Dchk.AddDomain | trunk/src/lib/dchk.c:188-208 | Fails for NULL and for names over 512 characters, with the list unchanged. Otherwise appends an unchecked record at the end. |
| Dchk.AddnDomain | trunk/src/lib/dchk.c:236-242 | Like AddDomain, but the record holds the first n characters (all when shorter, and all for negative n). The limit is checked on the whole input. |
| Dchk.ExplodeDomain | trunk/src/lib/dchk.c:271-292 | 0 for NULL or empty arguments. Otherwise adds Explode's domains in order until one is refused; 1 when all were added. |
| Dchk.ExplodedTokens | trunk/src/lib/dchk.c:278-290 | Every domain added is non-empty, holds no delimiter and has at most 512 characters. |
| Dchk.ExplodeJoin | trunk/src/lib/dchk.c:271-292 | Splitting at a one-character delimiter gives back non-empty, delimiter-free names joined with it, when the joined text has at most 512 characters. |
| Dchk.LongRestRefused | trunk/src/lib/dchk.c:283 | The limit applies to the rest of the string: "a," plus 512 characters is refused at "a". |
| Dchk.EscapeMarkupFree | trunk/src/lib/dchk.c:356-397 | No character of the escaped form is '<', '>', '"' or '\''. |
| Dchk.UnescapeEscape | trunk/src/lib/dchk.c:356-397 | Unescaping the escaped form gives the name back (the apostrophe is written as the 7 characters "&#039t;"). |
| Dchk.EscapeSpecialChars | trunk/src/lib/dchk.c:356-397 | Fails for NULL, buffer size 0, or a non-empty string whose escaped form leaves no room for the terminator. On success the buffer holds the escaped form and its terminator. |
| Dchk.EntityClassOf | trunk/src/lib/dchk.c:503-510 | The scan gives "idn" iff some character has its high octet bit set, else "domain-name". |
| Dchk.SearchSetLength | trunk/src/lib/dchk.c:520-523 | A searchSet is 106 characters besides the entity class and the escaped name. |
| Dchk.BatchesOk | trunk/src/lib/dchk.c:491-576 | Every request is well formed: non-empty, within the cap (negative as none), under 5000 characters, and closed only because the next domain did not fit. The requests are consecutive runs of the list from its first domain. They cover the whole list exactly when bundling does not stop. Bundling stops only with 74106, or with 74039 when sending compressed. |
| Dchk.PlanStops | trunk/src/lib/dchk.c:512-540 | Bundling stops only with 74106 (escaped name over 1000 characters) or 74039 (compression failed). |
| Dchk.BatchesComplete | trunk/src/lib/dchk.c:512-516 | Sent uncompressed, with every escaped name shorter than the escape buffer, bundling never stops. |
| Dchk.StepOk | trunk/src/lib/dchk.c:525-565 | One domain: the round stops with 74106 when its escaped name does not fit the escape buffer, or with 74039 (only when sending compressed). Otherwise the pending request stays well formed, and a request it sends runs from the pending start up to this domain and is well formed. |
| Dchk.MeasuredLengthBound | trunk/src/lib/dchk.c:533-541 | With a compressor that never writes past the room it is given (the compress bound of the text), the measured size never exceeds the text plus 64. |
| Dchk.AppliedKeepsNames | trunk/src/lib/dchk.c:323-326 | Answers change the status and update time of records, never their names or order. |
| Dchk.DoQuery | trunk/src/lib/dchk.c:313-326 | The payload becomes the staged request; an empty one fails with 74025. For a `Sendable` payload a failed exchange ends with 74032 or Talk's outcome. An answer of type 2 or 3 fails with CheckResponse's error (`RefusalError`). An answer of type 0 or 1 succeeds iff it parses; then every record of the batch gets its resultSet's answer, otherwise the error is 74014. |
| Dchk.QueryDomainList | trunk/src/lib/dchk.c:466-578 | 74025 for NULL, 74038 for an empty list. Otherwise the requests of Batches go out in order until one fails or bundling stops. Each answered request updates its records, and success means the whole plan was sent without an error. |
| Dchk.DeliveredAsWrittenLosesStatus | trunk/src/lib/dchk.c:434-435 | As written, asking for both outputs overwrites *status with the update time and leaves *dbupdate unset. |
| Dchk.DeliveredMeaning | trunk/src/lib/dchk.c:401-417 | Corrected delivery: status to *status and update time to *dbupdate, each only when asked for. |
| Dchk.QueryDomain | trunk/src/lib/dchk.c:418-443 | 74025 with an empty detail for NULL. Otherwise a one-record list with no cap is sent; on success the outputs get the answer as the code writes it (DeliveredAsWritten: the update time lands in *status, *dbupdate is never set), on failure they are unchanged. On success the requests sent are exactly the bundling plan for the one name (`Batches`). On a failure where no request failed, the plan aborted and its code is the error. |
| Cli.FirstPrefixedIsFirst | trunk/src/cli/main.c:147-148 | The match found is the least index from i whose argument begins with the option; None iff there is none. |
| Cli.LookupNone | trunk/src/cli/main.c:145-164 | getargv gives NULL exactly when argc is at most 1 or no argument after the program name begins with the option. |
| Cli.GetArgv | trunk/src/cli/main.c:140-165 | The search loop returns Lookup(argv, option), the value of the first match. |
| Cli.ValueAt | trunk/src/cli/main.c:149-159 | A longer or last argument gives the text after the option. Otherwise the next argument: "" when it starts with '-', without its backslash when it starts with "\-", itself otherwise. |
| Cli.LookupAttached | trunk/src/cli/main.c:150-154 | "-tde" with no earlier match yields "de". |
| Cli.LookupSeparate | trunk/src/cli/main.c:156-159 | "-t" followed by a value starting with neither "-" nor "\-" yields that value. |
| Cli.LookupEscaped | trunk/src/cli/main.c:158 | "-t" followed by "\-x" yields "-x". |
| Cli.LookupBeforeOption | trunk/src/cli/main.c:157 | An option followed by another option has the value "". |
| Cli.MyAtoiReadsBack | trunk/src/cli/main.c:167-171 | A missing option gives 0. The decimal text of any k, followed by anything but a digit, reads back as k. |
| Cli.StrNCaseCmp | trunk/src/cli/main.c:173-192 | The loop computes CaseCmp(s1, s2, n); n = 0 gives 0. |
| Cli.CaseCmpZero | trunk/src/cli/main.c:178-190 | 0 exactly when the first n characters, up to and including the end of s1, agree ignoring ASCII case. |
| Cli.CaseCmpAntisymmetric | trunk/src/cli/main.c:178-190 | Swapping the strings negates the result. |
| Cli.FirstDomain | trunk/src/cli/main.c:323-344 | The loop gives FirstDomainFrom(argv, 1): 0 or the index of an argument not starting with '-'. |
| Cli.FirstDomainSkipsShortValue | trunk/src/cli/main.c:326-332 | The argument after a bare -a, -i, -t, -h, -f or -p (any case) is passed over. |
| Cli.FirstDomainSkipsPacketValue | trunk/src/cli/main.c:333-335 | The argument after a bare --ps or --md (any case) is passed over. |
| Cli.FirstDomainSkipsTimeoutValue | trunk/src/cli/main.c:336-337 | The argument after a bare --timeout (any case) is passed over. |
| Cli.FirstDomainNone | trunk/src/cli/main.c:345-348 | When every argument starts with '-' there is no first domain. |
| Cli.VerboseFlagMeaning | trunk/src/cli/main.c:288-294 | With -v or -V the request and the response are shown (bits 1 and 8), beautified instead with --ex (bits 2 and 16). -V adds both headers (bits 4 and 32), and bit 64 is never set. Without -v and -V the flags are unchanged. |
| Cli.PacketSize | trunk/src/cli/main.c:297-299 | Never 0: --ps when it reads as a nonzero number, otherwise 1500. |
| Cli.ApplyOptions | trunk/src/cli/main.c:279-311 | Timeout (5 s by default), verbose flag, maximum response length, RFC 1950 workaround and both compression flags go to the handle. Port defaults to "715". |
| Cli.ZoneFor | trunk/src/cli/main.c:373-380 | The -t value. Else, with domains on the command line, the text after the last '.' of the first domain. Else "de". |
| QDchk.Error2String | trunk/src/gui/qdchk.cpp:31-40 | The target is ErrorMessage of the object's code, table text and detail. |
| QDchk.ErrorMessageCode | trunk/src/gui/qdchk.cpp:33 | The message starts with "ERROR: " and atoi of the rest is the code. |
| QDchk.ErrorMessageDetail | trunk/src/gui/qdchk.cpp:34-39 | The message ends with " [detail]" when there is a detail, otherwise with the error text. |
| QDchk.HexDump | trunk/src/gui/qdchk.cpp:42-79 | The target is the library dump's lines, each followed by "\n". |
| QDchk.HexDumpNewlines | trunk/src/gui/qdchk.cpp:44-77 | The target has (bytes+15)/16 newlines, one per line, and is empty exactly for 0 octets. |
| CppList.CError.constructor | src/lib/CDchk.cpp:109-117 | Code 0, no text. |
| CppList.CError.SetError | src/lib/CDchk.cpp:142-145 | The code is stored and the old text discarded; a NULL format leaves no text. |
| CppList.CError.GetErrorText | src/lib/CDchk.cpp:188-191 | The table text of the code, "unknown" when it has none. |
| CppList.CError.CopyError | src/lib/CDchk.cpp:215-222 | Resets to 0 and no text, then takes the handle's code and text when its error is nonzero. |
| CppList.MirroredTexts | src/lib/CDchk.cpp:180-204 | After CopyError the object reports the same error text as the C library for the handle, and the same detail when the handle had an error. |
| CppList.CDomainList.constructor | src/lib/CDchk.cpp:236-244 | An empty list, NULL cursor, no error. |
| CppList.CDomainList.Clear | src/lib/CDchk.cpp:261-270 | The unlink loop leaves the list empty with a NULL cursor. |
| CppList.CDomainList.Count | src/lib/CDchk.cpp:273-282 | The number of records. |
| CppList.CDomainList.AddDomain | src/lib/CDchk.cpp:299-327 | 74025 for NULL and 74054 with "512" for names over 512 characters, list unchanged. Otherwise the copied name (first n characters when n > 0) goes at the end, and the first record of an empty list gets the cursor. |
| CppList.CDomainList.Explode | src/lib/CDchk.cpp:343-382 | 74025 for NULL, 74055 for an empty string, 74056 for an empty delimiter. Otherwise the domains as dchk_ExplodeDomain splits them are added in order and counted; 0 with 74054 when one is refused, 74055 when there were none. |
| CppList.CDomainList.GetFirst | src/lib/CDchk.cpp:394-399 | 74042 and NULL on an empty list. Otherwise the first record, with the cursor on the second. |
| CppList.CDomainList.Reset | src/lib/CDchk.cpp:410 | The cursor goes to the first record. |
| CppList.CDomainList.GetNext | src/lib/CDchk.cpp:422-428 | The record under the cursor, which advances. A NULL cursor gives 74043 with the count as detail. |
| CppIris.CIrisLwz.constructor | src/lib/CIrisLWZ.cpp:102-110 | An initialised handle as irislwz_Init leaves it, and no error on the object. |
| CppIris.CIrisLwz.SetAuthority | src/lib/CIrisLWZ.cpp:145-159 | irislwz_SetAuthority's result. Its error reaches the object only on failure. |
| CppIris.CIrisLwz.SetAuthorityByDomain | src/lib/CIrisLWZ.cpp:161-180 | irislwz_SetAuthorityByDomain's result, the error copied on failure: 74058 without '.', the name used as the detail's format; 74027 with the length for an authority over 255 octets. |
| CppIris.CIrisLwz.SetAuthorityByDomainList | src/lib/CIrisLWZ.cpp:182-204 | The authority of the list's first domain. An empty list gives 74042 on the object and on the list. Otherwise the object gets 74058 with the name as the detail's format, or 74027 with the length of an over-long authority. |
| CppIris.CIrisLwz.SetHost | src/lib/CIrisLWZ.cpp:229-244 | irislwz_SetHost's result, the error copied on failure. |
| CppIris.CIrisLwz.GetHostname | src/lib/CIrisLWZ.cpp:246-259 | The server; NULL with 74026 copied when none is set. |
| CppIris.CIrisLwz.GetPort | src/lib/CIrisLWZ.cpp:261-274 | The port; 0 with 74026 copied when none is set. |
| CppIris.CIrisLwz.AcceptDeflated | src/lib/CIrisLWZ.cpp:292-304 | Stores the flag; the object's error is unchanged. |
| CppIris.CIrisLwz.SendDeflated | src/lib/CIrisLWZ.cpp:306-318 | Stores the flag; the object's error is unchanged. |
| CppIris.CIrisLwz.Query | src/lib/CIrisLWZ.cpp:665-678 | irislwz_Query's result. A failed query leaves the handle's error on the object. For a `Sendable` string that error is 74032 without a connection; with one, the handle ends with Talk's outcome (`Talked`). |
| CppIris.CIrisLwz.CheckResponse | src/lib/CIrisLWZ.cpp:703-725 | irislwz_CheckResponse's result; on 0 the handle's error is copied. |
| CppIris.CIrisLwz.GetPayloadType | src/lib/CIrisLWZ.cpp:880-899 | NULL without a header, else "XML", "Version Info", "Size Info" or "Other Info" for header&3 = 0..3. |
| CppIris.CIrisLwz.PayloadTestsExclusive | src/lib/CIrisLWZ.cpp:765-878 | Without a header every test is false. With one, exactly one PayloadIs test holds, the one GetPayloadType names. IsResponse, IsDeflated and IsDeflateSupported test bits 32, 16 and 8. |
| CppIris.CIrisLwz.PreparedRequestTests | src/lib/CIrisLWZ.cpp:765-878 | On a prepared request the tests read back the handle's options: not a response, deflate as set, other over size over XML. |
| CppIris.PayloadTypeNamesDiffer | src/lib/CIrisLWZ.cpp:892-897 | The four type names differ. |
| CppDchk.CDchk.constructor | src/lib/CDchk.cpp:446-455 | At most 20 domains per request, sending uncompressed, accepting compressed answers. |
| CppDchk.CDchk.SetMaxDomainsPerQuery | src/lib/CDchk.cpp:465-476 | Stores the cap. |
| CppDchk.CDchk.SetHostByDns | src/lib/CDchk.cpp:478-499 | dchk_SetHostByDNS on the handle: 1 iff DNS names a server host. On 0 the server is unchanged and the object holds the failing step's error (`NaptrFailure` or `ServerFailure`). |
| CppDchk.CDchk.QueryDomainList | src/lib/CDchk.cpp:501-520 | dchk_QueryDomainList with the object's cap. Records keep names and order. On failure the error is copied. |
| CppDchk.CDchk.QueryDomain | src/lib/CDchk.cpp:522-541 | dchk_QueryDomain's result and its as-written delivery. On success the requests sent are the one-name bundling plan (`Batches`). On failure the outputs are unchanged and the error is copied; when no request failed it is the plan's abort code. |
| Resolver.SpelledIsDotted | trunk/src/lib/resolver.c:159-164 | The building loop spells the label texts joined by single dots, with no trailing dot; no labels spell "". |
| Resolver.ReplacementFits | trunk/src/lib/resolver.c:144-151 | The counted allocation holds the name and its terminator, and is exactly that size when no label holds a zero octet. |
| Resolver.ParseNaptrRecord | trunk/src/lib/resolver.c:130-166 | Skips order, preference and flags. A service other than the 14 octets "DCHK1:iris.lwz" gives None with 74057. Otherwise the replacement after the regexp, joined with dots. |
| Resolver.FirstNaptrIsFirst | trunk/src/lib/resolver.c:241-254 | The replacement found is that of the DCHK NAPTR record of least index. |
| Resolver.SelectNaptr | trunk/src/lib/resolver.c:241-254 | The loop gives FirstNaptr over the answers parserr reads. |
| Resolver.GetNaptr | trunk/src/lib/resolver.c:209-257 | The res_query error (74002, 74004, 74001), 74003 for an unparsable answer, 74004 for no answers, the first DCHK replacement, or 74005. |
| Resolver.DecodeSrv | trunk/src/lib/resolver.c:354-381 | Priority and weight skipped, the port big-endian, then the target. |
| Resolver.SrvTarget | trunk/src/lib/resolver.c:365-381 | With the corrected growth test: NULL for no labels, otherwise the labels joined by dots; every write stays inside the allocation. |
| Resolver.SrvHostFits | trunk/src/lib/resolver.c:366-379 | The test hostbuffer < label+2 keeps the room for '.', label and terminator, whatever the labels. |
| Resolver.SrvHostOverflowsAsWritten | trunk/src/lib/resolver.c:366-379 | As written, labels "a" plus four of 63 octets write the terminator one octet past the 257-octet buffer. |
| Resolver.FirstServerIsFirst | trunk/src/lib/resolver.c:349-389 | The server found is that of the SRV record of least index; None iff there is none. |
| Resolver.SelectSrv | trunk/src/lib/resolver.c:349-389 | The loop gives FirstServer over the answers. |
| Resolver.LookupServer | trunk/src/lib/resolver.c:308-392 | 74000 when res_init fails, the SRV query error (74006, 74007), 74003, 74008 for no answers or no SRV record, else SetHost with the first SRV server. |
| Resolver.SetHostByDns | trunk/src/lib/resolver.c:284-394 | 74021 for NULL. Otherwise 1 iff DNS names a server with a host, and then server and port are that host and its port or the default. On 0 the server is unchanged. The error is the NAPTR step's (`NaptrFailure`: the query error, 74003, 74004 or 74005) or the SRV step's (`ServerFailure`: 74000, the query error, 74003, 74008 or 74025). |
| NsParse.FlagFields | src/lib/ns_parse.c:113-138 | GetFlag is (flags & mask) >> shift from the table; the ten fields put back at their shifts rebuild the word. |
| NsParse.SkipRr | src/lib/ns_parse.c:141-166 | Steps over count records (name, type, class, and outside the question section TTL, RDLENGTH and data), checking 6 octets remain. Gives the octets consumed, or -1 past the end. |
| NsParse.SkipEndSplit | src/lib/ns_parse.c:147-161 | Skipping m + n records is skipping m, then n more from there. |
| NsParse.SectionsTile | src/lib/ns_parse.c:204-217 | In an accepted message sections follow each other from the header to the end. A section start is NULL exactly when its count is 0. |
| NsParse.NsMsg.InitParse | src/lib/ns_parse.c:183-221 | EMSGSIZE for a message shorter than the 12-octet header. Succeeds exactly when the records consume the message, leaving the cursor past the last section. |
| NsParse.NsMsg.SetSection | src/lib/ns_parse.c:170-179 | The cursor at the first record of a section, or rrnum -1 and NULL past the last one. |
| NsParse.NsMsg.Count | trunk/include/ns_parse.h:34 | The count of the section. |
| NsParse.NsMsg.ParseRr | src/lib/ns_parse.c:223-284 | ENODEV for a section or rrnum out of range, -1 meaning the current record. Rewinds when asked for an earlier record, skips forward, and reads the record as ParseRecord says. |
| NsParse.ParseIndependentOfCursor | src/lib/ns_parse.c:231-252 | From any positioned cursor, asking for record k of a section gives the same result, errno and record, and, on success, the same new cursor. |
| NsParse.ParseKeepsPositioned | src/lib/ns_parse.c:254-279 | Every parserr call keeps a positioned cursor positioned, so reading record -1 repeatedly walks the section in order. |
| NsParse.AcceptedWalkable | src/lib/ns_parse.c:204-217 | initparse leaves every non-empty section skippable from its start. |

## Left out

- Sockets: `irislwz_Connect`, and the `send` and `recv` calls of `irislwz_Talk`, are one `Exchange` oracle with its outcome. The received datagram is an input.
- zlib: deflate, inflate, `compress2` and `uncompress` are oracles with an OK, Z_BUF_ERROR or other status. `rfc1951_deflate` and `rfc1951_inflate` are not part of this model.
- libxml2: parsing, XPath and beautified output are oracles over the `XmlTree` tree.
  - The XPath context and namespace registration errors (74015, 74018) are not modelled.
  - XPath `//iris1:response/iris1:resultSet[i]` is modelled as the i-th resultSet child of every response element.
- XmlParser.ParseResult: namespace URIs are not modelled. The C code binds `iris1` and `dchk1` to their URNs and matches by namespace; the tree keeps local names only, so a `response` or `resultSet` in another namespace is read by the model and ignored by the C code.
- DNS library calls: `res_init`, `res_query`, `dn_skipname`, `dn_expand` and `hstrerror` are oracles. `NsParse.NamesAgree` relates the two name calls.
  - The truncation of answers to PACKETSZ octets is not modelled.
  - `Resolver.ReplyReadable` and `Resolver.DnsReadable` are preconditions. They stand for the reads the code does not check against the message end.
- Randomness: `irislwz_rand` gives the transaction id as a parameter in [1,65534]. The corrupt-compression loop of `irislwz_Query2` is not modelled; it draws random positions.
- Memory: malloc failure (74024, and 10024 in `irislwz_QueryVersion`) is not modelled.
- `IrisLwz.BuildQuery`: the 16 octets after the body are uninitialised memory in the C code; the model fills them with zeros.
- Output: these are not modelled:
  - debug and verbose output (`VerboseOut`, `ExplainHeader`, `irislwz_Debug`, the handlers);
  - `PrintResults` and `PrintError`;
  - the formatting of error details beyond the texts stated in contracts.
- Errors.FormatDetail: a text used as a format with a conversion other than "%%" ("%s", "%n", ...) makes vasprintf read arguments that were never passed, which is undefined; the model keeps such a conversion as written.
- Version strings, `irislwz_Exit`, the debug-level setters and `irislwz_SetDebugHandler` have no logic beyond storing values.
- Windows-only branches (Winsock, windns) are not modelled.
- IrisLwz.InflatePayload: inflate is assumed (`EnvOk`) to leave room for the terminator written after its output; the buffer the retry loop leaks is not modelled.
- XmlParser.ParseOther: in three cases the C code calls `strcasecmp` on a NULL type, which is undefined (a crash on common C libraries): a payload with no top-level other element, an other element without a type attribute, and a type attribute with no text child. The model reports 74053 for all three, as for an unknown type.
- `IrisLwz.SetAuthorityByDomain` takes a string, since a NULL name is undefined.
- Dchk.SearchSet: the C code writes the searchSet at payload+5000 while its escaped-name argument sits at payload+6000. A searchSet of 1000 characters or more overwrites that argument. That is an escaped name of at least 883 characters with the class domain-name, or 891 with idn. Overlapping sprintf buffers are undefined; the model builds the text as if the buffers were separate.
- Dchk.DeliveredAsWritten: with dbupdate but no status the C code writes through a NULL pointer; the model writes the status output instead. Dchk.QueryDomain and CppDchk.CDchk.QueryDomain deliver this way.
- `Resolver.GetNaptr`: a NAPTR record of another service leaves 74057 on the handle even when a later record succeeds. This is modelled, and the contracts do not hide it.
- `Cli.MyAtoi`: `atoi` is modelled without overflow.
  - Arguments are assumed free of NUL characters, so `strncmp(argv[i], option, strlen(option)) == 0` is a prefix test.
  - The C library `strncasecmp` path is not modelled; the fallback loop is.
- CLI control flow is not part of this model: `help`, `FindServer`, reading the input file, building the list, and the query and printing sequence of `Execute` and `main`.
- Qt dialog slots are not part of this model, and neither is the QString Latin-1 conversion.
- `QDchk.HexDump`, `Compat.HexDump`: limited to fewer than 2^31 octets, where the offset fits 8 hex digits.
- These CIrisLWZ wrappers have the shape of the modelled ones and are not modelled separately:
  - `SetTimeout`, `SetMaximumResponseLength`, `IgnoreInvalidXML`, `UseRFC1950`, `FlagSizeInfo`, `FlagOtherInfo`;
  - the Test setters;
  - `Connect`, `Disconnect`, `PrepareQuery`, `Talk`, `QueryVersion`, `Validate`, `FreePacket`, `GetCompressedSize`, `Query2`;
  - the packet and handle getters.
- The C++ `CDchk::PrintResults` is not modelled; it only prints.

## Findings

| source | as written | input that shows it | evidently intended | confidence | as-written member | corrected member |
|---|---|---|---|---|---|---|
| trunk/src/lib/dchk.c:435 | `if (dbupdate) *status=r.lastdatabaseupdate;` writes the update time into the status output (Dchk.QueryDomain delivers this way) | any answered query with both outputs: *status ends up holding the update time and *dbupdate is never set | `*dbupdate=r.lastdatabaseupdate` | high, not executed | Dchk.DeliveredAsWrittenLosesStatus | Dchk.DeliveredMeaning |
| trunk/src/lib/resolver.c:366 | the host buffer grows when `hostbuffer < cp[0]+1`, which leaves no room for the '.' before the label | an SRV target of labels "a" and four labels of 63 octets: the last label is appended with room 64, and the terminator lands one octet past the 257-octet buffer | grow when `hostbuffer < cp[0]+2` | high, not executed | Resolver.SrvHostOverflowsAsWritten | Resolver.SrvHostFits |
| src/lib/irislwz.c:548 | `irislwz_SetError(handle,74058,domain)` passes the name as the format of the detail (IrisLwz.SetAuthorityByDomain stores FormatDetail of the name) | the name "a%%b" is stored as "a%b"; a name with "%s" or "%n" is undefined behaviour | `irislwz_SetError(handle,74058,"%s",domain)` | high, not executed | Errors.FormatDetailCollapses | Errors.FormatLiteralRoundTrip |
| trunk/src/lib/xmlparser.c:433-437 | `irislwz_SetError(handle,7404x,desc)` passes the server's description as the format of the detail (XmlParser.ParseOther stores FormatDetail of it) | a description "100%% full" is stored as "100% full"; a description with "%n", sent by any server, is undefined behaviour | `irislwz_SetError(handle,7404x,"%s",desc)` | high, not executed | Errors.FormatDetailCollapses | Errors.FormatLiteralRoundTrip |
