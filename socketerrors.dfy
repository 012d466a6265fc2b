/**
 * Socket error codes 1000..1074 (src/lib/socketerrors.c): their texts, and
 * the translation of the POSIX errno values and getaddrinfo results into them.
 * errno and the EAI_* results are abstract enumerations, one constructor per
 * name the switch statements mention (the Unix branch), plus one for every
 * other value.
 */
module SocketErrors {
  import opened Wrappers

  /** socketerrors[k] is the text of code 1000 + k. */
  const SocketErrorTexts: seq<string> := [    "Socket: Unknown socket error",
    "Socket: The file handle supplied is not valid (EBADF)",
    "Socket: Permission denied (EACCES, EPERM)",
    "Socket: Bad address (EFAULT)",
    "Socket: Invalid argument (EINVAL)",
    "Socket: Too many open sockets (EMFILE)",
    "Socket: Resource temporarily unavailable (EWOULDBLOCK)",
    "Socket: Operation now in progress (EINPROGRESS)",
    "Socket: Operation already in progress (EALREADY)",
    "Socket: Socket operation on nonsocket (ENOTSOCK)",
    "Socket: Destination address required (EDESTADDRREQ)",
    "Socket: Message too long (EMSGSIZE)",
    "Socket: Protocol wrong type for socket (EPROTOTYPE)",
    "Socket: Bad protocol option (ENOPROTOOPT)",
    "Socket: Protocol not supported (EPROTONOSUPPORT)",
    "Socket: Socket type not supported (ESOCKTNOSUPPORT)",
    "Socket: Operation not supported (EOPNOTSUPP)",
    "Socket: Protocol family not supported (EPFNOSUPPORT)",
    "Socket: Address family not supported by protocol family (EAFNOSUPPORT)",
    "Socket: Address already in use (EADDRINUSE)",
    "Socket: Cannot assign requested address (EADDRNOTAVAIL)",
    "Socket: Network is down (ENETDOWN)",
    "Socket: Network is unreachable (ENETUNREACH)",
    "Socket: Network dropped connection on reset (ENETRESET)",
    "Socket: Software caused connection abort (ECONNABORTED)",
    "Socket: Connection reset by peer (ECONNRESET)",
    "Socket: No buffer space available (ENOBUFS)",
    "Socket: Socket is already connected (EISCONN)",
    "Socket: Socket is not connected (ENOTCONN)",
    "Socket: Cannot send after socket shutdown (ESHUTDOWN)",
    "Socket: Too many references (ETOOMANYREFS)",
    "Socket: Connection timed out (ETIMEDOUT)",
    "Socket: Connection refused (ECONNREFUSED)",
    "Socket: Cannot translate name (ELOOP)",
    "Socket: Name too long (ENAMETOOLONG)",
    "Socket: Host is down (EHOSTDOWN)",
    "Socket: No route to host (EHOSTUNREACH)",
    "Socket: Directory not empty (ENOTEMPTY)",
    "Socket: Too many processes (EPROCLIM)",
    "Socket: User quota exceeded (EUSERS)",
    "Socket: Disk quota exceeded (EDQUOT)",
    "Socket: The file handle reference is no longer available (ESTALE)",
    "Socket: Item is remote (EREMOTE)",
    "Socket: Network subsystem is unavailable (WSASYSNOTREADY)",
    "Socket: The Windows Sockets version requested is not supported. (WSAVERNOTSUPPORTED)",
    "Socket: Successful WSAStartup not yet performed (WSANOTINITIALISED)",
    "Socket: Graceful shutdown in progress (WSAEDISCON)",
    "Socket: No more results (WSAENOMORE)",
    "Socket: Call has been canceled (WSAECANCELLED)",
    "Socket: Procedure call table is invalid (WSAEINVALIDPROCTABLE)",
    "Socket: Service provider is invalid (WSAEINVALIDPROVIDER)",
    "Socket: Service provider failed to initialize (WSAEPROVIDERFAILEDINIT)",
    "Socket: System call failure (WSASYSCALLFAILURE)",
    "Socket: Service not found (WSASERVICE_NOT_FOUND)",
    "Socket: Class type not found (WSATYPE_NOT_FOUND)",
    "Socket: No more results (WSA_E_NO_MORE)",
    "Socket: Call was canceled (WSA_E_CANCELLED)",
    "Socket: Database query was refused (WSAEREFUSED)",
    "Socket: Host not found (WSAHOST_NOT_FOUND)",
    "Socket: Nonauthoritative host not found (WSATRY_AGAIN)",
    "Socket: This is a nonrecoverable error (WSANO_RECOVERY)",
    "Socket: Valid name, no data record of requested type (WSANO_DATA)",
    "Socket: A blocking operation was interrupted (EINTR)",
    "Socket: Resource temporarily unavailable (EAI_AGAIN)",
    "Socket: Invalid value for ai_flags (EAI_BADFLAGS)",
    "Socket: Invalid value for hints (EAI_BADHINTS)",
    "Socket: Non-recoverable failure in name resolution (EAI_FAIL)",
    "Socket: ai_family not supported (EAI_FAMILY)",
    "Socket: memory allocation failure (EAI_MEMORY)",
    "Socket: hostname not provided or not known (EAI_NONAME)",
    "Socket: argument buffer overflow (EAI_OVERFLOW)",
    "Socket: resolved protocol is unknown (EAI_PROTOCOL)",
    "Socket: servname not supported for ai_socktype (EAI_SERVICE)",
    "Socket: ai_socktype not supported (EAI_SOCKTYPE)",
    "Socket: Host exists, but does not have any network addresses defined (EAI_NODATA)"  ]

  /** irislwz_GetSocketError: the text of a socket error code, NULL outside the table. */
  function GetSocketError(code: int): (r: Option<string>)
    ensures r.Some? <==> 1000 <= code <= 1074
    ensures r.Some? ==> r.value == SocketErrorTexts[code - 1000]
  {
    if 1000 <= code <= 1000 + (|SocketErrorTexts| + 1 - 2) then Some(SocketErrorTexts[code - 1000]) else None
  }

  datatype Errno =
    | EBADF
    | EACCES
    | EPERM
    | EFAULT
    | EINVAL
    | EMFILE
    | ENFILE
    | EWOULDBLOCK
    | EINPROGRESS
    | EALREADY
    | ENOTSOCK
    | EDESTADDRREQ
    | EMSGSIZE
    | EPROTOTYPE
    | ENOPROTOOPT
    | EPROTONOSUPPORT
    | ESOCKTNOSUPPORT
    | EOPNOTSUPP
    | EPFNOSUPPORT
    | EAFNOSUPPORT
    | EADDRINUSE
    | EADDRNOTAVAIL
    | ENETDOWN
    | ENETUNREACH
    | ENETRESET
    | ECONNABORTED
    | ECONNRESET
    | ENOBUFS
    | EISCONN
    | ENOTCONN
    | ESHUTDOWN
    | ETOOMANYREFS
    | ETIMEDOUT
    | ECONNREFUSED
    | ELOOP
    | ENAMETOOLONG
    | EHOSTDOWN
    | EHOSTUNREACH
    | ENOTEMPTY
    | EPROCLIM
    | EUSERS
    | EDQUOT
    | ESTALE
    | EREMOTE
    | EINTR
    | OtherErrno(value: int)

  /** irislwz_TranslateSocketError: the socket error code for the current errno. */
  function TranslateSocketError(e: Errno): (code: int)
  {
    match e
    case EBADF => 1001
    case EACCES => 1002
    case EPERM => 1002
    case EFAULT => 1003
    case EINVAL => 1004
    case EMFILE => 1005
    case ENFILE => 1005
    case EWOULDBLOCK => 1006
    case EINPROGRESS => 1007
    case EALREADY => 1008
    case ENOTSOCK => 1009
    case EDESTADDRREQ => 1010
    case EMSGSIZE => 1011
    case EPROTOTYPE => 1012
    case ENOPROTOOPT => 1013
    case EPROTONOSUPPORT => 1014
    case ESOCKTNOSUPPORT => 1015
    case EOPNOTSUPP => 1016
    case EPFNOSUPPORT => 1017
    case EAFNOSUPPORT => 1018
    case EADDRINUSE => 1019
    case EADDRNOTAVAIL => 1020
    case ENETDOWN => 1021
    case ENETUNREACH => 1022
    case ENETRESET => 1023
    case ECONNABORTED => 1024
    case ECONNRESET => 1025
    case ENOBUFS => 1026
    case EISCONN => 1027
    case ENOTCONN => 1028
    case ESHUTDOWN => 1029
    case ETOOMANYREFS => 1030
    case ETIMEDOUT => 1031
    case ECONNREFUSED => 1032
    case ELOOP => 1033
    case ENAMETOOLONG => 1034
    case EHOSTDOWN => 1035
    case EHOSTUNREACH => 1036
    case ENOTEMPTY => 1037
    case EPROCLIM => 1038
    case EUSERS => 1039
    case EDQUOT => 1040
    case ESTALE => 1041
    case EREMOTE => 1042
    case EINTR => 1062
    case OtherErrno(_) => 1000
  }

  datatype GaiError =
    | EAI_AGAIN
    | EAI_ADDRFAMILY
    | EAI_BADFLAGS
    | EAI_BADHINTS
    | EAI_FAIL
    | EAI_FAMILY
    | EAI_MEMORY
    | EAI_NONAME
    | EAI_OVERFLOW
    | EAI_PROTOCOL
    | EAI_SERVICE
    | EAI_SOCKTYPE
    | EAI_SYSTEM
    | EAI_NODATA
    | OtherGaiError(value: int)

  /** irislwz_TranslateGaiError: the socket error code for a getaddrinfo result; EAI_SYSTEM consults errno. */
  function TranslateGaiError(g: GaiError, e: Errno): (code: int)
  {
    match g
    case EAI_AGAIN => 1063
    case EAI_ADDRFAMILY => 1067
    case EAI_BADFLAGS => 1064
    case EAI_BADHINTS => 1065
    case EAI_FAIL => 1066
    case EAI_FAMILY => 1067
    case EAI_MEMORY => 1068
    case EAI_NONAME => 1069
    case EAI_OVERFLOW => 1070
    case EAI_PROTOCOL => 1071
    case EAI_SERVICE => 1072
    case EAI_SOCKTYPE => 1073
    case EAI_SYSTEM => TranslateSocketError(e)
    case EAI_NODATA => 1074
    case OtherGaiError(_) => 1000
  }

  /**
   * The errno name a socket error code stands for: the partner of
   * TranslateSocketError, defined on the codes it produces. EACCES and EPERM
   * share 1002, EMFILE and ENFILE share 1005; the first of each pair is kept.
   */
  function ErrnoOfCode(code: int): (e: Errno)
  {
    match code
    case 1001 => EBADF
    case 1002 => EACCES
    case 1003 => EFAULT
    case 1004 => EINVAL
    case 1005 => EMFILE
    case 1006 => EWOULDBLOCK
    case 1007 => EINPROGRESS
    case 1008 => EALREADY
    case 1009 => ENOTSOCK
    case 1010 => EDESTADDRREQ
    case 1011 => EMSGSIZE
    case 1012 => EPROTOTYPE
    case 1013 => ENOPROTOOPT
    case 1014 => EPROTONOSUPPORT
    case 1015 => ESOCKTNOSUPPORT
    case 1016 => EOPNOTSUPP
    case 1017 => EPFNOSUPPORT
    case 1018 => EAFNOSUPPORT
    case 1019 => EADDRINUSE
    case 1020 => EADDRNOTAVAIL
    case 1021 => ENETDOWN
    case 1022 => ENETUNREACH
    case 1023 => ENETRESET
    case 1024 => ECONNABORTED
    case 1025 => ECONNRESET
    case 1026 => ENOBUFS
    case 1027 => EISCONN
    case 1028 => ENOTCONN
    case 1029 => ESHUTDOWN
    case 1030 => ETOOMANYREFS
    case 1031 => ETIMEDOUT
    case 1032 => ECONNREFUSED
    case 1033 => ELOOP
    case 1034 => ENAMETOOLONG
    case 1035 => EHOSTDOWN
    case 1036 => EHOSTUNREACH
    case 1037 => ENOTEMPTY
    case 1038 => EPROCLIM
    case 1039 => EUSERS
    case 1040 => EDQUOT
    case 1041 => ESTALE
    case 1042 => EREMOTE
    case 1062 => EINTR
    case _ => OtherErrno(code)
  }

  /** The errno names with the same code collapse onto the first of each pair. */
  function Canonical(e: Errno): Errno
  {
    match e
    case EPERM => EACCES
    case ENFILE => EMFILE
    case OtherErrno(_) => OtherErrno(1000)
    case _ => e
  }

  /**
   * Every errno is translated into 1000..1062, a code with a text; 1000 comes
   * exactly from the errno values the switch does not name; and the code
   * determines the errno up to the two shared pairs.
   */
  lemma {:induction false} TranslateSocketErrorSound(e: Errno)
    ensures var code := TranslateSocketError(e);
      1000 <= code <= 1062 && GetSocketError(code).Some? &&
      (code == 1000 <==> e.OtherErrno?) &&
      ErrnoOfCode(code) == Canonical(e)
  {
    TranslateSocketErrorRange(e);
    TranslateSocketErrorInverse(e);
  }

  lemma {:induction false} TranslateSocketErrorRange(e: Errno)
    ensures 1000 <= TranslateSocketError(e) <= 1062 && (TranslateSocketError(e) == 1000 <==> e.OtherErrno?)
  {
  }

  lemma {:induction false} TranslateSocketErrorInverse(e: Errno)
    ensures ErrnoOfCode(TranslateSocketError(e)) == Canonical(e)
  {
    match e
    case EBADF =>
    case EACCES =>
    case EPERM =>
    case EFAULT =>
    case EINVAL =>
    case EMFILE =>
    case ENFILE =>
    case EWOULDBLOCK =>
    case EINPROGRESS =>
    case EALREADY =>
    case ENOTSOCK =>
    case EDESTADDRREQ =>
    case EMSGSIZE =>
    case EPROTOTYPE =>
    case ENOPROTOOPT =>
    case EPROTONOSUPPORT =>
    case ESOCKTNOSUPPORT =>
    case EOPNOTSUPP =>
    case EPFNOSUPPORT =>
    case EAFNOSUPPORT =>
    case EADDRINUSE =>
    case EADDRNOTAVAIL =>
    case ENETDOWN =>
    case ENETUNREACH =>
    case ENETRESET =>
    case ECONNABORTED =>
    case ECONNRESET =>
    case ENOBUFS =>
    case EISCONN =>
    case ENOTCONN =>
    case ESHUTDOWN =>
    case ETOOMANYREFS =>
    case ETIMEDOUT =>
    case ECONNREFUSED =>
    case ELOOP =>
    case ENAMETOOLONG =>
    case EHOSTDOWN =>
    case EHOSTUNREACH =>
    case ENOTEMPTY =>
    case EPROCLIM =>
    case EUSERS =>
    case EDQUOT =>
    case ESTALE =>
    case EREMOTE =>
    case EINTR =>
    case OtherErrno(_) =>
  }

  /** Two different named errno values share a code only as EACCES/EPERM or EMFILE/ENFILE. */
  lemma {:induction false} SharedSocketErrorCodes(a: Errno, b: Errno)
    requires !a.OtherErrno? && !b.OtherErrno? && a != b
    ensures TranslateSocketError(a) == TranslateSocketError(b) <==>
      ({a, b} == {EACCES, EPERM} || {a, b} == {EMFILE, ENFILE})
  {
    TranslateSocketErrorInverse(a);
    TranslateSocketErrorInverse(b);
    if {a, b} == {EACCES, EPERM} || {a, b} == {EMFILE, ENFILE} {
      assert (a == EACCES || a == EPERM) ==> TranslateSocketError(a) == 1002;
      assert (a == EMFILE || a == ENFILE) ==> TranslateSocketError(a) == 1005;
    }
  }

  /**
   * getaddrinfo results map into the table range; EAI_ADDRFAMILY and
   * EAI_FAMILY share 1067, EAI_SYSTEM reports the errno translation, and
   * anything the switch does not name is 1000.
   */
  lemma {:induction false} TranslateGaiErrorSound(g: GaiError, e: Errno)
    ensures var code := TranslateGaiError(g, e);
      1000 <= code <= 1074 && GetSocketError(code).Some? &&
      (g == EAI_ADDRFAMILY || g == EAI_FAMILY <==> code == 1067) &&
      (g == EAI_SYSTEM ==> code == TranslateSocketError(e)) &&
      (g.OtherGaiError? ==> code == 1000)
  {
    TranslateSocketErrorSound(e);
  }
}
