/**
 * The command-line client (trunk/src/cli/main.c): how it looks up options
 * in its argument vector, its case-insensitive comparison, how it finds the
 * first domain among options and their values, and the settings and
 * defaults Execute derives from the options.
 *
 * The argument vector is a sequence of strings; argv[0] is the program
 * name and argc is its length, so argv[i + 1] == NULL means i + 1 == |argv|.
 */
module Cli {
  import opened Wrappers
  import opened LibC
  import opened IrisTypes
  import opened IrisLwz

  /** A C string: no character inside it is the terminator. */
  predicate NoNul(s: string)
  {
    forall k :: 0 <= k < |s| ==> s[k] != '\0'
  }

  /** Character k of the C string s; the terminator at |s| reads as NUL. */
  function At(s: string, k: nat): char
  {
    if k < |s| then s[k] else '\0'
  }

  // ---------------------------------------------------------------------
  // getargv

  /**
   * The first index from i on whose argument begins with the option. For
   * C strings, strncmp(argv[k], argument, strlen(argument)) == 0 says
   * exactly that.
   */
  function FirstPrefixed(argv: seq<string>, argument: string, i: nat): (r: Option<nat>)
    ensures r.Some? ==> i <= r.value < |argv| && StartsWith(argv[r.value], argument)
    decreases |argv| - i
  {
    if i >= |argv| then None
    else if StartsWith(argv[i], argument) then Some(i)
    else FirstPrefixed(argv, argument, i + 1)
  }

  /** The match FirstPrefixed finds is the first one, and there is none when it finds none. */
  lemma {:induction false} FirstPrefixedIsFirst(argv: seq<string>, argument: string, i: nat)
    ensures var r := FirstPrefixed(argv, argument, i);
      (r.Some? ==> forall j :: i <= j < r.value ==> !StartsWith(argv[j], argument)) &&
      (r.None? <==> forall j :: i <= j < |argv| ==> !StartsWith(argv[j], argument))
    decreases |argv| - i
  {
    if i < |argv| && !StartsWith(argv[i], argument) {
      FirstPrefixedIsFirst(argv, argument, i + 1);
    }
  }

  /** A match at i with none before it, from k on, is what FirstPrefixed finds. */
  lemma {:induction false} FirstPrefixedAt(argv: seq<string>, argument: string, k: nat, i: nat)
    requires k <= i < |argv| && StartsWith(argv[i], argument)
    requires forall j :: k <= j < i ==> !StartsWith(argv[j], argument)
    ensures FirstPrefixed(argv, argument, k) == Some(i)
    decreases i - k
  {
    if k < i {
      FirstPrefixedAt(argv, argument, k + 1, i);
    }
  }

  /**
   * What getargv returns for the match at index i: the rest of the argument
   * when it is longer than the option or the last one; otherwise the next
   * argument, "" when that is another option, and without its backslash
   * when it starts with "\-".
   */
  function ValueAt(argv: seq<string>, argument: string, i: nat): (v: string)
    requires i < |argv| && StartsWith(argv[i], argument)
    ensures |argv[i]| > |argument| || i + 1 == |argv| ==> argument + v == argv[i]
    ensures |argv[i]| == |argument| && i + 1 < |argv| && StartsWith(argv[i + 1], "-") ==> v == ""
    ensures |argv[i]| == |argument| && i + 1 < |argv| && StartsWith(argv[i + 1], "\\-") ==> "\\" + v == argv[i + 1]
  {
    if |argv[i]| > |argument| || i + 1 == |argv| then argv[i][|argument|..]
    else
      var next := argv[i + 1];
      if |next| > 0 && next[0] == '-' then ""
      else if |next| > 1 && next[0] == '\\' && next[1] == '-' then next[1..]
      else next
  }

  /** getargv: the value of the first argument (after the program name) that begins with the option. */
  function Lookup(argv: seq<string>, argument: string): Option<string>
  {
    if |argv| <= 1 then None
    else match FirstPrefixed(argv, argument, 1)
      case None => None
      case Some(i) => Some(ValueAt(argv, argument, i))
  }

  /** getargv returns NULL exactly when no argument after the program name begins with the option. */
  lemma {:induction false} LookupNone(argv: seq<string>, argument: string)
    ensures Lookup(argv, argument).None? <==> forall j :: 1 <= j < |argv| ==> !StartsWith(argv[j], argument)
  {
    FirstPrefixedIsFirst(argv, argument, 1);
  }

  /**
   * getargv: the linear search over argv[1..], returning at the first
   * argument that begins with the option.
   */
  method GetArgv(argv: seq<string>, argument: string) returns (r: Option<string>)
    ensures r == Lookup(argv, argument)
  {
    if |argv| > 1 {
      var argl := |argument|;
      var i := 1;
      while i < |argv|
        invariant 1 <= i <= |argv|
        invariant FirstPrefixed(argv, argument, i) == FirstPrefixed(argv, argument, 1)
      {
        if StartsWith(argv[i], argument) {
          var l := |argv[i]|;
          if l > argl || i + 1 == |argv| {
            return Some(argv[i][argl..]);
          }
          var ret := argv[i + 1];
          if At(ret, 0) == '-' {
            return Some("");
          }
          if At(ret, 0) == '\\' && At(ret, 1) == '-' {
            return Some(ret[1..]);
          }
          return Some(ret);
        }
        i := i + 1;
      }
    }
    return None;
  }

  /** An option glued to its value ("-tde") yields the value. */
  lemma {:induction false} LookupAttached(argv: seq<string>, argument: string, i: nat, w: string)
    requires 1 <= i < |argv| && argv[i] == argument + w && w != ""
    requires forall j :: 1 <= j < i ==> !StartsWith(argv[j], argument)
    ensures Lookup(argv, argument) == Some(w)
  {
    assert StartsWith(argv[i], argument) by {
      assert argv[i][..|argument|] == argument;
    }
    FirstPrefixedAt(argv, argument, 1, i);
    assert argv[i][|argument|..] == w;
  }

  /** An option followed by a value that starts with neither "-" nor "\\-" ("-t de") yields that value. */
  lemma {:induction false} LookupSeparate(argv: seq<string>, argument: string, i: nat)
    requires 1 <= i && i + 1 < |argv| && argv[i] == argument
    requires !StartsWith(argv[i + 1], "-") && !StartsWith(argv[i + 1], "\\-")
    requires forall j :: 1 <= j < i ==> !StartsWith(argv[j], argument)
    ensures Lookup(argv, argument) == Some(argv[i + 1])
  {
    assert StartsWith(argv[i], argument) by {
      assert argv[i][..|argument|] == argument;
    }
    FirstPrefixedAt(argv, argument, 1, i);
    var next := argv[i + 1];
    assert |next| > 1 ==> next[..2] == [next[0], next[1]];
  }

  /** A value that starts with '-' is passed escaped: "-t \-x" yields "-x". */
  lemma {:induction false} LookupEscaped(argv: seq<string>, argument: string, i: nat, w: string)
    requires 1 <= i && i + 1 < |argv| && argv[i] == argument && argv[i + 1] == "\\" + w && StartsWith(w, "-")
    requires forall j :: 1 <= j < i ==> !StartsWith(argv[j], argument)
    ensures Lookup(argv, argument) == Some(w)
  {
    assert StartsWith(argv[i], argument) by {
      assert argv[i][..|argument|] == argument;
    }
    FirstPrefixedAt(argv, argument, 1, i);
    assert argv[i + 1][1..] == w;
  }

  /** An option whose next argument is another option has the empty value: "-h -t de" gives "-h" the value "". */
  lemma {:induction false} LookupBeforeOption(argv: seq<string>, argument: string, i: nat)
    requires 1 <= i && i + 1 < |argv| && argv[i] == argument && StartsWith(argv[i + 1], "-")
    requires forall j :: 1 <= j < i ==> !StartsWith(argv[j], argument)
    ensures Lookup(argv, argument) == Some("")
  {
    assert StartsWith(argv[i], argument) by {
      assert argv[i][..|argument|] == argument;
    }
    FirstPrefixedAt(argv, argument, 1, i);
  }

  /** myatoi: 0 for a missing option, atoi of its value otherwise. */
  function MyAtoi(s: Option<string>): (n: int)
    ensures s.None? ==> n == 0
    ensures s.Some? ==> n == Atoi(s.value)
  {
    if s.None? then 0 else Atoi(s.value)
  }

  /**
   * myatoi reads a number back: the decimal text of k, followed by anything
   * but a digit, gives k; a missing option gives 0.
   */
  lemma {:induction false} MyAtoiReadsBack(k: int, rest: string)
    requires |rest| > 0 ==> !IsDigit(rest[0])
    ensures MyAtoi(Some(IntToString(k) + rest)) == k
    ensures MyAtoi(None) == 0
  {
    AtoiOfIntToString(k, rest);
  }

  // ---------------------------------------------------------------------
  // mystrncasecmp

  /**
   * mystrncasecmp from character k on, with m characters left to compare:
   * the difference of the first pair that differs after tolower, or 0 when
   * m runs out or s1 ends first with both characters equal.
   */
  function CaseCmpFrom(s1: string, s2: string, k: nat, m: nat): int
    decreases m
  {
    if m == 0 then 0
    else if ToLower(At(s1, k)) != ToLower(At(s2, k)) then ToLower(At(s1, k)) as int - ToLower(At(s2, k)) as int
    else if At(s1, k) == '\0' then 0
    else CaseCmpFrom(s1, s2, k + 1, m - 1)
  }

  /** mystrncasecmp(s1, s2, n); n == 0 compares nothing. */
  function CaseCmp(s1: string, s2: string, n: nat): (r: int)
    ensures n == 0 ==> r == 0
  {
    CaseCmpFrom(s1, s2, 0, n)
  }

  /**
   * mystrncasecmp (the fallback used where the C library has no
   * strncasecmp): a do-while over both strings that stops at the first
   * difference, at the end of s1, or after n characters.
   */
  method StrNCaseCmp(s1: string, s2: string, n: nat) returns (r: int)
    ensures r == CaseCmp(s1, s2, n)
  {
    if n != 0 {
      var k := 0;
      var m := n;
      while m != 0
        invariant k + m == n
        invariant CaseCmpFrom(s1, s2, k, m) == CaseCmp(s1, s2, n)
      {
        if ToLower(At(s1, k)) != ToLower(At(s2, k)) {
          return ToLower(At(s1, k)) as int - ToLower(At(s2, k)) as int;
        }
        if At(s1, k) == '\0' {
          break;
        }
        k := k + 1;
        m := m - 1;
      }
    }
    return 0;
  }

  /** Only the terminator lowers to the terminator. */
  lemma {:induction false} LowerNul(c: char)
    ensures ToLower(c) == '\0' <==> c == '\0'
  {
  }

  /**
   * The comparison gives 0 exactly when the first n characters of the C
   * strings, up to and including the terminator of s1, agree ignoring
   * ASCII case.
   */
  lemma {:induction false} CaseCmpFromZero(s1: string, s2: string, k: nat, m: nat)
    requires NoNul(s1) && k <= |s1|
    ensures CaseCmpFrom(s1, s2, k, m) == 0 <==>
      forall j :: k <= j < k + m && j <= |s1| ==> ToLower(At(s1, j)) == ToLower(At(s2, j))
    decreases m
  {
    if m > 0 && ToLower(At(s1, k)) == ToLower(At(s2, k)) && At(s1, k) != '\0' {
      CaseCmpFromZero(s1, s2, k + 1, m - 1);
    }
  }

  /** mystrncasecmp(s1, s2, n) == 0 iff the strings agree, ignoring case, in their first n characters. */
  lemma {:induction false} CaseCmpZero(s1: string, s2: string, n: nat)
    requires NoNul(s1)
    ensures CaseCmp(s1, s2, n) == 0 <==>
      forall j :: 0 <= j < n && j <= |s1| ==> ToLower(At(s1, j)) == ToLower(At(s2, j))
  {
    CaseCmpFromZero(s1, s2, 0, n);
  }

  /** Swapping the strings negates the result. */
  lemma {:induction false} CaseCmpFromAntisymmetric(s1: string, s2: string, k: nat, m: nat)
    ensures CaseCmpFrom(s1, s2, k, m) == -CaseCmpFrom(s2, s1, k, m)
    decreases m
  {
    if m > 0 && ToLower(At(s1, k)) == ToLower(At(s2, k)) {
      LowerNul(At(s1, k));
      LowerNul(At(s2, k));
      if At(s1, k) != '\0' {
        CaseCmpFromAntisymmetric(s1, s2, k + 1, m - 1);
      }
    }
  }

  lemma {:induction false} CaseCmpAntisymmetric(s1: string, s2: string, n: nat)
    ensures CaseCmp(s1, s2, n) == -CaseCmp(s2, s1, n)
  {
    CaseCmpFromAntisymmetric(s1, s2, 0, n);
  }

  // ---------------------------------------------------------------------
  // The first domain argument

  predicate IsOption(a: string)
  {
    At(a, 0) == '-'
  }

  /**
   * Whether the option a consumes the argument after it: a bare -a, -i,
   * -t, -h, -f or -p, --ps or --md, or --timeout, in any case.
   */
  predicate TakesValue(a: string)
  {
    if CaseCmp(a, "-a", 2) == 0 || CaseCmp(a, "-i", 2) == 0 || CaseCmp(a, "-t", 2) == 0 ||
       CaseCmp(a, "-h", 2) == 0 || CaseCmp(a, "-f", 2) == 0 || CaseCmp(a, "-p", 2) == 0 then |a| == 2
    else if CaseCmp(a, "--ps", 4) == 0 || CaseCmp(a, "--md", 4) == 0 then |a| == 4
    else if CaseCmp(a, "--timeout", 9) == 0 then |a| == 9
    else false
  }

  /**
   * The index of the first domain among argv[i..], or 0 when there is none:
   * options are passed over, each together with the value it consumes.
   */
  function FirstDomainFrom(argv: seq<string>, i: nat): (r: nat)
    ensures r == 0 || (i <= r < |argv| && !IsOption(argv[r]))
    decreases |argv| - i
  {
    if i >= |argv| then 0
    else if !IsOption(argv[i]) then i
    else FirstDomainFrom(argv, i + 1 + (if TakesValue(argv[i]) then 1 else 0))
  }

  /**
   * The loop of Execute that finds the first argument that is not an
   * option; 0 when every argument is an option or an option's value.
   */
  method FirstDomain(argv: seq<string>) returns (first: nat)
    ensures first == FirstDomainFrom(argv, 1)
    ensures first == 0 || (1 <= first < |argv| && !IsOption(argv[first]))
  {
    first := 0;
    var i := 1;
    while i < |argv|
      invariant 1 <= i && FirstDomainFrom(argv, i) == FirstDomainFrom(argv, 1)
      decreases |argv| - i
    {
      var a := argv[i];
      if At(a, 0) == '-' {
        if CaseCmp(a, "-a", 2) == 0 || CaseCmp(a, "-i", 2) == 0 || CaseCmp(a, "-t", 2) == 0 ||
           CaseCmp(a, "-h", 2) == 0 || CaseCmp(a, "-f", 2) == 0 || CaseCmp(a, "-p", 2) == 0 {
          if |a| == 2 {
            i := i + 1;
          }
        } else if CaseCmp(a, "--ps", 4) == 0 || CaseCmp(a, "--md", 4) == 0 {
          if |a| == 4 {
            i := i + 1;
          }
        } else if CaseCmp(a, "--timeout", 9) == 0 {
          if |a| == 9 {
            i := i + 1;
          }
        }
      } else {
        first := i;
        break;
      }
      i := i + 1;
    }
  }

  /** An argument equal to a C string ignoring case is one too, and compares equal to it. */
  lemma {:induction false} CaseEqCmp(a: string, o: string)
    requires CaseEq(a, o) && NoNul(o)
    ensures NoNul(a) && CaseCmp(a, o, |o|) == 0
  {
    forall k | 0 <= k < |a|
      ensures a[k] != '\0'
    {
      LowerNul(a[k]);
      LowerNul(o[k]);
    }
    CaseCmpZero(a, o, |o|);
  }

  /** Only '-' lowers to '-'. */
  lemma {:induction false} LowerDash(c: char)
    ensures ToLower(c) == '-' <==> c == '-'
  {
  }

  /** An argument starting with "--" is none of the one-letter options. */
  lemma {:induction false} NotShortOption(a: string)
    requires |a| >= 2 && a[0] == '-' && a[1] == '-'
    ensures CaseCmp(a, "-a", 2) != 0 && CaseCmp(a, "-i", 2) != 0 && CaseCmp(a, "-t", 2) != 0
    ensures CaseCmp(a, "-h", 2) != 0 && CaseCmp(a, "-f", 2) != 0 && CaseCmp(a, "-p", 2) != 0
  {
    assert CaseCmpFrom(a, "-a", 1, 1) != 0 && CaseCmpFrom(a, "-i", 1, 1) != 0 && CaseCmpFrom(a, "-t", 1, 1) != 0;
    assert CaseCmpFrom(a, "-h", 1, 1) != 0 && CaseCmpFrom(a, "-f", 1, 1) != 0 && CaseCmpFrom(a, "-p", 1, 1) != 0;
  }

  /** An argument starting with "--t" is neither --ps nor --md. */
  lemma {:induction false} NotPacketOption(a: string)
    requires |a| >= 3 && a[0] == '-' && a[1] == '-' && ToLower(a[2]) == 't'
    ensures CaseCmp(a, "--ps", 4) != 0 && CaseCmp(a, "--md", 4) != 0
  {
    assert CaseCmpFrom(a, "--ps", 2, 2) != 0 && CaseCmpFrom(a, "--md", 2, 2) != 0;
    assert CaseCmpFrom(a, "--ps", 1, 3) == CaseCmpFrom(a, "--ps", 2, 2);
    assert CaseCmpFrom(a, "--md", 1, 3) == CaseCmpFrom(a, "--md", 2, 2);
  }

  /** The value of a bare -a, -i, -t, -h, -f or -p, in any case, is never taken for the first domain. */
  lemma {:induction false} FirstDomainSkipsShortValue(argv: seq<string>, i: nat, option: string)
    requires i < |argv| && option in ["-a", "-i", "-t", "-h", "-f", "-p"]
    requires CaseEq(argv[i], option)
    ensures FirstDomainFrom(argv, i) == FirstDomainFrom(argv, i + 2)
  {
    var a := argv[i];
    LowerDash(a[0]);
    CaseEqCmp(a, option);
    assert TakesValue(a);
  }

  /** The value of a bare --ps or --md, in any case, is never taken for the first domain. */
  lemma {:induction false} FirstDomainSkipsPacketValue(argv: seq<string>, i: nat, option: string)
    requires i < |argv| && option in ["--ps", "--md"]
    requires CaseEq(argv[i], option)
    ensures FirstDomainFrom(argv, i) == FirstDomainFrom(argv, i + 2)
  {
    var a := argv[i];
    LowerDash(a[0]);
    LowerDash(a[1]);
    NotShortOption(a);
    CaseEqCmp(a, option);
    assert TakesValue(a);
  }

  /** The value of a bare --timeout, in any case, is never taken for the first domain. */
  lemma {:induction false} FirstDomainSkipsTimeoutValue(argv: seq<string>, i: nat)
    requires i < |argv| && CaseEq(argv[i], "--timeout")
    ensures FirstDomainFrom(argv, i) == FirstDomainFrom(argv, i + 2)
  {
    var a := argv[i];
    LowerDash(a[0]);
    LowerDash(a[1]);
    NotShortOption(a);
    NotPacketOption(a);
    CaseEqCmp(a, "--timeout");
    assert TakesValue(a);
  }

  /** When every argument after the program name starts with '-', there is no domain and Execute shows the help. */
  lemma {:induction false} FirstDomainNone(argv: seq<string>, i: nat)
    requires forall j :: i <= j < |argv| ==> IsOption(argv[j])
    ensures FirstDomainFrom(argv, i) == 0
    decreases |argv| - i
  {
    if i < |argv| {
      FirstDomainNone(argv, i + 1 + (if TakesValue(argv[i]) then 1 else 0));
    }
  }

  // ---------------------------------------------------------------------
  // Settings and defaults of Execute

  /** The port the client uses when "-p" is not given. */
  const DefaultPortText := "715"

  /** The response length the client asks for when "--ps" is missing or 0. */
  const DefaultPacketSize := 1500

  /** The zone the client falls back to when neither "-t" nor a domain gives one. */
  const FallbackTld := "de"

  /** What Execute reads from the options and keeps for its later steps. */
  datatype Options = Options(
    tld: Option<string>,
    host: Option<string>,
    port: string,
    inputFile: Option<string>,
    maxDomains: int,
    authority: Option<string>,
    findServer: bool)

  /**
   * The handle flags the options select: the verbose flag for "--ex" with
   * "-V" or "-v", and for "-V" or "-v" alone; unchanged otherwise.
   */
  function VerboseFlag(argv: seq<string>, current: int): (v: int)
    ensures Lookup(argv, "--ex").Some? && Lookup(argv, "-V").Some? ==> v == 54
    ensures Lookup(argv, "--ex").Some? && Lookup(argv, "-V").None? && Lookup(argv, "-v").Some? ==> v == 18
    ensures Lookup(argv, "--ex").None? && Lookup(argv, "-V").Some? ==> v == 45
    ensures Lookup(argv, "--ex").None? && Lookup(argv, "-V").None? && Lookup(argv, "-v").Some? ==> v == 9
    ensures Lookup(argv, "-V").None? && Lookup(argv, "-v").None? ==> v == current
  {
    if Lookup(argv, "--ex").Some? then
      if Lookup(argv, "-V").Some? then 54 else if Lookup(argv, "-v").Some? then 18 else current
    else
      if Lookup(argv, "-V").Some? then 45 else if Lookup(argv, "-v").Some? then 9 else current
  }

  /** Whether the verbose flags select the output of bit (verboseflag&bit in irislwz.c). */
  predicate Selects(flags: int, bit: int)
    requires bit > 0
  {
    flags / bit % 2 == 1
  }

  /**
   * What the verbose options select: -v or -V shows the request and the
   * response (bits 1 and 8), beautified instead with --ex (bits 2 and 16);
   * -V adds both headers (bits 4 and 32); bit 64 (output through a callback)
   * is never set. Without -v and -V the flags stay as they were.
   */
  lemma {:induction false} VerboseFlagMeaning(argv: seq<string>, current: int)
    ensures var v := VerboseFlag(argv, current);
      var ex := Lookup(argv, "--ex").Some?;
      var headers := Lookup(argv, "-V").Some?;
      (headers || Lookup(argv, "-v").Some?) ==>
        (Selects(v, 1) <==> !ex) && (Selects(v, 8) <==> !ex) &&
        (Selects(v, 2) <==> ex) && (Selects(v, 16) <==> ex) &&
        (Selects(v, 4) <==> headers) && (Selects(v, 32) <==> headers) &&
        !Selects(v, 64) && 0 < v < 64
    ensures Lookup(argv, "-V").None? && Lookup(argv, "-v").None? ==> VerboseFlag(argv, current) == current
  {
  }

  /**
   * The option handling at the start of Execute: the timeout (5 seconds by
   * default), the verbose flag, the maximum response length (1500 when
   * "--ps" is missing or 0), the RFC 1950 workaround and both compression
   * flags go to the handle; the other options are returned, with the port
   * defaulting to "715".
   */
  method ApplyOptions(h: Handle, argv: seq<string>) returns (o: Options)
    modifies h`timeoutSeconds, h`timeoutUseconds, h`verboseFlag, h`maximumResponseLength
    modifies h`rfc1950Workaround, h`sendDeflated, h`acceptDeflated
    ensures o.tld == Lookup(argv, "-t") && o.host == Lookup(argv, "-h")
    ensures o.inputFile == Lookup(argv, "-f") && o.authority == Lookup(argv, "-a")
    ensures o.port == if Lookup(argv, "-p").Some? then Lookup(argv, "-p").value else DefaultPortText
    ensures h.timeoutSeconds == MyAtoiOr(Lookup(argv, "--timeout"), 5) && h.timeoutUseconds == 0
    ensures h.verboseFlag == VerboseFlag(argv, old(h.verboseFlag))
    ensures h.maximumResponseLength == PacketSize(argv)
    ensures o.maxDomains == MyAtoi(Lookup(argv, "--md"))
    ensures h.rfc1950Workaround == if Lookup(argv, "--rfc1950").Some? then 1 else old(h.rfc1950Workaround)
    ensures h.sendDeflated == (if Lookup(argv, "--sc").Some? then 1 else 0)
    ensures h.acceptDeflated == (if Lookup(argv, "--dac").Some? then 0 else 1)
    ensures o.findServer == Lookup(argv, "--fs").Some?
  {
    var tld := GetArgv(argv, "-t");
    var host := GetArgv(argv, "-h");
    var port := GetArgv(argv, "-p");
    var inputfile := GetArgv(argv, "-f");
    var portText := if port.None? then DefaultPortText else port.value;
    ApplyTimeout(h, argv);
    ApplyVerbose(h, argv);
    ApplyPacketSize(h, argv);
    var md := GetArgv(argv, "--md");
    var maxdomains := MyAtoi(md);
    ApplyCompression(h, argv);
    var authority := GetArgv(argv, "-a");
    var fs := GetArgv(argv, "--fs");
    o := Options(tld, host, portText, inputfile, maxdomains, authority, fs.Some?);
  }

  /** myatoi of an option's value, or the fallback when the option is missing. */
  function MyAtoiOr(s: Option<string>, fallback: int): (n: int)
    ensures s.None? ==> n == fallback
    ensures s.Some? ==> n == MyAtoi(s)
  {
    if s.Some? then Atoi(s.value) else fallback
  }

  /** The maximum response length: "--ps" when it reads as a number other than 0, else 1500. */
  function PacketSize(argv: seq<string>): (n: int)
    ensures MyAtoi(Lookup(argv, "--ps")) != 0 ==> n == MyAtoi(Lookup(argv, "--ps"))
    ensures MyAtoi(Lookup(argv, "--ps")) == 0 ==> n == DefaultPacketSize
    ensures n != 0
  {
    var packetsize := MyAtoi(Lookup(argv, "--ps"));
    if packetsize != 0 then packetsize else DefaultPacketSize
  }

  /** The timeout step of Execute: "--timeout" in seconds, else 5 seconds. */
  method ApplyTimeout(h: Handle, argv: seq<string>)
    modifies h`timeoutSeconds, h`timeoutUseconds
    ensures h.timeoutSeconds == MyAtoiOr(Lookup(argv, "--timeout"), 5) && h.timeoutUseconds == 0
  {
    var timeout := GetArgv(argv, "--timeout");
    var ok;
    if timeout.Some? {
      ok := SetTimeout(h, MyAtoi(timeout), 0);
    } else {
      ok := SetTimeout(h, 5, 0);
    }
  }

  /** The verbose step of Execute: "--ex" selects the extended levels of "-V" and "-v". */
  method ApplyVerbose(h: Handle, argv: seq<string>)
    modifies h`verboseFlag
    ensures h.verboseFlag == VerboseFlag(argv, old(h.verboseFlag))
  {
    var ex := GetArgv(argv, "--ex");
    if ex.Some? {
      var bigV := GetArgv(argv, "-V");
      if bigV.Some? {
        h.verboseFlag := 54;
      } else {
        var smallV := GetArgv(argv, "-v");
        if smallV.Some? {
          h.verboseFlag := 18;
        }
      }
    } else {
      var bigV := GetArgv(argv, "-V");
      if bigV.Some? {
        h.verboseFlag := 45;
      } else {
        var smallV := GetArgv(argv, "-v");
        if smallV.Some? {
          h.verboseFlag := 9;
        }
      }
    }
  }

  /** The packet-size step of Execute: "--ps" when it reads as a number other than 0, else 1500. */
  method ApplyPacketSize(h: Handle, argv: seq<string>)
    modifies h`maximumResponseLength
    ensures h.maximumResponseLength == PacketSize(argv)
  {
    var ps := GetArgv(argv, "--ps");
    var packetsize := MyAtoi(ps);
    var ok;
    if packetsize != 0 {
      ok := SetMaximumResponseLength(h, packetsize);
    } else {
      ok := SetMaximumResponseLength(h, DefaultPacketSize);
    }
  }

  /**
   * The compression step of Execute: "--rfc1950" switches the RFC 1950
   * workaround on, "--sc" sends requests compressed, "--dac" refuses
   * compressed answers.
   */
  method ApplyCompression(h: Handle, argv: seq<string>)
    modifies h`rfc1950Workaround, h`sendDeflated, h`acceptDeflated
    ensures h.rfc1950Workaround == if Lookup(argv, "--rfc1950").Some? then 1 else old(h.rfc1950Workaround)
    ensures h.sendDeflated == (if Lookup(argv, "--sc").Some? then 1 else 0)
    ensures h.acceptDeflated == (if Lookup(argv, "--dac").Some? then 0 else 1)
  {
    var ok;
    var rfc1950 := GetArgv(argv, "--rfc1950");
    if rfc1950.Some? {
      ok := UseRFC1950(h, 1);
    }
    var sc := GetArgv(argv, "--sc");
    if sc.Some? {
      ok := SendDeflated(h, 1);
    } else {
      ok := SendDeflated(h, 0);
    }
    var dac := GetArgv(argv, "--dac");
    if dac.Some? {
      ok := AcceptDeflated(h, 0);
    } else {
      ok := AcceptDeflated(h, 1);
    }
  }

  /**
   * The zone Execute searches for a server: the "-t" option; else, when the
   * domains come from the command line, the text after the last '.' of the
   * first domain; else "de".
   */
  function ZoneFor(tld: Option<string>, firstDomain: Option<string>): (z: string)
    ensures tld.Some? ==> z == tld.value
    ensures tld.None? && firstDomain.Some? && '.' in firstDomain.value ==>
      '.' !in z && |z| < |firstDomain.value| && firstDomain.value[|firstDomain.value| - |z| - 1..] == "." + z
    ensures tld.None? && (firstDomain.None? || '.' !in firstDomain.value) ==> z == FallbackTld
  {
    if tld.Some? then tld.value
    else if firstDomain.Some? && Tld(firstDomain.value).Some? then Tld(firstDomain.value).value
    else FallbackTld
  }
}
