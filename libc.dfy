/**
 * The small part of the C library the client relies on, over C strings
 * modelled as the characters before their terminator (so a C string never
 * contains '\0'), and over octets modelled as the integers 0..255.
 */
module LibC {
  import opened Wrappers

  newtype byte = x: int | 0 <= x < 256

  /** The bits of an octet, for the flag tests and updates the C code writes with & and |. */
  function Bits(b: byte): bv8 { b as bv8 }

  function OfBits(v: bv8): byte { v as int as byte }

  lemma {:induction false} OfBitsRoundTrip(v: bv8)
    ensures Bits(OfBits(v)) == v
  {
  }

  /** The value of the unsigned 16-bit big-endian (network order) field hi, lo. */
  function BE16(hi: byte, lo: byte): (v: nat)
    ensures v < 65536
  {
    hi as nat * 256 + lo as nat
  }

  /** htons: the two octets of v truncated to 16 bits, most significant first. */
  function ToBE16(v: int): (r: seq<byte>)
    ensures |r| == 2 && BE16(r[0], r[1]) == v % 65536
  {
    [((v % 65536) / 256) as byte, (v % 256) as byte]
  }

  /** A value converted to a 32-bit C int: taken modulo 2^32 into [-2^31, 2^31). */
  function Int32(n: int): (r: int)
    ensures -0x8000_0000 <= r < 0x8000_0000
    ensures -0x8000_0000 <= n < 0x8000_0000 ==> r == n
    ensures (r - n) % 0x1_0000_0000 == 0
  {
    var m := n % 0x1_0000_0000;
    if m < 0x8000_0000 then m else m - 0x1_0000_0000
  }

  /** A C value converted to size_t: negative values wrap around modulo 2^64. */
  function SizeT(n: int): (r: nat)
    requires -9223372036854775808 <= n
    ensures n >= 0 ==> r == n
    ensures n < 0 ==> r >= 9223372036854775808
  {
    if n >= 0 then n else 18446744073709551616 + n
  }

  /** A C char holding the octet b. */
  function CharOfByte(b: byte): char
  {
    (b as int) as char
  }

  /** The octet stored for character c (C strings hold octets). */
  function ByteOfChar(c: char): byte
  {
    (c as int % 256) as byte
  }

  /** The octets of a C string. */
  function BytesOf(s: string): (r: seq<byte>)
    ensures |r| == |s|
  {
    if s == [] then [] else [ByteOfChar(s[0])] + BytesOf(s[1..])
  }

  lemma {:induction false} BytesOfEach(s: string)
    ensures forall i :: 0 <= i < |s| ==> BytesOf(s)[i] == ByteOfChar(s[i])
  {
    if s != [] {
      BytesOfEach(s[1..]);
      assert forall i :: 1 <= i < |s| ==> BytesOf(s)[i] == BytesOf(s[1..])[i - 1];
    }
  }

  lemma {:induction false} ByteCharRoundTrip(b: byte)
    ensures ByteOfChar(CharOfByte(b)) == b
  {
  }

  function ToLower(c: char): (r: char)
    ensures 'A' <= c <= 'Z' ==> r != c
    ensures !('A' <= c <= 'Z') ==> r == c
  {
    if 'A' <= c <= 'Z' then (c as int + 32) as char else c
  }

  /** strcasecmp(a, b) == 0 in the C locale. */
  predicate CaseEq(a: string, b: string)
  {
    |a| == |b| && forall i :: 0 <= i < |a| ==> ToLower(a[i]) == ToLower(b[i])
  }

  predicate StartsWith(s: string, p: string)
  {
    |p| <= |s| && s[..|p|] == p
  }

  predicate MatchAt<T(==)>(s: seq<T>, pat: seq<T>, k: int)
  {
    0 <= k && k + |pat| <= |s| && s[k..k + |pat|] == pat
  }

  /** strstr: the index of the first occurrence of pat in s (pat == "" is found at 0). */
  function Find<T(==)>(s: seq<T>, pat: seq<T>): (r: Option<nat>)
    ensures r.Some? ==> MatchAt(s, pat, r.value) && forall j :: 0 <= j < r.value ==> !MatchAt(s, pat, j)
    ensures r.None? ==> forall j :: !MatchAt(s, pat, j)
    decreases |s|
  {
    if |pat| <= |s| && s[..|pat|] == pat then Some(0)
    else if |s| <= |pat| then None
    else
      var rest := Find(s[1..], pat);
      ShiftMatch(s, pat);
      if rest.None? then None else Some(rest.value + 1)
  }

  lemma {:induction false} ShiftMatch<T>(s: seq<T>, pat: seq<T>)
    requires |s| > 0
    ensures forall j {:trigger MatchAt(s, pat, j)} :: 1 <= j ==> (MatchAt(s, pat, j) <==> MatchAt(s[1..], pat, j - 1))
  {
    forall j | 1 <= j
      ensures MatchAt(s, pat, j) <==> MatchAt(s[1..], pat, j - 1)
    {
      if j + |pat| <= |s| {
        assert s[1..][j - 1..j - 1 + |pat|] == s[j..j + |pat|];
      }
    }
  }

  /** strrchr: the index of the last occurrence of c in s. */
  function LastIndexOf(s: string, c: char): (r: Option<nat>)
    ensures r.Some? ==> r.value < |s| && s[r.value] == c && forall j :: r.value < j < |s| ==> s[j] != c
    ensures r.None? ==> forall j :: 0 <= j < |s| ==> s[j] != c
  {
    if |s| == 0 then None
    else if s[|s| - 1] == c then Some(|s| - 1)
    else LastIndexOf(s[..|s| - 1], c)
  }

  /** The C string held in a buffer: the octets before the first zero octet. */
  function UpToNul(b: seq<byte>): (r: seq<byte>)
    ensures |r| <= |b| && r == b[..|r|]
    ensures forall i :: 0 <= i < |r| ==> r[i] != 0
    ensures |r| < |b| ==> b[|r|] == 0
  {
    if |b| == 0 || b[0] == 0 then [] else [b[0]] + UpToNul(b[1..])
  }

  /** A terminator appended after the octets does not change the C string they hold. */
  lemma {:induction false} UpToNulTerminated(b: seq<byte>)
    ensures UpToNul(b + [0]) == UpToNul(b)
  {
    if |b| > 0 && b[0] != 0 {
      assert (b + [0])[1..] == b[1..] + [0];
      UpToNulTerminated(b[1..]);
    }
  }

  predicate IsSpace(c: char)
  {
    c == ' ' || c == '\t' || c == '\n' || c == '\U{B}' || c == '\U{C}' || c == '\r'
  }

  predicate IsDigit(c: char)
  {
    '0' <= c <= '9'
  }

  function DigitValue(c: char): (d: nat)
    requires IsDigit(c)
    ensures d < 10
  {
    c as int - '0' as int
  }

  function SkipSpace(s: string): (r: string)
    ensures |r| <= |s| && r == s[|s| - |r|..]
    ensures |r| > 0 ==> !IsSpace(r[0])
  {
    if |s| > 0 && IsSpace(s[0]) then SkipSpace(s[1..]) else s
  }

  /** The longest prefix of s made of decimal digits. */
  function LeadingDigits(s: string): (r: string)
    ensures StartsWith(s, r)
    ensures forall i :: 0 <= i < |r| ==> IsDigit(r[i])
    ensures |r| < |s| ==> !IsDigit(s[|r|])
  {
    if |s| > 0 && IsDigit(s[0]) then [s[0]] + LeadingDigits(s[1..]) else []
  }

  /** The value of a string of decimal digits. */
  function DecimalValue(d: string): nat
    requires forall i :: 0 <= i < |d| ==> IsDigit(d[i])
  {
    if |d| == 0 then 0 else DecimalValue(d[..|d| - 1]) * 10 + DigitValue(d[|d| - 1])
  }

  /** atoi: optional white space, an optional sign, then the leading digits (no overflow). */
  function Atoi(s: string): int
  {
    var t := SkipSpace(s);
    if |t| > 0 && t[0] == '-' then -(DecimalValue(LeadingDigits(t[1..])) as int)
    else if |t| > 0 && t[0] == '+' then DecimalValue(LeadingDigits(t[1..]))
    else DecimalValue(LeadingDigits(t))
  }

  function DigitChar(d: nat): (c: char)
    requires d < 10
    ensures IsDigit(c) && DigitValue(c) == d
  {
    ('0' as int + d) as char
  }

  /** printf "%u" of a non-negative value. */
  function NatToString(n: nat): (r: string)
    ensures |r| > 0
    ensures forall i :: 0 <= i < |r| ==> IsDigit(r[i])
  {
    if n < 10 then [DigitChar(n)] else NatToString(n / 10) + [DigitChar(n % 10)]
  }

  /** printf "%i". */
  function IntToString(n: int): (r: string)
    ensures |r| > 0
  {
    if n < 0 then "-" + NatToString(-n) else NatToString(n)
  }

  lemma {:induction false} DecimalValueOfNatToString(n: nat)
    ensures DecimalValue(NatToString(n)) == n
  {
    if n >= 10 {
      var r := NatToString(n);
      assert r[..|r| - 1] == NatToString(n / 10);
      DecimalValueOfNatToString(n / 10);
    }
  }

  lemma {:induction false} LeadingDigitsOfDigits(d: string, rest: string)
    requires forall i :: 0 <= i < |d| ==> IsDigit(d[i])
    requires |rest| > 0 ==> !IsDigit(rest[0])
    ensures LeadingDigits(d + rest) == d
  {
    if |d| > 0 {
      assert (d + rest)[1..] == d[1..] + rest;
      LeadingDigitsOfDigits(d[1..], rest);
    }
  }

  /** atoi reads back what "%i" printed, even when other text follows. */
  lemma {:induction false} AtoiOfNatToString(m: nat, rest: string)
    requires |rest| > 0 ==> !IsDigit(rest[0])
    ensures Atoi(NatToString(m) + rest) == m
  {
    var d := NatToString(m);
    var t := d + rest;
    LeadingDigitsOfDigits(d, rest);
    DecimalValueOfNatToString(m);
    assert t[0] == d[0] && IsDigit(t[0]);
    assert SkipSpace(t) == t;
  }

  lemma {:induction false} AtoiOfNegative(m: nat, rest: string)
    requires m > 0 && (|rest| > 0 ==> !IsDigit(rest[0]))
    ensures Atoi(IntToString(-(m as int)) + rest) == -(m as int)
  {
    var d := NatToString(m);
    var t := IntToString(-(m as int)) + rest;
    assert t == "-" + (d + rest);
    LeadingDigitsOfDigits(d, rest);
    DecimalValueOfNatToString(m);
    assert SkipSpace(t) == t;
    assert t[1..] == d + rest;
  }

  /** atoi reads back what "%i" printed, even when other text follows. */
  lemma {:induction false} AtoiOfIntToString(n: int, rest: string)
    requires |rest| > 0 ==> !IsDigit(rest[0])
    ensures Atoi(IntToString(n) + rest) == n
  {
    if n < 0 {
      AtoiOfNegative(-n, rest);
    } else {
      AtoiOfNatToString(n, rest);
    }
  }
}
