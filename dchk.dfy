/**
 * The DCHK layer of the library (trunk/src/lib/dchk.c, RFC 5144): domain
 * lists, the splitting of a delimited string into domains, the escaping of
 * domain names for XML, and the bundling of a domain list into IRIS lookup
 * requests of less than 5000 octets whose answers are read back into the
 * list.
 */
module Dchk {
  import opened Wrappers
  import opened LibC
  import opened XmlTree
  import opened IrisTypes
  import opened Errors
  import opened XmlParser
  import opened IrisLwz
  import opened Compat

  // ---------------------------------------------------------------------
  // Domain lists

  /** The longest domain name a list accepts. */
  const MaxDomainLength := 512

  /** Fresh records, not yet checked, for names. */
  function NewRecords(names: seq<string>): (r: seq<Record>)
    ensures |r| == |names|
    ensures forall i :: 0 <= i < |names| ==> r[i] == Record(names[i], None, None)
  {
    if names == [] then [] else NewRecords(names[..|names| - 1]) + [Record(names[|names| - 1], None, None)]
  }

  lemma {:induction false} NewRecordsAppend(a: seq<string>, b: seq<string>)
    ensures NewRecords(a + b) == NewRecords(a) + NewRecords(b)
  {
    assert |NewRecords(a + b)| == |NewRecords(a) + NewRecords(b)|;
    forall i | 0 <= i < |a + b|
      ensures NewRecords(a + b)[i] == (NewRecords(a) + NewRecords(b))[i]
    {
      if i >= |a| {
        assert (a + b)[i] == b[i - |a|];
      }
    }
  }

  /** The domain names of records, in list order. */
  function Names(records: seq<Record>): (r: seq<string>)
    ensures |r| == |records|
    ensures forall i :: 0 <= i < |records| ==> r[i] == records[i].domain
  {
    seq(|records|, i requires 0 <= i < |records| => records[i].domain)
  }

  /**
   * dchk_AddDomain: appends an unchecked record for domain; fails for a NULL
   * list or domain and for a name longer than 512 characters.
   */
  method AddDomain(list: DomainList?, domain: Option<string>) returns (ok: bool)
    modifies list
    ensures ok <==> list != null && domain.Some? && |domain.value| <= MaxDomainLength
    ensures list != null ==> list.records == old(list.records) + (if ok then NewRecords([domain.value]) else [])
  {
    if list == null || domain.None? {
      return false;
    }
    if |domain.value| > MaxDomainLength {
      return false;
    }
    list.records := list.records + [Record(domain.value, None, None)];
    ok := true;
  }

  /**
   * dchk_AddnDomain: like dchk_AddDomain, but the record holds only the
   * first n characters of domain (all of it when it is shorter, and a
   * negative n converts to a huge size_t). The 512-character limit is checked
   * on the whole of domain, not on the part kept.
   */
  method AddnDomain(list: DomainList?, domain: Option<string>, n: int) returns (ok: bool)
    requires -0x8000_0000 <= n < 0x8000_0000
    modifies list
    ensures ok <==> list != null && domain.Some? && |domain.value| <= MaxDomainLength
    ensures list != null ==>
      list.records == old(list.records) + (if ok then NewRecords([domain.value[..Min(SizeT(n), |domain.value|)]]) else [])
  {
    if list == null || domain.None? {
      return false;
    }
    if |domain.value| > MaxDomainLength {
      return false;
    }
    var copy := Strndup(domain, SizeT(n));
    assert copy.value == domain.value[..Min(SizeT(n), |domain.value|)];
    list.records := list.records + [Record(copy.value, None, None)];
    ok := true;
  }

  // ---------------------------------------------------------------------
  // Splitting a string into domains

  /** One round of the outer loop of dchk_ExplodeDomain. */
  datatype Cut =
    | Piece(token: string, rest: string)  // a domain ended by a delimiter, and what follows it
    | Last(token: string)                 // the final domain
    | Done                                // nothing but delimiters was left
    | TooLong                             // the rest of the string exceeds 512 characters

  /** No occurrence of d anywhere in s. */
  ghost predicate NoDelimiter(s: string, d: string)
  {
    forall j :: !MatchAt(s, d, j)
  }

  /**
   * A round of dchk_ExplodeDomain: skip the delimiters at the front; then a
   * delimiter further on ends a domain, which dchk_AddnDomain accepts only if
   * the whole rest of the string is at most 512 characters long; without
   * one, the non-empty rest is the last domain.
   */
  function CutOf(s: string, d: string): (c: Cut)
    requires d != []
    ensures c.Piece? ==> |c.rest| < |s| && c.token != [] && |c.token| <= MaxDomainLength && NoDelimiter(c.token, d)
    ensures c.Last? ==> c.token != [] && |c.token| <= MaxDomainLength && NoDelimiter(c.token, d)
    decreases |s|
  {
    match Find(s, d)
    case Some(k) =>
      if k == 0 then CutOf(s[|d|..], d)
      else if |s| > MaxDomainLength then TooLong
      else
        NoMatchBeforeFirst(s, d, k);
        Piece(s[..k], s[k + |d|..])
    case None =>
      if s == [] then Done
      else if |s| > MaxDomainLength then TooLong
      else Last(s)
  }

  /** The domains dchk_ExplodeDomain adds, and whether it succeeds. */
  datatype Exploded = Exploded(tokens: seq<string>, ok: bool)

  /** dchk_ExplodeDomain on a non-empty string and delimiter: round after round until one ends it. */
  function Explode(s: string, d: string): Exploded
    requires d != []
    decreases |s|
  {
    match CutOf(s, d)
    case Piece(token, rest) =>
      var e := Explode(rest, d);
      Exploded([token] + e.tokens, e.ok)
    case Last(token) => Exploded([token], true)
    case Done => Exploded([], true)
    case TooLong => Exploded([], false)
  }

  /**
   * dchk_ExplodeDomain: adds the domains of s separated by d to the list, in
   * order, stopping at the first one that cannot be added; 0 for NULL or empty
   * arguments and on failure, 1 otherwise (not the number of domains added).
   */
  method ExplodeDomain(list: DomainList?, s: Option<string>, d: Option<string>) returns (ok: bool)
    modifies list
    ensures list == null || s.None? || d.None? || s.value == [] || d.value == [] ==>
      !ok && (list != null ==> list.records == old(list.records))
    ensures list != null && s.Some? && d.Some? && s.value != [] && d.value != [] ==>
      ok == Explode(s.value, d.value).ok &&
      list.records == old(list.records) + NewRecords(Explode(s.value, d.value).tokens)
  {
    if list == null || s.None? || d.None? {
      return false;
    }
    if |s.value| == 0 || |d.value| == 0 {
      return false;
    }
    ok := ExplodeRounds(list, s.value, d.value);
  }

  /** The domains of the rounds so far, then those of one more round, then the rest. */
  lemma {:induction false} ExplodeThen(s: string, d: string, str: string, added: seq<string>, round: seq<string>, rest: Exploded)
    requires d != []
    requires Explode(s, d) == Exploded(added + Explode(str, d).tokens, Explode(str, d).ok)
    requires Explode(str, d) == Exploded(round + rest.tokens, rest.ok)
    ensures Explode(s, d) == Exploded(added + round + rest.tokens, rest.ok)
  {
    SeqAssoc(added, round, rest.tokens);
  }

  lemma {:induction false} SeqAssoc<T>(a: seq<T>, b: seq<T>, c: seq<T>)
    ensures (a + b) + c == a + (b + c)
  {
  }

  /** The outer loop of dchk_ExplodeDomain, on a non-empty delimiter. */
  method ExplodeRounds(list: DomainList, s: string, delim: string) returns (ok: bool)
    requires delim != []
    modifies list
    ensures ok == Explode(s, delim).ok
    ensures list.records == old(list.records) + NewRecords(Explode(s, delim).tokens)
  {
    var str := s;
    ghost var base := list.records;
    ghost var added: seq<string> := [];
    while true
      invariant list.records == base + NewRecords(added)
      invariant Explode(s, delim) == Exploded(added + Explode(str, delim).tokens, Explode(str, delim).ok)
      decreases |str|
    {
      var more, next;
      ok, more, next, added := ExplodeStep(list, s, delim, str, base, added);
      if !ok || !more {
        return;
      }
      str := next;
    }
  }

  /** ExplodeRound with the bookkeeping of the loop around it: added is what all rounds so far added. */
  method ExplodeStep(list: DomainList, s: string, delim: string, str: string, ghost base: seq<Record>, ghost added: seq<string>)
    returns (ok: bool, more: bool, next: string, ghost added': seq<string>)
    requires delim != []
    requires list.records == base + NewRecords(added)
    requires Explode(s, delim) == Exploded(added + Explode(str, delim).tokens, Explode(str, delim).ok)
    modifies list
    ensures list.records == base + NewRecords(added')
    ensures !more ==> Explode(s, delim) == Exploded(added', ok)
    ensures more ==>
      ok && |next| < |str| && Explode(s, delim) == Exploded(added' + Explode(next, delim).tokens, Explode(next, delim).ok)
  {
    ghost var round;
    ghost var before := list.records;
    ok, more, next, round := ExplodeRound(list, str, delim);
    NewRecordsAppend(added, round);
    added' := added + round;
    assert list.records == before + NewRecords(round);
    SeqAssoc(base, NewRecords(added), NewRecords(round));
    if !ok {
      more := false;
      ExplodeThen(s, delim, str, added, round, Exploded([], false));
    } else if more {
      ExplodeThen(s, delim, str, added, round, Explode(next, delim));
    } else {
      ExplodeThen(s, delim, str, added, round, Exploded([], true));
    }
  }

  /**
   * One round of the outer loop of dchk_ExplodeDomain: skip delimiters, then
   * add the domain up to the next delimiter (more is true) or the last one;
   * round is what it added.
   */
  method ExplodeRound(list: DomainList, str: string, delim: string)
    returns (ok: bool, more: bool, next: string, ghost round: seq<string>)
    requires delim != []
    modifies list
    ensures list.records == old(list.records) + NewRecords(round)
    ensures !ok ==> round == [] && Explode(str, delim) == Exploded([], false)
    ensures ok && !more ==> Explode(str, delim) == Exploded(round, true)
    ensures ok && more ==>
      |next| < |str| && Explode(str, delim) == Exploded(round + Explode(next, delim).tokens, Explode(next, delim).ok)
  {
    ghost var cut := CutOf(str, delim);
    var t := SkipDelimiters(str, delim);
    var tokfind := Find(t, delim);
    if tokfind.Some? {
      var k := tokfind.value;
      ok := AddnDomain(list, Some(t), Int32(k));
      if !ok {
        assert cut.TooLong?;
        return false, false, t, [];
      }
      assert Min(SizeT(Int32(k)), |t|) == k;
      assert cut == Piece(t[..k], t[k + |delim|..]);
      return true, true, t[k + |delim|..], [t[..k]];
    }
    if |t| > 0 {
      ok := AddDomain(list, Some(t));
      if ok {
        assert cut == Last(t);
        return true, false, t, [t];
      }
      return false, false, t, [];
    }
    assert cut == Done;
    return true, false, t, [];
  }

  /** The inner loop of dchk_ExplodeDomain: steps over delimiters at the front of str. */
  method SkipDelimiters(str: string, delim: string) returns (t: string)
    requires delim != []
    ensures Find(t, delim) != Some(0) && CutOf(t, delim) == CutOf(str, delim)
  {
    t := str;
    while Find(t, delim) == Some(0)
      invariant CutOf(t, delim) == CutOf(str, delim)
      decreases |t|
    {
      t := t[|delim|..];
    }
  }

  /** No occurrence of pat lies inside the part of s before its first one. */
  lemma {:induction false} NoMatchBeforeFirst(s: string, pat: string, k: nat)
    requires pat != [] && Find(s, pat) == Some(k)
    ensures NoDelimiter(s[..k], pat)
  {
    forall j | MatchAt(s[..k], pat, j)
      ensures false
    {
      assert s[..k][j..j + |pat|] == s[j..j + |pat|];
      assert MatchAt(s, pat, j);
    }
  }

  /**
   * Every domain dchk_ExplodeDomain adds is non-empty, holds no delimiter
   * and is at most 512 characters long.
   */
  lemma {:induction false} ExplodedTokens(s: string, d: string)
    requires d != []
    ensures forall i :: 0 <= i < |Explode(s, d).tokens| ==>
      0 < |Explode(s, d).tokens[i]| <= MaxDomainLength && NoDelimiter(Explode(s, d).tokens[i], d)
    decreases |s|
  {
    match CutOf(s, d)
    case Piece(token, rest) =>
      ExplodedTokens(rest, d);
    case Last(token) =>
    case Done =>
    case TooLong =>
  }

  /** The domains joined with the delimiter between them. */
  function Join(tokens: seq<string>, d: string): string
  {
    if tokens == [] then []
    else if |tokens| == 1 then tokens[0]
    else tokens[0] + d + Join(tokens[1..], d)
  }

  /** In a + [c] + b, where a has no c, the first c is at |a|. */
  lemma {:induction false} FindChar(a: string, c: char, b: string)
    requires c !in a
    ensures Find(a + [c] + b, [c]) == Some(|a|)
  {
    var s := a + [c] + b;
    assert s[|a|..|a| + 1] == [c];
    assert MatchAt(s, [c], |a|);
    var r := Find(s, [c]);
    var k := r.value;
    assert s[k..k + 1] == [c];
    assert s[k] == c;
  }

  /** A string without c holds no occurrence of [c]. */
  lemma {:induction false} FindNoChar(a: string, c: char)
    requires c !in a
    ensures Find(a, [c]).None?
  {
    var r := Find(a, [c]);
    if r.Some? {
      MatchedChar(a, c, r.value);
    }
  }

  lemma {:induction false} MatchedChar(a: string, c: char, k: int)
    requires MatchAt(a, [c], k)
    ensures 0 <= k < |a| && a[k] == c
  {
    assert a[k..k + 1] == [c];
  }

  /**
   * Splitting at a one-character delimiter undoes joining with it, for
   * non-empty domains without that character whose joined form is at most
   * 512 characters long.
   */
  lemma {:induction false} ExplodeJoin(tokens: seq<string>, c: char)
    requires forall i :: 0 <= i < |tokens| ==> tokens[i] != [] && c !in tokens[i]
    requires |Join(tokens, [c])| <= MaxDomainLength
    ensures Explode(Join(tokens, [c]), [c]) == Exploded(tokens, true)
  {
    var s := Join(tokens, [c]);
    if tokens == [] {
      FindNoChar(s, c);
      assert CutOf(s, [c]) == Done;
    } else if |tokens| == 1 {
      FindNoChar(s, c);
      assert CutOf(s, [c]) == Last(s);
    } else {
      var t0 := tokens[0];
      var rest := Join(tokens[1..], [c]);
      assert s == t0 + [c] + rest;
      FindChar(t0, c, rest);
      assert s[..|t0|] == t0 && s[|t0| + 1..] == rest;
      assert CutOf(s, [c]) == Piece(t0, rest);
      ExplodeJoin(tokens[1..], c);
      assert [t0] + tokens[1..] == tokens;
    }
  }

  /**
   * The length limit applies to the rest of the string: "a," followed by 512
   * characters is refused at its first domain, although neither domain is
   * longer than 512 characters.
   */
  lemma {:induction false} LongRestRefused()
    ensures Explode("a," + seq(512, _ => 'b'), ",") == Exploded([], false)
  {
    var b := seq(512, _ => 'b');
    FindChar("a", ',', b);
    assert "a," + b == "a" + [','] + b;
  }

  // ---------------------------------------------------------------------
  // Escaping

  /** The replacement dchk_EscapeSpecialChars writes for a character, if it has one. */
  function Translation(c: char): Option<string>
  {
    if c == '&' then Some("&amp;")
    else if c == '"' then Some("&quot;")
    else if c == '\'' then Some("&#039t;")
    else if c == '<' then Some("&lt;")
    else if c == '>' then Some("&gt;")
    else None
  }

  function EscapeChar(c: char): (r: string)
    ensures 1 <= |r| <= 7
  {
    match Translation(c)
    case Some(t) => t
    case None => [c]
  }

  /** The escaped form of s: each character replaced by its translation, if it has one. */
  function Escape(s: string): (r: string)
    ensures |s| <= |r| <= 7 * |s|
  {
    if s == [] then [] else Escape(s[..|s| - 1]) + EscapeChar(s[|s| - 1])
  }

  lemma {:induction false} EscapeSnoc(s: string, c: char)
    ensures Escape(s + [c]) == Escape(s) + EscapeChar(c)
  {
    var t := s + [c];
    assert t[..|t| - 1] == s;
    assert t[|t| - 1] == c;
  }

  lemma {:induction false} EscapeAppend(a: string, b: string)
    ensures Escape(a + b) == Escape(a) + Escape(b)
    decreases |b|
  {
    if b != [] {
      var init, c := b[..|b| - 1], b[|b| - 1];
      assert b == init + [c];
      assert a + b == (a + init) + [c];
      calc {
        Escape(a + b);
        { EscapeSnoc(a + init, c); }
        Escape(a + init) + EscapeChar(c);
        { EscapeAppend(a, init); }
        (Escape(a) + Escape(init)) + EscapeChar(c);
        Escape(a) + (Escape(init) + EscapeChar(c));
        { EscapeSnoc(init, c); }
        Escape(a) + Escape(b);
      }
    } else {
      assert a + b == a;
    }
  }

  /** A character that cannot end an attribute value or open or close a tag. */
  predicate Inert(ch: char)
  {
    ch != '<' && ch != '>' && ch != '"' && ch != '\''
  }

  /** The escaped form holds no markup character and no quote. */
  lemma {:induction false} EscapeMarkupFree(s: string)
    ensures forall i :: 0 <= i < |Escape(s)| ==> Inert(Escape(s)[i])
  {
    if s != [] {
      EscapeMarkupFree(s[..|s| - 1]);
      var p := Escape(s[..|s| - 1]);
      var e := EscapeChar(s[|s| - 1]);
      assert forall i :: 0 <= i < |e| ==> Inert(e[i]);
      assert Escape(s) == p + e;
      forall i | 0 <= i < |p + e|
        ensures Inert((p + e)[i])
      {
        if i < |p| {
          assert (p + e)[i] == p[i];
        } else {
          assert (p + e)[i] == e[i - |p|];
        }
      }
    }
  }

  /** The character an entity at the front of e stands for, and the entity's length. */
  function Entity(e: string): Option<(char, nat)>
  {
    if StartsWith(e, "&amp;") then Some(('&', 5))
    else if StartsWith(e, "&quot;") then Some(('"', 6))
    else if StartsWith(e, "&#039t;") then Some(('\'', 7))
    else if StartsWith(e, "&lt;") then Some(('<', 4))
    else if StartsWith(e, "&gt;") then Some(('>', 4))
    else None
  }

  /** Reads the replacements back: the inverse of Escape. */
  function Unescape(e: string): string
    decreases |e|
  {
    if e == [] then []
    else match Entity(e)
      case Some((c, n)) => if n <= |e| then [c] + Unescape(e[n..]) else []
      case None => [e[0]] + Unescape(e[1..])
  }

  /** The replacement of c is the entity for c, and a character without one starts no entity. */
  lemma {:induction false} EntityOfEscapeChar(c: char, rest: string)
    ensures Translation(c).Some? ==> Entity(EscapeChar(c) + rest) == Some((c, |EscapeChar(c)|))
    ensures Translation(c).None? ==> Entity(EscapeChar(c) + rest).None?
  {
    var e := EscapeChar(c) + rest;
    if c == '&' {
      assert e[..5] == "&amp;";
    } else if c == '"' {
      assert e[..6] == "&quot;";
      assert e[1] == 'q' && "&amp;"[1] == 'a';
    } else if c == '\'' {
      assert e[..7] == "&#039t;";
      assert e[1] == '#' && "&amp;"[1] == 'a' && "&quot;"[1] == 'q';
    } else if c == '<' {
      assert e[..4] == "&lt;";
      assert e[1] == 'l' && "&amp;"[1] == 'a' && "&quot;"[1] == 'q' && "&#039t;"[1] == '#';
    } else if c == '>' {
      assert e[..4] == "&gt;";
      assert e[1] == 'g' && "&amp;"[1] == 'a' && "&quot;"[1] == 'q' && "&#039t;"[1] == '#' && "&lt;"[1] == 'l';
    } else {
      assert e[0] == c;
    }
  }

  lemma {:induction false} UnescapeChar(c: char, rest: string)
    ensures Unescape(EscapeChar(c) + rest) == [c] + Unescape(rest)
  {
    var e := EscapeChar(c) + rest;
    EntityOfEscapeChar(c, rest);
    assert e[|EscapeChar(c)|..] == rest;
    if Translation(c).None? {
      assert e[0] == c;
    }
  }

  /** Escaping loses nothing: unescaping gives back the domain name. */
  lemma {:induction false} UnescapeEscape(s: string)
    ensures Unescape(Escape(s)) == s
    decreases |s|
  {
    if s != [] {
      EscapeAppend([s[0]], s[1..]);
      assert [s[0]] + s[1..] == s;
      assert Escape([s[0]]) == EscapeChar(s[0]) by {
        assert [s[0]][..0] == [];
      }
      UnescapeChar(s[0], Escape(s[1..]));
      UnescapeEscape(s[1..]);
    }
  }

  /** The escaped form of a prefix is no longer than that of the whole. */
  lemma {:induction false} EscapePrefixShorter(s: string, j: nat)
    requires j <= |s|
    ensures |Escape(s[..j])| <= |Escape(s)|
  {
    var a, b := s[..j], s[j..];
    assert a + b == s;
    EscapeAppend(a, b);
    assert Escape(s) == Escape(a) + Escape(b);
  }

  /** strncpy of text into buffer at offset at. */
  method CopyInto(buffer: array<char>, at: nat, text: string)
    requires at + |text| <= buffer.Length
    modifies buffer
    ensures buffer[..at] == old(buffer[..at]) && buffer[at..at + |text|] == text
  {
    var j := 0;
    while j < |text|
      invariant 0 <= j <= |text|
      invariant buffer[..at] == old(buffer[..at]) && buffer[at..at + j] == text[..j]
    {
      buffer[at + j] := text[j];
      j := j + 1;
    }
  }

  /**
   * dchk_EscapeSpecialChars: writes the escaped string and its terminator
   * into buffer; fails for a NULL argument, a buffer size of 0, and when the
   * escaped form of a non-empty string does not leave room for the
   * terminator within buffersize characters.
   */
  method EscapeSpecialChars(s: Option<string>, buffer: array?<char>, buffersize: int) returns (ok: bool)
    requires buffer != null ==> 1 <= buffer.Length && buffersize <= buffer.Length
    modifies buffer
    ensures ok <==> s.Some? && buffer != null && buffersize != 0 && (s.value == [] || |Escape(s.value)| < buffersize)
    ensures ok ==>
      |Escape(s.value)| < buffer.Length && buffer[..|Escape(s.value)|] == Escape(s.value) && buffer[|Escape(s.value)|] == '\0'
  {
    if s.None? || buffer == null || buffersize == 0 {
      return false;
    }
    var str := s.value;
    var t := 0;
    var i := 0;
    while i < |str|
      invariant 0 <= i <= |str|
      invariant t == |Escape(str[..i])| && (i > 0 ==> t < buffersize)
      invariant buffer[..t] == Escape(str[..i])
    {
      var fits;
      fits, t := EscapeNext(buffer, str, i, t, buffersize);
      if !fits {
        return false;
      }
      i := i + 1;
    }
    assert str[..i] == str;
    buffer[t] := '\0';
    ok := true;
  }

  /** A turn of the loop of dchk_EscapeSpecialChars: character i escaped after the first i, or the whole escaped form does not fit. */
  method EscapeNext(buffer: array<char>, str: string, i: nat, t: nat, buffersize: int) returns (fits: bool, t': nat)
    requires i < |str| && buffersize <= buffer.Length
    requires t == |Escape(str[..i])| && (i > 0 ==> t < buffersize)
    requires t <= buffer.Length && buffer[..t] == Escape(str[..i])
    modifies buffer
    ensures fits ==> t' == |Escape(str[..i + 1])| && t' < buffersize && buffer[..t'] == Escape(str[..i + 1])
    ensures !fits ==> |Escape(str)| >= buffersize
  {
    assert str[..i + 1][..i] == str[..i];
    fits := PutEscaped(buffer, t, str[i], buffersize);
    t' := t;
    if !fits {
      EscapePrefixShorter(str, i + 1);
    } else {
      t' := t + |EscapeChar(str[i])|;
    }
  }

  /** One character of dchk_EscapeSpecialChars: its translation, or itself, at offset t if that leaves room for the terminator. */
  method PutEscaped(buffer: array<char>, t: nat, c: char, buffersize: int) returns (fits: bool)
    requires t <= buffer.Length && buffersize <= buffer.Length
    modifies buffer
    ensures fits <==> t + |EscapeChar(c)| < buffersize
    ensures fits ==> buffer[..t + |EscapeChar(c)|] == old(buffer[..t]) + EscapeChar(c)
    ensures !fits ==> buffer[..] == old(buffer[..])
  {
    var translate := Translation(c);
    if translate.Some? {
      var l := |translate.value|;
      fits := t + l < buffersize;
      if fits {
        CopyInto(buffer, t, translate.value);
        assert buffer[..t + l] == buffer[..t] + buffer[t..t + l];
      }
    } else {
      fits := t + 1 < buffersize;
      if fits {
        buffer[t] := c;
        assert buffer[..t + 1] == buffer[..t] + [c];
      }
    }
  }

  // ---------------------------------------------------------------------
  // Bundling a domain list into requests (dchk_QueryDomainList)

  /** The opening and closing tags of every request dchk_QueryDomainList builds. */
  const RequestOpen := "<iris1:request xmlns:iris1=\"urn:ietf:params:xml:ns:iris1\">"
  const RequestClose := "</iris1:request>"

  /** The room for a request payload, and for one escaped domain name. */
  const PayloadRoom := 5000
  const EscapeRoom := 1000

  /** The size reckoned for a request that would overflow the payload buffer. */
  const Oversized := 99999

  /** Whether the octet of c has its high bit set (a non-ASCII octet). */
  predicate HighBit(c: char)
  {
    ByteOfChar(c) >= 128
  }

  /** The two entity classes of the dchk1 registry type. */
  const IdnClass := "idn"
  const DomainNameClass := "domain-name"

  /** The entity class a domain is looked up as: "idn" when it holds a non-ASCII octet. */
  function EntityClass(d: string): (ec: string)
    ensures ec == IdnClass || ec == DomainNameClass
    ensures ec == IdnClass <==> exists i :: 0 <= i < |d| && HighBit(d[i])
  {
    if d == [] then DomainNameClass
    else if HighBit(d[0]) then IdnClass
    else
      var ec := EntityClass(d[1..]);
      assert forall i :: 1 <= i < |d| ==> d[i] == d[1..][i - 1];
      ec
  }

  /** The scan of dchk_QueryDomainList for a non-ASCII octet, stopping at the first. */
  method EntityClassOf(d: string) returns (ec: string)
    ensures ec == EntityClass(d)
  {
    ec := DomainNameClass;
    var i := 0;
    while i < |d|
      invariant 0 <= i <= |d|
      invariant forall j :: 0 <= j < i ==> !HighBit(d[j])
    {
      if HighBit(d[i]) {
        ec := IdnClass;
        break;
      }
      i := i + 1;
    }
  }

  /** The fixed text of a searchSet around its entity class and its escaped entity name. */
  const SearchSetHead := "<iris1:searchSet><iris1:lookupEntity registryType=\"dchk1\" entityClass=\""
  const SearchSetMiddle := "\" entityName=\""
  const SearchSetTail := "\"/></iris1:searchSet>"

  /** The searchSet looking up one escaped domain name in the dchk1 registry type. */
  function SearchSet(entityClass: string, escaped: string): string
  {
    SearchSetHead + entityClass + SearchSetMiddle + escaped + SearchSetTail
  }

  function SearchSetFor(d: string): string
  {
    SearchSet(EntityClass(d), Escape(d))
  }

  /** A searchSet is 106 characters besides the entity class and the escaped name. */
  lemma {:induction false} SearchSetLength(d: string)
    ensures |SearchSetFor(d)| == 106 + |EntityClass(d)| + |Escape(d)|
    ensures |Escape(d)| < EscapeRoom ==> |SearchSetFor(d)| <= 1116
  {
  }

  /** The searchSets of names[lo..hi], in list order. */
  function SearchSets(names: seq<string>, lo: nat, hi: nat): string
    requires lo <= hi <= |names|
    decreases hi
  {
    if lo == hi then [] else SearchSets(names, lo, hi - 1) + SearchSetFor(names[hi - 1])
  }

  lemma {:induction false} SearchSetsSnoc(names: seq<string>, lo: nat, hi: nat)
    requires lo <= hi < |names|
    ensures SearchSets(names, lo, hi + 1) == SearchSets(names, lo, hi) + SearchSetFor(names[hi])
  {
  }

  /**
   * What the bundling depends on: whether requests are sent compressed (and
   * in which format), the compressor, and the cap on domains per request
   * (0 for none).
   */
  datatype Config = Config(deflated: bool, rfc1950: int, deflate: (bool, seq<byte>, nat) -> Option<seq<byte>>, max: nat)

  /** The settings of a handle, with a negative cap taken as no cap. */
  function ConfigOf(h: Handle, env: Env, maxDomains: int): (cfg: Config)
    reads h
    ensures cfg.max == (if maxDomains < 0 then 0 else maxDomains)
    ensures cfg.deflated <==> h.sendDeflated != 0
  {
    Config(h.sendDeflated != 0, h.rfc1950Workaround as int, env.deflate, if maxDomains < 0 then 0 else maxDomains)
  }

  /** The compressor never produces more than the room it is given. */
  ghost predicate DeflateBounded(cfg: Config)
  {
    forall r, d, c :: cfg.deflate(r, d, c).Some? ==> |cfg.deflate(r, d, c).value| <= c
  }

  /** The size a request text counts for: its compressed size when sending compressed (0 when that fails). */
  function MeasuredLength(cfg: Config, text: string): (n: nat)
    ensures !cfg.deflated ==> n == |text|
  {
    if cfg.deflated then GetCompressedSize(cfg.deflate, Some(BytesOf(text)), |text|, cfg.rfc1950) else |text|
  }

  lemma {:induction false} MeasuredLengthBound(cfg: Config, text: string)
    requires DeflateBounded(cfg)
    ensures MeasuredLength(cfg, text) <= |text| + 64
  {
  }

  /**
   * The size reckoned for the request body followed by ss and the closing
   * tag; Oversized when that would not fit the payload buffer with its
   * terminator.
   */
  function ProspectiveLength(cfg: Config, body: string, ss: string): nat
  {
    if |body| + |ss| + |RequestClose| + 1 >= PayloadRoom then Oversized
    else MeasuredLength(cfg, body + ss + RequestClose)
  }

  /** Whether a request of count domains still takes one more of prospective size newlen. */
  predicate Admits(cfg: Config, count: nat, newlen: nat)
  {
    newlen < PayloadRoom && (count < cfg.max || cfg.max == 0)
  }

  /** Where a run of count domains from the start-th one ends. */
  function EndOf(start: nat, count: nat): nat
  {
    start + count
  }

  /** The request being filled: domains names[start..start + count] with their searchSets in body. */
  datatype Pending = Pending(start: nat, count: nat, body: string)

  /** A request sent: domains names[start..start + count], and its payload. */
  datatype Batch = Batch(start: nat, count: nat, payload: string)

  /** What one domain does to the request being filled. */
  datatype Step =
    | Continue(next: Pending, dispatch: Option<Batch>)   // the request to fill next, and one to send first
    | Abort(code: int)                                   // the error the bundling stops with

  /**
   * One round of dchk_QueryDomainList for the k-th domain d: 74106 when its
   * escaped form does not fit 1000 characters; 74039 when compressing the
   * prospective request fails; otherwise d joins the request if that stays
   * under 5000 octets and under the cap, and else the request is sent
   * without it and a new one starts with d alone.
   */
  function StepFor(cfg: Config, p: Pending, k: nat, d: string): Step
  {
    if |Escape(d)| >= EscapeRoom then Abort(74106)
    else
      var ss := SearchSetFor(d);
      var newlen := ProspectiveLength(cfg, p.body, ss);
      if newlen != Oversized && cfg.deflated && newlen == 0 then Abort(74039)
      else if Admits(cfg, p.count, newlen) then Continue(Pending(p.start, p.count + 1, p.body + ss), None)
      else Continue(Pending(k, 1, RequestOpen + ss), Some(Batch(p.start, p.count, p.body + RequestClose)))
  }

  /** The requests a round sends. */
  function Sent(dispatch: Option<Batch>): (r: seq<Batch>)
    ensures dispatch.Some? ==> r == [dispatch.value]
    ensures dispatch.None? ==> r == []
  {
    if dispatch.Some? then [dispatch.value] else []
  }

  /** The requests sent while bundling, and the error it stops with, if any. */
  datatype PlanResult = PlanResult(batches: seq<Batch>, abort: Option<int>)

  /** The bundling of names[k..], with request p being filled; the last request is sent if it holds a domain. */
  function Plan(cfg: Config, names: seq<string>, p: Pending, k: nat): PlanResult
    requires k <= |names|
    decreases |names| - k
  {
    if k == |names| then
      PlanResult(if p.count > 0 then [Batch(p.start, p.count, p.body + RequestClose)] else [], None)
    else
      match StepFor(cfg, p, k, names[k])
      case Abort(code) => PlanResult([], Some(code))
      case Continue(next, dispatch) =>
        var rest := Plan(cfg, names, next, k + 1);
        PlanResult(Sent(dispatch) + rest.batches, rest.abort)
  }

  const Start := Pending(0, 0, RequestOpen)

  /** The requests dchk_QueryDomainList sends for names, and the error it stops with. */
  function Batches(cfg: Config, names: seq<string>): PlanResult
  {
    Plan(cfg, names, Start, 0)
  }

  /** The request being filled before the k-th domain. */
  ghost predicate PendingOk(cfg: Config, names: seq<string>, p: Pending, k: nat)
  {
    k <= |names| && EndOf(p.start, p.count) == k && (k > 0 ==> p.count >= 1) &&
    (cfg.max > 0 ==> p.count <= cfg.max) &&
    p.body == RequestOpen + SearchSets(names, p.start, k) &&
    |p.body| + |RequestClose| + 1 < PayloadRoom &&
    (p.count >= 2 ==> MeasuredLength(cfg, p.body + RequestClose) < PayloadRoom)
  }

  /**
   * A request sent: a non-empty run of the list, within the cap, holding the
   * searchSets of its domains in list order, shorter than 5000 characters,
   * measured under 5000 octets when it holds several domains, and closed only
   * because the next domain would not have been taken.
   */
  ghost predicate BatchOk(cfg: Config, names: seq<string>, b: Batch)
  {
    1 <= b.count && EndOf(b.start, b.count) <= |names| &&
    (cfg.max > 0 ==> b.count <= cfg.max) &&
    b.payload == RequestOpen + SearchSets(names, b.start, EndOf(b.start, b.count)) + RequestClose &&
    |b.payload| < PayloadRoom &&
    (b.count >= 2 ==> MeasuredLength(cfg, b.payload) < PayloadRoom) &&
    (EndOf(b.start, b.count) < |names| ==>
      !Admits(cfg, b.count, ProspectiveLength(cfg, RequestOpen + SearchSets(names, b.start, EndOf(b.start, b.count)), SearchSetFor(names[EndOf(b.start, b.count)]))))
  }

  /** Each batch starts where the one before it ends; the first at from. */
  ghost predicate Consecutive(bs: seq<Batch>, from: nat)
  {
    (|bs| > 0 ==> bs[0].start == from) &&
    forall j :: 1 <= j < |bs| ==> bs[j].start == EndOf(bs[j - 1].start, bs[j - 1].count)
  }

  /** Where a run of batches starting at from ends. */
  function RunEnd(bs: seq<Batch>, from: nat): nat
  {
    if bs == [] then from else EndOf(bs[|bs| - 1].start, bs[|bs| - 1].count)
  }

  /** One round keeps the request being filled well formed, and a request it sends is well formed. */
  lemma {:induction false} StepOk(cfg: Config, names: seq<string>, p: Pending, k: nat)
    requires DeflateBounded(cfg) && PendingOk(cfg, names, p, k) && k < |names|
    ensures match StepFor(cfg, p, k, names[k])
      case Abort(code) =>
        (code == 74106 && |Escape(names[k])| >= EscapeRoom) ||
        (code == 74039 && cfg.deflated && |Escape(names[k])| < EscapeRoom)
      case Continue(next, dispatch) =>
        PendingOk(cfg, names, next, k + 1) &&
        (dispatch.None? ==> next.start == p.start) &&
        (dispatch.Some? ==>
          dispatch.value.start == p.start && EndOf(dispatch.value.start, dispatch.value.count) == k == next.start &&
          BatchOk(cfg, names, dispatch.value))
  {
    var d := names[k];
    if |Escape(d)| < EscapeRoom {
      var newlen := ProspectiveLength(cfg, p.body, SearchSetFor(d));
      if newlen != Oversized && cfg.deflated && newlen == 0 {
      } else if Admits(cfg, p.count, newlen) {
        TakenStep(cfg, names, p, k);
      } else {
        RefusedStep(cfg, names, p, k);
      }
    }
  }

  /** StepOk when the k-th domain joins the request. */
  lemma {:induction false} TakenStep(cfg: Config, names: seq<string>, p: Pending, k: nat)
    requires DeflateBounded(cfg) && PendingOk(cfg, names, p, k) && k < |names|
    requires |Escape(names[k])| < EscapeRoom
    requires Admits(cfg, p.count, ProspectiveLength(cfg, p.body, SearchSetFor(names[k])))
    requires !cfg.deflated || ProspectiveLength(cfg, p.body, SearchSetFor(names[k])) != 0
    ensures match StepFor(cfg, p, k, names[k])
      case Abort(code) =>
        (code == 74106 && |Escape(names[k])| >= EscapeRoom) ||
        (code == 74039 && cfg.deflated && |Escape(names[k])| < EscapeRoom)
      case Continue(next, dispatch) =>
        PendingOk(cfg, names, next, k + 1) &&
        (dispatch.None? ==> next.start == p.start) &&
        (dispatch.Some? ==>
          dispatch.value.start == p.start && EndOf(dispatch.value.start, dispatch.value.count) == k == next.start &&
          BatchOk(cfg, names, dispatch.value))
  {
    Taken(cfg, names, p, k);
    assert StepFor(cfg, p, k, names[k]) == Continue(Pending(p.start, p.count + 1, p.body + SearchSetFor(names[k])), None);
  }

  /** StepOk when the k-th domain does not fit and the request is sent. */
  lemma {:induction false} RefusedStep(cfg: Config, names: seq<string>, p: Pending, k: nat)
    requires DeflateBounded(cfg) && PendingOk(cfg, names, p, k) && k < |names|
    requires |Escape(names[k])| < EscapeRoom
    requires !Admits(cfg, p.count, ProspectiveLength(cfg, p.body, SearchSetFor(names[k])))
    ensures match StepFor(cfg, p, k, names[k])
      case Abort(code) =>
        (code == 74106 && |Escape(names[k])| >= EscapeRoom) ||
        (code == 74039 && cfg.deflated && |Escape(names[k])| < EscapeRoom)
      case Continue(next, dispatch) =>
        PendingOk(cfg, names, next, k + 1) &&
        (dispatch.None? ==> next.start == p.start) &&
        (dispatch.Some? ==>
          dispatch.value.start == p.start && EndOf(dispatch.value.start, dispatch.value.count) == k == next.start &&
          BatchOk(cfg, names, dispatch.value))
  {
    Refused(cfg, names, p, k);
  }

  /** A domain the request takes leaves it well formed. */
  lemma {:induction false} Taken(cfg: Config, names: seq<string>, p: Pending, k: nat)
    requires DeflateBounded(cfg) && PendingOk(cfg, names, p, k) && k < |names|
    requires |Escape(names[k])| < EscapeRoom
    requires Admits(cfg, p.count, ProspectiveLength(cfg, p.body, SearchSetFor(names[k])))
    ensures PendingOk(cfg, names, Pending(p.start, p.count + 1, p.body + SearchSetFor(names[k])), k + 1)
  {
    SearchSetsSnoc(names, p.start, k);
    SeqAssoc(RequestOpen, SearchSets(names, p.start, k), SearchSetFor(names[k]));
  }

  /** The empty request of the first round always takes the first domain. */
  lemma {:induction false} FirstTaken(cfg: Config, names: seq<string>, p: Pending, k: nat)
    requires DeflateBounded(cfg) && PendingOk(cfg, names, p, k) && k < |names|
    requires |Escape(names[k])| < EscapeRoom && p.count == 0
    ensures Admits(cfg, p.count, ProspectiveLength(cfg, p.body, SearchSetFor(names[k])))
  {
    var ss := SearchSetFor(names[k]);
    SearchSetLength(names[k]);
    assert p.body == RequestOpen;
    MeasuredLengthBound(cfg, p.body + ss + RequestClose);
  }

  /** A domain the request does not take: the request is sent as it is, and a new one holds the domain alone. */
  lemma {:induction false} Refused(cfg: Config, names: seq<string>, p: Pending, k: nat)
    requires DeflateBounded(cfg) && PendingOk(cfg, names, p, k) && k < |names|
    requires |Escape(names[k])| < EscapeRoom
    requires !Admits(cfg, p.count, ProspectiveLength(cfg, p.body, SearchSetFor(names[k])))
    ensures PendingOk(cfg, names, Pending(k, 1, RequestOpen + SearchSetFor(names[k])), k + 1)
    ensures BatchOk(cfg, names, Batch(p.start, p.count, p.body + RequestClose))
  {
    if p.count == 0 {
      FirstTaken(cfg, names, p, k);
      assert false;
    }
    SentBatchOk(cfg, names, p, k);
    Alone(cfg, names, k);
  }

  /** The request sent because the k-th domain does not fit is well formed. */
  lemma {:induction false} SentBatchOk(cfg: Config, names: seq<string>, p: Pending, k: nat)
    requires PendingOk(cfg, names, p, k) && k < |names| && p.count >= 1
    requires !Admits(cfg, p.count, ProspectiveLength(cfg, p.body, SearchSetFor(names[k])))
    ensures BatchOk(cfg, names, Batch(p.start, p.count, p.body + RequestClose))
  {
  }

  /** A new request holding the k-th domain alone is well formed. */
  lemma {:induction false} Alone(cfg: Config, names: seq<string>, k: nat)
    requires k < |names| && |Escape(names[k])| < EscapeRoom
    ensures PendingOk(cfg, names, Pending(k, 1, RequestOpen + SearchSetFor(names[k])), k + 1)
  {
    var ss := SearchSetFor(names[k]);
    SearchSetLength(names[k]);
    SearchSetsSnoc(names, k, k);
    assert SearchSets(names, k, k + 1) == ss;
    assert |RequestOpen + ss| == |RequestOpen| + |ss|;
  }

  /** At the end of the list, the request being filled is sent if it holds a domain. */
  lemma {:induction false} LastPlan(cfg: Config, names: seq<string>, p: Pending)
    requires EndOf(p.start, p.count) == |names|
    ensures var r := Plan(cfg, names, p, |names|);
      r.abort.None? && RunEnd(r.batches, p.start) == |names| && Consecutive(r.batches, p.start)
  {
  }

  /** The last request sent, the one being filled at the end of the list, is well formed. */
  lemma {:induction false} LastBatchOk(cfg: Config, names: seq<string>, p: Pending)
    requires PendingOk(cfg, names, p, |names|)
    ensures AllOk(cfg, names, Plan(cfg, names, p, |names|).batches)
  {
    if p.count > 0 {
      var b := Batch(p.start, p.count, p.body + RequestClose);
      ClosedBatchOk(cfg, names, p);
      assert Plan(cfg, names, p, |names|).batches == [b];
      assert [b][1..] == [];
    }
  }

  /** The request being filled at the end of the list, closed, is well formed once it holds a domain. */
  lemma {:induction false} ClosedBatchOk(cfg: Config, names: seq<string>, p: Pending)
    requires PendingOk(cfg, names, p, |names|) && p.count > 0
    ensures BatchOk(cfg, names, Batch(p.start, p.count, p.body + RequestClose))
  {
  }

  /** A round that goes on: the request it sends, if any, then those of the rounds after it. */
  lemma {:induction false} PlanContinue(cfg: Config, names: seq<string>, p: Pending, k: nat, next: Pending, dispatch: Option<Batch>)
    requires k < |names| && StepFor(cfg, p, k, names[k]) == Continue(next, dispatch)
    ensures Plan(cfg, names, p, k) ==
      PlanResult(Sent(dispatch) + Plan(cfg, names, next, k + 1).batches, Plan(cfg, names, next, k + 1).abort)
  {
  }

  lemma {:induction false} ConsecutivePrepend(b: Batch, rest: seq<Batch>, from: nat)
    requires b.start == from && Consecutive(rest, EndOf(b.start, b.count))
    ensures Consecutive([b] + rest, from)
    ensures RunEnd([b] + rest, from) == RunEnd(rest, EndOf(b.start, b.count))
  {
    var bs := [b] + rest;
    forall j | 1 <= j < |bs|
      ensures bs[j].start == EndOf(bs[j - 1].start, bs[j - 1].count)
    {
      assert bs[j] == rest[j - 1];
      if j >= 2 {
        assert bs[j - 1] == rest[j - 2];
      } else {
        assert rest[0].start == EndOf(b.start, b.count);
      }
    }
  }

  /** Every request of bs is well formed. */
  ghost predicate AllOk(cfg: Config, names: seq<string>, bs: seq<Batch>)
  {
    bs == [] || (BatchOk(cfg, names, bs[0]) && AllOk(cfg, names, bs[1..]))
  }

  lemma {:induction false} AllOkEach(cfg: Config, names: seq<string>, bs: seq<Batch>)
    requires AllOk(cfg, names, bs)
    ensures forall i :: 0 <= i < |bs| ==> BatchOk(cfg, names, bs[i])
  {
    if bs != [] {
      var rest := bs[1..];
      AllOkEach(cfg, names, rest);
      assert forall i :: 1 <= i < |bs| ==> bs[i] == rest[i - 1];
    }
  }

  lemma {:induction false} AllOkPrepend(cfg: Config, names: seq<string>, dispatch: Option<Batch>, rest: seq<Batch>)
    requires dispatch.Some? ==> BatchOk(cfg, names, dispatch.value)
    requires AllOk(cfg, names, rest)
    ensures AllOk(cfg, names, Sent(dispatch) + rest)
  {
    if dispatch.Some? {
      assert ([dispatch.value] + rest)[1..] == rest;
    } else {
      assert [] + rest == rest;
    }
  }

  /** Bundling from a well-formed request sends only well-formed requests. */
  lemma {:induction false} PlanSends(cfg: Config, names: seq<string>, p: Pending, k: nat)
    requires DeflateBounded(cfg) && PendingOk(cfg, names, p, k)
    ensures AllOk(cfg, names, Plan(cfg, names, p, k).batches)
    decreases |names| - k
  {
    if k == |names| {
      LastBatchOk(cfg, names, p);
    } else {
      StepOk(cfg, names, p, k);
      match StepFor(cfg, p, k, names[k])
      case Abort(code) =>
        assert Plan(cfg, names, p, k) == PlanResult([], Some(code));
      case Continue(next, dispatch) =>
        PlanSends(cfg, names, next, k + 1);
        PlanContinue(cfg, names, p, k, next, dispatch);
        AllOkPrepend(cfg, names, dispatch, Plan(cfg, names, next, k + 1).batches);
    }
  }

  /**
   * The requests sent from a well-formed request are consecutive runs of the
   * list from where that request starts; they reach the end of the list
   * unless the bundling stops with an error.
   */
  lemma {:induction false} PlanRuns(cfg: Config, names: seq<string>, p: Pending, k: nat)
    requires EndOf(p.start, p.count) == k <= |names|
    ensures var r := Plan(cfg, names, p, k);
      Consecutive(r.batches, p.start) &&
      (r.abort.None? ==> RunEnd(r.batches, p.start) == |names|) &&
      (r.abort.Some? ==> RunEnd(r.batches, p.start) < |names|)
    decreases |names| - k
  {
    if k == |names| {
      LastPlan(cfg, names, p);
    } else {
      match StepFor(cfg, p, k, names[k])
      case Abort(code) =>
        assert Plan(cfg, names, p, k) == PlanResult([], Some(code));
      case Continue(next, dispatch) =>
        StepRuns(cfg, p, k, names[k]);
        PlanRuns(cfg, names, next, k + 1);
        PlanContinue(cfg, names, p, k, next, dispatch);
        var rest := Plan(cfg, names, next, k + 1);
        if dispatch.Some? {
          assert Sent(dispatch) == [dispatch.value];
          ConsecutivePrepend(dispatch.value, rest.batches, p.start);
        } else {
          assert Sent(dispatch) + rest.batches == rest.batches;
        }
    }
  }

  /** A round that goes on covers domain k: the request it sends ends before k, the next one ends after it. */
  lemma {:induction false} StepRuns(cfg: Config, p: Pending, k: nat, d: string)
    requires EndOf(p.start, p.count) == k
    ensures match StepFor(cfg, p, k, d)
      case Abort(_) => true
      case Continue(next, dispatch) =>
        EndOf(next.start, next.count) == k + 1 &&
        (dispatch.None? ==> next.start == p.start) &&
        (dispatch.Some? ==> dispatch.value.start == p.start && EndOf(dispatch.value.start, dispatch.value.count) == k == next.start)
  {
  }

  /**
   * Bundling stops only with 74106, for a domain whose escaped form is too
   * long, or with 74039 when compressing.
   */
  lemma {:induction false} PlanStops(cfg: Config, names: seq<string>, p: Pending, k: nat)
    requires DeflateBounded(cfg) && PendingOk(cfg, names, p, k)
    ensures var r := Plan(cfg, names, p, k);
      (r.abort == Some(74106) ==> exists i :: k <= i < |names| && |Escape(names[i])| >= EscapeRoom) &&
      (r.abort.Some? ==> r.abort == Some(74106) || (r.abort == Some(74039) && cfg.deflated))
    decreases |names| - k
  {
    if k < |names| {
      StepOk(cfg, names, p, k);
      match StepFor(cfg, p, k, names[k])
      case Abort(code) =>
        assert Plan(cfg, names, p, k) == PlanResult([], Some(code));
      case Continue(next, dispatch) =>
        PlanStops(cfg, names, next, k + 1);
        PlanContinue(cfg, names, p, k, next, dispatch);
    }
  }

  /**
   * What dchk_QueryDomainList sends for a list: consecutive runs of the list
   * from its first domain, each well formed; all of the list unless it stops
   * with 74106 or 74039.
   */
  lemma {:induction false} BatchesOk(cfg: Config, names: seq<string>)
    requires DeflateBounded(cfg)
    ensures var r := Batches(cfg, names);
      AllOk(cfg, names, r.batches) &&
      Consecutive(r.batches, 0) &&
      (r.abort.None? ==> RunEnd(r.batches, 0) == |names|) &&
      (r.abort.Some? ==> RunEnd(r.batches, 0) < |names|) &&
      (r.abort.Some? ==> r.abort == Some(74106) || (r.abort == Some(74039) && cfg.deflated))
  {
    assert RequestOpen + SearchSets(names, 0, 0) == RequestOpen;
    PlanSends(cfg, names, Start, 0);
    PlanRuns(cfg, names, Start, 0);
    PlanStops(cfg, names, Start, 0);
  }

  /** Without compression the bundling stops only for a domain whose escaped form is too long. */
  lemma {:induction false} BatchesComplete(cfg: Config, names: seq<string>)
    requires DeflateBounded(cfg) && !cfg.deflated
    requires forall i :: 0 <= i < |names| ==> |Escape(names[i])| < EscapeRoom
    ensures Batches(cfg, names).abort.None?
  {
    assert RequestOpen + SearchSets(names, 0, 0) == RequestOpen;
    PlanStops(cfg, names, Start, 0);
  }

  // ---------------------------------------------------------------------
  // Sending the requests and reading the answers back

  /** a with a[lo..hi] replaced by mid. */
  function Spliced<T>(a: seq<T>, lo: nat, hi: nat, mid: seq<T>): (r: seq<T>)
    requires lo <= hi <= |a| && |mid| == hi - lo
    ensures |r| == |a|
    ensures forall i :: 0 <= i < |a| ==> r[i] == if lo <= i < hi then mid[i - lo] else a[i]
  {
    a[..lo] + mid + a[hi..]
  }

  /**
   * The list after the answer doc to request b: the records of b get their
   * answers, and the others stay as they are.
   */
  function ApplyBatch(rs: seq<Record>, b: Batch, doc: Document): (r: seq<Record>)
    ensures |r| == |rs|
    ensures forall i :: 0 <= i < |rs| ==> r[i].domain == rs[i].domain
  {
    if b.start + b.count > |rs| then rs
    else Spliced(rs, b.start, b.start + b.count, Answered(doc, rs[b.start..b.start + b.count]))
  }

  lemma {:induction false} ApplyBatchSplices(rs: seq<Record>, b: Batch, doc: Document)
    requires b.start + b.count <= |rs|
    ensures ApplyBatch(rs, b, doc) == Spliced(rs, b.start, b.start + b.count, Answered(doc, rs[b.start..b.start + b.count]))
  {
  }

  lemma {:induction false} ApplyBatchEach(rs: seq<Record>, b: Batch, doc: Document)
    ensures forall i :: 0 <= i < |rs| && !(b.start <= i < b.start + b.count) ==> ApplyBatch(rs, b, doc)[i] == rs[i]
    ensures b.start + b.count <= |rs| ==> forall i :: b.start <= i < b.start + b.count ==>
      ApplyBatch(rs, b, doc)[i] == ResultFor(doc, i - b.start + 1, rs[i])
  {
    if b.start + b.count <= |rs| {
      var batch := rs[b.start..b.start + b.count];
      var mid := Answered(doc, batch);
      ApplyBatchSplices(rs, b, doc);
      var r := ApplyBatch(rs, b, doc);
      forall i | b.start <= i < b.start + b.count
        ensures r[i] == ResultFor(doc, i - b.start + 1, rs[i])
      {
        var k := i - b.start;
        assert r[i] == mid[k];
        assert mid[k] == ResultFor(doc, k + 1, batch[k]);
        assert batch[k] == rs[i];
      }
      forall i | 0 <= i < |rs| && !(b.start <= i < b.start + b.count)
        ensures r[i] == rs[i]
      {
      }
    }
  }

  /** The list after the answers docs to the requests bs, in order. */
  function Applied(rs: seq<Record>, bs: seq<Batch>, docs: seq<Document>): (r: seq<Record>)
    requires |bs| == |docs|
    ensures |r| == |rs|
  {
    if bs == [] then rs
    else ApplyBatch(Applied(rs, bs[..|bs| - 1], docs[..|docs| - 1]), bs[|bs| - 1], docs[|docs| - 1])
  }

  /** Answers change the status and update time of records, never their domain names. */
  lemma {:induction false} AppliedKeepsNames(rs: seq<Record>, bs: seq<Batch>, docs: seq<Document>)
    requires |bs| == |docs|
    ensures Names(Applied(rs, bs, docs)) == Names(rs)
  {
    if bs != [] {
      AppliedKeepsNames(rs, bs[..|bs| - 1], docs[..|docs| - 1]);
    }
  }

  lemma {:induction false} AppliedSnoc(rs: seq<Record>, bs: seq<Batch>, docs: seq<Document>, b: Batch, doc: Document)
    requires |bs| == |docs|
    ensures Applied(rs, bs + [b], docs + [doc]) == ApplyBatch(Applied(rs, bs, docs), b, doc)
  {
    assert (bs + [b])[..|bs|] == bs;
    assert (docs + [doc])[..|docs|] == docs;
  }

  /**
   * dchk_DoQuery: sends the request payload and, if the server answers with
   * an XML payload that parses, gives every record of batch the answer of
   * its resultSet. The ghost step says how far it got: 0 when
   * irislwz_Query failed, 1 when irislwz_CheckResponse refused the answer,
   * 2 when dchk_XML_ParseResult read it.
   */
  method DoQuery(h: Handle, env: Env, batch: seq<Record>, payload: string)
    returns (ok: bool, updated: seq<Record>, ghost doc: Document, ghost step: nat)
    requires EnvOk(env) && h.Valid()
    modifies h`error, h`errorText, h`draws, h.request, h.response
    ensures h.Valid()
    ensures step <= 2 && (ok ==> step == 2)
    ensures ok ==> env.parse(h.response.UncompressedText()) == Some(doc) && updated == Answered(doc, batch)
    ensures ok ==> h.response.packet.Some? && |h.response.packet.value| > 3 && PayloadType(h.response.packet.value[0]) <= 1
    ensures !ok ==> updated == batch
    // the request that irislwz_Query stages
    ensures UpToNul(BytesOf(payload)) == [] ==> (step == 0 &&
      (old(h.initialized) ==> h.error == 74025 && h.errorText == Some(Query2BytesText)))
    ensures UpToNul(BytesOf(payload)) != [] ==> h.request.uncompressed == Some(UpToNul(BytesOf(payload)) + [0])
    // step 0: the outcome of the exchange
    ensures step == 0 && UpToNul(BytesOf(payload)) != [] && old(Sendable(h, env, BytesOf(payload), |UpToNul(BytesOf(payload))|)) ==>
      (!old(h.connected) ==> old(h.initialized) ==> h.error == 74032 && h.errorText.None?) &&
      (old(h.connected) ==> h.request.packet.Some? && |h.request.packet.value| >= 6 && Talked(h, env, false))
    // steps 1 and 2: an answer that parsed as XML came back
    ensures step >= 1 ==> (h.response.packet.Some? && |h.response.packet.value| > 3 &&
      env.parse(UpToNul(h.response.UncompressedText())).Some?)
    ensures step == 1 ==> PayloadType(h.response.packet.value[0]) >= 2 && (old(h.initialized) ==> RefusalError(h, env))
    ensures step == 2 ==> (PayloadType(h.response.packet.value[0]) <= 1 &&
      (ok <==> env.parse(h.response.UncompressedText()).Some?) &&
      (!ok && old(h.initialized) ==> h.error == 74014))
  {
    doc := [];
    step := 0;
    ok := Query(h, env, Some(BytesOf(payload)));
    if !ok {
      return false, batch, doc, 0;
    }
    step := 1;
    var checked := CheckResponse(h, env);
    if checked == 0 {
      return false, batch, doc, 1;
    }
    step := 2;
    ok, updated := ParseResult(h, env.parse, h.response.UncompressedText(), batch);
    if ok {
      doc := env.parse(h.response.UncompressedText()).value;
    }
  }

  /** dchk_DoQuery on the records of request b, written back into the list. */
  method Dispatch(h: Handle, env: Env, list: DomainList, b: Batch) returns (ok: bool, ghost doc: Document)
    requires EnvOk(env) && h.Valid()
    requires b.start + b.count <= |list.records|
    modifies list, h`error, h`errorText, h`draws, h.request, h.response
    ensures h.Valid()
    ensures list.records == if ok then ApplyBatch(old(list.records), b, doc) else old(list.records)
  {
    var batch := list.records[b.start..b.start + b.count];
    var updated;
    ghost var step;
    ok, updated, doc, step := DoQuery(h, env, batch, b.payload);
    if ok {
      ApplyBatchSplices(list.records, b, doc);
      list.records := Spliced(list.records, b.start, b.start + b.count, updated);
    }
  }

  /**
   * One round of dchk_QueryDomainList for the k-th domain d: escapes d into
   * a buffer of 1000 characters, builds its searchSet and sizes the request
   * with it; sets the error the bundling stops with.
   */
  method ProcessDomain(h: Handle, env: Env, max: nat, p: Pending, k: nat, d: string) returns (st: Step)
    requires h.Valid()
    modifies h`error, h`errorText
    ensures h.Valid()
    ensures st == StepFor(ConfigOf(h, env, max), p, k, d)
    ensures st.Abort? && old(h.initialized) ==> h.error == st.code && h.errorText.None?
    ensures st.Continue? ==> h.error == old(h.error) && h.errorText == old(h.errorText)
  {
    var entityClass := EntityClassOf(d);
    var escaped := new char[EscapeRoom];
    var fits := EscapeSpecialChars(Some(d), escaped, EscapeRoom);
    if !fits {
      SetError(h, 74106, None);
      return Abort(74106);
    }
    var searchSet := SearchSet(entityClass, escaped[..|Escape(d)|]);
    var newlen;
    if |p.body| + |searchSet| + |RequestClose| + 1 >= PayloadRoom {
      newlen := Oversized;
    } else {
      var text := p.body + searchSet + RequestClose;
      newlen := |text|;
      if h.sendDeflated != 0 {
        newlen := GetCompressedSize(env.deflate, Some(BytesOf(text)), newlen, h.rfc1950Workaround as int);
        if newlen == 0 {
          SetError(h, 74039, None);
          return Abort(74039);
        }
      }
    }
    if newlen < PayloadRoom && (p.count < max || max == 0) {
      st := Continue(Pending(p.start, p.count + 1, p.body + searchSet), None);
    } else {
      st := Continue(Pending(k, 1, RequestOpen + searchSet), Some(Batch(p.start, p.count, p.body + RequestClose)));
    }
  }

  /** The requests of Batches are those sent, then those of the bundling from the k-th domain with p being filled. */
  ghost predicate Remaining(plan: PlanResult, cfg: Config, names: seq<string>, sent: seq<Batch>, p: Pending, k: nat)
  {
    k <= |names| &&
    plan == PlanResult(sent + Plan(cfg, names, p, k).batches, Plan(cfg, names, p, k).abort)
  }

  /**
   * One round of the bundling keeps the request being filled well formed,
   * moves the request it sends, if any, from what is left to what was sent,
   * and when it stops, Batches stops there with its error.
   */
  lemma {:induction false} RoundPlan(plan: PlanResult, cfg: Config, names: seq<string>, p: Pending, k: nat, sent: seq<Batch>)
    requires EndOf(p.start, p.count) == k < |names| && Remaining(plan, cfg, names, sent, p, k)
    ensures var st := StepFor(cfg, p, k, names[k]);
      st.Abort? ==> plan == PlanResult(sent, Some(st.code))
    ensures var st := StepFor(cfg, p, k, names[k]);
      st.Continue? ==>
        EndOf(st.next.start, st.next.count) == k + 1 && Remaining(plan, cfg, names, sent + Sent(st.dispatch), st.next, k + 1) &&
        (st.dispatch.Some? ==> EndOf(st.dispatch.value.start, st.dispatch.value.count) == k)
  {
    match StepFor(cfg, p, k, names[k])
    case Abort(code) =>
      assert sent + [] == sent;
    case Continue(next, dispatch) =>
      PlanContinue(cfg, names, p, k, next, dispatch);
      SeqAssoc(sent, Sent(dispatch), Plan(cfg, names, next, k + 1).batches);
  }

  /**
   * Before the k-th domain: the list still holds the names, p is the request
   * being filled, the requests sent are the first of Batches, and each has
   * been answered and applied to the records.
   */
  ghost predicate Looping(plan: PlanResult, cfg: Config, names: seq<string>, base: seq<Record>, records: seq<Record>,
                          p: Pending, k: nat, sent: seq<Batch>, docs: seq<Document>)
  {
    |records| == |names| == |base| && Names(records) == names == Names(base) &&
    EndOf(p.start, p.count) == k && Remaining(plan, cfg, names, sent, p, k) &&
    |docs| == |sent| && records == Applied(base, sent, docs)
  }

  /**
   * What dchk_QueryDomainList has done when it fails after starting to send:
   * sent a prefix of plan, each request answered and applied but possibly the
   * last, and not the whole of an error-free plan.
   */
  ghost predicate Stopped(plan: PlanResult, base: seq<Record>, records: seq<Record>, sent: seq<Batch>, docs: seq<Document>)
  {
    |docs| <= |sent| <= |docs| + 1 && |sent| <= |plan.batches| && sent == plan.batches[..|sent|] &&
    records == Applied(base, sent[..|docs|], docs) &&
    !(|docs| == |plan.batches| && plan.abort.None?)
  }

  /** The bundling stopped with an error after all the requests before it were sent and answered. */
  ghost predicate Aborted(plan: PlanResult, sent: seq<Batch>, docs: seq<Document>)
  {
    |docs| == |sent| ==> sent == plan.batches && plan.abort.Some?
  }

  /** The records after a round that ended in st, with request answered by doc if ok. */
  function AfterRound(records: seq<Record>, st: Step, ok: bool, doc: Document): seq<Record>
  {
    if st.Continue? && st.dispatch.Some? && ok then ApplyBatch(records, st.dispatch.value, doc) else records
  }

  /**
   * One round of the loop of dchk_QueryDomainList for the k-th domain: the
   * step of the bundling, then the sending of the request it closes, if any;
   * ok is whether that request was answered (true when there is none).
   */
  method QueryRound(h: Handle, env: Env, list: DomainList, max: nat, p: Pending, k: nat)
    returns (st: Step, ok: bool, ghost doc: Document)
    requires EnvOk(env) && h.Valid()
    requires EndOf(p.start, p.count) <= k < |list.records|
    modifies list, h`error, h`errorText, h`draws, h.request, h.response
    ensures h.Valid() && h.sendDeflated == old(h.sendDeflated) && h.rfc1950Workaround == old(h.rfc1950Workaround)
    ensures st == StepFor(old(ConfigOf(h, env, max)), p, k, old(list.records)[k].domain)
    ensures list.records == AfterRound(old(list.records), st, ok, doc)
    ensures st.Abort? ==> !ok && (old(h.initialized) ==> h.error == st.code && h.errorText.None?)
    ensures st.Continue? && st.dispatch.None? ==> ok
  {
    doc := [];
    st := ProcessDomain(h, env, max, p, k, list.records[k].domain);
    if st.Abort? {
      ok := false;
    } else if st.dispatch.Some? {
      ok, doc := Dispatch(h, env, list, st.dispatch.value);
    } else {
      ok := true;
    }
  }

  /**
   * The bookkeeping of a round: the requests sent and the answers read back
   * go on matching Batches, or the round ends the loop where Batches says.
   */
  lemma {:induction false} RoundBooks(plan: PlanResult, cfg: Config, names: seq<string>, base: seq<Record>, records: seq<Record>,
                   p: Pending, k: nat, sent: seq<Batch>, docs: seq<Document>, st: Step, ok: bool, doc: Document)
    returns (sent': seq<Batch>, docs': seq<Document>)
    requires k < |names| && Looping(plan, cfg, names, base, records, p, k, sent, docs)
    requires st == StepFor(cfg, p, k, names[k]) && (st.Abort? ==> !ok) && (st.Continue? && st.dispatch.None? ==> ok)
    ensures st.Continue? && ok ==> Looping(plan, cfg, names, base, AfterRound(records, st, ok, doc), st.next, k + 1, sent', docs')
    ensures !(st.Continue? && ok) ==>
      Stopped(plan, base, AfterRound(records, st, ok, doc), sent', docs') && Aborted(plan, sent', docs')
    ensures st.Abort? ==> plan.abort == Some(st.code)
    ensures st.Continue? && !ok ==> |docs'| < |sent'|
  {
    RoundPlan(plan, cfg, names, p, k, sent);
    sent', docs' := sent, docs;
    if st.Abort? {
      assert sent[..|docs|] == sent;
    } else if st.dispatch.Some? {
      sent' := sent + [st.dispatch.value];
      assert sent'[..|sent|] == sent;
      AppliedSnoc(base, sent, docs, st.dispatch.value, doc);
      if ok {
        docs' := docs + [doc];
        AppliedKeepsNames(base, sent', docs');
      }
    } else {
      assert sent + Sent(st.dispatch) == sent;
    }
  }

  /** Sends request b after the requests sent; an answer to it is applied to the list. */
  method SendBatch(h: Handle, env: Env, list: DomainList, b: Batch,
                   ghost base: seq<Record>, ghost sent: seq<Batch>, ghost docs: seq<Document>)
    returns (ok: bool, ghost sent': seq<Batch>, ghost docs': seq<Document>)
    requires EnvOk(env) && h.Valid()
    requires EndOf(b.start, b.count) <= |list.records|
    requires |docs| == |sent| && list.records == Applied(base, sent, docs)
    modifies list, h`error, h`errorText, h`draws, h.request, h.response
    ensures h.Valid() && sent' == sent + [b]
    ensures ok ==> |docs'| == |sent'| && list.records == Applied(base, sent', docs')
    ensures !ok ==> docs' == docs && list.records == Applied(base, sent'[..|docs'|], docs')
  {
    ghost var doc;
    ok, doc := Dispatch(h, env, list, b);
    sent' := sent + [b];
    assert sent'[..|sent|] == sent;
    AppliedSnoc(base, sent, docs, b, doc);
    docs' := if ok then docs + [doc] else docs;
  }

  /** Before the first domain, all of Batches is still to be sent and nothing has changed. */
  lemma {:induction false} StartLooping(cfg: Config, records: seq<Record>)
    ensures Looping(Batches(cfg, Names(records)), cfg, Names(records), records, records, Start, 0, [], [])
  {
    assert [] + Batches(cfg, Names(records)).batches == Batches(cfg, Names(records)).batches;
  }

  /**
   * The bundling and sending of dchk_QueryDomainList, on a list that holds
   * at least one domain, with plan the requests Batches yields for it.
   */
  method QueryRecords(h: Handle, env: Env, list: DomainList, max: nat,
                      ghost plan: PlanResult, ghost cfg: Config, ghost names: seq<string>)
    returns (ok: bool, ghost dispatched: seq<Batch>, ghost docs: seq<Document>)
    requires EnvOk(env) && h.Valid() && list.records != []
    requires cfg == ConfigOf(h, env, max) && Looping(plan, cfg, names, list.records, list.records, Start, 0, [], [])
    modifies list, h`error, h`errorText, h`draws, h.request, h.response
    ensures h.Valid() && cfg == ConfigOf(h, env, max)
    ensures ok ==>
      plan.abort.None? && dispatched == plan.batches && |docs| == |dispatched| &&
      list.records == Applied(old(list.records), dispatched, docs)
    ensures !ok ==> Stopped(plan, old(list.records), list.records, dispatched, docs) && Aborted(plan, dispatched, docs)
    ensures !ok && |docs| == |dispatched| && old(h.initialized) ==>
      plan.abort.Some? && h.error == plan.abort.value && h.errorText.None?
  {
    var go, p;
    go, p, dispatched, docs := Bundle(h, env, list, max, plan, cfg, names);
    if go {
      ok, dispatched, docs := SendLast(h, env, list, p, plan, cfg, old(list.records), names, dispatched, docs);
    } else {
      ok := false;
    }
  }

  /** The loop of dchk_QueryDomainList over every domain of the list. */
  method Bundle(h: Handle, env: Env, list: DomainList, max: nat, ghost plan: PlanResult, ghost cfg: Config, ghost names: seq<string>)
    returns (go: bool, p: Pending, ghost dispatched: seq<Batch>, ghost docs: seq<Document>)
    requires EnvOk(env) && h.Valid()
    requires cfg == ConfigOf(h, env, max) && Looping(plan, cfg, names, list.records, list.records, Start, 0, [], [])
    modifies list, h`error, h`errorText, h`draws, h.request, h.response
    ensures h.Valid() && cfg == ConfigOf(h, env, max)
    ensures go ==> Looping(plan, cfg, names, old(list.records), list.records, p, |names|, dispatched, docs)
    ensures !go ==> Stopped(plan, old(list.records), list.records, dispatched, docs) && Aborted(plan, dispatched, docs)
    ensures !go && |docs| == |dispatched| && old(h.initialized) ==>
      plan.abort.Some? && h.error == plan.abort.value && h.errorText.None?
  {
    dispatched, docs := [], [];
    ghost var base := list.records;
    p := Start;
    var k := 0;
    while k < |list.records|
      invariant k <= |list.records| == |names| && h.Valid() && cfg == ConfigOf(h, env, max)
      invariant Looping(plan, cfg, names, base, list.records, p, k, dispatched, docs)
    {
      go, p, dispatched, docs := Advance(h, env, list, max, p, k, plan, cfg, base, names, dispatched, docs);
      if !go {
        return;
      }
      k := k + 1;
    }
    go := true;
  }

  /** A round of the loop of dchk_QueryDomainList with its bookkeeping. */
  method Advance(h: Handle, env: Env, list: DomainList, max: nat, p: Pending, k: nat, ghost plan: PlanResult, ghost cfg: Config,
                 ghost base: seq<Record>, ghost names: seq<string>, ghost sent: seq<Batch>, ghost docs: seq<Document>)
    returns (go: bool, next: Pending, ghost sent': seq<Batch>, ghost docs': seq<Document>)
    requires EnvOk(env) && h.Valid() && cfg == ConfigOf(h, env, max)
    requires k < |names| && Looping(plan, cfg, names, base, list.records, p, k, sent, docs)
    modifies list, h`error, h`errorText, h`draws, h.request, h.response
    ensures h.Valid() && cfg == ConfigOf(h, env, max)
    ensures go ==> Looping(plan, cfg, names, base, list.records, next, k + 1, sent', docs')
    ensures !go ==> Stopped(plan, base, list.records, sent', docs') && Aborted(plan, sent', docs')
    ensures !go && |docs'| == |sent'| && old(h.initialized) ==>
      plan.abort.Some? && h.error == plan.abort.value && h.errorText.None?
  {
    var st, ok;
    ghost var doc;
    ghost var records := list.records;
    st, ok, doc := QueryRound(h, env, list, max, p, k);
    sent', docs' := RoundBooks(plan, cfg, names, base, records, p, k, sent, docs, st, ok, doc);
    go := st.Continue? && ok;
    next := if go then st.next else p;
  }

  /** The request still being filled after the last domain is sent if it holds a domain. */
  method SendLast(h: Handle, env: Env, list: DomainList, p: Pending, ghost plan: PlanResult, ghost cfg: Config,
                  ghost base: seq<Record>, ghost names: seq<string>, ghost sent: seq<Batch>, ghost docs: seq<Document>)
    returns (ok: bool, ghost sent': seq<Batch>, ghost docs': seq<Document>)
    requires EnvOk(env) && h.Valid()
    requires Looping(plan, cfg, names, base, list.records, p, |names|, sent, docs)
    modifies list, h`error, h`errorText, h`draws, h.request, h.response
    ensures h.Valid()
    ensures ok ==>
      plan.abort.None? && sent' == plan.batches && |docs'| == |sent'| &&
      list.records == Applied(base, sent', docs')
    ensures !ok ==> Stopped(plan, base, list.records, sent', docs') && |docs'| < |sent'|
  {
    if p.count > 0 {
      ok, sent', docs' := SendBatch(h, env, list, Batch(p.start, p.count, p.body + RequestClose), base, sent, docs);
    } else {
      assert sent + [] == sent;
      ok, sent', docs' := true, sent, docs;
    }
  }

  const ListArgumentText := "int dchk_QueryDomainList(IRISLWZ_HANDLE *handle, ==> DCHK_DOMAINLIST *list <==)"

  /**
   * dchk_QueryDomainList: 74025 for a NULL list and 74038 for an empty one;
   * otherwise the requests of Batches are sent in order until one fails or
   * the bundling stops with an error, and each answered request updates the
   * records of its domains. dispatched are the requests sent and docs the
   * answers read back.
   */
  method QueryDomainList(h: Handle, env: Env, list: DomainList?, maxDomains: int)
    returns (ok: bool, ghost dispatched: seq<Batch>, ghost docs: seq<Document>)
    requires EnvOk(env) && h.Valid()
    modifies list, h`error, h`errorText, h`draws, h.request, h.response
    ensures h.Valid()
    ensures list == null ==> !ok && (old(h.initialized) ==> h.error == 74025 && h.errorText == Some(ListArgumentText))
    ensures list != null && old(list.records) == [] ==>
      !ok && list.records == [] && (old(h.initialized) ==> h.error == 74038 && h.errorText.None?)
    ensures list != null && old(list.records) != [] && ok ==>
      var plan := Batches(ConfigOf(h, env, maxDomains), Names(old(list.records)));
      plan.abort.None? && dispatched == plan.batches && |docs| == |dispatched| &&
      list.records == Applied(old(list.records), dispatched, docs)
    ensures list != null && old(list.records) != [] && !ok ==>
      var plan := Batches(ConfigOf(h, env, maxDomains), Names(old(list.records)));
      Stopped(plan, old(list.records), list.records, dispatched, docs) && Aborted(plan, dispatched, docs) &&
      (|docs| == |dispatched| && old(h.initialized) ==> h.error == plan.abort.value && h.errorText.None?)
  {
    dispatched, docs := [], [];
    if list == null {
      SetError(h, 74025, Some(ListArgumentText));
      return false, dispatched, docs;
    }
    if |list.records| == 0 {
      SetError(h, 74038, None);
      return false, dispatched, docs;
    }
    var max := if maxDomains < 0 then 0 else maxDomains;
    ghost var cfg := ConfigOf(h, env, max);
    ghost var names := Names(list.records);
    StartLooping(cfg, list.records);
    ok, dispatched, docs := QueryRecords(h, env, list, max, Batches(cfg, names), cfg, names);
  }

  // ---------------------------------------------------------------------
  // Checking a single domain

  /** What the caller of dchk_QueryDomain holds in *status and *dbupdate. */
  datatype Outputs = Outputs(status: Option<string>, dbupdate: Option<string>)

  /**
   * The result delivery of dchk_QueryDomain as written: the status goes to
   * *status, and then the update time is also written to *status, never to
   * *dbupdate. (With dbupdate but no status the C code writes through NULL,
   * so wantUpdate without wantStatus is not a case it can take.)
   */
  function DeliveredAsWritten(r: Record, wantStatus: bool, wantUpdate: bool, before: Outputs): (out: Outputs)
    ensures out.dbupdate == before.dbupdate
  {
    var afterStatus := if wantStatus then before.(status := r.status) else before;
    if wantUpdate then afterStatus.(status := r.lastDatabaseUpdate) else afterStatus
  }

  /** An answered record whose update time replaces its status in *status, and *dbupdate stays unset. */
  lemma {:induction false} DeliveredAsWrittenLosesStatus()
    ensures var r := Record("example.de", Some("2008-06-10T10:55:00+02:00"), Some("active"));
      DeliveredAsWritten(r, true, true, Outputs(None, None)) == Outputs(Some("2008-06-10T10:55:00+02:00"), None) &&
      Delivered(r, true, true, Outputs(None, None)) == Outputs(Some("active"), Some("2008-06-10T10:55:00+02:00"))
  {
  }

  /**
   * The delivery dchk_QueryDomain documents: the status to *status and the
   * time of the last database update to *dbupdate, each only when its
   * pointer is given.
   */
  function Delivered(r: Record, wantStatus: bool, wantUpdate: bool, before: Outputs): (out: Outputs)
  {
    Outputs(if wantStatus then r.status else before.status,
            if wantUpdate then r.lastDatabaseUpdate else before.dbupdate)
  }

  /** Each requested output gets its own field of the record, and an output not asked for is left alone. */
  lemma {:induction false} DeliveredMeaning(r: Record, wantStatus: bool, wantUpdate: bool, before: Outputs)
    ensures var out := Delivered(r, wantStatus, wantUpdate, before);
      (out.status == if wantStatus then r.status else before.status) &&
      (out.dbupdate == if wantUpdate then r.lastDatabaseUpdate else before.dbupdate)
    ensures wantStatus && !wantUpdate ==> Delivered(r, wantStatus, wantUpdate, before) == DeliveredAsWritten(r, wantStatus, wantUpdate, before)
  {
  }

  /**
   * dchk_QueryDomain: checks one domain as a one-record list with no limit
   * on domains per request; on success the answer goes to the outputs
   * as the code writes them (DeliveredAsWritten: the update time lands in
   * *status), on failure they stay as they were. 0 for a NULL handle, 74025 with an empty detail for a NULL domain.
   */
  method QueryDomain(h: Handle?, env: Env, domain: Option<string>, wantStatus: bool, wantUpdate: bool, before: Outputs)
    returns (ok: bool, out: Outputs, ghost dispatched: seq<Batch>, ghost docs: seq<Document>)
    requires h != null ==> EnvOk(env) && h.Valid()
    modifies (if h == null then {} else {h})`error, (if h == null then {} else {h})`errorText
    modifies (if h == null then {} else {h})`draws, (if h == null then {} else {h.request, h.response})
    ensures h == null || domain.None? ==> !ok && out == before
    ensures h != null && domain.None? && old(h.initialized) ==> h.error == 74025 && h.errorText == Some("")
    ensures !ok ==> out == before
    ensures ok ==>
      h != null && domain.Some? && |dispatched| == |docs| &&
      var answered := Applied([Record(domain.value, None, None)], dispatched, docs);
      |answered| == 1 && answered[0].domain == domain.value &&
      out == DeliveredAsWritten(answered[0], wantStatus, wantUpdate, before)
    ensures ok ==> h != null && domain.Some? && dispatched == Batches(ConfigOf(h, env, 0), [domain.value]).batches
    ensures h != null && domain.Some? && !ok ==>
      var plan := Batches(ConfigOf(h, env, 0), [domain.value]);
      Aborted(plan, dispatched, docs) &&
      (|docs| == |dispatched| && old(h.initialized) ==> h.error == plan.abort.value && h.errorText.None?)
  {
    dispatched, docs := [], [];
    if h == null {
      return false, before, dispatched, docs;
    }
    if domain.None? {
      SetError(h, 74025, Some(""));
      return false, before, dispatched, docs;
    }
    var list := new DomainList();
    list.records := [Record(domain.value, None, None)];
    ok, dispatched, docs := QueryDomainList(h, env, list, 0);
    assert Names([Record(domain.value, None, None)]) == [domain.value];
    if ok {
      AppliedKeepsNames([Record(domain.value, None, None)], dispatched, docs);
      out := DeliveredAsWritten(list.records[0], wantStatus, wantUpdate, before);
    } else {
      out := before;
    }
  }
}
