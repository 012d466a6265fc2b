/**
 * The error holder and the domain list of the C++ interface
 * (src/lib/CDchk.cpp): CError keeps the last error of an object, and
 * CDomainList is a list of domain records with a cursor for walking it.
 */
module CppList {
  import opened Wrappers
  import opened LibC
  import opened IrisTypes
  import opened Errors
  import opened Compat
  import opened Dchk

  /** CError: the last error code and its additional text (NULL is None). */
  class CError {
    var code: int
    var errorText: Option<string>

    /** No error yet. */
    constructor ()
      ensures code == 0 && errorText.None?
    {
      code := 0;
      errorText := None;
    }

    /** Stores code; the old text is discarded, and a NULL format leaves no text. */
    method SetError(code: int, text: Option<string>)
      modifies this
      ensures this.code == code && errorText == text
    {
      this.code := code;
      errorText := None;
      if text.None? {
        return;
      }
      errorText := text;
    }

    function GetErrorCode(): (c: int)
      reads this
      ensures c == code
    {
      code
    }

    /** The table text of the code, or "unknown" when the code has none. */
    function GetErrorText(): (t: string)
      reads this
      ensures GetError(code).Some? ==> t == GetError(code).value
      ensures GetError(code).None? ==> t == "unknown"
    {
      var ret := GetError(code);
      if ret.None? then "unknown" else ret.value
    }

    function GetAdditionalErrorText(): (t: Option<string>)
      reads this
      ensures t == errorText
    {
      errorText
    }

    /**
     * CopyError: the error of a C handle becomes the error of this object;
     * a NULL handle, or one without an error, leaves code 0 and no text.
     */
    method CopyError(h: Handle?)
      modifies this
      ensures Mirrors(h)
    {
      code := 0;
      errorText := None;
      if h == null {
        return;
      }
      if h.error != 0 {
        code := h.error;
        if h.errorText.Some? {
          errorText := h.errorText;
        }
      }
    }

    /** This object holds the error of handle h, as CopyError leaves it. */
    ghost predicate Mirrors(h: Handle?)
      reads this, h
    {
      if h == null || h.error == 0 then code == 0 && errorText.None?
      else code == h.error && errorText == h.errorText
    }
  }

  /**
   * Once CopyError has copied the error of a handle, the C++ object reports
   * the same error text as the C library does for the handle, and the same
   * additional text whenever the handle had an error.
   */
  lemma {:induction false} MirroredTexts(e: CError, h: Handle)
    requires e.Mirrors(h)
    ensures e.GetErrorText() == Errors.GetErrorText(h)
    ensures h.error != 0 ==> e.GetAdditionalErrorText() == Errors.GetAdditionalErrorText(h)
    ensures h.error == 0 ==> e.GetErrorCode() == 0 && e.GetAdditionalErrorText().None?
  {
  }

  const ExplodeStringArgumentText := "int CDomainList::Explode(==>const char *string<==, const char *delimiter)"
  const ExplodeDelimiterArgumentText := "int CDomainList::Explode(const char *string, ==> const char *delimiter <==)"

  /** The domain a CDomainList record holds: the first n characters of domain when n > 0, all of it otherwise. */
  function CopiedDomain(domain: string, n: int): (d: string)
    ensures d <= domain
    ensures n <= 0 || n >= |domain| ==> d == domain
    ensures 0 < n < |domain| ==> |d| == n
  {
    if n > 0 then domain[..Min(n, |domain|)] else domain
  }

  /** Where the cursor is after records are appended: on the first of them when the list was empty. */
  function CursorAfterAppend(before: seq<Record>, cursor: Option<nat>, added: seq<Record>): (c: Option<nat>)
    ensures before == [] && added != [] ==> c == Some(0)
    ensures before != [] || added == [] ==> c == cursor
  {
    if before == [] && added != [] then Some(0) else cursor
  }

  /**
   * CDomainList: the records in order, the error holder it inherits from
   * CError, and the cursor ptr (None is NULL) naming the record GetNext
   * returns.
   */
  class CDomainList {
    const err: CError
    const list: DomainList
    var cursor: Option<nat>

    /** The cursor is NULL or on a record. */
    ghost predicate Valid()
      reads this, list
    {
      cursor.Some? ==> cursor.value < |list.records|
    }

    /** An empty list with a NULL cursor and no error. */
    constructor ()
      ensures Valid() && fresh(err) && fresh(list)
      ensures list.records == [] && cursor.None?
      ensures err.code == 0 && err.errorText.None?
    {
      err := new CError();
      list := new DomainList();
      cursor := None;
    }

    /** Clear: unlinks the records one by one from the front; the list ends empty with a NULL cursor. */
    method Clear()
      modifies list, this`cursor
      ensures Valid() && list.records == [] && cursor.None?
    {
      ghost var all := list.records;
      while |list.records| > 0
        invariant list.records == all[|all| - |list.records|..]
        decreases |list.records|
      {
        cursor := Some(0);
        list.records := list.records[1..];
      }
      cursor := None;
    }

    function Count(): (n: int)
      reads this, list
      ensures n == |list.records|
    {
      |list.records|
    }

    /**
     * AddDomain(domain, n): 74025 for NULL and 74054 with detail "512" for a
     * name longer than 512 characters; otherwise a record for the copied
     * name goes at the end, and the first record of an empty list gets the
     * cursor.
     */
    method AddDomain(domain: Option<string>, n: int) returns (ok: bool)
      requires Valid()
      modifies list, this`cursor, err
      ensures Valid()
      ensures ok <==> domain.Some? && |domain.value| <= MaxDomainLength
      ensures domain.None? ==> err.code == 74025 && err.errorText.None?
      ensures domain.Some? && |domain.value| > MaxDomainLength ==> err.code == 74054 && err.errorText == Some(IntToString(MaxDomainLength))
      ensures !ok ==> list.records == old(list.records) && cursor == old(cursor)
      ensures ok ==>
        var added := NewRecords([CopiedDomain(domain.value, n)]);
        list.records == old(list.records) + added &&
        cursor == CursorAfterAppend(old(list.records), old(cursor), added) &&
        err.code == old(err.code) && err.errorText == old(err.errorText)
    {
      if domain.None? {
        err.SetError(74025, None);
        return false;
      }
      if |domain.value| > MaxDomainLength {
        err.SetError(74054, Some(IntToString(MaxDomainLength)));
        return false;
      }
      var copy := domain.value;
      if n > 0 {
        var r := Strndup(domain, n);
        copy := r.value;
        assert copy == domain.value[..|copy|];
      }
      if |list.records| == 0 {
        cursor := Some(0);
      }
      list.records := list.records + [Record(copy, None, None)];
      ok := true;
    }

    /**
     * Explode: adds the domains of s separated by delim, as dchk_ExplodeDomain
     * splits them, and returns how many it added; 0 when a domain cannot be
     * added (74054), when there is none (74055), and for NULL arguments
     * (74025), an empty string (74055) or an empty delimiter (74056).
     */
    method Explode(s: Option<string>, delim: Option<string>) returns (count: int)
      requires Valid()
      modifies list, this`cursor, err
      ensures Valid()
      ensures s.None? ==> err.code == 74025 && err.errorText == Some(ExplodeStringArgumentText)
      ensures s.Some? && delim.None? ==> err.code == 74025 && err.errorText == Some(ExplodeDelimiterArgumentText)
      ensures s.Some? && delim.Some? && s.value == [] ==> err.code == 74055 && err.errorText.None?
      ensures s.Some? && delim.Some? && s.value != [] && delim.value == [] ==> err.code == 74056 && err.errorText.None?
      ensures s.None? || delim.None? || s.value == [] || delim.value == [] ==>
        count == 0 && list.records == old(list.records) && cursor == old(cursor)
      ensures s.Some? && delim.Some? && s.value != [] && delim.value != [] ==>
        var e := Dchk.Explode(s.value, delim.value);
        var added := NewRecords(e.tokens);
        list.records == old(list.records) + added &&
        cursor == CursorAfterAppend(old(list.records), old(cursor), added) &&
        count == (if e.ok then |e.tokens| else 0) &&
        (!e.ok ==> err.code == 74054 && err.errorText == Some(IntToString(MaxDomainLength))) &&
        (e.ok && e.tokens == [] ==> err.code == 74055 && err.errorText.None?) &&
        (e.ok && e.tokens != [] ==> err.code == old(err.code) && err.errorText == old(err.errorText))
    {
      if s.None? {
        err.SetError(74025, Some(ExplodeStringArgumentText));
        return 0;
      }
      if delim.None? {
        err.SetError(74025, Some(ExplodeDelimiterArgumentText));
        return 0;
      }
      if |s.value| == 0 {
        err.SetError(74055, None);
        return 0;
      }
      if |delim.value| == 0 {
        err.SetError(74056, None);
        return 0;
      }
      var ok;
      ok, count := ExplodeRounds(s.value, delim.value);
      if ok && count == 0 {
        err.SetError(74055, None);
      }
      if !ok {
        count := 0;
      }
    }

    /** The outer loop of Explode: ok is false when AddDomain refused a domain, count what was added. */
    method ExplodeRounds(s: string, delim: string) returns (ok: bool, count: int)
      requires Valid() && delim != []
      modifies list, this`cursor, err
      ensures Valid()
      ensures var e := Dchk.Explode(s, delim);
        var added := NewRecords(e.tokens);
        ok == e.ok && count == |e.tokens| &&
        list.records == old(list.records) + added &&
        cursor == CursorAfterAppend(old(list.records), old(cursor), added) &&
        (!ok ==> err.code == 74054 && err.errorText == Some(IntToString(MaxDomainLength))) &&
        (ok ==> err.code == old(err.code) && err.errorText == old(err.errorText))
    {
      var str := s;
      count := 0;
      ghost var base := list.records;
      ghost var baseCursor := cursor;
      ghost var added: seq<string> := [];
      while true
        invariant Valid()
        invariant list.records == base + NewRecords(added) && count == |added|
        invariant cursor == CursorAfterAppend(base, baseCursor, NewRecords(added))
        invariant err.code == old(err.code) && err.errorText == old(err.errorText)
        invariant Dchk.Explode(s, delim) == Exploded(added + Dchk.Explode(str, delim).tokens, Dchk.Explode(str, delim).ok)
        decreases |str|
      {
        var more, next;
        ok, more, next, count, added := ExplodeStep(s, delim, str, base, baseCursor, count, added);
        if !ok || !more {
          return;
        }
        str := next;
      }
    }

    /** ExplodeRound with the bookkeeping of the loop around it: added is what all rounds so far added. */
    method ExplodeStep(s: string, delim: string, str: string, ghost base: seq<Record>, ghost baseCursor: Option<nat>,
                       count: int, ghost added: seq<string>)
      returns (ok: bool, more: bool, next: string, count': int, ghost added': seq<string>)
      requires Valid() && delim != [] && count == |added|
      requires list.records == base + NewRecords(added)
      requires cursor == CursorAfterAppend(base, baseCursor, NewRecords(added))
      requires Dchk.Explode(s, delim) == Exploded(added + Dchk.Explode(str, delim).tokens, Dchk.Explode(str, delim).ok)
      modifies list, this`cursor, err
      ensures Valid()
      ensures list.records == base + NewRecords(added') && count' == |added'|
      ensures cursor == CursorAfterAppend(base, baseCursor, NewRecords(added'))
      ensures !ok ==> err.code == 74054 && err.errorText == Some(IntToString(MaxDomainLength))
      ensures ok ==> err.code == old(err.code) && err.errorText == old(err.errorText)
      ensures !more ==> Dchk.Explode(s, delim) == Exploded(added', ok)
      ensures more ==>
        ok && |next| < |str| &&
        Dchk.Explode(s, delim) == Exploded(added' + Dchk.Explode(next, delim).tokens, Dchk.Explode(next, delim).ok)
    {
      ghost var round;
      ghost var before := list.records;
      var n;
      ok, more, next, n, round := ExplodeRound(str, delim);
      count' := count + n;
      NewRecordsAppend(added, round);
      added' := added + round;
      SeqAssoc(base, NewRecords(added), NewRecords(round));
      if !ok {
        more := false;
        ExplodeThen(s, delim, str, added, round, Exploded([], false));
      } else if more {
        ExplodeThen(s, delim, str, added, round, Dchk.Explode(next, delim));
      } else {
        ExplodeThen(s, delim, str, added, round, Exploded([], true));
      }
    }

    /**
     * One round of the outer loop of Explode: skip delimiters, then add the
     * domain up to the next delimiter (more is true) or the last one; round
     * is what it added.
     */
    method ExplodeRound(str: string, delim: string)
      returns (ok: bool, more: bool, next: string, n: int, ghost round: seq<string>)
      requires Valid() && delim != []
      modifies list, this`cursor, err
      ensures Valid()
      ensures list.records == old(list.records) + NewRecords(round) && n == |round|
      ensures cursor == CursorAfterAppend(old(list.records), old(cursor), NewRecords(round))
      ensures !ok ==> round == [] && Dchk.Explode(str, delim) == Exploded([], false)
      ensures !ok ==> err.code == 74054 && err.errorText == Some(IntToString(MaxDomainLength))
      ensures ok ==> err.code == old(err.code) && err.errorText == old(err.errorText)
      ensures ok && !more ==> Dchk.Explode(str, delim) == Exploded(round, true)
      ensures ok && more ==>
        |next| < |str| &&
        Dchk.Explode(str, delim) == Exploded(round + Dchk.Explode(next, delim).tokens, Dchk.Explode(next, delim).ok)
    {
      ghost var cut := CutOf(str, delim);
      var t := SkipDelimiters(str, delim);
      var tokfind := Find(t, delim);
      if tokfind.Some? {
        var k := tokfind.value;
        ok := AddDomain(Some(t), k);
        if !ok {
          assert cut.TooLong?;
          return false, false, t, 0, [];
        }
        assert cut == Piece(t[..k], t[k + |delim|..]);
        return true, true, t[k + |delim|..], 1, [t[..k]];
      }
      if |t| > 0 {
        ok := AddDomain(Some(t), 0);
        if ok {
          assert cut == Last(t);
          return true, false, t, 1, [t];
        }
        return false, false, t, 0, [];
      }
      assert cut == Done;
      return true, false, t, 0, [];
    }

    /** GetFirst: 74042 and NULL on an empty list; otherwise the first record, with the cursor left after it. */
    method GetFirst() returns (r: Option<Record>)
      requires Valid()
      modifies this`cursor, err
      ensures Valid()
      ensures list.records == [] ==> r.None? && cursor == old(cursor) && err.code == 74042 && err.errorText.None?
      ensures list.records != [] ==>
        r == Some(list.records[0]) && cursor == (if |list.records| > 1 then Some(1) else None) &&
        err.code == old(err.code) && err.errorText == old(err.errorText)
    {
      if |list.records| == 0 {
        err.SetError(74042, None);
        return None;
      }
      cursor := Some(0);
      r := GetNext();
    }

    /** Reset: the cursor goes back to the first record (NULL on an empty list). */
    method Reset()
      requires Valid()
      modifies this`cursor
      ensures Valid()
      ensures cursor == (if list.records == [] then None else Some(0))
    {
      if |list.records| == 0 {
        cursor := None;
      } else {
        cursor := Some(0);
      }
    }

    /**
     * GetNext: the record under the cursor, which moves on to the next one
     * (NULL after the last); a NULL cursor gives 74043 with the number of
     * records as detail.
     */
    method GetNext() returns (r: Option<Record>)
      requires Valid()
      modifies this`cursor, err
      ensures Valid()
      ensures old(cursor).None? ==>
        r.None? && cursor.None? && err.code == 74043 && err.errorText == Some(IntToString(|list.records|))
      ensures old(cursor).Some? ==>
        var c := old(cursor).value;
        r == Some(list.records[c]) && cursor == (if c + 1 < |list.records| then Some(c + 1) else None) &&
        err.code == old(err.code) && err.errorText == old(err.errorText)
    {
      if cursor.None? {
        err.SetError(74043, Some(IntToString(|list.records|)));
        return None;
      }
      var c := cursor.value;
      r := Some(list.records[c]);
      if c + 1 < |list.records| {
        cursor := Some(c + 1);
      } else {
        cursor := None;
      }
    }
  }
}
