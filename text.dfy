/**
  The three Python `str` methods the record constructors use: `strip()`,
  `upper()` and `title()`.

  Whitespace is Python's `str.isspace` exactly. The case maps are a table
  of the letter pairs of ASCII Latin, Latin-1 (U+00C0..U+00DE and
  U+00E0..U+00FE, without the signs U+00D7 and U+00F7) and the Cyrillic
  block U+0400..U+045F, on which Python's `upper`, `lower` and `title` are
  one-to-one and title case coincides with upper case. Every other
  character is treated as uncased: it is left unchanged, and the letter
  after it is title-cased as at the start of a word.
 */
module Text {

  /** Python's `str.isspace` on one character: the 29 code points it accepts. */
  predicate IsSpace(c: char) {
    ('\U{9}' <= c <= '\U{D}') || ('\U{1C}' <= c <= '\U{1F}') || c == ' '
    || c == '\U{85}' || c == '\U{A0}' || c == '\U{1680}'
    || ('\U{2000}' <= c <= '\U{200A}') || c == '\U{2028}' || c == '\U{2029}'
    || c == '\U{202F}' || c == '\U{205F}' || c == '\U{3000}'
  }

  predicate IsUpperLetter(c: char) {
    ('A' <= c <= 'Z') || ('\U{C0}' <= c <= '\U{DE}' && c != '\U{D7}')
    || ('\U{400}' <= c <= '\U{42F}')
  }

  predicate IsLowerLetter(c: char) {
    ('a' <= c <= 'z') || ('\U{E0}' <= c <= '\U{FE}' && c != '\U{F7}')
    || ('\U{430}' <= c <= '\U{45F}')
  }

  /** Python's notion of a cased character, on the modelled table. */
  predicate IsCased(c: char) {
    IsUpperLetter(c) || IsLowerLetter(c)
  }

  /** Upper-case mapping of one character. */
  function UpperChar(c: char): (u: char)
    ensures IsCased(c) ==> IsUpperLetter(u)
    ensures IsUpperLetter(c) ==> u == c
    ensures !IsCased(c) ==> u == c
    ensures IsCased(u) == IsCased(c) && IsSpace(u) == IsSpace(c)
  {
    if 'a' <= c <= 'z' then (c as int - 0x20) as char
    else if '\U{E0}' <= c <= '\U{FE}' && c != '\U{F7}' then (c as int - 0x20) as char
    else if '\U{430}' <= c <= '\U{44F}' then (c as int - 0x20) as char
    else if '\U{450}' <= c <= '\U{45F}' then (c as int - 0x50) as char
    else c
  }

  /** Lower-case mapping of one character. */
  function LowerChar(c: char): (l: char)
    ensures IsCased(c) ==> IsLowerLetter(l)
    ensures IsLowerLetter(c) ==> l == c
    ensures !IsCased(c) ==> l == c
    ensures IsCased(l) == IsCased(c) && IsSpace(l) == IsSpace(c)
  {
    if 'A' <= c <= 'Z' then (c as int + 0x20) as char
    else if '\U{C0}' <= c <= '\U{DE}' && c != '\U{D7}' then (c as int + 0x20) as char
    else if '\U{410}' <= c <= '\U{42F}' then (c as int + 0x20) as char
    else if '\U{400}' <= c <= '\U{40F}' then (c as int + 0x50) as char
    else c
  }

  /** Title-case mapping of one character; on the modelled table it is the upper-case one. */
  function TitleChar(c: char): (t: char)
    ensures IsCased(c) ==> IsUpperLetter(t)
    ensures IsUpperLetter(c) ==> t == c
    ensures !IsCased(c) ==> t == c
    ensures IsCased(t) == IsCased(c) && IsSpace(t) == IsSpace(c)
  {
    UpperChar(c)
  }

  // ---------------------------------------------------------------------
  // strip()

  /** Drops leading whitespace. */
  function StripLeading(s: string): (r: string)
    ensures |r| <= |s|
  {
    if |s| > 0 && IsSpace(s[0]) then StripLeading(s[1..]) else s
  }

  /** Drops trailing whitespace. */
  function StripTrailing(s: string): (r: string)
    ensures |r| <= |s|
  {
    if |s| > 0 && IsSpace(s[|s| - 1]) then StripTrailing(s[..|s| - 1]) else s
  }

  /** Python's `s.strip()` with no argument. */
  function Strip(s: string): (r: string)
    ensures |r| <= |s|
  {
    StripTrailing(StripLeading(s))
  }

  /**
    `s[i..j]` is `s` with its whitespace ends cut off: everything outside
    the slice is whitespace, and a non-empty slice starts and ends with a
    non-whitespace character.
   */
  ghost predicate TrimmedAt(s: string, i: int, j: int) {
    && 0 <= i <= j <= |s|
    && (forall k :: 0 <= k < i ==> IsSpace(s[k]))
    && (forall k :: j <= k < |s| ==> IsSpace(s[k]))
    && (i < j ==> !IsSpace(s[i]) && !IsSpace(s[j - 1]))
  }

  lemma {:induction false} StripLeadingAt(s: string) returns (i: nat)
    ensures i <= |s| && StripLeading(s) == s[i..]
    ensures forall k :: 0 <= k < i ==> IsSpace(s[k])
    ensures i < |s| ==> !IsSpace(s[i])
  {
    if |s| > 0 && IsSpace(s[0]) {
      var i' := StripLeadingAt(s[1..]);
      i := i' + 1;
      assert s[1..][i'..] == s[i..];
      forall k | 0 <= k < i ensures IsSpace(s[k]) {
        if k > 0 { assert s[k] == s[1..][k - 1]; }
      }
    } else {
      i := 0;
    }
  }

  lemma {:induction false} StripTrailingAt(s: string) returns (j: nat)
    ensures j <= |s| && StripTrailing(s) == s[..j]
    ensures forall k :: j <= k < |s| ==> IsSpace(s[k])
    ensures 0 < j ==> !IsSpace(s[j - 1])
  {
    if |s| > 0 && IsSpace(s[|s| - 1]) {
      var t := s[..|s| - 1];
      j := StripTrailingAt(t);
      assert t[..j] == s[..j];
      forall k | j <= k < |s| ensures IsSpace(s[k]) {
        if k < |s| - 1 { assert s[k] == t[k]; }
      }
    } else {
      j := |s|;
    }
  }

  /** `Strip(s)` is a trimmed slice of `s`. */
  lemma {:induction false} StripIsTrimmed(s: string)
    ensures exists i, j :: TrimmedAt(s, i, j) && Strip(s) == s[i..j]
  {
    var i := StripLeadingAt(s);
    var t := s[i..];
    var j := StripTrailingAt(t);
    assert Strip(s) == s[i..i + j];
    forall k | i + j <= k < |s| ensures IsSpace(s[k]) {
      assert s[k] == t[k - i];
    }
    if 0 < j {
      assert s[i + j - 1] == t[j - 1];
    }
    assert TrimmedAt(s, i, i + j);
  }

  lemma {:induction false} StripLeadingFrom(s: string, i: nat)
    requires i <= |s|
    requires forall k :: 0 <= k < i ==> IsSpace(s[k])
    requires i < |s| ==> !IsSpace(s[i])
    ensures StripLeading(s) == s[i..]
  {
    if 0 < i {
      StripLeadingFrom(s[1..], i - 1);
      assert s[1..][i - 1..] == s[i..];
    }
  }

  lemma {:induction false} StripTrailingTo(s: string, j: nat)
    requires j <= |s|
    requires forall k :: j <= k < |s| ==> IsSpace(s[k])
    requires 0 < j ==> !IsSpace(s[j - 1])
    ensures StripTrailing(s) == s[..j]
  {
    if j < |s| {
      var t := s[..|s| - 1];
      StripTrailingTo(t, j);
      assert t[..j] == s[..j];
    }
  }

  /** Every trimmed slice of `s` is `Strip(s)`: the trimmed slice is unique. */
  lemma TrimmedIsStrip(s: string, i: int, j: int)
    requires TrimmedAt(s, i, j)
    ensures Strip(s) == s[i..j]
  {
    if i < j {
      StripLeadingFrom(s, i);
      var t := s[i..];
      StripTrailingTo(t, j - i);
      assert t[..j - i] == s[i..j];
    } else {
      StripLeadingFrom(s, |s|);
    }
  }

  lemma StripIdempotent(s: string)
    ensures Strip(Strip(s)) == Strip(s)
  {
    StripIsTrimmed(s);
    var i, j :| TrimmedAt(s, i, j) && Strip(s) == s[i..j];
    var t := s[i..j];
    assert TrimmedAt(t, 0, |t|) by {
      if 0 < |t| { assert t[0] == s[i] && t[|t| - 1] == s[j - 1]; }
    }
    TrimmedIsStrip(t, 0, |t|);
  }

  // ---------------------------------------------------------------------
  // upper()

  /** Python's `s.upper()`: every character mapped by its upper-case form. */
  function Upper(s: string): (r: string)
    ensures |r| == |s|
  {
    if s == [] then [] else [UpperChar(s[0])] + Upper(s[1..])
  }

  lemma {:induction false} UpperAt(s: string)
    ensures |Upper(s)| == |s|
    ensures forall i :: 0 <= i < |s| ==> Upper(s)[i] == UpperChar(s[i])
  {
    if s != [] {
      UpperAt(s[1..]);
      forall i | 0 < i < |s| ensures Upper(s)[i] == UpperChar(s[i]) {
        assert Upper(s)[i] == Upper(s[1..])[i - 1];
      }
    }
  }

  lemma UpperIdempotent(s: string)
    ensures Upper(Upper(s)) == Upper(s)
  {
    UpperAt(s);
    UpperAt(Upper(s));
  }

  /**
    The only strings whose upper-case form is the one-letter string `[u]`,
    for an upper-case letter `u`, are `[u]` itself and `[l]` for its
    lower-case partner `l`.
   */
  lemma UpperIsLetter(s: string, u: char)
    requires IsUpperLetter(u)
    ensures Upper(s) == [u] <==> s == [u] || s == [LowerChar(u)]
  {
    UpperAt(s);
    if Upper(s) == [u] {
      assert UpperChar(s[0]) == u;
    }
  }

  // ---------------------------------------------------------------------
  // title()

  /**
    Python's `str.title` scan from a given "previous character was cased"
    flag: a character after a cased one is lower-cased, any other is
    title-cased, and the flag for the next step is whether the ORIGINAL
    character is cased.
   */
  function TitleFrom(s: string, prevCased: bool): (r: string)
    ensures |r| == |s|
  {
    if s == [] then []
    else [if prevCased then LowerChar(s[0]) else TitleChar(s[0])] + TitleFrom(s[1..], IsCased(s[0]))
  }

  /** Python's `s.title()`. */
  function Title(s: string): (r: string)
    ensures |r| == |s|
  {
    TitleFrom(s, false)
  }

  /** What `title()` makes of the character at index `i`, looking only at `s[i - 1]` and `s[i]`. */
  ghost function TitledAt(s: string, i: nat): char
    requires i < |s|
  {
    if 0 < i && IsCased(s[i - 1]) then LowerChar(s[i]) else TitleChar(s[i])
  }

  lemma {:induction false} TitleFromAt(s: string, prevCased: bool)
    ensures |TitleFrom(s, prevCased)| == |s|
    ensures 0 < |s| ==> TitleFrom(s, prevCased)[0] == if prevCased then LowerChar(s[0]) else TitleChar(s[0])
    ensures forall i :: 0 < i < |s| ==> TitleFrom(s, prevCased)[i] == TitledAt(s, i)
  {
    if s != [] {
      var t := s[1..];
      TitleFromAt(t, IsCased(s[0]));
      forall i | 0 < i < |s| ensures TitleFrom(s, prevCased)[i] == TitledAt(s, i) {
        assert TitleFrom(s, prevCased)[i] == TitleFrom(t, IsCased(s[0]))[i - 1];
        if 1 < i { assert TitledAt(t, i - 1) == TitledAt(s, i); }
      }
    }
  }

  /** Each character of `Title(s)` depends only on itself and its predecessor in `s`. */
  lemma TitleAt(s: string)
    ensures |Title(s)| == |s|
    ensures forall i :: 0 <= i < |s| ==> Title(s)[i] == TitledAt(s, i)
  {
    TitleFromAt(s, false);
  }

  /**
    The shape `title()` promises: a cased character is upper case exactly
    when it starts a run of cased characters, and lower case otherwise.
   */
  ghost predicate IsTitled(t: string) {
    forall i :: 0 <= i < |t| && IsCased(t[i]) ==>
      if 0 < i && IsCased(t[i - 1]) then IsLowerLetter(t[i]) else IsUpperLetter(t[i])
  }

  lemma TitleIsTitled(s: string)
    ensures IsTitled(Title(s))
  {
    TitleAt(s);
    var t := Title(s);
    forall i | 0 <= i < |t| && IsCased(t[i])
      ensures if 0 < i && IsCased(t[i - 1]) then IsLowerLetter(t[i]) else IsUpperLetter(t[i])
    {
      if 0 < i { assert IsCased(t[i - 1]) == IsCased(s[i - 1]); }
    }
  }

  /** `title()` neither creates nor removes whitespace, character by character. */
  lemma TitleKeepsSpaces(s: string)
    ensures |Title(s)| == |s|
    ensures forall i :: 0 <= i < |s| ==> IsSpace(Title(s)[i]) == IsSpace(s[i])
  {
    TitleAt(s);
  }

  lemma TitleIdempotent(s: string)
    ensures Title(Title(s)) == Title(s)
  {
    var t := Title(s);
    TitleAt(s);
    TitleAt(t);
    forall i | 0 <= i < |t| ensures Title(t)[i] == t[i] {
      if 0 < i { assert IsCased(t[i - 1]) == IsCased(s[i - 1]); }
    }
  }
}
