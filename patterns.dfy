/** The two regular expressions the sign-in and registration forms test:
    the e-mail pattern `^[^\s@]+@[^\s@]+\.[^\s@]+$` and the mobile pattern
    `^[\+]?[0-9]{8,15}$` applied after deleting `[\s\-\(\)]`. Each pattern is
    stated as what a match means, and a direct check is proved to agree with it. */
module Patterns {
  import opened Wrappers
  import opened JsText

  /** Every character of `t` is in the class `[^\s@]`. */
  predicate NoSpaceOrAt(t: string) {
    forall j :: 0 <= j < |t| ==> !IsSpace(t[j]) && t[j] != '@'
  }

  /** `[^\s@]+\.[^\s@]+` matching the whole of `d`: some dot with at least one
      character of the class on each side of it. The first run may itself hold dots. */
  ghost predicate DomainPattern(d: string) {
    exists k {:trigger DotSplit(d, k)} :: DotSplit(d, k)
  }

  /** The dot at `k` splits `d` into two non-empty runs of the class. */
  ghost predicate DotSplit(d: string, k: int) {
    0 < k < |d| - 1 && d[k] == '.' && NoSpaceOrAt(d[..k]) && NoSpaceOrAt(d[k + 1..])
  }

  /** `/^[^\s@]+@[^\s@]+\.[^\s@]+$/.test(s)`: a non-empty local part, '@', and a domain. */
  ghost predicate MatchesEmailPattern(s: string) {
    exists i {:trigger AtSplit(s, i)} :: AtSplit(s, i)
  }

  /** The '@' at `i` splits `s` into a non-empty local part of the class and a domain. */
  ghost predicate AtSplit(s: string, i: int) {
    0 < i < |s| && s[i] == '@' && NoSpaceOrAt(s[..i]) && DomainPattern(s[i + 1..])
  }

  lemma NoSpaceOrAtParts(t: string, k: nat)
    requires k <= |t|
    ensures NoSpaceOrAt(t) ==> NoSpaceOrAt(t[..k]) && NoSpaceOrAt(t[k..])
  {
    if NoSpaceOrAt(t) {
      forall j | 0 <= j < |t[k..]|
        ensures !IsSpace(t[k..][j]) && t[k..][j] != '@'
      {
        assert t[k..][j] == t[k + j];
      }
    }
  }

  /** The domain check: no whitespace or '@' anywhere, and a dot strictly inside. */
  function IsDomain(d: string): (r: bool)
    ensures r <==> DomainPattern(d)
  {
    DomainCheckMatches(d);
    NoSpaceOrAt(d) && 3 <= |d| && '.' in d[1..|d| - 1]
  }

  lemma DomainCheckMatches(d: string)
    ensures (NoSpaceOrAt(d) && 3 <= |d| && '.' in d[1..|d| - 1]) <==> DomainPattern(d)
  {
    if NoSpaceOrAt(d) && 3 <= |d| && '.' in d[1..|d| - 1] {
      var m :| 0 <= m < |d[1..|d| - 1]| && d[1..|d| - 1][m] == '.';
      var k := m + 1;
      assert d[k] == '.';
      NoSpaceOrAtParts(d, k);
      NoSpaceOrAtParts(d, k + 1);
      assert DotSplit(d, k);
    }
    if DomainPattern(d) {
      var k :| DotSplit(d, k);
      forall j | 0 <= j < |d|
        ensures !IsSpace(d[j]) && d[j] != '@'
      {
        if j < k {
          assert d[j] == d[..k][j];
        } else if j > k {
          assert d[j] == d[k + 1..][j - k - 1];
        }
      }
      assert d[1..|d| - 1][k - 1] == '.';
    }
  }

  /** The e-mail check: the local part runs up to the first '@', which must not be
      the first character, and the rest must be a domain. */
  function IsEmail(s: string): (r: bool)
    ensures r <==> MatchesEmailPattern(s)
  {
    match IndexOf(s, '@')
    case None => false
    case Some(i) =>
      FirstAtSplits(s, i);
      0 < i && NoSpaceOrAt(s[..i]) && IsDomain(s[i + 1..])
  }

  /** Only the first '@' can separate a local part without '@' from the rest. */
  lemma FirstAtSplits(s: string, i: nat)
    requires i < |s| && s[i] == '@' && '@' !in s[..i]
    ensures MatchesEmailPattern(s) <==> 0 < i && NoSpaceOrAt(s[..i]) && DomainPattern(s[i + 1..])
  {
    if 0 < i && NoSpaceOrAt(s[..i]) && DomainPattern(s[i + 1..]) {
      assert AtSplit(s, i);
    }
    if MatchesEmailPattern(s) {
      var i' :| AtSplit(s, i');
      forall j | 0 <= j < i
        ensures s[j] != '@'
      {
        assert s[j] == s[..i][j];
      }
      forall j | 0 <= j < i'
        ensures s[j] != '@'
      {
        assert s[j] == s[..i'][j];
      }
      assert i == i';
    }
  }

  /** A text the e-mail pattern accepts holds no whitespace at all. */
  lemma EmailHasNoSpace(s: string)
    requires IsEmail(s)
    ensures forall j :: 0 <= j < |s| ==> !IsSpace(s[j])
  {
    var i :| AtSplit(s, i);
    var d := s[i + 1..];
    var k :| DotSplit(d, k);
    forall j | 0 <= j < |s|
      ensures !IsSpace(s[j])
    {
      if j < i {
        assert s[j] == s[..i][j];
      } else if i + 1 <= j < i + 1 + k {
        assert s[j] == d[..k][j - i - 1];
      } else if j > i + 1 + k {
        assert s[j] == d[k + 1..][j - i - 2 - k];
      }
    }
  }

  /** Trimming leaves a text without whitespace as it is. */
  lemma TrimWithoutSpace(s: string)
    requires forall j :: 0 <= j < |s| ==> !IsSpace(s[j])
    ensures Trim(s) == s
  {
    if s != [] {
      assert !IsSpace(s[0]) && !IsSpace(s[|s| - 1]);
      assert TrimStart(s) == s;
    }
  }

  /** An address the pattern accepts is left alone by `trim`, so trimming before the
      test only matters for padded input. */
  lemma TrimKeepsEmail(s: string)
    requires IsEmail(s)
    ensures Trim(s) == s
  {
    EmailHasNoSpace(s);
    TrimWithoutSpace(s);
  }

  /** The class `[\s\-\(\)]` deleted from a mobile number before it is tested. */
  predicate IsMobileSeparator(c: char) {
    IsSpace(c) || c == '-' || c == '(' || c == ')'
  }

  /** `s.replace(/[\s\-\(\)]/g, '')`: the other characters, in order. */
  function StripMobileSeparators(s: string): (r: string)
    ensures |r| <= |s|
    ensures forall c :: c in r <==> c in s && !IsMobileSeparator(c)
  {
    if s == [] then []
    else
      var rest := StripMobileSeparators(s[1..]);
      assert forall c :: c in s <==> c == s[0] || c in s[1..];
      if IsMobileSeparator(s[0]) then rest else [s[0]] + rest
  }

  lemma {:induction false} StripAppend(a: string, b: string)
    ensures StripMobileSeparators(a + b) == StripMobileSeparators(a) + StripMobileSeparators(b)
  {
    if a == [] {
      assert a + b == b;
    } else {
      assert (a + b)[0] == a[0];
      assert (a + b)[1..] == a[1..] + b;
      StripAppend(a[1..], b);
    }
  }

  predicate IsDigit(c: char) {
    '0' <= c <= '9'
  }

  predicate AllDigits(t: string) {
    forall j :: 0 <= j < |t| ==> IsDigit(t[j])
  }

  /** `/^[\+]?[0-9]{8,15}$/.test(t)`: an optional leading '+', then 8 to 15 digits. */
  predicate MobilePattern(t: string) {
    var digits := if t != [] && t[0] == '+' then t[1..] else t;
    8 <= |digits| <= 15 && AllDigits(digits)
  }

  /** The registration form's mobile-number check. An accepted number is made of
      digits, at most one leading '+' and separators, with 8 to 15 digits once the
      separators are gone. */
  function IsMobileNumber(s: string): (r: bool)
    ensures r ==> forall j :: 0 <= j < |s| ==> IsDigit(s[j]) || s[j] == '+' || IsMobileSeparator(s[j])
    ensures r ==> 8 <= |StripMobileSeparators(s)| <= 16
  {
    var t := StripMobileSeparators(s);
    if MobilePattern(t) then
      PatternCharacters(t);
      KeptCharacters(s);
      true
    else
      false
  }

  predicate IsMobileChar(c: char) {
    IsDigit(c) || c == '+'
  }

  lemma PatternCharacters(t: string)
    requires MobilePattern(t)
    ensures forall j :: 0 <= j < |t| ==> IsMobileChar(t[j])
  {
    forall j | 0 <= j < |t|
      ensures IsMobileChar(t[j])
    {
      if t[0] == '+' && j > 0 {
        assert t[j] == t[1..][j - 1];
      }
    }
  }

  /** A character the stripping keeps is one of the stripped text's characters. */
  lemma {:induction false} KeptCharacters(s: string)
    requires forall j :: 0 <= j < |StripMobileSeparators(s)| ==> IsMobileChar(StripMobileSeparators(s)[j])
    ensures forall j :: 0 <= j < |s| ==> IsMobileChar(s[j]) || IsMobileSeparator(s[j])
  {
    if s != [] {
      var rest := StripMobileSeparators(s[1..]);
      if IsMobileSeparator(s[0]) {
        assert StripMobileSeparators(s) == rest;
      } else {
        assert StripMobileSeparators(s) == [s[0]] + rest;
        assert IsMobileChar(StripMobileSeparators(s)[0]);
        forall j | 0 <= j < |rest|
          ensures IsMobileChar(rest[j])
        {
          assert rest[j] == StripMobileSeparators(s)[j + 1];
        }
      }
      KeptCharacters(s[1..]);
      forall j | 1 <= j < |s|
        ensures IsMobileChar(s[j]) || IsMobileSeparator(s[j])
      {
        assert s[j] == s[1..][j - 1];
      }
    }
  }

  /** Spaces, dashes and brackets may be put anywhere without changing the verdict. */
  lemma {:induction false} MobileIgnoresSeparator(a: string, c: char, b: string)
    requires IsMobileSeparator(c)
    ensures IsMobileNumber(a + [c] + b) == IsMobileNumber(a + b)
  {
    assert a + [c] + b == (a + [c]) + b;
    StripAppend(a + [c], b);
    StripAppend(a, [c]);
    StripAppend(a, b);
    assert [c][1..] == [];
    assert StripMobileSeparators([c]) == [];
    assert StripMobileSeparators(a + [c] + b) == StripMobileSeparators(a + b);
  }
}
