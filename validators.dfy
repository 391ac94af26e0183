/** The form validators of src/utils/validators.ts. The tests of
    `isAlphanumeric` and `isStrongPassword` are written as matchers that follow
    their patterns left to right; the e-mail pattern is stated as a predicate
    and checked by locating its `@` and `.`. Each test's meaning is stated
    over the characters of the input. Strings are sequences of characters;
    `length` is their number of characters. */
module Validators {
  import opened Wrappers

  /** `[a-zA-Z0-9]` */
  predicate IsAsciiAlnum(c: char)
  {
    ('a' <= c <= 'z') || ('A' <= c <= 'Z') || ('0' <= c <= '9')
  }

  /** The characters JavaScript's `.` does not match (no `s` flag): the line
      terminators. */
  predicate IsLineTerminator(c: char)
  {
    c == '\n' || c == '\r' || c == '\U{2028}' || c == '\U{2029}'
  }

  /** JavaScript's `\s`: the white-space and line-terminator characters. */
  predicate IsWhitespace(c: char)
  {
    c == '\t' || c == '\n' || c == '\U{B}' || c == '\U{C}' || c == '\r' || c == ' '
    || c == '\U{A0}' || c == '\U{1680}' || ('\U{2000}' <= c <= '\U{200A}')
    || c == '\U{2028}' || c == '\U{2029}' || c == '\U{202F}' || c == '\U{205F}'
    || c == '\U{3000}' || c == '\U{FEFF}'
  }

  /** The three classes the password lookaheads search for. */
  datatype CharClass = Lower | Upper | Digit

  predicate InClass(c: char, cls: CharClass)
  {
    match cls
    case Lower => 'a' <= c <= 'z'
    case Upper => 'A' <= c <= 'Z'
    case Digit => '0' <= c <= '9'
  }

  /** `hasMinLength(text, minLength)`: `text.length >= minLength`. */
  function HasMinLength(text: string, minLength: int): (r: bool)
    ensures r <==> |text| >= minLength
    ensures minLength <= 0 ==> r
  {
    |text| >= minLength
  }

  /** `isInRange(value, min, max)`: both bounds inclusive. */
  function IsInRange(value: int, min: int, max: int): (r: bool)
    ensures r <==> min <= value <= max
    ensures min > max ==> !r
  {
    value >= min && value <= max
  }

  /** The matcher for `[a-zA-Z0-9]+$` at the start of `s`: one class
      character, then either the end or another match. */
  function MatchAlnumRun(s: string): (r: bool)
    ensures r <==> s != [] && forall i :: 0 <= i < |s| ==> IsAsciiAlnum(s[i])
  {
    |s| > 0 && IsAsciiAlnum(s[0]) && (|s| == 1 || MatchAlnumRun(s[1..]))
  }

  /** `isAlphanumeric(text)`: `/^[a-zA-Z0-9]+$/.test(text)`. The empty string
      is rejected. */
  function IsAlphanumeric(text: string): (r: bool)
    ensures r <==> text != [] && forall i :: 0 <= i < |text| ==> IsAsciiAlnum(text[i])
  {
    MatchAlnumRun(text)
  }

  /** The lookahead `(?=.*[x])` at the start of `s`: some character of the
      class is reached while `.*` consumes only non-terminators. */
  function Lookahead(s: string, cls: CharClass): (r: bool)
    ensures r <==> exists k :: 0 <= k < |s| && InClass(s[k], cls) && forall j :: 0 <= j < k ==> !IsLineTerminator(s[j])
  {
    if s == [] then false
    else if InClass(s[0], cls) then true
    else if IsLineTerminator(s[0]) then false
    else
      var r := Lookahead(s[1..], cls);
      assert forall k :: 1 <= k < |s| ==> s[k] == s[1..][k - 1];
      assert r ==> exists k :: 0 <= k < |s| && InClass(s[k], cls) && forall j :: 0 <= j < k ==> !IsLineTerminator(s[j]) by {
        if r {
          var k :| 0 <= k < |s[1..]| && InClass(s[1..][k], cls) && forall j :: 0 <= j < k ==> !IsLineTerminator(s[1..][j]);
          assert InClass(s[k + 1], cls);
          assert forall j :: 0 <= j < k + 1 ==> !IsLineTerminator(s[j]) by {
            forall j | 0 <= j < k + 1 ensures !IsLineTerminator(s[j]) {
              if j > 0 { assert s[j] == s[1..][j - 1]; }
            }
          }
        }
      }
      r
  }

  /** `.{n,}$` at the start of `s`, with the count of characters already
      consumed: only non-terminators up to the end, at least `n` in all. */
  function DotsToEnd(s: string, n: nat): (r: bool)
    ensures r <==> |s| >= n && forall i :: 0 <= i < |s| ==> !IsLineTerminator(s[i])
  {
    if s == [] then n == 0
    else !IsLineTerminator(s[0]) && DotsToEnd(s[1..], if n == 0 then 0 else n - 1)
  }

  /** `isStrongPassword(password)`:
      `/^(?=.*[a-z])(?=.*[A-Z])(?=.*\d).{8,}$/.test(password)`. The three
      lookaheads look from the start; then `.{8,}$` must reach the end. */
  function IsStrongPassword(password: string): (r: bool)
    ensures r <==>
      && |password| >= 8
      && (exists i :: 0 <= i < |password| && 'a' <= password[i] <= 'z')
      && (exists i :: 0 <= i < |password| && 'A' <= password[i] <= 'Z')
      && (exists i :: 0 <= i < |password| && '0' <= password[i] <= '9')
      && (forall i :: 0 <= i < |password| ==> !IsLineTerminator(password[i]))
  {
    Lookahead(password, Lower) && Lookahead(password, Upper) && Lookahead(password, Digit) && DotsToEnd(password, 8)
  }

  /** A strong password always passes the minimum-length check for 8. */
  lemma StrongPasswordHasMinLength(password: string)
    ensures IsStrongPassword(password) ==> HasMinLength(password, 8)
  {
  }

  /** `[^\s@]`: the class every part of an e-mail address is made of. */
  predicate IsAddressChar(c: char)
  {
    !IsWhitespace(c) && c != '@'
  }

  predicate AllAddressChars(s: string)
  {
    forall i :: 0 <= i < |s| ==> IsAddressChar(s[i])
  }

  /** The meaning of `/^[^\s@]+@[^\s@]+\.[^\s@]+$/`: the address is `a@b.c`
      with `a`, `b` and `c` non-empty runs of `[^\s@]` (`b` may itself hold
      dots). */
  ghost predicate MatchesEmailPattern(e: string)
  {
    exists at, dot ::
      && 0 < at && at + 1 < dot && dot + 1 < |e|
      && e[at] == '@' && e[dot] == '.'
      && AllAddressChars(e[..at]) && AllAddressChars(e[at + 1..dot]) && AllAddressChars(e[dot + 1..])
  }

  /** The first index of `c` in `s`, if any. */
  function IndexOf(s: string, c: char): (r: Option<nat>)
    ensures r.Some? ==> r.value < |s| && s[r.value] == c && forall j :: 0 <= j < r.value ==> s[j] != c
    ensures r.None? ==> forall j :: 0 <= j < |s| ==> s[j] != c
  {
    if s == [] then None
    else if s[0] == c then Some(0)
    else
      var r := IndexOf(s[1..], c);
      if r.Some? then Some(r.value + 1) else None
  }

  /** Whether `s` has no `\s` character. */
  function NoWhitespace(s: string): (r: bool)
    ensures r <==> forall i :: 0 <= i < |s| ==> !IsWhitespace(s[i])
  {
    s == [] || (!IsWhitespace(s[0]) && NoWhitespace(s[1..]))
  }

  /** Whether `d` has a `.` that is neither its first nor its last character. */
  function HasInnerDot(d: string): (r: bool)
    ensures r <==> exists i :: 0 < i < |d| - 1 && d[i] == '.'
  {
    if |d| < 3 then false
    else
      var k := IndexOf(d[1..|d| - 1], '.');
      assert forall i :: 0 < i < |d| - 1 ==> d[i] == d[1..|d| - 1][i - 1];
      k.Some?
  }

  /** The e-mail pattern checked by position: exactly one `@`, no white
      space, a non-empty part before the `@`, and after it a part with a `.`
      that is neither its first nor its last character. */
  function EmailByIndex(email: string): (r: bool)
  {
    && NoWhitespace(email)
    && match IndexOf(email, '@')
       case None => false
       case Some(at) => at > 0 && IndexOf(email[at + 1..], '@').None? && HasInnerDot(email[at + 1..])
  }

  /** Every string the check by position accepts matches the regular
      expression of `isValidEmail`. */
  lemma AcceptedMatchesPattern(e: string)
    requires EmailByIndex(e)
    ensures MatchesEmailPattern(e)
  {
    var at := IndexOf(e, '@').value;
    var d := e[at + 1..];
    var i :| 0 < i < |d| - 1 && d[i] == '.';
    var dot := at + 1 + i;
    assert e[dot] == '.';
    forall j | 0 <= j < |e| && j != at ensures IsAddressChar(e[j]) {
      if j > at { assert e[j] == d[j - at - 1]; }
    }
    assert AllAddressChars(e[..at]);
    assert AllAddressChars(e[at + 1..dot]);
    assert AllAddressChars(e[dot + 1..]);
  }

  /** Every string the regular expression matches is accepted by the
      character-level check. */
  lemma PatternIsAccepted(e: string, at: nat, dot: nat)
    requires 0 < at && at + 1 < dot && dot + 1 < |e|
    requires e[at] == '@' && e[dot] == '.'
    requires AllAddressChars(e[..at]) && AllAddressChars(e[at + 1..dot]) && AllAddressChars(e[dot + 1..])
    ensures EmailByIndex(e)
  {
    forall j | 0 <= j < |e| && j != at ensures IsAddressChar(e[j]) {
      if j < at { assert e[j] == e[..at][j]; }
      else if j < dot { assert e[j] == e[at + 1..dot][j - at - 1]; }
      else if j > dot { assert e[j] == e[dot + 1..][j - dot - 1]; }
    }
    assert NoWhitespace(e);
    assert IndexOf(e, '@') == Some(at);
    var d := e[at + 1..];
    assert IndexOf(d, '@').None? by {
      forall j | 0 <= j < |d| ensures d[j] != '@' { assert d[j] == e[at + 1 + j]; }
    }
    assert d[dot - at - 1] == '.';
    assert HasInnerDot(d);
  }

  /** The check by position accepts exactly the strings the regular
      expression of `isValidEmail` matches. */
  lemma EmailByIndexMatchesPattern(e: string)
    ensures EmailByIndex(e) <==> MatchesEmailPattern(e)
  {
    if EmailByIndex(e) {
      AcceptedMatchesPattern(e);
    }
    if MatchesEmailPattern(e) {
      var at: nat, dot: nat :| && 0 < at && at + 1 < dot && dot + 1 < |e|
        && e[at] == '@' && e[dot] == '.'
        && AllAddressChars(e[..at]) && AllAddressChars(e[at + 1..dot]) && AllAddressChars(e[dot + 1..]);
      PatternIsAccepted(e, at, dot);
    }
  }

  /** `isValidEmail(email)`: `/^[^\s@]+@[^\s@]+\.[^\s@]+$/.test(email)`. */
  function IsValidEmail(email: string): (r: bool)
    ensures r <==> MatchesEmailPattern(email)
  {
    EmailByIndexMatchesPattern(email);
    EmailByIndex(email)
  }

  /** The pattern read as a rule about characters: one `@` only, no white
      space, a non-empty local part, and a domain part with an inner dot. */
  lemma IsValidEmailCharacterized(e: string, at: nat)
    requires at < |e| && e[at] == '@'
    ensures IsValidEmail(e) <==>
      && (forall i :: 0 <= i < |e| ==> !IsWhitespace(e[i]))
      && (forall i :: 0 <= i < |e| && i != at ==> e[i] != '@')
      && at > 0
      && exists i :: at + 1 < i < |e| - 1 && e[i] == '.'
  {
    var d := e[at + 1..];
    var onlyOne := forall i :: 0 <= i < |e| && i != at ==> e[i] != '@';
    if onlyOne {
      assert IndexOf(e, '@') == Some(at);
      assert forall j :: 0 <= j < |d| ==> d[j] == e[at + 1 + j];
      assert (exists i :: 0 < i < |d| - 1 && d[i] == '.') ==> exists i :: at + 1 < i < |e| - 1 && e[i] == '.';
      assert (exists i :: at + 1 < i < |e| - 1 && e[i] == '.') ==> exists i :: 0 < i < |d| - 1 && d[i] == '.' by {
        if exists i :: at + 1 < i < |e| - 1 && e[i] == '.' {
          var i :| at + 1 < i < |e| - 1 && e[i] == '.';
          assert d[i - at - 1] == '.';
        }
      }
    }
  }
}
