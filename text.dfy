/** String primitives the forms rely on, in JavaScript's terms: the white
    space of `\s` and `trim()`, UTF-16 lengths, `split` on one character,
    and the character classes that replace the regular expressions. */
module Text {

  /** ECMAScript WhiteSpace and LineTerminator code points: the characters
      matched by `\s` and removed by `String.prototype.trim`. */
  predicate IsSpace(c: char)
  {
    || c == ' ' || c == '\t' || c == '\n' || c == '\r'
    || c == '\U{000B}' || c == '\U{000C}' || c == '\U{00A0}' || c == '\U{1680}'
    || ('\U{2000}' <= c <= '\U{200A}')
    || c == '\U{2028}' || c == '\U{2029}' || c == '\U{202F}' || c == '\U{205F}'
    || c == '\U{3000}' || c == '\U{FEFF}'
  }

  /** A string that `trim()` turns into `''`. */
  predicate IsBlank(s: string)
  {
    forall i :: 0 <= i < |s| ==> IsSpace(s[i])
  }

  predicate IsAsciiLetter(c: char)
  {
    ('a' <= c <= 'z') || ('A' <= c <= 'Z')
  }

  /** `\d` without the `u` flag: ASCII digits only. */
  predicate IsAsciiDigit(c: char)
  {
    '0' <= c <= '9'
  }

  /** `\w`: ASCII letters, ASCII digits and the underscore. */
  predicate IsWordChar(c: char)
  {
    IsAsciiLetter(c) || IsAsciiDigit(c) || c == '_'
  }

  /** Number of white-space characters at the start of `s`. */
  function LeadingSpaces(s: string): (k: nat)
    ensures k <= |s|
    ensures forall i :: 0 <= i < k ==> IsSpace(s[i])
    ensures k == |s| || !IsSpace(s[k])
  {
    if s == [] || !IsSpace(s[0]) then 0 else 1 + LeadingSpaces(s[1..])
  }

  /** Number of white-space characters at the end of `s`. */
  function TrailingSpaces(s: string): (k: nat)
    ensures k <= |s|
    ensures forall i :: |s| - k <= i < |s| ==> IsSpace(s[i])
    ensures k == |s| || !IsSpace(s[|s| - 1 - k])
  {
    if s == [] || !IsSpace(s[|s| - 1]) then 0 else 1 + TrailingSpaces(s[..|s| - 1])
  }

  /** `s.trim()`: the leading, then the trailing white space removed. */
  function Trim(s: string): (r: string)
    ensures |r| <= |s|
    ensures r == [] || (!IsSpace(r[0]) && !IsSpace(r[|r| - 1]))
    ensures r == [] <==> IsBlank(s)
    ensures exists k :: 0 <= k <= |s| - |r| && r == s[k..k + |r|] && IsBlank(s[..k]) && IsBlank(s[k + |r|..])
  {
    var k := LeadingSpaces(s);
    var rest := s[k..];
    var r := rest[..|rest| - TrailingSpaces(rest)];
    TrimSlices(s, k, rest, r);
    r
  }

  /** The pieces `Trim` cuts `s` into: blank, kept, blank. */
  lemma TrimSlices(s: string, k: nat, rest: string, r: string)
    requires k == LeadingSpaces(s) && rest == s[k..] && r == rest[..|rest| - TrailingSpaces(rest)]
    ensures k + |r| <= |s| && r == s[k..k + |r|]
    ensures IsBlank(s[..k]) && IsBlank(s[k + |r|..])
    ensures IsBlank(s) <==> r == []
  {
    assert IsBlank(s) <==> rest == [] by {
      if rest == [] {
        assert k == |s|;
      }
    }
    assert s[k + |r|..] == rest[|r|..];
    assert IsBlank(rest[|r|..]);
  }

  /** `s.length` in JavaScript: UTF-16 code units, two for a character
      outside the Basic Multilingual Plane. */
  function Utf16Length(s: string): (n: nat)
    ensures |s| <= n <= 2 * |s|
  {
    if s == [] then 0
    else (if s[0] as int > 0xFFFF then 2 else 1) + Utf16Length(s[1..])
  }

  lemma {:induction false} Utf16LengthAppend(a: string, b: string)
    ensures Utf16Length(a + b) == Utf16Length(a) + Utf16Length(b)
  {
    if a == [] {
      assert a + b == b;
    } else {
      assert (a + b)[0] == a[0];
      assert (a + b)[1..] == a[1..] + b;
      Utf16LengthAppend(a[1..], b);
    }
  }

  /** A string of Basic Multilingual Plane characters has as many code
      units as characters. */
  lemma {:induction false} Utf16LengthOfBmp(s: string)
    requires forall i :: 0 <= i < |s| ==> s[i] as int <= 0xFFFF
    ensures Utf16Length(s) == |s|
  {
    if s != [] {
      Utf16LengthOfBmp(s[1..]);
    }
  }

  /** `s.split(sep)` for a one-character separator. */
  function Split(s: string, sep: char): (parts: seq<string>)
    ensures |parts| >= 1
    ensures forall i :: 0 <= i < |parts| ==> sep !in parts[i]
    decreases |s|
  {
    if sep !in s then [s]
    else
      var k := IndexOf(s, sep);
      [s[..k]] + Split(s[k + 1..], sep)
  }

  /** The first position of `c` in `s`. */
  function IndexOf(s: string, c: char): (k: nat)
    requires c in s
    ensures k < |s| && s[k] == c && c !in s[..k]
  {
    if s[0] == c then 0 else 1 + IndexOf(s[1..], c)
  }

  /** `parts.join(sep)`. */
  function Join(parts: seq<string>, sep: char): (s: string)
    requires |parts| >= 1
  {
    if |parts| == 1 then parts[0] else parts[0] + [sep] + Join(parts[1..], sep)
  }

  /** Splitting loses nothing: joining the parts with the separator gives
      the string back. */
  lemma {:induction false} JoinSplit(s: string, sep: char)
    ensures Join(Split(s, sep), sep) == s
    decreases |s|
  {
    if sep in s {
      var k := IndexOf(s, sep);
      var rest := s[k + 1..];
      var parts := Split(s, sep);
      assert parts == [s[..k]] + Split(rest, sep);
      JoinSplit(rest, sep);
      assert parts[0] == s[..k] && parts[1..] == Split(rest, sep);
      assert Join(parts, sep) == s[..k] + [sep] + rest;
      assert s == s[..k] + [sep] + rest;
    }
  }

  /** Splitting a join of separator-free parts gives the parts back. */
  lemma {:induction false} SplitJoin(parts: seq<string>, sep: char)
    requires |parts| >= 1
    requires forall i :: 0 <= i < |parts| ==> sep !in parts[i]
    ensures Split(Join(parts, sep), sep) == parts
  {
    if |parts| > 1 {
      var s := Join(parts, sep);
      var head := parts[0];
      var tail := Join(parts[1..], sep);
      assert s == head + [sep] + tail;
      assert s[|head|] == sep;
      assert sep in s;
      IndexOfPrefix(head, sep, tail);
      assert s[..|head|] == head;
      assert s[|head| + 1..] == tail;
      SplitJoin(parts[1..], sep);
    }
  }

  lemma IndexOfPrefix(head: string, c: char, tail: string)
    requires c !in head
    ensures c in head + [c] + tail && IndexOf(head + [c] + tail, c) == |head|
  {
    var s := head + [c] + tail;
    assert s[|head|] == c;
    assert forall i :: 0 <= i < |head| ==> s[i] == head[i] && s[i] in head;
    var k := IndexOf(s, c);
    assert forall i :: 0 <= i < k ==> s[..k][i] == s[i];
  }

  /** The part of `s` before the first `c`: `s.split(c)[0]`. */
  function Before(s: string, c: char): (r: string)
    ensures c !in r
    ensures r <= s
    ensures c !in s ==> r == s
  {
    if c in s then s[..IndexOf(s, c)] else s
  }

  lemma BeforeIsFirstPart(s: string, c: char)
    ensures Before(s, c) == Split(s, c)[0]
  {
  }

  /** Neither white space nor `@`: the class `[^\s@]`. */
  predicate NoSpaceOrAt(s: string)
  {
    forall i :: 0 <= i < |s| ==> !IsSpace(s[i]) && s[i] != '@'
  }

  /** `/^[^\s@]+@[^\s@]+\.[^\s@]+$/.test(s)`, stated by the positions of
      the `@` and of a later `.`. */
  predicate IsEmailShape(s: string)
  {
    exists at, dot | 0 < at && at + 1 < dot && dot + 1 < |s| ::
      && s[at] == '@' && s[dot] == '.'
      && NoSpaceOrAt(s[..at]) && NoSpaceOrAt(s[at + 1..dot]) && NoSpaceOrAt(s[dot + 1..])
  }

  /** The pattern as written: one or more non-space non-`@` characters, an
      `@`, one or more, a `.`, one or more. */
  ghost predicate MatchesEmailPattern(s: string)
  {
    exists local, host, tld ::
      && |local| > 0 && |host| > 0 && |tld| > 0
      && NoSpaceOrAt(local) && NoSpaceOrAt(host) && NoSpaceOrAt(tld)
      && s == local + "@" + host + "." + tld
  }

  lemma EmailShapeIsPattern(s: string)
    ensures IsEmailShape(s) <==> MatchesEmailPattern(s)
  {
    if IsEmailShape(s) {
      EmailShapeGivesPattern(s);
    }
    if MatchesEmailPattern(s) {
      var local, host, tld :|
        && |local| > 0 && |host| > 0 && |tld| > 0
        && NoSpaceOrAt(local) && NoSpaceOrAt(host) && NoSpaceOrAt(tld)
        && s == local + "@" + host + "." + tld;
      PatternGivesEmailShape(s, local, host, tld);
    }
  }

  lemma EmailShapeGivesPattern(s: string)
    requires IsEmailShape(s)
    ensures MatchesEmailPattern(s)
  {
    var at, dot :| 0 < at && at + 1 < dot && dot + 1 < |s|
      && s[at] == '@' && s[dot] == '.'
      && NoSpaceOrAt(s[..at]) && NoSpaceOrAt(s[at + 1..dot]) && NoSpaceOrAt(s[dot + 1..]);
    ShapeParts(s, at, dot);
  }

  /** Cutting at the `@` and the `.` gives back the address. */
  lemma ShapeParts(s: string, at: nat, dot: nat)
    requires at < dot < |s| && s[at] == '@' && s[dot] == '.'
    ensures s == s[..at] + "@" + s[at + 1..dot] + "." + s[dot + 1..]
  {
    assert s[at..at + 1] == "@" && s[dot..dot + 1] == ".";
    assert s[..dot] == s[..at] + s[at..at + 1] + s[at + 1..dot];
    assert s == s[..dot] + s[dot..dot + 1] + s[dot + 1..];
  }

  lemma PatternGivesEmailShape(s: string, local: string, host: string, tld: string)
    requires |local| > 0 && |host| > 0 && |tld| > 0
    requires NoSpaceOrAt(local) && NoSpaceOrAt(host) && NoSpaceOrAt(tld)
    requires s == local + "@" + host + "." + tld
    ensures IsEmailShape(s)
  {
    var at, dot := |local|, |local| + 1 + |host|;
    assert s[..at] == local;
    assert s[at + 1..dot] == host;
    assert s[dot + 1..] == tld;
    assert s[at] == '@' && s[dot] == '.';
  }

  /** An address of the required shape holds exactly one `@` and no white
      space. */
  lemma EmailShapeHasOneAt(s: string)
    requires IsEmailShape(s)
    ensures forall i :: 0 <= i < |s| ==> !IsSpace(s[i])
    ensures exists at :: 0 <= at < |s| && s[at] == '@' && forall i :: 0 <= i < |s| && i != at ==> s[i] != '@'
  {
    var at, dot :| 0 < at && at + 1 < dot && dot + 1 < |s|
      && s[at] == '@' && s[dot] == '.'
      && NoSpaceOrAt(s[..at]) && NoSpaceOrAt(s[at + 1..dot]) && NoSpaceOrAt(s[dot + 1..]);
    forall i | 0 <= i < |s| && i != at
      ensures s[i] != '@' && !IsSpace(s[i])
    {
      ShapeChar(s, at, dot, i);
    }
  }

  /** Every character but the `@` lies in one of the three parts. */
  lemma ShapeChar(s: string, at: nat, dot: nat, i: nat)
    requires at < dot < |s| && s[dot] == '.' && i < |s| && i != at
    requires NoSpaceOrAt(s[..at]) && NoSpaceOrAt(s[at + 1..dot]) && NoSpaceOrAt(s[dot + 1..])
    ensures s[i] != '@' && !IsSpace(s[i])
  {
    if i < at {
      assert s[i] == s[..at][i];
    } else if i < dot {
      assert s[i] == s[at + 1..dot][i - at - 1];
    } else if i > dot {
      assert s[i] == s[dot + 1..][i - dot - 1];
    }
  }
}
