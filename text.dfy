/** The JavaScript string primitives the portal relies on: the `\s` and `\w` character
    classes, line terminators, `toLowerCase` (ASCII letters), `trim`, `startsWith`,
    `endsWith`, `includes`, a global replace of a literal pattern, `join`, and the decimal
    rendering of a number by a template literal. A `char` is one Unicode scalar value, so a
    character outside the Basic Multilingual Plane counts as one character here where
    JavaScript counts two code units, and no string holds a lone surrogate. */
module Text {

  /** Characters matched by `\s`: the ECMAScript WhiteSpace and LineTerminator sets. */
  predicate IsSpace(c: char) {
    c == ' ' || c == '\t' || c == '\n' || c == '\U{000B}' || c == '\U{000C}' || c == '\r' ||
    c == '\U{00A0}' || c == '\U{1680}' || ('\U{2000}' <= c <= '\U{200A}') ||
    c == '\U{2028}' || c == '\U{2029}' || c == '\U{202F}' || c == '\U{205F}' || c == '\U{3000}' ||
    c == '\U{FEFF}'
  }

  /** Characters that `.` does not match and at which `$` matches in multiline mode. */
  predicate IsLineTerminator(c: char) {
    c == '\n' || c == '\r' || c == '\U{2028}' || c == '\U{2029}'
  }

  /** Characters matched by `\w`. */
  predicate IsWordChar(c: char) {
    ('a' <= c <= 'z') || ('A' <= c <= 'Z') || ('0' <= c <= '9') || c == '_'
  }

  /** The CJK range U+4E00..U+9FA5 that the slug filters keep. */
  predicate IsCjk(c: char) {
    '\U{4E00}' <= c <= '\U{9FA5}'
  }

  predicate IsAsciiUpper(c: char) {
    'A' <= c <= 'Z'
  }

  function LowerChar(c: char): (r: char)
    ensures !IsAsciiUpper(r)
    ensures !IsAsciiUpper(c) ==> r == c
  {
    if IsAsciiUpper(c) then (c as int + 32) as char else c
  }

  /** `toLowerCase`, restricted to the ASCII letters. */
  function Lower(s: string): (r: string)
    ensures |r| == |s|
    ensures forall i :: 0 <= i < |s| ==> r[i] == LowerChar(s[i])
  {
    seq(|s|, i requires 0 <= i < |s| => LowerChar(s[i]))
  }

  predicate NoAsciiUpper(s: string) {
    forall i :: 0 <= i < |s| ==> !IsAsciiUpper(s[i])
  }

  lemma LowerIdentity(s: string)
    requires NoAsciiUpper(s)
    ensures Lower(s) == s
  {
  }

  predicate AllSpace(s: string) {
    forall i :: 0 <= i < |s| ==> IsSpace(s[i])
  }

  function TrimStart(s: string): (r: string)
    ensures |r| <= |s| && r == s[|s| - |r|..]
    ensures AllSpace(s[..|s| - |r|])
    ensures r != [] ==> !IsSpace(r[0])
  {
    if s == [] then s
    else if IsSpace(s[0]) then TrimStart(s[1..])
    else s
  }

  function TrimEnd(s: string): (r: string)
    ensures |r| <= |s| && r == s[..|r|]
    ensures AllSpace(s[|r|..])
    ensures r != [] ==> !IsSpace(r[|r| - 1])
  {
    if s == [] then s
    else if IsSpace(s[|s| - 1]) then TrimEnd(s[..|s| - 1])
    else s
  }

  /** How many white-space characters `trim` removes from the front. */
  function TrimOffset(s: string): (k: nat)
    ensures k <= |s|
  {
    |s| - |TrimStart(s)|
  }

  /** `String.prototype.trim`: the result is the slice of `s` that starts after the
      leading white space (see `TrimShape` for what is removed). */
  function Trim(s: string): (r: string)
    ensures var k := TrimOffset(s); k + |r| <= |s| && r == s[k..k + |r|]
  {
    var a := TrimStart(s);
    var r := TrimEnd(a);
    var k := TrimOffset(s);
    assert a == s[k..];
    assert r == a[..|r|];
    assert s[k..][..|r|] == s[k..k + |r|];
    r
  }

  /** What `trim` removes is white space at both ends, and what it keeps neither starts nor
      ends with white space. */
  lemma TrimShape(s: string)
    ensures var k := TrimOffset(s); var r := Trim(s);
      && AllSpace(s[..k]) && AllSpace(s[k + |r|..])
      && (r != [] ==> !IsSpace(r[0]) && !IsSpace(r[|r| - 1]))
  {
    var a := TrimStart(s);
    var r := TrimEnd(a);
    var k := TrimOffset(s);
    assert s[k + |r|..] == a[|r|..];
  }

  lemma TrimIdentity(s: string)
    requires s == [] || (!IsSpace(s[0]) && !IsSpace(s[|s| - 1]))
    ensures Trim(s) == s
  {
  }

  /** Drops the leading characters that satisfy `p`. */
  function DropWhile(s: string, p: char -> bool): (r: string)
    ensures |r| <= |s| && r == s[|s| - |r|..]
    ensures forall i :: 0 <= i < |s| - |r| ==> p(s[i])
    ensures r != [] ==> !p(r[0])
    decreases |s|
  {
    if s != [] && p(s[0]) then DropWhile(s[1..], p) else s
  }

  /** Drops the trailing characters that satisfy `p`. */
  function DropWhileEnd(s: string, p: char -> bool): (r: string)
    ensures |r| <= |s| && r == s[..|r|]
    ensures forall i :: |r| <= i < |s| ==> p(s[i])
    ensures r != [] ==> !p(r[|r| - 1])
    decreases |s|
  {
    if s != [] && p(s[|s| - 1]) then DropWhileEnd(s[..|s| - 1], p) else s
  }

  function StartsWith(s: string, p: string): bool {
    |p| <= |s| && s[..|p|] == p
  }

  function EndsWith(s: string, p: string): bool {
    |p| <= |s| && s[|s| - |p|..] == p
  }

  predicate OccursAt(s: string, p: string, i: int) {
    0 <= i && i + |p| <= |s| && s[i..i + |p|] == p
  }

  /** `String.prototype.includes`. */
  predicate Contains(s: string, p: string) {
    exists i | 0 <= i <= |s| - |p| :: OccursAt(s, p, i)
  }

  /** `pat` occurs nowhere in `s`, as a recursion over the positions of `s`. */
  predicate Avoids(s: string, pat: string)
    decreases |s|
  {
    |s| < |pat| || (s[..|pat|] != pat && Avoids(s[1..], pat))
  }

  lemma {:induction false} AvoidsSuffix(s: string, pat: string, k: nat)
    requires Avoids(s, pat) && k <= |s|
    ensures Avoids(s[k..], pat)
    decreases k
  {
    if k > 0 {
      AvoidsSuffix(s, pat, k - 1);
      assert s[k..] == s[k - 1..][1..];
    }
  }

  lemma {:induction false} AvoidsPrefix(s: string, pat: string, n: nat)
    requires Avoids(s, pat) && n <= |s|
    ensures Avoids(s[..n], pat)
    decreases n
  {
    if n >= |pat| && n > 0 {
      AvoidsPrefix(s[1..], pat, n - 1);
      assert s[..n][1..] == s[1..][..n - 1];
      assert s[..n][..|pat|] == s[..|pat|];
    }
  }

  /** The recursive form agrees with `includes`. */
  lemma {:induction false} AvoidsNotContains(s: string, pat: string)
    ensures Avoids(s, pat) <==> !Contains(s, pat)
    decreases |s|
  {
    if s == [] {
      if pat == [] {
        assert OccursAt(s, pat, 0);
      }
    } else if |s| >= |pat| {
      AvoidsNotContains(s[1..], pat);
      if Contains(s, pat) {
        var i :| 0 <= i <= |s| - |pat| && OccursAt(s, pat, i);
        if i > 0 {
          assert s[1..][i - 1..i - 1 + |pat|] == s[i..i + |pat|];
          assert OccursAt(s[1..], pat, i - 1);
        }
      }
      if Contains(s[1..], pat) {
        var i :| 0 <= i <= |s| - 1 - |pat| && OccursAt(s[1..], pat, i);
        assert s[1..][i..i + |pat|] == s[i + 1..i + 1 + |pat|];
        assert OccursAt(s, pat, i + 1);
      }
      if s[..|pat|] == pat {
        assert OccursAt(s, pat, 0);
      }
    }
  }

  /** A global replace of a literal, non-empty `pat`: occurrences are found left
      to right and do not overlap. */
  function ReplaceAll(s: string, pat: string, rep: string): (r: string)
    requires pat != []
    decreases |s|
  {
    if |s| < |pat| then s
    else if s[..|pat|] == pat then rep + ReplaceAll(s[|pat|..], pat, rep)
    else [s[0]] + ReplaceAll(s[1..], pat, rep)
  }

  /** A pattern whose first character is missing from the text does not occur in it. */
  lemma HeadAbsentNotContains(s: string, p: string)
    requires |p| >= 1 && p[0] !in s
    ensures !Contains(s, p)
  {
    forall i | 0 <= i <= |s| - |p| ensures !OccursAt(s, p, i) {
      assert s[i..i + |p|][0] == s[i];
    }
  }

  /** Replacing a pattern that does not occur changes nothing. */
  lemma {:induction false} ReplaceAllAbsent(s: string, pat: string, rep: string)
    requires pat != [] && !Contains(s, pat)
    ensures ReplaceAll(s, pat, rep) == s
    decreases |s|
  {
    if |s| >= |pat| {
      assert !OccursAt(s, pat, 0);
      assert s[..|pat|] != pat;
      forall i | OccursAt(s[1..], pat, i) ensures false {
        assert s[1..][i..i + |pat|] == s[i + 1..i + 1 + |pat|];
        assert OccursAt(s, pat, i + 1);
      }
      ReplaceAllAbsent(s[1..], pat, rep);
    }
  }

  /** Removing every occurrence of one character leaves none of it. */
  lemma {:induction false} ReplaceAllCharGone(s: string, c: char, rep: string)
    requires c !in rep
    ensures c !in ReplaceAll(s, [c], rep)
    decreases |s|
  {
    if |s| >= 1 {
      ReplaceAllCharGone(s[1..], c, rep);
    }
  }

  /** `parts.join(sep)`. */
  function Join(parts: seq<string>, sep: string): (r: string)
    ensures |parts| == 1 ==> r == parts[0]
    ensures parts == [] ==> r == []
  {
    if parts == [] then []
    else if |parts| == 1 then parts[0]
    else parts[0] + sep + Join(parts[1..], sep)
  }

  function DigitChar(d: nat): (c: char)
    requires d < 10
  {
    ('0' as int + d) as char
  }

  /** `${n}` for a non-negative integer: its decimal digits, most significant first. */
  function DecimalString(n: nat): (r: string)
    ensures |r| >= 1
    ensures forall i :: 0 <= i < |r| ==> '0' <= r[i] <= '9'
    decreases n
  {
    if n < 10 then [DigitChar(n)]
    else DecimalString(n / 10) + [DigitChar(n % 10)]
  }

  /** Reads a string of decimal digits back into a number. */
  function ParseDecimal(s: string): nat
    decreases |s|
  {
    if s == [] then 0
    else
      var d := s[|s| - 1] as int - '0' as int;
      ParseDecimal(s[..|s| - 1]) * 10 + (if 0 <= d < 10 then d else 0)
  }

  /** Rendering a number and reading it back gives the number. */
  lemma {:induction false} DecimalRoundTrip(n: nat)
    ensures ParseDecimal(DecimalString(n)) == n
    decreases n
  {
    if n >= 10 {
      var s := DecimalString(n);
      assert s[..|s| - 1] == DecimalString(n / 10);
      DecimalRoundTrip(n / 10);
    }
  }

  /** Different numbers render differently. */
  lemma DecimalInjective(m: nat, n: nat)
    requires m != n
    ensures DecimalString(m) != DecimalString(n)
  {
    DecimalRoundTrip(m);
    DecimalRoundTrip(n);
  }

  /** Removal of a trailing ".md" in any letter case. */
  function DropMdSuffix(t: string): (r: string)
    ensures r == t || (|t| >= 3 && r == t[..|t| - 3])
  {
    if |t| >= 3 && t[|t| - 3] == '.' && Lower(t[|t| - 2..]) == "md" then t[..|t| - 3] else t
  }

}
