/** String primitives of the two languages the system is written in: JavaScript's
    `trim`, `toLowerCase`, `includes`, the regular-expression class `\s` and template
    interpolation of a number; Python's `str.strip`, `str.split` and `str.join`. */
module Text {

  /** ECMAScript WhiteSpace and LineTerminator code points: what `String.prototype.trim`
      removes and what the regular-expression class `\s` matches. */
  predicate IsJsSpace(c: char) {
    c == '\t' || c == '\n' || c == '\U{B}' || c == '\U{C}' || c == '\r' || c == ' ' ||
    c == '\U{A0}' || c == '\U{1680}' || ('\U{2000}' <= c <= '\U{200A}') ||
    c == '\U{2028}' || c == '\U{2029}' || c == '\U{202F}' || c == '\U{205F}' ||
    c == '\U{3000}' || c == '\U{FEFF}'
  }

  /** The code points for which Python's `str.isspace` holds, which `str.strip()` removes. */
  predicate IsPySpace(c: char) {
    ('\t' <= c <= '\r') || ('\U{1C}' <= c <= '\U{1F}') || c == ' ' || c == '\U{85}' ||
    c == '\U{A0}' || c == '\U{1680}' || ('\U{2000}' <= c <= '\U{200A}') ||
    c == '\U{2028}' || c == '\U{2029}' || c == '\U{202F}' || c == '\U{205F}' ||
    c == '\U{3000}'
  }

  /** `s` without its leading characters that satisfy `isSpace`. */
  function TrimStart(s: string, isSpace: char -> bool): (r: string)
    ensures |r| <= |s| && r == s[|s| - |r|..]
    ensures forall k :: 0 <= k < |s| - |r| ==> isSpace(s[k])
    ensures r == [] || !isSpace(r[0])
  {
    if s != [] && isSpace(s[0]) then TrimStart(s[1..], isSpace) else s
  }

  /** `s` without its trailing characters that satisfy `isSpace`. */
  function TrimEnd(s: string, isSpace: char -> bool): (r: string)
    ensures |r| <= |s| && r == s[..|r|]
    ensures forall k :: |r| <= k < |s| ==> isSpace(s[k])
    ensures r == [] || !isSpace(r[|r| - 1])
  {
    if s != [] && isSpace(s[|s| - 1]) then TrimEnd(s[..|s| - 1], isSpace) else s
  }

  /** `s` without leading and trailing characters that satisfy `isSpace`. */
  function TrimBy(s: string, isSpace: char -> bool): (r: string)
    ensures r == [] || (!isSpace(r[0]) && !isSpace(r[|r| - 1]))
    ensures s != [] && !isSpace(s[0]) ==> r == TrimEnd(s, isSpace)
  {
    var t := TrimStart(s, isSpace);
    var r := TrimEnd(t, isSpace);
    assert r != [] ==> r[0] == t[0];
    r
  }

  /** Trimming leaves nothing exactly when every character is a space. */
  lemma TrimByEmpty(s: string, isSpace: char -> bool)
    ensures TrimBy(s, isSpace) == [] <==> forall k :: 0 <= k < |s| ==> isSpace(s[k])
  {
    var t := TrimStart(s, isSpace);
    if t != [] {
      assert t[0] == s[|s| - |t|];
    }
  }

  /** JavaScript's `String.prototype.trim`. */
  function Trim(s: string): string {
    TrimBy(s, IsJsSpace)
  }

  /** Python's `str.strip()` with no argument. */
  function Strip(s: string): string {
    TrimBy(s, IsPySpace)
  }

  /** What `str.strip()` returns neither starts nor ends with white space, and stripping
      it again changes nothing. */
  lemma StripClean(s: string)
    ensures var t := Strip(s); (t == [] || (!IsPySpace(t[0]) && !IsPySpace(t[|t| - 1]))) && Strip(t) == t
  {
    TrimByIdempotent(s, IsPySpace);
  }

  /** Trimming is idempotent. */
  lemma TrimByIdempotent(s: string, isSpace: char -> bool)
    ensures TrimBy(TrimBy(s, isSpace), isSpace) == TrimBy(s, isSpace)
  {
    var r := TrimBy(s, isSpace);
    if r != [] {
      assert TrimStart(r, isSpace) == r;
      assert TrimEnd(r, isSpace) == r;
    }
  }

  /** Trailing spaces of `b` are trimmed without touching `a`, provided `b` holds a
      character that is not a space. */
  lemma {:induction false} TrimEndAppend(a: string, b: string, isSpace: char -> bool)
    requires exists k :: 0 <= k < |b| && !isSpace(b[k])
    ensures TrimEnd(a + b, isSpace) == a + TrimEnd(b, isSpace)
  {
    assert b != [];
    if isSpace(b[|b| - 1]) {
      assert (a + b)[..|a + b| - 1] == a + b[..|b| - 1];
      var k :| 0 <= k < |b| && !isSpace(b[k]);
      assert k < |b| - 1 && b[..|b| - 1][k] == b[k];
      TrimEndAppend(a, b[..|b| - 1], isSpace);
    }
  }

  /** Appending to a string that ends in a non-space keeps it in front of the trimmed result. */
  lemma {:induction false} TrimEndKeepsPrefix(a: string, b: string, isSpace: char -> bool)
    requires a != [] && !isSpace(a[|a| - 1])
    ensures IsPrefixOf(a, TrimEnd(a + b, isSpace))
  {
    if b == [] {
      assert a + b == a;
    } else if isSpace(b[|b| - 1]) {
      assert (a + b)[..|a + b| - 1] == a + b[..|b| - 1];
      TrimEndKeepsPrefix(a, b[..|b| - 1], isSpace);
    } else {
      assert (a + b)[..|a|] == a;
    }
  }

  /** The two white-space sets differ by one character in each direction: ECMAScript also
      trims the byte-order mark, Python also strips the separators U+001C..U+001F and U+0085. */
  lemma SpaceSetsDiffer(c: char)
    ensures IsJsSpace(c) && !IsPySpace(c) <==> c == '\U{FEFF}'
    ensures IsPySpace(c) && !IsJsSpace(c) <==> ('\U{1C}' <= c <= '\U{1F}') || c == '\U{85}'
  {
  }

  /** ASCII lower-casing of one character. */
  function LowerChar(c: char): char {
    if 'A' <= c <= 'Z' then (c as int + 32) as char else c
  }

  /** JavaScript's `toLowerCase`, restricted to the ASCII letters. */
  function Lower(s: string): (r: string)
    ensures |r| == |s|
    ensures forall i :: 0 <= i < |s| ==> r[i] == LowerChar(s[i]) && !('A' <= r[i] <= 'Z')
  {
    seq(|s|, i requires 0 <= i < |s| => LowerChar(s[i]))
  }

  predicate IsPrefixOf(p: string, s: string) {
    |p| <= |s| && s[..|p|] == p
  }

  /** JavaScript's `String.prototype.includes`: `needle` occurs in `hay` at some position. */
  predicate Contains(hay: string, needle: string) {
    exists i :: 0 <= i <= |hay| && IsPrefixOf(needle, hay[i..])
  }

  /** Every string contains the empty string. */
  lemma ContainsEmpty(hay: string)
    ensures Contains(hay, "")
  {
    assert IsPrefixOf("", hay[0..]);
  }

  /** Python's `s.split(sep)` for a one-character separator: the pieces between separators. */
  function Split(s: string, sep: char): (r: seq<string>)
    ensures |r| >= 1
    ensures forall i :: 0 <= i < |r| ==> sep !in r[i]
  {
    if s == [] then [[]]
    else
      var rest := Split(s[1..], sep);
      if s[0] == sep then [[]] + rest
      else [[s[0]] + rest[0]] + rest[1..]
  }

  /** Python's `sep.join(parts)` for a one-character separator. */
  function Join(parts: seq<string>, sep: char): string {
    if |parts| == 0 then ""
    else if |parts| == 1 then parts[0]
    else parts[0] + [sep] + Join(parts[1..], sep)
  }

  /** Joining the pieces of a split gives back the original string. */
  lemma {:induction false} JoinSplit(s: string, sep: char)
    ensures Join(Split(s, sep), sep) == s
  {
    if s != [] {
      var rest := Split(s[1..], sep);
      JoinSplit(s[1..], sep);
      if s[0] == sep {
        assert Split(s, sep) == [[]] + rest;
        assert ([[]] + rest)[1..] == rest;
      } else {
        var parts := Split(s, sep);
        assert parts == [[s[0]] + rest[0]] + rest[1..];
        if |rest| == 1 {
          assert Join(rest, sep) == rest[0];
        } else {
          assert Join(rest, sep) == rest[0] + [sep] + Join(rest[1..], sep);
          assert parts[1..] == rest[1..];
        }
      }
    }
  }

  /** Splitting a join of separator-free pieces gives back the pieces. */
  lemma {:induction false} SplitJoin(parts: seq<string>, sep: char)
    requires |parts| >= 1
    requires forall i :: 0 <= i < |parts| ==> sep !in parts[i]
    ensures Split(Join(parts, sep), sep) == parts
  {
    if |parts| == 1 {
      SplitNoSeparator(parts[0], sep);
    } else {
      SplitJoin(parts[1..], sep);
      SplitAfter(parts[0], Join(parts[1..], sep), sep);
      assert [parts[0]] + parts[1..] == parts;
    }
  }

  lemma {:induction false} SplitNoSeparator(s: string, sep: char)
    requires sep !in s
    ensures Split(s, sep) == [s]
  {
    if s != [] {
      SplitNoSeparator(s[1..], sep);
      assert [s[0]] + s[1..] == s;
    }
  }

  lemma {:induction false} SplitAfter(a: string, b: string, sep: char)
    requires sep !in a
    ensures Split(a + [sep] + b, sep) == [a] + Split(b, sep)
  {
    if a == [] {
      assert a + [sep] + b == [sep] + b;
      assert ([sep] + b)[1..] == b;
    } else {
      assert (a + [sep] + b)[1..] == a[1..] + [sep] + b;
      SplitAfter(a[1..], b, sep);
      assert [a[0]] + a[1..] == a;
    }
  }

  function Digit(d: nat): (c: char)
    requires d < 10
  {
    ('0' as int + d) as char
  }

  /** The decimal numeral of `n`, as JavaScript interpolates a non-negative integer. */
  function DecimalDigits(n: nat): (r: string)
    ensures |r| >= 1
    ensures forall i :: 0 <= i < |r| ==> '0' <= r[i] <= '9'
    ensures r[0] == '0' <==> n == 0
  {
    if n < 10 then [Digit(n)] else DecimalDigits(n / 10) + [Digit(n % 10)]
  }

  /** The value of a string of decimal digits. */
  function DecimalValue(s: string): nat
    requires forall i :: 0 <= i < |s| ==> '0' <= s[i] <= '9'
  {
    if s == [] then 0 else DecimalValue(s[..|s| - 1]) * 10 + (s[|s| - 1] as int - '0' as int)
  }

  /** Reading back a numeral gives the number: the numeral names `n` and nothing else. */
  lemma {:induction false} DecimalRoundTrip(n: nat)
    ensures DecimalValue(DecimalDigits(n)) == n
  {
    if n >= 10 {
      DecimalRoundTrip(n / 10);
      var r := DecimalDigits(n);
      assert r[..|r| - 1] == DecimalDigits(n / 10);
    }
  }

  /** A code point outside the Basic Multilingual Plane: UTF-16 stores it as a surrogate pair. */
  predicate IsAstral(c: char) {
    c as int > 0xFFFF
  }

  /** JavaScript's `length`: the number of UTF-16 code units, two for an astral code point
      and one for any other. */
  function Utf16Length(s: string): (r: nat)
    ensures |s| <= r <= 2 * |s|
    ensures (forall i :: 0 <= i < |s| ==> !IsAstral(s[i])) ==> r == |s|
  {
    if s == [] then 0
    else
      assert forall i :: 0 <= i < |s[1..]| ==> s[1..][i] == s[i + 1];
      (if IsAstral(s[0]) then 2 else 1) + Utf16Length(s[1..])
  }
}
