/**
 * The ECMAScript string built-ins the core relies on: `trim`, `toUpperCase`,
 * `toLowerCase`, `join`, `split`, `includes`, `startsWith`, the `<` order on
 * strings, the `/\s+/` collapse and the quote-doubling `replace` calls.
 * Strings are sequences of Unicode scalar values.
 */
module JsString {
  import opened Wrappers

  /** WhiteSpace and LineTerminator code points (ECMA-262 sections 12.2 and 12.3):
      the set `trim`, `/\s/` and `Number()` skip. */
  predicate IsSpace(c: char) {
    || c == ' ' || c == '\t' || c == '\n' || c == '\r'
    || c == '\U{000B}' || c == '\U{000C}' || c == '\U{00A0}' || c == '\U{FEFF}'
    || c == '\U{1680}' || ('\U{2000}' <= c <= '\U{200A}')
    || c == '\U{2028}' || c == '\U{2029}' || c == '\U{202F}' || c == '\U{205F}' || c == '\U{3000}'
  }

  /** The LineTerminator code points: what `.` in a regular expression does not match. */
  predicate IsLineTerminator(c: char) {
    c == '\n' || c == '\r' || c == '\U{2028}' || c == '\U{2029}'
  }

  predicate IsDigit(c: char) { '0' <= c <= '9' }
  predicate IsAsciiUpper(c: char) { 'A' <= c <= 'Z' }
  predicate IsAsciiLower(c: char) { 'a' <= c <= 'z' }
  predicate IsAsciiAlnum(c: char) { IsDigit(c) || IsAsciiUpper(c) || IsAsciiLower(c) }
  predicate IsAscii(c: char) { c < '\U{0080}' }

  /** True when every character of `s` is blank. */
  predicate AllSpace(s: string) {
    forall i :: 0 <= i < |s| ==> IsSpace(s[i])
  }

  // ---------------------------------------------------------------- trim

  /** The number of blanks `s` opens with. */
  function LeadingSpaces(s: string): (n: nat)
    ensures n <= |s|
    ensures forall i :: 0 <= i < n ==> IsSpace(s[i])
    ensures n < |s| ==> !IsSpace(s[n])
  {
    if s != [] && IsSpace(s[0]) then 1 + LeadingSpaces(s[1..]) else 0
  }

  /** The number of blanks `s` closes with. */
  function TrailingSpaces(s: string): (n: nat)
    ensures n <= |s|
    ensures forall i :: |s| - n <= i < |s| ==> IsSpace(s[i])
    ensures n < |s| ==> !IsSpace(s[|s| - n - 1])
  {
    if s != [] && IsSpace(s[|s| - 1]) then 1 + TrailingSpaces(s[..|s| - 1]) else 0
  }

  /** `s.trimStart()` */
  function TrimStart(s: string): (r: string)
    ensures |r| <= |s| && r == s[|s| - |r|..]
    ensures AllSpace(s[..|s| - |r|])
    ensures r == [] || !IsSpace(r[0])
  {
    s[LeadingSpaces(s)..]
  }

  /** `s.trimEnd()` */
  function TrimEnd(s: string): (r: string)
    ensures |r| <= |s| && r == s[..|r|]
    ensures AllSpace(s[|r|..])
    ensures r == [] || !IsSpace(r[|r| - 1])
  {
    s[..|s| - TrailingSpaces(s)]
  }

  /** `s.trim()` */
  function Trim(s: string): string {
    TrimEnd(TrimStart(s))
  }

  lemma AllSpaceTrimStart(s: string)
    requires AllSpace(s)
    ensures TrimStart(s) == []
  {
    assert LeadingSpaces(s) == |s|;
  }

  /** A string trims to the empty string exactly when it is all blank. */
  lemma TrimEmptyIffAllSpace(s: string)
    ensures Trim(s) == "" <==> AllSpace(s)
  {
    var t := TrimStart(s);
    if AllSpace(s) {
      AllSpaceTrimStart(s);
    }
    if Trim(s) == "" {
      assert AllSpace(t) by {
        assert t[|TrimEnd(t)|..] == t;
      }
      assert |t| == 0;
      assert s[..|s|] == s;
    }
  }

  // ---------------------------------------------------------------- case mapping

  /** `String.prototype.toUpperCase` on one code point: ASCII and Latin-1 letters,
      and the special mappings that leave Latin-1 (ß, ÿ, µ, dotless i, long s). */
  function UpperChar(c: char): (r: string)
    ensures |r| >= 1
    ensures IsAscii(c) ==> |r| == 1 && IsAscii(r[0])
    ensures IsAsciiLower(c) ==> r == [(c as int - 32) as char]
    ensures !IsAsciiLower(c) && IsAscii(c) ==> r == [c]
  {
    if IsAsciiLower(c) then [(c as int - 32) as char]
    else if '\U{00E0}' <= c <= '\U{00FE}' && c != '\U{00F7}' then [(c as int - 32) as char]
    else if c == '\U{00FF}' then ['\U{0178}']
    else if c == '\U{00B5}' then ['\U{039C}']
    else if c == '\U{00DF}' then "SS"
    else if c == '\U{0131}' then "I"
    else if c == '\U{017F}' then "S"
    else [c]
  }

  /** `s.toUpperCase()` */
  function ToUpper(s: string): string {
    if s == [] then [] else UpperChar(s[0]) + ToUpper(s[1..])
  }

  lemma {:induction false} ToUpperAppend(a: string, b: string)
    ensures ToUpper(a + b) == ToUpper(a) + ToUpper(b)
  {
    if a == [] {
      assert a + b == b;
    } else {
      assert (a + b)[1..] == a[1..] + b;
      ToUpperAppend(a[1..], b);
    }
  }

  /** `String.prototype.toLowerCase` on one code point: ASCII and Latin-1 letters,
      the Kelvin sign and the dotted capital I. */
  function LowerChar(c: char): string {
    if IsAsciiUpper(c) then [(c as int + 32) as char]
    else if '\U{00C0}' <= c <= '\U{00DE}' && c != '\U{00D7}' then [(c as int + 32) as char]
    else if c == '\U{212A}' then "k"
    else if c == '\U{0130}' then "i\U{0307}"
    else [c]
  }

  /** `s.toLowerCase()` */
  function ToLower(s: string): string {
    if s == [] then [] else LowerChar(s[0]) + ToLower(s[1..])
  }

  lemma ToLowerCons(c: char, s: string)
    ensures ToLower([c] + s) == LowerChar(c) + ToLower(s)
  {
    assert ([c] + s)[1..] == s;
  }

  // ---------------------------------------------------------------- join and split

  /** `parts.join(sep)` */
  function Join(parts: seq<string>, sep: string): string {
    if |parts| == 0 then ""
    else if |parts| == 1 then parts[0]
    else parts[0] + sep + Join(parts[1..], sep)
  }

  /** Index of the first occurrence of `c` in `s`. */
  function IndexOf(s: string, c: char): (i: nat)
    requires c in s
    ensures i < |s| && s[i] == c && c !in s[..i]
  {
    if s[0] == c then 0 else 1 + IndexOf(s[1..], c)
  }

  /** `s.split(sep)` for a one-character separator. */
  function Split(s: string, sep: char): (r: seq<string>)
    ensures |r| >= 1
    decreases |s|
  {
    if sep !in s then [s]
    else
      var i := IndexOf(s, sep);
      [s[..i]] + Split(s[i + 1..], sep)
  }

  lemma {:induction false} IndexOfAfter(a: string, c: char, b: string)
    requires c !in a
    ensures c in a + [c] + b && IndexOf(a + [c] + b, c) == |a|
  {
    if a != [] {
      assert (a + [c] + b)[1..] == a[1..] + [c] + b;
      IndexOfAfter(a[1..], c, b);
    }
  }

  /** A join opens with its first part. */
  lemma JoinPrefix(first: string, rest: seq<string>, sep: string)
    ensures |Join([first] + rest, sep)| >= |first|
    ensures Join([first] + rest, sep)[..|first|] == first
  {
    var parts := [first] + rest;
    if rest != [] {
      assert parts[1..] == rest;
      assert Join(parts, sep) == first + (sep + Join(rest, sep));
    }
  }

  /** Joining pieces that do not contain the separator and splitting the result
      on it gives the pieces back. */
  lemma {:induction false} SplitJoin(parts: seq<string>, sep: char)
    requires |parts| >= 1
    requires forall k :: 0 <= k < |parts| ==> sep !in parts[k]
    ensures Split(Join(parts, [sep]), sep) == parts
  {
    if |parts| == 1 {
    } else {
      var rest := Join(parts[1..], [sep]);
      var s := parts[0] + [sep] + rest;
      assert s[..|parts[0]|] == parts[0];
      IndexOfAfter(parts[0], sep, rest);
      assert s[|parts[0]| + 1..] == rest;
      SplitJoin(parts[1..], sep);
    }
  }

  /** Number of occurrences of `c` in `s`. */
  function Count(s: string, c: char): nat {
    if s == [] then 0 else (if s[0] == c then 1 else 0) + Count(s[1..], c)
  }

  lemma {:induction false} CountAppend(a: string, b: string, c: char)
    ensures Count(a + b, c) == Count(a, c) + Count(b, c)
  {
    if a != [] {
      assert (a + b)[1..] == a[1..] + b;
      CountAppend(a[1..], b, c);
    } else {
      assert a + b == b;
    }
  }

  lemma {:induction false} CountAbsent(s: string, c: char)
    requires c !in s
    ensures Count(s, c) == 0
  {
    if s != [] { CountAbsent(s[1..], c); }
  }

  /** Joining pieces free of the separator character with that character leaves
      exactly one separator between consecutive pieces. */
  lemma {:induction false} JoinSeparatorCount(parts: seq<string>, sep: char)
    requires |parts| >= 1
    requires forall k :: 0 <= k < |parts| ==> sep !in parts[k]
    ensures Count(Join(parts, [sep]), sep) == |parts| - 1
  {
    if |parts| == 1 {
      CountAbsent(parts[0], sep);
    } else {
      CountAbsent(parts[0], sep);
      JoinSeparatorCount(parts[1..], sep);
      CountAppend(parts[0], [sep], sep);
      CountAppend(parts[0] + [sep], Join(parts[1..], [sep]), sep);
    }
  }

  /** Joining with a one-character separator puts at least one separator between
      consecutive pieces, whatever the pieces contain. */
  lemma {:induction false} JoinSeparatorCountAtLeast(parts: seq<string>, sep: char)
    requires |parts| >= 1
    ensures Count(Join(parts, [sep]), sep) >= |parts| - 1
  {
    if |parts| > 1 {
      JoinSeparatorCountAtLeast(parts[1..], sep);
      CountAppend(parts[0], [sep], sep);
      CountAppend(parts[0] + [sep], Join(parts[1..], [sep]), sep);
    }
  }

  // ---------------------------------------------------------------- searching

  /** `s.startsWith(p)` */
  predicate StartsWith(s: string, p: string) {
    |p| <= |s| && s[..|p|] == p
  }

  /** `s.endsWith(p)` */
  predicate EndsWith(s: string, p: string) {
    |p| <= |s| && s[|s| - |p|..] == p
  }

  /** A text starts with any prefix it was built from and ends with any suffix. */
  lemma AppendEnds(a: string, b: string)
    ensures StartsWith(a + b, a) && EndsWith(a + b, b)
  {
    assert (a + b)[..|a|] == a;
    assert (a + b)[|a|..] == b;
  }

  /** `s.includes(sub)` */
  predicate Includes(s: string, sub: string)
    decreases |s|
  {
    StartsWith(s, sub) || (s != [] && Includes(s[1..], sub))
  }

  /** The relational `<` on strings: lexicographic on code points. */
  predicate LexLess(a: string, b: string) {
    if a == [] then b != []
    else if b == [] then false
    else if a[0] != b[0] then a[0] < b[0]
    else LexLess(a[1..], b[1..])
  }

  /** ASCII case-insensitive equality, as a regular expression with the `i` flag
      compares ASCII letters. */
  predicate AsciiEqualIgnoreCase(a: string, b: string) {
    |a| == |b| && forall i :: 0 <= i < |a| ==> AsciiFold(a[i]) == AsciiFold(b[i])
  }

  function AsciiFold(c: char): char {
    if IsAsciiLower(c) then (c as int - 32) as char else c
  }

  // ---------------------------------------------------------------- replace

  /** `s.replace(/q/g, qq)`: every occurrence of `q` doubled. */
  function DoubleChar(s: string, q: char): (r: string)
    ensures |r| == |s| + Count(s, q)
  {
    if s == [] then [] else (if s[0] == q then [q, q] else [s[0]]) + DoubleChar(s[1..], q)
  }

  /** The inverse reading of a doubled body: every `q` must come in a pair. */
  function UndoubleChar(s: string, q: char): Option<string>
    decreases |s|
  {
    if s == [] then Some([])
    else if s[0] != q then
      (match UndoubleChar(s[1..], q) case Some(t) => Some([s[0]] + t) case None => None)
    else if |s| >= 2 && s[1] == q then
      (match UndoubleChar(s[2..], q) case Some(t) => Some([q] + t) case None => None)
    else None
  }

  /** Doubling a character can always be undone. */
  lemma {:induction false} UndoubleDouble(s: string, q: char)
    ensures UndoubleChar(DoubleChar(s, q), q) == Some(s)
  {
    if s != [] {
      UndoubleDouble(s[1..], q);
      var d := DoubleChar(s, q);
      if s[0] == q {
        assert d[2..] == DoubleChar(s[1..], q);
      } else {
        assert d[1..] == DoubleChar(s[1..], q);
      }
      assert [s[0]] + s[1..] == s;
    }
  }

  /** `s.replace(/c/g, '')`: every occurrence of `c` removed. */
  function RemoveChar(s: string, c: char): (r: string)
    ensures c !in r
    ensures |r| == |s| - Count(s, c)
  {
    if s == [] then [] else (if s[0] == c then [] else [s[0]]) + RemoveChar(s[1..], c)
  }

  /** `s.replace(/\s+/g, ' ')`: every run of blanks becomes one space. */
  function CollapseSpaces(s: string): (r: string)
    ensures forall i :: 0 <= i < |r| && IsSpace(r[i]) ==> r[i] == ' '
    ensures forall i :: 0 <= i < |r| - 1 ==> !(r[i] == ' ' && r[i + 1] == ' ')
    ensures s != [] && IsSpace(s[0]) <==> r != [] && r[0] == ' '
    decreases |s|
  {
    if s == [] then []
    else if IsSpace(s[0]) then " " + CollapseSpaces(TrimStart(s))
    else
      var rest := CollapseSpaces(s[1..]);
      [s[0]] + rest
  }
}
