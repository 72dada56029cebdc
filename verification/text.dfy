/**
  String operations the pages rely on, stated over Dafny strings (sequences of
  characters): the ASCII case fold that stands for JavaScript's toLowerCase,
  substring search (String.prototype.includes), whitespace trimming
  (String.prototype.trim), decimal rendering of a count inside a template
  literal, and String.prototype.split on one character.
*/
module Text {

  // ---------------------------------------------------------------------------
  // Character classes

  predicate IsDigit(c: char) {
    '0' <= c <= '9'
  }

  predicate IsUpperLetter(c: char) {
    'A' <= c <= 'Z'
  }

  /** The characters matched by `\s` in a JavaScript regular expression and
      removed by String.prototype.trim: white space and line terminators. */
  predicate IsJsSpace(c: char) {
    var n := c as int;
    n == 0x09 || n == 0x0A || n == 0x0B || n == 0x0C || n == 0x0D || n == 0x20
    || n == 0xA0 || n == 0x1680 || (0x2000 <= n <= 0x200A)
    || n == 0x2028 || n == 0x2029 || n == 0x202F || n == 0x205F
    || n == 0x3000 || n == 0xFEFF
  }

  // ---------------------------------------------------------------------------
  // Case folding

  /** Lower-cases the letters A-Z and leaves every other character alone. */
  function LowerChar(c: char): (r: char)
    ensures IsUpperLetter(c) ==> 'a' <= r <= 'z' && r as int == c as int + 32
    ensures !IsUpperLetter(c) ==> r == c
    ensures !IsUpperLetter(r)
  {
    if IsUpperLetter(c) then (c as int + 32) as char else c
  }

  function Lower(s: string): (r: string)
    ensures |r| == |s|
    ensures forall i :: 0 <= i < |s| ==> r[i] == LowerChar(s[i])
  {
    if s == [] then [] else [LowerChar(s[0])] + Lower(s[1..])
  }

  /** Folding twice is the same as folding once. */
  lemma LowerIdempotent(s: string)
    ensures Lower(Lower(s)) == Lower(s)
  {
    assert forall i :: 0 <= i < |s| ==> Lower(Lower(s))[i] == Lower(s)[i];
  }

  // ---------------------------------------------------------------------------
  // Substring search

  /** `needle` occurs in `hay` starting at index `i`. */
  ghost predicate OccursAt(hay: string, needle: string, i: int) {
    0 <= i && i + |needle| <= |hay| && hay[i..i + |needle|] == needle
  }

  lemma OccursShift(hay: string, needle: string)
    requires hay != [] && !(needle <= hay)
    ensures (exists i :: OccursAt(hay, needle, i)) <==> (exists j :: OccursAt(hay[1..], needle, j))
  {
    assert OccursAt(hay, needle, 0) ==> needle <= hay;
    if i :| OccursAt(hay, needle, i) {
      assert hay[1..][i - 1..i - 1 + |needle|] == hay[i..i + |needle|];
      assert OccursAt(hay[1..], needle, i - 1);
    }
    if j :| OccursAt(hay[1..], needle, j) {
      assert hay[1..][j..j + |needle|] == hay[j + 1..j + 1 + |needle|];
      assert OccursAt(hay, needle, j + 1);
    }
  }

  /** String.prototype.includes: `needle` is a contiguous part of `hay`. */
  function Includes(hay: string, needle: string): (b: bool)
    ensures b <==> exists i :: OccursAt(hay, needle, i)
    decreases |hay|
  {
    if needle <= hay then
      assert OccursAt(hay, needle, 0);
      true
    else if hay == [] then
      false
    else
      OccursShift(hay, needle);
      Includes(hay[1..], needle)
  }

  /** Every character of a contained needle occurs in the text. */
  lemma IncludedCharsOccur(hay: string, needle: string)
    ensures Includes(hay, needle) ==> forall c :: c in needle ==> c in hay
  {
    if Includes(hay, needle) {
      var i :| OccursAt(hay, needle, i);
      forall c | c in needle ensures c in hay {
        var k :| 0 <= k < |needle| && needle[k] == c;
        assert hay[i + k] == hay[i..i + |needle|][k];
      }
    }
  }

  /** `field.toLowerCase().includes(query.toLowerCase())`. */
  predicate ContainsFolded(field: string, query: string) {
    Includes(Lower(field), Lower(query))
  }

  lemma EmptyQueryMatches(field: string)
    ensures Includes(field, [])
    ensures ContainsFolded(field, [])
  {
  }

  /** The search is case-insensitive: folding either side first changes nothing. */
  lemma ContainsFoldedIgnoresCase(field: string, query: string)
    ensures ContainsFolded(Lower(field), query) == ContainsFolded(field, query)
    ensures ContainsFolded(field, Lower(query)) == ContainsFolded(field, query)
  {
    LowerIdempotent(field);
    LowerIdempotent(query);
  }

  // ---------------------------------------------------------------------------
  // Trimming

  function TrimStart(s: string): (r: string)
    ensures |r| <= |s| && r == s[|s| - |r|..]
    ensures r != [] ==> !IsJsSpace(r[0])
  {
    if s != [] && IsJsSpace(s[0]) then TrimStart(s[1..]) else s
  }

  function TrimEnd(s: string): (r: string)
    ensures r <= s
    ensures r != [] ==> !IsJsSpace(r[|r| - 1])
  {
    if s != [] && IsJsSpace(s[|s| - 1]) then TrimEnd(s[..|s| - 1]) else s
  }

  /** String.prototype.trim. */
  function Trim(s: string): string {
    TrimEnd(TrimStart(s))
  }

  ghost predicate AllSpace(s: string) {
    forall i :: 0 <= i < |s| ==> IsJsSpace(s[i])
  }

  lemma {:induction false} TrimStartEmpty(s: string)
    ensures TrimStart(s) == [] <==> AllSpace(s)
  {
    if s != [] && IsJsSpace(s[0]) {
      TrimStartEmpty(s[1..]);
      assert AllSpace(s[1..]) ==> AllSpace(s) by {
        if AllSpace(s[1..]) {
          forall i | 0 <= i < |s| ensures IsJsSpace(s[i]) {
            if i > 0 { assert s[i] == s[1..][i - 1]; }
          }
        }
      }
    }
  }

  lemma {:induction false} TrimEndEmpty(s: string)
    ensures TrimEnd(s) == [] <==> AllSpace(s)
  {
    if s != [] && IsJsSpace(s[|s| - 1]) {
      var t := s[..|s| - 1];
      TrimEndEmpty(t);
      assert AllSpace(t) ==> AllSpace(s) by {
        if AllSpace(t) {
          forall i | 0 <= i < |s| ensures IsJsSpace(s[i]) {
            if i < |s| - 1 { assert s[i] == t[i]; }
          }
        }
      }
    }
  }

  /** `s.trim()` is empty (falsy) exactly when every character of `s` is white space. */
  lemma TrimEmptyIffAllSpace(s: string)
    ensures Trim(s) == [] <==> AllSpace(s)
  {
    var t := TrimStart(s);
    TrimStartEmpty(s);
    TrimEndEmpty(t);
    if t != [] {
      assert !IsJsSpace(t[0]);
    }
  }

  // ---------------------------------------------------------------------------
  // Decimal rendering of counters, as `${n}` does for a non-negative integer

  function DigitChar(d: nat): (c: char)
    requires d < 10
    ensures IsDigit(c) && c as int - '0' as int == d
  {
    ('0' as int + d) as char
  }

  function DecimalString(n: nat): (r: string)
    ensures r != []
    ensures forall i :: 0 <= i < |r| ==> IsDigit(r[i])
    decreases n
  {
    if n < 10 then [DigitChar(n)] else DecimalString(n / 10) + [DigitChar(n % 10)]
  }

  function DigitValue(c: char): (d: nat)
    requires IsDigit(c)
    ensures d < 10
  {
    c as int - '0' as int
  }

  function ParseDecimal(s: string): nat
    requires forall i :: 0 <= i < |s| ==> IsDigit(s[i])
  {
    if s == [] then 0
    else ParseDecimal(s[..|s| - 1]) * 10 + DigitValue(s[|s| - 1])
  }

  /** Reading the rendered digits back gives the number: rendering is injective. */
  lemma {:induction false} ParseDecimalString(n: nat)
    ensures ParseDecimal(DecimalString(n)) == n
    decreases n
  {
    var r := DecimalString(n);
    if n >= 10 {
      ParseDecimalString(n / 10);
      assert r[..|r| - 1] == DecimalString(n / 10);
    }
  }

  lemma DecimalStringInjective(m: nat, n: nat)
    requires DecimalString(m) == DecimalString(n)
    ensures m == n
  {
    ParseDecimalString(m);
    ParseDecimalString(n);
  }

  /** Two ids built as `prefix + n` are equal only for equal numbers. */
  lemma PrefixedIdInjective(prefix: string, m: nat, n: nat)
    requires prefix + DecimalString(m) == prefix + DecimalString(n)
    ensures m == n
  {
    assert DecimalString(m) == (prefix + DecimalString(m))[|prefix|..];
    assert DecimalString(n) == (prefix + DecimalString(n))[|prefix|..];
    DecimalStringInjective(m, n);
  }

  // ---------------------------------------------------------------------------
  // String.prototype.split on one character

  function Occurrences(s: string, c: char): nat {
    if s == [] then 0 else (if s[0] == c then 1 else 0) + Occurrences(s[1..], c)
  }

  function Join(parts: seq<string>, sep: char): string
    requires |parts| >= 1
  {
    if |parts| == 1 then parts[0] else parts[0] + [sep] + Join(parts[1..], sep)
  }

  /** `s.split(sep)`: one more piece than there are separators, no piece holds the
      separator, and joining the pieces with it gives back `s`. */
  function Split(s: string, sep: char): (parts: seq<string>)
    ensures |parts| == Occurrences(s, sep) + 1
    ensures forall k :: 0 <= k < |parts| ==> sep !in parts[k]
    ensures Join(parts, sep) == s
  {
    if s == [] then [[]]
    else
      var rest := Split(s[1..], sep);
      if s[0] == sep then
        assert ([[]] + rest)[1..] == rest;
        [[]] + rest
      else
        var parts := [[s[0]] + rest[0]] + rest[1..];
        assert parts[1..] == rest[1..];
        assert Join(parts, sep) == [s[0]] + Join(rest, sep);
        assert s == [s[0]] + s[1..];
        parts
  }

  /** A string that holds `c` at some index has at least one occurrence of it. */
  lemma {:induction false} OccurrencesAppend(s: string, t: string, c: char)
    ensures Occurrences(s + t, c) == Occurrences(s, c) + Occurrences(t, c)
  {
    if s == [] {
      assert s + t == t;
    } else {
      assert (s + t)[1..] == s[1..] + t;
      OccurrencesAppend(s[1..], t, c);
    }
  }

  lemma {:induction false} OccurrencesAbsent(s: string, c: char)
    requires c !in s
    ensures Occurrences(s, c) == 0
  {
    if s != [] {
      OccurrencesAbsent(s[1..], c);
    }
  }

  /** The separator's first occurrence fixes where a text splits in two. */
  lemma SeparatorFixesPieces(a: string, b: string, x: string, y: string, sep: char)
    requires sep !in a && sep !in x
    requires a + [sep] + b == x + [sep] + y
    ensures a == x && b == y
  {
    var f := a + [sep] + b;
    assert forall j :: 0 <= j < |a| ==> f[j] == a[j] && f[j] != sep;
    assert forall j :: 0 <= j < |x| ==> f[j] == x[j] && f[j] != sep;
    assert f[|a|] == sep && f[|x|] == sep;
    assert |a| == |x|;
    assert a == f[..|a|] && x == f[..|x|];
    assert b == f[|a| + 1..] && y == f[|x| + 1..];
  }

  /** Splitting two separator-free pieces joined by one separator gives them
      back. */
  lemma SplitOnce(a: string, b: string, sep: char)
    requires sep !in a && sep !in b
    ensures Split(a + [sep] + b, sep) == [a, b]
  {
    var f := a + [sep] + b;
    OccurrencesAppend(a + [sep], b, sep);
    OccurrencesAppend(a, [sep], sep);
    OccurrencesAbsent(a, sep);
    OccurrencesAbsent(b, sep);
    var parts := Split(f, sep);
    assert |parts| == 2;
    assert parts[1..] == [parts[1]];
    assert Join(parts, sep) == parts[0] + [sep] + parts[1];
    SeparatorFixesPieces(a, b, parts[0], parts[1], sep);
  }

  lemma {:induction false} OccurrencesPositive(s: string, c: char, i: int)
    requires 0 <= i < |s| && s[i] == c
    ensures Occurrences(s, c) >= 1
  {
    if i > 0 {
      OccurrencesPositive(s[1..], c, i - 1);
    }
  }
}
