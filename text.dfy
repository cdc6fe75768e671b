/** The string operations the screens use: `toLowerCase`, `includes`, `trim`,
    string comparison, `join` / `split` and number-to-text conversion. */
module Text {

  // ---------------------------------------------------------------------------
  // Lower-casing (ASCII letters only)

  function LowerChar(c: char): char
  {
    if 'A' <= c <= 'Z' then (c as int + 32) as char else c
  }

  predicate IsUpper(c: char)
  {
    'A' <= c <= 'Z'
  }

  /** `s.toLowerCase()`, restricted to ASCII letters. */
  function Lower(s: string): (r: string)
    ensures |r| == |s|
    ensures forall i :: 0 <= i < |s| ==> r[i] == LowerChar(s[i])
    ensures forall i :: 0 <= i < |r| ==> !IsUpper(r[i])
  {
    if s == [] then [] else [LowerChar(s[0])] + Lower(s[1..])
  }

  /** A string without capitals is its own lower-case form. */
  lemma LowerOfLowercase(s: string)
    requires forall i :: 0 <= i < |s| ==> !IsUpper(s[i])
    ensures Lower(s) == s
  {
  }

  lemma LowerIdempotent(s: string)
    ensures Lower(Lower(s)) == Lower(s)
  {
    LowerOfLowercase(Lower(s));
  }

  // ---------------------------------------------------------------------------
  // Substring search

  predicate IsPrefix(p: string, s: string)
  {
    |p| <= |s| && s[..|p|] == p
  }

  /** `s.includes(needle)`: every string includes the empty string, and no
      string includes a longer one. */
  function Contains(s: string, needle: string): (r: bool)
    ensures needle == [] ==> r
    ensures r ==> |needle| <= |s|
    decreases |s|
  {
    IsPrefix(needle, s) || (s != [] && Contains(s[1..], needle))
  }

  /** `needle` occurs in `s` starting at position `i`. */
  predicate OccursAt(s: string, needle: string, i: int)
  {
    0 <= i <= |s| - |needle| && s[i..i + |needle|] == needle
  }

  /** `Contains` holds exactly when `needle` occurs at some position of `s`. */
  lemma {:induction false} ContainsIffOccurs(s: string, needle: string)
    ensures Contains(s, needle) <==> exists i :: OccursAt(s, needle, i)
    decreases |s|
  {
    if s != [] {
      ContainsIffOccurs(s[1..], needle);
      if Contains(s[1..], needle) {
        var i :| OccursAt(s[1..], needle, i);
        assert s[1..][i..i + |needle|] == s[i + 1..i + 1 + |needle|];
        assert OccursAt(s, needle, i + 1);
      }
      if IsPrefix(needle, s) {
        assert OccursAt(s, needle, 0);
      }
      if exists i :: OccursAt(s, needle, i) {
        var i :| OccursAt(s, needle, i);
        if i > 0 {
          assert s[1..][i - 1..i - 1 + |needle|] == s[i..i + |needle|];
          assert OccursAt(s[1..], needle, i - 1);
        }
      }
    } else {
      if IsPrefix(needle, s) {
        assert OccursAt(s, needle, 0);
      }
      if exists i :: OccursAt(s, needle, i) {
        var i :| OccursAt(s, needle, i);
        assert IsPrefix(needle, s);
      }
    }
  }

  /** A needle found in `s` is still found once both are lower-cased. */
  lemma ContainsLower(s: string, needle: string)
    requires Contains(s, needle)
    ensures Contains(Lower(s), Lower(needle))
  {
    ContainsIffOccurs(s, needle);
    var i :| OccursAt(s, needle, i);
    var ls, ln := Lower(s), Lower(needle);
    forall k | 0 <= k < |needle|
      ensures ls[i + k] == ln[k]
    {
      assert s[i + k] == needle[k];
    }
    assert ls[i..i + |needle|] == ln;
    assert OccursAt(ls, ln, i);
    ContainsIffOccurs(ls, ln);
  }

  // ---------------------------------------------------------------------------
  // Trimming

  /** The characters `String.prototype.trim` removes: ECMAScript's WhiteSpace and
      LineTerminator code points. */
  const Whitespace: set<char> :=
    {' ', '\t', '\n', '\U{000B}', '\U{000C}', '\r', '\U{00A0}', '\U{1680}',
     '\U{2000}', '\U{2001}', '\U{2002}', '\U{2003}', '\U{2004}', '\U{2005}',
     '\U{2006}', '\U{2007}', '\U{2008}', '\U{2009}', '\U{200A}',
     '\U{2028}', '\U{2029}', '\U{202F}', '\U{205F}', '\U{3000}', '\U{FEFF}'}

  predicate IsWhitespace(c: char)
  {
    c in Whitespace
  }

  /** Lower-casing a character neither makes nor removes whitespace. */
  lemma LowerCharKeepsWhitespace(c: char)
    ensures IsWhitespace(LowerChar(c)) <==> IsWhitespace(c)
  {
    if 'A' <= c <= 'Z' {
      assert c !in Whitespace;
      assert LowerChar(c) !in Whitespace;
    }
  }

  /** Only whitespace (or nothing at all). */
  predicate IsBlank(s: string)
  {
    forall i :: 0 <= i < |s| ==> IsWhitespace(s[i])
  }

  /** Drops the leading whitespace (see `TrimStartCuts`). */
  function TrimStart(s: string): (r: string)
    ensures |r| <= |s|
  {
    if s != [] && IsWhitespace(s[0]) then TrimStart(s[1..]) else s
  }

  /** `TrimStart(s)` is the suffix of `s` that starts at its first non-whitespace
      character. */
  lemma {:induction false} TrimStartCuts(s: string)
    ensures var r := TrimStart(s);
            r == s[|s| - |r|..] && (r == [] || !IsWhitespace(r[0])) && IsBlank(s[..|s| - |r|])
  {
    if s != [] && IsWhitespace(s[0]) {
      TrimStartCuts(s[1..]);
      var r := TrimStart(s[1..]);
      assert s[1..][..|s[1..]| - |r|] == s[1..|s| - |r|];
    }
  }

  /** Drops the trailing whitespace (see `TrimEndCuts`). */
  function TrimEnd(s: string): (r: string)
    ensures |r| <= |s|
  {
    if s != [] && IsWhitespace(s[|s| - 1]) then TrimEnd(s[..|s| - 1]) else s
  }

  /** `TrimEnd(s)` is the prefix of `s` that ends at its last non-whitespace
      character. */
  lemma {:induction false} TrimEndCuts(s: string)
    ensures var r := TrimEnd(s);
            r == s[..|r|] && (r == [] || !IsWhitespace(r[|r| - 1])) && IsBlank(s[|r|..])
  {
    if s != [] && IsWhitespace(s[|s| - 1]) {
      TrimEndCuts(s[..|s| - 1]);
      var r := TrimEnd(s[..|s| - 1]);
      assert s[..|s| - 1][|r|..] + [s[|s| - 1]] == s[|r|..];
    }
  }

  /** `r` is `s` with only whitespace cut away before position `k` and after `r`. */
  predicate TrimmedAt(s: string, r: string, k: int)
  {
    0 <= k <= |s| - |r| && s[k..k + |r|] == r && IsBlank(s[..k]) && IsBlank(s[k + |r|..])
  }

  /** `s.trim()`: both ends of whitespace dropped (see `TrimCutsOnlyWhitespace`). */
  function Trim(s: string): (r: string)
    ensures |r| <= |s|
  {
    TrimEnd(TrimStart(s))
  }

  /** `s.trim()` is a piece of `s` with nothing but whitespace cut away around it,
      and has no whitespace at either of its own ends. */
  lemma TrimCutsOnlyWhitespace(s: string)
    ensures exists k :: TrimmedAt(s, Trim(s), k)
    ensures var r := Trim(s); r == [] || (!IsWhitespace(r[0]) && !IsWhitespace(r[|r| - 1]))
  {
    var t := TrimStart(s);
    var r := TrimEnd(t);
    TrimStartCuts(s);
    TrimEndCuts(t);
    var k := |s| - |t|;
    assert s[k..k + |r|] == r;
    assert s[k + |r|..] == t[|r|..];
    assert IsBlank(s[..k]) && IsBlank(s[k + |r|..]);
    assert TrimmedAt(s, r, k) && r == Trim(s);
  }

  /** `s.trim()` is empty exactly when `s` holds nothing but whitespace. */
  lemma TrimEmptyIffBlank(s: string)
    ensures Trim(s) == [] <==> IsBlank(s)
  {
    var t := TrimStart(s);
    TrimStartCuts(s);
    TrimEndCuts(t);
    if t != [] {
      assert !IsWhitespace(s[|s| - |t|]);
    } else {
      assert s[..|s|] == s;
    }
  }

  // ---------------------------------------------------------------------------
  // String order

  /** `a <= b` on strings: lexicographic order of the characters, under which
      a prefix, the string itself included, comes first. */
  function LexLe(a: string, b: string): (r: bool)
    ensures a <= b ==> r
  {
    a == [] || (b != [] && (a[0] < b[0] || (a[0] == b[0] && LexLe(a[1..], b[1..]))))
  }

  lemma {:induction false} LexLeTotal(a: string, b: string)
    ensures LexLe(a, b) || LexLe(b, a)
  {
    if a != [] && b != [] && a[0] == b[0] {
      LexLeTotal(a[1..], b[1..]);
    }
  }

  lemma {:induction false} LexLeTransitive(a: string, b: string, c: string)
    requires LexLe(a, b) && LexLe(b, c)
    ensures LexLe(a, c)
  {
    if a != [] && b != [] && c != [] && a[0] == b[0] == c[0] {
      LexLeTransitive(a[1..], b[1..], c[1..]);
    }
  }

  lemma {:induction false} LexLeAntisymmetric(a: string, b: string)
    requires LexLe(a, b) && LexLe(b, a)
    ensures a == b
  {
    if a != [] && b != [] {
      LexLeAntisymmetric(a[1..], b[1..]);
      assert a == [a[0]] + a[1..] && b == [b[0]] + b[1..];
    }
  }

  // ---------------------------------------------------------------------------
  // Joining and splitting

  /** `xs.join(sep)` for a one-character separator; `SplitJoin` undoes it. */
  function Join(xs: seq<string>, sep: char): string
  {
    if xs == [] then "" else if |xs| == 1 then xs[0] else xs[0] + [sep] + Join(xs[1..], sep)
  }

  /** `s.split(sep)` for a one-character separator: the pieces between separators. */
  function Split(s: string, sep: char): (r: seq<string>)
    ensures |r| >= 1
  {
    if s == [] then [""]
    else
      var rest := Split(s[1..], sep);
      if s[0] == sep then [""] + rest else [[s[0]] + rest[0]] + rest[1..]
  }

  /** No piece of a split holds the separator. */
  lemma {:induction false} SplitPiecesAvoidSeparator(s: string, sep: char)
    ensures forall i :: 0 <= i < |Split(s, sep)| ==> sep !in Split(s, sep)[i]
  {
    if s != [] {
      SplitPiecesAvoidSeparator(s[1..], sep);
    }
  }

  lemma {:induction false} SplitWithoutSeparator(x: string, sep: char)
    requires sep !in x
    ensures Split(x, sep) == [x]
  {
    if x != [] {
      SplitWithoutSeparator(x[1..], sep);
      assert x == [x[0]] + x[1..];
    }
  }

  lemma {:induction false} SplitAtFirstSeparator(x: string, sep: char, t: string)
    requires sep !in x
    ensures Split(x + [sep] + t, sep) == [x] + Split(t, sep)
  {
    if x == [] {
      assert x + [sep] + t == [sep] + t;
      assert ([sep] + t)[1..] == t;
    } else {
      SplitAtFirstSeparator(x[1..], sep, t);
      assert (x + [sep] + t)[1..] == x[1..] + [sep] + t;
      assert x == [x[0]] + x[1..];
    }
  }

  /** Splitting a joined list gives the list back, provided no piece contains the separator. */
  lemma {:induction false} SplitJoin(xs: seq<string>, sep: char)
    requires |xs| >= 1
    requires forall i :: 0 <= i < |xs| ==> sep !in xs[i]
    ensures Split(Join(xs, sep), sep) == xs
  {
    if |xs| == 1 {
      SplitWithoutSeparator(xs[0], sep);
    } else {
      SplitJoin(xs[1..], sep);
      SplitAtFirstSeparator(xs[0], sep, Join(xs[1..], sep));
      assert xs == [xs[0]] + xs[1..];
    }
  }

  /** A character that occurs in no piece and is not the separator occurs nowhere in the joined text. */
  lemma {:induction false} JoinAvoids(xs: seq<string>, sep: char, c: char)
    requires c != sep
    requires forall i :: 0 <= i < |xs| ==> c !in xs[i]
    ensures c !in Join(xs, sep)
  {
    if |xs| > 1 {
      JoinAvoids(xs[1..], sep, c);
    }
  }

  // ---------------------------------------------------------------------------
  // Decimal numbers

  predicate IsDigit(c: char)
  {
    '0' <= c <= '9'
  }

  predicate AllDigits(s: string)
  {
    forall i :: 0 <= i < |s| ==> IsDigit(s[i])
  }

  function DigitChar(d: nat): (c: char)
    requires d < 10
    ensures IsDigit(c) && c as int - '0' as int == d
  {
    ('0' as int + d) as char
  }

  function Pow10(k: nat): (r: nat)
    ensures r >= 1
  {
    if k == 0 then 1 else 10 * Pow10(k - 1)
  }

  /** The number a string of decimal digits denotes (leading zeros allowed). */
  function DigitsValue(s: string): nat
    requires AllDigits(s)
  {
    if s == [] then 0
    else
      var d: nat := s[0] as int - '0' as int;
      var p := Pow10(|s| - 1);
      assert d * p >= 0;
      d * p + DigitsValue(s[1..])
  }

  /** One step of `DigitsValue`: the leading digit, weighted by its place. */
  lemma DigitsValueUnfold(s: string)
    requires AllDigits(s) && s != []
    ensures DigitsValue(s) == (s[0] as int - '0' as int) * Pow10(|s| - 1) + DigitsValue(s[1..])
  {
  }

  lemma ShiftPlace(d: int, p: int, rest: int, dc: int)
    ensures d * (10 * p) + (rest * 10 + dc) == (d * p + rest) * 10 + dc
  {
  }

  lemma {:induction false} DigitsValueAppend(s: string, c: char)
    requires AllDigits(s) && IsDigit(c)
    ensures AllDigits(s + [c])
    ensures DigitsValue(s + [c]) == DigitsValue(s) * 10 + (c as int - '0' as int)
  {
    if s != [] {
      var t := s + [c];
      assert t[0] == s[0] && t[1..] == s[1..] + [c];
      DigitsValueAppend(s[1..], c);
      DigitsValueUnfold(t);
      DigitsValueUnfold(s);
      assert Pow10(|s|) == 10 * Pow10(|s| - 1);
      ShiftPlace(s[0] as int - '0' as int, Pow10(|s| - 1), DigitsValue(s[1..]), c as int - '0' as int);
    } else {
      assert s + [c] == [c];
    }
  }

  /** Leading zeros do not change the value. */
  lemma {:induction false} DigitsValueLeadingZeros(z: string, s: string)
    requires forall i :: 0 <= i < |z| ==> z[i] == '0'
    requires AllDigits(s)
    ensures AllDigits(z + s)
    ensures DigitsValue(z + s) == DigitsValue(s)
  {
    if z != [] {
      assert (z + s)[1..] == z[1..] + s;
      assert (z + s)[0] == '0';
      DigitsValueLeadingZeros(z[1..], s);
      assert DigitsValue(z + s) == 0 * Pow10(|z + s| - 1) + DigitsValue(z[1..] + s);
    } else {
      assert z + s == s;
    }
  }

  /** `String(n)` for a non-negative integer: its decimal digits, without leading zeros. */
  function NatToString(n: nat): (r: string)
    ensures |r| >= 1 && AllDigits(r)
    ensures |r| > 1 ==> r[0] != '0'
    ensures DigitsValue(r) == n
    decreases n
  {
    if n < 10 then [DigitChar(n)]
    else
      var r := NatToString(n / 10) + [DigitChar(n % 10)];
      DigitsValueAppend(NatToString(n / 10), DigitChar(n % 10));
      r
  }

  /** A number below 10^k has at most k digits. */
  lemma {:induction false} NatToStringLength(n: nat, k: nat)
    requires 1 <= k && n < Pow10(k)
    ensures |NatToString(n)| <= k
    decreases n
  {
    if n >= 10 {
      assert k >= 2;
      NatToStringLength(n / 10, k - 1);
    }
  }

  /** `String(i)` for an integer: an optional minus sign and the digits. */
  function IntToString(i: int): (r: string)
    ensures ',' !in r && '\n' !in r
  {
    if i < 0 then "-" + NatToString(-i) else NatToString(i)
  }

  /** `s.padStart(width, fill)`. */
  function PadStart(s: string, width: nat, fill: char): (r: string)
    ensures |r| == if |s| < width then width else |s|
    ensures r[|r| - |s|..] == s
    ensures forall i :: 0 <= i < |r| - |s| ==> r[i] == fill
  {
    if |s| < width then seq(width - |s|, _ => fill) + s else s
  }
}
