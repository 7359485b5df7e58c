/**
 * Strings as the scripts use them: substring tests (which stand for the
 * scripts' literal regular expressions), `trim`, `toLowerCase`/`toUpperCase`,
 * the accent folding `normalize("NFD").replace(/[̀-ͯ]/g, "")`,
 * `join`, line splitting and the decimal rendering of a timestamp.
 */
module Text {
  /** The characters JavaScript's `trim()` removes and `\s` matches. */
  predicate IsSpace(c: char) {
    c == ' ' || c == '\t' || c == '\n' || c == '\r' || c == '\U{B}' || c == '\U{C}'
    || c == '\U{A0}' || c == '\U{FEFF}' || c == '\U{1680}' || ('\U{2000}' <= c <= '\U{200A}')
    || c == '\U{2028}' || c == '\U{2029}' || c == '\U{202F}' || c == '\U{205F}' || c == '\U{3000}'
  }

  predicate StartsWith(s: string, p: string) {
    |p| <= |s| && s[..|p|] == p
  }

  /** `s.includes(w)`; also a regular-expression test for the literal `w`. */
  predicate Contains(s: string, w: string)
    decreases |s|
  {
    StartsWith(s, w) || (|s| > 0 && Contains(s[1..], w))
  }

  /** Some word of `ws` occurs in `s` (an alternation `/a|b|c/`). */
  predicate ContainsAny(s: string, ws: seq<string>) {
    exists k :: 0 <= k < |ws| && Contains(s, ws[k])
  }

  /** An occurrence of `w` at position `i` of `s`. */
  predicate OccursAt(s: string, w: string, i: int) {
    0 <= i && i + |w| <= |s| && s[i..i + |w|] == w
  }

  lemma {:induction false} OccursImpliesContains(s: string, w: string, i: int)
    requires OccursAt(s, w, i)
    ensures Contains(s, w)
    decreases i
  {
    if i == 0 {
      assert s[..|w|] == w;
    } else {
      assert s[1..][i - 1..i - 1 + |w|] == s[i..i + |w|];
      OccursImpliesContains(s[1..], w, i - 1);
    }
  }

  lemma {:induction false} ContainsImpliesOccurs(s: string, w: string)
    requires Contains(s, w)
    ensures exists i :: OccursAt(s, w, i)
    decreases |s|
  {
    if StartsWith(s, w) {
      assert OccursAt(s, w, 0);
    } else {
      ContainsImpliesOccurs(s[1..], w);
      var i :| OccursAt(s[1..], w, i);
      assert s[i + 1..i + 1 + |w|] == s[1..][i..i + |w|];
      assert OccursAt(s, w, i + 1);
    }
  }

  lemma ContainsIff(s: string, w: string)
    ensures Contains(s, w) <==> exists i :: OccursAt(s, w, i)
  {
    if Contains(s, w) {
      ContainsImpliesOccurs(s, w);
    }
    if exists i :: OccursAt(s, w, i) {
      var i :| OccursAt(s, w, i);
      OccursImpliesContains(s, w, i);
    }
  }

  /** An occurrence inside `a` is also one inside `a + b` and `b + a`. */
  lemma ContainsInConcat(a: string, b: string, w: string)
    requires Contains(a, w)
    ensures Contains(a + b, w) && Contains(b + a, w)
  {
    ContainsIff(a, w);
    var i :| OccursAt(a, w, i);
    assert (a + b)[i..i + |w|] == a[i..i + |w|];
    assert OccursAt(a + b, w, i);
    assert (b + a)[|b| + i..|b| + i + |w|] == a[i..i + |w|];
    assert OccursAt(b + a, w, |b| + i);
    ContainsIff(a + b, w);
    ContainsIff(b + a, w);
  }

  function LowerChar(c: char): char {
    if 'A' <= c <= 'Z' || ('\U{C0}' <= c <= '\U{DE}' && c != '\U{D7}') then (c as int + 32) as char else c
  }

  function UpperChar(c: char): char {
    if 'a' <= c <= 'z' || ('\U{E0}' <= c <= '\U{FE}' && c != '\U{F7}') then (c as int - 32) as char else c
  }

  /** `toLowerCase()` over ASCII and the Latin-1 letters. */
  function Lower(s: string): (r: string)
    ensures |r| == |s| && forall i :: 0 <= i < |s| ==> r[i] == LowerChar(s[i])
  {
    seq(|s|, i requires 0 <= i < |s| => LowerChar(s[i]))
  }

  /** `toUpperCase()` over ASCII and the Latin-1 letters. */
  function Upper(s: string): (r: string)
    ensures |r| == |s| && forall i :: 0 <= i < |s| ==> r[i] == UpperChar(s[i])
  {
    seq(|s|, i requires 0 <= i < |s| => UpperChar(s[i]))
  }

  /** Lower-casing after upper-casing is lower-casing. */
  lemma LowerUpper(s: string)
    ensures Lower(Upper(s)) == Lower(s)
  {
    forall i | 0 <= i < |s| ensures Lower(Upper(s))[i] == Lower(s)[i] {
      var c := s[i];
      assert Upper(s)[i] == UpperChar(c);
      assert LowerChar(UpperChar(c)) == LowerChar(c);
    }
  }

  /** A combining diacritical mark, U+0300 to U+036F. */
  predicate IsCombiningMark(c: char) {
    '\U{300}' <= c <= '\U{36F}'
  }

  /** The base letter NFD leaves after a lower-case Latin-1 letter is decomposed. */
  function BaseLetter(c: char): char {
    if '\U{E0}' <= c <= '\U{E5}' then 'a'
    else if c == '\U{E7}' then 'c'
    else if '\U{E8}' <= c <= '\U{EB}' then 'e'
    else if '\U{EC}' <= c <= '\U{EF}' then 'i'
    else if c == '\U{F1}' then 'n'
    else if '\U{F2}' <= c <= '\U{F6}' then 'o'
    else if '\U{F9}' <= c <= '\U{FC}' then 'u'
    else if c == '\U{FD}' || c == '\U{FF}' then 'y'
    else c
  }

  /** `normalize("NFD").replace(/[̀-ͯ]/g, "")` on lower-case text. */
  function StripAccents(s: string): (r: string)
    ensures |r| <= |s|
  {
    if s == [] then []
    else StripChar(s[0]) + StripAccents(s[1..])
  }

  /** What one character leaves after decomposition and removal of the marks. */
  function StripChar(c: char): string {
    if IsCombiningMark(c) then [] else [BaseLetter(c)]
  }

  /** `toLowerCase().normalize("NFD").replace(/[̀-ͯ]/g, "")` */
  function Fold(s: string): string {
    StripAccents(Lower(s))
  }

  lemma {:induction false} StripAccentsConcat(a: string, b: string)
    ensures StripAccents(a + b) == StripAccents(a) + StripAccents(b)
  {
    if a == [] {
      assert a + b == b;
    } else {
      var c, rest := StripChar(a[0]), a[1..];
      assert (a + b)[0] == a[0];
      assert (a + b)[1..] == rest + b;
      StripAccentsConcat(rest, b);
      assert StripAccents(a + b) == c + (StripAccents(rest) + StripAccents(b));
      assert StripAccents(a) == c + StripAccents(rest);
    }
  }

  function TrimStart(s: string): (r: string)
    ensures |r| <= |s| && r == s[|s| - |r|..]
    ensures r != [] ==> !IsSpace(r[0])
    ensures forall i :: 0 <= i < |s| - |r| ==> IsSpace(s[i])
  {
    if s != [] && IsSpace(s[0]) then TrimStart(s[1..]) else s
  }

  function TrimEnd(s: string): (r: string)
    ensures |r| <= |s| && r == s[..|r|]
    ensures r != [] ==> !IsSpace(r[|r| - 1])
    ensures forall i :: |r| <= i < |s| ==> IsSpace(s[i])
  {
    if s != [] && IsSpace(s[|s| - 1]) then TrimEnd(s[..|s| - 1]) else s
  }

  /** `r` is the slice of `s` at `lo` with only white space around it. */
  predicate SliceAmidSpace(s: string, r: string, lo: int) {
    0 <= lo && lo + |r| <= |s| && r == s[lo..lo + |r|]
    && (forall i :: 0 <= i < lo ==> IsSpace(s[i]))
    && (forall i :: lo + |r| <= i < |s| ==> IsSpace(s[i]))
  }

  /** `trim()`: the slice of `s` between its leading and its trailing white space. */
  function Trim(s: string): (r: string)
    ensures r != [] ==> !IsSpace(r[0]) && !IsSpace(r[|r| - 1])
    ensures exists lo :: SliceAmidSpace(s, r, lo)
  {
    var t := TrimStart(s);
    var r := TrimEnd(t);
    SliceBetweenSpaces(s, t, r);
    r
  }

  /** A slice of a slice between white space lies between white space. */
  lemma SliceBetweenSpaces(s: string, t: string, r: string)
    requires |t| <= |s| && t == s[|s| - |t|..] && forall i :: 0 <= i < |s| - |t| ==> IsSpace(s[i])
    requires |r| <= |t| && r == t[..|r|] && forall i :: |r| <= i < |t| ==> IsSpace(t[i])
    ensures SliceAmidSpace(s, r, |s| - |t|)
  {
    var lo := |s| - |t|;
    PrefixOfSuffix(s, lo, |r|);
    forall j | lo + |r| <= j < |s| ensures IsSpace(s[j]) {
      assert s[j] == t[j - lo];
    }
  }

  lemma PrefixOfSuffix<T>(s: seq<T>, lo: int, n: int)
    requires 0 <= lo && 0 <= n && lo + n <= |s|
    ensures s[lo..][..n] == s[lo..lo + n]
  {
  }

  lemma TrimOfTrimmed(s: string)
    requires s == [] || (!IsSpace(s[0]) && !IsSpace(s[|s| - 1]))
    ensures Trim(s) == s
  {
  }

  lemma OccurrenceInsideSlice(s: string, r: string, lo: int, w: string, i: int)
    requires SliceAmidSpace(s, r, lo) && OccursAt(s, w, i)
    requires w != [] && !IsSpace(w[0]) && !IsSpace(w[|w| - 1])
    ensures OccursAt(r, w, i - lo)
  {
    assert s[i] == w[0] by { assert s[i..i + |w|][0] == s[i]; }
    assert s[i + |w| - 1] == w[|w| - 1] by { assert s[i..i + |w|][|w| - 1] == s[i + |w| - 1]; }
    assert !IsSpace(s[i]) && !IsSpace(s[i + |w| - 1]);
    var j := i - lo;
    assert 0 <= j && j + |w| <= |r|;
    forall k | 0 <= k < |w| ensures r[j..j + |w|][k] == w[k] {
      assert r[j..j + |w|][k] == r[j + k] == s[lo + j + k];
      assert s[i..i + |w|][k] == s[i + k];
    }
    assert r[j..j + |w|] == w;
  }

  /** An occurrence of a word that starts and ends with a non-space survives `trim()`. */
  lemma ContainsTrim(s: string, w: string)
    requires Contains(s, w) && w != [] && !IsSpace(w[0]) && !IsSpace(w[|w| - 1])
    ensures Contains(Trim(s), w)
  {
    ContainsIff(s, w);
    var i :| OccursAt(s, w, i);
    var r := Trim(s);
    var lo :| SliceAmidSpace(s, r, lo);
    OccurrenceInsideSlice(s, r, lo, w, i);
    OccursImpliesContains(r, w, i - lo);
  }

  /** `xs.join(sep)` */
  function Join(xs: seq<string>, sep: string): string
    decreases |xs|
  {
    if |xs| == 0 then "" else if |xs| == 1 then xs[0] else xs[0] + sep + Join(xs[1..], sep)
  }

  /** A word that occurs in an element of `xs` occurs in `xs.join(sep)`. */
  lemma {:induction false} ContainsInJoin(xs: seq<string>, sep: string, k: int, w: string)
    requires 0 <= k < |xs| && Contains(xs[k], w)
    ensures Contains(Join(xs, sep), w)
    decreases |xs|
  {
    if |xs| == 1 {
    } else if k == 0 {
      ContainsInConcat(xs[0], sep + Join(xs[1..], sep), w);
      assert Join(xs, sep) == xs[0] + (sep + Join(xs[1..], sep));
    } else {
      ContainsInJoin(xs[1..], sep, k - 1, w);
      ContainsInConcat(Join(xs[1..], sep), xs[0] + sep, w);
      assert Join(xs, sep) == (xs[0] + sep) + Join(xs[1..], sep);
    }
  }

  /** Every element of `xs` occurs in `xs.join(sep)`. */
  lemma JoinContains(xs: seq<string>, sep: string, k: int)
    requires 0 <= k < |xs|
    ensures Contains(Join(xs, sep), xs[k])
  {
    assert OccursAt(xs[k], xs[k], 0);
    OccursImpliesContains(xs[k], xs[k], 0);
    ContainsInJoin(xs, sep, k, xs[k]);
  }

  /** No character of `w` is one of `sep`. */
  predicate AvoidsChars(w: string, sep: string) {
    forall k :: 0 <= k < |w| ==> w[k] !in sep
  }

  lemma OccurrenceBesideSeparator(x: string, sep: string, rest: string, w: string, i: int)
    requires sep != [] && w != [] && AvoidsChars(w, sep)
    requires OccursAt(x + sep + rest, w, i)
    ensures OccursAt(x, w, i) || OccursAt(rest, w, i - |x| - |sep|)
  {
    var s := x + sep + rest;
    var a := |x|;
    assert forall q :: i <= q < i + |w| ==> s[q] !in sep by {
      forall q | i <= q < i + |w| ensures s[q] !in sep {
        assert s[i..i + |w|][q - i] == s[q];
      }
    }
    assert forall q :: a <= q < a + |sep| ==> s[q] in sep by {
      forall q | a <= q < a + |sep| ensures s[q] in sep {
        assert s[q] == sep[q - a];
      }
    }
    assert s[a] in sep;
    assert s[i] !in sep;
    if i + |w| <= a {
      assert s[i..i + |w|] == x[i..i + |w|];
    } else {
      assert i >= a + |sep|;
      assert s[i..i + |w|] == rest[i - a - |sep|..i - a - |sep| + |w|];
    }
  }

  /**
   * A word without separator characters occurs in `xs.join(sep)` exactly
   * when it occurs in one of the elements.
   */
  lemma {:induction false} JoinOccurrence(xs: seq<string>, sep: string, w: string)
    requires sep != [] && w != [] && AvoidsChars(w, sep)
    ensures Contains(Join(xs, sep), w) <==> exists k :: 0 <= k < |xs| && Contains(xs[k], w)
    decreases |xs|
  {
    if exists k :: 0 <= k < |xs| && Contains(xs[k], w) {
      var k :| 0 <= k < |xs| && Contains(xs[k], w);
      ContainsInJoin(xs, sep, k, w);
    }
    if Contains(Join(xs, sep), w) {
      ContainsImpliesOccurs(Join(xs, sep), w);
      var i :| OccursAt(Join(xs, sep), w, i);
      if |xs| == 1 {
        OccursImpliesContains(xs[0], w, i);
      } else {
        assert Join(xs, sep) == xs[0] + sep + Join(xs[1..], sep);
        OccurrenceBesideSeparator(xs[0], sep, Join(xs[1..], sep), w, i);
        if OccursAt(xs[0], w, i) {
          OccursImpliesContains(xs[0], w, i);
        } else {
          OccursImpliesContains(Join(xs[1..], sep), w, i - |xs[0]| - |sep|);
          JoinOccurrence(xs[1..], sep, w);
          var k :| 0 <= k < |xs[1..]| && Contains(xs[1..][k], w);
          assert xs[k + 1] == xs[1..][k];
        }
      }
    }
  }

  /** The number of occurrences of `c` in `s`: `(s.match(/c/g) || []).length`. */
  function CountChar(s: string, c: char): (n: nat)
    ensures n <= |s|
    ensures n > 0 <==> c in s
  {
    if s == [] then 0 else (if s[0] == c then 1 else 0) + CountChar(s[1..], c)
  }

  /** `s.split(sep)`, for a one-character separator. */
  function Split(s: string, sep: char): (r: seq<string>)
    ensures |r| >= 1
    decreases |s|
  {
    if s == [] then [""]
    else
      var rest := Split(s[1..], sep);
      if s[0] == sep then [""] + rest else [[s[0]] + rest[0]] + rest[1..]
  }

  /** Splitting and joining back with the same separator gives the text back. */
  lemma {:induction false} SplitJoin(s: string, c: char)
    ensures Join(Split(s, c), [c]) == s
    decreases |s|
  {
    if s != [] {
      SplitJoin(s[1..], c);
      var rest := Split(s[1..], c);
      if s[0] == c {
        assert ([""] + rest)[1..] == rest;
        assert Join([""] + rest, [c]) == "" + [c] + Join(rest, [c]);
      } else if |rest| == 1 {
        assert Join(rest, [c]) == rest[0];
      } else {
        assert Join(rest, [c]) == rest[0] + [c] + Join(rest[1..], [c]);
        var parts := [[s[0]] + rest[0]] + rest[1..];
        assert parts[1..] == rest[1..];
        assert Join(parts, [c]) == ([s[0]] + rest[0]) + [c] + Join(rest[1..], [c]);
      }
    }
  }

  /** `s.split(c)` starts with the text before the first `c`, then splits the rest. */
  lemma {:induction false} SplitAtFirst(s: string, c: char)
    ensures IndexOf(s, c) == -1 ==> Split(s, c) == [s]
    ensures IndexOf(s, c) >= 0 ==> Split(s, c) == [s[..IndexOf(s, c)]] + Split(s[IndexOf(s, c) + 1..], c)
    decreases |s|
  {
    if s != [] && s[0] != c {
      SplitAtFirst(s[1..], c);
      var k := IndexOf(s[1..], c);
      if k >= 0 {
        assert [s[0]] + s[1..][..k] == s[..k + 1];
        assert s[1..][k + 1..] == s[k + 2..];
      } else {
        assert [s[0]] + s[1..] == s;
      }
    }
  }

  function DropTrailingCr(s: string): string {
    if s != [] && s[|s| - 1] == '\r' then s[..|s| - 1] else s
  }

  /** `s.split(/\r?\n/)`: lines are cut at each `\n`, and a `\r` right before it is dropped. */
  function SplitLines(s: string): (r: seq<string>)
    ensures |r| == |Split(s, '\n')|
  {
    var parts := Split(s, '\n');
    seq(|parts|, i requires 0 <= i < |parts| => if i < |parts| - 1 then DropTrailingCr(parts[i]) else parts[i])
  }

  /** The index of the first `c` in `s`, if any. */
  function IndexOf(s: string, c: char): (r: int)
    ensures -1 <= r < |s|
    ensures r >= 0 ==> s[r] == c && c !in s[..r]
    ensures r == -1 ==> c !in s
  {
    if s == [] then -1
    else if s[0] == c then 0
    else var k := IndexOf(s[1..], c); if k == -1 then -1 else k + 1
  }

  function DigitChar(d: int): char
    requires 0 <= d < 10
  {
    "0123456789"[d]
  }

  /** The decimal rendering of a natural number, as a template literal writes it. */
  function NatToString(n: nat): (r: string)
    ensures r != []
    ensures forall i :: 0 <= i < |r| ==> '0' <= r[i] <= '9'
  {
    if n < 10 then [DigitChar(n)] else NatToString(n / 10) + [DigitChar(n % 10)]
  }

  /**
   * JavaScript's `s.length`: UTF-16 code units, two for a character outside
   * the Basic Multilingual Plane.
   */
  function Utf16Length(s: string): (n: nat)
    ensures |s| <= n <= 2 * |s|
    ensures (forall i :: 0 <= i < |s| ==> s[i] as int < 0x1_0000) ==> n == |s|
    ensures (forall i :: 0 <= i < |s| ==> s[i] as int >= 0x1_0000) ==> n == 2 * |s|
  {
    if s == [] then 0
    else
      assert forall i :: 0 <= i < |s| - 1 ==> s[1..][i] == s[i + 1];
      (if s[0] as int >= 0x1_0000 then 2 else 1) + Utf16Length(s[1..])
  }
}
