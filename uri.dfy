/**
 * `encodeURIComponent`: every character outside the unreserved set
 * `A-Z a-z 0-9 - _ . ! ~ * ' ( )` becomes the `%XX` escapes of its UTF-8 bytes.
 * Dafny characters are Unicode scalar values, so the lone surrogates on which
 * JavaScript throws cannot occur.
 */
module Uri {
  predicate IsUnreserved(c: char) {
    ('A' <= c <= 'Z') || ('a' <= c <= 'z') || ('0' <= c <= '9')
    || c == '-' || c == '_' || c == '.' || c == '!' || c == '~' || c == '*' || c == '\'' || c == '(' || c == ')'
  }

  predicate IsHexDigit(c: char) {
    ('0' <= c <= '9') || ('A' <= c <= 'F')
  }

  /** A character that may appear in the output of `encodeURIComponent`. */
  predicate IsUriSafe(c: char) {
    IsUnreserved(c) || c == '%'
  }

  function HexDigit(d: int): (c: char)
    requires 0 <= d < 16
    ensures IsHexDigit(c)
  {
    "0123456789ABCDEF"[d]
  }

  /** The UTF-8 encoding of one scalar value. */
  function Utf8(c: char): (bytes: seq<int>)
    ensures 1 <= |bytes| <= 4
    ensures forall i :: 0 <= i < |bytes| ==> 0 <= bytes[i] < 256
  {
    var n := c as int;
    if n < 0x80 then [n]
    else if n < 0x800 then [0xC0 + n / 64, 0x80 + n % 64]
    else if n < 0x10000 then [0xE0 + n / 4096, 0x80 + (n / 64) % 64, 0x80 + n % 64]
    else [0xF0 + n / 262144, 0x80 + (n / 4096) % 64, 0x80 + (n / 64) % 64, 0x80 + n % 64]
  }

  function Escape(bytes: seq<int>): (r: string)
    requires forall i :: 0 <= i < |bytes| ==> 0 <= bytes[i] < 256
    ensures |r| == 3 * |bytes|
    ensures forall i :: 0 <= i < |r| ==> IsUriSafe(r[i])
  {
    if bytes == [] then ""
    else ['%', HexDigit(bytes[0] / 16), HexDigit(bytes[0] % 16)] + Escape(bytes[1..])
  }

  function EncodeChar(c: char): (r: string)
    ensures 1 <= |r|
    ensures forall i :: 0 <= i < |r| ==> IsUriSafe(r[i])
    ensures IsUnreserved(c) ==> r == [c]
  {
    if IsUnreserved(c) then [c] else Escape(Utf8(c))
  }

  /** `encodeURIComponent(s)` */
  function EncodeUriComponent(s: string): (r: string)
    ensures |r| >= |s|
    ensures forall i :: 0 <= i < |r| ==> IsUriSafe(r[i])
  {
    if s == [] then "" else EncodeChar(s[0]) + EncodeUriComponent(s[1..])
  }

  /** Encoding is empty exactly when its input is. */
  lemma EncodeEmptyIff(s: string)
    ensures EncodeUriComponent(s) == "" <==> s == ""
  {
  }

  /** Encoding works character by character: it distributes over concatenation. */
  lemma {:induction false} EncodeConcat(a: string, b: string)
    ensures EncodeUriComponent(a + b) == EncodeUriComponent(a) + EncodeUriComponent(b)
    decreases |a|
  {
    if a == [] {
      assert a + b == b;
    } else {
      assert (a + b)[0] == a[0];
      assert (a + b)[1..] == a[1..] + b;
      EncodeConcat(a[1..], b);
    }
  }

  /** A string made of unreserved characters is left as it is. */
  lemma {:induction false} EncodeUnreserved(s: string)
    requires forall i :: 0 <= i < |s| ==> IsUnreserved(s[i])
    ensures EncodeUriComponent(s) == s
    decreases |s|
  {
    if s != [] {
      EncodeUnreserved(s[1..]);
    }
  }

  /** A reserved character is never copied as it is: `a b` and `a%20b` do not collide by accident. */
  lemma EncodeReservedGrows(c: char)
    requires !IsUnreserved(c)
    ensures |EncodeUriComponent([c])| >= 3 && EncodeUriComponent([c])[0] == '%'
  {
    assert EncodeUriComponent([c]) == EncodeChar(c) + EncodeUriComponent([]);
  }

  /** A text with a reserved character (say an already encoded `%`) changes under encoding: it grows. */
  lemma {:induction false} EncodeGrowsOnReserved(s: string, i: int)
    requires 0 <= i < |s| && !IsUnreserved(s[i])
    ensures |EncodeUriComponent(s)| > |s|
    ensures EncodeUriComponent(s) != s
    decreases |s|
  {
    if i == 0 {
      assert |EncodeChar(s[0])| >= 3;
    } else {
      EncodeGrowsOnReserved(s[1..], i - 1);
    }
  }
}
