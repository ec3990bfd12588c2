/**
 * The parts of Rust's `str` and `char` that the pipeline depends on:
 * the Unicode White_Space class (`char::is_whitespace`, `str::trim`, the regex class
 * `\p{White_Space}`), upper case letters and their lower-case mapping (`\p{Uppercase}`,
 * `str::to_lowercase`), and the UTF-8 byte length that `str::len` reports.
 */
module Text {

  /** The Unicode White_Space property. */
  predicate IsWhitespace(c: char) {
    c == ' ' || ('\t' <= c <= '\r') || c == '\U{85}' || c == '\U{A0}' || c == '\U{1680}'
    || ('\U{2000}' <= c <= '\U{200A}') || c == '\U{2028}' || c == '\U{2029}'
    || c == '\U{202F}' || c == '\U{205F}' || c == '\U{3000}'
  }

  /**
   * The upper case letters this model knows: A-Z, U+00C0-U+00DE except U+00D7, the
   * unaccented Greek capitals U+0391-U+03A9, and the Cyrillic capitals U+0400-U+042F.
   */
  predicate IsUppercase(c: char) {
    ('A' <= c <= 'Z')
    || ('\U{C0}' <= c <= '\U{DE}' && c != '\U{D7}')
    || ('\U{391}' <= c <= '\U{3A9}' && c != '\U{3A2}')
    || ('\U{400}' <= c <= '\U{42F}')
  }

  /** Lower-case counterpart of a letter; every other character maps to itself. */
  function ToLowerChar(c: char): (l: char)
    ensures IsUppercase(c) ==> l != c && !IsUppercase(l) && !IsWhitespace(l)
    ensures !IsUppercase(c) ==> l == c
  {
    if !IsUppercase(c) then c
    else if '\U{400}' <= c <= '\U{40F}' then (c as int + 0x50) as char
    else (c as int + 0x20) as char
  }

  function ToLower(s: string): (l: string)
    ensures |l| == |s|
    ensures forall i :: 0 <= i < |s| ==> l[i] == ToLowerChar(s[i])
  {
    seq(|s|, i requires 0 <= i < |s| => ToLowerChar(s[i]))
  }

  predicate AllWhitespace(s: string) {
    forall i :: 0 <= i < |s| ==> IsWhitespace(s[i])
  }

  /** No whitespace at either end. */
  predicate IsTrimmed(s: string) {
    s == [] || (!IsWhitespace(s[0]) && !IsWhitespace(s[|s| - 1]))
  }

  /** `str::trim_start`: drops the whitespace at the start. */
  function TrimStart(s: string): (t: string)
    ensures |t| <= |s|
    ensures t == [] || !IsWhitespace(t[0])
    decreases |s|
  {
    if s != [] && IsWhitespace(s[0]) then TrimStart(s[1..]) else s
  }

  /** `str::trim_end`: drops the whitespace at the end. */
  function TrimEnd(s: string): (t: string)
    ensures |t| <= |s|
    ensures t == [] || !IsWhitespace(t[|t| - 1])
    ensures t != [] ==> t[0] == s[0]
    ensures s != [] && !IsWhitespace(s[0]) ==> t != []
    decreases |s|
  {
    if s != [] && IsWhitespace(s[|s| - 1]) then TrimEnd(s[..|s| - 1]) else s
  }

  /** `str::trim`: drops the whitespace at both ends. */
  function Trim(s: string): (t: string)
    ensures IsTrimmed(t) && |t| <= |s|
  {
    TrimEnd(TrimStart(s))
  }

  lemma {:induction false} AllWhitespaceAppend(a: string, b: string)
    requires AllWhitespace(a) && AllWhitespace(b)
    ensures AllWhitespace(a + b)
  {
    forall i | 0 <= i < |a + b| ensures IsWhitespace((a + b)[i]) {
      if i < |a| { assert (a + b)[i] == a[i]; } else { assert (a + b)[i] == b[i - |a|]; }
    }
  }

  lemma {:induction false} TrimStartPadded(p: string, rest: string)
    requires AllWhitespace(p)
    requires rest == [] || !IsWhitespace(rest[0])
    ensures TrimStart(p + rest) == rest
    decreases |p|
  {
    if p == [] {
      assert p + rest == rest;
    } else {
      assert (p + rest)[0] == p[0];
      assert (p + rest)[1..] == p[1..] + rest;
      TrimStartPadded(p[1..], rest);
    }
  }

  lemma {:induction false} TrimEndPadded(rest: string, q: string)
    requires AllWhitespace(q)
    requires rest == [] || !IsWhitespace(rest[|rest| - 1])
    ensures TrimEnd(rest + q) == rest
    decreases |q|
  {
    if q == [] {
      assert rest + q == rest;
    } else {
      assert (rest + q)[|rest + q| - 1] == q[|q| - 1];
      assert (rest + q)[..|rest + q| - 1] == rest + q[..|q| - 1];
      TrimEndPadded(rest, q[..|q| - 1]);
    }
  }

  /** `trim_start` drops exactly a whitespace prefix. */
  lemma {:induction false} TrimStartSplits(s: string) returns (a: nat)
    ensures a <= |s| && TrimStart(s) == s[a..] && AllWhitespace(s[..a])
    decreases |s|
  {
    if s != [] && IsWhitespace(s[0]) {
      var a' := TrimStartSplits(s[1..]);
      a := a' + 1;
      assert s[1..][a'..] == s[a..];
      assert s[..a] == [s[0]] + s[1..][..a'];
    } else {
      a := 0;
    }
  }

  /** `trim_end` drops exactly a whitespace suffix. */
  lemma {:induction false} TrimEndSplits(s: string) returns (b: nat)
    ensures b <= |s| && TrimEnd(s) == s[..b] && AllWhitespace(s[b..])
    decreases |s|
  {
    if s != [] && IsWhitespace(s[|s| - 1]) {
      b := TrimEndSplits(s[..|s| - 1]);
      assert s[..|s| - 1][..b] == s[..b];
      assert s[b..] == s[..|s| - 1][b..] + [s[|s| - 1]];
    } else {
      b := |s|;
    }
  }

  /** `str::trim` returns the one trimmed middle part of a string padded with whitespace. */
  lemma TrimUnique(p: string, t: string, q: string)
    requires AllWhitespace(p) && AllWhitespace(q) && IsTrimmed(t)
    ensures Trim(p + t + q) == t
  {
    var s := p + t + q;
    if t == [] {
      assert s == (p + q) + [];
      AllWhitespaceAppend(p, q);
      TrimStartPadded(p + q, []);
    } else {
      assert s == p + (t + q);
      TrimStartPadded(p, t + q);
      TrimEndPadded(t, q);
    }
  }

  lemma TrimOfTrimmed(t: string)
    requires IsTrimmed(t)
    ensures Trim(t) == t
  {
    assert [] + t + [] == t;
    TrimUnique([], t, []);
  }

  lemma SliceOfSuffix(s: string, a: nat, m: nat)
    requires a + m <= |s|
    ensures s[a..][..m] == s[a..a + m] && s[a..][m..] == s[a + m..]
  {
  }

  lemma SplitThree(s: string, a: nat, b: nat)
    requires a <= b <= |s|
    ensures s == s[..a] + s[a..b] + s[b..]
  {
  }

  /** A string that ends in a non-whitespace character is trimmed by `trim_start` alone. */
  lemma {:induction false} TrimOfEndTrimmed(s: string)
    requires s != [] && !IsWhitespace(s[|s| - 1])
    ensures TrimStart(s) != [] && TrimStart(s)[|TrimStart(s)| - 1] == s[|s| - 1]
    ensures Trim(s) == TrimStart(s)
    decreases |s|
  {
    if IsWhitespace(s[0]) {
      TrimOfEndTrimmed(s[1..]);
    }
  }

  /** Every string is its trimmed part padded with whitespace. */
  lemma TrimSplits(s: string) returns (a: nat, b: nat)
    ensures a <= b <= |s|
    ensures Trim(s) == s[a..b] && AllWhitespace(s[..a]) && AllWhitespace(s[b..])
  {
    a := TrimStartSplits(s);
    var m := TrimEndSplits(s[a..]);
    b := a + m;
    SliceOfSuffix(s, a, m);
  }

  /** Padding a string with whitespace does not change what `trim` returns. */
  lemma PaddingRegroup(w1: string, x: string, y: string, z: string, w2: string)
    ensures w1 + (x + y + z) + w2 == (w1 + x) + y + (z + w2)
  {
  }

  lemma {:induction false} TrimIgnoresPadding(w1: string, s: string, w2: string)
    requires AllWhitespace(w1) && AllWhitespace(w2)
    ensures Trim(w1 + s + w2) == Trim(s)
  {
    var a, b := TrimSplits(s);
    var x, y, z := s[..a], s[a..b], s[b..];
    SplitThree(s, a, b);
    AllWhitespaceAppend(w1, x);
    AllWhitespaceAppend(z, w2);
    TrimUnique(w1 + x, y, z + w2);
    PaddingRegroup(w1, x, y, z, w2);
  }

  lemma {:induction false} ToLowerKeepsWhitespace(s: string)
    ensures AllWhitespace(s) ==> AllWhitespace(ToLower(s))
    ensures IsTrimmed(s) ==> IsTrimmed(ToLower(s))
  {
  }

  lemma ToLowerAppend(a: string, b: string)
    ensures ToLower(a + b) == ToLower(a) + ToLower(b)
  {
  }

  /** Lower-casing keeps whitespace where it is, so it commutes with `trim`. */
  lemma {:induction false} TrimToLowerCommute(s: string)
    ensures Trim(ToLower(s)) == ToLower(Trim(s))
  {
    var a, b := TrimSplits(s);
    var x, y, z := s[..a], s[a..b], s[b..];
    SplitThree(s, a, b);
    ToLowerAppend(x, y);
    ToLowerAppend(x + y, z);
    ToLowerKeepsWhitespace(x);
    ToLowerKeepsWhitespace(y);
    ToLowerKeepsWhitespace(z);
    TrimUnique(ToLower(x), ToLower(y), ToLower(z));
  }

  /** Number of bytes of a character's UTF-8 encoding. */
  function Utf8Width(c: char): (w: nat)
    ensures 1 <= w <= 4
  {
    if c as int < 0x80 then 1
    else if c as int < 0x800 then 2
    else if c as int < 0x10000 then 3
    else 4
  }

  /** `str::len`: the length of the UTF-8 encoding in bytes. */
  function ByteLen(s: string): nat {
    if s == [] then 0 else ByteLen(s[..|s| - 1]) + Utf8Width(s[|s| - 1])
  }

  lemma {:induction false} ByteLenAppend(a: string, b: string)
    ensures ByteLen(a + b) == ByteLen(a) + ByteLen(b)
    decreases |b|
  {
    if b != [] {
      assert (a + b)[..|a + b| - 1] == a + b[..|b| - 1];
      ByteLenAppend(a, b[..|b| - 1]);
    } else {
      assert a + b == a;
    }
  }

  /** A character needs at least one byte. */
  lemma {:induction false} ByteLenAtLeastLength(s: string)
    ensures ByteLen(s) >= |s|
  {
    if s != [] { ByteLenAtLeastLength(s[..|s| - 1]); }
  }

  /** Byte offsets grow with character offsets. */
  lemma {:induction false} ByteLenPrefix(s: string, i: nat, j: nat)
    requires i <= j <= |s|
    ensures ByteLen(s[..i]) <= ByteLen(s[..j])
  {
    assert s[..j] == s[..i] + s[i..j];
    ByteLenAppend(s[..i], s[i..j]);
  }

  /** An ASCII text is one byte per character. */
  lemma {:induction false} ByteLenAscii(s: string)
    requires forall i :: 0 <= i < |s| ==> s[i] as int < 0x80
    ensures ByteLen(s) == |s|
  {
    if s != [] {
      ByteLenAscii(s[..|s| - 1]);
    }
  }
}
