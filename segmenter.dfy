/**
 * The segmenter of the markdown parser: the text that the external converter produced is
 * split into paragraphs at blank lines, and every paragraph longer than the configured
 * limit is cut after sentence ends until the remainder fits.
 */
module Segmenter {
  import opened Wrappers
  import opened Text
  import opened Rosetta

  // ---------------------------------------------------------------------------
  // Paragraphs: `str::split("\n\n")`
  // ---------------------------------------------------------------------------

  const SEPARATOR := "\n\n"

  /** A blank-line separator starts at `i`. */
  predicate SeparatorAt(s: string, i: nat) {
    i + 1 < |s| && s[i] == '\n' && s[i + 1] == '\n'
  }

  predicate NoSeparator(s: string) {
    forall i: nat :: i < |s| ==> !SeparatorAt(s, i)
  }

  /** The leftmost separator at or after `from`. */
  function FindSeparator(s: string, from: nat): (r: Option<nat>)
    requires from <= |s|
    ensures r.Some? ==> from <= r.value && SeparatorAt(s, r.value)
    ensures r.Some? ==> forall i: nat :: from <= i < r.value ==> !SeparatorAt(s, i)
    ensures r.None? ==> forall i: nat :: from <= i < |s| ==> !SeparatorAt(s, i)
    decreases |s| - from
  {
    if from + 1 >= |s| then None
    else if SeparatorAt(s, from) then Some(from)
    else FindSeparator(s, from + 1)
  }

  /** The pieces between non-overlapping separators, taken from the left. */
  function SplitParagraphs(s: string): (ps: seq<string>)
    ensures |ps| >= 1
    decreases |s|
  {
    match FindSeparator(s, 0)
    case None => [s]
    case Some(i) => [s[..i]] + SplitParagraphs(s[i + 2..])
  }

  /** The inverse of the split: the pieces glued back with separators. */
  function JoinParagraphs(ps: seq<string>): string
    requires |ps| >= 1
  {
    if |ps| == 1 then ps[0] else ps[0] + SEPARATOR + JoinParagraphs(ps[1..])
  }

  /** What the split can return: no piece holds a separator, and no piece but the last ends in a newline. */
  predicate SplitShaped(ps: seq<string>) {
    |ps| >= 1
    && (forall k :: 0 <= k < |ps| ==> NoSeparator(ps[k]))
    && (forall k :: 0 <= k < |ps| - 1 && ps[k] != [] ==> ps[k][|ps[k]| - 1] != '\n')
  }

  /** The text before the leftmost separator holds none and does not end in a newline. */
  lemma ParagraphBeforeSeparator(s: string, i: nat)
    requires FindSeparator(s, 0) == Some(i)
    ensures s == s[..i] + SEPARATOR + s[i + 2..]
    ensures NoSeparator(s[..i])
    ensures i == 0 || s[i - 1] != '\n'
  {
    var a := s[..i];
    forall k: nat | k < |a| ensures !SeparatorAt(a, k) {
      assert !SeparatorAt(s, k);
    }
    if i > 0 {
      assert !SeparatorAt(s, i - 1);
    }
  }

  /** Gluing the pieces back together gives the text again, and the pieces are split-shaped. */
  lemma {:induction false} SplitJoin(s: string)
    ensures SplitShaped(SplitParagraphs(s))
    ensures JoinParagraphs(SplitParagraphs(s)) == s
    decreases |s|
  {
    match FindSeparator(s, 0)
    case None =>
      assert NoSeparator(s);
    case Some(i) =>
      var a, b := s[..i], s[i + 2..];
      SplitJoin(b);
      ParagraphBeforeSeparator(s, i);
      assert a == [] || a[|a| - 1] == s[i - 1];
      ShapedCons(a, SplitParagraphs(b));
  }

  /** A piece without separator or final newline can go in front of split-shaped pieces. */
  lemma ShapedCons(a: string, qs: seq<string>)
    requires NoSeparator(a) && (a == [] || a[|a| - 1] != '\n') && SplitShaped(qs)
    ensures SplitShaped([a] + qs) && ([a] + qs)[1..] == qs
    ensures JoinParagraphs([a] + qs) == a + SEPARATOR + JoinParagraphs(qs)
  {
    var ps := [a] + qs;
    assert ps[1..] == qs;
    forall k | 0 <= k < |ps| ensures NoSeparator(ps[k]) {
      if k > 0 { assert ps[k] == qs[k - 1]; }
    }
    forall k | 0 <= k < |ps| - 1 && ps[k] != [] ensures ps[k][|ps[k]| - 1] != '\n' {
      if k > 0 { assert ps[k] == qs[k - 1]; }
    }
  }

  lemma {:induction false} SeparatorAfterParagraph(a: string, b: string)
    requires NoSeparator(a)
    requires a == [] || a[|a| - 1] != '\n'
    ensures FindSeparator(a + SEPARATOR + b, 0) == Some(|a|)
  {
    var s := a + SEPARATOR + b;
    assert SeparatorAt(s, |a|);
    forall k: nat | k < |a| ensures !SeparatorAt(s, k) {
      if k + 1 < |a| {
        assert !SeparatorAt(a, k);
      } else {
        assert s[k] == a[|a| - 1];
      }
    }
  }

  /** Splitting split-shaped pieces glued with separators gives the pieces back. */
  lemma {:induction false} JoinSplit(ps: seq<string>)
    requires SplitShaped(ps)
    ensures SplitParagraphs(JoinParagraphs(ps)) == ps
    decreases |ps|
  {
    if |ps| == 1 {
      assert FindSeparator(ps[0], 0) == None by {
        assert NoSeparator(ps[0]);
      }
    } else {
      var a, rest := ps[0], JoinParagraphs(ps[1..]);
      assert SplitShaped(ps[1..]) by {
        forall k | 0 <= k < |ps| - 2 && ps[1..][k] != [] ensures ps[1..][k][|ps[1..][k]| - 1] != '\n' {
          assert ps[1..][k] == ps[k + 1];
        }
      }
      SeparatorAfterParagraph(a, rest);
      var s := a + SEPARATOR + rest;
      assert s[..|a|] == a;
      assert s[|a| + 2..] == rest;
      JoinSplit(ps[1..]);
      assert ps == [a] + ps[1..];
    }
  }

  // ---------------------------------------------------------------------------
  // Sentence breaks: the regex `[.!?]\p{White_Space}+\p{Uppercase}`
  // ---------------------------------------------------------------------------

  predicate IsTerminal(c: char) {
    c == '.' || c == '!' || c == '?'
  }

  /** The first character at or after `i` that is not whitespace exists and is upper case. */
  predicate UpperAfterWhitespace(s: string, i: nat)
    decreases |s| - i
  {
    i < |s| && (if IsWhitespace(s[i]) then UpperAfterWhitespace(s, i + 1) else IsUppercase(s[i]))
  }

  /**
   * A match of the sentence-break pattern starts at `j`: a terminal mark, a run of
   * whitespace, and an upper case letter as the first character after the run.
   */
  predicate SentenceBreakAt(s: string, j: nat) {
    j + 1 < |s| && IsTerminal(s[j]) && IsWhitespace(s[j + 1]) && UpperAfterWhitespace(s, j + 1)
  }

  lemma ByteLenStep(s: string, j: nat)
    requires j < |s|
    ensures ByteLen(s[..j + 1]) == ByteLen(s[..j]) + Utf8Width(s[j])
  {
    assert s[..j + 1][..j] == s[..j];
  }

  /**
   * `Regex::find_at(s, from)` from character `j` on, where `offset` is the byte offset of
   * character `j`.
   */
  function FindBreakFrom(s: string, from: nat, j: nat, offset: nat): (r: Option<nat>)
    requires j <= |s|
    ensures r.Some? ==> j <= r.value < |s|
    decreases |s| - j
  {
    if j == |s| then None
    else if offset >= from && SentenceBreakAt(s, j) then Some(j)
    else FindBreakFrom(s, from, j + 1, offset + Utf8Width(s[j]))
  }

  /** The match `Regex::find_at(s, from)` returns, by the character index where it starts. */
  function FindBreak(s: string, from: nat): (r: Option<nat>)
    ensures r.Some? ==> r.value < |s|
  {
    FindBreakFrom(s, from, 0, 0)
  }

  /** A sentence break starts at `j`, at byte offset `from` or later. */
  predicate BreakFrom(s: string, from: nat, j: nat) {
    j < |s| && ByteLen(s[..j]) >= from && SentenceBreakAt(s, j)
  }

  lemma {:induction false} FindBreakFromLeftmost(s: string, from: nat, j: nat, offset: nat)
    requires j <= |s| && offset == ByteLen(s[..j])
    ensures var r := FindBreakFrom(s, from, j, offset);
      && (r.Some? ==> BreakFrom(s, from, r.value))
      && (r.Some? ==> forall k: nat :: j <= k < r.value ==> !BreakFrom(s, from, k))
      && (r.None? ==> forall k: nat :: j <= k < |s| ==> !BreakFrom(s, from, k))
    decreases |s| - j
  {
    if j < |s| && !(offset >= from && SentenceBreakAt(s, j)) {
      ByteLenStep(s, j);
      FindBreakFromLeftmost(s, from, j + 1, offset + Utf8Width(s[j]));
    }
  }

  /**
   * `find_at` returns the leftmost sentence break that starts at byte offset `from` or
   * later, and nothing when there is none.
   */
  lemma FindBreakLeftmost(s: string, from: nat)
    ensures var r := FindBreak(s, from);
      && (r.Some? ==> BreakFrom(s, from, r.value))
      && (r.Some? ==> forall k: nat :: k < r.value ==> !BreakFrom(s, from, k))
      && (r.None? ==> forall k: nat :: k < |s| ==> !BreakFrom(s, from, k))
  {
    FindBreakFromLeftmost(s, from, 0, 0);
  }

  // ---------------------------------------------------------------------------
  // Cutting one paragraph
  // ---------------------------------------------------------------------------

  /** The first cut of an over-long remainder: the piece up to the break and the trimmed rest. */
  function NextCut(s: string, maxLen: nat): (r: Option<(Subsection, string)>)
    ensures r.Some? ==> |r.value.1| < |s|
  {
    match FindBreak(s, maxLen / 2)
    case None => None
    case Some(j) => Some((Trim(s[..j + 1]), Trim(s[j + 1..])))
  }

  /**
   * The subsections of the trimmed paragraph `s`: while the remainder is longer than
   * `maxLen` bytes it is cut just after the first sentence break at or after byte
   * `maxLen / 2`; `None` when an over-long remainder has no such break.
   */
  function Cut(s: string, maxLen: nat): Option<seq<Subsection>>
    decreases |s|
  {
    if ByteLen(s) <= maxLen then Some(if s == [] then [] else [s])
    else match NextCut(s, maxLen)
      case None => None
      case Some((piece, rest)) => Prefixed([piece], Cut(rest, maxLen))
  }

  /** The cut result after pieces `done` were taken off the front. */
  function Prefixed(done: seq<Subsection>, r: Option<seq<Subsection>>): Option<seq<Subsection>> {
    match r
    case None => None
    case Some(rest) => Some(done + rest)
  }

  /** One turn of the cutting loop: the piece up to the break at `j` is taken off the front. */
  lemma CutAdvance(t: string, section: seq<Subsection>, s: string, maxLen: nat, j: nat)
    requires Cut(t, maxLen) == Prefixed(section, Cut(s, maxLen))
    requires ByteLen(s) > maxLen && FindBreak(s, maxLen / 2) == Some(j)
    ensures |Trim(s[j + 1..])| < |s|
    ensures Cut(t, maxLen) == Prefixed(section + [Trim(s[..j + 1])], Cut(Trim(s[j + 1..]), maxLen))
  {
    var piece, rest := Trim(s[..j + 1]), Trim(s[j + 1..]);
    assert NextCut(s, maxLen) == Some((piece, rest));
    PrefixedTwice(section, [piece], Cut(rest, maxLen));
  }

  lemma CutStart(s: string, maxLen: nat)
    ensures Cut(s, maxLen) == Prefixed([], Cut(s, maxLen))
  {
    if Cut(s, maxLen).Some? {
      assert [] + Cut(s, maxLen).value == Cut(s, maxLen).value;
    }
  }

  lemma CutWithoutBreak(t: string, section: seq<Subsection>, s: string, maxLen: nat)
    requires Cut(t, maxLen) == Prefixed(section, Cut(s, maxLen))
    requires ByteLen(s) > maxLen && FindBreak(s, maxLen / 2).None?
    ensures Cut(t, maxLen) == None
  {
  }

  lemma CutFinish(t: string, section: seq<Subsection>, s: string, maxLen: nat)
    requires Cut(t, maxLen) == Prefixed(section, Cut(s, maxLen))
    requires ByteLen(s) <= maxLen
    ensures Cut(t, maxLen) == Some(if s == [] then section else section + [s])
  {
    CutFits(s, maxLen);
    assert section + [] == section;
  }

  lemma CutFits(s: string, maxLen: nat)
    requires ByteLen(s) <= maxLen
    ensures Cut(s, maxLen) == Some(if s == [] then [] else [s])
  {
  }

  lemma PrefixedTwice(a: seq<Subsection>, b: seq<Subsection>, r: Option<seq<Subsection>>)
    ensures Prefixed(a, Prefixed(b, r)) == Prefixed(a + b, r)
  {
    if r.Some? {
      assert a + (b + r.value) == (a + b) + r.value;
    }
  }

  /** `pieces` are `s` cut at some points, with only whitespace dropped at each cut (and at the end). */
  predicate IsCutOf(s: string, pieces: seq<Subsection>)
    decreases |pieces|
  {
    if pieces == [] then TrimStart(s) == []
    else pieces[0] <= s && IsCutOf(TrimStart(s[|pieces[0]|..]), pieces[1..])
  }

  lemma {:induction false} UpperAfterWhitespaceTrimStart(s: string, i: nat)
    requires UpperAfterWhitespace(s, i)
    ensures TrimStart(s[i..]) != [] && IsUppercase(TrimStart(s[i..])[0])
    decreases |s| - i
  {
    if IsWhitespace(s[i]) {
      assert s[i..][1..] == s[i + 1..];
      UpperAfterWhitespaceTrimStart(s, i + 1);
    }
  }

  /** The piece up to a sentence break of a trimmed text is already trimmed and ends the sentence. */
  lemma CutPieceAtBreak(s: string, j: nat, from: nat)
    requires IsTrimmed(s) && BreakFrom(s, from, j)
    ensures Trim(s[..j + 1]) == s[..j + 1] && s[..j + 1] <= s
    ensures s[..j + 1] != [] && IsTrimmed(s[..j + 1])
    ensures IsTerminal(s[..j + 1][j]) && ByteLen(s[..j + 1]) > from
  {
    var head := s[..j + 1];
    assert head[0] == s[0] && head[j] == s[j];
    TrimOfTrimmed(head);
    ByteLenStep(s, j);
  }

  /** The rest after a sentence break of a trimmed text only loses its leading whitespace. */
  lemma CutRestAtBreak(s: string, j: nat)
    requires IsTrimmed(s) && SentenceBreakAt(s, j)
    ensures Trim(s[j + 1..]) == TrimStart(s[j + 1..])
    ensures Trim(s[j + 1..]) != [] && IsUppercase(Trim(s[j + 1..])[0])
    ensures |Trim(s[j + 1..])| < |s|
  {
    var x := s[j + 1..];
    assert x[|x| - 1] == s[|s| - 1];
    TrimOfEndTrimmed(x);
    UpperAfterWhitespaceTrimStart(s, j + 1);
  }

  /** The break a successful cut was made at. */
  lemma NextCutBreak(s: string, maxLen: nat) returns (j: nat)
    requires NextCut(s, maxLen).Some?
    ensures BreakFrom(s, maxLen / 2, j)
    ensures NextCut(s, maxLen).value == (Trim(s[..j + 1]), Trim(s[j + 1..]))
  {
    j := FindBreak(s, maxLen / 2).value;
    FindBreakFound(s, maxLen / 2);
  }

  /** What one cut of a trimmed, over-long remainder produces. */
  lemma FirstCut(s: string, maxLen: nat, piece: Subsection, rest: string)
    requires IsTrimmed(s)
    requires NextCut(s, maxLen) == Some((piece, rest))
    ensures piece != [] && piece <= s && IsTrimmed(piece)
    ensures IsTerminal(piece[|piece| - 1]) && ByteLen(piece) > maxLen / 2
    ensures rest != [] && IsTrimmed(rest) && IsUppercase(rest[0]) && |rest| < |s|
    ensures TrimStart(s[|piece|..]) == rest
  {
    var j := NextCutBreak(s, maxLen);
    CutPieceAtBreak(s, j, maxLen / 2);
    CutRestAtBreak(s, j);
    assert |piece| == j + 1;
  }

  lemma FindBreakFound(s: string, from: nat)
    requires FindBreak(s, from).Some?
    ensures BreakFrom(s, from, FindBreak(s, from).value)
  {
    FindBreakLeftmost(s, from);
  }

  /**
   * The subsections of a trimmed paragraph: none is empty or padded, the last one fits
   * the limit, and together they are the paragraph cut at some points with only the
   * whitespace at each cut dropped. A paragraph yields subsections exactly when it is
   * not empty.
   */
  lemma {:induction false} CutPieces(s: string, maxLen: nat)
    requires IsTrimmed(s) && Cut(s, maxLen).Some?
    ensures var ps := Cut(s, maxLen).value;
      && (ps == [] <==> s == [])
      && (forall k :: 0 <= k < |ps| ==> ps[k] != [] && IsTrimmed(ps[k]))
      && (ps != [] ==> ByteLen(ps[|ps| - 1]) <= maxLen)
      && IsCutOf(s, ps)
    decreases |s|
  {
    var ps := Cut(s, maxLen).value;
    if ByteLen(s) <= maxLen {
      if s != [] {
        assert s[|s|..] == [];
      }
    } else {
      var piece, rest := NextCut(s, maxLen).value.0, NextCut(s, maxLen).value.1;
      FirstCut(s, maxLen, piece, rest);
      CutPieces(rest, maxLen);
      var tail := Cut(rest, maxLen).value;
      assert ps == [piece] + tail;
      assert ps[1..] == tail;
    }
  }

  /** `a` was cut off just before `b` at a sentence break at or after byte `maxLen / 2`. */
  predicate SentenceCut(a: Subsection, b: Subsection, maxLen: nat) {
    a != [] && IsTerminal(a[|a| - 1]) && ByteLen(a) > maxLen / 2 && b != [] && IsUppercase(b[0])
  }

  predicate BreaksBetween(ps: seq<Subsection>, maxLen: nat) {
    forall k :: 0 <= k < |ps| - 1 ==> SentenceCut(ps[k], ps[k + 1], maxLen)
  }

  /**
   * Every cut falls after a sentence end at or after byte `maxLen / 2`: each subsection
   * but the last ends with `.`, `!` or `?`, is longer than `maxLen / 2` bytes, and is
   * followed by one that starts with an upper case letter.
   */
  lemma {:induction false} CutAtSentenceBreaks(s: string, maxLen: nat)
    requires IsTrimmed(s) && Cut(s, maxLen).Some?
    ensures BreaksBetween(Cut(s, maxLen).value, maxLen)
    decreases |s|
  {
    var ps := Cut(s, maxLen).value;
    if ByteLen(s) > maxLen {
      var piece, rest := NextCut(s, maxLen).value.0, NextCut(s, maxLen).value.1;
      FirstCut(s, maxLen, piece, rest);
      CutPieces(rest, maxLen);
      CutAtSentenceBreaks(rest, maxLen);
      var tail := Cut(rest, maxLen).value;
      assert ps == [piece] + tail;
      assert tail[0] <= rest;
      assert SentenceCut(ps[0], ps[1], maxLen);
      forall k | 1 <= k < |ps| - 1 ensures SentenceCut(ps[k], ps[k + 1], maxLen) {
        assert ps[k] == tail[k - 1] && ps[k + 1] == tail[k];
      }
    }
  }

  /** An over-long remainder without a sentence break at or after byte `maxLen / 2` cannot be cut. */
  lemma CutFailsWithoutBreak(s: string, maxLen: nat)
    requires ByteLen(s) > maxLen
    requires forall j: nat :: j < |s| ==> !BreakFrom(s, maxLen / 2, j)
    ensures Cut(s, maxLen) == None
  {
    FindBreakLeftmost(s, maxLen / 2);
  }

  // ---------------------------------------------------------------------------
  // The whole document
  // ---------------------------------------------------------------------------

  /** The sections one paragraph adds: none when it is blank after trimming, or the error. */
  function ParagraphSections(p: string, maxLen: nat): Result<seq<Section>, ParseError> {
    match Cut(Trim(p), maxLen)
    case None => Err(OtherParseError(NoBreakPoint))
    case Some(pieces) => Ok(if pieces == [] then [] else [pieces])
  }

  /** The sections of two runs of paragraphs, one after the other, or the first failure. */
  function Then(a: Result<seq<Section>, ParseError>, b: Result<seq<Section>, ParseError>): Result<seq<Section>, ParseError> {
    match a
    case Err(e) => Err(e)
    case Ok(x) => match b
      case Err(e) => Err(e)
      case Ok(y) => Ok(x + y)
  }

  /** The sections of the paragraphs `ps`, in order, or the first failure. */
  function Segment(ps: seq<string>, maxLen: nat): Result<seq<Section>, ParseError>
    decreases |ps|
  {
    if ps == [] then Ok([])
    else Then(Segment(ps[..|ps| - 1], maxLen), ParagraphSections(ps[|ps| - 1], maxLen))
  }

  /** What the parser returns for a markdown text. */
  function SegmentMarkdown(markdown: string, maxLen: nat): Result<seq<Section>, ParseError> {
    Segment(SplitParagraphs(markdown), maxLen)
  }

  lemma {:induction false} SegmentErrorSticks(ps: seq<string>, n: nat, maxLen: nat)
    requires n <= |ps|
    requires Segment(ps[..n], maxLen) == Err(OtherParseError(NoBreakPoint))
    ensures Segment(ps, maxLen) == Err(OtherParseError(NoBreakPoint))
    decreases |ps| - n
  {
    if n == |ps| {
      assert ps[..n] == ps;
    } else {
      assert ps[..n + 1][..n] == ps[..n];
      SegmentErrorSticks(ps, n + 1, maxLen);
    }
  }

  /**
   * The inner loop of the parser: the remainder `s` of a paragraph is cut until it fits,
   * and every iteration shortens it, because a cut keeps at least the terminal mark.
   */
  method CutParagraph(paragraph: string, maxSectionLen: nat) returns (r: Option<Section>)
    ensures r == Cut(Trim(paragraph), maxSectionLen)
  {
    var s := Trim(paragraph);
    var section: Section := [];
    CutStart(s, maxSectionLen);
    while ByteLen(s) > maxSectionLen
      invariant Cut(Trim(paragraph), maxSectionLen) == Prefixed(section, Cut(s, maxSectionLen))
      decreases |s|
    {
      var m := FindBreak(s, maxSectionLen / 2);
      if m.None? {
        CutWithoutBreak(Trim(paragraph), section, s, maxSectionLen);
        return None;
      }
      var matchStart := m.value + 1;  // just past the terminal mark
      var piece, rest := Trim(s[..matchStart]), Trim(s[matchStart..]);
      CutAdvance(Trim(paragraph), section, s, maxSectionLen, m.value);
      section := section + [piece];
      s := rest;
    }
    CutFinish(Trim(paragraph), section, s, maxSectionLen);
    if s != [] {
      section := section + [s];
    }
    return Some(section);
  }

  /** The parser's loop over the paragraphs of the converted markdown. */
  method Parse(markdown: string, maxSectionLen: nat) returns (r: Result<seq<Section>, ParseError>)
    ensures r == SegmentMarkdown(markdown, maxSectionLen)
  {
    var paragraphs := SplitParagraphs(markdown);
    var sections: seq<Section> := [];
    for i := 0 to |paragraphs|
      invariant Segment(paragraphs[..i], maxSectionLen) == Ok(sections)
    {
      assert paragraphs[..i + 1][..i] == paragraphs[..i];
      assert paragraphs[..i + 1][i] == paragraphs[i];
      var section := CutParagraph(paragraphs[i], maxSectionLen);
      if section.None? {
        SegmentErrorSticks(paragraphs, i + 1, maxSectionLen);
        return Err(OtherParseError(NoBreakPoint));
      }
      if section.value != [] {
        sections := sections + [section.value];
      } else {
        assert sections + [] == sections;
      }
    }
    assert paragraphs[..|paragraphs|] == paragraphs;
    return Ok(sections);
  }

  // ---------------------------------------------------------------------------
  // Properties of the whole document
  // ---------------------------------------------------------------------------

  /** A section the parser can return: at least one subsection, none empty or padded. */
  predicate WellFormedSection(section: Section) {
    section != [] && forall m :: 0 <= m < |section| ==> section[m] != [] && IsTrimmed(section[m])
  }

  /** Every section of a successful parse holds at least one subsection, none empty or padded. */
  lemma {:induction false} SegmentSections(ps: seq<string>, maxLen: nat)
    requires Segment(ps, maxLen).Ok?
    ensures forall k :: 0 <= k < |Segment(ps, maxLen).value| ==> WellFormedSection(Segment(ps, maxLen).value[k])
    decreases |ps|
  {
    if ps != [] {
      SegmentSections(ps[..|ps| - 1], maxLen);
      CutPieces(Trim(ps[|ps| - 1]), maxLen);
    }
  }

  /** The result of each paragraph on its own, in order. */
  function Results(ps: seq<string>, maxLen: nat): (rs: seq<Result<seq<Section>, ParseError>>)
    ensures |rs| == |ps|
    ensures forall k :: 0 <= k < |ps| ==> rs[k] == ParagraphSections(ps[k], maxLen)
  {
    seq(|ps|, k requires 0 <= k < |ps| => ParagraphSections(ps[k], maxLen))
  }

  /** Per-paragraph results combined in order: all their sections, or the first failure. */
  function Chain(rs: seq<Result<seq<Section>, ParseError>>): Result<seq<Section>, ParseError>
    decreases |rs|
  {
    if rs == [] then Ok([]) else Then(Chain(rs[..|rs| - 1]), rs[|rs| - 1])
  }

  /** Segmenting is chaining the results of the paragraphs taken one by one. */
  lemma {:induction false} SegmentIsChain(ps: seq<string>, maxLen: nat)
    ensures Segment(ps, maxLen) == Chain(Results(ps, maxLen))
    decreases |ps|
  {
    if ps != [] {
      var init := ps[..|ps| - 1];
      SegmentIsChain(init, maxLen);
      assert Results(ps, maxLen)[..|ps| - 1] == Results(init, maxLen);
    }
  }

  /** A chain fails exactly when one of its results does, and then with the first such failure. */
  lemma {:induction false} ChainFails(rs: seq<Result<seq<Section>, ParseError>>)
    ensures Chain(rs).Err? <==> exists k :: 0 <= k < |rs| && rs[k].Err?
    ensures Chain(rs).Err? ==> exists k :: 0 <= k < |rs| && rs[k] == Chain(rs)
    decreases |rs|
  {
    if rs != [] {
      var init := rs[..|rs| - 1];
      ChainFails(init);
      if Chain(init).Err? {
        var k :| 0 <= k < |init| && init[k] == Chain(init);
        assert rs[k] == init[k];
      } else if rs[|rs| - 1].Err? {
        assert rs[|rs| - 1] == Chain(rs);
      } else {
        forall k | 0 <= k < |rs| ensures rs[k].Ok? {
          if k < |init| {
            assert rs[k] == init[k];
          }
        }
      }
    }
  }

  lemma {:induction false} ChainAppend(rs: seq<Result<seq<Section>, ParseError>>, ts: seq<Result<seq<Section>, ParseError>>)
    ensures Chain(rs + ts) == Then(Chain(rs), Chain(ts))
    decreases |ts|
  {
    if ts == [] {
      assert rs + ts == rs;
      ThenOkEmpty(Chain(rs));
    } else {
      var all, tinit := rs + ts, ts[..|ts| - 1];
      assert all[..|all| - 1] == rs + tinit;
      assert all[|all| - 1] == ts[|ts| - 1];
      ChainAppend(rs, tinit);
      ThenAssociative(Chain(rs), Chain(tinit), ts[|ts| - 1]);
    }
  }

  /**
   * The parse fails exactly when some paragraph has an over-long remainder without a
   * break point, and then with that error.
   */
  lemma SegmentFailsIff(ps: seq<string>, maxLen: nat)
    ensures Segment(ps, maxLen).Err? <==> exists k :: 0 <= k < |ps| && ParagraphSections(ps[k], maxLen).Err?
    ensures Segment(ps, maxLen).Err? ==> Segment(ps, maxLen).error == OtherParseError(NoBreakPoint)
  {
    var rs := Results(ps, maxLen);
    SegmentIsChain(ps, maxLen);
    ChainFails(rs);
    if Segment(ps, maxLen).Err? {
      var k :| 0 <= k < |rs| && rs[k] == Chain(rs);
      ParagraphSectionsError(ps[k], maxLen);
    }
  }

  lemma ParagraphSectionsError(p: string, maxLen: nat)
    ensures ParagraphSections(p, maxLen).Err? ==> ParagraphSections(p, maxLen).error == OtherParseError(NoBreakPoint)
  {
  }

  /**
   * Sections follow the order of the paragraphs: the sections of `ps + qs` are those of
   * `ps` followed by those of `qs`.
   */
  lemma SegmentAppend(ps: seq<string>, qs: seq<string>, maxLen: nat)
    ensures Segment(ps + qs, maxLen) == Then(Segment(ps, maxLen), Segment(qs, maxLen))
  {
    SegmentIsChain(ps + qs, maxLen);
    SegmentIsChain(ps, maxLen);
    SegmentIsChain(qs, maxLen);
    ResultsAppend(ps, qs, maxLen);
    ChainAppend(Results(ps, maxLen), Results(qs, maxLen));
  }

  lemma ResultsAppend(ps: seq<string>, qs: seq<string>, maxLen: nat)
    ensures Results(ps + qs, maxLen) == Results(ps, maxLen) + Results(qs, maxLen)
  {
    var all, rs, ts := Results(ps + qs, maxLen), Results(ps, maxLen), Results(qs, maxLen);
    forall k | 0 <= k < |all| ensures all[k] == (rs + ts)[k] {
      if k < |ps| {
        assert (ps + qs)[k] == ps[k];
      } else {
        assert (ps + qs)[k] == qs[k - |ps|];
      }
    }
  }

  lemma ThenOkEmpty(a: Result<seq<Section>, ParseError>)
    ensures Then(a, Ok([])) == a
  {
    if a.Ok? {
      assert a.value + [] == a.value;
    }
  }

  lemma ThenOkLeft(b: Result<seq<Section>, ParseError>)
    ensures Then(Ok([]), b) == b
  {
    if b.Ok? {
      assert [] + b.value == b.value;
    }
  }

  lemma ThenAssociative(a: Result<seq<Section>, ParseError>, b: Result<seq<Section>, ParseError>, c: Result<seq<Section>, ParseError>)
    ensures Then(Then(a, b), c) == Then(a, Then(b, c))
  {
    if a.Ok? && b.Ok? && c.Ok? {
      assert a.value + b.value + c.value == a.value + (b.value + c.value);
    }
  }

  /** One paragraph gives one section of its cuts, none when it is blank, or the error. */
  lemma SegmentOne(p: string, maxLen: nat)
    ensures Segment([p], maxLen) == match Cut(Trim(p), maxLen)
      case None => Err(OtherParseError(NoBreakPoint))
      case Some(pieces) => Ok(if Trim(p) == [] then [] else [pieces])
  {
    assert [p][..0] == [];
    ThenOkLeft(ParagraphSections(p, maxLen));
    if Cut(Trim(p), maxLen).Some? {
      CutPieces(Trim(p), maxLen);
    }
  }

  /** A paragraph that is blank after trimming adds no section. */
  lemma BlankParagraphYieldsNothing(ps: seq<string>, p: string, maxLen: nat)
    requires Trim(p) == []
    ensures Segment(ps + [p], maxLen) == Segment(ps, maxLen)
  {
    SegmentAppend(ps, [p], maxLen);
    SegmentOne(p, maxLen);
    ThenOkEmpty(Segment(ps, maxLen));
  }

  /** Empty markdown has no sections. */
  lemma EmptyMarkdown(maxLen: nat)
    ensures SegmentMarkdown("", maxLen) == Ok([])
  {
    assert SplitParagraphs("") == [""];
    SegmentOne("", maxLen);
  }

  lemma ExampleBreak(s: string)
    requires s == "Abcdefg. Hi"
    ensures FindBreak(s, 2) == Some(7) && ByteLen(s) == 11
  {
    ByteLenAscii(s);
    ByteLenAscii(s[..7]);
    assert SentenceBreakAt(s, 7);
    assert BreakFrom(s, 2, 7);
    FindBreakLeftmost(s, 2);
  }

  lemma ExampleTrims(s: string)
    requires s == "Abcdefg. Hi"
    ensures Trim(s[..8]) == "Abcdefg." && Trim(s[8..]) == "Hi"
  {
    assert s[..8] == "Abcdefg." && s[8..] == [' '] + "Hi" + [];
    TrimOfTrimmed("Abcdefg.");
    TrimUnique([' '], "Hi", []);
  }

  /** A cut piece can be longer than the limit: only the remainder is made to fit. */
  lemma CutPieceMayExceedLimit()
    ensures Cut("Abcdefg. Hi", 4) == Some(["Abcdefg.", "Hi"])
    ensures ByteLen("Abcdefg.") > 4
  {
    var s := "Abcdefg. Hi";
    ExampleBreak(s);
    ExampleTrims(s);
    ByteLenAscii("Abcdefg.");
    ByteLenAscii("Hi");
    CutFits("Hi", 4);
    assert NextCut(s, 4) == Some(("Abcdefg.", "Hi"));
    assert Cut(s, 4) == Prefixed(["Abcdefg."], Some(["Hi"]));
    assert ["Abcdefg."] + ["Hi"] == ["Abcdefg.", "Hi"];
  }
}
