/**
 * The markdown generator: it decides whether a run starts a new translation or continues
 * an unfinished one, appends every translated section to a working markdown file, and at
 * the end hands that file to the external converter unless the output is markdown already.
 */
module Generator {
  import opened Wrappers
  import opened Text
  import opened Rosetta
  import opened Segmenter

  // ---------------------------------------------------------------------------
  // Paths and the build decision
  // ---------------------------------------------------------------------------

  /** A file path: everything before the extension, and the extension if there is one. */
  datatype Path = Path(stem: string, extension: Option<string>)

  const MARKDOWN_EXTENSION := "md"

  /** `Path::with_extension("md")`: the working markdown file that sits beside the output. */
  function MarkdownPath(output: Path): (md: Path)
    ensures md.stem == output.stem && md.extension == Some(MARKDOWN_EXTENSION)
  {
    output.(extension := Some(MARKDOWN_EXTENSION))
  }

  /** The working file is the output itself exactly when the output already is a markdown file. */
  lemma MarkdownPathIsOutput(output: Path)
    ensures MarkdownPath(output) == output <==> output.extension == Some(MARKDOWN_EXTENSION)
  {
  }

  /** Where a built generator writes: the output path and the working markdown path. */
  datatype Paths = Paths(output: Path, markdown: Path)

  /**
   * `build`. Without `continueTranslation` an existing working file is refused and nothing is
   * already translated; with it the working file must exist and is parsed again: `converted`
   * is what the external converter made of it (or why it failed), which is then segmented.
   */
  function Build(output: Path, continueTranslation: bool, mdExists: bool,
                 converted: Result<string, ParseError>, maxSectionLen: nat)
    : (r: Result<(Paths, seq<Section>), TranslationError>)
    ensures r.Ok? ==> r.value.0 == Paths(output, MarkdownPath(output))
    ensures r == Err(IoError(AlreadyExists)) <==> !continueTranslation && mdExists
    ensures r == Err(IoError(NotFound)) <==> continueTranslation && !mdExists
    ensures !continueTranslation && !mdExists ==> r.Ok? && r.value.1 == []
    ensures r.Err? && r.error.ParseError? ==> continueTranslation && mdExists
    ensures continueTranslation && mdExists ==>
      match converted
      case Err(e) => r == Err(ParseError(e))
      case Ok(text) =>
        (r.Ok? <==> SegmentMarkdown(text, maxSectionLen).Ok?)
        && (r.Ok? ==> r.value.1 == SegmentMarkdown(text, maxSectionLen).value)
        && (r.Err? ==> r.error == ParseError(SegmentMarkdown(text, maxSectionLen).error))
  {
    var paths := Paths(output, MarkdownPath(output));
    if !continueTranslation then
      if mdExists then Err(IoError(AlreadyExists)) else Ok((paths, []))
    else if !mdExists then Err(IoError(NotFound))
    else
      match converted
      case Err(e) => Err(ParseError(e))
      case Ok(text) =>
        match SegmentMarkdown(text, maxSectionLen)
        case Err(e) => Err(ParseError(e))
        case Ok(sections) => Ok((paths, sections))
  }

  // ---------------------------------------------------------------------------
  // Rendering
  // ---------------------------------------------------------------------------

  const NEWLINE := "\n"

  /** `join("\n")` over the subsections of a section. */
  function JoinLines(section: Section): string {
    if |section| <= 1 then (if section == [] then "" else section[0])
    else section[0] + NEWLINE + JoinLines(section[1..])
  }

  /** What one `write` appends: the joined subsections and a blank line. */
  function Render(section: Section): string {
    JoinLines(section) + SEPARATOR
  }

  /** The renderings of several sections, in order. */
  function Document(sections: seq<Section>): string {
    if sections == [] then "" else Document(sections[..|sections| - 1]) + Render(sections[|sections| - 1])
  }

  function Lines(sections: seq<Section>): (ls: seq<string>)
    ensures |ls| == |sections|
  {
    if sections == [] then [] else Lines(sections[..|sections| - 1]) + [JoinLines(sections[|sections| - 1])]
  }

  /** A subsection that can be written and read back unchanged: not empty, not padded, no blank line. */
  predicate Plain(s: Subsection) {
    s != [] && IsTrimmed(s) && NoSeparator(s)
  }

  lemma {:induction false} GlueNoSeparator(a: string, b: string)
    requires NoSeparator(a) && NoSeparator(b)
    requires a != [] && a[|a| - 1] != '\n' && b != [] && b[0] != '\n'
    ensures NoSeparator(a + NEWLINE + b)
  {
    var s := a + NEWLINE + b;
    forall i: nat | i < |s| ensures !SeparatorAt(s, i) {
      if i + 1 < |a| {
        assert !SeparatorAt(a, i);
      } else if i + 1 == |a| {
        assert s[i] == a[|a| - 1];
      } else if i == |a| {
        assert s[i + 1] == b[0];
      } else if i + 1 < |s| {
        assert !SeparatorAt(b, i - |a| - 1);
        assert s[i] == b[i - |a| - 1] && s[i + 1] == b[i - |a|];
      }
    }
  }

  /** Joining plain subsections with single newlines makes no blank line and no padding newline. */
  lemma {:induction false} JoinLinesShape(section: Section)
    requires section != []
    requires forall m :: 0 <= m < |section| ==> Plain(section[m])
    ensures JoinLines(section) != [] && NoSeparator(JoinLines(section))
    ensures JoinLines(section) != [] && !IsWhitespace(JoinLines(section)[0])
    ensures JoinLines(section) != [] && JoinLines(section)[|JoinLines(section)| - 1] != '\n'
    decreases |section|
  {
    if |section| > 1 {
      var a, rest := section[0], section[1..];
      JoinLinesShape(rest);
      assert Plain(a) && Plain(rest[0]);
      assert !IsWhitespace(rest[0][0]);
      GlueNoSeparator(a, JoinLines(rest));
    } else {
      assert Plain(section[0]);
    }
  }

  lemma {:induction false} JoinParagraphsSnoc(ps: seq<string>, y: string)
    requires |ps| >= 1
    ensures JoinParagraphs(ps + [y]) == JoinParagraphs(ps) + SEPARATOR + y
    decreases |ps|
  {
    if |ps| > 1 {
      assert (ps + [y])[1..] == ps[1..] + [y];
      JoinParagraphsSnoc(ps[1..], y);
    }
  }

  /** The rendered document is the joined sections glued with blank lines, with a final blank line. */
  lemma {:induction false} DocumentJoins(sections: seq<Section>)
    ensures Document(sections) == JoinParagraphs(Lines(sections) + [""])
    decreases |sections|
  {
    if sections != [] {
      var init, last := sections[..|sections| - 1], sections[|sections| - 1];
      DocumentJoins(init);
      var ls := Lines(init);
      assert Lines(sections) + [""] == (ls + [JoinLines(last)]) + [""];
      JoinParagraphsSnoc(ls + [JoinLines(last)], "");
      if ls == [] {
        assert ls + [JoinLines(last)] == [JoinLines(last)];
      } else {
        JoinParagraphsSnoc(ls, "");
        JoinParagraphsSnoc(ls, JoinLines(last));
      }
    }
  }

  /**
   * Reading the working file back: splitting a document of plain subsections at blank lines
   * gives every section's joined subsections, in order, and the empty text after the last one.
   */
  lemma {:induction false} DocumentSplitsBack(sections: seq<Section>)
    requires forall k :: 0 <= k < |sections| ==> sections[k] != []
    requires forall k, m :: 0 <= k < |sections| && 0 <= m < |sections[k]| ==> Plain(sections[k][m])
    ensures SplitParagraphs(Document(sections)) == Lines(sections) + [""]
  {
    DocumentJoins(sections);
    LinesShaped(sections);
    JoinSplit(Lines(sections) + [""]);
  }

  lemma {:induction false} LinesShaped(sections: seq<Section>)
    requires forall k :: 0 <= k < |sections| ==> sections[k] != []
    requires forall k, m :: 0 <= k < |sections| && 0 <= m < |sections[k]| ==> Plain(sections[k][m])
    ensures SplitShaped(Lines(sections) + [""])
    decreases |sections|
  {
    var ps := Lines(sections) + [""];
    forall k | 0 <= k < |ps| ensures NoSeparator(ps[k]) {
      if k < |sections| { LineAt(sections, k); }
    }
    forall k | 0 <= k < |ps| - 1 && ps[k] != [] ensures ps[k][|ps[k]| - 1] != '\n' {
      LineAt(sections, k);
    }
  }

  lemma {:induction false} LineAt(sections: seq<Section>, k: nat)
    requires k < |sections| && sections[k] != []
    requires forall m :: 0 <= m < |sections[k]| ==> Plain(sections[k][m])
    ensures Lines(sections)[k] == JoinLines(sections[k])
    ensures NoSeparator(Lines(sections)[k])
    ensures Lines(sections)[k] != [] && Lines(sections)[k][|Lines(sections)[k]| - 1] != '\n'
    decreases |sections|
  {
    if k < |sections| - 1 {
      LineAt(sections[..|sections| - 1], k);
    }
    JoinLinesShape(sections[k]);
  }

  // ---------------------------------------------------------------------------
  // The generator
  // ---------------------------------------------------------------------------

  /**
   * What the generator and its working file look like: whether the file handle is held, the
   * file's contents, how many file operations were attempted, how often the file was created,
   * and the contents handed to the converter so far.
   */
  datatype GenState = GenState(
    fileOpen: bool,
    document: string,
    ioOps: nat,
    creations: nat,
    conversions: seq<string>)

  /** The file operation numbered `n` fails when `n` is in `ioFails`. */
  function IoStep(st: GenState): GenState {
    st.(ioOps := st.ioOps + 1)
  }

  /**
   * `write`: the first call creates (truncates) the working file and keeps the handle; then the
   * joined subsections and the blank line are appended, each a separate write that can fail.
   */
  function WriteResult(st: GenState, ioFails: set<nat>, section: Section)
    : (r: (Result<(), TranslationError>, GenState))
    ensures r.0.Err? ==> r.0.error == IoError(OtherIo)
    ensures r.1.conversions == st.conversions
    ensures r.1.ioOps > st.ioOps
    ensures r.1.creations == st.creations + (if st.fileOpen then 0 else 1)
            || (r.0.Err? && r.1.creations == st.creations && !r.1.fileOpen)
    ensures r.0.Ok? ==> (r.1.fileOpen
      && r.1.document == (if st.fileOpen then st.document else "") + Render(section))
    ensures r.0.Ok? <==> (if st.fileOpen then {st.ioOps, st.ioOps + 1} else {st.ioOps, st.ioOps + 1, st.ioOps + 2}) !! ioFails
  {
    if !st.fileOpen && st.ioOps in ioFails then (Err(IoError(OtherIo)), IoStep(st))
    else
      var held := if st.fileOpen then st else IoStep(st.(fileOpen := true, document := "", creations := st.creations + 1));
      if held.ioOps in ioFails then (Err(IoError(OtherIo)), IoStep(held))
      else
        var joined := IoStep(held.(document := held.document + JoinLines(section)));
        if joined.ioOps in ioFails then (Err(IoError(OtherIo)), IoStep(joined))
        else (Ok(()), IoStep(joined.(document := joined.document + SEPARATOR)))
  }

  /**
   * `finalize`: the handle is dropped, and the working file is converted into the output
   * unless the two paths are the same; a failed conversion is an `OtherError`.
   */
  function FinalizeResult(st: GenState, paths: Paths, conversionFails: bool)
    : (r: (Result<(), TranslationError>, GenState))
    ensures !r.1.fileOpen
    ensures r.1.document == st.document && r.1.ioOps == st.ioOps && r.1.creations == st.creations
    ensures paths.markdown == paths.output ==> r.0.Ok? && r.1.conversions == st.conversions
    ensures paths.markdown != paths.output ==> r.1.conversions == st.conversions + [st.document]
    ensures r.0.Err? <==> paths.markdown != paths.output && conversionFails
    ensures r.0.Err? ==> r.0.error.OtherError?
  {
    var closed := st.(fileOpen := false);
    if paths.markdown == paths.output then (Ok(()), closed)
    else
      var converting := closed.(conversions := closed.conversions + [st.document]);
      if conversionFails then (Err(OtherError("pandoc conversion failed")), converting)
      else (Ok(()), converting)
  }

  /** A built generator converts exactly when the output is not a markdown file. */
  lemma FinalizeConvertsUnlessMarkdown(st: GenState, output: Path, conversionFails: bool)
    ensures var r := FinalizeResult(st, Paths(output, MarkdownPath(output)), conversionFails);
      (|r.1.conversions| == |st.conversions| + 1 <==> output.extension != Some(MARKDOWN_EXTENSION))
      && (output.extension == Some(MARKDOWN_EXTENSION) ==> r.0.Ok?)
  {
    MarkdownPathIsOutput(output);
  }

  /** The writes of several sections in order, stopping at the first failure. */
  function WriteAll(st: GenState, ioFails: set<nat>, sections: seq<Section>)
    : (r: (Result<(), TranslationError>, GenState))
    decreases |sections|
  {
    if sections == [] then (Ok(()), st)
    else
      var first := WriteResult(st, ioFails, sections[0]);
      if first.0.Err? then first else WriteAll(first.1, ioFails, sections[1..])
  }

  /**
   * After the writes of a fresh generator succeed, the file was created once and holds the
   * renderings of the sections in order.
   */
  lemma {:induction false} WritesConcatenate(st: GenState, ioFails: set<nat>, sections: seq<Section>)
    requires WriteAll(st, ioFails, sections).0.Ok?
    ensures var r := WriteAll(st, ioFails, sections).1;
      sections != [] ==> (r.fileOpen
        && r.document == (if st.fileOpen then st.document else "") + Document(sections)
        && r.creations == st.creations + (if st.fileOpen then 0 else 1))
    decreases |sections|
  {
    if sections != [] {
      var next := WriteResult(st, ioFails, sections[0]).1;
      var rest := sections[1..];
      assert sections == [sections[0]] + rest;
      DocumentCons(sections[0], rest);
      if rest == [] {
        assert Document([sections[0]]) == Document([]) + Render(sections[0]);
      } else {
        WritesConcatenate(next, ioFails, rest);
      }
    }
  }

  lemma {:induction false} DocumentCons(s: Section, rest: seq<Section>)
    ensures Document([s] + rest) == Render(s) + Document(rest)
    decreases |rest|
  {
    if rest == [] {
      assert [s] + rest == [s];
      assert Document([s]) == Document([]) + Render(s);
    } else {
      var init, last := rest[..|rest| - 1], rest[|rest| - 1];
      var whole := [s] + rest;
      assert whole[..|whole| - 1] == [s] + init && whole[|whole| - 1] == last;
      DocumentCons(s, init);
    }
  }

  /** The generator of the pipeline, with the file system's answers as constants. */
  class MarkdownGenerator {
    const paths: Paths
    const ioFails: set<nat>
    const conversionFails: bool
    var fileOpen: bool
    var document: string
    var ioOps: nat
    var creations: nat
    var conversions: seq<string>

    /** A freshly built generator holds no handle; `document` is whatever the working file holds. */
    constructor (paths: Paths, document: string, ioFails: set<nat>, conversionFails: bool)
      ensures this.paths == paths && this.ioFails == ioFails && this.conversionFails == conversionFails
      ensures State() == GenState(false, document, 0, 0, [])
    {
      this.paths := paths;
      this.ioFails := ioFails;
      this.conversionFails := conversionFails;
      fileOpen := false;
      this.document := document;
      ioOps := 0;
      creations := 0;
      conversions := [];
    }

    function State(): GenState
      reads this
    {
      GenState(fileOpen, document, ioOps, creations, conversions)
    }

    method Write(section: Section) returns (r: Result<(), TranslationError>)
      modifies this
      ensures (r, State()) == WriteResult(old(State()), ioFails, section)
    {
      if !fileOpen {
        if ioOps in ioFails {
          ioOps := ioOps + 1;
          return Err(IoError(OtherIo));
        }
        fileOpen := true;
        document := "";
        creations := creations + 1;
        ioOps := ioOps + 1;
      }
      if ioOps in ioFails {
        ioOps := ioOps + 1;
        return Err(IoError(OtherIo));
      }
      document := document + JoinLines(section);
      ioOps := ioOps + 1;
      if ioOps in ioFails {
        ioOps := ioOps + 1;
        return Err(IoError(OtherIo));
      }
      document := document + SEPARATOR;
      ioOps := ioOps + 1;
      return Ok(());
    }

    method Finalize() returns (r: Result<(), TranslationError>)
      modifies this
      ensures (r, State()) == FinalizeResult(old(State()), paths, conversionFails)
    {
      fileOpen := false;
      if paths.markdown != paths.output {
        conversions := conversions + [document];
        if conversionFails {
          return Err(OtherError("pandoc conversion failed"));
        }
      }
      return Ok(());
    }
  }
}
