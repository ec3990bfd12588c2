/**
 * The translation service: it checks the input, parses it into sections, opens the cache,
 * builds the generator and the language model, and then, section by section, takes the
 * translation from the cache or asks the model for it, writes it and reports progress.
 *
 * The parser, the file system, the database file, the model and the progress channel are
 * collaborators whose answers are inputs: an `Environment` for the one-shot checks, and
 * objects whose constants fix how they answer later calls.
 */
module Pipeline {
  import opened Wrappers
  import opened Rosetta
  import opened Utils
  import opened TranslationCache
  import opened Generator

  // ---------------------------------------------------------------------------
  // Collaborators
  // ---------------------------------------------------------------------------

  /** A language model whose answer to the `n`-th request is fixed in advance. */
  class ScriptedLlm {
    const buildOutcome: Result<(), LLMError>
    const respond: (nat, Section) -> Result<Section, LLMError>
    var builds: nat
    var requests: seq<Section>

    constructor (buildOutcome: Result<(), LLMError>, respond: (nat, Section) -> Result<Section, LLMError>)
      ensures this.buildOutcome == buildOutcome && this.respond == respond
      ensures builds == 0 && requests == []
    {
      this.buildOutcome := buildOutcome;
      this.respond := respond;
      builds := 0;
      requests := [];
    }

    method Build() returns (r: Result<(), LLMError>)
      modifies this
      ensures builds == old(builds) + 1 && requests == old(requests)
      ensures r == buildOutcome
    {
      builds := builds + 1;
      r := buildOutcome;
    }

    /** One request with a whole section. */
    method Translate(section: Section) returns (r: Result<Section, LLMError>)
      modifies this
      ensures requests == old(requests) + [section] && builds == old(builds)
      ensures r == respond(|old(requests)|, section)
    {
      r := respond(|requests|, section);
      requests := requests + [section];
    }
  }

  /** The progress channel: the reports sent so far. */
  class ProgressLog {
    var sent: seq<Progress>

    constructor ()
      ensures sent == []
    {
      sent := [];
    }

    method Send(p: Progress)
      modifies this
      ensures sent == old(sent) + [p]
    {
      sent := sent + [p];
    }
  }

  /** Answers of the checks made once at the start. */
  datatype Environment = Environment(
    inputExists: bool,
    outputDirFails: bool,                         // `create_dir_all` of the output's directory
    parsed: Result<seq<Section>, ParseError>,     // what the parser returns for the input
    cacheOpens: bool,                             // opening the database file and creating its table
    generatorFailure: Option<TranslationError>)   // why the generator could not be built, if it could not

  /** How the collaborators answer later calls, and the cache's language keys. */
  datatype Setting = Setting(
    dbFails: set<nat>,
    ioFails: set<nat>,
    paths: Paths,
    conversionFails: bool,
    llmBuild: Result<(), LLMError>,
    respond: (nat, Section) -> Result<Section, LLMError>,
    srcLangLc: string,
    dstLangLc: string)

  /** Everything the run can change: the table, the generator, the model's log and the reports. */
  datatype World = World(
    db: Table,
    gen: GenState,
    llmBuilds: nat,
    requests: seq<Section>,
    progress: seq<Progress>)

  function SettingOf(cfg: TranslationConfig, db: Database, gen: MarkdownGenerator, llm: ScriptedLlm): Setting {
    Setting(db.failing, gen.ioFails, gen.paths, gen.conversionFails, llm.buildOutcome, llm.respond,
            LanguageKey(cfg.srcLang), LanguageKey(cfg.dstLang))
  }

  function Snapshot(db: Database, gen: MarkdownGenerator, llm: ScriptedLlm, sink: ProgressLog): World
    reads db, gen, llm, sink
  {
    World(db.State(), gen.State(), llm.builds, llm.requests, sink.sent)
  }

  // ---------------------------------------------------------------------------
  // One section
  // ---------------------------------------------------------------------------

  /**
   * The cache lookups of a section's subsections, in order, stopping at the first failed
   * query. Lookups change no row; each is one statement.
   */
  function Lookups(t: Table, s: Setting, section: Section)
    : (r: (Result<seq<Option<Subsection>>, TranslationError>, Table))
    ensures r.1.rows == t.rows
    ensures t.statements <= r.1.statements <= t.statements + |section|
    ensures r.0.Ok? <==> forall n :: t.statements <= n < t.statements + |section| ==> n !in s.dbFails
    ensures r.0.Ok? ==> r.1.statements == t.statements + |section| && |r.0.value| == |section|
    ensures r.0.Ok? ==> forall k :: 0 <= k < |section| ==>
      r.0.value[k] == Lookup(t.rows, section[k], s.srcLangLc, s.dstLangLc)
    ensures r.0.Err? ==> r.0.error == DatabaseError
    decreases |section|
  {
    if section == [] then (Ok([]), t)
    else
      var prev := Lookups(t, s, section[..|section| - 1]);
      if prev.0.Err? then prev
      else
        var got := GetResult(prev.1.rows, s.dbFails, prev.1.statements, section[|section| - 1], s.srcLangLc, s.dstLangLc);
        var after := Table(prev.1.rows, prev.1.statements + 1);
        if got.Err? then (Err(got.error), after) else (Ok(prev.0.value + [got.value]), after)
  }

  lemma {:induction false} LookupsErrorSticks(t: Table, s: Setting, section: Section, n: nat)
    requires n <= |section| && Lookups(t, s, section[..n]).0.Err?
    ensures Lookups(t, s, section) == Lookups(t, s, section[..n])
    decreases |section|
  {
    if n < |section| {
      var init := section[..|section| - 1];
      assert init[..n] == section[..n];
      LookupsErrorSticks(t, s, init, n);
    } else {
      assert section[..n] == section;
    }
  }

  /** The pairs `zip` makes: as many as the shorter side has. */
  function Zip(srcs: seq<Subsection>, dsts: seq<Subsection>): (z: seq<(Subsection, Subsection)>)
    ensures |z| == Min(|srcs|, |dsts|)
    ensures forall k :: 0 <= k < |z| ==> z[k] == (srcs[k], dsts[k])
  {
    seq(Min(|srcs|, |dsts|), k requires 0 <= k < Min(|srcs|, |dsts|) => (srcs[k], dsts[k]))
  }

  /** The cache inserts of translated pairs, in order, stopping at the first failure. */
  function Inserts(t: Table, s: Setting, pairs: seq<(Subsection, Subsection)>)
    : (r: (Result<(), TranslationError>, Table))
    ensures r.1.statements >= t.statements
    ensures r.0.Err? ==> r.0.error == DatabaseError
    decreases |pairs|
  {
    if pairs == [] then (Ok(()), t)
    else
      var prev := Inserts(t, s, pairs[..|pairs| - 1]);
      if prev.0.Err? then prev
      else
        var last := pairs[|pairs| - 1];
        InsertResult(prev.1, s.dbFails, last.0, last.1, s.srcLangLc, s.dstLangLc)
  }

  lemma {:induction false} InsertsErrorSticks(t: Table, s: Setting, pairs: seq<(Subsection, Subsection)>, n: nat)
    requires n <= |pairs| && Inserts(t, s, pairs[..n]).0.Err?
    ensures Inserts(t, s, pairs) == Inserts(t, s, pairs[..n])
    decreases |pairs|
  {
    if n < |pairs| {
      var init := pairs[..|pairs| - 1];
      assert init[..n] == pairs[..n];
      InsertsErrorSticks(t, s, init, n);
    } else {
      assert pairs[..n] == pairs;
    }
  }

  /**
   * After the inserts succeed every source of the pairs has a cached translation.
   */
  lemma {:induction false} InsertsCache(t: Table, s: Setting, pairs: seq<(Subsection, Subsection)>)
    requires Inserts(t, s, pairs).0.Ok?
    ensures var rows := Inserts(t, s, pairs).1.rows;
      forall k :: 0 <= k < |pairs| ==> Lookup(rows, pairs[k].0, s.srcLangLc, s.dstLangLc).Some?
    decreases |pairs|
  {
    if pairs != [] {
      var init, last := pairs[..|pairs| - 1], pairs[|pairs| - 1];
      InsertsCache(t, s, init);
      var mid := Inserts(t, s, init).1;
      InsertThenLookup(mid, s.dbFails, last.0, last.1, s.srcLangLc, s.dstLangLc);
    }
  }

  /** Inserts, whether or not all of them succeed, never change a translation already cached. */
  lemma {:induction false} InsertsKeepCached(t: Table, s: Setting, pairs: seq<(Subsection, Subsection)>)
    ensures var rows := Inserts(t, s, pairs).1.rows;
      forall src :: Lookup(t.rows, src, s.srcLangLc, s.dstLangLc).Some? ==>
        Lookup(rows, src, s.srcLangLc, s.dstLangLc) == Lookup(t.rows, src, s.srcLangLc, s.dstLangLc)
    decreases |pairs|
  {
    if pairs != [] {
      var init, last := pairs[..|pairs| - 1], pairs[|pairs| - 1];
      InsertsKeepCached(t, s, init);
      var prev := Inserts(t, s, init);
      if prev.0.Ok? {
        var after := InsertResult(prev.1, s.dbFails, last.0, last.1, s.srcLangLc, s.dstLangLc);
        if after.0.Ok? {
          InsertThenLookup(prev.1, s.dbFails, last.0, last.1, s.srcLangLc, s.dstLangLc);
        }
      }
    }
  }

  predicate AllHit(found: seq<Option<Subsection>>) {
    forall k :: 0 <= k < |found| ==> found[k].Some?
  }

  function Values(found: seq<Option<Subsection>>): (vs: Section)
    requires AllHit(found)
    ensures |vs| == |found| && forall k :: 0 <= k < |found| ==> Some(vs[k]) == found[k]
  {
    seq(|found|, k requires 0 <= k < |found| => found[k].value)
  }

  /** `write` of the translated section, then the progress report `current + 1` of `total`. */
  function Emit(w: World, s: Setting, out: Section, current: nat, total: nat)
    : (r: (Result<Section, TranslationError>, World))
    ensures r.1 == w.(gen := r.1.gen, progress := r.1.progress)
    ensures r.1.gen == WriteResult(w.gen, s.ioFails, out).1
    ensures r.0.Ok? <==> WriteResult(w.gen, s.ioFails, out).0.Ok?
    ensures r.0.Ok? ==> r.0.value == out && r.1.progress == w.progress + [Progress(current + 1, total)]
    ensures r.0.Err? ==> r.1.progress == w.progress
  {
    var written := WriteResult(w.gen, s.ioFails, out);
    if written.0.Err? then (Err(written.0.error), w.(gen := written.1))
    else (Ok(out), w.(gen := written.1, progress := w.progress + [Progress(current + 1, total)]))
  }

  /**
   * One iteration of the loop: the section from the cache when every subsection is cached,
   * otherwise one request with the whole section and the inserts of the zipped pairs; then
   * the write and the progress report. The result is the section that was written.
   */
  function ProcessSection(w: World, s: Setting, section: Section, current: nat, total: nat)
    : (r: (Result<Section, TranslationError>, World))
    ensures r.1.llmBuilds == w.llmBuilds
    ensures r.1.requests == w.requests || r.1.requests == w.requests + [section]
    ensures r.1.gen.conversions == w.gen.conversions
    ensures r.1.db.statements >= w.db.statements
    ensures r.0.Ok? ==> r.1.progress == w.progress + [Progress(current + 1, total)]
    ensures r.0.Err? ==> r.1.progress == w.progress
    ensures r.0.Ok? ==> (r.1.gen.fileOpen
      && r.1.gen.document == (if w.gen.fileOpen then w.gen.document else "") + Render(r.0.value))
  {
    var looked := Lookups(w.db, s, section);
    var w1 := w.(db := looked.1);
    if looked.0.Err? then (Err(looked.0.error), w1)
    else if AllHit(looked.0.value) then Emit(w1, s, Values(looked.0.value), current, total)
    else
      var reply := s.respond(|w1.requests|, section);
      var w2 := w1.(requests := w1.requests + [section]);
      if reply.Err? then (Err(LLMError(reply.error)), w2)
      else
        var ins := Inserts(w2.db, s, Zip(section, reply.value));
        var w3 := w2.(db := ins.1);
        if ins.0.Err? then (Err(ins.0.error), w3) else Emit(w3, s, reply.value, current, total)
  }

  /** No failed lookup among the statements a section's lookups use. */
  predicate LookupsSucceed(w: World, s: Setting, section: Section) {
    forall n :: w.db.statements <= n < w.db.statements + |section| ==> n !in s.dbFails
  }

  /**
   * A section whose every subsection is cached is assembled from the cache, in order, and
   * the model is not asked.
   */
  lemma SectionFromCache(w: World, s: Setting, section: Section, current: nat, total: nat)
    requires LookupsSucceed(w, s, section)
    requires forall k :: 0 <= k < |section| ==> Lookup(w.db.rows, section[k], s.srcLangLc, s.dstLangLc).Some?
    ensures var r := ProcessSection(w, s, section, current, total);
      r.1.requests == w.requests && r.1.db.rows == w.db.rows
      && (r.0.Ok? ==> (|r.0.value| == |section|
        && forall k :: 0 <= k < |section| ==>
          Some(r.0.value[k]) == Lookup(w.db.rows, section[k], s.srcLangLc, s.dstLangLc)))
  {
    var looked := Lookups(w.db, s, section);
    assert AllHit(looked.0.value);
  }

  /**
   * A section with an uncached subsection costs exactly one request, with the whole section;
   * what the model answers is written, and every zipped source then has a cached
   * translation while earlier translations stay as they were.
   */
  lemma SectionFromLlm(w: World, s: Setting, section: Section, current: nat, total: nat, miss: nat)
    requires LookupsSucceed(w, s, section)
    requires miss < |section| && Lookup(w.db.rows, section[miss], s.srcLangLc, s.dstLangLc).None?
    ensures var r := ProcessSection(w, s, section, current, total);
      r.1.requests == w.requests + [section]
      && (r.0.Ok? ==> r.0.value == s.respond(|w.requests|, section).value)
    ensures var r := ProcessSection(w, s, section, current, total);
      r.0.Ok? ==> forall k :: 0 <= k < Min(|section|, |r.0.value|) ==>
        Lookup(r.1.db.rows, section[k], s.srcLangLc, s.dstLangLc).Some?
    ensures var r := ProcessSection(w, s, section, current, total);
      forall src :: Lookup(w.db.rows, src, s.srcLangLc, s.dstLangLc).Some? ==>
        Lookup(r.1.db.rows, src, s.srcLangLc, s.dstLangLc) == Lookup(w.db.rows, src, s.srcLangLc, s.dstLangLc)
  {
    var looked := Lookups(w.db, s, section);
    assert !AllHit(looked.0.value) by {
      assert looked.0.value[miss].None?;
    }
    var reply := s.respond(|w.requests|, section);
    if reply.Ok? {
      var pairs := Zip(section, reply.value);
      var ins := Inserts(looked.1, s, pairs);
      InsertsKeepCached(looked.1, s, pairs);
      if ins.0.Ok? {
        InsertsCache(looked.1, s, pairs);
        forall k | 0 <= k < Min(|section|, |reply.value|)
          ensures Lookup(ins.1.rows, section[k], s.srcLangLc, s.dstLangLc).Some?
        {
          assert pairs[k].0 == section[k];
        }
      }
    }
  }

  // ---------------------------------------------------------------------------
  // The loop and the whole run
  // ---------------------------------------------------------------------------

  /** The reports of the first `n` sections out of `total`. */
  function Reports(n: nat, total: nat): (ps: seq<Progress>)
    ensures |ps| == n
    ensures forall k :: 0 <= k < n ==> ps[k] == Progress(k + 1, total)
  {
    seq(n, k requires 0 <= k < n => Progress(k + 1, total))
  }

  /**
   * The loop over the sections, stopping at the first error; on success the result is the
   * sections that were written, one per input section.
   */
  function RunSections(w: World, s: Setting, sections: seq<Section>, total: nat)
    : (r: (Result<seq<Section>, TranslationError>, World))
    ensures r.1.llmBuilds == w.llmBuilds
    ensures r.1.gen.conversions == w.gen.conversions
    ensures |w.requests| <= |r.1.requests| <= |w.requests| + |sections|
    ensures r.1.requests[..|w.requests|] == w.requests
    ensures r.0.Ok? ==> |r.0.value| == |sections|
    decreases |sections|
  {
    if sections == [] then (Ok([]), w)
    else
      var prev := RunSections(w, s, sections[..|sections| - 1], total);
      if prev.0.Err? then (Err(prev.0.error), prev.1)
      else
        var step := ProcessSection(prev.1, s, sections[|sections| - 1], |sections| - 1, total);
        if step.0.Err? then (Err(step.0.error), step.1)
        else (Ok(prev.0.value + [step.0.value]), step.1)
  }

  lemma {:induction false} RunErrorSticks(w: World, s: Setting, sections: seq<Section>, total: nat, n: nat)
    requires n <= |sections| && RunSections(w, s, sections[..n], total).0.Err?
    ensures RunSections(w, s, sections, total) == RunSections(w, s, sections[..n], total)
    decreases |sections|
  {
    if n < |sections| {
      var init := sections[..|sections| - 1];
      assert init[..n] == sections[..n];
      RunErrorSticks(w, s, init, total, n);
    } else {
      assert sections[..n] == sections;
    }
  }

  /** A successful loop is a successful loop over all sections but the last, then the last one. */
  lemma RunSectionsStep(w: World, s: Setting, sections: seq<Section>, total: nat)
    requires sections != [] && RunSections(w, s, sections, total).0.Ok?
    ensures var prev := RunSections(w, s, sections[..|sections| - 1], total);
      var step := ProcessSection(prev.1, s, sections[|sections| - 1], |sections| - 1, total);
      prev.0.Ok? && step.0.Ok?
      && RunSections(w, s, sections, total) == (Ok(prev.0.value + [step.0.value]), step.1)
  {
  }

  /** After the loop succeeds, progress was reported once per section, in order. */
  lemma {:induction false} RunSectionsReports(w: World, s: Setting, sections: seq<Section>, total: nat)
    requires RunSections(w, s, sections, total).0.Ok?
    ensures RunSections(w, s, sections, total).1.progress == w.progress + Reports(|sections|, total)
    decreases |sections|
  {
    if sections != [] {
      var init := sections[..|sections| - 1];
      RunSectionsStep(w, s, sections, total);
      RunSectionsReports(w, s, init, total);
      var prev := RunSections(w, s, init, total);
      var step := ProcessSection(prev.1, s, sections[|sections| - 1], |sections| - 1, total);
      assert step.1.progress == prev.1.progress + [Progress(|sections|, total)];
      ReportsSnoc(|init|, total);
    }
  }

  lemma ReportsSnoc(n: nat, total: nat)
    ensures Reports(n + 1, total) == Reports(n, total) + [Progress(n + 1, total)]
  {
  }

  /**
   * After the loop succeeds, the working file holds the renderings of the written sections,
   * one per input section, in order.
   */
  lemma {:induction false} RunSectionsDocument(w: World, s: Setting, sections: seq<Section>, total: nat)
    requires RunSections(w, s, sections, total).0.Ok? && sections != []
    ensures var r := RunSections(w, s, sections, total);
      r.1.gen.fileOpen
      && r.1.gen.document == (if w.gen.fileOpen then w.gen.document else "") + Document(r.0.value)
    decreases |sections|
  {
    var init := sections[..|sections| - 1];
    RunSectionsStep(w, s, sections, total);
    var prev := RunSections(w, s, init, total);
    var step := ProcessSection(prev.1, s, sections[|sections| - 1], |sections| - 1, total);
    var outs := prev.0.value + [step.0.value];
    assert outs[..|outs| - 1] == prev.0.value;
    if init != [] {
      RunSectionsDocument(w, s, init, total);
    }
    DocumentSnoc(prev.0.value, step.0.value, if w.gen.fileOpen then w.gen.document else "");
  }

  lemma DocumentSnoc(outs: seq<Section>, last: Section, base: string)
    ensures base + Document(outs + [last]) == base + Document(outs) + Render(last)
  {
    assert (outs + [last])[..|outs|] == outs;
  }

  /**
   * `LlmTranslationService::translate`. Every check before the loop returns at once; the
   * model is built once, before the loop; the loop stops at the first error; and only after
   * the last section is the generator finalized.
   */
  function PipelineSpec(env: Environment, s: Setting, w: World): (r: (Result<(), TranslationError>, World))
  {
    if !env.inputExists then (Err(IoError(NotFound)), w)
    else if env.outputDirFails then (Err(IoError(OtherIo)), w)
    else if env.parsed.Err? then (Err(ParseError(env.parsed.error)), w)
    else if !env.cacheOpens then (Err(DatabaseError), w)
    else WithCache(env, s, w, env.parsed.value)
  }

  /** Once the cache is open: the generator, the model, then the loop and `finalize`. */
  function WithCache(env: Environment, s: Setting, w: World, sections: seq<Section>)
    : (r: (Result<(), TranslationError>, World))
  {
    if env.generatorFailure.Some? then (Err(env.generatorFailure.value), w)
    else
      var built := w.(llmBuilds := w.llmBuilds + 1);
      if s.llmBuild.Err? then (Err(LLMError(s.llmBuild.error)), built)
      else RunAndFinalize(built, s, sections)
  }

  /** The loop over all sections, then `finalize` when the loop got through. */
  function RunAndFinalize(w: World, s: Setting, sections: seq<Section>): (r: (Result<(), TranslationError>, World))
    ensures r.1.llmBuilds == w.llmBuilds
    ensures r.0.Ok? ==> RunSections(w, s, sections, |sections|).0.Ok?
    ensures r.0.Ok? ==> (!r.1.gen.fileOpen
      && r.1.gen.conversions == w.gen.conversions + (if s.paths.markdown != s.paths.output then [r.1.gen.document] else []))
    ensures r.1.gen.conversions != w.gen.conversions ==> RunSections(w, s, sections, |sections|).0.Ok?
    ensures r.1.progress == RunSections(w, s, sections, |sections|).1.progress
    ensures r.1.requests == RunSections(w, s, sections, |sections|).1.requests
    ensures RunSections(w, s, sections, |sections|).0.Err? ==>
      r == (Err(RunSections(w, s, sections, |sections|).0.error), RunSections(w, s, sections, |sections|).1)
  {
    var ran := RunSections(w, s, sections, |sections|);
    if ran.0.Err? then (Err(ran.0.error), ran.1)
    else
      var fin := FinalizeResult(ran.1.gen, s.paths, s.conversionFails);
      (fin.0, ran.1.(gen := fin.1))
  }

  /**
   * What a run promises: a missing input touches nothing; the model is built at most once,
   * and exactly once in a successful run; the model is asked at most once per section and
   * its log only grows; a successful run finalizes the generator once, converting the
   * working file unless it is the output itself; and nothing is converted unless the input
   * was parsed.
   */
  lemma PipelineOutcome(env: Environment, s: Setting, w: World)
    ensures !env.inputExists ==> PipelineSpec(env, s, w) == (Err(IoError(NotFound)), w)
    ensures var r := PipelineSpec(env, s, w);
      r.1.llmBuilds <= w.llmBuilds + 1 && (r.0.Ok? ==> env.parsed.Ok? && r.1.llmBuilds == w.llmBuilds + 1)
    ensures var r := PipelineSpec(env, s, w);
      r.0.Ok? ==> (!r.1.gen.fileOpen
        && r.1.gen.conversions == w.gen.conversions + (if s.paths.markdown != s.paths.output then [r.1.gen.document] else []))
    ensures var r := PipelineSpec(env, s, w);
      r.1.gen.conversions != w.gen.conversions ==> env.parsed.Ok?
    ensures var r := PipelineSpec(env, s, w);
      |w.requests| <= |r.1.requests| && r.1.requests[..|w.requests|] == w.requests
      && (env.parsed.Ok? ==> |r.1.requests| <= |w.requests| + |env.parsed.value|)
  {
  }

  /**
   * The generator is finalized only once the loop got through every section: when the run
   * succeeds, and whenever a conversion was attempted, all the reports were sent.
   */
  lemma FinalizeAfterAllSections(env: Environment, s: Setting, w: World)
    ensures var r := PipelineSpec(env, s, w);
      r.0.Ok? || r.1.gen.conversions != w.gen.conversions ==>
        env.parsed.Ok? && r.1.progress == w.progress + Reports(|env.parsed.value|, |env.parsed.value|)
  {
    if env.inputExists && !env.outputDirFails && env.parsed.Ok? && env.cacheOpens
       && env.generatorFailure.None? && s.llmBuild.Ok? {
      var sections := env.parsed.value;
      var built := w.(llmBuilds := w.llmBuilds + 1);
      assert PipelineSpec(env, s, w) == RunAndFinalize(built, s, sections);
      if RunSections(built, s, sections, |sections|).0.Ok? {
        RunSectionsReports(built, s, sections, |sections|);
      }
    }
  }

  /** The reports of a run rise by one from 1 to the number of sections. */
  lemma {:induction false} ReportsIncrease(n: nat, total: nat, i: nat, j: nat)
    requires i < j < n
    ensures Reports(n, total)[i].processedSections < Reports(n, total)[j].processedSections
    ensures Reports(n, total)[j].processedSections <= n
  {
  }

  // ---------------------------------------------------------------------------
  // The methods
  // ---------------------------------------------------------------------------

  method LookupSection(cache: Cache, s: Setting, section: Section) returns (r: Result<seq<Option<Subsection>>, TranslationError>)
    requires s.dbFails == cache.db.failing && s.srcLangLc == cache.srcLangLc && s.dstLangLc == cache.dstLangLc
    modifies cache.db
    ensures (r, cache.db.State()) == Lookups(old(cache.db.State()), s, section)
  {
    ghost var t0 := cache.db.State();
    var found: seq<Option<Subsection>> := [];
    for i := 0 to |section|
      invariant Lookups(t0, s, section[..i]) == (Ok(found), cache.db.State())
    {
      assert section[..i + 1][..i] == section[..i];
      var got := cache.Get(section[i]);
      if got.Err? {
        LookupsErrorSticks(t0, s, section, i + 1);
        return Err(got.error);
      }
      found := found + [got.value];
    }
    assert section[..|section|] == section;
    return Ok(found);
  }

  method InsertPairs(cache: Cache, s: Setting, pairs: seq<(Subsection, Subsection)>) returns (r: Result<(), TranslationError>)
    requires s.dbFails == cache.db.failing && s.srcLangLc == cache.srcLangLc && s.dstLangLc == cache.dstLangLc
    modifies cache.db
    ensures (r, cache.db.State()) == Inserts(old(cache.db.State()), s, pairs)
  {
    ghost var t0 := cache.db.State();
    for i := 0 to |pairs|
      invariant Inserts(t0, s, pairs[..i]) == (Ok(()), cache.db.State())
    {
      assert pairs[..i + 1][..i] == pairs[..i];
      var inserted := cache.Insert(pairs[i].0, pairs[i].1);
      if inserted.Err? {
        InsertsErrorSticks(t0, s, pairs, i + 1);
        return inserted;
      }
    }
    assert pairs[..|pairs|] == pairs;
    return Ok(());
  }

  method TranslateSection(cache: Cache, gen: MarkdownGenerator, llm: ScriptedLlm, sink: ProgressLog,
                          s: Setting, section: Section, current: nat, total: nat)
    returns (r: Result<Section, TranslationError>)
    requires s.dbFails == cache.db.failing && s.srcLangLc == cache.srcLangLc && s.dstLangLc == cache.dstLangLc
    requires s.ioFails == gen.ioFails && s.respond == llm.respond
    modifies cache.db, gen, llm, sink
    ensures (r, Snapshot(cache.db, gen, llm, sink)) ==
      ProcessSection(old(Snapshot(cache.db, gen, llm, sink)), s, section, current, total)
  {
    var found := LookupSection(cache, s, section);
    if found.Err? {
      return Err(found.error);
    }
    var translated: Section;
    if AllHit(found.value) {
      translated := Values(found.value);
    } else {
      var reply := llm.Translate(section);
      if reply.Err? {
        return Err(LLMError(reply.error));
      }
      translated := reply.value;
      var inserted := InsertPairs(cache, s, Zip(section, translated));
      if inserted.Err? {
        return Err(inserted.error);
      }
    }
    var written := gen.Write(translated);
    if written.Err? {
      return Err(written.error);
    }
    sink.Send(Progress(current + 1, total));
    return Ok(translated);
  }

  /** The run, against the collaborators' objects. */
  method Translate(env: Environment, cfg: TranslationConfig, db: Database, gen: MarkdownGenerator,
                   llm: ScriptedLlm, sink: ProgressLog)
    returns (r: Result<(), TranslationError>)
    modifies db, gen, llm, sink
    ensures (r, Snapshot(db, gen, llm, sink)) ==
      PipelineSpec(env, SettingOf(cfg, db, gen, llm), old(Snapshot(db, gen, llm, sink)))
  {
    if !env.inputExists {
      return Err(IoError(NotFound));
    }
    if env.outputDirFails {
      return Err(IoError(OtherIo));
    }
    if env.parsed.Err? {
      return Err(ParseError(env.parsed.error));
    }
    var sections := env.parsed.value;
    if !env.cacheOpens {
      return Err(DatabaseError);
    }
    r := OpenAndRun(env, cfg, db, gen, llm, sink, sections);
  }

  /** The part of the run after the database file was opened. */
  method OpenAndRun(env: Environment, cfg: TranslationConfig, db: Database, gen: MarkdownGenerator,
                    llm: ScriptedLlm, sink: ProgressLog, sections: seq<Section>)
    returns (r: Result<(), TranslationError>)
    modifies db, gen, llm, sink
    ensures (r, Snapshot(db, gen, llm, sink)) ==
      WithCache(env, SettingOf(cfg, db, gen, llm), old(Snapshot(db, gen, llm, sink)), sections)
  {
    var cache := new Cache(db, cfg.srcLang, cfg.dstLang);
    if env.generatorFailure.Some? {
      return Err(env.generatorFailure.value);
    }
    var built := llm.Build();
    if built.Err? {
      return Err(LLMError(built.error));
    }
    var s := SettingOf(cfg, db, gen, llm);
    r := RunLoop(cache, gen, llm, sink, s, sections);
  }

  /** The loop over the sections and the final `finalize`. */
  method RunLoop(cache: Cache, gen: MarkdownGenerator, llm: ScriptedLlm, sink: ProgressLog,
                 s: Setting, sections: seq<Section>)
    returns (r: Result<(), TranslationError>)
    requires s.dbFails == cache.db.failing && s.srcLangLc == cache.srcLangLc && s.dstLangLc == cache.dstLangLc
    requires s.ioFails == gen.ioFails && s.respond == llm.respond
    requires s.paths == gen.paths && s.conversionFails == gen.conversionFails
    modifies cache.db, gen, llm, sink
    ensures (r, Snapshot(cache.db, gen, llm, sink)) ==
      RunAndFinalize(old(Snapshot(cache.db, gen, llm, sink)), s, sections)
  {
    var total := |sections|;
    ghost var w0 := Snapshot(cache.db, gen, llm, sink);
    var written: seq<Section> := [];
    for i := 0 to total
      invariant RunSections(w0, s, sections[..i], total) == (Ok(written), Snapshot(cache.db, gen, llm, sink))
    {
      assert sections[..i + 1][..i] == sections[..i];
      var step := TranslateSection(cache, gen, llm, sink, s, sections[i], i, total);
      if step.Err? {
        RunErrorSticks(w0, s, sections, total, i + 1);
        return Err(step.error);
      }
      written := written + [step.value];
    }
    assert sections[..total] == sections;
    r := gen.Finalize();
  }
}
