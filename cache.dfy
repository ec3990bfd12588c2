/**
 * The translation cache: a table of (source text, translation, source language,
 * target language) rows, partitioned by the normalised language pair of the cache.
 * Lookups return the stored translation; inserts never overwrite one.
 */
module TranslationCache {
  import opened Wrappers
  import opened Text
  import opened Rosetta

  /** A row of the `translated` table. */
  datatype Row = Row(src: Subsection, dst: Subsection, srcLangLc: string, dstLangLc: string)

  /** How a language name is stored: trimmed, then lower-cased. */
  function LanguageKey(lang: string): (k: string)
    ensures IsTrimmed(k) && |k| <= |lang|
    ensures forall i :: 0 <= i < |k| ==> !IsUppercase(k[i])
  {
    ToLowerKeepsWhitespace(Trim(lang));
    ToLower(Trim(lang))
  }

  /** `to_lowercase` leaves a lower-cased text as it is. */
  lemma ToLowerIdempotent(s: string)
    ensures ToLower(ToLower(s)) == ToLower(s)
  {
    forall i | 0 <= i < |s| ensures ToLowerChar(ToLowerChar(s[i])) == ToLowerChar(s[i]) {
    }
  }

  /**
   * Language names that differ only in letter case or in the whitespace around them
   * have the same key, so they share the cached entries.
   */
  lemma LanguageKeyIgnoresCaseAndPadding(a: string, b: string, w1: string, w2: string)
    requires ToLower(a) == ToLower(b)
    requires AllWhitespace(w1) && AllWhitespace(w2)
    ensures LanguageKey(w1 + a + w2) == LanguageKey(b)
  {
    TrimIgnoresPadding(w1, a, w2);
    TrimToLowerCommute(a);
    TrimToLowerCommute(b);
  }

  /** A key is a fixed point: normalising a stored language name again changes nothing. */
  lemma LanguageKeyIdempotent(lang: string)
    ensures LanguageKey(LanguageKey(lang)) == LanguageKey(lang)
  {
    var t := Trim(lang);
    ToLowerKeepsWhitespace(t);
    TrimOfTrimmed(ToLower(t));
    ToLowerIdempotent(t);
  }

  /**
   * The default settings translate from English to Russian in a formal tone, with
   * subsections of at most 5000 bytes; the cache stores their pair as `english`/`russian`.
   */
  lemma DefaultLanguageKeys()
    ensures DEFAULT_CONFIG.srcLang == "English" && DEFAULT_CONFIG.dstLang == "Russian"
    ensures DEFAULT_CONFIG.subject == "Unknown" && DEFAULT_CONFIG.tone == "formal"
    ensures DEFAULT_CONFIG.additionalInstructions == "" && DEFAULT_CONFIG.maxSectionLen == 5000
    ensures LanguageKey(DEFAULT_CONFIG.srcLang) == "english"
    ensures LanguageKey(DEFAULT_CONFIG.dstLang) == "russian"
  {
    TrimOfTrimmed("English");
    TrimOfTrimmed("Russian");
  }

  /** The row holds the translation of `src` for the language pair. */
  predicate Keyed(row: Row, src: Subsection, srcLangLc: string, dstLangLc: string) {
    row.src == src && row.srcLangLc == srcLangLc && row.dstLangLc == dstLangLc
  }

  /** The `SELECT` of `get`: the translation in the first row with the key, if any. */
  function Lookup(rows: seq<Row>, src: Subsection, srcLangLc: string, dstLangLc: string): Option<Subsection>
    decreases |rows|
  {
    if rows == [] then None
    else if Keyed(rows[0], src, srcLangLc, dstLangLc) then Some(rows[0].dst)
    else Lookup(rows[1..], src, srcLangLc, dstLangLc)
  }

  /**
   * A lookup finds a translation exactly when a row with the key exists, and what it
   * finds is the translation of the first such row.
   */
  lemma {:induction false} LookupFinds(rows: seq<Row>, src: Subsection, srcLangLc: string, dstLangLc: string)
    ensures Lookup(rows, src, srcLangLc, dstLangLc).Some?
      <==> exists i :: 0 <= i < |rows| && Keyed(rows[i], src, srcLangLc, dstLangLc)
    ensures Lookup(rows, src, srcLangLc, dstLangLc).Some? ==>
      exists i :: 0 <= i < |rows| && Keyed(rows[i], src, srcLangLc, dstLangLc)
        && rows[i].dst == Lookup(rows, src, srcLangLc, dstLangLc).value
        && forall k :: 0 <= k < i ==> !Keyed(rows[k], src, srcLangLc, dstLangLc)
    decreases |rows|
  {
    if rows != [] && !Keyed(rows[0], src, srcLangLc, dstLangLc) {
      var tail := rows[1..];
      LookupFinds(tail, src, srcLangLc, dstLangLc);
      if exists i :: 0 <= i < |rows| && Keyed(rows[i], src, srcLangLc, dstLangLc) {
        var i :| 0 <= i < |rows| && Keyed(rows[i], src, srcLangLc, dstLangLc);
        assert Keyed(tail[i - 1], src, srcLangLc, dstLangLc);
      }
      if Lookup(tail, src, srcLangLc, dstLangLc).Some? {
        var i :| 0 <= i < |tail| && Keyed(tail[i], src, srcLangLc, dstLangLc)
          && tail[i].dst == Lookup(tail, src, srcLangLc, dstLangLc).value
          && forall k :: 0 <= k < i ==> !Keyed(tail[k], src, srcLangLc, dstLangLc);
        assert rows[i + 1] == tail[i];
        forall k | 0 <= k < i + 1 ensures !Keyed(rows[k], src, srcLangLc, dstLangLc) {
          if k > 0 {
            assert rows[k] == tail[k - 1];
          }
        }
      }
    }
  }

  /** Appending rows only matters to keys the earlier rows do not hold. */
  lemma {:induction false} LookupAppend(rows: seq<Row>, extra: seq<Row>, src: Subsection, srcLangLc: string, dstLangLc: string)
    ensures Lookup(rows + extra, src, srcLangLc, dstLangLc) ==
      if Lookup(rows, src, srcLangLc, dstLangLc).Some? then Lookup(rows, src, srcLangLc, dstLangLc)
      else Lookup(extra, src, srcLangLc, dstLangLc)
    decreases |rows|
  {
    if rows == [] {
      assert rows + extra == extra;
    } else {
      assert (rows + extra)[0] == rows[0];
      assert (rows + extra)[1..] == rows[1..] + extra;
      LookupAppend(rows[1..], extra, src, srcLangLc, dstLangLc);
    }
  }

  /** Rows stored under another language pair are never returned. */
  lemma {:induction false} LookupIgnoresOtherPairs(rows: seq<Row>, other: seq<Row>, src: Subsection, srcLangLc: string, dstLangLc: string)
    requires forall i :: 0 <= i < |other| ==> (other[i].srcLangLc, other[i].dstLangLc) != (srcLangLc, dstLangLc)
    ensures Lookup(rows + other, src, srcLangLc, dstLangLc) == Lookup(rows, src, srcLangLc, dstLangLc)
    ensures Lookup(other + rows, src, srcLangLc, dstLangLc) == Lookup(rows, src, srcLangLc, dstLangLc)
  {
    LookupFinds(other, src, srcLangLc, dstLangLc);
    LookupAppend(rows, other, src, srcLangLc, dstLangLc);
    LookupAppend(other, rows, src, srcLangLc, dstLangLc);
  }

  /** Two rows are for the same source text and language pair. */
  predicate SameKey(a: Row, b: Row) {
    a.src == b.src && a.srcLangLc == b.srcLangLc && a.dstLangLc == b.dstLangLc
  }

  /** At most one row per source text and language pair. */
  predicate Unique(rows: seq<Row>) {
    forall i, j :: 0 <= i < j < |rows| ==> !SameKey(rows[i], rows[j])
  }

  /** With unique keys, the lookup returns the one row of the key. */
  lemma LookupUnique(rows: seq<Row>, i: nat)
    requires Unique(rows) && i < |rows|
    ensures Lookup(rows, rows[i].src, rows[i].srcLangLc, rows[i].dstLangLc) == Some(rows[i].dst)
  {
    var r := rows[i];
    LookupFinds(rows, r.src, r.srcLangLc, r.dstLangLc);
    var j :| 0 <= j < |rows| && Keyed(rows[j], r.src, r.srcLangLc, r.dstLangLc)
      && rows[j].dst == Lookup(rows, r.src, r.srcLangLc, r.dstLangLc).value
      && forall k :: 0 <= k < j ==> !Keyed(rows[k], r.src, r.srcLangLc, r.dstLangLc);
    assert j <= i;
    assert j < i ==> SameKey(rows[j], rows[i]);
  }

  /** What `get` returns when it is the database statement number `n`. */
  function GetResult(rows: seq<Row>, failing: set<nat>, n: nat, src: Subsection, srcLangLc: string, dstLangLc: string)
    : (r: Result<Option<Subsection>, TranslationError>)
    ensures r.Err? <==> n in failing
    ensures r.Err? ==> r.error == DatabaseError
  {
    if n in failing then Err(DatabaseError) else Ok(Lookup(rows, src, srcLangLc, dstLangLc))
  }

  /** The table, and the number of statements run on it so far. */
  datatype Table = Table(rows: seq<Row>, statements: nat)

  /**
   * `insert`: the `get` check, then, only when it found nothing, the `INSERT`. Either
   * statement can fail; a failed statement changes no row.
   */
  function InsertResult(t: Table, failing: set<nat>, src: Subsection, dst: Subsection, srcLangLc: string, dstLangLc: string)
    : (r: (Result<(), TranslationError>, Table))
    ensures r.1.rows == t.rows || r.1.rows == t.rows + [Row(src, dst, srcLangLc, dstLangLc)]
    ensures Lookup(t.rows, src, srcLangLc, dstLangLc).Some? ==> r.1.rows == t.rows  // first write wins
    ensures r.0.Err? ==> r.1.rows == t.rows && r.0.error == DatabaseError
    ensures r.1.statements > t.statements
  {
    match GetResult(t.rows, failing, t.statements, src, srcLangLc, dstLangLc)
    case Err(e) => (Err(e), Table(t.rows, t.statements + 1))
    case Ok(Some(_)) => (Ok(()), Table(t.rows, t.statements + 1))
    case Ok(None) =>
      if t.statements + 1 in failing then (Err(DatabaseError), Table(t.rows, t.statements + 2))
      else (Ok(()), Table(t.rows + [Row(src, dst, srcLangLc, dstLangLc)], t.statements + 2))
  }

  /**
   * After a successful insert the key has a translation: the new one when there was
   * none, the old one otherwise. Every other key, of this or another language pair,
   * keeps what it had.
   */
  lemma InsertThenLookup(t: Table, failing: set<nat>, src: Subsection, dst: Subsection, srcLangLc: string, dstLangLc: string)
    requires InsertResult(t, failing, src, dst, srcLangLc, dstLangLc).0.Ok?
    ensures var rows' := InsertResult(t, failing, src, dst, srcLangLc, dstLangLc).1.rows;
      Lookup(rows', src, srcLangLc, dstLangLc) ==
        if Lookup(t.rows, src, srcLangLc, dstLangLc).None? then Some(dst) else Lookup(t.rows, src, srcLangLc, dstLangLc)
    ensures var rows' := InsertResult(t, failing, src, dst, srcLangLc, dstLangLc).1.rows;
      forall s, a, b :: (s, a, b) != (src, srcLangLc, dstLangLc) ==> Lookup(rows', s, a, b) == Lookup(t.rows, s, a, b)
  {
    var added := [Row(src, dst, srcLangLc, dstLangLc)];
    LookupAppend(t.rows, added, src, srcLangLc, dstLangLc);
    forall s, a, b | (s, a, b) != (src, srcLangLc, dstLangLc)
      ensures Lookup(InsertResult(t, failing, src, dst, srcLangLc, dstLangLc).1.rows, s, a, b) == Lookup(t.rows, s, a, b)
    {
      LookupAppend(t.rows, added, s, a, b);
    }
  }

  /** Inserting keeps at most one row per key. */
  lemma InsertKeepsUnique(t: Table, failing: set<nat>, src: Subsection, dst: Subsection, srcLangLc: string, dstLangLc: string)
    requires Unique(t.rows)
    ensures Unique(InsertResult(t, failing, src, dst, srcLangLc, dstLangLc).1.rows)
  {
    var rows' := InsertResult(t, failing, src, dst, srcLangLc, dstLangLc).1.rows;
    if rows' != t.rows {
      var row := Row(src, dst, srcLangLc, dstLangLc);
      assert Lookup(t.rows, src, srcLangLc, dstLangLc).None?;
      LookupFinds(t.rows, src, srcLangLc, dstLangLc);
      forall i, j | 0 <= i < j < |rows'| ensures !SameKey(rows'[i], rows'[j]) {
        if j == |t.rows| {
          assert rows'[j] == row && rows'[i] == t.rows[i];
          assert !Keyed(t.rows[i], src, srcLangLc, dstLangLc);
        } else {
          assert rows'[i] == t.rows[i] && rows'[j] == t.rows[j];
        }
      }
    }
  }

  /** The database file: its table, and the statements run on it so far. */
  class Database {
    var rows: seq<Row>
    var statements: nat
    /** The statements, by number, that the database fails. */
    const failing: set<nat>

    constructor (rows: seq<Row>, failing: set<nat>)
      ensures this.rows == rows && statements == 0 && this.failing == failing
    {
      this.rows := rows;
      statements := 0;
      this.failing := failing;
    }

    function State(): Table
      reads this
    {
      Table(rows, statements)
    }
  }

  /** The cache of one translation run: the database and the language pair it works for. */
  class Cache {
    const db: Database
    const srcLangLc: string
    const dstLangLc: string

    /** `Cache::new` on an open connection: the language names are stored as keys. */
    constructor (db: Database, srcLang: string, dstLang: string)
      ensures this.db == db
      ensures srcLangLc == LanguageKey(srcLang) && dstLangLc == LanguageKey(dstLang)
    {
      this.db := db;
      srcLangLc := LanguageKey(srcLang);
      dstLangLc := LanguageKey(dstLang);
    }

    /** `get`: one query, which changes no row. */
    method Get(src: Subsection) returns (r: Result<Option<Subsection>, TranslationError>)
      modifies db
      ensures db.rows == old(db.rows) && db.statements == old(db.statements) + 1
      ensures r == GetResult(db.rows, db.failing, old(db.statements), src, srcLangLc, dstLangLc)
    {
      if db.statements in db.failing {
        r := Err(DatabaseError);
      } else {
        r := Ok(Lookup(db.rows, src, srcLangLc, dstLangLc));
      }
      db.statements := db.statements + 1;
    }

    /** `insert`: a `get`, then the `INSERT` only when nothing was found. */
    method Insert(src: Subsection, dst: Subsection) returns (r: Result<(), TranslationError>)
      modifies db
      ensures (r, db.State()) == InsertResult(old(db.State()), db.failing, src, dst, srcLangLc, dstLangLc)
      ensures Unique(old(db.rows)) ==> Unique(db.rows)
    {
      if Unique(db.rows) {
        InsertKeepsUnique(db.State(), db.failing, src, dst, srcLangLc, dstLangLc);
      }
      var found := Get(src);
      if found.Err? {
        return Err(found.error);
      }
      if found.value.None? {
        if db.statements in db.failing {
          db.statements := db.statements + 1;
          return Err(DatabaseError);
        }
        db.rows := db.rows + [Row(src, dst, srcLangLc, dstLangLc)];
        db.statements := db.statements + 1;
      }
      return Ok(());
    }
  }
}
