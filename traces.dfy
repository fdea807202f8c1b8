/** The traces that test/index.spec.ts expects, replayed on the model: each
    method sets the plugin up as the test's `beforeEach` does (an enabled
    plugin and a connection named ":memory:"), makes the test's calls and
    returns the list of finished spans. Each scenario is stated for any
    query text; the `...Example` methods instantiate it with the test's own
    query and name the span as the test expects. */
module Traces {
  import opened Outcomes
  import opened Tracing
  import opened Shimmer
  import opened SpanFactory
  import opened BetterSqlite3

  const MEMORY := Connection(":memory:")

  const SUCCESS := Status(OK, None)

  /** A span as `checkSpanAttributes` describes it. */
  function Expected(name: string, status: SpanStatus, sql: string): FinishedSpan
  {
    FinishedSpan(SpanData(name, Client, Attributes(sql, ":memory:")), status)
  }

  /** `beforeEach`: a fresh prototype and exporter, and the plugin enabled
      on them. */
  method Setup() returns (plugin: Plugin)
    ensures fresh(plugin) && fresh(plugin.proto) && fresh(plugin.tracer)
    ensures plugin.Valid() && plugin.enabled && plugin.tracer.finished == []
  {
    var proto := new DatabasePrototype();
    var tracer := new Tracer();
    plugin := new Plugin(proto, tracer);
    plugin.Patch();
  }

  /** The span names the tests spell out, as concatenations. Dafny does not
      fold a concatenation of string literals into one literal by itself;
      this lemma states each fold the traces below need, once. */
  lemma SpanNameLiterals()
    ensures "prepare" + ": " == "prepare: "
    ensures "get" + ": " == "get: "
    ensures "prepare: " + "UNKNOWN" == "prepare: UNKNOWN"
    ensures "prepare: " + "PRAGMA" == "prepare: PRAGMA"
    ensures "all" + ": " + "PRAGMA" == "all: PRAGMA"
    ensures "prepare: " + "SELECT" == "prepare: SELECT"
    ensures "all" + ": " + "SELECT" == "all: SELECT"
    ensures "get" + ": " + "SELECT" == "get: SELECT"
    ensures "all" + ": SELECT" == "all: SELECT" && "get" + ": SELECT" == "get: SELECT"
    ensures "prepare: " + "ANALYZE" == "prepare: ANALYZE"
    ensures "run" + ": " + "ANALYZE" == "run: ANALYZE"
  {
  }

  /** A second enable changes nothing: one `exec` still gives one span. */
  method DuplicateEnableTrace(sql: string, k: string) returns (trace: seq<FinishedSpan>)
    requires k == Keyword(sql)
    ensures trace == [Expected(k, SUCCESS, sql)]
  {
    var plugin := Setup();
    plugin.Patch();
    var _ := plugin.Exec(MEMORY, sql, Ok(()));
    trace := plugin.tracer.finished;
  }

  /** `exec` that returns or throws: the caller sees the library's own
      outcome, and one span records it. */
  method ExecTrace<T>(sql: string, k: string, native: Outcome<T>) returns (result: Outcome<T>, trace: seq<FinishedSpan>)
    requires k == Keyword(sql)
    ensures result == native
    ensures trace == [Expected(k, StatusOf(native), sql)]
  {
    var plugin := Setup();
    result := plugin.Exec(MEMORY, sql, native);
    trace := plugin.tracer.finished;
  }

  /** `prepare` that throws: the same error, one failed span, no handle. */
  method PrepareErrorTrace(sql: string, k: string, e: DbError) returns (result: Outcome<Statement>, trace: seq<FinishedSpan>)
    requires k == Keyword(sql)
    ensures result == Err(e)
    ensures trace == [Expected("prepare: " + k, Status(UNKNOWN, Some(e.message)), sql)]
  {
    var plugin := Setup();
    result := plugin.Prepare(MEMORY, sql, Err(e));
    trace := plugin.tracer.finished;
    SpanForSpec(sql, ":memory:", Some("prepare"));
    SpanNameLiterals();
  }

  /** `prepare(sql)` followed by method `m` of the handle: two spans in
      order, "prepare: K" and then "<m>: K". `pragma` is carried out by the
      library as exactly this, with `m` = `all`. */
  method StatementTrace<T>(sql: string, k: string, m: StatementMethod, value: T)
    returns (result: Outcome<T>, trace: seq<FinishedSpan>)
    requires k == Keyword(sql)
    ensures result == Ok(value)
    ensures trace == [Expected("prepare: " + k, SUCCESS, sql),
                      Expected(m.Name() + ": " + k, SUCCESS, sql)]
  {
    var plugin := Setup();
    var stmt := plugin.Prepare(MEMORY, sql, Ok(()));
    result := plugin.Call(stmt.value, m, Ok(value));
    trace := plugin.tracer.finished;
    SpanForSpec(sql, ":memory:", Some("prepare"));
    SpanNameLiterals();
    SpanForSpec(sql, ":memory:", Some(m.Name()));
  }

  /** A handle prepared before a disable: both later `run` calls return the
      library's result and leave no span; the handle's `run` is its own
      again. */
  method DisabledStatementTrace<T>(sql: string, k: string, first: T, second: T)
    returns (r1: Outcome<T>, r2: Outcome<T>, trace: seq<FinishedSpan>, detached: bool)
    requires k == Keyword(sql)
    ensures r1 == Ok(first) && r2 == Ok(second) && detached
    ensures trace == [Expected("prepare: " + k, SUCCESS, sql)]
  {
    var plugin := Setup();
    var stmt := plugin.Prepare(MEMORY, sql, Ok(()));
    plugin.Unpatch();
    r1 := plugin.Call(stmt.value, Run, Ok(first));
    r2 := plugin.Call(stmt.value, Run, Ok(second));
    trace := plugin.tracer.finished;
    detached := stmt.value.run == Original;
    SpanForSpec(sql, ":memory:", Some("prepare"));
    SpanNameLiterals();
  }

  /** Detachment is per method: a method that detached itself while
      disabled stays untraced after a later enable, while the same handle's
      other methods, and handles not called in between, are traced again. */
  method ReenableTrace<T>(sql: string, k: string, value: T) returns (trace: seq<FinishedSpan>)
    requires k == Keyword(sql)
    ensures trace == [Expected("prepare: " + k, SUCCESS, sql),
                      Expected("prepare: " + k, SUCCESS, sql),
                      Expected("get: " + k, SUCCESS, sql),
                      Expected("get: " + k, SUCCESS, sql)]
  {
    var plugin := Setup();
    var detached := plugin.Prepare(MEMORY, sql, Ok(()));
    var untouched := plugin.Prepare(MEMORY, sql, Ok(()));
    plugin.Unpatch();
    var _ := plugin.Call(detached.value, Run, Ok(value));
    plugin.Patch();
    var _ := plugin.Call(detached.value, Run, Ok(value));
    var _ := plugin.Call(detached.value, Get, Ok(value));
    var _ := plugin.Call(untouched.value, Get, Ok(value));
    trace := plugin.tracer.finished;
    SpanForSpec(sql, ":memory:", Some("prepare"));
    SpanNameLiterals();
    SpanForSpec(sql, ":memory:", Some("get"));
  }

  /** `StatementTrace` for a query that is one word, named after itself. */
  method WordStatementTrace<T>(word: string, m: StatementMethod, value: T)
    returns (result: Outcome<T>, trace: seq<FinishedSpan>)
    requires word != [] && NoWhitespace(word)
    ensures result == Ok(value)
    ensures trace == [Expected("prepare: " + word, SUCCESS, word),
                      Expected(m.Name() + ": " + word, SUCCESS, word)]
  {
    KeywordOfWord(word);
    result, trace := StatementTrace(word, word, m, value);
  }

  /** `DisabledStatementTrace` for a query that is one word. */
  method WordDisabledStatementTrace<T>(word: string, first: T, second: T)
    returns (r1: Outcome<T>, r2: Outcome<T>, trace: seq<FinishedSpan>, detached: bool)
    requires word != [] && NoWhitespace(word)
    ensures r1 == Ok(first) && r2 == Ok(second) && detached
    ensures trace == [Expected("prepare: " + word, SUCCESS, word)]
  {
    KeywordOfWord(word);
    r1, r2, trace, detached := DisabledStatementTrace(word, word, first, second);
  }

  // ----- the tests' own queries -----

  /* The keyword of each query the tests use; "ANALYZE" is one word and is
     covered by KeywordOfWord. */

  lemma KeywordOfSelectOne()
    ensures Keyword("SELECT 1") == "SELECT"
  {
    var q := "SELECT 1";
    assert q[..6] == "SELECT";
    KeywordOfTrimmed(q, 6);
  }

  lemma KeywordOfSelect()
    ensures Keyword("SELECT 2+2") == "SELECT"
  {
    var q := "SELECT 2+2";
    assert q[..6] == "SELECT";
    KeywordOfTrimmed(q, 6);
  }

  lemma KeywordOfMisspelt()
    ensures Keyword("SLCT 2+2") == "SLCT"
  {
    var q := "SLCT 2+2";
    assert q[..4] == "SLCT";
    KeywordOfTrimmed(q, 4);
  }

  lemma KeywordOfUnknown()
    ensures Keyword("UNKNOWN ?") == "UNKNOWN"
  {
    var q := "UNKNOWN ?";
    assert q[..7] == "UNKNOWN";
    KeywordOfTrimmed(q, 7);
  }

  lemma KeywordOfPragma()
    ensures Keyword("PRAGMA journal_mode") == "PRAGMA"
  {
    var q := "PRAGMA journal_mode";
    assert q[..6] == "PRAGMA";
    KeywordOfTrimmed(q, 6);
  }

  /** "should handle duplicate calls to enable() gracefully". */
  method DuplicateEnableExample() returns (trace: seq<FinishedSpan>)
    ensures trace == [Expected("SELECT", SUCCESS, "SELECT 1")]
  {
    KeywordOfSelectOne();
    trace := DuplicateEnableTrace("SELECT 1", "SELECT");
  }

  /** "should patch Database#exec". */
  method ExecExample<T>(value: T) returns (result: Outcome<T>, trace: seq<FinishedSpan>)
    ensures result == Ok(value)
    ensures trace == [Expected("SELECT", SUCCESS, "SELECT 2+2")]
  {
    KeywordOfSelect();
    result, trace := ExecTrace("SELECT 2+2", "SELECT", Ok(value));
  }

  /** "should handle errors in Database#exec". */
  method ExecErrorExample(e: DbError) returns (result: Outcome<()>, trace: seq<FinishedSpan>)
    ensures result == Err(e)
    ensures trace == [Expected("SLCT", Status(UNKNOWN, Some(e.message)), "SLCT 2+2")]
  {
    KeywordOfMisspelt();
    result, trace := ExecTrace("SLCT 2+2", "SLCT", Err(e));
  }

  /** "should handle errors in Database#prepare". */
  method PrepareErrorExample(e: DbError) returns (result: Outcome<Statement>, trace: seq<FinishedSpan>)
    ensures result == Err(e)
    ensures trace == [Expected("prepare: UNKNOWN", Status(UNKNOWN, Some(e.message)), "UNKNOWN ?")]
  {
    KeywordOfUnknown();
    result, trace := PrepareErrorTrace("UNKNOWN ?", "UNKNOWN", e);
    SpanNameLiterals();
  }

  /** "should handle Database#pragma". */
  method PragmaExample<T>(rows: T) returns (result: Outcome<T>, trace: seq<FinishedSpan>)
    ensures result == Ok(rows)
    ensures trace == [Expected("prepare: PRAGMA", SUCCESS, "PRAGMA journal_mode"),
                      Expected("all: PRAGMA", SUCCESS, "PRAGMA journal_mode")]
  {
    KeywordOfPragma();
    result, trace := StatementTrace("PRAGMA journal_mode", "PRAGMA", All, rows);
    SpanNameLiterals();
  }

  /** "should patch Statement#all" and "should patch Statement#get". */
  method SelectStatementExample<T>(m: StatementMethod, value: T) returns (result: Outcome<T>, trace: seq<FinishedSpan>)
    requires m == All || m == Get
    ensures result == Ok(value)
    ensures trace == [Expected("prepare: SELECT", SUCCESS, "SELECT 2+2"),
                      Expected(m.Name() + ": SELECT", SUCCESS, "SELECT 2+2")]
  {
    KeywordOfSelect();
    result, trace := StatementTrace("SELECT 2+2", "SELECT", m, value);
    SpanNameLiterals();
  }

  /** "should patch Statement#run". */
  method RunExample<T>(value: T) returns (result: Outcome<T>, trace: seq<FinishedSpan>)
    ensures result == Ok(value)
    ensures trace == [Expected("prepare: ANALYZE", SUCCESS, "ANALYZE"),
                      Expected("run: ANALYZE", SUCCESS, "ANALYZE")]
  {
    result, trace := WordStatementTrace("ANALYZE", Run, value);
    SpanNameLiterals();
  }

  /** "should not create spans in Statement when the plugin gets disabled". */
  method DisabledStatementExample<T>(first: T, second: T)
    returns (r1: Outcome<T>, r2: Outcome<T>, trace: seq<FinishedSpan>)
    ensures r1 == Ok(first) && r2 == Ok(second)
    ensures trace == [Expected("prepare: ANALYZE", SUCCESS, "ANALYZE")]
  {
    var detached;
    r1, r2, trace, detached := WordDisabledStatementTrace("ANALYZE", first, second);
    SpanNameLiterals();
  }
}
