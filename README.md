# better-sqlite3 tracing plugin, modelled in Dafny

This project models `BetterSqlite3Plugin` (lib/better-sqlite3.ts). The plugin is
an OpenTelemetry plugin that traces the calls an application makes through the
better-sqlite3 database client.

- **Enable.** `patch()` sets the plugin's `enabled` flag. It then replaces `exec`
  and `prepare` on `Database.prototype` with wrappers (the shimmer library does
  the replacing).
- **Disable.** `unpatch()` clears the flag and puts the prototype's own
  functions back.
- **Spans.** Every traced call opens a CLIENT span in `createSpan`. The span is
  named after the first keyword of the trimmed SQL text. Calls through
  `prepare` and statement methods get an `"<operation>: "` prefix on that name.
  Each span carries three attributes: `db.system` = `sqlite3`, `db.statement` =
  the raw query, and `db.name` = the connection name.
- **Running the call.** `defaultRunner` returns what the library's own function
  returns, or rethrows what it throws. It marks the span OK, or UNKNOWN with the
  error's message, and always ends the span.
- **Prepared statements.** A handle returned by a traced `prepare` has its
  `run`, `get` and `all` wrapped by `statement_handler`. That handler reads the
  flag on every call. While the plugin is disabled, the handler removes its own
  wrapper from the one handle it serves and makes the call without a span.

The model has six modules, one per file:

| file | module | contents |
|---|---|---|
| `outcomes.dfy` | `Outcomes` | the outcome of a call into the library: a value or a thrown `DbError` |
| `tracing.dfy` | `Tracing` | the collaborator tracer: span data, span status, a started span (a class with `SetStatus` and `End`), and the exporter's list of finished spans |
| `shimmer.dfy` | `Shimmer` | a method slot as shimmer leaves it (`Original` or `Wrapped(inner)`), with `Wrap` and `Unwrap` |
| `span_factory.dfy` | `SpanFactory` | `createSpan` as pure functions (`Trim`, `FirstToken`, `Keyword`, `SpanName`, `Attributes`, `SpanFor`) and the lemmas that pin them down |
| `better_sqlite3.dfy` | `BetterSqlite3` | the plugin as state (a `Plugin` class), the prototype the plugin patches, statement handles, and one method per wrapper |
| `traces.dfy` | `Traces` | the scenarios of test/index.spec.ts, each replayed on the model; each returns the exporter's span list and proves it equal to the list the test expects |

The library's own `exec`, `prepare`, `run`, `get` and `all` are not modelled.
Each is represented by its outcome, which is a parameter of the model:
`Ok(value)` or `Err(error)`. For `prepare`, `Ok(())` means the text compiles.
On success the model allocates a new statement handle.

Two invariants carry the proofs:

- `Plugin.Valid()`: while enabled, both prototype slots hold exactly one wrapper
  around the library's own function. While disabled, both hold the library's
  function.
- `Statement.Valid()`: each method of a handle is wrapped at most once.

## Model

| member | source | states |
|---|---|---|
| Shimmer.Wrap | lib/better-sqlite3.ts:23-28 | wrapping always leaves a wrapper in the slot, one level deeper than before (wrapping twice stacks two wrappers) |
| Shimmer.Unwrap | lib/better-sqlite3.ts:39 | unwrapping removes exactly one wrapper; on a slot that is not wrapped it leaves the library's own function |
| Shimmer.UnwrapWrap | lib/better-sqlite3.ts:23-39 | unwrapping a slot that was just wrapped restores exactly what the slot held before |
| SpanFactory.LeadingWhitespace | lib/better-sqlite3.ts:44 | the count that `trim` cuts from the front: every character before it is whitespace, and the character at it, if any, is not |
| SpanFactory.TrailingWhitespace | lib/better-sqlite3.ts:44 | the count that `trim` cuts from the back: every character after the cut is whitespace, and the last kept character, if any, is not |
| SpanFactory.FirstToken | lib/better-sqlite3.ts:44 | `split(/\s/u)[0]` is a whitespace-free prefix, and it ends at whitespace or at the end of the text |
| SpanFactory.IsWhitespace | lib/better-sqlite3.ts:44 | the character set that `trim` strips and `/\s/u` matches: the ECMAScript WhiteSpace and LineTerminator code points; TrimSpec, KeywordSpec and their converses are stated over it |
| SpanFactory.Trim | lib/better-sqlite3.ts:44 | `query.trim()`; specified by TrimSpec (only whitespace is cut, the result has no whitespace at its ends), TrimUnique (the only such infix) and TrimEmpty |
| SpanFactory.Keyword | lib/better-sqlite3.ts:44 | `query.trim().split(/\s/u)[0]`; specified by KeywordSpec, KeywordUnique, KeywordInQuery and KeywordIgnoresPadding |
| SpanFactory.SpanName | lib/better-sqlite3.ts:45 | the span name, "operation: keyword" under a truthy label and the bare keyword otherwise; specified by SpanNameSpec |
| SpanFactory.SpanFor | lib/better-sqlite3.ts:46-53 | the name, kind and attributes `createSpan` passes to `startSpan`; specified by SpanForSpec |
| BetterSqlite3.StatementMethod.Name | lib/better-sqlite3.ts:111-115 | `original.name` of the library's `run`, `get` and `all`: the label of a statement span and the slot `unwrap` restores; used by StatementHandler and Call |
| SpanFactory.Attributes | lib/better-sqlite3.ts:48-52 | exactly the keys db.system, db.statement and db.name, holding "sqlite3", the raw query and the connection name |
| SpanFactory.TrimSpec | lib/better-sqlite3.ts:44 | `trim` returns an infix of the query with no whitespace at either end; everything it cut from the front and from the back is whitespace |
| SpanFactory.LeadingUnique | lib/better-sqlite3.ts:44 | the length of the leading whitespace run is the only count with whitespace before it and a non-space (or the end) at it |
| SpanFactory.TrailingUnique | lib/better-sqlite3.ts:44 | the same uniqueness from the back |
| SpanFactory.TrimEmpty | lib/better-sqlite3.ts:44 | the trimmed query is empty exactly when the query is all whitespace (both directions) |
| SpanFactory.TrimUnique | lib/better-sqlite3.ts:44 | any infix with only whitespace around it and none at its own ends is the trimmed query, so `trim` is characterised independently of how it is computed |
| SpanFactory.FirstTokenUnique | lib/better-sqlite3.ts:44 | the first token is the only whitespace-free prefix that ends at whitespace or at the end |
| SpanFactory.KeywordSpec | lib/better-sqlite3.ts:44 | the span keyword is a whitespace-free prefix of the trimmed query, ending at whitespace or at its end; the keyword is empty exactly when the query is all whitespace |
| SpanFactory.KeywordUnique | lib/better-sqlite3.ts:44 | any word meeting that description is the keyword |
| SpanFactory.KeywordInQuery | lib/better-sqlite3.ts:44 | the keyword occurs in the raw query text |
| SpanFactory.KeywordIgnoresPadding | lib/better-sqlite3.ts:44 | whitespace added around a query changes neither its trimmed text nor its keyword |
| SpanFactory.KeywordOfTrimmed | lib/better-sqlite3.ts:44 | for a query with no whitespace at its ends, the keyword is its first `n` characters whenever those are whitespace-free and end at whitespace or at the end |
| SpanFactory.KeywordOfWord | lib/better-sqlite3.ts:44 | a single whitespace-free word is its own keyword |
| SpanFactory.SpanNameSpec | lib/better-sqlite3.ts:45 | a present, non-empty label gives "label: keyword", anything else gives the bare keyword; the text after the last space of the name is always the keyword, and a labelled name starts with "label: " |
| SpanFactory.AfterLastSpaceOfSuffix | lib/better-sqlite3.ts:45 | the whitespace-free keyword can be read back from the end of a prefixed name |
| SpanFactory.SpanForSpec | lib/better-sqlite3.ts:43-54 | the span is CLIENT, has exactly the three attributes with query, engine and connection name, and has the name SpanNameSpec describes |
| Tracing.SpanHandle.SetStatus | lib/better-sqlite3.ts:65-68 | the status is set on a live span and ignored on an ended one |
| Tracing.SpanHandle.End | lib/better-sqlite3.ts:71 | the first `end` hands the span, with its current status, to the exporter exactly once; later calls change nothing |
| BetterSqlite3.StatusOf | lib/better-sqlite3.ts:63-69 | the status is OK exactly when the call returned: OK without a message, otherwise UNKNOWN with the thrown error's message |
| BetterSqlite3.Statement.SetSlot | lib/better-sqlite3.ts:111 | only the named method slot of the handle changes |
| BetterSqlite3.Statement.WrapExecutionMethods | lib/better-sqlite3.ts:94 | `run`, `get` and `all` of the handle each gain one wrapper |
| BetterSqlite3.LibraryPrepare | lib/better-sqlite3.ts:91 | success exactly when the text compiles, with the same error otherwise; on success a new handle bound to the source text and the connection, with its own methods |
| BetterSqlite3.Plugin.constructor | lib/better-sqlite3.ts:12-16 | a new plugin starts disabled on an unpatched prototype |
| BetterSqlite3.Plugin.Patch | lib/better-sqlite3.ts:18-32 | afterwards the plugin is enabled; if it was already enabled nothing else changes (duplicate enable is harmless), otherwise `exec` and `prepare` each gain one wrapper; keeps `Valid` and leaves both slots wrapped exactly once |
| BetterSqlite3.Plugin.Unpatch | lib/better-sqlite3.ts:34-41 | afterwards the plugin is disabled; if it was already disabled nothing changes, otherwise `exec` and `prepare` each lose one wrapper; keeps `Valid` and leaves both slots holding the library's functions |
| BetterSqlite3.Plugin.CreateSpan | lib/better-sqlite3.ts:43-54 | starts a new live span with no status, carrying the name and attributes of SpanFor |
| BetterSqlite3.Plugin.DefaultRunner | lib/better-sqlite3.ts:57-73 | the caller gets the library's outcome unchanged (a throw is rethrown with the same error); the span ends with the outcome's status and is appended to the finished list exactly once |
| BetterSqlite3.Plugin.TracedExec | lib/better-sqlite3.ts:75-83 | the wrapped `exec` returns the library's outcome and leaves one unlabelled span with that outcome's status |
| BetterSqlite3.Plugin.Exec | lib/better-sqlite3.ts:22-23 | `db.exec` through the prototype returns the library's outcome; it leaves one span when enabled and none when disabled |
| BetterSqlite3.Plugin.TracedPrepare | lib/better-sqlite3.ts:85-105 | the wrapped `prepare` fails exactly when the library's fails, with the same error; a returned handle has every execution method wrapped once; one span labelled "prepare" with the outcome's status |
| BetterSqlite3.Plugin.Prepare | lib/better-sqlite3.ts:22-28 | `db.prepare` through the prototype: the same outcome as the library; when enabled one "prepare" span and a handle wrapped once per method, when disabled no span and a plain handle; the handle is `Valid` |
| BetterSqlite3.Plugin.StatementHandler | lib/better-sqlite3.ts:107-118 | returns the library's outcome; when disabled it removes one wrapper from that method of that handle only and records nothing; when enabled it changes no slot and records one span labelled with the method's name |
| BetterSqlite3.Plugin.Call | lib/better-sqlite3.ts:107-118 | a call on a `Valid` handle returns the library's outcome and keeps the handle `Valid`; a plain method records nothing; a wrapped one either records one span (enabled) or detaches itself and records nothing (disabled) |
| Traces.Setup | test/index.spec.ts:38-45 | `beforeEach`: a new enabled, valid plugin with an empty span list |
| Traces.DuplicateEnableTrace | test/index.spec.ts:62-71 | enabling twice and then calling `exec` once leaves exactly one span |
| Traces.ExecTrace | test/index.spec.ts:75-100 | `exec` returning or throwing leaves exactly one span, named by the keyword and carrying the outcome's status and message |
| Traces.PrepareErrorTrace | test/index.spec.ts:102-115 | a failing `prepare` throws the same error and leaves one UNKNOWN "prepare: keyword" span |
| Traces.StatementTrace | test/index.spec.ts:117-157 | `prepare` followed by one statement method leaves exactly two spans, "prepare: K" then "method: K" |
| Traces.DisabledStatementTrace | test/index.spec.ts:159-172 | after a disable, two `run` calls on an earlier handle return the library's results and leave only the "prepare" span; the handle's `run` is the library's own again |
| Traces.ReenableTrace | lib/better-sqlite3.ts:107-118 | detachment is per method (lib/better-sqlite3.ts:111): a method that detached itself while disabled stays untraced after a re-enable, while the same handle's other methods, and handles not called in between, are traced again; the trace is exactly two "prepare" spans and two "get" spans |
| Traces.WordStatementTrace | test/index.spec.ts:145-157 | StatementTrace for a one-word query, whose spans are named after the word itself |
| Traces.WordDisabledStatementTrace | test/index.spec.ts:159-172 | DisabledStatementTrace for a one-word query |
| Traces.KeywordOfSelectOne | test/index.spec.ts:67 | the keyword of "SELECT 1" is "SELECT" |
| Traces.KeywordOfSelect | test/index.spec.ts:78-83 | the keyword of "SELECT 2+2" is "SELECT" |
| Traces.KeywordOfMisspelt | test/index.spec.ts:90-97 | the keyword of "SLCT 2+2" is "SLCT" |
| Traces.KeywordOfUnknown | test/index.spec.ts:105-112 | the keyword of "UNKNOWN ?" is "UNKNOWN" |
| Traces.KeywordOfPragma | test/index.spec.ts:120-125 | the keyword of "PRAGMA journal_mode" is "PRAGMA" |
| Traces.DuplicateEnableExample | test/index.spec.ts:62-71 | the duplicate-enable test leaves one OK span named "SELECT" |
| Traces.ExecExample | test/index.spec.ts:75-85 | the `exec` test leaves one OK span named "SELECT" with the test's attributes |
| Traces.ExecErrorExample | test/index.spec.ts:87-100 | the failing `exec` rethrows the error and leaves one UNKNOWN "SLCT" span carrying its message |
| Traces.PrepareErrorExample | test/index.spec.ts:102-115 | the failing `prepare` rethrows the error and leaves one UNKNOWN "prepare: UNKNOWN" span |
| Traces.PragmaExample | test/index.spec.ts:117-127 | `pragma('journal_mode')` leaves "prepare: PRAGMA" then "all: PRAGMA", both OK |
| Traces.SelectStatementExample | test/index.spec.ts:131-143 | `all` and `get` each leave "prepare: SELECT" then "all: SELECT" (or "get: SELECT") |
| Traces.RunExample | test/index.spec.ts:145-157 | `run` leaves "prepare: ANALYZE" then "run: ANALYZE" |
| Traces.DisabledStatementExample | test/index.spec.ts:159-172 | after a disable, two `run` calls leave only "prepare: ANALYZE" |

## Left out

Not modelled:

- **The plugin framework.** `BasePlugin`, `supportedVersions`, `COMPONENT`,
  `moduleName` and the exported `plugin` instance
  (lib/better-sqlite3.ts:8-16 and :121) are not modelled. They are
  registration plumbing, and the plugin's behaviour does not depend on them.
- **Plugin: one module and one tracer.** The model fixes `proto` and `tracer`
  when the plugin is constructed. The source reads
  `this._moduleExports.prototype` again on every `patch` and `unpatch`
  (lib/better-sqlite3.ts:22, :38), and the module and tracer provider are
  passed to every `enable` call (test/index.spec.ts:42, :64). The model
  assumes every enable receives the same module and the same tracer; enabling
  on a different module between an enable and a disable is not modelled.
- **Context propagation.** `withSpan`, which makes the span the active one
  while the call runs, is modelled as just running the call. Span parents,
  context managers and trace identifiers belong to the tracer, which is not
  part of this model.
- **The tracer and exporter.** Their internals are not modelled. Ending a span
  appends it, with its name, kind, attributes and status, to `Tracer.finished`.
  Timestamps and span ids are not kept.
- **shimmer's internals.** Only their effect on a slot is modelled. That
  includes the hidden marker and the property copying.
- **Calling conventions.** Arguments after the first, `this` binding and the
  return value of the library's `exec` are modelled only through the generic
  outcome value.
- **Plugin.CreateSpan: a non-string query.** The model takes the query as a
  string. In the source, a first argument that is not a string makes
  `query.trim()` throw a TypeError before any span exists.
- **SpanFactory.IsWhitespace: surrogate code units.** JavaScript strings are
  UTF-16, while a Dafny `char` is a Unicode scalar value. A lone surrogate
  cannot be represented, and no whitespace character is affected.
- **Database.pragma.** Its internals are not modelled. The code wraps only
  `exec` and `prepare` (lib/better-sqlite3.ts:23-28), so `pragma` is traced
  only through them: its trace in the test is the one the library produces by
  calling the wrapped `prepare` and then `all` on the handle, and that is how
  Traces.PragmaExample builds it.
- **Plugin.Patch: duplicate enables.** They are detected by the `enabled` flag
  alone (lib/better-sqlite3.ts:19), not by shimmer's wrapped marker on the
  prototype.
- **Plugin.Call and StatementHandler: double wrapping.** Plugin.Call requires a
  handle whose methods are wrapped at most once (`Statement.Valid`), which is
  the only state `prepare` produces; StatementHandler is reached only through
  Call. The source unwraps by `original.name`, which is
  "run", "get" or "all" only for the library's own functions; a handle
  wrapped twice would be unwrapped under the inner wrapper's name.
  That case is not modelled.
- Plugin.DefaultRunner and Plugin.TracedPrepare: thrown values that are not
  Error objects are not modelled; every `Err` carries an error with a string
  message. The source reads `(e as Error).message` in its catch blocks
  (lib/better-sqlite3.ts:68, :98). When the library passes through a thrown
  `undefined` or `null` (for instance from a user-defined SQL function), that
  read throws a TypeError inside the catch: the caller receives the TypeError
  instead of the original value, and `finally` ends the span with no status
  set. When a thrown value has no `message` (a thrown string, say), the span is
  UNKNOWN with message `undefined`. The contracts `r == outcome` of these
  methods therefore hold only for thrown Error objects.
- **Plugin.TracedPrepare: a throw from shimmer's `massWrap`.** This case is not
  modelled; shimmer does not throw on a handle that the library returned.
- **Tests and tooling.** example/src/index.ts, example/src/instrumentation.ts,
  jest.config.js and .mocharc.js are not part of this model. The test
  file's "should export a plugin" and "should have correct moduleName"
  (test/index.spec.ts:54-60) concern the framework entries above.
