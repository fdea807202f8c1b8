/** The tracing plugin of lib/better-sqlite3.ts: the patch controller, the
    wrappers it installs on `Database.prototype`, the call runner, and the
    wrappers it installs on each prepared statement. A call into the
    native library is represented by the outcome that call would have. */
module BetterSqlite3 {
  import opened Outcomes
  import opened Tracing
  import opened Shimmer
  import opened SpanFactory

  /** A database connection as a span sees it: its `name`. */
  datatype Connection = Connection(name: string)

  /** `Database.prototype`, reduced to the two slots the plugin patches. */
  class DatabasePrototype {
    var exec: Slot
    var prepare: Slot

    constructor ()
      ensures exec == Original && prepare == Original
    {
      exec, prepare := Original, Original;
    }
  }

  /** The three execution methods of a statement handle. */
  datatype StatementMethod = Run | Get | All {
    /** The `name` of the library's own function for this method. */
    function Name(): string
    {
      match this
      case Run => "run"
      case Get => "get"
      case All => "all"
    }
  }

  /** A prepared statement handle: its read-only `source` and `database`,
      and the three method slots that the plugin replaces on this one
      handle only. */
  class Statement {
    const source: string
    const database: Connection
    var run: Slot
    var get: Slot
    var all: Slot

    /** What the library's own `prepare` returns. */
    constructor (source: string, database: Connection)
      ensures this.source == source && this.database == database
      ensures run == Original && get == Original && all == Original
    {
      this.source, this.database := source, database;
      run, get, all := Original, Original, Original;
    }

    function SlotOf(m: StatementMethod): Slot
      reads this
    {
      match m
      case Run => run
      case Get => get
      case All => all
    }

    /** No method of the handle is wrapped twice. */
    ghost predicate Valid()
      reads this
    {
      AtMostOnce(run) && AtMostOnce(get) && AtMostOnce(all)
    }

    method SetSlot(m: StatementMethod, s: Slot)
      modifies this
      ensures SlotOf(m) == s
      ensures forall m' :: m' != m ==> SlotOf(m') == old(SlotOf(m'))
    {
      match m
      case Run => run := s;
      case Get => get := s;
      case All => all := s;
    }

    /** `shimmer.massWrap([result], ['run', 'get', 'all'], patchStatement)`. */
    method WrapExecutionMethods()
      modifies this
      ensures run == Wrap(old(run)) && get == Wrap(old(get)) && all == Wrap(old(all))
    {
      run := Wrap(run);
      get := Wrap(get);
      all := Wrap(all);
    }
  }

  /** The status the runner gives a span for the outcome of its call:
      OK without a message on a return, UNKNOWN with the error's message on
      a throw. */
  function StatusOf<T>(o: Outcome<T>): (s: SpanStatus)
    ensures s.Status? && (s.code == OK <==> o.Ok?)
    ensures o.Ok? ==> s.message == None
    ensures o.Err? ==> s.message == Some(o.error.message)
  {
    match o
    case Ok(_) => Status(OK, None)
    case Err(e) => Status(UNKNOWN, Some(e.message))
  }

  /** The finished span one traced call leaves behind. */
  function Record<T>(query: string, db: Connection, operation: Option<string>, o: Outcome<T>): FinishedSpan
  {
    FinishedSpan(SpanFor(query, db.name, operation), StatusOf(o))
  }

  /** The library's own `prepare`: on success a fresh handle whose methods
      are the library's own; `compiled` says whether SQLite accepts the
      text. */
  method LibraryPrepare(db: Connection, source: string, compiled: Outcome<()>) returns (r: Outcome<Statement>)
    ensures r.Ok? <==> compiled.Ok?
    ensures r.Err? ==> r.error == compiled.error
    ensures r.Ok? ==> fresh(r.value) && r.value.source == source && r.value.database == db
    ensures r.Ok? ==> r.value.run == Original && r.value.get == Original && r.value.all == Original
  {
    match compiled
    case Ok(_) =>
      var stmt := new Statement(source, db);
      r := Ok(stmt);
    case Err(e) =>
      r := Err(e);
  }

  class Plugin {
    var enabled: bool
    /** `this._moduleExports.prototype`. */
    const proto: DatabasePrototype
    /** `this._tracer`, whose `finished` is the list of ended spans. */
    const tracer: Tracer

    /** The prototype is patched exactly once while enabled and not at all
        while disabled. */
    ghost predicate Valid()
      reads this, proto
    {
      if enabled then proto.exec == Wrapped(Original) && proto.prepare == Wrapped(Original)
      else proto.exec == Original && proto.prepare == Original
    }

    constructor (proto: DatabasePrototype, tracer: Tracer)
      requires proto.exec == Original && proto.prepare == Original
      ensures this.proto == proto && this.tracer == tracer
      ensures !enabled && Valid()
    {
      enabled := false;
      this.proto, this.tracer := proto, tracer;
    }

    /** `patch()`: the first call sets the flag and wraps `exec` and
        `prepare`; a call while enabled changes nothing. */
    method Patch()
      modifies this, proto
      ensures enabled
      ensures old(enabled) ==> unchanged(this, proto)
      ensures !old(enabled) ==> proto.exec == Wrap(old(proto.exec)) && proto.prepare == Wrap(old(proto.prepare))
      ensures old(Valid()) ==> Valid() && proto.exec == Wrapped(Original) && proto.prepare == Wrapped(Original)
    {
      if !enabled {
        enabled := true;
        proto.exec := Wrap(proto.exec);
        proto.prepare := Wrap(proto.prepare);
      }
    }

    /** `unpatch()`: while enabled it clears the flag and restores `exec`
        and `prepare`; a call while disabled changes nothing. Statement
        handles are not touched. */
    method Unpatch()
      modifies this, proto
      ensures !enabled
      ensures !old(enabled) ==> unchanged(this, proto)
      ensures old(enabled) ==> proto.exec == Unwrap(old(proto.exec)) && proto.prepare == Unwrap(old(proto.prepare))
      ensures old(Valid()) ==> Valid() && proto.exec == Original && proto.prepare == Original
    {
      if enabled {
        enabled := false;
        proto.exec := Unwrap(proto.exec);
        proto.prepare := Unwrap(proto.prepare);
      }
    }

    /** `createSpan(query, db, operation)`: starts a span named and
        attributed by SpanFor. */
    method CreateSpan(query: string, db: Connection, operation: Option<string>) returns (span: SpanHandle)
      ensures fresh(span) && span.data == SpanFor(query, db.name, operation)
      ensures span.status == Unset && !span.ended
    {
      span := new SpanHandle(SpanFor(query, db.name, operation));
    }

    /** `defaultRunner`: the result of the call is passed back unchanged
        (a thrown error is thrown again), the span gets the status of the
        outcome, and the span is ended exactly once. */
    static method DefaultRunner<T>(span: SpanHandle, tracer: Tracer, outcome: Outcome<T>) returns (r: Outcome<T>)
      requires !span.ended
      modifies span, tracer
      ensures r == outcome
      ensures span.ended && span.status == StatusOf(outcome)
      ensures tracer.finished == old(tracer.finished) + [FinishedSpan(span.data, StatusOf(outcome))]
    {
      match outcome {
        case Ok(_) =>
          span.SetStatus(Status(OK, None));
          r := outcome;
        case Err(e) =>
          span.SetStatus(Status(UNKNOWN, Some(e.message)));
          r := outcome;
      }
      span.End(tracer);
    }

    /** The function `patchExec` installs: one span, no label, around the
        library's own `exec`, whose outcome is `native`. */
    method TracedExec<T>(db: Connection, source: string, native: Outcome<T>) returns (r: Outcome<T>)
      modifies tracer
      ensures r == native
      ensures tracer.finished == old(tracer.finished) + [Record(source, db, None, native)]
    {
      var span := CreateSpan(source, db, None);
      r := DefaultRunner(span, tracer, native);
    }

    /** `db.exec(source)` as the application makes it, through whatever
        `Database.prototype.exec` holds. */
    method Exec<T>(db: Connection, source: string, native: Outcome<T>) returns (r: Outcome<T>)
      requires Valid()
      modifies tracer
      ensures r == native
      ensures tracer.finished == old(tracer.finished) + (if enabled then [Record(source, db, None, native)] else [])
    {
      if proto.exec.Wrapped? {
        r := TracedExec(db, source, native);
      } else {
        r := native;
      }
    }

    /** The function `patchPrepare` installs: one span labelled "prepare";
        only a handle that the library's own `prepare` returns has its
        three execution methods wrapped, after the OK status is set and
        before it is handed back. */
    method TracedPrepare(db: Connection, source: string, compiled: Outcome<()>) returns (r: Outcome<Statement>)
      modifies tracer
      ensures r.Ok? <==> compiled.Ok?
      ensures r.Err? ==> r.error == compiled.error
      ensures r.Ok? ==> fresh(r.value) && r.value.source == source && r.value.database == db
      ensures r.Ok? ==> r.value.run == Wrapped(Original) && r.value.get == Wrapped(Original)
                        && r.value.all == Wrapped(Original)
      ensures tracer.finished == old(tracer.finished) + [Record(source, db, Some("prepare"), compiled)]
    {
      var span := CreateSpan(source, db, Some("prepare"));
      var result := LibraryPrepare(db, source, compiled);
      match result {
        case Ok(stmt) =>
          span.SetStatus(Status(OK, None));
          stmt.WrapExecutionMethods();
          r := result;
        case Err(e) =>
          span.SetStatus(Status(UNKNOWN, Some(e.message)));
          r := result;
      }
      span.End(tracer);
    }

    /** `db.prepare(source)` as the application makes it, through whatever
        `Database.prototype.prepare` holds. */
    method Prepare(db: Connection, source: string, compiled: Outcome<()>) returns (r: Outcome<Statement>)
      requires Valid()
      modifies tracer
      ensures r.Ok? <==> compiled.Ok?
      ensures r.Err? ==> r.error == compiled.error
      ensures r.Ok? ==> fresh(r.value) && r.value.source == source && r.value.database == db && r.value.Valid()
      ensures r.Ok? ==> var s := if enabled then Wrapped(Original) else Original;
                        r.value.run == s && r.value.get == s && r.value.all == s
      ensures tracer.finished == old(tracer.finished)
                                 + (if enabled then [Record(source, db, Some("prepare"), compiled)] else [])
    {
      if proto.prepare.Wrapped? {
        r := TracedPrepare(db, source, compiled);
      } else {
        r := LibraryPrepare(db, source, compiled);
      }
    }

    /** `statement_handler`, the function `patchStatement` installs for
        method `m` of a handle. It reads the flag on every call: while
        disabled it restores `m` on this handle and calls the library's own
        method without a span; while enabled it traces the call under the
        label `m`, from the handle's `source` and `database`. */
    method StatementHandler<T>(stmt: Statement, m: StatementMethod, native: Outcome<T>) returns (r: Outcome<T>)
      modifies stmt, tracer
      ensures r == native
      ensures !enabled ==> stmt.SlotOf(m) == Unwrap(old(stmt.SlotOf(m)))
                           && (forall m' :: m' != m ==> stmt.SlotOf(m') == old(stmt.SlotOf(m')))
                           && tracer.finished == old(tracer.finished)
      ensures enabled ==> unchanged(stmt)
                          && tracer.finished == old(tracer.finished)
                                                + [Record(stmt.source, stmt.database, Some(m.Name()), native)]
    {
      if !enabled {
        stmt.SetSlot(m, Unwrap(stmt.SlotOf(m)));
        r := native;
        return;
      }
      var span := CreateSpan(stmt.source, stmt.database, Some(m.Name()));
      r := DefaultRunner(span, tracer, native);
    }

    /** `stmt.run()`, `stmt.get()` or `stmt.all()` as the application makes
        it, through whatever the handle's slot holds. The result is always
        the library's own; only this handle and the span list can change. */
    method Call<T>(stmt: Statement, m: StatementMethod, native: Outcome<T>) returns (r: Outcome<T>)
      requires stmt.Valid()
      modifies stmt, tracer
      ensures r == native && stmt.Valid()
      ensures old(stmt.SlotOf(m)) == Original ==> unchanged(stmt) && tracer.finished == old(tracer.finished)
      ensures old(stmt.SlotOf(m)).Wrapped? && enabled ==>
                unchanged(stmt)
                && tracer.finished == old(tracer.finished)
                                      + [Record(stmt.source, stmt.database, Some(m.Name()), native)]
      ensures old(stmt.SlotOf(m)).Wrapped? && !enabled ==>
                stmt.SlotOf(m) == Original
                && (forall m' :: m' != m ==> stmt.SlotOf(m') == old(stmt.SlotOf(m')))
                && tracer.finished == old(tracer.finished)
    {
      if stmt.SlotOf(m).Wrapped? {
        r := StatementHandler(stmt, m, native);
        assert stmt.SlotOf(Run) == stmt.run && stmt.SlotOf(Get) == stmt.get && stmt.SlotOf(All) == stmt.all;
      } else {
        r := native;
      }
    }
  }
}
