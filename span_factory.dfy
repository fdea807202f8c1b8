/** `createSpan` (lib/better-sqlite3.ts): the span name is the first keyword of
    the trimmed query, prefixed with "<operation>: " when a non-empty
    operation label is given; the attributes name the engine, the raw query
    and the connection. */
module SpanFactory {
  import opened Outcomes
  import opened Tracing

  const DB_SYSTEM := "db.system"
  const DB_STATEMENT := "db.statement"
  const DB_NAME := "db.name"

  /** The engine identifier put in db.system. */
  const SQLITE3 := "sqlite3"

  /** The characters `String.prototype.trim` strips and `/\s/u` matches: the
      ECMAScript WhiteSpace (TAB, VT, FF, ZWNBSP and category Zs) and
      LineTerminator (LF, CR, LS, PS) code points; TAB, LF, VT, FF and CR
      are the five code points 9 to 13. */
  predicate IsWhitespace(c: char)
  {
    if c <= ' ' then c == ' ' || '\t' <= c <= '\r'
    else if c < '\U{A0}' then false
    else (c == '\U{A0}' || c == '\U{1680}' || '\U{2000}' <= c <= '\U{200A}'
          || c == '\U{2028}' || c == '\U{2029}' || c == '\U{202F}' || c == '\U{205F}'
          || c == '\U{3000}' || c == '\U{FEFF}')
  }

  predicate AllWhitespace(s: string)
  {
    forall i :: 0 <= i < |s| ==> IsWhitespace(s[i])
  }

  predicate NoWhitespace(s: string)
  {
    forall i :: 0 <= i < |s| ==> !IsWhitespace(s[i])
  }

  /** Neither the first nor the last character is whitespace. */
  predicate TrimmedEdges(s: string)
  {
    s == [] || (!IsWhitespace(s[0]) && !IsWhitespace(s[|s| - 1]))
  }

  /** How many whitespace characters `query.trim()` cuts off the front. */
  function LeadingWhitespace(s: string): (n: nat)
    ensures n <= |s|
    ensures forall i :: 0 <= i < n ==> IsWhitespace(s[i])
    ensures n < |s| ==> !IsWhitespace(s[n])
  {
    if s != [] && IsWhitespace(s[0]) then 1 + LeadingWhitespace(s[1..]) else 0
  }

  /** How many whitespace characters `query.trim()` cuts off the back. */
  function TrailingWhitespace(s: string): (n: nat)
    ensures n <= |s|
    ensures forall i :: |s| - n <= i < |s| ==> IsWhitespace(s[i])
    ensures n < |s| ==> !IsWhitespace(s[|s| - 1 - n])
  {
    if s != [] && IsWhitespace(s[|s| - 1]) then 1 + TrailingWhitespace(s[..|s| - 1]) else 0
  }

  /** `query.trim()`: cut the leading whitespace, then the trailing
      whitespace of what is left. TrimSpec and TrimUnique show it is the one
      infix of `s` with only whitespace around it and none at its own ends. */
  function Trim(s: string): string
  {
    var t := s[LeadingWhitespace(s)..];
    t[..|t| - TrailingWhitespace(t)]
  }

  /** `s.split(/\s/u)[0]`: everything before the first whitespace character,
      or all of `s` when it has none. */
  function FirstToken(s: string): (r: string)
    ensures r <= s && NoWhitespace(r)
    ensures r == s || IsWhitespace(s[|r|])
  {
    if s == [] || IsWhitespace(s[0]) then [] else [s[0]] + FirstToken(s[1..])
  }

  /** The keyword a span is named after: `query.trim().split(/\s/u)[0]`
      (KeywordSpec, KeywordUnique). */
  function Keyword(query: string): string
  {
    FirstToken(Trim(query))
  }

  /** An operation label counts only when it is present and non-empty (an
      empty string is falsy). */
  predicate Labelled(operation: Option<string>)
  {
    operation.Some? && operation.value != ""
  }

  /** The span name of `createSpan` (SpanNameSpec). */
  function SpanName(query: string, operation: Option<string>): string
  {
    if Labelled(operation) then operation.value + ": " + Keyword(query) else Keyword(query)
  }

  /** The three attributes every span carries. */
  function Attributes(query: string, dbName: string): (a: map<string, string>)
    ensures a.Keys == {DB_SYSTEM, DB_STATEMENT, DB_NAME}
    ensures a[DB_SYSTEM] == SQLITE3 && a[DB_STATEMENT] == query && a[DB_NAME] == dbName
  {
    map[DB_SYSTEM := SQLITE3, DB_STATEMENT := query, DB_NAME := dbName]
  }

  /** `createSpan(query, db, operation)`: what it passes to `startSpan`
      (SpanForSpec). */
  function SpanFor(query: string, dbName: string, operation: Option<string>): SpanData
  {
    SpanData(SpanName(query, operation), Client, Attributes(query, dbName))
  }

  /** The part of `s` after its last space character (all of `s` if it has
      none): how a reader of a span name gets back the keyword. */
  function AfterLastSpace(s: string): string
  {
    if s == [] then []
    else if s[|s| - 1] == ' ' then []
    else AfterLastSpace(s[..|s| - 1]) + [s[|s| - 1]]
  }

  // ----- lemmas -----

  /** Trim leaves an infix of `s` with no whitespace at its ends, cutting
      only whitespace off the front and the back. */
  lemma TrimSpec(s: string)
    ensures TrimmedEdges(Trim(s))
    ensures LeadingWhitespace(s) + |Trim(s)| <= |s|
    ensures Trim(s) == s[LeadingWhitespace(s)..LeadingWhitespace(s) + |Trim(s)|]
    ensures forall j :: 0 <= j < LeadingWhitespace(s) ==> IsWhitespace(s[j])
    ensures forall j :: LeadingWhitespace(s) + |Trim(s)| <= j < |s| ==> IsWhitespace(s[j])
  {
    var n := LeadingWhitespace(s);
    var t := s[n..];
    var m := TrailingWhitespace(t);
    forall j | n + |t| - m <= j < |s|
      ensures IsWhitespace(s[j])
    {
      assert s[j] == t[j - n];
    }
  }

  /** The keyword is a whitespace-free prefix of the trimmed query that
      runs up to its first whitespace character or its end; it is empty
      exactly when the query is all whitespace. */
  lemma KeywordSpec(query: string)
    ensures Keyword(query) <= Trim(query) && NoWhitespace(Keyword(query))
    ensures Keyword(query) == Trim(query) || IsWhitespace(Trim(query)[|Keyword(query)|])
    ensures Keyword(query) == [] <==> AllWhitespace(query)
  {
    TrimEmpty(query);
  }

  /** The span name: "<operation>: <keyword>" under a non-empty label, the
      bare keyword otherwise. Either way the keyword is what follows the
      name's last space, and a label is the name's head. */
  lemma SpanNameSpec(query: string, operation: Option<string>)
    ensures Labelled(operation) ==> SpanName(query, operation) == operation.value + ": " + Keyword(query)
    ensures !Labelled(operation) ==> SpanName(query, operation) == Keyword(query)
    ensures AfterLastSpace(SpanName(query, operation)) == Keyword(query)
    ensures Labelled(operation) ==>
              |SpanName(query, operation)| >= |operation.value| + 2
              && SpanName(query, operation)[..|operation.value| + 2] == operation.value + ": "
  {
    var k := Keyword(query);
    KeywordSpec(query);
    if Labelled(operation) {
      var head := operation.value + ":";
      var name := operation.value + ": " + k;
      assert name == head + " " + k;
      AfterLastSpaceOfSuffix(head, k);
      assert name[..|operation.value| + 2] == operation.value + ": ";
    } else {
      AfterLastSpaceOfSuffix([], k);
    }
  }

  /** Every span is a CLIENT span with the three attributes, named by
      SpanName. */
  lemma SpanForSpec(query: string, dbName: string, operation: Option<string>)
    ensures SpanFor(query, dbName, operation).kind == Client
    ensures SpanFor(query, dbName, operation).attributes.Keys == {DB_SYSTEM, DB_STATEMENT, DB_NAME}
    ensures SpanFor(query, dbName, operation).attributes[DB_SYSTEM] == SQLITE3
    ensures SpanFor(query, dbName, operation).attributes[DB_STATEMENT] == query
    ensures SpanFor(query, dbName, operation).attributes[DB_NAME] == dbName
    ensures Labelled(operation) ==> SpanFor(query, dbName, operation).name == operation.value + ": " + Keyword(query)
    ensures !Labelled(operation) ==> SpanFor(query, dbName, operation).name == Keyword(query)
  {
  }

  /** LeadingWhitespace is determined by its contract. */
  lemma {:induction false} LeadingUnique(s: string, n: nat)
    requires n <= |s| && (forall i :: 0 <= i < n ==> IsWhitespace(s[i]))
    requires n < |s| ==> !IsWhitespace(s[n])
    ensures LeadingWhitespace(s) == n
  {
    if n > 0 {
      LeadingUnique(s[1..], n - 1);
    }
  }

  /** TrailingWhitespace is determined by its contract. */
  lemma {:induction false} TrailingUnique(s: string, n: nat)
    requires n <= |s| && (forall i :: |s| - n <= i < |s| ==> IsWhitespace(s[i]))
    requires n < |s| ==> !IsWhitespace(s[|s| - 1 - n])
    ensures TrailingWhitespace(s) == n
  {
    if n > 0 {
      TrailingUnique(s[..|s| - 1], n - 1);
    }
  }

  /** Trimming removes everything exactly when everything is whitespace. */
  lemma TrimEmpty(s: string)
    ensures Trim(s) == [] <==> AllWhitespace(s)
  {
    TrimSpec(s);
    if AllWhitespace(s) {
      LeadingUnique(s, |s|);
    }
  }

  /** Trim is determined by its contract: any infix of `s` with whitespace
      only around it and none at its own ends is Trim(s). */
  lemma TrimUnique(s: string, i: nat, t: string)
    requires i + |t| <= |s| && t == s[i..i + |t|]
    requires forall j :: 0 <= j < i ==> IsWhitespace(s[j])
    requires forall j :: i + |t| <= j < |s| ==> IsWhitespace(s[j])
    requires TrimmedEdges(t)
    ensures Trim(s) == t
  {
    if t == [] {
      LeadingUnique(s, |s|);
    } else {
      LeadingUnique(s, i);
      var u := s[i..];
      TrailingUnique(u, |u| - |t|);
    }
  }

  /** FirstToken is determined by its contract. */
  lemma {:induction false} FirstTokenUnique(s: string, k: string)
    requires k <= s && NoWhitespace(k)
    requires k == s || IsWhitespace(s[|k|])
    ensures FirstToken(s) == k
  {
    if k != [] {
      assert s[1..][..|k| - 1] == k[1..];
      FirstTokenUnique(s[1..], k[1..]);
    }
  }

  /** The keyword is the unique whitespace-free prefix of the trimmed query
      that reaches either its end or a whitespace character. */
  lemma KeywordUnique(query: string, k: string)
    requires k <= Trim(query) && NoWhitespace(k)
    requires k == Trim(query) || IsWhitespace(Trim(query)[|k|])
    ensures Keyword(query) == k
  {
    FirstTokenUnique(Trim(query), k);
  }

  /** The keyword appears verbatim in the raw query: its case is kept. */
  lemma KeywordInQuery(query: string)
    ensures exists i {:trigger query[i..]} :: 0 <= i <= |query| - |Keyword(query)|
              && query[i..i + |Keyword(query)|] == Keyword(query)
  {
    var t, i, k := Trim(query), LeadingWhitespace(query), Keyword(query);
    TrimSpec(query);
    KeywordSpec(query);
    assert k == t[..|k|];
    assert t[..|k|] == query[i..i + |k|];
  }

  /** Leading and trailing whitespace never change the trimmed query, so
      they never change the keyword. */
  lemma KeywordIgnoresPadding(a: string, query: string, b: string)
    requires AllWhitespace(a) && AllWhitespace(b)
    ensures Trim(a + query + b) == Trim(query)
    ensures Keyword(a + query + b) == Keyword(query)
  {
    var s := a + query + b;
    var t, i := Trim(query), LeadingWhitespace(query);
    TrimSpec(query);
    assert s[|a| + i..|a| + i + |t|] == t;
    TrimUnique(s, |a| + i, t);
  }

  /** A whitespace-free string is exactly the part after the last space once
      anything ending in a space is put before it. */
  lemma {:induction false} AfterLastSpaceOfSuffix(head: string, k: string)
    requires NoWhitespace(k)
    ensures AfterLastSpace(k) == k
    ensures AfterLastSpace(head + " " + k) == k
  {
    if k == [] {
      assert head + " " + k == head + " ";
    } else {
      var k' := k[..|k| - 1];
      assert (head + " " + k)[..|head + " " + k| - 1] == head + " " + k';
      assert k' + [k[|k| - 1]] == k;
      AfterLastSpaceOfSuffix(head, k');
    }
  }

  /** A query with no whitespace at either end is named after its first `n`
      characters when they are whitespace-free and end at whitespace or at
      the end of the query. */
  lemma KeywordOfTrimmed(q: string, n: nat)
    requires TrimmedEdges(q) && n <= |q| && NoWhitespace(q[..n])
    requires n == |q| || IsWhitespace(q[n])
    ensures Keyword(q) == q[..n]
  {
    assert q[0..|q|] == q;
    TrimUnique(q, 0, q);
    KeywordUnique(q, q[..n]);
  }

  /** A single whitespace-free word is its own keyword. */
  lemma KeywordOfWord(w: string)
    requires w != [] && NoWhitespace(w)
    ensures Keyword(w) == w
  {
    assert w[..|w|] == w;
    KeywordOfTrimmed(w, |w|);
  }
}
