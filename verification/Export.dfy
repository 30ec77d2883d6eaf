/** The routing-decision export of internal/analytics: the keyset cursor, one page
    request, and a consumer that pages through a table while rows keep landing in it. */
module Export {
  import opened Wrappers

  type Time = int   // nanoseconds; ZERO_TIME is Go's zero time.Time

  const ZERO_TIME: Time := 0
  const DEFAULT_LIMIT := 1000
  const MAX_LIMIT := 10000
  const HOLDBACK: Time := 60_000_000_000

  // -------------------------------------------------------------------- key order ----

  // Row IDs as text; on UUIDs in their fixed-width form this is the database's order.
  predicate IdLess(a: string, b: string) {
    if b == "" then false
    else if a == "" then true
    else a[0] < b[0] || (a[0] == b[0] && IdLess(a[1..], b[1..]))
  }

  lemma {:induction false} IdLessTrichotomy(a: string, b: string)
    ensures IdLess(a, b) || a == b || IdLess(b, a)
    ensures !(IdLess(a, b) && IdLess(b, a)) && !IdLess(a, a)
  {
    if a != "" && b != "" {
      IdLessTrichotomy(a[1..], b[1..]);
      assert a == [a[0]] + a[1..] && b == [b[0]] + b[1..];
    }
    if a != "" { IdLessTrichotomy(a[1..], a[1..]); }
  }

  lemma {:induction false} IdLessTransitive(a: string, b: string, c: string)
    requires IdLess(a, b) && IdLess(b, c)
    ensures IdLess(a, c)
  {
    if a != "" && a[0] == b[0] == c[0] {
      IdLessTransitive(a[1..], b[1..], c[1..]);
    }
  }

  datatype Row = Row(recordedAt: Time, id: string)

  predicate Before(a: Row, b: Row) {
    a.recordedAt < b.recordedAt || (a.recordedAt == b.recordedAt && IdLess(a.id, b.id))
  }

  lemma BeforeOrder(a: Row, b: Row)
    ensures Before(a, b) || a == b || Before(b, a)
    ensures !(Before(a, b) && Before(b, a)) && !Before(a, a)
  {
    IdLessTrichotomy(a.id, b.id);
    IdLessTrichotomy(a.id, a.id);
  }

  lemma BeforeTransitive(a: Row, b: Row, c: Row)
    requires Before(a, b) && Before(b, c)
    ensures Before(a, c)
  {
    if a.recordedAt == b.recordedAt == c.recordedAt { IdLessTransitive(a.id, b.id, c.id); }
  }

  // ----------------------------------------------------------------------- cursor ----

  datatype Cursor = Cursor(recordedAt: Time, id: string)

  const ZERO_CURSOR := Cursor(ZERO_TIME, "")

  predicate IsZero(c: Cursor) {
    c.id == "" && c.recordedAt == ZERO_TIME
  }

  // Base64url and RFC 3339 text, as the cursor uses them.
  datatype Codec = Codec(
    encode: string -> string,
    decode: string -> Option<string>,
    format: Time -> string,
    parse: string -> Option<Time>)

  ghost predicate Lossless(k: Codec) {
    && (forall s :: k.decode(k.encode(s)) == Some(s))
    && (forall s :: s != "" ==> k.encode(s) != "")
    && (forall t :: k.parse(k.format(t)) == Some(t))
    && (forall t :: '|' !in k.format(t))
  }

  function CursorString(k: Codec, c: Cursor): string {
    if IsZero(c) then "" else k.encode(k.format(c.recordedAt) + "|" + c.id)
  }

  // strings.Cut at the first '|'.
  function Cut(s: string): Option<(string, string)> {
    if s == "" then None
    else if s[0] == '|' then Some(("", s[1..]))
    else
      var rest := Cut(s[1..]);
      if rest.None? then None else Some(([s[0]] + rest.value.0, rest.value.1))
  }

  datatype ExportError = WindowRequired | InvalidCursor | RepositoryFailed

  function ParseCursor(k: Codec, token: string): Result<Cursor, ExportError> {
    if token == "" then Ok(ZERO_CURSOR)
    else
      var raw := k.decode(token);
      if raw.None? then Err(InvalidCursor)
      else
        var parts := Cut(raw.value);
        if parts.None? || parts.value.1 == "" then Err(InvalidCursor)
        else
          var t := k.parse(parts.value.0);
          if t.None? then Err(InvalidCursor) else Ok(Cursor(t.value, parts.value.1))
  }

  lemma {:induction false} CutAtFirstBar(a: string, b: string)
    requires '|' !in a
    ensures Cut(a + "|" + b) == Some((a, b))
  {
    var s := a + "|" + b;
    if a == "" {
      assert s[1..] == b;
    } else {
      assert s[1..] == a[1..] + "|" + b;
      CutAtFirstBar(a[1..], b);
      assert [s[0]] + a[1..] == a;
    }
  }

  /** A cursor survives being written out and read back exactly when it is the
      first-page sentinel or names a row; one with a time and no ID does not. */
  lemma CursorRoundTrips(k: Codec, c: Cursor)
    requires Lossless(k)
    ensures ParseCursor(k, CursorString(k, c)) == Ok(c) <==> IsZero(c) || c.id != ""
    ensures !IsZero(c) && c.id == "" ==> ParseCursor(k, CursorString(k, c)) == Err(InvalidCursor)
  {
    if !IsZero(c) {
      CutAtFirstBar(k.format(c.recordedAt), c.id);
    }
  }

  // ------------------------------------------------------------------ one request ----

  datatype Query = Query(from: Time, to: Time, after: Cursor, limit: nat)

  datatype Params = Params(since: Time, until: Time, cursor: string, limit: int)

  datatype Page = Page(rows: seq<Row>, nextCursor: string, hasMore: bool)

  function PageLimit(limit: int): (r: nat)
    ensures 1 <= r <= MAX_LIMIT
  {
    if limit <= 0 then DEFAULT_LIMIT else if limit > MAX_LIMIT then MAX_LIMIT else limit
  }

  function WindowEnd(until: Time, now: Time): Time {
    if until != ZERO_TIME && until < now - HOLDBACK then until else now - HOLDBACK
  }

  // The table's answer to a query, or the repository's failure.
  type Repository = Query -> Option<seq<Row>>

  function ExportRoutingDecisions(k: Codec, p: Params, now: Time, repo: Repository): Result<Page, ExportError> {
    var parsed := ParseCursor(k, p.cursor);
    if parsed.Err? then Err(parsed.error)
    else
      var after := parsed.value;
      if IsZero(after) && p.since == ZERO_TIME then Err(WindowRequired)
      else
        var limit := PageLimit(p.limit);
        var to := WindowEnd(p.until, now);
        var from := if IsZero(after) then p.since else after.recordedAt;
        if !(from < to) then Ok(Page([], "", false))
        else
          var answer := repo(Query(from, to, after, limit + 1));
          if answer.None? then Err(RepositoryFailed)
          else
            var hasMore := |answer.value| > limit;
            var rows := if hasMore then answer.value[..limit] else answer.value;
            var next := if rows == [] then ""
                        else CursorString(k, Cursor(rows[|rows| - 1].recordedAt, rows[|rows| - 1].id));
            Ok(Page(rows, next, hasMore))
  }

  // ------------------------------------------------------------- the table's answer ----

  predicate Wanted(q: Query, r: Row) {
    && q.from <= r.recordedAt < q.to
    && (IsZero(q.after) || Before(Row(q.after.recordedAt, q.after.id), r))
  }

  ghost predicate Ascending(rows: seq<Row>) {
    forall i, j | 0 <= i < j < |rows| :: Before(rows[i], rows[j])
  }

  // The first q.limit wanted rows in key order: every wanted row is in the answer, or
  // the answer is full and the row comes after all of it.
  ghost predicate IsAnswer(q: Query, table: set<Row>, rows: seq<Row>) {
    && Ascending(rows) && |rows| <= q.limit
    && (forall r | r in rows :: r in table && Wanted(q, r))
    && (forall r | r in table && Wanted(q, r) :: r in rows || (|rows| == q.limit && AfterAll(rows, r)))
  }

  ghost predicate AfterAll(rows: seq<Row>, r: Row) {
    forall x | x in rows :: Before(x, r)
  }

  ghost predicate Serves(repo: Repository, table: set<Row>) {
    forall q :: repo(q).Some? ==> IsAnswer(q, table, repo(q).value)
  }

  // --------------------------------------------------------------- a consumer's run ----

  // Rows land, and a consumer pages from since on, following the cursor it was given.
  datatype Step =
    | Commit(row: Row, at: Time)
    | Read(at: Time, until: Time, limit: int, repo: Repository)

  datatype World = World(table: set<Row>, clock: Time, delivered: seq<Row>, token: string)

  ghost predicate Enabled(w: World, step: Step) {
    && w.clock <= step.at
    && (step.Commit? ==> step.row !in w.table && step.row.id != "")
    && (step.Read? ==> Serves(step.repo, w.table))
  }

  // A row lands within Holdback of its timestamp.
  predicate Timely(step: Step) {
    step.Commit? ==> step.at <= step.row.recordedAt + HOLDBACK
  }

  function Answered(k: Codec, since: Time, w: World, step: Step): Result<Page, ExportError>
    requires step.Read?
  {
    ExportRoutingDecisions(k, Params(since, step.until, w.token, step.limit), step.at, step.repo)
  }

  function Next(k: Codec, since: Time, w: World, step: Step): World {
    match step
    case Commit(row, at) => w.(table := w.table + {row}, clock := at)
    case Read(at, _, _, _) =>
      var page := Answered(k, since, w, step);
      if page.Err? then w.(clock := at)
      else
        w.(clock := at, delivered := w.delivered + page.value.rows,
           token := if page.value.nextCursor != "" then page.value.nextCursor else w.token)
  }

  // Every step leaves the clock at its own time, and no step takes a row away.
  lemma ClockFollows(k: Codec, since: Time, w: World, step: Step)
    ensures Next(k, since, w, step).clock == step.at && w.table <= Next(k, since, w, step).table
    ensures step.Read? && Answered(k, since, w, step).Err? ==> Next(k, since, w, step) == w.(clock := step.at)
  { }

  predicate Reached(w: World, r: Row) {
    w.delivered != [] && (r == w.delivered[|w.delivered| - 1] || Before(r, w.delivered[|w.delivered| - 1]))
  }

  function LastCursor(w: World): Cursor {
    if w.delivered == [] then ZERO_CURSOR
    else Cursor(w.delivered[|w.delivered| - 1].recordedAt, w.delivered[|w.delivered| - 1].id)
  }

  // What was delivered is, in key order, every row from since on up to the cursor; and
  // nothing that may still land comes before the cursor.
  ghost predicate InStep(k: Codec, since: Time, w: World) {
    && Ascending(w.delivered)
    && (forall r | r in w.table :: r.id != "")
    && (forall r | r in w.delivered :: r in w.table && since <= r.recordedAt)
    && (forall r | r in w.table && since <= r.recordedAt && Reached(w, r) :: r in w.delivered)
    && w.token == CursorString(k, LastCursor(w))
    && (w.delivered != [] ==> w.delivered[|w.delivered| - 1].recordedAt + HOLDBACK < w.clock)
  }

  // A row of the export lands past the cursor, or is none of the export's.
  predicate Ahead(since: Time, w: World, step: Step) {
    step.Commit? && since <= step.row.recordedAt ==> !Reached(w, step.row)
  }

  /** A commit keeps a consumer in step exactly when its row is not behind the cursor. */
  lemma CommitKeepsStepExactlyWhen(k: Codec, since: Time, w: World, row: Row, at: Time)
    requires InStep(k, since, w) && Enabled(w, Commit(row, at))
    ensures InStep(k, since, Next(k, since, w, Commit(row, at))) <==> Ahead(since, w, Commit(row, at))
  {
    var d := Next(k, since, w, Commit(row, at));
    assert row in d.table && (Reached(d, row) <==> Reached(w, row)) && row !in d.delivered;
    assert forall r :: Reached(d, r) <==> Reached(w, r);
  }

  /** Holdback sees to that: pages end before it, and a row within it lands after them. */
  lemma TimelyIsAhead(k: Codec, since: Time, w: World, step: Step)
    requires InStep(k, since, w) && Enabled(w, step) && Timely(step)
    ensures Ahead(since, w, step)
  {
  }

  // A full page of an answer, and what it leaves behind.
  lemma PageOfAnswer(q: Query, table: set<Row>, answer: seq<Row>, limit: nat, rows: seq<Row>, r: Row)
    requires IsAnswer(q, table, answer) && q.limit == limit + 1 && 1 <= limit
    requires rows == if |answer| > limit then answer[..limit] else answer
    requires r in table && Wanted(q, r)
    ensures Ascending(rows)
    ensures r in rows || (|answer| > limit && Before(rows[|rows| - 1], r))
  {
    if r !in rows {
      if r in answer {
        assert forall j | 0 <= j < |rows| :: rows[j] == answer[j] && rows[j] in rows;
      } else {
        assert answer[limit - 1] in answer;
      }
    }
  }

  lemma AppendAscending(a: seq<Row>, b: seq<Row>)
    requires Ascending(a) && Ascending(b)
    requires a != [] ==> forall r | r in b :: Before(a[|a| - 1], r)
    ensures Ascending(a + b)
  {
    forall i, j | 0 <= i < j < |a + b| ensures Before((a + b)[i], (a + b)[j]) {
      if i < |a| <= j {
        assert (a + b)[j] in b;
        if i < |a| - 1 { BeforeTransitive(a[i], a[|a| - 1], (a + b)[j]); }
      }
    }
  }

  // The rows a page adds to a consumer in step.
  ghost predicate NewRows(since: Time, w: World, to: Time, rows: seq<Row>) {
    && Ascending(rows)
    && (forall r | r in rows :: r in w.table && since <= r.recordedAt < to)
    && (w.delivered != [] ==> forall r | r in rows :: Before(w.delivered[|w.delivered| - 1], r))
  }

  // Every row of the window is delivered, new, or after all the new rows.
  ghost predicate NoneSkipped(since: Time, w: World, to: Time, rows: seq<Row>) {
    forall r | r in w.table && since <= r.recordedAt < to ::
      r in w.delivered || r in rows || (rows != [] && Before(rows[|rows| - 1], r))
  }

  // What a successful read gives a consumer in step, whatever window and limit it asks.
  ghost predicate GoodPage(k: Codec, since: Time, w: World, to: Time, page: Page) {
    && NewRows(since, w, to, page.rows)
    && page.nextCursor == (if page.rows == [] then ""
                           else var last := page.rows[|page.rows| - 1];
                                CursorString(k, Cursor(last.recordedAt, last.id)))
    && (page.rows != [] ==> NoneSkipped(since, w, to, page.rows))
    && (page.hasMore <==> exists r | r in w.table && since <= r.recordedAt < to :: r !in w.delivered + page.rows)
    && (page.hasMore ==> page.rows != [])
  }

  lemma TokenParses(k: Codec, since: Time, w: World)
    requires Lossless(k) && InStep(k, since, w)
    ensures ParseCursor(k, w.token) == Ok(LastCursor(w))
    ensures IsZero(LastCursor(w)) <==> w.delivered == []
  {
    if w.delivered != [] { assert w.delivered[|w.delivered| - 1] in w.delivered; }
    CursorRoundTrips(k, LastCursor(w));
  }

  // Inside the query's window the keyset predicate asks for exactly what is undelivered.
  lemma WantedIsUndelivered(k: Codec, since: Time, w: World, q: Query, r: Row)
    requires InStep(k, since, w) && q.after == LastCursor(w)
    requires q.from == (if w.delivered == [] then since else q.after.recordedAt)
    requires r in w.table
    ensures Wanted(q, r) <==> since <= r.recordedAt < q.to && r !in w.delivered
  {
    if w.delivered != [] {
      var last := w.delivered[|w.delivered| - 1];
      assert last in w.delivered && last == Row(q.after.recordedAt, q.after.id);
      BeforeOrder(last, r);
      if r in w.delivered {
        var i :| 0 <= i < |w.delivered| && w.delivered[i] == r;
        assert Reached(w, r);
      }
    }
  }

  // A query a consumer in step may have sent, and the part of its answer that is kept.
  ghost predicate AskedFor(since: Time, w: World, q: Query, limit: nat, answer: seq<Row>, rows: seq<Row>) {
    && q.after == LastCursor(w)
    && q.from == (if w.delivered == [] then since else q.after.recordedAt)
    && 1 <= limit && q.limit == limit + 1 && IsAnswer(q, w.table, answer)
    && rows == (if |answer| > limit then answer[..limit] else answer)
    && (w.delivered != [] ==> !IsZero(LastCursor(w)))
  }

  lemma KeptRowsAreNew(k: Codec, since: Time, w: World, q: Query, limit: nat, answer: seq<Row>, rows: seq<Row>)
    requires InStep(k, since, w) && AskedFor(since, w, q, limit, answer, rows)
    ensures NewRows(since, w, q.to, rows)
    ensures forall r | r in rows :: r !in w.delivered
  {
    assert forall r | r in rows :: r in answer;
    forall r | r in rows ensures since <= r.recordedAt < q.to && r !in w.delivered {
      WantedIsUndelivered(k, since, w, q, r);
    }
  }

  lemma KeptRowsSkipNone(k: Codec, since: Time, w: World, q: Query, limit: nat, answer: seq<Row>, rows: seq<Row>,
                         r: Row)
    requires InStep(k, since, w) && AskedFor(since, w, q, limit, answer, rows)
    requires r in w.table && since <= r.recordedAt < q.to
    ensures r in w.delivered || r in rows || (|answer| > limit && rows != [] && Before(rows[|rows| - 1], r))
  {
    WantedIsUndelivered(k, since, w, q, r);
    if r !in w.delivered { PageOfAnswer(q, w.table, answer, limit, rows, r); }
  }

  lemma ProbeRowIsLeftOver(k: Codec, since: Time, w: World, q: Query, limit: nat, answer: seq<Row>, rows: seq<Row>)
    requires InStep(k, since, w) && AskedFor(since, w, q, limit, answer, rows) && |answer| > limit
    ensures var extra := answer[limit];
            extra in w.table && since <= extra.recordedAt < q.to && extra !in w.delivered && extra !in rows
  {
    var extra := answer[limit];
    assert extra in answer;
    WantedIsUndelivered(k, since, w, q, extra);
    forall j | 0 <= j < |rows| ensures rows[j] != extra {
      assert Before(answer[j], answer[limit]);
      BeforeOrder(answer[j], answer[limit]);
    }
  }

  lemma AnswerIsGoodPage(k: Codec, since: Time, w: World, q: Query, limit: nat, answer: seq<Row>, page: Page)
    requires InStep(k, since, w) && AskedFor(since, w, q, limit, answer, page.rows)
    requires page.hasMore == (|answer| > limit)
    requires page.nextCursor == (if page.rows == [] then ""
               else CursorString(k, Cursor(page.rows[|page.rows| - 1].recordedAt, page.rows[|page.rows| - 1].id)))
    ensures GoodPage(k, since, w, q.to, page)
  {
    var rows := page.rows;
    KeptRowsAreNew(k, since, w, q, limit, answer, rows);
    forall r | r in w.table && since <= r.recordedAt < q.to
      ensures r in w.delivered || r in rows || (|answer| > limit && rows != [] && Before(rows[|rows| - 1], r))
    {
      KeptRowsSkipNone(k, since, w, q, limit, answer, rows, r);
    }
    if page.hasMore {
      ProbeRowIsLeftOver(k, since, w, q, limit, answer, rows);
      assert answer[limit] !in w.delivered + rows;
    }
  }

  /** A read that succeeds gives a good page: rows of the window in key order, all after
      what was delivered, none skipped, and HasMore exactly when the window still holds
      an undelivered row. */
  lemma ReadIsGoodPage(k: Codec, since: Time, w: World, step: Step)
    requires Lossless(k) && InStep(k, since, w) && Enabled(w, step) && step.Read?
    requires Answered(k, since, w, step).Ok?
    ensures GoodPage(k, since, w, WindowEnd(step.until, step.at), Answered(k, since, w, step).value)
  {
    TokenParses(k, since, w);
    var to, after, limit := WindowEnd(step.until, step.at), LastCursor(w), PageLimit(step.limit);
    var from := if w.delivered == [] then since else after.recordedAt;
    var q := Query(from, to, after, limit + 1);
    var page := Answered(k, since, w, step).value;
    if from < to {
      assert step.repo(q).Some?;
      AnswerIsGoodPage(k, since, w, q, limit, step.repo(q).value, page);
    } else {
      forall r | r in w.table && since <= r.recordedAt < to ensures r in w.delivered {
        WantedIsUndelivered(k, since, w, q, r);
      }
    }
  }

  // -------------------------------------------------------------- when a read is answered ----

  // The token is what some cursor with an ID was written out as.
  ghost predicate Readable(k: Codec, token: string) {
    exists t: string, id: string ::
      '|' !in t && id != "" && k.decode(token) == Some(t + "|" + id) && k.parse(t).Some?
  }

  lemma {:induction false} CutJoins(s: string)
    ensures Cut(s).Some? ==> '|' !in Cut(s).value.0 && s == Cut(s).value.0 + "|" + Cut(s).value.1
  {
    if s != "" && s[0] != '|' {
      CutJoins(s[1..]);
      if Cut(s).Some? { assert s == [s[0]] + s[1..]; }
    }
  }

  lemma ParsesExactlyWhen(k: Codec, token: string)
    ensures ParseCursor(k, token).Ok? <==> token == "" || Readable(k, token)
    ensures ParseCursor(k, token).Ok? ==> (IsZero(ParseCursor(k, token).value) <==> token == "")
    ensures ParseCursor(k, token).Err? ==> ParseCursor(k, token).error == InvalidCursor
  {
    if token != "" {
      if Readable(k, token) {
        var t, id :| '|' !in t && id != "" && k.decode(token) == Some(t + "|" + id) && k.parse(t).Some?;
        CutAtFirstBar(t, id);
      }
      if ParseCursor(k, token).Ok? {
        CutJoins(k.decode(token).value);
      }
    }
  }

  // What a request asks of the table, once its cursor is read.
  function AskedQuery(k: Codec, p: Params, now: Time): Query
    requires ParseCursor(k, p.cursor).Ok?
  {
    var after := ParseCursor(k, p.cursor).value;
    Query(if p.cursor == "" then p.since else after.recordedAt,
          if p.until != ZERO_TIME && p.until < now - HOLDBACK then p.until else now - HOLDBACK,
          after,
          (if p.limit <= 0 then 1000 else if p.limit > 10000 then 10000 else p.limit) + 1)
  }

  /** Exactly when a request is refused, and how: a token that is no cursor's, then neither
      cursor nor since, then a failing repository; a window that is empty is answered with an
      empty page, without asking the repository. */
  lemma RefusedExactlyWhen(k: Codec, p: Params, now: Time, repo: Repository)
    ensures var r := ExportRoutingDecisions(k, p, now, repo);
            && (r == Err(InvalidCursor) <==> p.cursor != "" && !Readable(k, p.cursor))
            && (r == Err(WindowRequired) <==> p.cursor == "" && p.since == ZERO_TIME)
            && (r == Err(RepositoryFailed) <==>
                  && (if p.cursor == "" then p.since != ZERO_TIME else Readable(k, p.cursor))
                  && ParseCursor(k, p.cursor).Ok?
                  && var q := AskedQuery(k, p, now); q.from < q.to && repo(q).None?)
  {
    ParsesExactlyWhen(k, p.cursor);
  }

  /** A page holds at most the limit asked for, a thousand when none was and never more than
      ten thousand; a page with more behind it is full; and no row of it is younger than the
      holdback or at or past the end asked for. */
  lemma PageKeepsToTheRequest(k: Codec, p: Params, now: Time, table: set<Row>, repo: Repository)
    requires Serves(repo, table) && ExportRoutingDecisions(k, p, now, repo).Ok?
    ensures var page := ExportRoutingDecisions(k, p, now, repo).value;
            var most := if p.limit <= 0 then 1000 else if p.limit < 10000 then p.limit else 10000;
            && |page.rows| <= most && (page.hasMore ==> |page.rows| == most)
            && forall r | r in page.rows ::
                 r in table && r.recordedAt < now - HOLDBACK && (p.until != ZERO_TIME ==> r.recordedAt < p.until)
                 && (p.cursor == "" ==> p.since <= r.recordedAt)
  {
    ParsesExactlyWhen(k, p.cursor);
    var page := ExportRoutingDecisions(k, p, now, repo).value;
    var q := AskedQuery(k, p, now);
    if q.from < q.to {
      assert IsAnswer(q, table, repo(q).value);
      assert forall r | r in page.rows :: r in repo(q).value;
    }
  }

  /** A consumer in step that asked for some window to begin with is always answered, over a
      repository that answers: its cursor is one the export can read back, and supersedes the
      window. */
  lemma InStepIsAnswered(k: Codec, since: Time, w: World, step: Step)
    requires Lossless(k) && InStep(k, since, w) && step.Read? && forall q :: step.repo(q).Some?
    ensures Answered(k, since, w, step).Err? <==> since == ZERO_TIME && w.delivered == []
    ensures Answered(k, since, w, step).Err? ==> Answered(k, since, w, step).error == WindowRequired
  {
    TokenParses(k, since, w);
  }

  lemma ReadKeepsStep(k: Codec, since: Time, w: World, step: Step)
    requires Lossless(k) && InStep(k, since, w) && Enabled(w, step) && step.Read?
    ensures InStep(k, since, Next(k, since, w, step))
  {
    hide Answered;
    var answered := Answered(k, since, w, step);
    if answered.Ok? {
      ReadIsGoodPage(k, since, w, step);
      var rows, to := answered.value.rows, WindowEnd(step.until, step.at);
      if rows != [] {
        AppendAscending(w.delivered, rows);
        PageKeepsStep(k, since, w, step.at, to, rows);
      } else {
        assert w.delivered + rows == w.delivered;
      }
    }
  }

  lemma PageKeepsStep(k: Codec, since: Time, w: World, at: Time, to: Time, rows: seq<Row>)
    requires Lossless(k) && InStep(k, since, w) && w.clock <= at && to <= at - HOLDBACK
    requires rows != [] && NewRows(since, w, to, rows) && NoneSkipped(since, w, to, rows)
    requires Ascending(w.delivered + rows)
    ensures var last := rows[|rows| - 1];
            InStep(k, since, World(w.table, at, w.delivered + rows,
                                   if CursorString(k, Cursor(last.recordedAt, last.id)) != ""
                                   then CursorString(k, Cursor(last.recordedAt, last.id)) else w.token))
  {
    var last := rows[|rows| - 1];
    assert last in rows;
    var all := w.delivered + rows;
    forall r | r in w.table && since <= r.recordedAt && (r == last || Before(r, last)) ensures r in all {
      BeforeOrder(last, r);
    }
    assert all[|all| - 1] == last;
    assert k.format(last.recordedAt) + "|" + last.id != "";
    assert CursorString(k, Cursor(last.recordedAt, last.id)) != "";
  }

  // ------------------------------------------------------------------- whole runs ----

  ghost predicate Legal(k: Codec, since: Time, w: World, steps: seq<Step>)
    decreases |steps|
  {
    steps != [] ==>
      Enabled(w, steps[0]) && Timely(steps[0]) && Legal(k, since, Next(k, since, w, steps[0]), steps[1..])
  }

  function Run(k: Codec, since: Time, w: World, steps: seq<Step>): World
    decreases |steps|
  {
    if steps == [] then w else Run(k, since, Next(k, since, w, steps[0]), steps[1..])
  }

  /** Over any interleaving of commits and reads under a clock that never goes back, with
      every row committed within Holdback of its timestamp, the rows delivered are, each
      once and in key order, exactly the rows from since on up to the cursor. */
  lemma {:induction false} DeliversExactlyOnceInOrder(k: Codec, since: Time, w: World, steps: seq<Step>)
    requires Lossless(k) && InStep(k, since, w) && Legal(k, since, w, steps)
    ensures InStep(k, since, Run(k, since, w, steps))
    decreases |steps|
  {
    if steps != [] {
      if steps[0].Commit? {
        TimelyIsAhead(k, since, w, steps[0]);
        CommitKeepsStepExactlyWhen(k, since, w, steps[0].row, steps[0].at);
      } else {
        ReadKeepsStep(k, since, w, steps[0]);
      }
      DeliversExactlyOnceInOrder(k, since, Next(k, since, w, steps[0]), steps[1..]);
    }
  }

  // A consumer that has asked for nothing yet is in step with any table.
  lemma StartsInStep(k: Codec, since: Time, table: set<Row>, clock: Time)
    requires forall r | r in table :: r.id != ""
    ensures InStep(k, since, World(table, clock, [], ""))
  {
  }

  /** No row is skipped: after a read that reports no more and reaches up to the
      holdback, every row from since on and before the holdback has been delivered. */
  lemma DrainedMeansComplete(k: Codec, since: Time, w: World, step: Step)
    requires Lossless(k) && InStep(k, since, w) && Enabled(w, step) && step.Read? && step.until == ZERO_TIME
    requires Answered(k, since, w, step).Ok? && !Answered(k, since, w, step).value.hasMore
    ensures forall r | r in w.table && since <= r.recordedAt < step.at - HOLDBACK ::
              r in Next(k, since, w, step).delivered
  {
    ReadIsGoodPage(k, since, w, step);
  }

  lemma {:induction false} AscendingAsSet(rows: seq<Row>)
    requires Ascending(rows)
    ensures |set r | r in rows| == |rows|
  {
    if rows != [] {
      var n := |rows| - 1;
      var front, last := rows[..n], rows[n];
      AscendingAsSet(front);
      assert rows == front + [last];
      forall i | 0 <= i < n ensures front[i] != last {
        BeforeOrder(rows[i], rows[n]);
      }
      assert (set r | r in rows) == (set r | r in front) + {last};
    }
  }

  lemma DeliveredFits(k: Codec, since: Time, w: World)
    requires InStep(k, since, w)
    ensures |w.delivered| <= |w.table|
  {
    AscendingAsSet(w.delivered);
    SubsetSize((set r | r in w.delivered), w.table);
  }

  lemma {:induction false} SubsetSize<T>(a: set<T>, b: set<T>)
    requires a <= b
    ensures |a| <= |b|
    decreases |a|
  {
    if a != {} {
      var x :| x in a;
      SubsetSize(a - {x}, b - {x});
    }
  }

  function PagesWithMore(k: Codec, since: Time, w: World, steps: seq<Step>): nat
    decreases |steps|
  {
    if steps == [] then 0
    else
      (if steps[0].Read? && Answered(k, since, w, steps[0]).Ok? && Answered(k, since, w, steps[0]).value.hasMore
       then 1 else 0)
      + PagesWithMore(k, since, Next(k, since, w, steps[0]), steps[1..])
  }

  lemma {:induction false} EachPageAdds(k: Codec, since: Time, w: World, steps: seq<Step>)
    requires Lossless(k) && InStep(k, since, w) && Legal(k, since, w, steps)
    ensures |w.delivered| + PagesWithMore(k, since, w, steps) <= |Run(k, since, w, steps).delivered|
    decreases |steps|
  {
    if steps != [] {
      if steps[0].Commit? {
        TimelyIsAhead(k, since, w, steps[0]);
        CommitKeepsStepExactlyWhen(k, since, w, steps[0].row, steps[0].at);
      } else {
        ReadKeepsStep(k, since, w, steps[0]);
        if Answered(k, since, w, steps[0]).Ok? { ReadIsGoodPage(k, since, w, steps[0]); }
      }
      EachPageAdds(k, since, Next(k, since, w, steps[0]), steps[1..]);
    }
  }

  /** A drain ends: over any run, pages reporting more are no more than the rows the
      table ends with, so on a frozen table a consumer soon reads one that does not. */
  lemma DrainTerminates(k: Codec, since: Time, w: World, steps: seq<Step>)
    requires Lossless(k) && InStep(k, since, w) && Legal(k, since, w, steps)
    ensures |w.delivered| + PagesWithMore(k, since, w, steps) <= |Run(k, since, w, steps).table|
  {
    EachPageAdds(k, since, w, steps);
    DeliversExactlyOnceInOrder(k, since, w, steps);
    DeliveredFits(k, since, Run(k, since, w, steps));
  }

  /** From the first call on: a consumer that has asked for nothing yet, of any table, stays
      in step over every run, and meets fewer pages reporting more than there are rows. */
  lemma FreshConsumerStaysInStep(k: Codec, since: Time, table: set<Row>, clock: Time, steps: seq<Step>)
    requires Lossless(k) && (forall r | r in table :: r.id != "") && Legal(k, since, World(table, clock, [], ""), steps)
    ensures var end := Run(k, since, World(table, clock, [], ""), steps);
            && InStep(k, since, end)
            && PagesWithMore(k, since, World(table, clock, [], ""), steps) <= |end.table|
  {
    StartsInStep(k, since, table, clock);
    DeliversExactlyOnceInOrder(k, since, World(table, clock, [], ""), steps);
    DrainTerminates(k, since, World(table, clock, [], ""), steps);
  }

  // ------------------------------------------------ why the holdback must be met ----

  // What a consumer keeps even when rows land late.
  ghost predicate Paged(k: Codec, w: World) {
    && Ascending(w.delivered)
    && (forall r | r in w.table :: r.id != "")
    && (forall r | r in w.delivered :: r in w.table)
    && w.token == CursorString(k, LastCursor(w))
  }

  // The rows a page holds all come after the cursor, whatever the table did before.
  lemma PageComesAfterCursor(k: Codec, since: Time, w: World, step: Step)
    requires Lossless(k) && Paged(k, w) && step.Read? && Serves(step.repo, w.table)
    ensures var page := Answered(k, since, w, step);
            page.Ok? ==>
              && Ascending(page.value.rows)
              && forall r | r in page.value.rows ::
                   r in w.table && (w.delivered != [] ==> Before(w.delivered[|w.delivered| - 1], r))
  {
    if w.delivered != [] { assert w.delivered[|w.delivered| - 1] in w.delivered; }
    CursorRoundTrips(k, LastCursor(w));
    var page := Answered(k, since, w, step);
    if page.Ok? && page.value.rows != [] {
      var after := LastCursor(w);
      var q := Query(if IsZero(after) then since else after.recordedAt, WindowEnd(step.until, step.at), after,
                     PageLimit(step.limit) + 1);
      assert IsAnswer(q, w.table, step.repo(q).value);
      assert forall r | r in page.value.rows :: r in step.repo(q).value;
    }
  }

  // Commits may land as late as they like.
  ghost predicate Possible(k: Codec, since: Time, w: World, steps: seq<Step>)
    decreases |steps|
  {
    steps != [] ==> Enabled(w, steps[0]) && Possible(k, since, Next(k, since, w, steps[0]), steps[1..])
  }

  ghost predicate Lost(w: World, late: Row) {
    w.delivered != [] && late !in w.delivered && Before(late, w.delivered[|w.delivered| - 1])
  }

  lemma LostAfterPage(k: Codec, w: World, late: Row, rows: seq<Row>, at: Time)
    requires Lossless(k) && Paged(k, w) && Lost(w, late)
    requires rows != [] && Ascending(rows)
    requires forall r | r in rows :: r in w.table && Before(w.delivered[|w.delivered| - 1], r)
    ensures var last := rows[|rows| - 1];
            var token := CursorString(k, Cursor(last.recordedAt, last.id));
            token != "" && Lost(World(w.table, at, w.delivered + rows, token), late)
            && Paged(k, World(w.table, at, w.delivered + rows, token))
  {
    AppendAscending(w.delivered, rows);
    forall r | r in rows ensures r != late && Before(late, r) {
      BeforeTransitive(late, w.delivered[|w.delivered| - 1], r);
      BeforeOrder(late, r);
    }
    var last := rows[|rows| - 1];
    assert last in rows && (w.delivered + rows)[|w.delivered + rows| - 1] == last;
    assert k.format(last.recordedAt) + "|" + last.id != "";
  }

  lemma LostAfterRead(k: Codec, since: Time, w: World, step: Step, late: Row)
    requires Lossless(k) && Paged(k, w) && Lost(w, late) && Enabled(w, step) && step.Read?
    ensures Paged(k, Next(k, since, w, step)) && Lost(Next(k, since, w, step), late)
  {
    PageComesAfterCursor(k, since, w, step);
    var page := Answered(k, since, w, step);
    if page.Ok? {
      if page.value.rows == [] {
        assert w.delivered + page.value.rows == w.delivered;
      } else {
        LostAfterPage(k, w, late, page.value.rows, step.at);
      }
    }
  }

  lemma LostAfterStep(k: Codec, since: Time, w: World, step: Step, late: Row)
    requires Lossless(k) && Paged(k, w) && Lost(w, late) && Enabled(w, step)
    ensures Paged(k, Next(k, since, w, step)) && Lost(Next(k, since, w, step), late)
  {
    if step.Read? { LostAfterRead(k, since, w, step, late); }
  }

  /** A row that lands behind the cursor, as one committed later than Holdback allows
      can, is never delivered, whatever else lands and however long the consumer reads. */
  lemma {:induction false} RowBehindCursorIsLost(k: Codec, since: Time, w: World, steps: seq<Step>, late: Row)
    requires Lossless(k) && Paged(k, w) && Possible(k, since, w, steps) && Lost(w, late)
    ensures Lost(Run(k, since, w, steps), late)
    decreases |steps|
  {
    if steps != [] {
      LostAfterStep(k, since, w, steps[0], late);
      RowBehindCursorIsLost(k, since, Next(k, since, w, steps[0]), steps[1..], late);
    }
  }

  ghost predicate AheadRun(k: Codec, since: Time, w: World, steps: seq<Step>)
    decreases |steps|
  {
    steps != [] ==> Ahead(since, w, steps[0]) && AheadRun(k, since, Next(k, since, w, steps[0]), steps[1..])
  }

  lemma {:induction false} RowsStay(k: Codec, since: Time, w: World, steps: seq<Step>)
    ensures w.table <= Run(k, since, w, steps).table
    decreases |steps|
  {
    if steps != [] { RowsStay(k, since, Next(k, since, w, steps[0]), steps[1..]); }
  }

  // The first row to land behind the cursor puts the consumer out of step for good.
  lemma OutOfStepForGood(k: Codec, since: Time, w: World, row: Row, at: Time, steps: seq<Step>)
    requires Lossless(k) && InStep(k, since, w) && Enabled(w, Commit(row, at)) && !Ahead(since, w, Commit(row, at))
    requires Possible(k, since, Next(k, since, w, Commit(row, at)), steps)
    ensures !InStep(k, since, Run(k, since, Next(k, since, w, Commit(row, at)), steps))
  {
    var d := Next(k, since, w, Commit(row, at));
    assert row !in d.delivered && w.delivered[|w.delivered| - 1] in w.delivered;
    assert Paged(k, d) && Lost(d, row);
    RowBehindCursorIsLost(k, since, d, steps, row);
    RowsStay(k, since, d, steps);
    var end := Run(k, since, d, steps);
    assert row in end.table && Reached(end, row) && row !in end.delivered;
  }

  /** Over any interleaving of commits, however late, and reads: the consumer ends up with
      exactly the rows up to its cursor, each once and in key order, if and only if no row
      of its export landed behind the cursor it held at the time. */
  lemma {:induction false} StaysInStepExactlyWhen(k: Codec, since: Time, w: World, steps: seq<Step>)
    requires Lossless(k) && InStep(k, since, w) && Possible(k, since, w, steps)
    ensures InStep(k, since, Run(k, since, w, steps)) <==> AheadRun(k, since, w, steps)
    decreases |steps|
  {
    if steps != [] {
      var step := steps[0];
      if Ahead(since, w, step) {
        if step.Commit? {
          CommitKeepsStepExactlyWhen(k, since, w, step.row, step.at);
        } else {
          ReadKeepsStep(k, since, w, step);
        }
        StaysInStepExactlyWhen(k, since, Next(k, since, w, step), steps[1..]);
      } else {
        OutOfStepForGood(k, since, w, step.row, step.at, steps[1..]);
      }
    }
  }
}
