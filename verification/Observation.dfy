/**
 What the poller does to its tables, as scripts of single committed writes.
 A crash cuts a script after any prefix; the tables survive, the rest of the script does not.
 */
module Observation {
  import opened Basics
  import opened Events

  const POLL_OVERLAP: Time := 10_000
  const PAGE_SIZE: nat := 100
  const MAX_PAGES: nat := 50

  /** The tables the poller owns; known holds the ids of all events ever enqueued. */
  datatype Board = Board(
    known: set<EventId>,
    seen: map<string, Seen>,
    cursor: Option<Time>,
    watermark: Option<Time>)

  datatype Write =
    | Enqueue(id: EventId)
    | Upsert(issue: Issue)
    | SetCursor(at: Time)
    | SetBaseline(at: Time, watermark: Time)

  function SeenOf(issue: Issue): Seen {
    Seen(issue.status, TerminalTs(issue), issue.updatedAt)
  }

  function Apply(b: Board, w: Write): Board {
    match w
    case Enqueue(id) => b.(known := b.known + {id})
    case Upsert(issue) => b.(seen := b.seen[issue.id := SeenOf(issue)])
    case SetCursor(at) => b.(cursor := Some(at))
    case SetBaseline(at, watermark) => b.(cursor := Some(at), watermark := Some(watermark))
  }

  function Exec(b: Board, ws: seq<Write>): Board {
    if ws == [] then b else Apply(Exec(b, ws[..|ws| - 1]), ws[|ws| - 1])
  }

  lemma {:induction false} ExecConcat(b: Board, xs: seq<Write>, ys: seq<Write>)
    ensures Exec(b, xs + ys) == Exec(Exec(b, xs), ys)
    decreases |ys|
  {
    if ys == [] {
      assert xs + ys == xs;
    } else {
      assert (xs + ys)[..|xs + ys| - 1] == xs + ys[..|ys| - 1];
      ExecConcat(b, xs, ys[..|ys| - 1]);
    }
  }

  lemma ExecAppend(b: Board, ws: seq<Write>, w: Write)
    ensures Exec(b, ws + [w]) == Apply(Exec(b, ws), w)
  {
    assert (ws + [w])[..|ws|] == ws;
  }

  /******* One row *******/

  function OccurredAt(issue: Issue, now: Time): Time {
    var stamp := OrElse(TerminalTs(issue), issue.updatedAt);
    if stamp.Some? then stamp.value else now
  }

  function Key(issue: Issue, now: Time): EventId {
    IssueKey(issue.id, issue.status, OccurredAt(issue, now))
  }

  /** A terminal row met for the first time is an event only if it appeared after the bridge started. */
  function LateTerminalType(issue: Issue, watermark: Option<Time>): Option<EventType> {
    var seenAt := OrElse(issue.createdAt, issue.updatedAt);
    if watermark.Some? && seenAt.Some? && seenAt.value > watermark.value then TerminalType(issue.status) else None
  }

  function EventTypeOf(previous: Option<Seen>, issue: Issue, watermark: Option<Time>): Option<EventType> {
    var classified := ClassifyIssue(previous, issue);
    if classified.None? && previous.None? then LateTerminalType(issue, watermark) else classified
  }

  function ObserveWrites(b: Board, issue: Issue, now: Time): seq<Write> {
    (if EventTypeOf(Lookup(b.seen, issue.id), issue, b.watermark).Some? then [Enqueue(Key(issue, now))] else [])
    + [Upsert(issue)]
  }

  /** Recovery ignores what was seen before and asks only whether the stamp is newer than the watermark. */
  predicate IsFresh(issue: Issue, watermark: Option<Time>) {
    watermark.None? || (TerminalTs(issue).Some? && TerminalTs(issue).value > watermark.value)
  }

  function RecoverWrites(issue: Issue, now: Time, watermark: Option<Time>): seq<Write> {
    (if TerminalType(issue.status).Some? && IsFresh(issue, watermark) then [Enqueue(Key(issue, now))] else [])
    + [Upsert(issue)]
  }

  function Observe(b: Board, issue: Issue, now: Time): Board {
    Exec(b, ObserveWrites(b, issue, now))
  }

  function Recover(b: Board, issue: Issue, now: Time, watermark: Option<Time>): Board {
    Exec(b, RecoverWrites(issue, now, watermark))
  }

  lemma ExecPair(b: Board, w: Write, x: Write)
    ensures Exec(b, [x]) == Apply(b, x) && Exec(b, [w, x]) == Apply(Apply(b, w), x)
    ensures Exec(b, [] + [x]) == Apply(b, x) && Exec(b, [w] + [x]) == Apply(Apply(b, w), x)
  {
    assert [w, x][..1] == [w] && [w][..0] == [] && [x][..0] == [];
    assert [w] + [x] == [w, x] && [] + [x] == [x];
  }

  /** The column that dates a ticket's end. */
  function EndedAt(issue: Issue): Option<Time> {
    if issue.status.Done? then issue.completedAt
    else if issue.status.Cancelled? then issue.cancelledAt
    else if issue.status.Blocked? then issue.blockedTransitionAt
    else None
  }

  /** Where the board dates an end, two looks share a key exactly when they are of the same end of the same ticket. */
  lemma KeysTellEndsApart(a: Issue, b: Issue, n1: Time, n2: Time)
    requires EndedAt(a).Some? && EndedAt(b).Some?
    ensures Key(a, n1) == Key(b, n2) <==> a.id == b.id && a.status == b.status && EndedAt(a) == EndedAt(b)
  {
  }

  /** Where it does not, a blocked ticket is announced again exactly when it was updated since the last look. */
  lemma UndatedBlocksRepeatOnUpdates(b: Board, first: Issue, again: Issue, n1: Time, n2: Time)
    requires first.id == again.id && first.status.Blocked? && again.status.Blocked?
    requires first.blockedTransitionAt.None? && again.blockedTransitionAt.None?
    ensures Reportable(Lookup(Observe(b, first, n1).seen, again.id), again, b.watermark)
            <==> again.updatedAt != first.updatedAt
  {
    ObserveIs(b, first, n1);
  }

  /******* The specification: what a history of observations ought to report *******/

  datatype Obs = Obs(issue: Issue, now: Time)

  /** A terminal transition, a blocked row stamped anew, or a terminal first sighting after the watermark. */
  predicate Reportable(previous: Option<Seen>, issue: Issue, watermark: Option<Time>) {
    && !issue.status.Other?
    && match previous
       case None =>
         var first := OrElse(issue.createdAt, issue.updatedAt);
         watermark.Some? && first.Some? && first.value > watermark.value
       case Some(p) =>
         p.status != issue.status || (issue.status.Blocked? && p.terminalTs != TerminalTs(issue))
  }

  /** The observation of id before h ends; the board's initial memory if h has none. */
  function LastSeen(b: Board, h: seq<Obs>, id: string): Option<Seen> {
    if h == [] then Lookup(b.seen, id)
    else if h[|h| - 1].issue.id == id then Some(SeenOf(h[|h| - 1].issue))
    else LastSeen(b, h[..|h| - 1], id)
  }

  predicate ReportableAt(b: Board, h: seq<Obs>, k: nat)
    requires k < |h|
  {
    Reportable(LastSeen(b, h[..k], h[k].issue.id), h[k].issue, b.watermark)
  }

  function Reports(b: Board, h: seq<Obs>): set<EventId> {
    set k | 0 <= k < |h| && ReportableAt(b, h, k) :: Key(h[k].issue, h[k].now)
  }

  function Fold(b: Board, h: seq<Obs>): Board {
    if h == [] then b else Observe(Fold(b, h[..|h| - 1]), h[|h| - 1].issue, h[|h| - 1].now)
  }

  lemma ObserveIs(b: Board, issue: Issue, now: Time)
    ensures Observe(b, issue, now)
            == b.(known := if Reportable(Lookup(b.seen, issue.id), issue, b.watermark) then b.known + {Key(issue, now)}
                           else b.known,
                  seen := b.seen[issue.id := SeenOf(issue)])
  {
    ExecPair(b, Enqueue(Key(issue, now)), Upsert(issue));
  }

  lemma RecoverIs(b: Board, issue: Issue, now: Time, watermark: Option<Time>)
    ensures Recover(b, issue, now, watermark)
            == b.(known := if !issue.status.Other? && IsFresh(issue, watermark) then b.known + {Key(issue, now)}
                           else b.known,
                  seen := b.seen[issue.id := SeenOf(issue)])
  {
    ExecPair(b, Enqueue(Key(issue, now)), Upsert(issue));
  }

  lemma ReportsExtend(b: Board, front: seq<Obs>, o: Obs)
    ensures Reports(b, front + [o])
            == Reports(b, front)
               + if Reportable(LastSeen(b, front, o.issue.id), o.issue, b.watermark) then {Key(o.issue, o.now)} else {}
  {
    var h := front + [o];
    assert h[..|front|] == front;
    forall k | 0 <= k < |front| ensures ReportableAt(b, h, k) == ReportableAt(b, front, k) {
      assert h[..k] == front[..k];
    }
    forall id | id in Reports(b, front) ensures id in Reports(b, h) {
      var k :| 0 <= k < |front| && ReportableAt(b, front, k) && Key(front[k].issue, front[k].now) == id;
      assert ReportableAt(b, h, k) && h[k] == front[k];
    }
    if Reportable(LastSeen(b, front, o.issue.id), o.issue, b.watermark) {
      assert ReportableAt(b, h, |front|);
    }
  }

  /**
   Streaming detection refines its specification, for every history: the events are exactly the
   reportable observations, and the remembered state of an issue is its last observation.
   */
  lemma {:induction false} StreamRefinesHistory(b: Board, h: seq<Obs>)
    ensures Fold(b, h).known == b.known + Reports(b, h)
    ensures forall id :: Lookup(Fold(b, h).seen, id) == LastSeen(b, h, id)
    ensures Fold(b, h).watermark == b.watermark && Fold(b, h).cursor == b.cursor
  {
    if h != [] {
      var front, o := h[..|h| - 1], h[|h| - 1];
      StreamRefinesHistory(b, front);
      ObserveIs(Fold(b, front), o.issue, o.now);
      ReportsExtend(b, front, o);
      assert h == front + [o];
    }
  }

  function Only(h: seq<Obs>, id: string): seq<Obs> {
    if h == [] then []
    else Only(h[..|h| - 1], id) + if h[|h| - 1].issue.id == id then [h[|h| - 1]] else []
  }

  /** Issues do not affect each other: what is known of one depends on its own observations alone. */
  lemma {:induction false} IssuesAreIndependent(b: Board, h: seq<Obs>, id: string)
    ensures Lookup(Fold(b, h).seen, id) == Lookup(Fold(b, Only(h, id)).seen, id)
    ensures forall k: EventId :: k.IssueKey? && k.issue == id ==>
              (k in Fold(b, h).known <==> k in Fold(b, Only(h, id)).known)
  {
    if h != [] {
      var front, o := h[..|h| - 1], h[|h| - 1];
      IssuesAreIndependent(b, front, id);
      StreamRefinesHistory(b, front);
      StreamRefinesHistory(b, Only(front, id));
      ObserveIs(Fold(b, front), o.issue, o.now);
      if o.issue.id == id {
        assert Only(h, id)[..|Only(h, id)| - 1] == Only(front, id);
        ObserveIs(Fold(b, Only(front, id)), o.issue, o.now);
      } else {
        assert Only(h, id) == Only(front, id);
      }
    }
  }

  /******* One tick over a snapshot *******/

  /** The board serves each issue once, oldest update first. */
  ghost predicate IsSnapshot(rows: seq<Issue>) {
    && (forall k :: 0 <= k < |rows| ==> rows[k].updatedAt.Some?)
    && (forall j, k :: 0 <= j < k < |rows| ==>
         rows[j].id != rows[k].id && rows[j].updatedAt.value <= rows[k].updatedAt.value)
  }

  function UpdatedSince(rows: seq<Issue>, since: Time): seq<Issue> {
    if rows == [] then []
    else
      (if rows[0].updatedAt.Some? && rows[0].updatedAt.value >= since then [rows[0]] else [])
      + UpdatedSince(rows[1..], since)
  }

  /** The server's page: empty when the offset is past the end. */
  function Page(rows: seq<Issue>, limit: nat, offset: nat): seq<Issue> {
    if offset >= |rows| then [] else rows[offset..Min(offset + limit, |rows|)]
  }

  /** The rows that the page loop reaches. */
  function Reached(window: seq<Issue>): seq<Issue> {
    window[..Min(MAX_PAGES * PAGE_SIZE, |window|)]
  }

  function Latest(start: Time, rows: seq<Issue>): Time {
    if rows == [] then start
    else
      var rest := Latest(start, rows[..|rows| - 1]);
      var stamp := rows[|rows| - 1].updatedAt;
      if stamp.Some? && stamp.value > rest then stamp.value else rest
  }

  function ObserveAll(b: Board, rows: seq<Issue>, now: Time): seq<Write> {
    if rows == [] then []
    else
      var before := ObserveAll(b, rows[..|rows| - 1], now);
      before + ObserveWrites(Exec(b, before), rows[|rows| - 1], now)
  }

  function StartOf(b: Board, now: Time): Time {
    if b.cursor.Some? then b.cursor.value else now
  }

  function WindowOf(b: Board, snapshot: seq<Issue>, now: Time): seq<Issue> {
    UpdatedSince(snapshot, StartOf(b, now) - POLL_OVERLAP)
  }

  function TickScript(b: Board, snapshot: seq<Issue>, now: Time): seq<Write> {
    var start, rows := StartOf(b, now), Reached(WindowOf(b, snapshot, now));
    ObserveAll(b, rows, now) + if Latest(start, rows) != start then [SetCursor(Latest(start, rows))] else []
  }

  function Tick(b: Board, snapshot: seq<Issue>, now: Time): Board {
    Exec(b, TickScript(b, snapshot, now))
  }

  function AsHistory(rows: seq<Issue>, now: Time): seq<Obs> {
    seq(|rows|, i requires 0 <= i < |rows| => Obs(rows[i], now))
  }

  lemma {:induction false} ObserveAllIsFold(b: Board, rows: seq<Issue>, now: Time)
    ensures Exec(b, ObserveAll(b, rows, now)) == Fold(b, AsHistory(rows, now))
  {
    hide ObserveWrites, Apply;
    if rows != [] {
      var front := rows[..|rows| - 1];
      ObserveAllIsFold(b, front, now);
      var before := ObserveAll(b, front, now);
      ExecConcat(b, before, ObserveWrites(Exec(b, before), rows[|rows| - 1], now));
      assert AsHistory(rows, now)[..|rows| - 1] == AsHistory(front, now);
    }
  }

  lemma {:induction false} ObserveAllConcat(b: Board, xs: seq<Issue>, ys: seq<Issue>, now: Time)
    ensures ObserveAll(b, xs + ys, now) == ObserveAll(b, xs, now) + ObserveAll(Exec(b, ObserveAll(b, xs, now)), ys, now)
    decreases |ys|
  {
    hide ObserveWrites, Apply, Exec;
    var done := ObserveAll(b, xs, now);
    if ys == [] {
      assert xs + ys == xs;
    } else {
      var front, r := ys[..|ys| - 1], ys[|ys| - 1];
      assert (xs + ys)[..|xs + ys| - 1] == xs + front;
      ObserveAllConcat(b, xs, front, now);
      ExecConcat(b, done, ObserveAll(Exec(b, done), front, now));
    }
  }

  lemma {:induction false} UpdatedSinceMembers(rows: seq<Issue>, since: Time, r: Issue)
    ensures r in UpdatedSince(rows, since) <==> r in rows && r.updatedAt.Some? && r.updatedAt.value >= since
  {
    if rows != [] {
      UpdatedSinceMembers(rows[1..], since, r);
      assert rows == [rows[0]] + rows[1..];
    }
  }

  lemma SnapshotPrepends(rows: seq<Issue>, rest: seq<Issue>)
    requires rows != [] && IsSnapshot(rows) && IsSnapshot(rest) && forall r :: r in rest ==> r in rows[1..]
    ensures IsSnapshot([rows[0]] + rest)
  {
    forall k | 0 <= k < |rest| ensures rest[k].id != rows[0].id && rows[0].updatedAt.value <= rest[k].updatedAt.value {
      assert rest[k] in rows[1..];
    }
  }

  lemma {:induction false} UpdatedSinceFacts(rows: seq<Issue>, since: Time)
    requires IsSnapshot(rows)
    ensures IsSnapshot(UpdatedSince(rows, since))
    ensures forall r :: r in UpdatedSince(rows, since) <==> r in rows && r.updatedAt.Some? && r.updatedAt.value >= since
  {
    forall r { UpdatedSinceMembers(rows, since, r); }
    if rows != [] {
      var rest := UpdatedSince(rows[1..], since);
      SnapshotTail(rows);
      hide IsSnapshot;
      UpdatedSinceFacts(rows[1..], since);
      SnapshotPrepends(rows, rest);
      assert UpdatedSince(rows, since) == rest || UpdatedSince(rows, since) == [rows[0]] + rest;
    }
  }

  lemma SnapshotTail(rows: seq<Issue>)
    requires rows != [] && IsSnapshot(rows)
    ensures IsSnapshot(rows[1..])
  {
  }

  lemma {:induction false} LatestFacts(start: Time, rows: seq<Issue>)
    ensures Latest(start, rows) >= start
    ensures forall r :: r in rows && r.updatedAt.Some? ==> r.updatedAt.value <= Latest(start, rows)
    ensures Latest(start, rows) == start || exists r :: r in rows && r.updatedAt == Some(Latest(start, rows))
  {
    if rows != [] {
      LatestFacts(start, rows[..|rows| - 1]);
      assert rows == rows[..|rows| - 1] + [rows[|rows| - 1]];
    }
  }

  /** The whole effect of a tick, in one piece. */
  lemma TickIs(b: Board, snapshot: seq<Issue>, now: Time)
    requires b.cursor.Some?
    ensures var rows := Reached(WindowOf(b, snapshot, now));
            Tick(b, snapshot, now) == Fold(b, AsHistory(rows, now)).(cursor := Some(Latest(b.cursor.value, rows)))
  {
    var rows := Reached(WindowOf(b, snapshot, now));
    var writes := ObserveAll(b, rows, now);
    ObserveAllIsFold(b, rows, now);
    StreamRefinesHistory(b, AsHistory(rows, now));
    var latest := Latest(b.cursor.value, rows);
    if latest != b.cursor.value {
      ExecConcat(b, writes, [SetCursor(latest)]);
      ExecPair(Exec(b, writes), SetCursor(latest), SetCursor(latest));
    } else {
      assert writes + [] == writes;
    }
  }

  lemma WindowIsSnapshot(b: Board, snapshot: seq<Issue>, now: Time)
    requires IsSnapshot(snapshot)
    ensures IsSnapshot(Reached(WindowOf(b, snapshot, now)))
  {
    UpdatedSinceFacts(snapshot, StartOf(b, now) - POLL_OVERLAP);
  }

  /** The cursor never moves back, and ends at the newest stamp it had or met. */
  lemma CursorAdvances(b: Board, snapshot: seq<Issue>, now: Time)
    requires IsSnapshot(snapshot) && b.cursor.Some?
    ensures var rows, b' := Reached(WindowOf(b, snapshot, now)), Tick(b, snapshot, now);
            && b'.cursor.Some?
            && b'.cursor.value >= b.cursor.value
            && (forall r :: r in rows ==> r.updatedAt.Some? && r.updatedAt.value <= b'.cursor.value)
            && (b'.cursor == b.cursor || exists r :: r in rows && r.updatedAt == b'.cursor)
  {
    var rows := Reached(WindowOf(b, snapshot, now));
    WindowIsSnapshot(b, snapshot, now);
    RowsAreStamped(rows);
    hide *;
    TickIs(b, snapshot, now);
    LatestFacts(b.cursor.value, rows);
  }

  lemma RowsAreStamped(rows: seq<Issue>)
    requires IsSnapshot(rows)
    ensures forall r :: r in rows ==> r.updatedAt.Some?
  {
  }

  /******* Replay *******/

  predicate NewsIn(b: Board, r: Issue) {
    Reportable(Lookup(b.seen, r.id), r, b.watermark)
  }

  function News(b: Board, rows: seq<Issue>, now: Time): set<EventId> {
    set r | r in rows && NewsIn(b, r) :: Key(r, now)
  }

  lemma NewsExtend(b: Board, front: seq<Issue>, r: Issue, now: Time)
    ensures News(b, front + [r], now) == News(b, front, now) + if NewsIn(b, r) then {Key(r, now)} else {}
  {
    var rows := front + [r];
    forall id | id in News(b, rows, now)
      ensures id in News(b, front, now) || (NewsIn(b, r) && id == Key(r, now))
    {
      var x :| x in rows && NewsIn(b, x) && Key(x, now) == id;
      assert x in front || x == r;
    }
    forall id | id in News(b, front, now) ensures id in News(b, rows, now) {
      var x :| x in front && NewsIn(b, x) && Key(x, now) == id;
      assert x in rows;
    }
    assert r in rows;
  }

  ghost predicate Absent(rows: seq<Issue>, id: string) {
    forall r :: r in rows ==> r.id != id
  }

  /** The board after a snapshot's rows, in closed form. */
  ghost predicate IsAfter(b: Board, rows: seq<Issue>, now: Time, b': Board) {
    && b'.known == b.known + News(b, rows, now)
    && (forall r :: r in rows ==> Lookup(b'.seen, r.id) == Some(SeenOf(r)))
    && (forall id :: Absent(rows, id) ==> Lookup(b'.seen, id) == Lookup(b.seen, id))
    && b'.cursor == b.cursor && b'.watermark == b.watermark
  }

  lemma AfterOneMore(b: Board, front: seq<Issue>, r: Issue, now: Time, mid: Board)
    requires IsAfter(b, front, now, mid) && Absent(front, r.id)
    ensures IsAfter(b, front + [r], now, Observe(mid, r, now))
  {
    var rows, b' := front + [r], Observe(mid, r, now);
    ObserveIs(mid, r, now);
    assert b'.known == b.known + News(b, rows, now) by {
      NewsExtend(b, front, r, now);
    }
    forall x | x in rows ensures Lookup(b'.seen, x.id) == Some(SeenOf(x)) {
      assert x in front || x == r;
    }
    forall id | Absent(rows, id) ensures Lookup(b'.seen, id) == Lookup(b.seen, id) {
      assert r in rows;
      forall x | x in front ensures x.id != id { assert x in rows; }
      assert Absent(front, id);
    }
  }

  lemma FoldOneMore(b: Board, front: seq<Issue>, r: Issue, now: Time)
    ensures Fold(b, AsHistory(front + [r], now)) == Observe(Fold(b, AsHistory(front, now)), r, now)
  {
    var h := AsHistory(front + [r], now);
    assert h[..|h| - 1] == AsHistory(front, now);
  }

  lemma SnapshotFront(front: seq<Issue>, r: Issue)
    requires IsSnapshot(front + [r])
    ensures IsSnapshot(front) && Absent(front, r.id)
  {
    var rows := front + [r];
    forall k | 0 <= k < |front| ensures front[k].updatedAt.Some? && front[k].id != r.id {
      assert rows[k] == front[k] && rows[|front|] == r;
    }
    forall j, k | 0 <= j < k < |front|
      ensures front[j].id != front[k].id && front[j].updatedAt.value <= front[k].updatedAt.value {
      assert rows[j] == front[j] && rows[k] == front[k];
    }
  }

  lemma NothingAfterNoRows(b: Board, now: Time)
    ensures IsAfter(b, [], now, Fold(b, AsHistory([], now)))
  {
    assert News(b, [], now) == {};
    assert Fold(b, AsHistory([], now)) == b;
  }

  lemma {:induction false} FoldOfSnapshot(b: Board, rows: seq<Issue>, now: Time)
    requires IsSnapshot(rows)
    ensures IsAfter(b, rows, now, Fold(b, AsHistory(rows, now)))
  {
    if rows == [] {
      NothingAfterNoRows(b, now);
    } else {
      var front, r := rows[..|rows| - 1], rows[|rows| - 1];
      assert rows == front + [r];
      SnapshotFront(front, r);
      FoldOfSnapshot(b, front, now);
      var mid := Fold(b, AsHistory(front, now));
      AfterOneMore(b, front, r, now, mid);
      FoldOneMore(b, front, r, now);
    }
  }

  lemma SameBoard(b: Board, rows: seq<Issue>, n1: Time, n2: Time, x: Board, y: Board)
    requires IsSnapshot(rows) && IsAfter(b, rows, n1, x) && IsAfter(b, rows, n2, y)
    ensures x == y
  {
    KeysIgnoreTheClock(b, rows, n1, n2);
    hide News, Key, SeenOf, IsSnapshot;
    forall id ensures Lookup(x.seen, id) == Lookup(y.seen, id) {
      if !Absent(rows, id) {
        var r :| r in rows && r.id == id;
      }
    }
    SameMap(x.seen, y.seen);
  }

  /**
   b1 is b after some of the work on rows: a row is either as it was or done, a row done had its
   news enqueued first, and nothing else was touched.
   */
  ghost predicate Partial(b: Board, rows: seq<Issue>, b1: Board) {
    && b.known <= b1.known <= b.known + News(b, rows, 0)
    && (forall r :: r in rows ==>
          || Lookup(b1.seen, r.id) == Lookup(b.seen, r.id)
          || (Lookup(b1.seen, r.id) == Some(SeenOf(r)) && (NewsIn(b, r) ==> Key(r, 0) in b1.known)))
    && (forall id :: Absent(rows, id) ==> Lookup(b1.seen, id) == Lookup(b.seen, id))
    && b1.cursor == b.cursor && b1.watermark == b.watermark
  }

  /** The key of a row that carries a stamp does not depend on when it is observed. */
  lemma KeysIgnoreTheClock(b: Board, rows: seq<Issue>, n1: Time, n2: Time)
    requires IsSnapshot(rows)
    ensures forall r :: r in rows ==> Key(r, n1) == Key(r, n2)
    ensures News(b, rows, n1) == News(b, rows, n2)
  {
    assert forall r :: r in rows ==> Key(r, n1) == Key(r, n2);
  }

  lemma SeenIsNoNews(b: Board, r: Issue)
    requires Lookup(b.seen, r.id) == Some(SeenOf(r))
    ensures !NewsIn(b, r)
  {
  }

  lemma DoneIsPartial(b: Board, rows: seq<Issue>, now: Time, b1: Board)
    requires IsSnapshot(rows) && IsAfter(b, rows, now, b1)
    ensures Partial(b, rows, b1)
  {
    KeysIgnoreTheClock(b, rows, now, 0);
    forall r | r in rows && NewsIn(b, r) ensures Key(r, 0) in b1.known {
      assert Key(r, 0) in News(b, rows, 0);
    }
  }

  lemma PartialExtends(b: Board, front: seq<Issue>, r: Issue, b1: Board)
    requires Partial(b, front, b1) && Absent(front, r.id)
    ensures Partial(b, front + [r], b1)
  {
    NewsExtend(b, front, r, 0);
    forall id | Absent(front + [r], id) ensures Absent(front, id) {
      forall x | x in front ensures x.id != id { assert x in front + [r]; }
    }
    forall x | x in front + [r] ensures x in front || x == r {}
  }

  lemma HalfIsPartial(b: Board, front: seq<Issue>, r: Issue, now: Time, mid: Board)
    requires IsSnapshot(front + [r]) && IsSnapshot(front) && Absent(front, r.id)
    requires IsAfter(b, front, now, mid) && NewsIn(b, r)
    ensures Partial(b, front + [r], mid.(known := mid.known + {Key(r, now)}))
  {
    DoneIsPartial(b, front, now, mid);
    PartialExtends(b, front, r, mid);
    NewsExtend(b, front, r, 0);
    assert r in front + [r];
    KeysIgnoreTheClock(b, front + [r], now, 0);
  }

  /** Wherever the work on a snapshot is cut, even between an enqueue and its upsert, it is partial in that sense. */
  lemma {:induction false} CutIsPartial(b: Board, rows: seq<Issue>, now: Time, k: nat)
    requires IsSnapshot(rows) && k <= |ObserveAll(b, rows, now)|
    ensures Partial(b, rows, Exec(b, ObserveAll(b, rows, now)[..k]))
  {
    var all := ObserveAll(b, rows, now);
    if rows == [] {
      assert News(b, [], 0) == {};
    } else {
      var front, r := rows[..|rows| - 1], rows[|rows| - 1];
      assert rows == front + [r];
      SnapshotFront(front, r);
      var before := ObserveAll(b, front, now);
      if k <= |before| {
        assert all[..k] == before[..k];
        CutIsPartial(b, front, now, k);
        PartialExtends(b, front, r, Exec(b, all[..k]));
      } else if k == |all| {
        assert all[..k] == all;
        ObserveAllIsFold(b, rows, now);
        FoldOfSnapshot(b, rows, now);
        DoneIsPartial(b, rows, now, Exec(b, all));
      } else {
        CutInsideLastRow(b, front, r, now, k);
      }
    }
  }

  lemma ObserveAllExtends(b: Board, front: seq<Issue>, r: Issue, now: Time)
    ensures var before := ObserveAll(b, front, now);
            ObserveAll(b, front + [r], now) == before + ObserveWrites(Exec(b, before), r, now)
  {
    assert (front + [r])[..|front|] == front;
  }

  lemma FirstOfTwoWrites(b: Board, r: Issue, now: Time)
    requires |ObserveWrites(b, r, now)| == 2
    ensures ObserveWrites(b, r, now)[..1] == [Enqueue(Key(r, now))] && NewsIn(b, r)
    ensures Exec(b, [Enqueue(Key(r, now))]) == b.(known := b.known + {Key(r, now)})
  {
    ExecPair(b, Enqueue(Key(r, now)), Enqueue(Key(r, now)));
  }

  lemma CutInsideLastRow(b: Board, front: seq<Issue>, r: Issue, now: Time, k: nat)
    requires IsSnapshot(front + [r]) && IsSnapshot(front) && Absent(front, r.id)
    requires |ObserveAll(b, front, now)| < k < |ObserveAll(b, front + [r], now)|
    ensures Partial(b, front + [r], Exec(b, ObserveAll(b, front + [r], now)[..k]))
  {
    var before := ObserveAll(b, front, now);
    var mid := Exec(b, before);
    ObserveAllExtends(b, front, r, now);
    FirstOfTwoWrites(mid, r, now);
    ExecConcat(b, before, [Enqueue(Key(r, now))]);
    assert ObserveAll(b, front + [r], now)[..k] == before + [Enqueue(Key(r, now))];
    ObserveAllIsFold(b, front, now);
    FoldOfSnapshot(b, front, now);
    HalfIsPartial(b, front, r, now, mid);
  }

  lemma PartialThenDone(b: Board, rows: seq<Issue>, b1: Board, now: Time, x: Board)
    requires IsSnapshot(rows) && Partial(b, rows, b1) && IsAfter(b1, rows, now, x)
    ensures IsAfter(b, rows, now, x)
  {
    KeysIgnoreTheClock(b, rows, now, 0);
    KeysIgnoreTheClock(b1, rows, now, 0);
    forall r | r in rows && NewsIn(b1, r) ensures NewsIn(b, r) {
      if Lookup(b1.seen, r.id) == Some(SeenOf(r)) { SeenIsNoNews(b1, r); }
    }
    assert News(b1, rows, 0) <= News(b, rows, 0);
    forall id | id in News(b, rows, 0) ensures id in b1.known + News(b1, rows, 0) {
      var r :| r in rows && NewsIn(b, r) && Key(r, 0) == id;
      if Lookup(b1.seen, r.id) == Lookup(b.seen, r.id) { assert NewsIn(b1, r); }
    }
  }

  lemma PartialTransitive(b: Board, rows: seq<Issue>, b1: Board, b2: Board)
    requires IsSnapshot(rows) && Partial(b, rows, b1) && Partial(b1, rows, b2)
    ensures Partial(b, rows, b2)
  {
    forall r | r in rows && NewsIn(b1, r) ensures NewsIn(b, r) {
      if Lookup(b1.seen, r.id) == Some(SeenOf(r)) { SeenIsNoNews(b1, r); }
    }
    assert News(b1, rows, 0) <= News(b, rows, 0);
  }

  datatype CrashPoint = CrashPoint(at: nat, now: Time)

  /** The board after ticks over one snapshot that each died before their cursor write. */
  function Crashed(b: Board, snapshot: seq<Issue>, crashes: seq<CrashPoint>): Board {
    if crashes == [] then b
    else
      var b1, c := Crashed(b, snapshot, crashes[..|crashes| - 1]), crashes[|crashes| - 1];
      var writes := ObserveAll(b1, Reached(WindowOf(b1, snapshot, c.now)), c.now);
      Exec(b1, writes[..Min(c.at, |writes|)])
  }

  lemma ReachedIsSnapshot(snapshot: seq<Issue>, since: Time)
    requires IsSnapshot(snapshot)
    ensures IsSnapshot(Reached(UpdatedSince(snapshot, since)))
  {
    UpdatedSinceFacts(snapshot, since);
  }

  lemma {:induction false} CrashedIsPartial(b: Board, snapshot: seq<Issue>, crashes: seq<CrashPoint>)
    requires IsSnapshot(snapshot) && b.cursor.Some?
    ensures Partial(b, Reached(WindowOf(b, snapshot, 0)), Crashed(b, snapshot, crashes))
  {
    hide ObserveAll, Apply, News;
    var rows := Reached(WindowOf(b, snapshot, 0));
    ReachedIsSnapshot(snapshot, b.cursor.value - POLL_OVERLAP);
    if crashes != [] {
      var b1, c := Crashed(b, snapshot, crashes[..|crashes| - 1]), crashes[|crashes| - 1];
      CrashedIsPartial(b, snapshot, crashes[..|crashes| - 1]);
      var writes := ObserveAll(b1, rows, c.now);
      CutIsPartial(b1, rows, c.now, Min(c.at, |writes|));
      PartialTransitive(b, rows, b1, Crashed(b, snapshot, crashes));
    }
  }

  lemma RedoneIsDone(b: Board, rows: seq<Issue>, b1: Board, now: Time, calm: Time)
    requires IsSnapshot(rows) && Partial(b, rows, b1)
    ensures Fold(b1, AsHistory(rows, now)) == Fold(b, AsHistory(rows, calm))
  {
    var x, y := Fold(b1, AsHistory(rows, now)), Fold(b, AsHistory(rows, calm));
    FoldOfSnapshot(b1, rows, now);
    FoldOfSnapshot(b, rows, calm);
    PartialThenDone(b, rows, b1, now, x);
    SameBoard(b, rows, now, calm, x, y);
  }

  lemma PartialKeepsCursor(b: Board, rows: seq<Issue>, b1: Board)
    requires Partial(b, rows, b1)
    ensures b1.cursor == b.cursor
  {
  }

  lemma SameWindow(b: Board, b1: Board, snapshot: seq<Issue>, n1: Time, n2: Time)
    requires b.cursor.Some? && b1.cursor == b.cursor
    ensures WindowOf(b1, snapshot, n2) == WindowOf(b, snapshot, n1)
  {
  }

  /**
   Replay safety: however many times a tick over a snapshot dies, and wherever it dies, one
   tick that completes leaves the same events, remembered states and cursor as if none had died.
   */
  lemma CrashedTicksReplay(b: Board, snapshot: seq<Issue>, crashes: seq<CrashPoint>, now: Time, calm: Time)
    requires IsSnapshot(snapshot) && b.cursor.Some?
    ensures Tick(Crashed(b, snapshot, crashes), snapshot, now) == Tick(b, snapshot, calm)
  {
    hide *;
    var b1, rows := Crashed(b, snapshot, crashes), Reached(WindowOf(b, snapshot, 0));
    CrashedIsPartial(b, snapshot, crashes);
    PartialKeepsCursor(b, rows, b1);
    WindowIsSnapshot(b, snapshot, 0);
    SameWindow(b, b1, snapshot, 0, now);
    SameWindow(b, b, snapshot, 0, calm);
    RedoneIsDone(b, rows, b1, now, calm);
    TickIs(b1, snapshot, now);
    TickIs(b, snapshot, calm);
  }

  /** Re-reading rows whose last observation is remembered changes nothing. */
  lemma RereadAddsNothing(b: Board, rows: seq<Issue>, now: Time)
    requires IsSnapshot(rows)
    requires forall r :: r in rows ==> Lookup(b.seen, r.id) == Some(SeenOf(r))
    ensures Fold(b, AsHistory(rows, now)) == b
  {
    hide *;
    NothingNewInSeenRows(b, rows, now);
    FoldOfSnapshot(b, rows, now);
    SameBoard(b, rows, now, now, Fold(b, AsHistory(rows, now)), b);
  }

  lemma NothingNewInSeenRows(b: Board, rows: seq<Issue>, now: Time)
    requires forall r :: r in rows ==> Lookup(b.seen, r.id) == Some(SeenOf(r))
    ensures IsAfter(b, rows, now, b)
  {
    hide Key, Lookup;
    forall r | r in rows ensures !NewsIn(b, r) { SeenIsNoNews(b, r); }
    assert News(b, rows, now) == {};
    assert b.known == b.known + News(b, rows, now);
  }

  lemma WindowsShrink(snapshot: seq<Issue>, early: Time, late: Time)
    requires IsSnapshot(snapshot) && early <= late
    ensures forall r :: r in UpdatedSince(snapshot, late) ==> r in UpdatedSince(snapshot, early)
  {
    UpdatedSinceFacts(snapshot, early);
    UpdatedSinceFacts(snapshot, late);
  }

  lemma CaughtUp(b: Board, snapshot: seq<Issue>, now: Time)
    requires IsSnapshot(snapshot) && b.cursor.Some?
    requires forall r :: r in Reached(WindowOf(b, snapshot, now)) ==>
               Lookup(b.seen, r.id) == Some(SeenOf(r)) && r.updatedAt.Some? && r.updatedAt.value <= b.cursor.value
    ensures Tick(b, snapshot, now) == b
  {
    hide *;
    var rows := Reached(WindowOf(b, snapshot, now));
    WindowIsSnapshot(b, snapshot, now);
    TickIs(b, snapshot, now);
    RereadAddsNothing(b, rows, now);
    LatestFacts(b.cursor.value, rows);
  }

  lemma TickSees(b: Board, snapshot: seq<Issue>, now: Time)
    requires IsSnapshot(snapshot) && b.cursor.Some?
    ensures forall r :: r in Reached(WindowOf(b, snapshot, now)) ==>
              Lookup(Tick(b, snapshot, now).seen, r.id) == Some(SeenOf(r))
  {
    hide *;
    var rows := Reached(WindowOf(b, snapshot, now));
    WindowIsSnapshot(b, snapshot, now);
    TickIs(b, snapshot, now);
    FoldOfSnapshot(b, rows, now);
    AfterSees(b, rows, now, Fold(b, AsHistory(rows, now)));
  }

  lemma AfterSees(b: Board, rows: seq<Issue>, now: Time, b': Board)
    requires IsAfter(b, rows, now, b')
    ensures forall r :: r in rows ==> Lookup(b'.seen, r.id) == Some(SeenOf(r))
  {
  }

  /** A second tick over an unchanged board re-reads the overlap and changes nothing. */
  lemma SecondTickIsIdle(b: Board, snapshot: seq<Issue>, n1: Time, n2: Time)
    requires IsSnapshot(snapshot) && b.cursor.Some? && |WindowOf(b, snapshot, n1)| <= MAX_PAGES * PAGE_SIZE
    ensures Tick(Tick(b, snapshot, n1), snapshot, n2) == Tick(b, snapshot, n1)
  {
    hide Tick, WindowOf, Reached, IsSnapshot, SeenOf, Lookup;
    var b1 := Tick(b, snapshot, n1);
    CursorAdvances(b, snapshot, n1);
    TickSees(b, snapshot, n1);
    LaterWindowsAreInside(b, b1, snapshot, n1, n2);
    CaughtUp(b1, snapshot, n2);
  }

  /** A window that fits the page loop holds what is reached from any later cursor. */
  lemma LaterWindowsAreInside(b: Board, b1: Board, snapshot: seq<Issue>, n1: Time, n2: Time)
    requires IsSnapshot(snapshot) && b.cursor.Some? && b1.cursor.Some? && b.cursor.value <= b1.cursor.value
    requires |WindowOf(b, snapshot, n1)| <= MAX_PAGES * PAGE_SIZE
    ensures forall r :: r in Reached(WindowOf(b1, snapshot, n2)) ==> r in Reached(WindowOf(b, snapshot, n1))
  {
    WindowsShrink(snapshot, b.cursor.value - POLL_OVERLAP, b1.cursor.value - POLL_OVERLAP);
    hide UpdatedSince, IsSnapshot;
    var rows := WindowOf(b, snapshot, n1);
    assert Reached(rows) == rows;
    forall r | r in Reached(WindowOf(b1, snapshot, n2)) ensures r in rows {
      assert r in WindowOf(b1, snapshot, n2);
    }
  }

  /******* Late rows *******/

  /** The board after one tick per snapshot; the i-th tick runs at nows[i]. */
  function RunTicks(b: Board, snapshots: seq<seq<Issue>>, nows: seq<Time>): Board
    requires |nows| == |snapshots|
  {
    if snapshots == [] then b
    else
      var last := |snapshots| - 1;
      Tick(RunTicks(b, snapshots[..last], nows[..last]), snapshots[last], nows[last])
  }

  /** The rows the j-th tick reaches. */
  function ReachedAt(b: Board, snapshots: seq<seq<Issue>>, nows: seq<Time>, j: nat): seq<Issue>
    requires |nows| == |snapshots| && j < |snapshots|
  {
    Reached(WindowOf(RunTicks(b, snapshots[..j], nows[..j]), snapshots[j], nows[j]))
  }

  /** Every stamp shown before the j-th tick, and the first cursor, are at most the overlap past at. */
  ghost predicate OnTime(b: Board, snapshots: seq<seq<Issue>>, j: nat, at: Time)
    requires j < |snapshots| && b.cursor.Some?
  {
    && b.cursor.value - POLL_OVERLAP <= at
    && forall i, r :: 0 <= i < j && r in snapshots[i] && r.updatedAt.Some? ==> r.updatedAt.value - POLL_OVERLAP <= at
  }

  lemma {:induction false} CursorTrailsTheBoard(b: Board, snapshots: seq<seq<Issue>>, nows: seq<Time>, j: nat, at: Time)
    requires |nows| == |snapshots| && j <= |snapshots| && b.cursor.Some?
    requires forall i :: 0 <= i < j ==> IsSnapshot(snapshots[i])
    requires b.cursor.value - POLL_OVERLAP <= at
    requires forall i, r :: 0 <= i < j && r in snapshots[i] && r.updatedAt.Some? ==>
              r.updatedAt.value - POLL_OVERLAP <= at
    ensures var c := RunTicks(b, snapshots[..j], nows[..j]).cursor; c.Some? && c.value - POLL_OVERLAP <= at
  {
    if j > 0 {
      var before := RunTicks(b, snapshots[..j - 1], nows[..j - 1]);
      CursorTrailsTheBoard(b, snapshots, nows, j - 1, at);
      assert snapshots[..j][..j - 1] == snapshots[..j - 1] && nows[..j][..j - 1] == nows[..j - 1];
      CursorStaysOnTime(before, snapshots[j - 1], nows[j - 1], at);
    }
  }

  lemma CursorStaysOnTime(b: Board, snapshot: seq<Issue>, now: Time, at: Time)
    requires IsSnapshot(snapshot) && b.cursor.Some? && b.cursor.value - POLL_OVERLAP <= at
    requires forall r :: r in snapshot && r.updatedAt.Some? ==> r.updatedAt.value - POLL_OVERLAP <= at
    ensures var c := Tick(b, snapshot, now).cursor; c.Some? && c.value - POLL_OVERLAP <= at
  {
    CursorAdvances(b, snapshot, now);
    forall r | r in Reached(WindowOf(b, snapshot, now)) ensures r in snapshot {
      UpdatedSinceMembers(snapshot, b.cursor.value - POLL_OVERLAP, r);
    }
  }

  /**
   No row version is lost: if a version becomes visible by the j-th tick no more than the overlap
   behind anything shown before, and the windows fit the page loop, that tick reaches it.
   */
  lemma LateRowsAreReached(b: Board, snapshots: seq<seq<Issue>>, nows: seq<Time>, j: nat, r: Issue)
    requires |nows| == |snapshots| && j < |snapshots| && b.cursor.Some?
    requires forall i {:trigger snapshots[i]} :: 0 <= i < j ==> IsSnapshot(snapshots[i])
    requires |WindowOf(RunTicks(b, snapshots[..j], nows[..j]), snapshots[j], nows[j])| <= MAX_PAGES * PAGE_SIZE
    requires r in snapshots[j] && r.updatedAt.Some? && OnTime(b, snapshots, j, r.updatedAt.value)
    ensures r in ReachedAt(b, snapshots, nows, j)
  {
    CursorTrailsTheBoard(b, snapshots, nows, j, r.updatedAt.value);
    RecentRowIsReached(RunTicks(b, snapshots[..j], nows[..j]), snapshots[j], nows[j], r);
  }

  lemma RecentRowIsReached(b: Board, snapshot: seq<Issue>, now: Time, r: Issue)
    requires b.cursor.Some? && r in snapshot && r.updatedAt.Some? && b.cursor.value - POLL_OVERLAP <= r.updatedAt.value
    requires |WindowOf(b, snapshot, now)| <= MAX_PAGES * PAGE_SIZE
    ensures r in Reached(WindowOf(b, snapshot, now))
  {
    UpdatedSinceMembers(snapshot, b.cursor.value - POLL_OVERLAP, r);
    assert Reached(WindowOf(b, snapshot, now)) == WindowOf(b, snapshot, now);
  }

  /**
   Past the page loop's reach the poller can stall: the cursor moves exactly when one of the first
   rows of the window is newer than it; otherwise every later tick reaches the same rows again.
   */
  lemma StallsExactlyWhenTheWindowIsStale(b: Board, snapshot: seq<Issue>, now: Time, later: Time)
    requires IsSnapshot(snapshot) && b.cursor.Some?
    ensures var rows := Reached(WindowOf(b, snapshot, now));
            && (Tick(b, snapshot, now).cursor == b.cursor <==>
                  forall r :: r in rows ==> r.updatedAt.Some? && r.updatedAt.value <= b.cursor.value)
            && (Tick(b, snapshot, now).cursor == b.cursor ==>
                  && Reached(WindowOf(Tick(b, snapshot, now), snapshot, later)) == rows
                  && Tick(Tick(b, snapshot, now), snapshot, later) == Tick(b, snapshot, now))
  {
    var b1, rows := Tick(b, snapshot, now), Reached(WindowOf(b, snapshot, now));
    CursorAdvances(b, snapshot, now);
    if b1.cursor == b.cursor {
      TickSees(b, snapshot, now);
      CaughtUp(b1, snapshot, later);
    }
  }

  /******* The first start *******/

  const OPEN_STATUSES: seq<Status> := [Other("backlog"), Other("todo"), Other("in_progress"), Other("in_review")]

  function WithStatus(issues: seq<Issue>, status: Status): seq<Issue> {
    if issues == [] then []
    else (if issues[0].status == status then [issues[0]] else []) + WithStatus(issues[1..], status)
  }

  function FirstPage(rows: seq<Issue>): seq<Issue> {
    rows[..Min(PAGE_SIZE, |rows|)]
  }

  /** The open tickets the first start sees: one page of each status. */
  function OpenListing(issues: seq<Issue>, statuses: seq<Status>): seq<Issue> {
    if statuses == [] then []
    else OpenListing(issues, statuses[..|statuses| - 1]) + FirstPage(WithStatus(issues, statuses[|statuses| - 1]))
  }

  function UpsertAll(rows: seq<Issue>): seq<Write> {
    if rows == [] then [] else UpsertAll(rows[..|rows| - 1]) + [Upsert(rows[|rows| - 1])]
  }

  /** One attempt at the first start: the open tickets it lists, and the clock as it is read twice. */
  datatype Start = Start(listing: seq<Issue>, cursorClock: Time, watermarkClock: Time)

  /** Nothing happens if there is a cursor already. */
  function BootstrapScript(b: Board, start: Start, lookback: Time): seq<Write> {
    if b.cursor.Some? then []
    else UpsertAll(start.listing) + [SetBaseline(start.cursorClock - lookback, start.watermarkClock)]
  }

  ghost predicate SameButSeen(b: Board, b': Board, rows: seq<Issue>) {
    && b'.known == b.known && b'.cursor == b.cursor && b'.watermark == b.watermark
    && forall id :: Absent(rows, id) ==> Lookup(b'.seen, id) == Lookup(b.seen, id)
  }

  lemma {:induction false} UpsertsAreRows(rows: seq<Issue>, k: nat)
    requires k <= |rows|
    ensures |UpsertAll(rows)| == |rows| && UpsertAll(rows)[..k] == UpsertAll(rows[..k])
  {
    if rows != [] {
      var front := rows[..|rows| - 1];
      UpsertsAreRows(front, Min(k, |front|));
      if k < |rows| { assert rows[..k] == front[..k]; } else { assert rows[..k] == rows; }
    }
  }

  lemma OneMoreUpsert(b: Board, mid: Board, front: seq<Issue>, r: Issue)
    requires SameButSeen(b, mid, front)
    ensures SameButSeen(b, Apply(mid, Upsert(r)), front + [r])
  {
    hide SeenOf;
    var rows := front + [r];
    forall id | Absent(rows, id) ensures Absent(front, id) && r.id != id {
      forall x | x in front ensures x.id != id { assert x in rows; }
      assert r in rows;
    }
  }

  lemma {:induction false} UpsertsOnlySee(b: Board, rows: seq<Issue>)
    ensures SameButSeen(b, Exec(b, UpsertAll(rows)), rows)
  {
    hide SameButSeen, Apply;
    if rows != [] {
      var front, r := rows[..|rows| - 1], rows[|rows| - 1];
      UpsertsOnlySee(b, front);
      ExecAppend(b, UpsertAll(front), Upsert(r));
      OneMoreUpsert(b, Exec(b, UpsertAll(front)), front, r);
      assert rows == front + [r];
    } else {
      NoUpserts(b);
    }
  }

  lemma NoUpserts(b: Board)
    ensures SameButSeen(b, Exec(b, UpsertAll([])), [])
  {
  }

  /** What is remembered of a listed issue after the listing was upserted does not depend on what was before. */
  lemma {:induction false} UpsertsDecide(b: Board, c: Board, rows: seq<Issue>, id: string)
    requires Lookup(b.seen, id) == Lookup(c.seen, id) || !Absent(rows, id)
    ensures Lookup(Exec(b, UpsertAll(rows)).seen, id) == Lookup(Exec(c, UpsertAll(rows)).seen, id)
  {
    if rows != [] {
      var front, r := rows[..|rows| - 1], rows[|rows| - 1];
      assert UpsertAll(rows)[..|UpsertAll(rows)| - 1] == UpsertAll(front);
      if r.id != id {
        if !Absent(rows, id) {
          var x :| x in rows && x.id == id;
          assert rows == front + [r] && x in front;
        }
        UpsertsDecide(b, c, front, id);
      }
    }
  }

  lemma BaselineOf(b: Board, start: Start, lookback: Time)
    requires b.cursor.None?
    ensures Exec(b, BootstrapScript(b, start, lookback))
            == Exec(b, UpsertAll(start.listing)).(
                 cursor := Some(start.cursorClock - lookback), watermark := Some(start.watermarkClock))
  {
    hide UpsertAll;
    ExecAppend(b, UpsertAll(start.listing), SetBaseline(start.cursorClock - lookback, start.watermarkClock));
  }

  lemma CutStart(b: Board, start: Start, lookback: Time, k: nat)
    requires b.cursor.None? && k <= |start.listing|
    ensures k < |BootstrapScript(b, start, lookback)|
    ensures var cut := Exec(b, BootstrapScript(b, start, lookback)[..k]); SameButSeen(b, cut, start.listing[..k])
  {
    UpsertsAreRows(start.listing, k);
    UpsertsAreRows(start.listing, |start.listing|);
    assert BootstrapScript(b, start, lookback)[..k] == UpsertAll(start.listing[..k]);
    UpsertsOnlySee(b, start.listing[..k]);
  }

  /** What a second attempt makes of a board where only the memory differs. */
  lemma StartAgain(b: Board, cut: Board, rows: seq<Issue>, again: Start, lookback: Time)
    requires b.cursor.None? && SameButSeen(b, cut, rows)
    ensures var redone, direct :=
              Exec(cut, BootstrapScript(cut, again, lookback)), Exec(b, BootstrapScript(b, again, lookback));
            && redone == direct.(seen := redone.seen)
            && (forall id :: Lookup(redone.seen, id)
                 == Lookup(if Absent(again.listing, id) then cut.seen else direct.seen, id))
            && ((forall id :: Absent(again.listing, id) ==> Absent(rows, id)) ==> redone == direct)
  {
    BaselineOf(b, again, lookback);
    BaselineOf(cut, again, lookback);
    UpsertsOnlySee(cut, again.listing);
    UpsertsOnlySee(b, again.listing);
    var x, y := Exec(cut, UpsertAll(again.listing)), Exec(b, UpsertAll(again.listing));
    forall id | !Absent(again.listing, id) ensures Lookup(x.seen, id) == Lookup(y.seen, id) {
      UpsertsDecide(cut, b, again.listing, id);
    }
    hide Exec, UpsertAll, Absent;
    if forall id :: Absent(again.listing, id) ==> Absent(rows, id) {
      SameMap(x.seen, y.seen);
    }
  }

  /**
   The first start survives any crash, whatever the board lists and the clock says the next time. Cut
   before its last write it leaves no cursor, so it is done again in full: all it has left behind is
   the memory of tickets that are no longer listed, and nothing at all if there are none. Once done it
   is never redone, and it announces nothing.
   */
  lemma BootstrapReplays(b: Board, first: Start, again: Start, lookback: Time, k: nat)
    requires b.cursor.None? && k <= |BootstrapScript(b, first, lookback)|
    ensures var cut := Exec(b, BootstrapScript(b, first, lookback)[..k]);
            && cut.known == b.known
            && (k == |BootstrapScript(b, first, lookback)| ==> BootstrapScript(cut, again, lookback) == [])
            && (k < |BootstrapScript(b, first, lookback)| ==>
                  && k <= |first.listing|
                  && var redone, direct :=
                     Exec(cut, BootstrapScript(cut, again, lookback)), Exec(b, BootstrapScript(b, again, lookback));
                  && redone == direct.(seen := redone.seen)
                  && (forall id :: Lookup(redone.seen, id)
                       == Lookup(if Absent(again.listing, id) then cut.seen else direct.seen, id))
                  && ((forall id :: Absent(again.listing, id) ==> Absent(first.listing[..k], id)) ==> redone == direct))
  {
    var all := BootstrapScript(b, first, lookback);
    UpsertsAreRows(first.listing, |first.listing|);
    if k < |all| {
      CutStart(b, first, lookback, k);
      hide Exec, BootstrapScript, Absent;
      StartAgain(b, Exec(b, all[..k]), first.listing[..k], again, lookback);
    } else {
      BaselineOf(b, first, lookback);
      UpsertsOnlySee(b, first.listing);
      assert all[..k] == all;
    }
  }

  lemma SameMap(m: map<string, Seen>, n: map<string, Seen>)
    requires forall id :: Lookup(m, id) == Lookup(n, id)
    ensures m == n
  {
    assert forall id :: id in m <==> Lookup(m, id).Some?;
    assert forall id :: id in n <==> Lookup(n, id).Some?;
    assert forall id :: id in m ==> Some(m[id]) == Lookup(m, id);
    assert forall id :: id in n ==> Some(n[id]) == Lookup(n, id);
  }

  /**
   The cutover is silent on history: after the first start, a terminal row that it did not list is
   news exactly if it is newer than the watermark.
   */
  lemma CutoverIsSilent(b: Board, start: Start, lookback: Time, r: Issue)
    requires b.cursor.None? && r.id !in b.seen && Absent(start.listing, r.id)
    ensures NewsIn(Exec(b, BootstrapScript(b, start, lookback)), r)
            <==> !r.status.Other? && var first := OrElse(r.createdAt, r.updatedAt);
                 first.Some? && first.value > start.watermarkClock
  {
    BaselineOf(b, start, lookback);
    UpsertsOnlySee(b, start.listing);
  }

  /******* Recovery *******/

  function RecoverAll(rows: seq<Issue>, now: Time, watermark: Option<Time>): seq<Write> {
    if rows == [] then []
    else RecoverAll(rows[..|rows| - 1], now, watermark) + RecoverWrites(rows[|rows| - 1], now, watermark)
  }

  /** Reconciliation and back-filling: the same loop, with and without the watermark. */
  function RecoverScript(snapshot: seq<Issue>, since: Time, now: Time, watermark: Option<Time>): seq<Write> {
    RecoverAll(Reached(UpdatedSince(snapshot, since)), now, watermark)
  }

  lemma {:induction false} RecoverAllConcat(xs: seq<Issue>, ys: seq<Issue>, now: Time, watermark: Option<Time>)
    ensures RecoverAll(xs + ys, now, watermark) == RecoverAll(xs, now, watermark) + RecoverAll(ys, now, watermark)
    decreases |ys|
  {
    if ys == [] {
      assert xs + ys == xs;
    } else {
      assert (xs + ys)[..|xs + ys| - 1] == xs + ys[..|ys| - 1];
      RecoverAllConcat(xs, ys[..|ys| - 1], now, watermark);
    }
  }

  lemma {:induction false} RecoverAllFacts(b: Board, rows: seq<Issue>, now: Time, watermark: Option<Time>)
    ensures var b' := Exec(b, RecoverAll(rows, now, watermark));
            && b.known <= b'.known
            && (forall r :: r in rows && !r.status.Other? && IsFresh(r, watermark) ==> Key(r, now) in b'.known)
            && (forall id :: id in b'.known && id !in b.known ==>
                  exists r :: r in rows && !r.status.Other? && IsFresh(r, watermark) && Key(r, now) == id)
            && b'.watermark == b.watermark && b'.cursor == b.cursor
  {
    hide RecoverWrites, Apply, IsFresh, Key;
    if rows != [] {
      var front, r := rows[..|rows| - 1], rows[|rows| - 1];
      var before := RecoverAll(front, now, watermark);
      RecoverAllFacts(b, front, now, watermark);
      ExecConcat(b, before, RecoverWrites(r, now, watermark));
      RecoverIs(Exec(b, before), r, now, watermark);
      assert rows == front + [r];
    }
  }

  /**
   Recovery is complete: after reconciling a window that fits the page loop, every row in it with
   a terminal status and a stamp after the watermark has its event, whatever was remembered.
   */
  lemma ReconcileIsComplete(b: Board, snapshot: seq<Issue>, since: Time, now: Time, r: Issue)
    requires IsSnapshot(snapshot) && |UpdatedSince(snapshot, since)| <= MAX_PAGES * PAGE_SIZE
    requires r in snapshot && r.updatedAt.Some? && r.updatedAt.value >= since
    requires !r.status.Other? && IsFresh(r, b.watermark)
    ensures Key(r, now) in Exec(b, RecoverScript(snapshot, since, now, b.watermark)).known
  {
    UpdatedSinceFacts(snapshot, since);
    assert Reached(UpdatedSince(snapshot, since)) == UpdatedSince(snapshot, since);
    RecoverAllFacts(b, UpdatedSince(snapshot, since), now, b.watermark);
  }

  /** A ticket completed again without being seen open in between is invisible to ticks and caught by recovery. */
  lemma RecompletionNeedsRecovery(b: Board, r: Issue, now: Time)
    requires r.status.Done? && r.id in b.seen && b.seen[r.id].status.Done?
    requires IsFresh(r, b.watermark) && Key(r, now) !in b.known
    ensures Observe(b, r, now).known == b.known
    ensures Recover(b, r, now, b.watermark).known == b.known + {Key(r, now)}
  {
    hide Observe, Recover, Key;
    EachMissesExactly(b, r, now);
  }

  /**
   What a tick and a recovery make of the same row: each adds at most its key, the tick misses what
   recovery finds exactly if it is fresh but no news, and recovery what the tick finds exactly if it is
   news but stale.
   */
  lemma EachMissesExactly(b: Board, r: Issue, now: Time)
    ensures var id, byTick, byRecovery := Key(r, now), Observe(b, r, now).known, Recover(b, r, now, b.watermark).known;
            && b.known <= byTick <= b.known + {id} && b.known <= byRecovery <= b.known + {id}
            && (id in byRecovery - byTick
                <==> !r.status.Other? && IsFresh(r, b.watermark) && !NewsIn(b, r) && id !in b.known)
            && (id in byTick - byRecovery <==> NewsIn(b, r) && !IsFresh(r, b.watermark) && id !in b.known)
  {
    ObserveIs(b, r, now);
    RecoverIs(b, r, now, b.watermark);
  }

  /**
   Ticks and reconciliation do not commute: a reconciliation that meets a row first silences the
   tick. They agree exactly when the row is no news, or is fresh, or its event is known already.
   */
  lemma ReconcileFirstLosesExactlyStaleNews(b: Board, r: Issue, now: Time)
    ensures Observe(Recover(b, r, now, b.watermark), r, now).known
            == Recover(Observe(b, r, now), r, now, b.watermark).known
            <==> !NewsIn(b, r) || IsFresh(r, b.watermark) || Key(r, now) in b.known
  {
    ObserveIs(b, r, now);
    RecoverIs(b, r, now, b.watermark);
    ObserveIs(Recover(b, r, now, b.watermark), r, now);
    RecoverIs(Observe(b, r, now), r, now, b.watermark);
  }

  const OPEN_TICKET: Issue := Issue("T-1", Other("in_progress"), None, None, None, Some(50), Some(10))
  const DONE_TICKET: Issue := Issue("T-1", Done, Some(90), None, None, Some(90), Some(10))
  const NOTHING: Board := Board({}, map[], None, None)

  /** A board right after its first start, which listed the ticket open and read its watermark at 100. */
  function StartedBoard(): Board {
    Exec(NOTHING, BootstrapScript(NOTHING, Start([OPEN_TICKET], 95, 100), 0))
  }

  /**
   Such a loss is reachable from the first start: a ticket that was listed open and ended before the
   watermark was read is announced by a tick, but never if a reconciliation meets it first.
   */
  lemma AnEndDuringTheFirstStartIsLost(now: Time)
    ensures var b := StartedBoard();
            && b.watermark == Some(100) && Lookup(b.seen, "T-1") == Some(SeenOf(OPEN_TICKET))
            && Recover(Observe(b, DONE_TICKET, now), DONE_TICKET, now, b.watermark).known == {IssueKey("T-1", Done, 90)}
            && Observe(Recover(b, DONE_TICKET, now, b.watermark), DONE_TICKET, now).known == {}
  {
    var b, listed := StartedBoard(), [OPEN_TICKET];
    BaselineOf(NOTHING, Start(listed, 95, 100), 0);
    assert UpsertAll(listed) == [Upsert(OPEN_TICKET)] by { assert listed[..0] == []; }
    ExecPair(NOTHING, Upsert(OPEN_TICKET), Upsert(OPEN_TICKET));
    assert b == Board({}, map["T-1" := SeenOf(OPEN_TICKET)], Some(95), Some(100));
    hide Exec, UpsertAll, StartedBoard, BootstrapScript;
    ObserveIs(b, DONE_TICKET, now);
    RecoverIs(b, DONE_TICKET, now, b.watermark);
    ObserveIs(Recover(b, DONE_TICKET, now, b.watermark), DONE_TICKET, now);
    RecoverIs(Observe(b, DONE_TICKET, now), DONE_TICKET, now, b.watermark);
  }

  /******* Any interleaving *******/

  datatype Call =
    | TickCall(snapshot: seq<Issue>, now: Time)
    | ReconcileCall(snapshot: seq<Issue>, since: Time, now: Time)
    | BackfillCall(snapshot: seq<Issue>, since: Time, now: Time)

  function ScriptOf(b: Board, c: Call): seq<Write> {
    match c
    case TickCall(snapshot, now) => TickScript(b, snapshot, now)
    case ReconcileCall(snapshot, since, now) => RecoverScript(snapshot, since, now, b.watermark)
    case BackfillCall(snapshot, since, now) => RecoverScript(snapshot, since, now, None)
  }

  /** The number of enqueues that find their id new, which is what each entry point returns. */
  function Emitted(b: Board, ws: seq<Write>): nat {
    if ws == [] then 0
    else
      var front, w := ws[..|ws| - 1], ws[|ws| - 1];
      Emitted(b, front) + if w.Enqueue? && w.id !in Exec(b, front).known then 1 else 0
  }

  function RunCalls(b: Board, calls: seq<Call>): Board {
    if calls == [] then b
    else
      var before := RunCalls(b, calls[..|calls| - 1]);
      Exec(before, ScriptOf(before, calls[|calls| - 1]))
  }

  function EmittedBy(b: Board, calls: seq<Call>): nat {
    if calls == [] then 0
    else
      var front := calls[..|calls| - 1];
      var before := RunCalls(b, front);
      EmittedBy(b, front) + Emitted(before, ScriptOf(before, calls[|calls| - 1]))
  }

  ghost predicate Serves(c: Call, id: EventId) {
    exists r :: r in c.snapshot && !r.status.Other? && Key(r, c.now) == id
  }

  lemma {:induction false} EmittedConcat(b: Board, xs: seq<Write>, ys: seq<Write>)
    ensures Emitted(b, xs + ys) == Emitted(b, xs) + Emitted(Exec(b, xs), ys)
    decreases |ys|
  {
    if ys == [] {
      assert xs + ys == xs;
    } else {
      assert (xs + ys)[..|xs + ys| - 1] == xs + ys[..|ys| - 1];
      EmittedConcat(b, xs, ys[..|ys| - 1]);
      ExecConcat(b, xs, ys[..|ys| - 1]);
    }
  }

  lemma {:induction false} LatestConcat(start: Time, xs: seq<Issue>, ys: seq<Issue>)
    ensures Latest(start, xs + ys) == Latest(Latest(start, xs), ys)
    decreases |ys|
  {
    if ys == [] {
      assert xs + ys == xs;
    } else {
      assert (xs + ys)[..|xs + ys| - 1] == xs + ys[..|ys| - 1];
      LatestConcat(start, xs, ys[..|ys| - 1]);
    }
  }

  lemma {:induction false} EmittedCountsNewKeys(b: Board, ws: seq<Write>)
    ensures b.known <= Exec(b, ws).known
    ensures |Exec(b, ws).known| == |b.known| + Emitted(b, ws)
  {
    if ws != [] {
      var front, w := ws[..|ws| - 1], ws[|ws| - 1];
      EmittedCountsNewKeys(b, front);
      if w.Enqueue? && w.id in Exec(b, front).known {
        assert Exec(b, ws).known == Exec(b, front).known;
      }
    }
  }

  lemma {:induction false} NewKeysWereEnqueued(b: Board, ws: seq<Write>, id: EventId)
    requires id in Exec(b, ws).known && id !in b.known
    ensures Enqueue(id) in ws
  {
    var front, w := ws[..|ws| - 1], ws[|ws| - 1];
    assert ws == front + [w];
    if id in Exec(b, front).known {
      NewKeysWereEnqueued(b, front, id);
    }
  }

  lemma {:induction false} ObservedAreServed(b: Board, rows: seq<Issue>, now: Time, id: EventId)
    requires Enqueue(id) in ObserveAll(b, rows, now)
    ensures exists r :: r in rows && !r.status.Other? && Key(r, now) == id
  {
    var front, r := rows[..|rows| - 1], rows[|rows| - 1];
    var before := ObserveAll(b, front, now);
    assert rows == front + [r];
    if Enqueue(id) in before {
      ObservedAreServed(b, front, now, id);
      var x :| x in front && !x.status.Other? && Key(x, now) == id;
      assert x in rows;
    } else {
      assert Enqueue(id) in ObserveWrites(Exec(b, before), r, now);
    }
  }

  lemma {:induction false} RecoveredAreServed(rows: seq<Issue>, now: Time, watermark: Option<Time>, id: EventId)
    requires Enqueue(id) in RecoverAll(rows, now, watermark)
    ensures exists r :: r in rows && !r.status.Other? && Key(r, now) == id
  {
    var front, r := rows[..|rows| - 1], rows[|rows| - 1];
    assert rows == front + [r];
    if Enqueue(id) in RecoverAll(front, now, watermark) {
      RecoveredAreServed(front, now, watermark, id);
      var x :| x in front && !x.status.Other? && Key(x, now) == id;
      assert x in rows;
    } else {
      assert Enqueue(id) in RecoverWrites(r, now, watermark);
    }
  }

  lemma ScriptServes(b: Board, c: Call, id: EventId)
    requires Enqueue(id) in ScriptOf(b, c)
    ensures Serves(c, id)
  {
    var rows := match c
      case TickCall(snapshot, now) => Reached(WindowOf(b, snapshot, now))
      case ReconcileCall(snapshot, since, now) => Reached(UpdatedSince(snapshot, since))
      case BackfillCall(snapshot, since, now) => Reached(UpdatedSince(snapshot, since));
    match c {
      case TickCall(_, now) => ObservedAreServed(b, rows, now, id);
      case ReconcileCall(_, _, now) => RecoveredAreServed(rows, now, b.watermark, id);
      case BackfillCall(_, _, now) => RecoveredAreServed(rows, now, None, id);
    }
    var r :| r in rows && !r.status.Other? && Key(r, c.now) == id;
    match c {
      case TickCall(snapshot, now) => UpdatedSinceMembers(snapshot, StartOf(b, now) - POLL_OVERLAP, r);
      case ReconcileCall(snapshot, since, _) => UpdatedSinceMembers(snapshot, since, r);
      case BackfillCall(snapshot, since, _) => UpdatedSinceMembers(snapshot, since, r);
    }
  }

  /**
   Any interleaving of ticks, reconciliations and back-fills enqueues each key once (the counts
   they return add up to the keys gained) and only keys of terminal rows the board served.
   */
  lemma {:induction false} InterleavingsEnqueueOnce(b: Board, calls: seq<Call>)
    ensures b.known <= RunCalls(b, calls).known
    ensures |RunCalls(b, calls).known| == |b.known| + EmittedBy(b, calls)
    ensures forall id :: id in RunCalls(b, calls).known && id !in b.known ==>
              exists k :: 0 <= k < |calls| && Serves(calls[k], id)
  {
    if calls != [] {
      var front, c := calls[..|calls| - 1], calls[|calls| - 1];
      InterleavingsEnqueueOnce(b, front);
      var before := RunCalls(b, front);
      EmittedCountsNewKeys(before, ScriptOf(before, c));
      forall id | id in RunCalls(b, calls).known && id !in b.known
        ensures exists k :: 0 <= k < |calls| && Serves(calls[k], id)
      {
        if id in before.known {
          var k :| 0 <= k < |front| && Serves(front[k], id);
          assert calls[k] == front[k];
        } else {
          NewKeysWereEnqueued(before, ScriptOf(before, c), id);
          ScriptServes(before, c, id);
          assert Serves(calls[|calls| - 1], id);
        }
      }
    }
  }
}
