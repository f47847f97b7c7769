/**
 What the poller's passes come to, told from the tickets' own columns and the constants of the poll:
 which key a ticket's end gets, what is remembered, which tickets a pass reads and files.
 */
module Sightings {
  import opened Basics
  import opened Events
  import opened Observation

  /******* One ticket *******/

  /** The stamp of a ticket's end, by its status: a blocked one without a transition date is dated by its update. */
  ghost predicate Stamped(issue: Issue, at: Time) {
    || (issue.status == Done && issue.completedAt == Some(at))
    || (issue.status == Cancelled && issue.cancelledAt == Some(at))
    || (issue.status == Blocked && issue.blockedTransitionAt == Some(at))
    || (issue.status == Blocked && issue.blockedTransitionAt == None && issue.updatedAt == Some(at))
  }

  ghost predicate Unstamped(issue: Issue) {
    forall at :: !Stamped(issue, at)
  }

  /** The date in an event's key: the stamp, else the update, else the clock of the poll. */
  ghost predicate DatedAt(issue: Issue, now: Time, at: Time) {
    || Stamped(issue, at)
    || (Unstamped(issue) && issue.updatedAt == Some(at))
    || (Unstamped(issue) && issue.updatedAt == None && at == now)
  }

  ghost predicate HasEnded(issue: Issue) {
    issue.status in {Done, Blocked, Cancelled}
  }

  lemma StampIs(issue: Issue)
    ensures forall at :: Stamped(issue, at) <==> TerminalTs(issue) == Some(at)
    ensures Unstamped(issue) <==> TerminalTs(issue) == None
  {
    if TerminalTs(issue).Some? { assert Stamped(issue, TerminalTs(issue).value); }
  }

  lemma KeysAreDatedByTheBoard(issue: Issue, now: Time, at: Time)
    ensures Key(issue, now) == IssueKey(issue.id, issue.status, at) <==> DatedAt(issue, now, at)
  {
    StampIs(issue);
    hide TerminalTs, Stamped, Unstamped;
  }

  /** The status, the stamp and the update of a look are what is remembered of the ticket. */
  ghost predicate Remembers(seen: Option<Seen>, issue: Issue) {
    && seen.Some? && seen.value.status == issue.status && seen.value.updatedAt == issue.updatedAt
    && forall at :: seen.value.terminalTs == Some(at) <==> Stamped(issue, at)
  }

  lemma SeenIsRemembered(issue: Issue)
    ensures Remembers(Some(SeenOf(issue)), issue)
  {
    StampIs(issue);
    hide TerminalTs, Stamped;
  }

  ghost predicate AppearedAt(issue: Issue, at: Time) {
    issue.createdAt == Some(at) || (issue.createdAt == None && issue.updatedAt == Some(at))
  }

  /** News: a ticket that ended otherwise than remembered, or is blocked anew, or is new since the start and ended. */
  ghost predicate IsNews(seen: Option<Seen>, issue: Issue, watermark: Option<Time>) {
    && HasEnded(issue)
    && (seen.Some? ==>
          || seen.value.status != issue.status
          || (issue.status == Blocked && !Remembers(Some(seen.value.(updatedAt := issue.updatedAt)), issue)))
    && (seen.None? ==>
          exists start, at :: watermark == Some(start) && at > start && AppearedAt(issue, at))
  }

  lemma NewsIs(b: Board, issue: Issue)
    ensures NewsIn(b, issue) <==> IsNews(Lookup(b.seen, issue.id), issue, b.watermark)
  {
    StampIs(issue);
    var first := OrElse(issue.createdAt, issue.updatedAt);
    var seen := Lookup(b.seen, issue.id);
    if seen.Some? && seen.value.status == issue.status { SameStamp(seen.value, issue); }
    if first.Some? { assert AppearedAt(issue, first.value); }
    hide TerminalTs, Stamped, Unstamped, Remembers;
  }

  lemma SameStamp(p: Seen, issue: Issue)
    requires p.status == issue.status
    ensures p.terminalTs == TerminalTs(issue) <==> Remembers(Some(p.(updatedAt := issue.updatedAt)), issue)
  {
    hide TerminalTs, Stamped;
    StampIs(issue);
    var again := p.(updatedAt := issue.updatedAt);
    if Remembers(Some(again), issue) {
      if p.terminalTs.Some? { assert Stamped(issue, p.terminalTs.value); }
      if TerminalTs(issue).Some? { assert Stamped(issue, TerminalTs(issue).value); }
    }
  }

  /** Recovery asks only whether the stamp is after the watermark; without a watermark every end counts. */
  ghost predicate IsRecoverable(issue: Issue, watermark: Option<Time>) {
    HasEnded(issue) && forall start :: watermark == Some(start) ==> exists at :: Stamped(issue, at) && at > start
  }

  lemma RecoverableIs(issue: Issue, watermark: Option<Time>)
    ensures !issue.status.Other? && IsFresh(issue, watermark) <==> IsRecoverable(issue, watermark)
  {
    StampIs(issue);
    hide TerminalTs, Stamped, Unstamped;
    if watermark.Some? {
      if TerminalTs(issue).Some? { assert Stamped(issue, TerminalTs(issue).value); }
      if at :| Stamped(issue, at) && at > watermark.value { assert TerminalTs(issue) == Some(at); }
      assert watermark == Some(watermark.value);
    }
  }

  /******* Passes *******/

  /** The tickets updated at or after a date, as far as fifty pages of a hundred reach. */
  ghost predicate Reads(snapshot: seq<Issue>, since: Time, r: Issue) {
    r in snapshot && exists at :: r.updatedAt == Some(at) && at >= since
  }

  /** A pass reads the first five thousand tickets of its window, and no others. */
  lemma PassesReachFiveThousand(window: seq<Issue>)
    ensures Reached(window) == if |window| <= 5000 then window else window[..5000]
  {
  }

  lemma WindowsReadAll(snapshot: seq<Issue>, since: Time)
    requires IsSnapshot(snapshot) && |UpdatedSince(snapshot, since)| <= 5000
    ensures forall r :: r in Reached(UpdatedSince(snapshot, since)) <==> Reads(snapshot, since, r)
    ensures IsSnapshot(Reached(UpdatedSince(snapshot, since)))
  {
    UpdatedSinceFacts(snapshot, since);
    assert Reached(UpdatedSince(snapshot, since)) == UpdatedSince(snapshot, since);
  }

  /**
   A tick whose window fits reads the tickets updated up to ten seconds before its cursor and files the key
   of each that is news, dated by the board; it remembers what it read and moves the cursor to the newest
   update read, if that is newer.
   */
  lemma TicksFileExactly(b: Board, snapshot: seq<Issue>, now: Time, id: EventId)
    requires b.cursor.Some? && IsSnapshot(snapshot) && |UpdatedSince(snapshot, b.cursor.value - 10_000)| <= 5000
    ensures var b', since := Tick(b, snapshot, now), b.cursor.value - 10_000;
            && (id in b'.known
                <==> id in b.known
                     || exists r, at :: Reads(snapshot, since, r) && IsNews(Lookup(b.seen, r.id), r, b.watermark)
                                        && DatedAt(r, now, at) && id == IssueKey(r.id, r.status, at))
            && (forall r :: Reads(snapshot, since, r) ==> Remembers(Lookup(b'.seen, r.id), r))
            && (forall key :: (forall r :: Reads(snapshot, since, r) ==> r.id != key) ==>
                  Lookup(b'.seen, key) == Lookup(b.seen, key))
            && b'.watermark == b.watermark
            && b'.cursor.Some? && b'.cursor.value >= b.cursor.value
            && (forall r :: Reads(snapshot, since, r) ==> r.updatedAt.value <= b'.cursor.value)
            && (b'.cursor == b.cursor || exists r :: Reads(snapshot, since, r) && r.updatedAt == b'.cursor)
  {
    var since := b.cursor.value - 10_000;
    WindowsReadAll(snapshot, since);
    assert WindowOf(b, snapshot, now) == UpdatedSince(snapshot, since);
    var rows := Reached(UpdatedSince(snapshot, since));
    TickIs(b, snapshot, now);
    CursorAdvances(b, snapshot, now);
    FoldOfSnapshot(b, rows, now);
    hide Tick, WindowOf, Reached, UpdatedSince, Latest, Fold, AsHistory, IsSnapshot;
    AfterMeans(b, rows, now, Fold(b, AsHistory(rows, now)), id);
    hide IsAfter, IsNews, DatedAt, Remembers, Reads, Absent;
    var b' := Tick(b, snapshot, now);
    forall key | forall r :: Reads(snapshot, since, r) ==> r.id != key
      ensures Lookup(b'.seen, key) == Lookup(b.seen, key)
    {
      forall r | r in rows ensures r.id != key { assert Reads(snapshot, since, r); }
      AbsentMeans(rows, key);
    }
  }

  lemma AbsentMeans(rows: seq<Issue>, key: string)
    requires forall r :: r in rows ==> r.id != key
    ensures Absent(rows, key)
  {
  }

  lemma AfterMeans(b: Board, rows: seq<Issue>, now: Time, b': Board, id: EventId)
    requires IsAfter(b, rows, now, b')
    ensures id in b'.known
            <==> id in b.known
                 || exists r, at :: r in rows && IsNews(Lookup(b.seen, r.id), r, b.watermark)
                                    && DatedAt(r, now, at) && id == IssueKey(r.id, r.status, at)
    ensures forall r :: r in rows ==> Remembers(Lookup(b'.seen, r.id), r)
    ensures forall key :: Absent(rows, key) ==> Lookup(b'.seen, key) == Lookup(b.seen, key)
  {
    hide IsNews, DatedAt, Remembers, Absent, NewsIn;
    if id in News(b, rows, now) {
      var r :| r in rows && NewsIn(b, r) && Key(r, now) == id;
      NewsIs(b, r);
      KeysAreDatedByTheBoard(r, now, id.stamp);
    }
    forall r, at | r in rows && IsNews(Lookup(b.seen, r.id), r, b.watermark) && DatedAt(r, now, at)
                   && id == IssueKey(r.id, r.status, at)
      ensures id in News(b, rows, now)
    {
      NewsIs(b, r);
      KeysAreDatedByTheBoard(r, now, at);
    }
    forall r | r in rows ensures Remembers(Lookup(b'.seen, r.id), r) {
      SeenIsRemembered(r);
    }
  }

  lemma {:induction false} ObservingIgnoresTheCursor(b: Board, rows: seq<Issue>, now: Time, cursor: Option<Time>)
    ensures var other := b.(cursor := cursor);
            && ObserveAll(other, rows, now) == ObserveAll(b, rows, now)
            && Exec(other, ObserveAll(b, rows, now)) == Exec(b, ObserveAll(b, rows, now)).(cursor := cursor)
            && Exec(b, ObserveAll(b, rows, now)).cursor == b.cursor
  {
    if rows != [] {
      var front, r := rows[..|rows| - 1], rows[|rows| - 1];
      var before := ObserveAll(b, front, now);
      ObservingIgnoresTheCursor(b, front, now, cursor);
      var mid := Exec(b, before);
      ExecConcat(b, before, ObserveWrites(mid, r, now));
      ExecConcat(b.(cursor := cursor), before, ObserveWrites(mid, r, now));
      ObserveIs(mid, r, now);
      ObserveIs(mid.(cursor := cursor), r, now);
      hide Exec, Key, SeenOf, Reportable;
    }
  }

  /** Without a cursor a tick does as one whose cursor is its clock, and leaves none unless it read something newer. */
  lemma TicksWithoutCursor(b: Board, snapshot: seq<Issue>, now: Time)
    requires b.cursor.None?
    ensures var begun := Tick(b.(cursor := Some(now)), snapshot, now);
            Tick(b, snapshot, now) == begun.(cursor := if begun.cursor == Some(now) then None else begun.cursor)
  {
    var rows := Reached(WindowOf(b, snapshot, now));
    var other := b.(cursor := Some(now));
    ObservingIgnoresTheCursor(b, rows, now, Some(now));
    assert WindowOf(other, snapshot, now) == WindowOf(b, snapshot, now);
    var writes, latest := ObserveAll(b, rows, now), Latest(now, rows);
    assert writes + [] == writes;
    ExecAppend(b, writes, SetCursor(latest));
    ExecAppend(other, writes, SetCursor(latest));
    hide Exec, ObserveAll, WindowOf, Reached, Latest;
  }

  /**
   A recovery whose window fits files the key of each ticket updated since its start that ended, and that it
   may recover, dated by the board, whatever was remembered.
   */
  lemma RecoveriesFileExactly(
      b: Board, snapshot: seq<Issue>, since: Time, now: Time, watermark: Option<Time>, id: EventId)
    requires IsSnapshot(snapshot) && |UpdatedSince(snapshot, since)| <= 5000
    ensures var b' := Exec(b, RecoverScript(snapshot, since, now, watermark));
            && (id in b'.known
                <==> id in b.known
                     || exists r, at :: Reads(snapshot, since, r) && IsRecoverable(r, watermark)
                                        && DatedAt(r, now, at) && id == IssueKey(r.id, r.status, at))
            && b'.watermark == b.watermark && b'.cursor == b.cursor
  {
    var rows := Reached(UpdatedSince(snapshot, since));
    WindowsReadAll(snapshot, since);
    RecoverAllFacts(b, rows, now, watermark);
    hide Exec, RecoverAll, Reached, UpdatedSince, IsRecoverable, DatedAt, Reads, IsFresh, IsSnapshot;
    var b' := Exec(b, RecoverScript(snapshot, since, now, watermark));
    if id in b'.known && id !in b.known {
      var r :| r in rows && !r.status.Other? && IsFresh(r, watermark) && Key(r, now) == id;
      RecoverableIs(r, watermark);
      KeysAreDatedByTheBoard(r, now, id.stamp);
      assert Reads(snapshot, since, r);
    }
    forall r, at | Reads(snapshot, since, r) && IsRecoverable(r, watermark) && DatedAt(r, now, at)
                   && id == IssueKey(r.id, r.status, at)
      ensures id in b'.known
    {
      RecoverableIs(r, watermark);
      KeysAreDatedByTheBoard(r, now, at);
    }
  }

  /******* The first start *******/

  lemma {:induction false} ListedByStatus(issues: seq<Issue>, status: Status)
    ensures forall r :: r in WithStatus(issues, status) <==> r in issues && r.status == status
  {
    if issues != [] {
      ListedByStatus(issues[1..], status);
      assert issues == [issues[0]] + issues[1..];
    }
  }

  lemma {:induction false} ListedByStatuses(issues: seq<Issue>, statuses: seq<Status>)
    requires forall status :: status in statuses ==> |WithStatus(issues, status)| <= 100
    ensures forall r :: r in OpenListing(issues, statuses) <==> r in issues && r.status in statuses
  {
    if statuses != [] {
      var front, last := statuses[..|statuses| - 1], statuses[|statuses| - 1];
      assert statuses == front + [last] && last in statuses && forall status :: status in front ==> status in statuses;
      ListedByStatuses(issues, front);
      ListedByStatus(issues, last);
      assert FirstPage(WithStatus(issues, last)) == WithStatus(issues, last);
    }
  }

  /** Where no status has more than a page, the first start lists exactly the tickets in one of four open statuses. */
  lemma FirstStartsListTheOpen(issues: seq<Issue>, r: Issue)
    requires forall status :: status in OPEN_STATUSES ==> |WithStatus(issues, status)| <= 100
    ensures r in OpenListing(issues, OPEN_STATUSES)
            <==> && r in issues && r.status.Other?
                 && (r.status.name == "backlog" || r.status.name == "todo"
                     || r.status.name == "in_progress" || r.status.name == "in_review")
  {
    hide WithStatus, OpenListing;
    ListedByStatuses(issues, OPEN_STATUSES);
  }

  /** A first start remembers what it lists, files nothing, and sets the cursor by the look-back and the watermark. */
  lemma FirstStartsLeave(b: Board, start: Start, lookback: Time)
    requires b.cursor.None?
    ensures var b' := Exec(b, BootstrapScript(b, start, lookback));
            && b'.known == b.known
            && b'.cursor == Some(start.cursorClock - lookback) && b'.watermark == Some(start.watermarkClock)
            && (forall r :: r in start.listing && (forall q :: q in start.listing && q.id == r.id ==> q == r) ==>
                  Remembers(Lookup(b'.seen, r.id), r))
            && (forall id :: Absent(start.listing, id) ==> Lookup(b'.seen, id) == Lookup(b.seen, id))
  {
    BaselineOf(b, start, lookback);
    UpsertsLeave(b, start.listing);
    hide BootstrapScript, Exec, UpsertAll, Remembers;
  }

  lemma {:induction false} UpsertsLeave(b: Board, rows: seq<Issue>)
    ensures var b' := Exec(b, UpsertAll(rows));
            && b'.known == b.known
            && (forall r :: r in rows && (forall q :: q in rows && q.id == r.id ==> q == r) ==>
                  Remembers(Lookup(b'.seen, r.id), r))
            && (forall id :: Absent(rows, id) ==> Lookup(b'.seen, id) == Lookup(b.seen, id))
  {
    if rows != [] {
      var front, last := rows[..|rows| - 1], rows[|rows| - 1];
      assert rows == front + [last] && last in rows;
      UpsertsLeave(b, front);
      ExecAppend(b, UpsertAll(front), Upsert(last));
      SeenIsRemembered(last);
      OneUpsertLeaves(Exec(b, UpsertAll(front)), last);
      hide Remembers, Exec, SeenOf;
      assert UpsertAll(rows) == UpsertAll(front) + [Upsert(last)];
      var before, b' := Exec(b, UpsertAll(front)), Exec(b, UpsertAll(rows));
      forall r | r in rows && (forall q :: q in rows && q.id == r.id ==> q == r)
        ensures Remembers(Lookup(b'.seen, r.id), r)
      {
        if r.id != last.id { assert r in front && forall q :: q in front ==> q in rows; }
      }
      forall id | Absent(rows, id) ensures Lookup(b'.seen, id) == Lookup(b.seen, id) {
        assert forall q :: q in front ==> q in rows;
      }
    }
  }

  lemma OneUpsertLeaves(b: Board, issue: Issue)
    ensures var b' := Apply(b, Upsert(issue));
            && b'.known == b.known && Lookup(b'.seen, issue.id) == Some(SeenOf(issue))
            && forall id :: id != issue.id ==> Lookup(b'.seen, id) == Lookup(b.seen, id)
  {
  }
}
