/**
 The poller: its loops over pages and rows write exactly the scripts the observation model
 describes, in that order, so every crash point of a pass is a prefix of its script.
 */
module Polling {
  import opened Basics
  import opened Events
  import opened Observation
  import opened Storage
  import Bridge
  import Outbox
  import opened WorkBoard

  class Poller {
    const store: Store
    const pc: Paperclip
    const cutoverLookback: Time
    const reconcileLookback: Time

    constructor (store: Store, pc: Paperclip, cutoverLookback: Time, reconcileLookback: Time)
      ensures this.store == store && this.pc == pc
      ensures this.cutoverLookback == cutoverLookback && this.reconcileLookback == reconcileLookback
    {
      this.store, this.pc, this.cutoverLookback, this.reconcileLookback :=
        store, pc, cutoverLookback, reconcileLookback;
    }

    /** The writes of a call were these, and their effect and count are what the model says. */
    twostate predicate Wrote(script: seq<Write>, emitted: nat)
      reads store
    {
      && store.Valid()
      && OnlyGrew(old(store.events), old(store.deliveries), store.events, store.deliveries)
      && store.observed == old(store.observed) + script
      && store.BoardView() == Exec(old(store.BoardView()), script)
      && emitted == Emitted(old(store.BoardView()), script)
    }

    /** Every event that was added is filed as it should be, under the channels the board knows. */
    twostate predicate Filed(now: Time)
      reads store, pc
    {
      AllFiled(old(store.events), store.events, store.deliveries, pc.originChannels, now)
    }

    /******* One row *******/

    method IssueEvent(issue: Issue, eventType: EventType, now: Time) returns (ev: Event)
      requires TerminalType(issue.status) == Some(eventType)
      ensures ev.id == Key(issue, now) && ev.eventType == eventType && WellLabelled(ev)
      ensures ev.id.IssueKey? && TerminalType(ev.id.status) == Some(ev.eventType) && ev.occurredAt == Some(ev.id.stamp)
      ensures ev.id.issue == issue.id && ev.originChannel == Lookup(pc.originChannels, issue.id)
    {
      var stamp := TerminalTs(issue);
      if stamp.None? { stamp := issue.updatedAt; }
      var occurred := if stamp.Some? then stamp.value else now;
      var channel := if issue.id in pc.originChannels then Some(pc.originChannels[issue.id]) else None;
      ev := Event(IssueKey(issue.id, issue.status, occurred), eventType, Some(occurred), channel);
    }

    method LateTerminal(issue: Issue) returns (eventType: Option<EventType>)
      ensures eventType == LateTerminalType(issue, store.bootstrappedAt)
    {
      eventType := TerminalType(issue.status);
      if eventType.None? || store.bootstrappedAt.None? { return None; }
      var seenAt := if issue.createdAt.Some? then issue.createdAt else issue.updatedAt;
      if seenAt.None? || seenAt.value <= store.bootstrappedAt.value { return None; }
    }

    /** Files the event of a row, if it has one, and only then remembers the row. */
    method FileAndRemember(issue: Issue, eventType: Option<EventType>, now: Time) returns (emitted: nat)
      requires store.Valid() && (eventType.Some? ==> TerminalType(issue.status) == eventType)
      modifies store`events, store`deliveries, store`issueState, store`observed, store`watched
      ensures Wrote((if eventType.Some? then [Enqueue(Key(issue, now))] else []) + [Upsert(issue)], emitted)
      ensures Filed(now)
    {
      hide Exec, Emitted, WellLabelled, Key, OnlyGrew, TerminalType;
      NoGrowth(store.events, store.deliveries);
      RowCounts(store.BoardView(), Key(issue, now), issue);
      emitted := 0;
      if eventType.Some? {
        var ev := IssueEvent(issue, eventType.value, now);
        var isNew := store.EnqueueEvent(ev, now);
        if isNew { emitted := emitted + 1; }
      }
      store.UpsertIssueState(issue);
    }

    method ObserveIssue(issue: Issue, now: Time) returns (emitted: nat)
      requires store.Valid()
      modifies store`events, store`deliveries, store`issueState, store`observed, store`watched
      ensures Wrote(ObserveWrites(old(store.BoardView()), issue, now), emitted) && Filed(now)
    {
      hide ClassifyIssue, LateTerminalType, Key, Exec, Emitted, OnlyGrew;
      ClassesAreTerminal(store.BoardView(), issue);
      var previous := if issue.id in store.issueState then Some(store.issueState[issue.id]) else None;
      var eventType := ClassifyIssue(previous, issue);
      if eventType.None? && previous.None? {
        eventType := LateTerminal(issue);
      }
      emitted := FileAndRemember(issue, eventType, now);
    }

    method RecoverIssue(issue: Issue, now: Time, watermark: Option<Time>) returns (emitted: nat)
      requires store.Valid()
      modifies store`events, store`deliveries, store`issueState, store`observed, store`watched
      ensures Wrote(RecoverWrites(issue, now, watermark), emitted) && Filed(now)
    {
      hide Key, Exec, Emitted, OnlyGrew;
      var eventType := TerminalType(issue.status);
      var stamp := TerminalTs(issue);
      var isFresh := watermark.None? || (stamp.Some? && stamp.value > watermark.value);
      emitted := FileAndRemember(issue, if isFresh then eventType else None, now);
    }

    /******* Passes *******/

    /** One page of a tick. */
    method ObserveRows(rows: seq<Issue>, now: Time, from: Time) returns (emitted: nat, latest: Time)
      requires store.Valid()
      modifies store`events, store`deliveries, store`issueState, store`observed, store`watched
      ensures Wrote(ObserveAll(old(store.BoardView()), rows, now), emitted) && Filed(now)
      ensures latest == Latest(from, rows)
    {
      hide Exec, ObserveAll, ObserveWrites, Emitted, Latest, OnlyGrew, WellLabelled;
      NoGrowth(store.events, store.deliveries);
      ghost var start := store.BoardView();
      emitted, latest := 0, from;
      NothingObserved(start, now, from);
      for i := 0 to |rows|
        invariant Wrote(ObserveAll(start, rows[..i], now), emitted) && Filed(now)
        invariant latest == Latest(from, rows[..i])
      {
        ghost var events, deliveries := store.events, store.deliveries;
        var n := ObserveIssue(rows[i], now);
        GrowsOn(old(store.events), old(store.deliveries), events, deliveries, store.events, store.deliveries);
        FilingGoesOn(old(store.events), events, deliveries, store.events, store.deliveries, pc.originChannels, now);
        OneMoreObserved(start, rows, i, now, from);
        emitted := emitted + n;
        if rows[i].updatedAt.Some? && rows[i].updatedAt.value > latest { latest := rows[i].updatedAt.value; }
      }
      assert rows[..|rows|] == rows;
    }

    method RecoverRows(rows: seq<Issue>, now: Time, watermark: Option<Time>) returns (emitted: nat)
      requires store.Valid()
      modifies store`events, store`deliveries, store`issueState, store`observed, store`watched
      ensures Wrote(RecoverAll(rows, now, watermark), emitted) && Filed(now)
    {
      hide Exec, RecoverAll, RecoverWrites, Emitted, OnlyGrew, WellLabelled;
      NoGrowth(store.events, store.deliveries);
      ghost var start := store.BoardView();
      emitted := 0;
      NothingRecovered(start, now, watermark);
      for i := 0 to |rows|
        invariant Wrote(RecoverAll(rows[..i], now, watermark), emitted) && Filed(now)
      {
        ghost var events, deliveries := store.events, store.deliveries;
        var n := RecoverIssue(rows[i], now, watermark);
        GrowsOn(old(store.events), old(store.deliveries), events, deliveries, store.events, store.deliveries);
        FilingGoesOn(old(store.events), events, deliveries, store.events, store.deliveries, pc.originChannels, now);
        OneMoreRecovered(start, rows, i, now, watermark);
        emitted := emitted + n;
      }
      assert rows[..|rows|] == rows;
    }

    /** One tick of the transition poll: pages until one is short, then the cursor, if it moved. */
    method PollTransitions(now: Time) returns (emitted: nat)
      requires store.Valid()
      modifies store`events, store`deliveries, store`issueState, store`updatedSince, store`bootstrappedAt,
               store`observed, store`watched
      ensures Wrote(TickScript(old(store.BoardView()), pc.issues, now), emitted) && Filed(now)
    {
      hide Exec, ObserveAll, Emitted, Latest, UpdatedSince, Apply, OnlyGrew, WellLabelled, Page, Reached, Store.Valid;
      NoGrowth(store.events, store.deliveries);
      ghost var start := store.BoardView();
      var cursor := if store.updatedSince.Some? then store.updatedSince.value else now;
      var since := cursor - POLL_OVERLAP;
      ghost var window, done := UpdatedSince(pc.issues, since), [];
      var latest, offset := cursor, 0;
      emitted := 0;
      NothingObserved(start, now, cursor);
      for page := 0 to MAX_PAGES
        invariant offset == page * PAGE_SIZE <= |window| && done == window[..offset]
        invariant Wrote(ObserveAll(start, done, now), emitted) && Filed(now)
        invariant latest == Latest(cursor, done)
      {
        var rows := pc.IssuesUpdatedSince(since, PAGE_SIZE, offset);
        PageFacts(window, offset);
        if rows == [] { break; }
        ghost var events, deliveries := store.events, store.deliveries;
        var n, newest := ObserveRows(rows, now, latest);
        GrowsOn(old(store.events), old(store.deliveries), events, deliveries, store.events, store.deliveries);
        FilingGoesOn(old(store.events), events, deliveries, store.events, store.deliveries, pc.originChannels, now);
        PageObserved(start, done, rows, now, cursor);
        emitted, latest, done := emitted + n, newest, done + rows;
        if |rows| < PAGE_SIZE { break; }
        offset := offset + PAGE_SIZE;
      }
      assert window[..|window|] == window;
      assert done == Reached(window) by { ReachedFacts(window); }
      ghost var writes := ObserveAll(start, done, now);
      assert writes + [] == writes;
      assert TickScript(start, pc.issues, now) == writes + if latest != cursor then [SetCursor(latest)] else [];
      if latest != cursor {
        CursorWritten(start, writes, latest);
        store.SetCursor(latest, None);
      }
    }

    /** Reconciliation and back-filling: the same loop, with and without the watermark. */
    method RecoverFrom(since: Time, now: Time, watermark: Option<Time>) returns (emitted: nat)
      requires store.Valid()
      modifies store`events, store`deliveries, store`issueState, store`observed, store`watched
      ensures Wrote(RecoverScript(pc.issues, since, now, watermark), emitted) && Filed(now)
    {
      hide Exec, RecoverAll, Emitted, UpdatedSince, OnlyGrew, WellLabelled;
      NoGrowth(store.events, store.deliveries);
      ghost var start := store.BoardView();
      ghost var window, done := UpdatedSince(pc.issues, since), [];
      var offset := 0;
      emitted := 0;
      NothingRecovered(start, now, watermark);
      for page := 0 to MAX_PAGES
        invariant offset == page * PAGE_SIZE <= |window| && done == window[..offset]
        invariant Wrote(RecoverAll(done, now, watermark), emitted) && Filed(now)
      {
        var rows := pc.IssuesUpdatedSince(since, PAGE_SIZE, offset);
        if rows == [] { break; }
        ghost var events, deliveries := store.events, store.deliveries;
        var n := RecoverRows(rows, now, watermark);
        GrowsOn(old(store.events), old(store.deliveries), events, deliveries, store.events, store.deliveries);
        FilingGoesOn(old(store.events), events, deliveries, store.events, store.deliveries, pc.originChannels, now);
        PageRecovered(start, done, rows, now, watermark);
        emitted, done := emitted + n, done + rows;
        if |rows| < PAGE_SIZE { break; }
        offset := offset + PAGE_SIZE;
      }
      assert done == Reached(window);
    }

    method Reconcile(now: Time) returns (emitted: nat)
      requires store.Valid()
      modifies store`events, store`deliveries, store`issueState, store`observed, store`watched
      ensures Wrote(ScriptOf(old(store.BoardView()), ReconcileCall(pc.issues, now - reconcileLookback, now)), emitted)
      ensures Wrote(RecoverScript(pc.issues, now - reconcileLookback, now, old(store.bootstrappedAt)), emitted)
      ensures Filed(now)
    {
      hide Exec, Emitted, RecoverScript, OnlyGrew, AllFiled, WellLabelled;
      emitted := RecoverFrom(now - reconcileLookback, now, store.bootstrappedAt);
    }

    method Backfill(since: Time, now: Time) returns (emitted: nat)
      requires store.Valid()
      modifies store`events, store`deliveries, store`issueState, store`observed, store`watched
      ensures Wrote(ScriptOf(old(store.BoardView()), BackfillCall(pc.issues, since, now)), emitted) && Filed(now)
      ensures Wrote(RecoverScript(pc.issues, since, now, None), emitted)
    {
      hide Exec, Emitted, RecoverScript, OnlyGrew, AllFiled, WellLabelled;
      emitted := RecoverFrom(since, now, None);
    }

    /** The first start: the open tickets are a baseline, and the cursor says it is done. */
    method Bootstrap(cursorClock: Time, watermarkClock: Time)
      requires store.Valid()
      modifies store`issueState, store`updatedSince, store`bootstrappedAt, store`observed
      ensures var start := Start(OpenListing(pc.issues, OPEN_STATUSES), cursorClock, watermarkClock);
              Wrote(BootstrapScript(old(store.BoardView()), start, cutoverLookback), 0)
    {
      hide Exec, UpsertAll, Emitted, OpenListing, WithStatus, OnlyGrew, WellLabelled;
      NoGrowth(store.events, store.deliveries);
      ghost var start, seeded := store.BoardView(), [];
      NothingSeeded(start);
      if store.updatedSince.Some? { return; }
      NoListing(pc.issues);
      for i := 0 to |OPEN_STATUSES|
        invariant seeded == OpenListing(pc.issues, OPEN_STATUSES[..i])
        invariant Wrote(UpsertAll(seeded), 0)
      {
        var rows := pc.IssuesWithStatus(OPEN_STATUSES[i], PAGE_SIZE);
        OneMoreStatus(pc.issues, i);
        assert seeded + rows[..0] == seeded;
        for j := 0 to |rows|
          invariant Wrote(UpsertAll(seeded + rows[..j]), 0)
        {
          OneMoreSeeded(start, seeded, rows, j);
          store.UpsertIssueState(rows[j]);
        }
        assert rows[..|rows|] == rows;
        seeded := seeded + rows;
      }
      assert OPEN_STATUSES[..|OPEN_STATUSES|] == OPEN_STATUSES;
      BaselineWritten(start, UpsertAll(seeded), cursorClock - cutoverLookback, watermarkClock);
      store.SetCursor(cursorClock - cutoverLookback, Some(watermarkClock));
    }
  }

  /******* What is filed *******/

  /** Every event that was not known says what its id says, goes to its ticket's origin, and is due at once. */
  ghost predicate AllFiled(known: map<EventId, Event>, events: map<EventId, Event>, rows: map<EventId, Outbox.Delivery>,
      channels: map<string, string>, now: Time)
  {
    forall id :: id in events && id !in known ==>
      && id.IssueKey? && TerminalType(id.status).Some? && id in rows
      && events[id] == Event(id, TerminalType(id.status).value, Some(id.stamp), Lookup(channels, id.issue))
      && rows[id] == Outbox.Delivery(Outbox.Pending, 0, 0, None, None, now)
  }

  lemma FilingGoesOn(
    e0: map<EventId, Event>, e1: map<EventId, Event>, r1: map<EventId, Outbox.Delivery>, e2: map<EventId, Event>,
    r2: map<EventId, Outbox.Delivery>, channels: map<string, string>, now: Time)
    requires AllFiled(e0, e1, r1, channels, now) && AllFiled(e1, e2, r2, channels, now) && OnlyGrew(e1, r1, e2, r2)
    ensures AllFiled(e0, e2, r2, channels, now)
  {
  }

  /**
   What a pass files is what the bridge's own history of it files: wherever the pass is cut, an outbox that
   gained exactly the keys of the writes made, each filed as it should be, is the one the machine reaches.
   */
  lemma PassesFileAsTheBridge(
      cfg: Outbox.Config, s: Outbox.Sys, b: Board, deed: Bridge.Deed, events: map<EventId, Event>,
      rows: map<EventId, Outbox.Delivery>)
    requires deed.Poll? && s.events.Keys == s.rows.Keys == b.known && events.Keys == rows.Keys
    requires events.Keys == Exec(b, Bridge.ScriptOf(b, deed)).known
    requires OnlyGrew(s.events, s.rows, events, rows) && AllFiled(s.events, events, rows, deed.origins, deed.call.now)
    ensures Outbox.Run(cfg, s, Bridge.ActionsOf(b, deed)) == s.(events := events, rows := rows)
  {
    var ws := Bridge.ScriptOf(b, deed);
    Bridge.ScriptsFileIssues(b, deed);
    ScriptsFileEnds(b, deed);
    Bridge.FilingsFile(cfg, s, b, ws, deed.origins, deed.call.now);
    FilingsAreFiled(cfg, s, ws, deed.origins, deed.call.now);
    hide Bridge.ScriptOf, Bridge.Filings, Exec, Bridge.FilesIssues;
    var s' := Outbox.Run(cfg, s, Bridge.Filings(ws, deed.origins, deed.call.now));
    forall id | id in events ensures s'.events[id] == events[id] && s'.rows[id] == rows[id] {
      if id in s.events { assert events[id] == s.events[id] && rows[id] == s.rows[id]; }
    }
    assert s'.events == events && s'.rows == rows;
  }

  ghost predicate FilesEnds(ws: seq<Write>) {
    forall w :: w in ws && w.Enqueue? ==> w.id.IssueKey? && TerminalType(w.id.status).Some?
  }

  lemma ServedKeysAreEnds(call: Call, id: EventId)
    requires Serves(call, id)
    ensures id.IssueKey? && TerminalType(id.status).Some?
  {
  }

  lemma ScriptsFileEnds(b: Board, deed: Bridge.Deed)
    requires deed.Poll?
    ensures FilesEnds(Bridge.ScriptOf(b, deed))
  {
    var all := ScriptOf(b, deed.call);
    hide ScriptOf, TerminalType;
    forall w | w in Bridge.ScriptOf(b, deed) && w.Enqueue? ensures w.id.IssueKey? && TerminalType(w.id.status).Some? {
      assert w in all && w == Enqueue(w.id);
      ScriptServes(b, deed.call, w.id);
      ServedKeysAreEnds(deed.call, w.id);
    }
  }

  lemma {:induction false} FilingsAreFiled(
      cfg: Outbox.Config, s: Outbox.Sys, ws: seq<Write>, origins: map<string, string>, at: Time)
    requires FilesEnds(ws) && s.events.Keys == s.rows.Keys
    ensures var s' := Outbox.Run(cfg, s, Bridge.Filings(ws, origins, at));
            && s' == s.(events := s'.events, rows := s'.rows) && s'.events.Keys == s'.rows.Keys
            && OnlyGrew(s.events, s.rows, s'.events, s'.rows) && AllFiled(s.events, s'.events, s'.rows, origins, at)
  {
    if ws != [] {
      var front, w := ws[..|ws| - 1], ws[|ws| - 1];
      assert w in ws && forall x :: x in front ==> x in ws;
      FilingsAreFiled(cfg, s, front, origins, at);
      var before := Outbox.Run(cfg, s, Bridge.Filings(front, origins, at));
      Bridge.RunConcat(cfg, s, Bridge.Filings(front, origins, at), Bridge.Filing(w, origins, at));
      OneFilingIsFiled(cfg, before, w, origins, at);
      hide Outbox.Run, Bridge.Filing, OnlyGrew, AllFiled;
      var s' := Outbox.Run(cfg, before, Bridge.Filing(w, origins, at));
      GrowsOn(s.events, s.rows, before.events, before.rows, s'.events, s'.rows);
      FilingGoesOn(s.events, before.events, before.rows, s'.events, s'.rows, origins, at);
    } else {
      NoGrowth(s.events, s.rows);
    }
  }

  lemma OneFilingIsFiled(cfg: Outbox.Config, s: Outbox.Sys, w: Write, origins: map<string, string>, at: Time)
    requires (w.Enqueue? ==> w.id.IssueKey? && TerminalType(w.id.status).Some?) && s.events.Keys == s.rows.Keys
    ensures var s' := Outbox.Run(cfg, s, Bridge.Filing(w, origins, at));
            && s' == s.(events := s'.events, rows := s'.rows) && s'.events.Keys == s'.rows.Keys
            && OnlyGrew(s.events, s.rows, s'.events, s'.rows) && AllFiled(s.events, s'.events, s'.rows, origins, at)
  {
    if w.Enqueue? { Bridge.OneActionRun(cfg, s, Outbox.Enqueue(Bridge.EventFor(w.id, origins), at)); }
  }

  /******* The loops' bookkeeping *******/

  /** A page carries on where the ones before it ended; a short one is the last. */
  lemma PageFacts(window: seq<Issue>, offset: nat)
    requires offset <= |window|
    ensures var rows := Page(window, PAGE_SIZE, offset);
            && |rows| == Min(PAGE_SIZE, |window| - offset)
            && window[..offset] + rows == window[..offset + |rows|]
  {
  }

  lemma ReachedFacts(window: seq<Issue>)
    ensures Reached(window) == window[..Min(MAX_PAGES * PAGE_SIZE, |window|)]
  {
  }

  lemma ClassesAreTerminal(b: Board, issue: Issue)
    ensures var found := EventTypeOf(Lookup(b.seen, issue.id), issue, b.watermark);
            found.Some? ==> TerminalType(issue.status) == found
  {
  }

  lemma RowCounts(b: Board, id: EventId, issue: Issue)
    ensures Exec(b, [Upsert(issue)]) == Apply(b, Upsert(issue)) && Emitted(b, [Upsert(issue)]) == 0
    ensures Exec(b, [Enqueue(id)] + [Upsert(issue)]) == Apply(Apply(b, Enqueue(id)), Upsert(issue))
    ensures Emitted(b, [Enqueue(id)] + [Upsert(issue)]) == if id in b.known then 0 else 1
    ensures [] + [Upsert(issue)] == [Upsert(issue)]
  {
    ExecPair(b, Enqueue(id), Upsert(issue));
    assert Emitted(b, [Upsert(issue)]) == 0 by { assert [Upsert(issue)][..0] == []; }
    assert Emitted(b, [Enqueue(id)]) == if id in b.known then 0 else 1 by { assert [Enqueue(id)][..0] == []; }
    assert ([Enqueue(id)] + [Upsert(issue)])[..1] == [Enqueue(id)];
  }

  lemma NothingObserved(b: Board, now: Time, from: Time)
    ensures ObserveAll(b, [], now) == [] && Exec(b, []) == b && Emitted(b, []) == 0 && Latest(from, []) == from
  {
  }

  lemma NothingRecovered(b: Board, now: Time, watermark: Option<Time>)
    ensures RecoverAll([], now, watermark) == [] && Exec(b, []) == b && Emitted(b, []) == 0
  {
  }

  lemma OneMoreObserved(b: Board, rows: seq<Issue>, i: nat, now: Time, from: Time)
    requires i < |rows|
    ensures var done := ObserveAll(b, rows[..i], now);
            var writes := ObserveWrites(Exec(b, done), rows[i], now);
            && ObserveAll(b, rows[..i + 1], now) == done + writes
            && Exec(b, done + writes) == Exec(Exec(b, done), writes)
            && Emitted(b, done + writes) == Emitted(b, done) + Emitted(Exec(b, done), writes)
    ensures var stamp, before := rows[i].updatedAt, Latest(from, rows[..i]);
            Latest(from, rows[..i + 1]) == if stamp.Some? && stamp.value > before then stamp.value else before
  {
    var done := ObserveAll(b, rows[..i], now);
    assert rows[..i + 1][..i] == rows[..i];
    ExecConcat(b, done, ObserveWrites(Exec(b, done), rows[i], now));
    EmittedConcat(b, done, ObserveWrites(Exec(b, done), rows[i], now));
  }

  lemma OneMoreRecovered(b: Board, rows: seq<Issue>, i: nat, now: Time, watermark: Option<Time>)
    requires i < |rows|
    ensures var done := RecoverAll(rows[..i], now, watermark);
            var writes := RecoverWrites(rows[i], now, watermark);
            && RecoverAll(rows[..i + 1], now, watermark) == done + writes
            && Exec(b, done + writes) == Exec(Exec(b, done), writes)
            && Emitted(b, done + writes) == Emitted(b, done) + Emitted(Exec(b, done), writes)
  {
    var done := RecoverAll(rows[..i], now, watermark);
    assert rows[..i + 1][..i] == rows[..i];
    ExecConcat(b, done, RecoverWrites(rows[i], now, watermark));
    EmittedConcat(b, done, RecoverWrites(rows[i], now, watermark));
  }

  lemma PageObserved(b: Board, done: seq<Issue>, rows: seq<Issue>, now: Time, from: Time)
    ensures var before := ObserveAll(b, done, now);
            var writes := ObserveAll(Exec(b, before), rows, now);
            && ObserveAll(b, done + rows, now) == before + writes
            && Exec(b, before + writes) == Exec(Exec(b, before), writes)
            && Emitted(b, before + writes) == Emitted(b, before) + Emitted(Exec(b, before), writes)
    ensures Latest(from, done + rows) == Latest(Latest(from, done), rows)
  {
    var before := ObserveAll(b, done, now);
    ObserveAllConcat(b, done, rows, now);
    ExecConcat(b, before, ObserveAll(Exec(b, before), rows, now));
    EmittedConcat(b, before, ObserveAll(Exec(b, before), rows, now));
    LatestConcat(from, done, rows);
  }

  lemma PageRecovered(b: Board, done: seq<Issue>, rows: seq<Issue>, now: Time, watermark: Option<Time>)
    ensures var before, writes := RecoverAll(done, now, watermark), RecoverAll(rows, now, watermark);
            && RecoverAll(done + rows, now, watermark) == before + writes
            && Exec(b, before + writes) == Exec(Exec(b, before), writes)
            && Emitted(b, before + writes) == Emitted(b, before) + Emitted(Exec(b, before), writes)
  {
    RecoverAllConcat(done, rows, now, watermark);
    ExecConcat(b, RecoverAll(done, now, watermark), RecoverAll(rows, now, watermark));
    EmittedConcat(b, RecoverAll(done, now, watermark), RecoverAll(rows, now, watermark));
  }

  lemma CursorWritten(b: Board, writes: seq<Write>, at: Time)
    ensures Exec(b, writes + [SetCursor(at)]) == Exec(b, writes).(cursor := Some(at))
    ensures Emitted(b, writes + [SetCursor(at)]) == Emitted(b, writes)
  {
    ExecAppend(b, writes, SetCursor(at));
    assert (writes + [SetCursor(at)])[..|writes|] == writes;
  }

  lemma BaselineWritten(b: Board, writes: seq<Write>, at: Time, watermark: Time)
    ensures Exec(b, writes + [SetBaseline(at, watermark)])
            == Exec(b, writes).(cursor := Some(at), watermark := Some(watermark))
    ensures Emitted(b, writes + [SetBaseline(at, watermark)]) == Emitted(b, writes)
  {
    ExecAppend(b, writes, SetBaseline(at, watermark));
    assert (writes + [SetBaseline(at, watermark)])[..|writes|] == writes;
  }

  lemma NothingSeeded(b: Board)
    ensures UpsertAll([]) == [] && Exec(b, []) == b && Emitted(b, []) == 0
  {
  }

  lemma NoListing(issues: seq<Issue>)
    ensures OpenListing(issues, OPEN_STATUSES[..0]) == []
  {
  }

  lemma OneMoreStatus(issues: seq<Issue>, i: nat)
    requires i < |OPEN_STATUSES|
    ensures OpenListing(issues, OPEN_STATUSES[..i + 1])
            == OpenListing(issues, OPEN_STATUSES[..i]) + FirstPage(WithStatus(issues, OPEN_STATUSES[i]))
  {
    assert OPEN_STATUSES[..i + 1][..i] == OPEN_STATUSES[..i];
  }

  lemma OneMoreSeeded(b: Board, seeded: seq<Issue>, rows: seq<Issue>, j: nat)
    requires j < |rows|
    ensures var before := UpsertAll(seeded + rows[..j]);
            && UpsertAll(seeded + rows[..j + 1]) == before + [Upsert(rows[j])]
            && Exec(b, before + [Upsert(rows[j])]) == Apply(Exec(b, before), Upsert(rows[j]))
            && Emitted(b, before + [Upsert(rows[j])]) == Emitted(b, before)
  {
    var before := UpsertAll(seeded + rows[..j]);
    assert (seeded + rows[..j + 1])[..|seeded| + j] == seeded + rows[..j];
    ExecAppend(b, before, Upsert(rows[j]));
    assert (before + [Upsert(rows[j])])[..|before|] == before;
  }
}
