/**
 The bridge's database. Each method is one committed step. The ghost logs keep the order of the
 steps, domain by domain, so that a caller's contract can say what a crash would leave behind.
 */
module Storage {
  import opened Basics
  import opened Events
  import opened Outbox
  import Adaptive
  import Allocation
  import Health
  import Observation
  import Policy

  /** The order in which the store and the work board were written to by control code. */
  class Journal {
    ghost var writes: seq<Allocation.Write>

    constructor ()
      ensures writes == []
    {
      writes := [];
    }

    ghost method Add(w: Allocation.Write)
      modifies this
      ensures writes == old(writes) + [w]
    {
      writes := writes + [w];
    }
  }

  /** The outbox only gained rows, each new one pending and due at once. */
  ghost predicate OnlyGrew(
    events: map<EventId, Event>, rows: map<EventId, Delivery>,
    events': map<EventId, Event>, rows': map<EventId, Delivery>)
  {
    && (forall id :: id in events ==> id in events' && events'[id] == events[id])
    && (forall id :: id in rows ==> id in rows' && rows'[id] == rows[id])
    && (forall id :: id in rows' && id !in rows ==> rows'[id] == Fresh(rows'[id].updatedAt))
  }

  lemma NoGrowth(events: map<EventId, Event>, rows: map<EventId, Delivery>)
    ensures OnlyGrew(events, rows, events, rows)
  {
  }

  lemma GrowsOn(
    e0: map<EventId, Event>, r0: map<EventId, Delivery>, e1: map<EventId, Event>, r1: map<EventId, Delivery>,
    e2: map<EventId, Event>, r2: map<EventId, Delivery>)
    requires OnlyGrew(e0, r0, e1, r1) && OnlyGrew(e1, r1, e2, r2)
    ensures OnlyGrew(e0, r0, e2, r2)
  {
  }

  /** ids are due rows in due order, left are the other due rows, none of them due earlier. */
  ghost predicate Selecting(rows: map<EventId, Delivery>, now: Time, ids: seq<EventId>, left: set<EventId>) {
    && Distinct(ids)
    && (forall id :: id in left <==> id in DueIds(rows, now) && id !in ids)
    && (forall k :: 0 <= k < |ids| ==> ids[k] in DueIds(rows, now))
    && (forall j, k :: 0 <= j < k < |ids| ==> rows[ids[j]].nextAttemptAt <= rows[ids[k]].nextAttemptAt)
    && (forall k, id :: 0 <= k < |ids| && id in left ==> rows[ids[k]].nextAttemptAt <= rows[id].nextAttemptAt)
  }

  lemma SelectingBegins(rows: map<EventId, Delivery>, now: Time)
    ensures Selecting(rows, now, [], DueIds(rows, now))
  {
  }

  lemma LeftAreRows(rows: map<EventId, Delivery>, now: Time, ids: seq<EventId>, left: set<EventId>)
    requires Selecting(rows, now, ids, left)
    ensures forall id :: id in left ==> id in rows
  {
  }

  lemma SelectingGoesOn(rows: map<EventId, Delivery>, now: Time, ids: seq<EventId>, left: set<EventId>, oldest: EventId)
    requires Selecting(rows, now, ids, left) && oldest in left
    requires forall id :: id in left ==> id in rows && rows[oldest].nextAttemptAt <= rows[id].nextAttemptAt
    ensures Selecting(rows, now, ids + [oldest], left - {oldest})
  {
  }

  lemma SelectingEnds(rows: map<EventId, Delivery>, now: Time, limit: nat, ids: seq<EventId>, left: set<EventId>)
    requires Selecting(rows, now, ids, left) && |ids| <= limit && (left == {} || |ids| == limit)
    ensures IsClaim(rows, now, limit, ids)
  {
  }

  class Store {
    var events: map<EventId, Event>
    var deliveries: map<EventId, Delivery>
    var controlChannel: Option<string>

    var issueState: map<string, Seen>
    var updatedSince: Option<Time>
    var bootstrappedAt: Option<Time>

    var policies: seq<Policy.PolicyRow>
    var mandates: seq<Policy.Mandate>
    var ledger: map<string, Allocation.LedgerRow>
    var trackState: map<Allocation.Split, Allocation.TrackRow>
    var adaptiveState: Adaptive.Timer

    var runHealth: map<string, Health.HealthRow>

    const journal: Journal
    ghost var observed: seq<Observation.Write>
    ghost var watched: seq<Health.Write>
    ghost var timerStoredAfter: nat // the length of the journal when the adaptive state was last stored

    /** One delivery per event, each event filed under its own id and saying what its id says. */
    ghost predicate Valid()
      reads this
    {
      && events.Keys == deliveries.Keys
      && forall id :: id in events ==> events[id].id == id && WellLabelled(events[id])
    }

    ghost function BoardView(): Observation.Board
      reads this
    {
      Observation.Board(events.Keys, issueState, updatedSince, bootstrappedAt)
    }

    ghost function HealthView(): Health.Desk
      reads this
    {
      Health.Desk(runHealth, events.Keys)
    }

    constructor ()
      ensures Valid() && events == map[] && BoardView() == Observation.Board({}, map[], None, None)
      ensures HealthView() == Health.EMPTY_DESK && adaptiveState == Adaptive.NO_TIMER
      ensures policies == [] && mandates == [] && ledger == map[] && trackState == map[]
      ensures observed == [] && watched == [] && fresh(journal) && journal.writes == []
    {
      events, deliveries, controlChannel := map[], map[], None;
      issueState, updatedSince, bootstrappedAt := map[], None, None;
      policies, mandates, ledger, trackState := [], [], map[], map[];
      adaptiveState := Adaptive.NO_TIMER;
      runHealth := map[];
      observed, watched, timerStoredAfter := [], [], 0;
      journal := new Journal();
    }

    /******* Events and deliveries *******/

    /** Both rows or neither: an id that is known is left alone. */
    method EnqueueEvent(ev: Event, now: Time) returns (isNew: bool)
      requires Valid() && WellLabelled(ev)
      modifies this`events, this`deliveries, this`observed, this`watched
      ensures Valid()
      ensures isNew == (ev.id !in old(events))
      ensures events == if isNew then old(events)[ev.id := ev] else old(events)
      ensures deliveries == if isNew then old(deliveries)[ev.id := Delivery(Pending, 0, 0, None, None, now)]
                            else old(deliveries)
      ensures OnlyGrew(old(events), old(deliveries), events, deliveries)
      ensures observed == old(observed) + [Observation.Enqueue(ev.id)]
      ensures watched == old(watched) + [Health.Alert(ev.id)]
    {
      observed, watched := observed + [Observation.Enqueue(ev.id)], watched + [Health.Alert(ev.id)];
      if ev.id in events { return false; }
      events := events[ev.id := ev];
      deliveries := deliveries[ev.id := Fresh(now)];
      return true;
    }

    /** The due row that has waited longest. */
    method OldestOf(ids: set<EventId>) returns (oldest: EventId)
      requires ids != {} && forall id :: id in ids ==> id in deliveries
      ensures oldest in ids
      ensures forall id :: id in ids ==> deliveries[oldest].nextAttemptAt <= deliveries[id].nextAttemptAt
    {
      oldest :| oldest in ids;
      var left := ids - {oldest};
      while left != {}
        invariant left <= ids && oldest in ids
        invariant forall id :: id in ids && id !in left ==>
                   deliveries[oldest].nextAttemptAt <= deliveries[id].nextAttemptAt
      {
        var id :| id in left;
        if deliveries[id].nextAttemptAt < deliveries[oldest].nextAttemptAt { oldest := id; }
        left := left - {id};
      }
    }

    method SelectDue(now: Time, limit: nat) returns (ids: seq<EventId>)
      ensures IsClaim(deliveries, now, limit, ids)
    {
      hide Selecting, IsClaim;
      ids := [];
      var left := DueIds(deliveries, now);
      SelectingBegins(deliveries, now);
      while left != {} && |ids| < limit
        invariant |ids| <= limit && Selecting(deliveries, now, ids, left)
      {
        LeftAreRows(deliveries, now, ids, left);
        var oldest := OldestOf(left);
        SelectingGoesOn(deliveries, now, ids, left, oldest);
        ids := ids + [oldest];
        left := left - {oldest};
      }
      SelectingEnds(deliveries, now, limit, ids, left);
    }

    /** Takes the oldest due rows, at most limit of them, and marks them as being sent. */
    method ClaimDue(now: Time, limit: nat) returns (ids: seq<EventId>)
      requires Valid()
      modifies this`deliveries
      ensures Valid()
      ensures IsClaim(old(deliveries), now, limit, ids)
      ensures deliveries == MarkSending(old(deliveries), ids, now)
      ensures forall id :: id in deliveries ==>
                deliveries[id] == if id in ids then old(deliveries)[id].(state := Sending, updatedAt := now)
                                  else old(deliveries)[id]
    {
      ids := SelectDue(now, limit);
      ghost var before := deliveries;
      assert MarkSending(before, ids[..0], now) == before;
      for i := 0 to |ids|
        invariant deliveries == MarkSending(before, ids[..i], now)
      {
        assert ids[..i + 1] == ids[..i] + [ids[i]];
        assert ids[i] !in ids[..i];
        if deliveries[ids[i]].state.Pending? {
          deliveries := deliveries[ids[i] := deliveries[ids[i]].(state := Sending, updatedAt := now)];
        }
      }
      assert ids[..|ids|] == ids;
    }

    method RecoverInflight() returns (recovered: nat)
      requires Valid()
      modifies this`deliveries
      ensures Valid()
      ensures deliveries == RequeueSending(old(deliveries))
      ensures recovered == |set id | id in old(deliveries) && old(deliveries)[id].state.Sending?|
    {
      recovered := |set id | id in deliveries && deliveries[id].state.Sending?|;
      deliveries := RequeueSending(deliveries);
    }

    method FinishDelivery(id: EventId, state: DeliveryState, now: Time, buzzId: Option<string>, cause: Option<Cause>)
      requires Valid() && id in deliveries
      modifies this`deliveries
      ensures Valid()
      ensures deliveries == old(deliveries)[id := Finish(old(deliveries)[id], state, now, buzzId, cause)]
      ensures var d := old(deliveries)[id];
              deliveries[id] == Delivery(state, d.attempts, d.nextAttemptAt, if cause.None? then d.lastError else cause,
                                         if buzzId.None? then d.buzzEventId else buzzId, now)
    {
      var d := deliveries[id];
      deliveries := deliveries[id := d.(
        state := state,
        buzzEventId := if buzzId.Some? then buzzId else d.buzzEventId,
        lastError := if cause.Some? then cause else d.lastError,
        updatedAt := now)];
    }

    method MarkSent(id: EventId, buzzId: string, now: Time)
      requires Valid() && id in deliveries
      modifies this`deliveries
      ensures Valid()
      ensures deliveries == old(deliveries)[id := Finish(old(deliveries)[id], Sent, now, Some(buzzId), None)]
    {
      FinishDelivery(id, Sent, now, Some(buzzId), None);
    }

    method MarkFallback(id: EventId, buzzId: string, now: Time)
      requires Valid() && id in deliveries
      modifies this`deliveries
      ensures Valid()
      ensures deliveries == old(deliveries)[id := Finish(old(deliveries)[id], FallbackSent, now, Some(buzzId), None)]
    {
      FinishDelivery(id, FallbackSent, now, Some(buzzId), None);
    }

    method MarkExpired(id: EventId, now: Time)
      requires Valid() && id in deliveries
      modifies this`deliveries
      ensures Valid()
      ensures deliveries == old(deliveries)[id := Finish(old(deliveries)[id], Expired, now, None, Some(TooOld))]
    {
      FinishDelivery(id, Expired, now, None, Some(TooOld));
    }

    method MarkFailed(id: EventId, cause: Cause, now: Time)
      requires Valid() && id in deliveries
      modifies this`deliveries
      ensures Valid()
      ensures deliveries == old(deliveries)[id := Finish(old(deliveries)[id], Failed, now, None, Some(cause))]
    {
      FinishDelivery(id, Failed, now, None, Some(cause));
    }

    method Reschedule(id: EventId, at: Time, cause: Cause, now: Time)
      requires Valid() && id in deliveries
      modifies this`deliveries
      ensures Valid()
      ensures deliveries == old(deliveries)[id := Outbox.Reschedule(old(deliveries)[id], at, cause, now)]
      ensures var d := old(deliveries)[id];
              deliveries[id] == Delivery(Pending, d.attempts + 1, at, Some(cause), d.buzzEventId, now)
    {
      var d := deliveries[id];
      deliveries := deliveries[id := d.(
        state := Pending, attempts := d.attempts + 1, nextAttemptAt := at, lastError := Some(cause), updatedAt := now)];
    }

    /******* Cursor and issue state *******/

    /** A missing start date keeps the one that is stored. */
    method SetCursor(since: Time, startedAt: Option<Time>)
      modifies this`updatedSince, this`bootstrappedAt, this`observed
      ensures Valid() == old(Valid())
      ensures BoardView()
              == old(BoardView()).(cursor := Some(since), watermark := OrElse(startedAt, old(bootstrappedAt)))
      ensures observed
              == old(observed)
                 + [if startedAt.Some? then Observation.SetBaseline(since, startedAt.value)
                    else Observation.SetCursor(since)]
    {
      updatedSince := Some(since);
      if startedAt.Some? { bootstrappedAt := startedAt; }
      observed := observed
        + [if startedAt.Some? then Observation.SetBaseline(since, startedAt.value) else Observation.SetCursor(since)];
    }

    method UpsertIssueState(issue: Issue)
      modifies this`issueState, this`observed
      ensures BoardView() == old(BoardView()).(seen := old(issueState)[issue.id := Observation.SeenOf(issue)])
      ensures observed == old(observed) + [Observation.Upsert(issue)]
    {
      issueState := issueState[issue.id := Seen(issue.status, TerminalTs(issue), issue.updatedAt)];
      observed := observed + [Observation.Upsert(issue)];
    }

    /******* Policies, ledger and track states *******/

    method InsertPolicy(row: Policy.PolicyRow)
      modifies this`policies, journal
      ensures policies == old(policies) + [row]
      ensures journal.writes == old(journal.writes) + [Allocation.InsertPolicy(row)]
    {
      policies := policies + [row];
      journal.Add(Allocation.InsertPolicy(row));
    }

    method LedgerPut(agent: string, entry: Allocation.LedgerRow)
      modifies this`ledger, journal
      ensures ledger == old(ledger)[agent := entry.(releasedAt := None)]
      ensures journal.writes == old(journal.writes) + [Allocation.PutLedger(agent, entry.(releasedAt := None))]
    {
      var row := entry.(releasedAt := None);
      ledger := ledger[agent := row];
      journal.Add(Allocation.PutLedger(agent, row));
    }

    method LedgerRelease(agent: string, at: Time)
      modifies this`ledger, journal
      ensures ledger == if agent in old(ledger) then old(ledger)[agent := old(ledger)[agent].(releasedAt := Some(at))]
              else old(ledger)
      ensures journal.writes == old(journal.writes) + [Allocation.Release(agent, at)]
    {
      if agent in ledger {
        ledger := ledger[agent := ledger[agent].(releasedAt := Some(at))];
      }
      journal.Add(Allocation.Release(agent, at));
    }

    method SetTrackState(track: Allocation.Split, row: Allocation.TrackRow)
      modifies this`trackState, journal
      ensures trackState == old(trackState)[track := row]
      ensures journal.writes == old(journal.writes) + [Allocation.SetTrack(track, row)]
    {
      trackState := trackState[track := row];
      journal.Add(Allocation.SetTrack(track, row));
    }

    method SetAdaptiveState(timer: Adaptive.Timer)
      modifies this`adaptiveState, this`timerStoredAfter
      ensures adaptiveState == timer && timerStoredAfter == |journal.writes|
    {
      adaptiveState := timer;
      timerStoredAfter := |journal.writes|;
    }

    /******* Run health *******/

    /** Insert or update; an update keeps the first date the row was given. */
    method SetRunHealth(run: string, row: Health.HealthRow)
      modifies this`runHealth, this`watched
      ensures HealthView() == Health.Apply(old(HealthView()), Health.Put(run, row))
      ensures watched == old(watched) + [Health.Put(run, row)]
    {
      if run !in runHealth {
        runHealth := runHealth[run := row];
      } else {
        var first := runHealth[run].firstAbnormalAt;
        runHealth := runHealth[run := row.(firstAbnormalAt := if first.Some? then first else row.firstAbnormalAt)];
      }
      watched := watched + [Health.Put(run, row)];
    }
  }
}
