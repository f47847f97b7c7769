/** The health monitor's two passes as the bridge runs them: a look at each live run, then ended ones are cleared. */
module HealthWatch {
  import opened Basics
  import opened Events
  import opened Health
  import opened Looks
  import Outbox
  import opened Storage

  class HealthMonitor {
    const store: Store
    const interval: Time

    constructor (store: Store, interval: Time)
      ensures this.store == store && this.interval == interval
    {
      this.store, this.interval := store, interval;
    }

    twostate predicate Wrote(script: seq<Write>)
      reads store
    {
      && store.Valid()
      && OnlyGrew(old(store.events), old(store.deliveries), store.events, store.deliveries)
      && store.watched == old(store.watched) + script
      && store.HealthView() == Exec(old(store.HealthView()), script)
    }

    /** Every event that was added is an alert of this moment, for this channel, and due at once. */
    twostate predicate Alerted(now: Time, channel: Option<string>)
      reads store
    {
      forall id :: id in store.events && id !in old(store.events) ==>
        && id.HealthKey? && id in store.deliveries
        && store.events[id] == Event(id, id.kind, Some(now), channel)
        && store.deliveries[id] == Outbox.Delivery(Outbox.Pending, 0, 0, None, None, now)
    }

    /** Puts one alert into the outbox; without an interval it raises and nothing is written. */
    method Emit(run: string, kind: EventType, now: Time, channel: Option<string>) returns (isNew: bool)
      requires store.Valid()
      modifies store`events, store`deliveries, store`observed, store`watched
      ensures Wrote(AlertWrites(run, kind, now, interval)) && Alerted(now, channel)
      ensures isNew <==> interval != 0 && HealthKey(run, kind, FloorDiv(now, interval)) !in old(store.events)
      ensures isNew <==> store.events.Keys != old(store.events).Keys
      ensures store.runHealth == old(store.runHealth)
    {
      ghost var d := store.HealthView();
      if interval == 0 { return false; }
      var bucket := FloorDiv(now, interval);
      var id := HealthKey(run, kind, bucket);
      ExecUpToThree(d, Alert(id), Alert(id), Alert(id));
      isNew := store.EnqueueEvent(Event(id, kind, Some(now), channel), now);
      assert id in store.events;
    }

    /** The row first, then the alert: a crash in between loses the alert. */
    method Notify(run: string, row: HealthRow, kind: EventType, now: Time, channel: Option<string>)
        returns (alerted: bool)
      requires store.Valid()
      modifies store`events, store`deliveries, store`runHealth, store`observed, store`watched
      ensures Wrote([Put(run, row)] + AlertWrites(run, kind, now, interval)) && Alerted(now, channel)
      ensures alerted <==> store.events.Keys != old(store.events).Keys
    {
      hide Exec, Apply, FloorDiv, AlertWrites;
      RowThenAlert(store.HealthView(), Put(run, row), AlertWrites(run, kind, now, interval));
      store.SetRunHealth(run, row);
      alerted := Emit(run, kind, now, channel);
    }

    method Open(run: string, state: RunState, now: Time) returns (previous: Option<RunState>, row: HealthRow)
      requires store.Valid()
      modifies store`runHealth, store`watched
      ensures Wrote(OpeningWrites(old(store.HealthView()), run, state, now))
      ensures previous == if run in old(store.runHealth) then Some(old(store.runHealth)[run].state) else None
      ensures row == if run in old(store.runHealth) then old(store.runHealth)[run] else Row(state, now, None, 0)
    {
      ghost var d := store.HealthView();
      ExecShort(d, OpeningWrites(d, run, state, now));
      if run in store.runHealth { return Some(store.runHealth[run].state), store.runHealth[run]; }
      store.SetRunHealth(run, Row(state, now, None, 0));
      return None, store.runHealth[run];
    }

    method React(previous: Option<RunState>, row: HealthRow, run: string, state: RunState, now: Time,
        channel: Option<string>)
      returns (alerted: bool)
      requires store.Valid()
      modifies store`events, store`deliveries, store`runHealth, store`observed, store`watched
      ensures Wrote(ReactionWrites(previous, row, run, state, now, interval)) && Alerted(now, channel)
      ensures alerted <==> store.events.Keys != old(store.events).Keys
    {
      hide Exec, Apply, AlertWrites, KindOf;
      ghost var d := store.HealthView();
      OpeningOnly(d, []);
      if state.Healthy? {
        if previous.None? || previous.value.Healthy? { return false; }
        alerted := Notify(run, Row(Healthy, now, None, 0), HealthRecovered, now, channel);
        return;
      }
      if state.Unknown? { return false; }
      var due := row.lastNotifiedAt.None? || now - row.lastNotifiedAt.value >= interval;
      var first := previous != Some(state);
      if first || due {
        alerted := Notify(run, Row(state, now, Some(now), row.notifyCount + 1), KindOf(state), now, channel);
        return;
      }
      OpeningOnly(d, [Put(run, Row(state, now, row.lastNotifiedAt, row.notifyCount))]);
      store.SetRunHealth(run, Row(state, now, row.lastNotifiedAt, row.notifyCount));
      return false;
    }

    /** One look at a running run. */
    method ApplyState(run: string, state: RunState, now: Time, channel: Option<string>) returns (alerted: bool)
      requires store.Valid()
      modifies store`events, store`deliveries, store`runHealth, store`observed, store`watched
      ensures Wrote(LookWrites(old(store.HealthView()), run, state, now, interval)) && Alerted(now, channel)
      ensures alerted <==> store.events.Keys != old(store.events).Keys
    {
      hide Exec, OpeningWrites, ReactionWrites;
      ghost var d := store.HealthView();
      var previous, row := Open(run, state, now);
      LaterWrites(d, OpeningWrites(d, run, state, now), ReactionWrites(previous, row, run, state, now, interval));
      alerted := React(previous, row, run, state, now, channel);
    }

    /**
     Clears, without a word, the abnormal runs that ended. abnormal lists the rows as they were read,
     live the runs the board says are running, and still what it says of each run it can find.
     */
    method ReapEnded(abnormal: seq<string>, live: set<string>, still: map<string, bool>, now: Time)
      requires store.Valid() && Distinct(abnormal)
      requires forall run :: run in abnormal ==> run in store.runHealth && Abnormal(store.runHealth[run].state)
      modifies store`runHealth, store`watched
      ensures store.Valid()
      ensures store.HealthView()
              == RunVisits(old(store.HealthView()), Reaps(Ended(abnormal, live, still), now), interval)
    {
      hide After, Apply, Reaps, Ended, RunVisits, Merge;
      ghost var d := store.HealthView();
      NothingReaped(d, live, still, now, interval);
      for i := 0 to |abnormal|
        invariant store.Valid()
                  && store.HealthView() == RunVisits(d, Reaps(Ended(abnormal[..i], live, still), now), interval)
        invariant forall k :: i <= k < |abnormal| ==>
                   abnormal[k] in store.runHealth && Abnormal(store.runHealth[abnormal[k]].state)
      {
        var run := abnormal[i];
        OneMoreRow(abnormal, i, live, still);
        if run in live || run !in still || still[run] { continue; }
        OneMoreReap(d, Ended(abnormal[..i], live, still), run, now, interval);
        ReapIs(store.HealthView(), run, now, interval);
        OthersKeepTheirRows(store.HealthView(), run, Row(Healthy, now, None, 0));
        store.SetRunHealth(run, Row(Healthy, now, None, 0));
      }
      assert abnormal[..|abnormal|] == abnormal;
    }
  }

  lemma NothingReaped(d: Desk, live: set<string>, still: map<string, bool>, now: Time, interval: Time)
    ensures RunVisits(d, Reaps(Ended([], live, still), now), interval) == d
  {
  }

  lemma OthersKeepTheirRows(d: Desk, run: string, row: HealthRow)
    ensures forall other :: other in d.rows && other != run ==>
              other in Apply(d, Put(run, row)).rows && Apply(d, Put(run, row)).rows[other] == d.rows[other]
  {
  }

  /** The runs that are neither live nor unknown to the board nor still said to be running. */
  function Ended(abnormal: seq<string>, live: set<string>, still: map<string, bool>): seq<string> {
    if abnormal == [] then []
    else
      var run := abnormal[|abnormal| - 1];
      Ended(abnormal[..|abnormal| - 1], live, still) + if run !in live && run in still && !still[run] then [run] else []
  }

  lemma OneMoreRow(abnormal: seq<string>, i: nat, live: set<string>, still: map<string, bool>)
    requires i < |abnormal|
    ensures var run, before := abnormal[i], Ended(abnormal[..i], live, still);
            Ended(abnormal[..i + 1], live, still)
            == if run !in live && run in still && !still[run] then before + [run] else before
  {
    assert abnormal[..i + 1][..i] == abnormal[..i];
  }

  function Reaps(ended: seq<string>, now: Time): seq<Visit> {
    if ended == [] then [] else Reaps(ended[..|ended| - 1], now) + [Reap(ended[|ended| - 1], now)]
  }

  lemma OneMoreReap(d: Desk, ended: seq<string>, run: string, now: Time, interval: Time)
    ensures RunVisits(d, Reaps(ended + [run], now), interval)
            == After(RunVisits(d, Reaps(ended, now), interval), Reap(run, now), interval)
  {
    assert (ended + [run])[..|ended|] == ended;
    var front := Reaps(ended, now);
    assert (front + [Reap(run, now)])[..|front|] == front;
  }

  lemma ReapIs(d: Desk, run: string, now: Time, interval: Time)
    ensures After(d, Reap(run, now), interval)
            == if run !in d.rows || !Abnormal(d.rows[run].state) then d
               else Apply(d, Put(run, Row(Healthy, now, None, 0)))
  {
    ExecShort(d, ReapWrites(d, run, now));
  }

  /** The run is on the list, not live, and the board knows it and says it is no longer running. */
  ghost predicate HasEnded(run: string, abnormal: seq<string>, live: set<string>, still: map<string, bool>) {
    run in abnormal && run !in live && Lookup(still, run) == Some(false)
  }

  lemma {:induction false} EndedAre(abnormal: seq<string>, live: set<string>, still: map<string, bool>)
    ensures forall run :: run in Ended(abnormal, live, still) <==> HasEnded(run, abnormal, live, still)
  {
    if abnormal != [] {
      EndedAre(abnormal[..|abnormal| - 1], live, still);
      assert abnormal == abnormal[..|abnormal| - 1] + [abnormal[|abnormal| - 1]];
    }
  }

  ghost predicate IsReaped(d: Desk, d': Desk, ended: seq<string>, now: Time) {
    && d'.known == d.known && d'.rows.Keys == d.rows.Keys
    && forall run :: run in d.rows ==>
         d'.rows[run] == if run in ended && Abnormal(d.rows[run].state)
                         then HealthRow(Healthy, FirstDate(Some(d.rows[run]), now), None, 0, now) else d.rows[run]
  }

  lemma OneMoreReaped(d: Desk, mid: Desk, front: seq<string>, last: string, now: Time)
    requires IsReaped(d, mid, front, now) && last in d.rows
    ensures var row := mid.rows[last];
            var cleared := HealthRow(Healthy, FirstDate(Some(row), now), None, 0, now);
            var after := if row.state in {Slow, Stalled, Lost} then mid.(rows := mid.rows[last := cleared]) else mid;
            IsReaped(d, after, front + [last], now)
  {
    forall run ensures run in front + [last] <==> run in front || run == last {}
  }

  lemma {:induction false} ReapedAre(d: Desk, ended: seq<string>, now: Time, interval: Time)
    requires forall run :: run in ended ==> run in d.rows
    ensures IsReaped(d, RunVisits(d, Reaps(ended, now), interval), ended, now)
  {
    if ended != [] {
      hide RunVisits, Reaps, After, IsReaped;
      var front, last := ended[..|ended| - 1], ended[|ended| - 1];
      assert ended == front + [last] && last in ended && forall run :: run in front ==> run in ended;
      ReapedAre(d, front, now, interval);
      OneMoreReap(d, front, last, now, interval);
      var mid := RunVisits(d, Reaps(front, now), interval);
      ReapsLeave(mid, last, now, interval);
      KeysOfReaped(d, mid, front, now);
      OneMoreReaped(d, mid, front, last, now);
    }
  }

  lemma KeysOfReaped(d: Desk, d': Desk, ended: seq<string>, now: Time)
    requires IsReaped(d, d', ended, now)
    ensures d'.rows.Keys == d.rows.Keys && forall run :: run in d.rows ==> Lookup(d'.rows, run) == Some(d'.rows[run])
  {
  }

  /**
   What the clearing pass comes to: exactly the listed runs that are not live and are said to have ended are
   healthy again, with the date their trouble began; every other row, and every alert, is as it was.
   */
  lemma EndedRunsAreCleared(
      d: Desk, abnormal: seq<string>, live: set<string>, still: map<string, bool>, now: Time, interval: Time,
      run: string)
    requires (forall r :: r in abnormal ==> r in d.rows && Abnormal(d.rows[r].state)) && run in d.rows
    ensures var d' := RunVisits(d, Reaps(Ended(abnormal, live, still), now), interval);
            && d'.known == d.known && d'.rows.Keys == d.rows.Keys
            && d'.rows[run] == if HasEnded(run, abnormal, live, still)
                               then HealthRow(Healthy, FirstDate(Some(d.rows[run]), now), None, 0, now)
                               else d.rows[run]
  {
    EndedAre(abnormal, live, still);
    hide RunVisits, Reaps, Ended;
    ReapedAre(d, Ended(abnormal, live, still), now, interval);
  }

  lemma OpeningOnly(d: Desk, unseen: seq<Write>)
    requires |unseen| <= 1
    ensures Exec(d, unseen) == if unseen == [] then d else Apply(d, unseen[0])
  {
    ExecShort(d, unseen);
  }

  lemma LaterWrites(d: Desk, unseen: seq<Write>, rest: seq<Write>)
    ensures Exec(d, unseen + rest) == Exec(Exec(d, unseen), rest)
  {
    ExecConcat(d, unseen, rest);
  }

  /** A row and then an alert or none: what they come to. */
  lemma RowThenAlert(d: Desk, put: Write, alert: seq<Write>)
    ensures Exec(d, [put] + alert) == Exec(Apply(d, put), alert)
  {
    ExecShort(d, [put]);
    ExecConcat(d, [put], alert);
  }
}
