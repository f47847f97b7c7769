/**
 What a look of the health monitor leaves behind, field by field, and what clearing the ended runs does.
 */
module Looks {
  import opened Basics
  import opened Events
  import opened Health

  /** The kind of alert a state asks for. */
  ghost predicate AlertKind(state: RunState, kind: EventType) {
    || (state == Slow && kind == HealthSlow)
    || (state == Stalled && kind == HealthStalled)
    || (state == Lost && kind == HealthLost)
    || (state == Healthy && kind == HealthRecovered)
  }

  /** The date a row's trouble began: the first one it was ever given. */
  ghost function FirstDate(row: Option<HealthRow>, now: Time): Option<Time> {
    if row.Some? && row.value.firstAbnormalAt.Some? then row.value.firstAbnormalAt else Some(now)
  }

  /** A change of state, or a reminder that has come due. */
  ghost predicate SpeaksUp(row: Option<HealthRow>, state: RunState, now: Time, interval: Time) {
    || row.None? || row.value.state != state
    || row.value.lastNotifiedAt == None
    || (exists at :: row.value.lastNotifiedAt == Some(at) && now - at >= interval)
  }

  /** The row of a run after a completed look. */
  ghost function RowAfter(row: Option<HealthRow>, state: RunState, now: Time, interval: Time): HealthRow {
    if state == Unknown || (state == Healthy && (row.None? || row.value.state == Healthy)) then
      if row.Some? then row.value else HealthRow(state, Some(now), None, 0, now)
    else if state == Healthy then HealthRow(Healthy, FirstDate(row, now), None, 0, now)
    else if SpeaksUp(row, state, now, interval) then
      HealthRow(state, FirstDate(row, now), Some(now), 1 + if row.Some? then row.value.notifyCount else 0, now)
    else HealthRow(state, FirstDate(row, now), row.value.lastNotifiedAt, row.value.notifyCount, now)
  }

  /** Whether a completed look raises an alert: trouble that speaks up, or a recovery from anything but health. */
  ghost predicate Alerts(row: Option<HealthRow>, state: RunState, now: Time, interval: Time) {
    || (state in {Slow, Stalled, Lost} && SpeaksUp(row, state, now, interval))
    || (state == Healthy && row.Some? && row.value.state != Healthy)
  }

  /**
   A completed look leaves the run this row, every other run as it was, and one alert, in the interval of the
   look, exactly if there is something to say.
   */
  lemma LooksLeave(d: Desk, run: string, state: RunState, now: Time, interval: Time, id: EventId)
    requires interval > 0
    ensures var d' := After(d, Look(run, state, now, None), interval);
            && d'.rows == d.rows[run := RowAfter(Lookup(d.rows, run), state, now, interval)]
            && (id in d'.known
                <==> id in d.known
                     || (Alerts(Lookup(d.rows, run), state, now, interval)
                         && exists kind :: AlertKind(state, kind) && id == HealthKey(run, kind, now / interval)))
  {
    LookedRows(d, run, state, now, interval);
    LookedAlerts(d, run, state, now, interval, id);
    hide *;
  }

  lemma LookedRows(d: Desk, run: string, state: RunState, now: Time, interval: Time)
    requires interval > 0
    ensures After(d, Look(run, state, now, None), interval).rows
            == d.rows[run := RowAfter(Lookup(d.rows, run), state, now, interval)]
  {
    ExecShort(d, LookWrites(d, run, state, now, interval));
    hide Exec;
    assert run in d.rows ==> d.rows[run := d.rows[run]] == d.rows;
  }

  lemma LookedAlerts(d: Desk, run: string, state: RunState, now: Time, interval: Time, id: EventId)
    requires interval > 0
    ensures id in After(d, Look(run, state, now, None), interval).known
            <==> id in d.known
                 || (Alerts(Lookup(d.rows, run), state, now, interval)
                     && exists kind :: AlertKind(state, kind) && id == HealthKey(run, kind, now / interval))
  {
    ExecShort(d, LookWrites(d, run, state, now, interval));
    hide Exec, Merge;
    if Abnormal(state) { assert AlertKind(state, KindOf(state)); }
    assert AlertKind(Healthy, HealthRecovered);
  }

  /** Clearing a run that ended: an abnormal row is healthy again, and nobody is told. */
  lemma ReapsLeave(d: Desk, run: string, now: Time, interval: Time)
    ensures var d' := After(d, Reap(run, now), interval);
            && d'.known == d.known
            && d'.rows == if run in d.rows && d.rows[run].state in {Slow, Stalled, Lost}
                          then d.rows[run := HealthRow(Healthy, FirstDate(Lookup(d.rows, run), now), None, 0, now)]
                          else d.rows
  {
    ExecShort(d, ReapWrites(d, run, now));
    hide Exec;
  }
}
