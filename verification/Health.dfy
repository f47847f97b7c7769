/**
 Run health over values: what a look at a run writes, when it reminds, and which reminders the
 dedupe key swallows. The health row is written before the alert; a crash may fall in between.
 */
module Health {
  import opened Basics
  import opened Events

  datatype RunState = Healthy | Slow | Stalled | Lost | Unknown

  predicate Abnormal(state: RunState) { state.Slow? || state.Stalled? || state.Lost? }

  /******* Classification *******/

  datatype Silence = Silence(abnormal: bool, lastOutputAt: Option<Time>)

  /** A run as the board shows it; progress is its newest sign of life. */
  datatype RunView = RunView(running: bool, finished: bool, hasPid: bool, silence: Silence, progress: Option<Time>)

  datatype AgentView = Working | Halted

  /** The issue's terminal stamp, when its status is a terminal one. */
  datatype Limits = Limits(slow: Time, stall: Time, grace: Time)

  predicate SilentFor(run: RunView, now: Time, least: Time) {
    run.progress.None? || now - run.progress.value >= least
  }

  function Classify(run: RunView, agent: AgentView, issueEndedAt: Option<Time>, now: Time, limits: Limits): RunState {
    if !run.running then Healthy
    else if run.finished then Lost
    else if issueEndedAt.Some? && now - issueEndedAt.value > limits.grace && SilentFor(run, now, limits.slow) then Lost
    else if agent.Halted? && run.progress.None? then Unknown
    else if agent.Halted? && SilentFor(run, now, limits.slow) then Lost
    else if run.progress.None? then Unknown
    else if now - run.progress.value >= limits.stall then
      if run.silence.abnormal then Stalled
      else if run.hasPid || run.silence.lastOutputAt.Some? then Slow
      else Unknown
    else if now - run.progress.value >= limits.slow then Slow
    else Healthy
  }

  /** Only a contradiction makes a run lost: it ended, or it is silent after its issue ended or its agent was halted. */
  lemma LostNeedsEvidence(run: RunView, agent: AgentView, issueEndedAt: Option<Time>, now: Time, limits: Limits)
    ensures !run.running ==> Classify(run, agent, issueEndedAt, now, limits).Healthy?
    ensures Classify(run, agent, issueEndedAt, now, limits).Lost?
            <==> run.running
                 && (run.finished
                     || ((run.progress.None? || now - run.progress.value >= limits.slow)
                         && ((issueEndedAt.Some? && now - issueEndedAt.value > limits.grace)
                             || (agent.Halted? && run.progress.Some?))))
  {
  }

  /** Short of a contradiction, the age of the last sign of life decides; a stall needs an abnormal silence besides. */
  lemma SilenceDecides(run: RunView, agent: AgentView, issueEndedAt: Option<Time>, now: Time, limits: Limits)
    requires run.running && !Classify(run, agent, issueEndedAt, now, limits).Lost?
    ensures var state, seen := Classify(run, agent, issueEndedAt, now, limits), run.progress;
            && (state.Healthy? <==> seen.Some? && now - seen.value < Min(limits.slow, limits.stall))
            && (state.Stalled? <==> seen.Some? && now - seen.value >= limits.stall && run.silence.abnormal)
            && (state.Unknown? <==> seen.None?
                                    || (now - seen.value >= limits.stall && !run.silence.abnormal
                                        && !run.hasPid && run.silence.lastOutputAt.None?))
  {
  }

  /**
   Silence does not only escalate. While nothing but the clock moves, a run that was slow stays
   abnormal exactly when by then its issue has ended long enough ago or its agent is halted, or it is
   not yet past the stall limit, or there is anything to see of its process; else it turns unknown.
   */
  lemma SlowRunsMayFadeFromView(
      run: RunView, agent: AgentView, issueEndedAt: Option<Time>, now: Time, later: Time, limits: Limits)
    requires Classify(run, agent, issueEndedAt, now, limits).Slow? && now <= later
    ensures var afterwards := Classify(run, agent, issueEndedAt, later, limits);
            && (Abnormal(afterwards) <==>
                  || (SilentFor(run, later, limits.slow)
                      && (agent.Halted? || (issueEndedAt.Some? && later - issueEndedAt.value > limits.grace)))
                  || later - run.progress.value < limits.stall
                  || run.silence.abnormal || run.hasPid || run.silence.lastOutputAt.Some?)
            && (Abnormal(afterwards) || afterwards.Unknown?)
  {
    assert run.running && !run.finished;
    hide Classify;
    LostNeedsEvidence(run, agent, issueEndedAt, later, limits);
    SilenceDecides(run, agent, issueEndedAt, now, limits);
    if !Classify(run, agent, issueEndedAt, later, limits).Lost? {
      SilenceDecides(run, agent, issueEndedAt, later, limits);
    }
  }

  /******* The tables *******/

  datatype HealthRow = HealthRow(
    state: RunState,
    firstAbnormalAt: Option<Time>,
    lastNotifiedAt: Option<Time>,
    notifyCount: nat,
    updatedAt: Time)

  datatype Desk = Desk(rows: map<string, HealthRow>, known: set<EventId>)

  const EMPTY_DESK: Desk := Desk(map[], {})

  datatype Write =
    | Put(run: string, row: HealthRow)
    | Alert(id: EventId)

  /** An update never replaces the first date a row was given. */
  function Merge(previous: Option<HealthRow>, row: HealthRow): HealthRow {
    if previous.None? then row else row.(firstAbnormalAt := OrElse(previous.value.firstAbnormalAt, row.firstAbnormalAt))
  }

  function Apply(d: Desk, w: Write): Desk {
    match w
    case Put(run, row) => d.(rows := d.rows[run := Merge(Lookup(d.rows, run), row)])
    case Alert(id) => d.(known := d.known + {id})
  }

  function Exec(d: Desk, ws: seq<Write>): Desk
    decreases |ws|
  {
    if ws == [] then d else Exec(Apply(d, ws[0]), ws[1..])
  }

  function KindOf(state: RunState): EventType
    requires Abnormal(state)
  {
    match state
    case Slow => HealthSlow
    case Stalled => HealthStalled
    case Lost => HealthLost
  }

  predicate AlarmKind(kind: EventType) { kind.HealthSlow? || kind.HealthStalled? || kind.HealthLost? }

  /** Division that rounds down, whatever the sign of the divisor. */
  function FloorDiv(a: int, b: int): int
    requires b != 0
  {
    if b > 0 then a / b else (-a) / (-b)
  }

  /** The alert of a run; with no reminder interval the bucket cannot be computed and this raises. */
  function AlertWrites(run: string, kind: EventType, now: Time, interval: Time): seq<Write> {
    if interval == 0 then [] else [Alert(HealthKey(run, kind, FloorDiv(now, interval)))]
  }

  function Row(state: RunState, now: Time, notified: Option<Time>, count: nat): HealthRow {
    HealthRow(state, Some(now), notified, count, now)
  }

  predicate IsDue(row: HealthRow, now: Time, interval: Time) {
    row.lastNotifiedAt.None? || now - row.lastNotifiedAt.value >= interval
  }

  /** A run met for the first time gets a row before anything else. */
  function OpeningWrites(d: Desk, run: string, state: RunState, now: Time): seq<Write> {
    if run in d.rows then [] else [Put(run, Row(state, now, None, 0))]
  }

  /** What a look does with a run whose stored state was previous and whose row is now this one. */
  function ReactionWrites(previous: Option<RunState>, row: HealthRow, run: string, state: RunState, now: Time,
      interval: Time): seq<Write> {
    if state.Healthy? then
      if previous.Some? && !previous.value.Healthy?
      then [Put(run, Row(Healthy, now, None, 0))] + AlertWrites(run, HealthRecovered, now, interval)
      else []
    else if state.Unknown? then []
    else if previous != Some(state) || IsDue(row, now, interval) then
      [Put(run, Row(state, now, Some(now), row.notifyCount + 1))] + AlertWrites(run, KindOf(state), now, interval)
    else
      [Put(run, Row(state, now, row.lastNotifiedAt, row.notifyCount))]
  }

  /** The writes of one look at a running run. */
  function LookWrites(d: Desk, run: string, state: RunState, now: Time, interval: Time): seq<Write> {
    var previous := if run in d.rows then Some(d.rows[run].state) else None;
    var row := if run in d.rows then d.rows[run] else Row(state, now, None, 0);
    OpeningWrites(d, run, state, now) + ReactionWrites(previous, row, run, state, now, interval)
  }

  /** A run that ended is cleared silently. */
  function ReapWrites(d: Desk, run: string, now: Time): seq<Write> {
    if run in d.rows && Abnormal(d.rows[run].state) then [Put(run, Row(Healthy, now, None, 0))] else []
  }

  /** One look or one clearing, that dies after at most cut writes if it is cut. */
  datatype Visit =
    | Look(run: string, state: RunState, now: Time, cut: Option<nat>)
    | Reap(run: string, now: Time)

  function WritesOf(d: Desk, v: Visit, interval: Time): seq<Write> {
    match v
    case Look(run, state, now, cut) =>
      var all := LookWrites(d, run, state, now, interval);
      if cut.Some? then all[..Min(cut.value, |all|)] else all
    case Reap(run, now) => ReapWrites(d, run, now)
  }

  function After(d: Desk, v: Visit, interval: Time): Desk {
    Exec(d, WritesOf(d, v, interval))
  }

  function RunVisits(d: Desk, visits: seq<Visit>, interval: Time): Desk {
    if visits == [] then d else After(RunVisits(d, visits[..|visits| - 1], interval), visits[|visits| - 1], interval)
  }

  lemma ExecUpToThree(d: Desk, x: Write, y: Write, z: Write)
    ensures Exec(d, [x]) == Apply(d, x) && Exec(d, [x, y]) == Apply(Apply(d, x), y)
    ensures Exec(d, [x, y, z]) == Apply(Apply(Apply(d, x), y), z)
  {
    assert Exec(d, [x]) == Apply(d, x) by { assert [x][1..] == []; }
    assert Exec(d, [x, y]) == Exec(Apply(d, x), [y]) by { assert [x, y][1..] == [y]; }
    assert Exec(Apply(d, x), [y]) == Apply(Apply(d, x), y) by { assert [y][1..] == []; }
    assert Exec(d, [x, y, z]) == Exec(Apply(d, x), [y, z]) by { assert [x, y, z][1..] == [y, z]; }
    assert Exec(Apply(d, x), [y, z]) == Exec(Apply(Apply(d, x), y), [z]) by { assert [y, z][1..] == [z]; }
    assert Exec(Apply(Apply(d, x), y), [z]) == Apply(Apply(Apply(d, x), y), z) by { assert [z][1..] == []; }
  }

  lemma {:induction false} ExecConcat(d: Desk, xs: seq<Write>, ys: seq<Write>)
    ensures Exec(d, xs + ys) == Exec(Exec(d, xs), ys)
    decreases |xs|
  {
    if xs == [] {
      assert xs + ys == ys;
    } else {
      assert (xs + ys)[1..] == xs[1..] + ys;
      ExecConcat(Apply(d, xs[0]), xs[1..], ys);
    }
  }

  /** What was executed, spelled out for the at most three writes of a visit. */
  lemma ExecShort(d: Desk, ws: seq<Write>)
    requires |ws| <= 3
    ensures Exec(d, ws) ==
            if |ws| == 0 then d else if |ws| == 1 then Apply(d, ws[0])
            else if |ws| == 2 then Apply(Apply(d, ws[0]), ws[1])
            else Apply(Apply(Apply(d, ws[0]), ws[1]), ws[2])
  {
    if |ws| == 1 {
      assert ws == [ws[0]];
      ExecUpToThree(d, ws[0], ws[0], ws[0]);
    } else if |ws| == 2 {
      assert ws == [ws[0], ws[1]];
      ExecUpToThree(d, ws[0], ws[1], ws[1]);
    } else if |ws| == 3 {
      assert ws == [ws[0], ws[1], ws[2]];
      ExecUpToThree(d, ws[0], ws[1], ws[2]);
    }
  }

  /******* The invariant that keeps reminders fresh *******/

  predicate AlarmOf(id: EventId, run: string) {
    id.HealthKey? && id.run == run && AlarmKind(id.kind)
  }

  /** The alarms of this run are no newer than at, in whole intervals. */
  ghost predicate AlarmsUpTo(d: Desk, run: string, at: Time, interval: Time)
    requires interval > 0
  {
    forall id :: id in d.known && AlarmOf(id, run) ==> id.bucket <= at / interval
  }

  ghost predicate NoAlarms(d: Desk, run: string) {
    forall id :: id in d.known ==> !AlarmOf(id, run)
  }

  /**
   No alarm is from the future, none is newer than the row's last notification, and a run without
   a row, or with an abnormal row that was never notified, has had none.
   */
  ghost predicate Orderly(d: Desk, run: string, clock: Time, interval: Time)
    requires interval > 0
  {
    && AlarmsUpTo(d, run, clock, interval)
    && match Lookup(d.rows, run)
       case None => NoAlarms(d, run)
       case Some(row) =>
         && (row.lastNotifiedAt.Some?
             ==> row.lastNotifiedAt.value <= clock && AlarmsUpTo(d, run, row.lastNotifiedAt.value, interval))
         && (row.lastNotifiedAt.None? && Abnormal(row.state) ==> NoAlarms(d, run))
         && (row.state.Unknown? ==> row.lastNotifiedAt.None? && NoAlarms(d, run))
  }

  lemma BucketsGrow(a: Time, b: Time, interval: Time)
    requires interval > 0 && a <= b
    ensures a / interval <= b / interval
    ensures b - a >= interval ==> a / interval < b / interval
  {
    var qa, qb := a / interval, b / interval;
    assert a == qa * interval + a % interval && b == qb * interval + b % interval;
    assert (qb + 1) * interval == qb * interval + interval && (qa + 1) * interval == qa * interval + interval;
    Cancel(qa, qb + 1, interval);
    if b - a >= interval { Cancel(qa + 1, qb + 1, interval); }
  }

  lemma Cancel(x: int, y: int, n: int)
    requires n > 0 && x * n < y * n
    ensures x < y
  {
  }

  lemma LaterClock(d: Desk, run: string, clock: Time, now: Time, interval: Time)
    requires interval > 0 && clock <= now && Orderly(d, run, clock, interval)
    ensures Orderly(d, run, now, interval)
  {
    BucketsGrow(clock, now, interval);
  }

  /** Writing the row of a notification first keeps the order, whether or not the alert follows. */
  lemma PutKeepsOrder(d: Desk, run: string, row: HealthRow, now: Time, interval: Time)
    requires interval > 0 && Orderly(d, run, now, interval)
    requires || row.lastNotifiedAt == Some(now)
             || (run in d.rows && row.lastNotifiedAt == d.rows[run].lastNotifiedAt && row.lastNotifiedAt.Some?)
             || (row.lastNotifiedAt.None? && (row.state.Healthy? || NoAlarms(d, run)))
    requires row.state.Unknown? ==> row.lastNotifiedAt.None? && NoAlarms(d, run)
    ensures Orderly(Apply(d, Put(run, row)), run, now, interval)
  {
  }

  lemma AlertKeepsOrder(d: Desk, run: string, kind: EventType, now: Time, interval: Time)
    requires interval > 0 && Orderly(d, run, now, interval)
    requires AlarmKind(kind) ==> run in d.rows && d.rows[run].lastNotifiedAt == Some(now)
    ensures Orderly(Apply(d, Alert(HealthKey(run, kind, now / interval))), run, now, interval)
  {
  }

  predicate About(w: Write, run: string) {
    match w
    case Put(r, _) => r == run
    case Alert(id) => id.HealthKey? && id.run == run
  }

  lemma OtherRunKeepsOrder(d: Desk, w: Write, run: string, now: Time, interval: Time)
    requires interval > 0 && Orderly(d, run, now, interval)
    requires exists other :: other != run && About(w, other)
    ensures Orderly(Apply(d, w), run, now, interval)
  {
  }

  lemma LookKeepsOrder(d: Desk, run: string, state: RunState, now: Time, interval: Time, k: nat)
    requires interval > 0 && Orderly(d, run, now, interval) && k <= |LookWrites(d, run, state, now, interval)|
    ensures Orderly(Exec(d, LookWrites(d, run, state, now, interval)[..k]), run, now, interval)
  {
    hide Orderly;
    var ws := LookWrites(d, run, state, now, interval);
    ExecShort(d, ws[..k]);
    if k >= 1 {
      FirstPutIsSafe(d, run, state, now, interval);
      PutKeepsOrder(d, run, ws[0].row, now, interval);
    }
    if k >= 2 {
      var d1 := Apply(d, ws[0]);
      if ws[1].Put? {
        PutKeepsOrder(d1, run, ws[1].row, now, interval);
      } else {
        AlertKeepsOrder(d1, run, ws[1].id.kind, now, interval);
      }
      if k >= 3 {
        AlertKeepsOrder(Apply(d1, ws[1]), run, ws[2].id.kind, now, interval);
      }
    }
  }

  lemma FirstPutIsSafe(d: Desk, run: string, state: RunState, now: Time, interval: Time)
    requires interval > 0 && Orderly(d, run, now, interval) && LookWrites(d, run, state, now, interval) != []
    ensures var w := LookWrites(d, run, state, now, interval)[0];
            && w.Put? && w.run == run
            && (|| w.row.lastNotifiedAt == Some(now)
                || (run in d.rows && w.row.lastNotifiedAt == d.rows[run].lastNotifiedAt && w.row.lastNotifiedAt.Some?)
                || (w.row.lastNotifiedAt.None? && (w.row.state.Healthy? || NoAlarms(d, run))))
            && (w.row.state.Unknown? ==> w.row.lastNotifiedAt.None? && NoAlarms(d, run))
  {
  }

  lemma VisitIsShort(d: Desk, v: Visit, interval: Time)
    ensures |WritesOf(d, v, interval)| <= 3
    ensures var ws := WritesOf(d, v, interval); forall i :: 0 <= i < |ws| ==> About(ws[i], v.run)
    ensures var ws := WritesOf(d, v, interval);
            forall i :: 0 <= i < |ws| && ws[i].Alert? && interval > 0 ==> ws[i].id.bucket == v.now / interval
  {
  }

  lemma OtherVisitKeepsOrder(d: Desk, v: Visit, run: string, interval: Time)
    requires interval > 0 && Orderly(d, run, v.now, interval) && v.run != run
    ensures Orderly(After(d, v, interval), run, v.now, interval)
  {
    hide Orderly, LookWrites;
    var ws := WritesOf(d, v, interval);
    VisitIsShort(d, v, interval);
    ExecShort(d, ws);
    if |ws| >= 1 { OtherRunKeepsOrder(d, ws[0], run, v.now, interval); }
    if |ws| >= 2 { OtherRunKeepsOrder(Apply(d, ws[0]), ws[1], run, v.now, interval); }
    if |ws| >= 3 { OtherRunKeepsOrder(Apply(Apply(d, ws[0]), ws[1]), ws[2], run, v.now, interval); }
  }

  lemma VisitKeepsOrder(d: Desk, v: Visit, run: string, interval: Time)
    requires interval > 0 && Orderly(d, run, v.now, interval)
    ensures Orderly(After(d, v, interval), run, v.now, interval)
  {
    hide Orderly, LookWrites;
    if v.run != run {
      OtherVisitKeepsOrder(d, v, run, interval);
    } else {
      match v
      case Look(_, state, now, cut) =>
        var all := LookWrites(d, run, state, now, interval);
        var k := if cut.Some? then Min(cut.value, |all|) else |all|;
        assert WritesOf(d, v, interval) == all[..k];
        LookKeepsOrder(d, run, state, now, interval, k);
      case Reap(_, now) =>
        var ws := ReapWrites(d, run, now);
        ExecShort(d, ws);
        if ws != [] { PutKeepsOrder(d, run, ws[0].row, now, interval); }
    }
  }

  ghost predicate Monotone(visits: seq<Visit>, start: Time) {
    && (forall k :: 0 <= k < |visits| ==> start <= visits[k].now)
    && (forall j, k :: 0 <= j < k < |visits| ==> visits[j].now <= visits[k].now)
  }

  function LastTime(visits: seq<Visit>, start: Time): Time {
    if visits == [] then start else visits[|visits| - 1].now
  }

  lemma {:induction false} VisitsKeepOrder(visits: seq<Visit>, start: Time, run: string, interval: Time)
    requires interval > 0 && Monotone(visits, start)
    ensures Orderly(RunVisits(EMPTY_DESK, visits, interval), run, LastTime(visits, start), interval)
  {
    if visits != [] {
      hide Orderly, After;
      var front, v := visits[..|visits| - 1], visits[|visits| - 1];
      VisitsKeepOrder(front, start, run, interval);
      LaterClock(RunVisits(EMPTY_DESK, front, interval), run, LastTime(front, start), v.now, interval);
      VisitKeepsOrder(RunVisits(EMPTY_DESK, front, interval), v, run, interval);
    }
  }

  /******* Freshness *******/

  /** The alarm that a look raises, if it raises one. */
  function AlarmRaised(d: Desk, run: string, state: RunState, now: Time, interval: Time): Option<EventId> {
    var ws := LookWrites(d, run, state, now, interval);
    if Abnormal(state) && ws != [] && ws[|ws| - 1].Alert? then Some(ws[|ws| - 1].id) else None
  }

  /**
   Reminders are never swallowed: after any visits under a clock that does not run back, cut looks
   included, an alarm whose key is already taken can only be the alarm of a changed state. Within an
   unbroken episode a reminder is raised exactly when an interval has passed since the last one (or
   a crash kept the first from being recorded), and always with a key of its own.
   */
  lemma RemindersAreFresh(visits: seq<Visit>, start: Time, run: string, state: RunState, now: Time, interval: Time)
    requires interval > 0 && Monotone(visits, start) && LastTime(visits, start) <= now && Abnormal(state)
    requires var d := RunVisits(EMPTY_DESK, visits, interval); run in d.rows && d.rows[run].state == state
    ensures var d := RunVisits(EMPTY_DESK, visits, interval);
            var alarm := AlarmRaised(d, run, state, now, interval);
            && (alarm.Some? <==> d.rows[run].lastNotifiedAt.None? || now - d.rows[run].lastNotifiedAt.value >= interval)
            && (alarm.Some? ==> alarm.value == HealthKey(run, KindOf(state), now / interval) && alarm.value !in d.known)
  {
    var d := RunVisits(EMPTY_DESK, visits, interval);
    VisitsKeepOrder(visits, start, run, interval);
    LaterClock(d, run, LastTime(visits, start), now, interval);
    FreshIfOrderly(d, run, state, now, interval);
  }

  lemma FreshIfOrderly(d: Desk, run: string, state: RunState, now: Time, interval: Time)
    requires interval > 0 && Orderly(d, run, now, interval) && Abnormal(state) && run in d.rows
             && d.rows[run].state == state
    ensures var alarm := AlarmRaised(d, run, state, now, interval);
            && (alarm.Some? <==> d.rows[run].lastNotifiedAt.None? || now - d.rows[run].lastNotifiedAt.value >= interval)
            && (alarm.Some? ==> alarm.value == HealthKey(run, KindOf(state), now / interval) && alarm.value !in d.known)
  {
    var last := d.rows[run].lastNotifiedAt;
    if last.Some? && now - last.value >= interval {
      BucketsGrow(last.value, now, interval);
    }
  }

  /** The first alarm of a run is never swallowed either. */
  lemma FirstAlarmIsFresh(visits: seq<Visit>, start: Time, run: string, state: RunState, now: Time, interval: Time)
    requires interval > 0 && Monotone(visits, start) && LastTime(visits, start) <= now && Abnormal(state)
    requires run !in RunVisits(EMPTY_DESK, visits, interval).rows
    ensures var d := RunVisits(EMPTY_DESK, visits, interval);
            var alarm := AlarmRaised(d, run, state, now, interval); alarm.Some? && alarm.value !in d.known
  {
    VisitsKeepOrder(visits, start, run, interval);
  }

  lemma {:induction false} AlertsAreKnown(d: Desk, ws: seq<Write>, id: EventId)
    ensures id in Exec(d, ws).known <==> id in d.known || Alert(id) in ws
    decreases |ws|
  {
    if ws != [] {
      AlertsAreKnown(Apply(d, ws[0]), ws[1..], id);
      assert ws == [ws[0]] + ws[1..];
    }
  }

  /** The k-th visit put this alert into the outbox, or would have, had it not been there. */
  ghost predicate AlertedAt(visits: seq<Visit>, k: nat, id: EventId, interval: Time)
    requires k < |visits|
  {
    Alert(id) in WritesOf(RunVisits(EMPTY_DESK, visits[..k], interval), visits[k], interval)
  }

  lemma LastVisitAlerts(visits: seq<Visit>, id: EventId, interval: Time)
    requires visits != []
    ensures var front := visits[..|visits| - 1];
            id in RunVisits(EMPTY_DESK, visits, interval).known
            <==> id in RunVisits(EMPTY_DESK, front, interval).known || AlertedAt(visits, |front|, id, interval)
  {
    var front, v := visits[..|visits| - 1], visits[|visits| - 1];
    var before := RunVisits(EMPTY_DESK, front, interval);
    AlertsAreKnown(before, WritesOf(before, v, interval), id);
    hide WritesOf, Exec;
  }

  lemma EarlierAlerts(visits: seq<Visit>, k: nat, id: EventId, interval: Time)
    requires k < |visits| - 1
    ensures AlertedAt(visits[..|visits| - 1], k, id, interval) == AlertedAt(visits, k, id, interval)
  {
    var front := visits[..|visits| - 1];
    assert front[..k] == visits[..k] && front[k] == visits[k];
  }

  lemma {:induction false} KnownWasAlerted(visits: seq<Visit>, id: EventId, interval: Time) returns (k: nat)
    requires id in RunVisits(EMPTY_DESK, visits, interval).known
    ensures k < |visits| && AlertedAt(visits, k, id, interval)
  {
    var front := visits[..|visits| - 1];
    LastVisitAlerts(visits, id, interval);
    if id in RunVisits(EMPTY_DESK, front, interval).known {
      k := KnownWasAlerted(front, id, interval);
      EarlierAlerts(visits, k, id, interval);
    } else {
      k := |front|;
    }
  }

  lemma {:induction false} AlertedIsKnown(visits: seq<Visit>, k: nat, id: EventId, interval: Time)
    requires k < |visits| && AlertedAt(visits, k, id, interval)
    ensures id in RunVisits(EMPTY_DESK, visits, interval).known
    decreases |visits|
  {
    hide AlertedAt, RunVisits;
    LastVisitAlerts(visits, id, interval);
    if k < |visits| - 1 {
      EarlierAlerts(visits, k, id, interval);
      AlertedIsKnown(visits[..|visits| - 1], k, id, interval);
    }
  }

  lemma AlarmsAreOfTheirLook(d: Desk, v: Visit, run: string, state: RunState, bucket: int, interval: Time)
    requires interval > 0 && Abnormal(state) && Alert(HealthKey(run, KindOf(state), bucket)) in WritesOf(d, v, interval)
    ensures v.Look? && v.run == run && v.state == state && v.now / interval == bucket
  {
  }

  /** The k-th visit saw the run in this state and got as far as its alarm. */
  ghost predicate AlarmAt(visits: seq<Visit>, k: nat, run: string, state: RunState, interval: Time)
    requires k < |visits| && interval > 0 && Abnormal(state)
  {
    && visits[k].Look? && visits[k].run == run && visits[k].state == state
    && AlertedAt(visits, k, HealthKey(run, KindOf(state), visits[k].now / interval), interval)
  }

  lemma AlarmsAreKnown(visits: seq<Visit>, run: string, state: RunState, bucket: int, interval: Time)
    requires interval > 0 && Abnormal(state)
    ensures HealthKey(run, KindOf(state), bucket) in RunVisits(EMPTY_DESK, visits, interval).known
            <==> exists k :: 0 <= k < |visits| && AlarmAt(visits, k, run, state, interval)
                  && visits[k].now / interval == bucket
  {
    var id := HealthKey(run, KindOf(state), bucket);
    hide RunVisits, WritesOf, KindOf, AlertedAt;
    if id in RunVisits(EMPTY_DESK, visits, interval).known {
      var k := KnownWasAlerted(visits, id, interval);
      AlertIsAlarm(visits, k, run, state, bucket, interval);
    }
    if k :| 0 <= k < |visits| && AlarmAt(visits, k, run, state, interval) && visits[k].now / interval == bucket {
      AlertedIsKnown(visits, k, id, interval);
    }
  }

  lemma AlertIsAlarm(visits: seq<Visit>, k: nat, run: string, state: RunState, bucket: int, interval: Time)
    requires k < |visits| && interval > 0 && Abnormal(state)
             && AlertedAt(visits, k, HealthKey(run, KindOf(state), bucket), interval)
    ensures AlarmAt(visits, k, run, state, interval) && visits[k].now / interval == bucket
  {
    AlarmsAreOfTheirLook(RunVisits(EMPTY_DESK, visits[..k], interval), visits[k], run, state, bucket, interval);
    hide RunVisits, WritesOf, KindOf;
  }

  /**
   A change of state is announced at once, but a run that comes back to a state it was alarmed for is
   not heard again in the same interval: the alarm is swallowed exactly if an earlier look in that
   interval saw the run in that state and got as far as its alarm.
   */
  lemma ChangesAreSwallowedExactly(visits: seq<Visit>, run: string, state: RunState, now: Time, interval: Time)
    requires interval > 0 && Abnormal(state)
    requires var d := RunVisits(EMPTY_DESK, visits, interval); run in d.rows && d.rows[run].state != state
    ensures var d := RunVisits(EMPTY_DESK, visits, interval);
            && AlarmRaised(d, run, state, now, interval).Some?
            && (After(d, Look(run, state, now, None), interval).known == d.known
                <==> exists k :: 0 <= k < |visits| && AlarmAt(visits, k, run, state, interval)
                                 && visits[k].now / interval == now / interval)
  {
    hide *;
    var d := RunVisits(EMPTY_DESK, visits, interval);
    AlarmsAreKnown(visits, run, state, now / interval, interval);
    ChangesAddTheirAlarm(d, run, state, now, interval);
  }

  lemma ChangesAddTheirAlarm(d: Desk, run: string, state: RunState, now: Time, interval: Time)
    requires interval > 0 && Abnormal(state) && run in d.rows && d.rows[run].state != state
    ensures AlarmRaised(d, run, state, now, interval) == Some(HealthKey(run, KindOf(state), now / interval))
    ensures After(d, Look(run, state, now, None), interval).known
            == d.known + {HealthKey(run, KindOf(state), now / interval)}
  {
    ExecShort(d, LookWrites(d, run, state, now, interval));
  }

  /******* Rate *******/

  /** The alerts of one kind and run that the visits added. */
  function Added(before: Desk, after: Desk, run: string, kind: EventType): set<EventId> {
    set id | id in after.known && id !in before.known && id.HealthKey? && id.run == run && id.kind == kind
  }

  function Buckets(run: string, kind: EventType, lo: int, hi: int): set<EventId>
    decreases hi - lo
  {
    if lo > hi then {} else Buckets(run, kind, lo, hi - 1) + {HealthKey(run, kind, hi)}
  }

  lemma {:induction false} BucketsFacts(run: string, kind: EventType, lo: int, hi: int)
    ensures forall b :: lo <= b <= hi ==> HealthKey(run, kind, b) in Buckets(run, kind, lo, hi)
    ensures |Buckets(run, kind, lo, hi)| <= Max(0, hi - lo + 1)
    decreases hi - lo
  {
    if lo <= hi { BucketsFacts(run, kind, lo, hi - 1); }
  }

  lemma {:induction false} NewAlertsAreOfTheirTime(d: Desk, visits: seq<Visit>, interval: Time, id: EventId)
    requires interval > 0 && id in RunVisits(d, visits, interval).known && id !in d.known
    ensures id.HealthKey? && exists k :: 0 <= k < |visits| && id.bucket == visits[k].now / interval
  {
    var front, v := visits[..|visits| - 1], visits[|visits| - 1];
    var before := RunVisits(d, front, interval);
    if id in before.known {
      NewAlertsAreOfTheirTime(d, front, interval, id);
      var k :| 0 <= k < |front| && id.bucket == front[k].now / interval;
      assert visits[k] == front[k];
    } else {
      VisitIsShort(before, v, interval);
      ExecShort(before, WritesOf(before, v, interval));
      hide WritesOf, Exec, Merge;
      assert id.HealthKey? && id.bucket == v.now / interval;
    }
  }

  lemma SubsetSize<T>(small: set<T>, big: set<T>)
    requires small <= big
    ensures |small| <= |big|
  {
    assert big == small + (big - small);
  }

  /**
   The rate bound: whatever happens between t0 and t1, in any order and from any tables, no run
   raises more alerts of one kind than the intervals that touch that span.
   */
  lemma AlertRateIsBounded(
      d: Desk, visits: seq<Visit>, interval: Time, t0: Time, t1: Time, run: string, kind: EventType)
    requires interval > 0 && t0 <= t1 && forall k :: 0 <= k < |visits| ==> t0 <= visits[k].now <= t1
    ensures |Added(d, RunVisits(d, visits, interval), run, kind)| <= t1 / interval - t0 / interval + 1
  {
    var lo, hi := t0 / interval, t1 / interval;
    var added := Added(d, RunVisits(d, visits, interval), run, kind);
    BucketsFacts(run, kind, lo, hi);
    BucketsGrow(t0, t1, interval);
    forall id | id in added ensures id in Buckets(run, kind, lo, hi) {
      NewAlertsAreOfTheirTime(d, visits, interval, id);
      var k :| 0 <= k < |visits| && id.bucket == visits[k].now / interval;
      BucketsGrow(t0, visits[k].now, interval);
      BucketsGrow(visits[k].now, t1, interval);
      assert id == HealthKey(run, kind, id.bucket);
    }
    SubsetSize(added, Buckets(run, kind, lo, hi));
  }

  /******* Crashes and false recoveries *******/

  /**
   The row is written before the alert, so a crash between the two loses the alert: seen again in
   the same state, the run is alarmed exactly when a whole interval has passed since the lost one.
   */
  lemma CutAlarmsWaitAnInterval(d: Desk, run: string, state: RunState, now: Time, later: Time, interval: Time)
    requires interval > 0 && Abnormal(state) && AlarmRaised(d, run, state, now, interval).Some?
    ensures var ws := LookWrites(d, run, state, now, interval);
            var cut := After(d, Look(run, state, now, Some(|ws| - 1)), interval);
            && cut.known == d.known
            && (AlarmRaised(cut, run, state, later, interval).Some? <==> later - now >= interval)
  {
    CutLooksNotified(d, run, state, now, interval);
    hide OpeningWrites, FloorDiv, Merge, After;
  }

  lemma CutLooksNotified(d: Desk, run: string, state: RunState, now: Time, interval: Time)
    requires interval > 0 && Abnormal(state) && AlarmRaised(d, run, state, now, interval).Some?
    ensures var ws := LookWrites(d, run, state, now, interval);
            var cut := After(d, Look(run, state, now, Some(|ws| - 1)), interval);
            && cut.known == d.known && run in cut.rows
            && cut.rows[run].state == state && cut.rows[run].lastNotifiedAt == Some(now)
  {
    hide FloorDiv;
    var ws := LookWrites(d, run, state, now, interval);
    ExecShort(d, ws[..|ws| - 1]);
  }

  ghost predicate Uncut(visits: seq<Visit>) {
    forall k :: 0 <= k < |visits| && visits[k].Look? ==> visits[k].cut.None?
  }

  ghost predicate Alarmed(d: Desk, run: string) {
    exists id :: id in d.known && AlarmOf(id, run)
  }

  /** Without crashes, an abnormal row has been alarmed and an unknown one has not. */
  ghost predicate RowsTell(d: Desk, run: string) {
    run in d.rows ==>
      && (Abnormal(d.rows[run].state) ==> Alarmed(d, run))
      && (d.rows[run].state.Unknown? ==> !Alarmed(d, run))
  }

  lemma LookTells(d: Desk, v: Visit, run: string, interval: Time)
    requires interval > 0 && RowsTell(d, run) && (run !in d.rows ==> !Alarmed(d, run)) && (v.Look? ==> v.cut.None?)
    ensures var d' := After(d, v, interval); RowsTell(d', run) && (run !in d'.rows ==> !Alarmed(d', run))
  {
    var ws, d' := WritesOf(d, v, interval), After(d, v, interval);
    VisitIsShort(d, v, interval);
    ExecShort(d, ws);
    assert forall id :: id in d.known ==> id in d'.known;
    if v.run == run && v.Look? && Abnormal(v.state) && ws != [] && ws[|ws| - 1].Alert? {
      assert AlarmOf(ws[|ws| - 1].id, run) && ws[|ws| - 1].id in d'.known;
    }
  }

  lemma {:induction false} VisitsTell(visits: seq<Visit>, run: string, interval: Time)
    requires interval > 0 && Uncut(visits)
    ensures var d := RunVisits(EMPTY_DESK, visits, interval); RowsTell(d, run) && (run !in d.rows ==> !Alarmed(d, run))
  {
    if visits != [] {
      hide After, RowsTell, Alarmed;
      var front := visits[..|visits| - 1];
      VisitsTell(front, run, interval);
      LookTells(RunVisits(EMPTY_DESK, front, interval), visits[|visits| - 1], run, interval);
    } else {
      assert RunVisits(EMPTY_DESK, visits, interval) == EMPTY_DESK;
    }
  }

  lemma AlarmedFromVisits(visits: seq<Visit>, run: string, interval: Time)
    requires interval > 0
    ensures Alarmed(RunVisits(EMPTY_DESK, visits, interval), run)
            <==> exists k, state :: 0 <= k < |visits| && Abnormal(state) && AlarmAt(visits, k, run, state, interval)
  {
    hide RunVisits, AlarmAt;
    var d := RunVisits(EMPTY_DESK, visits, interval);
    if Alarmed(d, run) {
      var id :| id in d.known && AlarmOf(id, run);
      var state := if id.kind.HealthSlow? then Slow else if id.kind.HealthStalled? then Stalled else Lost;
      assert id == HealthKey(run, KindOf(state), id.bucket);
      AlarmsAreKnown(visits, run, state, id.bucket, interval);
    }
    forall k, state | 0 <= k < |visits| && Abnormal(state) && AlarmAt(visits, k, run, state, interval)
      ensures Alarmed(d, run)
    {
      AlarmsAreKnown(visits, run, state, visits[k].now / interval, interval);
      assert AlarmOf(HealthKey(run, KindOf(state), visits[k].now / interval), run);
    }
  }

  /**
   A recovery is announced for every run that turns healthy from a row that says otherwise. It is the
   recovery of a run never alarmed exactly if no look at it got as far as an alarm, and if no look was
   cut, exactly if the run was unknown from its first sighting on.
   */
  lemma RecoveriesWithoutAlarm(visits: seq<Visit>, run: string, now: Time, interval: Time)
    requires interval > 0
    requires var d := RunVisits(EMPTY_DESK, visits, interval); run in d.rows && !d.rows[run].state.Healthy?
    ensures var d := RunVisits(EMPTY_DESK, visits, interval);
            && HealthKey(run, HealthRecovered, now / interval)
               in After(d, Look(run, Healthy, now, None), interval).known
            && (!Alarmed(d, run) <==>
                  forall k, state :: 0 <= k < |visits| && Abnormal(state) ==> !AlarmAt(visits, k, run, state, interval))
            && (Uncut(visits) ==> (!Alarmed(d, run) <==> d.rows[run].state.Unknown?))
  {
    var d := RunVisits(EMPTY_DESK, visits, interval);
    AlarmedFromVisits(visits, run, interval);
    if Uncut(visits) { VisitsTell(visits, run, interval); }
    hide RunVisits, AlarmAt, Alarmed;
    ExecShort(d, LookWrites(d, run, Healthy, now, interval));
  }
}
