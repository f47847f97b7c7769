/**
 The adaptive controller over values: what a tick measures, when it moves the split and what its
 drift timer remembers. Anything else may happen to the tables between two ticks, and a tick may
 die after any of its writes.
 */
module Adaptive {
  import opened Basics
  import opened Policy
  import opened Allocation

  /******* Measuring *******/

  /** A finished run; a stamp is absent when its text is not a timestamp. */
  datatype Run = Run(agent: string, startedAt: Option<Time>, finishedAt: Option<Time>)

  datatype Tuning = Tuning(enabled: bool, window: Time, minRuns: int, minWork: Time, points: int, hold: Time)

  predicate Active(run: Run, at: Time) {
    run.startedAt.Some? && run.finishedAt.Some? && run.startedAt.value <= at < run.finishedAt.value
  }

  /** The milliseconds of the window in which the run was at work. */
  function Instants(run: Run, start: Time, now: Time): set<Time> {
    set at | start <= at < now && Active(run, at)
  }

  predicate WorksFor(run: Run, tracks: map<string, Split>, t: Split) {
    run.agent in tracks && tracks[run.agent] == t
  }

  /** The work of a track in the window, added over its runs. */
  function Worked(runs: seq<Run>, tracks: map<string, Split>, t: Split, start: Time, now: Time): nat {
    if runs == [] then 0
    else
      var run := runs[|runs| - 1];
      Worked(runs[..|runs| - 1], tracks, t, start, now)
      + if WorksFor(run, tracks, t) then |Instants(run, start, now)| else 0
  }

  /** The runs of either track that were at work at all in the window. */
  function Sampled(runs: seq<Run>, tracks: map<string, Split>, start: Time, now: Time): nat {
    if runs == [] then 0
    else
      var run := runs[|runs| - 1];
      Sampled(runs[..|runs| - 1], tracks, start, now)
      + if run.agent in tracks && Instants(run, start, now) != {} then 1 else 0
  }

  datatype Shares = Shares(core: real, lab: real)

  datatype Reading = Reading(shares: Option<Shares>, total: Time, runs: nat)

  datatype Fault = DivisionByZero

  function ReadingOf(tuning: Tuning, runs: seq<Run>, tracks: map<string, Split>, now: Time): Result<Reading, Fault> {
    var start := now - tuning.window;
    Conclude(tuning, Worked(runs, tracks, Core, start, now), Worked(runs, tracks, Lab, start, now),
             Sampled(runs, tracks, start, now))
  }

  /** The answer for so much work of each track, seen in so many runs. */
  function Conclude(tuning: Tuning, core: Time, lab: Time, counted: nat): Result<Reading, Fault> {
    var total := core + lab;
    if counted < tuning.minRuns || total < tuning.minWork then Ok(Reading(None, total, counted))
    else if total == 0 then Err(DivisionByZero)
    else
      var shares := Shares(core as real / total as real * 100.0, lab as real / total as real * 100.0);
      Ok(Reading(Some(shares), total, counted))
  }

  /** A measured split is a split: two shares of the work done, in 0..100, that sum to 100. */
  lemma SharesSplitTheWork(tuning: Tuning, runs: seq<Run>, tracks: map<string, Split>, now: Time)
    requires var r := ReadingOf(tuning, runs, tracks, now); r.Ok? && r.value.shares.Some?
    ensures var s, start := ReadingOf(tuning, runs, tracks, now).value.shares.value, now - tuning.window;
            && 0.0 <= s.core <= 100.0 && 0.0 <= s.lab <= 100.0 && s.core + s.lab == 100.0
            && s.core * Worked(runs, tracks, Lab, start, now) as real
               == s.lab * Worked(runs, tracks, Core, start, now) as real
  {
    var start := now - tuning.window;
    var core, lab := Worked(runs, tracks, Core, start, now) as real, Worked(runs, tracks, Lab, start, now) as real;
    ReadingIs(tuning, runs, tracks, now);
    hide ReadingOf, Worked, Sampled;
    Proportions(core, lab);
  }

  /******* How much is enough *******/

  /** The runs that were at work in the window, by their place in the list. */
  ghost function AtWork(runs: seq<Run>, tracks: map<string, Split>, start: Time, now: Time): set<int> {
    set k | 0 <= k < |runs| && runs[k].agent in tracks && exists at :: start <= at < now && Active(runs[k], at)
  }

  /** The work of a track: its runs' instants in the window, each with the place of its run. */
  ghost function Work(runs: seq<Run>, tracks: map<string, Split>, t: Split, start: Time, now: Time): set<(int, Time)> {
    set k, at |
      0 <= k < |runs| && start <= at < now && Active(runs[k], at) && Lookup(tracks, runs[k].agent) == Some(t) :: (k, at)
  }

  lemma {:induction false} SampledAreAtWork(runs: seq<Run>, tracks: map<string, Split>, start: Time, now: Time)
    ensures Sampled(runs, tracks, start, now) == |AtWork(runs, tracks, start, now)|
  {
    if runs == [] {
      assert AtWork(runs, tracks, start, now) == {};
    } else {
      SampledAreAtWork(runs[..|runs| - 1], tracks, start, now);
      OneMoreSampled(runs, tracks, start, now);
      hide AtWork, Instants;
    }
  }

  lemma OneMoreSampled(runs: seq<Run>, tracks: map<string, Split>, start: Time, now: Time)
    requires runs != []
    ensures var n := |runs| - 1;
            var before := AtWork(runs[..n], tracks, start, now);
            && n !in before
            && AtWork(runs, tracks, start, now)
               == if runs[n].agent in tracks && Instants(runs[n], start, now) != {} then before + {n} else before
  {
    var n := |runs| - 1;
    var run, all, before := runs[n], AtWork(runs, tracks, start, now), AtWork(runs[..n], tracks, start, now);
    assert Instants(run, start, now) != {} <==> exists at :: start <= at < now && Active(run, at) by {
      if at :| start <= at < now && Active(run, at) { assert at in Instants(run, start, now); }
      if Instants(run, start, now) != {} { var at :| at in Instants(run, start, now); }
    }
    hide Active, Instants;
    forall k ensures k in all <==> k in before || (k == n && n in all) {
      if 0 <= k < n { assert runs[..n][k] == runs[k]; }
    }
  }

  lemma {:induction false} WorkedIsWork(runs: seq<Run>, tracks: map<string, Split>, t: Split, start: Time, now: Time)
    ensures Worked(runs, tracks, t, start, now) == |Work(runs, tracks, t, start, now)|
  {
    if runs == [] {
      assert Work(runs, tracks, t, start, now) == {};
    } else {
      var n := |runs| - 1;
      var before, run := Work(runs[..n], tracks, t, start, now), runs[n];
      WorkedIsWork(runs[..n], tracks, t, start, now);
      OneMoreAtWork(runs, tracks, t, start, now);
      hide Work, Instants, Active;
      if WorksFor(run, tracks, t) { TaggedAreAsMany(n, Instants(run, start, now)); }
    }
  }

  lemma OneMoreAtWork(runs: seq<Run>, tracks: map<string, Split>, t: Split, start: Time, now: Time)
    requires runs != []
    ensures var n := |runs| - 1;
            var before, tagged := Work(runs[..n], tracks, t, start, now), Tagged(n, Instants(runs[n], start, now));
            && before !! tagged
            && Work(runs, tracks, t, start, now) == if WorksFor(runs[n], tracks, t) then before + tagged else before
  {
    hide Active;
    var n := |runs| - 1;
    var all, before := Work(runs, tracks, t, start, now), Work(runs[..n], tracks, t, start, now);
    var tagged := Tagged(n, Instants(runs[n], start, now));
    forall k, at ensures (k, at) in all <==> (k, at) in before || ((k, at) in tagged && WorksFor(runs[n], tracks, t)) {
      if 0 <= k < n { assert runs[..n][k] == runs[k]; }
    }
  }

  ghost function Tagged<T(!new)>(n: int, xs: set<T>): set<(int, T)> {
    set x | x in xs :: (n, x)
  }

  lemma {:induction false} TaggedAreAsMany<T(!new)>(n: int, xs: set<T>)
    ensures |Tagged(n, xs)| == |xs|
    decreases |xs|
  {
    if xs == {} {
      assert Tagged(n, xs) == {};
    } else {
      var one :| one in xs;
      TaggedAreAsMany(n, xs - {one});
      assert Tagged(n, xs) == Tagged(n, xs - {one}) + {(n, one)};
    }
  }

  /** A measurement has shares exactly if enough runs were at work, for long enough, and for any time at all. */
  lemma SharesNeedEvidence(tuning: Tuning, runs: seq<Run>, tracks: map<string, Split>, now: Time)
    ensures var r, start := ReadingOf(tuning, runs, tracks, now), now - tuning.window;
            var work := |Work(runs, tracks, Core, start, now)| + |Work(runs, tracks, Lab, start, now)|;
            && (r.Ok? && r.value.shares.None?
                <==> |AtWork(runs, tracks, start, now)| < tuning.minRuns || work < tuning.minWork)
            && (r.Err? <==> |AtWork(runs, tracks, start, now)| >= tuning.minRuns && work >= tuning.minWork && work == 0)
            && (r.Ok? ==> r.value.total == work && r.value.runs == |AtWork(runs, tracks, start, now)|)
            && (r.Ok? && r.value.shares.Some? ==>
                  && r.value.shares.value.core * work as real == 100.0 * |Work(runs, tracks, Core, start, now)| as real
                  && r.value.shares.value.lab * work as real == 100.0 * |Work(runs, tracks, Lab, start, now)| as real)
  {
    var start := now - tuning.window;
    SampledAreAtWork(runs, tracks, start, now);
    WorkedIsWork(runs, tracks, Core, start, now);
    WorkedIsWork(runs, tracks, Lab, start, now);
    ReadingIs(tuning, runs, tracks, now);
    hide *;
    ConcludedFrom(tuning, |Work(runs, tracks, Core, start, now)|, |Work(runs, tracks, Lab, start, now)|,
                  |AtWork(runs, tracks, start, now)|);
  }

  lemma ReadingIs(tuning: Tuning, runs: seq<Run>, tracks: map<string, Split>, now: Time)
    ensures var start := now - tuning.window;
            ReadingOf(tuning, runs, tracks, now)
            == Conclude(tuning, Worked(runs, tracks, Core, start, now), Worked(runs, tracks, Lab, start, now),
                        Sampled(runs, tracks, start, now))
  {
  }

  lemma ConcludedFrom(tuning: Tuning, core: nat, lab: nat, counted: nat)
    ensures var r, work := Conclude(tuning, core, lab, counted), core + lab;
            && (r.Ok? && r.value.shares.None? <==> counted < tuning.minRuns || work < tuning.minWork)
            && (r.Err? <==> counted >= tuning.minRuns && work >= tuning.minWork && work == 0)
            && (r.Ok? ==> r.value.total == work && r.value.runs == counted)
            && (r.Ok? && r.value.shares.Some? ==>
                  && r.value.shares.value.core * work as real == 100.0 * core as real
                  && r.value.shares.value.lab * work as real == 100.0 * lab as real)
  {
    if core + lab > 0 {
      PercentOf(core as real, (core + lab) as real);
      PercentOf(lab as real, (core + lab) as real);
    }
  }

  lemma PercentOf(x: real, y: real)
    requires y > 0.0
    ensures x / y * 100.0 * y == 100.0 * x
  {
    assert x / y * y == x;
  }

  lemma NotNegative(a: real, d: real)
    requires d > 0.0 && a * d >= 0.0
    ensures a >= 0.0
  {
  }

  lemma Proportions(x: real, y: real)
    requires x >= 0.0 && y >= 0.0 && x + y > 0.0
    ensures var a, b := x / (x + y), y / (x + y);
            0.0 <= a <= 1.0 && 0.0 <= b <= 1.0 && a + b == 1.0 && a * y == b * x
            && a * 100.0 + b * 100.0 == 100.0 && (a * 100.0) * y == (b * 100.0) * x
  {
    var a, b := x / (x + y), y / (x + y);
    assert a * (x + y) == x && b * (x + y) == y;
    NotNegative(a, x + y);
    NotNegative(b, x + y);
    assert (a + b) * (x + y) == x + y;
    assert a + b == 1.0;
    assert a * y == a * (b * (x + y)) == b * (a * (x + y)) == b * x;
    assert (a * 100.0) * y == 100.0 * (a * y) && (b * 100.0) * x == 100.0 * (b * x);
  }

  function Span(lo: Time, hi: Time): set<Time>
    decreases hi - lo
  {
    if lo >= hi then {} else Span(lo, hi - 1) + {hi - 1}
  }

  lemma {:induction false} SpanFacts(lo: Time, hi: Time)
    ensures forall at :: at in Span(lo, hi) <==> lo <= at < hi
    ensures |Span(lo, hi)| == Max(0, hi - lo)
    decreases hi - lo
  {
    if lo < hi { SpanFacts(lo, hi - 1); }
  }

  /** Clipping both ends counts the instants. */
  lemma ClippingCounts(run: Run, start: Time, now: Time)
    requires run.startedAt.Some? && run.finishedAt.Some?
    ensures |Instants(run, start, now)| == Max(0, Min(run.finishedAt.value, now) - Max(run.startedAt.value, start))
  {
    var lo, hi := Max(run.startedAt.value, start), Min(run.finishedAt.value, now);
    SpanFacts(lo, hi);
    assert Instants(run, start, now) == Span(lo, hi);
  }

  /** What the loop has added up after these runs. */
  function Totals(runs: seq<Run>, tracks: map<string, Split>, start: Time, now: Time): map<Split, Time> {
    map[Core := Worked(runs, tracks, Core, start, now), Lab := Worked(runs, tracks, Lab, start, now)]
  }

  lemma OneMoreRun(runs: seq<Run>, run: Run, tracks: map<string, Split>, start: Time, now: Time)
    ensures var before, after, n :=
              Totals(runs, tracks, start, now), Totals(runs + [run], tracks, start, now), |Instants(run, start, now)|;
            && after == (if run.agent !in tracks then before
                         else before[tracks[run.agent] := before[tracks[run.agent]] + n])
            && Sampled(runs + [run], tracks, start, now)
               == Sampled(runs, tracks, start, now) + if run.agent in tracks && n > 0 then 1 else 0
  {
    assert (runs + [run])[..|runs|] == runs;
  }

  method Measure(tuning: Tuning, runs: seq<Run>, tracks: map<string, Split>, now: Time)
      returns (r: Result<Reading, Fault>)
    ensures r == ReadingOf(tuning, runs, tracks, now)
  {
    var start := now - tuning.window;
    var totals: map<Split, Time> := map[Core := 0, Lab := 0];
    var counted := 0;
    for i := 0 to |runs|
      invariant totals == Totals(runs[..i], tracks, start, now)
      invariant counted == Sampled(runs[..i], tracks, start, now)
    {
      hide Totals, Sampled, Instants, Conclude;
      var run := runs[i];
      assert runs[..i + 1] == runs[..i] + [run];
      OneMoreRun(runs[..i], run, tracks, start, now);
      if run.agent !in tracks { continue; }
      if run.startedAt.None? || run.finishedAt.None? {
        NoStampNoInstants(run, start, now);
        NothingAdded(runs[..i], tracks, start, now, tracks[run.agent]);
        continue;
      }
      ClippingCounts(run, start, now);
      NothingAdded(runs[..i], tracks, start, now, tracks[run.agent]);
      var overlap := Min(run.finishedAt.value, now) - Max(run.startedAt.value, start);
      if run.finishedAt.value <= start || run.startedAt.value >= now || overlap <= 0 { continue; }
      totals := totals[tracks[run.agent] := totals[tracks[run.agent]] + overlap];
      counted := counted + 1;
    }
    assert runs[..|runs|] == runs;
    return Conclude(tuning, totals[Core], totals[Lab], counted);
  }

  lemma NoStampNoInstants(run: Run, start: Time, now: Time)
    requires run.startedAt.None? || run.finishedAt.None?
    ensures |Instants(run, start, now)| == 0
  {
    assert Instants(run, start, now) == {};
  }

  lemma NothingAdded(runs: seq<Run>, tracks: map<string, Split>, start: Time, now: Time, t: Split)
    ensures var totals := Totals(runs, tracks, start, now);
            totals.Keys == {Core, Lab} && t in totals && totals[t := totals[t] + 0] == totals
  {
  }

  /******* Deciding *******/

  function Decide(core: int, measured: real, points: int, step: int): Option<Target> {
    var gap := measured - core as real;
    if (if gap < 0.0 then -gap else gap) <= points as real then None
    else
      var next := core + if gap > 0.0 then -step else step;
      if next <= 0 || 100 - next <= 0 then None else Some(Target(next, 100 - next))
  }

  datatype Target = Target(core: int, lab: int)

  /** A move is never a lock: it is one step wide, leaves both tracks a share, and widens the gap it was made for. */
  lemma MovesWidenTheGap(core: int, measured: real, points: int, step: int)
    requires step > 0 && points >= 0 && Decide(core, measured, points, step).Some?
    ensures var t := Decide(core, measured, points, step).value;
            && 1 <= t.core <= 99 && t.core + t.lab == 100
            && (measured > core as real
                ==> t.core == core - step && measured - t.core as real == measured - core as real + step as real)
            && (measured < core as real
                ==> t.core == core + step && t.core as real - measured == core as real - measured + step as real)
            && (measured > core as real ==> measured - core as real > points as real)
            && (measured < core as real ==> core as real - measured > points as real)
            && measured != core as real
  {
  }

  /** Outside the tolerance only the edge stops a move. */
  lemma OnlyTheEdgeStops(core: int, measured: real, points: int, step: int)
    requires step > 0 && points >= 0 && Decide(core, measured, points, step).None?
    ensures measured - core as real > points as real ==> core <= step || core - step >= 100
    ensures core as real - measured > points as real ==> core >= 100 - step || core + step <= 0
  {
  }

  /** The moves a constant measurement causes, one after the other, until none is left to make. */
  function Moves(core: int, measured: real, points: int, step: int): (n: nat)
    requires step > 0 && points >= 0
    decreases if measured > core as real then Max(0, core) else Max(0, 100 - core)
  {
    var t := Decide(core, measured, points, step);
    if t.None? then 0 else 1 + Moves(t.value.core, measured, points, step)
  }

  /** The split those moves end at. */
  function Settled(core: int, measured: real, points: int, step: int): int
    requires step > 0 && points >= 0
    decreases if measured > core as real then Max(0, core) else Max(0, 100 - core)
  {
    var t := Decide(core, measured, points, step);
    if t.None? then core else Settled(t.value.core, measured, points, step)
  }

  lemma OneMoreTimes(n: nat, step: int)
    ensures (1 + n) * step == step + n * step
  {
  }

  /**
   A constant measurement outside the tolerance is not followed but fled: the moves go on, all
   the same way, until one more step would lock a track, which takes fewer than 100 / step of them.
   */
  lemma {:induction false} MovesRunToTheEdge(core: int, measured: real, points: int, step: int)
    requires step > 0 && points >= 0 && 0.0 <= measured <= 100.0
    ensures var n, last := Moves(core, measured, points, step), Settled(core, measured, points, step);
            && Decide(last, measured, points, step).None?
            && n * step <= 98
            && last == (if measured > core as real then core - n * step else core + n * step)
            && (n > 0 ==> if measured > core as real then 1 <= last <= step else 100 - step <= last <= 99)
    decreases if measured > core as real then Max(0, core) else Max(0, 100 - core)
  {
    hide Decide;
    var t := Decide(core, measured, points, step);
    if t.Some? {
      MovesWidenTheGap(core, measured, points, step);
      MovesRunToTheEdge(t.value.core, measured, points, step);
      var n := Moves(t.value.core, measured, points, step);
      assert Moves(core, measured, points, step) == 1 + n;
      assert Settled(core, measured, points, step) == Settled(t.value.core, measured, points, step);
      if n == 0 { OnlyTheEdgeStops(t.value.core, measured, points, step); }
      hide Moves, Settled;
      OneMoreTimes(n, step);
    }
  }

  /******* One tick *******/

  datatype Direction = CoreAbove | CoreBelow

  /** What survives a tick and a restart; the rest of the stored state is derived anew. */
  datatype Timer = Timer(since: Option<Time>, direction: Option<Direction>)

  const NO_TIMER: Timer := Timer(None, None)
  const ACTOR: string := "bridge:adaptive"

  datatype Site = Site(world: World, timer: Timer)

  /** Any operator row whose key is an allocation key, expired and revoked rows aside. */
  predicate OperatorSpeaks(rows: seq<PolicyRow>, now: Time) {
    exists row :: row in rows && IsActive(row, now) && row.priority == OPERATOR && "allocation." <= row.key
  }

  function StepOf(cfg: Config): int {
    Max(1, RoundHalfEven(100, Max(1, cfg.slotBudget)))
  }

  /** The fraction is dropped, whatever the sign. */
  function Truncate(n: real): (i: int)
    ensures n >= 0.0 ==> 0.0 <= i as real <= n < i as real + 1.0
    ensures n <= 0.0 ==> 0.0 >= i as real >= n > i as real - 1.0
  {
    if n >= 0.0 then n.Floor else -((-n).Floor)
  }

  /** A share as an integer; what is not a number raises. */
  function AsInteger(e: Option<Candidate>): Option<int> {
    if e.None? then None
    else
      match e.value.value
      case Num(n) => Some(Truncate(n))
      case Bool(b) => Some(if b then 1 else 0)
      case _ => None
  }

  function CurrentShare(cfg: Config, w: World, t: Split, now: Time): Option<int> {
    AsInteger(Effective(w.policies, w.mandates, AskerOf(cfg, None, Lab, now), AllocationKey(t)))
  }

  /** An agent of both tracks counts for lab. */
  function TracksOf(cfg: Config, w: World): map<string, Split>
    requires Resolvable(cfg, w)
  {
    var core, lab := AgentsOf(cfg, w, Core).value, AgentsOf(cfg, w, Lab).value;
    map a | a in core + lab :: if a in lab then Lab else Core
  }

  datatype Finding = Overridden | Faulted | Insufficient | Tolerated | Drifting(direction: Direction, target: Target)

  function Judge(cfg: Config, tuning: Tuning, core: int, reading: Reading): Finding {
    if reading.shares.None? then Insufficient
    else
      var measured := reading.shares.value.core;
      var target := Decide(core, measured, tuning.points, StepOf(cfg));
      if target.None? then Tolerated
      else Drifting(if measured < core as real then CoreAbove else CoreBelow, target.value)
  }

  /** What a tick finds before it looks at its timer. */
  function Look(cfg: Config, tuning: Tuning, w: World, runs: seq<Run>, now: Time): Finding {
    if OperatorSpeaks(w.policies, now) then Overridden
    else if CurrentShare(cfg, w, Core, now).None? || CurrentShare(cfg, w, Lab, now).None? || !Resolvable(cfg, w) then
      Faulted
    else
      var reading := ReadingOf(tuning, runs, TracksOf(cfg, w), now);
      if reading.Err? then Faulted else Judge(cfg, tuning, CurrentShare(cfg, w, Core, now).value, reading.value)
  }

  function MoveCall(target: Target, now: Time): Call {
    Call(target.core, target.lab, true, ACTOR, None, now)
  }

  /** The writes of a tick, the timer it stores last (none if it raises before that), and the split it moves to. */
  datatype Turn = Turn(writes: seq<Write>, timer: Option<Timer>, moved: Option<Target>)

  function TurnOf(cfg: Config, tuning: Tuning, s: Site, runs: seq<Run>, now: Time): Turn {
    if !tuning.enabled then Turn([], None, None)
    else
      match Look(cfg, tuning, s.world, runs, now)
      case Overridden => Turn([], Some(NO_TIMER), None)
      case Faulted => Turn([], None, None)
      case Insufficient => Turn([], Some(Timer(None, s.timer.direction)), None)
      case Tolerated => Turn([], Some(Timer(None, s.timer.direction)), None)
      case Drifting(direction, target) =>
        if s.timer.direction != Some(direction) then Turn([], Some(Timer(Some(now), Some(direction))), None)
        else if now - (if s.timer.since.Some? then s.timer.since.value else now) < tuning.hold
          then Turn([], Some(s.timer), None)
        else
          var plan := AllocationPlan(cfg, s.world, MoveCall(target, now));
          Turn(
            plan.writes,
            if plan.outcome.Applied? || plan.outcome.Declined? then Some(NO_TIMER) else None,
            Some(target))
  }

  /** Enough runs were at work, for long enough, and for any time at all. */
  ghost predicate EnoughEvidence(tuning: Tuning, runs: seq<Run>, tracks: map<string, Split>, now: Time) {
    var start := now - tuning.window;
    var work := |Work(runs, tracks, Core, start, now)| + |Work(runs, tracks, Lab, start, now)|;
    |AtWork(runs, tracks, start, now)| >= tuning.minRuns && work >= tuning.minWork && work > 0
  }

  /** Core's part of the measured work, in percent. */
  ghost function MeasuredCore(tuning: Tuning, runs: seq<Run>, tracks: map<string, Split>, now: Time): real
    requires EnoughEvidence(tuning, runs, tracks, now)
  {
    var start := now - tuning.window;
    var core, lab := |Work(runs, tracks, Core, start, now)|, |Work(runs, tracks, Lab, start, now)|;
    100.0 * core as real / (core + lab) as real
  }

  ghost predicate OperatorRowInForce(rows: seq<PolicyRow>, now: Time) {
    exists row :: row in rows && row.revokedAt.None? && (row.expiresAt.None? || now < row.expiresAt.value)
                  && row.priority == 20 && "allocation." <= row.key
  }

  /** The split is too far from the measured one, there is room for a step, and the timer has seen this long enough. */
  ghost predicate RipeToMove(tuning: Tuning, step: int, timer: Timer, core: int, measured: real, now: Time) {
    && (measured - core as real > tuning.points as real || core as real - measured > tuning.points as real)
    && (if measured > core as real then 1 <= core - step <= 99 && timer.direction == Some(CoreBelow)
        else 1 <= core + step <= 99 && timer.direction == Some(CoreAbove))
    && (if timer.since.None? then 0 >= tuning.hold else now - timer.since.value >= tuning.hold)
  }

  lemma SomeonesWord(rows: seq<PolicyRow>, now: Time)
    ensures OperatorSpeaks(rows, now) <==> OperatorRowInForce(rows, now)
  {
  }

  /**
   A tick moves the split exactly if it is enabled, no operator row stands against it, both shares can be
   read and the agents found, there is enough evidence, and the drift is large, leaves room and is ripe.
   The move is one step away from the measurement.
   */
  lemma TickMovesExactly(cfg: Config, tuning: Tuning, s: Site, runs: seq<Run>, now: Time)
    requires tuning.points >= 0
    ensures var core, lab := CurrentShare(cfg, s.world, Core, now), CurrentShare(cfg, s.world, Lab, now);
            var moved := TurnOf(cfg, tuning, s, runs, now).moved;
            && (moved.Some?
                <==> && tuning.enabled && !OperatorRowInForce(s.world.policies, now) && core.Some? && lab.Some?
                     && Resolvable(cfg, s.world) && EnoughEvidence(tuning, runs, TracksOf(cfg, s.world), now)
                     && RipeToMove(tuning, StepOf(cfg), s.timer, core.value,
                                   MeasuredCore(tuning, runs, TracksOf(cfg, s.world), now), now))
            && (moved.Some? ==>
                  moved.value.core + moved.value.lab == 100
                  && moved.value.core == if MeasuredCore(tuning, runs, TracksOf(cfg, s.world), now) > core.value as real
                                         then core.value - StepOf(cfg) else core.value + StepOf(cfg))
            && TurnOf(cfg, tuning, s, runs, now).writes
               == (if moved.None? then []
                   else AllocationPlan(cfg, s.world, Call(moved.value.core, moved.value.lab, true, "bridge:adaptive",
                                                          None, now)).writes)
  {
    assert StepOf(cfg) >= 1;
    assert ACTOR == "bridge:adaptive";
    LookFinds(cfg, tuning, s.world, runs, now);
    MovesAreRipe(cfg, tuning, s, runs, now);
    var core := CurrentShare(cfg, s.world, Core, now);
    if core.Some? && Resolvable(cfg, s.world) && EnoughEvidence(tuning, runs, TracksOf(cfg, s.world), now) {
      var measured := MeasuredCore(tuning, runs, TracksOf(cfg, s.world), now);
      RipeIsDecided(tuning, StepOf(cfg), s.timer, core.value, measured, now);
    }
    hide OperatorRowInForce, CurrentShare, Resolvable, StepOf, AllocationPlan, EnoughEvidence, MeasuredCore, TracksOf,
         Decide, RipeToMove, Look, TurnOf;
  }

  /** What makes a tick find drift, and which. */
  lemma LookFinds(cfg: Config, tuning: Tuning, w: World, runs: seq<Run>, now: Time)
    ensures var core, found := CurrentShare(cfg, w, Core, now), Look(cfg, tuning, w, runs, now);
            if && !OperatorRowInForce(w.policies, now) && core.Some? && CurrentShare(cfg, w, Lab, now).Some?
               && Resolvable(cfg, w) && EnoughEvidence(tuning, runs, TracksOf(cfg, w), now)
            then
              var measured := MeasuredCore(tuning, runs, TracksOf(cfg, w), now);
              var target := Decide(core.value, measured, tuning.points, StepOf(cfg));
              found == if target.None? then Tolerated
                       else Drifting(if measured < core.value as real then CoreAbove else CoreBelow, target.value)
            else !found.Drifting? && !found.Tolerated?
  {
    SomeonesWord(w.policies, now);
    if Resolvable(cfg, w) { EvidenceReads(tuning, runs, TracksOf(cfg, w), now); }
    hide OperatorSpeaks, OperatorRowInForce, CurrentShare, Resolvable, StepOf, ReadingOf, EnoughEvidence, MeasuredCore,
         TracksOf, Decide;
  }

  /** Drift that the timer has held long enough is what moves a tick, and nothing else. */
  lemma MovesAreRipe(cfg: Config, tuning: Tuning, s: Site, runs: seq<Run>, now: Time)
    ensures var turn, found := TurnOf(cfg, tuning, s, runs, now), Look(cfg, tuning, s.world, runs, now);
            && (turn.moved.Some?
                <==> && tuning.enabled && found.Drifting? && s.timer.direction == Some(found.direction)
                     && now - (if s.timer.since.Some? then s.timer.since.value else now) >= tuning.hold)
            && (turn.moved.Some? ==> turn.moved == Some(found.target))
            && turn.writes == if turn.moved.None? then []
                              else AllocationPlan(cfg, s.world, MoveCall(found.target, now)).writes
  {
    hide Look, AllocationPlan;
  }

  lemma EvidenceReads(tuning: Tuning, runs: seq<Run>, tracks: map<string, Split>, now: Time)
    ensures var r := ReadingOf(tuning, runs, tracks, now);
            && (r.Ok? && r.value.shares.Some? <==> EnoughEvidence(tuning, runs, tracks, now))
            && (EnoughEvidence(tuning, runs, tracks, now) ==>
                  r.value.shares.value.core == MeasuredCore(tuning, runs, tracks, now))
  {
    SharesNeedEvidence(tuning, runs, tracks, now);
    hide ReadingOf, Work, AtWork;
  }

  /** What the timer and the rule make of a drift. */
  lemma RipeIsDecided(tuning: Tuning, step: int, timer: Timer, core: int, measured: real, now: Time)
    requires tuning.points >= 0 && step > 0
    ensures var target := Decide(core, measured, tuning.points, step);
            var direction := if measured < core as real then CoreAbove else CoreBelow;
            var held := now - if timer.since.Some? then timer.since.value else now;
            && (RipeToMove(tuning, step, timer, core, measured, now)
                <==> target.Some? && timer.direction == Some(direction) && held >= tuning.hold)
            && (target.Some? ==> target.value.core + target.value.lab == 100
                                 && target.value.core == if measured > core as real then core - step else core + step)
  {
  }

  /** The step is the nearest number of percent to one slot of the budget, the even one at a tie, and one at least. */
  lemma StepIsASlot(cfg: Config)
    requires cfg.slotBudget > 0
    ensures var step := StepOf(cfg);
            && 1 <= step
            && (cfg.slotBudget < 200 ==> -cfg.slotBudget <= 2 * step * cfg.slotBudget - 200 <= cfg.slotBudget)
            && (cfg.slotBudget < 200 && 2 * (100 % cfg.slotBudget) == cfg.slotBudget ==> step % 2 == 0)
            && (cfg.slotBudget >= 200 ==> step == 1)
  {
  }

  /** A tick, cut after that many of its allocation writes if it is cut, or anything else done to the tables. */
  datatype Beat =
    | Tick(runs: seq<Run>, now: Time, cut: Option<nat>)
    | Meanwhile(world: World)

  function After(cfg: Config, tuning: Tuning, s: Site, beat: Beat): Site {
    match beat
    case Meanwhile(world) => s.(world := world)
    case Tick(runs, now, cut) =>
      var turn := TurnOf(cfg, tuning, s, runs, now);
      if cut.Some? then s.(world := Exec(s.world, Cut(turn.writes, cut.value)))
      else Site(Exec(s.world, turn.writes), if turn.timer.Some? then turn.timer.value else s.timer)
  }

  function RunBeats(cfg: Config, tuning: Tuning, s: Site, beats: seq<Beat>): Site {
    if beats == [] then s else After(cfg, tuning, RunBeats(cfg, tuning, s, beats[..|beats| - 1]), beats[|beats| - 1])
  }

  /** The site as the k-th beat meets it. */
  function SiteAt(cfg: Config, tuning: Tuning, s: Site, beats: seq<Beat>, k: nat): Site
    requires k <= |beats|
  {
    RunBeats(cfg, tuning, s, beats[..k])
  }

  function TurnAt(cfg: Config, tuning: Tuning, s: Site, beats: seq<Beat>, k: nat): Turn
    requires k < |beats| && beats[k].Tick?
  {
    TurnOf(cfg, tuning, SiteAt(cfg, tuning, s, beats, k), beats[k].runs, beats[k].now)
  }

  /** The k-th beat is a tick that ran to its end and stored its timer. */
  predicate Completes(cfg: Config, tuning: Tuning, s: Site, beats: seq<Beat>, k: nat)
    requires k < |beats|
  {
    beats[k].Tick? && beats[k].cut.None? && TurnAt(cfg, tuning, s, beats, k).timer.Some?
  }

  /** The k-th beat is a tick that moves the split, whether or not it lives to the end. */
  predicate MovesAt(cfg: Config, tuning: Tuning, s: Site, beats: seq<Beat>, k: nat)
    requires k < |beats|
  {
    beats[k].Tick? && TurnAt(cfg, tuning, s, beats, k).moved.Some?
  }

  predicate DriftsAt(cfg: Config, tuning: Tuning, s: Site, beats: seq<Beat>, k: nat, direction: Direction)
    requires k < |beats|
  {
    beats[k].Tick?
    && var found := Look(cfg, tuning, SiteAt(cfg, tuning, s, beats, k).world, beats[k].runs, beats[k].now);
       found.Drifting? && found.direction == direction
  }

  lemma NextSite(cfg: Config, tuning: Tuning, s: Site, beats: seq<Beat>, k: nat)
    requires k < |beats|
    ensures SiteAt(cfg, tuning, s, beats, k + 1) == After(cfg, tuning, SiteAt(cfg, tuning, s, beats, k), beats[k])
  {
    hide Look, AllocationPlan, Exec;
    assert beats[..k + 1][..k] == beats[..k];
  }

  /** Every completed tick of i..n drifted this way and none of them moved. */
  ghost predicate DriftedSince(
      cfg: Config, tuning: Tuning, s: Site, beats: seq<Beat>, i: nat, n: nat, direction: Direction)
    requires i <= n <= |beats|
  {
    forall j :: i <= j < n && Completes(cfg, tuning, s, beats, j) ==>
      DriftsAt(cfg, tuning, s, beats, j, direction) && !MovesAt(cfg, tuning, s, beats, j)
  }

  /** The i-th beat started the timer that stands before the n-th. */
  ghost predicate Started(cfg: Config, tuning: Tuning, s: Site, beats: seq<Beat>, i: nat, n: nat)
    requires n <= |beats|
  {
    && i < n && Completes(cfg, tuning, s, beats, i)
    && var timer := SiteAt(cfg, tuning, s, beats, n).timer;
       timer.direction.Some? && timer.since == Some(beats[i].now)
         && DriftedSince(cfg, tuning, s, beats, i, n, timer.direction.value)
  }

  lemma {:induction false} TimerIsHonest(cfg: Config, tuning: Tuning, s: Site, beats: seq<Beat>, n: nat)
    requires s.timer == NO_TIMER && n <= |beats|
    ensures SiteAt(cfg, tuning, s, beats, n).timer.since.Some? ==> exists i: nat :: Started(cfg, tuning, s, beats, i, n)
  {
    hide Look, AllocationPlan, Exec;
    if n > 0 && SiteAt(cfg, tuning, s, beats, n).timer.since.Some? {
      TimerIsHonest(cfg, tuning, s, beats, n - 1);
      NextSite(cfg, tuning, s, beats, n - 1);
      if Completes(cfg, tuning, s, beats, n - 1)
        && SiteAt(cfg, tuning, s, beats, n).timer != SiteAt(cfg, tuning, s, beats, n - 1).timer {
        assert Started(cfg, tuning, s, beats, n - 1, n);
      } else {
        var i: nat :| Started(cfg, tuning, s, beats, i, n - 1);
        StartedStays(cfg, tuning, s, beats, i, n);
      }
    }
  }

  lemma StartedStays(cfg: Config, tuning: Tuning, s: Site, beats: seq<Beat>, i: nat, n: nat)
    requires 0 < n <= |beats| && Started(cfg, tuning, s, beats, i, n - 1)
    requires SiteAt(cfg, tuning, s, beats, n).timer == SiteAt(cfg, tuning, s, beats, n - 1).timer
    ensures Started(cfg, tuning, s, beats, i, n)
  {
    hide Look, AllocationPlan, Exec;
    NextSite(cfg, tuning, s, beats, n - 1);
  }

  /** The tick that started the timer, and what every completed tick since then saw. */
  ghost predicate Held(cfg: Config, tuning: Tuning, s: Site, beats: seq<Beat>, i: nat, k: nat)
    requires k < |beats| && beats[k].Tick?
  {
    && i < k && Completes(cfg, tuning, s, beats, i)
    && beats[k].now - beats[i].now >= tuning.hold
    && exists direction ::
         DriftedSince(cfg, tuning, s, beats, i, k, direction) && DriftsAt(cfg, tuning, s, beats, k, direction)
  }

  /**
   Hold safety over whole runs: with a positive hold, a tick moves the split only if an earlier tick,
   at least the hold before it, found drift, and every tick completed from then on found drift the
   same way, met no operator row and moved nothing. Restarts, cut ticks and whatever else happens
   to the tables in between make no difference.
   */
  lemma HoldSafety(cfg: Config, tuning: Tuning, s: Site, beats: seq<Beat>, k: nat)
    requires s.timer == NO_TIMER && tuning.hold > 0 && k < |beats|
    ensures MovesAt(cfg, tuning, s, beats, k) ==> exists i: nat :: Held(cfg, tuning, s, beats, i, k)
  {
    hide Look, AllocationPlan, Exec;
    if MovesAt(cfg, tuning, s, beats, k) {
      TimerIsHonest(cfg, tuning, s, beats, k);
      var timer := SiteAt(cfg, tuning, s, beats, k).timer;
      assert DriftsAt(cfg, tuning, s, beats, k, timer.direction.value);
      var i: nat :| Started(cfg, tuning, s, beats, i, k);
      assert Held(cfg, tuning, s, beats, i, k);
    }
  }

  /******* The stall *******/

  predicate Stalled(timer: Timer) {
    timer.since.None? && timer.direction.Some?
  }

  /**
   How a stall begins: a tick within tolerance, or with too little to go by, forgets when the drift
   began but not which way it went. Nothing else does that.
   */
  lemma StallsBeginExactly(cfg: Config, tuning: Tuning, s: Site, runs: seq<Run>, now: Time)
    requires tuning.enabled && s.timer.direction.Some? && !Stalled(s.timer)
    ensures var found := Look(cfg, tuning, s.world, runs, now);
            Stalled(After(cfg, tuning, s, Tick(runs, now, None)).timer) <==> found.Insufficient? || found.Tolerated?
  {
    hide Look, AllocationPlan, Exec;
  }

  /** A completed tick that found an operator row, or drift the other way. */
  ghost predicate FreesAt(cfg: Config, tuning: Tuning, s: Site, beats: seq<Beat>, k: nat, direction: Direction)
    requires k < |beats|
  {
    && Completes(cfg, tuning, s, beats, k)
    && var found := Look(cfg, tuning, SiteAt(cfg, tuning, s, beats, k).world, beats[k].runs, beats[k].now);
       found.Overridden? || (found.Drifting? && found.direction != direction)
  }

  lemma StalledStep(cfg: Config, tuning: Tuning, s: Site, beats: seq<Beat>, k: nat, timer: Timer)
    requires tuning.hold > 0 && Stalled(timer) && k < |beats| && SiteAt(cfg, tuning, s, beats, k).timer == timer
    ensures !MovesAt(cfg, tuning, s, beats, k)
    ensures SiteAt(cfg, tuning, s, beats, k + 1).timer == timer
            <==> !FreesAt(cfg, tuning, s, beats, k, timer.direction.value)
  {
    hide Look, AllocationPlan, Exec;
    NextSite(cfg, tuning, s, beats, k);
  }

  lemma {:induction false} StalledUpTo(cfg: Config, tuning: Tuning, s: Site, beats: seq<Beat>, n: nat)
    requires tuning.hold > 0 && Stalled(s.timer) && n <= |beats|
    requires forall k :: 0 <= k < n ==> !FreesAt(cfg, tuning, s, beats, k, s.timer.direction.value)
    ensures SiteAt(cfg, tuning, s, beats, n).timer == s.timer
    ensures forall k :: 0 <= k < n ==> !MovesAt(cfg, tuning, s, beats, k)
  {
    hide Look, AllocationPlan, Exec;
    if n > 0 {
      StalledUpTo(cfg, tuning, s, beats, n - 1);
      StalledStep(cfg, tuning, s, beats, n - 1, s.timer);
    }
  }

  /**
   Hold is a promise of safety only. Once stalled, the timer stays stalled exactly as long as no
   completed tick meets an operator row or drift the other way; until then no tick moves anything,
   however long the drift lasts.
   */
  lemma StallLastsExactly(cfg: Config, tuning: Tuning, s: Site, beats: seq<Beat>)
    requires tuning.hold > 0 && Stalled(s.timer)
    ensures (forall k :: 0 <= k <= |beats| ==> SiteAt(cfg, tuning, s, beats, k).timer == s.timer)
            <==> forall k :: 0 <= k < |beats| ==> !FreesAt(cfg, tuning, s, beats, k, s.timer.direction.value)
    ensures (forall k :: 0 <= k < |beats| ==> !FreesAt(cfg, tuning, s, beats, k, s.timer.direction.value)) ==>
              forall k :: 0 <= k < |beats| ==> !MovesAt(cfg, tuning, s, beats, k)
  {
    hide Look, AllocationPlan, Exec;
    if forall k :: 0 <= k < |beats| ==> !FreesAt(cfg, tuning, s, beats, k, s.timer.direction.value) {
      forall k | 0 <= k <= |beats| ensures SiteAt(cfg, tuning, s, beats, k).timer == s.timer {
        StalledUpTo(cfg, tuning, s, beats, k);
      }
      StalledUpTo(cfg, tuning, s, beats, |beats|);
    } else {
      var k :| 0 <= k < |beats| && FreesAt(cfg, tuning, s, beats, k, s.timer.direction.value);
      if SiteAt(cfg, tuning, s, beats, k).timer == s.timer {
        StalledStep(cfg, tuning, s, beats, k, s.timer);
        assert SiteAt(cfg, tuning, s, beats, k + 1).timer != s.timer;
      }
    }
  }

  /******* Never a lock *******/

  lemma StepIsPositive(cfg: Config)
    ensures StepOf(cfg) >= 1
  {
  }

  lemma LookTargets(cfg: Config, tuning: Tuning, w: World, runs: seq<Run>, now: Time)
    ensures var found := Look(cfg, tuning, w, runs, now);
            found.Drifting? ==> 1 <= found.target.core <= 99 && found.target.core + found.target.lab == 100
  {
    hide CurrentShare, ReadingOf, Resolvable, TracksOf, StepOf, OperatorSpeaks;
  }

  /** Whatever the state, a tick asks for two positive shares that sum to 100: it pauses nobody and opens no row. */
  lemma TicksNeverLock(cfg: Config, tuning: Tuning, s: Site, runs: seq<Run>, now: Time)
    ensures var turn := TurnOf(cfg, tuning, s, runs, now);
            && (forall x :: x in turn.writes ==> !x.SetPaused? && !x.PutLedger?)
            && (turn.moved.Some?
                ==> 1 <= turn.moved.value.core <= 99 && turn.moved.value.core + turn.moved.value.lab == 100)
            && (turn.moved.None? ==> turn.writes == [])
  {
    hide Look, AllocationPlan;
    LookTargets(cfg, tuning, s.world, runs, now);
    var turn := TurnOf(cfg, tuning, s, runs, now);
    if turn.moved.Some? {
      PositiveSharesNeverPause(cfg, s.world, MoveCall(turn.moved.value, now));
    }
  }

  /** A cut after the move but before the timer is stored leaves the timer ripe: the next tick may move again. */
  lemma CutMovesLeaveTheTimerRipe(cfg: Config, tuning: Tuning, s: Site, runs: seq<Run>, now: Time, k: nat,
      more: seq<Run>, later: Time)
    requires later >= now
    ensures var cut := After(cfg, tuning, s, Tick(runs, now, Some(k)));
            var found := Look(cfg, tuning, cut.world, more, later);
            && cut.timer == s.timer
            && (TurnOf(cfg, tuning, s, runs, now).moved.Some? ==>
                  (TurnOf(cfg, tuning, cut, more, later).moved.Some?
                   <==> found.Drifting? && Some(found.direction) == s.timer.direction
                        && (s.timer.since.Some? || tuning.hold <= 0)))
  {
    hide Look, AllocationPlan, Exec;
  }

  /******* Settling *******/

  lemma {:induction false} RowsIgnoreTheClock(
      cfg: Config, rows: seq<PolicyRow>, t: Time, a: Asker, b: Asker, key: string)
    requires a.company == b.company && a.project == b.project && a.track == b.track
    requires key in {ALLOCATION_CORE, ALLOCATION_LAB, TRACK_LOCKED}
    requires forall row :: row in rows ==> OrderlyRow(cfg, row, t)
    ensures RowCandidates(rows, a, key) == RowCandidates(rows, b, key)
  {
    if rows != [] {
      var row := rows[|rows| - 1];
      assert row in rows && OrderlyRow(cfg, row, t);
      RowsIgnoreTheClock(cfg, rows[..|rows| - 1], t, a, b, key);
    }
  }

  lemma ShareIgnoresTheClock(cfg: Config, w: World, t: Time, track: Split, n1: Time, n2: Time)
    requires Orderly(cfg, w.policies, t)
    ensures CurrentShare(cfg, w, track, n1) == CurrentShare(cfg, w, track, n2)
  {
    hide TopClass;
    var a, b := AskerOf(cfg, None, Lab, n1), AskerOf(cfg, None, Lab, n2);
    RowsIgnoreTheClock(cfg, w.policies, t, a, b, AllocationKey(track));
    MandatesAreSilentOn(w.mandates, a, AllocationKey(track));
    MandatesAreSilentOn(w.mandates, b, AllocationKey(track));
  }

  /** The core share a tick measures, where it gets that far. */
  function MeasuredBy(cfg: Config, tuning: Tuning, w: World, runs: seq<Run>, now: Time): Option<real> {
    if !Resolvable(cfg, w) then None
    else
      var reading := ReadingOf(tuning, runs, TracksOf(cfg, w), now);
      if reading.Err? || reading.value.shares.None? then None else Some(reading.value.shares.value.core)
  }

  lemma SpeakingIsAllocating(rows: seq<PolicyRow>, now: Time)
    requires !OperatorSpeaks(rows, now)
    ensures !OperatorAllocates(rows, now)
  {
    assert "allocation." <= ALLOCATION_CORE && "allocation." <= ALLOCATION_LAB;
  }

  lemma MoveIsDecided(cfg: Config, tuning: Tuning, s: Site, runs: seq<Run>, now: Time)
    requires TurnOf(cfg, tuning, s, runs, now).moved.Some?
    ensures var core, m := CurrentShare(cfg, s.world, Core, now), MeasuredBy(cfg, tuning, s.world, runs, now);
            && !OperatorSpeaks(s.world.policies, now) && core.Some? && m.Some?
            && Decide(core.value, m.value, tuning.points, StepOf(cfg)) == TurnOf(cfg, tuning, s, runs, now).moved
  {
    hide AllocationPlan, CurrentShare, ReadingOf, Resolvable, Decide, StepOf, OperatorSpeaks, TracksOf;
  }

  lemma MoveTakesEffect(cfg: Config, w: World, t: Time, target: Target, now: Time)
    requires Ready(cfg, w, t) && t < now && !OperatorSpeaks(w.policies, now) && 1 <= target.core <= 99
             && target.core + target.lab == 100
    ensures var w' := Allocate(cfg, w, MoveCall(target, now));
            Ready(cfg, w', now) && forall later :: CurrentShare(cfg, w', Core, later) == Some(target.core)
  {
    hide Effective, Exec, AllocationPlan, Ready, OperatorSpeaks, ShareRow;
    var call := MoveCall(target, now);
    SpeakingIsAllocating(w.policies, now);
    CompletedCallAgrees(cfg, w, t, call);
    var w' := Allocate(cfg, w, call);
    forall later ensures CurrentShare(cfg, w', Core, later) == Some(target.core) {
      AgreedShareReads(cfg, w', target, later);
    }
  }

  lemma AgreedShareReads(cfg: Config, w: World, target: Target, now: Time)
    requires ResolverAgrees(cfg, w, target.core, target.lab, Lab)
    ensures CurrentShare(cfg, w, Core, now) == Some(target.core)
  {
    hide Effective;
    var a := AskerOf(cfg, None, Lab, now);
    assert ValueAt(w, a, ALLOCATION_CORE) == Some(Num(target.core as real));
  }

  /** A run of completed ticks, one after the other, that all measure the same. */
  ghost predicate Steady(cfg: Config, tuning: Tuning, s: Site, beats: seq<Beat>, t: Time, measured: real) {
    && (forall k :: 0 <= k < |beats| ==> beats[k].Tick? && beats[k].cut.None? && t < beats[k].now)
    && (forall j, k :: 0 <= j < k < |beats| ==> beats[j].now < beats[k].now)
    && (forall k :: 0 <= k < |beats| ==>
          MeasuredBy(cfg, tuning, SiteAt(cfg, tuning, s, beats, k).world, beats[k].runs, beats[k].now)
            == Some(measured))
  }

  function MovesIn(cfg: Config, tuning: Tuning, s: Site, beats: seq<Beat>): nat {
    if beats == [] then 0
    else MovesIn(cfg, tuning, s, beats[..|beats| - 1]) + if MovesAt(cfg, tuning, s, beats, |beats| - 1) then 1 else 0
  }

  /** The share after that many moves away from the measurement. */
  function Moved(core: int, measured: real, moves: int, step: int): int {
    if measured > core as real then core - moves * step else core + moves * step
  }

  ghost predicate OnCourse(cfg: Config, w: World, core: Option<int>, measured: real, moves: nat) {
    if moves == 0 then CurrentShare(cfg, w, Core, 0) == core
    else
      && core.Some? && measured != core.value as real
      && CurrentShare(cfg, w, Core, 0) == Some(Moved(core.value, measured, moves, StepOf(cfg)))
      && 1 <= Moved(core.value, measured, moves, StepOf(cfg)) <= 99
  }

  lemma OneMoreMove(core: int, measured: real, moves: nat, step: int, points: int)
    requires step >= 1 && points >= 0 && (moves > 0 ==> measured != core as real)
    requires Decide(Moved(core, measured, moves, step), measured, points, step).Some?
    ensures var next := Decide(Moved(core, measured, moves, step), measured, points, step).value;
            next.core == Moved(core, measured, moves + 1, step) && 1 <= next.core <= 99 && next.core + next.lab == 100
            && measured != core as real
  {
    MovesWidenTheGap(Moved(core, measured, moves, step), measured, points, step);
    assert (moves + 1) * step == moves * step + step;
    assert moves * step >= 0;
  }

  lemma SteadyTick(cfg: Config, tuning: Tuning, s: Site, t: Time, runs: seq<Run>, now: Time,
      core: Option<int>, measured: real, moves: nat)
    requires Ready(cfg, s.world, t) && t < now && tuning.points >= 0 && OnCourse(cfg, s.world, core, measured, moves)
    requires MeasuredBy(cfg, tuning, s.world, runs, now) == Some(measured)
    ensures var turn, w' := TurnOf(cfg, tuning, s, runs, now), After(cfg, tuning, s, Tick(runs, now, None)).world;
            && Ready(cfg, w', if turn.moved.Some? then now else t)
            && OnCourse(cfg, w', core, measured, moves + if turn.moved.Some? then 1 else 0)
  {
    hide Ready, CurrentShare, Look, AllocationPlan, MeasuredBy, StepOf, OperatorSpeaks, ReadingOf, Decide, Moved;
    var turn := TurnOf(cfg, tuning, s, runs, now);
    if turn.moved.Some? {
      MoveIsDecided(cfg, tuning, s, runs, now);
      ReadyIsOrderly(cfg, s.world, t);
      ShareIgnoresTheClock(cfg, s.world, t, Core, 0, now);
      StepIsPositive(cfg);
      NoMoves(core, measured, StepOf(cfg));
      OneMoreMove(core.value, measured, moves, StepOf(cfg), tuning.points);
      MoveTakesEffect(cfg, s.world, t, turn.moved.value, now);
    } else {
      TicksNeverLock(cfg, tuning, s, runs, now);
    }
  }

  lemma NoMoves(core: Option<int>, measured: real, step: int)
    ensures core.Some? ==> Moved(core.value, measured, 0, step) == core.value
  {
  }

  lemma ReadyIsOrderly(cfg: Config, w: World, t: Time)
    requires Ready(cfg, w, t)
    ensures Orderly(cfg, w.policies, t)
  {
  }

  /** When the last move of the run was made; t if there was none. */
  function LastMove(cfg: Config, tuning: Tuning, s: Site, beats: seq<Beat>, t: Time): Time {
    if beats == [] then t
    else if MovesAt(cfg, tuning, s, beats, |beats| - 1) && beats[|beats| - 1].Tick? then beats[|beats| - 1].now
    else LastMove(cfg, tuning, s, beats[..|beats| - 1], t)
  }

  lemma SteadyFront(cfg: Config, tuning: Tuning, s: Site, beats: seq<Beat>, t: Time, measured: real)
    requires beats != [] && Steady(cfg, tuning, s, beats, t, measured)
    ensures var front, last := beats[..|beats| - 1], beats[|beats| - 1];
            && Steady(cfg, tuning, s, front, t, measured)
            && last.Tick? && last.cut.None? && t < last.now
            && (front != [] ==> front[|front| - 1].Tick? && front[|front| - 1].now < last.now)
            && MeasuredBy(cfg, tuning, RunBeats(cfg, tuning, s, front).world, last.runs, last.now) == Some(measured)
  {
    hide MeasuredBy, RunBeats;
    var front := beats[..|beats| - 1];
    forall k | 0 <= k < |front| ensures front[..k] == beats[..k] {}
  }

  lemma {:induction false} LastMoveIsPast(
      cfg: Config, tuning: Tuning, s: Site, beats: seq<Beat>, t: Time, measured: real)
    requires beats != [] && Steady(cfg, tuning, s, beats, t, measured)
    ensures beats[|beats| - 1].Tick? && LastMove(cfg, tuning, s, beats, t) <= beats[|beats| - 1].now
  {
    hide Steady, MovesAt, MeasuredBy, RunBeats;
    SteadyFront(cfg, tuning, s, beats, t, measured);
    var front := beats[..|beats| - 1];
    if front != [] { LastMoveIsPast(cfg, tuning, s, front, t, measured); }
  }

  lemma {:induction false} SteadyRun(cfg: Config, tuning: Tuning, s: Site, beats: seq<Beat>, t: Time, measured: real)
    requires Ready(cfg, s.world, t) && tuning.points >= 0 && Steady(cfg, tuning, s, beats, t, measured)
    ensures Ready(cfg, RunBeats(cfg, tuning, s, beats).world, LastMove(cfg, tuning, s, beats, t))
    ensures OnCourse(cfg, RunBeats(cfg, tuning, s, beats).world, CurrentShare(cfg, s.world, Core, 0), measured,
                     MovesIn(cfg, tuning, s, beats))
  {
    hide Ready, CurrentShare, MeasuredBy, OnCourse, TurnOf, After, Steady;
    if beats != [] {
      var front, last := beats[..|beats| - 1], beats[|beats| - 1];
      SteadyFront(cfg, tuning, s, beats, t, measured);
      SteadyRun(cfg, tuning, s, front, t, measured);
      var site, before := RunBeats(cfg, tuning, s, front), LastMove(cfg, tuning, s, front, t);
      if front != [] { LastMoveIsPast(cfg, tuning, s, front, t, measured); }
      SteadyTick(cfg, tuning, site, before, last.runs, last.now, CurrentShare(cfg, s.world, Core, 0), measured,
                 MovesIn(cfg, tuning, s, front));
      assert last == Tick(last.runs, last.now, None);
    } else {
      StartsOnCourse(cfg, s.world, measured);
    }
  }

  lemma StartsOnCourse(cfg: Config, w: World, measured: real)
    ensures OnCourse(cfg, w, CurrentShare(cfg, w, Core, 0), measured, 0)
  {
  }

  /**
   A run of ticks that all measure the same makes at most 98 / step moves, whatever the timer and
   the hold, and each of them takes the effective split one step further from the measurement.
   */
  lemma SteadyMeasurementSettles(cfg: Config, tuning: Tuning, s: Site, beats: seq<Beat>, t: Time, measured: real)
    requires Ready(cfg, s.world, t) && tuning.points >= 0 && Steady(cfg, tuning, s, beats, t, measured)
             && 0.0 <= measured <= 100.0
    ensures var n, core := MovesIn(cfg, tuning, s, beats), CurrentShare(cfg, s.world, Core, 0);
            && n * StepOf(cfg) <= 98
            && (n > 0 ==> core.Some? && CurrentShare(cfg, RunBeats(cfg, tuning, s, beats).world, Core, 0)
                                        == Some(Moved(core.value, measured, n, StepOf(cfg))))
  {
    hide CurrentShare, RunBeats, Ready, Steady, StepOf;
    SteadyRun(cfg, tuning, s, beats, t, measured);
  }

  /******* How long settling takes *******/

  function DirectionOf(core: int, measured: real): Direction {
    if measured < core as real then CoreAbove else CoreBelow
  }

  /** Every tick gets as far as judging: no operator row, every share and agent readable, enough samples. */
  ghost predicate Judged(cfg: Config, tuning: Tuning, s: Site, beats: seq<Beat>) {
    forall k :: 0 <= k < |beats| && beats[k].Tick? ==>
      var found := Look(cfg, tuning, SiteAt(cfg, tuning, s, beats, k).world, beats[k].runs, beats[k].now);
      found.Tolerated? || found.Drifting?
  }

  /** No tick comes more than gap after the one before it, nor the first more than gap after t. */
  ghost predicate Regular(beats: seq<Beat>, t: Time, gap: Time) {
    forall k :: 0 <= k < |beats| && beats[k].Tick? ==> beats[k].now - TimeBefore(beats, t, k) <= gap
  }

  function TimeBefore(beats: seq<Beat>, t: Time, k: nat): Time
    requires k <= |beats|
  {
    if k > 0 && beats[k - 1].Tick? then beats[k - 1].now else t
  }

  /** The rule has no move to make from the split in force. */
  ghost predicate Refuses(cfg: Config, tuning: Tuning, w: World, measured: real) {
    var core := CurrentShare(cfg, w, Core, 0);
    core.None? || Decide(core.value, measured, tuning.points, StepOf(cfg)).None?
  }

  /** Settled, or just moved, or ripening since soon after the last move. */
  ghost predicate Ripening(cfg: Config, tuning: Tuning, s: Site, measured: real, last: Time, moved: Time, gap: Time) {
    || Refuses(cfg, tuning, s.world, measured)
    || (s.timer == NO_TIMER && last == moved)
    || (var core := CurrentShare(cfg, s.world, Core, 0);
        && core.Some? && s.timer.since.Some? && s.timer.direction == Some(DirectionOf(core.value, measured))
        && s.timer.since.value - moved <= gap && last - s.timer.since.value <= Max(0, tuning.hold))
  }

  lemma LookDecides(cfg: Config, tuning: Tuning, w: World, runs: seq<Run>, now: Time, measured: real)
    requires MeasuredBy(cfg, tuning, w, runs, now) == Some(measured)
    requires var found := Look(cfg, tuning, w, runs, now); found.Tolerated? || found.Drifting?
    ensures var found, core := Look(cfg, tuning, w, runs, now), CurrentShare(cfg, w, Core, now);
            && core.Some?
            && var target := Decide(core.value, measured, tuning.points, StepOf(cfg));
               found == if target.None? then Tolerated else Drifting(DirectionOf(core.value, measured), target.value)
  {
    hide CurrentShare, ReadingOf, Resolvable, TracksOf, Decide, StepOf, OperatorSpeaks;
  }

  lemma MoveCompletes(cfg: Config, w: World, t: Time, target: Target, now: Time)
    requires Ready(cfg, w, t) && t < now && !OperatorSpeaks(w.policies, now) && 1 <= target.core <= 99
             && target.core + target.lab == 100
    ensures AllocationPlan(cfg, w, MoveCall(target, now)).outcome.Applied?
  {
    hide Exec, AllocationPlan, Ready, OperatorSpeaks;
    SpeakingIsAllocating(w.policies, now);
    CompletedCallAgrees(cfg, w, t, MoveCall(target, now));
  }

  /** What a tick does to the timer, and whether it moves, once it has found drift. */
  lemma DriftingTick(
      cfg: Config, tuning: Tuning, s: Site, runs: seq<Run>, now: Time, direction: Direction, target: Target)
    requires tuning.enabled && Look(cfg, tuning, s.world, runs, now) == Drifting(direction, target)
    requires AllocationPlan(cfg, s.world, MoveCall(target, now)).outcome.Applied?
    ensures var turn, after := TurnOf(cfg, tuning, s, runs, now), After(cfg, tuning, s, Tick(runs, now, None));
            var held := now - if s.timer.since.Some? then s.timer.since.value else now;
            if s.timer.direction == Some(direction) && held >= tuning.hold then
              turn.moved == Some(target) && after.timer == NO_TIMER
            else
              && turn.moved.None? && after.world == s.world
              && after.timer == if s.timer.direction == Some(direction) then s.timer
                                else Timer(Some(now), Some(direction))
  {
    hide Look, AllocationPlan, Exec;
    NothingWritten(s.world);
  }

  lemma ToleratedTick(cfg: Config, tuning: Tuning, s: Site, runs: seq<Run>, now: Time)
    requires tuning.enabled && Look(cfg, tuning, s.world, runs, now).Tolerated?
    ensures TurnOf(cfg, tuning, s, runs, now).moved.None?
            && After(cfg, tuning, s, Tick(runs, now, None)).world == s.world
  {
    hide Look, AllocationPlan, Exec;
    NothingWritten(s.world);
  }

  lemma TickRipens(
    cfg: Config, tuning: Tuning, s: Site, t: Time, runs: seq<Run>, now: Time, measured: real, last: Time, moved: Time,
    gap: Time)
    requires tuning.enabled && tuning.points >= 0 && Ready(cfg, s.world, t) && t < now && 0 <= now - last <= gap
    requires MeasuredBy(cfg, tuning, s.world, runs, now) == Some(measured)
    requires var found := Look(cfg, tuning, s.world, runs, now); found.Tolerated? || found.Drifting?
    requires Ripening(cfg, tuning, s, measured, last, moved, gap)
    ensures var turn := TurnOf(cfg, tuning, s, runs, now);
            && Ripening(cfg, tuning, After(cfg, tuning, s, Tick(runs, now, None)), measured, now,
                        if turn.moved.Some? then now else moved, gap)
            && (turn.moved.Some? ==> now - moved <= Longest(tuning, gap))
  {
    LookDecides(cfg, tuning, s.world, runs, now, measured);
    ReadyIsOrderly(cfg, s.world, t);
    ShareIgnoresTheClock(cfg, s.world, t, Core, 0, now);
    LookTargets(cfg, tuning, s.world, runs, now);
    LooksPastOperators(cfg, tuning, s.world, runs, now);
    hide Ready, CurrentShare, Look, MeasuredBy, StepOf, Decide, TurnOf, After, OperatorSpeaks, AllocationPlan, Ripening,
         Longest;
    var found, after := Look(cfg, tuning, s.world, runs, now), After(cfg, tuning, s, Tick(runs, now, None));
    if found.Tolerated? {
      ToleratedTick(cfg, tuning, s, runs, now);
      RefusingIsRipe(cfg, tuning, after, measured, now, moved, gap);
    } else {
      MoveCompletes(cfg, s.world, t, found.target, now);
      DriftingTick(cfg, tuning, s, runs, now, found.direction, found.target);
      var moves := TurnOf(cfg, tuning, s, runs, now).moved.Some?;
      DriftRipens(cfg, tuning, s, after, found.direction, moves, now, measured, last, moved, gap);
    }
  }

  lemma RefusingIsRipe(
    cfg: Config, tuning: Tuning, s: Site, measured: real, last: Time, moved: Time, gap: Time)
    requires Refuses(cfg, tuning, s.world, measured)
    ensures Ripening(cfg, tuning, s, measured, last, moved, gap)
  {
  }

  /** Drift either starts the timer, or leaves it running, or ends it by a move that is not late. */
  lemma DriftRipens(
    cfg: Config, tuning: Tuning, s: Site, after: Site, direction: Direction, moves: bool, now: Time, measured: real,
    last: Time, moved: Time, gap: Time)
    requires Ripening(cfg, tuning, s, measured, last, moved, gap) && 0 <= now - last <= gap
    requires var core := CurrentShare(cfg, s.world, Core, 0);
             && core.Some? && direction == DirectionOf(core.value, measured)
             && Decide(core.value, measured, tuning.points, StepOf(cfg)).Some?
    requires var held := now - if s.timer.since.Some? then s.timer.since.value else now;
             if s.timer.direction == Some(direction) && held >= tuning.hold then moves && after.timer == NO_TIMER
             else
               && !moves && after.world == s.world
               && after.timer == if s.timer.direction == Some(direction) then s.timer
                                 else Timer(Some(now), Some(direction))
    ensures Ripening(cfg, tuning, after, measured, now, if moves then now else moved, gap)
    ensures moves ==> now - moved <= Longest(tuning, gap)
  {
    hide CurrentShare, Decide, StepOf, DirectionOf;
  }

  lemma LooksPastOperators(cfg: Config, tuning: Tuning, w: World, runs: seq<Run>, now: Time)
    ensures !Look(cfg, tuning, w, runs, now).Overridden? ==> !OperatorSpeaks(w.policies, now)
  {
    hide CurrentShare, ReadingOf, Resolvable, TracksOf, Judge, OperatorSpeaks;
  }

  lemma NothingWritten(w: World)
    ensures Exec(w, []) == w
  {
  }

  lemma {:induction false} SteadyRunRipens(
    cfg: Config, tuning: Tuning, s: Site, beats: seq<Beat>, t: Time, measured: real, gap: Time)
    requires tuning.enabled && tuning.points >= 0 && Ready(cfg, s.world, t) && s.timer == NO_TIMER
    requires Steady(cfg, tuning, s, beats, t, measured) && Judged(cfg, tuning, s, beats) && Regular(beats, t, gap)
    ensures var site, moved := RunBeats(cfg, tuning, s, beats), LastMove(cfg, tuning, s, beats, t);
            && Ripening(cfg, tuning, site, measured, TimeBefore(beats, t, |beats|), moved, gap)
            && moved - t <= MovesIn(cfg, tuning, s, beats) * Longest(tuning, gap)
  {
    hide Ready, MeasuredBy, TurnOf, After, Steady, Ripening, Look, Judged, Regular, Longest;
    if beats == [] {
      RipeningBegins(cfg, tuning, s, measured, t, gap);
    } else {
      var front, last := beats[..|beats| - 1], beats[|beats| - 1];
      SteadyFront(cfg, tuning, s, beats, t, measured);
      FrontIsJudged(cfg, tuning, s, beats, t, gap);
      SteadyRunRipens(cfg, tuning, s, front, t, measured, gap);
      SteadyRun(cfg, tuning, s, front, t, measured);
      if front != [] { LastMoveIsPast(cfg, tuning, s, front, t, measured); }
      var site, before := RunBeats(cfg, tuning, s, front), LastMove(cfg, tuning, s, front, t);
      TickRipens(cfg, tuning, site, before, last.runs, last.now, measured, TimeBefore(front, t, |front|), before, gap);
      assert last == Tick(last.runs, last.now, None);
      OneMoreCycle(MovesIn(cfg, tuning, s, front), Longest(tuning, gap));
    }
  }

  lemma RipeningBegins(cfg: Config, tuning: Tuning, s: Site, measured: real, t: Time, gap: Time)
    requires s.timer == NO_TIMER
    ensures Ripening(cfg, tuning, s, measured, t, t, gap)
  {
    hide Refuses;
  }

  lemma OneMoreCycle(n: nat, cycle: int)
    ensures (n + 1) * cycle == n * cycle + cycle && 0 * cycle == 0
  {
  }

  lemma FrontIsJudged(cfg: Config, tuning: Tuning, s: Site, beats: seq<Beat>, t: Time, gap: Time)
    requires beats != [] && beats[|beats| - 1].Tick? && Judged(cfg, tuning, s, beats) && Regular(beats, t, gap)
    ensures var front, last := beats[..|beats| - 1], beats[|beats| - 1];
            && Judged(cfg, tuning, s, front) && Regular(front, t, gap)
            && last.now - TimeBefore(front, t, |front|) <= gap
            && var found := Look(cfg, tuning, RunBeats(cfg, tuning, s, front).world, last.runs, last.now);
               found.Tolerated? || found.Drifting?
  {
    hide Look, RunBeats;
    var front := beats[..|beats| - 1];
    forall k | 0 <= k < |front| && front[k].Tick?
      ensures var found := Look(cfg, tuning, SiteAt(cfg, tuning, s, front, k).world, front[k].runs, front[k].now);
              found.Tolerated? || found.Drifting?
      ensures front[k].now - TimeBefore(front, t, k) <= gap
    {
      assert front[..k] == beats[..k] && front[k] == beats[k];
      assert TimeBefore(front, t, k) == TimeBefore(beats, t, k);
    }
    assert TimeBefore(front, t, |front|) == TimeBefore(beats, t, |front|);
  }

  /**
   And it does settle: a steady run of ticks that all get as far as judging and are never more than
   gap apart ends with no move left to make, once it has lasted longer than 98 / step + 1 times the
   hold and two gaps, that is, than the moves there can be and the wait before each.
   */
  lemma SteadyRunsSettle(cfg: Config, tuning: Tuning, s: Site, beats: seq<Beat>, t: Time, measured: real, gap: Time)
    requires tuning.enabled && tuning.points >= 0 && Ready(cfg, s.world, t) && s.timer == NO_TIMER
             && 0.0 <= measured <= 100.0
    requires Steady(cfg, tuning, s, beats, t, measured) && Judged(cfg, tuning, s, beats) && Regular(beats, t, gap)
    requires gap >= 0 && TimeBefore(beats, t, |beats|) - t > (98 / StepOf(cfg) + 1) * Longest(tuning, gap)
    ensures Refuses(cfg, tuning, RunBeats(cfg, tuning, s, beats).world, measured)
  {
    hide *;
    var site, moved, last :=
      RunBeats(cfg, tuning, s, beats), LastMove(cfg, tuning, s, beats, t), TimeBefore(beats, t, |beats|);
    SteadyRunRipens(cfg, tuning, s, beats, t, measured, gap);
    SteadyMeasurementSettles(cfg, tuning, s, beats, t, measured);
    StepIsPositive(cfg);
    RipensWithinACycle(cfg, tuning, site, measured, last, moved, gap);
    FewCycles(MovesIn(cfg, tuning, s, beats), StepOf(cfg), Longest(tuning, gap));
  }

  /** The longest a move can take: a gap until drift is seen again, the hold, and a gap until it is found to be over. */
  function Longest(tuning: Tuning, gap: Time): Time {
    Max(0, tuning.hold) + 2 * gap
  }

  lemma RipensWithinACycle(cfg: Config, tuning: Tuning, s: Site, measured: real, last: Time, moved: Time, gap: Time)
    requires Ripening(cfg, tuning, s, measured, last, moved, gap) && gap >= 0
    ensures Refuses(cfg, tuning, s.world, measured) || last - moved <= Longest(tuning, gap)
    ensures Longest(tuning, gap) >= 0
  {
    hide Refuses, CurrentShare;
  }

  lemma FewCycles(n: nat, step: int, cycle: int)
    requires step >= 1 && n * step <= 98 && cycle >= 0
    ensures n * cycle + cycle <= (98 / step + 1) * cycle
  {
    AtMost(n, step);
    assert (n + 1) * cycle <= (98 / step + 1) * cycle;
    assert (n + 1) * cycle == n * cycle + cycle;
  }

  lemma AtMost(n: nat, step: int)
    requires step >= 1 && n * step <= 98
    ensures n <= 98 / step
  {
    var q := 98 / step;
    assert 98 == q * step + 98 % step;
    Smaller(n, q + 1, step);
  }

  lemma Smaller(x: int, y: int, n: int)
    requires n > 0 && x * n < y * n
    ensures x < y
  {
  }
}
