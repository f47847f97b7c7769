/**
 What an adaptive tick reads, what it finds and what its timer is afterwards, told from the stored rows,
 the runs and the timer alone.
 */
module Ticks {
  import opened Basics
  import opened Policy
  import opened Allocation
  import opened Adaptive

  /******* The shares a tick reads *******/

  /** The integer a share is read as: a number without its fraction, a flag as one or nothing; nothing else has one. */
  ghost predicate ReadsAs(v: Value, i: int) {
    match v
    case Num(n) => if n >= 0.0 then i as real <= n < i as real + 1.0 else i as real - 1.0 < n <= i as real
    case Bool(b) => i == if b then 1 else 0
    case _ => false
  }

  lemma IntegersAreExact(e: Option<Candidate>, i: int)
    ensures AsInteger(e) == Some(i) <==> e.Some? && ReadsAs(e.value.value, i)
  {
  }

  lemma SharesAreThere(rows: seq<PolicyRow>, mandates: seq<Mandate>, a: Asker, t: Split)
    ensures Effective(rows, mandates, a, AllocationKey(t)).Some?
  {
    var key := AllocationKey(t);
    var stock := Candidate(DEFAULTS[key], 50, Company, None, None);
    assert FromStock(stock, key) && InForce(rows, mandates, a, key, stock);
    hide *;
    NothingOutranksTheWinner(rows, mandates, a, key);
  }

  /** A tick reads each share as anyone of the lab track would, without a project, and as an integer. */
  lemma SharesAreReadAsIntegers(cfg: Config, w: World, t: Split, now: Time, i: int)
    ensures var key := if t.Core? then "allocation.core" else "allocation.lab";
            var share := Effective(w.policies, w.mandates, Asker(cfg.company, None, "lab", now), key);
            share.Some? && (CurrentShare(cfg, w, t, now) == Some(i) <==> ReadsAs(share.value.value, i))
  {
    var asker := Asker(cfg.company, None, "lab", now);
    assert AllocationKey(t) == if t.Core? then "allocation.core" else "allocation.lab";
    SharesAreThere(w.policies, w.mandates, asker, t);
    hide Effective, ReadsAs, AsInteger;
    IntegersAreExact(Effective(w.policies, w.mandates, asker, AllocationKey(t)), i);
  }

  /******* What a tick finds and stores *******/

  /** Why a tick that no operator stands against raises before it can judge. */
  ghost predicate CannotJudge(cfg: Config, tuning: Tuning, w: World, runs: seq<Run>, now: Time) {
    || CurrentShare(cfg, w, Core, now).None? || CurrentShare(cfg, w, Lab, now).None?
    || !Resolvable(cfg, w)
    || EnoughOfNothing(tuning, runs, TracksOf(cfg, w), now)
  }

  /** As many runs and as much work as asked for, and yet no work at all to divide by. */
  ghost predicate EnoughOfNothing(tuning: Tuning, runs: seq<Run>, tracks: map<string, Split>, now: Time) {
    var start := now - tuning.window;
    var work := |Work(runs, tracks, Core, start, now)| + |Work(runs, tracks, Lab, start, now)|;
    |AtWork(runs, tracks, start, now)| >= tuning.minRuns && work >= tuning.minWork && work == 0
  }

  lemma EvidenceDecides(tuning: Tuning, runs: seq<Run>, tracks: map<string, Split>, now: Time)
    ensures var r := ReadingOf(tuning, runs, tracks, now);
            && (r.Err? <==> EnoughOfNothing(tuning, runs, tracks, now))
            && (r.Ok? && r.value.shares.None?
                <==> !EnoughEvidence(tuning, runs, tracks, now) && !EnoughOfNothing(tuning, runs, tracks, now))
  {
    SharesNeedEvidence(tuning, runs, tracks, now);
    hide ReadingOf, Work, AtWork;
  }

  lemma LookStages(cfg: Config, tuning: Tuning, w: World, runs: seq<Run>, now: Time)
    ensures var found, operator := Look(cfg, tuning, w, runs, now), OperatorSpeaks(w.policies, now);
            var core, lab := CurrentShare(cfg, w, Core, now), CurrentShare(cfg, w, Lab, now);
            && (found.Overridden? <==> operator)
            && (operator || core.None? || lab.None? || !Resolvable(cfg, w) ==> found.Overridden? || found.Faulted?)
            && (!operator && core.Some? && lab.Some? && Resolvable(cfg, w) ==>
                  var reading := ReadingOf(tuning, runs, TracksOf(cfg, w), now);
                  && (found.Faulted? <==> reading.Err?)
                  && (found.Insufficient? <==> reading.Ok? && reading.value.shares.None?))
  {
    hide OperatorSpeaks, CurrentShare, Resolvable, ReadingOf, TracksOf, Decide, StepOf;
  }

  /** What a tick meets, told apart: an operator's row, something it cannot read, or too little evidence. */
  lemma TicksFindExactly(cfg: Config, tuning: Tuning, w: World, runs: seq<Run>, now: Time)
    ensures var found, operator := Look(cfg, tuning, w, runs, now), OperatorRowInForce(w.policies, now);
            && (found.Overridden? <==> operator)
            && (found.Faulted? <==> !operator && CannotJudge(cfg, tuning, w, runs, now))
            && (found.Insufficient? <==>
                  && !operator && !CannotJudge(cfg, tuning, w, runs, now)
                  && !EnoughEvidence(tuning, runs, TracksOf(cfg, w), now))
  {
    SomeonesWord(w.policies, now);
    LookStages(cfg, tuning, w, runs, now);
    if Resolvable(cfg, w) { EvidenceDecides(tuning, runs, TracksOf(cfg, w), now); }
    hide OperatorSpeaks, OperatorRowInForce, CurrentShare, Resolvable, ReadingOf, TracksOf, Look, EnoughEvidence,
         EnoughOfNothing;
  }

  /**
   The timer a tick stores: none of it after an operator's row or a move, its direction alone after too little
   evidence or a gap within tolerance, this moment and direction when drift is new or turns, and what it was
   while drift holds. A tick that raises, or is disabled, stores nothing.
   */
  lemma TicksStoreExactly(cfg: Config, tuning: Tuning, s: Site, runs: seq<Run>, now: Time)
    ensures var found, turn := Look(cfg, tuning, s.world, runs, now), TurnOf(cfg, tuning, s, runs, now);
            var none := Timer(None, None);
            if !tuning.enabled || found.Faulted? then turn.timer == None && turn.moved == None
            else if found.Overridden? then turn.timer == Some(none) && turn.moved == None
            else if !found.Drifting? then
              turn.timer == Some(Timer(None, s.timer.direction)) && turn.moved == None
            else if s.timer.direction != Some(found.direction) then
              turn.timer == Some(Timer(Some(now), Some(found.direction))) && turn.moved == None
            else if turn.moved.None? then turn.timer == Some(s.timer)
            else
              turn.timer == if AllocationPlan(cfg, s.world, MoveCall(found.target, now)).outcome in {Applied, Declined}
                            then Some(none) else None
  {
    hide Look, AllocationPlan;
  }
}
