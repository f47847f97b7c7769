/** The adaptive controller's tick as the bridge runs it: look, then move or not, then store the timer. */
module AdaptiveControl {
  import opened Basics
  import opened Adaptive
  import opened Allocation
  import opened Control
  import opened Storage
  import opened WorkBoard
  import Policy

  class AdaptiveController {
    const cfg: Config
    const tuning: Tuning
    const store: Store
    const pc: Paperclip

    constructor (cfg: Config, tuning: Tuning, store: Store, pc: Paperclip)
      ensures this.cfg == cfg && this.tuning == tuning && this.store == store && this.pc == pc
    {
      this.cfg, this.tuning, this.store, this.pc := cfg, tuning, store, pc;
    }

    ghost function View(): Site
      reads this, store, pc
    {
      Site(WorldOf(store, pc), store.adaptiveState)
    }

    method HasOperatorRow(now: Time) returns (found: bool)
      ensures found == OperatorSpeaks(store.policies, now)
    {
      for i := 0 to |store.policies|
        invariant !OperatorSpeaks(store.policies[..i], now)
      {
        var row := store.policies[i];
        assert store.policies[..i + 1] == store.policies[..i] + [row];
        if Policy.IsActive(row, now) && row.priority == Policy.OPERATOR && "allocation." <= row.key { return true; }
      }
      assert store.policies[..|store.policies|] == store.policies;
      return false;
    }

    method ReadCurrent(t: Split, now: Time) returns (share: Option<int>)
      ensures share == CurrentShare(cfg, WorldOf(store, pc), t, now)
    {
      hide Policy.Effective, AsInteger;
      var asker := AskerOf(cfg, None, Lab, now);
      var values := Policy.ResolveAll(store.policies, store.mandates, asker);
      var key := AllocationKey(t);
      share := AsInteger(if key in values then Some(values[key]) else None);
      assert (if key in values then Some(values[key]) else None)
          == Policy.Effective(store.policies, store.mandates, asker, key);
    }

    /** Which track every agent's work counts for. */
    method AgentTracks(core: seq<string>, lab: seq<string>) returns (tracks: map<string, Split>)
      ensures tracks == map a | a in core + lab :: if a in lab then Lab else Core
    {
      tracks := map a | a in core :: Core;
      tracks := tracks + map a | a in lab :: Lab;
    }

    /** What the tick finds before it looks at its timer. */
    method LookAround(runs: seq<Run>, now: Time) returns (finding: Finding)
      ensures finding == Look(cfg, tuning, WorldOf(store, pc), runs, now)
    {
      hide CurrentShare, ReadingOf, Resolve, OperatorSpeaks, Decide;
      var overridden := HasOperatorRow(now);
      if overridden { return Overridden; }
      var currentCore := ReadCurrent(Core, now);
      var currentLab := ReadCurrent(Lab, now);
      if currentCore.None? || currentLab.None? { return Faulted; }
      var core := ResolveTrackAgents(pc, cfg.core);
      if core.Err? { return Faulted; }
      var lab := ResolveTrackAgents(pc, cfg.lab);
      if lab.Err? { return Faulted; }
      var tracks := AgentTracks(core.value, lab.value);
      var reading := Measure(tuning, runs, tracks, now);
      if reading.Err? { return Faulted; }
      if reading.value.shares.None? { return Insufficient; }
      var measured := reading.value.shares.value.core;
      var step := Max(1, RoundHalfEven(100, Max(1, cfg.slotBudget)));
      var target := Decide(currentCore.value, measured, tuning.points, step);
      if target.None? { return Tolerated; }
      return Drifting(if measured < currentCore.value as real then CoreAbove else CoreBelow, target.value);
    }

    /**
     One tick. Its allocation writes come first and the timer is stored last, so a crash in between
     leaves the timer as it was.
     */
    method RunTick(runs: seq<Run>, now: Time) returns (moved: bool)
      requires store.journal == pc.journal
      modifies store`policies, store`ledger, store`trackState, store`adaptiveState, store`timerStoredAfter, pc`agents,
               pc`held, store.journal
      ensures View() == After(cfg, tuning, old(View()), Tick(runs, now, None))
      ensures var turn := TurnOf(cfg, tuning, old(View()), runs, now);
              && store.journal.writes == old(store.journal.writes) + turn.writes
              && (turn.timer.Some? ==> store.timerStoredAfter == |store.journal.writes|)
              && (turn.timer.None? ==> store.timerStoredAfter == old(store.timerStoredAfter))
              && (moved <==> turn.moved.Some? && AllocationPlan(cfg, old(WorldOf(store, pc)),
                                                                MoveCall(turn.moved.value, now)).outcome.Applied?)
    {
      hide Exec, Look, AllocationPlan;
      ghost var w := WorldOf(store, pc);
      NothingDone(w);
      if !tuning.enabled { return false; }
      var timer := store.adaptiveState;
      var finding := LookAround(runs, now);
      match finding {
        case Overridden =>
          store.SetAdaptiveState(NO_TIMER);
          return false;
        case Faulted =>
          return false;
        case Insufficient =>
          store.SetAdaptiveState(timer.(since := None));
          return false;
        case Tolerated =>
          store.SetAdaptiveState(timer.(since := None));
          return false;
        case Drifting(direction, target) =>
          if timer.direction != Some(direction) {
            store.SetAdaptiveState(Timer(Some(now), Some(direction)));
            return false;
          }
          var held := now - (if timer.since.Some? then timer.since.value else now);
          if held < tuning.hold {
            store.SetAdaptiveState(timer);
            return false;
          }
          var outcome := ApplyAllocation(cfg, store, pc, Call(target.core, target.lab, true, ACTOR, None, now));
          if !outcome.Applied? && !outcome.Declined? { return false; }
          store.SetAdaptiveState(NO_TIMER);
          return outcome.Applied?;
      }
    }
  }
}
