/**
 What allocation calls and restart passes write down, field by field: the policy rows, the track
 states, the ledger row of every agent, and how a call ends.
 */
module Records {
  import opened Basics
  import opened Policy
  import opened Allocation
  import Resuming

  /******* How a call ends *******/

  ghost predicate Proper(core: int, lab: int) {
    0 <= core <= 100 && 0 <= lab <= 100 && core + lab == 100
  }

  /** An operator's word on the split is in force. */
  ghost predicate OperatorHasSpoken(rows: seq<PolicyRow>, now: Time) {
    exists row :: row in rows && row.revokedAt.None? && (row.expiresAt.None? || now < row.expiresAt.value)
                  && row.priority == 20 && row.key in {"allocation.core", "allocation.lab"}
  }

  /**
   A call is rejected exactly if its shares are not a split, declined exactly if it is an adaptive one that
   an operator's row stands against, and in both cases writes nothing. Otherwise its four rows are written,
   and it is refused for the first selector, core's before lab's, that names nobody or several; a missing
   budget stops it as soon as a track has a share; and else it is applied.
   */
  lemma CallsEndExactly(cfg: Config, w: World, call: Call)
    ensures var plan := AllocationPlan(cfg, w, call);
            var refused := call.adaptive && OperatorHasSpoken(w.policies, call.at);
            var core, lab := Resolve(w.roster, w.agents, cfg.core), Resolve(w.roster, w.agents, cfg.lab);
            && (plan.outcome == Rejected <==> !Proper(call.core, call.lab))
            && (plan.outcome == Declined <==> Proper(call.core, call.lab) && refused)
            && (plan.outcome in {Rejected, Declined} ==> plan.writes == [])
            && (Proper(call.core, call.lab) && !refused ==>
                  && PolicyWrites(cfg, call) <= plan.writes
                  && (core.Err? ==> plan == Plan(PolicyWrites(cfg, call), NoSuchAgent(core.error)))
                  && (core.Ok? && lab.Err? ==> plan == Plan(PolicyWrites(cfg, call), NoSuchAgent(lab.error)))
                  && (core.Ok? && lab.Ok? ==> plan.outcome == if cfg.slotBudget <= 0 then BadBudget else Applied))
  {
    hide Resolve, LockAll, UnlockAll, SlotWrites, SlotPlan, Exec;
    assert ALLOCATION_CORE == "allocation.core" && ALLOCATION_LAB == "allocation.lab";
    assert OperatorAllocates(w.policies, call.at) <==> OperatorHasSpoken(w.policies, call.at);
  }

  /******* The four rows and the two states *******/

  /** The rows a call stores, spelled out; the id stands for a fresh one. */
  ghost function RowsOf(cfg: Config, call: Call): seq<PolicyRow> {
    var rank, core, lab := if call.adaptive then 40 else 20, call.core, call.lab;
    [PolicyRow(call.actor, Company, cfg.company, "allocation.core", Num(core as real), rank, call.at, None, None),
     PolicyRow(call.actor, Company, cfg.company, "allocation.lab", Num(lab as real), rank, call.at, None, None),
     PolicyRow(call.actor, Track, "core", "track_locked", Bool(core == 0), rank, call.at, None, None),
     PolicyRow(call.actor, Track, "lab", "track_locked", Bool(lab == 0), rank, call.at, None, None)]
  }

  lemma RowsAreSpelledOut(cfg: Config, call: Call)
    ensures NewRows(cfg, call) == RowsOf(cfg, call)
  {
  }

  /******* One agent *******/

  /** The row that says an awake agent was locked. */
  ghost function LockedRow(agent: Agent, t: Split, call: Call): LedgerRow {
    LedgerRow(t, agent.status, agent.holds, call.at, call.event, None)
  }

  /** The row that says a paused agent was locked again: what was recorded of it stays. */
  ghost function ReopenedRow(row: LedgerRow, t: Split, call: Call): LedgerRow {
    LedgerRow(t, row.originalStatus, row.originalHolds, call.at, call.event, None)
  }

  /**
   What locking does with an agent, whoever paused it: an awake one is paused with its status and holds on
   record, a paused one with a row has the row reopened with what it recorded, a paused one without a row
   is somebody else's and left alone.
   */
  lemma LockLeaves(w: World, a: string, t: Split, call: Call)
    requires a in w.agents
    ensures var agent, w' := w.agents[a], Exec(w, LockAgent(w, w.agents[a], a, t, call));
            if agent.status == Paused && a !in w.ledger then w' == w
            else if agent.status == Paused then
              w' == w.(ledger := w.ledger[a := ReopenedRow(w.ledger[a], t, call)])
            else
              w' == w.(ledger := w.ledger[a := LockedRow(agent, t, call)],
                       agents := w.agents[a := agent.(status := Paused, holds := agent.holds
                                                      + if "manual" in agent.holds then [] else ["manual"])],
                       held := w.held + {a})
  {
    var agent := w.agents[a];
    if !agent.status.Paused? {
      ExecOneTwo(w, PutLedger(a, LockedRow(agent, t, call)), SetPaused(a));
      assert agent.holds + [] == agent.holds;
    } else if a in w.ledger {
      var entry := w.ledger[a].(track := t, pausedAt := call.at, pausedBy := call.event, releasedAt := None);
      ExecOneTwo(w, PutLedger(a, entry), PutLedger(a, entry));
    }
  }

  /** The holds are none, or our own alone and none were recorded. */
  ghost predicate MayResume(agent: Agent, entry: LedgerRow) {
    agent.holds == [] || (entry.originalHolds == [] && forall h :: h in agent.holds ==> h == "manual")
  }

  /**
   What unlocking does: nothing without an open row, a closed row for an agent that is awake again, and an
   idle agent with a closed row where the holds allow it; else nothing.
   */
  lemma UnlockLeaves(w: World, a: string, call: Call)
    requires a in w.agents
    ensures var agent, w' := w.agents[a], Exec(w, UnlockAgent(w, w.agents[a], a, call));
            if a !in w.ledger || w.ledger[a].releasedAt != None then w' == w
            else if agent.status != Paused then
              w' == w.(ledger := w.ledger[a := w.ledger[a].(releasedAt := Some(call.at))])
            else if !MayResume(agent, w.ledger[a]) then w' == w
            else
              && w'.agents.Keys == w.agents.Keys
              && w' == w.(ledger := w.ledger[a := w.ledger[a].(releasedAt := Some(call.at))],
                          agents := w.agents[a := agent.(status := Awake("idle"), holds := [])], held := w.held - {a})
  {
    if IsOpen(w.ledger, a) {
      ResumeGoesAheadExactly(w.agents[a], w.ledger[a]);
      ExecOneTwo(w, Release(a, call.at), Release(a, call.at));
      ExecOneTwo(w, SetIdle(a), Release(a, call.at));
      if MayResume(w.agents[a], w.ledger[a]) { OwnHoldsGo(w.agents[a].holds); }
    }
  }

  lemma {:induction false} OwnHoldsGo(holds: seq<string>)
    requires forall h :: h in holds ==> h == "manual"
    ensures DropManual(holds) == []
  {
    if holds != [] {
      var front, last := holds[..|holds| - 1], holds[|holds| - 1];
      assert last in holds && forall h :: h in front ==> h in holds;
      assert MANUAL == "manual";
      OwnHoldsGo(front);
    }
  }

  /**
   Locking its track again and unlocking it brings a stranded agent back, if it had no holds of its own:
   locking reopens its row, and unlocking then resumes it.
   */
  lemma RelockingBringsBack(w: World, a: string, t: Split, lock: Call, unlock: Call)
    requires a in w.agents && w.agents[a].status.Paused? && a in w.ledger && w.ledger[a].releasedAt.Some?
    requires MayResume(w.agents[a], w.ledger[a])
    ensures var locked := Exec(w, LockAgent(w, w.agents[a], a, t, lock));
            && a in locked.agents
            && var resumed := Exec(locked, UnlockAgent(locked, locked.agents[a], a, unlock));
               a in resumed.agents && resumed.agents[a].status == Awake("idle")
  {
    LockLeaves(w, a, t, lock);
    var locked := Exec(w, LockAgent(w, w.agents[a], a, t, lock));
    UnlockLeaves(locked, a, unlock);
  }

  /******* A whole call *******/

  /** The ledger row of an agent of this track after a completed call. */
  ghost function LedgerAfter(w: World, a: string, t: Split, call: Call): Option<LedgerRow> {
    var row := Lookup(w.ledger, a);
    if a !in w.agents then row
    else if (if t.Core? then call.core else call.lab) == 0 then
      if w.agents[a].status != Paused then Some(LockedRow(w.agents[a], t, call))
      else if row.None? then None
      else Some(ReopenedRow(row.value, t, call))
    else if row.Some? && row.value.releasedAt.None? then Some(row.value.(releasedAt := Some(call.at)))
    else row
  }

  ghost predicate Noted(w: World, w': World, a: string, t: Split, call: Call) {
    Lookup(w'.ledger, a) == LedgerAfter(w, a, t, call)
  }

  lemma NotedLater(w: World, w1: World, w2: World, a: string, ids: seq<string>, t: Split, call: Call)
    requires Noted(w, w1, a, t, call) && Framed(w1, w2, ids) && a !in ids
    ensures Noted(w, w2, a, t, call)
  {
  }

  lemma NotedFromEarlier(w: World, w1: World, w2: World, a: string, ids: seq<string>, t: Split, call: Call)
    requires Framed(w, w1, ids) && a !in ids && Noted(w1, w2, a, t, call)
    ensures Noted(w, w2, a, t, call)
  {
    assert Lookup(w1.ledger, a) == Lookup(w.ledger, a) && (a in w.agents <==> a in w1.agents);
  }

  lemma AllNoted(w: World, w1: World, w2: World, a: string, rest: seq<string>, t: Split, call: Call)
    requires Framed(w, w1, [a]) && Framed(w1, w2, rest) && a !in rest && Noted(w, w1, a, t, call)
    requires forall b :: b in rest ==> Noted(w1, w2, b, t, call)
    ensures forall b :: b in [a] + rest ==> Noted(w, w2, b, t, call)
  {
    hide Noted, Framed;
    NotedLater(w, w1, w2, a, rest, t, call);
    forall b | b in rest ensures Noted(w, w2, b, t, call) {
      NotedFromEarlier(w, w1, w2, b, [a], t, call);
    }
  }

  lemma LockNotes(w: World, a: string, t: Split, call: Call)
    requires Tidy(w, a) && ShareOf(call, t) == 0
    ensures Noted(w, Exec(w, LockAgent(w, w.agents[a], a, t, call)), a, t, call)
  {
    LockLeaves(w, a, t, call);
    hide Exec, LockAgent;
  }

  lemma UnlockNotes(w: World, a: string, t: Split, call: Call)
    requires Tidy(w, a) && ShareOf(call, t) != 0
    ensures Noted(w, Exec(w, UnlockAgent(w, w.agents[a], a, call)), a, t, call)
  {
    UnlockLeaves(w, a, call);
    hide Exec, UnlockAgent;
  }

  lemma {:induction false} LockAllNotes(w: World, before: map<string, Agent>, ids: seq<string>, t: Split, call: Call)
    requires Listed(before, ids) && Distinct(ids) && StillListed(w, before, ids) && AllTidy(w, ids)
    requires ShareOf(call, t) == 0
    ensures forall a :: a in ids ==> Noted(w, Exec(w, LockAll(w, before, ids, t, call)), a, t, call)
    decreases |ids|
  {
    if ids != [] {
      hide Noted, Exec, LockAgent;
      var a, rest := ids[0], ids[1..];
      assert ids == [a] + rest && a in ids && Tidy(w, a);
      var writes := LockAgent(w, before[a], a, t, call);
      var w1 := Exec(w, writes);
      LockAgentTidy(w, a, t, call);
      LockNotes(w, a, t, call);
      RestIsUntouched(w, w1, before, ids);
      LockAllTidy(w1, before, rest, t, call);
      LockAllNotes(w1, before, rest, t, call);
      ExecConcat(w, writes, LockAll(w1, before, rest, t, call));
      AllNoted(w, w1, Exec(w1, LockAll(w1, before, rest, t, call)), a, rest, t, call);
    }
  }

  lemma {:induction false} UnlockAllNotes(w: World, before: map<string, Agent>, ids: seq<string>, t: Split, call: Call)
    requires Listed(before, ids) && Distinct(ids) && StillListed(w, before, ids) && AllTidy(w, ids)
    requires ShareOf(call, t) != 0
    ensures forall a :: a in ids ==> Noted(w, Exec(w, UnlockAll(w, before, ids, call)), a, t, call)
    decreases |ids|
  {
    if ids != [] {
      hide Noted, Exec, UnlockAgent;
      var a, rest := ids[0], ids[1..];
      assert ids == [a] + rest && a in ids && Tidy(w, a);
      var writes := UnlockAgent(w, before[a], a, call);
      var w1 := Exec(w, writes);
      UnlockAgentTidy(w, a, call);
      UnlockNotes(w, a, t, call);
      RestIsUntouched(w, w1, before, ids);
      UnlockAllTidy(w1, before, rest, call);
      UnlockAllNotes(w1, before, rest, t, call);
      ExecConcat(w, writes, UnlockAll(w1, before, rest, call));
      AllNoted(w, w1, Exec(w1, UnlockAll(w1, before, rest, call)), a, rest, t, call);
    }
  }

  lemma TrackNotes(
      cfg: Config, w: World, before: map<string, Agent>, t: Split, ids: seq<string>, labAgents: nat, call: Call)
    requires Listed(before, ids) && Distinct(ids) && StillListed(w, before, ids) && AllTidy(w, ids)
    requires cfg.slotBudget > 0 && SamePeople(before, w.agents)
    ensures var w' := Exec(w, TrackPlan(cfg, w, before, t, ids, labAgents, call).writes);
            forall a :: a in ids ==> Noted(w, w', a, t, call)
  {
    hide Exec, LockAll, UnlockAll, SlotWrites, Noted, Framed, AllTidy, StillListed, Distinct, SlotPlan, SamePeople;
    var state := StateRow(call, t);
    if ShareOf(call, t) == 0 {
      LockAllNotes(w, before, ids, t, call);
      ExecLast(w, LockAll(w, before, ids, t, call), SetTrack(t, state));
      StateChangesNoLedger(w, Exec(w, LockAll(w, before, ids, t, call)), ids, t, state, call);
    } else {
      var resumed, plan := UnlockAll(w, before, ids, call), SlotPlan(call.core, call.lab, cfg.slotBudget, labAgents);
      var slots := if t.Core? then plan.core else plan.perLabAgent;
      var settings := SlotWrites(before, ids, slots);
      UnlockAllNotes(w, before, ids, t, call);
      UnlockAllTidy(w, before, ids, call);
      SlotWritesFrame(Exec(w, resumed), before, ids, slots);
      ExecConcat(w, resumed, settings);
      ExecLast(w, resumed + settings, SetTrack(t, state));
      SettingsChangeNoLedger(w, Exec(w, resumed), Exec(w, resumed + settings), ids, t, call);
      StateChangesNoLedger(w, Exec(w, resumed + settings), ids, t, state, call);
    }
  }

  lemma StateChangesNoLedger(w: World, w1: World, ids: seq<string>, t: Split, state: TrackRow, call: Call)
    requires forall a :: a in ids ==> Noted(w, w1, a, t, call)
    ensures forall a :: a in ids ==> Noted(w, Apply(w1, SetTrack(t, state)), a, t, call)
  {
    forall a | a in ids ensures Noted(w, Apply(w1, SetTrack(t, state)), a, t, call) {
      assert Noted(w, w1, a, t, call);
    }
  }

  lemma SettingsChangeNoLedger(w: World, w1: World, w2: World, ids: seq<string>, t: Split, call: Call)
    requires w2.ledger == w1.ledger && forall a :: a in ids ==> Noted(w, w1, a, t, call)
    ensures forall a :: a in ids ==> Noted(w, w2, a, t, call)
  {
    forall a | a in ids ensures Noted(w, w2, a, t, call) {
      assert Noted(w, w1, a, t, call);
    }
  }

  /**
   A completed call leaves its four rows at the end of the policies, a state for each track, and for each
   agent of a track the ledger row that its share and its status before ask for, and nobody else's changed.
   */
  lemma CallsAreRecorded(cfg: Config, w: World, t: Time, call: Call)
    requires Ready(cfg, w, t) && t < call.at && Acceptable(call) && !Declines(w, call)
    ensures var w', core, lab := Allocate(cfg, w, call), AgentsOf(cfg, w, Core).value, AgentsOf(cfg, w, Lab).value;
            && w'.policies == w.policies + RowsOf(cfg, call) && w'.mandates == w.mandates && w'.roster == w.roster
            && w'.tracks == w.tracks[Core := TrackRow(call.core == 0, call.actor, call.at)]
                                    [Lab := TrackRow(call.lab == 0, call.actor, call.at)]
            && (forall a :: a in core ==> Lookup(w'.ledger, a) == LedgerAfter(w, a, Core, call))
            && (forall a :: a in lab ==> Lookup(w'.ledger, a) == LedgerAfter(w, a, Lab, call))
            && (forall a :: a !in core + lab ==>
                  Lookup(w'.ledger, a) == Lookup(w.ledger, a) && Lookup(w'.agents, a) == Lookup(w.agents, a))
  {
    hide TrackPlan, Resolve, Orderly, Tidy, AllocationPlan, SlotPlan, Exec;
    var core, lab := AgentsOf(cfg, w, Core).value, AgentsOf(cfg, w, Lab).value;
    var w0 := w.(policies := w.policies + NewRows(cfg, call));
    AllocateIs(cfg, w, call);
    RowsAreSpelledOut(cfg, call);
    TidyUnderNewRows(w, w0, core + lab);
    BothTracks(cfg, w0, core, lab, call);
    BothNote(cfg, w0, core, lab, call);
    var w' := Allocate(cfg, w, call);
    assert forall a :: a in core ==> Noted(w0, w', a, Core, call);
    assert forall a :: a in lab ==> Noted(w0, w', a, Lab, call);
  }

  lemma BothNote(cfg: Config, w: World, core: seq<string>, lab: seq<string>, call: Call)
    requires cfg.slotBudget > 0 && Distinct(core + lab) && AllTidy(w, core + lab)
    requires Listed(w.agents, core) && Listed(w.agents, lab)
    ensures var w1 := Exec(w, TrackPlan(cfg, w, w.agents, Core, core, |lab|, call).writes);
            var w2 := Exec(w1, TrackPlan(cfg, w1, w.agents, Lab, lab, |lab|, call).writes);
            && (forall a :: a in core ==> Noted(w, w2, a, Core, call))
            && (forall a :: a in lab ==> Noted(w, w2, a, Lab, call))
            && (forall a :: a !in core + lab ==>
                  Lookup(w2.ledger, a) == Lookup(w.ledger, a) && Lookup(w2.agents, a) == Lookup(w.agents, a))
  {
    SplitDistinct(core, lab);
    TidyParts(w, core, lab);
    Resuming.SamePeopleAlready(w.agents);
    assert StillListed(w, w.agents, core);
    hide *;
    TrackPlanTidy(cfg, w, w.agents, Core, core, |lab|, call);
    TrackNotes(cfg, w, w.agents, Core, core, |lab|, call);
    var w1 := Exec(w, TrackPlan(cfg, w, w.agents, Core, core, |lab|, call).writes);
    FramedTidy(w, w1, core, lab);
    Resuming.FramedListed(w, w1, core, lab);
    TrackPlanTidy(cfg, w1, w.agents, Lab, lab, |lab|, call);
    TrackNotes(cfg, w1, w.agents, Lab, lab, |lab|, call);
    var w2 := Exec(w1, TrackPlan(cfg, w1, w.agents, Lab, lab, |lab|, call).writes);
    forall a | a in core ensures Noted(w, w2, a, Core, call) {
      NotedLater(w, w1, w2, a, lab, Core, call);
    }
    forall a | a in lab ensures Noted(w, w2, a, Lab, call) {
      NotedFromEarlier(w, w1, w2, a, core, Lab, call);
    }
    OthersStay(w, w1, w2, core, lab);
  }

  lemma OthersStay(w: World, w1: World, w2: World, core: seq<string>, lab: seq<string>)
    requires Framed(w, w1, core) && Framed(w1, w2, lab)
    ensures forall a :: a !in core + lab ==>
              Lookup(w2.ledger, a) == Lookup(w.ledger, a) && Lookup(w2.agents, a) == Lookup(w.agents, a)
  {
  }

  /******* The restart pass *******/

  /** The pass raises at an open row whose share is a filled text or list, or whose agent the board does not know. */
  lemma PassesStopExactly(cfg: Config, w: World, a: string, now: Time)
    ensures StopsAt(cfg, w, a, now)
            <==> && a in w.ledger && w.ledger[a].releasedAt == None
                 && (TrackVerdict(cfg, w, w.ledger[a].track, now) == Broken || a !in w.agents)
  {
    hide TrackVerdict;
  }

  /** The share a pass reads for a track: what the resolver says for the company, no project, and that track. */
  ghost function ShareRead(cfg: Config, w: World, t: Split, now: Time): Option<Candidate> {
    Effective(w.policies, w.mandates, Asker(cfg.company, None, if t.Core? then "core" else "lab", now),
              if t.Core? then "allocation.core" else "allocation.lab")
  }

  /** The pass unlocks for a number above zero, a true flag, or no share; it raises for filled texts and lists. */
  lemma VerdictsAreExactly(cfg: Config, w: World, t: Split, now: Time)
    ensures var share, verdict := ShareRead(cfg, w, t, now), TrackVerdict(cfg, w, t, now);
            && (verdict.Positive?
                <==> || share.None? || share.value.value == Bool(true)
                     || (share.value.value.Num? && share.value.value.n > 0.0))
            && (verdict.Broken?
                <==> share.Some? && ((share.value.value.Text? && share.value.value.text != "")
                                     || (share.value.value.Items? && share.value.value.items != [])))
  {
    hide Effective;
  }
}
