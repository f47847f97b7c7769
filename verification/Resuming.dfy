/**
 What a completed call leaves of each agent: the status it had before the bridge paused it, the
 status it is resumed to, and the slots it carries.
 */
module Resuming {
  import opened Basics
  import opened Policy
  import opened Allocation

  /** The status an agent has, or had when the bridge recorded it. */
  function Original(w: World, a: string): Option<Status> {
    if a !in w.agents then None
    else if w.agents[a].status.Paused? && a in w.ledger then Some(w.ledger[a].originalStatus)
    else Some(w.agents[a].status)
  }

  const IDLE: Status := Awake("idle")

  /** What an agent is resumed to: what is recorded is not asked. */
  function ResumedStatus(w: World, a: string): Option<Status> {
    if a in w.agents && w.agents[a].status.Paused? then Some(IDLE) else Original(w, a)
  }

  function SlotsOf(cfg: Config, call: Call, t: Split, labAgents: nat): int {
    if cfg.slotBudget <= 0 then 0
    else
      var plan := SlotPlan(call.core, call.lab, cfg.slotBudget, labAgents);
      if t.Core? then plan.core else plan.perLabAgent
  }

  /** One agent of a track after a call: locked with its status kept on record, or awake and with its slots. */
  ghost predicate Served(w: World, w': World, a: string, share: int, slots: int) {
    && a in w.agents && a in w'.agents
    && if share == 0 then w'.agents[a].status.Paused? && Original(w', a) == Original(w, a)
       else Some(w'.agents[a].status) == ResumedStatus(w, a) && CarriesSlots(w'.agents[a], slots)
  }

  /******* One agent *******/

  lemma LockKeepsOriginal(w: World, a: string, t: Split, call: Call)
    requires Tidy(w, a)
    ensures var w' := Exec(w, LockAgent(w, w.agents[a], a, t, call));
            a in w'.agents && w'.agents[a].status.Paused? && Original(w', a) == Original(w, a)
  {
    var agent := w.agents[a];
    if agent.status.Paused? {
      var entry := w.ledger[a].(track := t, pausedAt := call.at, pausedBy := call.event, releasedAt := None);
      ExecOneTwo(w, PutLedger(a, entry), PutLedger(a, entry));
    } else {
      var entry := LedgerRow(t, agent.status, agent.holds, call.at, call.event, None);
      ExecOneTwo(w, PutLedger(a, entry), SetPaused(a));
    }
  }

  lemma UnlockResumesToIdle(w: World, a: string, call: Call)
    requires Tidy(w, a)
    ensures var w' := Exec(w, UnlockAgent(w, w.agents[a], a, call));
            a in w'.agents && Some(w'.agents[a].status) == ResumedStatus(w, a)
  {
    if IsOpen(w.ledger, a) {
      ResumeGoesAheadExactly(w.agents[a], w.ledger[a]);
      ExecOneTwo(w, SetIdle(a), Release(a, call.at));
    }
  }

  /**
   A lock and the unlock after it give an agent its status back exactly if it was idle: a resume
   sets idle whatever the ledger has on record.
   */
  lemma ResumeRestoresExactlyIdle(w: World, a: string, t: Split, lock: Call, unlock: Call)
    requires Tidy(w, a) && !w.agents[a].status.Paused?
    ensures var locked := Exec(w, LockAgent(w, w.agents[a], a, t, lock));
            && a in locked.agents && a in locked.ledger && locked.ledger[a].originalStatus == w.agents[a].status
            && var resumed := Exec(locked, UnlockAgent(locked, locked.agents[a], a, unlock));
               a in resumed.agents && (resumed.agents[a].status == w.agents[a].status <==> w.agents[a].status == IDLE)
  {
    var locked := Exec(w, LockAgent(w, w.agents[a], a, t, lock));
    LockAgentTidy(w, a, t, lock);
    LockKeepsOriginal(w, a, t, lock);
    UnlockResumesToIdle(locked, a, unlock);
  }

  const ACTIVE_AGENT: Agent := Agent("Ada", "engineer", Awake("active"), [], map[], map[])

  /** An agent that was active is idle after a lock and an unlock. */
  lemma ActiveAgentsComeBackIdle(w: World, t: Split, lock: Call, unlock: Call)
    requires w.agents == map["a1" := ACTIVE_AGENT] && w.ledger == map[]
    ensures var locked := Exec(w, LockAgent(w, ACTIVE_AGENT, "a1", t, lock));
            && "a1" in locked.agents && "a1" in locked.ledger && locked.ledger["a1"].originalStatus == Awake("active")
            && var resumed := Exec(locked, UnlockAgent(locked, locked.agents["a1"], "a1", unlock));
               "a1" in resumed.agents && resumed.agents["a1"].status == Awake("idle") != Awake("active")
  {
    var locked := Exec(w, LockAgent(w, ACTIVE_AGENT, "a1", t, lock));
    ResumeRestoresExactlyIdle(w, "a1", t, lock, unlock);
    LockAgentTidy(w, "a1", t, lock);
    UnlockResumesToIdle(locked, "a1", unlock);
    assert "idle"[0] == 'i' && "active"[0] == 'a';
  }

  /******* One track *******/

  lemma ServedLater(w: World, w1: World, w2: World, a: string, ids: seq<string>, share: int, slots: int)
    requires Served(w, w1, a, share, slots) && Framed(w1, w2, ids) && a !in ids
    ensures Served(w, w2, a, share, slots)
  {
    assert Lookup(w2.ledger, a) == Lookup(w1.ledger, a);
  }

  lemma ServedFromEarlier(w: World, w1: World, w2: World, a: string, ids: seq<string>, share: int, slots: int)
    requires Framed(w, w1, ids) && a !in ids && a in w.agents && Served(w1, w2, a, share, slots)
    ensures Served(w, w2, a, share, slots)
  {
    assert Lookup(w1.ledger, a) == Lookup(w.ledger, a);
  }

  /** The status half of Served, before any slots are sent. */
  ghost predicate Turned(w: World, w': World, a: string, share: int) {
    && a in w.agents && a in w'.agents
    && if share == 0 then w'.agents[a].status.Paused? && Original(w', a) == Original(w, a)
       else Some(w'.agents[a].status) == ResumedStatus(w, a)
  }

  lemma TurnedLater(w: World, w1: World, w2: World, a: string, ids: seq<string>, share: int)
    requires Turned(w, w1, a, share) && Framed(w1, w2, ids) && a !in ids
    ensures Turned(w, w2, a, share)
  {
    assert Lookup(w2.ledger, a) == Lookup(w1.ledger, a);
  }

  lemma TurnedFromEarlier(w: World, w1: World, w2: World, a: string, ids: seq<string>, share: int)
    requires Framed(w, w1, ids) && a !in ids && a in w.agents && Turned(w1, w2, a, share)
    ensures Turned(w, w2, a, share)
  {
    assert Lookup(w1.ledger, a) == Lookup(w.ledger, a);
  }

  lemma {:induction false} LockAllTurns(w: World, before: map<string, Agent>, ids: seq<string>, t: Split, call: Call)
    requires Listed(before, ids) && Distinct(ids) && StillListed(w, before, ids) && AllTidy(w, ids)
    ensures forall a :: a in ids ==> Turned(w, Exec(w, LockAll(w, before, ids, t, call)), a, 0)
    decreases |ids|
  {
    if ids != [] {
      var a, rest := ids[0], ids[1..];
      assert ids == [a] + rest && a in ids && Tidy(w, a);
      var writes := LockAgent(w, before[a], a, t, call);
      var w1 := Exec(w, writes);
      LockAgentTidy(w, a, t, call);
      LockKeepsOriginal(w, a, t, call);
      RestIsUntouched(w, w1, before, ids);
      LockAllTidy(w1, before, rest, t, call);
      LockAllTurns(w1, before, rest, t, call);
      ExecConcat(w, writes, LockAll(w1, before, rest, t, call));
      var w2 := Exec(w1, LockAll(w1, before, rest, t, call));
      assert Turned(w, w1, a, 0);
      AllTurn(w, w1, w2, a, rest, 0);
    }
  }

  lemma {:induction false} UnlockAllTurns(
      w: World, before: map<string, Agent>, ids: seq<string>, call: Call, share: int)
    requires Listed(before, ids) && Distinct(ids) && StillListed(w, before, ids) && AllTidy(w, ids) && share != 0
    ensures forall a :: a in ids ==> Turned(w, Exec(w, UnlockAll(w, before, ids, call)), a, share)
    decreases |ids|
  {
    if ids != [] {
      var a, rest := ids[0], ids[1..];
      assert ids == [a] + rest && a in ids && Tidy(w, a);
      var writes := UnlockAgent(w, before[a], a, call);
      var w1 := Exec(w, writes);
      UnlockAgentTidy(w, a, call);
      UnlockResumesToIdle(w, a, call);
      RestIsUntouched(w, w1, before, ids);
      UnlockAllTidy(w1, before, rest, call);
      UnlockAllTurns(w1, before, rest, call, share);
      ExecConcat(w, writes, UnlockAll(w1, before, rest, call));
      var w2 := Exec(w1, UnlockAll(w1, before, rest, call));
      assert Turned(w, w1, a, share);
      AllTurn(w, w1, w2, a, rest, share);
    }
  }

  lemma AllTurn(w: World, w1: World, w2: World, a: string, rest: seq<string>, share: int)
    requires Framed(w, w1, [a]) && Framed(w1, w2, rest) && a !in rest && Turned(w, w1, a, share)
    requires forall b :: b in rest ==> Turned(w1, w2, b, share)
    ensures forall b :: b in [a] + rest ==> Turned(w, w2, b, share)
  {
    TurnedLater(w, w1, w2, a, rest, share);
    forall b | b in rest ensures Turned(w, w2, b, share) {
      TurnedFromEarlier(w, w1, w2, b, [a], share);
    }
  }

  /** The track state and the settings change no status and no record. */
  lemma SettingsKeepTurned(w: World, w1: World, w2: World, a: string, share: int, ids: seq<string>)
    requires Turned(w, w1, a, share) && OnlySettings(w1, w2, ids)
    ensures Turned(w, w2, a, share)
  {
  }

  /** One track of a call serves every agent of it. */
  lemma TrackServes(
      cfg: Config, w: World, before: map<string, Agent>, t: Split, ids: seq<string>, labAgents: nat, call: Call)
    requires Listed(before, ids) && Distinct(ids) && StillListed(w, before, ids) && AllTidy(w, ids)
    requires cfg.slotBudget > 0 && SamePeople(before, w.agents) && ShareOf(call, t) >= 0
    ensures var w' := Exec(w, TrackPlan(cfg, w, before, t, ids, labAgents, call).writes);
            forall a :: a in ids ==> Served(w, w', a, ShareOf(call, t), SlotsOf(cfg, call, t, labAgents))
  {
    hide Exec, LockAll, UnlockAll, SlotWrites, Framed, AllTidy, StillListed, Distinct, SlotPlan, Turned, CarriesSlots,
         SamePeople, OnlySettings;
    var state, share := StateRow(call, t), ShareOf(call, t);
    if share == 0 {
      var writes := LockAll(w, before, ids, t, call);
      LockAllTurns(w, before, ids, t, call);
      ExecLast(w, writes, SetTrack(t, state));
      forall a | a in ids
        ensures Served(w, Exec(w, writes + [SetTrack(t, state)]), a, share, SlotsOf(cfg, call, t, labAgents)) {
        LockedIsServed(w, Exec(w, writes), a, t, state, SlotsOf(cfg, call, t, labAgents));
      }
    } else {
      var resumed, slots := UnlockAll(w, before, ids, call), SlotsOf(cfg, call, t, labAgents);
      var settings := SlotWrites(before, ids, slots);
      UnlockAllTurns(w, before, ids, call, share);
      SlotWritesFrame(Exec(w, resumed), before, ids, slots);
      ExecConcat(w, resumed, settings);
      ExecLast(w, resumed + settings, SetTrack(t, state));
      TrackGetsItsSlots(cfg, w, before, t, ids, labAgents, call);
      var w2 := Exec(w, resumed + settings);
      forall a | a in ids ensures Served(w, Apply(w2, SetTrack(t, state)), a, share, slots) {
        SettingsKeepTurned(w, Exec(w, resumed), w2, a, share, ids);
        AwakeIsServed(w, w2, a, t, state, share, slots);
      }
    }
  }

  lemma LockedIsServed(w: World, w1: World, a: string, t: Split, state: TrackRow, slots: int)
    requires Turned(w, w1, a, 0)
    ensures Served(w, Apply(w1, SetTrack(t, state)), a, 0, slots)
  {
  }

  lemma AwakeIsServed(w: World, w1: World, a: string, t: Split, state: TrackRow, share: int, slots: int)
    requires Turned(w, w1, a, share) && share != 0
    requires var w' := Apply(w1, SetTrack(t, state)); a in w'.agents && CarriesSlots(w'.agents[a], slots)
    ensures Served(w, Apply(w1, SetTrack(t, state)), a, share, slots)
  {
  }

  /******* A whole call *******/

  /**
   A completed call serves every agent of both tracks: those of a track with no share are paused with
   their status on record, the others are awake, and carry the slots of the plan in both settings objects.
   */
  lemma CompletedCallServes(cfg: Config, w: World, t: Time, call: Call)
    requires Ready(cfg, w, t) && t < call.at && Acceptable(call) && !Declines(w, call)
    ensures var w', labAgents := Allocate(cfg, w, call), |AgentsOf(cfg, w, Lab).value|;
            && (forall a :: a in AgentsOf(cfg, w, Core).value ==>
                  Served(w, w', a, call.core, SlotsOf(cfg, call, Core, labAgents)))
            && (forall a :: a in AgentsOf(cfg, w, Lab).value ==>
                  Served(w, w', a, call.lab, SlotsOf(cfg, call, Lab, labAgents)))
  {
    hide TrackPlan, Resolve, Orderly, Tidy, AllocationPlan, SlotsOf;
    var core, lab := AgentsOf(cfg, w, Core).value, AgentsOf(cfg, w, Lab).value;
    var w0 := w.(policies := w.policies + NewRows(cfg, call));
    AllocateIs(cfg, w, call);
    TidyUnderNewRows(w, w0, core + lab);
    BothServe(cfg, w0, core, lab, call);
    var w' := Allocate(cfg, w, call);
    SplitDistinct(core, lab);
    TidyParts(w0, core, lab);
    TrackPlanTidy(cfg, w0, w0.agents, Core, core, |lab|, call);
    hide Exec;
    forall a | a in core ensures Served(w, w', a, call.core, SlotsOf(cfg, call, Core, |lab|)) {
      PoliciesDoNotServe(w, w0, w', a, call.core, SlotsOf(cfg, call, Core, |lab|));
    }
    forall a | a in lab ensures Served(w, w', a, call.lab, SlotsOf(cfg, call, Lab, |lab|)) {
      PoliciesDoNotServe(w, w0, w', a, call.lab, SlotsOf(cfg, call, Lab, |lab|));
    }
  }

  /**
   And what the slots come to: after a completed call every agent of a track with a share carries what is
   due to it of the budget, by the shares alone.
   */
  lemma CompletedCallDealsSlots(cfg: Config, w: World, t: Time, call: Call) returns (core: int, lab: int)
    requires Ready(cfg, w, t) && t < call.at && Acceptable(call) && !Declines(w, call)
    ensures CoreDue(call.core, cfg.slotBudget, core)
    ensures LabDue(cfg.slotBudget - core, |AgentsOf(cfg, w, Lab).value|, lab)
    ensures var w' := Allocate(cfg, w, call);
            && (call.core > 0 ==> forall a :: a in AgentsOf(cfg, w, Core).value ==>
                  a in w'.agents && CarriesSlots(w'.agents[a], core))
            && (call.lab > 0 ==> forall a :: a in AgentsOf(cfg, w, Lab).value ==>
                  a in w'.agents && CarriesSlots(w'.agents[a], lab))
  {
    var labAgents := |AgentsOf(cfg, w, Lab).value|;
    core, lab := SlotsOf(cfg, call, Core, labAgents), SlotsOf(cfg, call, Lab, labAgents);
    SlotPlanFits(call.core, call.lab, cfg.slotBudget, labAgents);
    CompletedCallServes(cfg, w, t, call);
    hide Allocate, CarriesSlots, SlotPlan, CoreDue, LabDue, Resolve, ResumedStatus, Declines;
  }

  lemma PoliciesDoNotServe(w: World, w0: World, w': World, a: string, share: int, slots: int)
    requires w0.agents == w.agents && w0.ledger == w.ledger && Served(w0, w', a, share, slots)
    ensures Served(w, w', a, share, slots)
  {
  }

  lemma BothServe(cfg: Config, w: World, core: seq<string>, lab: seq<string>, call: Call)
    requires cfg.slotBudget > 0 && Distinct(core + lab) && AllTidy(w, core + lab) && Acceptable(call)
    requires Listed(w.agents, core) && Listed(w.agents, lab)
    ensures var w1 := Exec(w, TrackPlan(cfg, w, w.agents, Core, core, |lab|, call).writes);
            var w2 := Exec(w1, TrackPlan(cfg, w1, w.agents, Lab, lab, |lab|, call).writes);
            && (forall a :: a in core ==> Served(w, w2, a, call.core, SlotsOf(cfg, call, Core, |lab|)))
            && (forall a :: a in lab ==> Served(w, w2, a, call.lab, SlotsOf(cfg, call, Lab, |lab|)))
  {
    SplitDistinct(core, lab);
    TidyParts(w, core, lab);
    SamePeopleAlready(w.agents);
    assert ShareOf(call, Core) == call.core >= 0 && ShareOf(call, Lab) == call.lab >= 0;
    assert StillListed(w, w.agents, core);
    hide *;
    TrackPlanTidy(cfg, w, w.agents, Core, core, |lab|, call);
    TrackServes(cfg, w, w.agents, Core, core, |lab|, call);
    var w1 := Exec(w, TrackPlan(cfg, w, w.agents, Core, core, |lab|, call).writes);
    FramedTidy(w, w1, core, lab);
    FramedListed(w, w1, core, lab);
    TrackPlanTidy(cfg, w1, w.agents, Lab, lab, |lab|, call);
    TrackServes(cfg, w1, w.agents, Lab, lab, |lab|, call);
    var w2 := Exec(w1, TrackPlan(cfg, w1, w.agents, Lab, lab, |lab|, call).writes);
    CoreServedLater(w, w1, w2, core, lab, call.core, SlotsOf(cfg, call, Core, |lab|));
    LabServedFromEarlier(w, w1, w2, core, lab, call.lab, SlotsOf(cfg, call, Lab, |lab|));
  }

  lemma FramedListed(w: World, w1: World, ids: seq<string>, others: seq<string>)
    requires Framed(w, w1, ids) && Listed(w.agents, others) && forall a :: a in others ==> a !in ids
    ensures StillListed(w1, w.agents, others) && SamePeople(w.agents, w1.agents)
    ensures forall a :: a in others ==> a in w.agents
  {
  }

  lemma CoreServedLater(w: World, w1: World, w2: World, core: seq<string>, lab: seq<string>, share: int, slots: int)
    requires Framed(w1, w2, lab) && Distinct(core + lab)
    requires forall a :: a in core ==> Served(w, w1, a, share, slots)
    ensures forall a :: a in core ==> Served(w, w2, a, share, slots)
  {
    SplitDistinct(core, lab);
    hide Framed, Served, Distinct;
    forall a | a in core ensures Served(w, w2, a, share, slots) {
      ServedLater(w, w1, w2, a, lab, share, slots);
    }
  }

  lemma LabServedFromEarlier(
    w: World, w1: World, w2: World, core: seq<string>, lab: seq<string>, share: int, slots: int)
    requires Framed(w, w1, core) && Distinct(core + lab) && forall a :: a in lab ==> a in w.agents
    requires forall a :: a in lab ==> Served(w1, w2, a, share, slots)
    ensures forall a :: a in lab ==> Served(w, w2, a, share, slots)
  {
    SplitDistinct(core, lab);
    hide Framed, Served, Distinct;
    forall a | a in lab ensures Served(w, w2, a, share, slots) {
      ServedFromEarlier(w, w1, w2, a, core, share, slots);
    }
  }

  lemma SamePeopleAlready(agents: map<string, Agent>)
    ensures SamePeople(agents, agents)
  {
  }

  /**
   Over completed calls: an agent awake before a call locks its track and a later one unlocks it has
   its status back exactly if it was idle, although the ledger had it on record.
   */
  lemma LockThenUnlockRestoresExactlyIdle(
      cfg: Config, w: World, t: Time, lock: Call, unlock: Call, track: Split, a: string)
    requires Ready(cfg, w, t) && t < lock.at < unlock.at && Acceptable(lock) && Acceptable(unlock)
    requires !Declines(w, lock) && !Declines(Allocate(cfg, w, lock), unlock)
    requires ShareOf(lock, track) == 0 && ShareOf(unlock, track) > 0
    requires a in AgentsOf(cfg, w, track).value && a in w.agents && !w.agents[a].status.Paused?
    ensures var locked := Allocate(cfg, w, lock);
            var resumed := Allocate(cfg, locked, unlock);
            && a in locked.agents && locked.agents[a].status.Paused? && Original(locked, a) == Some(w.agents[a].status)
            && a in resumed.agents && resumed.agents[a].status == IDLE
            && (resumed.agents[a].status == w.agents[a].status <==> w.agents[a].status == IDLE)
  {
    var locked := Allocate(cfg, w, lock);
    CompletedCallAgrees(cfg, w, t, lock);
    CompletedCallServes(cfg, w, t, lock);
    CompletedCallServes(cfg, locked, lock.at, unlock);
    SameMembers(cfg, w, t, lock, track);
    hide Allocate, Ready, CarriesSlots, SlotsOf, Declines, Resolve;
  }

  /** A completed call leaves the tracks their agents. */
  lemma SameMembers(cfg: Config, w: World, t: Time, call: Call, track: Split)
    requires Ready(cfg, w, t) && t < call.at && Acceptable(call) && !Declines(w, call)
    ensures AgentsOf(cfg, Allocate(cfg, w, call), track) == AgentsOf(cfg, w, track)
  {
    var writes := AllocationPlan(cfg, w, call).writes;
    WritesKeepPeople(w, writes);
    WritesKeepRoster(w, writes);
    hide AllocationPlan;
    ResolveStable(w.roster, w.agents, Exec(w, writes).agents, SelectorsOf(cfg, track));
  }

  lemma {:induction false} WritesKeepRoster(w: World, ws: seq<Write>)
    ensures Exec(w, ws).roster == w.roster
    decreases |ws|
  {
    if ws != [] { WritesKeepRoster(Apply(w, ws[0]), ws[1..]); }
  }
}
