/**
 Allocation calls and the restart pass as the bridge runs them: loops over agents and ledger rows
 that write, one committed step at a time, exactly the scripts of the allocation model.
 */
module Control {
  import opened Basics
  import opened Allocation
  import opened Storage
  import opened WorkBoard
  import Policy

  ghost function WorldOf(store: Store, pc: Paperclip): World
    reads store, pc
  {
    World(store.policies, store.mandates, pc.roster, pc.agents, store.ledger, store.trackState, pc.held)
  }

  /** The call wrote this script, step by step, and its effect is the script's. */
  twostate predicate Did(store: Store, pc: Paperclip, script: seq<Write>)
    reads store, pc, store.journal
  {
    && store.journal.writes == old(store.journal.writes) + script
    && WorldOf(store, pc) == Exec(old(WorldOf(store, pc)), script)
    && pc.agents.Keys == old(pc.agents).Keys
  }

  /******* Selecting agents *******/

  method HitsOf(pc: Paperclip, sel: Selector) returns (hits: seq<string>)
    ensures hits == Hits(pc.roster, pc.agents, sel)
  {
    hide Hits;
    hits := [];
    assert pc.roster[0..] == pc.roster;
    for i := 0 to |pc.roster|
      invariant hits + Hits(pc.roster[i..], pc.agents, sel) == Hits(pc.roster, pc.agents, sel)
    {
      var a := pc.roster[i];
      NextHit(pc.roster, i, pc.agents, sel, hits);
      if a in pc.agents && Matches(sel, pc.agents[a]) { hits := hits + [a]; }
    }
    NoMoreHits(pc.agents, sel);
    assert pc.roster[|pc.roster|..] == [] && hits + [] == hits;
  }

  lemma NextHit(roster: seq<string>, i: nat, agents: map<string, Agent>, sel: Selector, before: seq<string>)
    requires i < |roster|
    ensures var hit := if roster[i] in agents && Matches(sel, agents[roster[i]]) then [roster[i]] else [];
            before + Hits(roster[i..], agents, sel) == (before + hit) + Hits(roster[i + 1..], agents, sel)
    ensures before + [] == before
  {
    assert roster[i..][1..] == roster[i + 1..];
    var hit := if roster[i] in agents && Matches(sel, agents[roster[i]]) then [roster[i]] else [];
    assert before + (hit + Hits(roster[i + 1..], agents, sel)) == (before + hit) + Hits(roster[i + 1..], agents, sel);
  }

  lemma NoMoreHits(agents: map<string, Agent>, sel: Selector)
    ensures Hits([], agents, sel) == []
  {
  }

  /** Each selector must name exactly one agent. */
  method ResolveTrackAgents(pc: Paperclip, sels: seq<Selector>) returns (r: Result<seq<string>, SelectorError>)
    ensures r == Resolve(pc.roster, pc.agents, sels)
  {
    var matched: seq<string> := [];
    for i := 0 to |sels|
      invariant Resolve(pc.roster, pc.agents, sels[..i]) == Ok(matched)
    {
      assert sels[..i + 1][..i] == sels[..i];
      var sel := sels[i];
      if sel.Malformed? || sel.value == "" {
        FirstErrorStays(pc.roster, pc.agents, sels, i + 1);
        return Err(BadSelector);
      }
      var hits := HitsOf(pc, sel);
      if |hits| == 0 {
        FirstErrorStays(pc.roster, pc.agents, sels, i + 1);
        return Err(NoMatch);
      }
      if |hits| > 1 {
        FirstErrorStays(pc.roster, pc.agents, sels, i + 1);
        return Err(ManyMatches);
      }
      matched := matched + [hits[0]];
    }
    assert sels[..|sels|] == sels;
    return Ok(matched);
  }

  lemma {:induction false} FirstErrorStays(roster: seq<string>, agents: map<string, Agent>, sels: seq<Selector>, i: nat)
    requires i <= |sels| && Resolve(roster, agents, sels[..i]).Err?
    ensures Resolve(roster, agents, sels) == Resolve(roster, agents, sels[..i])
    decreases |sels| - i
  {
    if i == |sels| {
      assert sels[..i] == sels;
    } else {
      assert sels[..i + 1][..i] == sels[..i];
      FirstErrorStays(roster, agents, sels, i + 1);
    }
  }

  /******* One agent *******/

  method LockOne(store: Store, pc: Paperclip, before: Agent, a: string, t: Split, call: Call)
    requires store.journal == pc.journal && a in pc.agents
    modifies store`ledger, pc`agents, pc`held, store.journal
    ensures Did(store, pc, LockAgent(old(WorldOf(store, pc)), before, a, t, call))
  {
    hide Exec;
    ghost var w := WorldOf(store, pc);
    if before.status.Paused? {
      if a in store.ledger {
        var entry := store.ledger[a].(track := t, pausedAt := call.at, pausedBy := call.event, releasedAt := None);
        ExecOneTwo(w, PutLedger(a, entry), PutLedger(a, entry));
        store.LedgerPut(a, entry);
      } else {
        NothingDone(w);
      }
    } else {
      var entry := LedgerRow(t, before.status, before.holds, call.at, call.event, None);
      ExecOneTwo(w, PutLedger(a, entry), SetPaused(a));
      store.LedgerPut(a, entry);
      pc.PausePatch(a);
    }
  }

  method UnlockOne(store: Store, pc: Paperclip, before: Agent, a: string, call: Call)
    requires store.journal == pc.journal && a in pc.agents
    modifies store`ledger, pc`agents, pc`held, store.journal
    ensures Did(store, pc, UnlockAgent(old(WorldOf(store, pc)), before, a, call))
  {
    hide Exec;
    ghost var w := WorldOf(store, pc);
    NothingDone(w);
    if a !in store.ledger || store.ledger[a].releasedAt.Some? { return; }
    if !before.status.Paused? {
      ExecOneTwo(w, Release(a, call.at), Release(a, call.at));
      store.LedgerRelease(a, call.at);
      return;
    }
    if RefusesResume(before, store.ledger[a]) { return; }
    ExecOneTwo(w, SetIdle(a), Release(a, call.at));
    pc.IdlePatch(a);
    store.LedgerRelease(a, call.at);
  }

  lemma NothingDone(w: World)
    ensures Exec(w, []) == w
  {
  }

  lemma StepThenRest(w: World, step: seq<Write>, rest: seq<Write>, log: seq<Write>)
    ensures Exec(w, step + rest) == Exec(Exec(w, step), rest)
    ensures (log + step) + rest == log + (step + rest)
  {
    ExecConcat(w, step, rest);
  }

  /******* One track *******/

  method LockTrack(store: Store, pc: Paperclip, before: map<string, Agent>, ids: seq<string>, t: Split, call: Call)
    requires store.journal == pc.journal && Listed(before, ids) && before.Keys == pc.agents.Keys
    modifies store`ledger, pc`agents, pc`held, store.journal
    ensures Did(store, pc, LockAll(old(WorldOf(store, pc)), before, ids, t, call))
  {
    hide Exec, LockAgent;
    ghost var w, log := WorldOf(store, pc), store.journal.writes;
    for i := 0 to |ids|
      invariant pc.agents.Keys == before.Keys
      invariant store.journal.writes + LockAll(WorldOf(store, pc), before, ids[i..], t, call)
                == log + LockAll(w, before, ids, t, call)
      invariant Exec(WorldOf(store, pc), LockAll(WorldOf(store, pc), before, ids[i..], t, call))
                == Exec(w, LockAll(w, before, ids, t, call))
    {
      ghost var now, done := WorldOf(store, pc), store.journal.writes;
      ghost var step := LockAgent(now, before[ids[i]], ids[i], t, call);
      StepThenRest(now, step, LockAll(Exec(now, step), before, ids[i + 1..], t, call), done);
      assert ids[i..][1..] == ids[i + 1..];
      LockOne(store, pc, before[ids[i]], ids[i], t, call);
    }
    NothingDone(WorldOf(store, pc));
  }

  method UnlockTrack(store: Store, pc: Paperclip, before: map<string, Agent>, ids: seq<string>, call: Call)
    requires store.journal == pc.journal && Listed(before, ids) && before.Keys == pc.agents.Keys
    modifies store`ledger, pc`agents, pc`held, store.journal
    ensures Did(store, pc, UnlockAll(old(WorldOf(store, pc)), before, ids, call))
  {
    hide Exec, UnlockAgent;
    ghost var w, log := WorldOf(store, pc), store.journal.writes;
    for i := 0 to |ids|
      invariant pc.agents.Keys == before.Keys
      invariant store.journal.writes + UnlockAll(WorldOf(store, pc), before, ids[i..], call)
                == log + UnlockAll(w, before, ids, call)
      invariant Exec(WorldOf(store, pc), UnlockAll(WorldOf(store, pc), before, ids[i..], call))
                == Exec(w, UnlockAll(w, before, ids, call))
    {
      ghost var now, done := WorldOf(store, pc), store.journal.writes;
      ghost var step := UnlockAgent(now, before[ids[i]], ids[i], call);
      StepThenRest(now, step, UnlockAll(Exec(now, step), before, ids[i + 1..], call), done);
      assert ids[i..][1..] == ids[i + 1..];
      UnlockOne(store, pc, before[ids[i]], ids[i], call);
    }
    NothingDone(WorldOf(store, pc));
  }

  /** Sends every agent its slots, with the rest of its settings as they were listed. */
  method SetSlotsOf(store: Store, pc: Paperclip, before: map<string, Agent>, ids: seq<string>, slots: int)
    requires store.journal == pc.journal && Listed(before, ids) && before.Keys == pc.agents.Keys
    modifies pc`agents, store.journal
    ensures Did(store, pc, SlotWrites(before, ids, slots))
  {
    hide Exec, MergeConfig, MergeMetadata;
    ghost var w, log := WorldOf(store, pc), store.journal.writes;
    for i := 0 to |ids|
      invariant pc.agents.Keys == before.Keys
      invariant store.journal.writes + SlotWrites(before, ids[i..], slots) == log + SlotWrites(before, ids, slots)
      invariant Exec(WorldOf(store, pc), SlotWrites(before, ids[i..], slots)) == Exec(w, SlotWrites(before, ids, slots))
    {
      var a := ids[i];
      var config, metadata := MergeConfig(before[a].runtimeConfig, slots), MergeMetadata(before[a].metadata, slots);
      ghost var now, done, step := WorldOf(store, pc), store.journal.writes, SetSlots(a, config, metadata);
      StepThenRest(now, [step], SlotWrites(before, ids[i + 1..], slots), done);
      ExecOneTwo(now, step, step);
      assert ids[i..][1..] == ids[i + 1..];
      pc.SettingsPatch(a, config, metadata);
    }
    NothingDone(WorldOf(store, pc));
  }

  method TrackStep(cfg: Config, store: Store, pc: Paperclip, before: map<string, Agent>, t: Split,
      ids: seq<string>, labAgents: nat, call: Call)
    returns (outcome: Outcome)
    requires store.journal == pc.journal && Listed(before, ids) && before.Keys == pc.agents.Keys
    modifies store`ledger, store`trackState, pc`agents, pc`held, store.journal
    ensures Did(store, pc, TrackPlan(cfg, old(WorldOf(store, pc)), before, t, ids, labAgents, call).writes)
    ensures outcome == TrackPlan(cfg, old(WorldOf(store, pc)), before, t, ids, labAgents, call).outcome
  {
    hide Exec, LockAll, UnlockAll, SlotWrites, SlotPlan;
    ghost var w, log := WorldOf(store, pc), store.journal.writes;
    var row := TrackRow(ShareOf(call, t) == 0, call.actor, call.at);
    if ShareOf(call, t) == 0 {
      LockTrack(store, pc, before, ids, t, call);
      ExecLast(w, LockAll(w, before, ids, t, call), SetTrack(t, row));
      store.SetTrackState(t, row);
      return Applied;
    }
    UnlockTrack(store, pc, before, ids, call);
    if cfg.slotBudget <= 0 { return BadBudget; }
    ghost var resumed := UnlockAll(w, before, ids, call);
    var plan := SlotPlan(call.core, call.lab, cfg.slotBudget, labAgents);
    var slots := if t.Core? then plan.core else plan.perLabAgent;
    SetSlotsOf(store, pc, before, ids, slots);
    StepThenRest(w, resumed, SlotWrites(before, ids, slots), log);
    ExecLast(w, resumed + SlotWrites(before, ids, slots), SetTrack(t, row));
    store.SetTrackState(t, row);
    return Applied;
  }

  /******* The call *******/

  method InsertPolicies(cfg: Config, store: Store, pc: Paperclip, call: Call)
    requires store.journal == pc.journal
    modifies store`policies, store.journal
    ensures Did(store, pc, PolicyWrites(cfg, call))
  {
    PolicyWritesAppend(cfg, WorldOf(store, pc), call);
    store.InsertPolicy(ShareRow(cfg, call, Core));
    store.InsertPolicy(ShareRow(cfg, call, Lab));
    store.InsertPolicy(LockRow(call, Core));
    store.InsertPolicy(LockRow(call, Lab));
  }

  method ApplyAllocation(cfg: Config, store: Store, pc: Paperclip, call: Call) returns (outcome: Outcome)
    requires store.journal == pc.journal
    modifies store`policies, store`ledger, store`trackState, pc`agents, pc`held, store.journal
    ensures Did(store, pc, AllocationPlan(cfg, old(WorldOf(store, pc)), call).writes)
    ensures outcome == AllocationPlan(cfg, old(WorldOf(store, pc)), call).outcome
  {
    hide Exec, PolicyWrites, TrackPlan, Resolve;
    ghost var w, log := WorldOf(store, pc), store.journal.writes;
    NothingDone(w);
    if !Acceptable(call) { return Rejected; }
    if call.adaptive && OperatorAllocates(store.policies, call.at) { return Declined; }
    InsertPolicies(cfg, store, pc, call);
    PolicyWritesAppend(cfg, w, call);
    var core := ResolveTrackAgents(pc, cfg.core);
    if core.Err? { return NoSuchAgent(core.error); }
    var lab := ResolveTrackAgents(pc, cfg.lab);
    if lab.Err? { return NoSuchAgent(lab.error); }
    ResolvedExist(w.roster, w.agents, cfg.core);
    ResolvedExist(w.roster, w.agents, cfg.lab);
    var listed := pc.agents;
    ghost var policies, first := PolicyWrites(cfg, call), CorePlan(cfg, w, call).writes;
    outcome := TrackStep(cfg, store, pc, listed, Core, core.value, |lab.value|, call);
    StepThenRest(w, policies, first, log);
    if !outcome.Applied? { return; }
    outcome := TrackStep(cfg, store, pc, listed, Lab, lab.value, |lab.value|, call);
    StepThenRest(w, policies + first, LabPlan(cfg, w, call).writes, log);
  }

  /** An operator's override: one policy row, or an error and nothing written. */
  method SetOverride(store: Store, row: Policy.PolicyRow) returns (r: Result<Policy.PolicyRow, Policy.OverrideError>)
    modifies store`policies, store.journal
    ensures r == Policy.SetOverride(row)
    ensures store.policies == old(store.policies) + if r.Ok? then [r.value] else []
    ensures store.journal.writes == old(store.journal.writes) + if r.Ok? then [InsertPolicy(r.value)] else []
  {
    if row.scope.Elsewhere? || row.scopeId == "" || row.key == "" { return Err(Policy.MissingField); }
    if row.key !in Policy.DEFAULTS && row.key !in Policy.HARD_RULES { return Err(Policy.UnknownKey); }
    if row.key in Policy.HARD_RULES { return Err(Policy.HardRule); }
    var inserted := row.(priority := Policy.OPERATOR, revokedAt := None);
    store.InsertPolicy(inserted);
    return Ok(inserted);
  }

  /******* The restart pass *******/

  method ReadTrackShare(cfg: Config, store: Store, pc: Paperclip, t: Split, now: Time) returns (verdict: Verdict)
    ensures verdict == TrackVerdict(cfg, WorldOf(store, pc), t, now)
  {
    var values := Policy.ResolveAll(store.policies, store.mandates, AskerOf(cfg, None, t, now));
    var key := AllocationKey(t);
    verdict := ReadShare(if key in values then Some(values[key]) else None);
    hide ReadShare, Policy.Effective;
    assert (if key in values then Some(values[key]) else None)
        == Policy.Effective(store.policies, store.mandates, AskerOf(cfg, None, t, now), key);
  }

  /** One ledger row; raises when the share cannot be compared or the board does not know the agent. */
  method ReconcileOne(cfg: Config, store: Store, pc: Paperclip, a: string, now: Time) returns (raised: bool)
    requires store.journal == pc.journal && a in store.ledger
    modifies store`ledger, pc`agents, pc`held, store.journal
    ensures raised <==> StopsAt(cfg, old(WorldOf(store, pc)), a, now)
    ensures Did(store, pc, if raised then [] else ReconcileEntry(cfg, old(WorldOf(store, pc)), a, now))
  {
    hide Exec, ReadShare, TrackVerdict;
    ghost var w := WorldOf(store, pc);
    NothingDone(w);
    if store.ledger[a].releasedAt.Some? { return false; }
    var verdict := ReadTrackShare(cfg, store, pc, store.ledger[a].track, now);
    if a !in pc.agents || verdict.Broken? { return true; }
    if verdict.Positive? {
      ExecOneTwo(w, Release(a, now), Release(a, now));
      store.LedgerRelease(a, now);
      return false;
    }
    if pc.agents[a].status.Paused? { return false; }
    ExecOneTwo(w, SetPaused(a), SetPaused(a));
    pc.PausePatch(a);
    return false;
  }

  lemma FrameExtends(w: World, w1: World, w2: World, done: seq<string>, a: string)
    requires PassFrame(w, w1, done) && PassFrame(w1, w2, [a])
    ensures PassFrame(w, w2, done + [a])
  {
  }

  lemma PassBegins(w: World)
    ensures PassFrame(w, w, [])
  {
  }

  /** order is the order the ledger rows are read in; an exception ends the pass where it strikes. */
  method ReconcileLock(cfg: Config, store: Store, pc: Paperclip, order: seq<string>, now: Time) returns (raised: bool)
    requires store.journal == pc.journal && Enumerates(order, WorldOf(store, pc))
    modifies store`ledger, pc`agents, pc`held, store.journal
    ensures Did(store, pc, ReconcilePlan(cfg, old(WorldOf(store, pc)), order, now))
    ensures raised <==> Stoppable(cfg, old(WorldOf(store, pc)), order, now)
  {
    hide Exec, ReconcileEntry, StopsAt, PassFrame, ReconcilePlan, EntryVerdict;
    ghost var w, log := WorldOf(store, pc), store.journal.writes;
    PassBegins(w);
    assert order[0..] == order;
    for i := 0 to |order|
      invariant pc.agents.Keys == w.agents.Keys && store.ledger.Keys == w.ledger.Keys
      invariant PassFrame(w, WorldOf(store, pc), order[..i])
      invariant store.journal.writes + ReconcilePlan(cfg, WorldOf(store, pc), order[i..], now)
                == log + ReconcilePlan(cfg, w, order, now)
      invariant Exec(WorldOf(store, pc), ReconcilePlan(cfg, WorldOf(store, pc), order[i..], now))
                == Exec(w, ReconcilePlan(cfg, w, order, now))
      invariant forall k :: 0 <= k < i ==> !StopsAt(cfg, w, order[k], now)
    {
      var a := order[i];
      ghost var before, done := WorldOf(store, pc), store.journal.writes;
      assert a !in order[..i] && order[i..][1..] == order[i + 1..] && order[..i + 1] == order[..i] + [a];
      PlanUnfolds(cfg, before, order, i, now);
      FrameKeepsVerdicts(cfg, w, before, order[..i], a, now);
      raised := ReconcileOne(cfg, store, pc, a, now);
      if raised {
        NothingDone(before);
        return;
      }
      ghost var step := ReconcileEntry(cfg, before, a, now);
      StepThenRest(before, step, ReconcilePlan(cfg, Exec(before, step), order[i + 1..], now), done);
      EntryIs(cfg, before, a, now);
      KeysStay(before, WorldOf(store, pc), a);
      FrameExtends(w, before, WorldOf(store, pc), order[..i], a);
    }
    NothingDone(WorldOf(store, pc));
    PlanEnds(cfg, WorldOf(store, pc), now);
    assert order[|order|..] == [];
    raised := false;
  }

  lemma PlanUnfolds(cfg: Config, w: World, order: seq<string>, i: nat, now: Time)
    requires i < |order|
    ensures var step := ReconcileEntry(cfg, w, order[i], now);
            ReconcilePlan(cfg, w, order[i..], now)
            == if StopsAt(cfg, w, order[i], now) then []
               else step + ReconcilePlan(cfg, Exec(w, step), order[i + 1..], now)
  {
    hide StopsAt, ReconcileEntry, Exec;
    assert order[i..][1..] == order[i + 1..];
  }

  lemma PlanEnds(cfg: Config, w: World, now: Time)
    ensures ReconcilePlan(cfg, w, [], now) == []
  {
  }

  lemma KeysStay(w: World, w': World, a: string)
    requires PassFrame(w, w', [a])
    ensures w'.agents.Keys == w.agents.Keys && w'.ledger.Keys == w.ledger.Keys
  {
  }
}
