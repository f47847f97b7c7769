/**
 Agents that a crash leaves paused with nothing on record to resume them by: which cuts of an
 unlocking call do that, and that nothing the bridge does later undoes it.
 */
module Stranding {
  import opened Basics
  import opened Policy
  import opened Allocation

  /** Paused, and the ledger row that says so is closed: no unlock will look at the agent. */
  ghost predicate Stranded(w: World, a: string) {
    && a in w.agents && w.agents[a].status.Paused?
    && a in w.ledger && w.ledger[a].releasedAt.Some?
  }

  /** The call locks no track that the agent belongs to in the world the call meets. */
  ghost predicate LeavesUnlocked(cfg: Config, w: World, call: Call, a: string) {
    forall s: Split :: ShareOf(call, s) == 0 && AgentsOf(cfg, w, s).Ok? ==> a !in AgentsOf(cfg, w, s).value
  }

  ghost predicate NeverRelocked(cfg: Config, w: World, acts: seq<Act>, a: string) {
    forall i :: 0 <= i < |acts| && acts[i].CallAct? ==> LeavesUnlocked(cfg, RunActs(cfg, w, acts[..i]), acts[i].call, a)
  }

  /******* For good *******/

  /** The restart pass has no business with a closed row. */
  lemma {:induction false} PassSkipsClosedRows(cfg: Config, w: World, order: seq<string>, now: Time, a: string)
    requires !IsOpen(w.ledger, a)
    ensures forall x :: x in ReconcilePlan(cfg, w, order, now) ==> !Touches(x, a)
    decreases |order|
  {
    hide EntryVerdict, Apply;
    if order != [] && !StopsAt(cfg, w, order[0], now) {
      var ws := ReconcileEntry(cfg, w, order[0], now);
      EntryIs(cfg, w, order[0], now);
      var w1 := Exec(w, ws);
      assert order[0] != a ==> Lookup(w1.ledger, a) == Lookup(w.ledger, a);
      PassSkipsClosedRows(cfg, w1, order[1..], now, a);
    }
  }

  lemma ActKeepsStranded(cfg: Config, w: World, act: Act, a: string)
    requires Stranded(w, a)
    requires act.CallAct? ==> LeavesUnlocked(cfg, w, act.call, a)
    requires act.OutsideAct? && act.agent == a ==> act.status.Paused?
    ensures Stranded(Do(cfg, w, act), a)
  {
    hide AllocationPlan, ReconcilePlan, Exec, Resolve;
    match act
    case CallAct(call, k) =>
      SparedStays(cfg, w, call, a, Min(k, |AllocationPlan(cfg, w, call).writes|));
      assert Lookup(Do(cfg, w, act).ledger, a) == Lookup(w.ledger, a);
    case ReconcileAct(order, now, k) =>
      PassSkipsClosedRows(cfg, w, order, now, a);
      UntouchedStays(w, Cut(ReconcilePlan(cfg, w, order, now), k), a);
      assert Lookup(Do(cfg, w, act).ledger, a) == Lookup(w.ledger, a);
    case OutsideAct(_, _, _) =>
  }

  /**
   Stranded for good: over any run of calls and restart passes, each cut anywhere, and of outside
   changes that leave it paused, a stranded agent stays stranded as long as no call locks a track of it.
   */
  lemma {:induction false} StrandedForGood(cfg: Config, w: World, acts: seq<Act>, a: string)
    requires Stranded(w, a) && OnlyPauses(acts, a) && NeverRelocked(cfg, w, acts, a)
    ensures Stranded(RunActs(cfg, w, acts), a)
  {
    if acts != [] {
      hide Stranded, LeavesUnlocked, Do;
      var front, act := acts[..|acts| - 1], acts[|acts| - 1];
      forall i | 0 <= i < |front| ensures front[..i] == acts[..i] {}
      StrandedForGood(cfg, w, front, a);
      ActKeepsStranded(cfg, RunActs(cfg, w, front), act, a);
    }
  }

  /******* How far the pass gets *******/

  /** The pass gets to this row: no row up to it makes the pass raise. */
  ghost predicate Reaches(cfg: Config, w: World, order: seq<string>, a: string, now: Time) {
    exists i :: 0 <= i < |order| && order[i] == a && forall j :: 0 <= j <= i ==> !StopsAt(cfg, w, order[j], now)
  }

  lemma {:induction false} FirstStop(cfg: Config, w: World, order: seq<string>, now: Time) returns (n: nat)
    ensures n <= |order| && (forall j :: 0 <= j < n ==> !StopsAt(cfg, w, order[j], now))
    ensures n < |order| ==> StopsAt(cfg, w, order[n], now)
  {
    hide StopsAt;
    n := 0;
    while n < |order| && !StopsAt(cfg, w, order[n], now)
      invariant n <= |order| && forall j :: 0 <= j < n ==> !StopsAt(cfg, w, order[j], now)
    {
      n := n + 1;
    }
  }

  lemma {:induction false} PassEndsThere(cfg: Config, w: World, order: seq<string>, n: nat, now: Time)
    requires Distinct(order) && n <= |order| && forall j :: 0 <= j < n ==> !StopsAt(cfg, w, order[j], now)
    requires n < |order| ==> StopsAt(cfg, w, order[n], now)
    ensures ReconcilePlan(cfg, w, order, now) == ReconcilePlan(cfg, w, order[..n], now)
    decreases n
  {
    hide StopsAt, ReconcileEntry, PassFrame, EntryDone;
    if n == 0 {
      assert order[..0] == [];
    } else {
      var ws, rest := ReconcileEntry(cfg, w, order[0], now), order[1..];
      var w1 := Exec(w, ws);
      EntryIs(cfg, w, order[0], now);
      forall x | x in rest ensures StopsAt(cfg, w1, x, now) == StopsAt(cfg, w, x, now) {
        var i :| 0 <= i < |rest| && rest[i] == x;
        assert order[0] != order[i + 1];
        FrameKeepsVerdicts(cfg, w, w1, [order[0]], x, now);
      }
      PassEndsThere(cfg, w1, rest, n - 1, now);
      assert order[..n][1..] == rest[..n - 1] && order[..n][0] == order[0];
    }
  }

  /** What any pass does with a row, whether or not it raises further on. */
  lemma PassDoes(cfg: Config, w: World, order: seq<string>, a: string, now: Time)
    requires Distinct(order)
    ensures var w' := Reconcile(cfg, w, order, now);
            && (Reaches(cfg, w, order, a, now) ==> EntryDone(cfg, w, w', a, now))
            && (!Reaches(cfg, w, order, a, now) ==>
                  Lookup(w'.ledger, a) == Lookup(w.ledger, a) && Lookup(w'.agents, a) == Lookup(w.agents, a))
  {
    var n := FirstStop(cfg, w, order, now);
    PassEndsThere(cfg, w, order, n, now);
    ReachedBeforeTheStop(cfg, w, order, n, a, now);
    hide StopsAt, EntryDone, ReconcilePlan, Reaches;
    ReconcileIs(cfg, w, order[..n], now);
  }

  lemma ReachedBeforeTheStop(cfg: Config, w: World, order: seq<string>, n: nat, a: string, now: Time)
    requires n <= |order| && forall j :: 0 <= j < n ==> !StopsAt(cfg, w, order[j], now)
    requires n < |order| ==> StopsAt(cfg, w, order[n], now)
    ensures Reaches(cfg, w, order, a, now) <==> a in order[..n]
  {
    hide StopsAt;
    if a in order[..n] {
      var i :| 0 <= i < n && order[..n][i] == a;
      assert order[i] == a;
    }
    if Reaches(cfg, w, order, a, now) {
      var i :| 0 <= i < |order| && order[i] == a && forall j :: 0 <= j <= i ==> !StopsAt(cfg, w, order[j], now);
      assert order[..n][i] == a;
    }
  }

  /**
   A pass strands an agent exactly if it gets to an open row of it whose track has a share again while
   the agent is paused; one that was stranded before stays so.
   */
  lemma PassStrandsExactly(cfg: Config, w: World, order: seq<string>, a: string, now: Time)
    requires Distinct(order) && a in w.ledger && a in w.agents
    ensures Stranded(Reconcile(cfg, w, order, now), a)
            <==> || Stranded(w, a)
                 || (w.agents[a].status.Paused? && IsOpen(w.ledger, a) && EntryVerdict(cfg, w, a, now).Positive?
                     && Reaches(cfg, w, order, a, now))
  {
    PassDoes(cfg, w, order, a, now);
    ReachedIsPassed(cfg, w, order, a, now);
    hide Reconcile, EntryVerdict, Reaches;
    var w' := Reconcile(cfg, w, order, now);
    if !Reaches(cfg, w, order, a, now) {
      assert Lookup(w'.ledger, a) == Some(w.ledger[a]) && Lookup(w'.agents, a) == Some(w.agents[a]);
    }
  }

  lemma ReachedIsPassed(cfg: Config, w: World, order: seq<string>, a: string, now: Time)
    ensures Reaches(cfg, w, order, a, now) ==> !StopsAt(cfg, w, a, now)
  {
    hide StopsAt;
  }

  /******* The writes of an unlocking call *******/

  /** In these writes the agent is only ever resumed, and its row released right after that. */
  ghost predicate OnlyResumes(ws: seq<Write>, a: string) {
    && (forall x :: x in ws && Touches(x, a) ==> x.SetIdle? || x.Release?)
    && (forall j :: 0 <= j < |ws| && ws[j].Release? && ws[j].agent == a ==> 0 < j && ws[j - 1] == SetIdle(a))
  }

  lemma OnlyResumesConcat(xs: seq<Write>, ys: seq<Write>, a: string)
    requires OnlyResumes(xs, a) && OnlyResumes(ys, a)
    ensures OnlyResumes(xs + ys, a)
  {
    var ws := xs + ys;
    forall j | 0 <= j < |ws| && ws[j].Release? && ws[j].agent == a ensures 0 < j && ws[j - 1] == SetIdle(a) {
      if j < |xs| {
        assert xs[j] == ws[j];
      } else {
        assert ys[j - |xs|] == ws[j];
      }
    }
  }

  lemma OnlyResumesPrefix(ws: seq<Write>, k: nat, a: string)
    requires OnlyResumes(ws, a) && k <= |ws|
    ensures OnlyResumes(ws[..k], a)
  {
  }

  lemma UntouchedOnlyResumes(ws: seq<Write>, a: string)
    requires forall x :: x in ws ==> !Touches(x, a)
    ensures OnlyResumes(ws, a)
  {
    forall j | 0 <= j < |ws| ensures !(ws[j].Release? && ws[j].agent == a) {
      assert ws[j] in ws;
    }
  }

  lemma {:induction false} UnlockAllResumes(
      w: World, before: map<string, Agent>, ids: seq<string>, call: Call, a: string)
    requires Listed(before, ids) && (a in ids ==> before[a].status.Paused?)
    ensures OnlyResumes(UnlockAll(w, before, ids, call), a)
    decreases |ids|
  {
    if ids != [] {
      assert ids[0] in ids && forall b :: b in ids[1..] ==> b in ids;
      var ws := UnlockAgent(w, before[ids[0]], ids[0], call);
      UnlockAllResumes(Exec(w, ws), before, ids[1..], call, a);
      hide Exec, RefusesResume;
      OnlyResumesConcat(ws, UnlockAll(Exec(w, ws), before, ids[1..], call), a);
    }
  }

  lemma TrackOnlyResumes(
    cfg: Config, w: World, before: map<string, Agent>, t: Split, ids: seq<string>, labAgents: nat, call: Call,
    a: string)
    requires Listed(before, ids) && (a in ids ==> before[a].status.Paused? && ShareOf(call, t) != 0)
    ensures OnlyResumes(TrackPlan(cfg, w, before, t, ids, labAgents, call).writes, a)
  {
    hide OnlyResumes, LockAll, UnlockAll, SlotWrites, SlotPlan;
    var last := [SetTrack(t, StateRow(call, t))];
    UntouchedOnlyResumes(last, a);
    if ShareOf(call, t) == 0 {
      LockAllSkips(w, before, ids, t, call, a);
      UntouchedOnlyResumes(LockAll(w, before, ids, t, call), a);
      OnlyResumesConcat(LockAll(w, before, ids, t, call), last, a);
    } else {
      var resumed := UnlockAll(w, before, ids, call);
      UnlockAllResumes(w, before, ids, call, a);
      if cfg.slotBudget > 0 {
        var plan := SlotPlan(call.core, call.lab, cfg.slotBudget, labAgents);
        var settings := SlotWrites(before, ids, if t.Core? then plan.core else plan.perLabAgent);
        SlotWritesHarmless(before, ids, if t.Core? then plan.core else plan.perLabAgent);
        UntouchedOnlyResumes(settings, a);
        OnlyResumesConcat(resumed, settings, a);
        OnlyResumesConcat(resumed + settings, last, a);
      }
    }
  }

  lemma PlanOnlyResumes(cfg: Config, w: World, call: Call, a: string)
    requires a in w.agents && w.agents[a].status.Paused? && LeavesUnlocked(cfg, w, call, a)
    ensures OnlyResumes(AllocationPlan(cfg, w, call).writes, a)
  {
    hide OnlyResumes, TrackPlan, Resolve;
    var policies := PolicyWrites(cfg, call);
    UntouchedOnlyResumes([], a);
    UntouchedOnlyResumes(policies, a);
    if Resolvable(cfg, w) {
      ResolvedExist(w.roster, w.agents, cfg.core);
      ResolvedExist(w.roster, w.agents, cfg.lab);
      var core, lab := AgentsOf(cfg, w, Core).value, AgentsOf(cfg, w, Lab).value;
      var w0 := Exec(w, policies);
      var first := CorePlan(cfg, w, call).writes;
      hide Exec, PolicyWrites;
      TrackOnlyResumes(cfg, w0, w.agents, Core, core, |lab|, call, a);
      TrackOnlyResumes(cfg, Exec(w0, first), w.agents, Lab, lab, |lab|, call, a);
      OnlyResumesConcat(policies, first, a);
      OnlyResumesConcat(policies + first, LabPlan(cfg, w, call).writes, a);
    }
  }

  /******* The world a cut leaves *******/

  lemma {:induction false} AwakeStays(w: World, ws: seq<Write>, a: string)
    requires a in w.agents && !w.agents[a].status.Paused? && forall x :: x in ws ==> !(x.SetPaused? && x.agent == a)
    ensures var w' := Exec(w, ws); a in w'.agents && !w'.agents[a].status.Paused?
    decreases |ws|
  {
    if ws != [] {
      assert ws[0] in ws && forall x :: x in ws[1..] ==> x in ws;
      AwakeStays(Apply(w, ws[0]), ws[1..], a);
    }
  }

  lemma {:induction false} ResumedIsAwake(w: World, ws: seq<Write>, a: string)
    requires a in w.agents && SetIdle(a) in ws && forall x :: x in ws ==> !(x.SetPaused? && x.agent == a)
    ensures var w' := Exec(w, ws); a in w'.agents && !w'.agents[a].status.Paused?
    decreases |ws|
  {
    assert ws[0] in ws && forall x :: x in ws[1..] ==> x in ws;
    assert ws == [ws[0]] + ws[1..];
    if ws[0] == SetIdle(a) {
      AwakeStays(Apply(w, ws[0]), ws[1..], a);
    } else {
      ResumedIsAwake(Apply(w, ws[0]), ws[1..], a);
    }
  }

  lemma ReleasedMeansResumed(ws: seq<Write>, j: nat, a: string)
    requires OnlyResumes(ws, a) && j < |ws| && ws[j].Release? && ws[j].agent == a
    ensures SetIdle(a) in ws
  {
    assert ws[j - 1] in ws;
  }

  /** Such writes leave the agent and its row alone until it is resumed, and awake from then on. */
  lemma CutLeaves(w: World, ws: seq<Write>, a: string)
    requires a in w.agents && OnlyResumes(ws, a)
    ensures var w' := Exec(w, ws);
            && a in w'.agents
            && (SetIdle(a) !in ws
                ==> w'.agents[a].status == w.agents[a].status && Lookup(w'.ledger, a) == Lookup(w.ledger, a))
            && (SetIdle(a) in ws ==> !w'.agents[a].status.Paused?)
  {
    if SetIdle(a) in ws {
      ResumedIsAwake(w, ws, a);
    } else {
      forall x | x in ws ensures !Touches(x, a) {
        var j :| 0 <= j < |ws| && ws[j] == x;
        if x.Release? && x.agent == a { ReleasedMeansResumed(ws, j, a); }
      }
      UntouchedStays(w, ws, a);
    }
  }

  function Inserts(rows: seq<PolicyRow>): seq<Write> {
    if rows == [] then [] else [InsertPolicy(rows[0])] + Inserts(rows[1..])
  }

  lemma {:induction false} InsertsAppend(w: World, rows: seq<PolicyRow>)
    ensures Exec(w, Inserts(rows)) == w.(policies := w.policies + rows)
    decreases |rows|
  {
    if rows == [] {
      assert w.policies + rows == w.policies;
    } else {
      FirstThenRest(w, InsertPolicy(rows[0]), Inserts(rows[1..]));
      InsertsAppend(Apply(w, InsertPolicy(rows[0])), rows[1..]);
      hide Exec;
      assert w.policies + [rows[0]] + rows[1..] == w.policies + rows;
    }
  }

  lemma FirstThenRest(w: World, x: Write, rest: seq<Write>)
    ensures Exec(w, [x] + rest) == Exec(Apply(w, x), rest)
  {
    assert ([x] + rest)[1..] == rest;
  }

  lemma {:induction false} InsertsOfPrefix(rows: seq<PolicyRow>, k: nat)
    requires k <= |rows|
    ensures |Inserts(rows)| == |rows| && Inserts(rows)[..k] == Inserts(rows[..k])
    ensures forall row :: InsertPolicy(row) in Inserts(rows) <==> row in rows
    decreases |rows|
  {
    if rows != [] {
      InsertsOfPrefix(rows[1..], if k > 0 then k - 1 else 0);
      assert rows == [rows[0]] + rows[1..];
      if k > 0 { assert rows[..k][1..] == rows[1..][..k - 1]; }
    }
  }

  lemma {:induction false} OthersKeepPolicies(w: World, ws: seq<Write>)
    requires forall x :: x in ws ==> !x.InsertPolicy?
    ensures Exec(w, ws).policies == w.policies && Exec(w, ws).mandates == w.mandates
    decreases |ws|
  {
    if ws != [] {
      assert ws[0] in ws && forall x :: x in ws[1..] ==> x in ws;
      OthersKeepPolicies(Apply(w, ws[0]), ws[1..]);
    }
  }

  lemma NoInsertsInTrack(
      cfg: Config, w: World, before: map<string, Agent>, t: Split, ids: seq<string>, labAgents: nat, call: Call)
    requires Listed(before, ids)
    ensures forall x :: x in TrackPlan(cfg, w, before, t, ids, labAgents, call).writes ==> !x.InsertPolicy?
  {
    hide SlotPlan;
    if ShareOf(call, t) == 0 {
      LockAllInserts(w, before, ids, t, call);
    } else {
      UnlockAllOnlyResumes(w, before, ids, call);
      if cfg.slotBudget > 0 {
        var plan := SlotPlan(call.core, call.lab, cfg.slotBudget, labAgents);
        SlotWritesInsertNothing(before, ids, if t.Core? then plan.core else plan.perLabAgent);
      }
    }
  }

  lemma {:induction false} LockAllInserts(w: World, before: map<string, Agent>, ids: seq<string>, t: Split, call: Call)
    requires Listed(before, ids)
    ensures forall x :: x in LockAll(w, before, ids, t, call) ==> !x.InsertPolicy?
    decreases |ids|
  {
    if ids != [] { LockAllInserts(Exec(w, LockAgent(w, before[ids[0]], ids[0], t, call)), before, ids[1..], t, call); }
  }

  lemma {:induction false} SlotWritesInsertNothing(before: map<string, Agent>, ids: seq<string>, slots: int)
    requires Listed(before, ids)
    ensures forall x :: x in SlotWrites(before, ids, slots) ==> !x.InsertPolicy?
  {
    if ids != [] { SlotWritesInsertNothing(before, ids[1..], slots); }
  }

  /** A call that goes ahead begins with its four rows and inserts no other. */
  lemma PlanBeginsWithRows(cfg: Config, w: World, call: Call) returns (rest: seq<Write>)
    requires Acceptable(call) && !Declines(w, call)
    ensures AllocationPlan(cfg, w, call).writes == Inserts(NewRows(cfg, call)) + rest
    ensures forall x :: x in rest ==> !x.InsertPolicy?
  {
    RowsAreInserts(cfg, call);
    hide TrackPlan, Resolve, Inserts, NewRows, PolicyWrites;
    var policies := PolicyWrites(cfg, call);
    rest := [];
    assert policies + [] == policies;
    if Resolvable(cfg, w) {
      ResolvedExist(w.roster, w.agents, cfg.core);
      ResolvedExist(w.roster, w.agents, cfg.lab);
      var core, lab := AgentsOf(cfg, w, Core).value, AgentsOf(cfg, w, Lab).value;
      var w0 := Exec(w, policies);
      var first := CorePlan(cfg, w, call);
      hide Exec;
      NoInsertsInTrack(cfg, w0, w.agents, Core, core, |lab|, call);
      NoInsertsInTrack(cfg, Exec(w0, first.writes), w.agents, Lab, lab, |lab|, call);
      rest := first.writes + if first.outcome.Applied? then LabPlan(cfg, w, call).writes else [];
      assert policies + first.writes + [] == policies + (first.writes + []);
      assert policies + first.writes + LabPlan(cfg, w, call).writes
             == policies + (first.writes + LabPlan(cfg, w, call).writes);
    }
  }

  lemma RowsAreInserts(cfg: Config, call: Call)
    ensures PolicyWrites(cfg, call) == Inserts(NewRows(cfg, call))
  {
    var rows := NewRows(cfg, call);
    var a, b, c, d := rows[0], rows[1], rows[2], rows[3];
    hide ShareRow, LockRow;
    assert Inserts([d]) == [InsertPolicy(d)] by { assert [d][1..] == []; }
    assert Inserts([c, d]) == [InsertPolicy(c), InsertPolicy(d)] by { assert [c, d][1..] == [d]; }
    assert Inserts([b, c, d]) == [InsertPolicy(b), InsertPolicy(c), InsertPolicy(d)]
           by { assert [b, c, d][1..] == [c, d]; }
    assert rows[1..] == [b, c, d];
  }

  /** The rows that are stored once k writes of the call are made. */
  function Written(cfg: Config, call: Call, k: nat): seq<PolicyRow> {
    NewRows(cfg, call)[..Min(k, 4)]
  }

  lemma CutPolicies(cfg: Config, w: World, call: Call, k: nat)
    requires Acceptable(call) && !Declines(w, call) && k <= |AllocationPlan(cfg, w, call).writes|
    ensures var ws := AllocationPlan(cfg, w, call).writes[..k];
            && Exec(w, ws).policies == w.policies + Written(cfg, call, k) && Exec(w, ws).mandates == w.mandates
            && forall row :: InsertPolicy(row) in ws <==> row in Written(cfg, call, k)
  {
    var rows := NewRows(cfg, call);
    var rest := PlanBeginsWithRows(cfg, w, call);
    assert |rows| == 4;
    hide AllocationPlan, NewRows, Exec, Inserts;
    RowsThenMore(w, rows, rest, k);
  }

  /** A cut of rows followed by other writes. */
  lemma RowsThenMore(w: World, rows: seq<PolicyRow>, rest: seq<Write>, k: nat)
    requires (forall x :: x in rest ==> !x.InsertPolicy?) && k <= |Inserts(rows)| + |rest|
    ensures var ws, written := (Inserts(rows) + rest)[..k], rows[..Min(k, |rows|)];
            && Exec(w, ws).policies == w.policies + written && Exec(w, ws).mandates == w.mandates
            && forall row :: InsertPolicy(row) in ws <==> row in written
  {
    hide Exec, Inserts;
    var n := Min(k, |rows|);
    InsertsOfPrefix(rows, n);
    InsertsOfPrefix(rows[..n], n);
    InsertsAppend(w, rows[..n]);
    CutOfConcat(Inserts(rows), rest, k);
    var more := if k <= |rows| then [] else rest[..k - |rows|];
    ExecConcat(w, Inserts(rows[..n]), more);
    OthersKeepPolicies(Exec(w, Inserts(rows[..n])), more);
  }

  lemma CutOfConcat(xs: seq<Write>, ys: seq<Write>, k: nat)
    requires k <= |xs| + |ys|
    ensures (xs + ys)[..k] == xs[..Min(k, |xs|)] + if k <= |xs| then [] else ys[..k - |xs|]
  {
  }

  /** A row of another key does not change what is resolved for this one. */
  lemma OtherKeysDoNotMatter(rows: seq<PolicyRow>, more: seq<PolicyRow>, mandates: seq<Mandate>, a: Asker, key: string)
    requires forall row :: row in more ==> row.key != key
    ensures Effective(rows + more, mandates, a, key) == Effective(rows, mandates, a, key)
  {
    OtherKeysAddNothing(rows, more, a, key);
    hide TopClass;
  }

  lemma {:induction false} OtherKeysAddNothing(rows: seq<PolicyRow>, more: seq<PolicyRow>, a: Asker, key: string)
    requires forall row :: row in more ==> row.key != key
    ensures RowCandidates(rows + more, a, key) == RowCandidates(rows, a, key)
    decreases |more|
  {
    if more == [] {
      assert rows + more == rows;
    } else {
      var front := more[..|more| - 1];
      assert (rows + more)[..|rows + more| - 1] == rows + front;
      assert more[|more| - 1] in more;
      OtherKeysAddNothing(rows, front, a, key);
    }
  }

  lemma WrittenKeys(cfg: Config, call: Call, track: Split, k: nat)
    ensures forall row :: row in Written(cfg, call, k) ==> row in NewRows(cfg, call)
    ensures ShareRow(cfg, call, track) !in Written(cfg, call, k) ==>
              forall row :: row in Written(cfg, call, k) ==> row.key != AllocationKey(track)
  {
    KeysDiffer();
    var rows := NewRows(cfg, call);
    assert rows[0] == ShareRow(cfg, call, Core) && rows[1] == ShareRow(cfg, call, Lab);
    forall row | row in Written(cfg, call, k) ensures row in rows {}
    if k >= 2 {
      assert Written(cfg, call, k)[0] == rows[0] && Written(cfg, call, k)[1] == rows[1];
    } else if k == 1 {
      assert Written(cfg, call, k) == [rows[0]];
      assert Written(cfg, call, k)[0] == rows[0];
    }
  }

  /** The track reads unlocked exactly from the moment its share row is stored. */
  lemma CutVerdict(cfg: Config, w: World, t: Time, call: Call, track: Split, k: nat, now: Time)
    requires Orderly(cfg, w.policies, t) && t < call.at && Acceptable(call) && !Declines(w, call)
             && ShareOf(call, track) > 0
    requires k <= |AllocationPlan(cfg, w, call).writes| && TrackVerdict(cfg, w, track, now).NotPositive?
    ensures var ws := AllocationPlan(cfg, w, call).writes[..k];
            var verdict := TrackVerdict(cfg, Exec(w, ws), track, now);
            if InsertPolicy(ShareRow(cfg, call, track)) in ws then verdict.Positive? else verdict.NotPositive?
  {
    var share, written, asker := ShareRow(cfg, call, track), Written(cfg, call, k), AskerOf(cfg, None, track, now);
    CutPolicies(cfg, w, call, k);
    WrittenKeys(cfg, call, track, k);
    PositiveShareReads(cfg, call, track);
    assert share.key == AllocationKey(track);
    hide Effective, AllocationPlan, Exec, Written, ReadShare, NewRows, ShareRow;
    if share in written {
      NewRowDecides(cfg, w.policies, w.mandates, t, call, written, asker, track, share);
    } else {
      OtherKeysDoNotMatter(w.policies, written, w.mandates, asker, AllocationKey(track));
    }
  }

  lemma PositiveShareReads(cfg: Config, call: Call, track: Split)
    ensures ReadShare(Some(OfRow(ShareRow(cfg, call, track)))).Positive? <==> ShareOf(call, track) > 0
  {
  }

  /******* Which cuts strand *******/

  /** The world a restart makes of a call that died after k writes. */
  function Restarted(cfg: Config, w: World, call: Call, k: nat, order: seq<string>, now: Time): World
    requires k <= |AllocationPlan(cfg, w, call).writes|
  {
    Reconcile(cfg, Exec(w, AllocationPlan(cfg, w, call).writes[..k]), order, now)
  }

  /** An agent the bridge holds on a locked track, which the call is to unlock. */
  ghost predicate HeldByLock(cfg: Config, w: World, track: Split, a: string, now: Time) {
    && IsOpen(w.ledger, a) && w.ledger[a].track == track
    && a in w.agents && w.agents[a].status.Paused?
    && TrackVerdict(cfg, w, track, now).NotPositive?
  }

  /**
   A crash in an unlocking call strands a held agent exactly if it falls after the track's share row
   is stored and before the agent is resumed, and the restart pass gets to the agent's row. A resume
   that the call refuses is never made, so for such an agent also the completed call is such a cut.
   */
  lemma CrashedUnlockStrandsExactly(
    cfg: Config, w: World, t: Time, call: Call, track: Split, a: string, k: nat, order: seq<string>, now: Time)
    requires Orderly(cfg, w.policies, t) && t < call.at && Acceptable(call) && !Declines(w, call)
    requires ShareOf(call, track) > 0 && HeldByLock(cfg, w, track, a, now) && LeavesUnlocked(cfg, w, call, a)
    requires k <= |AllocationPlan(cfg, w, call).writes|
    requires Enumerates(order, Exec(w, AllocationPlan(cfg, w, call).writes[..k]))
    ensures var ws := AllocationPlan(cfg, w, call).writes[..k];
            Stranded(Restarted(cfg, w, call, k, order, now), a)
            <==> && InsertPolicy(ShareRow(cfg, call, track)) in ws
                 && SetIdle(a) !in ws
                 && Reaches(cfg, Exec(w, ws), order, a, now)
  {
    var ws := AllocationPlan(cfg, w, call).writes[..k];
    var cut := Exec(w, ws);
    PlanOnlyResumes(cfg, w, call, a);
    OnlyResumesPrefix(AllocationPlan(cfg, w, call).writes, k, a);
    CutLeaves(w, ws, a);
    CutVerdict(cfg, w, t, call, track, k, now);
    LedgerOnlyGrows(w, ws, a);
    hide AllocationPlan, Exec, Reconcile, TrackVerdict, ShareRow, Orderly, OnlyResumes, Reaches, Resolve,
         LeavesUnlocked;
    PassStrandsExactly(cfg, cut, order, a, now);
    if SetIdle(a) !in ws {
      assert Lookup(cut.ledger, a) == Some(w.ledger[a]);
    }
  }

  lemma {:induction false} LedgerOnlyGrows(w: World, ws: seq<Write>, a: string)
    requires a in w.ledger
    ensures a in Exec(w, ws).ledger
    decreases |ws|
  {
    if ws != [] { LedgerOnlyGrows(Apply(w, ws[0]), ws[1..], a); }
  }

  /** For instance every cut between the two share rows and the first resume: nobody is resumed that early. */
  lemma CutsAmongTheRowsStrand(
    cfg: Config, w: World, t: Time, call: Call, track: Split, a: string, k: nat, order: seq<string>, now: Time)
    requires Orderly(cfg, w.policies, t) && t < call.at && Acceptable(call) && !Declines(w, call)
    requires ShareOf(call, track) > 0 && HeldByLock(cfg, w, track, a, now) && LeavesUnlocked(cfg, w, call, a)
    requires 2 <= k <= 4 && k <= |AllocationPlan(cfg, w, call).writes|
    requires Enumerates(order, Exec(w, AllocationPlan(cfg, w, call).writes[..k]))
    requires Reaches(cfg, Exec(w, AllocationPlan(cfg, w, call).writes[..k]), order, a, now)
    ensures Stranded(Restarted(cfg, w, call, k, order, now), a)
  {
    var rows, ws := NewRows(cfg, call), AllocationPlan(cfg, w, call).writes[..k];
    var rest := PlanBeginsWithRows(cfg, w, call);
    var share := ShareRow(cfg, call, track);
    assert |rows| == 4 && rows[0] == ShareRow(cfg, call, Core) && rows[1] == ShareRow(cfg, call, Lab);
    assert rows[..k][0] == rows[0] && rows[..k][1] == rows[1] && share in rows[..k];
    InsertsOfPrefix(rows, k);
    InsertsOfPrefix(rows[..k], k);
    hide AllocationPlan, NewRows, Inserts, Exec, ShareRow, Reaches, Enumerates, Restarted;
    CutOfConcat(Inserts(rows), rest, k);
    assert ws == Inserts(rows[..k]) by { assert Inserts(rows)[..k] + [] == Inserts(rows)[..k]; }
    InsertsAreInserts(rows[..k]);
    CrashedUnlockStrandsExactly(cfg, w, t, call, track, a, k, order, now);
  }

  lemma {:induction false} InsertsAreInserts(rows: seq<PolicyRow>)
    ensures forall x :: x in Inserts(rows) ==> x.InsertPolicy?
    decreases |rows|
  {
    if rows != [] { InsertsAreInserts(rows[1..]); }
  }

  /** And it stays so: no run of calls and passes that never locks a track of the agent resumes it. */
  lemma CrashedUnlockStrandsForGood(
    cfg: Config, w: World, t: Time, call: Call, track: Split, a: string, k: nat, order: seq<string>, now: Time,
    acts: seq<Act>)
    requires Orderly(cfg, w.policies, t) && t < call.at && Acceptable(call) && !Declines(w, call)
    requires ShareOf(call, track) > 0 && HeldByLock(cfg, w, track, a, now) && LeavesUnlocked(cfg, w, call, a)
    requires k <= |AllocationPlan(cfg, w, call).writes|
    requires Enumerates(order, Exec(w, AllocationPlan(cfg, w, call).writes[..k]))
    requires var ws := AllocationPlan(cfg, w, call).writes[..k];
             && InsertPolicy(ShareRow(cfg, call, track)) in ws && SetIdle(a) !in ws
             && Reaches(cfg, Exec(w, ws), order, a, now)
    requires OnlyPauses(acts, a) && NeverRelocked(cfg, Restarted(cfg, w, call, k, order, now), acts, a)
    ensures Stranded(RunActs(cfg, Restarted(cfg, w, call, k, order, now), acts), a)
  {
    hide *;
    CrashedUnlockStrandsExactly(cfg, w, t, call, track, a, k, order, now);
    StrandedForGood(cfg, Restarted(cfg, w, call, k, order, now), acts, a);
  }
}
