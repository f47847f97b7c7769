/**
 The allocation lock over values. A lock is recorded in five places (the allocation rows, the
 track_locked row, the agents' status, the pause ledger and the track state); a call writes them
 one by one, and a crash cuts the script of writes after any prefix.
 */
module Allocation {
  import opened Basics
  import opened Policy

  datatype Split = Core | Lab

  function TrackName(t: Split): string {
    match t
    case Core => "core"
    case Lab => "lab"
  }

  datatype Status = Paused | Awake(name: string)

  datatype Json = JNum(n: int) | JText(text: string) | JObj(fields: map<string, Json>)

  /** An agent as the work board keeps it; holds are the names of its lifecycle holds. */
  datatype Agent = Agent(
    name: string,
    role: string,
    status: Status,
    holds: seq<string>,
    runtimeConfig: map<string, Json>,
    metadata: map<string, Json>)

  /** What the bridge wrote down before it paused an agent; the row is open until it is released. */
  datatype LedgerRow = LedgerRow(
    track: Split,
    originalStatus: Status,
    originalHolds: seq<string>,
    pausedAt: Time,
    pausedBy: Option<string>,
    releasedAt: Option<Time>)

  datatype TrackRow = TrackRow(paused: bool, changedBy: string, changedAt: Time)

  /**
   Everything a control call reads and writes. roster is the order the board lists agents in.
   held is a history variable: the agents that the bridge was the last to pause.
   */
  datatype World = World(
    policies: seq<PolicyRow>,
    mandates: seq<Mandate>,
    roster: seq<string>,
    agents: map<string, Agent>,
    ledger: map<string, LedgerRow>,
    tracks: map<Split, TrackRow>,
    held: set<string>)

  datatype Write =
    | InsertPolicy(row: PolicyRow)
    | PutLedger(agent: string, entry: LedgerRow)
    | Release(agent: string, at: Time)
    | SetPaused(agent: string)
    | SetIdle(agent: string)
    | SetSlots(agent: string, runtimeConfig: map<string, Json>, metadata: map<string, Json>)
    | SetTrack(track: Split, state: TrackRow)

  const MANUAL: string := "manual"

  function DropManual(holds: seq<string>): seq<string> {
    if holds == [] then []
    else DropManual(holds[..|holds| - 1]) + if holds[|holds| - 1] == MANUAL then [] else [holds[|holds| - 1]]
  }

  /** Pausing adds the board's own manual hold and resuming clears it. */
  function Apply(w: World, x: Write): World {
    match x
    case InsertPolicy(row) => w.(policies := w.policies + [row])
    case PutLedger(a, entry) => w.(ledger := w.ledger[a := entry])
    case Release(a, at) =>
      if a !in w.ledger then w else w.(ledger := w.ledger[a := w.ledger[a].(releasedAt := Some(at))])
    case SetPaused(a) =>
      if a !in w.agents then w
      else
        var agent := w.agents[a];
        var holds := if MANUAL in agent.holds then agent.holds else agent.holds + [MANUAL];
        w.(agents := w.agents[a := agent.(status := Paused, holds := holds)],
           held := w.held + {a})
    case SetIdle(a) =>
      if a !in w.agents then w
      else
        var agent := w.agents[a].(status := Awake("idle"), holds := DropManual(w.agents[a].holds));
        w.(agents := w.agents[a := agent], held := w.held - {a})
    case SetSlots(a, config, metadata) =>
      if a !in w.agents then w
      else w.(agents := w.agents[a := w.agents[a].(runtimeConfig := config, metadata := metadata)])
    case SetTrack(t, state) => w.(tracks := w.tracks[t := state])
  }

  function Exec(w: World, ws: seq<Write>): World
    decreases |ws|
  {
    if ws == [] then w else Exec(Apply(w, ws[0]), ws[1..])
  }

  lemma {:induction false} ExecConcat(w: World, xs: seq<Write>, ys: seq<Write>)
    ensures Exec(w, xs + ys) == Exec(Exec(w, xs), ys)
    decreases |xs|
  {
    if xs == [] {
      assert xs + ys == ys;
    } else {
      assert (xs + ys)[1..] == xs[1..] + ys;
      ExecConcat(Apply(w, xs[0]), xs[1..], ys);
    }
  }

  /******* Who belongs to a track *******/

  datatype Selector = ByRole(value: string) | ByName(value: string) | Malformed

  datatype Config = Config(company: string, core: seq<Selector>, lab: seq<Selector>, slotBudget: int)

  predicate Matches(sel: Selector, agent: Agent) {
    match sel
    case ByRole(value) => agent.role == value
    case ByName(value) => agent.name == value
    case Malformed => false
  }

  function Hits(roster: seq<string>, agents: map<string, Agent>, sel: Selector): seq<string> {
    if roster == [] then []
    else
      (if roster[0] in agents && Matches(sel, agents[roster[0]]) then [roster[0]] else [])
      + Hits(roster[1..], agents, sel)
  }

  datatype SelectorError = BadSelector | NoMatch | ManyMatches

  /** Exact selectors only: each must name one agent. */
  function Resolve(roster: seq<string>, agents: map<string, Agent>,
      sels: seq<Selector>): Result<seq<string>, SelectorError> {
    if sels == [] then Ok([])
    else
      var front := Resolve(roster, agents, sels[..|sels| - 1]);
      var sel := sels[|sels| - 1];
      if front.Err? then front
      else if sel.Malformed? || sel.value == "" then Err(BadSelector)
      else
        var hits := Hits(roster, agents, sel);
        if |hits| == 0 then Err(NoMatch)
        else if |hits| > 1 then Err(ManyMatches)
        else Ok(front.value + [hits[0]])
  }

  function SelectorsOf(cfg: Config, t: Split): seq<Selector> {
    match t
    case Core => cfg.core
    case Lab => cfg.lab
  }

  function AgentsOf(cfg: Config, w: World, t: Split): Result<seq<string>, SelectorError> {
    Resolve(w.roster, w.agents, SelectorsOf(cfg, t))
  }

  /** The agent answers to this selector: it has exactly this role, or exactly this name. */
  ghost predicate AnswersTo(agents: map<string, Agent>, a: string, sel: Selector) {
    && a in agents
    && ((sel.ByRole? && agents[a].role == sel.value) || (sel.ByName? && agents[a].name == sel.value))
  }

  ghost predicate AnswersAt(roster: seq<string>, agents: map<string, Agent>, sel: Selector, k: int) {
    0 <= k < |roster| && AnswersTo(agents, roster[k], sel)
  }

  /** The selector names this agent of the roster and no other. */
  ghost predicate Names(roster: seq<string>, agents: map<string, Agent>, sel: Selector, id: string) {
    && !sel.Malformed? && sel.value != ""
    && exists k :: AnswersAt(roster, agents, sel, k) && roster[k] == id
                   && forall j :: AnswersAt(roster, agents, sel, j) ==> j == k
  }

  /** Why a selector resolves to nobody. */
  ghost predicate Unresolved(roster: seq<string>, agents: map<string, Agent>, sel: Selector, error: SelectorError) {
    match error
    case BadSelector => sel.Malformed? || sel.value == ""
    case NoMatch => !sel.Malformed? && sel.value != "" && forall k :: !AnswersAt(roster, agents, sel, k)
    case ManyMatches =>
      && !sel.Malformed? && sel.value != ""
      && exists j, k :: j < k && AnswersAt(roster, agents, sel, j) && AnswersAt(roster, agents, sel, k)
  }

  ghost predicate NamesOne(roster: seq<string>, agents: map<string, Agent>, sel: Selector) {
    exists id :: Names(roster, agents, sel, id)
  }

  /** The first of the selectors that resolves to nobody, and why. */
  ghost predicate FirstUnresolved(
      roster: seq<string>, agents: map<string, Agent>, sels: seq<Selector>, i: int, error: SelectorError)
  {
    && 0 <= i < |sels| && Unresolved(roster, agents, sels[i], error)
    && forall j :: 0 <= j < i ==> NamesOne(roster, agents, sels[j])
  }

  lemma LaterAnswers(roster: seq<string>, agents: map<string, Agent>, sel: Selector)
    requires roster != []
    ensures forall k :: k > 0 ==> AnswersAt(roster, agents, sel, k) == AnswersAt(roster[1..], agents, sel, k - 1)
    ensures forall k :: k >= 0 ==> AnswersAt(roster[1..], agents, sel, k) == AnswersAt(roster, agents, sel, k + 1)
    ensures AnswersAt(roster, agents, sel, 0) <==> roster[0] in agents && Matches(sel, agents[roster[0]])
    ensures forall k :: AnswersAt(roster[1..], agents, sel, k) ==> k >= 0
    ensures forall k :: AnswersAt(roster, agents, sel, k) ==> k >= 0
  {
  }

  /** None, one or several hits are none, one or several answers. */
  lemma {:induction false} HitsAreAnswers(roster: seq<string>, agents: map<string, Agent>, sel: Selector)
    ensures var hits := Hits(roster, agents, sel);
            && (|hits| == 0 ==> forall k :: !AnswersAt(roster, agents, sel, k))
            && (|hits| == 1 ==> exists k :: AnswersAt(roster, agents, sel, k) && roster[k] == hits[0]
                                            && forall j :: AnswersAt(roster, agents, sel, j) ==> j == k)
            && (|hits| > 0 ==> exists k :: AnswersAt(roster, agents, sel, k))
            && (|hits| > 1 ==>
                  exists j, k :: j < k && AnswersAt(roster, agents, sel, j) && AnswersAt(roster, agents, sel, k))
  {
    if roster != [] {
      var rest := roster[1..];
      var later := Hits(rest, agents, sel);
      LaterAnswers(roster, agents, sel);
      HitsAreAnswers(rest, agents, sel);
      hide AnswersAt, Matches;
      if later != [] {
        var k :| AnswersAt(rest, agents, sel, k);
        assert AnswersAt(roster, agents, sel, k + 1);
      }
      if |later| > 1 {
        var j, k :| j < k && AnswersAt(rest, agents, sel, j) && AnswersAt(rest, agents, sel, k);
        assert AnswersAt(roster, agents, sel, j + 1) && AnswersAt(roster, agents, sel, k + 1);
      }
      if |later| == 1 && !AnswersAt(roster, agents, sel, 0) {
        var k :| AnswersAt(rest, agents, sel, k) && rest[k] == later[0]
                 && forall j :: AnswersAt(rest, agents, sel, j) ==> j == k;
        assert AnswersAt(roster, agents, sel, k + 1) && roster[k + 1] == later[0];
      }
    }
  }

  /** What the last selector adds to what the ones before it resolve to. */
  lemma LastSelector(roster: seq<string>, agents: map<string, Agent>, sels: seq<Selector>)
    requires sels != []
    ensures var before, sel := Resolve(roster, agents, sels[..|sels| - 1]), sels[|sels| - 1];
            var r := Resolve(roster, agents, sels);
            && (before.Err? ==> r == before)
            && (before.Ok? && r.Ok? ==> |r.value| == |before.value| + 1 && r.value[..|before.value|] == before.value
                                        && Names(roster, agents, sel, r.value[|before.value|]))
            && (before.Ok? && r.Err? ==> Unresolved(roster, agents, sel, r.error))
  {
    HitsAreAnswers(roster, agents, sels[|sels| - 1]);
    hide AnswersAt, Hits;
  }

  /**
   Selectors are exact: they resolve, each to the one agent of the roster that has its role or its name, or
   else to the error of the first one that names nobody, or several, or says nothing.
   */
  lemma {:induction false} SelectorsNameOneEach(roster: seq<string>, agents: map<string, Agent>, sels: seq<Selector>)
    ensures var r := Resolve(roster, agents, sels);
            && (r.Ok? ==>
                  |r.value| == |sels| && forall i :: 0 <= i < |sels| ==> Names(roster, agents, sels[i], r.value[i]))
            && (r.Err? ==> exists i :: FirstUnresolved(roster, agents, sels, i, r.error))
  {
    if sels != [] {
      var front, sel := sels[..|sels| - 1], sels[|sels| - 1];
      SelectorsNameOneEach(roster, agents, front);
      LastSelector(roster, agents, sels);
      hide Resolve, AnswersAt, Names;
      var r, before := Resolve(roster, agents, sels), Resolve(roster, agents, front);
      if before.Err? {
        hide Unresolved, NamesOne;
        var i :| FirstUnresolved(roster, agents, front, i, before.error);
        assert FirstUnresolved(roster, agents, sels, i, before.error);
      } else if r.Err? {
        assert Unresolved(roster, agents, sel, r.error);
        hide Unresolved;
        forall j | 0 <= j < |front| ensures NamesOne(roster, agents, sels[j]) {
          assert Names(roster, agents, front[j], before.value[j]);
        }
        assert FirstUnresolved(roster, agents, sels, |front|, r.error);
      }
    }
  }

  lemma {:induction false} HitsExist(roster: seq<string>, agents: map<string, Agent>, sel: Selector)
    ensures forall id :: id in Hits(roster, agents, sel) ==> id in agents
  {
    if roster != [] { HitsExist(roster[1..], agents, sel); }
  }

  lemma {:induction false} ResolvedExist(roster: seq<string>, agents: map<string, Agent>, sels: seq<Selector>)
    ensures var r := Resolve(roster, agents, sels); r.Ok? ==> forall id :: id in r.value ==> id in agents
  {
    if sels != [] {
      ResolvedExist(roster, agents, sels[..|sels| - 1]);
      HitsExist(roster, agents, sels[|sels| - 1]);
    }
  }

  /** The same people under the same names and roles. */
  ghost predicate SamePeople(a: map<string, Agent>, b: map<string, Agent>) {
    a.Keys == b.Keys && forall id :: id in a ==> a[id].name == b[id].name && a[id].role == b[id].role
  }

  lemma {:induction false} HitsStable(roster: seq<string>, a: map<string, Agent>, b: map<string, Agent>, sel: Selector)
    requires SamePeople(a, b)
    ensures Hits(roster, a, sel) == Hits(roster, b, sel)
  {
    if roster != [] { HitsStable(roster[1..], a, b, sel); }
  }

  lemma {:induction false} ResolveStable(roster: seq<string>, a: map<string, Agent>, b: map<string, Agent>,
      sels: seq<Selector>)
    requires SamePeople(a, b)
    ensures Resolve(roster, a, sels) == Resolve(roster, b, sels)
  {
    if sels != [] {
      ResolveStable(roster, a, b, sels[..|sels| - 1]);
      HitsStable(roster, a, b, sels[|sels| - 1]);
    }
  }

  /******* Holds *******/

  /** A hold name, or the one odd element that the recorded text of a non-empty list reads back as. */
  datatype Hold = Plain(name: string) | Garbled(of: seq<string>)

  function HoldsOf(names: seq<string>): set<Hold> {
    set n | n in names :: Plain(n)
  }

  /** The ledger stores the printed list, which only parses back when it is empty. */
  function RecordedHolds(original: seq<string>): set<Hold> {
    if original == [] then {} else {Garbled(original)}
  }

  predicate RefusesResume(agent: Agent, entry: LedgerRow) {
    HoldsOf(agent.holds) != {} && RecordedHolds(entry.originalHolds) != HoldsOf(agent.holds) - {Plain(MANUAL)}
  }

  /** A resume goes ahead exactly when no hold is left, or nothing was recorded and only our own hold is. */
  lemma ResumeGoesAheadExactly(agent: Agent, entry: LedgerRow)
    ensures !RefusesResume(agent, entry)
            <==> agent.holds == [] || (entry.originalHolds == [] && forall h :: h in agent.holds ==> h == MANUAL)
  {
    var others := HoldsOf(agent.holds) - {Plain(MANUAL)};
    assert forall h :: h in agent.holds ==> Plain(h) in HoldsOf(agent.holds);
    assert agent.holds != [] ==> Plain(agent.holds[0]) in HoldsOf(agent.holds);
    assert Garbled(entry.originalHolds) !in others;
    if forall h :: h in agent.holds ==> h == MANUAL {
      assert others == {};
    } else {
      var h :| h in agent.holds && h != MANUAL;
      assert Plain(h) in others;
    }
  }

  /**
   The rule is meant to let an agent go whose holds, ours aside, are what they were. For such an
   agent it does so exactly when it had none to begin with, or has none left.
   */
  lemma UnchangedHoldsAreRefusedIfAny(agent: Agent, entry: LedgerRow)
    requires HoldsOf(entry.originalHolds) - {Plain(MANUAL)} == HoldsOf(agent.holds) - {Plain(MANUAL)}
    ensures !RefusesResume(agent, entry) <==> entry.originalHolds == [] || agent.holds == []
  {
    ResumeGoesAheadExactly(agent, entry);
    assert entry.originalHolds == [] ==> HoldsOf(entry.originalHolds) == {};
    assert forall h :: h in agent.holds && h != MANUAL ==> Plain(h) in HoldsOf(agent.holds) - {Plain(MANUAL)};
  }

  const CAPPED_AGENT: Agent := Agent("Ada", "engineer", Paused, ["budget", MANUAL], map[], map[])
  const CAPPED_ENTRY: LedgerRow := LedgerRow(Core, Awake("active"), ["budget"], 0, None, None)

  /** For instance an agent with a hold of its own, which nobody has touched since, stays paused. */
  lemma OwnHoldsRefuseTheResume()
    ensures HoldsOf(CAPPED_ENTRY.originalHolds) - {Plain(MANUAL)} == HoldsOf(CAPPED_AGENT.holds) - {Plain(MANUAL)}
    ensures RefusesResume(CAPPED_AGENT, CAPPED_ENTRY)
  {
    assert "budget"[0] == 'b' && MANUAL[0] == 'm';
    assert HoldsOf(["budget", MANUAL]) == {Plain("budget"), Plain(MANUAL)} by {
      assert ["budget", MANUAL][0] == "budget" && ["budget", MANUAL][1] == MANUAL;
    }
    assert HoldsOf(["budget"]) == {Plain("budget")} by { assert ["budget"][0] == "budget"; }
    UnchangedHoldsAreRefusedIfAny(CAPPED_AGENT, CAPPED_ENTRY);
  }

  /******* Slots *******/

  datatype Slots = Slots(core: int, perLabAgent: int)

  function SlotPlan(core: int, lab: int, budget: int, labAgents: nat): Slots
    requires budget > 0
  {
    var coreSlots := if core > 0 then Max(1, RoundHalfEven(budget * core, 100)) else 0;
    var labSlots := budget - coreSlots;
    Slots(coreSlots, if labSlots > 0 && labAgents > 0 then Max(1, labSlots / labAgents) else 0)
  }

  lemma CoreFits(core: int, budget: int)
    requires budget > 0 && 0 < core <= 100
    ensures 1 <= Max(1, RoundHalfEven(budget * core, 100)) <= budget
  {
    MoreIsMore(budget, core, 100);
    PercentFits(budget * core, budget);
  }

  lemma MoreIsMore(n: int, x: int, y: int)
    requires n > 0 && x <= y
    ensures n * x <= n * y
  {
  }

  lemma PercentFits(num: int, n: int)
    requires num <= 100 * n
    ensures RoundHalfEven(num, 100) <= n
  {
    hide RoundHalfEven;
    var r := RoundHalfEven(num, 100);
    assert 2 * r * 100 == 200 * r;
  }

  lemma Shared(left: int, n: int)
    requires left > 0 && n > 0
    ensures n * Max(1, left / n) > left <==> left < n
  {
    if left < n {
      assert left / n == 0;
    } else {
      assert n * (left / n) <= left;
      assert left / n >= 1;
    }
  }

  /**
   So many slots are core's share of the budget: none for no share, one for anything below half a
   slot, and otherwise the nearest number, the even one of two that are equally near. At exactly half
   a slot the even number would be none, and the least a share gets is one.
   */
  predicate CoreDue(core: int, budget: int, slots: int) {
    && (core == 0 ==> slots == 0)
    && (core > 0 && 2 * budget * core <= 100 ==> slots == 1)
    && (core > 0 && 2 * budget * core > 100 ==> -50 <= 100 * slots - budget * core <= 50)
    && (core > 0 && 2 * budget * core > 100 && budget * core % 100 == 50 ==> slots % 2 == 0)
  }

  /** So many slots are one lab agent's part of what is left: an even part rounded down, but one at least. */
  predicate LabDue(left: int, labAgents: nat, slots: int) {
    && (left <= 0 || labAgents == 0 ==> slots == 0)
    && (0 < left < labAgents ==> slots == 1)
    && (0 < labAgents <= left ==> labAgents * slots <= left < labAgents * (slots + 1))
  }

  /**
   The plan is what is due to each, never gives core more than the budget, and together the tracks
   exceed it exactly when there are fewer slots left than lab agents; lab gets nothing exactly when
   none are left.
   */
  lemma SlotPlanFits(core: int, lab: int, budget: int, labAgents: nat)
    requires budget > 0 && 0 <= core <= 100 && core + lab == 100
    ensures var p := SlotPlan(core, lab, budget, labAgents);
            && CoreDue(core, budget, p.core) && LabDue(budget - p.core, labAgents, p.perLabAgent)
            && 0 <= p.core <= budget && (p.core == 0 <==> core == 0)
            && (p.core + labAgents * p.perLabAgent > budget <==> 0 < budget - p.core < labAgents)
            && (p.perLabAgent == 0 <==> labAgents == 0 || p.core == budget)
  {
    if core > 0 {
      CoreFits(core, budget);
      CoreGetsItsDue(core, budget);
    }
    var p := SlotPlan(core, lab, budget, labAgents);
    LabGetsItsDue(budget - p.core, labAgents);
    hide RoundHalfEven, LabDue;
    if core == 0 { assert CoreDue(0, budget, 0); }
    hide CoreDue;
  }

  lemma LabGetsItsDue(left: int, labAgents: nat)
    requires left >= 0
    ensures var per := if left > 0 && labAgents > 0 then Max(1, left / labAgents) else 0;
            && LabDue(left, labAgents, per) && (labAgents * per > left <==> 0 < left < labAgents)
            && (per == 0 <==> labAgents == 0 || left == 0)
  {
    if left > 0 && labAgents > 0 { Shared(left, labAgents); }
    if 0 < labAgents <= left { EvenShares(left, labAgents); }
    if 0 < left < labAgents { assert left / labAgents == 0; }
  }

  lemma CoreGetsItsDue(core: int, budget: int)
    requires budget > 0 && core > 0
    ensures CoreDue(core, budget, Max(1, RoundHalfEven(budget * core, 100)))
  {
    hide RoundHalfEven;
    MoreIsMore(budget, 1, core);
    HalvesGoToTheEvenOne(budget * core);
  }

  lemma HalvesGoToTheEvenOne(n: int)
    requires n > 0
    ensures var r := Max(1, RoundHalfEven(n, 100));
            if 2 * n <= 100 then r == 1 else -50 <= 100 * r - n <= 50 && (n % 100 == 50 ==> r % 2 == 0)
  {
  }

  /** No two numbers of slots are due at once. */
  lemma OneNumberIsDue(core: int, budget: int, x: int, y: int)
    requires budget > 0 && core >= 0 && CoreDue(core, budget, x) && CoreDue(core, budget, y)
    ensures x == y
  {
    MoreIsMore(budget, 0, core);
  }

  lemma OnePartIsDue(left: int, labAgents: nat, x: int, y: int)
    requires LabDue(left, labAgents, x) && LabDue(left, labAgents, y)
    ensures x == y
  {
    if 0 < labAgents <= left {
      if x < y {
        MoreIsMore(labAgents, x + 1, y);
      } else {
        MoreIsMore(labAgents, y + 1, x + 1);
        if y < x { MoreIsMore(labAgents, y + 1, x); }
      }
    }
  }

  lemma EvenShares(left: int, n: int)
    requires 0 < n <= left
    ensures Max(1, left / n) == left / n && n * (left / n) <= left < n * (left / n + 1)
  {
    assert left == n * (left / n) + left % n;
    assert n * (left / n + 1) == n * (left / n) + n;
  }

  function FieldsOf(m: map<string, Json>, key: string): map<string, Json> {
    if key in m && m[key].JObj? then m[key].fields else map[]
  }

  const HEARTBEAT: string := "heartbeat"
  const MAX_RUNS: string := "maxConcurrentRuns"
  const OUR_KEY: string := "opcBridgeAllocation"

  /** The whole settings object is replaced on a patch, so the rest of it is sent along. */
  function MergeConfig(config: map<string, Json>, slots: int): map<string, Json> {
    config[HEARTBEAT := JObj(FieldsOf(config, HEARTBEAT)[MAX_RUNS := JNum(slots)])]
  }

  function MergeMetadata(metadata: map<string, Json>, slots: int): map<string, Json> {
    metadata[OUR_KEY := JObj(map[MAX_RUNS := JNum(slots)])]
  }

  /** What the two settings objects say of an agent's slots. */
  predicate CarriesSlots(agent: Agent, slots: int) {
    && Lookup(FieldsOf(agent.runtimeConfig, HEARTBEAT), MAX_RUNS) == Some(JNum(slots))
    && Lookup(FieldsOf(agent.metadata, OUR_KEY), MAX_RUNS) == Some(JNum(slots))
  }

  /******* The call *******/

  datatype Call = Call(
    core: int,
    lab: int,
    adaptive: bool,
    actor: string,
    event: Option<string>,
    at: Time)

  function ShareOf(call: Call, t: Split): int {
    match t
    case Core => call.core
    case Lab => call.lab
  }

  function AllocationKey(t: Split): string {
    match t
    case Core => ALLOCATION_CORE
    case Lab => ALLOCATION_LAB
  }

  predicate Acceptable(call: Call) {
    0 <= call.core <= 100 && 0 <= call.lab <= 100 && call.core + call.lab == 100
  }

  predicate OperatorAllocates(rows: seq<PolicyRow>, now: Time) {
    exists row ::
      row in rows && IsActive(row, now) && row.priority == OPERATOR && row.key in {ALLOCATION_CORE, ALLOCATION_LAB}
  }

  predicate Declines(w: World, call: Call) {
    call.adaptive && OperatorAllocates(w.policies, call.at)
  }

  function PriorityOf(call: Call): int {
    if call.adaptive then ADAPTIVE else OPERATOR
  }

  function ShareRow(cfg: Config, call: Call, t: Split): PolicyRow {
    PolicyRow(
      call.actor, Company, cfg.company, AllocationKey(t), Num(ShareOf(call, t) as real), PriorityOf(call), call.at,
      None, None)
  }

  function LockRow(call: Call, t: Split): PolicyRow {
    PolicyRow(
      call.actor, Track, TrackName(t), TRACK_LOCKED, Bool(ShareOf(call, t) == 0), PriorityOf(call), call.at, None, None)
  }

  function PolicyWrites(cfg: Config, call: Call): seq<Write> {
    [InsertPolicy(ShareRow(cfg, call, Core)), InsertPolicy(ShareRow(cfg, call, Lab)),
     InsertPolicy(LockRow(call, Core)), InsertPolicy(LockRow(call, Lab))]
  }

  predicate IsOpen(ledger: map<string, LedgerRow>, a: string) {
    a in ledger && ledger[a].releasedAt.None?
  }

  /** before is the agent as listed when the call began. */
  function LockAgent(w: World, before: Agent, a: string, t: Split, call: Call): seq<Write> {
    if before.status.Paused? then
      if a in w.ledger
      then [PutLedger(a, w.ledger[a].(track := t, pausedAt := call.at, pausedBy := call.event, releasedAt := None))]
      else []
    else [PutLedger(a, LedgerRow(t, before.status, before.holds, call.at, call.event, None)), SetPaused(a)]
  }

  function UnlockAgent(w: World, before: Agent, a: string, call: Call): seq<Write> {
    if !IsOpen(w.ledger, a) then []
    else if !before.status.Paused? then [Release(a, call.at)]
    else if RefusesResume(before, w.ledger[a]) then []
    else [SetIdle(a), Release(a, call.at)]
  }

  predicate Listed(agents: map<string, Agent>, ids: seq<string>) {
    forall a :: a in ids ==> a in agents
  }

  function LockAll(w: World, before: map<string, Agent>, ids: seq<string>, t: Split, call: Call): seq<Write>
    requires Listed(before, ids)
    decreases |ids|
  {
    if ids == [] then []
    else
      var writes := LockAgent(w, before[ids[0]], ids[0], t, call);
      writes + LockAll(Exec(w, writes), before, ids[1..], t, call)
  }

  function UnlockAll(w: World, before: map<string, Agent>, ids: seq<string>, call: Call): seq<Write>
    requires Listed(before, ids)
    decreases |ids|
  {
    if ids == [] then []
    else
      var writes := UnlockAgent(w, before[ids[0]], ids[0], call);
      writes + UnlockAll(Exec(w, writes), before, ids[1..], call)
  }

  function SlotWrites(before: map<string, Agent>, ids: seq<string>, slots: int): seq<Write>
    requires Listed(before, ids)
  {
    if ids == [] then []
    else
      var a := ids[0];
      [SetSlots(a, MergeConfig(before[a].runtimeConfig, slots), MergeMetadata(before[a].metadata, slots))]
      + SlotWrites(before, ids[1..], slots)
  }

  /** How a call ends: with everything written, or refused, or cut by an error it raises itself. */
  datatype Outcome = Applied | Declined | Rejected | NoSuchAgent(error: SelectorError) | BadBudget

  datatype Plan = Plan(writes: seq<Write>, outcome: Outcome)

  function StateRow(call: Call, t: Split): TrackRow {
    TrackRow(ShareOf(call, t) == 0, call.actor, call.at)
  }

  function TrackPlan(cfg: Config, w: World, before: map<string, Agent>, t: Split, ids: seq<string>,
      labAgents: nat, call: Call): Plan
    requires Listed(before, ids)
  {
    if ShareOf(call, t) == 0 then
      Plan(LockAll(w, before, ids, t, call) + [SetTrack(t, StateRow(call, t))], Applied)
    else
      var resumed := UnlockAll(w, before, ids, call);
      if cfg.slotBudget <= 0 then Plan(resumed, BadBudget)
      else
        var plan := SlotPlan(call.core, call.lab, cfg.slotBudget, labAgents);
        var slots := if t.Core? then plan.core else plan.perLabAgent;
        Plan(resumed + SlotWrites(before, ids, slots) + [SetTrack(t, StateRow(call, t))], Applied)
  }

  predicate Resolvable(cfg: Config, w: World) {
    AgentsOf(cfg, w, Core).Ok? && AgentsOf(cfg, w, Lab).Ok?
  }

  function CorePlan(cfg: Config, w: World, call: Call): Plan
    requires Resolvable(cfg, w)
  {
    ResolvedExist(w.roster, w.agents, cfg.core);
    var core, lab := AgentsOf(cfg, w, Core).value, AgentsOf(cfg, w, Lab).value;
    TrackPlan(cfg, Exec(w, PolicyWrites(cfg, call)), w.agents, Core, core, |lab|, call)
  }

  function LabPlan(cfg: Config, w: World, call: Call): Plan
    requires Resolvable(cfg, w)
  {
    ResolvedExist(w.roster, w.agents, cfg.lab);
    var lab := AgentsOf(cfg, w, Lab).value;
    TrackPlan(
      cfg, Exec(Exec(w, PolicyWrites(cfg, call)), CorePlan(cfg, w, call).writes), w.agents, Lab, lab, |lab|, call)
  }

  /** The writes of one call, in order, and how it ends. */
  function AllocationPlan(cfg: Config, w: World, call: Call): Plan {
    if !Acceptable(call) then Plan([], Rejected)
    else if Declines(w, call) then Plan([], Declined)
    else
      var policies := PolicyWrites(cfg, call);
      var core, lab := AgentsOf(cfg, w, Core), AgentsOf(cfg, w, Lab);
      if core.Err? then Plan(policies, NoSuchAgent(core.error))
      else if lab.Err? then Plan(policies, NoSuchAgent(lab.error))
      else
        var first := CorePlan(cfg, w, call);
        if !first.outcome.Applied? then Plan(policies + first.writes, first.outcome)
        else Plan(policies + first.writes + LabPlan(cfg, w, call).writes, LabPlan(cfg, w, call).outcome)
  }

  /** Every write of a call is a policy row or belongs to one of its two tracks. */
  lemma PlanMembers(cfg: Config, w: World, call: Call, x: Write)
    requires x in AllocationPlan(cfg, w, call).writes
    ensures x.InsertPolicy?
            || (Resolvable(cfg, w) && (x in CorePlan(cfg, w, call).writes || x in LabPlan(cfg, w, call).writes))
  {
    assert forall y :: y in PolicyWrites(cfg, call) ==> y.InsertPolicy?;
  }

  function Allocate(cfg: Config, w: World, call: Call): World {
    Exec(w, AllocationPlan(cfg, w, call).writes)
  }

  /******* The five records agree *******/

  /** What a step that works on ids leaves alone. */
  ghost predicate Framed(w: World, w': World, ids: seq<string>) {
    && w'.policies == w.policies && w'.mandates == w.mandates && w'.roster == w.roster
    && SamePeople(w.agents, w'.agents)
    && (forall a :: a in w.agents && a !in ids ==> w'.agents[a] == w.agents[a])
    && (forall a :: a !in ids ==> Lookup(w'.ledger, a) == Lookup(w.ledger, a))
  }

  /** An agent is paused exactly while its ledger row is open, and nobody else holds it. */
  ghost predicate Tidy(w: World, a: string) {
    && a in w.agents
    && (w.agents[a].status.Paused? <==> IsOpen(w.ledger, a))
    && (w.agents[a].status.Paused? ==>
          w.ledger[a].originalHolds == [] && forall h :: h in w.agents[a].holds ==> h == MANUAL)
    && (!w.agents[a].status.Paused? ==> w.agents[a].holds == [])
  }

  ghost predicate AllTidy(w: World, ids: seq<string>) {
    forall a :: a in ids ==> Tidy(w, a)
  }

  /** The listing taken when the call began is still true of these agents. */
  ghost predicate StillListed(w: World, before: map<string, Agent>, ids: seq<string>) {
    forall a :: a in ids ==> a in w.agents && a in before && w.agents[a] == before[a]
  }

  lemma ExecOneTwo(w: World, x: Write, y: Write)
    ensures Exec(w, [x]) == Apply(w, x) && Exec(w, [x, y]) == Apply(Apply(w, x), y)
  {
    assert Exec(w, [x]) == Apply(w, x) by { assert [x][1..] == []; }
    assert Exec(w, [x, y]) == Exec(Apply(w, x), [y]) by { assert [x, y][1..] == [y]; }
    assert Exec(Apply(w, x), [y]) == Apply(Apply(w, x), y) by { assert [y][1..] == []; }
  }

  lemma {:induction false} DropManualFacts(holds: seq<string>)
    requires forall h :: h in holds ==> h == MANUAL
    ensures DropManual(holds) == []
  {
    if holds != [] {
      var front := holds[..|holds| - 1];
      assert holds[|holds| - 1] in holds;
      forall h | h in front ensures h == MANUAL { assert h in holds; }
      DropManualFacts(front);
    }
  }

  lemma LockAgentTidy(w: World, a: string, t: Split, call: Call)
    requires Tidy(w, a)
    ensures var w' := Exec(w, LockAgent(w, w.agents[a], a, t, call));
            && Framed(w, w', [a]) && w'.tracks == w.tracks && Tidy(w', a) && w'.agents[a].status.Paused?
  {
    var writes, agent := LockAgent(w, w.agents[a], a, t, call), w.agents[a];
    if agent.status.Paused? {
      ExecOneTwo(w, writes[0], writes[0]);
      assert writes == [writes[0]];
    } else {
      AwakeIsLocked(w, a, LedgerRow(t, agent.status, agent.holds, call.at, call.event, None));
    }
  }

  lemma AwakeIsLocked(w: World, a: string, entry: LedgerRow)
    requires Tidy(w, a) && !w.agents[a].status.Paused? && entry.originalHolds == [] && entry.releasedAt.None?
    ensures var w' := Exec(w, [PutLedger(a, entry), SetPaused(a)]);
            && Framed(w, w', [a]) && w'.tracks == w.tracks && Tidy(w', a) && w'.agents[a].status.Paused?
  {
    ExecOneTwo(w, PutLedger(a, entry), SetPaused(a));
    hide Exec;
  }

  lemma UnlockAgentTidy(w: World, a: string, call: Call)
    requires Tidy(w, a)
    ensures var w' := Exec(w, UnlockAgent(w, w.agents[a], a, call));
            && Framed(w, w', [a]) && w'.tracks == w.tracks && Tidy(w', a) && !w'.agents[a].status.Paused?
  {
    var writes := UnlockAgent(w, w.agents[a], a, call);
    if IsOpen(w.ledger, a) {
      ResumeGoesAheadExactly(w.agents[a], w.ledger[a]);
      ExecOneTwo(w, writes[0], writes[1]);
      assert writes == [writes[0], writes[1]];
      DropManualFacts(w.agents[a].holds);
    }
  }

  lemma FramedTransitive(w: World, w1: World, w2: World, a: string, ids: seq<string>)
    requires Framed(w, w1, [a]) && Framed(w1, w2, ids)
    ensures Framed(w, w2, [a] + ids)
  {
  }

  lemma {:induction false} LockAllTidy(w: World, before: map<string, Agent>, ids: seq<string>, t: Split, call: Call)
    requires Listed(before, ids) && Distinct(ids) && StillListed(w, before, ids) && AllTidy(w, ids)
    ensures var w' := Exec(w, LockAll(w, before, ids, t, call));
            && Framed(w, w', ids) && w'.tracks == w.tracks && AllTidy(w', ids)
            && forall a :: a in ids ==> w'.agents[a].status.Paused?
    decreases |ids|
  {
    if ids != [] {
      var a, rest := ids[0], ids[1..];
      assert ids == [a] + rest;
      var writes := LockAgent(w, before[a], a, t, call);
      var w1 := Exec(w, writes);
      LockAgentTidy(w, a, t, call);
      RestIsUntouched(w, w1, before, ids);
      LockAllTidy(w1, before, rest, t, call);
      ExecConcat(w, writes, LockAll(w1, before, rest, t, call));
      var w2 := Exec(w1, LockAll(w1, before, rest, t, call));
      FramedTransitive(w, w1, w2, a, rest);
      FirstStaysTidy(w1, w2, a, rest);
    }
  }

  lemma {:induction false} UnlockAllTidy(w: World, before: map<string, Agent>, ids: seq<string>, call: Call)
    requires Listed(before, ids) && Distinct(ids) && StillListed(w, before, ids) && AllTidy(w, ids)
    ensures var w' := Exec(w, UnlockAll(w, before, ids, call));
            && Framed(w, w', ids) && w'.tracks == w.tracks && AllTidy(w', ids)
            && forall a :: a in ids ==> !w'.agents[a].status.Paused?
    decreases |ids|
  {
    if ids != [] {
      var a, rest := ids[0], ids[1..];
      assert ids == [a] + rest;
      var writes := UnlockAgent(w, before[a], a, call);
      var w1 := Exec(w, writes);
      UnlockAgentTidy(w, a, call);
      RestIsUntouched(w, w1, before, ids);
      UnlockAllTidy(w1, before, rest, call);
      ExecConcat(w, writes, UnlockAll(w1, before, rest, call));
      var w2 := Exec(w1, UnlockAll(w1, before, rest, call));
      FramedTransitive(w, w1, w2, a, rest);
      FirstStaysTidy(w1, w2, a, rest);
    }
  }

  lemma RestIsUntouched(w: World, w1: World, before: map<string, Agent>, ids: seq<string>)
    requires ids != [] && Distinct(ids) && StillListed(w, before, ids) && AllTidy(w, ids) && Framed(w, w1, [ids[0]])
    ensures Distinct(ids[1..]) && ids[0] !in ids[1..] && StillListed(w1, before, ids[1..]) && AllTidy(w1, ids[1..])
  {
    assert ids[0] !in ids[1..];
    forall a | a in ids[1..] ensures w1.agents[a] == w.agents[a] && Lookup(w1.ledger, a) == Lookup(w.ledger, a) {
      assert a in ids && a !in [ids[0]];
    }
    forall a | a in ids[1..] ensures Tidy(w1, a) {
      assert Tidy(w, a);
    }
  }

  lemma FirstStaysTidy(w1: World, w2: World, a: string, rest: seq<string>)
    requires Framed(w1, w2, rest) && a !in rest && Tidy(w1, a)
    ensures Tidy(w2, a) && w2.agents[a] == w1.agents[a]
  {
    assert Lookup(w2.ledger, a) == Lookup(w1.ledger, a);
  }

  /** Only settings of ids changed. */
  ghost predicate OnlySettings(w: World, w': World, ids: seq<string>) {
    && w'.policies == w.policies && w'.mandates == w.mandates && w'.roster == w.roster
    && w'.ledger == w.ledger && w'.tracks == w.tracks && w'.held == w.held
    && SamePeople(w.agents, w'.agents)
    && (forall a :: a in w.agents ==>
         w'.agents[a].status == w.agents[a].status && w'.agents[a].holds == w.agents[a].holds)
    && (forall a :: a in w.agents && a !in ids ==> w'.agents[a] == w.agents[a])
  }

  lemma OnlySettingsTransitive(w: World, w1: World, w2: World, a: string, ids: seq<string>)
    requires OnlySettings(w, w1, [a]) && OnlySettings(w1, w2, ids)
    ensures OnlySettings(w, w2, [a] + ids)
  {
  }

  lemma OneSettingsWrite(w: World, x: Write)
    requires x.SetSlots?
    ensures OnlySettings(w, Apply(w, x), [x.agent])
  {
  }

  lemma {:induction false} SlotWritesFrame(w: World, before: map<string, Agent>, ids: seq<string>, slots: int)
    requires Listed(before, ids)
    ensures OnlySettings(w, Exec(w, SlotWrites(before, ids, slots)), ids)
    decreases |ids|
  {
    if ids != [] {
      var writes := SlotWrites(before, ids, slots);
      assert writes[1..] == SlotWrites(before, ids[1..], slots);
      assert ids == [ids[0]] + ids[1..];
      var w1 := Apply(w, writes[0]);
      OneSettingsWrite(w, writes[0]);
      hide Apply;
      SlotWritesFrame(w1, before, ids[1..], slots);
      OnlySettingsTransitive(w, w1, Exec(w1, writes[1..]), ids[0], ids[1..]);
    }
  }

  lemma {:induction false} SlotWritesCarry(w: World, before: map<string, Agent>, ids: seq<string>, slots: int)
    requires Listed(before, ids) && SamePeople(before, w.agents)
    ensures var w' := Exec(w, SlotWrites(before, ids, slots));
            SamePeople(before, w'.agents)
            && forall a :: a in w'.agents && (a in ids || CarriesSlots(w.agents[a], slots)) ==>
                CarriesSlots(w'.agents[a], slots)
    decreases |ids|
  {
    if ids != [] {
      var writes := SlotWrites(before, ids, slots);
      assert writes[1..] == SlotWrites(before, ids[1..], slots);
      assert ids == [ids[0]] + ids[1..];
      OneSlotWrite(w, before[ids[0]], ids[0], slots);
      hide Apply, CarriesSlots;
      SlotWritesCarry(Apply(w, writes[0]), before, ids[1..], slots);
    }
  }

  lemma OneSlotWrite(w: World, before: Agent, a: string, slots: int)
    requires a in w.agents
    ensures var w' :=
              Apply(w, SetSlots(a, MergeConfig(before.runtimeConfig, slots), MergeMetadata(before.metadata, slots)));
            && SamePeople(w.agents, w'.agents) && CarriesSlots(w'.agents[a], slots)
            && forall b :: b in w.agents && CarriesSlots(w.agents[b], slots) ==> CarriesSlots(w'.agents[b], slots)
  {
  }

  lemma {:induction false} WritesKeepPeople(w: World, ws: seq<Write>)
    ensures SamePeople(w.agents, Exec(w, ws).agents)
    decreases |ws|
  {
    if ws != [] {
      WriteKeepsPeople(w, ws[0]);
      hide Apply;
      WritesKeepPeople(Apply(w, ws[0]), ws[1..]);
    }
  }

  lemma WriteKeepsPeople(w: World, x: Write)
    ensures SamePeople(w.agents, Apply(w, x).agents)
  {
    hide DropManual;
    match x
    case InsertPolicy(_) =>
    case PutLedger(_, _) =>
    case Release(_, _) =>
    case SetPaused(_) =>
    case SetIdle(_) =>
    case SetSlots(_, _, _) =>
    case SetTrack(_, _) =>
  }

  lemma StateOnly(w: World, t: Split, state: TrackRow)
    ensures Apply(w, SetTrack(t, state)).agents == w.agents
  {
  }

  lemma SlotsThenState(w: World, before: map<string, Agent>, ids: seq<string>, slots: int, t: Split, state: TrackRow)
    requires Listed(before, ids) && SamePeople(before, w.agents)
    ensures var w' := Exec(w, SlotWrites(before, ids, slots) + [SetTrack(t, state)]);
            forall a :: a in ids ==> a in w'.agents && CarriesSlots(w'.agents[a], slots)
  {
    hide CarriesSlots, Exec, SlotWrites;
    SlotWritesCarry(w, before, ids, slots);
    ExecLast(w, SlotWrites(before, ids, slots), SetTrack(t, state));
    StateOnly(Exec(w, SlotWrites(before, ids, slots)), t, state);
    hide Apply;
  }

  /** After the work on a track with a share, every agent of it carries the slots of the plan. */
  lemma TrackGetsItsSlots(cfg: Config, w: World, before: map<string, Agent>, t: Split, ids: seq<string>,
      labAgents: nat, call: Call)
    requires Listed(before, ids) && SamePeople(before, w.agents) && cfg.slotBudget > 0 && ShareOf(call, t) > 0
    ensures var w' := Exec(w, TrackPlan(cfg, w, before, t, ids, labAgents, call).writes);
            var plan := SlotPlan(call.core, call.lab, cfg.slotBudget, labAgents);
            forall a :: a in ids
              ==> a in w'.agents && CarriesSlots(w'.agents[a], if t.Core? then plan.core else plan.perLabAgent)
  {
    hide SlotPlan, CarriesSlots, LockAll, Exec, UnlockAll, SlotWrites;
    var resumed := UnlockAll(w, before, ids, call);
    var plan := SlotPlan(call.core, call.lab, cfg.slotBudget, labAgents);
    var slots := if t.Core? then plan.core else plan.perLabAgent;
    var rest := SlotWrites(before, ids, slots) + [SetTrack(t, StateRow(call, t))];
    WritesKeepPeople(w, resumed);
    SlotsThenState(Exec(w, resumed), before, ids, slots, t, StateRow(call, t));
    ExecConcat(w, resumed, rest);
    assert TrackPlan(cfg, w, before, t, ids, labAgents, call).writes == resumed + rest;
  }

  lemma ExecLast(w: World, ws: seq<Write>, x: Write)
    ensures Exec(w, ws + [x]) == Apply(Exec(w, ws), x)
  {
    ExecConcat(w, ws, [x]);
    ExecOneTwo(Exec(w, ws), x, x);
  }

  /** One track of a call: its agents end paused or awake as the share says, and the rest of the world is left alone. */
  lemma TrackPlanTidy(cfg: Config, w: World, before: map<string, Agent>, t: Split, ids: seq<string>,
      labAgents: nat, call: Call)
    requires Listed(before, ids) && Distinct(ids) && StillListed(w, before, ids) && AllTidy(w, ids)
             && cfg.slotBudget > 0
    ensures var plan := TrackPlan(cfg, w, before, t, ids, labAgents, call);
            var w' := Exec(w, plan.writes);
            && plan.outcome.Applied? && Framed(w, w', ids) && AllTidy(w', ids)
            && w'.tracks == w.tracks[t := StateRow(call, t)]
            && forall a :: a in ids ==> (w'.agents[a].status.Paused? <==> ShareOf(call, t) == 0)
  {
    var last := SetTrack(t, StateRow(call, t));
    if ShareOf(call, t) == 0 {
      LockAllTidy(w, before, ids, t, call);
      ExecLast(w, LockAll(w, before, ids, t, call), last);
    } else {
      var resumed := UnlockAll(w, before, ids, call);
      UnlockAllTidy(w, before, ids, call);
      var plan := SlotPlan(call.core, call.lab, cfg.slotBudget, labAgents);
      var slots := if t.Core? then plan.core else plan.perLabAgent;
      SlotWritesFrame(Exec(w, resumed), before, ids, slots);
      ExecConcat(w, resumed, SlotWrites(before, ids, slots));
      ExecLast(w, resumed + SlotWrites(before, ids, slots), last);
      var w1 := Exec(w, resumed + SlotWrites(before, ids, slots));
      forall a | a in ids ensures Tidy(w1, a) && !w1.agents[a].status.Paused? {
        assert Tidy(Exec(w, resumed), a);
      }
    }
  }

  /******* What the resolver sees *******/

  /** Rows of the three keys come from calls like these, none after t; an operator's lock comes with its share. */
  ghost predicate OrderlyRow(cfg: Config, row: PolicyRow, t: Time) {
    row.key in {ALLOCATION_CORE, ALLOCATION_LAB, TRACK_LOCKED} ==>
      && row.createdAt <= t && row.expiresAt.None? && row.revokedAt.None?
      && row.priority in {OPERATOR, ADAPTIVE}
      && (row.key == TRACK_LOCKED ==> row.scope.Track?)
      && (row.key != TRACK_LOCKED ==> row.scope.Company? && row.scopeId == cfg.company)
  }

  ghost predicate Orderly(cfg: Config, rows: seq<PolicyRow>, t: Time) {
    && (forall row :: row in rows ==> OrderlyRow(cfg, row, t))
    && ((exists row :: row in rows && row.key == TRACK_LOCKED && row.priority == OPERATOR) ==>
          exists row :: row in rows && row.key in {ALLOCATION_CORE, ALLOCATION_LAB} && row.priority == OPERATOR)
  }

  function AskerOf(cfg: Config, project: Option<string>, t: Split, now: Time): Asker {
    Asker(cfg.company, project, TrackName(t), now)
  }

  function NewRows(cfg: Config, call: Call): seq<PolicyRow> {
    [ShareRow(cfg, call, Core), ShareRow(cfg, call, Lab), LockRow(call, Core), LockRow(call, Lab)]
  }

  lemma PolicyWritesAppend(cfg: Config, w: World, call: Call)
    ensures Exec(w, PolicyWrites(cfg, call)) == w.(policies := w.policies + NewRows(cfg, call))
  {
    var p := PolicyWrites(cfg, call);
    assert p == [p[0], p[1]] + [p[2], p[3]];
    ExecConcat(w, [p[0], p[1]], [p[2], p[3]]);
    ExecOneTwo(w, p[0], p[1]);
    ExecOneTwo(Exec(w, [p[0], p[1]]), p[2], p[3]);
    assert w.policies + [p[0].row] + [p[1].row] + [p[2].row] + [p[3].row] == w.policies + NewRows(cfg, call);
  }

  lemma OperatorRowShows(cfg: Config, rows: seq<PolicyRow>, t: Time, row: PolicyRow, now: Time)
    requires Orderly(cfg, rows, t) && row in rows && row.priority == OPERATOR
    requires row.key in {ALLOCATION_CORE, ALLOCATION_LAB, TRACK_LOCKED}
    ensures OperatorAllocates(rows, now)
  {
    var share :| share in rows && share.key in {ALLOCATION_CORE, ALLOCATION_LAB} && share.priority == OPERATOR;
    assert OrderlyRow(cfg, share, t);
    assert IsActive(share, now);
  }

  lemma OldRowsAreBeaten(cfg: Config, rows: seq<PolicyRow>, t: Time, call: Call, row: PolicyRow, best: PolicyRow)
    requires Orderly(cfg, rows, t) && t < call.at && !(call.adaptive && OperatorAllocates(rows, call.at))
    requires row in rows && row.key == best.key && best in NewRows(cfg, call)
    ensures Beats(OfRow(best), OfRow(row))
  {
    assert OrderlyRow(cfg, row, t);
    if row.priority == OPERATOR {
      OperatorRowShows(cfg, rows, t, row, call.at);
    }
  }

  lemma NewRowIsUnique(cfg: Config, call: Call, track: Split, row: PolicyRow, best: PolicyRow)
    requires row in NewRows(cfg, call)
             && best in [ShareRow(cfg, call, Core), ShareRow(cfg, call, Lab), LockRow(call, track)]
    requires row.key == best.key && (row.scope.Track? ==> row.scopeId == TrackName(track))
    ensures row == best
  {
    KeysDiffer();
  }

  /** After the four inserts of a call that is not declined, its own rows decide, for every asker at any time. */
  lemma NewRowsDecide(cfg: Config, rows: seq<PolicyRow>, mandates: seq<Mandate>, t: Time, call: Call,
      project: Option<string>, track: Split, now: Time)
    requires Orderly(cfg, rows, t) && t < call.at && !(call.adaptive && OperatorAllocates(rows, call.at))
    ensures var after, a := rows + NewRows(cfg, call), AskerOf(cfg, project, track, now);
            && Effective(after, mandates, a, ALLOCATION_CORE) == Some(OfRow(ShareRow(cfg, call, Core)))
            && Effective(after, mandates, a, ALLOCATION_LAB) == Some(OfRow(ShareRow(cfg, call, Lab)))
            && Effective(after, mandates, a, TRACK_LOCKED) == Some(OfRow(LockRow(call, track)))
  {
    var after, a := rows + NewRows(cfg, call), AskerOf(cfg, project, track, now);
    forall best | best in [ShareRow(cfg, call, Core), ShareRow(cfg, call, Lab), LockRow(call, track)]
      ensures Effective(after, mandates, a, best.key) == Some(OfRow(best))
    {
      NewRowDecides(cfg, rows, mandates, t, call, NewRows(cfg, call), a, track, best);
    }
    assert ShareRow(cfg, call, Core) in [ShareRow(cfg, call, Core), ShareRow(cfg, call, Lab), LockRow(call, track)];
    assert ShareRow(cfg, call, Lab) in [ShareRow(cfg, call, Core), ShareRow(cfg, call, Lab), LockRow(call, track)];
    assert LockRow(call, track) in [ShareRow(cfg, call, Core), ShareRow(cfg, call, Lab), LockRow(call, track)];
  }

  /** Also while some of its rows are still missing, a call's row decides as soon as it is there itself. */
  lemma NewRowDecides(
    cfg: Config, rows: seq<PolicyRow>, mandates: seq<Mandate>, t: Time, call: Call, written: seq<PolicyRow>,
    a: Asker, track: Split, best: PolicyRow)
    requires Orderly(cfg, rows, t) && t < call.at && !(call.adaptive && OperatorAllocates(rows, call.at))
    requires (a.company == cfg.company || cfg.company == "default") && a.track == TrackName(track)
    requires best in [ShareRow(cfg, call, Core), ShareRow(cfg, call, Lab), LockRow(call, track)]
    requires best in written && forall row :: row in written ==> row in NewRows(cfg, call)
    ensures Effective(rows + written, mandates, a, best.key) == Some(OfRow(best))
  {
    var after := rows + written;
    assert best in NewRows(cfg, call) && best in after;
    KeysDiffer();
    forall row | row in after && row.key == best.key && RowApplies(row, a)
      ensures row == best || Beats(OfRow(best), OfRow(row))
    {
      if row in rows {
        OldRowsAreBeaten(cfg, rows, t, call, row, best);
      } else {
        NewRowIsUnique(cfg, call, track, row, best);
      }
    }
    SoleBestRow(after, mandates, a, best);
  }

  /** A split stored before the company was known, under the literal name, still decides once it is. */
  lemma EarlySplitsStayVisible(
      cfg: Config, rows: seq<PolicyRow>, mandates: seq<Mandate>, t: Time, call: Call, a: Asker, track: Split)
    requires cfg.company == "default" && a.track == TrackName(track)
    requires Orderly(cfg, rows, t) && t < call.at && !(call.adaptive && OperatorAllocates(rows, call.at))
    ensures forall s: Split :: Effective(rows + NewRows(cfg, call), mandates, a, AllocationKey(s))
             == Some(OfRow(ShareRow(cfg, call, s)))
  {
    forall s: Split
      ensures Effective(rows + NewRows(cfg, call), mandates, a, AllocationKey(s)) == Some(OfRow(ShareRow(cfg, call, s)))
    {
      var best := ShareRow(cfg, call, s);
      assert best in [ShareRow(cfg, call, Core), ShareRow(cfg, call, Lab), LockRow(call, track)];
      NewRowDecides(cfg, rows, mandates, t, call, NewRows(cfg, call), a, track, best);
    }
  }

  lemma KeysDiffer()
    ensures ALLOCATION_CORE != ALLOCATION_LAB && ALLOCATION_CORE != TRACK_LOCKED && ALLOCATION_LAB != TRACK_LOCKED
    ensures TrackName(Core) != TrackName(Lab)
  {
    assert ALLOCATION_CORE[11] == 'c' && ALLOCATION_LAB[11] == 'l' && TRACK_LOCKED[0] == 't'
           && ALLOCATION_CORE[0] == 'a' && ALLOCATION_LAB[0] == 'a';
    assert TrackName(Core)[0] == 'c' && TrackName(Lab)[0] == 'l';
  }

  lemma OrderlyAfter(cfg: Config, rows: seq<PolicyRow>, t: Time, call: Call)
    requires Orderly(cfg, rows, t) && t < call.at
    ensures Orderly(cfg, rows + NewRows(cfg, call), call.at)
  {
    KeysDiffer();
    var after := rows + NewRows(cfg, call);
    forall row | row in after ensures OrderlyRow(cfg, row, call.at) {
      if row in rows { assert OrderlyRow(cfg, row, t); } else { assert row in NewRows(cfg, call); }
    }
    if exists row :: row in after && row.key == TRACK_LOCKED && row.priority == OPERATOR {
      var row :| row in after && row.key == TRACK_LOCKED && row.priority == OPERATOR;
      if row in rows {
        var share :| share in rows && share.key in {ALLOCATION_CORE, ALLOCATION_LAB} && share.priority == OPERATOR;
        assert share in after;
      } else {
        assert row in NewRows(cfg, call);
        assert ShareRow(cfg, call, Core) in after;
      }
    }
  }

  /******* Completed calls *******/

  function Members(cfg: Config, w: World): seq<string> {
    var core, lab := AgentsOf(cfg, w, Core), AgentsOf(cfg, w, Lab);
    (if core.Ok? then core.value else []) + if lab.Ok? then lab.value else []
  }

  /** Disjoint tracks, no outside change, and rows of the three keys written only by calls up to time t. */
  ghost predicate Ready(cfg: Config, w: World, t: Time) {
    && cfg.slotBudget > 0
    && AgentsOf(cfg, w, Core).Ok? && AgentsOf(cfg, w, Lab).Ok?
    && Distinct(Members(cfg, w)) && AllTidy(w, Members(cfg, w))
    && Orderly(cfg, w.policies, t)
  }

  /** The state a bridge starts from: nobody paused, no holds, no open row, no policy stored. */
  lemma FreshStartIsReady(cfg: Config, w: World, t: Time)
    requires cfg.slotBudget > 0 && w.policies == []
    requires AgentsOf(cfg, w, Core).Ok? && AgentsOf(cfg, w, Lab).Ok? && Distinct(Members(cfg, w))
    requires forall a :: a in w.agents ==>
              !w.agents[a].status.Paused? && w.agents[a].holds == [] && !IsOpen(w.ledger, a)
    ensures Ready(cfg, w, t)
  {
    ResolvedExist(w.roster, w.agents, cfg.core);
    ResolvedExist(w.roster, w.agents, cfg.lab);
  }

  function Part(core: int, lab: int, t: Split): int {
    match t
    case Core => core
    case Lab => lab
  }

  ghost predicate ResolverAgrees(cfg: Config, w: World, core: int, lab: int, t: Split) {
    forall project, now ::
      var a := AskerOf(cfg, project, t, now);
      && ValueAt(w, a, ALLOCATION_CORE) == Some(Num(core as real))
      && ValueAt(w, a, ALLOCATION_LAB) == Some(Num(lab as real))
      && ValueAt(w, a, TRACK_LOCKED) == Some(Bool(Part(core, lab, t) == 0))
  }

  function ValueAt(w: World, a: Asker, key: string): Option<Value> {
    var e := Effective(w.policies, w.mandates, a, key);
    if e.Some? then Some(e.value.value) else None
  }

  ghost predicate TrackAgrees(cfg: Config, w: World, t: Split, share: int) {
    && t in w.tracks && (w.tracks[t].paused <==> share == 0)
    && AgentsOf(cfg, w, t).Ok?
    && forall a :: a in AgentsOf(cfg, w, t).value ==>
         a in w.agents && (w.agents[a].status.Paused? <==> share == 0) && (IsOpen(w.ledger, a) <==> share == 0)
  }

  /** All five records say the same of both tracks. */
  ghost predicate Agreement(cfg: Config, w: World, core: int, lab: int) {
    && ResolverAgrees(cfg, w, core, lab, Core) && ResolverAgrees(cfg, w, core, lab, Lab)
    && TrackAgrees(cfg, w, Core, core) && TrackAgrees(cfg, w, Lab, lab)
  }

  lemma SplitDistinct(xs: seq<string>, ys: seq<string>)
    requires Distinct(xs + ys)
    ensures Distinct(xs) && Distinct(ys) && forall x :: x in xs ==> x !in ys
  {
    var all := xs + ys;
    forall i, j | 0 <= i < j < |xs| ensures xs[i] != xs[j] { assert all[i] == xs[i] && all[j] == xs[j]; }
    forall i, j | 0 <= i < j < |ys| ensures ys[i] != ys[j] { assert all[|xs| + i] == ys[i] && all[|xs| + j] == ys[j]; }
    forall x | x in xs ensures x !in ys {
      var i :| 0 <= i < |xs| && xs[i] == x;
      forall j | 0 <= j < |ys| ensures ys[j] != x { assert all[i] != all[|xs| + j]; }
    }
  }

  lemma FramedTidy(w: World, w': World, ids: seq<string>, others: seq<string>)
    requires Framed(w, w', ids) && AllTidy(w, others) && forall a :: a in others ==> a !in ids
    ensures AllTidy(w', others) && forall a :: a in others ==> w'.agents[a] == w.agents[a]
  {
    forall a | a in others ensures Tidy(w', a) && w'.agents[a] == w.agents[a] {
      assert Tidy(w, a);
      assert Lookup(w'.ledger, a) == Lookup(w.ledger, a);
    }
  }

  /** The two tracks of a call, one after the other. */
  lemma BothTracks(cfg: Config, w: World, core: seq<string>, lab: seq<string>, call: Call)
    requires cfg.slotBudget > 0 && Distinct(core + lab) && AllTidy(w, core + lab)
    requires Listed(w.agents, core) && Listed(w.agents, lab)
    ensures var first := TrackPlan(cfg, w, w.agents, Core, core, |lab|, call);
            var w1 := Exec(w, first.writes);
            var second := TrackPlan(cfg, w1, w.agents, Lab, lab, |lab|, call);
            var w2 := Exec(w1, second.writes);
            && first.outcome.Applied? && second.outcome.Applied?
            && w2.policies == w.policies && w2.mandates == w.mandates && w2.roster == w.roster
            && SamePeople(w.agents, w2.agents) && AllTidy(w2, core + lab)
            && w2.tracks == w.tracks[Core := StateRow(call, Core)][Lab := StateRow(call, Lab)]
            && (forall a :: a in core ==> (w2.agents[a].status.Paused? <==> call.core == 0))
            && (forall a :: a in lab ==> (w2.agents[a].status.Paused? <==> call.lab == 0))
  {
    SplitDistinct(core, lab);
    TidyParts(w, core, lab);
    TrackPlanTidy(cfg, w, w.agents, Core, core, |lab|, call);
    var w1 := Exec(w, TrackPlan(cfg, w, w.agents, Core, core, |lab|, call).writes);
    FramedTidy(w, w1, core, lab);
    TrackPlanTidy(cfg, w1, w.agents, Lab, lab, |lab|, call);
    var w2 := Exec(w1, TrackPlan(cfg, w1, w.agents, Lab, lab, |lab|, call).writes);
    FramedTidy(w1, w2, lab, core);
    TidyWhole(w2, core, lab);
  }

  lemma TidyParts(w: World, xs: seq<string>, ys: seq<string>)
    requires AllTidy(w, xs + ys)
    ensures AllTidy(w, xs) && AllTidy(w, ys)
  {
    forall a | a in xs || a in ys ensures Tidy(w, a) { assert a in xs + ys; }
  }

  lemma TidyWhole(w: World, xs: seq<string>, ys: seq<string>)
    requires AllTidy(w, xs) && AllTidy(w, ys)
    ensures AllTidy(w, xs + ys)
  {
  }

  lemma AllocateIs(cfg: Config, w: World, call: Call)
    requires Acceptable(call) && !Declines(w, call)
    requires AgentsOf(cfg, w, Core).Ok? && AgentsOf(cfg, w, Lab).Ok?
    ensures var core, lab := AgentsOf(cfg, w, Core).value, AgentsOf(cfg, w, Lab).value;
            Listed(w.agents, core) && Listed(w.agents, lab)
    ensures var core, lab := AgentsOf(cfg, w, Core).value, AgentsOf(cfg, w, Lab).value;
            var w0 := w.(policies := w.policies + NewRows(cfg, call));
            var first := TrackPlan(cfg, w0, w.agents, Core, core, |lab|, call);
            var w1 := Exec(w0, first.writes);
            var second := TrackPlan(cfg, w1, w.agents, Lab, lab, |lab|, call);
            first.outcome.Applied? ==>
              AllocationPlan(cfg, w, call).outcome == second.outcome
              && Allocate(cfg, w, call) == Exec(w1, second.writes)
  {
    ResolvedExist(w.roster, w.agents, cfg.core);
    ResolvedExist(w.roster, w.agents, cfg.lab);
    PolicyWritesAppend(cfg, w, call);
    var core, lab := AgentsOf(cfg, w, Core).value, AgentsOf(cfg, w, Lab).value;
    var policies, w0 := PolicyWrites(cfg, call), w.(policies := w.policies + NewRows(cfg, call));
    var first := TrackPlan(cfg, w0, w.agents, Core, core, |lab|, call);
    if first.outcome.Applied? {
      var w1 := Exec(w0, first.writes);
      var second := TrackPlan(cfg, w1, w.agents, Lab, lab, |lab|, call);
      ExecConcat(w, policies + first.writes, second.writes);
      ExecConcat(w, policies, first.writes);
    }
  }

  /** A completed call leaves all five records in agreement with it, and the world ready for the next. */
  lemma CompletedCallAgrees(cfg: Config, w: World, t: Time, call: Call)
    requires Ready(cfg, w, t) && t < call.at && Acceptable(call) && !Declines(w, call)
    ensures AllocationPlan(cfg, w, call).outcome.Applied?
    ensures Ready(cfg, Allocate(cfg, w, call), call.at)
    ensures Agreement(cfg, Allocate(cfg, w, call), call.core, call.lab)
  {
    hide ResolverAgrees, TrackAgrees, Orderly, Tidy, TrackPlan, AllocationPlan;
    var core, lab := AgentsOf(cfg, w, Core).value, AgentsOf(cfg, w, Lab).value;
    var w0 := w.(policies := w.policies + NewRows(cfg, call));
    AllocateIs(cfg, w, call);
    TidyUnderNewRows(w, w0, core + lab);
    BothTracks(cfg, w0, core, lab, call);
    var w' := Allocate(cfg, w, call);
    ResolveStable(w.roster, w.agents, w'.agents, cfg.core);
    ResolveStable(w.roster, w.agents, w'.agents, cfg.lab);
    OrderlyAfter(cfg, w.policies, t, call);
    ResolverFollows(cfg, w, w', t, call, Core);
    ResolverFollows(cfg, w, w', t, call, Lab);
    TidyParts(w', core, lab);
    TrackFollows(cfg, w', Core, core, call);
    TrackFollows(cfg, w', Lab, lab, call);
  }

  lemma TidyUnderNewRows(w: World, w0: World, ids: seq<string>)
    requires AllTidy(w, ids) && w0.agents == w.agents && w0.ledger == w.ledger
    ensures AllTidy(w0, ids)
  {
    forall a | a in ids ensures Tidy(w0, a) { assert Tidy(w, a); }
  }

  lemma ResolverFollows(cfg: Config, w: World, w': World, t: Time, call: Call, track: Split)
    requires Orderly(cfg, w.policies, t) && t < call.at && !Declines(w, call)
    requires w'.policies == w.policies + NewRows(cfg, call)
    ensures ResolverAgrees(cfg, w', call.core, call.lab, track)
  {
    forall project, now
      ensures var a := AskerOf(cfg, project, track, now);
              && ValueAt(w', a, ALLOCATION_CORE) == Some(Num(call.core as real))
              && ValueAt(w', a, ALLOCATION_LAB) == Some(Num(call.lab as real))
              && ValueAt(w', a, TRACK_LOCKED) == Some(Bool(Part(call.core, call.lab, track) == 0))
    {
      NewRowsDecide(cfg, w.policies, w'.mandates, t, call, project, track, now);
    }
  }

  lemma TrackFollows(cfg: Config, w: World, t: Split, ids: seq<string>, call: Call)
    requires AgentsOf(cfg, w, t) == Ok(ids) && AllTidy(w, ids)
    requires t in w.tracks && w.tracks[t] == StateRow(call, t)
    requires forall a :: a in ids ==> (w.agents[a].status.Paused? <==> ShareOf(call, t) == 0)
    ensures TrackAgrees(cfg, w, t, ShareOf(call, t))
  {
    forall a | a in ids ensures IsOpen(w.ledger, a) <==> ShareOf(call, t) == 0 {
      assert Tidy(w, a);
    }
  }

  /******* Sequences of calls *******/

  function RunCalls(cfg: Config, w: World, calls: seq<Call>): World {
    if calls == [] then w else Allocate(cfg, RunCalls(cfg, w, calls[..|calls| - 1]), calls[|calls| - 1])
  }

  /** The last call of the run that was neither rejected nor declined. */
  function LastApplied(cfg: Config, w: World, calls: seq<Call>): Option<Call> {
    if calls == [] then None
    else
      var front, call := calls[..|calls| - 1], calls[|calls| - 1];
      if Acceptable(call) && !Declines(RunCalls(cfg, w, front), call) then Some(call) else LastApplied(cfg, w, front)
  }

  ghost predicate Increasing(t: Time, calls: seq<Call>) {
    && (calls != [] ==> t < calls[0].at)
    && forall i, j :: 0 <= i < j < |calls| ==> calls[i].at < calls[j].at
  }

  /**
   After any sequence of completed calls at increasing times, operator and adaptive ones mixed,
   the resolver, the agents, the ledger and the track states all tell the last applied split.
   */
  lemma {:induction false} RecordsAgreeAfterAnyCalls(cfg: Config, w: World, t: Time, calls: seq<Call>)
    requires Ready(cfg, w, t) && Increasing(t, calls)
    ensures var w', last := RunCalls(cfg, w, calls), LastApplied(cfg, w, calls);
            && Ready(cfg, w', if calls == [] then t else calls[|calls| - 1].at)
            && (last.Some?
                ==> last.value.core + last.value.lab == 100 && Agreement(cfg, w', last.value.core, last.value.lab))
            && (last.None? ==> w' == w)
  {
    if calls != [] {
      var front, call := calls[..|calls| - 1], calls[|calls| - 1];
      RecordsAgreeAfterAnyCalls(cfg, w, t, front);
      var before, at := RunCalls(cfg, w, front), if front == [] then t else front[|front| - 1].at;
      assert at < call.at;
      if Acceptable(call) && !Declines(before, call) {
        CompletedCallAgrees(cfg, before, at, call);
      } else {
        OrderlyLater(cfg, before.policies, at, call.at);
      }
    }
  }

  lemma OrderlyLater(cfg: Config, rows: seq<PolicyRow>, t: Time, later: Time)
    requires Orderly(cfg, rows, t) && t <= later
    ensures Orderly(cfg, rows, later)
  {
    forall row | row in rows ensures OrderlyRow(cfg, row, later) { assert OrderlyRow(cfg, row, t); }
  }

  /******* Two calls at the same moment *******/

  lemma TiedNumsMeet(cs: seq<Candidate>, x: Candidate, y: Candidate)
    requires x in cs && y in cs && x.value.Num? && y.value.Num? && !Beats(x, y) && !Beats(y, x)
    requires forall c :: c in cs ==> c == x || c == y || Beats(x, c)
    ensures TopClass(cs) != []
    ensures Winner(cs).value == if y.value.n < x.value.n then y.value else x.value
  {
    TopClassFacts(cs);
    forall c | c in TopClass(cs) ensures c == x || c == y {}
    assert Unbeaten(x, cs) && Unbeaten(y, cs);
    MeetOfNums(TopClass(cs));
  }

  lemma OthersLoseToShare(cfg: Config, rows: seq<PolicyRow>, t: Time, first: Call, second: Call, track: Split,
      row: PolicyRow)
    requires Orderly(cfg, rows, t) && t < first.at == second.at && !first.adaptive && !second.adaptive
    requires row in rows || row in NewRows(cfg, first) || row in NewRows(cfg, second)
    requires row.key == AllocationKey(track)
    ensures var x, y := ShareRow(cfg, first, track), ShareRow(cfg, second, track);
            row == x || row == y || Beats(OfRow(x), OfRow(row))
  {
    KeysDiffer();
    if row in rows {
      assert ShareRow(cfg, first, track) in NewRows(cfg, first);
      OldRowsAreBeaten(cfg, rows, t, first, row, ShareRow(cfg, first, track));
    }
  }

  lemma SharesMeet(cfg: Config, rows: seq<PolicyRow>, mandates: seq<Mandate>, t: Time, first: Call,
      second: Call, a: Asker, track: Split)
    requires Orderly(cfg, rows, t) && t < first.at == second.at && !first.adaptive && !second.adaptive
             && a.company == cfg.company
    ensures var after := rows + NewRows(cfg, first) + NewRows(cfg, second);
            var e := Effective(after, mandates, a, AllocationKey(track));
            e.Some? && e.value.value == Num(Min(ShareOf(first, track), ShareOf(second, track)) as real)
  {
    var after, key := rows + NewRows(cfg, first) + NewRows(cfg, second), AllocationKey(track);
    var x, y := ShareRow(cfg, first, track), ShareRow(cfg, second, track);
    var cs := Candidates(after, mandates, a, key);
    assert x in NewRows(cfg, first) && y in NewRows(cfg, second);
    assert x in after && y in after && RowApplies(x, a) && RowApplies(y, a);
    BuiltInLoses(cfg, first, track);
    hide Candidates, BuiltIn, RowApplies, NewRows, ShareRow;
    CandidateKinds(after, mandates, a, key, OfRow(x));
    CandidateKinds(after, mandates, a, key, OfRow(y));
    forall c | c in cs ensures c == OfRow(x) || c == OfRow(y) || Beats(OfRow(x), c) {
      CandidateKinds(after, mandates, a, key, c);
      if c !in BuiltIn(key) {
        var row :| row in after && RowApplies(row, a) && row.key == key && OfRow(row) == c;
        OthersLoseToShare(cfg, rows, t, first, second, track, row);
      }
    }
    ShareTie(cfg, first, second, track);
    TiedNumsMeet(cs, OfRow(x), OfRow(y));
  }

  lemma BuiltInLoses(cfg: Config, call: Call, track: Split)
    ensures forall c :: c in BuiltIn(AllocationKey(track)) ==> Beats(OfRow(ShareRow(cfg, call, track)), c)
  {
  }

  lemma ShareTie(cfg: Config, first: Call, second: Call, track: Split)
    requires first.at == second.at && !first.adaptive && !second.adaptive
    ensures var x, y := OfRow(ShareRow(cfg, first, track)), OfRow(ShareRow(cfg, second, track));
            && !Beats(x, y) && !Beats(y, x)
            && x.value == Num(ShareOf(first, track) as real) && y.value == Num(ShareOf(second, track) as real)
    ensures ShareRow(cfg, first, track).key == AllocationKey(track)
            && ShareRow(cfg, second, track).key == AllocationKey(track)
  {
  }

  /**
   Why the times must increase: two operator calls at one moment are resolved key by key, to the
   smaller share of each track, so the effective pair sums to 100 exactly when they agree.
   */
  lemma SameMomentSharesSumExactlyWhenEqual(cfg: Config, rows: seq<PolicyRow>, mandates: seq<Mandate>,
      t: Time, first: Call, second: Call, a: Asker)
    requires Orderly(cfg, rows, t) && t < first.at == second.at && !first.adaptive && !second.adaptive
             && a.company == cfg.company
    requires Acceptable(first) && Acceptable(second)
    ensures var after := rows + NewRows(cfg, first) + NewRows(cfg, second);
            var core, lab :=
              Effective(after, mandates, a, ALLOCATION_CORE), Effective(after, mandates, a, ALLOCATION_LAB);
            && core.Some? && core.value.value == Num(Min(first.core, second.core) as real)
            && lab.Some? && lab.value.value == Num(Min(first.lab, second.lab) as real)
            && (core.value.value.n + lab.value.value.n == 100.0 <==> first.core == second.core)
  {
    SharesMeet(cfg, rows, mandates, t, first, second, a, Core);
    SharesMeet(cfg, rows, mandates, t, first, second, a, Lab);
  }

  lemma TiedBoolsMeet(cs: seq<Candidate>, x: Candidate, y: Candidate)
    requires x in cs && y in cs && x.value.Bool? && y.value.Bool? && !Beats(x, y) && !Beats(y, x)
    requires forall c :: c in cs ==> c == x || c == y || Beats(x, c)
    ensures TopClass(cs) != []
    ensures Winner(cs).value == Bool(x.value.b && y.value.b)
  {
    TopClassFacts(cs);
    forall c | c in TopClass(cs) ensures c == x || c == y {}
    assert Unbeaten(x, cs) && Unbeaten(y, cs);
    MeetOfBools(TopClass(cs));
  }

  lemma OthersLoseToLock(
    cfg: Config, rows: seq<PolicyRow>, t: Time, first: Call, second: Call, a: Asker, track: Split, row: PolicyRow)
    requires Orderly(cfg, rows, t) && t < first.at == second.at && !first.adaptive && !second.adaptive
    requires row in rows || row in NewRows(cfg, first) || row in NewRows(cfg, second)
    requires row.key == TRACK_LOCKED && RowApplies(row, a) && a.track == TrackName(track)
    ensures var x, y := LockRow(first, track), LockRow(second, track);
            row == x || row == y || Beats(OfRow(x), OfRow(row))
  {
    KeysDiffer();
    if row in rows {
      assert LockRow(first, track) in NewRows(cfg, first);
      OldRowsAreBeaten(cfg, rows, t, first, row, LockRow(first, track));
    }
  }

  lemma LockTie(first: Call, second: Call, track: Split)
    requires first.at == second.at && !first.adaptive && !second.adaptive
    ensures var x, y := OfRow(LockRow(first, track)), OfRow(LockRow(second, track));
            && !Beats(x, y) && !Beats(y, x)
            && x.value == Bool(ShareOf(first, track) == 0) && y.value == Bool(ShareOf(second, track) == 0)
            && forall c :: c in BuiltIn(TRACK_LOCKED) ==> Beats(x, c)
  {
  }

  lemma LocksMeet(
    cfg: Config, rows: seq<PolicyRow>, mandates: seq<Mandate>, t: Time, first: Call, second: Call, a: Asker,
    track: Split)
    requires Orderly(cfg, rows, t) && t < first.at == second.at && !first.adaptive && !second.adaptive
    requires a.track == TrackName(track)
    ensures var e := Effective(rows + NewRows(cfg, first) + NewRows(cfg, second), mandates, a, TRACK_LOCKED);
            e.Some? && e.value.value == Bool(ShareOf(first, track) == 0 && ShareOf(second, track) == 0)
  {
    var after := rows + NewRows(cfg, first) + NewRows(cfg, second);
    var x, y := LockRow(first, track), LockRow(second, track);
    var cs := Candidates(after, mandates, a, TRACK_LOCKED);
    assert x in NewRows(cfg, first) && y in NewRows(cfg, second);
    assert x in after && y in after && RowApplies(x, a) && RowApplies(y, a);
    assert x.key == TRACK_LOCKED && y.key == TRACK_LOCKED;
    LockTie(first, second, track);
    hide Candidates, BuiltIn, RowApplies, NewRows, LockRow;
    CandidateKinds(after, mandates, a, TRACK_LOCKED, OfRow(x));
    CandidateKinds(after, mandates, a, TRACK_LOCKED, OfRow(y));
    forall c | c in cs ensures c == OfRow(x) || c == OfRow(y) || Beats(OfRow(x), c) {
      CandidateKinds(after, mandates, a, TRACK_LOCKED, c);
      if c !in BuiltIn(TRACK_LOCKED) {
        var row :| row in after && RowApplies(row, a) && row.key == TRACK_LOCKED && OfRow(row) == c;
        OthersLoseToLock(cfg, rows, t, first, second, a, track, row);
      }
    }
    TiedBoolsMeet(cs, OfRow(x), OfRow(y));
  }

  /**
   Nor need lock and share agree then: the lock of a track falls to the call that leaves it open, its
   share to the smaller one. A track has no share and is yet unlocked exactly if one call alone locks it.
   */
  lemma SameMomentLockAgreesExactly(
    cfg: Config, rows: seq<PolicyRow>, mandates: seq<Mandate>, t: Time, first: Call, second: Call, a: Asker,
    track: Split)
    requires Orderly(cfg, rows, t) && t < first.at == second.at && !first.adaptive && !second.adaptive
    requires a.company == cfg.company && a.track == TrackName(track) && Acceptable(first) && Acceptable(second)
    ensures var after := rows + NewRows(cfg, first) + NewRows(cfg, second);
            var share, lock :=
              Effective(after, mandates, a, AllocationKey(track)), Effective(after, mandates, a, TRACK_LOCKED);
            && share.Some? && share.value.value.Num? && lock.Some? && lock.value.value.Bool?
            && (lock.value.value.b ==> share.value.value.n == 0.0)
            && ((lock.value.value.b <==> share.value.value.n == 0.0)
                <==> (ShareOf(first, track) == 0 <==> ShareOf(second, track) == 0))
  {
    hide Effective, NewRows, Orderly;
    SharesMeet(cfg, rows, mandates, t, first, second, a, track);
    LocksMeet(cfg, rows, mandates, t, first, second, a, track);
  }

  /******* Crashes *******/

  /** Write-ahead: whomever the bridge holds is paused, and the ledger says so. */
  ghost predicate WriteAhead(w: World) {
    forall a :: a in w.held ==> a in w.agents && w.agents[a].status.Paused? && IsOpen(w.ledger, a)
  }

  /** A write that cannot break the write-ahead rule. */
  ghost predicate Guarded(w: World, x: Write) {
    match x
    case PutLedger(_, entry) => entry.releasedAt.None?
    case Release(a, _) => a !in w.held
    case SetPaused(a) => IsOpen(w.ledger, a)
    case _ => true
  }

  ghost predicate GuardedAll(w: World, ws: seq<Write>)
    decreases |ws|
  {
    ws == [] || (Guarded(w, ws[0]) && GuardedAll(Apply(w, ws[0]), ws[1..]))
  }

  lemma GuardedKeepsWriteAhead(w: World, x: Write)
    requires WriteAhead(w) && Guarded(w, x)
    ensures WriteAhead(Apply(w, x))
  {
  }

  lemma {:induction false} GuardedPrefixes(w: World, ws: seq<Write>, k: nat)
    requires WriteAhead(w) && GuardedAll(w, ws) && k <= |ws|
    ensures WriteAhead(Exec(w, ws[..k]))
    decreases |ws|
  {
    if k > 0 {
      GuardedKeepsWriteAhead(w, ws[0]);
      assert ws[..k][1..] == ws[1..][..k - 1];
      GuardedPrefixes(Apply(w, ws[0]), ws[1..], k - 1);
    }
  }

  lemma {:induction false} GuardedConcat(w: World, xs: seq<Write>, ys: seq<Write>)
    requires GuardedAll(w, xs) && GuardedAll(Exec(w, xs), ys)
    ensures GuardedAll(w, xs + ys)
    decreases |xs|
  {
    if xs == [] {
      assert xs + ys == ys;
    } else {
      assert (xs + ys)[1..] == xs[1..] + ys;
      GuardedConcat(Apply(w, xs[0]), xs[1..], ys);
    }
  }

  lemma GuardedOneTwo(w: World, x: Write, y: Write)
    ensures GuardedAll(w, [x]) <==> Guarded(w, x)
    ensures GuardedAll(w, [x, y]) <==> Guarded(w, x) && Guarded(Apply(w, x), y)
  {
    assert GuardedAll(w, [x]) <==> Guarded(w, x) by { assert [x][1..] == []; }
    assert [x, y][1..] == [y];
    assert GuardedAll(Apply(w, x), [y]) <==> Guarded(Apply(w, x), y) by { assert [y][1..] == []; }
  }

  /** What the listing still tells of a step's agents: which of them are paused. */
  ghost predicate StatusListed(w: World, before: map<string, Agent>, ids: seq<string>) {
    forall a :: a in ids ==> a in w.agents && a in before && w.agents[a].status == before[a].status
  }

  ghost predicate OthersStay(w: World, w': World, ids: seq<string>) {
    && w'.agents.Keys == w.agents.Keys
    && forall a :: a in w.agents && a !in ids ==> w'.agents[a].status == w.agents[a].status
  }

  lemma LockAgentGuarded(w: World, before: Agent, a: string, t: Split, call: Call)
    ensures var ws := LockAgent(w, before, a, t, call); GuardedAll(w, ws) && OthersStay(w, Exec(w, ws), [a])
  {
    var ws := LockAgent(w, before, a, t, call);
    if |ws| == 1 {
      assert ws == [ws[0]];
      GuardedOneTwo(w, ws[0], ws[0]);
      ExecOneTwo(w, ws[0], ws[0]);
    } else if |ws| == 2 {
      assert ws == [ws[0], ws[1]];
      GuardedOneTwo(w, ws[0], ws[1]);
      ExecOneTwo(w, ws[0], ws[1]);
    }
  }

  lemma UnlockAgentGuarded(w: World, before: Agent, a: string, call: Call)
    requires WriteAhead(w) && a in w.agents && w.agents[a].status == before.status
    ensures var ws := UnlockAgent(w, before, a, call); GuardedAll(w, ws) && OthersStay(w, Exec(w, ws), [a])
  {
    var ws := UnlockAgent(w, before, a, call);
    if |ws| == 1 {
      assert ws == [ws[0]];
      GuardedOneTwo(w, ws[0], ws[0]);
      ExecOneTwo(w, ws[0], ws[0]);
    } else if |ws| == 2 {
      assert ws == [ws[0], ws[1]];
      GuardedOneTwo(w, ws[0], ws[1]);
      ExecOneTwo(w, ws[0], ws[1]);
    }
  }

  lemma RestStaysListed(w: World, w1: World, before: map<string, Agent>, ids: seq<string>)
    requires ids != [] && Distinct(ids) && StatusListed(w, before, ids) && OthersStay(w, w1, [ids[0]])
    ensures Distinct(ids[1..]) && StatusListed(w1, before, ids[1..])
  {
    forall a | a in ids[1..] ensures a in w1.agents && a in before && w1.agents[a].status == before[a].status {
      assert a in ids && a != ids[0];
    }
  }

  lemma {:induction false} LockAllGuarded(w: World, before: map<string, Agent>, ids: seq<string>, t: Split, call: Call)
    requires Listed(before, ids)
    ensures var ws := LockAll(w, before, ids, t, call); GuardedAll(w, ws) && OthersStay(w, Exec(w, ws), ids)
    decreases |ids|
  {
    if ids != [] {
      assert ids == [ids[0]] + ids[1..];
      var ws := LockAgent(w, before[ids[0]], ids[0], t, call);
      var w1 := Exec(w, ws);
      LockAgentGuarded(w, before[ids[0]], ids[0], t, call);
      LockAllGuarded(w1, before, ids[1..], t, call);
      GuardedConcat(w, ws, LockAll(w1, before, ids[1..], t, call));
      ExecConcat(w, ws, LockAll(w1, before, ids[1..], t, call));
    }
  }

  lemma {:induction false} UnlockAllGuarded(w: World, before: map<string, Agent>, ids: seq<string>, call: Call)
    requires Listed(before, ids) && Distinct(ids) && StatusListed(w, before, ids) && WriteAhead(w)
    ensures var ws := UnlockAll(w, before, ids, call); GuardedAll(w, ws) && OthersStay(w, Exec(w, ws), ids)
    decreases |ids|
  {
    if ids != [] {
      assert ids == [ids[0]] + ids[1..];
      var ws := UnlockAgent(w, before[ids[0]], ids[0], call);
      var w1 := Exec(w, ws);
      UnlockAgentGuarded(w, before[ids[0]], ids[0], call);
      GuardedPrefixes(w, ws, |ws|);
      assert ws[..|ws|] == ws;
      RestStaysListed(w, w1, before, ids);
      UnlockAllGuarded(w1, before, ids[1..], call);
      GuardedConcat(w, ws, UnlockAll(w1, before, ids[1..], call));
      ExecConcat(w, ws, UnlockAll(w1, before, ids[1..], call));
    }
  }

  /** Writes of policies, settings and track states are never a risk to the write-ahead rule. */
  predicate Harmless(x: Write) {
    x.InsertPolicy? || x.SetSlots? || x.SetTrack?
  }

  lemma {:induction false} HarmlessGuarded(w: World, ws: seq<Write>)
    requires forall x :: x in ws ==> Harmless(x)
    ensures GuardedAll(w, ws) && OthersStay(w, Exec(w, ws), [])
    decreases |ws|
  {
    if ws != [] {
      assert ws[0] in ws && Harmless(ws[0]);
      HarmlessGuarded(Apply(w, ws[0]), ws[1..]);
    }
  }

  lemma {:induction false} SlotWritesHarmless(before: map<string, Agent>, ids: seq<string>, slots: int)
    requires Listed(before, ids)
    ensures forall x :: x in SlotWrites(before, ids, slots) ==> Harmless(x)
  {
    if ids != [] { SlotWritesHarmless(before, ids[1..], slots); }
  }

  lemma ThenHarmless(w: World, ws: seq<Write>, rest: seq<Write>, ids: seq<string>)
    requires GuardedAll(w, ws) && OthersStay(w, Exec(w, ws), ids) && forall x :: x in rest ==> Harmless(x)
    ensures GuardedAll(w, ws + rest) && OthersStay(w, Exec(w, ws + rest), ids)
  {
    HarmlessGuarded(Exec(w, ws), rest);
    GuardedConcat(w, ws, rest);
    ExecConcat(w, ws, rest);
    hide GuardedAll, Exec;
  }

  lemma TrackPlanGuarded(cfg: Config, w: World, before: map<string, Agent>, t: Split, ids: seq<string>,
      labAgents: nat, call: Call)
    requires Listed(before, ids) && Distinct(ids) && StatusListed(w, before, ids) && WriteAhead(w)
    ensures var ws := TrackPlan(cfg, w, before, t, ids, labAgents, call).writes;
            GuardedAll(w, ws) && OthersStay(w, Exec(w, ws), ids)
  {
    hide GuardedAll, OthersStay, Exec, WriteAhead, StatusListed, Distinct, LockAll, UnlockAll, SlotWrites, SlotPlan;
    var last := [SetTrack(t, StateRow(call, t))];
    if ShareOf(call, t) == 0 {
      LockAllGuarded(w, before, ids, t, call);
      ThenHarmless(w, LockAll(w, before, ids, t, call), last, ids);
    } else {
      var ws := UnlockAll(w, before, ids, call);
      UnlockAllGuarded(w, before, ids, call);
      if cfg.slotBudget > 0 {
        var plan := SlotPlan(call.core, call.lab, cfg.slotBudget, labAgents);
        var slots := if t.Core? then plan.core else plan.perLabAgent;
        SlotWritesHarmless(before, ids, slots);
        ThenHarmless(w, ws, SlotWrites(before, ids, slots) + last, ids);
        assert ws + SlotWrites(before, ids, slots) + last == ws + (SlotWrites(before, ids, slots) + last);
      }
    }
  }

  /** The tracks share no agent, as far as the selectors resolve. */
  ghost predicate DisjointTracks(cfg: Config, w: World) {
    AgentsOf(cfg, w, Core).Ok? && AgentsOf(cfg, w, Lab).Ok? ==> Distinct(Members(cfg, w))
  }

  lemma AllocationPlanGuarded(cfg: Config, w: World, call: Call)
    requires WriteAhead(w) && DisjointTracks(cfg, w)
    ensures GuardedAll(w, AllocationPlan(cfg, w, call).writes)
  {
    var plan, policies := AllocationPlan(cfg, w, call), PolicyWrites(cfg, call);
    if plan.writes != [] {
      HarmlessGuarded(w, policies);
      PolicyWritesAppend(cfg, w, call);
      var core, lab := AgentsOf(cfg, w, Core), AgentsOf(cfg, w, Lab);
      if core.Ok? && lab.Ok? {
        ResolvedExist(w.roster, w.agents, cfg.core);
        ResolvedExist(w.roster, w.agents, cfg.lab);
        SplitDistinct(core.value, lab.value);
        var w0 := Exec(w, policies);
        TrackPlanGuarded(cfg, w0, w.agents, Core, core.value, |lab.value|, call);
        var first := TrackPlan(cfg, w0, w.agents, Core, core.value, |lab.value|, call).writes;
        GuardedConcat(w, policies, first);
        ExecConcat(w, policies, first);
        GuardedPrefixes(w0, first, |first|);
        assert first[..|first|] == first;
        var w1 := Exec(w0, first);
        if TrackPlan(cfg, w0, w.agents, Core, core.value, |lab.value|, call).outcome.Applied? {
          TrackPlanGuarded(cfg, w1, w.agents, Lab, lab.value, |lab.value|, call);
          GuardedConcat(w, policies + first, TrackPlan(cfg, w1, w.agents, Lab, lab.value, |lab.value|, call).writes);
        }
      }
    }
  }

  /** Wherever a call dies, every agent it had paused by then is in the ledger. */
  lemma CallIsWriteAhead(cfg: Config, w: World, call: Call, k: nat)
    requires WriteAhead(w) && DisjointTracks(cfg, w) && k <= |AllocationPlan(cfg, w, call).writes|
    ensures WriteAhead(Exec(w, AllocationPlan(cfg, w, call).writes[..k]))
  {
    AllocationPlanGuarded(cfg, w, call);
    GuardedPrefixes(w, AllocationPlan(cfg, w, call).writes, k);
  }

  /******* Re-asserting the lock after a restart *******/

  datatype Verdict = Positive | NotPositive | Broken

  /** How the restart reads an effective share; a non-empty text or list cannot be compared and raises. */
  function ReadShare(e: Option<Candidate>): Verdict {
    if e.None? then Positive
    else
      match e.value.value
      case Num(n) => if n > 0.0 then Positive else NotPositive
      case Bool(b) => if b then Positive else NotPositive
      case Null => NotPositive
      case Text(text) => if text == "" then NotPositive else Broken
      case Items(items) => if items == [] then NotPositive else Broken
  }

  function TrackVerdict(cfg: Config, w: World, t: Split, now: Time): Verdict {
    ReadShare(Effective(w.policies, w.mandates, AskerOf(cfg, None, t, now), AllocationKey(t)))
  }

  function EntryVerdict(cfg: Config, w: World, a: string, now: Time): Verdict
    requires a in w.ledger
  {
    TrackVerdict(cfg, w, w.ledger[a].track, now)
  }

  /** The pass raises here: the share cannot be read, or the board no longer knows the agent. */
  predicate StopsAt(cfg: Config, w: World, a: string, now: Time) {
    IsOpen(w.ledger, a) && (EntryVerdict(cfg, w, a, now).Broken? || a !in w.agents)
  }

  function ReconcileEntry(cfg: Config, w: World, a: string, now: Time): seq<Write> {
    if !IsOpen(w.ledger, a) || a !in w.agents then []
    else if EntryVerdict(cfg, w, a, now).Positive? then [Release(a, now)]
    else if w.agents[a].status.Paused? then []
    else [SetPaused(a)]
  }

  /** order lists the ledger rows as the store returns them. */
  function ReconcilePlan(cfg: Config, w: World, order: seq<string>, now: Time): seq<Write>
    decreases |order|
  {
    if order == [] || StopsAt(cfg, w, order[0], now) then []
    else
      var ws := ReconcileEntry(cfg, w, order[0], now);
      ws + ReconcilePlan(cfg, Exec(w, ws), order[1..], now)
  }

  function Reconcile(cfg: Config, w: World, order: seq<string>, now: Time): World {
    Exec(w, ReconcilePlan(cfg, w, order, now))
  }

  ghost predicate Stoppable(cfg: Config, w: World, order: seq<string>, now: Time) {
    exists a :: a in order && StopsAt(cfg, w, a, now)
  }

  /** What one row asks of the pass, read off the world before it. */
  ghost predicate EntryDone(cfg: Config, w: World, w': World, a: string, now: Time) {
    if !IsOpen(w.ledger, a) || a !in w.agents then
      && Lookup(w'.ledger, a) == Lookup(w.ledger, a) && Lookup(w'.agents, a) == Lookup(w.agents, a)
      && (a in w'.held <==> a in w.held)
    else if EntryVerdict(cfg, w, a, now).Positive? then
      Lookup(w'.ledger, a) == Some(w.ledger[a].(releasedAt := Some(now)))
      && Lookup(w'.agents, a) == Lookup(w.agents, a) && (a in w'.held <==> a in w.held)
    else
      Lookup(w'.ledger, a) == Lookup(w.ledger, a) && a in w'.agents && w'.agents[a].status.Paused?
      && (a in w.held ==> a in w'.held) && (w.agents[a].status.Paused? ==> (a in w'.held <==> a in w.held))
  }

  /** Rows not in ids, and everything but agents, ledger and history, stay. */
  ghost predicate PassFrame(w: World, w': World, ids: seq<string>) {
    && w'.policies == w.policies && w'.mandates == w.mandates && w'.roster == w.roster && w'.tracks == w.tracks
    && w'.agents.Keys == w.agents.Keys && w'.ledger.Keys == w.ledger.Keys
    && (forall a :: a in w.ledger ==> w'.ledger[a].track == w.ledger[a].track)
    && (forall a :: a !in ids ==>
          && Lookup(w'.ledger, a) == Lookup(w.ledger, a) && Lookup(w'.agents, a) == Lookup(w.agents, a)
          && (a in w'.held <==> a in w.held))
  }

  lemma EntryIs(cfg: Config, w: World, a: string, now: Time)
    requires !StopsAt(cfg, w, a, now)
    ensures var w' := Exec(w, ReconcileEntry(cfg, w, a, now)); EntryDone(cfg, w, w', a, now) && PassFrame(w, w', [a])
  {
    var ws := ReconcileEntry(cfg, w, a, now);
    if ws != [] {
      assert ws == [ws[0]];
      ExecOneTwo(w, ws[0], ws[0]);
    }
  }

  lemma FrameKeepsVerdicts(cfg: Config, w: World, w': World, ids: seq<string>, a: string, now: Time)
    requires PassFrame(w, w', ids)
    ensures a in w.ledger ==> a in w'.ledger && EntryVerdict(cfg, w', a, now) == EntryVerdict(cfg, w, a, now)
    ensures a !in ids
            ==> IsOpen(w'.ledger, a) == IsOpen(w.ledger, a) && StopsAt(cfg, w', a, now) == StopsAt(cfg, w, a, now)
  {
    if a !in ids { assert Lookup(w'.ledger, a) == Lookup(w.ledger, a); }
  }

  /** A pass that does not raise does for every row what the row asks, and nothing else. */
  lemma {:induction false} ReconcileIs(cfg: Config, w: World, order: seq<string>, now: Time)
    requires Distinct(order) && !Stoppable(cfg, w, order, now)
    ensures var w' := Reconcile(cfg, w, order, now);
            PassFrame(w, w', order) && forall a :: a in order ==> EntryDone(cfg, w, w', a, now)
    decreases |order|
  {
    if order != [] {
      var a, rest := order[0], order[1..];
      assert order == [a] + rest && a in order && a !in rest;
      hide PassFrame, EntryDone, StopsAt, ReconcileEntry;
      var ws := ReconcileEntry(cfg, w, a, now);
      var w1 := Exec(w, ws);
      EntryIs(cfg, w, a, now);
      forall x | x in rest ensures x != a && !StopsAt(cfg, w1, x, now) {
        assert x in order;
        FrameKeepsVerdicts(cfg, w, w1, [a], x, now);
      }
      ReconcileIs(cfg, w1, rest, now);
      var w2 := Reconcile(cfg, w1, rest, now);
      ExecConcat(w, ws, ReconcilePlan(cfg, w1, rest, now));
      forall x | x in rest ensures EntryDone(cfg, w, w2, x, now) {
        EntryDoneLater(cfg, w, w1, w2, a, x, now);
      }
      HeadStaysDone(cfg, w, w1, w2, a, rest, now);
      FrameChain(w, w1, w2, a, rest);
    }
  }

  lemma HeadStaysDone(cfg: Config, w: World, w1: World, w2: World, a: string, rest: seq<string>, now: Time)
    requires EntryDone(cfg, w, w1, a, now) && PassFrame(w1, w2, rest) && a !in rest
    ensures EntryDone(cfg, w, w2, a, now)
  {
    hide EntryVerdict;
    assert Lookup(w2.ledger, a) == Lookup(w1.ledger, a) && Lookup(w2.agents, a) == Lookup(w1.agents, a);
  }

  lemma EntryDoneLater(cfg: Config, w: World, w1: World, w2: World, a: string, x: string, now: Time)
    requires PassFrame(w, w1, [a]) && x != a && EntryDone(cfg, w1, w2, x, now)
    ensures EntryDone(cfg, w, w2, x, now)
  {
    FrameKeepsVerdicts(cfg, w, w1, [a], x, now);
    assert Lookup(w1.ledger, x) == Lookup(w.ledger, x) && Lookup(w1.agents, x) == Lookup(w.agents, x);
  }

  lemma FrameChain(w: World, w1: World, w2: World, a: string, rest: seq<string>)
    requires PassFrame(w, w1, [a]) && PassFrame(w1, w2, rest)
    ensures PassFrame(w, w2, [a] + rest)
  {
  }

  ghost predicate Enumerates(order: seq<string>, w: World) {
    Distinct(order) && forall a :: a in order <==> a in w.ledger
  }

  /**
   The pass keeps the write-ahead rule exactly when no agent the bridge holds has a track whose
   share is positive: such a row is closed without a resume.
   */
  lemma ReconcileIsWriteAheadExactly(cfg: Config, w: World, order: seq<string>, now: Time)
    requires WriteAhead(w) && Enumerates(order, w) && !Stoppable(cfg, w, order, now)
    ensures WriteAhead(Reconcile(cfg, w, order, now))
            <==> forall a :: a in w.held ==> !EntryVerdict(cfg, w, a, now).Positive?
  {
    var w' := Reconcile(cfg, w, order, now);
    ReconcileIs(cfg, w, order, now);
    if forall a :: a in w.held ==> !EntryVerdict(cfg, w, a, now).Positive? {
      forall a | a in w'.held ensures a in w'.agents && w'.agents[a].status.Paused? && IsOpen(w'.ledger, a) {
        assert a in order || a !in w.ledger;
        if a in order { assert EntryDone(cfg, w, w', a, now); }
        assert Lookup(w'.agents, a) == Lookup(w.agents, a) || a in order;
      }
    } else {
      var a :| a in w.held && EntryVerdict(cfg, w, a, now).Positive?;
      assert EntryDone(cfg, w, w', a, now);
      assert a in w'.held && !IsOpen(w'.ledger, a);
    }
  }

  /** Every row still open after the pass has its agent paused, and rows of locked tracks do stay open. */
  lemma ReconcileReasserts(cfg: Config, w: World, order: seq<string>, now: Time)
    requires Enumerates(order, w) && !Stoppable(cfg, w, order, now)
    ensures var w' := Reconcile(cfg, w, order, now);
            && (forall a :: IsOpen(w'.ledger, a) <==> IsOpen(w.ledger, a) && !EntryVerdict(cfg, w, a, now).Positive?)
            && (forall a :: IsOpen(w'.ledger, a) ==> a in w'.agents && w'.agents[a].status.Paused?)
  {
    var w' := Reconcile(cfg, w, order, now);
    ReconcileIs(cfg, w, order, now);
    forall a
      ensures IsOpen(w'.ledger, a) <==> IsOpen(w.ledger, a) && !EntryVerdict(cfg, w, a, now).Positive?
      ensures IsOpen(w'.ledger, a) ==> a in w'.agents && w'.agents[a].status.Paused?
    {
      if a in order {
        assert EntryDone(cfg, w, w', a, now);
        assert !StopsAt(cfg, w, a, now);
      } else {
        assert a !in w.ledger && a !in w'.ledger;
      }
    }
  }

  lemma {:induction false} SettledPlanIsEmpty(cfg: Config, w: World, order: seq<string>, now: Time)
    requires forall a :: a in order && IsOpen(w.ledger, a) ==>
               a in w.agents && w.agents[a].status.Paused? && !EntryVerdict(cfg, w, a, now).Positive?
    ensures ReconcilePlan(cfg, w, order, now) == []
    decreases |order|
  {
    if order != [] {
      assert order[0] in order && forall a :: a in order[1..] ==> a in order;
      SettledPlanIsEmpty(cfg, w, order[1..], now);
    }
  }

  /** A second pass writes nothing. */
  lemma ReconcileIsIdempotent(cfg: Config, w: World, order: seq<string>, now: Time)
    requires Enumerates(order, w) && !Stoppable(cfg, w, order, now)
    ensures ReconcilePlan(cfg, Reconcile(cfg, w, order, now), order, now) == []
  {
    var w' := Reconcile(cfg, w, order, now);
    ReconcileIs(cfg, w, order, now);
    ReconcileReasserts(cfg, w, order, now);
    forall a | a in order && IsOpen(w'.ledger, a) ensures !EntryVerdict(cfg, w', a, now).Positive? {
      FrameKeepsVerdicts(cfg, w, w', order, a, now);
    }
    SettledPlanIsEmpty(cfg, w', order, now);
  }

  /** The pass never resumes anyone and never writes a ledger entry of its own. */
  lemma {:induction false} ReconcileNeverResumes(cfg: Config, w: World, order: seq<string>, now: Time)
    ensures forall x :: x in ReconcilePlan(cfg, w, order, now) ==>
              (x.SetPaused? || x.Release?) && x.agent in w.ledger && x.agent in order
    decreases |order|
  {
    hide EntryVerdict, Apply;
    if order != [] && !StopsAt(cfg, w, order[0], now) {
      var ws := ReconcileEntry(cfg, w, order[0], now);
      EntryIs(cfg, w, order[0], now);
      ReconcileNeverResumes(cfg, Exec(w, ws), order[1..], now);
      assert order == [order[0]] + order[1..];
    }
  }

  /******* Agents a call leaves alone *******/

  predicate Touches(x: Write, a: string) {
    (x.PutLedger? || x.Release? || x.SetPaused? || x.SetIdle?) && x.agent == a
  }

  lemma UntouchedOnce(w: World, x: Write, a: string)
    requires !Touches(x, a)
    ensures var w' := Apply(w, x);
            && Lookup(w'.ledger, a) == Lookup(w.ledger, a)
            && (a in w'.agents <==> a in w.agents)
            && (a in w.agents ==> w'.agents[a].status == w.agents[a].status && w'.agents[a].holds == w.agents[a].holds)
            && (a in w'.held <==> a in w.held)
  {
  }

  lemma {:induction false} UntouchedStays(w: World, ws: seq<Write>, a: string)
    requires forall x :: x in ws ==> !Touches(x, a)
    ensures var w' := Exec(w, ws);
            && Lookup(w'.ledger, a) == Lookup(w.ledger, a)
            && (a in w'.agents <==> a in w.agents)
            && (a in w.agents ==> w'.agents[a].status == w.agents[a].status && w'.agents[a].holds == w.agents[a].holds)
            && (a in w'.held <==> a in w.held)
    decreases |ws|
  {
    if ws != [] {
      assert ws[0] in ws;
      UntouchedOnce(w, ws[0], a);
      hide Apply, Touches;
      UntouchedStays(Apply(w, ws[0]), ws[1..], a);
    }
  }

  lemma {:induction false} LockAllSkips(w: World, before: map<string, Agent>, ids: seq<string>, t: Split,
      call: Call, a: string)
    requires Listed(before, ids) && (a in ids ==> before[a].status.Paused? && a !in w.ledger)
    ensures forall x :: x in LockAll(w, before, ids, t, call) ==> !Touches(x, a)
    decreases |ids|
  {
    if ids != [] {
      var ws := LockAgent(w, before[ids[0]], ids[0], t, call);
      assert ids[0] in ids && forall x :: x in ws ==> !Touches(x, a);
      assert forall b :: b in ids[1..] ==> b in ids;
      UntouchedStays(w, ws, a);
      LockAllSkips(Exec(w, ws), before, ids[1..], t, call, a);
    }
  }

  lemma {:induction false} UnlockAllSkips(w: World, before: map<string, Agent>, ids: seq<string>, call: Call, a: string)
    requires Listed(before, ids) && !IsOpen(w.ledger, a)
    ensures forall x :: x in UnlockAll(w, before, ids, call) ==> !Touches(x, a)
    decreases |ids|
  {
    if ids != [] {
      var ws := UnlockAgent(w, before[ids[0]], ids[0], call);
      assert forall x :: x in ws ==> !Touches(x, a);
      UntouchedStays(w, ws, a);
      UnlockAllSkips(Exec(w, ws), before, ids[1..], call, a);
    }
  }

  /** Paused, with no open row, and either never in the ledger or in no track that the call locks. */
  ghost predicate Spared(cfg: Config, w: World, call: Call, a: string) {
    && a in w.agents && w.agents[a].status.Paused? && !IsOpen(w.ledger, a)
    && (a in w.ledger ==>
          forall t :: ShareOf(call, t) == 0 && AgentsOf(cfg, w, t).Ok? ==> a !in AgentsOf(cfg, w, t).value)
  }

  lemma TrackPlanSkips(cfg: Config, w: World, before: map<string, Agent>, t: Split, ids: seq<string>,
      labAgents: nat, call: Call, a: string)
    requires Listed(before, ids) && !IsOpen(w.ledger, a)
    requires ShareOf(call, t) == 0 && a in ids ==> before[a].status.Paused? && a !in w.ledger
    ensures forall x :: x in TrackPlan(cfg, w, before, t, ids, labAgents, call).writes ==> !Touches(x, a)
  {
    if ShareOf(call, t) == 0 {
      LockAllSkips(w, before, ids, t, call, a);
    } else {
      UnlockAllSkips(w, before, ids, call, a);
      var plan := SlotPlan(call.core, call.lab, if cfg.slotBudget > 0 then cfg.slotBudget else 1, labAgents);
      SlotWritesHarmless(before, ids, if t.Core? then plan.core else plan.perLabAgent);
    }
  }

  lemma PlanSkips(cfg: Config, w: World, call: Call, a: string)
    requires Spared(cfg, w, call, a)
    ensures forall x :: x in AllocationPlan(cfg, w, call).writes ==> !Touches(x, a)
  {
    forall x | x in AllocationPlan(cfg, w, call).writes ensures !Touches(x, a) {
      PlanMembers(cfg, w, call, x);
      if Resolvable(cfg, w) { TracksSkip(cfg, w, call, a); }
    }
  }

  lemma TracksSkip(cfg: Config, w: World, call: Call, a: string)
    requires Spared(cfg, w, call, a) && Resolvable(cfg, w)
    ensures forall x :: x in CorePlan(cfg, w, call).writes || x in LabPlan(cfg, w, call).writes ==> !Touches(x, a)
  {
    ResolvedExist(w.roster, w.agents, cfg.core);
    ResolvedExist(w.roster, w.agents, cfg.lab);
    PolicyWritesAppend(cfg, w, call);
    var core, lab := AgentsOf(cfg, w, Core).value, AgentsOf(cfg, w, Lab).value;
    var w0 := Exec(w, PolicyWrites(cfg, call));
    var first := CorePlan(cfg, w, call).writes;
    TrackPlanSkips(cfg, w0, w.agents, Core, core, |lab|, call, a);
    assert forall x :: x in first ==> !Touches(x, a);
    UntouchedStays(w0, first, a);
    TrackPlanSkips(cfg, Exec(w0, first), w.agents, Lab, lab, |lab|, call, a);
  }

  /** Wherever a call dies, a spared agent is paused as before and its ledger row is what it was. */
  lemma SparedStays(cfg: Config, w: World, call: Call, a: string, k: nat)
    requires Spared(cfg, w, call, a) && k <= |AllocationPlan(cfg, w, call).writes|
    ensures var w' := Exec(w, AllocationPlan(cfg, w, call).writes[..k]);
            a in w'.agents && w'.agents[a].status.Paused? && Lookup(w'.ledger, a) == Lookup(w.ledger, a)
  {
    PlanSkips(cfg, w, call, a);
    UntouchedStays(w, AllocationPlan(cfg, w, call).writes[..k], a);
  }

  /******* Adaptive calls and settings *******/

  lemma {:induction false} UnlockAllOnlyResumes(w: World, before: map<string, Agent>, ids: seq<string>, call: Call)
    requires Listed(before, ids)
    ensures forall x :: x in UnlockAll(w, before, ids, call) ==> x.SetIdle? || x.Release?
    decreases |ids|
  {
    if ids != [] {
      UnlockAllOnlyResumes(Exec(w, UnlockAgent(w, before[ids[0]], ids[0], call)), before, ids[1..], call);
    }
  }

  lemma UnlockingTrackOnlyResumes(cfg: Config, w: World, before: map<string, Agent>, t: Split,
      ids: seq<string>, labAgents: nat, call: Call)
    requires Listed(before, ids) && ShareOf(call, t) > 0
    ensures forall x :: x in TrackPlan(cfg, w, before, t, ids, labAgents, call).writes ==>
             !x.SetPaused? && !x.PutLedger?
  {
    UnlockAllOnlyResumes(w, before, ids, call);
    if cfg.slotBudget > 0 {
      var plan := SlotPlan(call.core, call.lab, cfg.slotBudget, labAgents);
      SlotWritesHarmless(before, ids, if t.Core? then plan.core else plan.perLabAgent);
    }
  }

  /** A call with both shares positive never pauses an agent nor opens a ledger row. */
  lemma PositiveSharesNeverPause(cfg: Config, w: World, call: Call)
    requires call.core > 0 && call.lab > 0
    ensures forall x :: x in AllocationPlan(cfg, w, call).writes ==> !x.SetPaused? && !x.PutLedger?
  {
    if Resolvable(cfg, w) {
      ResolvedExist(w.roster, w.agents, cfg.core);
      ResolvedExist(w.roster, w.agents, cfg.lab);
      var core, lab := AgentsOf(cfg, w, Core).value, AgentsOf(cfg, w, Lab).value;
      var w0 := Exec(w, PolicyWrites(cfg, call));
      UnlockingTrackOnlyResumes(cfg, w0, w.agents, Core, core, |lab|, call);
      UnlockingTrackOnlyResumes(cfg, Exec(w0, CorePlan(cfg, w, call).writes), w.agents, Lab, lab, |lab|, call);
    }
    forall x | x in AllocationPlan(cfg, w, call).writes ensures !x.SetPaused? && !x.PutLedger? {
      PlanMembers(cfg, w, call, x);
    }
  }

  /** Two settings objects that differ at most in the bridge's own fields. */
  ghost predicate SameSettings(a: Agent, b: Agent) {
    && (forall key :: key != HEARTBEAT ==> Lookup(a.runtimeConfig, key) == Lookup(b.runtimeConfig, key))
    && (forall key :: key != MAX_RUNS ==>
          Lookup(FieldsOf(a.runtimeConfig, HEARTBEAT), key) == Lookup(FieldsOf(b.runtimeConfig, HEARTBEAT), key))
    && (forall key :: key != OUR_KEY ==> Lookup(a.metadata, key) == Lookup(b.metadata, key))
  }

  ghost predicate SettingsKept(before: map<string, Agent>, w: World) {
    w.agents.Keys == before.Keys && forall a :: a in before ==> SameSettings(before[a], w.agents[a])
  }

  /** A settings write built from what the call read. */
  ghost predicate FaithfulSettings(before: map<string, Agent>, x: Write) {
    x.SetSlots? ==> x.agent in before && exists n ::
      && x.runtimeConfig == MergeConfig(before[x.agent].runtimeConfig, n)
      && x.metadata == MergeMetadata(before[x.agent].metadata, n)
  }

  lemma FaithfulWriteKeeps(before: map<string, Agent>, w: World, x: Write)
    requires SettingsKept(before, w) && FaithfulSettings(before, x)
    ensures SettingsKept(before, Apply(w, x))
  {
    if x.SetSlots? && x.agent in w.agents {
      var n :| x.runtimeConfig == MergeConfig(before[x.agent].runtimeConfig, n)
        && x.metadata == MergeMetadata(before[x.agent].metadata, n);
      MergedSettingsAreSame(before[x.agent], w.agents[x.agent], n);
    }
    hide MergeConfig, MergeMetadata, FieldsOf;
  }

  lemma MergedSettingsAreSame(before: Agent, now: Agent, n: int)
    ensures var config, metadata := MergeConfig(before.runtimeConfig, n), MergeMetadata(before.metadata, n);
            SameSettings(before, now.(runtimeConfig := config, metadata := metadata))
  {
  }

  lemma {:induction false} FaithfulWritesKeepSettings(before: map<string, Agent>, w: World, ws: seq<Write>)
    requires SettingsKept(before, w) && forall x :: x in ws ==> FaithfulSettings(before, x)
    ensures SettingsKept(before, Exec(w, ws))
    decreases |ws|
  {
    if ws != [] {
      hide Apply, SettingsKept;
      assert ws[0] in ws;
      FaithfulWriteKeeps(before, w, ws[0]);
      FaithfulWritesKeepSettings(before, Apply(w, ws[0]), ws[1..]);
    }
  }

  lemma {:induction false} SlotWritesFaithful(before: map<string, Agent>, ids: seq<string>, slots: int)
    requires Listed(before, ids)
    ensures forall x :: x in SlotWrites(before, ids, slots) ==> FaithfulSettings(before, x)
  {
    if ids != [] {
      assert ids[0] in ids;
      SlotWritesFaithful(before, ids[1..], slots);
    }
  }

  lemma {:induction false} LockAllHasNoSettings(
      w: World, before: map<string, Agent>, ids: seq<string>, t: Split, call: Call)
    requires Listed(before, ids)
    ensures forall x :: x in LockAll(w, before, ids, t, call) ==> !x.SetSlots?
    decreases |ids|
  {
    if ids != [] {
      LockAllHasNoSettings(Exec(w, LockAgent(w, before[ids[0]], ids[0], t, call)), before, ids[1..], t, call);
    }
  }

  lemma TrackPlanFaithful(cfg: Config, w: World, before: map<string, Agent>, t: Split, ids: seq<string>,
      labAgents: nat, call: Call)
    requires Listed(before, ids)
    ensures forall x :: x in TrackPlan(cfg, w, before, t, ids, labAgents, call).writes ==> FaithfulSettings(before, x)
  {
    if ShareOf(call, t) == 0 {
      LockAllHasNoSettings(w, before, ids, t, call);
    } else {
      UnlockAllOnlyResumes(w, before, ids, call);
      if cfg.slotBudget > 0 {
        var plan := SlotPlan(call.core, call.lab, cfg.slotBudget, labAgents);
        SlotWritesFaithful(before, ids, if t.Core? then plan.core else plan.perLabAgent);
      }
    }
  }

  lemma PlanFaithful(cfg: Config, w: World, call: Call)
    ensures forall x :: x in AllocationPlan(cfg, w, call).writes ==> FaithfulSettings(w.agents, x)
  {
    if Resolvable(cfg, w) {
      ResolvedExist(w.roster, w.agents, cfg.core);
      ResolvedExist(w.roster, w.agents, cfg.lab);
      var core, lab := AgentsOf(cfg, w, Core).value, AgentsOf(cfg, w, Lab).value;
      var w0 := Exec(w, PolicyWrites(cfg, call));
      TrackPlanFaithful(cfg, w0, w.agents, Core, core, |lab|, call);
      TrackPlanFaithful(cfg, Exec(w0, CorePlan(cfg, w, call).writes), w.agents, Lab, lab, |lab|, call);
    }
    forall x | x in AllocationPlan(cfg, w, call).writes ensures FaithfulSettings(w.agents, x) {
      PlanMembers(cfg, w, call, x);
    }
  }

  /** Wherever a call dies, every settings key that is not the bridge's own is as it was. */
  lemma CallKeepsSettings(cfg: Config, w: World, call: Call, k: nat)
    requires k <= |AllocationPlan(cfg, w, call).writes|
    ensures SettingsKept(w.agents, Exec(w, AllocationPlan(cfg, w, call).writes[..k]))
  {
    var writes := AllocationPlan(cfg, w, call).writes;
    PlanFaithful(cfg, w, call);
    forall x | x in writes[..k] ensures FaithfulSettings(w.agents, x) { assert x in writes; }
    FaithfulWritesKeepSettings(w.agents, w, writes[..k]);
  }

  /******* Whole runs *******/

  /** A call or a restart pass that dies after at most k writes, or something done to an agent from outside. */
  datatype Act =
    | CallAct(call: Call, k: nat)
    | ReconcileAct(order: seq<string>, now: Time, k: nat)
    | OutsideAct(agent: string, status: Status, holds: seq<string>)

  function Cut(ws: seq<Write>, k: nat): seq<Write> {
    ws[..Min(k, |ws|)]
  }

  function Do(cfg: Config, w: World, act: Act): World {
    match act
    case CallAct(call, k) => Exec(w, Cut(AllocationPlan(cfg, w, call).writes, k))
    case ReconcileAct(order, now, k) => Exec(w, Cut(ReconcilePlan(cfg, w, order, now), k))
    case OutsideAct(a, status, holds) =>
      if a !in w.agents then w
      else w.(agents := w.agents[a := w.agents[a].(status := status, holds := holds)], held := w.held - {a})
  }

  function RunActs(cfg: Config, w: World, acts: seq<Act>): World {
    if acts == [] then w else Do(cfg, RunActs(cfg, w, acts[..|acts| - 1]), acts[|acts| - 1])
  }

  ghost predicate OnlyPauses(acts: seq<Act>, a: string) {
    forall i :: 0 <= i < |acts| && acts[i].OutsideAct? && acts[i].agent == a ==> acts[i].status.Paused?
  }

  /**
   Human pauses are respected: over any run of calls and restart passes, cut anywhere, an agent
   that others keep paused and that never had a ledger row stays paused and never gets one.
   */
  lemma {:induction false} HumanPausesAreRespected(cfg: Config, w: World, acts: seq<Act>, a: string)
    requires a in w.agents && w.agents[a].status.Paused? && a !in w.ledger && OnlyPauses(acts, a)
    ensures var w' := RunActs(cfg, w, acts); a in w'.agents && w'.agents[a].status.Paused? && a !in w'.ledger
  {
    if acts != [] {
      var front, act := acts[..|acts| - 1], acts[|acts| - 1];
      HumanPausesAreRespected(cfg, w, front, a);
      var before := RunActs(cfg, w, front);
      match act {
        case CallAct(call, k) =>
          SparedStays(cfg, before, call, a, Min(k, |AllocationPlan(cfg, before, call).writes|));
        case ReconcileAct(order, now, k) =>
          ReconcileNeverResumes(cfg, before, order, now);
          UntouchedStays(before, Cut(ReconcilePlan(cfg, before, order, now), k), a);
        case OutsideAct(_, _, _) =>
      }
    }
  }

  /** No restart pass of the run meets an agent the bridge holds on a track that is no longer locked. */
  ghost predicate NeverStranding(cfg: Config, w: World, acts: seq<Act>) {
    forall i :: 0 <= i < |acts| && acts[i].ReconcileAct? ==>
      var before := RunActs(cfg, w, acts[..i]);
      forall a :: a in before.held && a in before.ledger ==> !EntryVerdict(cfg, before, a, acts[i].now).Positive?
  }

  lemma {:induction false} ReconcilePlanGuarded(cfg: Config, w: World, order: seq<string>, now: Time)
    requires WriteAhead(w) && forall a :: a in w.ledger && a in w.held ==> !EntryVerdict(cfg, w, a, now).Positive?
    ensures GuardedAll(w, ReconcilePlan(cfg, w, order, now))
    decreases |order|
  {
    if order != [] && !StopsAt(cfg, w, order[0], now) {
      var a := order[0];
      var ws := ReconcileEntry(cfg, w, a, now);
      EntryIs(cfg, w, a, now);
      if ws != [] {
        assert ws == [ws[0]];
        GuardedOneTwo(w, ws[0], ws[0]);
        GuardedKeepsWriteAhead(w, ws[0]);
        ExecOneTwo(w, ws[0], ws[0]);
      }
      var w1 := Exec(w, ws);
      forall b | b in w1.ledger && b in w1.held ensures !EntryVerdict(cfg, w1, b, now).Positive? {
        FrameKeepsVerdicts(cfg, w, w1, [a], b, now);
        if b == a { assert EntryDone(cfg, w, w1, a, now); }
      }
      ReconcilePlanGuarded(cfg, w1, order[1..], now);
      GuardedConcat(w, ws, ReconcilePlan(cfg, w1, order[1..], now));
    }
  }

  /** The write-ahead rule over whole runs: calls cut anywhere, passes cut anywhere, and outside changes. */
  lemma {:induction false} WriteAheadOverRuns(cfg: Config, w: World, acts: seq<Act>)
    requires WriteAhead(w) && NeverStranding(cfg, w, acts)
    requires forall i :: 0 <= i <= |acts| ==> DisjointTracks(cfg, RunActs(cfg, w, acts[..i]))
    ensures WriteAhead(RunActs(cfg, w, acts))
  {
    if acts != [] {
      var front, act := acts[..|acts| - 1], acts[|acts| - 1];
      forall i | 0 <= i <= |front| ensures front[..i] == acts[..i] {}
      WriteAheadOverRuns(cfg, w, front);
      var before := RunActs(cfg, w, front);
      assert acts[..|acts| - 1] == front;
      match act {
        case CallAct(call, k) =>
          CallIsWriteAhead(cfg, before, call, Min(k, |AllocationPlan(cfg, before, call).writes|));
        case ReconcileAct(order, now, k) =>
          ReconcilePlanGuarded(cfg, before, order, now);
          GuardedPrefixes(before, ReconcilePlan(cfg, before, order, now),
                          Min(k, |ReconcilePlan(cfg, before, order, now)|));
        case OutsideAct(_, _, _) =>
      }
    }
  }
}
