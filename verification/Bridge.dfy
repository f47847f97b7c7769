/**
 The bridge as a whole: passes of the poller, health alarms, deliveries and restarts in any order,
 each of them cut anywhere, over one store. What is announced was served, and once if all is calm.
 */
module Bridge {
  import opened Basics
  import opened Events
  import opened Outbox
  import Observation

  /** One thing that happens; a poll dies after cut of its writes if it has more. */
  datatype Deed =
    | Poll(call: Observation.Call, cut: nat, origins: map<string, string>)
    | Alarm(event: Event, at: Time)
    | Outside(action: Action)

  /** The event the poller files under an issue key. */
  function EventFor(id: EventId, origins: map<string, string>): Event
    requires id.IssueKey?
  {
    var kind := TerminalType(id.status);
    Event(id, if kind.Some? then kind.value else IssueCompleted, Some(id.stamp), Lookup(origins, id.issue))
  }

  function ScriptOf(b: Observation.Board, deed: Deed): seq<Observation.Write>
    requires deed.Poll?
  {
    var all := Observation.ScriptOf(b, deed.call);
    all[..Min(deed.cut, |all|)]
  }

  function Filing(w: Observation.Write, origins: map<string, string>, at: Time): seq<Action> {
    if w.Enqueue? && w.id.IssueKey? then [Enqueue(EventFor(w.id, origins), at)] else []
  }

  function Filings(ws: seq<Observation.Write>, origins: map<string, string>, at: Time): seq<Action> {
    if ws == [] then [] else Filings(ws[..|ws| - 1], origins, at) + Filing(ws[|ws| - 1], origins, at)
  }

  /** What a deed does to the outbox; only the poller and the alarms file events. */
  function ActionsOf(b: Observation.Board, deed: Deed): seq<Action> {
    match deed
    case Poll(call, _, origins) => Filings(ScriptOf(b, deed), origins, call.now)
    case Alarm(event, at) => if event.id.HealthKey? then [Enqueue(event, at)] else []
    case Outside(action) => if action.Enqueue? then [] else [action]
  }

  function BoardAfter(b: Observation.Board, deed: Deed): Observation.Board {
    match deed
    case Poll(_, _, _) => Observation.Exec(b, ScriptOf(b, deed))
    case Alarm(event, _) => if event.id.HealthKey? then b.(known := b.known + {event.id}) else b
    case Outside(_) => b
  }

  function BoardOf(b: Observation.Board, deeds: seq<Deed>): Observation.Board {
    if deeds == [] then b else BoardAfter(BoardOf(b, deeds[..|deeds| - 1]), deeds[|deeds| - 1])
  }

  function History(b: Observation.Board, deeds: seq<Deed>): seq<Action> {
    if deeds == [] then []
    else History(b, deeds[..|deeds| - 1]) + ActionsOf(BoardOf(b, deeds[..|deeds| - 1]), deeds[|deeds| - 1])
  }

  lemma {:induction false} RunConcat(cfg: Config, s: Sys, xs: seq<Action>, ys: seq<Action>)
    ensures Run(cfg, s, xs + ys) == Run(cfg, Run(cfg, s, xs), ys)
    decreases |ys|
  {
    hide Step;
    if ys == [] {
      assert xs + ys == xs;
    } else {
      assert (xs + ys)[..|xs + ys| - 1] == xs + ys[..|ys| - 1];
      RunConcat(cfg, s, xs, ys[..|ys| - 1]);
    }
  }

  /** Every enqueue of a script is the key of an issue. */
  ghost predicate FilesIssues(ws: seq<Observation.Write>) {
    forall w :: w in ws && w.Enqueue? ==> w.id.IssueKey?
  }

  lemma ScriptsFileIssues(b: Observation.Board, deed: Deed)
    requires deed.Poll?
    ensures FilesIssues(ScriptOf(b, deed))
  {
    var all := Observation.ScriptOf(b, deed.call);
    hide Observation.ScriptOf;
    forall w | w in ScriptOf(b, deed) && w.Enqueue? ensures w.id.IssueKey? {
      assert w in all && w == Observation.Enqueue(w.id);
      Observation.ScriptServes(b, deed.call, w.id);
    }
  }

  lemma FrontFilesIssues(ws: seq<Observation.Write>)
    requires ws != [] && FilesIssues(ws)
    ensures FilesIssues(ws[..|ws| - 1]) && (ws[|ws| - 1].Enqueue? ==> ws[|ws| - 1].id.IssueKey?)
  {
    assert ws == ws[..|ws| - 1] + [ws[|ws| - 1]] && ws[|ws| - 1] in ws;
  }

  lemma FilingFiles(
      cfg: Config, s: Sys, b: Observation.Board, w: Observation.Write, origins: map<string, string>, at: Time)
    requires (w.Enqueue? ==> w.id.IssueKey?) && s.events.Keys == b.known
    ensures Run(cfg, s, Filing(w, origins, at)).events.Keys == Observation.Apply(b, w).known
  {
    if w.Enqueue? { OneActionRun(cfg, s, Enqueue(EventFor(w.id, origins), at)); }
  }

  lemma {:induction false} FilingsFile(cfg: Config, s: Sys, b: Observation.Board, ws: seq<Observation.Write>,
      origins: map<string, string>, at: Time)
    requires FilesIssues(ws) && s.events.Keys == b.known
    ensures Run(cfg, s, Filings(ws, origins, at)).events.Keys == Observation.Exec(b, ws).known
  {
    hide Step, Filing, Observation.Apply, FilesIssues;
    if ws != [] {
      var front, w := ws[..|ws| - 1], ws[|ws| - 1];
      FrontFilesIssues(ws);
      FilingsFile(cfg, s, b, front, origins, at);
      RunConcat(cfg, s, Filings(front, origins, at), Filing(w, origins, at));
      FilingFiles(cfg, Run(cfg, s, Filings(front, origins, at)), Observation.Exec(b, front), w, origins, at);
    }
  }

  lemma StepKeepsKeys(cfg: Config, s: Sys, a: Action)
    requires !a.Enqueue?
    ensures Step(cfg, s, a).events == s.events
  {
    hide Deliver, IsClaim;
  }

  lemma OneActionRun(cfg: Config, s: Sys, a: Action)
    ensures Run(cfg, s, [a]) == Step(cfg, s, a)
  {
    assert [a][..0] == [];
  }

  lemma DeedFiles(cfg: Config, s: Sys, b: Observation.Board, deed: Deed)
    requires s.events.Keys == b.known
    ensures Run(cfg, s, ActionsOf(b, deed)).events.Keys == BoardAfter(b, deed).known
  {
    match deed
    case Poll(call, _, origins) =>
      ScriptsFileIssues(b, deed);
      FilingsFile(cfg, s, b, ScriptOf(b, deed), origins, call.now);
    case Alarm(event, at) =>
      OneActionRun(cfg, s, Enqueue(event, at));
    case Outside(action) =>
      OneActionRun(cfg, s, action);
      if !action.Enqueue? { StepKeepsKeys(cfg, s, action); }
  }

  /** Nothing the poller or the monitor found is lost: what is known is exactly what has been filed. */
  lemma {:induction false} KnownIsFiled(cfg: Config, b: Observation.Board, deeds: seq<Deed>)
    requires b.known == {}
    ensures Run(cfg, EMPTY, History(b, deeds)).events.Keys == BoardOf(b, deeds).known
  {
    hide ActionsOf, BoardAfter, Step;
    if deeds != [] {
      var front, deed := deeds[..|deeds| - 1], deeds[|deeds| - 1];
      KnownIsFiled(cfg, b, front);
      var before := Run(cfg, EMPTY, History(b, front));
      DeedFiles(cfg, before, BoardOf(b, front), deed);
      RunConcat(cfg, EMPTY, History(b, front), ActionsOf(BoardOf(b, front), deed));
    }
  }

  lemma {:induction false} LandedAreFiled(cfg: Config, actions: seq<Action>, id: EventId)
    ensures id in Run(cfg, EMPTY, actions).landed ==> id in Run(cfg, EMPTY, actions).events
  {
    if actions != [] {
      var front, a := actions[..|actions| - 1], actions[|actions| - 1];
      LandedAreFiled(cfg, front, id);
      RunKeepsInv(cfg, EMPTY, front);
      StepConserves(cfg, Run(cfg, EMPTY, front), a);
      hide Deliver;
    }
  }

  ghost predicate ServedIn(deeds: seq<Deed>, id: EventId) {
    exists k :: 0 <= k < |deeds| && deeds[k].Poll? && Observation.Serves(deeds[k].call, id)
  }

  lemma {:induction false} KnownIssuesWereServed(b: Observation.Board, deeds: seq<Deed>, id: EventId)
    requires b.known == {} && id.IssueKey? && id in BoardOf(b, deeds).known
    ensures ServedIn(deeds, id)
  {
    hide Observation.ScriptOf, Observation.Exec, Observation.Serves;
    var front, deed := deeds[..|deeds| - 1], deeds[|deeds| - 1];
    var before := BoardOf(b, front);
    if id in before.known {
      KnownIssuesWereServed(b, front, id);
      var k :| 0 <= k < |front| && front[k].Poll? && Observation.Serves(front[k].call, id);
      assert deeds[k] == front[k];
    } else {
      Observation.NewKeysWereEnqueued(before, ScriptOf(before, deed), id);
      assert Observation.Enqueue(id) in Observation.ScriptOf(before, deed.call);
      Observation.ScriptServes(before, deed.call, id);
    }
  }

  ghost predicate CalmDeeds(deeds: seq<Deed>) {
    forall k :: 0 <= k < |deeds| && deeds[k].Outside? && deeds[k].action.Attempt? ==> Calm(deeds[k].action.weather)
  }

  lemma {:induction false} FilingsAreCalm(ws: seq<Observation.Write>, origins: map<string, string>, at: Time)
    ensures forall k :: 0 <= k < |Filings(ws, origins, at)| ==> Filings(ws, origins, at)[k].Enqueue?
  {
    if ws != [] { FilingsAreCalm(ws[..|ws| - 1], origins, at); }
  }

  lemma {:induction false} CalmDeedsAreCalm(b: Observation.Board, deeds: seq<Deed>)
    requires CalmDeeds(deeds)
    ensures CalmRun(History(b, deeds))
  {
    if deeds != [] {
      var front, deed := deeds[..|deeds| - 1], deeds[|deeds| - 1];
      CalmDeedsAreCalm(b, front);
      if deed.Poll? { FilingsAreCalm(ScriptOf(BoardOf(b, front), deed), deed.origins, deed.call.now); }
    }
  }

  lemma {:induction false} CountedAreIn<T>(s: seq<T>, x: T)
    ensures Count(s, x) > 0 <==> x in s
  {
    if s != [] {
      CountedAreIn(s[..|s| - 1], x);
      assert s == s[..|s| - 1] + [s[|s| - 1]];
    }
  }

  /**
   End to end, over any interleaving of polls, reconciliations, back-fills, alarms, deliveries and
   restarts, each cut anywhere: an issue event that lands was found on a terminal row the board
   served; an issue event is known exactly if it has its one delivery row; and if the relay loses no
   acknowledgement and no fault falls between a landing and its record, it lands at most once.
   */
  lemma AnnouncementsAreServedOnce(cfg: Config, b: Observation.Board, deeds: seq<Deed>, id: EventId)
    requires b.known == {} && id.IssueKey?
    ensures var s := Run(cfg, EMPTY, History(b, deeds));
            && (id in BoardOf(b, deeds).known <==> id in s.rows)
            && (Count(s.landed, id) > 0 ==> ServedIn(deeds, id) && id in s.rows)
            && (CalmDeeds(deeds) ==> Count(s.landed, id) == if SentRow(s, id) then 1 else 0)
  {
    hide Step, ActionsOf, BoardAfter, ServedIn, CalmDeeds;
    var actions := History(b, deeds);
    var s := Run(cfg, EMPTY, actions);
    KnownIsFiled(cfg, b, deeds);
    RunKeepsInv(cfg, EMPTY, actions);
    CountedAreIn(s.landed, id);
    LandedAreFiled(cfg, actions, id);
    if id in BoardOf(b, deeds).known { KnownIssuesWereServed(b, deeds, id); }
    if CalmDeeds(deeds) {
      CalmDeedsAreCalm(b, deeds);
      ExactlyOnceWhenCalm(cfg, actions, id);
    }
  }
}
