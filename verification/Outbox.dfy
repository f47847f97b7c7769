/**
 The outbox as a machine over values: every committed change to a delivery row, the relay's
 record of what landed, and the claimed batch that only lives in memory.
 A crash is a fate the environment picks between any two writes.
 */
module Outbox {
  import opened Basics
  import opened Events

  const BASE_BACKOFF: Time := 5_000
  const MAX_BACKOFF: Time := 300_000
  const CLAIM_LIMIT: nat := 50

  datatype DeliveryState = Pending | Sending | Sent | FallbackSent | Failed | Expired

  datatype Cause =
    | Internal
    | NoDestination
    | NoFallback
    | FallbackFailed(kind: string)
    | Relay(kind: string)
    | TooOld

  datatype Delivery = Delivery(
    state: DeliveryState,
    attempts: nat,
    nextAttemptAt: Time,
    lastError: Option<Cause>,
    buzzEventId: Option<string>,
    updatedAt: Time)

  datatype Config = Config(maxAttempts: int, maxAge: Time, fallback: Option<string>)

  predicate Terminal(d: Delivery) {
    d.state in {Sent, FallbackSent, Failed, Expired}
  }

  predicate IsSent(d: Delivery) {
    d.state in {Sent, FallbackSent}
  }

  /******* Row updates *******/

  function Fresh(now: Time): Delivery {
    Delivery(Pending, 0, 0, None, None, now)
  }

  function Finish(
      d: Delivery, state: DeliveryState, now: Time, buzzId: Option<string>, cause: Option<Cause>): Delivery {
    d.(state := state, buzzEventId := OrElse(buzzId, d.buzzEventId), lastError := OrElse(cause, d.lastError),
       updatedAt := now)
  }

  function Reschedule(d: Delivery, at: Time, cause: Cause, now: Time): Delivery {
    d.(state := Pending, attempts := d.attempts + 1, nextAttemptAt := at, lastError := Some(cause), updatedAt := now)
  }

  function Pow2(n: nat): (r: nat)
    ensures r >= 1
  {
    if n == 0 then 1 else 2 * Pow2(n - 1)
  }

  function NextBackoff(attempts: nat): Time {
    Min(MAX_BACKOFF, BASE_BACKOFF * Pow2(attempts))
  }

  /** Retries wait 5 s, never more than 300 s, never less than the retry before; each wait doubles until the cap. */
  lemma BackoffGrows(a: nat, b: nat)
    requires a <= b
    ensures NextBackoff(0) == 5_000 <= NextBackoff(a) <= NextBackoff(b) <= 300_000
    ensures NextBackoff(a) < MAX_BACKOFF ==> NextBackoff(a + 1) == Min(MAX_BACKOFF, 2 * NextBackoff(a))
    ensures a >= 6 ==> NextBackoff(a) == MAX_BACKOFF
  {
    PowGrows(a, b);
    if a >= 6 {
      PowGrows(6, a);
      assert Pow2(6) == 64 by { assert Pow2(3) == 8; }
    }
  }

  lemma {:induction false} PowGrows(a: nat, b: nat)
    requires a <= b
    ensures Pow2(a) <= Pow2(b)
    decreases b
  {
    if a < b { PowGrows(a, b - 1); }
  }

  /******* One claimed row *******/

  /** What happens to the process between two writes. */
  datatype Fate = Proceed | Raise | Crash

  /** What the sender sees; the relay may have taken the message even when the sender sees an error. */
  datatype Reply =
    | Accepted(buzzId: string)
    | NotMember
    | Refused(kind: string, taken: bool)
    | Raised(taken: bool)

  /** Every choice the environment makes while one claimed row is delivered. */
  datatype Weather = Weather(
    before: Fate,     // before anything is sent
    first: Reply,     // the destination's answer
    second: Reply,    // the fallback channel's answer, if it is asked
    recording: Fate,  // between the last answer and the write that records it
    closing: Fate,    // after that write, before the row is done
    alert: Reply,     // the answer to the untagged operator alert
    later: Time)      // the clock when a failure is recorded

  datatype Verdict = Ended(delivered: bool) | Recovered | Died

  datatype Turn = Turn(row: Delivery, landed: bool, verdict: Verdict)

  predicate Landed(r: Reply) {
    match r
    case Accepted(_) => true
    case NotMember => false
    case Refused(_, taken) => taken
    case Raised(taken) => taken
  }

  function Destination(cfg: Config, control: Option<string>, ev: Event): Option<string> {
    OrElse(ev.originChannel, OrElse(cfg.fallback, control))
  }

  predicate IsExpired(cfg: Config, ev: Event, now: Time) {
    ev.occurredAt.Some? && now - ev.occurredAt.value > cfg.maxAge
  }

  /** The handler around one row: any exception reschedules it, whatever its state is by then. */
  function Rescue(d: Delivery, now: Time, landed: bool): Turn {
    Turn(Reschedule(d, now + NextBackoff(d.attempts), Internal, now), landed, Recovered)
  }

  /** The recording write has been made; what is left of the turn can still fail. */
  function Close(d: Delivery, now: Time, landed: bool, delivered: bool, closing: Fate): Turn {
    match closing
    case Proceed => Turn(d, landed, Ended(delivered))
    case Raise => Rescue(d, now, landed)
    case Crash => Turn(d, landed, Died)
  }

  /** An answer was seen; done is the row that records it. */
  function Record(d: Delivery, done: Delivery, now: Time, landed: bool, delivered: bool, w: Weather): Turn {
    match w.recording
    case Proceed => Close(done, now, landed, delivered, w.closing)
    case Raise => Rescue(d, now, landed)
    case Crash => Turn(d, landed, Died)
  }

  /** The last allowed attempt was refused: the row fails, then the operator is alerted. */
  function GiveUp(cfg: Config, d: Delivery, kind: string, now: Time, landed: bool, w: Weather): Turn {
    var t := Record(d, Finish(d, Failed, w.later, None, Some(Relay(kind))), now, landed, false, w);
    if t.verdict.Ended? && cfg.fallback.Some? && w.alert.Raised? then Rescue(t.row, now, landed) else t
  }

  function FallBack(cfg: Config, control: Option<string>, now: Time, channel: string, d: Delivery, w: Weather): Turn {
    var fallback := OrElse(cfg.fallback, control);
    if fallback.None? || fallback.value == channel then
      Record(d, Finish(d, Failed, w.later, None, Some(NoFallback)), now, false, false, w)
    else
      match w.second
      case Accepted(id) => Record(d, Finish(d, FallbackSent, now, Some(id), None), now, true, true, w)
      case NotMember =>
        Record(d, Finish(d, Failed, w.later, None, Some(FallbackFailed("not_member"))), now, false, false, w)
      case Refused(kind, taken) =>
        Record(d, Finish(d, Failed, w.later, None, Some(FallbackFailed(kind))), now, taken, false, w)
      case Raised(taken) => Rescue(d, now, taken)
  }

  function Deliver(cfg: Config, control: Option<string>, now: Time, ev: Event, d: Delivery, w: Weather): Turn {
    match w.before
    case Crash => Turn(d, false, Died)
    case Raise => Rescue(d, now, false)
    case Proceed =>
      var channel := Destination(cfg, control, ev);
      if IsExpired(cfg, ev, now) then
        Record(d, Finish(d, Expired, now, None, Some(TooOld)), now, false, false, w)
      else if channel.None? then
        Record(d, Finish(d, Failed, w.later, None, Some(NoDestination)), now, false, false, w)
      else
        match w.first
        case Accepted(id) => Record(d, Finish(d, Sent, now, Some(id), None), now, true, true, w)
        case NotMember => FallBack(cfg, control, now, channel.value, d, w)
        case Refused(kind, taken) =>
          if d.attempts + 1 >= cfg.maxAttempts then GiveUp(cfg, d, kind, now, taken, w)
          else
            var later := Reschedule(d, now + NextBackoff(d.attempts), Relay(kind), now);
            Record(d, later, now, taken, false, w.(closing := Proceed))
        case Raised(taken) => Rescue(d, now, taken)
  }

  /******* The whole outbox *******/

  /** batch and clock live in memory only; landed is the relay's own record of tagged sends. */
  datatype Sys = Sys(
    events: map<EventId, Event>,
    rows: map<EventId, Delivery>,
    landed: seq<EventId>,
    batch: seq<EventId>,
    clock: Time)

  datatype Action =
    | Enqueue(event: Event, at: Time)
    | Claim(now: Time, ids: seq<EventId>)
    | Attempt(control: Option<string>, weather: Weather)
    | Boot

  const EMPTY: Sys := Sys(map[], map[], [], [], 0)

  predicate Due(d: Delivery, now: Time) {
    d.state.Pending? && d.nextAttemptAt <= now
  }

  /** ids are the oldest due rows, at most limit of them, in the order of their due times. */
  ghost predicate IsClaim(rows: map<EventId, Delivery>, now: Time, limit: nat, ids: seq<EventId>) {
    && Distinct(ids)
    && |ids| <= limit
    && (forall k :: 0 <= k < |ids| ==> ids[k] in rows && Due(rows[ids[k]], now))
    && (forall j, k :: 0 <= j < k < |ids| ==> rows[ids[j]].nextAttemptAt <= rows[ids[k]].nextAttemptAt)
    && (forall id :: id in rows && Due(rows[id], now) && id !in ids ==>
          |ids| == limit && forall k :: 0 <= k < |ids| ==> rows[ids[k]].nextAttemptAt <= rows[id].nextAttemptAt)
  }

  function DueIds(rows: map<EventId, Delivery>, now: Time): set<EventId> {
    set id | id in rows && Due(rows[id], now)
  }

  function MarkSending(rows: map<EventId, Delivery>, ids: seq<EventId>, now: Time): map<EventId, Delivery> {
    map id | id in rows :: if id in ids then rows[id].(state := Sending, updatedAt := now) else rows[id]
  }

  function RequeueSending(rows: map<EventId, Delivery>): map<EventId, Delivery> {
    map id | id in rows :: if rows[id].state.Sending? then rows[id].(state := Pending) else rows[id]
  }

  function AddEvent(s: Sys, ev: Event, at: Time): Sys {
    if ev.id in s.events then s
    else s.(events := s.events[ev.id := ev], rows := if ev.id in s.rows then s.rows else s.rows[ev.id := Fresh(at)])
  }

  predicate CanAttempt(s: Sys) {
    s.batch != [] && s.batch[0] in s.events && s.batch[0] in s.rows
  }

  function TurnOf(cfg: Config, s: Sys, a: Action): Turn
    requires a.Attempt? && CanAttempt(s)
  {
    Deliver(cfg, a.control, s.clock, s.events[s.batch[0]], s.rows[s.batch[0]], a.weather)
  }

  /** One step; an action that is not enabled changes nothing. */
  ghost function Step(cfg: Config, s: Sys, a: Action): Sys {
    match a
    case Enqueue(ev, at) => AddEvent(s, ev, at)
    case Claim(now, ids) =>
      if s.batch == [] && IsClaim(s.rows, now, CLAIM_LIMIT, ids)
      then s.(rows := MarkSending(s.rows, ids, now), batch := ids, clock := now)
      else s
    case Attempt(_, _) =>
      if !CanAttempt(s) then s
      else
        var id, t := s.batch[0], TurnOf(cfg, s, a);
        s.(rows := s.rows[id := t.row],
           landed := if t.landed then s.landed + [id] else s.landed,
           batch := if t.verdict.Died? then [] else s.batch[1..])
    case Boot => s.(rows := RequeueSending(s.rows), batch := [])
  }

  lemma AttemptStep(cfg: Config, s: Sys, a: Action)
    requires a.Attempt? && CanAttempt(s)
    ensures TurnOf(cfg, s, a) == Deliver(cfg, a.control, s.clock, s.events[s.batch[0]], s.rows[s.batch[0]], a.weather)
    ensures var t := TurnOf(cfg, s, a);
            Step(cfg, s, a) == s.(rows := s.rows[s.batch[0] := t.row],
                                  landed := if t.landed then s.landed + [s.batch[0]] else s.landed,
                                  batch := if t.verdict.Died? then [] else s.batch[1..])
  {
    hide Deliver;
  }

  ghost function Run(cfg: Config, s: Sys, actions: seq<Action>): Sys {
    if actions == [] then s
    else Step(cfg, Run(cfg, s, actions[..|actions| - 1]), actions[|actions| - 1])
  }

  ghost predicate Inv(s: Sys) {
    && s.events.Keys == s.rows.Keys
    && Distinct(s.batch)
    && (forall id :: id in s.events ==> s.events[id].id == id)
    && (forall k :: 0 <= k < |s.batch| ==> s.batch[k] in s.rows && s.rows[s.batch[k]].state.Sending?)
  }

  lemma StepKeepsInv(cfg: Config, s: Sys, a: Action)
    requires Inv(s)
    ensures Inv(Step(cfg, s, a))
  {
    var s' := Step(cfg, s, a);
    match a
    case Enqueue(ev, at) =>
    case Claim(now, ids) => assert s'.rows.Keys == s.rows.Keys;
    case Attempt(_, _) => assert CanAttempt(s) ==> s'.rows.Keys == s.rows.Keys;
    case Boot => assert s'.rows.Keys == s.rows.Keys;
  }

  lemma {:induction false} RunKeepsInv(cfg: Config, s: Sys, actions: seq<Action>)
    requires Inv(s)
    ensures Inv(Run(cfg, s, actions))
  {
    if actions != [] {
      var front := actions[..|actions| - 1];
      RunKeepsInv(cfg, s, front);
      StepKeepsInv(cfg, Run(cfg, s, front), actions[|actions| - 1]);
    }
  }

  /******* Conservation *******/

  /**
   Over any run, crashes and exceptions included: every event has exactly one delivery row,
   no event is ever removed or rewritten, and a finished row never changes again.
   */
  lemma {:induction false} OutboxConserved(cfg: Config, s: Sys, actions: seq<Action>)
    requires Inv(s)
    ensures var s' := Run(cfg, s, actions);
            && s'.events.Keys == s'.rows.Keys
            && (forall id :: id in s.events ==> id in s'.events && s'.events[id] == s.events[id])
            && (forall id :: id in s.rows ==> id in s'.rows && (Terminal(s.rows[id]) ==> s'.rows[id] == s.rows[id]))
  {
    hide Step, Inv;
    RunKeepsInv(cfg, s, actions);
    InvMatches(Run(cfg, s, actions));
    if actions != [] {
      var front := actions[..|actions| - 1];
      OutboxConserved(cfg, s, front);
      RunKeepsInv(cfg, s, front);
      StepConserves(cfg, Run(cfg, s, front), actions[|actions| - 1]);
    }
  }

  lemma InvMatches(s: Sys)
    requires Inv(s)
    ensures s.events.Keys == s.rows.Keys
  {
  }

  lemma StepConserves(cfg: Config, s: Sys, a: Action)
    requires Inv(s)
    ensures var s' := Step(cfg, s, a);
            && (forall id :: id in s.events ==> id in s'.events && s'.events[id] == s.events[id])
            && (forall id :: id in s.rows ==> id in s'.rows && (Terminal(s.rows[id]) ==> s'.rows[id] == s.rows[id]))
  {
    hide Deliver;
  }

  /** A restart leaves nothing in sending and gives up no row: what was in flight is due again. */
  lemma BootRecovers(cfg: Config, s: Sys)
    requires Inv(s)
    ensures var s' := Step(cfg, s, Boot);
            && s'.rows.Keys == s.rows.Keys
            && (forall id :: id in s'.rows ==> !s'.rows[id].state.Sending?)
            && (forall id :: id in s.rows ==>
                  s'.rows[id] == if s.rows[id].state.Sending? then s.rows[id].(state := Pending) else s.rows[id])
            && Step(cfg, s', Boot) == s'
  {
    var s' := Step(cfg, s, Boot);
    assert s'.rows.Keys == s.rows.Keys;
    assert RequeueSending(s'.rows) == s'.rows;
  }

  /******* Sends *******/

  /** Whether this action lands a tagged send of id that the row does not end up recording. */
  ghost predicate Cut(cfg: Config, s: Sys, a: Action, id: EventId) {
    a.Attempt? && CanAttempt(s) && s.batch[0] == id && TurnOf(cfg, s, a).landed && !IsSent(TurnOf(cfg, s, a).row)
  }

  ghost function Cuts(cfg: Config, s: Sys, actions: seq<Action>, id: EventId): nat {
    if actions == [] then 0
    else
      var front := actions[..|actions| - 1];
      Cuts(cfg, s, front, id) + if Cut(cfg, Run(cfg, s, front), actions[|actions| - 1], id) then 1 else 0
  }

  ghost predicate SentRow(s: Sys, id: EventId) {
    id in s.rows && IsSent(s.rows[id])
  }

  lemma SentMeansLanded(cfg: Config, control: Option<string>, now: Time, ev: Event, d: Delivery, w: Weather)
    requires d.state.Sending?
    ensures var t := Deliver(cfg, control, now, ev, d, w); IsSent(t.row) ==> t.landed
  {
  }

  lemma StepAccounting(cfg: Config, s: Sys, a: Action, id: EventId)
    requires Inv(s)
    ensures var s' := Step(cfg, s, a);
            Count(s'.landed, id) - Count(s.landed, id)
            == (if Cut(cfg, s, a, id) then 1 else 0)
               + (if SentRow(s', id) then 1 else 0) - (if SentRow(s, id) then 1 else 0)
  {
    if a.Attempt? && CanAttempt(s) {
      hide Deliver, IsClaim;
      var head := s.batch[0];
      SentMeansLanded(cfg, a.control, s.clock, s.events[head], s.rows[head], a.weather);
      CountAppend(s.landed, head, id);
    }
  }

  /**
   At-least-once, counted exactly: over any run, the tagged sends of an event that landed are
   its recorded send, if there is one, plus one for every turn that was cut after landing.
   */
  lemma {:induction false} SendAccounting(cfg: Config, actions: seq<Action>, id: EventId)
    ensures var s := Run(cfg, EMPTY, actions);
            Count(s.landed, id) == Cuts(cfg, EMPTY, actions, id) + if SentRow(s, id) then 1 else 0
  {
    if actions != [] {
      var front := actions[..|actions| - 1];
      SendAccounting(cfg, front, id);
      RunKeepsInv(cfg, EMPTY, front);
      StepAccounting(cfg, Run(cfg, EMPTY, front), actions[|actions| - 1], id);
    }
  }

  /** The answers asked for in this turn, up to the one that decided it. */
  function LastReply(cfg: Config, control: Option<string>, now: Time, ev: Event, w: Weather): Option<Reply> {
    var channel, fallback := Destination(cfg, control, ev), OrElse(cfg.fallback, control);
    if !w.before.Proceed? || IsExpired(cfg, ev, now) || channel.None? then None
    else if w.first.NotMember? && fallback.Some? && fallback.value != channel.value then Some(w.second)
    else Some(w.first)
  }

  /**
   A turn is cut exactly when a send landed and then the sender saw an error instead of the
   acceptance, or the process faulted before the record, or an exception struck after it.
   */
  lemma CutExactly(cfg: Config, control: Option<string>, now: Time, ev: Event, d: Delivery, w: Weather)
    requires d.state.Sending?
    ensures var t, last := Deliver(cfg, control, now, ev, d, w), LastReply(cfg, control, now, ev, w);
            && (t.landed <==> last.Some? && Landed(last.value))
            && (t.landed && !IsSent(t.row) <==>
                 last.Some? && Landed(last.value)
                 && (!last.value.Accepted? || !w.recording.Proceed? || w.closing.Raise?))
  {
  }

  /** The environment never loses an acknowledgement nor faults between a landing and its record. */
  predicate Calm(w: Weather) {
    && (Landed(w.first) ==> w.first.Accepted?)
    && (Landed(w.second) ==> w.second.Accepted?)
    && w.recording.Proceed? && !w.closing.Raise?
  }

  ghost predicate CalmRun(actions: seq<Action>) {
    forall k :: 0 <= k < |actions| && actions[k].Attempt? ==> Calm(actions[k].weather)
  }

  lemma {:induction false} CalmRunsAreNeverCut(cfg: Config, actions: seq<Action>, id: EventId)
    requires CalmRun(actions)
    ensures Cuts(cfg, EMPTY, actions, id) == 0
  {
    if actions != [] {
      var front, a := actions[..|actions| - 1], actions[|actions| - 1];
      CalmRunsAreNeverCut(cfg, front, id);
      RunKeepsInv(cfg, EMPTY, front);
      var s := Run(cfg, EMPTY, front);
      if a.Attempt? && CanAttempt(s) {
        CutExactly(cfg, a.control, s.clock, s.events[s.batch[0]], s.rows[s.batch[0]], a.weather);
      }
    }
  }

  /** Exactly once when the weather is calm: an event landed once if its row is sent, and otherwise never. */
  lemma ExactlyOnceWhenCalm(cfg: Config, actions: seq<Action>, id: EventId)
    requires CalmRun(actions)
    ensures var s := Run(cfg, EMPTY, actions); Count(s.landed, id) == if SentRow(s, id) then 1 else 0
  {
    CalmRunsAreNeverCut(cfg, actions, id);
    SendAccounting(cfg, actions, id);
  }

  /******* Termination *******/

  /** Every failure is one the delivery code expects: no exception escapes it. */
  predicate OnlyRelayErrors(w: Weather) {
    !w.before.Raise? && !w.recording.Raise? && !w.closing.Raise? && !w.first.Raised? && !w.second.Raised?
      && !w.alert.Raised?
  }

  ghost predicate OnlyRelayErrorsIn(actions: seq<Action>) {
    forall k :: 0 <= k < |actions| && actions[k].Attempt? ==> OnlyRelayErrors(actions[k].weather)
  }

  /** How many turns of id ran to their end, crashes not counted. */
  ghost function Turns(cfg: Config, s: Sys, actions: seq<Action>, id: EventId): nat {
    if actions == [] then 0
    else
      var front, a := actions[..|actions| - 1], actions[|actions| - 1];
      var before := Run(cfg, s, front);
      Turns(cfg, s, front, id)
      + if a.Attempt? && CanAttempt(before) && before.batch[0] == id && !TurnOf(cfg, before, a).verdict.Died? then 1
        else 0
  }

  /** A turn that ends has finished the row or used up one attempt of it; a crash uses none. */
  lemma TurnMakesProgress(cfg: Config, control: Option<string>, now: Time, ev: Event, d: Delivery, w: Weather)
    requires d.state.Sending? && OnlyRelayErrors(w)
    ensures var t := Deliver(cfg, control, now, ev, d, w);
            && (t.verdict.Died? ==> t.row.attempts == d.attempts && (t.row == d || Terminal(t.row)))
            && (!t.verdict.Died? ==>
                  (Terminal(t.row) && t.row.attempts == d.attempts)
                  || (t.row.state.Pending? && t.row.attempts == d.attempts + 1 < cfg.maxAttempts
                      && t.row.nextAttemptAt == now + NextBackoff(d.attempts)))
  {
  }

  /**
   With relay errors only, an unfinished row always has attempts left, and no event is ever
   given more than maxAttempts turns, however many crashes and restarts come between.
   */
  lemma {:induction false} DeliveryTerminates(cfg: Config, actions: seq<Action>, id: EventId)
    requires cfg.maxAttempts >= 1 && OnlyRelayErrorsIn(actions)
    ensures var s := Run(cfg, EMPTY, actions);
            && (id in s.rows ==> s.rows[id].attempts < cfg.maxAttempts)
            && Turns(cfg, EMPTY, actions, id) <= Progress(s, id) <= cfg.maxAttempts
  {
    hide Step, Inv, TurnOf;
    if actions != [] {
      var front, a := actions[..|actions| - 1], actions[|actions| - 1];
      DeliveryTerminates(cfg, front, id);
      RunKeepsInv(cfg, EMPTY, front);
      TurnIsCounted(cfg, Run(cfg, EMPTY, front), a, id);
    }
  }

  /** How far an event is: the attempts it has used, and one more when it is done. */
  function Progress(s: Sys, id: EventId): nat {
    if id in s.rows then s.rows[id].attempts + (if Terminal(s.rows[id]) then 1 else 0) else 0
  }

  lemma TurnIsCounted(cfg: Config, s: Sys, a: Action, id: EventId)
    requires cfg.maxAttempts >= 1 && Inv(s) && (a.Attempt? ==> OnlyRelayErrors(a.weather))
    requires id in s.rows ==> s.rows[id].attempts < cfg.maxAttempts
    ensures var s' := Step(cfg, s, a);
            && (id in s'.rows ==> s'.rows[id].attempts < cfg.maxAttempts)
            && Progress(s', id) >= Progress(s, id)
               + if a.Attempt? && CanAttempt(s) && s.batch[0] == id && !TurnOf(cfg, s, a).verdict.Died? then 1 else 0
  {
    if a.Attempt? && CanAttempt(s) {
      TurnMakesProgress(cfg, a.control, s.clock, s.events[s.batch[0]], s.rows[s.batch[0]], a.weather);
      hide Deliver;
    }
  }

  /** All turns of a run that reached their end, whosever they were. */
  ghost function AllTurns(cfg: Config, s: Sys, actions: seq<Action>): nat {
    if actions == [] then 0
    else
      var front, a := actions[..|actions| - 1], actions[|actions| - 1];
      var before := Run(cfg, s, front);
      AllTurns(cfg, s, front)
      + if a.Attempt? && CanAttempt(before) && !TurnOf(cfg, before, a).verdict.Died? then 1 else 0
  }

  ghost function TurnsOfAll(cfg: Config, s: Sys, actions: seq<Action>, ids: seq<EventId>): nat {
    if ids == [] then 0 else TurnsOfAll(cfg, s, actions, ids[..|ids| - 1]) + Turns(cfg, s, actions, ids[|ids| - 1])
  }

  lemma {:induction false} OneTurnMore(cfg: Config, s: Sys, front: seq<Action>, a: Action, ids: seq<EventId>)
    requires Distinct(ids)
    ensures var before := Run(cfg, s, front);
            var ended := a.Attempt? && CanAttempt(before) && !TurnOf(cfg, before, a).verdict.Died?;
            TurnsOfAll(cfg, s, front + [a], ids)
            == TurnsOfAll(cfg, s, front, ids) + if ended && before.batch[0] in ids then 1 else 0
  {
    hide TurnOf, Run;
    if ids != [] {
      var rest, id := ids[..|ids| - 1], ids[|ids| - 1];
      OneTurnMore(cfg, s, front, a, rest);
      assert (front + [a])[..|front|] == front;
      assert ids == rest + [id] && id !in rest;
    }
  }

  lemma {:induction false} TurnsAddUp(cfg: Config, actions: seq<Action>, ids: seq<EventId>)
    requires Distinct(ids) && forall id :: id in Run(cfg, EMPTY, actions).rows ==> id in ids
    ensures AllTurns(cfg, EMPTY, actions) == TurnsOfAll(cfg, EMPTY, actions, ids)
  {
    hide TurnOf, Deliver;
    if actions == [] {
      NoTurnsYet(cfg, ids);
    } else {
      var front, a := actions[..|actions| - 1], actions[|actions| - 1];
      RunKeepsInv(cfg, EMPTY, front);
      StepConserves(cfg, Run(cfg, EMPTY, front), a);
      TurnsAddUp(cfg, front, ids);
      OneTurnMore(cfg, EMPTY, front, a, ids);
      assert actions == front + [a];
    }
  }

  lemma {:induction false} NoTurnsYet(cfg: Config, ids: seq<EventId>)
    ensures TurnsOfAll(cfg, EMPTY, [], ids) == 0
  {
    if ids != [] { NoTurnsYet(cfg, ids[..|ids| - 1]); }
  }

  lemma {:induction false} TurnsAreCapped(cfg: Config, actions: seq<Action>, ids: seq<EventId>)
    requires cfg.maxAttempts >= 1 && OnlyRelayErrorsIn(actions)
    ensures TurnsOfAll(cfg, EMPTY, actions, ids) <= |ids| * cfg.maxAttempts
  {
    hide Turns, Run, OnlyRelayErrorsIn;
    if ids != [] {
      var n := |ids| - 1;
      TurnsAreCapped(cfg, actions, ids[..n]);
      DeliveryTerminates(cfg, actions, ids[n]);
      assert (n + 1) * cfg.maxAttempts == n * cfg.maxAttempts + cfg.maxAttempts;
    }
  }

  lemma {:induction false} Listed(ids: set<EventId>) returns (s: seq<EventId>)
    ensures Distinct(s) && |s| == |ids| && forall id :: id in ids <==> id in s
  {
    if ids == {} {
      s := [];
    } else {
      var id :| id in ids;
      var rest := Listed(ids - {id});
      s := rest + [id];
    }
  }

  /** So delivery as a whole terminates: n events take at most n * maxAttempts turns, crashes not counted. */
  lemma WholeOutboxTerminates(cfg: Config, actions: seq<Action>)
    requires cfg.maxAttempts >= 1 && OnlyRelayErrorsIn(actions)
    ensures AllTurns(cfg, EMPTY, actions) <= |Run(cfg, EMPTY, actions).events| * cfg.maxAttempts
  {
    hide Step, TurnOf;
    var s := Run(cfg, EMPTY, actions);
    RunKeepsInv(cfg, EMPTY, actions);
    var ids := Listed(s.rows.Keys);
    TurnsAddUp(cfg, actions, ids);
    TurnsAreCapped(cfg, actions, ids);
    assert |s.events| == |s.events.Keys|;
  }

  lemma RecordAttempts(d: Delivery, done: Delivery, now: Time, landed: bool, delivered: bool, w: Weather)
    requires d.attempts <= done.attempts
    ensures var t := Record(d, done, now, landed, delivered, w);
            if t.verdict.Recovered? then d.attempts < t.row.attempts else t.row.attempts == d.attempts || t.row == done
    ensures done.attempts == d.attempts ==>
              var t := Record(d, done, now, landed, delivered, w);
              t.row.attempts == if t.verdict.Recovered? then d.attempts + 1 else d.attempts
  {
  }

  lemma FallBackAttempts(cfg: Config, control: Option<string>, now: Time, channel: string, d: Delivery, w: Weather)
    ensures var t := FallBack(cfg, control, now, channel, d, w);
            t.row.attempts == if t.verdict.Recovered? then d.attempts + 1 else d.attempts
  {
  }

  /** The cap is passed exactly when an exception, not a refusal, takes the last attempt. */
  lemma CapPassedOnlyByExceptions(cfg: Config, control: Option<string>, now: Time, ev: Event, d: Delivery, w: Weather)
    requires d.state.Sending? && d.attempts + 1 == cfg.maxAttempts
    ensures var t := Deliver(cfg, control, now, ev, d, w); t.row.attempts >= cfg.maxAttempts <==> t.verdict.Recovered?
  {
    var channel := Destination(cfg, control, ev);
    if w.before.Proceed? && !IsExpired(cfg, ev, now) && channel.Some? {
      match w.first
      case Accepted(buzzId) => RecordAttempts(d, Finish(d, Sent, now, Some(buzzId), None), now, true, true, w);
      case NotMember => FallBackAttempts(cfg, control, now, channel.value, d, w);
      case Refused(kind, taken) =>
        RecordAttempts(d, Finish(d, Failed, w.later, None, Some(Relay(kind))), now, taken, false, w);
      case Raised(_) =>
    }
  }

  lemma RecordPutsBack(d: Delivery, done: Delivery, now: Time, landed: bool, delivered: bool, w: Weather)
    requires d.state.Sending?
    ensures var recorded, t :=
              Record(d, done, now, landed, delivered, w.(closing := Crash)).row,
              Record(d, done, now, landed, delivered, w);
            Terminal(recorded) ==>
              (t.row == recorded || t.row.state.Pending?) && (t.row == recorded <==> !w.closing.Raise?)
  {
  }

  lemma FallBackPutsBack(cfg: Config, control: Option<string>, now: Time, channel: string, d: Delivery, w: Weather)
    requires d.state.Sending?
    ensures var recorded, t :=
              FallBack(cfg, control, now, channel, d, w.(closing := Crash)).row,
              FallBack(cfg, control, now, channel, d, w);
            Terminal(recorded) ==>
              (t.row == recorded || t.row.state.Pending?) && (t.row == recorded <==> !w.closing.Raise?)
  {
    hide Finish, Record;
    var fallback := OrElse(cfg.fallback, control);
    if fallback.None? || fallback.value == channel {
      RecordPutsBack(d, Finish(d, Failed, w.later, None, Some(NoFallback)), now, false, false, w);
    } else {
      match w.second
      case Accepted(id) => RecordPutsBack(d, Finish(d, FallbackSent, now, Some(id), None), now, true, true, w);
      case NotMember =>
        RecordPutsBack(d, Finish(d, Failed, w.later, None, Some(FallbackFailed("not_member"))), now, false, false, w);
      case Refused(kind, taken) =>
        RecordPutsBack(d, Finish(d, Failed, w.later, None, Some(FallbackFailed(kind))), now, taken, false, w);
      case Raised(_) =>
    }
  }

  lemma RefusalPutsBack(cfg: Config, d: Delivery, kind: string, now: Time, taken: bool, w: Weather)
    requires d.state.Sending?
    ensures var recorded, t :=
              GiveUp(cfg, d, kind, now, taken, w.(closing := Crash)).row, GiveUp(cfg, d, kind, now, taken, w);
            Terminal(recorded) ==>
              && (t.row == recorded || t.row.state.Pending?)
              && (t.row == recorded
                  <==> !(w.closing.Raise? || (w.closing.Proceed? && cfg.fallback.Some? && w.alert.Raised?)))
    ensures forall closing ::
            !Terminal(Record(d, Reschedule(d, now + NextBackoff(d.attempts), Relay(kind), now), now, taken, false,
                                               w.(closing := closing)).row)
  {
  }

  /**
   Inside one turn a finished row can still be put back. The row as its recording write left it is what
   a crash right after that write would leave; if that is finished, the turn keeps it exactly unless an
   exception strikes after the write, or on the last refusal the operator alert raises one.
   */
  lemma FinishedRowsArePutBackExactly(
      cfg: Config, control: Option<string>, now: Time, ev: Event, d: Delivery, w: Weather)
    requires d.state.Sending?
    ensures var recorded, t :=
              Deliver(cfg, control, now, ev, d, w.(closing := Crash)).row, Deliver(cfg, control, now, ev, d, w);
            var alerted := LastReply(cfg, control, now, ev, w) == Some(w.first) && w.first.Refused?
              && cfg.fallback.Some?;
            Terminal(recorded) ==>
              && (t.row == recorded || t.row.state.Pending?)
              && (t.row == recorded <==> !(w.closing.Raise? || (w.closing.Proceed? && alerted && w.alert.Raised?)))
  {
    var channel := Destination(cfg, control, ev);
    if w.before.Proceed? {
      if IsExpired(cfg, ev, now) {
        RecordPutsBack(d, Finish(d, Expired, now, None, Some(TooOld)), now, false, false, w);
      } else if channel.None? {
        RecordPutsBack(d, Finish(d, Failed, w.later, None, Some(NoDestination)), now, false, false, w);
      } else {
        hide Finish, Reschedule;
        match w.first
        case Accepted(id) => RecordPutsBack(d, Finish(d, Sent, now, Some(id), None), now, true, true, w);
        case NotMember => FallBackPutsBack(cfg, control, now, channel.value, d, w);
        case Refused(kind, taken) => RefusalPutsBack(cfg, d, kind, now, taken, w);
        case Raised(_) =>
      }
    }
  }

  const RAISING: Weather := Weather(Raise, NotMember, NotMember, Proceed, Proceed, NotMember, 0)

  /** One event, then n rounds of claiming it and meeting an exception. */
  function Storm(ev: Event, n: nat): seq<Action> {
    if n == 0 then [Enqueue(ev, 0)]
    else Storm(ev, n - 1) + [Claim(n * MAX_BACKOFF, [ev.id]), Attempt(None, RAISING)]
  }

  /** So termination needs its premise: with exceptions an event can be tried any number of times and stay pending. */
  lemma {:induction false} ExceptionsRetryForever(cfg: Config, ev: Event, n: nat)
    ensures var s := Run(cfg, EMPTY, Storm(ev, n));
            && s.rows.Keys == {ev.id} && s.rows[ev.id].state.Pending? && s.rows[ev.id].attempts == n
            && s.rows[ev.id].nextAttemptAt <= (n + 1) * MAX_BACKOFF
            && s.events == map[ev.id := ev] && s.batch == []
  {
    if n == 0 {
      assert Storm(ev, 0)[..0] == [];
    } else {
      ExceptionsRetryForever(cfg, ev, n - 1);
      var before, claim, attempt := Storm(ev, n - 1), Claim(n * MAX_BACKOFF, [ev.id]), Attempt(None, RAISING);
      var all := Storm(ev, n);
      assert all[..|all| - 1] == before + [claim];
      assert (before + [claim])[..|before|] == before;
      assert Run(cfg, EMPTY, all) == Step(cfg, Step(cfg, Run(cfg, EMPTY, before), claim), attempt);
      StormRound(cfg, ev, n, Run(cfg, EMPTY, before));
    }
  }

  lemma StormRound(cfg: Config, ev: Event, n: nat, s: Sys)
    requires n > 0 && s.rows.Keys == {ev.id} && s.rows[ev.id].state.Pending? && s.rows[ev.id].attempts == n - 1
    requires s.rows[ev.id].nextAttemptAt <= n * MAX_BACKOFF && s.events == map[ev.id := ev] && s.batch == []
    ensures var claimed := Step(cfg, s, Claim(n * MAX_BACKOFF, [ev.id]));
            var s' := Step(cfg, claimed, Attempt(None, RAISING));
            && s'.rows.Keys == {ev.id} && s'.rows[ev.id].state.Pending? && s'.rows[ev.id].attempts == n
            && s'.rows[ev.id].nextAttemptAt <= (n + 1) * MAX_BACKOFF && s'.events == s.events && s'.batch == []
  {
    var claimed := Step(cfg, s, Claim(n * MAX_BACKOFF, [ev.id]));
    assert IsClaim(s.rows, n * MAX_BACKOFF, CLAIM_LIMIT, [ev.id]);
    assert claimed.rows.Keys == {ev.id} && claimed.rows[ev.id].attempts == n - 1;
    var t := TurnOf(cfg, claimed, Attempt(None, RAISING));
    assert t == Rescue(claimed.rows[ev.id], n * MAX_BACKOFF, false);
    BackoffGrows(n - 1, n - 1);
  }
}
