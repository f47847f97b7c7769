/**
 The deliverer: one pass claims what is due and sends it row by row. Its contracts tie every pass
 to a run of the outbox machine, and pin which channel each message was sent to.
 */
module Delivering {
  import opened Basics
  import opened Events
  import opened Outbox
  import opened Outcomes
  import opened Storage

  /** A message handed to the sender; operator alerts carry no tag. */
  datatype Message = Message(tag: Option<EventId>, channel: string)

  /** The sender. Its answers are the environment's; landed is the relay's record of tagged messages. */
  class Buzz {
    ghost var landed: seq<EventId>
    ghost var handed: seq<Message>

    method Send(channel: string, tag: Option<EventId>, answer: Reply) returns (reply: Reply)
      modifies this
      ensures reply == answer
      ensures handed == old(handed) + [Message(tag, channel)]
      ensures landed == if tag.Some? && Landed(answer) then old(landed) + [tag.value] else old(landed)
    {
      handed := handed + [Message(tag, channel)];
      landed := if tag.Some? && Landed(answer) then landed + [tag.value] else landed;
      reply := answer;
    }
  }

  /** How one row's code ends: normally, by an exception, or with the process. */
  datatype Outcome = Returned(delivered: bool) | Threw | Killed

  /** Whether code that left the row and the relay like this has played its part of the turn. */
  ghost predicate Plays(outcome: Outcome, row: Delivery, landed: bool, now: Time, turn: Turn) {
    match outcome
    case Returned(delivered) => turn == Turn(row, landed, Ended(delivered))
    case Threw => turn == Rescue(row, now, landed)
    case Killed => turn == Turn(row, landed, Died)
  }

  /** What the handler leaves in the table is the row of the turn. */
  lemma TurnIsRecorded(before: map<EventId, Delivery>, after: map<EventId, Delivery>, id: EventId,
      outcome: Outcome, now: Time, turn: Turn)
    requires id in after && after == before[id := after[id]] && Plays(outcome, after[id], turn.landed, now, turn)
    ensures before[id := turn.row] ==
            if outcome.Threw? then
              after[id := Outbox.Reschedule(after[id], now + NextBackoff(after[id].attempts), Internal, now)]
            else after
    ensures turn.verdict.Died? <==> outcome.Killed?
    ensures turn.verdict == Ended(true) <==> outcome == Returned(true)
  {
    hide NextBackoff;
  }

  /******* What is handed to the sender *******/

  /** The messages of one turn, in order. */
  function Messages(cfg: Config, control: Option<string>, now: Time, ev: Event, d: Delivery, w: Weather): seq<Message> {
    var channel, fallback := Destination(cfg, control, ev), OrElse(cfg.fallback, control);
    if !w.before.Proceed? || IsExpired(cfg, ev, now) || channel.None? then []
    else
      [Message(Some(ev.id), channel.value)]
      + if w.first.NotMember? then
          (if fallback.Some? && fallback.value != channel.value then [Message(Some(ev.id), fallback.value)] else [])
        else if && w.first.Refused? && d.attempts + 1 >= cfg.maxAttempts
                && w.recording.Proceed? && w.closing.Proceed? && cfg.fallback.Some?
        then [Message(None, cfg.fallback.value)]
        else []
  }

  /**
   A turn hands over nothing if the event is too old or has nowhere to go. Else its first message is the
   event, to its own channel, or without one to the configured fallback, or without that to the control
   channel. A second message is the event again, to another fallback or control channel, exactly when
   the bridge is no member of the first and there is such a channel; or an untagged alert to the
   configured fallback, exactly when the last attempt was refused and recorded.
   */
  lemma MessagesAreAddressed(cfg: Config, control: Option<string>, now: Time, ev: Event, d: Delivery, w: Weather)
    ensures var ms := Messages(cfg, control, now, ev, d, w);
            && |ms| <= 2
            && (|ms| > 0 <==> w.before.Proceed? && !TooLate(cfg, ev, now) && exists c :: GoesTo(cfg, control, ev, c))
            && (|ms| > 0 ==> ms[0].tag == Some(ev.id) && GoesTo(cfg, control, ev, ms[0].channel))
            && (|ms| == 2 && ms[1].tag.Some? ==>
                  && ms[1].tag == Some(ev.id) && w.first.NotMember?
                  && GoesOnTo(cfg, control, ms[0].channel, ms[1].channel))
            && (|ms| == 1 && w.first.NotMember? ==> forall c :: !GoesOnTo(cfg, control, ms[0].channel, c))
            && (|ms| == 2 && ms[1].tag.None? ==> cfg.fallback == Some(ms[1].channel))
            && (|ms| > 0 && !w.first.NotMember? ==>
                  (|ms| == 2 <==> w.first.Refused? && d.attempts + 1 >= cfg.maxAttempts
                                  && w.recording.Proceed? && w.closing.Proceed? && cfg.fallback.Some?))
            && (|ms| == 2 ==> (ms[1].tag.None? <==> !w.first.NotMember?))
            && (|ms| == 2 && ms[1].tag.None? ==> Deliver(cfg, control, now, ev, d, w).row.state.Failed?
                                                 || Deliver(cfg, control, now, ev, d, w).verdict.Recovered?)
            && (Deliver(cfg, control, now, ev, d, w).landed ==> |ms| > 0)
            && (Deliver(cfg, control, now, ev, d, w).row.state.FallbackSent? && d.state.Sending?
                ==> |ms| == 2 && ms[1].tag == Some(ev.id))
  {
    LateIsExpired(cfg, ev, now);
    GoesToItsDestination(cfg, control, ev);
    var channel, other := Destination(cfg, control, ev), OrElse(cfg.fallback, control);
    if channel.Some? {
      assert forall c :: GoesOnTo(cfg, control, channel.value, c) ==> other == Some(c);
    }
    hide TooLate, IsExpired, GoesTo, Destination, NextBackoff;
  }

  class Deliverer {
    const cfg: Config
    const store: Store
    const buzz: Buzz
    ghost var batch: seq<EventId> // what is left of the rows of the current pass
    ghost var clock: Time         // when the current pass began

    constructor (cfg: Config, store: Store, buzz: Buzz)
      ensures this.cfg == cfg && this.store == store && this.buzz == buzz && batch == []
    {
      this.cfg, this.store, this.buzz := cfg, store, buzz;
      batch, clock := [], 0;
    }

    ghost function View(): Sys
      reads this, store, buzz
    {
      Sys(store.events, store.deliveries, buzz.landed, batch, clock)
    }

    /** What the process does to the outbox when it starts again: memory is gone, what was in flight is due. */
    method Restart() returns (recovered: nat)
      requires store.Valid()
      modifies this`batch, store`deliveries
      ensures store.Valid()
      ensures View() == Step(cfg, old(View()), Boot)
      ensures recovered > 0 <==> exists id :: id in old(store.deliveries) && old(store.deliveries)[id].state.Sending?
    {
      ghost var inFlight := set id | id in store.deliveries && store.deliveries[id].state.Sending?;
      recovered := store.RecoverInflight();
      assert recovered == |inFlight|;
      assert recovered > 0 <==> inFlight != {};
      assert forall id :: id in inFlight <==> id in old(store.deliveries) && old(store.deliveries)[id].state.Sending?;
      batch := [];
    }

    method DestinationOf(ev: Event) returns (channel: Option<string>)
      ensures channel == Destination(cfg, store.controlChannel, ev)
      ensures forall c :: channel == Some(c) <==> GoesTo(cfg, store.controlChannel, ev, c)
    {
      if ev.originChannel.Some? { return ev.originChannel; }
      if cfg.fallback.Some? { return cfg.fallback; }
      return store.controlChannel;
    }

    method HasExpired(ev: Event, now: Time) returns (expired: bool)
      ensures expired == IsExpired(cfg, ev, now)
      ensures expired <==> TooLate(cfg, ev, now)
    {
      if ev.occurredAt.None? { return false; }
      var age := now - ev.occurredAt.value;
      return age > cfg.maxAge;
    }

    /** The end of a row's code, after its last write. */
    method Finishing(closing: Fate, delivered: bool) returns (outcome: Outcome)
      ensures outcome == match closing case Proceed => Returned(delivered) case Raise => Threw case Crash => Killed
    {
      match closing
      case Proceed => return Returned(delivered);
      case Raise => return Threw;
      case Crash => return Killed;
    }

    method Fail(id: EventId, cause: Cause, w: Weather) returns (outcome: Outcome)
      requires store.Valid() && id in store.deliveries
      modifies store`deliveries
      ensures store.Valid()
      ensures var d := old(store.deliveries)[id];
              var done := if w.recording.Proceed? then Finish(d, Failed, w.later, None, Some(cause)) else d;
              && store.deliveries == old(store.deliveries)[id := done]
              && forall now, landed ::
                 Plays(outcome, done, landed, now,
                       Record(d, Finish(d, Failed, w.later, None, Some(cause)), now, landed, false, w))
      ensures store.deliveries[id].attempts == old(store.deliveries)[id].attempts
    {
      if w.recording.Raise? { return Threw; }
      if w.recording.Crash? { return Killed; }
      store.MarkFailed(id, cause, w.later);
      outcome := Finishing(w.closing, false);
    }

    /** Tries the fallback channel once; whatever it answers, the row is finished or the exception is passed on. */
    method Fallback(ev: Event, failedChannel: string, now: Time, w: Weather) returns (outcome: Outcome)
      requires store.Valid() && ev.id in store.deliveries
      modifies store`deliveries, buzz
      ensures store.Valid()
      ensures store.deliveries.Keys == old(store.deliveries).Keys
      ensures forall id :: id in store.deliveries && id != ev.id ==> store.deliveries[id] == old(store.deliveries)[id]
      ensures var d := old(store.deliveries)[ev.id];
              var turn := FallBack(cfg, store.controlChannel, now, failedChannel, d, w);
              && Plays(outcome, store.deliveries[ev.id], turn.landed, now, turn)
              && buzz.landed == (if turn.landed then old(buzz.landed) + [ev.id] else old(buzz.landed))
      ensures store.deliveries[ev.id].attempts == old(store.deliveries)[ev.id].attempts
      ensures var fallback := OrElse(cfg.fallback, store.controlChannel);
              buzz.handed == old(buzz.handed)
                             + if fallback.None? || fallback.value == failedChannel then []
                               else [Message(Some(ev.id), fallback.value)]
    {
      var fallback := if cfg.fallback.Some? then cfg.fallback else store.controlChannel;
      if fallback.None? || fallback.value == failedChannel {
        outcome := Fail(ev.id, NoFallback, w);
        return;
      }
      var reply := buzz.Send(fallback.value, Some(ev.id), w.second);
      match reply {
        case Raised(_) => return Threw;
        case NotMember => outcome := Fail(ev.id, FallbackFailed("not_member"), w);
        case Refused(kind, _) => outcome := Fail(ev.id, FallbackFailed(kind), w);
        case Accepted(buzzId) =>
          if w.recording.Raise? { return Threw; }
          if w.recording.Crash? { return Killed; }
          store.MarkFallback(ev.id, buzzId, now);
          outcome := Finishing(w.closing, true);
      }
    }

    /** Tells the operator, if there is anyone to tell; a refusal is ignored, any other exception is not. */
    method Alert(w: Weather) returns (outcome: Outcome)
      modifies buzz
      ensures outcome == if cfg.fallback.Some? && w.alert.Raised? then Threw else Returned(false)
      ensures buzz.landed == old(buzz.landed)
      ensures buzz.handed == old(buzz.handed) + if cfg.fallback.Some? then [Message(None, cfg.fallback.value)] else []
    {
      if cfg.fallback.None? { return Returned(false); }
      var reply := buzz.Send(cfg.fallback.value, None, w.alert);
      return if reply.Raised? then Threw else Returned(false);
    }

    /** The last attempt fails the row and alerts; any other is put off. */
    method HandleRefusal(ev: Event, attempts: nat, kind: string, now: Time, landed: bool,
        w: Weather) returns (outcome: Outcome)
      requires store.Valid() && ev.id in store.deliveries && store.deliveries[ev.id].attempts == attempts
      modifies store`deliveries, buzz
      ensures store.Valid()
      ensures store.deliveries.Keys == old(store.deliveries).Keys
      ensures forall id :: id in store.deliveries && id != ev.id ==> store.deliveries[id] == old(store.deliveries)[id]
      ensures var d := old(store.deliveries)[ev.id];
              Plays(outcome, store.deliveries[ev.id], landed, now,
                    if attempts + 1 >= cfg.maxAttempts then GiveUp(cfg, d, kind, now, landed, w)
                    else Record(d, Outbox.Reschedule(d, now + NextBackoff(attempts), Relay(kind), now), now, landed,
                                false, w.(closing := Proceed)))
      ensures outcome.Threw? ==> store.deliveries[ev.id].attempts == attempts
      ensures buzz.landed == old(buzz.landed)
      ensures buzz.handed == old(buzz.handed)
              + if attempts + 1 >= cfg.maxAttempts && w.recording.Proceed? && w.closing.Proceed? && cfg.fallback.Some?
                then [Message(None, cfg.fallback.value)] else []
    {
      if attempts + 1 >= cfg.maxAttempts {
        outcome := Fail(ev.id, Relay(kind), w);
        if outcome.Returned? { outcome := Alert(w); }
      } else {
        if w.recording.Raise? { return Threw; }
        if w.recording.Crash? { return Killed; }
        store.Reschedule(ev.id, now + NextBackoff(attempts), Relay(kind), now);
        outcome := Returned(false);
      }
    }

    /** One claimed row, up to the handler around it. */
    method DeliverRow(ev: Event, attempts: nat, now: Time, w: Weather) returns (outcome: Outcome)
      requires store.Valid() && ev.id in store.deliveries && store.deliveries[ev.id].attempts == attempts
      modifies store`deliveries, buzz
      ensures store.Valid()
      ensures store.deliveries.Keys == old(store.deliveries).Keys
      ensures forall id :: id in store.deliveries && id != ev.id ==> store.deliveries[id] == old(store.deliveries)[id]
      ensures var turn := Deliver(cfg, store.controlChannel, now, ev, old(store.deliveries)[ev.id], w);
              && Plays(outcome, store.deliveries[ev.id], turn.landed, now, turn)
              && buzz.landed == (if turn.landed then old(buzz.landed) + [ev.id] else old(buzz.landed))
      ensures outcome.Threw? ==> store.deliveries[ev.id].attempts == attempts
      ensures buzz.handed
              == old(buzz.handed) + Messages(cfg, store.controlChannel, now, ev, old(store.deliveries)[ev.id], w)
    {
      hide FallBack, GiveUp, NextBackoff, WellLabelled, IsExpired, Destination;
      if w.before.Crash? { return Killed; }
      if w.before.Raise? { return Threw; }
      var expired := HasExpired(ev, now);
      if expired {
        if w.recording.Raise? { return Threw; }
        if w.recording.Crash? { return Killed; }
        store.MarkExpired(ev.id, now);
        outcome := Finishing(w.closing, false);
        return;
      }
      var channel := DestinationOf(ev);
      if channel.None? {
        outcome := Fail(ev.id, NoDestination, w);
        return;
      }
      var reply := buzz.Send(channel.value, Some(ev.id), w.first);
      match reply {
        case Raised(_) => return Threw;
        case NotMember => outcome := Fallback(ev, channel.value, now, w);
        case Refused(kind, taken) => outcome := HandleRefusal(ev, attempts, kind, now, taken, w);
        case Accepted(buzzId) =>
          if w.recording.Raise? { return Threw; }
          if w.recording.Crash? { return Killed; }
          store.MarkSent(ev.id, buzzId, now);
          outcome := Finishing(w.closing, true);
      }
    }

    /** The next of the claimed rows, with the handler around it: an exception puts the row off. */
    method TakeTurn(id: EventId, attempts: nat, now: Time, w: Weather) returns (delivered: bool, killed: bool)
      requires store.Valid() && clock == now && batch != [] && id == batch[0] && id in store.deliveries
      requires store.deliveries[id].attempts == attempts
      modifies this`batch, store`deliveries, buzz
      ensures store.Valid()
      ensures View() == Step(cfg, old(View()), Attempt(store.controlChannel, w))
      ensures CanAttempt(old(View()))
      ensures var turn := TurnOf(cfg, old(View()), Attempt(store.controlChannel, w));
              killed == turn.verdict.Died? && delivered == (turn.verdict == Ended(true))
      ensures batch == if killed then [] else old(batch)[1..]
      ensures store.deliveries.Keys == old(store.deliveries).Keys
      ensures forall other :: other in store.deliveries && other != id ==>
               store.deliveries[other] == old(store.deliveries)[other]
      ensures buzz.handed == old(buzz.handed)
                             + Messages(cfg, store.controlChannel, now, store.events[id], old(store.deliveries)[id], w)
    {
      hide Deliver, Messages, NextBackoff, WellLabelled, Step, TurnOf, Finish, Plays, Outbox.Reschedule;
      AttemptStep(cfg, View(), Attempt(store.controlChannel, w));
      var ev := store.events[id];
      ghost var before := store.deliveries;
      var outcome := DeliverRow(ev, attempts, now, w);
      assert store.deliveries == before[ev.id := store.deliveries[ev.id]];
      TurnIsRecorded(before, store.deliveries, id, outcome, now,
                     TurnOf(cfg, old(View()), Attempt(store.controlChannel, w)));
      if outcome.Threw? {
        store.Reschedule(ev.id, now + NextBackoff(attempts), Internal, now);
      }
      killed := outcome.Killed?;
      delivered := outcome.Returned? && outcome.delivered;
      batch := if killed then [] else batch[1..];
    }

    /** One pass over what is due; the environment picks the weather of each turn. */
    method RunOnce(now: Time, weather: nat -> Weather)
        returns (delivered: nat, killed: bool, ghost ids: seq<EventId>, ghost tried: nat)
      requires store.Valid() && batch == []
      modifies this`batch, this`clock, store`deliveries, buzz
      ensures store.Valid() && batch == []
      ensures IsClaim(old(store.deliveries), now, CLAIM_LIMIT, ids) && |ids| <= 50
      ensures tried <= |ids| && (!killed ==> tried == |ids|)
      ensures View() == Run(cfg, old(View()), Pass(now, ids, store.controlChannel, weather, tried))
      ensures delivered == Deliveries(cfg, old(View()), Pass(now, ids, store.controlChannel, weather, tried))
    {
      hide Run, Step, Deliver, TurnOf, CanAttempt, IsClaim, MarkSending, Deliveries, Pass;
      ghost var start := View();
      var claimed := store.ClaimDue(now, CLAIM_LIMIT);
      ids, tried, delivered, killed := claimed, 0, 0, false;
      batch, clock := claimed, now;
      var rows := store.deliveries;
      ghost var control := store.controlChannel;
      ClaimStep(cfg, start, now, ids);
      ClaimIsShort(start.rows, now, ids);
      FirstStep(cfg, start, now, ids, control, weather);
      var i := 0;
      while i < |claimed|
        invariant i <= |claimed| && tried == i && !killed
        invariant store.Valid() && clock == now && batch == claimed[i..] && store.controlChannel == control
        invariant rows.Keys == store.deliveries.Keys
        invariant forall k :: i <= k < |claimed| ==>
                   claimed[k] in rows && store.deliveries[claimed[k]] == rows[claimed[k]]
        invariant View() == Run(cfg, start, Pass(now, ids, control, weather, tried))
        invariant delivered == Deliveries(cfg, start, Pass(now, ids, control, weather, tried))
      {
        ghost var before := View();
        var ended;
        ended, killed := TakeTurn(claimed[i], rows[claimed[i]].attempts, now, weather(i));
        NextStep(cfg, start, now, ids, control, weather, i);
        assert claimed[i..][1..] == claimed[i + 1..];
        delivered := delivered + if ended then 1 else 0;
        i, tried := i + 1, tried + 1;
        if killed { return; }
      }
    }
  }

  /** A pass in the machine: one claim, then turns one after the other. */
  function Pass(now: Time, ids: seq<EventId>, control: Option<string>, weather: nat -> Weather, n: nat): seq<Action> {
    if n == 0 then [Claim(now, ids)] else Pass(now, ids, control, weather, n - 1) + [Attempt(control, weather(n - 1))]
  }

  /** How many turns of a run ended with the event delivered. */
  ghost function Deliveries(cfg: Config, s: Sys, actions: seq<Action>): nat {
    if actions == [] then 0
    else
      var front, a := actions[..|actions| - 1], actions[|actions| - 1];
      var before := Run(cfg, s, front);
      Deliveries(cfg, s, front)
      + if a.Attempt? && CanAttempt(before) && TurnOf(cfg, before, a).verdict == Ended(true) then 1 else 0
  }

  lemma ClaimStep(cfg: Config, s: Sys, now: Time, ids: seq<EventId>)
    requires s.batch == [] && IsClaim(s.rows, now, CLAIM_LIMIT, ids)
    ensures Step(cfg, s, Claim(now, ids)) == s.(rows := MarkSending(s.rows, ids, now), batch := ids, clock := now)
    ensures Distinct(ids) && forall k :: 0 <= k < |ids| ==> ids[k] in MarkSending(s.rows, ids, now)
  {
  }

  lemma ClaimIsShort(rows: map<EventId, Delivery>, now: Time, ids: seq<EventId>)
    requires IsClaim(rows, now, CLAIM_LIMIT, ids)
    ensures |ids| <= 50
  {
  }

  lemma FirstStep(cfg: Config, s: Sys, now: Time, ids: seq<EventId>, control: Option<string>, weather: nat -> Weather)
    ensures Run(cfg, s, Pass(now, ids, control, weather, 0)) == Step(cfg, s, Claim(now, ids))
    ensures Deliveries(cfg, s, Pass(now, ids, control, weather, 0)) == 0
  {
    var actions := Pass(now, ids, control, weather, 0);
    assert actions[..0] == [];
    assert Deliveries(cfg, s, actions[..0]) == 0;
  }

  lemma NextStep(
      cfg: Config, s: Sys, now: Time, ids: seq<EventId>, control: Option<string>, weather: nat -> Weather, n: nat)
    ensures var before, a := Run(cfg, s, Pass(now, ids, control, weather, n)), Attempt(control, weather(n));
            && Run(cfg, s, Pass(now, ids, control, weather, n + 1)) == Step(cfg, before, a)
            && Deliveries(cfg, s, Pass(now, ids, control, weather, n + 1))
               == Deliveries(cfg, s, Pass(now, ids, control, weather, n))
                  + if CanAttempt(before) && TurnOf(cfg, before, a).verdict == Ended(true) then 1 else 0
  {
    var front := Pass(now, ids, control, weather, n);
    assert Pass(now, ids, control, weather, n + 1)[..|front|] == front;
  }
}
