/**
 What a turn leaves on record, told from the event, the configuration and the relay's answers alone,
 and what that comes to over whole runs: only an old event ever expires.
 */
module Outcomes {
  import opened Basics
  import opened Events
  import opened Outbox

  ghost predicate TooLate(cfg: Config, ev: Event, now: Time) {
    exists at :: ev.occurredAt == Some(at) && now - at > cfg.maxAge
  }

  /** The channel an event goes to first: its own, else the configured fallback, else the control channel. */
  ghost predicate GoesTo(cfg: Config, control: Option<string>, ev: Event, channel: string) {
    || ev.originChannel == Some(channel)
    || (ev.originChannel == None && cfg.fallback == Some(channel))
    || (ev.originChannel == None && cfg.fallback == None && control == Some(channel))
  }

  /** The channel it goes to when the bridge is no member of that one: the fallback or control channel, if another. */
  ghost predicate GoesOnTo(cfg: Config, control: Option<string>, first: string, channel: string) {
    && channel != first
    && (cfg.fallback == Some(channel) || (cfg.fallback == None && control == Some(channel)))
  }

  /** Nothing goes wrong but what the relay refuses. */
  predicate Undisturbed(w: Weather) {
    OnlyRelayErrors(w) && w.before.Proceed? && w.recording.Proceed? && w.closing.Proceed?
  }

  /** Whether the relay's last refusal of this kind uses up the row. */
  ghost function Refusal(cfg: Config, d: Delivery, kind: string, now: Time, later: Time): Delivery {
    if d.attempts + 1 < cfg.maxAttempts
    then Delivery(Pending, d.attempts + 1, now + NextBackoff(d.attempts), Some(Relay(kind)), d.buzzEventId, now)
    else Delivery(Failed, d.attempts, d.nextAttemptAt, Some(Relay(kind)), d.buzzEventId, later)
  }

  ghost predicate Ends(t: Turn, row: Delivery, landed: bool, delivered: bool) {
    t == Turn(row, landed, Ended(delivered))
  }

  /**
   An undisturbed turn, case by case: too old, nowhere to go, taken by the first channel, refused
   there, or no member of it and then nowhere else to go, taken, refused or no member again.
   */
  lemma TurnsRecordWhatHappened(
      cfg: Config, control: Option<string>, now: Time, ev: Event, d: Delivery, w: Weather, first: string,
      second: string)
    requires Undisturbed(w)
    ensures var t := Deliver(cfg, control, now, ev, d, w);
            var failed := d.(state := Failed, updatedAt := w.later);
            && (TooLate(cfg, ev, now) ==>
                  Ends(t, d.(state := Expired, lastError := Some(TooOld), updatedAt := now), false, false))
            && (!TooLate(cfg, ev, now) && (forall c :: !GoesTo(cfg, control, ev, c)) ==>
                  Ends(t, failed.(lastError := Some(NoDestination)), false, false))
            && (!TooLate(cfg, ev, now) && GoesTo(cfg, control, ev, first) ==>
                  match w.first
                  case Accepted(id) => Ends(t, d.(state := Sent, buzzEventId := Some(id), updatedAt := now), true, true)
                  case Refused(kind, taken) => Ends(t, Refusal(cfg, d, kind, now, w.later), taken, false)
                  case Raised(_) => true
                  case NotMember =>
                    && ((forall c :: !GoesOnTo(cfg, control, first, c)) ==>
                          Ends(t, failed.(lastError := Some(NoFallback)), false, false))
                    && (GoesOnTo(cfg, control, first, second) ==>
                          match w.second
                          case Accepted(id) =>
                            Ends(t, d.(state := FallbackSent, buzzEventId := Some(id), updatedAt := now), true, true)
                          case NotMember =>
                            Ends(t, failed.(lastError := Some(FallbackFailed("not_member"))), false, false)
                          case Refused(kind, taken) =>
                            Ends(t, failed.(lastError := Some(FallbackFailed(kind))), taken, false)
                          case Raised(_) => true))
  {
    hide NextBackoff;
    LateIsExpired(cfg, ev, now);
    GoesToItsDestination(cfg, control, ev);
    var channel, other := Destination(cfg, control, ev), OrElse(cfg.fallback, control);
    if channel.Some? {
      assert other.Some? && other.value != channel.value ==> GoesOnTo(cfg, control, channel.value, other.value);
    }
    hide IsExpired, Destination, TooLate, GoesTo;
  }

  lemma LateIsExpired(cfg: Config, ev: Event, now: Time)
    ensures TooLate(cfg, ev, now) <==> IsExpired(cfg, ev, now)
  {
  }

  lemma GoesToItsDestination(cfg: Config, control: Option<string>, ev: Event)
    ensures forall c :: GoesTo(cfg, control, ev, c) <==> Destination(cfg, control, ev) == Some(c)
  {
  }

  /** An exception puts the row off as an internal error, with the delay of the attempts it had. */
  lemma ExceptionsPutOff(cfg: Config, control: Option<string>, now: Time, ev: Event, d: Delivery, w: Weather)
    requires d.state.Sending?
    ensures var t := Deliver(cfg, control, now, ev, d, w);
            && (t.verdict.Recovered? ==> PutOff(d, t.row, now))
            && (w.before.Raise? ==> t.verdict.Recovered? && !t.landed)
  {
    hide NextBackoff, IsExpired, Destination, FallBack, GiveUp;
    var channel := Destination(cfg, control, ev);
    if w.before.Proceed? && channel.Some? && !IsExpired(cfg, ev, now) {
      if w.first.NotMember? { FallBackPutsOff(cfg, control, now, channel.value, d, w); }
      if w.first.Refused? { GiveUpPutsOff(cfg, d, w.first.kind, now, w.first.taken, w); }
    }
  }

  /** What becomes of a turn that has an answer to record: the record's fate, and once it is written the closing's. */
  ghost function FateOf(w: Weather): Fate {
    if w.recording.Proceed? then w.closing else w.recording
  }

  ghost predicate EndsAs(v: Verdict, fate: Fate) {
    match fate
    case Proceed => v.Ended?
    case Raise => v == Recovered
    case Crash => v == Died
  }

  /**
   How any turn ends. A fault before anything is sent decides; then an exception of the sender that the
   turn gets to, from the first channel or the other one; then the fate of what is recorded. A refusal with
   attempts left has nothing after its record that could fail, and the alert of the last one may raise.
   */
  lemma TurnsEndExactly(
      cfg: Config, control: Option<string>, now: Time, ev: Event, d: Delivery, w: Weather, first: string)
    ensures var v := Deliver(cfg, control, now, ev, d, w).verdict;
            && (!w.before.Proceed? ==> EndsAs(v, w.before))
            && (w.before.Proceed? && (TooLate(cfg, ev, now) || forall c :: !GoesTo(cfg, control, ev, c)) ==>
                  EndsAs(v, FateOf(w)))
            && (w.before.Proceed? && !TooLate(cfg, ev, now) && GoesTo(cfg, control, ev, first) ==>
                  match w.first
                  case Raised(_) => v == Recovered
                  case Accepted(_) => EndsAs(v, FateOf(w))
                  case NotMember =>
                    if w.second.Raised? && exists c :: GoesOnTo(cfg, control, first, c) then v == Recovered
                    else EndsAs(v, FateOf(w))
                  case Refused(_, _) =>
                    if d.attempts + 1 < cfg.maxAttempts then EndsAs(v, w.recording)
                    else if FateOf(w).Proceed? && cfg.fallback.Some? && w.alert.Raised? then v == Recovered
                    else EndsAs(v, FateOf(w)))
  {
    hide NextBackoff;
    LateIsExpired(cfg, ev, now);
    GoesToItsDestination(cfg, control, ev);
    var channel, other := Destination(cfg, control, ev), OrElse(cfg.fallback, control);
    if channel.Some? {
      assert forall c :: GoesOnTo(cfg, control, channel.value, c) <==> other == Some(c) && c != channel.value;
      assert other.Some? && other.value != channel.value ==> GoesOnTo(cfg, control, channel.value, other.value);
    }
    hide IsExpired, Destination, TooLate, GoesTo, GoesOnTo;
  }

  /** The row as an exception leaves it. */
  ghost predicate PutOff(d: Delivery, row: Delivery, now: Time) {
    row == Delivery(Pending, d.attempts + 1, now + NextBackoff(d.attempts), Some(Internal), row.buzzEventId, now)
  }

  lemma FallBackPutsOff(cfg: Config, control: Option<string>, now: Time, channel: string, d: Delivery, w: Weather)
    requires d.state.Sending?
    ensures var t := FallBack(cfg, control, now, channel, d, w); t.verdict.Recovered? ==> PutOff(d, t.row, now)
  {
    hide NextBackoff;
  }

  lemma GiveUpPutsOff(cfg: Config, d: Delivery, kind: string, now: Time, landed: bool, w: Weather)
    requires d.state.Sending?
    ensures var t := GiveUp(cfg, d, kind, now, landed, w); t.verdict.Recovered? ==> PutOff(d, t.row, now)
  {
    hide NextBackoff;
  }

  /** A crash leaves the row as it was, or as an undisturbed turn with the same answers would have recorded it. */
  lemma CrashesLeave(cfg: Config, control: Option<string>, now: Time, ev: Event, d: Delivery, w: Weather)
    requires d.state.Sending?
    ensures var t := Deliver(cfg, control, now, ev, d, w);
            && (t.verdict.Died? ==>
                  t.row == d
                  || (Undisturbed(Calmed(w)) && t.row == Deliver(cfg, control, now, ev, d, Calmed(w)).row))
            && (w.before.Crash? ==> t == Turn(d, false, Died))
  {
    hide NextBackoff, IsExpired, Destination;
  }

  /** The same answers, with nothing raised and no fault. */
  function Calmed(w: Weather): Weather {
    Weather(
      Proceed, if w.first.Raised? then NotMember else w.first, if w.second.Raised? then NotMember else w.second,
      Proceed, Proceed, NotMember, w.later)
  }

  /******* Claiming *******/

  /**
   A claim takes pending rows whose time has come, no more than the limit, and leaves none behind that was
   due before one it takes; it marks those, at its own clock, and no other row.
   */
  lemma ClaimsTakeTheOldestDue(rows: map<EventId, Delivery>, now: Time, limit: nat, ids: seq<EventId>, id: EventId)
    requires IsClaim(rows, now, limit, ids) && id in rows
    ensures var row, after := rows[id], MarkSending(rows, ids, now);
            && after.Keys == rows.Keys && |ids| <= limit
            && (id in ids ==> row.state == Pending && row.nextAttemptAt <= now)
            && (row.state == Pending && row.nextAttemptAt <= now && id !in ids ==>
                  |ids| == limit && forall k :: 0 <= k < |ids| ==> rows[ids[k]].nextAttemptAt <= row.nextAttemptAt)
            && after[id] == if id in ids then row.(state := Sending, updatedAt := now) else row
  {
  }

  /** A new event is pending, untried, and due at once under any clock that has begun. */
  lemma NewEventsAreDue(cfg: Config, s: Sys, ev: Event, at: Time, now: Time)
    requires Inv(s) && ev.id !in s.events && 0 <= now
    ensures var s' := Step(cfg, s, Enqueue(ev, at));
            && s'.events == s.events[ev.id := ev]
            && s'.rows == s.rows[ev.id := Delivery(Pending, 0, 0, None, None, at)]
            && Due(s'.rows[ev.id], now)
  {
  }

  /******* Over whole runs *******/

  ghost predicate ClaimedAt(actions: seq<Action>, now: Time) {
    exists k :: 0 <= k < |actions| && actions[k].Claim? && actions[k].now == now
  }

  lemma {:induction false} ClockIsOfAClaim(cfg: Config, actions: seq<Action>)
    ensures Run(cfg, EMPTY, actions).batch != [] ==> ClaimedAt(actions, Run(cfg, EMPTY, actions).clock)
  {
    hide Deliver, IsClaim;
    if actions != [] {
      var front, a := actions[..|actions| - 1], actions[|actions| - 1];
      ClockIsOfAClaim(cfg, front);
      LongerRuns(actions, Run(cfg, EMPTY, front).clock);
      assert a.Claim? ==> ClaimedAt(actions, a.now) by { assert actions[|actions| - 1] == a; }
    }
  }

  lemma LongerRuns(actions: seq<Action>, now: Time)
    requires actions != []
    ensures ClaimedAt(actions[..|actions| - 1], now) ==> ClaimedAt(actions, now)
  {
    var front := actions[..|actions| - 1];
    if k :| 0 <= k < |front| && front[k].Claim? && front[k].now == now {
      assert actions[k] == front[k];
    }
  }

  /** A turn ends expired only for an event that is too old by the clock of the claim. */
  lemma OnlyLateTurnsExpire(cfg: Config, control: Option<string>, now: Time, ev: Event, d: Delivery, w: Weather)
    requires !d.state.Expired?
    ensures Deliver(cfg, control, now, ev, d, w).row.state.Expired? ==> TooLate(cfg, ev, now)
  {
    hide NextBackoff;
    LateIsExpired(cfg, ev, now);
  }

  lemma StepExpires(cfg: Config, s: Sys, a: Action, id: EventId)
    requires Inv(s) && id in s.rows && !s.rows[id].state.Expired?
    ensures var s' := Step(cfg, s, a);
            && id in s'.rows && id in s'.events && s'.events[id] == s.events[id]
            && (s'.rows[id].state.Expired? ==> s.batch != [] && TooLate(cfg, s.events[id], s.clock))
  {
    hide Deliver, TooLate;
    if a.Attempt? && CanAttempt(s) {
      OnlyLateTurnsExpire(cfg, a.control, s.clock, s.events[s.batch[0]], s.rows[s.batch[0]], a.weather);
    }
  }

  /** Over any run, only an event that some pass found too old ever expires. */
  lemma {:induction false} OnlyOldEventsExpire(cfg: Config, actions: seq<Action>, id: EventId)
    ensures var s := Run(cfg, EMPTY, actions);
            id in s.rows && s.rows[id].state.Expired? ==>
              id in s.events && exists now :: ClaimedAt(actions, now) && TooLate(cfg, s.events[id], now)
  {
    if actions != [] {
      var front, a := actions[..|actions| - 1], actions[|actions| - 1];
      var before := Run(cfg, EMPTY, front);
      OnlyOldEventsExpire(cfg, front, id);
      RunKeepsInv(cfg, EMPTY, front);
      StepConserves(cfg, before, a);
      ClockIsOfAClaim(cfg, front);
      hide Deliver, IsClaim, TooLate, ClaimedAt;
      if id in before.rows {
        if before.rows[id].state.Expired? {
          var now :| ClaimedAt(front, now) && TooLate(cfg, before.events[id], now);
          LongerRuns(actions, now);
        } else {
          StepExpires(cfg, before, a, id);
          LongerRuns(actions, before.clock);
        }
      }
    }
  }

  /** So an event is never dropped as too old as long as every pass comes within the maximum age of it. */
  lemma PromptAlertsNeverExpire(cfg: Config, actions: seq<Action>, id: EventId, at: Time)
    requires var s := Run(cfg, EMPTY, actions); id in s.rows && id in s.events && s.events[id].occurredAt == Some(at)
    requires forall now :: ClaimedAt(actions, now) ==> now - at <= cfg.maxAge
    ensures !Run(cfg, EMPTY, actions).rows[id].state.Expired?
  {
    OnlyOldEventsExpire(cfg, actions, id);
  }
}
