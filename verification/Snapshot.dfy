/**
 The snapshot ledger of the memory plugin. Marking a delivery also forgets deliveries older than
 the time to live; the ledger must answer as one that never forgets.
 */
module Snapshot {
  import opened Basics

  /** A session is due when nothing was sent to it, or not for at least the time to live. */
  predicate IsDue(sent: map<string, Time>, session: string, now: Time, ttl: Time) {
    session !in sent || now - sent[session] >= ttl
  }

  function Remember(sent: map<string, Time>, session: string, now: Time): map<string, Time> {
    sent[session := now]
  }

  function Prune(sent: map<string, Time>, now: Time, ttl: Time): map<string, Time> {
    map session | session in sent && sent[session] >= now - ttl :: sent[session]
  }

  function PruneAndRemember(sent: map<string, Time>, session: string, now: Time, ttl: Time): map<string, Time> {
    Remember(Prune(sent, now, ttl), session, now)
  }

  datatype Op = Sent(session: string, now: Time) | Asked(session: string, now: Time)

  /** The ledger after these operations, pruned on the way or never. */
  function Ledger(ops: seq<Op>, ttl: Time, pruned: bool): map<string, Time> {
    if ops == [] then map[]
    else
      var before, op := Ledger(ops[..|ops| - 1], ttl, pruned), ops[|ops| - 1];
      if op.Asked? then before
      else if pruned then PruneAndRemember(before, op.session, op.now, ttl)
      else Remember(before, op.session, op.now)
  }

  ghost predicate Monotone(ops: seq<Op>) {
    forall j, k :: 0 <= j < k < |ops| ==> ops[j].now <= ops[k].now
  }

  /** What is left is right, and what is gone was overdue already. */
  ghost predicate Refines(pruned: map<string, Time>, full: map<string, Time>, clock: Time, ttl: Time) {
    && (forall s :: s in pruned ==> s in full && full[s] == pruned[s])
    && (forall s :: s in full && s !in pruned ==> clock - full[s] >= ttl)
  }

  lemma RefinesAgrees(pruned: map<string, Time>, full: map<string, Time>, clock: Time, now: Time, ttl: Time)
    requires Refines(pruned, full, clock, ttl) && clock <= now
    ensures Refines(pruned, full, now, ttl)
    ensures forall s :: IsDue(pruned, s, now, ttl) == IsDue(full, s, now, ttl)
  {
  }

  lemma PruneRefines(pruned: map<string, Time>, full: map<string, Time>, session: string, now: Time, ttl: Time)
    requires Refines(pruned, full, now, ttl)
    ensures Refines(PruneAndRemember(pruned, session, now, ttl), Remember(full, session, now), now, ttl)
  {
  }

  lemma {:induction false} LedgersRefine(ops: seq<Op>, ttl: Time)
    requires Monotone(ops) && ops != []
    ensures Refines(Ledger(ops, ttl, true), Ledger(ops, ttl, false), ops[|ops| - 1].now, ttl)
  {
    var front, op := ops[..|ops| - 1], ops[|ops| - 1];
    var pruned, full := Ledger(front, ttl, true), Ledger(front, ttl, false);
    if front != [] {
      LedgersRefine(front, ttl);
      RefinesAgrees(pruned, full, front[|front| - 1].now, op.now, ttl);
    }
    if op.Sent? { PruneRefines(pruned, full, op.session, op.now, ttl); }
  }

  /**
   Forgetting changes no decision: after any deliveries and questions under a clock that does not
   run back, the pruned ledger answers every session as the one that never forgets, for any time to live.
   */
  lemma PruningIsInvisible(ops: seq<Op>, ttl: Time, session: string, now: Time)
    requires Monotone(ops + [Asked(session, now)])
    ensures IsDue(Ledger(ops, ttl, true), session, now, ttl) == IsDue(Ledger(ops, ttl, false), session, now, ttl)
  {
    var all := ops + [Asked(session, now)];
    if ops != [] {
      forall j, k | 0 <= j < k < |ops| ensures ops[j].now <= ops[k].now { assert all[j].now <= all[k].now; }
      assert all[|ops| - 1].now <= all[|ops|].now;
      LedgersRefine(ops, ttl);
      RefinesAgrees(Ledger(ops, ttl, true), Ledger(ops, ttl, false), ops[|ops| - 1].now, now, ttl);
    }
  }

  /** And it is what keeps the ledger small: after a delivery only sessions served within the time to live are left. */
  lemma PrunedLedgerIsRecent(ops: seq<Op>, ttl: Time)
    requires ops != [] && ops[|ops| - 1].Sent?
    ensures var last := ops[|ops| - 1];
            forall s :: s in Ledger(ops, ttl, true) && s != last.session ==> last.now - Ledger(ops, ttl, true)[s] <= ttl
  {
  }

  /** The plugin's ledger; everSent is the ledger it would have if it never forgot, clock the last time it was used. */
  class SnapshotLedger {
    const ttl: Time
    var sentAt: map<string, Time>
    ghost var everSent: map<string, Time>
    ghost var clock: Time

    ghost predicate Valid()
      reads this
    {
      Refines(sentAt, everSent, clock, ttl)
    }

    constructor (ttl: Time, ghost now: Time)
      ensures Valid() && this.ttl == ttl && sentAt == map[] && everSent == map[] && clock == now
    {
      this.ttl := ttl;
      sentAt := map[];
      everSent := map[];
      clock := now;
    }

    /** Answers as if nothing had ever been forgotten. */
    method Due(session: string, now: Time) returns (due: bool)
      requires Valid() && clock <= now
      ensures due <==> session !in everSent || now - everSent[session] >= ttl
    {
      RefinesAgrees(sentAt, everSent, clock, now, ttl);
      if session !in sentAt { return true; }
      return now - sentAt[session] >= ttl;
    }

    method MarkSent(session: string, now: Time)
      requires Valid() && clock <= now
      modifies this
      ensures Valid() && clock == now
      ensures everSent == old(everSent)[session := now]
      ensures sentAt == PruneAndRemember(old(sentAt), session, now, ttl)
      ensures forall s :: s in sentAt <==> s == session || (s in old(sentAt) && now - old(sentAt)[s] <= ttl)
    {
      hide Refines;
      RefinesAgrees(sentAt, everSent, clock, now, ttl);
      PruneRefines(sentAt, everSent, session, now, ttl);
      var cutoff := now - ttl;
      sentAt := map k | k in sentAt && sentAt[k] >= cutoff :: sentAt[k];
      sentAt := sentAt[session := now];
      everSent := everSent[session := now];
      clock := now;
    }
  }
}
