/** The event contract: what is observed on the board and how an observation is named. */
module Events {
  import opened Basics

  datatype Status = Done | Blocked | Cancelled | Other(name: string)

  /** One row of the ticket board, as the board serves it. */
  datatype Issue = Issue(
    id: string,
    status: Status,
    completedAt: Option<Time>,
    cancelledAt: Option<Time>,
    blockedTransitionAt: Option<Time>,
    updatedAt: Option<Time>,
    createdAt: Option<Time>)

  /** What the bridge remembers of an issue: the last status and its stamp. */
  datatype Seen = Seen(status: Status, terminalTs: Option<Time>, updatedAt: Option<Time>)

  datatype EventType =
    | IssueCompleted | IssueBlocked | IssueCancelled
    | HealthSlow | HealthStalled | HealthLost | HealthRecovered

  /** Event ids. The source digests the named parts; the digest is taken to be injective. */
  datatype EventId =
    | IssueKey(issue: string, status: Status, stamp: Time)
    | HealthKey(run: string, kind: EventType, bucket: int)

  /** occurredAt is absent when the stored text is not a timestamp. */
  datatype Event = Event(
    id: EventId,
    eventType: EventType,
    occurredAt: Option<Time>,
    originChannel: Option<string>)

  /** The stamp that makes a terminal observation unique. */
  function TerminalTs(issue: Issue): Option<Time> {
    match issue.status
    case Done => issue.completedAt
    case Cancelled => issue.cancelledAt
    case Blocked => OrElse(issue.blockedTransitionAt, issue.updatedAt)
    case Other(_) => None
  }

  function TerminalType(status: Status): Option<EventType> {
    match status
    case Done => Some(IssueCompleted)
    case Blocked => Some(IssueBlocked)
    case Cancelled => Some(IssueCancelled)
    case Other(_) => None
  }

  /** The event type of a transition; a first sighting is a silent baseline. */
  function ClassifyIssue(previous: Option<Seen>, issue: Issue): Option<EventType> {
    if previous.None? then None
    else if issue.status == previous.value.status then
      if issue.status.Blocked? && TerminalTs(issue) != previous.value.terminalTs then Some(IssueBlocked) else None
    else TerminalType(issue.status)
  }

  /** Two looks at a ticket end it in the same way exactly when they would be announced as the same kind of event. */
  lemma KindsTellEndingsApart(a: Issue, b: Issue)
    requires TerminalType(a.status).Some?
    ensures TerminalType(a.status) == TerminalType(b.status) <==> a.status == b.status
    ensures a.status.Done? <==> TerminalType(a.status) == Some(IssueCompleted)
    ensures a.status.Cancelled? <==> TerminalType(a.status) == Some(IssueCancelled)
  {
  }

  /** What an event says can be read off its id. */
  predicate WellLabelled(ev: Event) {
    match ev.id
    case IssueKey(_, status, stamp) => TerminalType(status) == Some(ev.eventType) && ev.occurredAt == Some(stamp)
    case HealthKey(_, kind, _) => ev.eventType == kind && ev.occurredAt.Some?
  }
}
