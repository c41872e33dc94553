/** A ticket: one per incoming (non-resolved) webhook call, tracking the
    original payload, its acknowledgement, its escalation level, how often it
    was notified, and a timeline of events that is only ever appended to.
    Times are whole seconds. */
module Tickets {
  import opened Common
  import opened Dicts
  import opened JsonValues

  datatype TicketStatus = Ignored | Pending | Acknowledged | Escalated | Resolved

  function StatusValue(s: TicketStatus): string {
    match s
    case Ignored => "ignored"
    case Pending => "pending"
    case Acknowledged => "acknowledged"
    case Escalated => "escalated"
    case Resolved => "resolved"
  }

  /** `TicketStatus(s)`: the status whose value is `s`, or None where Python raises ValueError. */
  function ParseStatus(s: string): (r: Option<TicketStatus>)
    ensures r.Some? ==> StatusValue(r.value) == s
    ensures forall st :: s == StatusValue(st) ==> r == Some(st)
  {
    if s == "ignored" then Some(Ignored)
    else if s == "pending" then Some(Pending)
    else if s == "acknowledged" then Some(Acknowledged)
    else if s == "escalated" then Some(Escalated)
    else if s == "resolved" then Some(Resolved)
    else None
  }

  datatype EventType =
    | CreatedEvent | NotifiedEvent | NotifiedSilencedEvent | RepeatedEvent
    | EscalatedEvent | MaxLevelReachedEvent | AcknowledgedEvent | ResolvedEvent

  function EventTypeValue(t: EventType): string {
    match t
    case CreatedEvent => "created"
    case NotifiedEvent => "notified"
    case NotifiedSilencedEvent => "notified_silenced"
    case RepeatedEvent => "repeated"
    case EscalatedEvent => "escalated"
    case MaxLevelReachedEvent => "max_level_reached"
    case AcknowledgedEvent => "acknowledged"
    case ResolvedEvent => "resolved"
  }

  /** `EventType(s)`: the event type whose value is `s`, if any. */
  function ParseEventType(s: string): (r: Option<EventType>)
    ensures r.Some? ==> EventTypeValue(r.value) == s
    ensures forall t :: s == EventTypeValue(t) ==> r == Some(t)
  {
    if s == "created" then Some(CreatedEvent)
    else if s == "notified" then Some(NotifiedEvent)
    else if s == "notified_silenced" then Some(NotifiedSilencedEvent)
    else if s == "repeated" then Some(RepeatedEvent)
    else if s == "escalated" then Some(EscalatedEvent)
    else if s == "max_level_reached" then Some(MaxLevelReachedEvent)
    else if s == "acknowledged" then Some(AcknowledgedEvent)
    else if s == "resolved" then Some(ResolvedEvent)
    else None
  }

  datatype TicketEvent = TicketEvent(
    eventType: EventType,
    timestamp: int,
    level: Option<int>,
    groupName: Option<string>,
    success: Option<bool>,
    details: string)

  /** A snapshot of every field of a ticket. */
  datatype TicketData = TicketData(
    id: string,
    projectId: string,
    source: string,
    payload: Json,
    labels: Dict<string>,
    parsedData: Option<Json>,
    title: string,
    description: string,
    severity: string,
    ackToken: string,
    createdAt: int,
    status: TicketStatus,
    escalationLevel: int,
    acknowledgedAt: Option<int>,
    acknowledgedBy: Option<string>,
    lastNotifiedAt: Option<int>,
    notificationCount: int,
    events: seq<TicketEvent>,
    updatedAt: int,
    resolvedAt: Option<int>)

  /** `can_escalate`: only pending or escalated tickets whose severity is
      "critical", in any letter case, take part in escalation. */
  predicate CanEscalate(status: TicketStatus, severity: string) {
    if status != Pending && status != Escalated then false
    else if severity != "" then Lower(severity) == "critical"
    else false
  }

  /** The severity test ignores letter case, and an empty severity never escalates. */
  lemma CanEscalateIgnoresCase(status: TicketStatus, severity: string)
    ensures CanEscalate(status, severity) == CanEscalate(status, Lower(severity))
    ensures CanEscalate(status, "critical") <==> status == Pending || status == Escalated
    ensures !CanEscalate(status, "")
  {
    LowerIdempotent(severity);
    LowerOfLowerCase("critical");
  }

  /** Whether the log holds an event of type `t`. */
  predicate HasEvent(events: seq<TicketEvent>, t: EventType) {
    exists i :: 0 <= i < |events| && events[i].eventType == t
  }

  /** The number of events of type `t` in the log. */
  function CountEvents(events: seq<TicketEvent>, t: EventType): (n: nat)
    ensures n <= |events|
  {
    if events == [] then 0
    else CountEvents(events[..|events| - 1], t) + (if events[|events| - 1].eventType == t then 1 else 0)
  }

  lemma {:induction false} CountEventsPositive(events: seq<TicketEvent>, t: EventType)
    ensures CountEvents(events, t) > 0 <==> HasEvent(events, t)
  {
    if events != [] {
      var init := events[..|events| - 1];
      CountEventsPositive(init, t);
      if HasEvent(init, t) {
        var i :| 0 <= i < |init| && init[i].eventType == t;
        assert events[i].eventType == t;
      }
      if HasEvent(events, t) && events[|events| - 1].eventType != t {
        var i :| 0 <= i < |events| && events[i].eventType == t;
        assert init[i].eventType == t;
      }
    }
  }

  class Ticket {
    const id: string
    const projectId: string
    const source: string
    const payload: Json
    const labels: Dict<string>
    const parsedData: Option<Json>
    const title: string
    const description: string
    const severity: string
    /** Opaque random token; generating it is outside the model. */
    const ackToken: string
    const createdAt: int

    var status: TicketStatus
    var escalationLevel: int
    var acknowledgedAt: Option<int>
    var acknowledgedBy: Option<string>
    var lastNotifiedAt: Option<int>
    var notificationCount: int
    var events: seq<TicketEvent>
    var updatedAt: int
    var resolvedAt: Option<int>

    /** A new ticket with the model's defaults, created at `now`. */
    constructor (id: string, projectId: string, source: string, payload: Json, labels: Dict<string>,
                 parsedData: Option<Json>, title: string, description: string, severity: string,
                 ackToken: string, now: int)
      ensures View() == TicketData(id, projectId, source, payload, labels, parsedData, title, description,
                                   severity, ackToken, now, Pending, 1, None, None, None, 0, [], now, None)
    {
      this.id := id;
      this.projectId := projectId;
      this.source := source;
      this.payload := payload;
      this.labels := labels;
      this.parsedData := parsedData;
      this.title := title;
      this.description := description;
      this.severity := severity;
      this.ackToken := ackToken;
      this.createdAt := now;
      status := Pending;
      escalationLevel := 1;
      acknowledgedAt := None;
      acknowledgedBy := None;
      lastNotifiedAt := None;
      notificationCount := 0;
      events := [];
      updatedAt := now;
      resolvedAt := None;
    }

    function View(): TicketData
      reads this
    {
      TicketData(id, projectId, source, payload, labels, parsedData, title, description, severity, ackToken,
                 createdAt, status, escalationLevel, acknowledgedAt, acknowledgedBy, lastNotifiedAt,
                 notificationCount, events, updatedAt, resolvedAt)
    }

    predicate IsPending() reads this { status == Pending }
    predicate IsAcknowledged() reads this { status == Acknowledged }
    predicate IsResolved() reads this { status == Resolved }
    predicate IsIgnored() reads this { status == Ignored }

    predicate CanEscalateNow() reads this { CanEscalate(status, severity) }

    /** `add_event`: appends one event stamped `now`; nothing else changes. */
    method AddEvent(eventType: EventType, now: int, level: Option<int>, groupName: Option<string>,
                    success: Option<bool>, details: string)
      modifies this`events
      ensures events == old(events) + [TicketEvent(eventType, now, level, groupName, success, details)]
    {
      events := events + [TicketEvent(eventType, now, level, groupName, success, details)];
    }
  }

  /** Snapshots of a sequence of tickets, in order. */
  function Views(tickets: seq<Ticket>): (r: seq<TicketData>)
    reads set t | t in tickets
    ensures |r| == |tickets|
    ensures forall i :: 0 <= i < |tickets| ==> r[i] == tickets[i].View()
  {
    if tickets == [] then [] else Views(tickets[..|tickets| - 1]) + [tickets[|tickets| - 1].View()]
  }

  /** At most one of the four status tests holds, each only for its own status. */
  lemma StatusTestsExclusive(t: Ticket)
    ensures t.IsPending() ==> !t.IsAcknowledged() && !t.IsResolved() && !t.IsIgnored()
    ensures t.IsAcknowledged() ==> !t.IsResolved() && !t.IsIgnored()
    ensures t.IsResolved() ==> !t.IsIgnored()
    ensures t.status == Escalated ==> !t.IsPending() && !t.IsAcknowledged() && !t.IsResolved() && !t.IsIgnored()
  {
  }

  /** The log after appending one event: counts move only for that event's type. */
  lemma CountEventsAppend(events: seq<TicketEvent>, e: TicketEvent, t: EventType)
    ensures CountEvents(events + [e], t) == CountEvents(events, t) + (if e.eventType == t then 1 else 0)
  {
    assert (events + [e])[..|events|] == events;
  }
}
