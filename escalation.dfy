/** The escalation engine run on every scheduler tick. For each
    escalation-enabled, active, non-silenced project it examines the pending
    and escalated tickets and, per ticket, either repeats the notification to
    the current group, escalates to the next group, records once that the last
    group was reached, or does nothing.

    `Decide` and `Tick` state one ticket's step as values; `ProcessTicket`,
    `RepeatNotification` and `EscalateTicket` perform it in place on a
    `Ticket` and are proved to agree with `Tick`. Sending to a group is an
    oracle `send` that reports a success flag per channel key. */
module Escalation {
  import opened Common
  import opened Dicts
  import opened Tickets
  import opened Projects
  import opened Groups

  /** The flags `send_to_group` is called with. */
  datatype SendFlags = SendFlags(isEscalated: bool, isRepeated: bool)

  /** The outcome of `send_to_group` for a ticket as it is at the time of sending. */
  type Notifier = (TicketData, NotificationGroup, Project, SendFlags) -> Dict<bool>

  /** Seconds since the last notification, or since creation if there was none. */
  function Elapsed(t: TicketData, now: int): int {
    match t.lastNotifiedAt
    case Some(at) => now - at
    case None => now - t.createdAt
  }

  /** The group at a 1-based level of the project's escalation path, if it exists. */
  function GroupAtLevel(p: Project, groups: map<string, NotificationGroup>, level: int): (r: Option<NotificationGroup>)
    requires level >= 1
    ensures r.Some? <==> level - 1 < |p.groupIds| && p.groupIds[level - 1] in groups
    ensures r.Some? ==> r.value == groups[p.groupIds[level - 1]]
  {
    if level - 1 >= |p.groupIds| then None
    else if p.groupIds[level - 1] !in groups then None
    else Some(groups[p.groupIds[level - 1]])
  }

  /** Whether a group's repeat interval (minutes) has passed. */
  predicate RepeatDue(g: NotificationGroup, elapsed: int)
    requires g.Repeats()
  {
    elapsed >= g.repeatInterval.value * 60
  }

  datatype Decision =
    | NoAction
    | Repeat(group: NotificationGroup)
    | MarkMaxLevel(group: NotificationGroup)
    | Escalate(nextLevel: int, group: NotificationGroup)

  /** `_process_ticket`'s choice for one ticket; `timeout` is in seconds. */
  function Decide(t: TicketData, p: Project, groups: map<string, NotificationGroup>, timeout: int,
                  maxLevel: int, now: int): Decision
    requires t.escalationLevel >= 1
  {
    if !CanEscalate(t.status, t.severity) then NoAction
    else match GroupAtLevel(p, groups, t.escalationLevel)
      case None => NoAction
      case Some(g) =>
        var elapsed := Elapsed(t, now);
        if g.Repeats() && elapsed < timeout && RepeatDue(g, elapsed) then Repeat(g)
        else if elapsed < timeout then NoAction
        else if t.escalationLevel >= maxLevel then
          if g.Repeats() then (if RepeatDue(g, elapsed) then Repeat(g) else NoAction)
          else if HasEvent(t.events, MaxLevelReachedEvent) then NoAction
          else MarkMaxLevel(g)
        else match GroupAtLevel(p, groups, t.escalationLevel + 1)
          case None => NoAction
          case Some(next) => Escalate(t.escalationLevel + 1, next)
  }

  /** The `details` of a notification event: the prefix and the results, or a
      fixed text when no channel reported. */
  function ResultsDetails(prefix: string, results: Dict<bool>, whenEmpty: string): string {
    if results != [] then prefix + BoolDictRepr(results) else whenEmpty
  }

  const RepeatFlags := SendFlags(false, true)
  const EscalateFlags := SendFlags(true, false)
  const MaxLevelDetails := "已到达最高级别，无更多通知组"

  /** The ticket after `_repeat_notification` with the given send results. */
  function Repeated(t: TicketData, g: NotificationGroup, results: Dict<bool>, now: int): TicketData {
    t.(events := t.events + [TicketEvent(RepeatedEvent, now, Some(t.escalationLevel), Some(g.name), Some(AnyTrue(results)),
                                         ResultsDetails("重复通知结果: ", results, "无渠道配置"))],
       lastNotifiedAt := Some(now),
       notificationCount := t.notificationCount + 1,
       updatedAt := now)
  }

  /** The ticket after `_escalate_ticket`, before and after sending. */
  function EscalatedBeforeSend(t: TicketData, newLevel: int, now: int): TicketData {
    t.(status := Escalated, escalationLevel := newLevel, updatedAt := now)
  }

  function EscalatedAfterSend(t: TicketData, newLevel: int, g: NotificationGroup, results: Dict<bool>, now: int): TicketData {
    var t1 := EscalatedBeforeSend(t, newLevel, now);
    t1.(events := t1.events + [TicketEvent(EscalatedEvent, now, Some(newLevel), Some(g.name), Some(AnyTrue(results)),
                                           ResultsDetails("升级通知结果: ", results, "无渠道配置"))],
        lastNotifiedAt := Some(now),
        notificationCount := t.notificationCount + 1)
  }

  /** One ticket's step on a tick. */
  function Tick(t: TicketData, p: Project, groups: map<string, NotificationGroup>, timeout: int,
                maxLevel: int, now: int, send: Notifier): (r: TicketData)
    requires t.escalationLevel >= 1
    ensures t.events <= r.events && |r.events| <= |t.events| + 1
    ensures r.escalationLevel == t.escalationLevel || r.escalationLevel == t.escalationLevel + 1
    ensures r.notificationCount == t.notificationCount || r.notificationCount == t.notificationCount + 1
    ensures r.status == t.status || r.status == Escalated
    ensures r.(status := t.status, escalationLevel := t.escalationLevel, lastNotifiedAt := t.lastNotifiedAt,
               notificationCount := t.notificationCount, events := t.events, updatedAt := t.updatedAt) == t
  {
    match Decide(t, p, groups, timeout, maxLevel, now)
    case NoAction => t
    case Repeat(g) => Repeated(t, g, send(t, g, p, RepeatFlags), now)
    case MarkMaxLevel(g) =>
      t.(events := t.events + [TicketEvent(MaxLevelReachedEvent, now, Some(t.escalationLevel), Some(g.name), None, MaxLevelDetails)],
         updatedAt := now)
    case Escalate(next, g) =>
      EscalatedAfterSend(t, next, g, send(EscalatedBeforeSend(t, next, now), g, p, EscalateFlags), now)
  }

  // ---------------------------------------------------------------------------
  // Properties of one step

  /** A ticket that cannot escalate (not critical, or neither pending nor
      escalated) is left exactly as it was: not even a repeat is sent. */
  lemma TickNeedsCritical(t: TicketData, p: Project, groups: map<string, NotificationGroup>, timeout: int,
                          maxLevel: int, now: int, send: Notifier)
    requires t.escalationLevel >= 1
    requires !CanEscalate(t.status, t.severity)
    ensures Tick(t, p, groups, timeout, maxLevel, now, send) == t
  {
  }

  /** Before the timeout, the only possible change is a repeat, and it happens
      exactly when the current group has a repeat interval that has passed. */
  lemma TickBeforeTimeout(t: TicketData, p: Project, groups: map<string, NotificationGroup>, timeout: int,
                          maxLevel: int, now: int, send: Notifier)
    requires t.escalationLevel >= 1 && CanEscalate(t.status, t.severity)
    requires GroupAtLevel(p, groups, t.escalationLevel).Some?
    requires Elapsed(t, now) < timeout
    ensures var g := GroupAtLevel(p, groups, t.escalationLevel).value;
      var r := Tick(t, p, groups, timeout, maxLevel, now, send);
      if g.Repeats() && RepeatDue(g, Elapsed(t, now))
      then r == Repeated(t, g, send(t, g, p, RepeatFlags), now)
      else r == t
  {
  }

  /** A repeat keeps status and level, counts one more notification, stamps
      `last_notified_at` and appends exactly one REPEATED event at the current level. */
  lemma RepeatedBookkeeping(t: TicketData, g: NotificationGroup, results: Dict<bool>, now: int)
    ensures var r := Repeated(t, g, results, now);
      r.status == t.status && r.escalationLevel == t.escalationLevel
      && r.notificationCount == t.notificationCount + 1 && r.lastNotifiedAt == Some(now)
      && |r.events| == |t.events| + 1 && r.events[..|t.events|] == t.events
      && r.events[|t.events|].eventType == RepeatedEvent
      && r.events[|t.events|].level == Some(t.escalationLevel)
      && (r.events[|t.events|].success == Some(true) <==> CountTrue(results) > 0)
  {
  }

  /** After the timeout, below the last level and with the next group present,
      the ticket escalates: status ESCALATED, level + 1, one more notification,
      `last_notified_at` stamped, exactly one ESCALATED event carrying the new level. */
  lemma TickEscalates(t: TicketData, p: Project, groups: map<string, NotificationGroup>, timeout: int,
                      now: int, send: Notifier)
    requires t.escalationLevel >= 1 && CanEscalate(t.status, t.severity)
    requires GroupAtLevel(p, groups, t.escalationLevel).Some?
    requires GroupAtLevel(p, groups, t.escalationLevel + 1).Some?
    requires Elapsed(t, now) >= timeout
    ensures var r := Tick(t, p, groups, timeout, |p.groupIds|, now, send);
      r.status == Escalated && r.escalationLevel == t.escalationLevel + 1
      && r.notificationCount == t.notificationCount + 1 && r.lastNotifiedAt == Some(now)
      && |r.events| == |t.events| + 1 && r.events[..|t.events|] == t.events
      && r.events[|t.events|].eventType == EscalatedEvent
      && r.events[|t.events|].level == Some(t.escalationLevel + 1)
  {
  }

  /** A tick adds a MAX_LEVEL_REACHED event only to a log that has none. */
  lemma TickMaxLevelOnce(t: TicketData, p: Project, groups: map<string, NotificationGroup>, timeout: int,
                         maxLevel: int, now: int, send: Notifier)
    requires t.escalationLevel >= 1
    ensures var r := Tick(t, p, groups, timeout, maxLevel, now, send);
      CountEvents(r.events, MaxLevelReachedEvent) <= CountEvents(t.events, MaxLevelReachedEvent)
      || (CountEvents(t.events, MaxLevelReachedEvent) == 0 && CountEvents(r.events, MaxLevelReachedEvent) == 1)
  {
    var r := Tick(t, p, groups, timeout, maxLevel, now, send);
    if r.events != t.events {
      var e := r.events[|t.events|];
      assert r.events == t.events + [e];
      CountEventsAppend(t.events, e, MaxLevelReachedEvent);
      if e.eventType == MaxLevelReachedEvent {
        assert Decide(t, p, groups, timeout, maxLevel, now).MarkMaxLevel?;
        CountEventsPositive(t.events, MaxLevelReachedEvent);
      }
    }
  }

  /** Ticks run one after another at the given times. */
  function RunTicks(t: TicketData, p: Project, groups: map<string, NotificationGroup>, timeout: int,
                    maxLevel: int, nows: seq<int>, send: Notifier): (r: TicketData)
    requires t.escalationLevel >= 1
    ensures r.escalationLevel >= t.escalationLevel
    decreases |nows|
  {
    if nows == [] then t
    else RunTicks(Tick(t, p, groups, timeout, maxLevel, nows[0], send), p, groups, timeout, maxLevel, nows[1..], send)
  }

  /** However many ticks run, the log holds at most one MAX_LEVEL_REACHED event. */
  lemma {:induction false} RunTicksMaxLevelOnce(t: TicketData, p: Project, groups: map<string, NotificationGroup>,
                                                timeout: int, maxLevel: int, nows: seq<int>, send: Notifier)
    requires t.escalationLevel >= 1
    requires CountEvents(t.events, MaxLevelReachedEvent) <= 1
    ensures CountEvents(RunTicks(t, p, groups, timeout, maxLevel, nows, send).events, MaxLevelReachedEvent) <= 1
    decreases |nows|
  {
    if nows != [] {
      TickMaxLevelOnce(t, p, groups, timeout, maxLevel, nows[0], send);
      RunTicksMaxLevelOnce(Tick(t, p, groups, timeout, maxLevel, nows[0], send), p, groups, timeout, maxLevel, nows[1..], send);
    }
  }

  // ---------------------------------------------------------------------------
  // The in-place operations

  /** `_repeat_notification` */
  method RepeatNotification(ticket: Ticket, g: NotificationGroup, p: Project, now: int, send: Notifier)
    modifies ticket
    ensures ticket.View() == Repeated(old(ticket.View()), g, send(old(ticket.View()), g, p, RepeatFlags), now)
  {
    var results := send(ticket.View(), g, p, RepeatFlags);
    var success := AnyTrue(results);
    ticket.AddEvent(RepeatedEvent, now, Some(ticket.escalationLevel), Some(g.name), Some(success),
                    ResultsDetails("重复通知结果: ", results, "无渠道配置"));
    ticket.lastNotifiedAt := Some(now);
    ticket.notificationCount := ticket.notificationCount + 1;
    ticket.updatedAt := now;
  }

  /** `_escalate_ticket`: status and level change before sending, so the message shows the new level. */
  method EscalateTicket(ticket: Ticket, newLevel: int, g: NotificationGroup, p: Project, now: int, send: Notifier)
    modifies ticket
    ensures ticket.View() == EscalatedAfterSend(old(ticket.View()), newLevel, g,
                                                send(EscalatedBeforeSend(old(ticket.View()), newLevel, now), g, p, EscalateFlags), now)
  {
    ticket.status := Escalated;
    ticket.escalationLevel := newLevel;
    ticket.updatedAt := now;
    var results := send(ticket.View(), g, p, EscalateFlags);
    var success := AnyTrue(results);
    ticket.AddEvent(EscalatedEvent, now, Some(newLevel), Some(g.name), Some(success),
                    ResultsDetails("升级通知结果: ", results, "无渠道配置"));
    ticket.lastNotifiedAt := Some(now);
    ticket.notificationCount := ticket.notificationCount + 1;
  }

  /** `_process_ticket` */
  method ProcessTicket(ticket: Ticket, p: Project, groups: map<string, NotificationGroup>, timeout: int,
                       maxLevel: int, now: int, send: Notifier)
    requires ticket.escalationLevel >= 1
    modifies ticket
    ensures ticket.View() == Tick(old(ticket.View()), p, groups, timeout, maxLevel, now, send)
  {
    if !ticket.CanEscalateNow() {
      return;
    }
    var currentIndex := ticket.escalationLevel - 1;
    if currentIndex >= |p.groupIds| {
      return;
    }
    if p.groupIds[currentIndex] !in groups {
      return;
    }
    var current := groups[p.groupIds[currentIndex]];
    var elapsed := match ticket.lastNotifiedAt case Some(at) => now - at case None => now - ticket.createdAt;
    if current.Repeats() && elapsed < timeout {
      if elapsed >= current.repeatInterval.value * 60 {
        RepeatNotification(ticket, current, p, now, send);
        return;
      }
    }
    if elapsed < timeout {
      return;
    }
    if ticket.escalationLevel >= maxLevel {
      if current.Repeats() {
        if elapsed >= current.repeatInterval.value * 60 {
          RepeatNotification(ticket, current, p, now, send);
        }
      } else {
        var hasMaxEvent := exists i :: 0 <= i < |ticket.events| && ticket.events[i].eventType == MaxLevelReachedEvent;
        if !hasMaxEvent {
          ticket.AddEvent(MaxLevelReachedEvent, now, Some(ticket.escalationLevel), Some(current.name), None, MaxLevelDetails);
          ticket.updatedAt := now;
        }
      }
      return;
    }
    var nextLevel := ticket.escalationLevel + 1;
    var nextIndex := nextLevel - 1;
    if nextIndex >= |p.groupIds| {
      return;
    }
    if p.groupIds[nextIndex] !in groups {
      return;
    }
    EscalateTicket(ticket, nextLevel, groups[p.groupIds[nextIndex]], p, now, send);
  }

  // ---------------------------------------------------------------------------
  // A whole tick over the ticket store

  /** Tickets the per-project query returns: the project's pending or escalated ones. */
  predicate Examined(t: TicketData, p: Project) {
    t.projectId == p.id && (t.status == Pending || t.status == Escalated)
  }

  /** What `_check_project_tickets` does to one ticket of the store. */
  function ProjectStep(t: TicketData, p: Project, groups: map<string, NotificationGroup>, now: int, send: Notifier): TicketData
    requires t.escalationLevel >= 1
  {
    if Examined(t, p) then Tick(t, p, groups, p.escalation.timeoutMinutes * 60, |p.groupIds|, now, send) else t
  }

  /** Levels start at 1 and only grow, so every stored ticket has a level of at least 1. */
  predicate LevelsValid(tickets: seq<Ticket>)
    reads set t | t in tickets
  {
    forall i :: 0 <= i < |tickets| ==> tickets[i].escalationLevel >= 1
  }

  predicate Distinct(tickets: seq<Ticket>) {
    forall i, j :: 0 <= i < j < |tickets| ==> tickets[i] != tickets[j]
  }

  /** `_check_project_tickets`: tickets of other projects, and tickets neither
      pending nor escalated, are untouched; the others take one step. */
  method CheckProjectTickets(p: Project, tickets: seq<Ticket>, groups: map<string, NotificationGroup>, now: int, send: Notifier)
    requires Distinct(tickets) && LevelsValid(tickets)
    modifies set t | t in tickets
    ensures LevelsValid(tickets)
    ensures forall i :: 0 <= i < |tickets| ==>
      tickets[i].View() == ProjectStep(old(tickets[i].View()), p, groups, now, send)
  {
    var timeout := p.escalation.timeoutMinutes * 60;
    var maxLevel := |p.groupIds|;
    for k := 0 to |tickets|
      invariant LevelsValid(tickets)
      invariant forall i :: 0 <= i < k ==> tickets[i].View() == ProjectStep(old(tickets[i].View()), p, groups, now, send)
      invariant forall i :: k <= i < |tickets| ==> tickets[i].View() == old(tickets[i].View())
    {
      var t := tickets[k];
      assert t.View() == old(t.View());
      if t.projectId == p.id && (t.status == Pending || t.status == Escalated) {
        ProcessTicket(t, p, groups, timeout, maxLevel, now, send);
      }
      assert t.View() == ProjectStep(old(t.View()), p, groups, now, send);
      assert forall i :: 0 <= i < |tickets| && i != k ==> tickets[i] != t;
    }
  }

  /** The query of `check_and_escalate_tickets` plus its silence check. */
  predicate TickedProject(p: Project, now: int) {
    p.escalation.enabled && p.isActive && !IsSilenced(p, now)
  }

  /** The first project in `projects` with this id that a tick processes. */
  function TickedProjectFor(projects: seq<Project>, id: string, now: int): (r: Option<Project>)
    ensures r.Some? ==> r.value in projects && r.value.id == id && TickedProject(r.value, now)
    ensures r.None? ==> forall q :: q in projects && q.id == id ==> !TickedProject(q, now)
  {
    if projects == [] then None
    else
      var last := projects[|projects| - 1];
      var init := projects[..|projects| - 1];
      assert projects == init + [last];
      match TickedProjectFor(init, id, now)
      case Some(q) => Some(q)
      case None => if last.id == id && TickedProject(last, now) then Some(last) else None
  }

  predicate DistinctIds(projects: seq<Project>) {
    forall i, j :: 0 <= i < j < |projects| ==> projects[i].id != projects[j].id
  }

  /** The effect of a whole tick on one stored ticket. */
  function TickStep(t: TicketData, projects: seq<Project>, groups: map<string, NotificationGroup>, now: int, send: Notifier)
    : (r: TicketData)
    requires t.escalationLevel >= 1
    ensures r.projectId == t.projectId && r.escalationLevel >= 1
  {
    match TickedProjectFor(projects, t.projectId, now)
    case None => t
    case Some(p) => ProjectStep(t, p, groups, now, send)
  }

  /** `check_and_escalate_tickets`: one tick over every project. A ticket whose
      project is disabled, inactive, silenced or absent is untouched. */
  method CheckAndEscalate(projects: seq<Project>, tickets: seq<Ticket>, groups: map<string, NotificationGroup>, now: int, send: Notifier)
    requires DistinctIds(projects)
    requires Distinct(tickets) && LevelsValid(tickets)
    modifies set t | t in tickets
    ensures LevelsValid(tickets)
    ensures forall i :: 0 <= i < |tickets| ==>
      tickets[i].View() == TickStep(old(tickets[i].View()), projects, groups, now, send)
  {
    for j := 0 to |projects|
      invariant LevelsValid(tickets)
      invariant forall i :: 0 <= i < |tickets| ==>
        tickets[i].View() == TickStep(old(tickets[i].View()), projects[..j], groups, now, send)
    {
      var p := projects[j];
      forall i | 0 <= i < |tickets|
        ensures TickStep(old(tickets[i].View()), projects[..j + 1], groups, now, send)
          == if TickedProject(p, now)
             then ProjectStep(TickStep(old(tickets[i].View()), projects[..j], groups, now, send), p, groups, now, send)
             else TickStep(old(tickets[i].View()), projects[..j], groups, now, send)
      {
        TickStepSnoc(old(tickets[i].View()), projects, j, groups, now, send);
      }
      if p.escalation.enabled && p.isActive {
        if !IsSilenced(p, now) {
          CheckProjectTickets(p, tickets, groups, now, send);
        }
      }
    }
    assert projects[..|projects|] == projects;
  }

  /** Adding project j to the projects already visited changes a ticket only
      when that project is ticked, and then by one `ProjectStep`. */
  lemma TickStepSnoc(t: TicketData, projects: seq<Project>, j: nat, groups: map<string, NotificationGroup>, now: int,
                     send: Notifier)
    requires DistinctIds(projects) && j < |projects| && t.escalationLevel >= 1
    ensures var p := projects[j];
      TickStep(t, projects[..j + 1], groups, now, send)
        == if TickedProject(p, now) then ProjectStep(TickStep(t, projects[..j], groups, now, send), p, groups, now, send)
           else TickStep(t, projects[..j], groups, now, send)
  {
    var p := projects[j];
    var init := projects[..j];
    var visited := projects[..j + 1];
    assert visited[..j] == init && visited[j] == p;
    match TickedProjectFor(init, t.projectId, now)
    case Some(q) =>
      var i :| 0 <= i < j && init[i] == q;
      assert projects[i] == q;
    case None =>
  }
}
