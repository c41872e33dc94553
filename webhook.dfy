/** The webhook endpoint `POST /webhook/{namespace_slug}/{project_id}`: it
    extracts a ticket's title, description, severity, labels and status from
    the payload, resolves the project's pending tickets when the alert is
    resolved, and otherwise creates a ticket and sends its first notification
    (or records that the project is silenced).

    The only registered source parser is "grafana", whose parsing is not part
    of this model: it is the parameter `grafana`, returning None where it
    raises. The stores are parameters; the new ticket's id and token are
    parameters too. */
module Webhook {
  import opened Common
  import opened Dicts
  import opened JsonValues
  import opened Alerts
  import opened Tickets
  import opened Projects
  import opened Groups
  import opened Templates
  import opened Escalation
  import opened Notifications

  /** A source parser: `parse` (None where it raises) and pydantic's `model_dump` of its result. */
  datatype SourceParser = SourceParser(parse: Json -> Option<AlertGroup>, dump: AlertGroup -> Json)

  /** `get_sources().get(name)`: only "grafana" is registered. */
  function ParserFor(name: string, grafana: SourceParser): (r: Option<SourceParser>)
    ensures r.Some? <==> name == "grafana"
  {
    if name == "grafana" then Some(grafana) else None
  }

  /** The dict `_extract_ticket_info` returns; its values are whatever the payload holds. */
  datatype Info = Info(title: Json, description: Json, severity: Json, labels: Json, status: Json, parsedData: Option<Json>)

  function LabelsJson(d: Dict<string>): (j: Json)
    ensures j.JObj? && Keys(j.fields) == Keys(d)
  {
    JObj(seq(|d|, i requires 0 <= i < |d| => (d[i].0, JStr(d[i].1))))
  }

  /** The info taken from a parsed alert group: the first alert's fields, and
      the group's labels overridden by the first alert's. */
  function ParsedInfo(g: AlertGroup, dumped: Json): (r: Info)
    ensures r.parsedData == Some(dumped) && r.status == JStr(AlertStatusValue(g.status))
  {
    if |g.alerts| > 0 then
      var a := g.alerts[0];
      Info(JStr(if a.name != "" then a.name else a.summary), JStr(a.description), JStr(a.severity),
           LabelsJson(Update(g.labels, a.labels)), JStr(AlertStatusValue(g.status)), Some(dumped))
    else Info(JStr(""), JStr(""), JStr(""), LabelsJson(g.labels), JStr(AlertStatusValue(g.status)), Some(dumped))
  }

  /** The fallback: common field names with defaults. It raises unless the payload is an object. */
  function FallbackInfo(payload: Json): (r: Outcome<Info>)
    ensures r.Raised? <==> !payload.JObj?
    ensures r.Value? ==> r.value.parsedData.None?
  {
    match payload
    case JObj(o) =>
      Value(Info(GetOr(o, "title", GetOr(o, "alertname", GetOr(o, "name", JStr("")))),
                 GetOr(o, "message", GetOr(o, "description", JStr(""))),
                 GetOr(o, "severity", GetOr(o, "level", JStr(""))),
                 GetOr(o, "labels", JObj([])),
                 GetOr(o, "status", JStr("firing")),
                 None))
    case _ => Raised
  }

  /** `_extract_ticket_info` */
  function ExtractTicketInfo(sourceName: string, payload: Json, grafana: SourceParser): (r: Outcome<Info>)
    ensures ParserFor(sourceName, grafana).None? ==> r == FallbackInfo(payload)
    ensures sourceName == "grafana" && grafana.parse(payload).None? ==> r == FallbackInfo(payload)
    ensures sourceName == "grafana" && grafana.parse(payload).Some? ==>
      r == Value(ParsedInfo(grafana.parse(payload).value, grafana.dump(grafana.parse(payload).value)))
  {
    match ParserFor(sourceName, grafana)
    case Some(parser) =>
      (match parser.parse(payload)
       case Some(g) => Value(ParsedInfo(g, parser.dump(g)))
       case None => FallbackInfo(payload))
    case None => FallbackInfo(payload)
  }

  /** The fallback title is the first of "title", "alertname" and "name" the payload has, else "". */
  lemma FallbackTitleOrder(o: Dict<Json>)
    ensures var title := FallbackInfo(JObj(o)).value.title;
      (Get(o, "title").Some? ==> title == Get(o, "title").value) &&
      (Get(o, "title").None? && Get(o, "alertname").Some? ==> title == Get(o, "alertname").value) &&
      (Get(o, "title").None? && Get(o, "alertname").None? && Get(o, "name").Some? ==> title == Get(o, "name").value) &&
      (Get(o, "title").None? && Get(o, "alertname").None? && Get(o, "name").None? ==> title == JStr(""))
    ensures FallbackInfo(JObj(o)).value.status == (if Get(o, "status").Some? then Get(o, "status").value else JStr("firing"))
  {
  }

  /** With a parser, a label of the first alert overrides the group's label of the same name. */
  lemma ParsedLabelsOverride(g: AlertGroup, dumped: Json, k: string)
    requires |g.alerts| > 0 && KeysUnique(g.alerts[0].labels)
    ensures var labels := Update(g.labels, g.alerts[0].labels);
      ParsedInfo(g, dumped).labels == LabelsJson(labels) &&
      Get(labels, k) == if k in Keys(g.alerts[0].labels) then Get(g.alerts[0].labels, k) else Get(g.labels, k)
  {
    GetUpdate(g.labels, g.alerts[0].labels, k);
  }

  // ---------------------------------------------------------------------------
  // The endpoint

  datatype WebhookReply =
    | NotFound(detail: string)
    | BadRequest
    /** Ticket validation or payload access raised: the framework answers 500. */
    | ServerError
    | IgnoredReply
    | ResolvedReply(count: nat, source: string)
    | SilencedReply(ticketId: string, source: string)
    | CreatedReply(ticketId: string, source: string, results: Dict<bool>)

  /** The validated fields of a new ticket. */
  datatype NewFields = NewFields(payload: Json, labels: Dict<string>, parsedData: Option<Json>,
                                 title: string, description: string, severity: string)

  /** Pydantic's validation of the new ticket: a dict payload, string texts and string labels. */
  function ValidateFields(payload: Json, info: Info): (r: Option<NewFields>)
    ensures r.Some? ==> r.value.payload == payload && payload.JObj?
    ensures r.Some? ==> info.title == JStr(r.value.title) && info.severity == JStr(r.value.severity)
    ensures r.Some? ==> r.value.parsedData == info.parsedData
  {
    if !payload.JObj? || !info.title.JStr? || !info.description.JStr? || !info.severity.JStr? then None
    else if info.parsedData.Some? && !info.parsedData.value.JObj? then None
    else match AsStringDict(info.labels)
      case None => None
      case Some(labels) => Some(NewFields(payload, labels, info.parsedData, info.title.s, info.description.s, info.severity.s))
  }

  /** What the request leads to, before anything is changed. */
  datatype Plan =
    | Reject(reply: WebhookReply)
    | ResolvePending(project: Project)
    | CreateTicket(project: Project, fields: NewFields)

  /** The guards of `receive_webhook`, in order. `namespaces` maps a slug to its
      namespace's id; `body` is None where the body is not JSON. */
  function PlanWebhook(slug: string, projectId: string, body: Option<Json>, source: string, namespaces: map<string, string>,
                       projects: map<string, Project>, grafana: SourceParser): (r: Plan)
    ensures slug !in namespaces ==> r.Reject? && r.reply.NotFound?
    ensures slug in namespaces && (projectId !in projects || projects[projectId].namespaceId != namespaces[slug])
            ==> r.Reject? && r.reply.NotFound?
    ensures !r.Reject? ==> projectId in projects && r.project == projects[projectId] && r.project.isActive
    ensures r.ResolvePending? || r.CreateTicket? ==> body.Some?
  {
    if slug !in namespaces then Reject(NotFound("Namespace not found: " + slug))
    else if projectId !in projects || projects[projectId].namespaceId != namespaces[slug] then
      Reject(NotFound("Project not found: " + projectId))
    else
      var p := projects[projectId];
      if !p.isActive then Reject(IgnoredReply)
      else if body.None? then Reject(BadRequest)
      else match ExtractTicketInfo(source, body.value, grafana)
        case Raised => Reject(ServerError)
        case Value(info) =>
          if info.status == JStr("resolved") then ResolvePending(p)
          else match ValidateFields(body.value, info)
            case None => Reject(ServerError)
            case Some(f) => CreateTicket(p, f)
  }

  const AutoResolveDetails := "自动解决（收到 resolved 状态）"
  const SilencedDetails := "项目已静默，跳过通知"
  const NoGroupDetails := "无通知组配置"

  /** The resolved branch's effect on one stored ticket: only the project's pending tickets change. */
  function AutoResolve(t: TicketData, projectId: string, now: int): (r: TicketData)
    ensures t.projectId != projectId || t.status != Pending ==> r == t
    ensures t.projectId == projectId && t.status == Pending ==>
      r.status == TicketStatus.Resolved && r.resolvedAt == Some(now) && r.updatedAt == now &&
      r.events == t.events + [TicketEvent(ResolvedEvent, now, None, None, None, AutoResolveDetails)]
  {
    if t.projectId == projectId && t.status == Pending then
      t.(status := TicketStatus.Resolved, resolvedAt := Some(now), updatedAt := now,
         events := t.events + [TicketEvent(ResolvedEvent, now, None, None, None, AutoResolveDetails)])
    else t
  }

  /** The number of the project's pending tickets. */
  function CountPending(ts: seq<TicketData>, projectId: string): (n: nat)
    ensures n <= |ts|
  {
    if ts == [] then 0
    else CountPending(ts[..|ts| - 1], projectId)
         + (if ts[|ts| - 1].projectId == projectId && ts[|ts| - 1].status == Pending then 1 else 0)
  }

  lemma CountPendingSnoc(ts: seq<TicketData>, projectId: string, k: nat)
    requires k < |ts|
    ensures CountPending(ts[..k + 1], projectId)
      == CountPending(ts[..k], projectId) + (if ts[k].projectId == projectId && ts[k].status == Pending then 1 else 0)
  {
    assert ts[..k + 1][..k] == ts[..k];
  }

  /** One pending ticket of the resolved branch. */
  method AutoResolveTicket(t: Ticket, now: int)
    requires t.status == Pending
    modifies t
    ensures t.View() == AutoResolve(old(t.View()), t.projectId, now)
  {
    t.status := TicketStatus.Resolved;
    t.resolvedAt := Some(now);
    t.updatedAt := now;
    t.AddEvent(ResolvedEvent, now, None, None, None, AutoResolveDetails);
  }

  /** The loop of the resolved branch over the project's pending tickets. */
  method ResolvePendingTickets(tickets: seq<Ticket>, projectId: string, now: int) returns (count: nat)
    requires Distinct(tickets)
    modifies set t | t in tickets
    ensures forall i :: 0 <= i < |tickets| ==> tickets[i].View() == AutoResolve(old(tickets[i].View()), projectId, now)
    ensures count == CountPending(old(Views(tickets)), projectId)
  {
    ghost var before := Views(tickets);
    count := 0;
    for k := 0 to |tickets|
      invariant forall i :: 0 <= i < k ==> tickets[i].View() == AutoResolve(before[i], projectId, now)
      invariant forall i :: k <= i < |tickets| ==> tickets[i].View() == before[i]
      invariant count == CountPending(before[..k], projectId)
    {
      CountPendingSnoc(before, projectId, k);
      var t := tickets[k];
      assert t.View() == before[k];
      if t.projectId == projectId && t.status == Pending {
        AutoResolveTicket(t, now);
        count := count + 1;
      }
      assert t.View() == AutoResolve(before[k], projectId, now);
      assert forall i :: 0 <= i < |tickets| && i != k ==> tickets[i] != t;
    }
    assert before[..|tickets|] == before;
  }

  /** The new ticket after its CREATED event. */
  function FreshTicket(p: Project, f: NewFields, source: string, id: string, token: string, now: int): TicketData {
    TicketData(id, p.id, source, f.payload, f.labels, f.parsedData, f.title, f.description, f.severity, token, now,
               Pending, 1, None, None, None, 0, [TicketEvent(CreatedEvent, now, None, None, None, "来源: " + source)],
               now, None)
  }

  /** The name of the project's first group, if it exists. */
  function FirstGroupName(p: Project, groups: map<string, NotificationGroup>): Option<string> {
    match GroupAtLevel(p, groups, 1)
    case Some(g) => Some(g.name)
    case None => None
  }

  function NotifiedDetails(results: Dict<bool>): string {
    if results != [] then "通知结果: " + BoolDictRepr(results) else NoGroupDetails
  }

  /** The new ticket as stored at the end of the request. */
  function CreatedTicket(p: Project, f: NewFields, source: string, id: string, token: string, now: int,
                         groups: map<string, NotificationGroup>, results: Dict<bool>): (t: TicketData)
    ensures t.status == Pending && t.escalationLevel == 1 && t.acknowledgedBy.None? && t.resolvedAt.None?
    ensures |t.events| == 2 && t.events[0].eventType == CreatedEvent
    ensures IsSilenced(p, now) ==>
      t.events[1].eventType == NotifiedSilencedEvent && t.notificationCount == 0 && t.lastNotifiedAt.None?
    ensures !IsSilenced(p, now) ==>
      t.events[1].eventType == NotifiedEvent && t.events[1].level == Some(1)
      && t.events[1].success == Some(AnyTrue(results))
      && t.notificationCount == 1 && t.lastNotifiedAt == Some(now)
  {
    var t0 := FreshTicket(p, f, source, id, token, now);
    if IsSilenced(p, now) then
      t0.(events := t0.events + [TicketEvent(NotifiedSilencedEvent, now, Some(1), None, None, SilencedDetails)])
    else
      t0.(events := t0.events + [TicketEvent(NotifiedEvent, now, Some(1), FirstGroupName(p, groups), Some(AnyTrue(results)),
                                             NotifiedDetails(results))],
          lastNotifiedAt := Some(now), notificationCount := 1)
  }

  /** The notification results of a new, unsilenced ticket. */
  function FirstResults(p: Project, f: NewFields, source: string, id: string, token: string, now: int,
                        projects: map<string, Project>, groups: map<string, NotificationGroup>,
                        templates: seq<NotificationTemplate>, env: Env): Dict<bool>
  {
    NotifyResults(FreshTicket(p, f, source, id, token, now), 1, projects, groups, templates, env)
  }

  /** The creation branch: the ticket is created with its CREATED event, then
      either marked silenced or notified at level 1. */
  method CreateAndNotify(p: Project, f: NewFields, source: string, projects: map<string, Project>,
                         groups: map<string, NotificationGroup>, templates: seq<NotificationTemplate>, env: Env,
                         newId: string, newToken: string, now: int)
    returns (reply: WebhookReply, t: Ticket)
    ensures fresh(t)
    ensures var results := FirstResults(p, f, source, newId, newToken, now, projects, groups, templates, env);
      t.View() == CreatedTicket(p, f, source, newId, newToken, now, groups, results)
      && reply == (if IsSilenced(p, now) then SilencedReply(newId, source) else CreatedReply(newId, source, results))
  {
    t := new Ticket(newId, p.id, source, f.payload, f.labels, f.parsedData, f.title, f.description, f.severity,
                    newToken, now);
    t.AddEvent(CreatedEvent, now, None, None, None, "来源: " + source);
    ghost var t0 := FreshTicket(p, f, source, newId, newToken, now);
    assert t.View() == t0;
    if IsSilenced(p, now) {
      t.AddEvent(NotifiedSilencedEvent, now, Some(1), None, None, SilencedDetails);
      reply := SilencedReply(newId, source);
      assert t.View() == t0.(events := t0.events + [TicketEvent(NotifiedSilencedEvent, now, Some(1), None, None, SilencedDetails)]);
    } else {
      var groupName := FirstGroupName(p, groups);
      var results := NotifyTicket(t, 1, projects, groups, templates, env);
      assert results == FirstResults(p, f, source, newId, newToken, now, projects, groups, templates, env);
      var success := AnyTrue(results);
      t.AddEvent(NotifiedEvent, now, Some(1), groupName, Some(success), NotifiedDetails(results));
      t.lastNotifiedAt := Some(now);
      t.notificationCount := 1;
      reply := CreatedReply(newId, source, results);
    }
  }

  /** `receive_webhook`. A rejected request changes nothing; a resolved alert
      resolves exactly the project's pending tickets; any other alert creates
      one ticket, leaving the stored ones alone. */
  method ReceiveWebhook(slug: string, projectId: string, body: Option<Json>, source: string,
                        namespaces: map<string, string>, projects: map<string, Project>,
                        groups: map<string, NotificationGroup>, templates: seq<NotificationTemplate>,
                        grafana: SourceParser, env: Env, tickets: seq<Ticket>, newId: string, newToken: string, now: int)
    returns (reply: WebhookReply, created: Option<Ticket>)
    requires Distinct(tickets)
    modifies set t | t in tickets
    ensures var plan := PlanWebhook(slug, projectId, body, source, namespaces, projects, grafana);
      plan.Reject? ==>
        reply == plan.reply && created.None?
        && forall i :: 0 <= i < |tickets| ==> tickets[i].View() == old(tickets[i].View())
    ensures var plan := PlanWebhook(slug, projectId, body, source, namespaces, projects, grafana);
      plan.ResolvePending? ==>
        created.None?
        && reply == ResolvedReply(CountPending(old(Views(tickets)), plan.project.id), source)
        && forall i :: 0 <= i < |tickets| ==> tickets[i].View() == AutoResolve(old(tickets[i].View()), plan.project.id, now)
    ensures var plan := PlanWebhook(slug, projectId, body, source, namespaces, projects, grafana);
      plan.CreateTicket? ==>
        created.Some? && fresh(created.value)
        && (forall i :: 0 <= i < |tickets| ==> tickets[i].View() == old(tickets[i].View()))
        && var results := FirstResults(plan.project, plan.fields, source, newId, newToken, now, projects, groups, templates, env);
           created.value.View() == CreatedTicket(plan.project, plan.fields, source, newId, newToken, now, groups, results)
           && reply == (if IsSilenced(plan.project, now) then SilencedReply(newId, source)
                        else CreatedReply(newId, source, results))
  {
    var plan := PlanWebhook(slug, projectId, body, source, namespaces, projects, grafana);
    created := None;
    match plan {
      case Reject(r) =>
        reply := r;
      case ResolvePending(p) =>
        var count := ResolvePendingTickets(tickets, p.id, now);
        reply := ResolvedReply(count, source);
      case CreateTicket(p, f) =>
        var t;
        reply, t := CreateAndNotify(p, f, source, projects, groups, templates, env, newId, newToken, now);
        created := Some(t);
    }
  }
}
