/** The acknowledgement link `GET /ack/{ticket_id}?token=…&format=…` sent in
    every notification: it checks the ticket's token, acknowledges the ticket
    unless it is already acknowledged or resolved, and then notifies the
    groups the ticket has reached. The `format` argument only chooses how the
    answer is shaped. */
module Ack {
  import opened Common
  import opened Dicts
  import opened Tickets
  import opened Projects
  import opened Groups
  import opened Templates
  import opened Notifications

  datatype AckFormat = RedirectFormat | JsonFormat | HtmlFormat

  /** The `format` query parameter: "json" and "html" are recognised, anything else redirects. */
  function ParseFormat(s: string): (f: AckFormat)
    ensures f == JsonFormat <==> s == "json"
    ensures f == HtmlFormat <==> s == "html"
  {
    if s == "json" then JsonFormat else if s == "html" then HtmlFormat else RedirectFormat
  }

  datatype AckOutcome = TicketNotFound | InvalidToken | AlreadyAcknowledged | AlreadyResolved | NewlyAcknowledged

  /** The guards, in order: existence, then the token (compared as plain strings), then the status. */
  function LinkAckOutcome(t: Option<TicketData>, token: string): (r: AckOutcome)
    ensures r == NewlyAcknowledged <==>
      t.Some? && t.value.ackToken == token && (t.value.status == TicketStatus.Ignored || t.value.status == Pending || t.value.status == Escalated)
    ensures r == TicketNotFound <==> t.None?
    ensures r == InvalidToken <==> t.Some? && t.value.ackToken != token
  {
    if t.None? then TicketNotFound
    else if t.value.ackToken != token then InvalidToken
    else if t.value.status == Acknowledged then AlreadyAcknowledged
    else if t.value.status == TicketStatus.Resolved then AlreadyResolved
    else assert t.value.status == TicketStatus.Ignored || t.value.status == Pending || t.value.status == Escalated; NewlyAcknowledged
  }

  const LinkAckDetails := "通过回调链接确认"
  const LinkAckName := "链接确认"

  /** The acknowledged ticket: by "link", at `now`, with one ACKNOWLEDGED event. */
  function LinkAcknowledged(t: TicketData, now: int): (r: TicketData)
    ensures r.status == Acknowledged && r.acknowledgedBy == Some("link") && r.acknowledgedAt == Some(now)
    ensures r.events == t.events + [TicketEvent(AcknowledgedEvent, now, None, None, None, LinkAckDetails)]
    ensures r.escalationLevel == t.escalationLevel && r.notificationCount == t.notificationCount
  {
    t.(status := Acknowledged, acknowledgedAt := Some(now), acknowledgedBy := Some("link"), updatedAt := now,
       events := t.events + [TicketEvent(AcknowledgedEvent, now, None, None, None, LinkAckDetails)])
  }

  /** The pages the HTML and redirect answers show. */
  datatype Page = NotFoundPage | InvalidTokenPage | AlreadyAcknowledgedPage | AlreadyResolvedPage | AcknowledgedPage(ticketId: string, at: int)

  datatype Response =
    | HttpError(code: int, detail: string)
    | HtmlPage(code: int, page: Page)
    | JsonBody(status: string, ticketId: string)
    | Redirect(url: string)

  function StatusCode(r: Response): int {
    match r
    case HttpError(code, _) => code
    case HtmlPage(code, _) => code
    case JsonBody(_, _) => 200
    case Redirect(_) => 302
  }

  /** The answer for an outcome in a format. `pathId` is the id in the URL,
      `storedId` the ticket's own id and `at` the acknowledgement time. */
  function Respond(outcome: AckOutcome, format: AckFormat, pathId: string, storedId: string, at: int): Response {
    match outcome
    case TicketNotFound => if format == JsonFormat then HttpError(404, "Ticket not found") else HtmlPage(404, NotFoundPage)
    case InvalidToken => if format == JsonFormat then HttpError(403, "Invalid token") else HtmlPage(403, InvalidTokenPage)
    case AlreadyAcknowledged =>
      (match format
       case JsonFormat => JsonBody("already_acknowledged", storedId)
       case HtmlFormat => HtmlPage(200, AlreadyAcknowledgedPage)
       case RedirectFormat => Redirect("/tickets/" + pathId))
    case AlreadyResolved =>
      (match format
       case JsonFormat => JsonBody("already_resolved", storedId)
       case HtmlFormat => HtmlPage(200, AlreadyResolvedPage)
       case RedirectFormat => Redirect("/tickets/" + pathId))
    case NewlyAcknowledged =>
      (match format
       case JsonFormat => JsonBody("acknowledged", storedId)
       case HtmlFormat => HtmlPage(200, AcknowledgedPage(pathId, at))
       case RedirectFormat => Redirect("/tickets/" + pathId))
  }

  /** A missing ticket answers 404 and a wrong token 403 whatever the format;
      every other outcome answers 200 or redirects. */
  lemma RespondCodes(outcome: AckOutcome, format: AckFormat, pathId: string, storedId: string, at: int)
    ensures outcome == TicketNotFound ==> StatusCode(Respond(outcome, format, pathId, storedId, at)) == 404
    ensures outcome == InvalidToken ==> StatusCode(Respond(outcome, format, pathId, storedId, at)) == 403
    ensures outcome != TicketNotFound && outcome != InvalidToken ==>
      StatusCode(Respond(outcome, format, pathId, storedId, at)) in {200, 302}
  {
  }

  /** `acknowledge_ticket_via_link`. The ticket changes only on a fresh
      acknowledgement, and then in the same way for every format; the
      acknowledgement notification cannot undo it. */
  method AcknowledgeViaLink(ticket: Option<Ticket>, pathId: string, token: string, format: string,
                            projects: map<string, Project>, groups: map<string, NotificationGroup>,
                            templates: seq<NotificationTemplate>, env: Env, now: int)
    returns (response: Response)
    modifies if ticket.Some? then {ticket.value} else {}
    ensures ticket.Some? ==>
      ticket.value.View() == (if LinkAckOutcome(Some(old(ticket.value.View())), token) == NewlyAcknowledged
                              then LinkAcknowledged(old(ticket.value.View()), now) else old(ticket.value.View()))
    ensures response == Respond(LinkAckOutcome(if ticket.Some? then Some(old(ticket.value.View())) else None, token),
                                ParseFormat(format), pathId, if ticket.Some? then ticket.value.id else "", now)
  {
    var fmt := ParseFormat(format);
    if ticket.None? {
      return Respond(TicketNotFound, fmt, pathId, "", now);
    }
    var t := ticket.value;
    if t.ackToken != token {
      return Respond(InvalidToken, fmt, pathId, t.id, now);
    }
    if t.status == Acknowledged {
      return Respond(AlreadyAcknowledged, fmt, pathId, t.id, now);
    }
    if t.status == TicketStatus.Resolved {
      return Respond(AlreadyResolved, fmt, pathId, t.id, now);
    }
    t.status := Acknowledged;
    t.acknowledgedAt := Some(now);
    t.acknowledgedBy := Some("link");
    t.updatedAt := now;
    t.AddEvent(AcknowledgedEvent, now, None, None, None, LinkAckDetails);
    var _ := NotifyTicketAcknowledged(t, LinkAckName, projects, groups, templates, env);
    response := Respond(NewlyAcknowledged, fmt, pathId, t.id, now);
  }
}
