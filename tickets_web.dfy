/** The ticket pages of the web UI: the filtered, paginated listing, the
    acknowledger lookup of the detail page, and the acknowledge and resolve
    buttons. */
module TicketsWeb {
  import opened Common
  import opened Dicts
  import opened Tickets
  import opened Projects
  import opened Groups
  import opened Templates
  import opened Notifications
  import Ack

  // ---------------------------------------------------------------- listing

  /** The `page` and `per_page` query bounds: page >= 1, 1 <= per_page <= 100. */
  predicate ValidPaging(page: int, perPage: int) {
    page >= 1 && 1 <= perPage <= 100
  }

  /** `skip = (page - 1) * per_page`: the number of tickets before the page. */
  function Skip(page: int, perPage: int): (r: nat)
    requires ValidPaging(page, perPage)
    ensures r % perPage == 0 && r / perPage == page - 1
  {
    MulDivExact(page - 1, perPage);
    (page - 1) * perPage
  }

  lemma MulDivExact(k: nat, m: int)
    requires m >= 1
    ensures (k * m) % m == 0 && (k * m) / m == k
  {
    var q := (k * m) / m;
    var rem := (k * m) % m;
    assert k * m == q * m + rem;
    assert (k - q) * m == rem;
    if k - q >= 1 {
      MulMonotone(1, k - q, m);
    } else if k - q <= -1 {
      MulMonotone(1, q - k, m);
    }
  }

  /** `total_pages = (total + per_page - 1) // per_page`; both operands are
      non-negative here, so Python's floor division is Dafny's `/`. */
  function TotalPages(total: nat, perPage: int): nat
    requires perPage >= 1
  {
    (total + perPage - 1) / perPage
  }

  /** The page count is the ceiling of total / per_page. */
  lemma TotalPagesCeiling(total: nat, perPage: int)
    requires perPage >= 1
    ensures TotalPages(total, perPage) * perPage >= total
    ensures total > 0 ==> (TotalPages(total, perPage) - 1) * perPage < total
    ensures TotalPages(total, perPage) == 0 <==> total == 0
  {
    var q := (total + perPage - 1) / perPage;
    var r := (total + perPage - 1) % perPage;
    assert total + perPage - 1 == q * perPage + r;
    assert (q - 1) * perPage == q * perPage - perPage;
  }

  /** Every page from 1 to total_pages starts inside the listing, and every
      later page starts past its end. */
  lemma PagesCoverListing(total: nat, page: int, perPage: int)
    requires ValidPaging(page, perPage)
    ensures page <= TotalPages(total, perPage) ==> Skip(page, perPage) < total
    ensures page > TotalPages(total, perPage) ==> Skip(page, perPage) >= total
  {
    var n := TotalPages(total, perPage);
    TotalPagesCeiling(total, perPage);
    if page <= n {
      MulMonotone(page - 1, n - 1, perPage);
    } else {
      MulMonotone(n, page - 1, perPage);
    }
  }

  lemma MulMonotone(a: int, b: int, c: int)
    requires 0 <= a <= b && c >= 0
    ensures a * c <= b * c
  {
    assert b * c == a * c + (b - a) * c;
  }

  /** The `status` query parameter: absent, empty or "all" means no filter,
      and a value that is no ticket status is ignored rather than raising. */
  function StatusFilter(raw: Option<string>): (r: Option<TicketStatus>)
    ensures r.Some? <==> raw.Some? && ParseStatus(raw.value).Some?
    ensures r.Some? ==> StatusValue(r.value) == raw.value
  {
    if raw.None? || raw.value == "" || raw.value == "all" then None
    else ParseStatus(raw.value)
  }

  /** The query built from the project and status parameters. */
  predicate Matches(t: TicketData, projectFilter: Option<string>, statusFilter: Option<TicketStatus>) {
    (projectFilter.None? || projectFilter.value == "" || t.projectId == projectFilter.value)
    && (statusFilter.None? || t.status == statusFilter.value)
  }

  function Listed(ts: seq<TicketData>, projectFilter: Option<string>, statusFilter: Option<TicketStatus>): (r: seq<TicketData>)
    ensures |r| <= |ts|
    ensures forall i :: 0 <= i < |r| ==> Matches(r[i], projectFilter, statusFilter)
    ensures forall t :: t in r <==> t in ts && Matches(t, projectFilter, statusFilter)
  {
    if ts == [] then []
    else
      var rest := Listed(ts[..|ts| - 1], projectFilter, statusFilter);
      var last := ts[|ts| - 1];
      assert ts == ts[..|ts| - 1] + [last];
      if Matches(last, projectFilter, statusFilter) then rest + [last] else rest
  }

  /** One page of `list_tickets`: the total matching count and the tickets
      from `skip` on, at most `per_page` of them. `ts` is the store in its
      listing order. */
  function ListPage(ts: seq<TicketData>, projectFilter: Option<string>, rawStatus: Option<string>,
                    page: int, perPage: int): (r: (nat, seq<TicketData>))
    requires ValidPaging(page, perPage)
    ensures r.0 == |Listed(ts, projectFilter, StatusFilter(rawStatus))|
    ensures |r.1| <= perPage
    ensures r.1 == [] <==> Skip(page, perPage) >= r.0
    ensures r.1 != [] ==> Skip(page, perPage) + |r.1| <= r.0
    ensures forall i :: 0 <= i < |r.1| ==>
      r.1[i] == Listed(ts, projectFilter, StatusFilter(rawStatus))[Skip(page, perPage) + i]
  {
    var all := Listed(ts, projectFilter, StatusFilter(rawStatus));
    var skip := Skip(page, perPage);
    if skip >= |all| then (|all|, [])
    else
      var upto := if skip + perPage < |all| then skip + perPage else |all|;
      (|all|, all[skip..upto])
  }

  /** An unrecognised status value lists exactly what no status value lists. */
  lemma UnknownStatusIgnored(ts: seq<TicketData>, projectFilter: Option<string>, raw: string, page: int, perPage: int)
    requires ValidPaging(page, perPage)
    requires ParseStatus(raw).None?
    ensures ListPage(ts, projectFilter, Some(raw), page, perPage) == ListPage(ts, projectFilter, None, page, perPage)
  {
  }

  // ------------------------------------------------------------ detail page

  /** The detail page looks a user up only for an acknowledgement made in
      the UI: one by link records "link" instead of a user id. */
  predicate LooksUpAcknowledger(t: TicketData) {
    t.acknowledgedBy.Some? && t.acknowledgedBy.value != "" && t.acknowledgedBy.value != "link"
  }

  // ---------------------------------------------------------- acknowledge

  /** The statuses the UI's acknowledge button acts on. */
  predicate UiAcknowledgeable(s: TicketStatus) {
    s == Pending || s == Escalated
  }

  function UiAckDetails(username: string): string {
    "由 " + username + " 确认"
  }

  /** The effect of the acknowledge button on a ticket at `now`. */
  function UiAckStep(t: TicketData, userId: string, username: string, now: int): (r: TicketData)
    ensures UiAcknowledgeable(t.status) ==>
      r.status == Acknowledged && r.acknowledgedBy == Some(userId) && r.acknowledgedAt == Some(now)
      && r.events == t.events + [TicketEvent(AcknowledgedEvent, now, None, None, None, UiAckDetails(username))]
      && r.escalationLevel == t.escalationLevel && r.resolvedAt == t.resolvedAt
    ensures !UiAcknowledgeable(t.status) ==> r == t
  {
    if UiAcknowledgeable(t.status) then
      t.(status := Acknowledged, acknowledgedAt := Some(now), acknowledgedBy := Some(userId), updatedAt := now,
         events := t.events + [TicketEvent(AcknowledgedEvent, now, None, None, None, UiAckDetails(username))])
    else t
  }

  /** `acknowledge_ticket`: a missing ticket redirects to the list, any other
      to its detail page; the notification that follows cannot undo the
      acknowledgement. */
  method AcknowledgeFromUi(ticket: Option<Ticket>, pathId: string, userId: string, username: string,
                           projects: map<string, Project>, groups: map<string, NotificationGroup>,
                           templates: seq<NotificationTemplate>, env: Env, now: int)
    returns (redirect: string)
    modifies if ticket.Some? then {ticket.value} else {}
    ensures ticket.Some? ==> ticket.value.View() == UiAckStep(old(ticket.value.View()), userId, username, now)
    ensures redirect == if ticket.Some? then "/tickets/" + pathId else "/tickets"
  {
    if ticket.None? {
      return "/tickets";
    }
    var t := ticket.value;
    if t.status == Pending || t.status == Escalated {
      t.status := Acknowledged;
      t.acknowledgedAt := Some(now);
      t.acknowledgedBy := Some(userId);
      t.updatedAt := now;
      t.AddEvent(AcknowledgedEvent, now, None, None, None, UiAckDetails(username));
      var _ := NotifyTicketAcknowledged(t, username, projects, groups, templates, env);
    }
    redirect := "/tickets/" + pathId;
  }

  /** The two acknowledgement paths: whatever the UI acknowledges the link
      acknowledges too (given the right token), but only the link
      acknowledges an ignored ticket; and only a UI acknowledgement leads the
      detail page to look the acknowledger up. */
  lemma AckPathsCompared(t: TicketData, userId: string, username: string, now: int)
    ensures UiAcknowledgeable(t.status) ==> Ack.LinkAckOutcome(Some(t), t.ackToken) == Ack.NewlyAcknowledged
    ensures t.status == TicketStatus.Ignored ==>
      Ack.LinkAckOutcome(Some(t), t.ackToken) == Ack.NewlyAcknowledged && UiAckStep(t, userId, username, now) == t
    ensures !LooksUpAcknowledger(Ack.LinkAcknowledged(t, now))
    ensures UiAcknowledgeable(t.status) && userId != "" && userId != "link" ==>
      LooksUpAcknowledger(UiAckStep(t, userId, username, now))
  {
  }

  // -------------------------------------------------------------- resolve

  function UiResolveDetails(username: string): string {
    "由 " + username + " 标记解决"
  }

  /** The effect of the resolve button on a ticket at `now`. */
  function UiResolveStep(t: TicketData, username: string, now: int): (r: TicketData)
    ensures r.status == TicketStatus.Resolved
    ensures t.status == TicketStatus.Resolved ==> r == t
    ensures t.status != TicketStatus.Resolved ==>
      r.resolvedAt == Some(now)
      && r.events == t.events + [TicketEvent(ResolvedEvent, now, None, None, None, UiResolveDetails(username))]
      && r.acknowledgedBy == t.acknowledgedBy && r.escalationLevel == t.escalationLevel
  {
    if t.status != TicketStatus.Resolved then
      t.(status := TicketStatus.Resolved, resolvedAt := Some(now), updatedAt := now,
         events := t.events + [TicketEvent(ResolvedEvent, now, None, None, None, UiResolveDetails(username))])
    else t
  }

  /** Resolved is absorbing: a second resolve, by anyone at any time, changes
      nothing, and neither acknowledgement path moves a resolved ticket. */
  lemma ResolvedAbsorbing(t: TicketData, user1: string, user2: string, now1: int, now2: int, userId: string)
    ensures UiResolveStep(UiResolveStep(t, user1, now1), user2, now2) == UiResolveStep(t, user1, now1)
    ensures UiAckStep(UiResolveStep(t, user1, now1), userId, user2, now2) == UiResolveStep(t, user1, now1)
    ensures Ack.LinkAckOutcome(Some(UiResolveStep(t, user1, now1)), t.ackToken) == Ack.AlreadyResolved
  {
  }

  /** `resolve_ticket`. */
  method ResolveFromUi(ticket: Option<Ticket>, pathId: string, username: string, now: int)
    returns (redirect: string)
    modifies if ticket.Some? then {ticket.value} else {}
    ensures ticket.Some? ==> ticket.value.View() == UiResolveStep(old(ticket.value.View()), username, now)
    ensures redirect == if ticket.Some? then "/tickets/" + pathId else "/tickets"
  {
    if ticket.None? {
      return "/tickets";
    }
    var t := ticket.value;
    if t.status != TicketStatus.Resolved {
      t.status := TicketStatus.Resolved;
      t.resolvedAt := Some(now);
      t.updatedAt := now;
      t.AddEvent(ResolvedEvent, now, None, None, None, UiResolveDetails(username));
    }
    redirect := "/tickets/" + pathId;
  }
}
