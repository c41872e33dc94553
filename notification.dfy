/** The notification service: sending one ticket to every channel of a
    notification group, the first notification of a new ticket, and the
    acknowledgement fan-out to every group the ticket has reached.

    The outside world is a parameter `env`: the contact store, the channel
    sends (`dispatch`, which stands for `send_safe` and so reports every
    failure as false), the Jinja renderer and the JSON decoder. Each method
    is proved to agree with a function on values. */
module Notifications {
  import opened Common
  import opened Dicts
  import opened JsonValues
  import opened Tickets
  import opened Projects
  import opened Groups
  import opened Templates
  import opened Escalation
  import opened ChannelEvents
  import FeishuChannel

  /** What one channel send is addressed to; the overrides are the rendered template texts. */
  datatype Target =
    | FeishuTarget(webhookUrl: string)
    | EmailTarget(to: seq<string>, subjectOverride: Option<string>, bodyOverride: Option<string>)
    | SmsTarget(to: seq<string>, messageOverride: Option<string>)
    | SlackTarget(channelId: string)

  /** `send_safe` of the channel built for a target: true on success, false on any failure. */
  type Dispatch = (Target, ChannelEvent) -> bool

  datatype Env = Env(
    baseUrl: string,
    /** The contact collection, in storage order. */
    contacts: seq<Contact>,
    dispatch: Dispatch,
    /** A contact's Slack channel id, "" when it has none. */
    slackIdOf: Contact -> string,
    render: Renderer,
    parseJson: string -> Option<Json>)

  /** The keyword arguments of `send_to_group` besides the template and project. */
  datatype SendOptions = SendOptions(isEscalated: bool, isRepeated: bool, isAckNotification: bool, acknowledgedByName: string)

  const PlainSend := SendOptions(false, false, false, "")

  /** What the template produced: the card, the (subject, body) pair and the SMS text. */
  datatype Rendered = Rendered(card: Option<Json>, email: Option<(string, string)>, sms: Option<string>)

  // ---------------------------------------------------------------------------
  // Rendering and the channel event

  /** The context a group send renders with: always the ticket's next count. */
  function SendContext(t: TicketData, project: Option<Project>, opts: SendOptions, baseUrl: string): (c: Context)
    ensures c.notificationCount == t.notificationCount + 1
    ensures c.ticket.notificationCount == t.notificationCount + 1
    ensures c.isAckNotification == opts.isAckNotification && c.acknowledgedByName == opts.acknowledgedByName
    ensures c.notificationLabel == NotificationLabel(opts.isAckNotification, opts.acknowledgedByName, opts.isEscalated,
                                                     opts.isRepeated, t.escalationLevel, t.notificationCount + 1)
  {
    BuildContext(t, project, baseUrl, opts.isEscalated, opts.isRepeated, Some(t.notificationCount + 1),
                 opts.isAckNotification, opts.acknowledgedByName)
  }

  /** Without a template nothing is rendered; with one, all three parts are. */
  function RenderAll(t: TicketData, template: Option<NotificationTemplate>, project: Option<Project>, opts: SendOptions,
                     env: Env): (r: Rendered)
    ensures template.None? ==> r == Rendered(None, None, None)
    ensures template.Some? ==> r.email.Some? && r.sms.Some?
    ensures template.Some? && template.value.feishuCard == "" ==> r.card.None?
  {
    match template
    case None => Rendered(None, None, None)
    case Some(tm) =>
      var ctx := SendContext(t, project, opts, env.baseUrl);
      Rendered(RenderFeishuCard(tm, ctx, env.render, env.parseJson), Some(RenderEmail(tm, ctx, env.render)),
               Some(RenderSms(tm, ctx, env.render)))
  }

  /** The event's `meta`: the ticket's identity and texts, plus the rendered card when it is truthy. */
  function EventMeta(t: TicketData, card: Option<Json>): (m: Dict<Json>)
    ensures FeishuChannel.TemplateCardKey in Keys(m) <==> card.Some? && Truthy(card.value)
    ensures Get(m, FeishuChannel.TemplateCardKey) == if card.Some? && Truthy(card.value) then card else None
  {
    var base := [("ticket_id", JStr(t.id)), ("ack_token", JStr(t.ackToken)), ("title", JStr(t.title)),
                 ("description", JStr(t.description)), ("severity", JStr(t.severity))];
    assert FeishuChannel.TemplateCardKey !in Keys(base) by {
      assert Keys(base) == ["ticket_id", "ack_token", "title", "description", "severity"];
      assert FeishuChannel.TemplateCardKey[1] == 'e' && FeishuChannel.TemplateCardKey[0] == 't';
    }
    if card.Some? && Truthy(card.value) then
      GetPut(base, FeishuChannel.TemplateCardKey, card.value, FeishuChannel.TemplateCardKey);
      Put(base, FeishuChannel.TemplateCardKey, card.value)
    else base
  }

  function TicketChannelEvent(t: TicketData, card: Option<Json>): ChannelEvent {
    ChannelEvent(t.source, "notification", t.labels, t.payload, EventMeta(t, card))
  }

  // ---------------------------------------------------------------------------
  // One channel configuration

  /** `Contact.find({"_id": {"$in": ids}})` over the non-empty ids: the stored
      contacts whose id is listed, in storage order, each once. */
  function ResolveContacts(store: seq<Contact>, ids: seq<string>): (r: seq<Contact>)
    ensures |r| <= |store|
    ensures forall c :: c in r <==> c in store && c.id != "" && c.id in ids
  {
    if store == [] then []
    else
      var rest := ResolveContacts(store[..|store| - 1], ids);
      var c := store[|store| - 1];
      assert store == store[..|store| - 1] + [c];
      if c.id != "" && c.id in ids then rest + [c] else rest
  }

  /** The per-contact target of a Feishu or Slack configuration, if the contact has one. */
  function ContactTarget(kind: ChannelType, c: Contact, slackIdOf: Contact -> string): Option<Target> {
    match kind
    case Feishu => if c.HasFeishu() then Some(FeishuTarget(c.feishuWebhookUrl)) else None
    case Slack => if slackIdOf(c) != "" then Some(SlackTarget(slackIdOf(c))) else None
    case _ => None
  }

  /** `f"{kind}:{contact.name}"` */
  function ContactKey(kind: ChannelType, name: string): string {
    ChannelTypeValue(kind) + ":" + name
  }

  /** The per-contact results of a Feishu or Slack configuration, sent in contact order. */
  function PerContactResults(kind: ChannelType, cs: seq<Contact>, event: ChannelEvent, env: Env): Dict<bool> {
    if cs == [] then []
    else
      var prev := PerContactResults(kind, cs[..|cs| - 1], event, env);
      var c := cs[|cs| - 1];
      match ContactTarget(kind, c, env.slackIdOf)
      case None => prev
      case Some(target) => Put(prev, ContactKey(kind, c.name), env.dispatch(target, event))
  }

  /** The addresses a contact contributes to an aggregate send. */
  function Addresses(c: Contact, kind: ChannelType): seq<string> {
    if kind == Email then c.emails else c.phones
  }

  /** `all_emails.extend(contact.emails)` (or the phones) over the contacts, in order. */
  function Gathered(cs: seq<Contact>, kind: ChannelType): seq<string> {
    if cs == [] then [] else Gathered(cs[..|cs| - 1], kind) + Addresses(cs[|cs| - 1], kind)
  }

  /** The rendered subject and body replace the default e-mail only when both are non-empty. */
  function EmailOverride(rendered: Option<(string, string)>): (r: (Option<string>, Option<string>))
    ensures r.0.Some? <==> r.1.Some?
    ensures r.0.Some? <==> rendered.Some? && rendered.value.0 != "" && rendered.value.1 != ""
    ensures r.0.Some? ==> r.0.value == rendered.value.0 && r.1.value == rendered.value.1
  {
    match rendered
    case Some((subject, body)) => if subject != "" && body != "" then (Some(subject), Some(body)) else (None, None)
    case None => (None, None)
  }

  /** A rendered SMS replaces the default text only when it is non-empty. */
  function SmsOverride(rendered: Option<string>): (r: Option<string>)
    ensures r.Some? <==> rendered.Some? && rendered.value != ""
    ensures r.Some? ==> r == rendered
  {
    match rendered
    case Some(s) => if s != "" then Some(s) else None
    case None => None
  }

  /** The one e-mail or SMS send to all gathered addresses, or nothing when there are none. */
  function AggregateResults(kind: ChannelType, to: seq<string>, event: ChannelEvent, rendered: Rendered, env: Env): (r: Dict<bool>)
    ensures r == [] <==> to == []
    ensures |r| <= 1
  {
    if to == [] then []
    else if kind == Email then
      var (subject, body) := EmailOverride(rendered.email);
      [("email", env.dispatch(EmailTarget(to, subject, body), event))]
    else [("sms", env.dispatch(SmsTarget(to, SmsOverride(rendered.sms)), event))]
  }

  /** `_send_to_channel_config`: nothing when no contact resolves; otherwise one
      result per reachable contact (Feishu, Slack) or one aggregate send to
      every address of every contact (e-mail, SMS). */
  function ChannelResults(event: ChannelEvent, config: ChannelConfig, rendered: Rendered, env: Env): Dict<bool> {
    var cs := ResolveContacts(env.contacts, config.contactIds);
    if cs == [] then []
    else if config.channelType == Feishu || config.channelType == Slack then
      PerContactResults(config.channelType, cs, event, env)
    else AggregateResults(config.channelType, Gathered(cs, config.channelType), event, rendered, env)
  }

  method SendToChannelConfig(event: ChannelEvent, config: ChannelConfig, rendered: Rendered, env: Env)
    returns (results: Dict<bool>)
    ensures results == ChannelResults(event, config, rendered, env)
  {
    results := [];
    var contacts := ResolveContacts(env.contacts, config.contactIds);
    if |contacts| == 0 {
      return;
    }
    match config.channelType {
      case Feishu =>
        results := SendPerContact(Feishu, contacts, event, env);
      case Slack =>
        results := SendPerContact(Slack, contacts, event, env);
      case Email =>
        var allEmails := GatherAddresses(contacts, Email);
        if |allEmails| > 0 {
          var (subject, body) := EmailOverride(rendered.email);
          var success := env.dispatch(EmailTarget(allEmails, subject, body), event);
          results := [("email", success)];
        }
      case Sms =>
        var allPhones := GatherAddresses(contacts, Sms);
        if |allPhones| > 0 {
          var success := env.dispatch(SmsTarget(allPhones, SmsOverride(rendered.sms)), event);
          results := [("sms", success)];
        }
    }
  }

  /** The e-mail and SMS loops: `all.extend(contact.emails)` (or the phones) per contact. */
  method GatherAddresses(contacts: seq<Contact>, kind: ChannelType) returns (all: seq<string>)
    ensures all == Gathered(contacts, kind)
  {
    all := [];
    for i := 0 to |contacts|
      invariant all == Gathered(contacts[..i], kind)
    {
      assert contacts[..i + 1][..i] == contacts[..i];
      all := all + Addresses(contacts[i], kind);
    }
    assert contacts[..|contacts|] == contacts;
  }

  /** The Feishu and Slack loop: one send per contact that has a target. */
  method SendPerContact(kind: ChannelType, contacts: seq<Contact>, event: ChannelEvent, env: Env)
    returns (results: Dict<bool>)
    ensures results == PerContactResults(kind, contacts, event, env)
  {
    results := [];
    for i := 0 to |contacts|
      invariant results == PerContactResults(kind, contacts[..i], event, env)
    {
      assert contacts[..i + 1][..i] == contacts[..i];
      var contact := contacts[i];
      match ContactTarget(kind, contact, env.slackIdOf) {
        case None =>
        case Some(target) =>
          var success := env.dispatch(target, event);
          results := Put(results, ContactKey(kind, contact.name), success);
      }
    }
    assert contacts[..|contacts|] == contacts;
  }

  // ---------------------------------------------------------------------------
  // A whole group

  /** `results.update(channel_results)` over the configurations, in order. */
  function ConfigsResults(event: ChannelEvent, configs: seq<ChannelConfig>, rendered: Rendered, env: Env): Dict<bool> {
    if configs == [] then []
    else Update(ConfigsResults(event, configs[..|configs| - 1], rendered, env),
                ChannelResults(event, configs[|configs| - 1], rendered, env))
  }

  lemma ConfigsResultsSnoc(event: ChannelEvent, configs: seq<ChannelConfig>, rendered: Rendered, env: Env, i: nat)
    requires i < |configs|
    ensures ConfigsResults(event, configs[..i + 1], rendered, env)
      == Update(ConfigsResults(event, configs[..i], rendered, env), ChannelResults(event, configs[i], rendered, env))
  {
    assert configs[..i + 1][..i] == configs[..i];
  }

  /** `send_to_group` for the ticket as it is when sending. */
  function GroupResults(t: TicketData, g: NotificationGroup, template: Option<NotificationTemplate>,
                        project: Option<Project>, opts: SendOptions, env: Env): Dict<bool> {
    var rendered := RenderAll(t, template, project, opts, env);
    ConfigsResults(TicketChannelEvent(t, rendered.card), g.channelConfigs, rendered, env)
  }

  /** `send_to_group`: reads the ticket and changes nothing. */
  method SendToGroup(ticket: Ticket, g: NotificationGroup, template: Option<NotificationTemplate>,
                     project: Option<Project>, opts: SendOptions, env: Env)
    returns (results: Dict<bool>)
    ensures results == GroupResults(ticket.View(), g, template, project, opts, env)
  {
    var rendered := RenderAll(ticket.View(), template, project, opts, env);
    var event := TicketChannelEvent(ticket.View(), rendered.card);
    results := [];
    var configs := g.channelConfigs;
    for i := 0 to |configs|
      invariant results == ConfigsResults(event, configs[..i], rendered, env)
    {
      ConfigsResultsSnoc(event, configs, rendered, env, i);
      var channelResults := SendToChannelConfig(event, configs[i], rendered, env);
      results := Update(results, channelResults);
    }
    assert configs[..|configs|] == configs;
  }

  /** The escalation engine's notifier is `send_to_group` with the project's
      template and the flags of the escalation step. */
  function AsNotifier(templates: seq<NotificationTemplate>, env: Env): Notifier {
    (t: TicketData, g: NotificationGroup, p: Project, f: SendFlags) =>
      GroupResults(t, g, Some(TemplateForProject(p, templates)), Some(p),
                   SendOptions(f.isEscalated, f.isRepeated, false, ""), env)
  }

  // ---------------------------------------------------------------------------
  // The first notification of a ticket

  /** `notify_ticket`: nothing unless the ticket's project exists and has a
      group at `level`; otherwise a plain send to that group. */
  function NotifyResults(t: TicketData, level: int, projects: map<string, Project>,
                         groups: map<string, NotificationGroup>, templates: seq<NotificationTemplate>, env: Env): (r: Dict<bool>)
    requires level >= 1
    ensures t.projectId !in projects ==> r == []
    ensures t.projectId in projects && GroupAtLevel(projects[t.projectId], groups, level).None? ==> r == []
    ensures t.projectId in projects && GroupAtLevel(projects[t.projectId], groups, level).Some? ==>
      var p := projects[t.projectId];
      r == GroupResults(t, GroupAtLevel(p, groups, level).value, Some(TemplateForProject(p, templates)), Some(p),
                        PlainSend, env)
  {
    if t.projectId !in projects then []
    else
      var p := projects[t.projectId];
      if |p.groupIds| == 0 then []
      else match GroupAtLevel(p, groups, level)
        case None => []
        case Some(g) => GroupResults(t, g, Some(TemplateForProject(p, templates)), Some(p), PlainSend, env)
  }

  /** The first notification is what the escalation engine's notifier sends
      for the same level with neither the escalated nor the repeated flag. */
  lemma NotifyMatchesEscalationNotifier(t: TicketData, level: int, projects: map<string, Project>,
                                        groups: map<string, NotificationGroup>, templates: seq<NotificationTemplate>,
                                        env: Env)
    requires level >= 1
    requires t.projectId in projects && GroupAtLevel(projects[t.projectId], groups, level).Some?
    ensures NotifyResults(t, level, projects, groups, templates, env) ==
      AsNotifier(templates, env)(t, GroupAtLevel(projects[t.projectId], groups, level).value, projects[t.projectId],
                                 SendFlags(false, false))
  {
  }

  method NotifyTicket(ticket: Ticket, level: int, projects: map<string, Project>, groups: map<string, NotificationGroup>,
                      templates: seq<NotificationTemplate>, env: Env)
    returns (results: Dict<bool>)
    requires level >= 1
    ensures results == NotifyResults(ticket.View(), level, projects, groups, templates, env)
  {
    if ticket.projectId !in projects {
      return [];
    }
    var p := projects[ticket.projectId];
    if |p.groupIds| == 0 {
      return [];
    }
    var index := level - 1;
    if index >= |p.groupIds| {
      return [];
    }
    var groupId := p.groupIds[index];
    if groupId !in groups {
      return [];
    }
    var template := TemplateForProject(p, templates);
    results := SendToGroup(ticket, groups[groupId], Some(template), Some(p), PlainSend, env);
  }

  // ---------------------------------------------------------------------------
  // The acknowledgement fan-out

  /** `f"L{level}:{key}"` */
  function LevelKey(level: nat, key: string): string {
    "L" + NatToString(level) + ":" + key
  }

  /** A group's results with every key prefixed by its level. */
  function Prefixed(level: nat, r: Dict<bool>): (p: Dict<bool>)
    ensures |p| == |r|
    ensures forall i :: 0 <= i < |r| ==> p[i] == (LevelKey(level, r[i].0), r[i].1)
  {
    seq(|r|, i requires 0 <= i < |r| => (LevelKey(level, r[i].0), r[i].1))
  }

  function AckOptions(ackName: string): SendOptions {
    SendOptions(false, false, true, ackName)
  }

  /** The merged results after the loop has handled levels 1..n. */
  function AckResultsUpTo(t: TicketData, p: Project, groups: map<string, NotificationGroup>, template: NotificationTemplate,
                          ackName: string, env: Env, n: nat): Dict<bool>
    requires n <= |p.groupIds|
  {
    if n == 0 then []
    else
      var prev := AckResultsUpTo(t, p, groups, template, ackName, env, n - 1);
      match GroupAtLevel(p, groups, n)
      case None => prev
      case Some(g) => Update(prev, Prefixed(n, GroupResults(t, g, Some(template), Some(p), AckOptions(ackName), env)))
  }

  /** The last level the fan-out reaches: the ticket's level, capped by the path's length. */
  function AckReach(t: TicketData, p: Project): (n: nat)
    ensures n <= |p.groupIds| && n <= (if t.escalationLevel < 0 then 0 else t.escalationLevel)
    ensures n == |p.groupIds| || n == (if t.escalationLevel < 0 then 0 else t.escalationLevel)
  {
    if t.escalationLevel <= 0 then 0
    else if t.escalationLevel < |p.groupIds| then t.escalationLevel
    else |p.groupIds|
  }

  /** `notify_ticket_acknowledged` */
  function AckResults(t: TicketData, ackName: string, projects: map<string, Project>,
                      groups: map<string, NotificationGroup>, templates: seq<NotificationTemplate>, env: Env): (r: Dict<bool>)
    ensures t.projectId !in projects ==> r == []
    ensures t.projectId in projects && !projects[t.projectId].notifyOnAck ==> r == []
  {
    if t.projectId !in projects then []
    else
      var p := projects[t.projectId];
      if !p.notifyOnAck then []
      else if |p.groupIds| == 0 then []
      else AckResultsUpTo(t, p, groups, TemplateForProject(p, templates), ackName, env, AckReach(t, p))
  }

  method NotifyTicketAcknowledged(ticket: Ticket, ackName: string, projects: map<string, Project>,
                                  groups: map<string, NotificationGroup>, templates: seq<NotificationTemplate>, env: Env)
    returns (allResults: Dict<bool>)
    ensures allResults == AckResults(ticket.View(), ackName, projects, groups, templates, env)
  {
    if ticket.projectId !in projects {
      return [];
    }
    var p := projects[ticket.projectId];
    if !p.notifyOnAck {
      return [];
    }
    if |p.groupIds| == 0 {
      return [];
    }
    var template := TemplateForProject(p, templates);
    allResults := [];
    var level := 1;
    while level <= ticket.escalationLevel
      invariant 1 <= level <= |p.groupIds| + 1
      invariant level == 1 || level - 1 <= ticket.escalationLevel
      invariant allResults == AckResultsUpTo(ticket.View(), p, groups, template, ackName, env, level - 1)
    {
      var index := level - 1;
      if index >= |p.groupIds| {
        break;
      }
      var groupId := p.groupIds[index];
      if groupId !in groups {
        level := level + 1;
        continue;
      }
      var results := SendToGroup(ticket, groups[groupId], Some(template), Some(p), AckOptions(ackName), env);
      allResults := MergePrefixed(allResults, level, results);
      level := level + 1;
    }
  }

  /** `for key, value in results.items(): all_results[f"L{level}:{key}"] = value` */
  method MergePrefixed(allResults: Dict<bool>, level: nat, results: Dict<bool>) returns (merged: Dict<bool>)
    ensures merged == Update(allResults, Prefixed(level, results))
  {
    merged := allResults;
    for j := 0 to |results|
      invariant merged == Update(allResults, Prefixed(level, results)[..j])
    {
      var (key, value) := results[j];
      MergePrefixedStep(allResults, level, results, j);
      merged := Put(merged, LevelKey(level, key), value);
    }
    assert Prefixed(level, results)[..|results|] == Prefixed(level, results);
  }

  lemma MergePrefixedStep(allResults: Dict<bool>, level: nat, results: Dict<bool>, j: nat)
    requires j < |results|
    ensures Update(allResults, Prefixed(level, results)[..j + 1])
      == Put(Update(allResults, Prefixed(level, results)[..j]), LevelKey(level, results[j].0), results[j].1)
  {
    var prefixed := Prefixed(level, results);
    assert prefixed[..j + 1] == prefixed[..j] + [(LevelKey(level, results[j].0), results[j].1)];
    UpdateSnoc(allResults, prefixed[..j], LevelKey(level, results[j].0), results[j].1);
  }

  // ---------------------------------------------------------------------------
  // Properties of one channel configuration

  /** An aggregate send reaches every address of every resolved contact, and no other. */
  lemma {:induction false} GatheredAddresses(cs: seq<Contact>, kind: ChannelType, a: string)
    ensures a in Gathered(cs, kind) <==> exists c :: c in cs && a in Addresses(c, kind)
  {
    if cs != [] {
      var init := cs[..|cs| - 1];
      var last := cs[|cs| - 1];
      GatheredAddresses(init, kind, a);
      assert cs == init + [last];
      if a in Gathered(init, kind) {
        var c :| c in init && a in Addresses(c, kind);
        assert c in cs;
      }
      if exists c :: c in cs && a in Addresses(c, kind) {
        var c :| c in cs && a in Addresses(c, kind);
        if c != last {
          assert c in init;
        }
      }
    }
  }

  lemma PerContactKeysSnoc(kind: ChannelType, cs: seq<Contact>, event: ChannelEvent, env: Env, key: string)
    requires cs != []
    ensures key in Keys(PerContactResults(kind, cs, event, env)) <==>
      key in Keys(PerContactResults(kind, cs[..|cs| - 1], event, env))
      || (ContactTarget(kind, cs[|cs| - 1], env.slackIdOf).Some? && key == ContactKey(kind, cs[|cs| - 1].name))
  {
  }

  /** Whether contact `c` has a target for `kind` and reports under `key`. */
  predicate ReportsUnder(kind: ChannelType, c: Contact, slackIdOf: Contact -> string, key: string) {
    ContactTarget(kind, c, slackIdOf).Some? && key == ContactKey(kind, c.name)
  }

  lemma ReportsUnderSnoc(kind: ChannelType, init: seq<Contact>, c: Contact, slackIdOf: Contact -> string, key: string)
    ensures (exists i :: 0 <= i < |init| + 1 && ReportsUnder(kind, (init + [c])[i], slackIdOf, key)) <==>
      (exists i :: 0 <= i < |init| && ReportsUnder(kind, init[i], slackIdOf, key)) || ReportsUnder(kind, c, slackIdOf, key)
  {
    var cs := init + [c];
    if exists i :: 0 <= i < |init| && ReportsUnder(kind, init[i], slackIdOf, key) {
      var i :| 0 <= i < |init| && ReportsUnder(kind, init[i], slackIdOf, key);
      assert cs[i] == init[i];
    }
    if ReportsUnder(kind, c, slackIdOf, key) {
      assert cs[|init|] == c;
    }
  }

  /** The per-contact keys are exactly `kind:name` for the contacts that have a target. */
  lemma {:induction false} PerContactKeys(kind: ChannelType, cs: seq<Contact>, event: ChannelEvent, env: Env, key: string)
    ensures key in Keys(PerContactResults(kind, cs, event, env)) <==>
      exists i :: 0 <= i < |cs| && ReportsUnder(kind, cs[i], env.slackIdOf, key)
  {
    if cs != [] {
      var init, last := cs[..|cs| - 1], cs[|cs| - 1];
      assert cs == init + [last];
      PerContactKeys(kind, init, event, env, key);
      PerContactKeysSnoc(kind, cs, event, env, key);
      ReportsUnderSnoc(kind, init, last, env.slackIdOf, key);
    }
  }

  lemma ContactKeyInjective(kind: ChannelType, a: string, b: string)
    requires ContactKey(kind, a) == ContactKey(kind, b)
    ensures a == b
  {
    var n := |ChannelTypeValue(kind) + ":"|;
    assert a == ContactKey(kind, a)[n..];
    assert b == ContactKey(kind, b)[n..];
  }

  /** Two contacts of the same name share one key: the later contact's send is the one recorded. */
  lemma {:induction false} PerContactLastWins(kind: ChannelType, cs: seq<Contact>, event: ChannelEvent, env: Env, i: nat)
    requires i < |cs| && ContactTarget(kind, cs[i], env.slackIdOf).Some?
    requires forall j :: i < j < |cs| && ContactTarget(kind, cs[j], env.slackIdOf).Some? ==> cs[j].name != cs[i].name
    ensures Get(PerContactResults(kind, cs, event, env), ContactKey(kind, cs[i].name))
            == Some(env.dispatch(ContactTarget(kind, cs[i], env.slackIdOf).value, event))
  {
    var init := cs[..|cs| - 1];
    var last := cs[|cs| - 1];
    var key := ContactKey(kind, cs[i].name);
    if i < |cs| - 1 {
      assert init[i] == cs[i];
      forall j | i < j < |init| && ContactTarget(kind, init[j], env.slackIdOf).Some?
        ensures init[j].name != init[i].name
      {
        assert init[j] == cs[j];
      }
      PerContactLastWins(kind, init, event, env, i);
      PerContactGetSnoc(kind, cs, event, env, key);
      if ContactTarget(kind, last, env.slackIdOf).Some? && ContactKey(kind, last.name) == key {
        ContactKeyInjective(kind, last.name, cs[i].name);
      }
    } else {
      PerContactGetSnoc(kind, cs, event, env, key);
    }
  }

  lemma PerContactGetSnoc(kind: ChannelType, cs: seq<Contact>, event: ChannelEvent, env: Env, key: string)
    requires cs != []
    ensures var last := cs[|cs| - 1];
      var target := ContactTarget(kind, last, env.slackIdOf);
      Get(PerContactResults(kind, cs, event, env), key)
        == if target.Some? && key == ContactKey(kind, last.name) then Some(env.dispatch(target.value, event))
           else Get(PerContactResults(kind, cs[..|cs| - 1], event, env), key)
  {
    var last := cs[|cs| - 1];
    match ContactTarget(kind, last, env.slackIdOf)
    case None =>
    case Some(target) =>
      GetPut(PerContactResults(kind, cs[..|cs| - 1], event, env), ContactKey(kind, last.name), env.dispatch(target, event), key);
  }

  lemma {:induction false} PerContactKeysUnique(kind: ChannelType, cs: seq<Contact>, event: ChannelEvent, env: Env)
    ensures KeysUnique(PerContactResults(kind, cs, event, env))
  {
    if cs != [] {
      var init := cs[..|cs| - 1];
      PerContactKeysUnique(kind, init, event, env);
      match ContactTarget(kind, cs[|cs| - 1], env.slackIdOf)
      case None =>
      case Some(target) =>
        PutKeepsKeysUnique(PerContactResults(kind, init, event, env), ContactKey(kind, cs[|cs| - 1].name), env.dispatch(target, event));
    }
  }

  lemma ChannelResultsKeysUnique(event: ChannelEvent, config: ChannelConfig, rendered: Rendered, env: Env)
    ensures KeysUnique(ChannelResults(event, config, rendered, env))
  {
    var cs := ResolveContacts(env.contacts, config.contactIds);
    if cs != [] && (config.channelType == Feishu || config.channelType == Slack) {
      PerContactKeysUnique(config.channelType, cs, event, env);
    }
  }

  /** Every key a configuration reports starts with its channel type's name. */
  lemma ChannelKeysTagged(event: ChannelEvent, config: ChannelConfig, rendered: Rendered, env: Env, key: string)
    requires key in Keys(ChannelResults(event, config, rendered, env))
    ensures ChannelTypeValue(config.channelType) <= key
  {
    var cs := ResolveContacts(env.contacts, config.contactIds);
    var kind := config.channelType;
    if kind == Feishu || kind == Slack {
      PerContactKeys(kind, cs, event, env, key);
      var i :| 0 <= i < |cs| && ReportsUnder(kind, cs[i], env.slackIdOf, key);
      ContactKeyTagged(kind, cs[i].name);
    } else {
      AggregateKeyTagged(kind, Gathered(cs, kind), event, rendered, env, key);
    }
  }

  lemma ContactKeyTagged(kind: ChannelType, name: string)
    ensures ChannelTypeValue(kind) <= ContactKey(kind, name)
  {
    assert ContactKey(kind, name) == ChannelTypeValue(kind) + (":" + name);
  }

  lemma AggregateKeyTagged(kind: ChannelType, to: seq<string>, event: ChannelEvent, rendered: Rendered, env: Env, key: string)
    requires kind == Email || kind == Sms
    requires key in Keys(AggregateResults(kind, to, event, rendered, env))
    ensures ChannelTypeValue(kind) <= key
  {
    var r := AggregateResults(kind, to, event, rendered, env);
    assert Keys(r) == [r[0].0];
  }

  lemma TypeNamesDiffer(a: ChannelType, b: ChannelType)
    requires a != b
    ensures ChannelTypeValue(a)[..2] != ChannelTypeValue(b)[..2]
  {
    assert ChannelTypeValue(Feishu)[..2] == "fe";
    assert ChannelTypeValue(Email)[..2] == "em";
    assert ChannelTypeValue(Sms)[..2] == "sm";
    assert ChannelTypeValue(Slack)[..2] == "sl";
  }

  /** Configurations of different channel types never report the same key. */
  lemma ChannelKeysDisjoint(event: ChannelEvent, c1: ChannelConfig, c2: ChannelConfig, rendered: Rendered, env: Env, key: string)
    requires c1.channelType != c2.channelType
    ensures !(key in Keys(ChannelResults(event, c1, rendered, env)) && key in Keys(ChannelResults(event, c2, rendered, env)))
  {
    if key in Keys(ChannelResults(event, c1, rendered, env)) && key in Keys(ChannelResults(event, c2, rendered, env)) {
      ChannelKeysTagged(event, c1, rendered, env, key);
      ChannelKeysTagged(event, c2, rendered, env, key);
      TypeNamesDiffer(c1.channelType, c2.channelType);
    }
  }

  /** An e-mail configuration makes at most one send, under the key "email",
      addressed to all of its contacts' addresses together; the rendered text
      replaces the default only when subject and body are both non-empty. */
  lemma EmailSendsOnce(event: ChannelEvent, config: ChannelConfig, rendered: Rendered, env: Env)
    requires config.channelType == Email
    ensures var r := ChannelResults(event, config, rendered, env);
      var to := Gathered(ResolveContacts(env.contacts, config.contactIds), Email);
      (r == [] <==> to == []) &&
      (r != [] ==> exists subject, body ::
        r == [("email", env.dispatch(EmailTarget(to, subject, body), event))]
        && (subject.Some? <==> rendered.email.Some? && rendered.email.value.0 != "" && rendered.email.value.1 != ""))
  {
    var cs := ResolveContacts(env.contacts, config.contactIds);
    var to := Gathered(cs, Email);
    if cs == [] {
      assert to == [];
    } else if to != [] {
      var (subject, body) := EmailOverride(rendered.email);
      assert ChannelResults(event, config, rendered, env) == [("email", env.dispatch(EmailTarget(to, subject, body), event))];
    }
  }

  // ---------------------------------------------------------------------------
  // Properties of a group send

  lemma {:induction false} ConfigsResultsKeysUnique(event: ChannelEvent, configs: seq<ChannelConfig>, rendered: Rendered, env: Env)
    ensures KeysUnique(ConfigsResults(event, configs, rendered, env))
  {
    if configs != [] {
      ConfigsResultsKeysUnique(event, configs[..|configs| - 1], rendered, env);
      UpdateKeepsKeysUnique(ConfigsResults(event, configs[..|configs| - 1], rendered, env),
                            ChannelResults(event, configs[|configs| - 1], rendered, env));
    }
  }

  lemma GroupResultsKeysUnique(t: TicketData, g: NotificationGroup, template: Option<NotificationTemplate>,
                               project: Option<Project>, opts: SendOptions, env: Env)
    ensures KeysUnique(GroupResults(t, g, template, project, opts, env))
  {
    var rendered := RenderAll(t, template, project, opts, env);
    ConfigsResultsKeysUnique(TicketChannelEvent(t, rendered.card), g.channelConfigs, rendered, env);
  }

  /** A group reports every key any of its configurations reports ... */
  lemma {:induction false} ConfigsResultsHasKey(event: ChannelEvent, configs: seq<ChannelConfig>, rendered: Rendered, env: Env,
                                                c: ChannelConfig, key: string)
    requires c in configs && key in Keys(ChannelResults(event, c, rendered, env))
    ensures key in Keys(ConfigsResults(event, configs, rendered, env))
  {
    var n := |configs| - 1;
    var init := configs[..n];
    var before := ConfigsResults(event, init, rendered, env);
    var last := ChannelResults(event, configs[n], rendered, env);
    if c != configs[n] {
      assert configs == init + [configs[n]];
      ConfigsResultsHasKey(event, init, rendered, env, c, key);
    }
    KeysUpdate(before, last, key);
  }

  /** ... and no other. */
  lemma {:induction false} ConfigsResultsKeySource(event: ChannelEvent, configs: seq<ChannelConfig>, rendered: Rendered, env: Env,
                                                   key: string)
    requires key in Keys(ConfigsResults(event, configs, rendered, env))
    ensures exists i :: 0 <= i < |configs| && key in Keys(ChannelResults(event, configs[i], rendered, env))
  {
    var init := configs[..|configs| - 1];
    var last := configs[|configs| - 1];
    KeysUpdate(ConfigsResults(event, init, rendered, env), ChannelResults(event, last, rendered, env), key);
    if key !in Keys(ChannelResults(event, last, rendered, env)) {
      ConfigsResultsKeySource(event, init, rendered, env, key);
      var i :| 0 <= i < |init| && key in Keys(ChannelResults(event, init[i], rendered, env));
      assert configs[i] == init[i];
    }
  }

  /** When two configurations report the same key, the later one's result is kept. */
  lemma {:induction false} ConfigsResultsLastWins(event: ChannelEvent, configs: seq<ChannelConfig>, rendered: Rendered, env: Env,
                                                  i: nat, key: string)
    requires i < |configs| && key in Keys(ChannelResults(event, configs[i], rendered, env))
    requires forall j :: i < j < |configs| ==> key !in Keys(ChannelResults(event, configs[j], rendered, env))
    ensures Get(ConfigsResults(event, configs, rendered, env), key) == Get(ChannelResults(event, configs[i], rendered, env), key)
  {
    var init := configs[..|configs| - 1];
    var last := configs[|configs| - 1];
    ChannelResultsKeysUnique(event, last, rendered, env);
    GetUpdate(ConfigsResults(event, init, rendered, env), ChannelResults(event, last, rendered, env), key);
    if i < |configs| - 1 {
      assert init[i] == configs[i];
      forall j | i < j < |init| ensures key !in Keys(ChannelResults(event, init[j], rendered, env)) {
        assert init[j] == configs[j];
      }
      ConfigsResultsLastWins(event, init, rendered, env, i, key);
    }
  }

  // ---------------------------------------------------------------------------
  // Properties of the acknowledgement fan-out

  /** Distinct (level, key) pairs give distinct prefixed keys. */
  lemma LevelKeyInjective(l1: nat, k1: string, l2: nat, k2: string)
    requires LevelKey(l1, k1) == LevelKey(l2, k2)
    ensures l1 == l2 && k1 == k2
  {
    var d1 := NatToString(l1);
    var d2 := NatToString(l2);
    var s := LevelKey(l1, k1);
    assert s == ['L'] + d1 + [':'] + k1;
    assert s == ['L'] + d2 + [':'] + k2;
    assert s[1..] == d1 + [':'] + k1 == d2 + [':'] + k2;
    IndexOfAfter(d1, ':', k1);
    IndexOfAfter(d2, ':', k2);
    assert d1 == s[1..1 + |d1|] == d2;
    NatToStringInjective(l1, l2);
    assert k1 == s[2 + |d1|..] == k2;
  }

  /** The prefixed results hold the key `L{level}:{key}` exactly for the group's own keys. */
  lemma PrefixedKeys(level: nat, r: Dict<bool>, l: nat, k: string)
    ensures LevelKey(l, k) in Keys(Prefixed(level, r)) <==> l == level && k in Keys(r)
  {
    var p := Prefixed(level, r);
    if LevelKey(l, k) in Keys(p) {
      var i :| 0 <= i < |p| && Keys(p)[i] == LevelKey(l, k);
      LevelKeyInjective(level, r[i].0, l, k);
      assert Keys(r)[i] == k;
    }
    if l == level && k in Keys(r) {
      var i :| 0 <= i < |r| && Keys(r)[i] == k;
      assert Keys(p)[i] == LevelKey(l, k);
    }
  }

  /** Every key of the prefixed results is a level key of that level. */
  lemma PrefixedKeysAreLevelKeys(level: nat, r: Dict<bool>, key: string)
    requires key in Keys(Prefixed(level, r))
    ensures exists k :: k in Keys(r) && key == LevelKey(level, k)
  {
    var p := Prefixed(level, r);
    var i :| 0 <= i < |p| && Keys(p)[i] == key;
    assert Keys(r)[i] == r[i].0;
  }

  lemma {:induction false} GetPrefixed(level: nat, r: Dict<bool>, k: string)
    ensures Get(Prefixed(level, r), LevelKey(level, k)) == Get(r, k)
  {
    if r != [] {
      var p := Prefixed(level, r);
      assert p[1..] == Prefixed(level, r[1..]);
      GetPrefixed(level, r[1..], k);
      if p[0].0 == LevelKey(level, k) {
        LevelKeyInjective(level, r[0].0, level, k);
      }
    }
  }

  lemma PrefixedKeysUnique(level: nat, r: Dict<bool>)
    requires KeysUnique(r)
    ensures KeysUnique(Prefixed(level, r))
  {
    var p := Prefixed(level, r);
    forall i, j | 0 <= i < j < |p| ensures p[i].0 != p[j].0 {
      if p[i].0 == p[j].0 {
        LevelKeyInjective(level, r[i].0, level, r[j].0);
      }
    }
  }

  /** After levels 1..n, the key `L{l}:{k}` holds exactly what the group at
      level `l` reported under `k`: prefixing keeps the levels apart. */
  lemma {:induction false} AckResultsUpToGet(t: TicketData, p: Project, groups: map<string, NotificationGroup>,
                                             template: NotificationTemplate, ackName: string, env: Env, n: nat, l: nat, k: string)
    requires n <= |p.groupIds| && 1 <= l
    ensures Get(AckResultsUpTo(t, p, groups, template, ackName, env, n), LevelKey(l, k)) ==
      if l <= n && GroupAtLevel(p, groups, l).Some?
      then Get(GroupResults(t, GroupAtLevel(p, groups, l).value, Some(template), Some(p), AckOptions(ackName), env), k)
      else None
  {
    if n > 0 {
      AckResultsUpToGet(t, p, groups, template, ackName, env, n - 1, l, k);
      match GroupAtLevel(p, groups, n)
      case None =>
      case Some(g) =>
        var prev := AckResultsUpTo(t, p, groups, template, ackName, env, n - 1);
        var r := GroupResults(t, g, Some(template), Some(p), AckOptions(ackName), env);
        GroupResultsKeysUnique(t, g, Some(template), Some(p), AckOptions(ackName), env);
        PrefixedKeysUnique(n, r);
        GetUpdate(prev, Prefixed(n, r), LevelKey(l, k));
        PrefixedKeys(n, r, l, k);
        if l == n {
          GetPrefixed(n, r, k);
        }
    }
  }

  lemma AckResultsUpToStepKeys(t: TicketData, p: Project, groups: map<string, NotificationGroup>,
                               template: NotificationTemplate, ackName: string, env: Env, n: nat, key: string)
    requires 0 < n <= |p.groupIds|
    requires key in Keys(AckResultsUpTo(t, p, groups, template, ackName, env, n))
    ensures key in Keys(AckResultsUpTo(t, p, groups, template, ackName, env, n - 1)) || exists k :: key == LevelKey(n, k)
  {
    match GroupAtLevel(p, groups, n)
    case None =>
    case Some(g) =>
      var prev := AckResultsUpTo(t, p, groups, template, ackName, env, n - 1);
      var r := GroupResults(t, g, Some(template), Some(p), AckOptions(ackName), env);
      KeysUpdate(prev, Prefixed(n, r), key);
      if key !in Keys(prev) {
        PrefixedKeysAreLevelKeys(n, r, key);
      }
  }

  /** Every key the fan-out reports is `L{l}:{key}` for a level it reached. */
  lemma {:induction false} AckResultsUpToKeys(t: TicketData, p: Project, groups: map<string, NotificationGroup>,
                                              template: NotificationTemplate, ackName: string, env: Env, n: nat, key: string)
    requires n <= |p.groupIds|
    requires key in Keys(AckResultsUpTo(t, p, groups, template, ackName, env, n))
    ensures exists l: nat, k :: 1 <= l <= n && key == LevelKey(l, k)
  {
    if n > 0 {
      AckResultsUpToStepKeys(t, p, groups, template, ackName, env, n, key);
      if key in Keys(AckResultsUpTo(t, p, groups, template, ackName, env, n - 1)) {
        AckResultsUpToKeys(t, p, groups, template, ackName, env, n - 1, key);
        var l: nat, k :| 1 <= l <= n - 1 && key == LevelKey(l, k);
        assert 1 <= l <= n && key == LevelKey(l, k);
      } else {
        var k :| key == LevelKey(n, k);
        assert 1 <= n <= n && key == LevelKey(n, k);
      }
    }
  }

  /** The acknowledgement reaches the groups of levels 1..escalation_level
      that exist, each under its own `L{level}:` prefix, and only when the
      project asks for it. */
  lemma AckFanOut(t: TicketData, ackName: string, projects: map<string, Project>,
                  groups: map<string, NotificationGroup>, templates: seq<NotificationTemplate>, env: Env, l: nat, k: string)
    requires 1 <= l
    ensures var r := AckResults(t, ackName, projects, groups, templates, env);
      if t.projectId in projects && projects[t.projectId].notifyOnAck && l <= t.escalationLevel
         && GroupAtLevel(projects[t.projectId], groups, l).Some?
      then
        var p := projects[t.projectId];
        Get(r, LevelKey(l, k)) == Get(GroupResults(t, GroupAtLevel(p, groups, l).value, Some(TemplateForProject(p, templates)),
                                                   Some(p), AckOptions(ackName), env), k)
      else Get(r, LevelKey(l, k)).None?
  {
    if t.projectId in projects {
      var p := projects[t.projectId];
      if p.notifyOnAck && |p.groupIds| > 0 {
        AckResultsUpToGet(t, p, groups, TemplateForProject(p, templates), ackName, env, AckReach(t, p), l, k);
      }
    }
  }
}
