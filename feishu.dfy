/** The Feishu (Lark) webhook bot channel: it chooses one of four message
    formats for an event (a pre-rendered template card, the ticket card with
    its acknowledge button, the rich card of an alert group, plain text),
    signs the message when a secret is configured, and posts it. */
module FeishuChannel {
  import opened Common
  import opened Dicts
  import opened JsonValues
  import opened Alerts
  import opened ChannelEvents

  /** The `meta` key under which a rendered template card travels. */
  const TemplateCardKey := "template_card"

  /** One element of a card's body. `Div` is a text block whose `textTag`
      is "lark_md" or "plain_text". */
  datatype Element =
    | Div(textTag: string, content: string)
    | Hr
    | Note(content: string)
    | Action(buttons: seq<Button>)

  datatype Button = Button(caption: string, kind: string, url: string)

  datatype Header = Header(title: string, color: string)

  /** The message bodies. `TextBody` keeps the parts of the plain text
      message; their JSON serialisation is not modelled. */
  datatype Body =
    | CardBody(header: Header, elements: seq<Element>)
    | TemplateCardBody(card: Json)
    | TextBody(heading: string, labels: Dict<string>, payload: Json)

  /** The posted message: a body and, with a secret, the (timestamp, sign) pair. */
  datatype Message = Message(body: Body, signature: Option<(string, string)>)

  /** A configured bot. A missing secret is "". */
  datatype FeishuBot = FeishuBot(webhookUrl: string, secret: string)

  function NewFeishuBot(webhookUrl: string, secret: Option<string>): (b: FeishuBot)
    ensures b.secret == (if secret.Some? then secret.value else "")
    ensures Enabled(b) <==> webhookUrl != ""
  {
    FeishuBot(webhookUrl, if secret.Some? then secret.value else "")
  }

  predicate Enabled(b: FeishuBot) {
    b.webhookUrl != ""
  }

  // --------------------------------------------------- alert group card

  /** `_get_status_color`. */
  function StatusColor(status: AlertStatus): (r: string)
    ensures r == "red" <==> status == Firing
    ensures r != "red" ==> r == "green"
  {
    if status == Firing then "red" else "green"
  }

  function NameLine(a: Alert): Element {
    Div("lark_md", (if a.IsFiring() then "🔴" else "🟢") + " **" + a.name + "**")
  }

  function LabelLine(k: string, v: string): Element {
    Div("plain_text", "  • " + k + ": " + v)
  }

  /** `{k: v for k, v in labels.items() if k != "alertname"}`, in order. */
  function WithoutAlertname(labels: Dict<string>): (r: Dict<string>)
    ensures |r| <= |labels|
    ensures forall p :: p in r <==> p in labels && p.0 != "alertname"
    ensures forall i :: 0 <= i < |r| ==> r[i].0 != "alertname"
  {
    if labels == [] then []
    else
      var rest := WithoutAlertname(labels[..|labels| - 1]);
      var last := labels[|labels| - 1];
      assert labels == labels[..|labels| - 1] + [last];
      if last.0 != "alertname" then rest + [last] else rest
  }

  /** One plain-text line per label, in order. */
  function LabelLines(labels: Dict<string>): (r: seq<Element>)
    ensures |r| == |labels|
    ensures forall i :: 0 <= i < |r| ==> r[i] == LabelLine(labels[i].0, labels[i].1)
  {
    if labels == [] then []
    else LabelLines(labels[..|labels| - 1]) + [LabelLine(labels[|labels| - 1].0, labels[|labels| - 1].1)]
  }

  function LabelBlock(labels: Dict<string>): seq<Element> {
    var shown := WithoutAlertname(labels);
    if shown != [] then [Div("lark_md", "**标签:**")] + LabelLines(shown) else []
  }

  function SummaryLine(a: Alert): Element { Div("lark_md", "**摘要:** " + a.summary) }
  function DescriptionLine(a: Alert): Element { Div("lark_md", "**详情:** " + a.description) }
  function TimeLine(timeText: string): Element { Div("lark_md", "**触发时间:** " + timeText) }
  function LinkLine(a: Alert): Element { Div("lark_md", "[查看详情](" + a.generatorUrl + ")") }

  /** `[e] if b else []` */
  function Opt(b: bool, e: Element): (r: seq<Element>)
    ensures |r| == Bit(b)
  {
    if b then [e] else []
  }

  /** `_format_alert_element`, as a value; `timeText` is the start time
      already converted to local time and formatted. */
  function AlertElements(a: Alert, timeText: string): seq<Element> {
    [NameLine(a)] + Opt(a.summary != "", SummaryLine(a)) + Opt(a.description != "", DescriptionLine(a))
    + [TimeLine(timeText)] + LabelBlock(a.labels) + Opt(a.generatorUrl != "", LinkLine(a))
  }

  function Bit(b: bool): nat { if b then 1 else 0 }

  /** An alert's block opens with its name line, holds only text blocks, and
      has the summary, description and link lines exactly when those fields
      are non-empty, and a label heading plus one line per label other than
      "alertname" exactly when there is such a label. */
  lemma AlertElementsShape(a: Alert, timeText: string)
    ensures AlertElements(a, timeText)[0] == NameLine(a)
    ensures forall e :: e in AlertElements(a, timeText) ==> e.Div?
    ensures var shown := WithoutAlertname(a.labels);
      |AlertElements(a, timeText)| == 2 + Bit(a.summary != "") + Bit(a.description != "")
        + (if shown != [] then 1 + |shown| else 0) + Bit(a.generatorUrl != "")
  {
    var shown := WithoutAlertname(a.labels);
    var block := LabelBlock(a.labels);
    assert forall e :: e in LabelLines(shown) ==> e.Div?;
    assert forall e :: e in block ==> e.Div?;
    assert |block| == if shown != [] then 1 + |shown| else 0;
    var head := [NameLine(a)] + Opt(a.summary != "", SummaryLine(a)) + Opt(a.description != "", DescriptionLine(a))
                + [TimeLine(timeText)];
    assert forall e :: e in head ==> e.Div?;
    assert AlertElements(a, timeText) == head + block + Opt(a.generatorUrl != "", LinkLine(a));
  }

  /** `_format_alert_element`. */
  method FormatAlertElement(a: Alert, timeText: string) returns (elements: seq<Element>)
    ensures elements == AlertElements(a, timeText)
  {
    elements := [NameLine(a)];
    elements := AppendWhen(elements, a.summary != "", SummaryLine(a));
    elements := AppendWhen(elements, a.description != "", DescriptionLine(a));
    elements := elements + [TimeLine(timeText)];
    var block := FormatLabelBlock(a.labels);
    elements := elements + block;
    elements := AppendWhen(elements, a.generatorUrl != "", LinkLine(a));
  }

  /** The label part of `_format_alert_element`: a heading, then one line
      per label other than "alertname"; nothing when there is none. */
  method FormatLabelBlock(labels: Dict<string>) returns (block: seq<Element>)
    ensures block == LabelBlock(labels)
  {
    block := [];
    var shown := WithoutAlertname(labels);
    if shown != [] {
      block := AppendLabelLines([Div("lark_md", "**标签:**")], shown);
    }
  }

  /** `if cond: elements.append(e)` */
  method AppendWhen(prefix: seq<Element>, cond: bool, e: Element) returns (elements: seq<Element>)
    ensures elements == prefix + Opt(cond, e)
  {
    elements := prefix;
    if cond {
      elements := elements + [e];
    }
  }

  /** The inner loop of `_format_alert_element`: one line per label. */
  method AppendLabelLines(prefix: seq<Element>, labels: Dict<string>) returns (elements: seq<Element>)
    ensures elements == prefix + LabelLines(labels)
  {
    elements := prefix;
    for i := 0 to |labels|
      invariant elements == prefix + LabelLines(labels[..i])
    {
      assert labels[..i + 1][..i] == labels[..i];
      elements := elements + [LabelLine(labels[i].0, labels[i].1)];
    }
    assert labels[..|labels|] == labels;
  }

  /** The alerts' blocks, an `Hr` before every block but the first. */
  function AlertsElements(alerts: seq<Alert>, timeText: int -> string): seq<Element> {
    if alerts == [] then []
    else
      var last := alerts[|alerts| - 1];
      AlertsElements(alerts[..|alerts| - 1], timeText) + (if |alerts| > 1 then [Hr] else [])
      + AlertElements(last, timeText(last.startsAt))
  }

  function CountHr(es: seq<Element>): nat {
    if es == [] then 0 else CountHr(es[..|es| - 1]) + Bit(es[|es| - 1].Hr?)
  }

  lemma {:induction false} CountHrAppend(a: seq<Element>, b: seq<Element>)
    ensures CountHr(a + b) == CountHr(a) + CountHr(b)
    decreases |b|
  {
    if b != [] {
      assert (a + b)[..|a + b| - 1] == a + b[..|b| - 1];
      CountHrAppend(a, b[..|b| - 1]);
    } else {
      assert a + b == a;
    }
  }

  lemma {:induction false} NoHr(es: seq<Element>)
    requires forall e :: e in es ==> e.Div?
    ensures CountHr(es) == 0
    decreases |es|
  {
    if es != [] {
      assert es[|es| - 1] in es;
      assert forall e :: e in es[..|es| - 1] ==> e in es;
      NoHr(es[..|es| - 1]);
    }
  }

  /** Consecutive alerts are separated by exactly one `Hr` each, and none
      precedes the first alert. */
  lemma {:induction false} AlertSeparators(alerts: seq<Alert>, timeText: int -> string)
    ensures CountHr(AlertsElements(alerts, timeText)) == if alerts == [] then 0 else |alerts| - 1
    ensures alerts != [] ==> AlertsElements(alerts, timeText)[0] == NameLine(alerts[0])
    decreases |alerts|
  {
    if alerts != [] {
      var init := alerts[..|alerts| - 1];
      var last := alerts[|alerts| - 1];
      AlertSeparators(init, timeText);
      AlertElementsShape(last, timeText(last.startsAt));
      NoHr(AlertElements(last, timeText(last.startsAt)));
      var sep: seq<Element> := if |alerts| > 1 then [Hr] else [];
      CountHrAppend(AlertsElements(init, timeText), sep);
      CountHrAppend(AlertsElements(init, timeText) + sep, AlertElements(last, timeText(last.startsAt)));
      assert CountHr(sep) == Bit(|alerts| > 1) by {
        if |alerts| > 1 {
          assert sep[..0] == [];
        }
      }
      AlertsElementsFirst(alerts, timeText);
    }
  }

  lemma {:induction false} AlertsElementsFirst(alerts: seq<Alert>, timeText: int -> string)
    requires alerts != []
    ensures |AlertsElements(alerts, timeText)| > 0 && AlertsElements(alerts, timeText)[0] == NameLine(alerts[0])
    decreases |alerts|
  {
    var init := alerts[..|alerts| - 1];
    var last := alerts[|alerts| - 1];
    if |alerts| > 1 {
      AlertsElementsFirst(init, timeText);
      assert init[0] == alerts[0];
    } else {
      assert AlertsElements(init, timeText) == [];
      assert AlertElements(last, timeText(last.startsAt))[0] == NameLine(last);
    }
  }

  function CardTitle(g: AlertGroup): string {
    (if g.status == Firing then "🚨" else "✅") + " "
    + (if g.alerts != [] then g.alerts[0].name else "Unknown")
    + " - " + (if g.status == Firing then "告警触发" else "告警恢复")
  }

  function Footer(g: AlertGroup): string {
    "来源: " + g.source + " | 触发: " + NatToString(|g.FiringAlerts()|) + " | 恢复: " + NatToString(|g.ResolvedAlerts()|)
  }

  /** `_build_card_message`, as a value. */
  function GroupCard(g: AlertGroup, timeText: int -> string): Body {
    CardBody(Header(CardTitle(g), StatusColor(g.status)), AlertsElements(g.alerts, timeText) + [Hr, Note(Footer(g))])
  }

  lemma AlertsElementsSnoc(alerts: seq<Alert>, i: nat, timeText: int -> string)
    requires i < |alerts|
    ensures AlertsElements(alerts[..i + 1], timeText)
      == AlertsElements(alerts[..i], timeText) + (if i > 0 then [Hr] else [])
         + AlertElements(alerts[i], timeText(alerts[i].startsAt))
  {
    var prefix := alerts[..i + 1];
    assert prefix[..|prefix| - 1] == alerts[..i];
    assert prefix[|prefix| - 1] == alerts[i];
  }

  /** `_build_card_message`. */
  method BuildCardMessage(g: AlertGroup, timeText: int -> string) returns (body: Body)
    ensures body == GroupCard(g, timeText)
  {
    var elements: seq<Element> := [];
    for i := 0 to |g.alerts|
      invariant elements == AlertsElements(g.alerts[..i], timeText)
    {
      AlertsElementsSnoc(g.alerts, i, timeText);
      var block := FormatAlertElement(g.alerts[i], timeText(g.alerts[i].startsAt));
      if i > 0 {
        elements := elements + [Hr] + block;
      } else {
        elements := elements + block;
      }
    }
    assert g.alerts[..|g.alerts|] == g.alerts;
    elements := elements + [Hr, Note(Footer(g))];
    body := CardBody(Header(CardTitle(g), StatusColor(g.status)), elements);
  }

  /** The card's header names the first alert ("Unknown" for none) and is
      red exactly when the group fires; its body ends with a rule and the
      footer that counts firing and resolved alerts. */
  lemma GroupCardShape(g: AlertGroup, timeText: int -> string)
    ensures var b := GroupCard(g, timeText);
      && b.header.title == CardTitle(g)
      && (b.header.color == "red" <==> g.status == Firing)
      && |b.elements| >= 2 && b.elements[|b.elements| - 2] == Hr
      && b.elements[|b.elements| - 1] == Note(Footer(g))
    ensures g.alerts == [] ==> CardTitle(g) == (if g.status == Firing then "🚨" else "✅") + " Unknown - "
                                                + (if g.status == Firing then "告警触发" else "告警恢复")
  {
  }

  // ----------------------------------------------------------- ticket card

  /** The severity colour, case-insensitive, "blue" for anything unknown. */
  function SeverityColor(severity: string): (r: string)
    ensures r == "red" <==> Lower(severity) in {"critical", "error"}
    ensures r == "orange" <==> Lower(severity) == "warning"
    ensures r == "blue" <==> Lower(severity) !in {"critical", "error", "warning"}
  {
    var s := Lower(severity);
    if s == "critical" || s == "error" then "red"
    else if s == "warning" then "orange"
    else "blue"
  }

  lemma SeverityColorIgnoresCase(severity: string)
    ensures SeverityColor(severity) == SeverityColor(Lower(severity))
  {
    LowerIdempotent(severity);
  }

  function TicketElements(description: string, labels: Dict<string>, ackUrl: string, detailUrl: string,
                          source: string, id: string): seq<Element> {
    (if description != "" then [Div("lark_md", Take(description, 500))] else [])
    + (if labels != [] then [Div("lark_md", "**标签:** " + Join(" | ", LabelTerms(labels, 5)))] else [])
    + [Hr, Action([Button("✅ 确认工单", "primary", ackUrl), Button("📋 查看详情", "default", detailUrl)])]
    + [Note("来源: " + source + " | Ticket: " + Take(id, 8) + "...")]
  }

  /** `_build_ticket_card`: title from `meta`, else from the payload, else
      "Alert"; the description is cut to 500 characters; severity "info"
      when missing. */
  function TicketCard(e: ChannelEvent, baseUrl: string): (r: Outcome<Body>) {
    match (MetaText(e.meta, "ticket_id"), MetaText(e.meta, "ack_token"), MetaTextOr(e.meta, "description", ""),
           MetaTextOr(e.meta, "severity", "info"))
    case (Value(id), Value(token), Value(description), Value(severity)) =>
      (match TicketTitle(e)
       case Value(title) =>
        Value(CardBody(Header("🔔 " + title, SeverityColor(severity)),
                       TicketElements(description, e.labels, HtmlAckUrl(baseUrl, id, token),
                                      baseUrl + "/tickets/" + id, e.source, id)))
       case Raised => Raised)
    case _ => Raised
  }

  /** The ticket card's bounds: its description block holds at most 500
      characters, its label line at most five labels, and it always carries
      the acknowledge button pointing at the ticket's link. */
  lemma TicketCardBounds(e: ChannelEvent, baseUrl: string)
    ensures TicketCard(e, baseUrl).Value? ==>
      var b := TicketCard(e, baseUrl).value;
      && b.CardBody?
      && (MetaTextOr(e.meta, "description", "").value != "" ==>
            b.elements[0] == Div("lark_md", Take(MetaTextOr(e.meta, "description", "").value, 500))
            && |b.elements[0].content| <= 500)
      && Action([Button("✅ 确认工单", "primary", HtmlAckUrl(baseUrl, MetaText(e.meta, "ticket_id").value,
                                                              MetaText(e.meta, "ack_token").value)),
                 Button("📋 查看详情", "default", baseUrl + "/tickets/" + MetaText(e.meta, "ticket_id").value)])
         in b.elements
    ensures |LabelTerms(e.labels, 5)| <= 5
  {
  }

  function TextHeading(e: ChannelEvent): string {
    "[" + Upper(e.source) + "] " + (if e.eventType != "" then e.eventType else "event")
  }

  // ------------------------------------------------------------------ send

  /** The message format `send` chooses, in order: a truthy template card
      (a dict is used as is, anything else falls back to the ticket card);
      a truthy ticket id gives the ticket card; an "alert" event whose
      payload validates as an alert group gives the rich card; otherwise
      plain text. `validate` stands for `AlertGroup.model_validate`. */
  function ChooseBody(e: ChannelEvent, baseUrl: string, validate: Json -> Option<AlertGroup>,
                      timeText: int -> string): (r: Outcome<Body>)
  {
    var card := GetOr(e.meta, TemplateCardKey, JNull);
    if Truthy(card) then
      if card.JObj? then Value(TemplateCardBody(card)) else TicketCard(e, baseUrl)
    else if Truthy(GetOr(e.meta, "ticket_id", JNull)) then TicketCard(e, baseUrl)
    else if e.eventType == "alert" then
      match validate(e.payload)
      case Some(g) => Value(GroupCard(g, timeText))
      case None => Value(TextBody(TextHeading(e), e.labels, e.payload))
    else Value(TextBody(TextHeading(e), e.labels, e.payload))
  }

  /** The selection order: a template card beats a ticket id, which beats
      the event type; an event with neither meta key nor "alert" type is
      sent as text. */
  lemma SelectionOrder(e: ChannelEvent, baseUrl: string, validate: Json -> Option<AlertGroup>, timeText: int -> string)
    ensures GetOr(e.meta, TemplateCardKey, JNull).JObj? && Truthy(GetOr(e.meta, TemplateCardKey, JNull)) ==>
      ChooseBody(e, baseUrl, validate, timeText) == Value(TemplateCardBody(GetOr(e.meta, TemplateCardKey, JNull)))
    ensures !Truthy(GetOr(e.meta, TemplateCardKey, JNull)) && Truthy(GetOr(e.meta, "ticket_id", JNull)) ==>
      ChooseBody(e, baseUrl, validate, timeText) == TicketCard(e, baseUrl)
    ensures TemplateCardKey !in Keys(e.meta) && "ticket_id" !in Keys(e.meta) && e.eventType != "alert" ==>
      ChooseBody(e, baseUrl, validate, timeText) == Value(TextBody(TextHeading(e), e.labels, e.payload))
    ensures ChooseBody(e, baseUrl, validate, timeText).Value? && ChooseBody(e, baseUrl, validate, timeText).value.TextBody? ==>
      e.eventType != "alert" || validate(e.payload).None?
  {
  }

  /** The timestamp and signature are added only when a secret is configured;
      `sign` stands for the HMAC-SHA256 of "timestamp\nsecret", base64-encoded. */
  function Signed(bot: FeishuBot, body: Body, timestamp: string, sign: (string, string) -> string): (m: Message)
    ensures m.body == body
    ensures m.signature.Some? <==> bot.secret != ""
    ensures m.signature.Some? ==> m.signature.value == (timestamp, sign(timestamp, bot.secret))
  {
    Message(body, if bot.secret != "" then Some((timestamp, sign(timestamp, bot.secret))) else None)
  }

  /** `send`: `post` stands for the HTTP post and its `raise_for_status`,
      giving the response's `code` or raising. Success is code 0. */
  function Send(bot: FeishuBot, e: ChannelEvent, baseUrl: string, validate: Json -> Option<AlertGroup>,
                timeText: int -> string, timestamp: string, sign: (string, string) -> string,
                post: (string, Message) -> Outcome<int>): (r: Outcome<bool>)
    ensures r == Value(true) ==>
      ChooseBody(e, baseUrl, validate, timeText).Value?
      && post(bot.webhookUrl, Signed(bot, ChooseBody(e, baseUrl, validate, timeText).value, timestamp, sign)) == Value(0)
  {
    match ChooseBody(e, baseUrl, validate, timeText)
    case Raised => Raised
    case Value(body) =>
      match post(bot.webhookUrl, Signed(bot, body, timestamp, sign))
      case Raised => Raised
      case Value(code) => Value(code == 0)
  }
}
