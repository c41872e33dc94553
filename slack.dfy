/** The Slack incoming-webhook channel: pre-rendered template blocks, the
    ticket's Block Kit message with its acknowledge button, or plain text,
    posted to the webhook URL. */
module SlackChannel {
  import opened Common
  import opened Dicts
  import opened JsonValues
  import opened ChannelEvents

  /** The `meta` key under which rendered Slack blocks travel. */
  const TemplateBlocksKey := "template_slack_blocks"
  const DefaultFallback := "Notification"

  datatype Button = Button(caption: string, style: Option<string>, url: string)

  /** The Block Kit blocks of the ticket message. */
  datatype Block =
    | HeaderBlock(text: string)
    | SectionBlock(markdown: string)
    | DividerBlock
    | ActionsBlock(buttons: seq<Button>)
    | ContextBlock(markdown: string)

  /** The posted message. Template blocks are kept as the decoded JSON they
      arrived as; the fallback text of a template message is whatever value
      its first header or section held. The plain text message keeps its
      parts; their JSON serialisation is not modelled. */
  datatype SlackMessage =
    | TicketMessage(fallback: string, blocks: seq<Block>)
    | TemplateMessage(templateFallback: Json, templateBlocks: seq<Json>)
    | TextMessage(heading: string, labels: Dict<string>, payload: Json)

  predicate Enabled(webhookUrl: string) {
    webhookUrl != ""
  }

  /** `_get_severity_emoji`: case-insensitive, "🔵" for anything unknown. */
  function SeverityEmoji(severity: string): (r: string)
    ensures r == "🔴" <==> Lower(severity) in {"critical", "error"}
    ensures r == "🟠" <==> Lower(severity) == "warning"
    ensures r == "🔵" <==> Lower(severity) !in {"critical", "error", "warning"}
  {
    var s := Lower(severity);
    if s == "critical" || s == "error" then "🔴"
    else if s == "warning" then "🟠"
    else "🔵"
  }

  lemma SeverityEmojiIgnoresCase(severity: string)
    ensures SeverityEmoji(severity) == SeverityEmoji(Lower(severity))
  {
    LowerIdempotent(severity);
  }

  // ------------------------------------------------------- ticket blocks

  /** The footer: the ticket id prefix appears only when there is an id. */
  function TicketFooter(source: string, id: string): (r: string)
    ensures id == "" ==> r == "Source: " + source
  {
    if id != "" then "Source: " + source + " | Ticket: " + Take(id, 8) + "..." else "Source: " + source
  }

  function TicketBlocks(title: string, description: string, labels: Dict<string>, severity: string,
                        ackUrl: string, detailUrl: string, source: string, id: string): seq<Block> {
    [HeaderBlock(SeverityEmoji(severity) + " " + title)]
    + (if description != "" then [SectionBlock(Take(description, 2000))] else [])
    + (if labels != [] then [SectionBlock("*Labels:* " + Join(" | ", LabelTerms(labels, 10)))] else [])
    + [DividerBlock,
       ActionsBlock([Button("✅ Acknowledge", Some("primary"), ackUrl), Button("📋 View Details", None, detailUrl)]),
       ContextBlock(TicketFooter(source, id))]
  }

  /** `_build_ticket_blocks`: the fallback text repeats the header. */
  function TicketBlocksMessage(e: ChannelEvent, baseUrl: string): (r: Outcome<SlackMessage>) {
    match (MetaText(e.meta, "ticket_id"), MetaText(e.meta, "ack_token"), MetaTextOr(e.meta, "description", ""),
           MetaTextOr(e.meta, "severity", "info"), TicketTitle(e))
    case (Value(id), Value(token), Value(description), Value(severity), Value(title)) =>
      Value(TicketMessage(SeverityEmoji(severity) + " " + title,
                          TicketBlocks(title, description, e.labels, severity, HtmlAckUrl(baseUrl, id, token),
                                       baseUrl + "/tickets/" + id, e.source, id)))
    case _ => Raised
  }

  /** The ticket message opens with its header, which is also the fallback
      text; the description section holds at most 2000 characters, the label
      section at most ten labels; and the acknowledge button carries the
      ticket's link. */
  lemma TicketBlocksBounds(e: ChannelEvent, baseUrl: string)
    ensures TicketBlocksMessage(e, baseUrl).Value? ==>
      var m := TicketBlocksMessage(e, baseUrl).value;
      var description := MetaTextOr(e.meta, "description", "").value;
      && m.TicketMessage? && m.blocks[0] == HeaderBlock(m.fallback)
      && (description != "" ==> m.blocks[1] == SectionBlock(Take(description, 2000)) && |m.blocks[1].markdown| <= 2000)
      && ActionsBlock([Button("✅ Acknowledge", Some("primary"),
                              HtmlAckUrl(baseUrl, MetaText(e.meta, "ticket_id").value, MetaText(e.meta, "ack_token").value)),
                       Button("📋 View Details", None, baseUrl + "/tickets/" + MetaText(e.meta, "ticket_id").value)])
         in m.blocks
    ensures |LabelTerms(e.labels, 10)| <= 10
  {
    if TicketBlocksMessage(e, baseUrl).Value? {
      var id := MetaText(e.meta, "ticket_id").value;
      var token := MetaText(e.meta, "ack_token").value;
      var description := MetaTextOr(e.meta, "description", "").value;
      var severity := MetaTextOr(e.meta, "severity", "info").value;
      TicketBlocksShape(TicketTitle(e).value, description, e.labels, severity, HtmlAckUrl(baseUrl, id, token),
                        baseUrl + "/tickets/" + id, e.source, id);
    }
  }

  lemma TicketBlocksShape(title: string, description: string, labels: Dict<string>, severity: string,
                          ackUrl: string, detailUrl: string, source: string, id: string)
    ensures var blocks := TicketBlocks(title, description, labels, severity, ackUrl, detailUrl, source, id);
      && blocks[0] == HeaderBlock(SeverityEmoji(severity) + " " + title)
      && (description != "" ==> blocks[1] == SectionBlock(Take(description, 2000)))
      && blocks[|blocks| - 2] == ActionsBlock([Button("✅ Acknowledge", Some("primary"), ackUrl),
                                               Button("📋 View Details", None, detailUrl)])
  {
  }

  // ----------------------------------------------------- template blocks

  /** `value[:100]`: strings and lists are cut, anything else raises. */
  function Cut100(j: Json): (r: Outcome<Json>)
    ensures j.JStr? ==> r == Value(JStr(Take(j.s, 100)))
    ensures r.Raised? <==> !(j.JStr? || j.JArr?)
  {
    match j
    case JStr(s) => Value(JStr(Take(s, 100)))
    case JArr(xs) => Value(JArr(Take(xs, 100)))
    case _ => Raised
  }

  /** `block.get("text", {}).get("text", fallback)`; raises on a non-dict. */
  function BlockText(block: Json, fallback: Json): Outcome<Json> {
    match PyGet(block, "text", JObj([]))
    case Raised => Raised
    case Value(textObj) => PyGet(textObj, "text", fallback)
  }

  /** The fallback text of template blocks: the first header's text, or the
      first section's text cut to 100 characters, whichever comes first;
      "Notification" when there is neither. */
  function TemplateFallback(blocks: seq<Json>): (r: Outcome<Json>)
    ensures blocks == [] ==> r == Value(JStr(DefaultFallback))
  {
    if blocks == [] then Value(JStr(DefaultFallback))
    else
      var b := blocks[0];
      if !b.JObj? then Raised
      else
        var kind := GetOr(b.fields, "type", JNull);
        if kind == JStr("header") then BlockText(b, JStr(DefaultFallback))
        else if kind == JStr("section") then
          match BlockText(b, JStr(DefaultFallback))
          case Raised => Raised
          case Value(t) => Cut100(t)
        else TemplateFallback(blocks[1..])
  }

  /** The loop of `_build_blocks_from_template`, which stops at the first
      header or section. */
  method FindFallback(blocks: seq<Json>) returns (r: Outcome<Json>)
    ensures r == TemplateFallback(blocks)
  {
    var fallback := JStr(DefaultFallback);
    var i := 0;
    while i < |blocks|
      invariant 0 <= i <= |blocks|
      invariant TemplateFallback(blocks) == TemplateFallback(blocks[i..])
    {
      var block := blocks[i];
      assert blocks[i..][0] == block && blocks[i..][1..] == blocks[i + 1..];
      if !block.JObj? {
        return Raised;
      }
      var kind := GetOr(block.fields, "type", JNull);
      if kind == JStr("header") {
        return BlockText(block, fallback);
      } else if kind == JStr("section") {
        var t := BlockText(block, fallback);
        if t.Raised? {
          return Raised;
        }
        return Cut100(t.value);
      }
      i := i + 1;
    }
    assert blocks[i..] == [];
    r := Value(fallback);
  }

  /** `_build_blocks_from_template`: the blocks go out unchanged. */
  function TemplateBlocksMessage(blocks: seq<Json>): (r: Outcome<SlackMessage>)
    ensures r.Raised? <==> TemplateFallback(blocks).Raised?
    ensures r.Value? ==>
      r.value.TemplateMessage? && r.value.templateBlocks == blocks && TemplateFallback(blocks) == Value(r.value.templateFallback)
  {
    match TemplateFallback(blocks)
    case Raised => Raised
    case Value(f) => Value(TemplateMessage(f, blocks))
  }

  /** A dict block that is neither a header nor a section. */
  predicate OtherBlock(b: Json) {
    b.JObj? && GetOr(b.fields, "type", JNull) != JStr("header") && GetOr(b.fields, "type", JNull) != JStr("section")
  }

  /** A header's text is taken whole, a section's is cut to 100 characters,
      and blocks of other types before them are skipped. */
  lemma FallbackFromFirstTextBlock(others: seq<Json>, b: Json, rest: seq<Json>)
    requires forall i :: 0 <= i < |others| ==> OtherBlock(others[i])
    requires b.JObj? && GetOr(b.fields, "text", JObj([])).JObj?
    ensures GetOr(b.fields, "type", JNull) == JStr("header") ==>
      TemplateFallback(others + [b] + rest) == Value(GetOr(GetOr(b.fields, "text", JObj([])).fields, "text", JStr(DefaultFallback)))
    ensures GetOr(b.fields, "type", JNull) == JStr("section") ==>
      TemplateFallback(others + [b] + rest) == Cut100(GetOr(GetOr(b.fields, "text", JObj([])).fields, "text", JStr(DefaultFallback)))
  {
    SkipOthers(others, [b] + rest);
    assert others + [b] + rest == others + ([b] + rest);
  }

  lemma {:induction false} SkipOthers(others: seq<Json>, tail: seq<Json>)
    requires forall i :: 0 <= i < |others| ==> OtherBlock(others[i])
    ensures TemplateFallback(others + tail) == TemplateFallback(tail)
    decreases |others|
  {
    if others == [] {
      assert others + tail == tail;
    } else {
      assert OtherBlock(others[0]);
      assert forall i :: 0 <= i < |others[1..]| ==> OtherBlock(others[1..][i]) by {
        forall i | 0 <= i < |others[1..]| ensures OtherBlock(others[1..][i]) {
          assert others[1..][i] == others[i + 1];
        }
      }
      assert (others + tail)[0] == others[0];
      assert (others + tail)[1..] == others[1..] + tail;
      SkipOthers(others[1..], tail);
    }
  }

  // ------------------------------------------------------------------ send

  function TextHeading(e: ChannelEvent): string {
    "*[" + Upper(e.source) + "]* " + (if e.eventType != "" then e.eventType else "event")
  }

  /** The message format: truthy template blocks (a list is used as is,
      anything else falls back to the ticket blocks), then a truthy ticket
      id, then plain text. */
  function ChooseMessage(e: ChannelEvent, baseUrl: string): (r: Outcome<SlackMessage>)
    ensures Truthy(GetOr(e.meta, TemplateBlocksKey, JNull)) && GetOr(e.meta, TemplateBlocksKey, JNull).JArr? ==>
      r == TemplateBlocksMessage(GetOr(e.meta, TemplateBlocksKey, JNull).items)
    ensures !Truthy(GetOr(e.meta, TemplateBlocksKey, JNull)) && Truthy(GetOr(e.meta, "ticket_id", JNull)) ==>
      r == TicketBlocksMessage(e, baseUrl)
    ensures !Truthy(GetOr(e.meta, TemplateBlocksKey, JNull)) && !Truthy(GetOr(e.meta, "ticket_id", JNull)) ==>
      r == Value(TextMessage(TextHeading(e), e.labels, e.payload))
  {
    var blocks := GetOr(e.meta, TemplateBlocksKey, JNull);
    if Truthy(blocks) then
      if blocks.JArr? then TemplateBlocksMessage(blocks.items) else TicketBlocksMessage(e, baseUrl)
    else if Truthy(GetOr(e.meta, "ticket_id", JNull)) then TicketBlocksMessage(e, baseUrl)
    else Value(TextMessage(TextHeading(e), e.labels, e.payload))
  }

  /** `send`: false without posting when no webhook URL is configured;
      `post` stands for the HTTP post and its `raise_for_status`, giving the
      response text or raising. Success is the text "ok" exactly. */
  function Send(webhookUrl: string, e: ChannelEvent, baseUrl: string,
                post: (string, SlackMessage) -> Outcome<string>): (r: Outcome<bool>)
    ensures !Enabled(webhookUrl) ==> r == Value(false)
    ensures r == Value(true) <==>
      Enabled(webhookUrl) && ChooseMessage(e, baseUrl).Value? && post(webhookUrl, ChooseMessage(e, baseUrl).value) == Value("ok")
  {
    if !Enabled(webhookUrl) then Value(false)
    else
      match ChooseMessage(e, baseUrl)
      case Raised => Raised
      case Value(m) =>
        match post(webhookUrl, m)
        case Raised => Raised
        case Value(text) => Value(text == "ok")
  }
}
