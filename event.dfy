/** The `Event` every channel's `send` receives. */
module ChannelEvents {
  import opened Common
  import opened Dicts
  import opened JsonValues

  /** `meta` carries what a channel needs besides the payload (ticket id,
      ack token, a rendered card). */
  datatype ChannelEvent = ChannelEvent(source: string, eventType: string, labels: Dict<string>, payload: Json, meta: Dict<Json>)

  /** A `meta` value used as text: absent is "", a string is itself; any
      other value is treated as malformed. */
  function MetaText(meta: Dict<Json>, key: string): (r: Outcome<string>)
    ensures key !in Keys(meta) ==> r == Value("")
  {
    match Get(meta, key)
    case None => Value("")
    case Some(v) => if v.JStr? then Value(v.s) else Raised
  }

  /** `meta.get(key, "") or default`: a falsy value gives the default. */
  function MetaTextOr(meta: Dict<Json>, key: string, default: string): (r: Outcome<string>)
    ensures r.Value? && key !in Keys(meta) ==> r.value == default
  {
    match Get(meta, key)
    case None => Value(default)
    case Some(v) =>
      if !Truthy(v) then Value(default)
      else if v.JStr? then Value(v.s)
      else Raised
  }

  /** "`k=v`" for at most the first `n` labels, as the ticket messages list them. */
  function LabelTerms(labels: Dict<string>, n: nat): (r: seq<string>)
    ensures |r| == if |labels| < n then |labels| else n
    ensures forall i :: 0 <= i < |r| ==> r[i] == "`" + labels[i].0 + "=" + labels[i].1 + "`"
  {
    var shown := Take(labels, n);
    seq(|shown|, i requires 0 <= i < |shown| => "`" + shown[i].0 + "=" + shown[i].1 + "`")
  }

  /** `meta.get("title", "") or event.payload.get("title", "Alert")`, as the
      f-strings show it (`str` of the value): the ticket's title, else the
      payload's, else "Alert". Only a payload that is not a dict raises. */
  function TicketTitle(e: ChannelEvent): (r: Outcome<string>)
    ensures r.Raised? <==> !Truthy(GetOr(e.meta, "title", JStr(""))) && !e.payload.JObj?
    ensures Truthy(GetOr(e.meta, "title", JStr(""))) ==> r == Value(PyStr(GetOr(e.meta, "title", JStr(""))))
    ensures !Truthy(GetOr(e.meta, "title", JStr(""))) && e.payload.JObj? ==>
      r == Value(PyStr(GetOr(e.payload.fields, "title", JStr("Alert"))))
    ensures "title" !in Keys(e.meta) && e.payload.JObj? && "title" !in Keys(e.payload.fields) ==> r == Value("Alert")
  {
    var metaTitle := GetOr(e.meta, "title", JStr(""));
    var title := if Truthy(metaTitle) then Value(metaTitle) else PyGet(e.payload, "title", JStr("Alert"));
    if title.Value? then Value(PyStr(title.value)) else Raised
  }

  /** The acknowledgement link the chat cards carry: it asks for the HTML answer. */
  function HtmlAckUrl(baseUrl: string, id: string, token: string): string {
    baseUrl + "/ack/" + id + "?token=" + token + "&format=html"
  }
}
