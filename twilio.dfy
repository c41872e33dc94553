/** The Twilio SMS channel: a short text message, cut to fit one SMS, sent
    to every configured number in turn. The Twilio client is the oracle
    `create(body, from, to)`, true when Twilio accepted the message and false
    when the call raised. */
module TwilioChannel {
  import opened Common
  import opened Dicts
  import opened JsonValues
  import opened ChannelEvents

  const DefaultName := "twilio_sms"
  /** The longest message sent unchanged. */
  const SmsLimit := 155
  /** How much of a longer message is kept before "...". */
  const KeptPrefix := 152

  /** The credentials of the application settings. */
  datatype TwilioSettings = TwilioSettings(accountSid: string, authToken: string, fromNumber: string)

  datatype TwilioSms = TwilioSms(accountSid: string, authToken: string, fromNumber: string,
                                 toNumbers: seq<string>, name: string, messageOverride: Option<string>)

  /** The constructor: an empty credential falls back to the settings' one. */
  function NewTwilioSms(accountSid: string, authToken: string, fromNumber: string, toNumbers: seq<string>,
                        name: string, messageOverride: Option<string>, settings: TwilioSettings): TwilioSms {
    TwilioSms(if accountSid != "" then accountSid else settings.accountSid,
              if authToken != "" then authToken else settings.authToken,
              if fromNumber != "" then fromNumber else settings.fromNumber,
              toNumbers, name, messageOverride)
  }

  predicate Enabled(ch: TwilioSms) {
    ch.accountSid != "" && ch.authToken != "" && ch.fromNumber != ""
  }

  /** A channel is configured exactly when each credential is given either
      explicitly or by the settings. */
  lemma ConfiguredFromEitherSource(accountSid: string, authToken: string, fromNumber: string, toNumbers: seq<string>,
                                   name: string, messageOverride: Option<string>, settings: TwilioSettings)
    ensures Enabled(NewTwilioSms(accountSid, authToken, fromNumber, toNumbers, name, messageOverride, settings)) <==>
      (accountSid != "" || settings.accountSid != "") && (authToken != "" || settings.authToken != "")
      && (fromNumber != "" || settings.fromNumber != "")
  {
  }

  // ------------------------------------------------------------ message

  /** The title falls back to the first alert: the payload's "title" is
      falsy and its "alerts" is present and truthy. */
  predicate UsesFirstAlert(payload: Json)
    requires payload.JObj?
  {
    !Truthy(GetOr(payload.fields, "title", JStr(""))) && "alerts" in Keys(payload.fields)
    && Truthy(GetOr(payload.fields, "alerts", JNull))
  }

  /** `alert = payload["alerts"][0]` and then `alert.get("name", "") or
      alert.get("summary", "")`, as the f-string shows it. Indexing raises
      unless the truthy "alerts" is a list (a string's character and a number
      have no `get`, a dict has no key 0), and a non-dict alert has no `get`. */
  function FirstAlertTitle(alerts: Json): (r: Outcome<string>)
    requires Truthy(alerts)
    ensures r.Raised? <==> !alerts.JArr? || !alerts.items[0].JObj?
    ensures alerts.JArr? && alerts.items[0].JObj? ==>
      var alert := alerts.items[0].fields;
      r == Value(PyStr(if Truthy(GetOr(alert, "name", JStr(""))) then GetOr(alert, "name", JStr(""))
                       else GetOr(alert, "summary", JStr(""))))
  {
    if !alerts.JArr? then Raised
    else
      match PyGet(alerts.items[0], "name", JStr(""))
      case Raised => Raised
      case Value(name) =>
        if Truthy(name) then Value(PyStr(name))
        else
          match PyGet(alerts.items[0], "summary", JStr(""))
          case Raised => Raised
          case Value(summary) => Value(PyStr(summary))
  }

  /** The message title, as the f-string shows it (`str` of the value): the
      payload's "title"; if that is falsy and "alerts" is truthy, the first
      alert's name, or its summary when the name is falsy. */
  function SmsTitle(payload: Json): (r: Outcome<string>)
    ensures r.Raised? <==>
      !payload.JObj? || (UsesFirstAlert(payload) && FirstAlertTitle(GetOr(payload.fields, "alerts", JNull)).Raised?)
    ensures payload.JObj? && !UsesFirstAlert(payload) ==> r == Value(PyStr(GetOr(payload.fields, "title", JStr(""))))
    ensures payload.JObj? && UsesFirstAlert(payload) ==> r == FirstAlertTitle(GetOr(payload.fields, "alerts", JNull))
  {
    if !payload.JObj? then Raised
    else if UsesFirstAlert(payload) then FirstAlertTitle(GetOr(payload.fields, "alerts", JNull))
    else Value(PyStr(GetOr(payload.fields, "title", JStr(""))))
  }

  /** A title that is not a string is shown, not refused: a `null` title with
      no alerts reads "None". */
  lemma NullTitleReadsNone()
    ensures SmsTitle(JObj([("title", JNull)])) == Value("None")
  {
    assert !UsesFirstAlert(JObj([("title", JNull)]));
  }

  /** `", ".join(f"{k}={v}" ...)` over the first three labels. */
  function LabelText(labels: Dict<string>): string {
    var shown := Take(labels, 3);
    Join(", ", seq(|shown|, i requires 0 <= i < |shown| => shown[i].0 + "=" + shown[i].1))
  }

  /** The message before truncation: "[source] title", then the labels
      after " | " when there are any. */
  function FullMessage(source: string, title: string, labels: Dict<string>): (r: string)
    ensures labels == [] ==> r == "[" + source + "] " + title
    ensures labels != [] ==> r == "[" + source + "] " + title + " | " + LabelText(labels)
  {
    var parts := ["[" + source + "] " + title] + (if labels != [] then [LabelText(labels)] else []);
    assert labels != [] ==> Join(" | ", parts) == parts[0] + " | " + LabelText(labels) by {
      if labels != [] {
        assert parts[1..] == [LabelText(labels)];
      }
    }
    Join(" | ", parts)
  }

  /** Only the first three labels reach the message. */
  lemma OnlyThreeLabels(labels: Dict<string>, more: Dict<string>)
    requires |labels| >= 3
    ensures LabelText(labels + more) == LabelText(labels)
  {
    assert Take(labels + more, 3) == Take(labels, 3);
  }

  /** The SMS limit: a message longer than 155 characters keeps its first
      152 and ends in "...". */
  function Truncate(m: string): (r: string)
    ensures |r| <= SmsLimit
    ensures |m| <= SmsLimit ==> r == m
    ensures |m| > SmsLimit ==> |r| == SmsLimit && r[..KeptPrefix] == m[..KeptPrefix] && r[KeptPrefix..] == "..."
  {
    if |m| > SmsLimit then m[..KeptPrefix] + "..." else m
  }

  /** Cutting twice cuts no more than cutting once. */
  lemma TruncateIdempotent(m: string)
    ensures Truncate(Truncate(m)) == Truncate(m)
  {
  }

  /** `_format_message`: an empty source reads "unknown". */
  function FormatMessage(e: ChannelEvent): (r: Outcome<string>)
    ensures r.Value? ==> |r.value| <= SmsLimit
    ensures r.Raised? <==> SmsTitle(e.payload).Raised?
  {
    match SmsTitle(e.payload)
    case Raised => Raised
    case Value(title) => Value(Truncate(FullMessage(if e.source != "" then e.source else "unknown", title, e.labels)))
  }

  /** What is sent: a non-empty override replaces the formatted message. */
  function MessageBody(ch: TwilioSms, e: ChannelEvent): (r: Outcome<string>)
    ensures ch.messageOverride.Some? && ch.messageOverride.value != "" ==> r == Value(ch.messageOverride.value)
    ensures ch.messageOverride.None? || ch.messageOverride.value == "" ==> r == FormatMessage(e)
  {
    if ch.messageOverride.Some? && ch.messageOverride.value != "" then Value(ch.messageOverride.value)
    else FormatMessage(e)
  }

  // --------------------------------------------------------------- send

  /** How many of `numbers` Twilio accepted the message for. */
  function Delivered(body: string, from: string, numbers: seq<string>, create: (string, string, string) -> bool): (n: nat)
    ensures n <= |numbers|
  {
    if numbers == [] then 0
    else Delivered(body, from, numbers[..|numbers| - 1], create) + (if create(body, from, numbers[|numbers| - 1]) then 1 else 0)
  }

  /** Some message went out exactly when some recipient accepted one: a
      failure for one number does not keep the others from being tried. */
  lemma {:induction false} DeliveredPositive(body: string, from: string, numbers: seq<string>, create: (string, string, string) -> bool)
    ensures Delivered(body, from, numbers, create) > 0 <==> exists i :: 0 <= i < |numbers| && create(body, from, numbers[i])
  {
    if numbers != [] {
      var init := numbers[..|numbers| - 1];
      DeliveredPositive(body, from, init, create);
      if exists i :: 0 <= i < |numbers| && create(body, from, numbers[i]) {
        var i :| 0 <= i < |numbers| && create(body, from, numbers[i]);
        if i < |init| {
          assert init[i] == numbers[i];
        }
      }
      if exists i :: 0 <= i < |init| && create(body, from, init[i]) {
        var i :| 0 <= i < |init| && create(body, from, init[i]);
        assert numbers[i] == init[i];
      }
    }
  }

  /** `send`: false without sending when unconfigured or with no recipients;
      otherwise every number is tried in order and the result is whether
      at least one message went out. A failing message format raises. */
  method Send(ch: TwilioSms, e: ChannelEvent, create: (string, string, string) -> bool) returns (r: Outcome<bool>)
    ensures !Enabled(ch) || ch.toNumbers == [] ==> r == Value(false)
    ensures Enabled(ch) && ch.toNumbers != [] ==>
      r == match MessageBody(ch, e)
           case Raised => Raised
           case Value(body) => Value(Delivered(body, ch.fromNumber, ch.toNumbers, create) > 0)
  {
    if !Enabled(ch) {
      return Value(false);
    }
    if ch.toNumbers == [] {
      return Value(false);
    }
    var body := MessageBody(ch, e);
    if body.Raised? {
      return Raised;
    }
    var successCount := 0;
    for i := 0 to |ch.toNumbers|
      invariant successCount == Delivered(body.value, ch.fromNumber, ch.toNumbers[..i], create)
    {
      assert ch.toNumbers[..i + 1][..i] == ch.toNumbers[..i];
      if create(body.value, ch.fromNumber, ch.toNumbers[i]) {
        successCount := successCount + 1;
      }
    }
    assert ch.toNumbers[..|ch.toNumbers|] == ch.toNumbers;
    r := Value(successCount > 0);
  }

  /** `send_sms`: a channel over the settings' credentials and a "system"
      event whose title is the message. */
  method SendSms(settings: TwilioSettings, toNumbers: seq<string>, message: string,
                 create: (string, string, string) -> bool) returns (ok: bool)
    ensures ok ==> settings.accountSid != "" && settings.authToken != "" && settings.fromNumber != "" && toNumbers != []
    ensures ok <==>
      && settings.accountSid != "" && settings.authToken != "" && settings.fromNumber != "" && toNumbers != []
      && exists i :: 0 <= i < |toNumbers| && create(Truncate("[system] " + message), settings.fromNumber, toNumbers[i])
  {
    if settings.accountSid == "" || settings.authToken == "" {
      return false;
    }
    var ch := NewTwilioSms("", "", "", toNumbers, DefaultName, None, settings);
    var e := ChannelEvent("system", "notification", [], JObj([("title", JStr(message))]), []);
    assert SmsTitle(e.payload) == Value(message);
    assert FullMessage("system", message, []) == "[system] " + message by {
      assert "[" + "system" + "] " == "[system] ";
    }
    assert MessageBody(ch, e) == Value(Truncate("[system] " + message));
    var r := Send(ch, e, create);
    if ch.fromNumber != "" && toNumbers != [] {
      DeliveredPositive(Truncate("[system] " + message), settings.fromNumber, toNumbers, create);
    }
    ok := r == Value(true);
  }
}
