/** The Aliyun PAI DLC source: a task notification arrives as a Feishu "post"
    message whose content is a list of lines, each a list of tagged items;
    text items of the form "key：value" (full-width or ASCII colon) carry the
    task's fields, and an anchor item carries the console URL. The parser
    turns one notification into an alert group with exactly one alert. */
module Aliyun {
  import opened Common
  import opened Dicts
  import opened JsonValues
  import opened Alerts

  const SourceName := "aliyun_pai"
  const DefaultTitle := "Aliyun PAI Notification"
  const FullWidthColon: char := '\U{FF1A}'
  const UrlKey := "_url"

  // ------------------------------------------------------ content fields

  /** Python's `for x in j` over a decoded JSON value: a list gives its items,
      a string its characters and a dict its keys; other values raise. */
  function Iterated(j: Json): (r: Option<seq<Json>>)
    ensures r.None? <==> !(j.JArr? || j.JStr? || j.JObj?)
    ensures j.JArr? ==> r == Some(j.items)
  {
    match j
    case JArr(xs) => Some(xs)
    case JStr(s) => Some(seq(|s|, i requires 0 <= i < |s| => JStr([s[i]])))
    case JObj(o) => Some(seq(|o|, i requires 0 <= i < |o| => JStr(o[i].0)))
    case _ => None
  }

  /** Where a text item splits: at the first full-width colon if there is
      one, else at the first ASCII colon. */
  function Separator(text: string): (r: Option<nat>)
    ensures r.None? <==> FullWidthColon !in text && ':' !in text
    ensures FullWidthColon in text ==> r == IndexOf(text, FullWidthColon)
    ensures FullWidthColon !in text ==> r == IndexOf(text, ':')
    ensures r.Some? ==> r.value < |text|
  {
    match IndexOf(text, FullWidthColon)
    case Some(i) => Some(i)
    case None => IndexOf(text, ':')
  }

  /** A "text" item; a text with no colon changes nothing. */
  function TextField(fields: Dict<Json>, text: string): Dict<Json> {
    match Separator(text)
    case Some(i) => Put(fields, Strip(text[..i]), JStr(Strip(text[i + 1..])))
    case None => fields
  }

  /** One item of a line. A non-dict item raises (it has no `get`). A "text"
      item whose text is not a string: a list or dict is searched for the
      colon strings and raises only if one is found (it has no `split`);
      any other value raises on `in`. */
  function ItemFields(fields: Dict<Json>, item: Json): (r: Outcome<Dict<Json>>)
    ensures r.Raised? ==> !item.JObj? || GetOr(item.fields, "tag", JStr("")) == JStr("text")
    ensures item.JObj? && GetOr(item.fields, "tag", JStr("")) != JStr("text") && GetOr(item.fields, "tag", JStr("")) != JStr("a")
      ==> r == Value(fields)
  {
    if !item.JObj? then Raised
    else
      var tag := GetOr(item.fields, "tag", JStr(""));
      if tag == JStr("text") then
        match GetOr(item.fields, "text", JStr(""))
        case JStr(text) => Value(TextField(fields, text))
        case JArr(xs) => if JStr([FullWidthColon]) in xs || JStr(":") in xs then Raised else Value(fields)
        case JObj(o) => if [FullWidthColon] in Keys(o) || ":" in Keys(o) then Raised else Value(fields)
        case _ => Raised
      else if tag == JStr("a") then
        Value(Put(fields, UrlKey, GetOr(item.fields, "href", JStr(""))))
      else Value(fields)
  }

  /** The items of one line, in order; the first raise ends the parse. */
  function ItemsFields(fields: Dict<Json>, items: seq<Json>): Outcome<Dict<Json>> {
    if items == [] then Value(fields)
    else
      match ItemsFields(fields, items[..|items| - 1])
      case Raised => Raised
      case Value(f) => ItemFields(f, items[|items| - 1])
  }

  /** One line: an empty (falsy) line is skipped. */
  function LineFields(fields: Dict<Json>, line: Json): (r: Outcome<Dict<Json>>)
    ensures !Truthy(line) ==> r == Value(fields)
  {
    if !Truthy(line) then Value(fields)
    else
      match Iterated(line)
      case None => Raised
      case Some(items) => ItemsFields(fields, items)
  }

  function LinesFields(fields: Dict<Json>, lines: seq<Json>): Outcome<Dict<Json>> {
    if lines == [] then Value(fields)
    else
      match LinesFields(fields, lines[..|lines| - 1])
      case Raised => Raised
      case Value(f) => LineFields(f, lines[|lines| - 1])
  }

  /** `_parse_content_fields`, as a value. */
  function ContentFields(content: Json): (r: Outcome<Dict<Json>>)
    ensures content == JArr([]) ==> r == Value([])
  {
    match Iterated(content)
    case None => Raised
    case Some(lines) => LinesFields([], lines)
  }

  lemma {:induction false} ItemsRaisedPersists(fields: Dict<Json>, items: seq<Json>, i: nat)
    requires i <= |items|
    requires ItemsFields(fields, items[..i]) == Raised
    ensures ItemsFields(fields, items) == Raised
    decreases |items| - i
  {
    if i < |items| {
      var next := items[..i + 1];
      assert next[..|next| - 1] == items[..i];
      ItemsRaisedPersists(fields, items, i + 1);
    } else {
      assert items[..i] == items;
    }
  }

  lemma {:induction false} LinesRaisedPersists(fields: Dict<Json>, lines: seq<Json>, i: nat)
    requires i <= |lines|
    requires LinesFields(fields, lines[..i]) == Raised
    ensures LinesFields(fields, lines) == Raised
    decreases |lines| - i
  {
    if i < |lines| {
      var next := lines[..i + 1];
      assert next[..|next| - 1] == lines[..i];
      LinesRaisedPersists(fields, lines, i + 1);
    } else {
      assert lines[..i] == lines;
    }
  }

  /** The inner loop of `_parse_content_fields`: the items of one line. */
  method ParseLine(fields: Dict<Json>, line: Json) returns (r: Outcome<Dict<Json>>)
    ensures r == LineFields(fields, line)
  {
    if !Truthy(line) {
      return Value(fields);
    }
    var items := Iterated(line);
    if items.None? {
      return Raised;
    }
    var xs := items.value;
    var acc := fields;
    for j := 0 to |xs|
      invariant ItemsFields(fields, xs[..j]) == Value(acc)
    {
      assert xs[..j + 1][..j] == xs[..j];
      var o := ItemFields(acc, xs[j]);
      if o.Raised? {
        ItemsRaisedPersists(fields, xs, j + 1);
        return Raised;
      }
      acc := o.value;
    }
    assert xs[..|xs|] == xs;
    r := Value(acc);
  }

  /** `_parse_content_fields`: later keys overwrite earlier ones. */
  method ParseContentFields(content: Json) returns (r: Outcome<Dict<Json>>)
    ensures r == ContentFields(content)
  {
    var lines := Iterated(content);
    if lines.None? {
      return Raised;
    }
    var ls := lines.value;
    var fields: Dict<Json> := [];
    for i := 0 to |ls|
      invariant LinesFields([], ls[..i]) == Value(fields)
    {
      assert ls[..i + 1][..i] == ls[..i];
      var o := ParseLine(fields, ls[i]);
      if o.Raised? {
        LinesRaisedPersists([], ls, i + 1);
        return Raised;
      }
      fields := o.value;
    }
    assert ls[..|ls|] == ls;
    r := Value(fields);
  }

  /** A text item sets exactly one key, the stripped text before the
      separator, to the stripped text after it, and leaves every other key
      as it was. */
  lemma TextFieldSets(fields: Dict<Json>, text: string, k: string)
    ensures Separator(text).None? ==> Get(TextField(fields, text), k) == Get(fields, k)
    ensures Separator(text).Some? ==>
      var i := Separator(text).value;
      Get(TextField(fields, text), k) == if k == Strip(text[..i]) then Some(JStr(Strip(text[i + 1..]))) else Get(fields, k)
  {
    match Separator(text)
    case Some(i) => GetPut(fields, Strip(text[..i]), JStr(Strip(text[i + 1..])), k);
    case None =>
  }

  lemma ItemKeepsKeysUnique(fields: Dict<Json>, item: Json)
    requires KeysUnique(fields)
    ensures ItemFields(fields, item).Value? ==> KeysUnique(ItemFields(fields, item).value)
  {
    if item.JObj? {
      var tag := GetOr(item.fields, "tag", JStr(""));
      if tag == JStr("text") {
        var text := GetOr(item.fields, "text", JStr(""));
        if text.JStr? {
          match Separator(text.s)
          case Some(i) => PutKeepsKeysUnique(fields, Strip(text.s[..i]), JStr(Strip(text.s[i + 1..])));
          case None =>
        }
      } else if tag == JStr("a") {
        PutKeepsKeysUnique(fields, UrlKey, GetOr(item.fields, "href", JStr("")));
      }
    }
  }

  lemma {:induction false} ItemsKeepKeysUnique(fields: Dict<Json>, items: seq<Json>)
    requires KeysUnique(fields)
    ensures ItemsFields(fields, items).Value? ==> KeysUnique(ItemsFields(fields, items).value)
  {
    if items != [] {
      ItemsKeepKeysUnique(fields, items[..|items| - 1]);
      match ItemsFields(fields, items[..|items| - 1])
      case Raised =>
      case Value(f) => ItemKeepsKeysUnique(f, items[|items| - 1]);
    }
  }

  lemma {:induction false} LinesKeepKeysUnique(fields: Dict<Json>, lines: seq<Json>)
    requires KeysUnique(fields)
    ensures LinesFields(fields, lines).Value? ==> KeysUnique(LinesFields(fields, lines).value)
  {
    if lines != [] {
      LinesKeepKeysUnique(fields, lines[..|lines| - 1]);
      match LinesFields(fields, lines[..|lines| - 1])
      case Raised =>
      case Value(f) =>
        var line := lines[|lines| - 1];
        if Truthy(line) && Iterated(line).Some? {
          ItemsKeepKeysUnique(f, Iterated(line).value);
        }
    }
  }

  /** The parsed fields form a proper dictionary: every key appears once. */
  lemma ContentFieldsKeysUnique(content: Json)
    ensures ContentFields(content).Value? ==> KeysUnique(ContentFields(content).value)
  {
    if Iterated(content).Some? {
      LinesKeepKeysUnique([], Iterated(content).value);
    }
  }

  // ---------------------------------------------------------- mappings

  /** `_map_severity`. */
  function MapSeverity(taskStatus: string): (r: string)
    ensures r == "critical" <==> taskStatus == "Failed"
    ensures r == "info" <==> taskStatus in {"Succeeded", "Running", "Queuing", "EnvPreparing"}
    ensures r == "warning" <==> taskStatus !in {"Failed", "Succeeded", "Running", "Queuing", "EnvPreparing"}
  {
    if taskStatus == "Failed" then "critical"
    else if taskStatus == "Stopped" then "warning"
    else if taskStatus in {"Succeeded", "Running", "Queuing", "EnvPreparing"} then "info"
    else "warning"
  }

  /** `_map_status`: routine progress messages are ignored, everything else
      fires; no task status ever resolves an alert. */
  function MapStatus(taskStatus: string): (r: AlertStatus)
    ensures r != AlertStatus.Resolved
    ensures r == Ignored <==> taskStatus in {"Succeeded", "Running", "Queuing", "EnvPreparing", ""}
  {
    if taskStatus in {"Succeeded", "Running", "Queuing", "EnvPreparing", ""} then Ignored else Firing
  }

  /** An ignored notification is never critical, and a critical one always fires. */
  lemma SeverityAgreesWithStatus(taskStatus: string)
    ensures MapStatus(taskStatus) == Ignored ==> MapSeverity(taskStatus) != "critical"
    ensures MapSeverity(taskStatus) == "critical" ==> MapStatus(taskStatus) == Firing
  {
  }

  // ------------------------------------------------------------- parse

  /** `_parse_timestamp`: `iso` stands for `datetime.fromisoformat` (None
      where it raises); an empty or unparsable time is `now`. */
  function ParseTimestamp(s: string, iso: string -> Option<int>, now: int): (r: int)
    ensures s == "" ==> r == now
    ensures s != "" && iso(Strip(s)).Some? ==> r == iso(Strip(s)).value
    ensures s != "" && iso(Strip(s)).None? ==> r == now
  {
    if s == "" then now
    else match iso(Strip(s))
      case Some(t) => t
      case None => now
  }

  /** `{k: v for k, v in d.items() if v}` */
  function DropEmpty(d: Dict<string>): (r: Dict<string>)
    ensures forall p :: p in r <==> p in d && p.1 != ""
    ensures forall i :: 0 <= i < |r| ==> r[i].1 != ""
  {
    if d == [] then []
    else
      var rest := DropEmpty(d[..|d| - 1]);
      assert d == d[..|d| - 1] + [d[|d| - 1]];
      if d[|d| - 1].1 != "" then rest + [d[|d| - 1]] else rest
  }

  /** The filter distributes over concatenation and keeps a single pair
      exactly when its value is non-empty: the result is the non-empty pairs,
      all of them and in their order. */
  lemma {:induction false} DropEmptyAppend(a: Dict<string>, b: Dict<string>)
    ensures DropEmpty(a + b) == DropEmpty(a) + DropEmpty(b)
    ensures |b| == 1 ==> DropEmpty(b) == if b[0].1 != "" then b else []
    decreases |b|
  {
    if b != [] {
      var init := b[..|b| - 1];
      var x := b[|b| - 1];
      var opt := if x.1 != "" then [x] else [];
      DropEmptyAppend(a, init);
      SplitLast(a, b);
      assert DropEmpty(a + b) == DropEmpty(a + init) + opt;
      assert DropEmpty(b) == DropEmpty(init) + opt;
      Associative(DropEmpty(a), DropEmpty(init), opt);
      if |b| == 1 {
        assert init == [];
      }
    } else {
      assert a + b == a;
    }
  }

  function Field(fields: Dict<string>, key: string, default: string): string {
    GetOr(fields, key, default)
  }

  /** The alert group of one notification, from its string fields. */
  function BuildGroup(payload: Json, title: string, fields: Dict<string>, iso: string -> Option<int>, now: int): AlertGroup {
    var taskName := Field(fields, "任务名称", "Unknown");
    var taskId := Field(fields, "任务ID", "");
    var taskStatus := Field(fields, "任务状态", "");
    var event := Field(fields, "相关事件", "");
    var message := Field(fields, "消息内容", "");
    var url := Field(fields, UrlKey, "");
    var status := MapStatus(taskStatus);
    var labels := DropEmpty([("task_name", taskName), ("task_id", taskId), ("task_status", taskStatus),
                             ("workspace", Field(fields, "工作空间", "")), ("region", Field(fields, "所属区域", "")),
                             ("creator", Field(fields, "创建者", ""))]);
    var annotations := DropEmpty([("event", event), ("message", message),
                                  ("creator_uid", Field(fields, "创建者UID", ""))]);
    var alert := Alert(SourceName, status, taskName, MapSeverity(taskStatus), title + ": " + event, message,
                       labels, annotations, ParseTimestamp(Field(fields, "开始时间", ""), iso, now),
                       if status == AlertStatus.Resolved then Some(now) else None, url, taskId, payload);
    AlertGroup(SourceName, status, [alert], labels, url, "", payload)
  }

  /** `AliyunSource.parse`. It raises where Python does: a `get` on a
      non-dict, iteration of a non-iterable, or a non-string anchor
      href that pydantic then refuses as a URL. */
  function Parse(payload: Json, iso: string -> Option<int>, now: int): (r: Outcome<AlertGroup>)
  {
    match PyGet(payload, "content", JObj([]))
    case Raised => Raised
    case Value(content) =>
      match PyGet(content, "post", JObj([]))
      case Raised => Raised
      case Value(post) =>
        match PyGet(post, "zh_cn", JObj([]))
        case Raised => Raised
        case Value(zh) =>
          if !zh.JObj? then Raised
          else
            var title := PyStr(GetOr(zh.fields, "title", JStr(DefaultTitle)));
            match ContentFields(GetOr(zh.fields, "content", JArr([])))
            case Raised => Raised
            case Value(fields) =>
              match AsStringDict(JObj(fields))
              case None => Raised
              case Some(strs) => Value(BuildGroup(payload, title, strs, iso, now))
  }

  /** A title that is not a string is shown with `str`: a numeric title 5
      gives the summary "5: ". */
  lemma NumericTitleShown(iso: string -> Option<int>, now: int)
    ensures var payload := JObj([("content", JObj([("post", JObj([("zh_cn", JObj([("title", JInt(5))]))]))]))]);
      Parse(payload, iso, now).Value? && Parse(payload, iso, now).value.alerts[0].summary == "5: "
  {
    var zh := JObj([("title", JInt(5))]);
    var post := JObj([("zh_cn", zh)]);
    var content := JObj([("post", post)]);
    var payload := JObj([("content", content)]);
    assert PyGet(payload, "content", JObj([])) == Value(content);
    assert PyGet(content, "post", JObj([])) == Value(post);
    assert PyGet(post, "zh_cn", JObj([])) == Value(zh);
    assert GetOr(zh.fields, "title", JStr(DefaultTitle)) == JInt(5);
    assert GetOr(zh.fields, "content", JArr([])) == JArr([]);
    assert ContentFields(JArr([])) == Value([]);
    assert AsStringDict(JObj([])) == Some([]);
    assert PyStr(JInt(5)) == "5";
    assert Parse(payload, iso, now) == Value(BuildGroup(payload, "5", [], iso, now));
    assert BuildGroup(payload, "5", [], iso, now).alerts[0].summary == "5" + ": " + "";
  }

  /** Every parsed notification is one group of exactly one alert that
      carries the raw payload, shares the group's status, labels and URL,
      never resolves, and keeps no empty label. */
  lemma ParseShape(payload: Json, iso: string -> Option<int>, now: int)
    ensures Parse(payload, iso, now).Value? ==>
      var g := Parse(payload, iso, now).value;
      && g.source == SourceName && |g.alerts| == 1 && g.raw == payload && g.alerts[0].raw == payload
      && g.alerts[0].status == g.status && g.status != AlertStatus.Resolved && g.alerts[0].endsAt.None?
      && g.alerts[0].labels == g.labels && g.alerts[0].generatorUrl == g.externalUrl
      && (forall i :: 0 <= i < |g.labels| ==> g.labels[i].1 != "")
  {
  }

  /** An empty payload still gives a group: status ignored, and an alert
      named "Unknown" with severity "warning". */
  lemma EmptyPayload(iso: string -> Option<int>, now: int)
    ensures Parse(JObj([]), iso, now).Value?
    ensures Parse(JObj([]), iso, now).value.status == Ignored
    ensures Parse(JObj([]), iso, now).value.alerts[0].name == "Unknown"
    ensures Parse(JObj([]), iso, now).value.alerts[0].severity == "warning"
    ensures Parse(JObj([]), iso, now).value.alerts[0].startsAt == now
  {
    assert ContentFields(JArr([])) == Value([]);
    assert AsStringDict(JObj([])) == Some([]);
  }

  /** The job's status field alone decides the group's status and severity. */
  lemma StatusFromTaskStatus(payload: Json, iso: string -> Option<int>, now: int, fields: Dict<string>, title: string)
    ensures BuildGroup(payload, title, fields, iso, now).status == MapStatus(GetOr(fields, "任务状态", ""))
    ensures BuildGroup(payload, title, fields, iso, now).alerts[0].severity == MapSeverity(GetOr(fields, "任务状态", ""))
    ensures BuildGroup(payload, title, fields, iso, now).alerts[0].name == GetOr(fields, "任务名称", "Unknown")
  {
  }
}
