/** The template service: the variables a notification template sees, the
    label and links shown in every message, the contracts of rendering, which
    template a project uses, and the start-up sync of the built-in templates.
    The Jinja engine is a parameter `render` that returns None where rendering
    raises; JSON decoding of a rendered card is a parameter `parseJson`. */
module Templates {
  import opened Common
  import opened Dicts
  import opened JsonValues
  import opened Tickets
  import opened Projects

  datatype NotificationTemplate = NotificationTemplate(
    id: string,
    name: string,
    description: string,
    isBuiltin: bool,
    feishuCard: string,
    emailSubject: string,
    emailBody: string,
    smsMessage: string)

  /** `ticket_dict`: the ticket as templates see it. `created_at` is kept as
      the timestamp itself. */
  datatype TicketInfo = TicketInfo(
    id: string, title: string, description: string, severity: string, source: string, status: string,
    labels: Dict<string>, escalationLevel: int, notificationCount: int, createdAt: int)

  datatype ProjectInfo = ProjectInfo(id: string, name: string, description: string)

  /** The variables of `build_context`; `project` is absent unless a project was given. */
  datatype Context = Context(
    ticket: TicketInfo,
    payload: Json,
    parsed: Json,
    source: string,
    ackUrl: string,
    detailUrl: string,
    isEscalated: bool,
    isRepeated: bool,
    notificationCount: int,
    notificationLabel: string,
    isAckNotification: bool,
    acknowledgedByName: string,
    project: Option<ProjectInfo>)

  /** The Jinja engine: the rendered text, or None where it raises. */
  type Renderer = (string, Context) -> Option<string>


  /** The count a message shows: the one given, else the ticket's count plus one. */
  function ContextCount(t: TicketData, notificationCount: Option<int>): int {
    match notificationCount
    case Some(n) => n
    case None => t.notificationCount + 1
  }

  /** `notification_label`, by precedence: acknowledgement, escalation, repeat or later send. */
  function NotificationLabel(isAck: bool, ackName: string, isEscalated: bool, isRepeated: bool, level: int, count: int): string {
    if isAck then (if ackName != "" then "已确认 by " + ackName else "已确认")
    else if isEscalated then "已升级到 L" + IntToString(level)
    else if isRepeated then "第" + IntToString(count) + "次通知"
    else if count > 1 then "第" + IntToString(count) + "次通知"
    else ""
  }

  /** An acknowledgement label hides the escalation and repeat flags, an
      escalation label hides the repeat flag, and the label is empty exactly
      for a first, plain notification. */
  lemma LabelPrecedence(isAck: bool, ackName: string, isEscalated: bool, isRepeated: bool, level: int, count: int)
    ensures isAck ==>
      NotificationLabel(isAck, ackName, isEscalated, isRepeated, level, count) == NotificationLabel(true, ackName, false, false, 0, 0)
    ensures !isAck && isEscalated ==>
      NotificationLabel(isAck, ackName, isEscalated, isRepeated, level, count) == NotificationLabel(false, "", true, false, level, 0)
    ensures NotificationLabel(isAck, ackName, isEscalated, isRepeated, level, count) == ""
            <==> !isAck && !isEscalated && !isRepeated && count <= 1
  {
    if isEscalated {
      assert ("已升级到 L" + IntToString(level))[0] == '已';
    }
    if !isAck && !isEscalated && (isRepeated || count > 1) {
      assert ("第" + IntToString(count) + "次通知")[0] == '第';
    }
  }

  /** `f"{base_url}/ack/{ticket.id}"`, the base with trailing slashes stripped. */
  function AckPath(baseUrl: string, id: string): string {
    TrimTrailingSlashes(baseUrl) + "/ack/" + id
  }

  /** The acknowledgement link: the ack path with the ticket's token as query. */
  function AckUrl(baseUrl: string, id: string, token: string): string {
    AckPath(baseUrl, id) + "?token=" + token
  }

  function DetailUrl(baseUrl: string, id: string): string {
    TrimTrailingSlashes(baseUrl) + "/tickets/" + id
  }

  lemma {:induction false} IndexOfAfter(pre: string, c: char, rest: string)
    requires c !in pre
    ensures IndexOf(pre + [c] + rest, c) == Some(|pre|)
  {
    if pre != [] {
      assert (pre + [c] + rest)[1..] == pre[1..] + [c] + rest;
      IndexOfAfter(pre[1..], c, rest);
    } else {
      assert (pre + [c] + rest)[0] == c;
    }
  }

  /** The ack link splits at its first '?' back into the ticket's ack path and
      its token, provided neither the base URL nor the id holds a '?'. */
  lemma AckUrlRoundTrip(baseUrl: string, id: string, token: string)
    requires '?' !in baseUrl && '?' !in id
    ensures var u := AckUrl(baseUrl, id, token);
      var n := |AckPath(baseUrl, id)|;
      IndexOf(u, '?') == Some(n) && u[..n] == AckPath(baseUrl, id) && u[n + 1..] == "token=" + token
  {
    var base := TrimTrailingSlashes(baseUrl);
    var pre := AckPath(baseUrl, id);
    var u := AckUrl(baseUrl, id, token);
    assert '?' !in base by {
      forall i | 0 <= i < |base| ensures base[i] != '?' {
        assert base[i] == baseUrl[i];
      }
    }
    assert '?' !in pre by {
      forall i | 0 <= i < |pre| ensures pre[i] != '?' {
        if i < |base| { assert pre[i] == base[i]; }
        else if i < |base| + 5 { assert pre[i] == "/ack/"[i - |base|]; }
        else { assert pre[i] == id[i - |base| - 5]; }
      }
    }
    assert "?token=" == ['?'] + "token=";
    assert u == pre + ['?'] + ("token=" + token);
    IndexOfAfter(pre, '?', "token=" + token);
    assert u[..|pre|] == pre;
    assert u[|pre| + 1..] == "token=" + token;
  }

  function ParsedOrEmpty(parsed: Option<Json>): Json {
    match parsed
    case Some(j) => if Truthy(j) then j else JObj([])
    case None => JObj([])
  }

  /** `build_context` */
  function BuildContext(t: TicketData, project: Option<Project>, baseUrl: string, isEscalated: bool, isRepeated: bool,
                        notificationCount: Option<int>, isAck: bool, ackName: string): (c: Context)
    ensures c.project.Some? <==> project.Some?
    ensures c.notificationCount == (if notificationCount.Some? then notificationCount.value else t.notificationCount + 1)
    ensures c.ticket.notificationCount == c.notificationCount
    ensures c.ticket.escalationLevel == t.escalationLevel && c.ticket.id == t.id
    ensures c.ackUrl == AckUrl(baseUrl, t.id, t.ackToken) && c.detailUrl == DetailUrl(baseUrl, t.id)
    ensures c.notificationLabel == NotificationLabel(isAck, ackName, isEscalated, isRepeated, t.escalationLevel, c.notificationCount)
    ensures Truthy(c.payload) <==> Truthy(t.payload)
  {
    var count := ContextCount(t, notificationCount);
    var info := TicketInfo(t.id, t.title, t.description, t.severity, t.source, StatusValue(t.status), t.labels,
                           t.escalationLevel, count, t.createdAt);
    Context(info, if Truthy(t.payload) then t.payload else JObj([]), ParsedOrEmpty(t.parsedData), t.source,
            AckUrl(baseUrl, t.id, t.ackToken), DetailUrl(baseUrl, t.id), isEscalated, isRepeated, count,
            NotificationLabel(isAck, ackName, isEscalated, isRepeated, t.escalationLevel, count), isAck, ackName,
            match project
            case None => None
            case Some(p) => Some(ProjectInfo(p.id, p.name, p.description)))
  }

  /** `render_string`: "" for an empty template and wherever rendering raises. */
  function RenderString(tmpl: string, ctx: Context, render: Renderer): (r: string)
    ensures tmpl == "" ==> r == ""
    ensures render(tmpl, ctx).None? ==> r == ""
    ensures r != "" ==> render(tmpl, ctx) == Some(r)
  {
    if tmpl == "" then ""
    else match render(tmpl, ctx)
      case None => ""
      case Some(s) => s
  }

  /** `render_feishu_card`: None when the card template is empty, renders to
      nothing, or does not decode as JSON. */
  function RenderFeishuCard(t: NotificationTemplate, ctx: Context, render: Renderer, parseJson: string -> Option<Json>): (r: Option<Json>)
    ensures t.feishuCard == "" ==> r.None?
    ensures r.Some? ==> render(t.feishuCard, ctx).Some? && render(t.feishuCard, ctx).value != ""
                        && parseJson(render(t.feishuCard, ctx).value) == r
  {
    if t.feishuCard == "" then None
    else
      var rendered := RenderString(t.feishuCard, ctx, render);
      if rendered == "" then None else parseJson(rendered)
  }

  /** `render_email`: subject and body. */
  function RenderEmail(t: NotificationTemplate, ctx: Context, render: Renderer): (r: (string, string)) {
    (RenderString(t.emailSubject, ctx, render), RenderString(t.emailBody, ctx, render))
  }

  function RenderSms(t: NotificationTemplate, ctx: Context, render: Renderer): string {
    RenderString(t.smsMessage, ctx, render)
  }

  // ---------------------------------------------------------------------------
  // Choosing a project's template

  const FallbackTemplate := NotificationTemplate("", "fallback", "Fallback template", false, "", "", "", "")

  /** The first stored template satisfying `byId` (when looking up by id) or named `name`. */
  function FindTemplate(store: seq<NotificationTemplate>, key: string, byId: bool): (r: Option<NotificationTemplate>)
    ensures r.Some? ==> r.value in store && (if byId then r.value.id else r.value.name) == key
    ensures r.None? ==> forall t :: t in store ==> (if byId then t.id else t.name) != key
  {
    if store == [] then None
    else if (if byId then store[0].id else store[0].name) == key then Some(store[0])
    else FindTemplate(store[1..], key, byId)
  }

  /** `get_template_for_project` */
  function TemplateForProject(p: Project, store: seq<NotificationTemplate>): (r: NotificationTemplate)
    ensures r in store || r == FallbackTemplate
    ensures p.templateId.Some? && p.templateId.value != "" && FindTemplate(store, p.templateId.value, true).Some?
            ==> r.id == p.templateId.value
    ensures r == FallbackTemplate <==>
      (FindTemplate(store, "default", false).None?
       && (p.templateId.None? || p.templateId.value == "" || FindTemplate(store, p.templateId.value, true).None?))
  {
    var own := if p.templateId.Some? && p.templateId.value != "" then FindTemplate(store, p.templateId.value, true) else None;
    if own.Some? then own.value
    else match FindTemplate(store, "default", false)
      case Some(d) => d
      case None => FallbackTemplate
  }

  // ---------------------------------------------------------------------------
  // Start-up sync of the built-in templates

  predicate NamesUnique(s: seq<NotificationTemplate>) {
    forall i, j :: 0 <= i < j < |s| ==> s[i].name != s[j].name
  }

  /** `find_one` by name: the first stored template with that name. */
  function IndexByName(s: seq<NotificationTemplate>, name: string): (r: Option<nat>)
    ensures r.Some? ==> r.value < |s| && s[r.value].name == name
    ensures r.Some? ==> forall i :: 0 <= i < r.value ==> s[i].name != name
    ensures r.None? ==> forall i :: 0 <= i < |s| ==> s[i].name != name
  {
    if s == [] then None
    else if s[0].name == name then Some(0)
    else match IndexByName(s[1..], name)
      case None => None
      case Some(i) => Some(i + 1)
  }

  /** The fields a built-in sync overwrites. */
  function WithContent(t: NotificationTemplate, b: NotificationTemplate): NotificationTemplate {
    t.(description := b.description, feishuCard := b.feishuCard, emailSubject := b.emailSubject,
       emailBody := b.emailBody, smsMessage := b.smsMessage)
  }

  predicate SameContent(t: NotificationTemplate, b: NotificationTemplate) {
    t.description == b.description && t.feishuCard == b.feishuCard && t.emailSubject == b.emailSubject
    && t.emailBody == b.emailBody && t.smsMessage == b.smsMessage
  }

  /** Overwriting the content makes it the built-in's and keeps the stored
      template's identity: id, name, built-in flag and timestamps. */
  lemma WithContentSyncs(t: NotificationTemplate, b: NotificationTemplate)
    ensures SameContent(WithContent(t, b), b)
    ensures WithContent(t, b).(description := t.description, feishuCard := t.feishuCard,
                               emailSubject := t.emailSubject, emailBody := t.emailBody,
                               smsMessage := t.smsMessage) == t
  {
  }

  /** The sync of one built-in template `b`. */
  function SyncOne(s: seq<NotificationTemplate>, b: NotificationTemplate): (r: seq<NotificationTemplate>)
    ensures |r| >= |s|
    ensures forall i :: 0 <= i < |s| ==> r[i].name == s[i].name && r[i].isBuiltin == s[i].isBuiltin
    ensures forall i :: 0 <= i < |s| && (s[i].name != b.name || !s[i].isBuiltin) ==> r[i] == s[i]
    ensures exists i :: 0 <= i < |r| && r[i].name == b.name
    ensures NamesUnique(s) ==> NamesUnique(r)
    ensures IndexByName(s, b.name).None? ==> r == s + [b]
    ensures IndexByName(s, b.name).Some? ==> |r| == |s|
    ensures IndexByName(s, b.name).Some? && s[IndexByName(s, b.name).value].isBuiltin ==>
      r[IndexByName(s, b.name).value] == WithContent(s[IndexByName(s, b.name).value], b)
  {
    match IndexByName(s, b.name)
    case Some(i) =>
      if s[i].isBuiltin then s[i := WithContent(s[i], b)] else s
    case None =>
      var r := s + [b];
      assert r[|s|].name == b.name;
      r
  }

  /** The store after syncing each of `builtins` in order. */
  function Sync(s: seq<NotificationTemplate>, builtins: seq<NotificationTemplate>): (r: seq<NotificationTemplate>)
    ensures |r| >= |s|
    decreases |builtins|
  {
    if builtins == [] then s
    else SyncOne(Sync(s, builtins[..|builtins| - 1]), builtins[|builtins| - 1])
  }

  /** A user template is never touched by the sync, even if it shares a built-in's name. */
  lemma {:induction false} SyncKeepsUserTemplates(s: seq<NotificationTemplate>, builtins: seq<NotificationTemplate>, i: nat)
    requires i < |s| && !s[i].isBuiltin
    ensures Sync(s, builtins)[i] == s[i]
    decreases |builtins|
  {
    if builtins != [] {
      SyncKeepsUserTemplates(s, builtins[..|builtins| - 1], i);
    }
  }

  /** Templates of other names are untouched as well. */
  lemma {:induction false} SyncKeepsOtherNames(s: seq<NotificationTemplate>, builtins: seq<NotificationTemplate>, i: nat)
    requires i < |s| && forall b :: b in builtins ==> b.name != s[i].name
    ensures Sync(s, builtins)[i] == s[i]
    decreases |builtins|
  {
    if builtins != [] {
      SyncKeepsOtherNames(s, builtins[..|builtins| - 1], i);
    }
  }

  /** Positions keep their names, so the sync never renames or removes a template. */
  lemma {:induction false} SyncKeepsNames(s: seq<NotificationTemplate>, builtins: seq<NotificationTemplate>, i: nat)
    requires i < |s|
    ensures Sync(s, builtins)[i].name == s[i].name
    decreases |builtins|
  {
    if builtins != [] {
      SyncKeepsNames(s, builtins[..|builtins| - 1], i);
    }
  }

  /** Names stay unique through the sync. */
  lemma {:induction false} SyncKeepsNamesUnique(s: seq<NotificationTemplate>, builtins: seq<NotificationTemplate>)
    requires NamesUnique(s)
    ensures NamesUnique(Sync(s, builtins))
    decreases |builtins|
  {
    if builtins != [] {
      SyncKeepsNamesUnique(s, builtins[..|builtins| - 1]);
    }
  }

  /** After the sync every built-in's name is present in the store. */
  lemma {:induction false} SyncProvidesBuiltin(s: seq<NotificationTemplate>, builtins: seq<NotificationTemplate>, k: nat)
    requires k < |builtins|
    ensures exists i :: 0 <= i < |Sync(s, builtins)| && Sync(s, builtins)[i].name == builtins[k].name
    decreases |builtins|
  {
    var init := builtins[..|builtins| - 1];
    if k < |builtins| - 1 {
      SyncProvidesBuiltin(s, init, k);
      var prev := Sync(s, init);
      var i :| 0 <= i < |prev| && prev[i].name == init[k].name;
      assert Sync(s, builtins)[i].name == builtins[k].name;
    } else {
      var r := SyncOne(Sync(s, init), builtins[k]);
      assert Sync(s, builtins) == r;
      var i :| 0 <= i < |r| && r[i].name == builtins[k].name;
    }
  }

  /** A stored built-in carries the content of the last built-in of its
      name that was synced, whether it was updated in place or inserted. */
  lemma {:induction false} SyncBuiltinContent(s: seq<NotificationTemplate>, builtins: seq<NotificationTemplate>,
                                              k: nat, i: nat)
    requires NamesUnique(s)
    requires k < |builtins| && forall j :: k < j < |builtins| ==> builtins[j].name != builtins[k].name
    requires i < |Sync(s, builtins)| && Sync(s, builtins)[i].name == builtins[k].name
    requires Sync(s, builtins)[i].isBuiltin
    ensures SameContent(Sync(s, builtins)[i], builtins[k])
    decreases |builtins|
  {
    var init := builtins[..|builtins| - 1];
    var b := builtins[|builtins| - 1];
    var prev := Sync(s, init);
    var r := SyncOne(prev, b);
    assert Sync(s, builtins) == r;
    if k == |builtins| - 1 {
      SyncKeepsNamesUnique(s, init);
      match IndexByName(prev, b.name)
      case None =>
        if i < |prev| {
          assert false;
        }
      case Some(x) =>
        if x != i {
          assert false;
        }
        WithContentSyncs(prev[i], b);
    } else {
      if i < |prev| {
        assert r[i] == prev[i];
      } else {
        assert false;
      }
      assert forall j :: k < j < |init| ==> init[j].name != init[k].name;
      SyncBuiltinContent(s, init, k, i);
    }
  }

  /** The mutable template collection the sync works on. */
  class TemplateStore {
    var templates: seq<NotificationTemplate>

    constructor (templates: seq<NotificationTemplate>)
      ensures this.templates == templates
    {
      this.templates := templates;
    }

    /** `ensure_builtin_templates`: for each built-in, update a stored built-in
        of that name, leave a user template of that name alone, or insert it. */
    method EnsureBuiltinTemplates(builtins: seq<NotificationTemplate>)
      modifies this
      ensures templates == Sync(old(templates), builtins)
    {
      for k := 0 to |builtins|
        invariant templates == Sync(old(templates), builtins[..k])
      {
        var b := builtins[k];
        assert builtins[..k + 1][..k] == builtins[..k];
        var existing := IndexByName(templates, b.name);
        if existing.Some? {
          var i := existing.value;
          if templates[i].isBuiltin {
            templates := templates[i := WithContent(templates[i], b)];
          }
        } else {
          templates := templates + [b];
        }
      }
      assert builtins[..|builtins|] == builtins;
    }
  }
}
