/** The namespace and project pages: slugs, the project forms, silencing,
    and the test message sent to a project's first notification group.
    Python's `\w` is the predicate `isWord`, `int(s)` the function `pyInt`
    (a value, or `Raised` for text that is not an integer), and the clock
    the parameter `now` in whole seconds. */
module NamespacesWeb {
  import opened Common
  import opened Dicts
  import opened JsonValues
  import opened Projects
  import opened Groups
  import Tickets
  import Templates
  import Notifications

  // ------------------------------------------------------------- slugify

  /** What `[-\s]+` matches one character of. */
  predicate Separator(c: char) {
    c == '-' || IsSpace(c)
  }

  /** `re.sub(r"[^\w\s-]", "", text)`: the characters that are word
      characters, whitespace or '-' are kept, in order. */
  function KeepSlugChars(s: string, isWord: char -> bool): (r: string)
    ensures |r| <= |s|
    ensures forall i :: 0 <= i < |r| ==> (isWord(r[i]) || Separator(r[i])) && r[i] in s
    ensures (forall i :: 0 <= i < |s| ==> isWord(s[i]) || Separator(s[i])) ==> r == s
  {
    if s == [] then []
    else
      var init := s[..|s| - 1];
      var c := s[|s| - 1];
      assert forall i :: 0 <= i < |init| ==> init[i] == s[i];
      assert s == init + [c];
      KeepSlugChars(init, isWord) + (if isWord(c) || Separator(c) then [c] else [])
  }

  /** The filter works character by character: it distributes over
      concatenation and keeps a single character exactly when it is a word
      character or a separator. So the result is the kept characters of the
      text, all of them and in their order. */
  lemma {:induction false} KeepSlugCharsAppend(a: string, b: string, isWord: char -> bool)
    ensures KeepSlugChars(a + b, isWord) == KeepSlugChars(a, isWord) + KeepSlugChars(b, isWord)
    ensures |b| == 1 ==> KeepSlugChars(b, isWord) == if isWord(b[0]) || Separator(b[0]) then b else []
    decreases |b|
  {
    if b != [] {
      var init := b[..|b| - 1];
      var c := b[|b| - 1];
      var opt := if isWord(c) || Separator(c) then [c] else [];
      KeepSlugCharsAppend(a, init, isWord);
      SplitLast(a, b);
      assert KeepSlugChars(a + b, isWord) == KeepSlugChars(a + init, isWord) + opt;
      assert KeepSlugChars(b, isWord) == KeepSlugChars(init, isWord) + opt;
      Associative(KeepSlugChars(a, isWord), KeepSlugChars(init, isWord), opt);
      if |b| == 1 {
        assert init == [];
      }
    } else {
      assert a + b == a;
    }
  }

  /** The characters of `s` that are not separators, in order. */
  function NonSeparators(s: string): string {
    if s == [] then []
    else NonSeparators(s[..|s| - 1]) + (if Separator(s[|s| - 1]) then [] else [s[|s| - 1]])
  }

  lemma NonSeparatorsSnoc(s: string, c: char)
    ensures NonSeparators(s + [c]) == NonSeparators(s) + (if Separator(c) then [] else [c])
  {
    assert (s + [c])[..|s|] == s;
  }

  /** No whitespace and no two '-' in a row. */
  predicate Collapsed(s: string) {
    && (forall i :: 0 <= i < |s| ==> !IsSpace(s[i]))
    && (forall i :: 0 <= i < |s| - 1 ==> !(s[i] == '-' && s[i + 1] == '-'))
  }

  /** `re.sub(r"[-\s]+", "-", text)`: every run of '-' and whitespace becomes
      one '-'. */
  function CollapseRuns(s: string): (r: string)
    ensures Collapsed(r)
    ensures r == [] <==> s == []
    ensures s != [] && Separator(s[|s| - 1]) ==> r[|r| - 1] == '-'
    ensures s != [] && !Separator(s[|s| - 1]) ==> r[|r| - 1] == s[|s| - 1]
  {
    if s == [] then []
    else
      var init := s[..|s| - 1];
      var c := s[|s| - 1];
      var prefix := CollapseRuns(init);
      if !Separator(c) then prefix + [c]
      else if init != [] && Separator(init[|init| - 1]) then prefix
      else prefix + "-"
  }

  /** Collapsing keeps every other character, in order. */
  lemma {:induction false} CollapseRunsKeepsText(s: string)
    ensures NonSeparators(CollapseRuns(s)) == NonSeparators(s)
  {
    if s != [] {
      var init := s[..|s| - 1];
      var c := s[|s| - 1];
      var prefix := CollapseRuns(init);
      CollapseRunsKeepsText(init);
      assert s == init + [c];
      NonSeparatorsSnoc(init, c);
      NonSeparatorsSnoc(prefix, c);
      NonSeparatorsSnoc(prefix, '-');
    }
  }

  /** Each character of the result is a '-' or a non-separator of the text. */
  lemma {:induction false} CollapseRunsChars(s: string)
    ensures forall i :: 0 <= i < |CollapseRuns(s)| ==> CollapseRuns(s)[i] == '-' || (CollapseRuns(s)[i] in s && !Separator(CollapseRuns(s)[i]))
  {
    if s != [] {
      var init := s[..|s| - 1];
      CollapseRunsChars(init);
      assert s == init + [s[|s| - 1]];
      assert forall x :: x in init ==> x in s;
    }
  }

  /** The result starts as the text does: with '-' for a leading run. */
  lemma {:induction false} CollapseRunsFirst(s: string)
    requires s != []
    ensures Separator(s[0]) ==> CollapseRuns(s)[0] == '-'
    ensures !Separator(s[0]) ==> CollapseRuns(s)[0] == s[0]
  {
    var init := s[..|s| - 1];
    if init != [] {
      CollapseRunsFirst(init);
      assert init[0] == s[0];
    }
  }

  /** A text with no whitespace and no "--" is left as it is. */
  lemma {:induction false} CollapseRunsFixed(s: string)
    requires Collapsed(s)
    ensures CollapseRuns(s) == s
  {
    if s != [] {
      var init := s[..|s| - 1];
      assert Collapsed(init);
      CollapseRunsFixed(init);
      assert s == init + [s[|s| - 1]];
    }
  }

  /** `slugify`: lowercase, trim, drop the characters that are neither word
      characters, whitespace nor '-', then collapse the runs of '-' and
      whitespace into single '-'. */
  function Slugify(text: string, isWord: char -> bool): (r: string)
    ensures Collapsed(r)
    ensures forall i :: 0 <= i < |r| ==> r[i] == '-' || (isWord(r[i]) && LowerChar(r[i]) == r[i])
  {
    var lowered := Strip(Lower(text));
    StripChars(Lower(text));
    var kept := KeepSlugChars(lowered, isWord);
    var r := CollapseRuns(kept);
    CollapseRunsChars(kept);
    assert forall i :: 0 <= i < |r| ==> r[i] == '-' || (isWord(r[i]) && LowerChar(r[i]) == r[i]) by {
      forall i | 0 <= i < |r| && r[i] != '-'
        ensures isWord(r[i]) && LowerChar(r[i]) == r[i]
      {
        assert r[i] in kept && !Separator(r[i]);
        assert r[i] in Lower(text);
      }
    }
    r
  }

  /** Stripping only removes characters. */
  lemma StripChars(s: string)
    ensures forall c :: c in Strip(s) ==> c in s
  {
    var t := TrimStart(s);
    var r := TrimEnd(t);
    forall c | c in r
      ensures c in s
    {
      var k :| 0 <= k < |r| && r[k] == c;
      assert r[k] == t[k];
      assert t[k] == s[|s| - |t| + k];
    }
  }

  /** Slugifying a slug changes nothing. */
  lemma SlugifyIdempotent(text: string, isWord: char -> bool)
    ensures Slugify(Slugify(text, isWord), isWord) == Slugify(text, isWord)
  {
    SlugifyFixed(Slugify(text, isWord), isWord);
  }

  /** A lowercase text of word characters and single '-' is its own slug. */
  lemma SlugifyFixed(s: string, isWord: char -> bool)
    requires Collapsed(s)
    requires forall i :: 0 <= i < |s| ==> s[i] == '-' || (isWord(s[i]) && LowerChar(s[i]) == s[i])
    ensures Slugify(s, isWord) == s
  {
    LowerFixed(s);
    StripUnspaced(s);
    KeepAllSlugChars(s, isWord);
    CollapseRunsFixed(s);
  }

  lemma LowerFixed(s: string)
    requires forall i :: 0 <= i < |s| ==> s[i] == '-' || LowerChar(s[i]) == s[i]
    ensures Lower(s) == s
  {
    assert forall i :: 0 <= i < |s| ==> Lower(s)[i] == s[i];
  }

  lemma KeepAllSlugChars(s: string, isWord: char -> bool)
    requires forall i :: 0 <= i < |s| ==> s[i] == '-' || isWord(s[i])
    ensures KeepSlugChars(s, isWord) == s
  {
    assert forall i :: 0 <= i < |s| ==> isWord(s[i]) || Separator(s[i]);
  }

  /** A text without whitespace is its own `strip()`. */
  lemma StripUnspaced(s: string)
    requires forall i :: 0 <= i < |s| ==> !IsSpace(s[i])
    ensures Strip(s) == s
  {
    assert TrimStart(s) == s;
    assert TrimEnd(s) == s;
  }

  // --------------------------------------------------------------- forms

  /** Submitted form fields in order; a field may repeat. */
  type FormData = seq<(string, string)>

  /** `form_data.get(key)`: the last value given for `key`. */
  function FormGet(form: FormData, key: string): (r: Option<string>)
    ensures r.None? <==> forall i :: 0 <= i < |form| ==> form[i].0 != key
    ensures r.Some? ==> (key, r.value) in form
  {
    if form == [] then None
    else if form[|form| - 1].0 == key then Some(form[|form| - 1].1)
    else
      var r := FormGet(form[..|form| - 1], key);
      assert forall i :: 0 <= i < |form| - 1 ==> form[..|form| - 1][i] == form[i];
      r
  }

  /** A repeated field reads as its last value. */
  lemma {:induction false} FormGetLast(form: FormData, key: string, v: string, later: FormData)
    requires forall i :: 0 <= i < |later| ==> later[i].0 != key
    ensures FormGet(form + [(key, v)] + later, key) == Some(v)
  {
    if later != [] {
      var all := form + [(key, v)] + later;
      var init := later[..|later| - 1];
      assert all[..|all| - 1] == form + [(key, v)] + init;
      FormGetLast(form, key, v, init);
    }
  }

  /** `form_data.get(key, "")` followed by `.strip()`. */
  function FormText(form: FormData, key: string): string {
    match FormGet(form, key)
    case None => ""
    case Some(v) => Strip(v)
  }

  /** A checkbox: checked exactly when its value is "on". */
  predicate FormChecked(form: FormData, key: string) {
    FormGet(form, key) == Some("on")
  }

  /** `form_data.getlist(key)`: every value given for `key`, in order. */
  function FormList(form: FormData, key: string): (r: seq<string>)
    ensures |r| <= |form|
    ensures forall v :: v in r <==> (key, v) in form
  {
    if form == [] then []
    else
      var init := form[..|form| - 1];
      assert form == init + [form[|form| - 1]];
      FormList(init, key) + (if form[|form| - 1].0 == key then [form[|form| - 1].1] else [])
  }

  /** `int(raw) if raw else default`, where a missing field reads as the
      default: a missing or empty field gives the default, anything else is
      parsed and may raise. */
  function FormInt(form: FormData, key: string, default: int, pyInt: string -> Outcome<int>): (r: Outcome<int>)
    ensures FormGet(form, key).None? || FormGet(form, key) == Some("") ==> r == Value(default)
    ensures FormGet(form, key).Some? && FormGet(form, key) != Some("") ==> r == pyInt(FormGet(form, key).value)
  {
    match FormGet(form, key)
    case None => Value(default)
    case Some(raw) => if raw == "" then Value(default) else pyInt(raw)
  }

  const DefaultTimeoutMinutes := 15
  const DefaultSilenceMinutes := 30

  // ---------------------------------------------------------- namespaces

  datatype Namespace = Namespace(id: string, name: string, slug: string, description: string)

  /** Every slug belongs to one namespace, and a namespace is stored under
      its own id. */
  ghost predicate SlugsUnique(namespaces: map<string, Namespace>) {
    && (forall a, b :: a in namespaces && b in namespaces && namespaces[a].slug == namespaces[b].slug ==> a == b)
    && (forall a :: a in namespaces ==> namespaces[a].id == a)
  }

  predicate SlugTaken(namespaces: map<string, Namespace>, slug: string) {
    exists id :: id in namespaces && namespaces[id].slug == slug
  }

  /** The slug of the create form: the stripped slug field, or the slug of
      the stripped name when that is empty. */
  function CreateSlug(form: FormData, isWord: char -> bool): (r: string)
    ensures FormText(form, "slug") != "" ==> r == FormText(form, "slug")
    ensures FormText(form, "slug") == "" ==> Collapsed(r) && r == Slugify(FormText(form, "name"), isWord)
  {
    var slug := FormText(form, "slug");
    if slug != "" then slug else Slugify(FormText(form, "name"), isWord)
  }

  /** `create_namespace`: rejected when the slug is taken, otherwise the
      namespace is stored under the new id. */
  function CreateNamespace(namespaces: map<string, Namespace>, id: string, form: FormData, isWord: char -> bool)
    : (r: Option<map<string, Namespace>>)
    ensures r.None? <==> SlugTaken(namespaces, CreateSlug(form, isWord))
    ensures r.Some? ==> r.value.Keys == namespaces.Keys + {id}
    ensures r.Some? ==>
      r.value[id] == Namespace(id, FormText(form, "name"), CreateSlug(form, isWord), FormText(form, "description"))
    ensures r.Some? ==> forall k :: k in namespaces && k != id ==> r.value[k] == namespaces[k]
  {
    var slug := CreateSlug(form, isWord);
    if SlugTaken(namespaces, slug) then None
    else Some(namespaces[id := Namespace(id, FormText(form, "name"), slug, FormText(form, "description"))])
  }

  /** `update_namespace`: an unknown id changes nothing; a slug held by
      another namespace is rejected; otherwise name, slug and description
      are replaced by the stripped fields. The slug field is not
      slugified here. */
  function UpdateNamespace(namespaces: map<string, Namespace>, id: string, form: FormData)
    : (r: Option<map<string, Namespace>>)
    ensures id !in namespaces ==> r == Some(namespaces)
    ensures id in namespaces ==>
      (r.None? <==> exists k :: k in namespaces && k != id && namespaces[k].slug == FormText(form, "slug"))
    ensures id in namespaces && r.Some? ==>
      r.value == namespaces[id := namespaces[id].(name := FormText(form, "name"), slug := FormText(form, "slug"),
                                                 description := FormText(form, "description"))]
  {
    if id !in namespaces then Some(namespaces)
    else
      var slug := FormText(form, "slug");
      if exists k :: k in namespaces && k != id && namespaces[k].slug == slug then None
      else Some(namespaces[id := namespaces[id].(name := FormText(form, "name"), slug := slug,
                                                 description := FormText(form, "description"))])
  }

  /** Creating a namespace under a fresh id keeps slugs unique. */
  lemma CreateKeepsSlugsUnique(namespaces: map<string, Namespace>, id: string, form: FormData, isWord: char -> bool)
    requires SlugsUnique(namespaces) && id !in namespaces
    ensures CreateNamespace(namespaces, id, form, isWord).Some? ==> SlugsUnique(CreateNamespace(namespaces, id, form, isWord).value)
  {
  }

  /** Updating a namespace keeps slugs unique; keeping its own slug is
      never rejected. */
  lemma UpdateKeepsSlugsUnique(namespaces: map<string, Namespace>, id: string, form: FormData)
    requires SlugsUnique(namespaces)
    ensures UpdateNamespace(namespaces, id, form).Some? ==> SlugsUnique(UpdateNamespace(namespaces, id, form).value)
    ensures id in namespaces && FormText(form, "slug") == namespaces[id].slug ==> UpdateNamespace(namespaces, id, form).Some?
  {
  }

  // ------------------------------------------------------------ projects

  /** The escalation settings of a project form. */
  function FormEscalation(form: FormData, pyInt: string -> Outcome<int>): (r: Outcome<EscalationConfig>)
    ensures r.Raised? <==> FormInt(form, "escalation_timeout", DefaultTimeoutMinutes, pyInt).Raised?
    ensures r.Value? ==>
      && r.value.enabled == FormChecked(form, "escalation_enabled")
      && Value(r.value.timeoutMinutes) == FormInt(form, "escalation_timeout", DefaultTimeoutMinutes, pyInt)
  {
    match FormInt(form, "escalation_timeout", DefaultTimeoutMinutes, pyInt)
    case Raised => Raised
    case Value(t) => Value(EscalationConfig(FormChecked(form, "escalation_enabled"), t))
  }

  /** The template field: an empty one means "no template". */
  function FormTemplateId(form: FormData): (r: Option<string>)
    ensures r.None? <==> FormText(form, "notification_template_id") == ""
  {
    var t := FormText(form, "notification_template_id");
    if t != "" then Some(t) else None
  }

  /** `create_project`: a project of the namespace built from the form; it
      starts active and not silenced. */
  function ProjectFromForm(id: string, namespaceId: string, form: FormData, pyInt: string -> Outcome<int>)
    : (r: Outcome<Project>)
    ensures r.Raised? <==> FormEscalation(form, pyInt).Raised?
    ensures r.Value? ==>
      && r.value.id == id && r.value.namespaceId == namespaceId
      && r.value.name == FormText(form, "name") && r.value.description == FormText(form, "description")
      && r.value.templateId == FormTemplateId(form)
      && Value(r.value.escalation) == FormEscalation(form, pyInt)
      && r.value.isActive && r.value.silencedUntil.None?
      && r.value.groupIds == FormList(form, "notification_group_ids")
      && r.value.notifyOnAck == FormChecked(form, "notify_on_ack")
  {
    match FormEscalation(form, pyInt)
    case Raised => Raised
    case Value(escalation) =>
      Value(Project(id, namespaceId, FormText(form, "name"), FormText(form, "description"),
                    FormList(form, "notification_group_ids"), FormTemplateId(form), escalation,
                    true, FormChecked(form, "notify_on_ack"), None))
  }

  /** An empty form creates the default project: escalation off after 15
      minutes, no groups, no template, active, not silenced. */
  lemma EmptyFormMakesDefaultProject(id: string, namespaceId: string, pyInt: string -> Outcome<int>)
    ensures ProjectFromForm(id, namespaceId, [], pyInt) == Value(NewProject(id, namespaceId, ""))
  {
    assert FormGet([], "name").None? && FormGet([], "description").None?;
  }

  /** `update_project`: the form fields replace the project's; the id, the
      namespace and the silence window are kept. */
  function UpdatedProject(p: Project, form: FormData, pyInt: string -> Outcome<int>): (r: Outcome<Project>)
    ensures r.Raised? <==> FormEscalation(form, pyInt).Raised?
    ensures r.Value? ==>
      && r.value.id == p.id && r.value.namespaceId == p.namespaceId && r.value.silencedUntil == p.silencedUntil
      && r.value.isActive == FormChecked(form, "is_active")
      && r.value.name == FormText(form, "name") && r.value.description == FormText(form, "description")
      && r.value.groupIds == FormList(form, "notification_group_ids") && r.value.templateId == FormTemplateId(form)
      && r.value.notifyOnAck == FormChecked(form, "notify_on_ack")
      && Value(r.value.escalation) == FormEscalation(form, pyInt)
  {
    match FormEscalation(form, pyInt)
    case Raised => Raised
    case Value(escalation) =>
      Value(p.(name := FormText(form, "name"), description := FormText(form, "description"),
               groupIds := FormList(form, "notification_group_ids"), templateId := FormTemplateId(form),
               isActive := FormChecked(form, "is_active"), notifyOnAck := FormChecked(form, "notify_on_ack"),
               escalation := escalation))
  }

  /** The edit form sets the same fields the create form does; only the
      "is_active" box and the kept silence window differ. */
  lemma UpdateAgreesWithCreate(p: Project, form: FormData, pyInt: string -> Outcome<int>)
    ensures UpdatedProject(p, form, pyInt).Value? <==> ProjectFromForm(p.id, p.namespaceId, form, pyInt).Value?
    ensures UpdatedProject(p, form, pyInt).Value? ==>
      UpdatedProject(p, form, pyInt).value ==
        ProjectFromForm(p.id, p.namespaceId, form, pyInt).value.(isActive := FormChecked(form, "is_active"),
                                                                silencedUntil := p.silencedUntil)
  {
  }

  // ------------------------------------------------------------- silence

  /** `silence_project`: silenced until `duration` minutes from now, 30 when
      the field is missing or empty. */
  function Silenced(p: Project, form: FormData, now: int, pyInt: string -> Outcome<int>): (r: Outcome<Project>)
    ensures r.Raised? <==> FormInt(form, "duration", DefaultSilenceMinutes, pyInt).Raised?
    ensures r.Value? ==>
      r.value == p.(silencedUntil := Some(now + FormInt(form, "duration", DefaultSilenceMinutes, pyInt).value * 60))
  {
    match FormInt(form, "duration", DefaultSilenceMinutes, pyInt)
    case Raised => Raised
    case Value(minutes) => Value(p.(silencedUntil := Some(now + minutes * 60)))
  }

  /** After silencing for m minutes the project is silenced exactly during
      the next m minutes: silenced now iff m is positive. */
  lemma SilenceWindow(p: Project, form: FormData, now: int, pyInt: string -> Outcome<int>, t: int)
    requires Silenced(p, form, now, pyInt).Value?
    ensures var m := FormInt(form, "duration", DefaultSilenceMinutes, pyInt).value;
      && (IsSilenced(Silenced(p, form, now, pyInt).value, t) <==> t < now + m * 60)
      && (IsSilenced(Silenced(p, form, now, pyInt).value, now) <==> m > 0)
  {
  }

  /** Without a duration the silence lasts exactly 30 minutes. */
  lemma DefaultSilenceLastsHalfAnHour(p: Project, now: int, pyInt: string -> Outcome<int>)
    ensures Silenced(p, [], now, pyInt).Value?
    ensures IsSilenced(Silenced(p, [], now, pyInt).value, now + 1799)
    ensures !IsSilenced(Silenced(p, [], now, pyInt).value, now + 1800)
  {
  }

  /** `unsilence_project` */
  function Unsilenced(p: Project): (r: Project)
    ensures forall now :: !IsSilenced(r, now) && SilenceRemaining(r, now).None?
    ensures r.(silencedUntil := p.silencedUntil) == p
  {
    p.(silencedUntil := None)
  }

  // -------------------------------------------------------- test message

  const NoGroupsMessage := "项目未配置通知组"
  const FirstGroupMissingMessage := "第一级通知组不存在"
  const NoChannelsMessage := "通知组没有配置渠道或联系人"

  /** The shown outcome of a test message; `details` holds the per-channel
      results when there are any. */
  datatype TestResult = TestResult(success: bool, message: string, details: Option<Dict<bool>>)

  /** What sending to the group gave: the per-channel results, or the text
      of the exception raised. */
  datatype SendAttempt = Sent(results: Dict<bool>) | Failed(error: string)

  /** `sum(1 for v in results.values() if not v)` */
  function CountFalse(d: Dict<bool>): (n: nat)
    ensures n <= |d|
    ensures n == 0 <==> forall i :: 0 <= i < |d| ==> d[i].1
  {
    if d == [] then 0
    else
      var rest := CountFalse(d[1..]);
      assert (forall i :: 0 <= i < |d| ==> d[i].1) <==> d[0].1 && forall i :: 0 <= i < |d[1..]| ==> d[1..][i].1 by {
        if d[0].1 && forall i :: 0 <= i < |d[1..]| ==> d[1..][i].1 {
          forall i | 0 <= i < |d| ensures d[i].1 {
            if i > 0 {
              assert d[i] == d[1..][i - 1];
            }
          }
        }
      }
      (if d[0].1 then 0 else 1) + rest
  }

  /** Every result is counted once, as a success or as a failure. */
  lemma {:induction false} CountsAddUp(d: Dict<bool>)
    ensures CountTrue(d) + CountFalse(d) == |d|
  {
    if d != [] {
      CountsAddUp(d[1..]);
    }
  }

  /** The summary of the results: no results is a failure, all true a
      success, all false a failure, and a mix a partial success. */
  function Summarize(attempt: SendAttempt): (r: TestResult)
    ensures attempt.Failed? ==> r == TestResult(false, "发送异常: " + attempt.error, None)
    ensures attempt.Sent? ==> (r.success <==> AnyTrue(attempt.results))
    ensures attempt.Sent? && attempt.results == [] ==> r == TestResult(false, NoChannelsMessage, None)
    ensures attempt.Sent? && attempt.results != [] ==> r.details == Some(attempt.results)
  {
    match attempt
    case Failed(error) => TestResult(false, "发送异常: " + error, None)
    case Sent(results) =>
      var successCount := CountTrue(results);
      var failCount := CountFalse(results);
      CountsAddUp(results);
      if results == [] then TestResult(false, NoChannelsMessage, None)
      else if failCount == 0 then
        TestResult(true, AllSentMessage(successCount), Some(results))
      else if successCount == 0 then
        TestResult(false, AllFailedMessage(failCount), Some(results))
      else
        TestResult(true, PartialMessage(successCount, failCount), Some(results))
  }

  /** The text of a success on every channel. */
  function AllSentMessage(succeeded: nat): string {
    "测试消息发送成功！(" + NatToString(succeeded) + " 个渠道)"
  }

  /** The text of a failure on every channel. */
  function AllFailedMessage(failed: nat): string {
    "测试消息发送失败 (" + NatToString(failed) + " 个渠道)"
  }

  /** The text of a partial success, with both counts. */
  function PartialMessage(succeeded: nat, failed: nat): string {
    "测试消息部分成功 (" + NatToString(succeeded) + " 成功, " + NatToString(failed) + " 失败)"
  }

  /** A mixed outcome is reported as a partial success with both counts. */
  lemma PartialSuccess(results: Dict<bool>)
    requires AnyTrue(results) && !(forall i :: 0 <= i < |results| ==> results[i].1)
    ensures Summarize(Sent(results)) ==
      TestResult(true, PartialMessage(CountTrue(results), |results| - CountTrue(results)), Some(results))
  {
    CountsAddUp(results);
    SummarizeMixed(results);
  }

  lemma SummarizeMixed(results: Dict<bool>)
    requires CountTrue(results) != 0 && CountFalse(results) != 0
    ensures Summarize(Sent(results)) == TestResult(true, PartialMessage(CountTrue(results), CountFalse(results)), Some(results))
  {
  }

  /** The test ticket's text: an empty title or description is replaced by
      the stock one; a missing severity reads "warning". */
  function TestTicketText(form: FormData): (r: (string, string, string))
    ensures FormText(form, "title") != "" ==> r.0 == FormText(form, "title")
    ensures FormText(form, "title") == "" ==> r.0 == "测试告警"
    ensures FormText(form, "description") != "" ==> r.1 == FormText(form, "description")
    ensures FormText(form, "description") == "" ==> r.1 == "这是一条测试消息，用于验证通知配置是否正确。"
    ensures FormGet(form, "severity").None? ==> r.2 == "warning"
    ensures FormGet(form, "severity").Some? ==> r.2 == FormGet(form, "severity").value
  {
    var title := FormText(form, "title");
    var description := FormText(form, "description");
    (if title != "" then title else "测试告警",
     if description != "" then description else "这是一条测试消息，用于验证通知配置是否正确。",
     match FormGet(form, "severity") case None => "warning" case Some(s) => s)
  }

  /** `send_test_message`: only the first notification group is tried;
      `send` stands for sending the unsaved test ticket to it. */
  function SendTestMessage(p: Project, groups: map<string, NotificationGroup>, send: NotificationGroup -> SendAttempt)
    : (r: TestResult)
    ensures p.groupIds == [] ==> r == TestResult(false, NoGroupsMessage, None)
    ensures p.groupIds != [] && p.groupIds[0] !in groups ==> r == TestResult(false, FirstGroupMissingMessage, None)
    ensures r.success ==>
      && p.groupIds != [] && p.groupIds[0] in groups && send(groups[p.groupIds[0]]).Sent?
      && AnyTrue(send(groups[p.groupIds[0]]).results)
  {
    if p.groupIds == [] then TestResult(false, NoGroupsMessage, None)
    else if p.groupIds[0] !in groups then TestResult(false, FirstGroupMissingMessage, None)
    else Summarize(send(groups[p.groupIds[0]]))
  }

  /** The unsaved ticket the test message is about: source "test", pending,
      the payload `{"test": true}` and two fixed labels; `id` is the id the
      unsaved document carries and `token` the fresh acknowledgement token. */
  function TestTicket(p: Project, form: FormData, id: string, token: string, now: int): (t: Tickets.TicketData)
    ensures t.projectId == p.id && t.status == Tickets.Pending && t.escalationLevel == 1
    ensures (t.title, t.description, t.severity) == TestTicketText(form)
  {
    var text := TestTicketText(form);
    Tickets.TicketData(id, p.id, "test", JObj([("test", JBool(true))]), [("env", "test"), ("type", "test_message")],
                       None, text.0, text.1, text.2, token, now, Tickets.Pending, 1, None, None, None, 0, [], now, None)
  }

  /** The send the route performs: `send_to_group` of the test ticket with the
      project's template and neither the escalated nor the repeated flag. */
  function TestSend(p: Project, form: FormData, id: string, token: string, now: int,
                    templates: seq<Templates.NotificationTemplate>, env: Notifications.Env)
    : NotificationGroup -> SendAttempt
  {
    g => Sent(Notifications.GroupResults(TestTicket(p, form, id, token, now), g,
                                         Some(Templates.TemplateForProject(p, templates)), Some(p),
                                         Notifications.PlainSend, env))
  }

  /** With the real send, the test message reports on exactly what
      `send_to_group` returned for the first group; the result is a success
      exactly when some channel of that group was sent. */
  lemma TestMessageSummarizesGroupSend(p: Project, groups: map<string, NotificationGroup>, form: FormData, id: string,
                                       token: string, now: int, templates: seq<Templates.NotificationTemplate>,
                                       env: Notifications.Env)
    requires p.groupIds != [] && p.groupIds[0] in groups
    ensures var results := Notifications.GroupResults(TestTicket(p, form, id, token, now), groups[p.groupIds[0]],
                                                      Some(Templates.TemplateForProject(p, templates)), Some(p),
                                                      Notifications.PlainSend, env);
      && SendTestMessage(p, groups, TestSend(p, form, id, token, now, templates, env)) == Summarize(Sent(results))
      && (SendTestMessage(p, groups, TestSend(p, form, id, token, now, templates, env)).success <==> AnyTrue(results))
  {
    var results := Notifications.GroupResults(TestTicket(p, form, id, token, now), groups[p.groupIds[0]],
                                              Some(Templates.TemplateForProject(p, templates)), Some(p),
                                              Notifications.PlainSend, env);
    assert TestSend(p, form, id, token, now, templates, env)(groups[p.groupIds[0]]) == Sent(results);
  }

  // ---------------------------------------------------------- the routes

  /** What a form submission answers: a redirect, the form again with an
      error (400), or an exception (500). */
  datatype Reply = Redirect(url: string) | BadRequest(error: string) | ServerError

  /** The projects that do not belong to namespace `namespaceId`. */
  function ProjectsOutside(projects: map<string, Project>, namespaceId: string): (r: map<string, Project>)
    ensures forall k :: k in r <==> k in projects && projects[k].namespaceId != namespaceId
    ensures forall k :: k in r ==> r[k] == projects[k]
  {
    map k | k in projects && projects[k].namespaceId != namespaceId :: projects[k]
  }

  /** Every project belongs to a stored namespace. */
  ghost predicate ProjectsBelong(namespaces: map<string, Namespace>, projects: map<string, Project>) {
    forall k :: k in projects ==> projects[k].namespaceId in namespaces
  }

  /** The stored namespaces and projects, as the routes change them. */
  class Store {
    var namespaces: map<string, Namespace>
    var projects: map<string, Project>

    ghost predicate Valid()
      reads this
    {
      SlugsUnique(namespaces) && ProjectsBelong(namespaces, projects)
    }

    constructor ()
      ensures Valid() && namespaces == map[] && projects == map[]
    {
      namespaces := map[];
      projects := map[];
    }

    /** `create_namespace`; `id` is the fresh id the database assigns. */
    method SubmitNewNamespace(id: string, form: FormData, isWord: char -> bool) returns (reply: Reply)
      requires Valid() && id !in namespaces
      modifies this
      ensures Valid() && projects == old(projects)
      ensures CreateNamespace(old(namespaces), id, form, isWord).None? ==>
        && reply == BadRequest("Slug '" + CreateSlug(form, isWord) + "' already exists")
        && namespaces == old(namespaces)
      ensures CreateNamespace(old(namespaces), id, form, isWord).Some? ==>
        reply == Redirect("/namespaces") && namespaces == CreateNamespace(old(namespaces), id, form, isWord).value
    {
      var created := CreateNamespace(namespaces, id, form, isWord);
      if created.None? {
        return BadRequest("Slug '" + CreateSlug(form, isWord) + "' already exists");
      }
      CreateKeepsSlugsUnique(namespaces, id, form, isWord);
      namespaces := created.value;
      reply := Redirect("/namespaces");
    }

    /** `update_namespace` */
    method SubmitNamespaceEdit(id: string, form: FormData) returns (reply: Reply)
      requires Valid()
      modifies this
      ensures Valid() && projects == old(projects)
      ensures id !in old(namespaces) ==> reply == Redirect("/namespaces") && namespaces == old(namespaces)
      ensures id in old(namespaces) && UpdateNamespace(old(namespaces), id, form).None? ==>
        && reply == BadRequest("Slug '" + FormText(form, "slug") + "' already exists")
        && namespaces == old(namespaces)
      ensures id in old(namespaces) && UpdateNamespace(old(namespaces), id, form).Some? ==>
        reply == Redirect("/namespaces/" + id) && namespaces == UpdateNamespace(old(namespaces), id, form).value
    {
      if id !in namespaces {
        return Redirect("/namespaces");
      }
      var updated := UpdateNamespace(namespaces, id, form);
      if updated.None? {
        return BadRequest("Slug '" + FormText(form, "slug") + "' already exists");
      }
      UpdateKeepsSlugsUnique(namespaces, id, form);
      namespaces := updated.value;
      reply := Redirect("/namespaces/" + id);
    }

    /** `delete_namespace`: the namespace goes with all its projects. */
    method DeleteNamespace(id: string) returns (reply: Reply)
      requires Valid()
      modifies this
      ensures Valid() && reply == Redirect("/namespaces")
      ensures id !in old(namespaces) ==> namespaces == old(namespaces) && projects == old(projects)
      ensures id in old(namespaces) ==>
        namespaces == old(namespaces) - {id} && projects == ProjectsOutside(old(projects), id)
    {
      if id in namespaces {
        projects := ProjectsOutside(projects, id);
        namespaces := namespaces - {id};
      }
      reply := Redirect("/namespaces");
    }

    /** `create_project`; `projectId` is the fresh id the database assigns. */
    method SubmitNewProject(namespaceId: string, projectId: string, form: FormData, pyInt: string -> Outcome<int>)
      returns (reply: Reply)
      requires Valid() && projectId !in projects
      modifies this
      ensures Valid() && namespaces == old(namespaces)
      ensures namespaceId !in namespaces ==> reply == Redirect("/namespaces") && projects == old(projects)
      ensures namespaceId in namespaces && ProjectFromForm(projectId, namespaceId, form, pyInt).Raised? ==>
        reply == ServerError && projects == old(projects)
      ensures namespaceId in namespaces && ProjectFromForm(projectId, namespaceId, form, pyInt).Value? ==>
        && reply == Redirect("/namespaces/" + namespaceId)
        && projects == old(projects)[projectId := ProjectFromForm(projectId, namespaceId, form, pyInt).value]
    {
      if namespaceId !in namespaces {
        return Redirect("/namespaces");
      }
      var p := ProjectFromForm(projectId, namespaceId, form, pyInt);
      if p.Raised? {
        return ServerError;
      }
      projects := projects[projectId := p.value];
      reply := Redirect("/namespaces/" + namespaceId);
    }

    /** `update_project`: the namespace must exist, but the project is not
        checked to belong to it. */
    method SubmitProjectEdit(namespaceId: string, projectId: string, form: FormData, pyInt: string -> Outcome<int>)
      returns (reply: Reply)
      requires Valid()
      modifies this
      ensures Valid() && namespaces == old(namespaces)
      ensures namespaceId !in namespaces || projectId !in old(projects) ==>
        reply == Redirect("/namespaces") && projects == old(projects)
      ensures namespaceId in namespaces && projectId in old(projects) ==>
        match UpdatedProject(old(projects)[projectId], form, pyInt)
        case Raised => reply == ServerError && projects == old(projects)
        case Value(p) =>
          reply == Redirect("/namespaces/" + namespaceId + "/projects/" + projectId)
          && projects == old(projects)[projectId := p]
    {
      if namespaceId !in namespaces || projectId !in projects {
        return Redirect("/namespaces");
      }
      var p := UpdatedProject(projects[projectId], form, pyInt);
      if p.Raised? {
        return ServerError;
      }
      projects := projects[projectId := p.value];
      reply := Redirect("/namespaces/" + namespaceId + "/projects/" + projectId);
    }

    /** `delete_project`: an unknown project is ignored. */
    method DeleteProject(namespaceId: string, projectId: string) returns (reply: Reply)
      requires Valid()
      modifies this
      ensures Valid() && namespaces == old(namespaces)
      ensures projects == old(projects) - {projectId}
      ensures reply == Redirect("/namespaces/" + namespaceId)
    {
      projects := projects - {projectId};
      reply := Redirect("/namespaces/" + namespaceId);
    }

    /** `silence_project` */
    method SilenceProject(namespaceId: string, projectId: string, form: FormData, now: int,
                          pyInt: string -> Outcome<int>) returns (reply: Reply)
      requires Valid()
      modifies this
      ensures Valid() && namespaces == old(namespaces)
      ensures projectId !in old(projects) ==> reply == Redirect("/namespaces/" + namespaceId) && projects == old(projects)
      ensures projectId in old(projects) ==>
        match Silenced(old(projects)[projectId], form, now, pyInt)
        case Raised => reply == ServerError && projects == old(projects)
        case Value(p) =>
          reply == Redirect("/namespaces/" + namespaceId + "/projects/" + projectId)
          && projects == old(projects)[projectId := p]
    {
      if projectId !in projects {
        return Redirect("/namespaces/" + namespaceId);
      }
      var p := Silenced(projects[projectId], form, now, pyInt);
      if p.Raised? {
        return ServerError;
      }
      projects := projects[projectId := p.value];
      reply := Redirect("/namespaces/" + namespaceId + "/projects/" + projectId);
    }

    /** `unsilence_project` */
    method UnsilenceProject(namespaceId: string, projectId: string) returns (reply: Reply)
      requires Valid()
      modifies this
      ensures Valid() && namespaces == old(namespaces)
      ensures projectId !in old(projects) ==> reply == Redirect("/namespaces/" + namespaceId) && projects == old(projects)
      ensures projectId in old(projects) ==>
        && reply == Redirect("/namespaces/" + namespaceId + "/projects/" + projectId)
        && projects == old(projects)[projectId := Unsilenced(old(projects)[projectId])]
    {
      if projectId !in projects {
        return Redirect("/namespaces/" + namespaceId);
      }
      projects := projects[projectId := Unsilenced(projects[projectId])];
      reply := Redirect("/namespaces/" + namespaceId + "/projects/" + projectId);
    }
  }
}
