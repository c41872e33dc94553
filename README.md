# bullet — alert tickets, escalation and notification, in Dafny

bullet receives alert webhooks. It turns each one into a *ticket* of a
*project*, notifies the project's first *notification group* and, while
nobody acknowledges a critical ticket, repeats or escalates to the next
group on a periodic tick. A ticket is acknowledged through a link carrying its
token or from the web UI. It is resolved from the UI or by a later "resolved"
webhook. Channels (Feishu, Slack, Twilio SMS, e-mail) turn a ticket or an
alert group into a message.

This project models that core:

- **Model values:** `Ticket` (a class whose event log only grows), `Project`
  and its silence window, `Alert` and `AlertGroup`.
- **The escalation tick:** the per-ticket decision rule and the in-place
  bookkeeping of repeats and escalations.
- **Ingestion:** the webhook, acknowledgement by link, and acknowledge and
  resolve from the UI.
- **Dispatch:** group sends, result keys and the acknowledgement fan-out.
- **The template context and helpers:** the context and its labels, the JSON
  string escape, template lookup and the built-in sync.
- **Parsers and formatters:** the Aliyun PAI parser, the Feishu, Slack and
  Twilio message builders, the configuration router, and contact masking.
- **Namespace and project forms:** slugs, form defaults, silencing and the
  test-message summary.

Time is whole seconds, and `now` is a parameter. Stores are maps or sequences
passed in. Python dicts are insertion-ordered sequences of pairs (`Dicts.Dict`).
Things outside the core become function-typed parameters:

- the notifier, sends and HTTP posts;
- Jinja rendering and JSON parsing;
- the Grafana parser and route matching;
- ISO time parsing, the HMAC signature, and Python's `int()`.

A Python exception is the `Raised` case of `JsonValues.Outcome`.

Behaviour of the code worth knowing, which the model follows:

- **Levels are 1-based.** A ticket starts at `escalation_level` 1, and level
  L uses group L−1. `Escalation.ProcessTicket` and `Escalation.GroupAtLevel`
  therefore require a level ≥ 1.
- **A "resolved" webhook touches only PENDING tickets.** ESCALATED tickets
  stay as they are.
- **Non-critical tickets get nothing from the tick, not even repeats**,
  although the docstring of `_process_ticket` says they should be repeated.
- **The max-level marker guard looks for the marker anywhere in the log.**
- **The acknowledgement token is compared with plain string inequality.**
- **The two acknowledgement paths accept different statuses.** The link path
  accepts IGNORED tickets too; the UI path accepts only PENDING and ESCALATED.
- **The acknowledgement fan-out follows `escalation_level`**, not the event log.

## Model

| member | source | states |
|---|---|---|
| Tickets.ParseStatus | app/models/ticket.py:12-17 | the five status values are recognised exactly, and each parses back to its own status |
| Tickets.ParseEventType | app/models/ticket.py:20-28 | the eight event types are recognised exactly, and each parses back to its own type |
| Tickets.CanEscalateIgnoresCase | app/models/ticket.py:109-118 | escalation depends on the lower-cased severity only; "critical" escalates exactly for pending or escalated tickets; an empty severity never escalates |
| Tickets.Ticket.constructor | app/models/ticket.py:53-85 | a new ticket is pending at level 1, with no acknowledgement, a notification count of 0 and an empty event log |
| Tickets.Ticket.AddEvent | app/models/ticket.py:120-137 | exactly one event with the given fields is appended at the end; earlier events and every other field are unchanged |
| Tickets.StatusTestsExclusive | app/models/ticket.py:97-107 | the `is_*` tests exclude one another, and an escalated ticket satisfies none of them |
| Tickets.CountEventsAppend | app/models/ticket.py:120-137 | appending an event raises the count of its type by one and leaves the other counts alone |
| Projects.NewProject | app/models/project.py:13-14 | the default project has escalation off after 15 minutes; it is active, has notify-on-ack off, has no groups and no template, and is never silenced |
| Projects.RemainingOf | app/models/project.py:60-70 | under 60 s the text shows seconds, under 3600 s whole minutes, otherwise hours, plus minutes only when they are non-zero; each unit brackets the remaining time |
| Projects.SilenceRemaining | app/models/project.py:54-57 | there is a remaining-time text exactly when the project is silenced |
| Alerts.ParseAlertStatus | app/models/alert.py:10 | "ignored", "firing" and "resolved" are recognised exactly |
| Alerts.NewAlert | app/models/alert.py:13-28 | an alert's severity defaults to "warning", its texts to "", its dicts to empty, and it has no end time |
| Alerts.WithStatus | app/models/alert.py:52-57 | the filtered list holds exactly the alerts of that status, and all of them have it |
| Alerts.WithStatusAppend | app/models/alert.py:52-57 | filtering distributes over concatenation, so it keeps the original order |
| Alerts.StatusPartition | app/models/alert.py:10 | the firing, resolved and ignored sublists together account for every alert |
| Alerts.FiringResolvedDisjoint | app/models/alert.py:52-57 | no alert is both firing and resolved; ignored alerts are in neither list; the two lengths sum to at most the number of alerts |
| Escalation.GroupAtLevel | app/services/escalation.py:90-100 | level L names the group `group_ids[L-1]` when that index exists and the group is stored, otherwise none |
| Escalation.Tick | app/services/escalation.py:70-158 | one tick appends at most one event, raises the level by at most one and the count by at most one, may only set the status to escalated, and changes nothing else |
| Escalation.TickNeedsCritical | app/services/escalation.py:82-88 | a ticket that cannot escalate is left exactly as it was, with no repeat |
| Escalation.TickBeforeTimeout | app/services/escalation.py:108-118 | before the timeout the ticket is repeated exactly when its group has a repeat interval that has passed, and is otherwise unchanged |
| Escalation.RepeatedBookkeeping | app/services/escalation.py:161-190 | a repeat keeps the status and the level, adds one to the count, stamps `now`, and appends one REPEATED event whose success means some channel succeeded |
| Escalation.TickEscalates | app/services/escalation.py:142-158 | after the timeout, below the last level, the ticket becomes escalated at level+1, with the count up by one, `now` stamped and one ESCALATED event carrying the new level |
| Escalation.TickMaxLevelOnce | app/services/escalation.py:121-140 | a tick adds a MAX_LEVEL_REACHED event only to a log that has none |
| Escalation.RunTicksMaxLevelOnce | app/services/escalation.py:129 | however many ticks run, the log holds at most one MAX_LEVEL_REACHED event |
| Escalation.RepeatNotification | app/services/escalation.py:161-190 | the ticket after the method is the repeated ticket for the notifier's results |
| Escalation.EscalateTicket | app/services/escalation.py:195-228 | status and level change before the send, and the notifier sees the escalated ticket |
| Escalation.ProcessTicket | app/services/escalation.py:70-158 | the ticket after the method is exactly `Tick` of the ticket before it |
| Escalation.CheckProjectTickets | app/services/escalation.py:42-67 | only the project's pending or escalated tickets are stepped; every other ticket is untouched; levels stay ≥ 1 |
| Escalation.TickedProjectFor | app/services/escalation.py:29-38 | a tick processes a project exactly when escalation is enabled, it is active and it is not silenced |
| Escalation.CheckAndEscalate | app/services/escalation.py:21-39 | each stored ticket takes the step of the ticked project it belongs to, and tickets of unticked projects are untouched |
| Webhook.ParserFor | app/api/webhook.py:26-31 | only "grafana" has a parser |
| Webhook.ParsedInfo | app/api/webhook.py:54-72 | with alerts, the title is the first alert's name, else its summary, and its labels override the group's; without alerts the texts are empty; parsed data is the dump |
| Webhook.FallbackInfo | app/api/webhook.py:76-84 | the fallback raises unless the payload is an object and never has parsed data |
| Webhook.ExtractTicketInfo | app/api/webhook.py:34-84 | without a parser, or when it raises, the fallback is used; otherwise the parsed info |
| Webhook.FallbackTitleOrder | app/api/webhook.py:78-82 | title is "title", else "alertname", else "name", else ""; status defaults to "firing" |
| Webhook.ParsedLabelsOverride | app/api/webhook.py:61 | a label of the first alert wins over the group label of the same name; other group labels survive |
| Webhook.ValidateFields | app/api/webhook.py:165-176 | a ticket is built only from an object payload with text title, description and severity, and the parsed data travels unchanged |
| Webhook.PlanWebhook | app/api/webhook.py:98-138 | unknown namespace or a project that is missing or of another namespace is 404; an inactive project is ignored; any other branch has a body and an active project |
| Webhook.AutoResolve | app/api/webhook.py:145-150 | only the project's pending tickets change: resolved at `now`, with one RESOLVED event |
| Webhook.AutoResolveTicket | app/api/webhook.py:145-150 | the ticket after the method is `AutoResolve` of it |
| Webhook.ResolvePendingTickets | app/api/webhook.py:138-162 | every ticket becomes `AutoResolve` of itself, and the reported count is the number of pending tickets of the project |
| Webhook.CreatedTicket | app/api/webhook.py:164-224 | a new ticket is pending at level 1 with two events, CREATED first. A silenced project adds NOTIFIED_SILENCED and sends nothing; otherwise NOTIFIED, whose success means some channel succeeded, a count of 1 and `now` stamped |
| Webhook.CreateAndNotify | app/api/webhook.py:164-235 | the fresh ticket is `CreatedTicket` for the results of notifying level 1 |
| Webhook.ReceiveWebhook | app/api/webhook.py:87-235 | a rejected request changes nothing; a resolved alert only resolves pending tickets and creates none; otherwise exactly one ticket is created |
| Ack.ParseFormat | app/api/ack.py:80-97 | "json" and "html" are recognised; anything else answers with a redirect |
| Ack.LinkAckOutcome | app/api/ack.py:27-59 | the guards run in order: missing ticket, token mismatch, already acknowledged, already resolved; anything else, IGNORED included, is acknowledged |
| Ack.LinkAcknowledged | app/api/ack.py:61-70 | the ticket becomes acknowledged by "link" at `now` with exactly one ACKNOWLEDGED event |
| Ack.RespondCodes | app/api/ack.py:29-59 | a missing ticket answers 404 and a wrong token 403 in every format; the other answers are 200 or 302 |
| Ack.AcknowledgeViaLink | app/api/ack.py:17-97 | the ticket changes only on a fresh acknowledgement, the same way for every format, and the notification afterwards cannot undo it |
| TicketsWeb.Skip | app/web/tickets.py:31-48 | for valid paging the offset `(page-1)*per_page` is non-negative and a whole number of pages |
| TicketsWeb.TotalPagesCeiling | app/web/tickets.py:79 | total_pages·per_page ≥ total, and (total_pages−1)·per_page < total when there are tickets |
| TicketsWeb.PagesCoverListing | app/web/tickets.py:79 | every page from 1 to total_pages starts inside the listing |
| TicketsWeb.StatusFilter | app/web/tickets.py:41-45 | absent, empty or "all" means no filter, an unknown value is ignored, and a known one filters by that status |
| TicketsWeb.UnknownStatusIgnored | app/web/tickets.py:41-45 | an unknown status lists exactly what no status lists |
| TicketsWeb.Listed | app/web/tickets.py:36-64 | the listing holds exactly the tickets matching the project and status filters |
| TicketsWeb.ListPage | app/web/tickets.py:36-64 | the page is the listing's slice from `skip`, at most `per_page` long, and the total is the listing's length |
| TicketsWeb.UiAckStep | app/web/tickets.py:137-146 | only pending or escalated tickets change: acknowledged by the user at `now` with one ACKNOWLEDGED event |
| TicketsWeb.AcknowledgeFromUi | app/web/tickets.py:130-154 | the ticket after the method is `UiAckStep` of it, and the reply redirects |
| TicketsWeb.AckPathsCompared | app/web/tickets.py:137 | whatever the UI acknowledges the link path also acknowledges, but the link path also takes IGNORED tickets |
| TicketsWeb.UiResolveStep | app/web/tickets.py:164-172 | any ticket not yet resolved becomes resolved at `now` with one RESOLVED event |
| TicketsWeb.ResolvedAbsorbing | app/web/tickets.py:164-172 | resolving a resolved ticket changes nothing, whoever does it and whenever |
| TicketsWeb.ResolveFromUi | app/web/tickets.py:157-174 | the ticket after the method is `UiResolveStep` of it |
| Notifications.SendContext | app/services/notification.py:60-72 | a group send renders with the ticket's count plus one, both at the top level and in the ticket, with the label of the given flags |
| Notifications.RenderAll | app/services/notification.py:60-75 | without a template nothing is rendered; with one, e-mail and SMS are rendered, and an empty card template gives no card |
| Notifications.EventMeta | app/services/notification.py:78-88 | the rendered card travels in `meta` exactly when it is truthy |
| Notifications.ResolveContacts | app/services/notification.py:123-129 | the resolved contacts are exactly the stored ones whose non-empty id is listed |
| Notifications.PerContactKeys | app/services/notification.py:133-140 | the per-contact results are keyed exactly `kind:name` for the contacts that have a target |
| Notifications.SendPerContact | app/services/notification.py:133-140 | the loop's results are `PerContactResults` |
| Notifications.EmailOverride | app/services/notification.py:150-153 | the rendered e-mail replaces the default only when subject and body are both non-empty |
| Notifications.SmsOverride | app/services/notification.py:177 | the rendered SMS replaces the default only when it is non-empty |
| Notifications.AggregateResults | app/services/notification.py:142-182 | an aggregate channel gives one result, or none when no address was gathered |
| Notifications.GatheredAddresses | app/services/notification.py:142-182 | the aggregate send reaches every address of every resolved contact, and no other |
| Notifications.EmailSendsOnce | app/services/notification.py:142-160 | an e-mail configuration gives at most one result, under "email" |
| Notifications.SendToChannelConfig | app/services/notification.py:106-193 | the method's results are `ChannelResults` |
| Notifications.ChannelKeysDisjoint | app/services/notification.py:138-189 | configurations of different channel types never report the same key |
| Notifications.ConfigsResultsHasKey | app/services/notification.py:98-104 | a group reports every key any of its configurations reports |
| Notifications.ConfigsResultsKeySource | app/services/notification.py:98-104 | every key a group reports comes from one of its configurations |
| Notifications.ConfigsResultsLastWins | app/services/notification.py:98-104 | when configurations share a key, the last one's result is kept |
| Notifications.SendToGroup | app/services/notification.py:90-104 | the method's results are `GroupResults`, and the ticket is not changed |
| Notifications.NotifyResults | app/services/notification.py:195-230 | a missing project or no group at the level gives no results; otherwise the results are the plain `send_to_group` of that level's group with the project's template |
| Notifications.NotifyMatchesEscalationNotifier | app/services/notification.py:195-230 | the first notification is what the escalation notifier sends for the same level with neither the escalated nor the repeated flag |
| Notifications.NotifyTicket | app/services/notification.py:195-230 | the method's results are `NotifyResults` |
| Notifications.LevelKeyInjective | app/services/notification.py:290-291 | different (level, key) pairs give different `L{level}:{key}` keys |
| Notifications.PrefixedKeys | app/services/notification.py:290-291 | the prefixed results hold `L{l}:{k}` exactly when l is their level and k is a key of the group |
| Notifications.AckReach | app/services/notification.py:254-278 | the fan-out reaches the ticket's level, capped by the number of groups |
| Notifications.AckResults | app/services/notification.py:232-293 | a missing project or notify-on-ack off gives no results |
| Notifications.AckFanOut | app/services/notification.py:254-293 | each level from 1 to the reach contributes its group's results under `L{l}:` keys, a missing group contributes nothing, and no other key appears |
| Notifications.MergePrefixed | app/services/notification.py:289-291 | merging writes the level-prefixed results over the earlier ones |
| Notifications.NotifyTicketAcknowledged | app/services/notification.py:232-293 | the method's results are `AckResults` |
| Templates.LabelPrecedence | app/services/template.py:91-99 | an acknowledgement label hides the escalation and repeat flags, escalation hides repeats, and without flags and with count ≤ 1 the label is empty |
| Templates.AckUrlRoundTrip | app/services/template.py:71-106 | the ack link splits at its first '?' into the ack path and `token=` plus the ticket's token |
| Templates.BuildContext | app/services/template.py:43-124 | the context count is the given one, else count plus one, and the ticket's copy agrees; "project" exists exactly when a project was given; the links and label are those of the ticket |
| Templates.RenderString | app/services/template.py:126-143 | an empty template or a failing render gives "", and a non-empty result is the render's output |
| Templates.RenderFeishuCard | app/services/template.py:145-163 | an empty card template gives no card, and a card only comes from a non-empty render |
| Templates.FindTemplate | app/services/template.py:185-213 | a found template is stored and has the key; when none is found no stored template has it |
| Templates.TemplateForProject | app/services/template.py:185-213 | the project's own template when it exists, else the stored "default", else the built-in fallback |
| Templates.IndexByName | app/services/template.py:215-239 | the index found is the first template of that name; none means no template has it |
| Templates.SyncOne | app/services/template.py:215-239 | a missing name appends exactly the built-in; a stored built-in of that name takes its content; nothing else changes; names and flags are kept and stay unique |
| Templates.WithContentSyncs | app/services/template.py:224-231 | the update copies the built-in's description, card, e-mail and SMS texts and keeps everything else of the stored template |
| Templates.SyncKeepsUserTemplates | app/services/template.py:221-239 | a user template is never touched, even when it shares a built-in's name |
| Templates.SyncKeepsOtherNames | app/services/template.py:221-239 | templates of other names are untouched |
| Templates.SyncKeepsNames | app/services/template.py:221-239 | every position keeps its name, so nothing is renamed or removed |
| Templates.SyncKeepsNamesUnique | app/services/template.py:221-239 | names stay unique through the sync |
| Templates.SyncProvidesBuiltin | app/services/template.py:221-239 | after the sync every built-in's name is stored |
| Templates.SyncBuiltinContent | app/services/template.py:221-239 | after the sync a stored built-in holds the content of the last built-in of its name |
| Templates.TemplateStore.EnsureBuiltinTemplates | app/services/template.py:215-239 | the store after the method is `Sync` of the store before it |
| JsonEscape.JsonEscapeFilter | app/services/template.py:17-30 | None gives ""; any other value gives a JSON string body that decodes back to its Python `str` text |
| JsonValues.PyStrKinds | app/services/template.py:27 | `str` of a value that is not a string is never empty, and its first character tells the kind of value |
| JsonValues.ReprPlainText | app/services/template.py:27 | inside a container, plain printable text is shown verbatim between single quotes |
| JsonEscape.UnescapeEscape | app/services/template.py:17-30 | decoding the escaped text by section 7 of RFC 8259 gives the original string back |
| JsonEscape.EscapeInjective | app/services/template.py:17-30 | different strings never escape to the same text |
| JsonEscape.EscapePlainText | app/services/template.py:17-30 | printable ASCII other than quote and backslash passes through unchanged |
| JsonEscape.Hex4RoundTrip | app/services/template.py:17-30 | the four-digit hex escape reads back as its code unit |
| Aliyun.Separator | app/sources/aliyun_pai.py:108-116 | a text item splits at its first full-width colon, else at its first ASCII colon |
| Aliyun.TextFieldSets | app/sources/aliyun_pai.py:108-116 | a text item sets exactly one key, the stripped text before the colon, to the stripped rest; other keys keep their values |
| Aliyun.ItemFields | app/sources/aliyun_pai.py:105-120 | an anchor sets "_url" to its href; other tags change nothing; a non-object item raises |
| Aliyun.LineFields | app/sources/aliyun_pai.py:101-120 | an empty line changes nothing |
| Aliyun.ParseLine | app/sources/aliyun_pai.py:101-120 | the inner loop gives the fields of the line's items in order |
| Aliyun.ParseContentFields | app/sources/aliyun_pai.py:97-122 | the nested loop gives `ContentFields`, later keys overwriting earlier ones |
| Aliyun.ContentFieldsKeysUnique | app/sources/aliyun_pai.py:97-122 | the parsed fields have every key once |
| Aliyun.MapSeverity | app/sources/aliyun_pai.py:135-145 | Failed is critical, Stopped a warning, the four routine statuses info, anything else a warning |
| Aliyun.MapStatus | app/sources/aliyun_pai.py:147-156 | the routine statuses and "" are ignored; everything else fires, and nothing is ever resolved |
| Aliyun.SeverityAgreesWithStatus | app/sources/aliyun_pai.py:135-156 | an ignored notification is never critical, and a critical one always fires |
| Aliyun.ParseTimestamp | app/sources/aliyun_pai.py:124-133 | an empty time is `now`; a stripped time the ISO parser accepts gives the parsed time; one it refuses gives `now` |
| Aliyun.DropEmpty | app/sources/aliyun_pai.py:61-69 | exactly the pairs with non-empty values are kept |
| Aliyun.DropEmptyAppend | app/sources/aliyun_pai.py:61-69 | the filter distributes over concatenation and keeps a single pair exactly when its value is non-empty, so order is kept |
| Aliyun.ParseShape | app/sources/aliyun_pai.py:81-95 | a parsed notification is one group of exactly one alert, both carrying the raw payload, with no end time |
| Aliyun.EmptyPayload | app/sources/aliyun_pai.py:20-30 | an empty payload gives an ignored group whose alert is named "Unknown" with severity warning |
| Aliyun.NumericTitleShown | app/sources/aliyun_pai.py:20-77 | a numeric title is shown with `str` in the summary rather than refused |
| Aliyun.StatusFromTaskStatus | app/sources/aliyun_pai.py:42-46 | the job's status field alone decides the status and the severity |
| FeishuChannel.NewFeishuBot | app/channels/feishu.py:30-40 | a missing secret is "", and the bot is enabled exactly when it has a webhook URL |
| FeishuChannel.StatusColor | app/channels/feishu.py:50-51 | red exactly when firing, else green |
| FeishuChannel.WithoutAlertname | app/channels/feishu.py:86 | the labels shown are exactly those other than "alertname", in order |
| FeishuChannel.AlertElementsShape | app/channels/feishu.py:53-104 | an alert's block opens with its name; summary, description and link lines appear exactly when non-empty; the label heading and lines appear exactly when a label other than "alertname" exists |
| FeishuChannel.FormatAlertElement | app/channels/feishu.py:53-104 | the method's elements are `AlertElements` |
| FeishuChannel.AlertSeparators | app/channels/feishu.py:121-124 | consecutive alerts are separated by exactly one rule, and none comes before the first |
| FeishuChannel.BuildCardMessage | app/channels/feishu.py:106-141 | the method's card is `GroupCard` |
| FeishuChannel.GroupCardShape | app/channels/feishu.py:106-141 | the header names the first alert, or "Unknown", and is red exactly when firing; the body ends with a rule and the firing and resolved counts |
| FeishuChannel.SeverityColor | app/channels/feishu.py:170-176 | critical and error are red, warning orange, anything else blue, all case-insensitively |
| ChannelEvents.TicketTitle | app/channels/feishu.py:159-162 | the title is `str` of the ticket's title when truthy, else of the payload's title, else "Alert"; it raises only for a non-dict payload |
| FeishuChannel.TicketCardBounds | app/channels/feishu.py:154-232 | the description block holds at most 500 characters, the label line at most five labels, and the card carries the acknowledge button with the ticket's link |
| FeishuChannel.SelectionOrder | app/channels/feishu.py:246-264 | a dict template card wins over a ticket id, which wins over the alert card; text is used otherwise, or when the alert group does not validate |
| FeishuChannel.Signed | app/channels/feishu.py:266-270 | timestamp and signature are added exactly when a secret is configured |
| FeishuChannel.Send | app/channels/feishu.py:241-282 | success means the chosen, signed message was posted and the response code was 0 |
| SlackChannel.SeverityEmoji | app/channels/slack.py:31-39 | 🔴 for critical and error, 🟠 for warning, 🔵 otherwise, all case-insensitively |
| SlackChannel.TicketFooter | app/channels/slack.py:141 | without a ticket id the footer names only the source |
| SlackChannel.TicketBlocksBounds | app/channels/slack.py:54-152 | the message opens with its header, which is also its fallback text; the description holds at most 2000 characters and the labels at most ten; the acknowledge button carries the ticket's link |
| SlackChannel.Cut100 | app/channels/slack.py:165 | text is cut to 100 characters; a value that cannot be sliced raises |
| SlackChannel.FindFallback | app/channels/slack.py:154-171 | the loop's fallback is `TemplateFallback` |
| SlackChannel.FallbackFromFirstTextBlock | app/channels/slack.py:157-166 | after blocks of other types, a header gives its text and a section its text cut to 100 characters |
| SlackChannel.SkipOthers | app/channels/slack.py:157-166 | blocks that are neither header nor section do not affect the fallback |
| SlackChannel.TemplateBlocksMessage | app/channels/slack.py:154-171 | the template blocks pass through unchanged with their fallback text |
| SlackChannel.ChooseMessage | app/channels/slack.py:183-194 | list template blocks win over a ticket id, which wins over plain text |
| SlackChannel.Send | app/channels/slack.py:173-208 | without a webhook URL, false and nothing is posted; otherwise success exactly when the response body is "ok" |
| TwilioChannel.ConfiguredFromEitherSource | app/channels/twilio_sms.py:28-43 | the channel is enabled exactly when each credential is given either directly or by the settings |
| TwilioChannel.SmsTitle | app/channels/twilio_sms.py:55-64 | the title is `str` of the payload's title, or of the first alert's name or summary when the title is falsy and alerts are given; it raises exactly for a non-dict payload, a non-list "alerts" or a non-dict first alert |
| TwilioChannel.NullTitleReadsNone | app/channels/twilio_sms.py:55-64 | a null title with no alerts reads "None" |
| TwilioChannel.FullMessage | app/channels/twilio_sms.py:62-71 | "[source] title", then " \| " and the labels when there are any |
| TwilioChannel.OnlyThreeLabels | app/channels/twilio_sms.py:67-68 | labels after the third never reach the message |
| TwilioChannel.Truncate | app/channels/twilio_sms.py:73-75 | a message of at most 155 characters is kept; a longer one becomes its first 152 and "..." |
| TwilioChannel.TruncateIdempotent | app/channels/twilio_sms.py:73-75 | truncating twice is truncating once |
| TwilioChannel.FormatMessage | app/channels/twilio_sms.py:51-77 | the formatted message is at most 155 characters |
| TwilioChannel.MessageBody | app/channels/twilio_sms.py:90 | a non-empty override replaces the formatted message |
| TwilioChannel.DeliveredPositive | app/channels/twilio_sms.py:93-108 | some message went out exactly when some recipient accepted one |
| TwilioChannel.Send | app/channels/twilio_sms.py:79-108 | false without sending when unconfigured or without recipients; otherwise true exactly when some recipient accepted, every recipient being tried |
| TwilioChannel.SendSms | app/channels/twilio_sms.py:111-128 | success needs the settings' credentials and a recipient who accepted |
| Router.CreateChannel | app/router.py:33-67 | an unknown channel type raises; each known type builds its channel from the configuration, with the e-mail settings as fallback |
| Router.CreateChannels | app/router.py:79-82 | a route's channels in order, raising when any channel type is unknown |
| Router.UnnamedKeysDiffer | app/router.py:78 | unnamed routes at different positions get different keys |
| Router.TableHoldsLastRoute | app/router.py:77-82 | the table holds under each key the channels of the last route with that key |
| Router.SharedNameTakesLaterChannels | app/router.py:77-102 | two routes of one name: the first matches, yet the lookup gives the second one's channels |
| Router.NewAlertRouter | app/router.py:73-84 | every route's channels are built once, and any unknown type raises |
| Router.KeyedAgreesWhenKeysDistinct | app/router.py:97-102 | when no two routes share a key, the keyed lookup gives the matched route's own channels |
| Router.FirstMatch | app/router.py:97-105 | the first route in configuration order that matches, or none when no route matches |
| Router.FindRoute | app/router.py:90-105 | the first matching route with its channels, or no route and no channels |
| Router.SendAllKeys | app/router.py:125-128 | every channel has a result under its name, and every result belongs to a channel |
| Router.SendAllResult | app/router.py:125-128 | a channel whose name no later channel shares keeps its own result |
| Router.SendEach | app/router.py:125-135 | the loop's results are `SendAll` |
| Router.RouteEvent | app/router.py:118-135 | no route gives no results; otherwise every channel of the matched route is sent to once, in order |
| Router.WrapAlertGroup | app/router.py:107-116 | an alert group travels as an "alert" event with its source and labels and its raw payload in `meta` |
| ContactsWeb.Stars | app/web/contacts.py:19-20 | n stars |
| ContactsWeb.MaskPhone | app/web/contacts.py:16-20 | same length; up to 2 characters all kept, 3–7 first and last kept, longer first 3 and last 4 kept, every other character starred |
| ContactsWeb.MaskPhoneIdempotent | app/web/contacts.py:16-20 | masking twice is masking once |
| ContactsWeb.MaskEmail | app/web/contacts.py:23-32 | no "@" leaves it unchanged; otherwise same length, the domain after the last "@" kept, a local part of at most 2 all stars, a longer one first and last kept |
| ContactsWeb.MaskEmailIdempotent | app/web/contacts.py:23-32 | masking twice is masking once |
| ContactsWeb.CommaList | app/web/contacts.py:93-94 | the entries are non-empty, stripped and comma-free; a text without a comma gives its stripped self, or nothing when blank |
| ContactsWeb.NonEmptyStrippedAppend | app/web/contacts.py:93-94 | the entries are read piece by piece: the list distributes over concatenation of pieces |
| ContactsWeb.NonEmptyStrippedOne | app/web/contacts.py:93-94 | one piece gives its stripped text, or nothing when that is empty |
| ContactsWeb.NonEmptyStrippedAreStripped | app/web/contacts.py:93-94 | every entry kept is already stripped |
| Common.JoinSplit | app/web/contacts.py:93 | the pieces of a split joined with the separator give the text back |
| Common.StripIdempotent | app/web/contacts.py:93 | stripping twice strips no more than once |
| ContactsWeb.CommaListRoundTrip | app/web/contacts.py:93-94 | a list of stripped, non-empty, comma-free entries joined by commas reads back as the same list |
| ContactsWeb.ContactFromForm | app/web/contacts.py:93-104 | phones and e-mails are the form's comma lists |
| ContactsWeb.UpdateContact | app/web/contacts.py:136-151 | an unknown id changes nothing; otherwise the fields are replaced and the id kept |
| ContactsWeb.ContactForDisplay | app/web/contacts.py:35-55 | an admin sees the raw phones and e-mails, anyone else the masked ones, one for one |
| ContactsWeb.NonAdminSeesOnlyShownDigits | app/web/contacts.py:48-53 | a non-admin sees a star at every hidden position of a phone |
| NamespacesWeb.KeepSlugChars | app/web/namespaces.py:40 | only word characters, whitespace and '-' survive, and text made only of those is unchanged |
| NamespacesWeb.KeepSlugCharsAppend | app/web/namespaces.py:40 | the filter distributes over concatenation and keeps a single character exactly when it is a word character or a separator, so all kept characters stay in order |
| NamespacesWeb.CollapseRuns | app/web/namespaces.py:41 | runs of '-' and whitespace become one '-': no whitespace and no "--" remain |
| NamespacesWeb.Slugify | app/web/namespaces.py:37-42 | the slug is lower case, has no whitespace and no two hyphens in a row |
| NamespacesWeb.SlugifyIdempotent | app/web/namespaces.py:37-42 | slugifying a slug gives it back |
| NamespacesWeb.FormGetLast | app/web/namespaces.py:84 | a form value is the one given last for its key |
| NamespacesWeb.FormInt | app/web/namespaces.py:260-263 | a missing or empty field gives the default, else the parsed number |
| NamespacesWeb.CreateSlug | app/web/namespaces.py:86-93 | an empty slug field falls back to the slug of the name |
| NamespacesWeb.CreateNamespace | app/web/namespaces.py:80-112 | a taken slug is rejected; otherwise a namespace with the stripped name and description and the form's slug is stored under the new id and nothing else changes |
| NamespacesWeb.UpdateNamespace | app/web/namespaces.py:162-200 | an unknown id changes nothing; a slug held by another namespace is rejected; otherwise the fields are replaced |
| NamespacesWeb.CreateKeepsSlugsUnique | app/web/namespaces.py:96-103 | creating keeps slugs unique |
| NamespacesWeb.UpdateKeepsSlugsUnique | app/web/namespaces.py:178-189 | updating keeps slugs unique, and keeping one's own slug is never rejected |
| NamespacesWeb.FormEscalation | app/web/namespaces.py:259-263 | enabled is the checkbox, and the timeout defaults to 15 |
| NamespacesWeb.FormTemplateId | app/web/namespaces.py:265-268 | an empty template field means no template |
| NamespacesWeb.ProjectFromForm | app/web/namespaces.py:247-289 | a new project belongs to the namespace, is active and not silenced, and takes name, description, groups, template, escalation settings and notify-on-ack from the form |
| NamespacesWeb.EmptyFormMakesDefaultProject | app/web/namespaces.py:255-284 | an empty form creates the default project |
| NamespacesWeb.UpdatedProject | app/web/namespaces.py:377-406 | the edit keeps id, namespace and silence window and takes every other field from the form |
| NamespacesWeb.UpdateAgreesWithCreate | app/web/namespaces.py:378-406 | the edit form sets the fields the create form sets, apart from is-active and the kept silence window |
| NamespacesWeb.Silenced | app/web/namespaces.py:441-448 | silenced until `now` plus the duration, 30 minutes when the field is missing |
| NamespacesWeb.SilenceWindow | app/web/namespaces.py:441-448 | after silencing for m minutes the project is silenced exactly before `now + 60m` |
| NamespacesWeb.DefaultSilenceLastsHalfAnHour | app/web/namespaces.py:441-446 | without a duration the silence lasts exactly 1800 seconds |
| NamespacesWeb.Unsilenced | app/web/namespaces.py:467 | the project is never silenced afterwards, and nothing else changes |
| NamespacesWeb.CountsAddUp | app/web/namespaces.py:549-550 | successes and failures add up to the number of results |
| NamespacesWeb.Summarize | app/web/namespaces.py:549-575 | no results fails; success exactly when some channel succeeded; an exception fails with its text |
| NamespacesWeb.PartialSuccess | app/web/namespaces.py:566-571 | a mixed outcome is a partial success with both counts |
| NamespacesWeb.TestTicketText | app/web/namespaces.py:489-496 | a non-empty stripped title or description is kept, an empty one becomes the stock text; a missing severity is "warning" |
| NamespacesWeb.SendTestMessage | app/web/namespaces.py:498-579 | no groups and a missing first group each fail with their message; success needs the first group's send to have some success |
| NamespacesWeb.TestTicket | app/web/namespaces.py:521-532 | the test ticket is pending at level 1 in the project, with the form's title, description and severity |
| NamespacesWeb.TestMessageSummarizesGroupSend | app/web/namespaces.py:534-575 | with the real send, the test result summarises the `send_to_group` results of the first group and succeeds exactly when some channel was sent |
| NamespacesWeb.ProjectsOutside | app/web/namespaces.py:209 | exactly the projects of other namespaces remain |
| NamespacesWeb.Store.SubmitNewNamespace | app/web/namespaces.py:80-112 | a taken slug answers 400 and changes nothing; otherwise the namespace is stored, and slugs stay unique |
| NamespacesWeb.Store.SubmitNamespaceEdit | app/web/namespaces.py:162-200 | follows `UpdateNamespace`, keeping slugs unique |
| NamespacesWeb.Store.DeleteNamespace | app/web/namespaces.py:203-212 | the namespace goes together with all its projects |
| NamespacesWeb.Store.SubmitNewProject | app/web/namespaces.py:247-289 | an unknown namespace changes nothing; otherwise `ProjectFromForm` is stored |
| NamespacesWeb.Store.SubmitProjectEdit | app/web/namespaces.py:366-414 | the stored project becomes `UpdatedProject` of it |
| NamespacesWeb.Store.DeleteProject | app/web/namespaces.py:417-426 | the project is removed |
| NamespacesWeb.Store.SilenceProject | app/web/namespaces.py:429-455 | the stored project becomes `Silenced` of it |
| NamespacesWeb.Store.UnsilenceProject | app/web/namespaces.py:458-474 | the stored project becomes `Unsilenced` of it |

## Left out

- The scheduler lifecycle (`start_scheduler`, `stop_scheduler`, the APScheduler job) is left out: one tick is `Escalation.CheckAndEscalate`.
- Concurrency is left out. The code has no guard against a tick racing an acknowledgement, and every operation is modelled as running alone.
- Persistence is left out. MongoDB and Beanie calls become maps and sequences passed in, and object ids are parameters.
- Network I/O is left out: the HTTP posts of Feishu, Slack and e-mail, and the Twilio client. Each send is an oracle returning a boolean, a response code or a raise.
- HMAC-SHA256 signing, base64 and `secrets.token_urlsafe` are left out. Signatures are an oracle; tokens and ids are opaque strings.
- The clock, time zones and ISO 8601 parsing are left out. Times are integer seconds, and the local time text of a Feishu card is a parameter.
- Jinja rendering is left out. `render` is an uninterpreted function that may fail, and the template texts themselves are not modelled.
- The JSON serialisation of the plain-text Feishu and Slack messages is not modelled; `TextBody` keeps its parts.
- `GrafanaSource`, the route `matches` rule, `send_safe` and pydantic validation are not part of this model. They are parameters.
- The Slack branch of `_send_to_channel_config` refers to a channel class and a contact field that the shown code does not define. It is an opaque per-contact target (`slackIdOf`).
- The Slack bot channel and the Resend e-mail channel are constructed by the router, but their sending is not part of this model.
- The regex search of `list_tickets` is left out, because MongoDB regex semantics are outside the model. Listings are filtered by project and status only.
- Sorting by `created_at` in `list_tickets` is left out: the listing keeps the store's order.
- `lower()` and `upper()` cover ASCII only, and there is no Unicode case folding.
- The Slack webhook URL and Slack bot token of a contact are not stored in the model's `Contact`.
- The GET routes that only render pages (lists, forms, detail views) are left out. Only the detail page's acknowledger lookup is modelled, as `TicketsWeb.LooksUpAcknowledger`.
- The project detail page of `_render_project_detail_with_test_result` is left out. Only the test result it shows is modelled.
- Notifications.SendContext: the rendered body of each channel is not modelled, only the context it is rendered with.
- Escalation.CheckAndEscalate: its `ensures` describes the effect on each ticket through `TickStep`; the order in which projects and tickets are visited is not stated.
- Python's `repr` escapes every non-printable Unicode character. Inside a list or dict, `JsonValues.PyStr` escapes only the C0, DEL and C1 control characters. Floats are not values of the model, so their `str` is not modelled.
- A non-string `ticket_id`, `ack_token`, `description` or `severity` in an event's `meta` is treated as raising, where Python would format some of them with `str`. The core always puts strings there.

## Findings

| source | as written | input that shows it | evidently intended | confidence | as-written member | corrected member |
|---|---|---|---|---|---|---|
| app/router.py:77-102 | `__init__` stores each route's channels under its name. A later route of the same name replaces the earlier one's channels, and `find_route` looks the matched route up by name. | routes `[ops → feishu, ops → slack]` and an event matching the first: it is sent to Slack | each route is sent through its own channels | medium, not executed | Router.SharedNameTakesLaterChannels | Router.RouteEvent |
