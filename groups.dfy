/** Notification groups, their channel configurations, and the contacts they
    address. Groups are shared between projects; a project's ordered list of
    group ids is its escalation path. */
module Groups {
  import opened Common

  datatype ChannelType = Feishu | Email | Sms | Slack

  function ChannelTypeValue(t: ChannelType): string {
    match t
    case Feishu => "feishu"
    case Email => "email"
    case Sms => "sms"
    case Slack => "slack"
  }

  /** The minutes offered by the `RepeatInterval` enum (0 meaning no repeat). */
  const RepeatIntervalValues: seq<int> := [0, 1, 5, 10, 30]

  datatype ChannelConfig = ChannelConfig(channelType: ChannelType, contactIds: seq<string>)

  datatype NotificationGroup = NotificationGroup(
    id: string,
    name: string,
    description: string,
    repeatInterval: Option<int>,
    channelConfigs: seq<ChannelConfig>)
  {
    /** Python truthiness of `repeat_interval`: set and non-zero. */
    predicate Repeats() { repeatInterval.Some? && repeatInterval.value != 0 }
  }

  datatype Contact = Contact(
    id: string,
    name: string,
    phones: seq<string>,
    emails: seq<string>,
    feishuWebhookUrl: string,
    note: string)
  {
    predicate HasFeishu() { feishuWebhookUrl != "" }
  }
}
