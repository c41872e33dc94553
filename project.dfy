/** A project inside a namespace: its ordered escalation path of notification
    groups, its escalation configuration and its silence window. Times are
    whole seconds; `now` stands for the clock. */
module Projects {
  import opened Common

  datatype EscalationConfig = EscalationConfig(enabled: bool, timeoutMinutes: int)

  const DefaultEscalationConfig := EscalationConfig(false, 15)

  datatype Project = Project(
    id: string,
    namespaceId: string,
    name: string,
    description: string,
    groupIds: seq<string>,
    templateId: Option<string>,
    escalation: EscalationConfig,
    isActive: bool,
    notifyOnAck: bool,
    silencedUntil: Option<int>)

  /** `is_silenced`: silenced strictly before `silenced_until`. */
  predicate IsSilenced(p: Project, now: int) {
    match p.silencedUntil
    case None => false
    case Some(until) => now < until
  }

  /** A project created with only its required fields. */
  function NewProject(id: string, namespaceId: string, name: string): (p: Project)
    ensures p.escalation == EscalationConfig(false, 15)
    ensures p.isActive && !p.notifyOnAck && p.groupIds == [] && p.templateId.None?
    ensures forall now :: !IsSilenced(p, now)
  {
    Project(id, namespaceId, name, "", [], None, DefaultEscalationConfig, true, false, None)
  }

  /** How `silence_remaining` shows a number of whole seconds. */
  datatype Remaining = Seconds(s: int) | Minutes(m: int) | Hours(h: int) | HoursMinutes(h: int, m: int)

  /** The unit chosen for `total` remaining seconds. Each shape stands for the
      one-minute (or exact-second) window of totals it is shown for. */
  function RemainingOf(total: int): (r: Remaining)
    requires total >= 0
    ensures r.Seconds? <==> total < 60
    ensures r.Seconds? ==> r.s == total
    ensures r.Minutes? <==> 60 <= total < 3600
    ensures r.Minutes? ==> 1 <= r.m < 60 && r.m * 60 <= total < r.m * 60 + 60
    ensures r.Hours? ==> 1 <= r.h && r.h * 3600 <= total < r.h * 3600 + 60
    ensures r.HoursMinutes? ==> 1 <= r.h && 1 <= r.m < 60 && r.h * 3600 + r.m * 60 <= total < r.h * 3600 + r.m * 60 + 60
  {
    if total < 60 then Seconds(total)
    else if total < 3600 then Minutes(total / 60)
    else
      var hours := total / 3600;
      var minutes := total % 3600 / 60;
      if minutes > 0 then HoursMinutes(hours, minutes) else Hours(hours)
  }

  function RemainingText(r: Remaining): string
    requires r.Seconds? ==> r.s >= 0
    requires r.Minutes? ==> r.m >= 0
    requires r.Hours? ==> r.h >= 0
    requires r.HoursMinutes? ==> r.h >= 0 && r.m >= 0
  {
    match r
    case Seconds(s) => NatToString(s) + "秒"
    case Minutes(m) => NatToString(m) + "分钟"
    case Hours(h) => NatToString(h) + "小时"
    case HoursMinutes(h, m) => NatToString(h) + "小时" + NatToString(m) + "分钟"
  }

  /** `silence_remaining` */
  function SilenceRemaining(p: Project, now: int): (r: Option<string>)
    ensures r.None? <==> !IsSilenced(p, now)
  {
    if !IsSilenced(p, now) then None
    else Some(RemainingText(RemainingOf(p.silencedUntil.value - now)))
  }

  /** Minutes offered by the silence form. */
  const SilenceDurationOptions: seq<int> := [5, 10, 15, 30, 60, 120, 360, 720, 1440]
}
