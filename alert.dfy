/** The unified alert model every source parser produces: one `Alert` per
    alert and an `AlertGroup` per webhook payload. */
module Alerts {
  import opened Common
  import opened Dicts
  import opened JsonValues

  /** "ignored" exists so that routine Aliyun PAI messages create no ticket. */
  datatype AlertStatus = Ignored | Firing | Resolved

  function AlertStatusValue(s: AlertStatus): string {
    match s
    case Ignored => "ignored"
    case Firing => "firing"
    case Resolved => "resolved"
  }

  /** Pydantic's validation of the `AlertStatus` literal. */
  function ParseAlertStatus(s: string): (r: Option<AlertStatus>)
    ensures r.Some? ==> AlertStatusValue(r.value) == s
    ensures forall st :: s == AlertStatusValue(st) ==> r == Some(st)
  {
    if s == "ignored" then Some(Ignored)
    else if s == "firing" then Some(Firing)
    else if s == "resolved" then Some(Resolved)
    else None
  }

  /** Times are whole seconds. */
  datatype Alert = Alert(
    source: string,
    status: AlertStatus,
    name: string,
    severity: string,
    summary: string,
    description: string,
    labels: Dict<string>,
    annotations: Dict<string>,
    startsAt: int,
    endsAt: Option<int>,
    generatorUrl: string,
    fingerprint: string,
    raw: Json)
  {
    predicate IsFiring() { status == Firing }
    predicate IsResolved() { status == Resolved }
  }

  /** An alert built from only its required fields, as pydantic fills in the defaults. */
  function NewAlert(source: string, status: AlertStatus, startsAt: int): (a: Alert)
    ensures a.severity == "warning"
    ensures a.name == "" && a.summary == "" && a.description == ""
    ensures a.labels == [] && a.annotations == [] && a.endsAt.None?
  {
    Alert(source, status, "", "warning", "", "", [], [], startsAt, None, "", "", JObj([]))
  }

  datatype AlertGroup = AlertGroup(
    source: string,
    status: AlertStatus,
    alerts: seq<Alert>,
    labels: Dict<string>,
    externalUrl: string,
    receiver: string,
    raw: Json)
  {
    function FiringAlerts(): seq<Alert> { WithStatus(alerts, Firing) }
    function ResolvedAlerts(): seq<Alert> { WithStatus(alerts, Resolved) }
    predicate IsFiring() { status == Firing }
  }

  /** `[a for a in alerts if a.status == st]` */
  function WithStatus(alerts: seq<Alert>, st: AlertStatus): (r: seq<Alert>)
    ensures |r| <= |alerts|
    ensures forall i :: 0 <= i < |r| ==> r[i].status == st
    ensures forall a :: a in r <==> a in alerts && a.status == st
  {
    if alerts == [] then []
    else (if alerts[0].status == st then [alerts[0]] else []) + WithStatus(alerts[1..], st)
  }

  /** The filter keeps order: filtering a concatenation concatenates the filtered parts. */
  lemma {:induction false} WithStatusAppend(xs: seq<Alert>, ys: seq<Alert>, st: AlertStatus)
    ensures WithStatus(xs + ys, st) == WithStatus(xs, st) + WithStatus(ys, st)
  {
    if xs != [] {
      var head := if xs[0].status == st then [xs[0]] else [];
      SplitFirst(xs, ys);
      WithStatusAppend(xs[1..], ys, st);
      assert WithStatus(xs + ys, st) == head + WithStatus(xs[1..] + ys, st);
      Associative(head, WithStatus(xs[1..], st), WithStatus(ys, st));
    } else {
      assert xs + ys == ys;
    }
  }

  /** Every alert has exactly one status, so the three filters partition the list. */
  lemma {:induction false} StatusPartition(alerts: seq<Alert>)
    ensures |WithStatus(alerts, Firing)| + |WithStatus(alerts, Resolved)| + |WithStatus(alerts, Ignored)| == |alerts|
  {
    if alerts != [] {
      StatusPartition(alerts[1..]);
    }
  }

  /** `firing_alerts` and `resolved_alerts` share no alert, leave out the ignored
      ones, and together are no longer than the group's alert list. */
  lemma FiringResolvedDisjoint(g: AlertGroup)
    ensures forall a :: a in g.FiringAlerts() ==> a !in g.ResolvedAlerts()
    ensures forall a :: a in g.alerts && a.status == Ignored ==> a !in g.FiringAlerts() && a !in g.ResolvedAlerts()
    ensures |g.FiringAlerts()| + |g.ResolvedAlerts()| <= |g.alerts|
  {
    StatusPartition(g.alerts);
  }
}
