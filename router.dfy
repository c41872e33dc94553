/** The configuration-driven router: each route names the channels an event
    goes to, and an event goes to the channels of the first route that
    matches its source and labels. A route's `matches` rule is the oracle
    `matches(route, source, labels)`, and a channel's `send_safe` is the
    oracle `sendSafe(channel, event)`. */
module Router {
  import opened Common
  import opened Dicts
  import opened JsonValues
  import opened Alerts
  import opened ChannelEvents

  /** One channel entry of a route in the configuration file. */
  datatype ChannelConfig = ChannelConfig(kind: string, name: string, webhookUrl: string, secret: string,
                                         apiKey: string, fromEmail: string, replyTo: string, to: seq<string>,
                                         botToken: string, channelId: string)

  datatype Route = Route(name: string, channels: seq<ChannelConfig>)

  /** The settings the e-mail channel falls back to. */
  datatype ResendSettings = ResendSettings(apiKey: string, fromEmail: string, apiUrl: string)

  datatype Channel =
    | FeishuOut(webhookUrl: string, secret: string)
    | ResendOut(apiKey: string, fromEmail: string, to: seq<string>, replyTo: Option<string>, apiUrl: string, nameOverride: string)
    | SlackWebhookOut(webhookUrl: string)
    | SlackBotOut(botToken: string, channelId: string)

  predicate KnownKind(kind: string) {
    kind == "feishu" || kind == "resend_email" || kind == "slack-webhook" || kind == "slack-bot"
  }

  /** `create_channel_from_config`: an unknown type raises ValueError. */
  function CreateChannel(config: ChannelConfig, settings: ResendSettings): (r: Outcome<Channel>)
    ensures r.Raised? <==> !KnownKind(config.kind)
    ensures config.kind == "feishu" ==> r == Value(FeishuOut(config.webhookUrl, config.secret))
    ensures config.kind == "slack-webhook" ==> r == Value(SlackWebhookOut(config.webhookUrl))
    ensures config.kind == "resend_email" ==>
      (&& r.Value? && r.value.ResendOut? && r.value.to == config.to
       && (config.apiKey != "" ==> r.value.apiKey == config.apiKey)
       && (config.fromEmail != "" ==> r.value.fromEmail == config.fromEmail))
  {
    if config.kind == "feishu" then Value(FeishuOut(config.webhookUrl, config.secret))
    else if config.kind == "resend_email" then
      Value(ResendOut(if config.apiKey != "" then config.apiKey else settings.apiKey,
                      if config.fromEmail != "" then config.fromEmail else settings.fromEmail,
                      config.to, if config.replyTo != "" then Some(config.replyTo) else None,
                      settings.apiUrl, Strip(config.name)))
    else if config.kind == "slack-webhook" then Value(SlackWebhookOut(config.webhookUrl))
    else if config.kind == "slack-bot" then Value(SlackBotOut(config.botToken, config.channelId))
    else Raised
  }

  /** A channel's `name`. The slack-bot channel class is not part of this
      model; its name is the parameter `botName`. */
  function ChannelName(c: Channel, botName: string): string {
    match c
    case FeishuOut(_, _) => "feishu"
    case ResendOut(_, _, _, _, _, nameOverride) => if nameOverride != "" then nameOverride else "resend_email"
    case SlackWebhookOut(_) => "slack-webhook"
    case SlackBotOut(_, _) => botName
  }

  /** The channels of one route, in configuration order; the first unknown
      type raises. */
  function CreateChannels(configs: seq<ChannelConfig>, settings: ResendSettings): (r: Outcome<seq<Channel>>)
    ensures r.Raised? <==> exists i :: 0 <= i < |configs| && !KnownKind(configs[i].kind)
    ensures r.Value? ==> |r.value| == |configs| && forall i :: 0 <= i < |configs| ==> Value(r.value[i]) == CreateChannel(configs[i], settings)
  {
    if configs == [] then Value([])
    else
      var init := configs[..|configs| - 1];
      match CreateChannels(init, settings)
      case Raised =>
        assert exists i :: 0 <= i < |configs| && !KnownKind(configs[i].kind) by {
          var i :| 0 <= i < |init| && !KnownKind(init[i].kind);
          assert configs[i] == init[i];
        }
        Raised
      case Value(cs) =>
        var last := configs[|configs| - 1];
        match CreateChannel(last, settings)
        case Raised =>
          assert !KnownKind(configs[|configs| - 1].kind);
          Raised
        case Value(c) =>
          var r := cs + [c];
          assert forall i :: 0 <= i < |configs| ==> Value(r[i]) == CreateChannel(configs[i], settings) by {
            forall i | 0 <= i < |configs|
              ensures Value(r[i]) == CreateChannel(configs[i], settings)
            {
              if i < |init| {
                assert configs[i] == init[i] && r[i] == cs[i];
              }
            }
          }
          assert !exists i :: 0 <= i < |configs| && !KnownKind(configs[i].kind) by {
            forall i | 0 <= i < |configs|
              ensures KnownKind(configs[i].kind)
            {
              if i < |init| {
                assert configs[i] == init[i];
              }
            }
          }
          Value(r)
  }

  /** The key a route's channels are stored under: its name, or `route_{i}`
      for an unnamed route at position i. */
  function RouteKey(route: Route, i: nat): string {
    if route.name != "" then route.name else "route_" + NatToString(i)
  }

  /** Unnamed routes at different positions get different keys. */
  lemma UnnamedKeysDiffer(r1: Route, r2: Route, i: nat, j: nat)
    requires r1.name == "" && r2.name == "" && i != j
    ensures RouteKey(r1, i) != RouteKey(r2, j)
  {
    if RouteKey(r1, i) == RouteKey(r2, j) {
      var p := "route_";
      assert RouteKey(r1, i)[|p|..] == NatToString(i);
      assert RouteKey(r2, j)[|p|..] == NatToString(j);
      NatToStringInjective(i, j);
    }
  }

  // --------------------------------------------- the table, as written

  /** The `_route_channels` dictionary `AlertRouter.__init__` builds: a
      later route whose key equals an earlier one's replaces its channels. */
  function RouteTable(routes: seq<Route>, settings: ResendSettings): Outcome<Dict<seq<Channel>>> {
    if routes == [] then Value([])
    else
      var n := |routes| - 1;
      match RouteTable(routes[..n], settings)
      case Raised => Raised
      case Value(table) =>
        match CreateChannels(routes[n].channels, settings)
        case Raised => Raised
        case Value(cs) => Value(Put(table, RouteKey(routes[n], n), cs))
  }

  /** What `find_route` returns for the route at position i: the channels
      stored under that route's key, or none. */
  function KeyedChannels(routes: seq<Route>, table: Dict<seq<Channel>>, i: nat): seq<Channel>
    requires i < |routes|
  {
    GetOr(table, RouteKey(routes[i], i), [])
  }

  /** The table holds, under each key, the channels of the last route with
      that key. */
  lemma {:induction false} TableHoldsLastRoute(routes: seq<Route>, settings: ResendSettings, i: nat)
    requires i < |routes| && RouteTable(routes, settings).Value?
    requires forall j :: i < j < |routes| ==> RouteKey(routes[j], j) != RouteKey(routes[i], i)
    ensures CreateChannels(routes[i].channels, settings).Value?
    ensures Get(RouteTable(routes, settings).value, RouteKey(routes[i], i)) == Some(CreateChannels(routes[i].channels, settings).value)
  {
    var n := |routes| - 1;
    var init := routes[..n];
    var table := RouteTable(init, settings).value;
    var cs := CreateChannels(routes[n].channels, settings).value;
    GetPut(table, RouteKey(routes[n], n), cs, RouteKey(routes[i], i));
    if i < n {
      assert forall j :: i < j < |init| ==> init[j] == routes[j];
      TableHoldsLastRoute(init, settings, i);
      assert init[i] == routes[i];
    }
  }

  /** Two routes named alike: the first matches, yet the lookup by its key
      hands back the second route's channels. */
  lemma SharedNameTakesLaterChannels(settings: ResendSettings)
    ensures var feishu := ChannelConfig("feishu", "", "https://a", "", "", "", "", [], "", "");
            var slack := ChannelConfig("slack-webhook", "", "https://b", "", "", "", "", [], "", "");
            var routes := [Route("ops", [feishu]), Route("ops", [slack])];
            RouteTable(routes, settings).Value?
            && KeyedChannels(routes, RouteTable(routes, settings).value, 0) == [SlackWebhookOut("https://b")]
            && CreateChannels(routes[0].channels, settings) == Value([FeishuOut("https://a", "")])
  {
    var feishu := ChannelConfig("feishu", "", "https://a", "", "", "", "", [], "", "");
    var slack := ChannelConfig("slack-webhook", "", "https://b", "", "", "", "", [], "", "");
    var routes := [Route("ops", [feishu]), Route("ops", [slack])];
    assert routes[..1] == [Route("ops", [feishu])];
    assert routes[..1][..0] == [];
    OneChannel(feishu, settings);
    OneChannel(slack, settings);
    assert RouteTable(routes[..1], settings) == Value([("ops", [FeishuOut("https://a", "")])]);
    assert RouteKey(routes[1], 1) == "ops";
    assert Put([("ops", [FeishuOut("https://a", "")])], "ops", [SlackWebhookOut("https://b")])
        == [("ops", [SlackWebhookOut("https://b")])];
    assert RouteTable(routes, settings) == Value([("ops", [SlackWebhookOut("https://b")])]);
  }

  lemma OneChannel(config: ChannelConfig, settings: ResendSettings)
    requires KnownKind(config.kind)
    ensures CreateChannels([config], settings) == Value([CreateChannel(config, settings).value])
  {
    var r := CreateChannels([config], settings);
    assert forall i :: 0 <= i < |[config]| ==> [config][i] == config;
    assert r.Value?;
    assert Value(r.value[0]) == CreateChannel(config, settings);
    assert r.value == [r.value[0]];
  }

  // -------------------------------------------------- the router, corrected

  /** The router keeps each route's channels by position, so the matched
      route is always sent through its own channels. */
  datatype AlertRouter = AlertRouter(routes: seq<Route>, channels: seq<seq<Channel>>)

  ghost predicate Built(router: AlertRouter, settings: ResendSettings) {
    && |router.channels| == |router.routes|
    && forall i :: 0 <= i < |router.routes| ==> CreateChannels(router.routes[i].channels, settings) == Value(router.channels[i])
  }

  /** `AlertRouter.__init__`: every route's channels are created once; any
      unknown channel type raises. */
  method NewAlertRouter(routes: seq<Route>, settings: ResendSettings) returns (r: Outcome<AlertRouter>)
    ensures r.Raised? <==> exists i :: 0 <= i < |routes| && CreateChannels(routes[i].channels, settings).Raised?
    ensures r.Value? ==> r.value.routes == routes && Built(r.value, settings)
  {
    var channels: seq<seq<Channel>> := [];
    for i := 0 to |routes|
      invariant |channels| == i
      invariant forall j :: 0 <= j < i ==> CreateChannels(routes[j].channels, settings) == Value(channels[j])
    {
      var cs := CreateChannels(routes[i].channels, settings);
      if cs.Raised? {
        return Raised;
      }
      channels := channels + [cs.value];
    }
    r := Value(AlertRouter(routes, channels));
  }

  /** Where the keyed table and the positional one agree: when no two routes
      share a key, the lookup of the as-written router finds the matched
      route's own channels. */
  lemma KeyedAgreesWhenKeysDistinct(router: AlertRouter, settings: ResendSettings, i: nat)
    requires Built(router, settings) && i < |router.routes|
    requires forall j, k :: 0 <= j < k < |router.routes| ==> RouteKey(router.routes[j], j) != RouteKey(router.routes[k], k)
    ensures RouteTable(router.routes, settings).Value?
    ensures KeyedChannels(router.routes, RouteTable(router.routes, settings).value, i) == router.channels[i]
  {
    BuiltTableExists(router.routes, settings);
    TableHoldsLastRoute(router.routes, settings, i);
  }

  lemma {:induction false} BuiltTableExists(routes: seq<Route>, settings: ResendSettings)
    requires forall i :: 0 <= i < |routes| ==> CreateChannels(routes[i].channels, settings).Value?
    ensures RouteTable(routes, settings).Value?
  {
    if routes != [] {
      var n := |routes| - 1;
      assert forall i :: 0 <= i < n ==> routes[..n][i] == routes[i];
      BuiltTableExists(routes[..n], settings);
    }
  }

  /** The position of the first route, in configuration order, that matches. */
  function FirstMatch(routes: seq<Route>, source: string, labels: Dict<string>,
                      matches: (Route, string, Dict<string>) -> bool): (r: Option<nat>)
    ensures r.None? <==> forall j :: 0 <= j < |routes| ==> !matches(routes[j], source, labels)
    ensures r.Some? ==>
      (&& r.value < |routes| && matches(routes[r.value], source, labels)
       && forall j :: 0 <= j < r.value ==> !matches(routes[j], source, labels))
  {
    if routes == [] then None
    else if matches(routes[0], source, labels) then Some(0)
    else
      match FirstMatch(routes[1..], source, labels, matches)
      case None => None
      case Some(i) => Some(i + 1)
  }

  /** `find_route`: the first matching route with its channels, or no route
      and no channels. */
  method FindRoute(router: AlertRouter, source: string, labels: Dict<string>,
                   matches: (Route, string, Dict<string>) -> bool)
    returns (route: Option<Route>, channels: seq<Channel>)
    requires |router.channels| == |router.routes|
    ensures FirstMatch(router.routes, source, labels, matches).None? ==> route.None? && channels == []
    ensures FirstMatch(router.routes, source, labels, matches).Some? ==>
      var i := FirstMatch(router.routes, source, labels, matches).value;
      route == Some(router.routes[i]) && channels == router.channels[i]
  {
    for i := 0 to |router.routes|
      invariant forall j :: 0 <= j < i ==> !matches(router.routes[j], source, labels)
    {
      if matches(router.routes[i], source, labels) {
        return Some(router.routes[i]), router.channels[i];
      }
    }
    return None, [];
  }

  /** Each channel's name with the result of sending the event through it. */
  function Sent(channels: seq<Channel>, e: ChannelEvent, sendSafe: (Channel, ChannelEvent) -> bool, botName: string)
    : (r: seq<(string, bool)>)
    ensures |r| == |channels|
    ensures forall i :: 0 <= i < |channels| ==> r[i] == (ChannelName(channels[i], botName), sendSafe(channels[i], e))
  {
    seq(|channels|, i requires 0 <= i < |channels| => (ChannelName(channels[i], botName), sendSafe(channels[i], e)))
  }

  /** The results of sending to `channels` in order, keyed by channel name;
      a later channel of the same name overwrites an earlier result. */
  function SendAll(channels: seq<Channel>, e: ChannelEvent, sendSafe: (Channel, ChannelEvent) -> bool, botName: string): Dict<bool> {
    FromPairs(Sent(channels, e, sendSafe, botName))
  }

  /** Every channel has a result under its name, and every result belongs
      to a channel. */
  lemma SendAllKeys(channels: seq<Channel>, e: ChannelEvent, sendSafe: (Channel, ChannelEvent) -> bool,
                    botName: string, key: string)
    ensures key in Keys(SendAll(channels, e, sendSafe, botName)) <==>
      exists i :: 0 <= i < |channels| && ChannelName(channels[i], botName) == key
  {
    var pairs := Sent(channels, e, sendSafe, botName);
    KeysUpdate([], pairs, key);
    if key in Keys(pairs) {
      var i :| 0 <= i < |pairs| && Keys(pairs)[i] == key;
      assert ChannelName(channels[i], botName) == key;
    }
    if exists i :: 0 <= i < |channels| && ChannelName(channels[i], botName) == key {
      var i :| 0 <= i < |channels| && ChannelName(channels[i], botName) == key;
      assert Keys(pairs)[i] == key;
    }
  }

  /** A channel whose name no later channel shares keeps its own result. */
  lemma SendAllResult(channels: seq<Channel>, e: ChannelEvent, sendSafe: (Channel, ChannelEvent) -> bool,
                      botName: string, i: nat)
    requires i < |channels|
    requires forall j :: i < j < |channels| ==> ChannelName(channels[j], botName) != ChannelName(channels[i], botName)
    ensures Get(SendAll(channels, e, sendSafe, botName), ChannelName(channels[i], botName)) == Some(sendSafe(channels[i], e))
  {
    GetUpdateLast([], Sent(channels, e, sendSafe, botName), i);
  }

  /** `route_event`: nothing is sent without a matching route or with a
      route that has no channels; otherwise each channel is sent once, in
      order. */
  method RouteEvent(router: AlertRouter, e: ChannelEvent, matches: (Route, string, Dict<string>) -> bool,
                    sendSafe: (Channel, ChannelEvent) -> bool, botName: string)
    returns (results: Dict<bool>)
    requires |router.channels| == |router.routes|
    ensures FirstMatch(router.routes, e.source, e.labels, matches).None? ==> results == []
    ensures FirstMatch(router.routes, e.source, e.labels, matches).Some? ==>
      results == SendAll(router.channels[FirstMatch(router.routes, e.source, e.labels, matches).value], e, sendSafe, botName)
  {
    var route, channels := FindRoute(router, e.source, e.labels, matches);
    if route.None? || channels == [] {
      return [];
    }
    results := SendEach(channels, e, sendSafe, botName);
  }

  /** The loop of `route_event`: each channel is sent once, in order, and
      its result stored under its name. */
  method SendEach(channels: seq<Channel>, e: ChannelEvent, sendSafe: (Channel, ChannelEvent) -> bool, botName: string)
    returns (results: Dict<bool>)
    ensures results == SendAll(channels, e, sendSafe, botName)
  {
    ghost var pairs := Sent(channels, e, sendSafe, botName);
    results := [];
    for i := 0 to |channels|
      invariant results == FromPairs(pairs[..i])
    {
      assert pairs[..i + 1] == pairs[..i] + [pairs[i]];
      UpdateSnoc([], pairs[..i], pairs[i].0, pairs[i].1);
      results := Put(results, ChannelName(channels[i], botName), sendSafe(channels[i], e));
    }
    assert pairs[..|channels|] == pairs;
  }

  /** `_wrap_alert_group`: an alert group travels as an "alert" event whose
      meta carries the raw payload. `dump` stands for pydantic's `model_dump`. */
  function WrapAlertGroup(g: AlertGroup, dump: AlertGroup -> Json): (e: ChannelEvent)
    ensures e.source == g.source && e.eventType == "alert" && e.labels == g.labels
    ensures Get(e.meta, "raw") == Some(g.raw)
  {
    ChannelEvent(g.source, "alert", g.labels, dump(g), [("raw", g.raw)])
  }
}
