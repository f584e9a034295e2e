/** What the POST /webhook handler promises, stated over `Handle` for
    every payload, configuration and outside world. */
module Properties {
  import opened Wrappers
  import opened Js
  import opened Slack
  import opened Format
  import opened Handler
  import Filter

  /** The log record a request appends. */
  function LogOf(body: Value, io: Io): Effect {
    Logged(LogRecord(io.now, Payload(body)), io.logWritable)
  }

  /** Sending a plan to a Slack that accepts every POST delivers the whole
      plan, and one that does reports no rejection; any rejection among
      the replies used shows up in the result. */
  lemma DeliverAllIff(plan: seq<SlackPayload>, replies: seq<PostReply>)
    requires |plan| <= |replies|
    ensures (|Deliver(plan, replies)| == |plan| && FirstRejection(Deliver(plan, replies)) == None)
      <==> forall i :: 0 <= i < |plan| ==> replies[i].Delivered?
  {
  }

  /** Every request makes exactly one attempt to append to the log, before
      anything else; every later effect is a POST to Slack. */
  lemma LogFirstAndOnce(config: Config, rt: Runtime, body: Value, io: Io)
    ensures 1 <= |Handle(config, rt, body, io).effects| <= 3
    ensures Handle(config, rt, body, io).effects[0] == LogOf(body, io)
    ensures forall i :: 1 <= i < |Handle(config, rt, body, io).effects| ==>
      Handle(config, rt, body, io).effects[i].Posted?
  {
  }

  /** Whether the log append succeeds changes neither the POSTs made nor
      the response. */
  lemma LogFailureIsInvisible(config: Config, rt: Runtime, body: Value, io: Io)
    ensures Handle(config, rt, body, io.(logWritable := false)).response
         == Handle(config, rt, body, io.(logWritable := true)).response
    ensures Handle(config, rt, body, io.(logWritable := false)).effects[1..]
         == Handle(config, rt, body, io.(logWritable := true)).effects[1..]
  {
  }

  /** A skipped event is logged, answered 200 `{ok: true, skipped:
      "score<50"}` and never sent. */
  lemma SkippedEvent(config: Config, rt: Runtime, body: Value, io: Io)
    requires Filter.ShouldSkip(rt, Payload(body)) == Normal(Some(Filter.SkipReason))
    ensures Handle(config, rt, body, io)
         == Exchange([LogOf(body, io)], Some(Response(200, SkippedBody(Filter.SkipReason))))
  {
  }

  /** A score whose conversion throws, or the name of an event the filter
      lets through whose rendering throws, aborts the request after the log
      attempt: no POST is made and the handler writes no response. Nothing
      else makes the handler fail to answer. */
  lemma ConversionErrorAborts(config: Config, rt: Runtime, body: Value, io: Io)
    ensures var payload := Payload(body);
      Handle(config, rt, body, io).response.None? <==>
        ToPrimitiveThrows(Get(payload, "score")) ||
        (Filter.ShouldSkip(rt, payload) == Normal(None) && ToPrimitiveThrows(SubmitterName(payload)))
    ensures Handle(config, rt, body, io).response.None? ==>
      Handle(config, rt, body, io).effects == [LogOf(body, io)]
  {
  }

  /** Scenario: `{"name": {"toString": 1}}` is logged and then aborts on
      rendering the name, whatever the configuration. */
  lemma ToStringNameAborts(config: Config, rt: Runtime, io: Io)
    ensures var body := Obj([("name", Obj([("toString", Num(Finite(1.0)))]))]);
      Handle(config, rt, body, io) == Exchange([LogOf(body, io)], None)
  {
    var body := Obj([("name", Obj([("toString", Num(Finite(1.0)))]))]);
    assert Get(body, "score") == Undefined;
    assert Get(body, "name") == Obj([("toString", Num(Finite(1.0)))]);
  }

  /** Without a configured URL a forwarded event is never POSTed and is
      answered 500 with the configuration error. */
  lemma MissingUrl(config: Config, rt: Runtime, body: Value, io: Io)
    requires Forwarded(rt, Payload(body))
    requires !UrlConfigured(config)
    ensures Handle(config, rt, body, io)
         == Exchange([LogOf(body, io)], Some(Response(500, ErrorBody(MissingUrlMessage))))
  {
  }

  /** Outside block mode a forwarded event is POSTed once, as `{text}`
      holding the plain-text message, and the answer follows that POST. */
  lemma PlainTextOnly(config: Config, rt: Runtime, body: Value, io: Io)
    requires Forwarded(rt, Payload(body))
    requires UrlConfigured(config) && !BlocksEnabled(config)
    ensures var payload := Payload(body);
      Handle(config, rt, body, io).effects ==
        [LogOf(body, io),
         Posted(Plain(PlainText(NameText(rt, payload).value, rt.stringify(payload))), io.firstReply)]
    ensures Handle(config, rt, body, io).response ==
      Some(if io.firstReply.Delivered? then Response(200, OkBody())
           else Response(500, ErrorBody(io.firstReply.message)))
  {
  }

  /** In block mode, once the plain-text POST is delivered, a second POST
      carries `New submission from <name>` and the three blocks. */
  lemma BlocksFollowDelivery(config: Config, rt: Runtime, body: Value, io: Io)
    requires Forwarded(rt, Payload(body))
    requires UrlConfigured(config) && BlocksEnabled(config)
    requires io.firstReply.Delivered?
    ensures var payload := Payload(body);
      var name := NameText(rt, payload).value;
      var pretty := rt.stringify(payload);
      Handle(config, rt, body, io).effects ==
        [LogOf(body, io),
         Posted(Plain(PlainText(name, pretty)), Delivered),
         Posted(Rich(RichText(name), SubmissionBlocks(name, pretty)), io.secondReply)]
    ensures Handle(config, rt, body, io).response ==
      Some(if io.secondReply.Delivered? then Response(200, OkBody())
           else Response(500, ErrorBody(io.secondReply.message)))
  {
    HandleByCases(config, rt, body, io);
  }

  /** A rejected first POST ends the request: no second POST, and its
      error message is the answer. */
  lemma NoSendAfterRejection(config: Config, rt: Runtime, body: Value, io: Io)
    requires Forwarded(rt, Payload(body))
    requires UrlConfigured(config)
    requires io.firstReply.Rejected?
    ensures |Handle(config, rt, body, io).effects| == 2
    ensures Handle(config, rt, body, io).response == Some(Response(500, ErrorBody(io.firstReply.message)))
  {
  }

  /** How many POSTs a request makes: at least one exactly when the event
      is forwarded with a URL configured, two exactly when block mode is
      on and the first was delivered. */
  lemma PostCount(config: Config, rt: Runtime, body: Value, io: Io)
    ensures |Handle(config, rt, body, io).effects| >= 2 <==>
      Forwarded(rt, Payload(body)) && UrlConfigured(config)
    ensures |Handle(config, rt, body, io).effects| == 3 <==>
      && Forwarded(rt, Payload(body)) && UrlConfigured(config)
      && BlocksEnabled(config) && io.firstReply.Delivered?
  {
    HandleByCases(config, rt, body, io);
  }

  /** The answer is 200 `{ok: true}` exactly when the event was forwarded
      and every POST made was delivered. */
  lemma OkIffEveryPostDelivered(config: Config, rt: Runtime, body: Value, io: Io)
    ensures Handle(config, rt, body, io).response == Some(Response(200, OkBody())) <==>
      && Forwarded(rt, Payload(body))
      && UrlConfigured(config)
      && io.firstReply.Delivered?
      && (BlocksEnabled(config) ==> io.secondReply.Delivered?)
  {
    HandleByCases(config, rt, body, io);
  }

  /** Every answer the handler writes is 200 with `ok: true` or 500 with
      `ok: false`. */
  lemma StatusMatchesOk(config: Config, rt: Runtime, body: Value, io: Io)
    ensures var r := Handle(config, rt, body, io).response;
      r.Some? ==>
        r.value.body.Obj? && |r.value.body.fields| >= 1 && r.value.body.fields[0].0 == "ok" &&
        (r.value.status == 200 <==> r.value.body.fields[0].1 == Bool(true)) &&
        (r.value.status == 500 <==> r.value.body.fields[0].1 == Bool(false))
  {
  }

  /** Scenario: `{"name": "Ada", "score": 80}` outside block mode is sent
      once as plain text and answered 200 `{ok: true}`. */
  lemma AdaIsForwarded(config: Config, rt: Runtime, io: Io)
    requires UrlConfigured(config) && !BlocksEnabled(config)
    requires io.firstReply == Delivered
    ensures var body := Obj([("name", Str("Ada")), ("score", Num(Finite(80.0)))]);
      Handle(config, rt, body, io) ==
        Exchange([LogOf(body, io),
                  Posted(Plain("\U{1F680} New submission from Ada\n\n" + rt.stringify(body)), Delivered)],
                 Some(Response(200, OkBody())))
  {
    var body := Obj([("name", Str("Ada")), ("score", Num(Finite(80.0)))]);
    assert Get(body, "name") == Str("Ada");
    assert Get(body, "score") == Num(Finite(80.0));
    assert NameText(rt, body) == Normal("Ada");
    assert PlainPrefix + "Ada" == "\U{1F680} New submission from Ada";
    assert PlainText("Ada", rt.stringify(body))
        == "\U{1F680} New submission from Ada\n\n" + rt.stringify(body);
    PlainTextOnly(config, rt, body, io);
  }

  /** Scenario: `{"name": "Bob", "score": 10}` is skipped. */
  lemma BobIsSkipped(config: Config, rt: Runtime, io: Io)
    ensures var body := Obj([("name", Str("Bob")), ("score", Num(Finite(10.0)))]);
      Handle(config, rt, body, io) ==
        Exchange([LogOf(body, io)], Some(Response(200, SkippedBody("score<50"))))
  {
    var body := Obj([("name", Str("Bob")), ("score", Num(Finite(10.0)))]);
    assert Get(body, "score") == Num(Finite(10.0));
  }

  /** Scenario: `{}` with no URL configured is answered 500 with the
      configuration error. */
  lemma EmptyEventWithoutUrl(rt: Runtime, io: Io)
    ensures var config := Config(None, None);
      Handle(config, rt, Obj([]), io).response ==
        Some(Response(500, ErrorBody("Missing SLACK_WEBHOOK_URL in .env")))
  {
  }
}
