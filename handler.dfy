/** The POST /webhook handler: log the event, apply the filter, send the
    plain-text message and, in block mode, the block message, and answer
    with the outcome. `Handle` states the whole exchange of one request as
    a function; `Integrator.PostWebhook` performs it step by step and is
    proved to agree with it. */
module Handler {
  import opened Wrappers
  import opened Js
  import opened Slack
  import opened Format
  import Filter

  /** One line of webhook.log: `{ts, payload}`. */
  datatype LogRecord = LogRecord(ts: int, payload: Value)

  /** What the Slack endpoint does with a POST; `Rejected` carries the
      message of the error the POST throws. */
  datatype PostReply = Delivered | Rejected(message: string)

  /** An observable side effect of a request, in the order it happens. */
  datatype Effect =
    | Logged(record: LogRecord, written: bool)
    | Posted(payload: SlackPayload, reply: PostReply)

  /** The status and JSON body given to `res`. */
  datatype Response = Response(status: int, body: Value)

  /** What the outside world contributes to one request: the clock, whether
      the append to webhook.log succeeds, and how Slack answers the first
      and the second POST. */
  datatype Io = Io(now: int, logWritable: bool, firstReply: PostReply, secondReply: PostReply)

  /** Everything one request does and answers. The response is `None`
      when a conversion throws outside the handler's `try`: the handler's
      promise then rejects with that TypeError and the handler itself
      writes no response. */
  datatype Exchange = Exchange(effects: seq<Effect>, response: Option<Response>)

  function OkBody(): Value {
    Obj([("ok", Bool(true))])
  }

  function SkippedBody(reason: string): Value {
    Obj([("ok", Bool(true)), ("skipped", Str(reason))])
  }

  function ErrorBody(message: string): Value {
    Obj([("ok", Bool(false)), ("error", Str(message))])
  }

  /** `req.body || {}`. */
  function Payload(body: Value): (p: Value)
    ensures Truthy(p)
    ensures Truthy(body) ==> p == body
    ensures !Truthy(body) ==> p == Obj([])
  {
    if Truthy(body) then body else Obj([])
  }

  /** The messages a forwarded event is meant to produce, in order, given
      the rendered name and the pretty-printed payload. */
  function Plan(config: Config, name: string, pretty: string): (ms: seq<SlackPayload>)
    ensures 1 <= |ms| <= 2
    ensures ms[0] == Plain(PlainText(name, pretty))
    ensures |ms| == 2 <==> BlocksEnabled(config)
    ensures |ms| == 2 ==> ms[1] == Rich(RichText(name), SubmissionBlocks(name, pretty))
  {
    [Plain(PlainText(name, pretty))] +
      (if BlocksEnabled(config) then [Rich(RichText(name), SubmissionBlocks(name, pretty))] else [])
  }

  /** The POSTs made when the messages of `plan` are sent one after the
      other and the first rejection aborts the rest. */
  function Deliver(plan: seq<SlackPayload>, replies: seq<PostReply>): (posts: seq<Effect>)
    ensures |posts| <= |plan| && |posts| <= |replies|
    ensures forall i :: 0 <= i < |posts| ==> posts[i] == Posted(plan[i], replies[i])
    ensures forall i :: 0 <= i < |posts| - 1 ==> replies[i].Delivered?
    ensures |posts| < |plan| && |posts| < |replies| ==>
      |posts| > 0 && replies[|posts| - 1].Rejected?
  {
    if plan == [] || replies == [] then []
    else if replies[0].Rejected? then [Posted(plan[0], replies[0])]
    else [Posted(plan[0], replies[0])] + Deliver(plan[1..], replies[1..])
  }

  /** `Deliver` on a plan of one or two messages and two replies. */
  lemma DeliverTwo(plan: seq<SlackPayload>, first: PostReply, second: PostReply)
    requires 1 <= |plan| <= 2
    ensures Deliver(plan, [first, second]) ==
      if first.Rejected? || |plan| == 1 then [Posted(plan[0], first)]
      else [Posted(plan[0], first), Posted(plan[1], second)]
  {
  }

  /** The message of the first rejected POST, if any. */
  function FirstRejection(posts: seq<Effect>): (m: Option<string>)
    ensures m.None? <==> forall i :: 0 <= i < |posts| ==> !(posts[i].Posted? && posts[i].reply.Rejected?)
    ensures m.Some? ==>
      exists i :: 0 <= i < |posts| && posts[i].Posted? && posts[i].reply == Rejected(m.value) &&
        forall j :: 0 <= j < i ==> !(posts[j].Posted? && posts[j].reply.Rejected?)
  {
    if posts == [] then None
    else if posts[0].Posted? && posts[0].reply.Rejected? then Some(posts[0].reply.message)
    else FirstRejection(posts[1..])
  }

  /** A forwarded event: the filter decides not to skip it and its name
      renders without throwing. */
  predicate Forwarded(rt: Runtime, payload: Value) {
    Filter.ShouldSkip(rt, payload) == Normal(None) && NameText(rt, payload).Normal?
  }

  /** What the `try` block and its `catch` do for a forwarded event: the
      POSTs made and the response written. */
  datatype Dispatched = Dispatched(posts: seq<Effect>, response: Response)

  /** The `try` block: send the plain-text message, then, in block mode and
      only if that succeeded, the block message; answer 200 `{ok: true}`,
      or 500 with the message of the first error thrown. */
  function Dispatch(config: Config, name: string, pretty: string, io: Io): (d: Dispatched)
    ensures |d.posts| <= 2
    ensures d.response.status == 200 <==> d.response == Response(200, OkBody())
    ensures !UrlConfigured(config) ==>
      d == Dispatched([], Response(500, ErrorBody(MissingUrlMessage)))
  {
    if !UrlConfigured(config) then Dispatched([], Response(500, ErrorBody(MissingUrlMessage)))
    else
      var posts := Deliver(Plan(config, name, pretty), [io.firstReply, io.secondReply]);
      match FirstRejection(posts)
      case None => Dispatched(posts, Response(200, OkBody()))
      case Some(m) => Dispatched(posts, Response(500, ErrorBody(m)))
  }

  /** `Dispatch` case by case: no URL, first POST rejected, plain text
      only, or both POSTs. */
  lemma DispatchByCases(config: Config, name: string, pretty: string, io: Io)
    ensures
      var first := Posted(Plain(PlainText(name, pretty)), io.firstReply);
      var second := Posted(Rich(RichText(name), SubmissionBlocks(name, pretty)), io.secondReply);
      Dispatch(config, name, pretty, io) ==
        if !UrlConfigured(config) then
          Dispatched([], Response(500, ErrorBody(MissingUrlMessage)))
        else if io.firstReply.Rejected? then
          Dispatched([first], Response(500, ErrorBody(io.firstReply.message)))
        else if !BlocksEnabled(config) then
          Dispatched([first], Response(200, OkBody()))
        else if io.secondReply.Rejected? then
          Dispatched([first, second], Response(500, ErrorBody(io.secondReply.message)))
        else
          Dispatched([first, second], Response(200, OkBody()))
  {
    if UrlConfigured(config) {
      var plan := Plan(config, name, pretty);
      DeliverTwo(plan, io.firstReply, io.secondReply);
      var posts := Deliver(plan, [io.firstReply, io.secondReply]);
      if |posts| == 2 {
        assert FirstRejection(posts) == FirstRejection(posts[1..]);
      }
    }
  }

  /** What the handler does once the log append is over: the filter, the
      name conversion, then the `try` block. The effects are the POSTs made;
      no response means the handler's promise rejects with a TypeError. */
  function Reaction(config: Config, rt: Runtime, payload: Value, io: Io): (x: Exchange)
    ensures x.response.None? <==>
      Filter.ShouldSkip(rt, payload).TypeError? ||
      (Filter.ShouldSkip(rt, payload) == Normal(None) && NameText(rt, payload).TypeError?)
    ensures x.effects != [] ==> Forwarded(rt, payload) && UrlConfigured(config)
  {
    match Filter.ShouldSkip(rt, payload)
    case TypeError => Exchange([], None)
    case Normal(Some(reason)) => Exchange([], Some(Response(200, SkippedBody(reason))))
    case Normal(None) =>
      match NameText(rt, payload)
      case TypeError => Exchange([], None)
      case Normal(name) =>
        var d := Dispatch(config, name, rt.stringify(payload), io);
        Exchange(d.posts, Some(d.response))
  }

  /** The exchange of one POST /webhook request: the log append, then the
      reaction to the payload. */
  function Handle(config: Config, rt: Runtime, body: Value, io: Io): (x: Exchange)
    ensures |x.effects| >= 1 && x.effects[0] == Logged(LogRecord(io.now, Payload(body)), io.logWritable)
    ensures x.response.None? <==>
      Filter.ShouldSkip(rt, Payload(body)).TypeError? ||
      (Filter.ShouldSkip(rt, Payload(body)) == Normal(None) && NameText(rt, Payload(body)).TypeError?)
    ensures x.response.None? ==> |x.effects| == 1
  {
    var payload := Payload(body);
    var r := Reaction(config, rt, payload, io);
    Exchange([Logged(LogRecord(io.now, payload), io.logWritable)] + r.effects, r.response)
  }

  /** The exchange of one request, case by case: the filter throws, skipped,
      the name throws, no URL, first POST rejected, plain text only, or
      both POSTs. */
  lemma HandleByCases(config: Config, rt: Runtime, body: Value, io: Io)
    ensures
      var payload := Payload(body);
      var log := Logged(LogRecord(io.now, payload), io.logWritable);
      var rendered := NameText(rt, payload);
      var name := if rendered.Normal? then rendered.value else "";
      var pretty := rt.stringify(payload);
      var first := Posted(Plain(PlainText(name, pretty)), io.firstReply);
      var second := Posted(Rich(RichText(name), SubmissionBlocks(name, pretty)), io.secondReply);
      Handle(config, rt, body, io) ==
        if Filter.ShouldSkip(rt, payload).TypeError? then
          Exchange([log], None)
        else if Filter.ShouldSkip(rt, payload) == Normal(Some(Filter.SkipReason)) then
          Exchange([log], Some(Response(200, SkippedBody(Filter.SkipReason))))
        else if NameText(rt, payload).TypeError? then
          Exchange([log], None)
        else if !UrlConfigured(config) then
          Exchange([log], Some(Response(500, ErrorBody(MissingUrlMessage))))
        else if io.firstReply.Rejected? then
          Exchange([log, first], Some(Response(500, ErrorBody(io.firstReply.message))))
        else if !BlocksEnabled(config) then
          Exchange([log, first], Some(Response(200, OkBody())))
        else if io.secondReply.Rejected? then
          Exchange([log, first, second], Some(Response(500, ErrorBody(io.secondReply.message))))
        else
          Exchange([log, first, second], Some(Response(200, OkBody())))
  {
    var payload := Payload(body);
    if Forwarded(rt, payload) {
      DispatchByCases(config, NameText(rt, payload).value, rt.stringify(payload), io);
    }
  }

  /** Appending to a history in two steps is appending once. */
  lemma AppendAssociative(a: seq<Effect>, b: seq<Effect>, c: seq<Effect>)
    ensures a + b + c == a + (b + c)
  {
  }

  /** The records a history has written to webhook.log, in order. */
  function WrittenRecords(history: seq<Effect>): (records: seq<LogRecord>)
    ensures |records| <= |history|
    ensures forall r :: r in records ==> Logged(r, true) in history
    ensures forall r :: Logged(r, true) in history ==> r in records
  {
    if history == [] then []
    else
      var last := history[|history| - 1];
      WrittenRecords(history[..|history| - 1]) +
        (if last.Logged? && last.written then [last.record] else [])
  }

  /** The running relay: its configuration, the contents of webhook.log
      and every side effect so far. */
  class Integrator {
    const config: Config
    const rt: Runtime
    var logFile: seq<LogRecord>
    var history: seq<Effect>

    /** webhook.log holds exactly the records whose append succeeded. */
    ghost predicate Valid()
      reads this
    {
      logFile == WrittenRecords(history)
    }

    constructor (config: Config, rt: Runtime)
      ensures Valid()
      ensures this.config == config && this.rt == rt
      ensures logFile == [] && history == []
    {
      this.config := config;
      this.rt := rt;
      logFile := [];
      history := [];
    }

    /** The guarded append to webhook.log: a failed write is swallowed. */
    method AppendLog(record: LogRecord, writable: bool)
      requires Valid()
      modifies this
      ensures Valid()
      ensures history == old(history) + [Logged(record, writable)]
      ensures logFile == old(logFile) + (if writable then [record] else [])
    {
      history := history + [Logged(record, writable)];
      if writable {
        logFile := logFile + [record];
      }
      assert history[..|history| - 1] == old(history);
    }

    /** `sendToSlack(text, blocks)`: fails before any POST when the URL is
        not configured; otherwise POSTs once and fails when Slack rejects. */
    method SendToSlack(text: string, blocks: Option<seq<Block>>, reply: PostReply)
      returns (error: Option<string>)
      requires Valid()
      modifies this
      ensures Valid() && logFile == old(logFile)
      ensures !UrlConfigured(config) ==>
        error == Some(MissingUrlMessage) && history == old(history)
      ensures UrlConfigured(config) ==>
        history == old(history) + [Posted(BuildPayload(text, blocks), reply)] &&
        error == (if reply.Rejected? then Some(reply.message) else None)
    {
      if !UrlConfigured(config) {
        return Some(MissingUrlMessage);
      }
      var payload := BuildPayload(text, blocks);
      history := history + [Posted(payload, reply)];
      assert history[..|history| - 1] == old(history);
      error := if reply.Rejected? then Some(reply.message) else None;
    }

    /** The `try` block's sends and the response written by it or by its
        `catch`. */
    method TrySend(name: string, pretty: string, io: Io) returns (response: Response)
      requires Valid()
      modifies this
      ensures Valid() && logFile == old(logFile)
      ensures history == old(history) + Dispatch(config, name, pretty, io).posts
      ensures response == Dispatch(config, name, pretty, io).response
    {
      DispatchByCases(config, name, pretty, io);
      var textMessage := PlainText(name, pretty);
      var error := SendToSlack(textMessage, None, io.firstReply);
      if error.None? && BlocksEnabled(config) {
        var blocks := SubmissionBlocks(name, pretty);
        ghost var first := Posted(Plain(textMessage), io.firstReply);
        error := SendToSlack(RichText(name), Some(blocks), io.secondReply);
        assert history == old(history) + [first, Posted(Rich(RichText(name), blocks), io.secondReply)];
      }
      if error.None? {
        response := Response(200, OkBody());
      } else {
        response := Response(500, ErrorBody(error.value));
      }
    }

    /** The filter, the name conversion and the `try` block,
        for a payload whose submitter name and pretty-printed form were
        taken before the log append. */
    method React(payload: Value, name: Value, pretty: string, io: Io) returns (response: Option<Response>)
      requires Valid()
      requires name == SubmitterName(payload) && pretty == rt.stringify(payload)
      modifies this
      ensures Valid() && logFile == old(logFile)
      ensures history == old(history) + Reaction(config, rt, payload, io).effects
      ensures response == Reaction(config, rt, payload, io).response
    {
      var skipReason := Filter.ShouldSkip(rt, payload);
      if skipReason.TypeError? {
        return None;
      }
      if skipReason.value.Some? {
        return Some(Response(200, SkippedBody(skipReason.value.value)));
      }
      var nameText := ToString(rt, name);
      assert nameText == NameText(rt, payload);
      if nameText.TypeError? {
        return None;
      }
      var answer := TrySend(nameText.value, pretty, io);
      response := Some(answer);
    }

    /** POST /webhook. */
    method PostWebhook(body: Value, io: Io) returns (response: Option<Response>)
      requires Valid()
      modifies this
      ensures Valid()
      ensures history == old(history) + Handle(config, rt, body, io).effects
      ensures logFile == old(logFile) +
        (if io.logWritable then [LogRecord(io.now, Payload(body))] else [])
      ensures response == Handle(config, rt, body, io).response
    {
      var payload := Payload(body);
      var name := SubmitterName(payload);
      var pretty := rt.stringify(payload);
      AppendLog(LogRecord(io.now, payload), io.logWritable);
      ghost var log := Logged(LogRecord(io.now, payload), io.logWritable);
      ghost var r := Reaction(config, rt, payload, io);
      assert Handle(config, rt, body, io) == Exchange([log] + r.effects, r.response);
      response := React(payload, name, pretty, io);
      AppendAssociative(old(history), [log], r.effects);
    }
  }
}
