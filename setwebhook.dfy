/** src/functions/telegram_set_webhook/index.ts: points the bot's Telegram
    webhook at a new url and reports the previous and the new setting. The
    two Bot API calls are given as their outcomes; the model records which of
    them the handler makes, in order. */
module TelegramSetWebhook {
  import opened Wrappers
  import opened Js
  import opened JsStrings
  import opened Models
  import opened Lambda
  import opened HttpStatus

  /** A Bot API call: `getWebhookInfo`, or `setWebhook` with its url. */
  datatype Call = GetWebhookInfo | SetWebhook(url: string)

  /** A response body: none, JSON text of a value, or a bare error message. */
  datatype Body = NoBody | Json(value: Value) | Plain(text: string)

  /** What the handler hands the callback; `failed` when the callback also
      receives the error. */
  datatype Reply = Reply(statusCode: int, body: Body, failed: bool)

  /** `execute`'s result and the Bot API calls it made. */
  datatype Run = Run(result: Result<Reply, Fault>, calls: seq<Call>)

  /** The handler's reply and the Bot API calls it made. */
  datatype Invocation = Invocation(reply: Reply, calls: seq<Call>)

  /** `{old: webhookOld?.data?.result, new: {...webhookNew?.data, url}}`. */
  function WebhookBody(url: string, info: Value, hook: Value): Value {
    Rec(map["old" := Get(Get(info, "data"), "result"),
             "new" := Rec(AsObj(Get(hook, "data"))["url" := Str(url)])])
  }

  /** `execute(url)`: a blank url is BAD_REQUEST before any call; otherwise
      the current info is read, the webhook set, and both reported. `info`
      and `hook` are what the two calls resolve or reject with; a url that is
      not a string has no `trim` to call. */
  function Execute(url: Value, info: Result<Value, Fault>, hook: Result<Value, Fault>): Run {
    if !url.Str? then Run(Failure(TypeErrorFault), [])
    else if Trim(url.s) == "" then Run(Success(Reply(BAD_REQUEST, NoBody, false)), [])
    else if info.Failure? then Run(Failure(info.error), [GetWebhookInfo])
    else if hook.Failure? then Run(Failure(hook.error), [GetWebhookInfo, SetWebhook(url.s)])
    else Run(Success(Reply(OK, Json(WebhookBody(url.s, info.value, hook.value)), false)), [GetWebhookInfo, SetWebhook(url.s)])
  }

  /** The first try: the context entry must be present and parse, and a
      truthy role must be ROOT or ADMIN. A missing entry reaches
      `JSON.parse({})`, which throws. */
  predicate Refused(context: Option<Result<Value, Fault>>) {
    || context.None?
    || context.value.Failure?
    || (var role := Get(context.value.value, "role"); Truthy(role) && !RoleIn(role, ELEVATED))
  }

  /** The second catch: the error's status or 500, the message as the body,
      and the error passed to the callback. */
  function Caught(f: Fault): (r: Reply)
    ensures r.failed && r.body == Plain(f.message)
    ensures r.statusCode == (if f.statusCode.Some? then f.statusCode.value else INTERNAL_SERVER_ERROR)
  {
    Reply(if f.statusCode.Some? then f.statusCode.value else INTERNAL_SERVER_ERROR, Plain(f.message), true)
  }

  /** Past the gate: a missing or empty body is BAD_REQUEST; otherwise `url`
      of the parsed body goes to `execute`, and anything thrown is caught. */
  function AfterGate(body: Option<string>, parsed: Result<Value, Fault>, info: Result<Value, Fault>, hook: Result<Value, Fault>): Invocation {
    if body.None? || body.value == "" then Invocation(Reply(BAD_REQUEST, NoBody, false), [])
    else if parsed.Failure? then Invocation(Caught(parsed.error), [])
    else if Nullish(parsed.value) then Invocation(Caught(TypeErrorFault), [])
    else
      var e := Execute(Get(parsed.value, "url"), info, hook);
      Invocation(if e.result.Failure? then Caught(e.result.error) else e.result.value, e.calls)
  }

  /** `telegramSetWebhook`: `context` is the parse of the authorizer
      context's "Botnorrea-v2" entry when there is one, `parsed` that of the
      request body. */
  function SetWebhookHandler(context: Option<Result<Value, Fault>>, body: Option<string>, parsed: Result<Value, Fault>,
                             info: Result<Value, Fault>, hook: Result<Value, Fault>): Invocation {
    if Refused(context) then Invocation(Reply(UNAUTHORIZED, NoBody, false), [])
    else AfterGate(body, parsed, info, hook)
  }

  /** A blank url is BAD_REQUEST and no Bot API call is made. */
  lemma BlankUrlMakesNoCall(s: string, info: Result<Value, Fault>, hook: Result<Value, Fault>)
    requires forall i :: 0 <= i < |s| ==> IsSpace(s[i])
    ensures Execute(Str(s), info, hook) == Run(Success(Reply(BAD_REQUEST, NoBody, false)), [])
  {
    TrimIsSlice(s);
  }

  /** With both calls resolved, a non-blank url is OK with the previous
      info's result as `old`, and as `new` the set call's data with `url` set
      to the argument; the info is read first, then the webhook set. */
  lemma SuccessReportsOldAndNew(s: string, info: Value, hook: Value)
    requires Trim(s) != ""
    ensures var r := Execute(Str(s), Success(info), Success(hook));
      && r.calls == [GetWebhookInfo, SetWebhook(s)]
      && r.result.Success? && r.result.value.statusCode == OK && r.result.value.body.Json?
      && var b := r.result.value.body.value;
         && b.Rec? && b.fields.Keys == {"old", "new"}
         && b.fields["old"] == Get(Get(info, "data"), "result")
         && b.fields["new"].Rec?
         && Get(b.fields["new"], "url") == Str(s)
         && forall a :: a != "url" ==> Get(b.fields["new"], a) == Get(Get(hook, "data"), a)
  {
    var b := WebhookBody(s, info, hook);
    assert Execute(Str(s), Success(info), Success(hook))
      == Run(Success(Reply(OK, Json(b), false)), [GetWebhookInfo, SetWebhook(s)]);
    var n := AsObj(Get(hook, "data"))["url" := Str(s)];
    assert b.fields["new"] == Rec(n);
    forall a | a != "url" ensures Get(Rec(n), a) == Get(Get(hook, "data"), a) {
      assert Lookup(n, a) == Lookup(AsObj(Get(hook, "data")), a);
    }
  }

  /** A Bot API call happens only past the gate, for a present, parsed body
      whose `url` is a non-blank string, and the webhook is set only after
      the info was read successfully. */
  lemma CallsNeedAuthorizedUrl(context: Option<Result<Value, Fault>>, body: Option<string>, parsed: Result<Value, Fault>,
                               info: Result<Value, Fault>, hook: Result<Value, Fault>)
    ensures var inv := SetWebhookHandler(context, body, parsed, info, hook);
      inv.calls != [] ==>
        && !Refused(context) && body.Some? && body.value != "" && parsed.Success?
        && var url := Get(parsed.value, "url");
           && url.Str? && Trim(url.s) != ""
           && inv.calls[0] == GetWebhookInfo
           && (|inv.calls| > 1 <==> info.Success?)
           && (info.Success? ==> inv.calls == [GetWebhookInfo, SetWebhook(url.s)])
  {
  }

  /** A missing or unparsable context is UNAUTHORIZED with no call. */
  lemma MissingContextUnauthorized(context: Option<Result<Value, Fault>>, body: Option<string>, parsed: Result<Value, Fault>,
                                   info: Result<Value, Fault>, hook: Result<Value, Fault>)
    requires context.None? || context.value.Failure?
    ensures SetWebhookHandler(context, body, parsed, info, hook) == Invocation(Reply(UNAUTHORIZED, NoBody, false), [])
  {
  }

  /** The role gate: a USER or SERVICE role is UNAUTHORIZED; a ROOT or ADMIN
      role, and also a context with no role at all, pass it. */
  lemma RoleGate(user: Value, body: Option<string>, parsed: Result<Value, Fault>,
                 info: Result<Value, Fault>, hook: Result<Value, Fault>)
    ensures var inv := SetWebhookHandler(Some(Success(user)), body, parsed, info, hook);
      && (Get(user, "role") in {RoleValue(USER), RoleValue(SERVICE)} ==> inv == Invocation(Reply(UNAUTHORIZED, NoBody, false), []))
      && (Get(user, "role") in {RoleValue(ROOT), RoleValue(ADMIN), Undefined} ==> inv == AfterGate(body, parsed, info, hook))
  {
    if Get(user, "role") in {RoleValue(USER), RoleValue(SERVICE)} {
      assert !RoleIn(Get(user, "role"), ELEVATED);
    }
  }

  /** Past the gate, a missing or empty body is BAD_REQUEST with no call. */
  lemma NoBodyBadRequest(user: Value, parsed: Result<Value, Fault>, info: Result<Value, Fault>, hook: Result<Value, Fault>)
    requires !Refused(Some(Success(user)))
    ensures SetWebhookHandler(Some(Success(user)), None, parsed, info, hook) == Invocation(Reply(BAD_REQUEST, NoBody, false), [])
    ensures SetWebhookHandler(Some(Success(user)), Some(""), parsed, info, hook) == Invocation(Reply(BAD_REQUEST, NoBody, false), [])
  {
  }
}
