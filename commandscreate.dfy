/** src/functions/botnorrea_commands_create/index.ts: `/commands_create key
    url description...` registers a command owned by the caller's apiKey. */
module CommandsCreate {
  import opened Wrappers
  import opened Js
  import opened JsStrings
  import opened Models
  import opened Store
  import opened Lambda
  import opened HttpStatus
  import UsersService
  import CommandsService

  const NOT_PRIVATE_TEXT := "Please request your new API KEY in a private message!"
  const NO_API_KEY_TEXT := "You don't have an API KEY please create one first using the command /create_api_key!"
  const USAGE_TEXT := "Bad request.\n\nCommand usage: <code>/commands_create command_key url description*</code>\n\n<i>*description is optional</i>"
  const INVALID_URL_TEXT := "Invalid URL"

  function ProbeFailedText(message: string): string {
    "Bad request.\n\nYour endpoint throw this message: <code>" + message + "</code>"
  }

  function CreatedText(command: Value): string {
    "Command " + ToStr(command) + " created successfuly!"
  }

  function ErrorText(message: string): string {
    "<code>" + message + "</code>"
  }

  /** The words after a command, as both `/commands_create` and
      `/commands_remove` parse them: every occurrence of the command `word`,
      in any case, cut out, then trimmed and split on single spaces. */
  function Arguments(text: string, word: string): (r: seq<string>)
    requires word != ""
    ensures |r| >= 1
  {
    Split(Trim(RemoveAllIgnoreCase(text, word)), ' ')
  }

  /** The words after `/commands_create`. */
  function Parameters(text: string): seq<string> {
    Arguments(text, "/commands_create")
  }

  /** `` `/${key.replace(/\//gi, "")}` ``: one leading slash and no other. */
  function CommandName(key: string): (r: string)
    ensures |r| >= 1 && r[0] == '/' && '/' !in r[1..]
    ensures forall c :: c != '/' ==> (c in r <==> c in key)
  {
    "/" + RemoveChar(key, '/')
  }

  /** The record handed to `create`. */
  function NewCommandParams(apiKey: Value, ps: seq<string>): Obj
    requires |ps| >= 2
  {
    map[
      "apiKey" := apiKey,
      "command" := Str(CommandName(ps[0])),
      "endpoint" := Str(ps[1]),
      "description" := Str(Join(ps[2..], " ")),
      "isEnabled" := Bool(true)]
  }

  /** What `execute` does once the caller lookup resolved with `caller`. */
  function ExecuteWith(w: World, body: UpdateTg, caller: Result<Value, Fault>, isUrl: string -> bool,
                       probeError: Option<string>, uuid: string, now: int): Effect<Response>
  {
    if !IsPrivate(body) then Effect(Success(Response(FORBIDDEN, None)), w, [Reply(body, NOT_PRIVATE_TEXT)], [])
    else if caller.Failure? then Effect(Failure(caller.error), w, [], [])
    else
      var apiKey := Get(caller.value, "apiKey");
      if !Truthy(apiKey) then Effect(Success(Response(FORBIDDEN, None)), w, [Reply(body, NO_API_KEY_TEXT)], [])
      else if Text(body).None? then Effect(Failure(TypeErrorFault), w, [], [])
      else
        var ps := Parameters(Text(body).value);
        if |ps| < 2 then Effect(Success(Response(BAD_REQUEST, None)), w, [HtmlReply(body, USAGE_TEXT)], [])
        else if !isUrl(ps[1]) then Effect(Success(Response(BAD_REQUEST, None)), w, [Reply(body, INVALID_URL_TEXT)], [])
        else
          var probe := [Post(Str(ps[1]), MockUpdate)];
          if probeError.Some? then
            Effect(Success(Response(BAD_REQUEST, None)), w, [HtmlReply(body, ProbeFailedText(probeError.value))], probe)
          else
            CreateWith(w, body, apiKey, ps, uuid, now)
  }

  /** Past every guard: `create` with the new command's record, answered OK
      with the stored name, or INTERNAL_SERVER_ERROR with the failure's
      message; the probe was posted either way. */
  function CreateWith(w: World, body: UpdateTg, apiKey: Value, ps: seq<string>, uuid: string, now: int): Effect<Response>
    requires |ps| >= 2
  {
    var probe := [Post(Str(ps[1]), MockUpdate)];
    var c := CommandsService.CreateSpec(w.commands, NewCommandParams(apiKey, ps), uuid, now);
    var w' := w.(commands := c.tbl);
    if c.result.Failure? then
      Effect(Success(Response(INTERNAL_SERVER_ERROR, None)), w', [HtmlReply(body, ErrorText(c.result.error.message))], probe)
    else
      Effect(Success(Response(OK, None)), w', [Reply(body, CreatedText(Get(c.result.value, "command")))], probe)
  }

  /** `execute`, with the caller found by `FindUserByExternalId`. */
  ghost function ExecuteSpec(w: World, body: UpdateTg, isUrl: string -> bool, probeError: Option<string>,
                             uuid: string, now: int): Effect<Response>
  {
    ExecuteWith(w, body, ResolveOneSpec(Users, w.users, "id", SenderId(body), "uuid"), isUrl, probeError, uuid, now)
  }

  /** `execute`. `isUrl` stands for the `new URL` test, `probeError` for the
      outcome of the probe POST, `uuid` and `now` for `randomUUID` and the
      clock. */
  method Execute(db: Db, out: Outbox, body: UpdateTg, isUrl: string -> bool, probeError: Option<string>,
                 uuid: string, now: int) returns (r: Result<Response, Fault>)
    modifies db, out
    ensures Realizes(db, out, ExecuteSpec(old(Snapshot(db)), body, isUrl, probeError, uuid, now), r)
  {
    if !IsPrivate(body) {
      out.Send(Reply(body, NOT_PRIVATE_TEXT));
      return Success(Response(FORBIDDEN, None));
    }
    var currentUser :- UsersService.FindUserByExternalId(db, SenderId(body));
    var apiKey := Get(currentUser, "apiKey");
    if !Truthy(apiKey) {
      out.Send(Reply(body, NO_API_KEY_TEXT));
      return Success(Response(FORBIDDEN, None));
    }
    if Text(body).None? {
      return Failure(TypeErrorFault);
    }
    var parameters := Parameters(Text(body).value);
    if |parameters| < 2 {
      out.Send(HtmlReply(body, USAGE_TEXT));
      return Success(Response(BAD_REQUEST, None));
    }
    var endpoint := parameters[1];
    if !isUrl(endpoint) {
      out.Send(Reply(body, INVALID_URL_TEXT));
      return Success(Response(BAD_REQUEST, None));
    }
    out.PostTo(Str(endpoint), MockUpdate);
    if probeError.Some? {
      out.Send(HtmlReply(body, ProbeFailedText(probeError.value)));
      return Success(Response(BAD_REQUEST, None));
    }
    var created := CommandsService.Create(db, NewCommandParams(apiKey, parameters), uuid, now);
    if created.Failure? {
      out.Send(HtmlReply(body, ErrorText(created.error.message)));
      return Success(Response(INTERNAL_SERVER_ERROR, None));
    }
    out.Send(Reply(body, CreatedText(Get(created.value, "command"))));
    r := Success(Response(OK, None));
  }

  /** `botnorreaCommandsCreate`: the ROOT/ADMIN gate, the body checks, then
      `execute`. */
  method BotnorreaCommandsCreate(db: Db, out: Outbox, ev: BotEvent, isUrl: string -> bool,
                                 probeError: Option<string>, uuid: string, now: int) returns (resp: Response)
    modifies db, out
    ensures var pre := Preflight(old(db.users), ev, ELEVATED);
      pre.Some? ==> resp == pre.value && Realizes(db, out, Effect(Success(()), old(Snapshot(db)), [], []), Success(()))
    ensures Preflight(old(db.users), ev, ELEVATED).None? ==>
      var e := ExecuteSpec(old(Snapshot(db)), ev.parsed.value, isUrl, probeError, uuid, now);
      resp == Settle(e.result) && Realizes(db, out, e, e.result)
  {
    var pre := Preflight(db.users, ev, ELEVATED);
    if pre.Some? {
      return pre.value;
    }
    var r := Execute(db, out, ev.parsed.value, isUrl, probeError, uuid, now);
    resp := Settle(r);
  }

  /** A chat that is not private is refused with a message, before any
      lookup and with nothing created. */
  lemma NotPrivateIsForbidden(w: World, body: UpdateTg, caller: Result<Value, Fault>, isUrl: string -> bool,
                              probeError: Option<string>, uuid: string, now: int)
    requires !IsPrivate(body)
    ensures ExecuteWith(w, body, caller, isUrl, probeError, uuid, now)
         == Effect(Success(Response(FORBIDDEN, None)), w, [Reply(body, NOT_PRIVATE_TEXT)], [])
  {
  }

  /** Every refusal leaves the tables as they were; only reaching `create`
      can change the Commands table, and only by a successful create. */
  lemma OnlyCreateWrites(w: World, body: UpdateTg, caller: Result<Value, Fault>, isUrl: string -> bool,
                         probeError: Option<string>, uuid: string, now: int)
    ensures var e := ExecuteWith(w, body, caller, isUrl, probeError, uuid, now);
      && e.world.users == w.users && e.world.groups == w.groups
      && (e.result != Success(Response(OK, None)) ==> e.world == w)
  {
    var e := ExecuteWith(w, body, caller, isUrl, probeError, uuid, now);
    if IsPrivate(body) && caller.Success? && Truthy(Get(caller.value, "apiKey")) && Text(body).Some? {
      var ps := Parameters(Text(body).value);
      if |ps| >= 2 && isUrl(ps[1]) && probeError.None? {
        var c := CommandsService.CreateSpec(w.commands, NewCommandParams(Get(caller.value, "apiKey"), ps), uuid, now);
        CommandsService.CreateUnique(w.commands, NewCommandParams(Get(caller.value, "apiKey"), ps), uuid, now);
      }
    }
  }

  /** In a private chat the guards come in order: no apiKey, fewer than two
      parameters, a second parameter that is not a URL, a failed probe. Each
      answers with its own status and message and posts nothing beyond the
      probe. */
  lemma GuardOrder(w: World, body: UpdateTg, caller: Value, isUrl: string -> bool,
                   probeError: Option<string>, uuid: string, now: int)
    requires IsPrivate(body)
    ensures var e := ExecuteWith(w, body, Success(caller), isUrl, probeError, uuid, now);
      && (!Truthy(Get(caller, "apiKey")) ==> e == Effect(Success(Response(FORBIDDEN, None)), w, [Reply(body, NO_API_KEY_TEXT)], []))
      && (Truthy(Get(caller, "apiKey")) && Text(body).Some? && |Parameters(Text(body).value)| < 2 ==>
            e == Effect(Success(Response(BAD_REQUEST, None)), w, [HtmlReply(body, USAGE_TEXT)], []))
      && (Truthy(Get(caller, "apiKey")) && Text(body).Some? && |Parameters(Text(body).value)| >= 2
          && !isUrl(Parameters(Text(body).value)[1]) ==>
            e == Effect(Success(Response(BAD_REQUEST, None)), w, [Reply(body, INVALID_URL_TEXT)], []))
      && (Truthy(Get(caller, "apiKey")) && Text(body).Some? && |Parameters(Text(body).value)| >= 2
          && isUrl(Parameters(Text(body).value)[1]) && probeError.Some? ==>
            e == Effect(Success(Response(BAD_REQUEST, None)), w, [HtmlReply(body, ProbeFailedText(probeError.value))],
                        [Post(Str(Parameters(Text(body).value)[1]), MockUpdate)]))
  {
    if !Truthy(Get(caller, "apiKey")) {
      NoApiKeyGuard(w, body, caller, isUrl, probeError, uuid, now);
    } else if Text(body).Some? {
      var ps := Parameters(Text(body).value);
      if |ps| < 2 {
        UsageGuard(w, body, caller, isUrl, probeError, uuid, now);
      } else if !isUrl(ps[1]) {
        UrlGuard(w, body, caller, isUrl, probeError, uuid, now);
      } else if probeError.Some? {
        ProbeGuard(w, body, caller, isUrl, probeError.value, uuid, now);
      }
    }
  }

  lemma NoApiKeyGuard(w: World, body: UpdateTg, caller: Value, isUrl: string -> bool,
                      probeError: Option<string>, uuid: string, now: int)
    requires IsPrivate(body) && !Truthy(Get(caller, "apiKey"))
    ensures ExecuteWith(w, body, Success(caller), isUrl, probeError, uuid, now)
         == Effect(Success(Response(FORBIDDEN, None)), w, [Reply(body, NO_API_KEY_TEXT)], [])
  {
  }

  lemma UsageGuard(w: World, body: UpdateTg, caller: Value, isUrl: string -> bool,
                   probeError: Option<string>, uuid: string, now: int)
    requires IsPrivate(body) && Truthy(Get(caller, "apiKey")) && Text(body).Some?
    requires |Parameters(Text(body).value)| < 2
    ensures ExecuteWith(w, body, Success(caller), isUrl, probeError, uuid, now)
         == Effect(Success(Response(BAD_REQUEST, None)), w, [HtmlReply(body, USAGE_TEXT)], [])
  {
  }

  lemma UrlGuard(w: World, body: UpdateTg, caller: Value, isUrl: string -> bool,
                 probeError: Option<string>, uuid: string, now: int)
    requires IsPrivate(body) && Truthy(Get(caller, "apiKey")) && Text(body).Some?
    requires |Parameters(Text(body).value)| >= 2 && !isUrl(Parameters(Text(body).value)[1])
    ensures ExecuteWith(w, body, Success(caller), isUrl, probeError, uuid, now)
         == Effect(Success(Response(BAD_REQUEST, None)), w, [Reply(body, INVALID_URL_TEXT)], [])
  {
  }

  lemma ProbeGuard(w: World, body: UpdateTg, caller: Value, isUrl: string -> bool,
                   probeError: string, uuid: string, now: int)
    requires IsPrivate(body) && Truthy(Get(caller, "apiKey")) && Text(body).Some?
    requires |Parameters(Text(body).value)| >= 2 && isUrl(Parameters(Text(body).value)[1])
    ensures ExecuteWith(w, body, Success(caller), isUrl, Some(probeError), uuid, now)
         == Effect(Success(Response(BAD_REQUEST, None)), w, [HtmlReply(body, ProbeFailedText(probeError))],
                   [Post(Str(Parameters(Text(body).value)[1]), MockUpdate)])
  {
  }

  /** Past the guards, `create` receives the normalised name, the endpoint,
      the other words joined by spaces, isEnabled and the caller's apiKey;
      a new name is stored and answered with OK. */
  lemma CreatesNormalisedCommand(w: World, body: UpdateTg, caller: Value, isUrl: string -> bool, uuid: string, now: int)
    requires IsPrivate(body) && Truthy(Get(caller, "apiKey")) && Text(body).Some?
    requires var ps := Parameters(Text(body).value); |ps| >= 2 && isUrl(ps[1]) && CommandName(ps[0]) !in w.commands
    ensures var ps := Parameters(Text(body).value);
      var name := CommandName(ps[0]);
      var record := map["apiKey" := Get(caller, "apiKey"), "command" := Str(name), "endpoint" := Str(ps[1]),
                        "description" := Str(Join(ps[2..], " ")), "isEnabled" := Bool(true),
                        "uuid" := Str(uuid), "createdAt" := Num(now), "updatedAt" := Num(now)];
      ExecuteWith(w, body, Success(caller), isUrl, None, uuid, now)
      == Effect(Success(Response(OK, None)), w.(commands := w.commands[name := record]),
                [Reply(body, CreatedText(Str(name)))], [Post(Str(ps[1]), MockUpdate)])
  {
    var ps := Parameters(Text(body).value);
    var apiKey := Get(caller, "apiKey");
    var params := NewCommandParams(apiKey, ps);
    assert Lookup(params, "command") == Str(CommandName(ps[0]));
    assert forall a :: a in params ==> !params[a].Undefined?;
    CommandsService.CreateUnique(w.commands, params, uuid, now);
    NewCommandRecord(apiKey, ps, uuid, now);
  }

  lemma NewCommandRecord(apiKey: Value, ps: seq<string>, uuid: string, now: int)
    requires |ps| >= 2
    ensures CommandsService.NewCommand(NewCommandParams(apiKey, ps), uuid, now)
         == map["apiKey" := apiKey, "command" := Str(CommandName(ps[0])), "endpoint" := Str(ps[1]),
                "description" := Str(Join(ps[2..], " ")), "isEnabled" := Bool(true),
                "uuid" := Str(uuid), "createdAt" := Num(now), "updatedAt" := Num(now)]
  {
  }

  /** A create that fails (a taken name, for one) is answered with its error
      message in `<code>` and INTERNAL_SERVER_ERROR. */
  lemma TakenNameIsServerError(w: World, body: UpdateTg, caller: Value, isUrl: string -> bool, uuid: string, now: int)
    requires IsPrivate(body) && Truthy(Get(caller, "apiKey")) && Text(body).Some?
    requires var ps := Parameters(Text(body).value); |ps| >= 2 && isUrl(ps[1]) && CommandName(ps[0]) in w.commands
    ensures var ps := Parameters(Text(body).value);
      ExecuteWith(w, body, Success(caller), isUrl, None, uuid, now)
      == Effect(Success(Response(INTERNAL_SERVER_ERROR, None)), w,
                [HtmlReply(body, ErrorText("Forbidden"))], [Post(Str(ps[1]), MockUpdate)])
  {
    var ps := Parameters(Text(body).value);
    CommandsService.CreateUnique(w.commands, NewCommandParams(Get(caller, "apiKey"), ps), uuid, now);
  }

  /** With `getById` as written the caller is the Scan response, which has no
      apiKey: every request from a private chat is refused as lacking one. */
  lemma AsWrittenAlwaysForbidden(w: World, body: UpdateTg, items: seq<Obj>, isUrl: string -> bool,
                                 probeError: Option<string>, uuid: string, now: int)
    requires IsPrivate(body)
    ensures ExecuteWith(w, body, Success(UsersService.ScanResponse(items)), isUrl, probeError, uuid, now)
         == Effect(Success(Response(FORBIDDEN, None)), w, [Reply(body, NO_API_KEY_TEXT)], [])
  {
    UsersService.ScanResponseIsNoUser(items);
  }
}
