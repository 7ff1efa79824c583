/** src/functions/botnorrea_comands_create/index.ts: the older copy of
    `/commands_create`. It resolves the caller through the `Items` of the
    `getById` Scan response before any other check, has no endpoint probe,
    and catches every failure after the apiKey check. */
module ComandsCreate {
  import opened Wrappers
  import opened Js
  import opened JsStrings
  import opened Models
  import opened Store
  import opened Lambda
  import opened HttpStatus
  import UsersService
  import CommandsService
  import opened CommandsCreate

  /** The guard chain once the caller resolved to the stored record `user`. */
  function AfterUser(w: World, body: UpdateTg, user: Value, isUrl: string -> bool, uuid: string, now: int): Effect<Response> {
    if !IsPrivate(body) then Effect(Success(Response(FORBIDDEN, None)), w, [Reply(body, NOT_PRIVATE_TEXT)], [])
    else
      var apiKey := Get(user, "apiKey");
      if !Truthy(apiKey) then Effect(Success(Response(FORBIDDEN, None)), w, [Reply(body, NO_API_KEY_TEXT)], [])
      else if Text(body).None? then
        Effect(Success(Response(INTERNAL_SERVER_ERROR, None)), w, [HtmlReply(body, ErrorText(TypeErrorFault.message))], [])
      else
        var ps := Parameters(Text(body).value);
        if |ps| < 2 then Effect(Success(Response(BAD_REQUEST, None)), w, [HtmlReply(body, USAGE_TEXT)], [])
        else if !isUrl(ps[1]) then Effect(Success(Response(BAD_REQUEST, None)), w, [Reply(body, INVALID_URL_TEXT)], [])
        else
          var c := CommandsService.CreateSpec(w.commands, NewCommandParams(apiKey, ps), uuid, now);
          var w' := w.(commands := c.tbl);
          if c.result.Failure? then
            Effect(Success(Response(INTERNAL_SERVER_ERROR, None)), w', [HtmlReply(body, ErrorText(c.result.error.message))], [])
          else
            Effect(Success(Response(OK, None)), w', [Reply(body, CreatedText(Get(c.result.value, "command")))], [])
  }

  /** `execute` given what `getById` resolved with: no `Items`, or none,
      is NOT_FOUND; so is a first item whose uuid `get` does not find. */
  function ExecuteWith(w: World, body: UpdateTg, scanned: Result<Value, Fault>, isUrl: string -> bool,
                       uuid: string, now: int): Effect<Response>
  {
    if scanned.Failure? then Effect(Failure(scanned.error), w, [], [])
    else
      var items := Get(scanned.value, "Items");
      if !items.Arr? || |items.items| == 0 then Effect(Success(Response(NOT_FOUND, None)), w, [], [])
      else
        var got := GetSpec(w.users, Get(items.items[0], "uuid"));
        if got.Failure? then Effect(Failure(got.error), w, [], [])
        else if !Truthy(got.value) then Effect(Success(Response(NOT_FOUND, None)), w, [], [])
        else AfterUser(w, body, got.value, isUrl, uuid, now)
  }

  /** What `getById` resolves with when its Scan returned the users `keys`. */
  function ScanOutcome(users: Table, id: Value, keys: seq<string>): Result<Value, Fault>
    requires forall i :: 0 <= i < |keys| ==> keys[i] in users
  {
    if id.Undefined? then Failure(ValidationFault)
    else Success(UsersService.ScanResponse(ProjectAll(users, keys, {"uuid", "id"})))
  }

  /** `execute`; `keys` is the order the Scan returned the matches in. */
  method Execute(db: Db, out: Outbox, body: UpdateTg, isUrl: string -> bool, uuid: string, now: int)
    returns (r: Result<Response, Fault>, ghost keys: seq<string>)
    modifies db, out
    ensures !SenderId(body).Undefined? ==> Enumerates(keys, MatchKeys(old(db.users), "id", SenderId(body)))
    ensures forall i :: 0 <= i < |keys| ==> keys[i] in old(db.users)
    ensures Realizes(db, out, ExecuteWith(old(Snapshot(db)), body, ScanOutcome(old(db.users), SenderId(body), keys), isUrl, uuid, now), r)
  {
    var scanned;
    scanned, keys := UsersService.GetById(db, SenderId(body));
    if SenderId(body).Undefined? {
      keys := [];
      return Failure(scanned.error), keys;
    }
    var response := scanned.value;
    var items := Get(response, "Items");
    if !items.Arr? || |items.items| == 0 {
      return Success(Response(NOT_FOUND, None)), keys;
    }
    var currentUser :- db.Get(Users, Get(items.items[0], "uuid"));
    if !Truthy(currentUser) {
      return Success(Response(NOT_FOUND, None)), keys;
    }
    if !IsPrivate(body) {
      out.Send(Reply(body, NOT_PRIVATE_TEXT));
      return Success(Response(FORBIDDEN, None)), keys;
    }
    var apiKey := Get(currentUser, "apiKey");
    if !Truthy(apiKey) {
      out.Send(Reply(body, NO_API_KEY_TEXT));
      return Success(Response(FORBIDDEN, None)), keys;
    }
    if Text(body).None? {
      out.Send(HtmlReply(body, ErrorText(TypeErrorFault.message)));
      return Success(Response(INTERNAL_SERVER_ERROR, None)), keys;
    }
    var parameters := Parameters(Text(body).value);
    if |parameters| < 2 {
      out.Send(HtmlReply(body, USAGE_TEXT));
      return Success(Response(BAD_REQUEST, None)), keys;
    }
    if !isUrl(parameters[1]) {
      out.Send(Reply(body, INVALID_URL_TEXT));
      return Success(Response(BAD_REQUEST, None)), keys;
    }
    var created := CommandsService.Create(db, NewCommandParams(apiKey, parameters), uuid, now);
    if created.Failure? {
      out.Send(HtmlReply(body, ErrorText(created.error.message)));
      return Success(Response(INTERNAL_SERVER_ERROR, None)), keys;
    }
    out.Send(Reply(body, CreatedText(Get(created.value, "command"))));
    r := Success(Response(OK, None));
  }

  /** `botnorreaCommandsCreate` of this copy: the same ROOT/ADMIN gate and body
      checks as the current handler. */
  method BotnorreaCommandsCreate(db: Db, out: Outbox, ev: BotEvent, isUrl: string -> bool, uuid: string, now: int)
    returns (resp: Response, ghost keys: seq<string>)
    modifies db, out
    ensures var pre := Preflight(old(db.users), ev, ELEVATED);
      pre.Some? ==> resp == pre.value && Realizes(db, out, Effect(Success(()), old(Snapshot(db)), [], []), Success(()))
    ensures Preflight(old(db.users), ev, ELEVATED).None? ==>
      && (forall i :: 0 <= i < |keys| ==> keys[i] in old(db.users))
      && (!SenderId(ev.parsed.value).Undefined? ==> Enumerates(keys, MatchKeys(old(db.users), "id", SenderId(ev.parsed.value))))
      && var e := ExecuteWith(old(Snapshot(db)), ev.parsed.value, ScanOutcome(old(db.users), SenderId(ev.parsed.value), keys), isUrl, uuid, now);
         resp == Settle(e.result) && Realizes(db, out, e, e.result)
  {
    keys := [];
    var pre := Preflight(db.users, ev, ELEVATED);
    if pre.Some? {
      return pre.value, keys;
    }
    var r;
    r, keys := Execute(db, out, ev.parsed.value, isUrl, uuid, now);
    resp := Settle(r);
  }

  /** With a well-keyed Users table the Scan resolution comes down to the
      matches: none is NOT_FOUND before the chat type is even looked at, and
      otherwise the first match in Scan order is the caller. */
  lemma ResolvesFirstMatch(w: World, body: UpdateTg, keys: seq<string>, isUrl: string -> bool, uuid: string, now: int)
    requires WellKeyed(Users, w.users)
    requires !SenderId(body).Undefined?
    requires forall i :: 0 <= i < |keys| ==> keys[i] in w.users
    requires Enumerates(keys, MatchKeys(w.users, "id", SenderId(body)))
    ensures var e := ExecuteWith(w, body, ScanOutcome(w.users, SenderId(body), keys), isUrl, uuid, now);
      && (|MatchKeys(w.users, "id", SenderId(body))| == 0 ==> e == Effect(Success(Response(NOT_FOUND, None)), w, [], []))
      && (|keys| > 0 ==> e == AfterUser(w, body, Rec(w.users[keys[0]]), isUrl, uuid, now))
  {
    ScanListsKeys(w.users, keys);
    var scanned := ScanOutcome(w.users, SenderId(body), keys);
    var listed := Get(scanned.value, "Items");
    if |keys| > 0 {
      var got := GetSpec(w.users, Get(listed.items[0], "uuid"));
      assert got == Success(Rec(w.users[keys[0]]));
      assert ExecuteWith(w, body, scanned, isUrl, uuid, now) == AfterUser(w, body, got.value, isUrl, uuid, now);
    } else {
      assert ExecuteWith(w, body, scanned, isUrl, uuid, now) == Effect(Success(Response(NOT_FOUND, None)), w, [], []);
    }
  }

  /** The Scan response lists the matches in Scan order, each with its own
      uuid. */
  lemma ScanListsKeys(users: Table, keys: seq<string>)
    requires WellKeyed(Users, users)
    requires forall i :: 0 <= i < |keys| ==> keys[i] in users
    ensures var listed := Get(UsersService.ScanResponse(ProjectAll(users, keys, {"uuid", "id"})), "Items");
      && listed.Arr? && |listed.items| == |keys|
      && (|keys| > 0 ==> Get(listed.items[0], "uuid") == Str(keys[0]))
  {
    var items := ProjectAll(users, keys, {"uuid", "id"});
    var listed := Get(UsersService.ScanResponse(items), "Items");
    assert listed == Arr(seq(|items|, i requires 0 <= i < |items| => Rec(items[i])));
    if |keys| > 0 {
      assert listed.items[0] == Rec(items[0]);
      assert Lookup(items[0], "uuid") == Lookup(users[keys[0]], "uuid");
    }
  }

  /** Once the caller is known, this copy behaves like the current handler
      with a probe that always succeeds and is never posted, except that a
      message without text is caught and answered with INTERNAL_SERVER_ERROR
      instead of rejecting. */
  lemma MatchesCurrentWithoutProbe(w: World, body: UpdateTg, user: Value, isUrl: string -> bool, uuid: string, now: int)
    ensures var e := AfterUser(w, body, user, isUrl, uuid, now);
      var current := CommandsCreate.ExecuteWith(w, body, Success(user), isUrl, None, uuid, now);
      && e.posts == []
      && (!(IsPrivate(body) && Truthy(Get(user, "apiKey")) && Text(body).None?) ==> e == current.(posts := []))
      && (IsPrivate(body) && Truthy(Get(user, "apiKey")) && Text(body).None? ==>
            e == Effect(Success(Response(INTERNAL_SERVER_ERROR, None)), w, [HtmlReply(body, ErrorText(TypeErrorFault.message))], [])
            && current.result == Failure(TypeErrorFault))
  {
  }

  /** The guards after the caller resolves: a chat that is not private, then
      a missing apiKey, each FORBIDDEN with its message and nothing written. */
  lemma ChatTypeThenApiKey(w: World, body: UpdateTg, user: Value, isUrl: string -> bool, uuid: string, now: int)
    ensures var e := AfterUser(w, body, user, isUrl, uuid, now);
      && (!IsPrivate(body) ==> e == Effect(Success(Response(FORBIDDEN, None)), w, [Reply(body, NOT_PRIVATE_TEXT)], []))
      && (IsPrivate(body) && !Truthy(Get(user, "apiKey")) ==>
            e == Effect(Success(Response(FORBIDDEN, None)), w, [Reply(body, NO_API_KEY_TEXT)], []))
      && (e.result != Success(Response(OK, None)) ==> e.world == w)
  {
    var e := AfterUser(w, body, user, isUrl, uuid, now);
    if IsPrivate(body) && Truthy(Get(user, "apiKey")) && Text(body).Some? {
      var ps := Parameters(Text(body).value);
      if |ps| >= 2 && isUrl(ps[1]) {
        CommandsService.CreateUnique(w.commands, NewCommandParams(Get(user, "apiKey"), ps), uuid, now);
      }
    }
  }
}
