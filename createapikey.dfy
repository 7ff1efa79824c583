/** src/functions/botnorrea_create_api_key/index.ts: `/create_api_key` issues
    the caller's apiKey, once, in a private chat. */
module CreateApiKey {
  import opened Wrappers
  import opened Js
  import opened Models
  import opened Store
  import opened Lambda
  import opened DynamoDbHelper
  import opened HttpStatus
  import UsersService
  import opened CommandsCreate

  const ALREADY_TEXT := "You already have an API KEY!"

  /** The HTML, content-protected notice carrying the user's uuid and the new
      key. */
  function Notice(body: UpdateTg, uuid: Value, apiKey: string): Message {
    Message(ChatId(body), ApiKeyNotice(uuid, apiKey), MessageId(body), true, true)
  }

  /** `{ ...currentUser, apiKey }` */
  function WithKey(currentUser: Value, apiKey: string): Obj {
    AsObj(currentUser) + map["apiKey" := Str(apiKey)]
  }

  /** `execute` once the caller lookup resolved with `caller`; `apiKey` is the
      fresh `randomUUID()`. The update and the notice run in a `try` whose
      catch answers INTERNAL_SERVER_ERROR without a message. */
  function ExecuteWith(w: World, body: UpdateTg, caller: Result<Value, Fault>, apiKey: string, now: int): Effect<Response> {
    if !IsPrivate(body) then Effect(Success(Response(FORBIDDEN, None)), w, [Reply(body, NOT_PRIVATE_TEXT)], [])
    else if caller.Failure? then Effect(Failure(caller.error), w, [], [])
    else if Truthy(Get(caller.value, "apiKey")) then Effect(Success(Response(FORBIDDEN, None)), w, [Reply(body, ALREADY_TEXT)], [])
    else
      var u := UsersService.UpdateSpec(w.users, WithKey(caller.value, apiKey), true, now);
      if u.result.Failure? then Effect(Success(Response(INTERNAL_SERVER_ERROR, None)), w.(users := u.tbl), [], [])
      else Effect(Success(Response(OK, None)), w.(users := u.tbl), [Notice(body, Get(u.result.value, "uuid"), apiKey)], [])
  }

  ghost function ExecuteSpec(w: World, body: UpdateTg, apiKey: string, now: int): Effect<Response> {
    ExecuteWith(w, body, ResolveOneSpec(Users, w.users, "id", SenderId(body), "uuid"), apiKey, now)
  }

  method Execute(db: Db, out: Outbox, body: UpdateTg, apiKey: string, now: int) returns (r: Result<Response, Fault>)
    modifies db, out
    ensures Realizes(db, out, ExecuteSpec(old(Snapshot(db)), body, apiKey, now), r)
  {
    if !IsPrivate(body) {
      out.Send(Reply(body, NOT_PRIVATE_TEXT));
      return Success(Response(FORBIDDEN, None));
    }
    var currentUser :- UsersService.FindUserByExternalId(db, SenderId(body));
    if Truthy(Get(currentUser, "apiKey")) {
      out.Send(Reply(body, ALREADY_TEXT));
      return Success(Response(FORBIDDEN, None));
    }
    var updatedUser := UsersService.Update(db, WithKey(currentUser, apiKey), true, now);
    if updatedUser.Failure? {
      return Success(Response(INTERNAL_SERVER_ERROR, None));
    }
    out.Send(Notice(body, Get(updatedUser.value, "uuid"), apiKey));
    r := Success(Response(OK, None));
  }

  /** `botnorreaCreateApiKey`: the ROOT/ADMIN gate, the body checks, then
      `execute`. */
  method BotnorreaCreateApiKey(db: Db, out: Outbox, ev: BotEvent, apiKey: string, now: int) returns (resp: Response)
    modifies db, out
    ensures var pre := Preflight(old(db.users), ev, ELEVATED);
      pre.Some? ==> resp == pre.value && Realizes(db, out, Effect(Success(()), old(Snapshot(db)), [], []), Success(()))
    ensures Preflight(old(db.users), ev, ELEVATED).None? ==>
      var e := ExecuteSpec(old(Snapshot(db)), ev.parsed.value, apiKey, now);
      resp == Settle(e.result) && Realizes(db, out, e, e.result)
  {
    var pre := Preflight(db.users, ev, ELEVATED);
    if pre.Some? {
      return pre.value;
    }
    var r := Execute(db, out, ev.parsed.value, apiKey, now);
    resp := Settle(r);
  }

  /** The refusals: a chat that is not private (before any lookup), a caller
      that already has an apiKey, an update that fails. None of them changes
      a table, and only the first two send a message. */
  lemma Refusals(w: World, body: UpdateTg, caller: Result<Value, Fault>, apiKey: string, now: int)
    ensures var e := ExecuteWith(w, body, caller, apiKey, now);
      && e.posts == []
      && (e.result != Success(Response(OK, None)) ==> e.world == w)
      && (!IsPrivate(body) ==> e == Effect(Success(Response(FORBIDDEN, None)), w, [Reply(body, NOT_PRIVATE_TEXT)], []))
      && (IsPrivate(body) && caller.Success? && Truthy(Get(caller.value, "apiKey")) ==>
            e == Effect(Success(Response(FORBIDDEN, None)), w, [Reply(body, ALREADY_TEXT)], []))
      && (IsPrivate(body) && caller.Success? && !Truthy(Get(caller.value, "apiKey"))
          && UsersService.UpdateSpec(w.users, WithKey(caller.value, apiKey), true, now).result.Failure? ==>
            e == Effect(Success(Response(INTERNAL_SERVER_ERROR, None)), w, [], []))
  {
    if IsPrivate(body) && caller.Success? && !Truthy(Get(caller.value, "apiKey")) {
      UsersService.UpdateGuards(w.users, WithKey(caller.value, apiKey), true, now);
    }
  }

  /** The record an issue writes: the stored user with the new key, a new
      updatedAt and the username kept (`""` when it had none); id, role and
      createdAt stay as stored. */
  function Issued(user: Obj, apiKey: string, now: int): Obj {
    user + map["username" := Coalesce(Lookup(user, "username"), Str("")), "updatedAt" := Num(now), "apiKey" := Str(apiKey)]
  }

  /** A stored user without an apiKey, uniquely matched by the sender id, is
      issued the key: OK, the notice carries their uuid and the key, and the
      table changes only in that user's record. */
  lemma IssuesKey(w: World, body: UpdateTg, k: string, apiKey: string, now: int)
    requires WellKeyed(Users, w.users) && IsPrivate(body) && !SenderId(body).Undefined?
    requires MatchKeys(w.users, "id", SenderId(body)) == {k}
    requires !Truthy(Lookup(w.users[k], "apiKey"))
    ensures k in w.users
    ensures ExecuteSpec(w, body, apiKey, now)
         == Effect(Success(Response(OK, None)), w.(users := w.users[k := Issued(w.users[k], apiKey, now)]),
                   [Notice(body, Str(k), apiKey)], [])
  {
    assert k in MatchKeys(w.users, "id", SenderId(body));
    ResolveOneFindsMatch(Users, w.users, "id", SenderId(body));
    var params := WithKey(Rec(w.users[k]), apiKey);
    assert Lookup(params, "uuid") == Str(k);
    UsersService.UpdateAsAdmin(w.users, params, now);
    var changed := w.users[k]
      + map["username" := Coalesce(Lookup(params, "username"), Str("")), "updatedAt" := Num(now),
            "apiKey" := Coalesce(Lookup(params, "apiKey"), Str(""))]
      + SparseObj(map["id" := Lookup(params, "id"), "role" := Lookup(params, "role")]);
    KeepsStored(w.users[k], apiKey, now);
    assert changed == Issued(w.users[k], apiKey, now);
  }

  /** Writing back the stored id and role changes nothing. */
  lemma KeepsStored(user: Obj, apiKey: string, now: int)
    ensures var params := WithKey(Rec(user), apiKey);
      user
      + map["username" := Coalesce(Lookup(params, "username"), Str("")), "updatedAt" := Num(now),
            "apiKey" := Coalesce(Lookup(params, "apiKey"), Str(""))]
      + SparseObj(map["id" := Lookup(params, "id"), "role" := Lookup(params, "role")])
      == Issued(user, apiKey, now)
  {
    var params := WithKey(Rec(user), apiKey);
    var lhs := user
      + map["username" := Coalesce(Lookup(params, "username"), Str("")), "updatedAt" := Num(now),
            "apiKey" := Coalesce(Lookup(params, "apiKey"), Str(""))]
      + SparseObj(map["id" := Lookup(params, "id"), "role" := Lookup(params, "role")]);
    var rhs := Issued(user, apiKey, now);
    forall a | a in lhs ensures a in rhs && lhs[a] == rhs[a] {
    }
    assert lhs.Keys == rhs.Keys;
  }

  /** A run answers OK only for a sender id matched by exactly one stored
      user, who had no apiKey. */
  lemma OkHasUniqueMatch(w: World, body: UpdateTg, apiKey: string, now: int) returns (k: string)
    requires WellKeyed(Users, w.users)
    requires ExecuteSpec(w, body, apiKey, now).result == Success(Response(OK, None))
    ensures IsPrivate(body) && !SenderId(body).Undefined?
    ensures MatchKeys(w.users, "id", SenderId(body)) == {k}
    ensures !Truthy(Lookup(w.users[k], "apiKey"))
  {
    var id := SenderId(body);
    var m := MatchKeys(w.users, "id", id);
    ResolveOneFindsMatch(Users, w.users, "id", id);
    if m == {} {
      UsersService.UpdateGuards(w.users, WithKey(Undefined, apiKey), true, now);
      assert false;
    }
    k :| k in m;
    assert m == {k} by {
      if |m| > 1 { assert false; }
      assert |m - {k}| == 0;
    }
  }

  /** Once the only user matching the sender holds a non-empty key, the
      request is refused as already having one. */
  lemma RepeatRefused(w: World, body: UpdateTg, k: string, apiKey: string, now: int, apiKey2: string, now2: int)
    requires WellKeyed(Users, w.users) && IsPrivate(body) && !SenderId(body).Undefined? && apiKey != ""
    requires MatchKeys(w.users, "id", SenderId(body)) == {k}
    ensures var w' := w.(users := w.users[k := Issued(w.users[k], apiKey, now)]);
      ExecuteSpec(w', body, apiKey2, now2) == Effect(Success(Response(FORBIDDEN, None)), w', [Reply(body, ALREADY_TEXT)], [])
  {
    var id := SenderId(body);
    assert k in MatchKeys(w.users, "id", id);
    var users' := w.users[k := Issued(w.users[k], apiKey, now)];
    assert MatchKeys(users', "id", id) == {k} by {
      assert Lookup(users'[k], "id") == Lookup(w.users[k], "id");
    }
    assert WellKeyed(Users, users') by {
      assert Lookup(users'[k], "uuid") == Lookup(w.users[k], "uuid");
    }
    ResolveOneFindsMatch(Users, users', "id", id);
  }

  /** An apiKey is issued at most once: after a run that answers OK, the same
      request on the tables it left is refused as already having a key. */
  lemma IssuedAtMostOnce(w: World, body: UpdateTg, apiKey: string, now: int, apiKey2: string, now2: int)
    requires WellKeyed(Users, w.users) && apiKey != ""
    ensures var e := ExecuteSpec(w, body, apiKey, now);
      e.result == Success(Response(OK, None)) ==>
        ExecuteSpec(e.world, body, apiKey2, now2)
        == Effect(Success(Response(FORBIDDEN, None)), e.world, [Reply(body, ALREADY_TEXT)], [])
  {
    if ExecuteSpec(w, body, apiKey, now).result == Success(Response(OK, None)) {
      var k := OkHasUniqueMatch(w, body, apiKey, now);
      IssuesKey(w, body, k, apiKey, now);
      RepeatRefused(w, body, k, apiKey, now, apiKey2, now2);
    }
  }

  /** With `getById` as written the caller is the Scan response: it reads as
      having no apiKey, and the record handed to `update` has no uuid, so
      `update` rejects it with Bad request inside the `try`. Every request
      from a private chat ends INTERNAL_SERVER_ERROR, with no message and no
      write. */
  lemma AsWrittenAlwaysFails(w: World, body: UpdateTg, items: seq<Obj>, apiKey: string, now: int)
    requires IsPrivate(body)
    ensures ExecuteWith(w, body, Success(UsersService.ScanResponse(items)), apiKey, now)
         == Effect(Success(Response(INTERNAL_SERVER_ERROR, None)), w, [], [])
  {
    UsersService.ScanResponseIsNoUser(items);
    assert Lookup(WithKey(UsersService.ScanResponse(items), apiKey), "uuid") == Undefined;
  }
}
