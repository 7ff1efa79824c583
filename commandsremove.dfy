/** src/functions/botnorrea_commands_remove/index.ts: `/commands_remove key`
    deletes a command the caller owns. Every step runs inside one `try`, so
    any rejection becomes an HTML error reply and INTERNAL_SERVER_ERROR. */
module CommandsRemove {
  import opened Wrappers
  import opened Js
  import opened JsStrings
  import opened Models
  import opened Store
  import opened Lambda
  import opened HttpStatus
  import UsersService
  import CommandsService
  import opened CommandsCreate

  function NotFoundText(key: string): string {
    "Command " + key + " does not exists!"
  }

  function NotOwnerText(key: string): string {
    "Unauthorized, you cannot delete this " + key + "!"
  }

  function RemovedText(command: Value): string {
    "Command " + ToStr(command) + " removed successfuly!"
  }

  /** The key looked up: the first word with its slashes replaced by one
      leading slash. */
  function RemoveKey(text: string): string {
    CommandName(Arguments(text, "/commands_remove")[0])
  }

  /** The answer to a rejection inside the `try`. */
  function Caught(w: World, body: UpdateTg, f: Fault): Effect<Response> {
    Effect(Success(Response(INTERNAL_SERVER_ERROR, None)), w, [HtmlReply(body, ErrorText(f.message))], [])
  }

  /** `execute` once the caller lookup resolved with `caller`. The usage guard
      on fewer than one parameter is absent: the split never yields fewer. */
  function ExecuteWith(w: World, body: UpdateTg, caller: Result<Value, Fault>): Effect<Response> {
    if !IsPrivate(body) then Effect(Success(Response(FORBIDDEN, None)), w, [Reply(body, NOT_PRIVATE_TEXT)], [])
    else if caller.Failure? then Caught(w, body, caller.error)
    else
      var apiKey := Get(caller.value, "apiKey");
      if !Truthy(apiKey) then Effect(Success(Response(FORBIDDEN, None)), w, [Reply(body, NO_API_KEY_TEXT)], [])
      else if Text(body).None? then Caught(w, body, TypeErrorFault)
      else RemoveOwned(w, body, apiKey, RemoveKey(Text(body).value))
  }

  /** The rest of `execute` once the key is parsed: the lookup, the ownership
      check against the caller's `apiKey`, and the delete. */
  function RemoveOwned(w: World, body: UpdateTg, apiKey: Value, key: string): Effect<Response> {
    var got := GetSpec(w.commands, Str(key));
    if got.Failure? then Caught(w, body, got.error)
    else if !Truthy(got.value) then Effect(Success(Response(NOT_FOUND, None)), w, [Reply(body, NotFoundText(key))], [])
    else if !StrictEq(apiKey, Get(got.value, "apiKey")) then
      Effect(Success(Response(UNAUTHORIZED, None)), w, [Reply(body, NotOwnerText(key))], [])
    else
      var name := Get(got.value, "command");
      var del := DeleteSpec(w.commands, Str(ToStr(name)));
      if del.Failure? then Caught(w, body, del.error)
      else Effect(Success(Response(OK, None)), w.(commands := del.value), [Reply(body, RemovedText(name))], [])
  }

  ghost function ExecuteSpec(w: World, body: UpdateTg): Effect<Response> {
    ExecuteWith(w, body, ResolveOneSpec(Users, w.users, "id", SenderId(body), "uuid"))
  }

  method Execute(db: Db, out: Outbox, body: UpdateTg) returns (r: Result<Response, Fault>)
    modifies db, out
    ensures Realizes(db, out, ExecuteSpec(old(Snapshot(db)), body), r)
  {
    if !IsPrivate(body) {
      out.Send(Reply(body, NOT_PRIVATE_TEXT));
      return Success(Response(FORBIDDEN, None));
    }
    var currentUser := UsersService.FindUserByExternalId(db, SenderId(body));
    if currentUser.Failure? {
      out.Send(HtmlReply(body, ErrorText(currentUser.error.message)));
      return Success(Response(INTERNAL_SERVER_ERROR, None));
    }
    var apiKey := Get(currentUser.value, "apiKey");
    if !Truthy(apiKey) {
      out.Send(Reply(body, NO_API_KEY_TEXT));
      return Success(Response(FORBIDDEN, None));
    }
    if Text(body).None? {
      out.Send(HtmlReply(body, ErrorText(TypeErrorFault.message)));
      return Success(Response(INTERNAL_SERVER_ERROR, None));
    }
    var commandKey := RemoveKey(Text(body).value);
    var command := db.Get(Commands, Str(commandKey));
    if command.Failure? {
      out.Send(HtmlReply(body, ErrorText(command.error.message)));
      return Success(Response(INTERNAL_SERVER_ERROR, None));
    }
    if !Truthy(command.value) {
      out.Send(Reply(body, NotFoundText(commandKey)));
      return Success(Response(NOT_FOUND, None));
    }
    if !StrictEq(apiKey, Get(command.value, "apiKey")) {
      out.Send(Reply(body, NotOwnerText(commandKey)));
      return Success(Response(UNAUTHORIZED, None));
    }
    var name := Get(command.value, "command");
    var removed := CommandsService.Remove(db, Str(ToStr(name)));
    if removed.Failure? {
      out.Send(HtmlReply(body, ErrorText(removed.error.message)));
      return Success(Response(INTERNAL_SERVER_ERROR, None));
    }
    out.Send(Reply(body, RemovedText(name)));
    r := Success(Response(OK, None));
  }

  /** `botnorreaCommandsRemove`: the ROOT/ADMIN gate, the body checks, then
      `execute`. */
  method BotnorreaCommandsRemove(db: Db, out: Outbox, ev: BotEvent) returns (resp: Response)
    modifies db, out
    ensures var pre := Preflight(old(db.users), ev, ELEVATED);
      pre.Some? ==> resp == pre.value && Realizes(db, out, Effect(Success(()), old(Snapshot(db)), [], []), Success(()))
    ensures Preflight(old(db.users), ev, ELEVATED).None? ==>
      var e := ExecuteSpec(old(Snapshot(db)), ev.parsed.value);
      resp == Settle(e.result) && Realizes(db, out, e, e.result)
  {
    var pre := Preflight(db.users, ev, ELEVATED);
    if pre.Some? {
      return pre.value;
    }
    var r := Execute(db, out, ev.parsed.value);
    resp := Settle(r);
  }

  /** The guards in order: a chat that is not private, a missing apiKey, an
      unknown key, a key owned by another apiKey. Each answers with its status
      and message and leaves the tables as they were. */
  lemma GuardOrder(w: World, body: UpdateTg, caller: Value)
    ensures var e := ExecuteWith(w, body, Success(caller));
      && (!IsPrivate(body) ==> e == Effect(Success(Response(FORBIDDEN, None)), w, [Reply(body, NOT_PRIVATE_TEXT)], []))
      && (IsPrivate(body) && !Truthy(Get(caller, "apiKey")) ==>
            e == Effect(Success(Response(FORBIDDEN, None)), w, [Reply(body, NO_API_KEY_TEXT)], []))
      && (IsPrivate(body) && Truthy(Get(caller, "apiKey")) && Text(body).Some? ==>
            var key := RemoveKey(Text(body).value);
            && (key !in w.commands ==> e == Effect(Success(Response(NOT_FOUND, None)), w, [Reply(body, NotFoundText(key))], []))
            && (key in w.commands && Lookup(w.commands[key], "apiKey") != Get(caller, "apiKey") ==>
                  e == Effect(Success(Response(UNAUTHORIZED, None)), w, [Reply(body, NotOwnerText(key))], [])))
  {
    var apiKey := Get(caller, "apiKey");
    if IsPrivate(body) && Truthy(apiKey) && Text(body).Some? {
      var key := RemoveKey(Text(body).value);
      assert ExecuteWith(w, body, Success(caller)) == RemoveOwned(w, body, apiKey, key);
    }
  }

  /** Only the owner removes, and exactly the key asked for: with a
      well-keyed Commands table a call answers OK iff the chat is private,
      the caller has an apiKey (a primitive: `!==` compares objects by
      reference), and the stored command under the key carries that same
      apiKey; then that one command is gone and nothing else
      changed. Every other answer leaves the tables as they were. */
  lemma OnlyOwnerRemoves(w: World, body: UpdateTg, caller: Value)
    requires WellKeyed(Commands, w.commands)
    ensures var e := ExecuteWith(w, body, Success(caller));
      && (e.result == Success(Response(OK, None)) <==>
            && IsPrivate(body) && Truthy(Get(caller, "apiKey")) && Text(body).Some?
            && RemoveKey(Text(body).value) in w.commands
            && Lookup(w.commands[RemoveKey(Text(body).value)], "apiKey") == Get(caller, "apiKey")
            && !Get(caller, "apiKey").Arr? && !Get(caller, "apiKey").Rec?)
      && (e.result == Success(Response(OK, None)) ==>
            e.world == w.(commands := w.commands - {RemoveKey(Text(body).value)}))
      && (e.result != Success(Response(OK, None)) ==> e.world == w)
  {
    if IsPrivate(body) && Truthy(Get(caller, "apiKey")) && Text(body).Some?
       && RemoveKey(Text(body).value) in w.commands
       && Lookup(w.commands[RemoveKey(Text(body).value)], "apiKey") == Get(caller, "apiKey")
       && !Get(caller, "apiKey").Arr? && !Get(caller, "apiKey").Rec?
    {
      OwnerRemoves(w, body, caller);
    } else {
      OthersKeepTables(w, body, caller);
    }
  }

  /** The owner's call: OK, the key's command deleted, and its name in the
      reply. */
  lemma OwnerRemoves(w: World, body: UpdateTg, caller: Value)
    requires WellKeyed(Commands, w.commands)
    requires IsPrivate(body) && Truthy(Get(caller, "apiKey")) && Text(body).Some?
    requires RemoveKey(Text(body).value) in w.commands
    requires Lookup(w.commands[RemoveKey(Text(body).value)], "apiKey") == Get(caller, "apiKey")
    requires !Get(caller, "apiKey").Arr? && !Get(caller, "apiKey").Rec?
    ensures var key := RemoveKey(Text(body).value);
      ExecuteWith(w, body, Success(caller))
        == Effect(Success(Response(OK, None)), w.(commands := w.commands - {key}), [Reply(body, RemovedText(Str(key)))], [])
  {
    var key := RemoveKey(Text(body).value);
    assert ExecuteWith(w, body, Success(caller)) == RemoveOwned(w, body, Get(caller, "apiKey"), key);
    OwnedKeyRemoved(w, body, Get(caller, "apiKey"), key);
  }

  /** The lookup-and-delete step on a key whose command carries `apiKey`. */
  lemma OwnedKeyRemoved(w: World, body: UpdateTg, apiKey: Value, key: string)
    requires WellKeyed(Commands, w.commands)
    requires key in w.commands && Lookup(w.commands[key], "apiKey") == apiKey
    requires Truthy(apiKey) && !apiKey.Arr? && !apiKey.Rec?
    ensures RemoveOwned(w, body, apiKey, key)
      == Effect(Success(Response(OK, None)), w.(commands := w.commands - {key}), [Reply(body, RemovedText(Str(key)))], [])
  {
    var item := w.commands[key];
    assert key != "" && Lookup(item, "command") == Str(key);
    assert GetSpec(w.commands, Str(key)) == Success(Rec(item));
  }

  /** Any other call is not OK and leaves the tables as they were. */
  lemma OthersKeepTables(w: World, body: UpdateTg, caller: Value)
    requires WellKeyed(Commands, w.commands)
    requires !(IsPrivate(body) && Truthy(Get(caller, "apiKey")) && Text(body).Some?
               && RemoveKey(Text(body).value) in w.commands
               && Lookup(w.commands[RemoveKey(Text(body).value)], "apiKey") == Get(caller, "apiKey")
               && !Get(caller, "apiKey").Arr? && !Get(caller, "apiKey").Rec?)
    ensures var e := ExecuteWith(w, body, Success(caller));
      e.result != Success(Response(OK, None)) && e.world == w
  {
  }

  /** A bare `/commands_remove` looks up the key "/": the usage reply guarded
      by `parameters.length < 1` is never sent and the answer is never
      BAD_REQUEST. */
  lemma BareCommandLooksUpSlash(w: World, body: UpdateTg, caller: Result<Value, Fault>)
    requires Text(body) == Some("/commands_remove")
    ensures RemoveKey("/commands_remove") == "/"
    ensures ExecuteWith(w, body, caller).result != Success(Response(BAD_REQUEST, None))
  {
    assert StartsWithIgnoreCase("/commands_remove", "/commands_remove");
    assert RemoveAllIgnoreCase("/commands_remove", "/commands_remove") == "";
    assert Trim("") == "";
    assert Arguments("/commands_remove", "/commands_remove") == [""];
  }
}
