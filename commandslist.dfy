/** src/functions/botnorrea_commands_list/index.ts: `/commands_list` replies
    with the commands the caller owns, one line each. There is no chat-type
    check, and every step runs inside one `try`. */
module CommandsList {
  import opened Wrappers
  import opened Js
  import opened JsStrings
  import opened Models
  import opened Store
  import opened Lambda
  import opened HttpStatus
  import UsersService
  import CommandsService
  import opened CommandsCreate
  import opened CommandsRemove

  const NOT_FOUND_TEXT := "Not found"

  /** `` `${item?.command} - ${item?.description}` `` */
  function ListLine(item: Obj): string {
    ToStr(Lookup(item, "command")) + " - " + ToStr(Lookup(item, "description"))
  }

  function ListLines(items: seq<Obj>): (r: seq<string>)
    ensures |r| == |items|
    ensures forall i :: 0 <= i < |items| ==> r[i] == ListLine(items[i])
  {
    seq(|items|, i requires 0 <= i < |items| => ListLine(items[i]))
  }

  /** The reply: the lines joined by newlines. */
  function ListText(items: seq<Obj>): string {
    Join(ListLines(items), "\n")
  }

  /** `execute` once the caller lookup resolved with `caller`, with `keys` the
      order `getByApiKey`'s Scan returns the caller's commands in. */
  function ExecuteWith(w: World, body: UpdateTg, caller: Result<Value, Fault>, keys: seq<string>): Effect<Response>
    requires forall i :: 0 <= i < |keys| ==> keys[i] in w.commands
  {
    if caller.Failure? then Caught(w, body, caller.error)
    else
      var apiKey := Get(caller.value, "apiKey");
      if !Truthy(apiKey) then Effect(Success(Response(FORBIDDEN, None)), w, [Reply(body, NO_API_KEY_TEXT)], [])
      else
        var commands := ProjectAll(w.commands, keys, CommandsService.LISTED);
        if |commands| == 0 then Effect(Success(Response(NOT_FOUND, None)), w, [Reply(body, NOT_FOUND_TEXT)], [])
        else Effect(Success(Response(OK, None)), w, [Reply(body, ListText(commands))], [])
  }

  /** `keys` are what the Scan returns for the caller's apiKey, when the
      caller resolved with one. */
  ghost predicate ListsOwned(w: World, body: UpdateTg, keys: seq<string>) {
    && (forall i :: 0 <= i < |keys| ==> keys[i] in w.commands)
    && var caller := ResolveOneSpec(Users, w.users, "id", SenderId(body), "uuid");
       caller.Success? && Truthy(Get(caller.value, "apiKey")) ==>
         Enumerates(keys, MatchKeys(w.commands, "apiKey", Get(caller.value, "apiKey")))
  }

  ghost function ExecuteSpec(w: World, body: UpdateTg, keys: seq<string>): Effect<Response>
    requires ListsOwned(w, body, keys)
  {
    ExecuteWith(w, body, ResolveOneSpec(Users, w.users, "id", SenderId(body), "uuid"), keys)
  }

  method Execute(db: Db, out: Outbox, body: UpdateTg) returns (r: Result<Response, Fault>, ghost keys: seq<string>)
    modifies db, out
    ensures ListsOwned(old(Snapshot(db)), body, keys)
    ensures Realizes(db, out, ExecuteSpec(old(Snapshot(db)), body, keys), r)
  {
    keys := [];
    var currentUser := UsersService.FindUserByExternalId(db, SenderId(body));
    if currentUser.Failure? {
      out.Send(HtmlReply(body, ErrorText(currentUser.error.message)));
      return Success(Response(INTERNAL_SERVER_ERROR, None)), keys;
    }
    var apiKey := Get(currentUser.value, "apiKey");
    if !Truthy(apiKey) {
      out.Send(Reply(body, NO_API_KEY_TEXT));
      return Success(Response(FORBIDDEN, None)), keys;
    }
    var commands;
    commands, keys := CommandsService.GetByApiKey(db, apiKey);
    if |commands.value| == 0 {
      out.Send(Reply(body, NOT_FOUND_TEXT));
      return Success(Response(NOT_FOUND, None)), keys;
    }
    out.Send(Reply(body, ListText(commands.value)));
    r := Success(Response(OK, None));
  }

  /** `botnorreaCommandsList`: the ROOT/ADMIN gate, the body checks, then
      `execute`. */
  method BotnorreaCommandsList(db: Db, out: Outbox, ev: BotEvent) returns (resp: Response, ghost keys: seq<string>)
    modifies db, out
    ensures var pre := Preflight(old(db.users), ev, ELEVATED);
      pre.Some? ==> resp == pre.value && Realizes(db, out, Effect(Success(()), old(Snapshot(db)), [], []), Success(()))
    ensures Preflight(old(db.users), ev, ELEVATED).None? ==>
      && ListsOwned(old(Snapshot(db)), ev.parsed.value, keys)
      && var e := ExecuteSpec(old(Snapshot(db)), ev.parsed.value, keys);
         resp == Settle(e.result) && Realizes(db, out, e, e.result)
  {
    keys := [];
    var pre := Preflight(db.users, ev, ELEVATED);
    if pre.Some? {
      return pre.value, keys;
    }
    var r;
    r, keys := Execute(db, out, ev.parsed.value);
    resp := Settle(r);
  }

  /** Listing only reads: no table changes and no posts, whatever the caller
      and chat; exactly one message is sent. The chat type is not consulted:
      a caller with an apiKey and commands is answered OK in a group too. */
  lemma ListingOnlyReads(w: World, body: UpdateTg, caller: Result<Value, Fault>, keys: seq<string>)
    requires forall i :: 0 <= i < |keys| ==> keys[i] in w.commands
    ensures var e := ExecuteWith(w, body, caller, keys);
      && e.world == w && e.posts == [] && |e.messages| == 1
      && (caller.Success? && Truthy(Get(caller.value, "apiKey")) && |keys| > 0 ==> e.result == Success(Response(OK, None)))
      && (caller.Success? && !Truthy(Get(caller.value, "apiKey")) ==>
            e.result == Success(Response(FORBIDDEN, None)) && e.messages == [Reply(body, NO_API_KEY_TEXT)])
      && (caller.Failure? ==>
            e.result == Success(Response(INTERNAL_SERVER_ERROR, None))
            && e.messages == [HtmlReply(body, ErrorText(caller.error.message))])
  {
  }

  /** Only the caller's commands are listed, each exactly once: with `keys`
      listing the commands whose apiKey is the caller's, the answer is
      NOT_FOUND with "Not found" iff there is none, and otherwise OK with the
      line of each such command, in Scan order. When no command name or
      description holds a newline, splitting the reply on newlines gives back
      exactly those lines. */
  lemma ListsExactlyOwned(w: World, body: UpdateTg, caller: Value, keys: seq<string>)
    requires Truthy(Get(caller, "apiKey"))
    requires forall i :: 0 <= i < |keys| ==> keys[i] in w.commands
    requires Enumerates(keys, MatchKeys(w.commands, "apiKey", Get(caller, "apiKey")))
    ensures var e := ExecuteWith(w, body, Success(caller), keys);
      && (MatchKeys(w.commands, "apiKey", Get(caller, "apiKey")) == {} <==>
            e == Effect(Success(Response(NOT_FOUND, None)), w, [Reply(body, NOT_FOUND_TEXT)], []))
      && (|keys| > 0 ==>
            var lines := ListLines(ProjectAll(w.commands, keys, CommandsService.LISTED));
            && e == Effect(Success(Response(OK, None)), w, [Reply(body, Join(lines, "\n"))], [])
            && (forall i :: 0 <= i < |keys| ==>
                  Lookup(w.commands[keys[i]], "apiKey") == Get(caller, "apiKey")
                  && lines[i] == ListLine(w.commands[keys[i]]))
            && ((forall i :: 0 <= i < |lines| ==> '\n' !in lines[i]) ==> Split(Join(lines, "\n"), '\n') == lines))
  {
    var m := MatchKeys(w.commands, "apiKey", Get(caller, "apiKey"));
    if m == {} {
      assert |keys| == 0;
    } else {
      var k :| k in m;
      assert |keys| > 0;
    }
    if |keys| > 0 {
      var items := ProjectAll(w.commands, keys, CommandsService.LISTED);
      var lines := ListLines(items);
      forall i | 0 <= i < |keys|
        ensures Lookup(w.commands[keys[i]], "apiKey") == Get(caller, "apiKey") && lines[i] == ListLine(w.commands[keys[i]])
      {
        assert keys[i] in m;
        assert Lookup(items[i], "command") == Lookup(w.commands[keys[i]], "command");
        assert Lookup(items[i], "description") == Lookup(w.commands[keys[i]], "description");
      }
      if forall i :: 0 <= i < |lines| ==> '\n' !in lines[i] {
        SplitJoin(lines, '\n');
      }
    }
  }
}
