/** src/functions/telegram_webhook/index.ts: every update Telegram delivers
    records its sender and group, and a message opening with a registered
    command is relayed, unchanged, to that command's endpoint. */
module TelegramWebhook {
  import opened Wrappers
  import opened Js
  import opened JsStrings
  import opened Models
  import opened Store
  import opened Lambda
  import opened HttpStatus
  import opened ServiceErrors
  import opened TelegramUtils
  import opened DynamoDbHelper
  import UsersService
  import GroupsService

  /** The `from` of the message as a record (`{}` for none). */
  function FromObj(from: Option<UserTg>): Obj {
    if from.Some? then UserTgObj(from.value) else map[]
  }

  function ChatObj(chat: Option<ChatTg>): Obj {
    if chat.Some? then ChatTgObj(chat.value) else map[]
  }

  function FromUsername(from: Option<UserTg>): Value {
    if from.Some? then from.value.username else Undefined
  }

  function ChatTitle(chat: Option<ChatTg>): Value {
    if chat.Some? then chat.value.title else Undefined
  }

  /** `putUser` once the lookup resolved with `found`. A rejected lookup is
      caught and resolves with nothing; `create` and `update` are returned
      from the `try` without being awaited, so their rejections escape. */
  function PutUserWith(users: Table, from: Option<UserTg>, found: Result<Value, Fault>, uuid: string, now: int): Outcome {
    if found.Failure? then Outcome(Success(Undefined), users)
    else if !Truthy(found.value) then UsersService.CreateSpec(users, FromObj(from), false, uuid, now)
    else UsersService.UpdateSpec(users, AsObj(found.value) + map["username" := FromUsername(from)], false, now)
  }

  ghost function PutUserSpec(users: Table, from: Option<UserTg>, uuid: string, now: int): Outcome {
    var id := if from.Some? then from.value.id else Undefined;
    PutUserWith(users, from, ResolveOneSpec(Users, users, "id", id, "uuid"), uuid, now)
  }

  method PutUser(db: Db, from: Option<UserTg>, uuid: string, now: int) returns (r: Result<Value, Fault>)
    modifies db
    ensures Outcome(r, db.users) == PutUserSpec(old(db.users), from, uuid, now)
    ensures db.groups == old(db.groups) && db.commands == old(db.commands)
  {
    var id := if from.Some? then from.value.id else Undefined;
    var currentUser := UsersService.FindUserByExternalId(db, id);
    if currentUser.Failure? {
      return Success(Undefined);
    }
    if !Truthy(currentUser.value) {
      r := UsersService.Create(db, FromObj(from), false, uuid, now);
      return;
    }
    r := UsersService.Update(db, AsObj(currentUser.value) + map["username" := FromUsername(from)], false, now);
  }

  /** `putGroup` once the lookup resolved with `found`; a private chat is
      never looked up. */
  function PutGroupWith(groups: Table, chat: Option<ChatTg>, found: Result<Value, Fault>, uuid: string, now: int): Outcome {
    if chat.Some? && chat.value.kind == CHAT_PRIVATE then Outcome(Success(Undefined), groups)
    else if found.Failure? then Outcome(Success(Undefined), groups)
    else if !Truthy(found.value) then GroupsService.CreateSpec(groups, ChatObj(chat), uuid, now)
    else GroupsService.UpdateSpec(groups, AsObj(found.value) + map["title" := ChatTitle(chat)], now)
  }

  ghost function PutGroupSpec(groups: Table, chat: Option<ChatTg>, uuid: string, now: int): Outcome {
    var id := if chat.Some? then chat.value.id else Undefined;
    PutGroupWith(groups, chat, ResolveOneSpec(Groups, groups, "id", id, "uuid"), uuid, now)
  }

  method PutGroup(db: Db, chat: Option<ChatTg>, uuid: string, now: int) returns (r: Result<Value, Fault>)
    modifies db
    ensures Outcome(r, db.groups) == PutGroupSpec(old(db.groups), chat, uuid, now)
    ensures db.users == old(db.users) && db.commands == old(db.commands)
  {
    if chat.Some? && chat.value.kind == CHAT_PRIVATE {
      return Success(Undefined);
    }
    var id := if chat.Some? then chat.value.id else Undefined;
    var foundGroup := GroupsService.GetById(db, id);
    if foundGroup.Failure? {
      return Success(Undefined);
    }
    if !Truthy(foundGroup.value) {
      r := GroupsService.Create(db, ChatObj(chat), uuid, now);
      return;
    }
    r := GroupsService.Update(db, AsObj(foundGroup.value) + map["title" := ChatTitle(chat)], now);
  }

  /** `body?.message?.text?.substring(offset, length)` for the command key. */
  function CommandInMessage(body: UpdateTg): Value {
    var key := GetCommandKey(body);
    if Text(body).None? then Undefined else Str(Substring(Text(body).value, key.offset, key.length))
  }

  /** `sendToEndpointCommand`: the posts it makes, or the rejection of its
      command lookup. A failed post is swallowed. */
  function RelaySpec(commands: Table, body: UpdateTg): Result<seq<Post>, Fault> {
    var got := GetSpec(commands, CommandInMessage(body));
    if got.Failure? then Failure(got.error)
    else
      var endpoint := Get(got.value, "endpoint");
      if !Truthy(endpoint) then Success([])
      else Success([Post(endpoint, Relay(body))])
  }

  method SendToEndpointCommand(db: Db, out: Outbox, body: UpdateTg) returns (r: Result<(), Fault>)
    modifies out
    ensures var s := RelaySpec(db.commands, body);
      && (s.Failure? ==> r == Failure(s.error) && out.posts == old(out.posts))
      && (s.Success? ==> r == Success(()) && out.posts == old(out.posts) + s.value)
    ensures out.messages == old(out.messages)
  {
    var command :- db.Get(Commands, CommandInMessage(body));
    var endpoint := Get(command, "endpoint");
    if !Truthy(endpoint) {
      return Success(());
    }
    out.PostTo(endpoint, Relay(body));
    r := Success(());
  }

  /** `execute` given the outcomes of `putUser` and `putGroup`, run one after
      the other; `putUser`'s rejection is reported first. */
  function ExecuteWith(w: World, body: UpdateTg, u: Outcome, g: Outcome): Effect<Response> {
    var w1 := w.(users := u.tbl, groups := g.tbl);
    if u.result.Failure? then Effect(Failure(u.result.error), w1, [], [])
    else if g.result.Failure? then Effect(Failure(g.result.error), w1, [], [])
    else if SentByBot(body) || !HasCommand(body) then Effect(Success(Response(OK, None)), w1, [], [])
    else
      var relay := RelaySpec(w.commands, body);
      if relay.Failure? then Effect(Failure(relay.error), w1, [], [])
      else Effect(Success(Response(OK, None)), w1, [], relay.value)
  }

  ghost function ExecuteSpec(w: World, body: UpdateTg, userUuid: string, groupUuid: string, now: int): Effect<Response> {
    ExecuteWith(w, body, PutUserSpec(w.users, Sender(body), userUuid, now), PutGroupSpec(w.groups, Chat(body), groupUuid, now))
  }

  /** `execute`; `userUuid` and `groupUuid` are the uuids a create would use. */
  method Execute(db: Db, out: Outbox, body: UpdateTg, userUuid: string, groupUuid: string, now: int)
    returns (r: Result<Response, Fault>)
    modifies db, out
    ensures Realizes(db, out, ExecuteSpec(old(Snapshot(db)), body, userUuid, groupUuid, now), r)
  {
    var putUser := PutUser(db, Sender(body), userUuid, now);
    var putGroup := PutGroup(db, Chat(body), groupUuid, now);
    if putUser.Failure? {
      return Failure(putUser.error);
    }
    if putGroup.Failure? {
      return Failure(putGroup.error);
    }
    if SentByBot(body) || !HasCommand(body) {
      return Success(Response(OK, None));
    }
    var sent := SendToEndpointCommand(db, out, body);
    if sent.Failure? {
      return Failure(sent.error);
    }
    r := Success(Response(OK, None));
  }

  /** `telegramWebhook`: the ROOT/ADMIN/SERVICE gate, the body checks, then
      `execute`. */
  method TelegramWebhook(db: Db, out: Outbox, ev: BotEvent, userUuid: string, groupUuid: string, now: int)
    returns (resp: Response)
    modifies db, out
    ensures var pre := Preflight(old(db.users), ev, RELAY_CALLERS);
      pre.Some? ==> resp == pre.value && Realizes(db, out, Effect(Success(()), old(Snapshot(db)), [], []), Success(()))
    ensures Preflight(old(db.users), ev, RELAY_CALLERS).None? ==>
      var e := ExecuteSpec(old(Snapshot(db)), ev.parsed.value, userUuid, groupUuid, now);
      resp == Settle(e.result) && Realizes(db, out, e, e.result)
  {
    var pre := Preflight(db.users, ev, RELAY_CALLERS);
    if pre.Some? {
      return pre.value;
    }
    var r := Execute(db, out, ev.parsed.value, userUuid, groupUuid, now);
    resp := Settle(r);
  }

  /** `putUser` upserts by external id: with no stored match it creates the
      user from the Telegram sender; with one it replaces only the username
      (`""` when absent) and updatedAt; with several, or with no sender id,
      the rejected lookup is caught and nothing is written. */
  lemma PutUserUpserts(users: Table, from: UserTg, uuid: string, now: int)
    requires WellKeyed(Users, users)
    ensures var o := PutUserSpec(users, Some(from), uuid, now);
      var m := MatchKeys(users, "id", from.id);
      && (from.id.Undefined? || |m| > 1 ==> o == Outcome(Success(Undefined), users))
      && (!from.id.Undefined? && m == {} ==> o == UsersService.CreateSpec(users, UserTgObj(from), false, uuid, now))
      && (forall k :: !from.id.Undefined? && m == {k} ==>
            var changed := users[k] + map["username" := Coalesce(from.username, Str("")), "updatedAt" := Num(now)];
            o == Outcome(Success(Rec(changed)), users[k := changed]))
  {
    if !from.id.Undefined? {
      ResolveOneFindsMatch(Users, users, "id", from.id);
      forall k | MatchKeys(users, "id", from.id) == {k}
        ensures var changed := users[k] + map["username" := Coalesce(from.username, Str("")), "updatedAt" := Num(now)];
          PutUserSpec(users, Some(from), uuid, now) == Outcome(Success(Rec(changed)), users[k := changed])
      {
        assert k in MatchKeys(users, "id", from.id);
        var params := users[k] + map["username" := from.username];
        assert Lookup(params, "uuid") == Str(k);
        UsersService.UpdateAsUser(users, params, now);
      }
    }
  }

  /** `putGroup` upserts a group chat by its id: no match creates it, one
      match changes only title (kept when the chat has none) and updatedAt;
      several, a missing id or a private chat write nothing. */
  lemma PutGroupUpserts(groups: Table, chat: ChatTg, uuid: string, now: int)
    requires WellKeyed(Groups, groups)
    ensures var o := PutGroupSpec(groups, Some(chat), uuid, now);
      var m := MatchKeys(groups, "id", chat.id);
      && (chat.kind == CHAT_PRIVATE || chat.id.Undefined? || |m| > 1 ==> o == Outcome(Success(Undefined), groups))
      && (chat.kind != CHAT_PRIVATE && !chat.id.Undefined? && m == {} ==>
            o == GroupsService.CreateSpec(groups, ChatTgObj(chat), uuid, now))
      && (forall k :: chat.kind != CHAT_PRIVATE && Truthy(chat.id) && m == {k} ==>
            var changed := groups[k] + map["updatedAt" := Num(now)] + SparseObj(map["title" := chat.title]);
            o == Outcome(Success(Rec(changed)), groups[k := changed]))
  {
    if chat.kind != CHAT_PRIVATE && !chat.id.Undefined? {
      ResolveOneFindsMatch(Groups, groups, "id", chat.id);
      forall k | Truthy(chat.id) && MatchKeys(groups, "id", chat.id) == {k}
        ensures var changed := groups[k] + map["updatedAt" := Num(now)] + SparseObj(map["title" := chat.title]);
          PutGroupSpec(groups, Some(chat), uuid, now) == Outcome(Success(Rec(changed)), groups[k := changed])
      {
        assert k in MatchKeys(groups, "id", chat.id);
        var params := groups[k] + map["title" := chat.title];
        assert Lookup(params, "uuid") == Str(k);
        assert Lookup(params, "id") == chat.id;
        GroupsService.UpdateSetsTitle(groups, params, now);
      }
    }
  }

  /** The webhook never writes the Commands table and never sends a chat
      message; a bot sender gets no lookup and no relay. */
  lemma BotSenderIsNotRelayed(w: World, body: UpdateTg, u: Outcome, g: Outcome)
    ensures var e := ExecuteWith(w, body, u, g);
      && e.world.commands == w.commands && e.messages == []
      && (SentByBot(body) ==> e.posts == [])
      && (SentByBot(body) && u.result.Success? && g.result.Success? ==> e.result == Success(Response(OK, None)))
  {
  }

  /** A relay happens exactly for a message, not from a bot, whose first
      command entity names (by `text.substring(0, length)`) a stored command
      with an endpoint (an empty name is refused by the store); it posts the
      update unchanged to that endpoint, once. */
  lemma RelaysOnlyRegisteredCommands(w: World, body: UpdateTg, u: Outcome, g: Outcome)
    requires u.result.Success? && g.result.Success?
    ensures var e := ExecuteWith(w, body, u, g);
      && (e.posts != [] <==>
            && !SentByBot(body) && HasCommand(body) && Text(body).Some?
            && var key := Substring(Text(body).value, 0, GetCommandKey(body).length);
               key != "" && key in w.commands && Truthy(Lookup(w.commands[key], "endpoint")))
      && (e.posts != [] ==>
            var key := Substring(Text(body).value, 0, GetCommandKey(body).length);
            e.posts == [Post(Lookup(w.commands[key], "endpoint"), Relay(body))] && e.result == Success(Response(OK, None)))
  {
  }

  /** The key looked up is the text up to the length of the first command
      entity, which starts the message. */
  lemma CommandKeyIsPrefix(body: UpdateTg)
    requires HasCommand(body) && Text(body).Some?
    ensures exists i ::
      && FirstCommandAt(body.message.value.entities.value, i)
      && var n := body.message.value.entities.value[i].length;
         var t := Text(body).value;
         CommandInMessage(body) == Str(t[..if n < 0 then 0 else if n <= |t| then n else |t|])
  {
    var key := GetCommandKey(body);
    var i :| FirstCommandAt(body.message.value.entities.value, i)
      && GetCommandKey(body) == CommandKey(0, body.message.value.entities.value[i].length);
  }

  /** With `getById` as written the lookup resolves with the Scan response,
      which is truthy and has no uuid: `putUser` always takes the update path,
      `update` refuses it as a bad request, the rejection escapes the `try`,
      and the webhook answers INTERNAL_SERVER_ERROR for every message that
      has a sender id. */
  lemma AsWrittenPutUserRejects(w: World, body: UpdateTg, from: UserTg, items: seq<Obj>, g: Outcome, uuid: string, now: int)
    ensures var u := PutUserWith(w.users, Some(from), Success(UsersService.ScanResponse(items)), uuid, now);
      && u == Outcome(Failure(BadRequestFault), w.users)
      && ExecuteWith(w, body, u, g).result == Failure(BadRequestFault)
      && Settle(ExecuteWith(w, body, u, g).result) == Response(INTERNAL_SERVER_ERROR, Some(BadRequestFault.message))
  {
    UsersService.ScanResponseIsNoUser(items);
    var params := AsObj(UsersService.ScanResponse(items)) + map["username" := from.username];
    assert Lookup(params, "uuid") == Undefined;
  }
}
