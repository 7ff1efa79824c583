/** src/services/dynamoCommandsService.ts: the Commands table, keyed by the
    command string. */
module CommandsService {
  import opened Wrappers
  import opened Js
  import opened Models
  import opened Store
  import opened DynamoDbHelper
  import opened ServiceErrors

  /** `hasAuthorization(apiKey, user)`. The role test applies `!` to an array
      literal, which is never falsy, so its branch is dead. */
  predicate HasAuthorization(apiKey: string, user: Value) {
    var roles := Arr([RoleValue(ROOT), RoleValue(ADMIN)]);
    if !Truthy(Get(user, "apiKey")) then false
    else if !Truthy(roles) then true
    else StrictEq(Str(apiKey), Get(user, "apiKey"))
  }

  /** The check holds exactly when the user's apiKey is the non-empty string
      presented. */
  lemma HasAuthorizationIff(apiKey: string, user: Value)
    ensures HasAuthorization(apiKey, user) <==> apiKey != "" && Get(user, "apiKey") == Str(apiKey)
  {
  }

  /** The user's role plays no part in `hasAuthorization`. */
  lemma RoleNotConsulted(apiKey: string, user: Obj, role: Value)
    ensures HasAuthorization(apiKey, Rec(user)) == HasAuthorization(apiKey, Rec(user["role" := role]))
  {
    assert Get(Rec(user), "apiKey") == Get(Rec(user["role" := role]), "apiKey");
  }

  /** `getByUuid`: the one command whose uuid is `uuid`, read back by its
      command key. */
  method GetByUuid(db: Db, uuid: Value) returns (r: Result<Value, Fault>)
    ensures r == ResolveOneSpec(Commands, db.commands, "uuid", uuid, "command")
  {
    r := db.ScanOne(Commands, "uuid", uuid, {"command", "uuid"}, "command");
  }

  const LISTED := {"command", "apiKey", "endpoint", "description"}

  /** `getByApiKey`: every command owned by `apiKey`, and only those, each
      with its command, apiKey, endpoint and description. */
  method GetByApiKey(db: Db, apiKey: Value) returns (r: Result<seq<Obj>, Fault>, ghost keys: seq<string>)
    ensures r.Failure? <==> apiKey.Undefined?
    ensures r.Failure? ==> r.error == ValidationFault
    ensures r.Success? ==> Enumerates(keys, MatchKeys(db.commands, "apiKey", apiKey))
    ensures r.Success? ==> forall i :: 0 <= i < |keys| ==> keys[i] in db.commands
    ensures r.Success? ==> r.value == ProjectAll(db.commands, keys, LISTED)
    ensures r.Success? ==> forall i :: 0 <= i < |r.value| ==> Lookup(r.value[i], "apiKey") == apiKey
  {
    r, keys := db.Scan(Commands, "apiKey", apiKey, LISTED);
    if r.Success? {
      forall i | 0 <= i < |r.value| ensures Lookup(r.value[i], "apiKey") == apiKey {
        assert keys[i] in MatchKeys(db.commands, "apiKey", apiKey);
      }
    }
  }

  /** `` `${params?.command}` ``: the key `create` checks and reads back. */
  function CommandKey(params: Obj): Value {
    Str(ToStr(Lookup(params, "command")))
  }

  function NewCommand(params: Obj, uuid: string, now: int): Obj {
    params + map["uuid" := Str(uuid), "createdAt" := Num(now), "updatedAt" := Num(now)]
  }

  function CreateSpec(tbl: Table, params: Obj, uuid: string, now: int): Outcome {
    var found := GetSpec(tbl, CommandKey(params));
    if found.Failure? then Outcome(Failure(found.error), tbl)
    else if Truthy(found.value) then Outcome(Failure(ForbiddenFault), tbl)
    else
      var command := NewCommand(params, uuid, now);
      var put := PutSpec(Commands, tbl, command);
      if put.Failure? then Outcome(Failure(put.error), tbl)
      else Outcome(GetSpec(put.value, CommandKey(command)), put.value)
  }

  /** `create`: refuse a taken command name, then put and read back. */
  method Create(db: Db, params: Obj, uuid: string, now: int) returns (r: Result<Value, Fault>)
    modifies db
    ensures Outcome(r, db.commands) == CreateSpec(old(db.commands), params, uuid, now)
    ensures db.users == old(db.users) && db.groups == old(db.groups)
  {
    var found :- db.Get(Commands, CommandKey(params));
    if Truthy(found) {
      return Failure(ForbiddenFault);
    }
    var command := NewCommand(params, uuid, now);
    var put := db.Put(Commands, command);
    if put.Failure? {
      return Failure(put.error);
    }
    r := db.Get(Commands, CommandKey(command));
  }

  /** Command names are unique: `create` with a name already stored is
      "Forbidden" and writes nothing. A new string name is stored with the
      parameters, the fresh uuid and equal timestamps, and read back. */
  lemma CreateUnique(tbl: Table, params: Obj, uuid: string, now: int)
    ensures var o := CreateSpec(tbl, params, uuid, now);
      && (o.result.Failure? ==> o.tbl == tbl)
      && (var c := ToStr(Lookup(params, "command")); c != "" && c in tbl ==> o.result == Failure(ForbiddenFault))
      && (Lookup(params, "command").Str? && Lookup(params, "command").s != ""
          && Lookup(params, "command").s !in tbl
          && (forall a :: a in params ==> !params[a].Undefined?)
          ==> var c := NewCommand(params, uuid, now);
              && o.tbl == tbl[Lookup(params, "command").s := c] && o.result == Success(Rec(c))
              && c["uuid"] == Str(uuid) && c["createdAt"] == c["updatedAt"] == Num(now))
  {
    var c := NewCommand(params, uuid, now);
    assert Lookup(c, "command") == Lookup(params, "command");
  }

  /** The record an update writes before `buildExpressions`: the found record,
      the parameters over it, a new updatedAt, and the attributes in `drop`
      deleted. */
  function CommandDiff(found: Obj, params: Obj, now: int, drop: set<string>): Obj {
    (found + params + map["updatedAt" := Num(now)]) - drop
  }

  /** `update`'s guards and write, deleting the attributes `drop` from the
      diff. The source deletes only `apiKey`. */
  function UpdateWith(tbl: Table, params: Obj, user: Value, now: int, drop: set<string>): Outcome {
    var uuid := Lookup(params, "uuid");
    if !Truthy(uuid) then Outcome(Failure(BadRequestFault), tbl)
    else
      var found := GetSpec(tbl, uuid);
      if found.Failure? then Outcome(Failure(found.error), tbl)
      else if !Truthy(found.value) then Outcome(Failure(NotFoundFault), tbl)
      else
        var item := found.value.fields;
        var key := Lookup(item, "command");
        if !Truthy(key) then Outcome(Failure(BadGatewayFault), tbl)
        else if !HasAuthorization(ToStr(Lookup(item, "apiKey")), user) then Outcome(Failure(UnauthorizedFault), tbl)
        else
          var w := WriteSpec(Commands, tbl, key, CommandDiff(item, params, now, drop));
          if w.Failure? then Outcome(Failure(w.error), tbl)
          else Outcome(GetSpec(w.value, key), w.value)
  }

  method UpdateDropping(db: Db, params: Obj, user: Value, now: int, drop: set<string>) returns (r: Result<Value, Fault>)
    modifies db
    ensures Outcome(r, db.commands) == UpdateWith(old(db.commands), params, user, now, drop)
    ensures db.users == old(db.users) && db.groups == old(db.groups)
  {
    var uuid := Lookup(params, "uuid");
    if !Truthy(uuid) {
      return Failure(BadRequestFault);
    }
    var found :- db.Get(Commands, uuid);
    if !Truthy(found) {
      return Failure(NotFoundFault);
    }
    var item := found.fields;
    var key := Lookup(item, "command");
    if !Truthy(key) {
      return Failure(BadGatewayFault);
    }
    if !HasAuthorization(ToStr(Lookup(item, "apiKey")), user) {
      return Failure(UnauthorizedFault);
    }
    var command := CommandDiff(item, params, now, drop);
    var w := db.WriteDiff(Commands, key, command);
    if w.Failure? {
      return Failure(w.error);
    }
    r := db.Get(Commands, key);
  }

  /** `update` as written: the diff keeps the `command` key attribute. */
  method UpdateAsWritten(db: Db, params: Obj, user: Value, now: int) returns (r: Result<Value, Fault>)
    modifies db
    ensures Outcome(r, db.commands) == UpdateWith(old(db.commands), params, user, now, {"apiKey"})
    ensures db.users == old(db.users) && db.groups == old(db.groups)
  {
    r := UpdateDropping(db, params, user, now, {"apiKey"});
  }

  /** As written, every update that passes the four guards asks the store to
      SET the key attribute `command` (unless the parameters null it out), so
      the store refuses it and nothing changes. */
  lemma UpdateAsWrittenIsRefused(tbl: Table, params: Obj, user: Value, now: int)
    requires var uuid := Lookup(params, "uuid");
      KeyOk(uuid) && uuid.s in tbl && Truthy(Lookup(tbl[uuid.s], "command"))
      && HasAuthorization(ToStr(Lookup(tbl[uuid.s], "apiKey")), user)
    requires !("command" in params && Nullish(params["command"]))
    ensures UpdateWith(tbl, params, user, now, {"apiKey"}) == Outcome(Failure(ValidationFault), tbl)
  {
    var item := tbl[Lookup(params, "uuid").s];
    assert "command" in SparseObj(CommandDiff(item, params, now, {"apiKey"}));
  }

  /** `update` with the key attribute also deleted from the diff. */
  method Update(db: Db, params: Obj, user: Value, now: int) returns (r: Result<Value, Fault>)
    modifies db
    ensures Outcome(r, db.commands) == UpdateWith(old(db.commands), params, user, now, {"apiKey", "command"})
    ensures db.users == old(db.users) && db.groups == old(db.groups)
  {
    r := UpdateDropping(db, params, user, now, {"apiKey", "command"});
  }

  /** A rejected update writes nothing; the guards come in order: no uuid,
      nothing stored under it, no command on the record, caller not the
      owner. */
  lemma UpdateGuards(tbl: Table, params: Obj, user: Value, now: int, drop: set<string>)
    ensures var o := UpdateWith(tbl, params, user, now, drop);
      var uuid := Lookup(params, "uuid");
      && (o.result.Failure? ==> o.tbl == tbl)
      && (!Truthy(uuid) ==> o.result == Failure(BadRequestFault))
      && (KeyOk(uuid) && uuid.s !in tbl ==> o.result == Failure(NotFoundFault))
      && (KeyOk(uuid) && uuid.s in tbl && !Truthy(Lookup(tbl[uuid.s], "command")) ==> o.result == Failure(BadGatewayFault))
      && (KeyOk(uuid) && uuid.s in tbl && Truthy(Lookup(tbl[uuid.s], "command")) && !HasAuthorization(ToStr(Lookup(tbl[uuid.s], "apiKey")), user)
          ==> o.result == Failure(UnauthorizedFault))
  {
  }

  /** The corrected update merges the non-null parameters and a new updatedAt
      over the stored record; the owner's apiKey and the command name stay. */
  lemma UpdateMerges(tbl: Table, params: Obj, user: Value, now: int)
    requires WellKeyed(Commands, tbl)
    requires var uuid := Lookup(params, "uuid");
      KeyOk(uuid) && uuid.s in tbl && HasAuthorization(ToStr(Lookup(tbl[uuid.s], "apiKey")), user)
    ensures var k := Lookup(params, "uuid").s;
      var changed := tbl[k] + SparseObj((params + map["updatedAt" := Num(now)]) - {"apiKey", "command"});
      && UpdateWith(tbl, params, user, now, {"apiKey", "command"}) == Outcome(Success(Rec(changed)), tbl[k := changed])
      && Lookup(changed, "apiKey") == Lookup(tbl[k], "apiKey")
      && Lookup(changed, "command") == Str(k)
  {
    var k := Lookup(params, "uuid").s;
    var item := tbl[k];
    var u := map["updatedAt" := Num(now)];
    var drop := {"apiKey", "command"};
    MergeParams(item, params, u, drop);
    assert "updatedAt" in SparseObj(CommandDiff(item, params, now, drop));
  }

  lemma MergeParams(item: Obj, params: Obj, u: Obj, drop: set<string>)
    requires forall a :: a in u ==> !Nullish(u[a]) && a !in drop
    ensures item + SparseObj((item + params + u) - drop) == item + SparseObj((params + u) - drop)
  {
    var lhs := item + SparseObj((item + params + u) - drop);
    var rhs := item + SparseObj((params + u) - drop);
    forall a ensures a in lhs <==> a in rhs {
      if a in u { assert a in SparseObj((params + u) - drop); }
      else if a in params && a !in drop && !Nullish(params[a]) { assert a in SparseObj((params + u) - drop); }
    }
    forall a | a in lhs ensures lhs[a] == rhs[a] {
      if a in drop {
      } else if a in u {
        assert a in SparseObj((params + u) - drop) && a in SparseObj((item + params + u) - drop);
      } else if a in params {
        if !Nullish(params[a]) {
          assert a in SparseObj((params + u) - drop) && a in SparseObj((item + params + u) - drop);
        } else {
          assert a !in SparseObj((params + u) - drop) && a !in SparseObj((item + params + u) - drop);
        }
      }
    }
  }

  /** `remove`: delete by command key; an absent key leaves the table as it
      was. */
  method Remove(db: Db, command: Value) returns (r: Result<(), Fault>)
    modifies db
    ensures r.Failure? <==> !KeyOk(command)
    ensures r.Success? ==> db.commands == old(db.commands) - {command.s}
    ensures r.Failure? ==> r.error == ValidationFault && db.commands == old(db.commands)
    ensures db.users == old(db.users) && db.groups == old(db.groups)
  {
    r := db.Delete(Commands, command);
  }
}
