/** src/services/dynamoUsersService.ts: the Users table, keyed by `uuid`. The
    fresh uuid and the clock reading a call uses are its parameters. */
module UsersService {
  import opened Wrappers
  import opened Js
  import opened Models
  import opened Store
  import opened DynamoDbHelper
  import opened ServiceErrors

  /** The attributes `create` copies from its parameters. */
  function NewUser(params: Obj, editAsAdmin: bool, uuid: string, now: int): Obj {
    map[
      "uuid" := Str(uuid),
      "id" := Lookup(params, "id"),
      "role" := if editAsAdmin then Lookup(params, "role") else RoleValue(USER),
      "username" := Coalesce(Lookup(params, "username"), Str("")),
      "createdAt" := Num(now),
      "updatedAt" := Num(now)]
  }

  function CreateSpec(tbl: Table, params: Obj, editAsAdmin: bool, uuid: string, now: int): Outcome {
    var put := PutSpec(Users, tbl, NewUser(params, editAsAdmin, uuid, now));
    if put.Failure? then Outcome(Failure(put.error), tbl)
    else Outcome(GetSpec(put.value, Str(uuid)), put.value)
  }

  /** `create`: put the new user, then read it back by its uuid. */
  method Create(db: Db, params: Obj, editAsAdmin: bool, uuid: string, now: int) returns (r: Result<Value, Fault>)
    modifies db
    ensures Outcome(r, db.users) == CreateSpec(old(db.users), params, editAsAdmin, uuid, now)
    ensures db.groups == old(db.groups) && db.commands == old(db.commands)
  {
    var user := NewUser(params, editAsAdmin, uuid, now);
    var put := db.Put(Users, user);
    if put.Failure? {
      return Failure(put.error);
    }
    r := db.Get(Users, Str(uuid));
  }

  /** `create` stores exactly uuid, id, role, username and equal timestamps
      under the new uuid, and resolves with that record read back. The role
      is USER unless the caller edits as admin; there is never an apiKey. The
      document client refuses the put when id, or an admin's role, is
      undefined. */
  lemma CreateStoresUser(tbl: Table, params: Obj, editAsAdmin: bool, uuid: string, now: int)
    requires uuid != ""
    ensures var o := CreateSpec(tbl, params, editAsAdmin, uuid, now);
      var u := NewUser(params, editAsAdmin, uuid, now);
      && (o.result.Success? <==> !Lookup(params, "id").Undefined? && !(editAsAdmin && Lookup(params, "role").Undefined?))
      && (o.result.Success? ==> o.tbl == tbl[uuid := u] && o.result == Success(Rec(u)))
      && (o.result.Failure? ==> o.tbl == tbl)
      && u.Keys == {"uuid", "id", "role", "username", "createdAt", "updatedAt"}
      && u["createdAt"] == u["updatedAt"] == Num(now)
      && u["role"] == (if editAsAdmin then Lookup(params, "role") else Str("USER"))
      && !Nullish(u["username"])
  {
    var u := NewUser(params, editAsAdmin, uuid, now);
    assert Lookup(u, "uuid") == Str(uuid);
    if editAsAdmin && Lookup(params, "role").Undefined? {
      assert u["role"].Undefined?;
    }
    if Lookup(params, "id").Undefined? {
      assert u["id"].Undefined?;
    }
  }

  /** The record `update` writes, before `buildExpressions` drops its null and
      undefined attributes: the stored item with a new username and
      updatedAt, without its uuid; as admin also id, role and apiKey. */
  function UserDiff(item: Obj, params: Obj, editAsAdmin: bool, now: int): Obj {
    var user := (item + map["username" := Coalesce(Lookup(params, "username"), Str("")), "updatedAt" := Num(now)]) - {"uuid"};
    if editAsAdmin
    then user + map["id" := Lookup(params, "id"), "role" := Lookup(params, "role"), "apiKey" := Coalesce(Lookup(params, "apiKey"), Str(""))]
    else user
  }

  function UpdateSpec(tbl: Table, params: Obj, editAsAdmin: bool, now: int): Outcome {
    var uuid := Lookup(params, "uuid");
    if !Truthy(uuid) then Outcome(Failure(BadRequestFault), tbl)
    else
      var found := GetSpec(tbl, uuid);
      if found.Failure? then Outcome(Failure(found.error), tbl)
      else if !Truthy(found.value) then Outcome(Failure(NotFoundFault), tbl)
      else
        var item := found.value.fields;
        if !Truthy(Lookup(item, "uuid")) then Outcome(Failure(BadGatewayFault), tbl)
        else
          var w := WriteSpec(Users, tbl, Lookup(item, "uuid"), UserDiff(item, params, editAsAdmin, now));
          if w.Failure? then Outcome(Failure(w.error), tbl)
          else Outcome(GetSpec(w.value, Lookup(item, "uuid")), w.value)
  }

  /** `update`: the three guards, then the sparse write keyed by the stored
      uuid, then the record read back. */
  method Update(db: Db, params: Obj, editAsAdmin: bool, now: int) returns (r: Result<Value, Fault>)
    modifies db
    ensures Outcome(r, db.users) == UpdateSpec(old(db.users), params, editAsAdmin, now)
    ensures db.groups == old(db.groups) && db.commands == old(db.commands)
  {
    var uuid := Lookup(params, "uuid");
    if !Truthy(uuid) {
      return Failure(BadRequestFault);
    }
    var found :- db.Get(Users, uuid);
    if !Truthy(found) {
      return Failure(NotFoundFault);
    }
    var item := found.fields;
    if !Truthy(Lookup(item, "uuid")) {
      return Failure(BadGatewayFault);
    }
    var user := UserDiff(item, params, editAsAdmin, now);
    var w := db.WriteDiff(Users, Lookup(item, "uuid"), user);
    if w.Failure? {
      return Failure(w.error);
    }
    r := db.Get(Users, Lookup(item, "uuid"));
  }

  /** A rejected `update` writes nothing. The guards come in order: no uuid is
      "Bad request", an absent record "Not found", a stored record without a
      uuid "Bad gateway". */
  lemma UpdateGuards(tbl: Table, params: Obj, editAsAdmin: bool, now: int)
    ensures var o := UpdateSpec(tbl, params, editAsAdmin, now);
      var uuid := Lookup(params, "uuid");
      && (o.result.Failure? ==> o.tbl == tbl)
      && (!Truthy(uuid) ==> o.result == Failure(BadRequestFault))
      && (KeyOk(uuid) && uuid.s !in tbl ==> o.result == Failure(NotFoundFault))
      && (KeyOk(uuid) && uuid.s in tbl && !Truthy(Lookup(tbl[uuid.s], "uuid")) ==> o.result == Failure(BadGatewayFault))
  {
  }

  /** A non-admin `update` of a stored user sets only username (`""` when
      absent) and updatedAt; id, role, apiKey and createdAt stay as stored,
      and the record stays under its uuid. */
  lemma UpdateAsUser(tbl: Table, params: Obj, now: int)
    requires WellKeyed(Users, tbl)
    requires KeyOk(Lookup(params, "uuid")) && Lookup(params, "uuid").s in tbl
    ensures var k := Lookup(params, "uuid").s;
      var changed := tbl[k] + map["username" := Coalesce(Lookup(params, "username"), Str("")), "updatedAt" := Num(now)];
      UpdateSpec(tbl, params, false, now) == Outcome(Success(Rec(changed)), tbl[k := changed])
  {
    var k := Lookup(params, "uuid").s;
    var item := tbl[k];
    var x := map["username" := Coalesce(Lookup(params, "username"), Str("")), "updatedAt" := Num(now)];
    assert UserDiff(item, params, false, now) == (item + x) - {"uuid"};
    MergeOverOwn(item, x, {"uuid"});
    assert "updatedAt" in SparseObj(UserDiff(item, params, false, now));
  }

  /** Past its guards, `update` on a well-keyed table is the sparse write of
      the diff under the stored uuid, then the read-back. */
  lemma UpdatePastGuards(tbl: Table, params: Obj, editAsAdmin: bool, now: int)
    requires WellKeyed(Users, tbl)
    requires KeyOk(Lookup(params, "uuid")) && Lookup(params, "uuid").s in tbl
    ensures var k := Lookup(params, "uuid").s;
      var d := SparseObj(UserDiff(tbl[k], params, editAsAdmin, now));
      "updatedAt" in d && "uuid" !in d
      && UpdateSpec(tbl, params, editAsAdmin, now) == Outcome(Success(Rec(tbl[k] + d)), tbl[k := tbl[k] + d])
  {
    var k := Lookup(params, "uuid").s;
    assert "updatedAt" in SparseObj(UserDiff(tbl[k], params, editAsAdmin, now));
  }

  /** An admin `update` also writes `apiKey := params.apiKey ?? ""`, and id
      and role from the parameters; an undefined or null id or role leaves the
      stored one. */
  lemma UpdateAsAdmin(tbl: Table, params: Obj, now: int)
    requires WellKeyed(Users, tbl)
    requires KeyOk(Lookup(params, "uuid")) && Lookup(params, "uuid").s in tbl
    ensures var k := Lookup(params, "uuid").s;
      var changed := tbl[k]
        + map["username" := Coalesce(Lookup(params, "username"), Str("")), "updatedAt" := Num(now),
              "apiKey" := Coalesce(Lookup(params, "apiKey"), Str(""))]
        + SparseObj(map["id" := Lookup(params, "id"), "role" := Lookup(params, "role")]);
      UpdateSpec(tbl, params, true, now) == Outcome(Success(Rec(changed)), tbl[k := changed])
  {
    var k := Lookup(params, "uuid").s;
    var item := tbl[k];
    UpdatePastGuards(tbl, params, true, now);
    var un, ak := Coalesce(Lookup(params, "username"), Str("")), Coalesce(Lookup(params, "apiKey"), Str(""));
    var u := map["username" := un, "updatedAt" := Num(now)];
    var m := map["id" := Lookup(params, "id"), "role" := Lookup(params, "role"), "apiKey" := ak];
    var s2 := SparseObj(map["id" := Lookup(params, "id"), "role" := Lookup(params, "role")]);
    var d := SparseObj(UserDiff(item, params, true, now));
    assert UserDiff(item, params, true, now) == ((item + u) - {"uuid"}) + m;
    MergeOverride(item, u, m);
    SparseSplit(Lookup(params, "id"), Lookup(params, "role"), ak);
    Regroup(item, un, Num(now), ak, s2);
    assert item + d == item + map["username" := un, "updatedAt" := Num(now), "apiKey" := ak] + s2;
  }

  lemma Regroup(item: Obj, un: Value, up: Value, ak: Value, s2: Obj)
    ensures item + map["username" := un, "updatedAt" := up] + (map["apiKey" := ak] + s2)
         == item + map["username" := un, "updatedAt" := up, "apiKey" := ak] + s2
  {
  }

  lemma SparseSplit(id: Value, role: Value, apiKey: Value)
    requires !Nullish(apiKey)
    ensures SparseObj(map["id" := id, "role" := role, "apiKey" := apiKey])
         == map["apiKey" := apiKey] + SparseObj(map["id" := id, "role" := role])
  {
  }

  lemma MergeOverride(item: Obj, u: Obj, m: Obj)
    requires forall a :: a in u ==> !Nullish(u[a])
    requires "uuid" !in u && "uuid" !in m
    requires forall a :: a in u ==> a !in m
    ensures item + SparseObj(((item + u) - {"uuid"}) + m) == item + u + SparseObj(m)
  {
    var d := ((item + u) - {"uuid"}) + m;
    var lhs := item + SparseObj(d);
    var rhs := item + u + SparseObj(m);
    forall a ensures a in lhs <==> a in rhs {
      if a in m && !Nullish(m[a]) { assert a in SparseObj(d); }
      if a in u && a !in m { assert a in SparseObj(d); }
    }
    forall a | a in lhs ensures lhs[a] == rhs[a] {
      if a in m {
        if !Nullish(m[a]) { assert a in SparseObj(d) && a in SparseObj(m); }
        else { assert a !in SparseObj(d) && a !in SparseObj(m); }
      } else if a in u {
        assert a in SparseObj(d) && SparseObj(d)[a] == u[a];
      }
    }
  }

  /** `remove`: delete by uuid; an absent uuid leaves the table as it was. */
  method Remove(db: Db, uuid: Value) returns (r: Result<(), Fault>)
    modifies db
    ensures r.Failure? <==> !KeyOk(uuid)
    ensures r.Success? ==> db.users == old(db.users) - {uuid.s}
    ensures r.Failure? ==> r.error == ValidationFault && db.users == old(db.users)
    ensures db.groups == old(db.groups) && db.commands == old(db.commands)
  {
    r := db.Delete(Users, uuid);
  }

  /** The response of the Scan `getById` returns as it is: its `Items` (the
      matches' uuid and id, in the store's order) and `Count`. */
  function ScanResponse(items: seq<Obj>): Value {
    Rec(map["Items" := Arr(seq(|items|, i requires 0 <= i < |items| => Rec(items[i]))), "Count" := Num(|items|)])
  }

  /** `getById` as written: the Scan response itself, not a user. */
  method GetById(db: Db, id: Value) returns (r: Result<Value, Fault>, ghost keys: seq<string>)
    ensures r.Failure? <==> id.Undefined?
    ensures r.Failure? ==> r.error == ValidationFault
    ensures r.Success? ==> Enumerates(keys, MatchKeys(db.users, "id", id))
    ensures r.Success? ==> forall i :: 0 <= i < |keys| ==> keys[i] in db.users
    ensures r.Success? ==> r.value == ScanResponse(ProjectAll(db.users, keys, {"uuid", "id"}))
  {
    var scanned;
    scanned, keys := db.Scan(Users, "id", id, {"uuid", "id"});
    if scanned.Failure? {
      return Failure(scanned.error), keys;
    }
    r := Success(ScanResponse(scanned.value));
  }

  /** What the callers that treat the `getById` result as a user read from it:
      a Scan response has no uuid, id, role, username or apiKey, so each of
      them reads as `undefined`. */
  lemma ScanResponseIsNoUser(items: seq<Obj>)
    ensures forall a :: a in {"uuid", "id", "role", "username", "apiKey"} ==> Get(ScanResponse(items), a).Undefined?
  {
  }

  /** The lookup the handlers need: the one user whose external `id` is `id`,
      with the groups service's 0 / 1 / more-than-1 resolution. */
  method FindUserByExternalId(db: Db, id: Value) returns (r: Result<Value, Fault>)
    ensures r == ResolveOneSpec(Users, db.users, "id", id, "uuid")
  {
    r := db.ScanOne(Users, "id", id, {"uuid", "id"}, "uuid");
  }
}
