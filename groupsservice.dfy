/** src/services/dynamoGroupsServices.ts: the Groups table, keyed by `uuid`. */
module GroupsService {
  import opened Wrappers
  import opened Js
  import opened Store
  import opened DynamoDbHelper
  import opened ServiceErrors

  /** `getById`: the one group whose Telegram chat id is `id`. */
  method GetById(db: Db, id: Value) returns (r: Result<Value, Fault>)
    ensures r == ResolveOneSpec(Groups, db.groups, "id", id, "uuid")
  {
    r := db.ScanOne(Groups, "id", id, {"uuid", "id"}, "uuid");
  }

  function NewGroup(params: Obj, uuid: string, now: int): Obj {
    map[
      "uuid" := Str(uuid),
      "id" := Lookup(params, "id"),
      "title" := Lookup(params, "title"),
      "createdAt" := Num(now),
      "updatedAt" := Num(now)]
  }

  function CreateSpec(tbl: Table, params: Obj, uuid: string, now: int): Outcome {
    var put := PutSpec(Groups, tbl, NewGroup(params, uuid, now));
    if put.Failure? then Outcome(Failure(put.error), tbl)
    else Outcome(GetSpec(put.value, Str(uuid)), put.value)
  }

  /** `create`: put the new group, then read it back by its uuid. */
  method Create(db: Db, params: Obj, uuid: string, now: int) returns (r: Result<Value, Fault>)
    modifies db
    ensures Outcome(r, db.groups) == CreateSpec(old(db.groups), params, uuid, now)
    ensures db.users == old(db.users) && db.commands == old(db.commands)
  {
    var group := NewGroup(params, uuid, now);
    var put := db.Put(Groups, group);
    if put.Failure? {
      return Failure(put.error);
    }
    r := db.Get(Groups, Str(uuid));
  }

  /** `create` stores uuid, id, title and equal timestamps under the new uuid
      and resolves with that record; an undefined id or title is refused by
      the document client and nothing is written. */
  lemma CreateStoresGroup(tbl: Table, params: Obj, uuid: string, now: int)
    requires uuid != ""
    ensures var o := CreateSpec(tbl, params, uuid, now);
      var g := NewGroup(params, uuid, now);
      && (o.result.Success? <==> !Lookup(params, "id").Undefined? && !Lookup(params, "title").Undefined?)
      && (o.result.Success? ==> o.tbl == tbl[uuid := g] && o.result == Success(Rec(g)))
      && (o.result.Failure? ==> o.tbl == tbl)
      && g.Keys == {"uuid", "id", "title", "createdAt", "updatedAt"}
      && g["createdAt"] == g["updatedAt"] == Num(now)
  {
    var g := NewGroup(params, uuid, now);
    assert Lookup(g, "uuid") == Str(uuid);
    if Lookup(params, "id").Undefined? { assert g["id"].Undefined?; }
    if Lookup(params, "title").Undefined? { assert g["title"].Undefined?; }
  }

  /** The record `update` writes before `buildExpressions`: the stored group
      with the new title and updatedAt, without its uuid. */
  function GroupDiff(item: Obj, params: Obj, now: int): Obj {
    (item + map["title" := Lookup(params, "title"), "updatedAt" := Num(now)]) - {"uuid"}
  }

  function UpdateSpec(tbl: Table, params: Obj, now: int): Outcome {
    var uuid := Lookup(params, "uuid");
    if !Truthy(uuid) || !Truthy(Lookup(params, "id")) then Outcome(Failure(BadRequestFault), tbl)
    else
      var found := GetSpec(tbl, uuid);
      if found.Failure? then Outcome(Failure(found.error), tbl)
      else if !Truthy(found.value) then Outcome(Failure(NotFoundFault), tbl)
      else
        var item := found.value.fields;
        if !Truthy(Lookup(item, "uuid")) then Outcome(Failure(BadGatewayFault), tbl)
        else
          var w := WriteSpec(Groups, tbl, Lookup(item, "uuid"), GroupDiff(item, params, now));
          if w.Failure? then Outcome(Failure(w.error), tbl)
          else Outcome(GetSpec(w.value, Lookup(item, "uuid")), w.value)
  }

  method Update(db: Db, params: Obj, now: int) returns (r: Result<Value, Fault>)
    modifies db
    ensures Outcome(r, db.groups) == UpdateSpec(old(db.groups), params, now)
    ensures db.users == old(db.users) && db.commands == old(db.commands)
  {
    var uuid := Lookup(params, "uuid");
    if !Truthy(uuid) || !Truthy(Lookup(params, "id")) {
      return Failure(BadRequestFault);
    }
    var found :- db.Get(Groups, uuid);
    if !Truthy(found) {
      return Failure(NotFoundFault);
    }
    var item := found.fields;
    if !Truthy(Lookup(item, "uuid")) {
      return Failure(BadGatewayFault);
    }
    var group := GroupDiff(item, params, now);
    var w := db.WriteDiff(Groups, Lookup(item, "uuid"), group);
    if w.Failure? {
      return Failure(w.error);
    }
    r := db.Get(Groups, Lookup(item, "uuid"));
  }

  /** A rejected `update` writes nothing; a missing uuid or id is "Bad
      request" before any read, then "Not found", then "Bad gateway". */
  lemma UpdateGuards(tbl: Table, params: Obj, now: int)
    ensures var o := UpdateSpec(tbl, params, now);
      var uuid := Lookup(params, "uuid");
      && (o.result.Failure? ==> o.tbl == tbl)
      && (!Truthy(uuid) || !Truthy(Lookup(params, "id")) ==> o.result == Failure(BadRequestFault))
      && (KeyOk(uuid) && Truthy(Lookup(params, "id")) && uuid.s !in tbl ==> o.result == Failure(NotFoundFault))
      && (KeyOk(uuid) && Truthy(Lookup(params, "id")) && uuid.s in tbl && !Truthy(Lookup(tbl[uuid.s], "uuid"))
          ==> o.result == Failure(BadGatewayFault))
  {
  }

  /** `update` changes only title and updatedAt, under the stored uuid; an
      undefined or null title leaves the stored title. */
  lemma UpdateSetsTitle(tbl: Table, params: Obj, now: int)
    requires WellKeyed(Groups, tbl)
    requires KeyOk(Lookup(params, "uuid")) && Lookup(params, "uuid").s in tbl && Truthy(Lookup(params, "id"))
    ensures var k := Lookup(params, "uuid").s;
      var changed := tbl[k] + map["updatedAt" := Num(now)] + SparseObj(map["title" := Lookup(params, "title")]);
      UpdateSpec(tbl, params, now) == Outcome(Success(Rec(changed)), tbl[k := changed])
  {
    var k := Lookup(params, "uuid").s;
    var item := tbl[k];
    var t := Lookup(params, "title");
    var d := SparseObj(GroupDiff(item, params, now));
    assert "updatedAt" in d && "uuid" !in d;
    TitleMerge(item, t, Num(now));
    assert item + d == item + map["updatedAt" := Num(now)] + SparseObj(map["title" := t]);
  }

  lemma TitleMerge(item: Obj, title: Value, now: Value)
    requires !Nullish(now)
    ensures item + SparseObj((item + map["title" := title, "updatedAt" := now]) - {"uuid"})
         == item + map["updatedAt" := now] + SparseObj(map["title" := title])
  {
    var d := (item + map["title" := title, "updatedAt" := now]) - {"uuid"};
    var lhs := item + SparseObj(d);
    var rhs := item + map["updatedAt" := now] + SparseObj(map["title" := title]);
    forall a ensures a in lhs <==> a in rhs {
      if a == "title" && !Nullish(title) { assert a in SparseObj(d); }
      if a == "updatedAt" { assert a in SparseObj(d); }
    }
    forall a | a in lhs ensures lhs[a] == rhs[a] {
      if a == "title" {
        if !Nullish(title) { assert a in SparseObj(d); } else { assert a !in SparseObj(d); }
      } else if a == "updatedAt" {
        assert a in SparseObj(d);
      }
    }
  }
}
