/** The three DynamoDB tables behind the services, as in-memory maps, and the
    document-client calls the services make on them (src/services/dynamodb.ts
    is not part of this model; its calls are given DynamoDB's meaning here). */
module Store {
  import opened Wrappers
  import opened Js
  import opened DynamoDbHelper
  import HttpStatus

  datatype TableId = Users | Groups | Commands

  /** The partition key of each table. */
  function KeyAttr(t: TableId): string {
    if t == Commands then "command" else "uuid"
  }

  /** Key value to stored item. */
  type Table = map<string, Obj>

  /** What the store throws for a request it refuses. */
  const ValidationFault := Fault("ValidationException", None)

  /** A key the tables accept: a non-empty string. */
  predicate KeyOk(k: Value) {
    k.Str? && k.s != ""
  }

  /** `Item` of a GetItem response: the stored object, or `undefined`. */
  function GetSpec(tbl: Table, key: Value): (r: Result<Value, Fault>)
    ensures r.Failure? <==> !KeyOk(key)
    ensures r.Success? ==> (r.value.Undefined? <==> key.s !in tbl)
    ensures r.Success? && key.s in tbl ==> r.value == Rec(tbl[key.s])
  {
    if !KeyOk(key) then Failure(ValidationFault)
    else if key.s in tbl then Success(Rec(tbl[key.s]))
    else Success(Undefined)
  }

  /** PutItem replaces the item stored under its key. The document client
      refuses an `undefined` attribute. */
  function PutSpec(t: TableId, tbl: Table, item: Obj): (r: Result<Table, Fault>)
    ensures r.Success? <==> KeyOk(Lookup(item, KeyAttr(t))) && forall a :: a in item ==> !item[a].Undefined?
    ensures r.Success? ==> r.value == tbl[Lookup(item, KeyAttr(t)).s := item]
  {
    var k := Lookup(item, KeyAttr(t));
    if !KeyOk(k) || exists a :: a in item && item[a].Undefined? then Failure(ValidationFault)
    else Success(tbl[k.s := item])
  }

  /** The item an UpdateItem starts from: the stored one, or a new item that
      holds only its key (UpdateItem creates missing items). */
  function Base(t: TableId, tbl: Table, k: string): Obj {
    if k in tbl then tbl[k] else map[KeyAttr(t) := Str(k)]
  }

  /** `SET #a = :a, ...`: each named attribute `a` takes the value bound to
      `:a`. */
  function ApplySet(item: Obj, e: Expressions): (r: Obj)
    ensures forall a :: a in e.attributeNames.Values && ":" + a in e.attributeValues ==>
              a in r && r[a] == e.attributeValues[":" + a]
    ensures forall a :: a in item ==> a in r
  {
    item + map a | a in e.attributeNames.Values && ":" + a in e.attributeValues :: e.attributeValues[":" + a]
  }

  /** Why UpdateItem refuses an update: a bad key, an expression with no
      clause (`SET ` alone does not parse), a clause on the key attribute, or
      an `undefined` value. */
  predicate UpdateRefused(t: TableId, key: Value, e: Expressions) {
    || !KeyOk(key)
    || e.attributeNames == map[]
    || KeyAttr(t) in e.attributeNames.Values
    || exists n :: n in e.attributeValues && e.attributeValues[n].Undefined?
  }

  function UpdateSpec(t: TableId, tbl: Table, key: Value, e: Expressions): (r: Result<Table, Fault>)
    ensures r.Failure? <==> UpdateRefused(t, key, e)
    ensures r.Success? ==> key.s in r.value && r.value - {key.s} == tbl - {key.s}
  {
    if UpdateRefused(t, key, e) then Failure(ValidationFault)
    else Success(tbl[key.s := ApplySet(Base(t, tbl, key.s), e)])
  }

  /** DeleteItem: deleting an absent key is not an error. */
  function DeleteSpec(tbl: Table, key: Value): (r: Result<Table, Fault>)
    ensures r.Failure? <==> !KeyOk(key)
    ensures r.Success? ==> key.s !in r.value && r.value == tbl - {key.s}
  {
    if !KeyOk(key) then Failure(ValidationFault) else Success(tbl - {key.s})
  }

  /** The keys whose item has attribute `attr` equal to `v` (`FilterExpression
      "attr = :v"`). */
  function MatchKeys(tbl: Table, attr: string, v: Value): (r: set<string>)
    ensures forall k :: k in r <==> k in tbl && Lookup(tbl[k], attr) == v
  {
    set k | k in tbl && Lookup(tbl[k], attr) == v
  }

  /** `ProjectionExpression`: the listed attributes that the item has. */
  function Project(o: Obj, attrs: set<string>): (r: Obj)
    ensures forall a :: a in r <==> a in o && a in attrs
    ensures forall a :: a in r ==> r[a] == o[a]
  {
    map a | a in o && a in attrs :: o[a]
  }

  function ProjectAll(tbl: Table, ks: seq<string>, attrs: set<string>): (r: seq<Obj>)
    requires forall i :: 0 <= i < |ks| ==> ks[i] in tbl
    ensures |r| == |ks|
    ensures forall i :: 0 <= i < |ks| ==> r[i] == Project(tbl[ks[i]], attrs)
  {
    seq(|ks|, i requires 0 <= i < |ks| => Project(tbl[ks[i]], attrs))
  }

  /** `ks` lists the set `s`, each element once. */
  predicate Enumerates(ks: seq<string>, s: set<string>) {
    && |ks| == |s|
    && (forall i :: 0 <= i < |ks| ==> ks[i] in s)
    && (forall k :: k in s ==> exists i :: 0 <= i < |ks| && ks[i] == k)
    && (forall i, j :: 0 <= i < j < |ks| ==> ks[i] != ks[j])
  }

  /** The update an object's entries describe: exactly its attributes that are
      neither `null` nor `undefined`, merged over the base item. */
  function WriteSpec(t: TableId, tbl: Table, key: Value, diff: Obj): (r: Result<Table, Fault>)
    ensures r.Failure? <==> !KeyOk(key) || SparseObj(diff) == map[] || KeyAttr(t) in SparseObj(diff)
    ensures r.Success? ==> r.value == tbl[key.s := Base(t, tbl, key.s) + SparseObj(diff)]
  {
    var d := SparseObj(diff);
    if !KeyOk(key) || d == map[] || KeyAttr(t) in d then Failure(ValidationFault)
    else Success(tbl[key.s := Base(t, tbl, key.s) + d])
  }

  /** The SET update built from a list of entries merges exactly the kept
      entries over the item. */
  lemma ApplyBuiltSet(item: Obj, es: seq<Entry>, text: string)
    ensures ApplySet(item, Expressions(ValuesOf(es), text, NamesOf(es))) == item + Defined(es)
  {
    OutputsTrackDefined(es);
    var vals, names, d := ValuesOf(es), NamesOf(es), Defined(es);
    var setAttrs := map a | a in names.Values && ":" + a in vals :: vals[":" + a];
    forall a | a in setAttrs ensures a in d && setAttrs[a] == d[a] {
      var x :| x in names && names[x] == a;
      assert (":" + a)[1..] == a;
    }
    forall a | a in d ensures a in setAttrs {
      assert names["#" + a] == ("#" + a)[1..] == a;
    }
    assert setAttrs.Keys == d.Keys;
    assert setAttrs == d;
  }

  lemma BuiltNamesEmpty(es: seq<Entry>)
    ensures NamesOf(es) == map[] <==> Defined(es) == map[]
  {
    OutputsTrackDefined(es);
    if Defined(es) != map[] {
      var a :| a in Defined(es);
      assert "#" + a in NamesOf(es);
    }
    if NamesOf(es) != map[] {
      var x :| x in NamesOf(es);
    }
  }

  lemma BuiltNamesAttr(es: seq<Entry>, a: string)
    ensures a in NamesOf(es).Values <==> a in Defined(es)
  {
    OutputsTrackDefined(es);
    if a in Defined(es) {
      assert NamesOf(es)["#" + a] == ("#" + a)[1..];
    }
    if a in NamesOf(es).Values {
      var x :| x in NamesOf(es) && NamesOf(es)[x] == a;
    }
  }

  lemma BuiltValuesDefined(es: seq<Entry>)
    ensures forall n :: n in ValuesOf(es) ==> !ValuesOf(es)[n].Undefined?
  {
    OutputsTrackDefined(es);
  }

  /** An update built from entries is refused exactly when no entry is kept
      or a kept entry names the key attribute; otherwise it merges the kept
      entries. */
  lemma BuiltUpdate(t: TableId, tbl: Table, key: Value, es: seq<Entry>, text: string)
    ensures var e := Expressions(ValuesOf(es), text, NamesOf(es));
      UpdateSpec(t, tbl, key, e)
      == if !KeyOk(key) || Defined(es) == map[] || KeyAttr(t) in Defined(es) then Failure(ValidationFault)
         else Success(tbl[key.s := Base(t, tbl, key.s) + Defined(es)])
  {
    BuiltNamesEmpty(es);
    BuiltNamesAttr(es, KeyAttr(t));
    BuiltValuesDefined(es);
    if KeyOk(key) {
      ApplyBuiltSet(Base(t, tbl, key.s), es, text);
    }
  }

  /** An update built from an object's entries is refused exactly when the
      object's sparse part is empty or holds the key attribute, and otherwise
      merges that sparse part. */
  lemma BuiltUpdateIsWrite(t: TableId, tbl: Table, key: Value, diff: Obj, es: seq<Entry>, text: string)
    requires DistinctKeys(es)
    requires forall i :: 0 <= i < |es| ==> es[i].key in diff && es[i].value == diff[es[i].key]
    requires forall k :: k in diff ==> exists i :: 0 <= i < |es| && es[i].key == k
    ensures UpdateSpec(t, tbl, key, Expressions(ValuesOf(es), text, NamesOf(es))) == WriteSpec(t, tbl, key, diff)
  {
    DefinedOfEntries(diff, es);
    BuiltUpdate(t, tbl, key, es, text);
  }

  /** Every item is stored under the value of its key attribute. */
  predicate WellKeyed(t: TableId, tbl: Table) {
    forall k :: k in tbl ==> k != "" && Lookup(tbl[k], KeyAttr(t)) == Str(k)
  }

  /** A put stores the item under its own key, so it keeps the table well
      keyed. */
  lemma PutKeepsWellKeyed(t: TableId, tbl: Table, item: Obj)
    requires WellKeyed(t, tbl) && PutSpec(t, tbl, item).Success?
    ensures WellKeyed(t, PutSpec(t, tbl, item).value)
  {
  }

  /** A write never sets the key attribute, so the item keeps its key. */
  lemma WriteKeepsWellKeyed(t: TableId, tbl: Table, key: Value, diff: Obj)
    requires WellKeyed(t, tbl) && WriteSpec(t, tbl, key, diff).Success?
    ensures WellKeyed(t, WriteSpec(t, tbl, key, diff).value)
  {
    var k := key.s;
    assert Lookup(Base(t, tbl, k) + SparseObj(diff), KeyAttr(t)) == Str(k);
  }

  const UnprocessableFault := Fault("Unprocessable entity", Some(HttpStatus.UNPROCESSABLE_ENTITY))

  /** The lookup the services build on a scan: no match gives `undefined`,
      several give "Unprocessable entity", and one match is re-read by its
      `via` attribute. */
  ghost function ResolveOneSpec(t: TableId, tbl: Table, attr: string, v: Value, via: string): (r: Result<Value, Fault>)
  {
    if v.Undefined? then Failure(ValidationFault)
    else
      var m := MatchKeys(tbl, attr, v);
      if |m| == 0 then Success(Undefined)
      else if |m| > 1 then Failure(UnprocessableFault)
      else
        var k :| k in m;
        GetSpec(tbl, Lookup(tbl[k], via))
  }

  /** In a well-keyed table, re-reading by the key attribute returns the one
      matching item itself; `undefined` means no item matches. */
  lemma ResolveOneFindsMatch(t: TableId, tbl: Table, attr: string, v: Value)
    requires WellKeyed(t, tbl) && !v.Undefined?
    ensures var r := ResolveOneSpec(t, tbl, attr, v, KeyAttr(t));
      && (r == Success(Undefined) <==> MatchKeys(tbl, attr, v) == {})
      && (r == Failure(UnprocessableFault) <==> |MatchKeys(tbl, attr, v)| > 1)
      && (forall k :: MatchKeys(tbl, attr, v) == {k} ==> r == Success(Rec(tbl[k])))
  {
    var m := MatchKeys(tbl, attr, v);
    if |m| == 1 {
      var k :| k in m;
      assert |m - {k}| == 0;
      assert m == {k};
      assert Lookup(tbl[k], KeyAttr(t)) == Str(k);
    }
    if m != {} {
      var k :| k in m;
    }
  }

  /** The tables. Each field is replaced by the write methods below; nothing
      else changes them. */
  class Db {
    var users: Table
    var groups: Table
    var commands: Table

    constructor (users: Table, groups: Table, commands: Table)
      ensures this.users == users && this.groups == groups && this.commands == commands
    {
      this.users := users;
      this.groups := groups;
      this.commands := commands;
    }

    function Tbl(t: TableId): Table
      reads this
    {
      match t
      case Users => users
      case Groups => groups
      case Commands => commands
    }

    /** GetItem with `Key: {<key attribute>: key}`. */
    function Get(t: TableId, key: Value): (r: Result<Value, Fault>)
      reads this
      ensures r == GetSpec(Tbl(t), key)
    {
      GetSpec(Tbl(t), key)
    }

    /** The tables other than `t` are as they were. */
    twostate predicate Others(t: TableId)
      reads this
    {
      && (t != Users ==> users == old(users))
      && (t != Groups ==> groups == old(groups))
      && (t != Commands ==> commands == old(commands))
    }

    method SetTbl(t: TableId, tbl: Table)
      modifies this
      ensures Tbl(t) == tbl
      ensures Others(t)
    {
      match t
      case Users => users := tbl;
      case Groups => groups := tbl;
      case Commands => commands := tbl;
    }

    method Put(t: TableId, item: Obj) returns (r: Result<(), Fault>)
      modifies this
      ensures var s := PutSpec(t, old(Tbl(t)), item);
        && (s.Success? ==> r == Success(()) && Tbl(t) == s.value)
        && (s.Failure? ==> r == Failure(s.error) && Tbl(t) == old(Tbl(t)))
      ensures Others(t)
    {
      var s := PutSpec(t, Tbl(t), item);
      if s.Failure? {
        return Failure(s.error);
      }
      SetTbl(t, s.value);
      r := Success(());
    }

    method Update(t: TableId, key: Value, e: Expressions) returns (r: Result<(), Fault>)
      modifies this
      ensures var s := UpdateSpec(t, old(Tbl(t)), key, e);
        && (s.Success? ==> r == Success(()) && Tbl(t) == s.value)
        && (s.Failure? ==> r == Failure(s.error) && Tbl(t) == old(Tbl(t)))
      ensures Others(t)
    {
      var s := UpdateSpec(t, Tbl(t), key, e);
      if s.Failure? {
        return Failure(s.error);
      }
      SetTbl(t, s.value);
      r := Success(());
    }

    method Delete(t: TableId, key: Value) returns (r: Result<(), Fault>)
      modifies this
      ensures var s := DeleteSpec(old(Tbl(t)), key);
        && (s.Success? ==> r == Success(()) && Tbl(t) == s.value)
        && (s.Failure? ==> r == Failure(s.error) && Tbl(t) == old(Tbl(t)))
      ensures Others(t)
    {
      var s := DeleteSpec(Tbl(t), key);
      if s.Failure? {
        return Failure(s.error);
      }
      SetTbl(t, s.value);
      r := Success(());
    }

    /** The `buildExpressions` + UpdateItem pair every service uses: the update
        keyed by `key` built from the entries of `diff`. */
    method WriteDiff(t: TableId, key: Value, diff: Obj) returns (r: Result<(), Fault>)
      modifies this
      ensures var s := WriteSpec(t, old(Tbl(t)), key, diff);
        && (s.Success? ==> r == Success(()) && Tbl(t) == s.value)
        && (s.Failure? ==> r == Failure(s.error) && Tbl(t) == old(Tbl(t)))
      ensures Others(t)
    {
      var es := ObjectEntries(diff);
      var e := BuildExpressions(es);
      BuiltUpdateIsWrite(t, Tbl(t), key, diff, es, e.updateExpression);
      r := Update(t, key, e);
    }

    /** Scan with `FilterExpression "attr = :v"` and a projection. The order of
        the items is the store's: `keys` names the item each one comes from.
        An `undefined` filter value is refused by the document client. */
    method Scan(t: TableId, attr: string, v: Value, proj: set<string>)
      returns (r: Result<seq<Obj>, Fault>, ghost keys: seq<string>)
      ensures r.Failure? <==> v.Undefined?
      ensures r.Failure? ==> r.error == ValidationFault
      ensures r.Success? ==> Enumerates(keys, MatchKeys(Tbl(t), attr, v))
      ensures r.Success? ==> forall i :: 0 <= i < |keys| ==> keys[i] in Tbl(t)
      ensures r.Success? ==> r.value == ProjectAll(Tbl(t), keys, proj)
    {
      keys := [];
      if v.Undefined? {
        return Failure(ValidationFault), keys;
      }
      var tbl := Tbl(t);
      var all := MatchKeys(tbl, attr, v);
      var remaining := all;
      var items: seq<Obj> := [];
      while remaining != {}
        invariant remaining <= all
        invariant |keys| + |remaining| == |all|
        invariant forall i :: 0 <= i < |keys| ==> keys[i] in all - remaining
        invariant forall k :: k in all && k !in remaining ==> exists i :: 0 <= i < |keys| && keys[i] == k
        invariant forall i, j :: 0 <= i < j < |keys| ==> keys[i] != keys[j]
        invariant |items| == |keys| && forall i :: 0 <= i < |keys| ==> items[i] == Project(tbl[keys[i]], proj)
        decreases remaining
      {
        var k :| k in remaining;
        var before, rem0 := keys, remaining;
        keys := before + [k];
        items := items + [Project(tbl[k], proj)];
        remaining := remaining - {k};
        forall k' | k' in all && k' !in remaining ensures exists i :: 0 <= i < |keys| && keys[i] == k' {
          if k' == k {
            assert keys[|keys| - 1] == k';
          } else {
            assert k' !in rem0;
            var i :| 0 <= i < |before| && before[i] == k';
            assert keys[i] == before[i];
          }
        }
      }
      r := Success(items);
    }
  
    /** Scan by `attr`, then resolve as `ResolveOneSpec` says (`Items?.length`
        tests, then `get(Item?.<via>)`). */
    method ScanOne(t: TableId, attr: string, v: Value, proj: set<string>, via: string) returns (r: Result<Value, Fault>)
      requires via in proj
      ensures r == ResolveOneSpec(t, Tbl(t), attr, v, via)
    {
      var scanned, keys := Scan(t, attr, v, proj);
      if scanned.Failure? {
        return Failure(scanned.error);
      }
      var items := scanned.value;
      ghost var m := MatchKeys(Tbl(t), attr, v);
      if |items| == 0 {
        return Success(Undefined);
      }
      if |items| > 1 {
        return Failure(UnprocessableFault);
      }
      ghost var k := keys[0];
      assert m == {k} by {
        forall k' | k' in m ensures k' == k {
          var i :| 0 <= i < |keys| && keys[i] == k';
        }
      }
      r := Get(t, Lookup(items[0], via));
    }
  }
}
