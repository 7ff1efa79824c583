/** `buildExpressions` (src/utils/dynamoDbHelper.ts): turns an object into the
    sparse `SET` update of a DynamoDB UpdateItem call, skipping every entry
    whose value is `null` or `undefined`. */
module DynamoDbHelper {
  import opened Js
  import opened JsStrings

  /** One `[key, value]` pair of `Object.entries(object)`, in entry order. */
  datatype Entry = Entry(key: string, value: Value)

  datatype Expressions = Expressions(
    attributeValues: map<string, Value>,
    updateExpression: string,
    attributeNames: map<string, string>)

  predicate DistinctKeys(es: seq<Entry>) {
    forall i, j :: 0 <= i < j < |es| ==> es[i].key != es[j].key
  }

  /** The object the entries list, later entries winning. */
  function ToObj(es: seq<Entry>): Obj
    decreases |es|
  {
    if es == [] then map[] else ToObj(es[..|es| - 1])[es[|es| - 1].key := es[|es| - 1].value]
  }

  /** The entries `buildExpressions` keeps, in order. */
  function Kept(es: seq<Entry>): seq<Entry>
    decreases |es|
  {
    if es == [] then []
    else if Nullish(es[|es| - 1].value) then Kept(es[..|es| - 1])
    else Kept(es[..|es| - 1]) + [es[|es| - 1]]
  }

  /** The attributes the update sets: the kept entries, later winning. */
  function Defined(es: seq<Entry>): Obj
    decreases |es|
  {
    if es == [] then map[]
    else if Nullish(es[|es| - 1].value) then Defined(es[..|es| - 1])
    else Defined(es[..|es| - 1])[es[|es| - 1].key := es[|es| - 1].value]
  }

  /** The attributes of `o` that are neither `null` nor `undefined`. */
  function SparseObj(o: Obj): Obj {
    map k | k in o && !Nullish(o[k]) :: o[k]
  }

  /** The element pushed for key `k`: ` #k = :k`. */
  function Clause(k: string): string {
    " #" + k + " = :" + k
  }

  /** The same clause without its leading space. */
  function TightClause(k: string): string {
    "#" + k + " = :" + k
  }

  function Clauses(es: seq<Entry>): seq<string>
    decreases |es|
  {
    if es == [] then [] else Clauses(es[..|es| - 1]) + [Clause(es[|es| - 1].key)]
  }

  function TightClauses(es: seq<Entry>): seq<string>
    decreases |es|
  {
    if es == [] then [] else TightClauses(es[..|es| - 1]) + [TightClause(es[|es| - 1].key)]
  }

  function ValuesOf(es: seq<Entry>): map<string, Value>
    decreases |es|
  {
    if es == [] then map[]
    else if Nullish(es[|es| - 1].value) then ValuesOf(es[..|es| - 1])
    else ValuesOf(es[..|es| - 1])[":" + es[|es| - 1].key := es[|es| - 1].value]
  }

  function NamesOf(es: seq<Entry>): map<string, string>
    decreases |es|
  {
    if es == [] then map[]
    else if Nullish(es[|es| - 1].value) then NamesOf(es[..|es| - 1])
    else NamesOf(es[..|es| - 1])["#" + es[|es| - 1].key := es[|es| - 1].key]
  }

  /** `Object.entries(o)`: every attribute once. The order of the entries is
      not determined here (it only affects the text of the expression). */
  method ObjectEntries(o: Obj) returns (es: seq<Entry>)
    ensures DistinctKeys(es)
    ensures forall i :: 0 <= i < |es| ==> es[i].key in o && es[i].value == o[es[i].key]
    ensures forall k :: k in o ==> exists i :: 0 <= i < |es| && es[i].key == k
  {
    es := [];
    var remaining := o.Keys;
    while remaining != {}
      invariant remaining <= o.Keys
      invariant DistinctKeys(es)
      invariant forall i :: 0 <= i < |es| ==> es[i].key in o.Keys - remaining && es[i].value == o[es[i].key]
      invariant forall k :: k in o && k !in remaining ==> exists i :: 0 <= i < |es| && es[i].key == k
      decreases remaining
    {
      var k :| k in remaining;
      var before, rem0 := es, remaining;
      es := before + [Entry(k, o[k])];
      remaining := remaining - {k};
      forall k' | k' in o && k' !in remaining ensures exists i :: 0 <= i < |es| && es[i].key == k' {
        if k' == k {
          assert es[|es| - 1].key == k';
        } else {
          assert k' !in rem0;
          var i :| 0 <= i < |before| && before[i].key == k';
          assert es[i] == before[i];
        }
      }
    }
  }

  /** `buildExpressions(object)` over the object's entries. */
  method BuildExpressions(es: seq<Entry>) returns (r: Expressions)
    ensures r.attributeValues == ValuesOf(es)
    ensures r.attributeNames == NamesOf(es)
    ensures r.updateExpression == "SET " + Trim(Join(Clauses(Kept(es)), ","))
  {
    var values: map<string, Value> := map[];
    var clauses: seq<string> := [];
    var names: map<string, string> := map[];
    for i := 0 to |es|
      invariant values == ValuesOf(es[..i])
      invariant names == NamesOf(es[..i])
      invariant clauses == Clauses(Kept(es[..i]))
    {
      assert es[..i + 1][..i] == es[..i];
      var key, value := es[i].key, es[i].value;
      if !Nullish(value) {
        var attrValue := ":" + key;
        var attrName := "#" + key;
        values := values[attrValue := value];
        assert " " + attrName + " = " + attrValue == Clause(key);
        assert (Kept(es[..i]) + [es[i]])[..|Kept(es[..i])|] == Kept(es[..i]);
        clauses := clauses + [" " + attrName + " = " + attrValue];
        names := names[attrName := key];
      }
    }
    assert es[..|es|] == es;
    r := Expressions(values, "SET " + Trim(Join(clauses, ",")), names);
  }

  lemma PrefixInjective(c: char, a: string, b: string)
    ensures [c] + a == [c] + b <==> a == b
  {
    if [c] + a == [c] + b {
      assert ([c] + a)[1..] == a && ([c] + b)[1..] == b;
    }
  }

  /** Only kept entries reach the output, each as `":k" ↦ value` and
      `"#k" ↦ k`, the key written as it is. */
  lemma {:induction false} OutputsTrackDefined(es: seq<Entry>)
    ensures forall x :: x in ValuesOf(es) ==>
              |x| >= 1 && x[0] == ':' && x[1..] in Defined(es) && ValuesOf(es)[x] == Defined(es)[x[1..]]
    ensures forall x :: x in NamesOf(es) ==>
              |x| >= 1 && x[0] == '#' && x[1..] in Defined(es) && NamesOf(es)[x] == x[1..]
    ensures forall k :: k in Defined(es) ==> ":" + k in ValuesOf(es) && "#" + k in NamesOf(es)
    ensures forall k :: k in Defined(es) ==> !Nullish(Defined(es)[k])
    decreases |es|
  {
    if es != [] {
      var p := es[..|es| - 1];
      var e := es[|es| - 1];
      OutputsTrackDefined(p);
      if !Nullish(e.value) {
        forall x | x in ValuesOf(es)
          ensures |x| >= 1 && x[0] == ':' && x[1..] in Defined(es) && ValuesOf(es)[x] == Defined(es)[x[1..]]
        {
          if x == ":" + e.key {
            assert x[1..] == e.key;
          } else {
            assert x in ValuesOf(p);
          }
        }
        forall x | x in NamesOf(es)
          ensures |x| >= 1 && x[0] == '#' && x[1..] in Defined(es) && NamesOf(es)[x] == x[1..]
        {
          if x == "#" + e.key {
            assert x[1..] == e.key;
          } else {
            assert x in NamesOf(p);
          }
        }
      }
    }
  }

  /** The entries whose key `Defined` holds are exactly the kept ones; for
      distinct keys, each with its own value. */
  lemma {:induction false} DefinedOfDistinct(es: seq<Entry>)
    requires DistinctKeys(es)
    ensures forall k :: k in Defined(es) <==> exists i :: 0 <= i < |es| && es[i].key == k && !Nullish(es[i].value)
    ensures forall i :: 0 <= i < |es| && !Nullish(es[i].value) ==> es[i].key in Defined(es) && Defined(es)[es[i].key] == es[i].value
    decreases |es|
  {
    if es != [] {
      var p := es[..|es| - 1];
      var n := |es| - 1;
      DefinedOfDistinct(p);
      forall k ensures k in Defined(es) <==> exists i :: 0 <= i < |es| && es[i].key == k && !Nullish(es[i].value) {
        if k in Defined(es) && k != es[n].key {
          assert k in Defined(p);
          var i :| 0 <= i < |p| && p[i].key == k && !Nullish(p[i].value);
          assert es[i] == p[i];
        }
        if exists i :: 0 <= i < |es| && es[i].key == k && !Nullish(es[i].value) {
          var i :| 0 <= i < |es| && es[i].key == k && !Nullish(es[i].value);
          if i < n { assert p[i] == es[i]; }
        }
      }
      forall i | 0 <= i < |es| && !Nullish(es[i].value)
        ensures es[i].key in Defined(es) && Defined(es)[es[i].key] == es[i].value
      {
        if i < n { assert p[i] == es[i]; assert es[i].key != es[n].key; }
      }
    }
  }

  /** The entries of an object update exactly its non-null attributes. */
  lemma DefinedOfEntries(o: Obj, es: seq<Entry>)
    requires DistinctKeys(es)
    requires forall i :: 0 <= i < |es| ==> es[i].key in o && es[i].value == o[es[i].key]
    requires forall k :: k in o ==> exists i :: 0 <= i < |es| && es[i].key == k
    ensures Defined(es) == SparseObj(o)
  {
    DefinedOfDistinct(es);
    forall k ensures k in Defined(es) <==> k in SparseObj(o) {
      if k in o {
        var i :| 0 <= i < |es| && es[i].key == k;
      }
    }
    forall k | k in Defined(es) ensures Defined(es)[k] == SparseObj(o)[k] {
      var i :| 0 <= i < |es| && es[i].key == k && !Nullish(es[i].value);
    }
  }

  /** With distinct keys there are as many clauses as bound values and as
      named attributes. */
  lemma {:induction false} ClauseCount(es: seq<Entry>)
    requires DistinctKeys(es)
    ensures |Clauses(Kept(es))| == |Kept(es)| == |ValuesOf(es)| == |NamesOf(es)| == |Defined(es)|
    decreases |es|
  {
    if es != [] {
      var p := es[..|es| - 1];
      var e := es[|es| - 1];
      assert DistinctKeys(p);
      ClauseCount(p);
      ClausesLength(Kept(p));
      ClausesLength(Kept(es));
      if !Nullish(e.value) {
        DefinedOfDistinct(p);
        OutputsTrackDefined(p);
        assert e.key !in Defined(p);
        assert ":" + e.key !in ValuesOf(p);
        assert "#" + e.key !in NamesOf(p);
      }
    }
  }

  lemma {:induction false} ClausesLength(es: seq<Entry>)
    ensures |Clauses(es)| == |es| && |TightClauses(es)| == |es|
    decreases |es|
  {
    if es != [] { ClausesLength(es[..|es| - 1]); }
  }

  /** Joining the clauses with "," equals a space followed by the tight
      clauses joined with ", ". */
  lemma {:induction false} JoinClauses(es: seq<Entry>)
    requires es != []
    ensures Join(Clauses(es), ",") == " " + Join(TightClauses(es), ", ")
    decreases |es|
  {
    var p := es[..|es| - 1];
    var k := es[|es| - 1].key;
    if p == [] {
      assert Clauses(es) == [Clause(k)];
      assert TightClauses(es) == [TightClause(k)];
    } else {
      JoinClauses(p);
      ClausesLength(p);
      JoinAppend(Clauses(p), Clause(k), ",");
      JoinAppend(TightClauses(p), TightClause(k), ", ");
      ShiftSpace(Join(Clauses(p), ","), Join(TightClauses(p), ", "), k);
    }
  }

  lemma ShiftSpace(a: string, b: string, k: string)
    requires a == " " + b
    ensures a + "," + Clause(k) == " " + (b + ", " + TightClause(k))
  {
    assert "," + Clause(k) == ", " + TightClause(k);
  }

  lemma {:induction false} JoinAppend(parts: seq<string>, last: string, sep: string)
    requires parts != []
    ensures Join(parts + [last], sep) == Join(parts, sep) + sep + last
    decreases |parts|
  {
    if |parts| == 1 {
      assert (parts + [last])[1..] == [last];
    } else {
      assert (parts + [last])[1..] == parts[1..] + [last];
      JoinAppend(parts[1..], last, sep);
    }
  }

  /** The update expression is `SET ` followed by the `#k = :k` clauses of the
      kept entries, in entry order, separated by ", ". This holds when the
      last kept key does not end in whitespace, which `trim` would cut. */
  lemma ExpressionIsJoinedClauses(es: seq<Entry>)
    requires Kept(es) != []
    requires var k := Kept(es)[|Kept(es)| - 1].key; k == "" || !IsSpace(k[|k| - 1])
    ensures "SET " + Trim(Join(Clauses(Kept(es)), ",")) == "SET " + Join(TightClauses(Kept(es)), ", ")
  {
    var ks := Kept(es);
    JoinClauses(ks);
    var x := Join(TightClauses(ks), ", ");
    LastOfJoinedClauses(ks);
    TrimOneLeadingSpace(x);
  }

  lemma {:induction false} LastOfJoinedClauses(es: seq<Entry>)
    requires es != []
    requires var k := es[|es| - 1].key; k == "" || !IsSpace(k[|k| - 1])
    ensures var x := Join(TightClauses(es), ", "); x != "" && x[0] == '#' && !IsSpace(x[|x| - 1])
    decreases |es|
  {
    var p := es[..|es| - 1];
    var k := es[|es| - 1].key;
    ClausesLength(es);
    if p == [] {
      assert TightClauses(es) == [TightClause(k)];
    } else {
      LastOfJoinedClausesHead(p);
      JoinAppend(TightClauses(p), TightClause(k), ", ");
    }
  }

  lemma {:induction false} LastOfJoinedClausesHead(es: seq<Entry>)
    requires es != []
    ensures var x := Join(TightClauses(es), ", "); x != "" && x[0] == '#'
    decreases |es|
  {
    var p := es[..|es| - 1];
    var k := es[|es| - 1].key;
    ClausesLength(es);
    if p == [] {
      assert TightClauses(es) == [TightClause(k)];
    } else {
      LastOfJoinedClausesHead(p);
      JoinAppend(TightClauses(p), TightClause(k), ", ");
    }
  }

  /** An empty or all-null object gives `"SET "` and two empty maps. */
  lemma {:induction false} NothingKept(es: seq<Entry>)
    requires forall i :: 0 <= i < |es| ==> Nullish(es[i].value)
    ensures Kept(es) == [] && ValuesOf(es) == map[] && NamesOf(es) == map[]
    ensures "SET " + Trim(Join(Clauses(Kept(es)), ",")) == "SET "
    decreases |es|
  {
    if es != [] {
      NothingKept(es[..|es| - 1]);
    }
  }
}
