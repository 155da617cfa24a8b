/**
 * The expected results of the repository's tests, and documents that show
 * where the round trip's preconditions come from.
 */
module Cases {
  import opened Document
  import opened Keys
  import opened Flattener
  import opened Unflattener
  import opened RoundTrip

  /** The only leaf below `{"c": "c"}` is `c`. */
  lemma OneLeaf(k: string, x: Value, q: seq<string>)
    requires !x.Obj?
    requires Lookup(Obj(map[k := x]), q).Some? && !Lookup(Obj(map[k := x]), q).value.Obj?
    ensures q == [k]
  {
    LeafBelowObject(Obj(map[k := x]), q);
    NothingBelowLeaf(x, q[1..]);
  }

  /** Below an object with the single field `k`, a leaf lies below `k`. */
  lemma OneField(k: string, v: Value, q: seq<string>)
    requires Lookup(Obj(map[k := v]), q).Some? && !Lookup(Obj(map[k := v]), q).value.Obj?
    ensures q != [] && q[0] == k && q == [k] + q[1..]
    ensures Lookup(v, q[1..]) == Lookup(Obj(map[k := v]), q)
  {
    LeafBelowObject(Obj(map[k := v]), q);
  }

  /** Below an object with the fields `k1` (any value) and `k2` (a leaf), a leaf lies below `k1` or is `k2`. */
  lemma TwoFields(k1: string, v1: Value, k2: string, x2: Value, q: seq<string>)
    requires !x2.Obj?
    requires Lookup(Obj(map[k1 := v1, k2 := x2]), q).Some? && !Lookup(Obj(map[k1 := v1, k2 := x2]), q).value.Obj?
    ensures q == [k2] || (q != [] && q[0] == k1 && q == [k1] + q[1..] && k1 != k2 &&
                          Lookup(v1, q[1..]) == Lookup(Obj(map[k1 := v1, k2 := x2]), q))
  {
    var v := Obj(map[k1 := v1, k2 := x2]);
    LeafBelowObject(v, q);
    if q[0] == k2 {
      NothingBelowLeaf(x2, q[1..]);
    }
  }

  /** An object with one field whose key is a segment and whose value is well formed is well formed. */
  lemma WellFormedSingle(k: string, v: Value)
    requires IsSegment(k) && WellFormedValue(v)
    ensures WellFormed(map[k := v]) && WellFormedValue(Obj(map[k := v]))
  {
    assert k in map[k := v];
  }

  /** An object with two such fields is well formed. */
  lemma WellFormedPair(k1: string, v1: Value, k2: string, v2: Value)
    requires IsSegment(k1) && WellFormedValue(v1) && IsSegment(k2) && WellFormedValue(v2)
    ensures WellFormed(map[k1 := v1, k2 := v2]) && WellFormedValue(Obj(map[k1 := v1, k2 := v2]))
  {
    assert k1 in map[k1 := v1, k2 := v2];
  }

  /** A document without nested objects flattens to itself (flat_test.go, first case). */
  lemma FlattenScalars(f: Doc)
    requires Flattened(map["number" := Num(1.4567), "bool" := Bool(true)], f)
    ensures f == map["number" := Num(1.4567), "bool" := Bool(true)]
  {
    FlattenedOneLevelDoc(map["number" := Num(1.4567), "bool" := Bool(true)], f);
  }

  /** The two leaf paths of the second test document. */
  lemma NameLeaves(q: seq<string>)
    requires IsLeafPath(NameDoc, q)
    ensures q == ["name", "first_name"] || q == ["name", "last_name"]
  {
    var inner := Obj(map["first_name" := Str("John"), "last_name" := Str("Doe")]);
    OneField("name", inner, q);
    TwoFields("first_name", Str("John"), "last_name", Str("Doe"), q[1..]);
    if q[1..][0] == "first_name" {
      NothingBelowLeaf(Str("John"), q[1..][1..]);
    }
  }

  /** A document with exactly two leaves, under different keys, flattens to those two entries. */
  lemma FlattenedTwoLeaves(d: Doc, f: Doc, p1: seq<string>, p2: seq<string>)
    requires Flattened(d, f) && NoCollisions(d)
    requires IsLeafPath(d, p1) && IsLeafPath(d, p2)
    requires forall q :: IsLeafPath(d, q) ==> q == p1 || q == p2
    ensures f == map[PathKey("", p1) := Lookup(Obj(d), p1).value, PathKey("", p2) := Lookup(Obj(d), p2).value]
  {
    FlattenedWithoutCollisions(d, f);
    forall nk | nk in f ensures nk == PathKey("", p1) || nk == PathKey("", p2) {
      var q :| IsLeafPath(d, q) && PathKey("", q) == nk && f[nk] == Lookup(Obj(d), q).value;
    }
  }

  const NameDoc: Doc := map["name" := Obj(map["first_name" := Str("John"), "last_name" := Str("Doe")])]

  /** The second test document is well formed, so its leaves do not collide. */
  lemma NameNoCollisions()
    ensures NoCollisions(NameDoc)
  {
    WellFormedPair("first_name", Str("John"), "last_name", Str("Doe"));
    WellFormedSingle("name", NameDoc["name"]);
    WellFormedNoCollisions(NameDoc);
  }

  /** The leaves of the second test document are `name.first_name` and `name.last_name`. */
  lemma NameFacts()
    ensures Lookup(Obj(NameDoc), ["name", "first_name"]) == Some(Str("John"))
    ensures Lookup(Obj(NameDoc), ["name", "last_name"]) == Some(Str("Doe"))
    ensures PathKey("", ["name", "first_name"]) == "name.first_name"
    ensures PathKey("", ["name", "last_name"]) == "name.last_name"
    ensures forall q :: IsLeafPath(NameDoc, q) ==> q == ["name", "first_name"] || q == ["name", "last_name"]
  {
    forall q | IsLeafPath(NameDoc, q) ensures q == ["name", "first_name"] || q == ["name", "last_name"] {
      NameLeaves(q);
    }
  }

  /** One nested object gives dotted keys (flat_test.go, second case). */
  lemma FlattenName(f: Doc)
    requires Flattened(NameDoc, f)
    ensures f == map["name.first_name" := Str("John"), "name.last_name" := Str("Doe")]
  {
    NameNoCollisions();
    NameFacts();
    FlattenedTwoLeaves(NameDoc, f, ["name", "first_name"], ["name", "last_name"]);
  }

  const DeepE: Value := Obj(map["c" := Str("c")])
  const DeepD: Value := Obj(map["e" := DeepE])
  const DeepB: Value := Obj(map["d" := DeepD])
  const DeepA: Value := Obj(map["b" := DeepB, "c" := Str("c")])

  /** The two leaf paths of the third test document. */
  lemma DeepLeaves(q: seq<string>)
    requires IsLeafPath(DeepDoc, q)
    ensures q == ["a", "b", "d", "e", "c"] || q == ["a", "c"]
  {
    OneField("a", DeepA, q);
    var q1 := q[1..];
    TwoFields("b", DeepB, "c", Str("c"), q1);
    if q1 != ["c"] {
      var q2 := q1[1..];
      OneField("d", DeepD, q2);
      var q3 := q2[1..];
      OneField("e", DeepE, q3);
      OneLeaf("c", Str("c"), q3[1..]);
    }
  }

  const DeepDoc: Doc := map["a" := DeepA]

  /** The third test document is well formed, so its leaves do not collide. */
  lemma DeepNoCollisions()
    ensures NoCollisions(DeepDoc)
  {
    WellFormedSingle("c", Str("c"));
    WellFormedSingle("e", DeepE);
    WellFormedSingle("d", DeepD);
    WellFormedPair("b", DeepB, "c", Str("c"));
    WellFormedSingle("a", DeepA);
    WellFormedNoCollisions(DeepDoc);
  }

  /** The leaves of the third test document are `a.b.d.e.c` and `a.c`. */
  lemma DeepFacts()
    ensures Lookup(Obj(DeepDoc), ["a", "b", "d", "e", "c"]) == Some(Str("c"))
    ensures Lookup(Obj(DeepDoc), ["a", "c"]) == Some(Str("c"))
    ensures PathKey("", ["a", "b", "d", "e", "c"]) == "a.b.d.e.c"
    ensures PathKey("", ["a", "c"]) == "a.c"
    ensures forall q :: IsLeafPath(DeepDoc, q) ==> q == ["a", "b", "d", "e", "c"] || q == ["a", "c"]
  {
    RootPathKeyIsJoin(["a", "b", "d", "e", "c"]);
    RootPathKeyIsJoin(["a", "c"]);
    forall q | IsLeafPath(DeepDoc, q) ensures q == ["a", "b", "d", "e", "c"] || q == ["a", "c"] {
      DeepLeaves(q);
    }
  }

  /** Deep nesting beside a shallow key (flat_test.go, third case). */
  lemma FlattenDeep(f: Doc)
    requires Flattened(DeepDoc, f)
    ensures f == map["a.b.d.e.c" := Str("c"), "a.c" := Str("c")]
  {
    DeepNoCollisions();
    DeepFacts();
    FlattenedTwoLeaves(DeepDoc, f, ["a", "b", "d", "e", "c"], ["a", "c"]);
  }

  const Merged: Doc := map["a" := Obj(map["b" := Obj(map["c" := Str("c")]), "c" := Str("c")])]

  /** The two leaf paths of the unflattened test document. */
  lemma MergedLeaves(q: seq<string>)
    requires IsLeafPath(Merged, q)
    ensures q == ["a", "b", "c"] || q == ["a", "c"]
  {
    OneField("a", Merged["a"], q);
    var q1 := q[1..];
    TwoFields("b", Obj(map["c" := Str("c")]), "c", Str("c"), q1);
    if q1 != ["c"] {
      OneLeaf("c", Str("c"), q1[1..]);
    }
  }

  /** The unflattened test document is well formed. */
  lemma MergedWellFormed()
    ensures WellFormed(Merged)
  {
    WellFormedSingle("c", Str("c"));
    WellFormedPair("b", Obj(map["c" := Str("c")]), "c", Str("c"));
    WellFormedSingle("a", Merged["a"]);
  }

  /** The flat keys of the unflatten test split into the leaf paths of `Merged`. */
  lemma MergedKeys()
    ensures Split("a.b.c") == ["a", "b", "c"] && Split("a.c") == ["a", "c"]
    ensures IsLeafPath(Merged, ["a", "b", "c"]) && IsLeafPath(Merged, ["a", "c"])
    ensures Lookup(Obj(Merged), ["a", "b", "c"]) == Some(Str("c"))
    ensures Lookup(Obj(Merged), ["a", "c"]) == Some(Str("c"))
  {
    assert "a.b.c" == Join(["a", "b", "c"]) && "a.c" == Join(["a", "c"]);
    SplitJoin(["a", "b", "c"]);
    SplitJoin(["a", "c"]);
  }

  /** Keys with a shared prefix are merged into one object (flat_test.go, unflatten case). */
  lemma UnflattenShared(u: Doc)
    requires Unflattened(map["a.b.c" := Str("c"), "a.c" := Str("c")], u)
    ensures u == Merged
  {
    var f := map["a.b.c" := Str("c"), "a.c" := Str("c")];
    MergedKeys();
    MergedWellFormed();
    forall q | IsLeafPath(Merged, q) ensures Lookup(Obj(u), q) == Lookup(Obj(Merged), q) {
      MergedLeaves(q);
    }
    forall p | p != [] && Defined(u, p) ensures exists q :: IsLeafPath(Merged, q) && (p <= q || q <= p) {
      var k :| k in f && (p <= Split(k) || Split(k) <= p);
      assert IsLeafPath(Merged, Split(k));
    }
    DeterminedByLeaves(Merged, u);
  }

  /** The flat keys of the unflatten test do not conflict. */
  lemma SharedKeysNoConflict()
    ensures NoConflict(map["a.b.c" := Str("c"), "a.c" := Str("c")])
  {
    MergedKeys();
  }

  /** `UnflattenMap` of the unflatten test's input returns the merged object, whatever the visiting order. */
  method UnflattenSharedMap() returns (r: Result<Doc>)
    ensures r == Ok(Merged)
  {
    var f := map["a.b.c" := Str("c"), "a.c" := Str("c")];
    SharedKeysNoConflict();
    var res, order := UnflattenMap(f);
    UnflattenShared(res.value);
    r := res;
  }

  /** Flat keys `"a"` and `"a.b"` conflict. */
  lemma ConflictingKeys()
    ensures !NoConflict(map["a" := Str("x"), "a.b" := Str("y")])
  {
    assert "a.b" == Join(["a", "b"]);
    SplitJoin(["a", "b"]);
    SplitSegment("a");
    assert Split("a") <= Split("a.b");
  }

  /**
   * With conflicting keys the outcome depends on the visiting order: `"a"`
   * first makes `"a.b"` panic, `"a.b"` first lets `"a"` overwrite it.
   */
  lemma ConflictDependsOnOrder()
    ensures UnflattenAll(map["a" := Str("x"), "a.b" := Str("y")], ["a", "a.b"]) == Err(NotAnObject("a"))
    ensures UnflattenAll(map["a" := Str("x"), "a.b" := Str("y")], ["a.b", "a"]) == Ok(map["a" := Str("x")])
  {
    var f := map["a" := Str("x"), "a.b" := Str("y")];
    assert "a.b" == Join(["a", "b"]);
    SplitJoin(["a", "b"]);
    SplitSegment("a");
    assert ["a", "a.b"][..1] == ["a"] && ["a.b", "a"][..1] == ["a.b"];
    assert UnflattenAll(f, ["a"]) == Ok(map["a" := Str("x")]);
    var sub := map["a" := Obj(map["b" := Str("y")])];
    assert UnflattenAll(f, ["a.b"]) == Ok(sub);
    assert sub["a" := Str("x")] == map["a" := Str("x")];
  }

  /** An empty nested object leaves no trace in the flattening, so the round trip needs non-empty objects. */
  lemma EmptyObjectVanishes(f: Doc)
    requires Flattened(map["a" := Obj(map[])], f)
    ensures f == map[]
  {
    forall nk | nk in f ensures false {
      var q :| IsLeafPath(map["a" := Obj(map[])], q) && PathKey("", q) == nk;
      OneField("a", Obj(map[]), q);
      LeafBelowObject(Obj(map[]), q[1..]);
    }
  }
}
