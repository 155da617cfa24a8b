/**
 * Flattening and then unflattening gives the document back, provided every
 * key at every level is a non-empty key without `"."` and no nested object
 * is empty (`{"a": {}}` flattens to `{}`).
 */
module RoundTrip {
  import opened Document
  import opened Keys
  import opened Flattener
  import opened Unflattener

  /** Every key below `v` is a segment, and no object below or at `v` is empty. */
  ghost predicate WellFormedValue(v: Value)
    decreases v
  {
    v.Obj? ==>
      && v.fields != map[]
      && forall k :: k in v.fields ==> IsSegment(k) && WellFormedValue(v.fields[k])
  }

  /** A document that survives the round trip: segment keys and no empty nested object. */
  ghost predicate WellFormed(d: Doc) {
    forall k :: k in d ==> IsSegment(k) && WellFormedValue(d[k])
  }

  /** Every key on a path below a well-formed value is a segment. */
  lemma {:induction false} SegmentsBelow(v: Value, p: seq<string>)
    requires WellFormedValue(v) && Lookup(v, p).Some?
    ensures forall i :: 0 <= i < |p| ==> IsSegment(p[i])
    decreases |p|
  {
    if p != [] {
      SegmentsBelow(v.fields[p[0]], p[1..]);
      assert forall i :: 0 < i < |p| ==> p[i] == p[1..][i - 1];
    }
  }

  /** Every key on a path of a well-formed document is a segment. */
  lemma SegmentsOnPath(d: Doc, p: seq<string>)
    requires WellFormed(d) && Defined(d, p)
    ensures forall i :: 0 <= i < |p| ==> IsSegment(p[i])
  {
    if p != [] {
      SegmentsBelow(d[p[0]], p[1..]);
      assert forall i :: 0 < i < |p| ==> p[i] == p[1..][i - 1];
    }
  }

  /** The flat key of a leaf of a well-formed document splits back into the leaf's path. */
  lemma SplitLeafKey(d: Doc, p: seq<string>)
    requires WellFormed(d) && IsLeafPath(d, p)
    ensures Split(PathKey("", p)) == p
  {
    SegmentsOnPath(d, p);
    SplitRootPathKey(p);
  }

  /** Distinct leaves of a well-formed document never share a flat key. */
  lemma WellFormedNoCollisions(d: Doc)
    requires WellFormed(d)
    ensures NoCollisions(d)
  {
    forall p, q | IsLeafPath(d, p) && IsLeafPath(d, q) && PathKey("", p) == PathKey("", q)
      ensures Lookup(Obj(d), p) == Lookup(Obj(d), q)
    {
      SplitLeafKey(d, p);
      SplitLeafKey(d, q);
    }
  }

  /** The flattening of a well-formed document has no conflicting keys, so it unflattens without a panic. */
  lemma FlattenedNoConflict(d: Doc, f: Doc)
    requires WellFormed(d) && Flattened(d, f)
    ensures NoConflict(f)
  {
    forall k1, k2 | k1 in f && k2 in f && k1 != k2 ensures !(Split(k1) <= Split(k2)) {
      var p1 :| IsLeafPath(d, p1) && PathKey("", p1) == k1 && f[k1] == Lookup(Obj(d), p1).value;
      var p2 :| IsLeafPath(d, p2) && PathKey("", p2) == k2 && f[k2] == Lookup(Obj(d), p2).value;
      SplitLeafKey(d, p1);
      SplitLeafKey(d, p2);
      if p1 <= p2 {
        LeafPathsPrefixFree(d, p1, p2);
      }
    }
  }

  /** A well-formed value has a leaf below it. */
  lemma {:induction false} SomeLeafBelow(v: Value) returns (p: seq<string>)
    requires WellFormedValue(v)
    ensures Lookup(v, p).Some? && !Lookup(v, p).value.Obj?
    ensures v.Obj? ==> p != []
    decreases v
  {
    if v.Obj? {
      var k :| k in v.fields;
      var rest := SomeLeafBelow(v.fields[k]);
      p := [k] + rest;
      assert p[1..] == rest;
    } else {
      p := [];
    }
  }

  /**
   * A document without empty nested objects is determined by its leaves:
   * if `b` agrees with `a` on every leaf path of `a` and has nothing off
   * those paths, then `b` is `a`.
   */
  lemma {:induction false} DeterminedByLeaves(a: Doc, b: Doc)
    requires WellFormed(a)
    requires forall p :: IsLeafPath(a, p) ==> Lookup(Obj(b), p) == Lookup(Obj(a), p)
    requires forall p :: p != [] && Defined(b, p) ==> exists q :: IsLeafPath(a, q) && (p <= q || q <= p)
    ensures a == b
    decreases Obj(a)
  {
    forall k | k in a ensures k in b && b[k] == a[k] {
      if a[k].Obj? {
        SubtreeDetermined(a, b, k);
      } else {
        assert [k][1..] == [];
        assert Lookup(Obj(a), [k]) == Some(a[k]);
        assert IsLeafPath(a, [k]);
        assert Lookup(Obj(b), [k]) == if k in b then Some(b[k]) else None;
      }
    }
    forall k | k in b ensures k in a {
      assert Defined(b, [k]);
      var q :| IsLeafPath(a, q) && ([k] <= q || q <= [k]);
    }
  }

  /** The induction step of `DeterminedByLeaves`: an object field of `a` is matched in `b`. */
  lemma {:induction false} SubtreeDetermined(a: Doc, b: Doc, k: string)
    requires WellFormed(a)
    requires forall p :: IsLeafPath(a, p) ==> Lookup(Obj(b), p) == Lookup(Obj(a), p)
    requires forall p :: p != [] && Defined(b, p) ==> exists q :: IsLeafPath(a, q) && (p <= q || q <= p)
    requires k in a && a[k].Obj?
    ensures k in b && b[k] == a[k]
    decreases Obj(a), 0
  {
    var m := a[k].fields;
    var r := SomeLeafBelow(a[k]);
    LookupAppend(Obj(a), [k], r);
    assert IsLeafPath(a, [k] + r);
    LookupAppend(Obj(b), [k], r);
    assert k in b && b[k].Obj?;
    var n := b[k].fields;
    forall p | IsLeafPath(m, p) ensures Lookup(Obj(n), p) == Lookup(Obj(m), p) {
      LookupAppend(Obj(a), [k], p);
      LookupAppend(Obj(b), [k], p);
      assert IsLeafPath(a, [k] + p);
    }
    forall p | p != [] && Defined(n, p) ensures exists q :: IsLeafPath(m, q) && (p <= q || q <= p) {
      LookupAppend(Obj(b), [k], p);
      assert Defined(b, [k] + p);
      var q :| IsLeafPath(a, q) && ([k] + p <= q || q <= [k] + p);
      assert q != [] && q[0] == k;
      var q' := q[1..];
      assert q == [k] + q';
      LookupAppend(Obj(a), [k], q');
      assert IsLeafPath(m, q');
      PrefixTail([k] + p, q);
      PrefixTail(q, [k] + p);
      assert ([k] + p)[1..] == p;
    }
    DeterminedByLeaves(m, n);
  }

  /**
   * The round trip: a map that unflattens the flattening of a well-formed
   * document is that document.
   */
  lemma RoundTrip(d: Doc, f: Doc, u: Doc)
    requires WellFormed(d)
    requires Flattened(d, f)
    requires Unflattened(f, u)
    ensures u == d
  {
    WellFormedNoCollisions(d);
    FlattenedWithoutCollisions(d, f);
    forall p | IsLeafPath(d, p) ensures Lookup(Obj(u), p) == Lookup(Obj(d), p) {
      SplitLeafKey(d, p);
    }
    forall p | p != [] && Defined(u, p) ensures exists q :: IsLeafPath(d, q) && (p <= q || q <= p) {
      var k :| k in f && (p <= Split(k) || Split(k) <= p);
      var q :| IsLeafPath(d, q) && PathKey("", q) == k && f[k] == Lookup(Obj(d), q).value;
      SplitLeafKey(d, q);
    }
    DeterminedByLeaves(d, u);
  }

  /** `UnflattenMap(FlattenMap(d))` gives `d` back for a well-formed document, whatever the visiting orders. */
  method FlattenThenUnflatten(d: Doc) returns (r: Result<Doc>)
    requires WellFormed(d)
    ensures r == Ok(d)
  {
    var f := FlattenMap(d);
    FlattenedNoConflict(d, f);
    var res, order := UnflattenMap(f);
    RoundTrip(d, f, res.value);
    r := res;
  }
}
