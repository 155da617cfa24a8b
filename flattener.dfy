/**
 * `FlattenMap` and `flatten`: a depth-first walk that carries the joined key
 * of the current object and writes every non-object value into one shared
 * output map.
 *
 * Go visits the entries of a map in an unspecified order. The walk below
 * picks the next key with `:|`, so its contracts hold for every visiting
 * order. When two leaves end up under the same flat key, the one written
 * last wins; the contracts therefore only promise that the stored value is
 * one of the leaves with that key, and give the exact value when no two
 * leaves collide.
 */
module Flattener {
  import opened Document
  import opened Keys

  /**
   * The (flat key, value) pairs that flattening the value `v`, found under
   * the joined key `prefix`, writes: the pair itself for a non-object, the
   * pairs of all its fields for an object.
   */
  ghost function EntriesOf(prefix: string, v: Value): set<(string, Value)>
    decreases v, 1
  {
    if v.Obj? then FieldEntries(prefix, v.fields, v.fields.Keys) else {(prefix, v)}
  }

  /** The pairs written for the fields `ks` of an object `m` found under `prefix`. */
  ghost function FieldEntries(prefix: string, m: Doc, ks: set<string>): set<(string, Value)>
    decreases Obj(m), 0
  {
    set k, e | k in ks && k in m && e in EntriesOf(NewKey(prefix, k), m[k]) :: e
  }

  /** The pairs written when a whole document is flattened. */
  ghost function Entries(d: Doc): set<(string, Value)> {
    EntriesOf("", Obj(d))
  }

  /** The flat keys of a set of pairs. */
  ghost function KeysOf(es: set<(string, Value)>): set<string> {
    set e | e in es :: e.0
  }

  /**
   * `after` is `before` with the pairs `es` written into it in some order:
   * it has the keys of both, a key written holds one of the values written
   * under it, and every other key keeps its value.
   */
  ghost predicate Overlays(before: Doc, after: Doc, es: set<(string, Value)>) {
    && after.Keys == before.Keys + KeysOf(es)
    && forall nk :: nk in after ==>
         if nk in KeysOf(es) then (nk, after[nk]) in es else after[nk] == before[nk]
  }

  /**
   * Every flat key of `d`'s flattening: each leaf path gives one, and each
   * key holds the value of a leaf path that gives it.
   */
  ghost predicate Flattened(d: Doc, f: Doc) {
    && (forall p :: IsLeafPath(d, p) ==> PathKey("", p) in f)
    && (forall nk :: nk in f ==>
          exists p :: IsLeafPath(d, p) && PathKey("", p) == nk && f[nk] == Lookup(Obj(d), p).value)
  }

  /** No two leaves with different values get the same flat key. */
  ghost predicate NoCollisions(d: Doc) {
    forall p, q :: IsLeafPath(d, p) && IsLeafPath(d, q) && PathKey("", p) == PathKey("", q) ==>
      Lookup(Obj(d), p) == Lookup(Obj(d), q)
  }

  /** Writing two batches of pairs one after the other writes their union. */
  lemma OverlaysCompose(a: Doc, b: Doc, c: Doc, es1: set<(string, Value)>, es2: set<(string, Value)>)
    requires Overlays(a, b, es1) && Overlays(b, c, es2)
    ensures Overlays(a, c, es1 + es2)
  {
    assert KeysOf(es1 + es2) == KeysOf(es1) + KeysOf(es2) by {
      forall nk | nk in KeysOf(es1 + es2) ensures nk in KeysOf(es1) + KeysOf(es2) {
        var e :| e in es1 + es2 && e.0 == nk;
      }
      forall nk | nk in KeysOf(es1) ensures nk in KeysOf(es1 + es2) {
        var e :| e in es1 && e.0 == nk;
      }
      forall nk | nk in KeysOf(es2) ensures nk in KeysOf(es1 + es2) {
        var e :| e in es2 && e.0 == nk;
      }
    }
  }

  /** The pairs of one more field are added to those already written. */
  lemma FieldEntriesAdd(prefix: string, m: Doc, done: set<string>, k: string)
    requires k in m
    ensures FieldEntries(prefix, m, done + {k})
         == FieldEntries(prefix, m, done) + EntriesOf(NewKey(prefix, k), m[k])
  {
  }

  /** Writing one pair is overlaying it. */
  lemma OverlaysWrite(before: Doc, nk: string, v: Value)
    ensures Overlays(before, before[nk := v], {(nk, v)})
  {
    assert KeysOf({(nk, v)}) == {nk};
  }

  /** After field `k` is written, the fields done so far and `k` are written. */
  lemma FlattenStep(outmap: Doc, before: Doc, after: Doc, prefix: string, inmap: Doc, done: set<string>, k: string)
    requires k in inmap
    requires Overlays(outmap, before, FieldEntries(prefix, inmap, done))
    requires Overlays(before, after, EntriesOf(NewKey(prefix, k), inmap[k]))
    ensures Overlays(outmap, after, FieldEntries(prefix, inmap, done + {k}))
  {
    OverlaysCompose(outmap, before, after, FieldEntries(prefix, inmap, done), EntriesOf(NewKey(prefix, k), inmap[k]));
    FieldEntriesAdd(prefix, inmap, done, k);
  }

  /** `flatten(prefix, inmap, outmap)`: writes the pairs of every field of `inmap` into `outmap`. */
  method Flatten(prefix: string, inmap: Doc, outmap: Doc) returns (out: Doc)
    ensures Overlays(outmap, out, FieldEntries(prefix, inmap, inmap.Keys))
    decreases Obj(inmap)
  {
    out := outmap;
    var rest := inmap.Keys;
    assert FieldEntries(prefix, inmap, inmap.Keys - rest) == {};
    assert KeysOf({}) == {};
    while rest != {}
      invariant rest <= inmap.Keys
      invariant Overlays(outmap, out, FieldEntries(prefix, inmap, inmap.Keys - rest))
      decreases rest
    {
      var k :| k in rest;
      var nk := NewKey(prefix, k);
      ghost var before := out;
      match inmap[k] {
        case Obj(fields) =>
          out := Flatten(nk, fields, out);
        case _ =>
          out := out[nk := inmap[k]];
          OverlaysWrite(before, nk, inmap[k]);
      }
      FlattenStep(outmap, before, out, prefix, inmap, inmap.Keys - rest, k);
      assert inmap.Keys - (rest - {k}) == (inmap.Keys - rest) + {k};
      rest := rest - {k};
    }
  }

  /** `FlattenMap`: flattens a document into a fresh map; it never fails. */
  method FlattenMap(inmap: Doc) returns (outmap: Doc)
    ensures Flattened(inmap, outmap)
    ensures forall nk :: nk in outmap ==> !outmap[nk].Obj?
    ensures NoCollisions(inmap) ==>
      forall p :: IsLeafPath(inmap, p) ==> outmap[PathKey("", p)] == Lookup(Obj(inmap), p).value
    ensures (forall k :: k in inmap ==> !inmap[k].Obj?) ==> outmap == inmap
  {
    outmap := Flatten("", inmap, map[]);
    FlattenedByEntries(inmap, outmap);
    FlattenedIsOneLevel(inmap, outmap);
    if NoCollisions(inmap) {
      FlattenedWithoutCollisions(inmap, outmap);
    }
    if forall k :: k in inmap ==> !inmap[k].Obj? {
      FlattenedOneLevelDoc(inmap, outmap);
    }
  }

  /** Each leaf below `v` is written under the key of its path. */
  lemma {:induction false} LeafPathEntry(prefix: string, v: Value, path: seq<string>)
    requires Lookup(v, path).Some? && !Lookup(v, path).value.Obj?
    ensures (PathKey(prefix, path), Lookup(v, path).value) in EntriesOf(prefix, v)
    decreases |path|
  {
    if path != [] {
      var k := path[0];
      LeafPathEntry(NewKey(prefix, k), v.fields[k], path[1..]);
    }
  }

  /** Each pair written is a leaf below `v` under the key of its path. */
  lemma {:induction false} EntryLeafPath(prefix: string, v: Value, nk: string, x: Value) returns (path: seq<string>)
    requires (nk, x) in EntriesOf(prefix, v)
    ensures Lookup(v, path) == Some(x) && !x.Obj?
    ensures PathKey(prefix, path) == nk
    decreases v
  {
    if v.Obj? {
      var k :| k in v.fields && (nk, x) in EntriesOf(NewKey(prefix, k), v.fields[k]);
      var rest := EntryLeafPath(NewKey(prefix, k), v.fields[k], nk, x);
      path := [k] + rest;
      assert path[1..] == rest;
    } else {
      path := [];
    }
  }

  /** Writing the pairs of a document into an empty map flattens it. */
  lemma FlattenedByEntries(d: Doc, f: Doc)
    requires Overlays(map[], f, Entries(d))
    ensures Flattened(d, f)
  {
    forall p | IsLeafPath(d, p) ensures PathKey("", p) in f {
      LeafPathEntry("", Obj(d), p);
    }
    forall nk | nk in f
      ensures exists p :: IsLeafPath(d, p) && PathKey("", p) == nk && f[nk] == Lookup(Obj(d), p).value
    {
      var p := EntryLeafPath("", Obj(d), nk, f[nk]);
      assert IsLeafPath(d, p);
    }
  }

  /** A flattened document has one level: none of its values is an object. */
  lemma FlattenedIsOneLevel(d: Doc, f: Doc)
    requires Flattened(d, f)
    ensures forall nk :: nk in f ==> !f[nk].Obj?
  {
    forall nk | nk in f ensures !f[nk].Obj? {
      var p :| IsLeafPath(d, p) && PathKey("", p) == nk && f[nk] == Lookup(Obj(d), p).value;
    }
  }

  /** Without collisions, every leaf sits under its path's key with its own value. */
  lemma FlattenedWithoutCollisions(d: Doc, f: Doc)
    requires Flattened(d, f) && NoCollisions(d)
    ensures forall p :: IsLeafPath(d, p) ==>
      PathKey("", p) in f && f[PathKey("", p)] == Lookup(Obj(d), p).value
  {
    forall p | IsLeafPath(d, p)
      ensures PathKey("", p) in f && f[PathKey("", p)] == Lookup(Obj(d), p).value
    {
      var nk := PathKey("", p);
      var q :| IsLeafPath(d, q) && PathKey("", q) == nk && f[nk] == Lookup(Obj(d), q).value;
    }
  }

  /** A document with no nested object flattens to itself. */
  lemma FlattenedOneLevelDoc(d: Doc, f: Doc)
    requires forall k :: k in d ==> !d[k].Obj?
    requires Flattened(d, f)
    ensures f == d
  {
    forall p | IsLeafPath(d, p) ensures |p| == 1 && PathKey("", p) == p[0] {
      assert p != [] && Lookup(Obj(d), p) == Lookup(d[p[0]], p[1..]);
    }
    forall k | k in d ensures k in f && f[k] == d[k] {
      assert Lookup(Obj(d), [k]) == Some(d[k]);
      assert IsLeafPath(d, [k]);
      var q :| IsLeafPath(d, q) && PathKey("", q) == k && f[k] == Lookup(Obj(d), q).value;
      assert q == [k];
    }
    forall nk | nk in f ensures nk in d {
      var q :| IsLeafPath(d, q) && PathKey("", q) == nk && f[nk] == Lookup(Obj(d), q).value;
    }
  }
}
