/**
 * The document model: `ResultMap` and the dynamically typed values it holds
 * (what `encoding/json` produces: null, bool, float64, string, arrays and
 * nested objects).
 */
module Document {

  /**
   * A JSON-like value. `Num` stands for a float64 (a `real` here); neither
   * transformation inspects numbers, so they are kept as opaque leaves.
   */
  datatype Value =
    | Null
    | Bool(b: bool)
    | Num(x: real)
    | Str(s: string)
    | Arr(items: seq<Value>)
    | Obj(fields: map<string, Value>)

  /** A document: a map from keys to values. */
  type Doc = map<string, Value>

  datatype Option<T> = None | Some(value: T)

  /**
   * The value reached from `v` by following the object keys of `path`.
   * Only objects are entered: an array, like any other non-object, has
   * nothing below it.
   */
  function Lookup(v: Value, path: seq<string>): Option<Value>
    decreases |path|
  {
    if path == [] then Some(v)
    else if v.Obj? && path[0] in v.fields then Lookup(v.fields[path[0]], path[1..])
    else None
  }

  /** `path` leads from the root of `d` to something. */
  predicate Defined(d: Doc, path: seq<string>) {
    Lookup(Obj(d), path).Some?
  }

  /** `path` leads from the root of `d` to a value that is not an object. */
  predicate IsLeafPath(d: Doc, path: seq<string>) {
    var r := Lookup(Obj(d), path);
    r.Some? && !r.value.Obj?
  }

  /** Everything strictly above a defined path is an object. */
  lemma {:induction false} AboveIsObject(v: Value, p: seq<string>, q: seq<string>)
    requires Lookup(v, p).Some?
    requires q < p
    ensures Lookup(v, q).Some? && Lookup(v, q).value.Obj?
    decreases |q|
  {
    if q != [] {
      assert p[0] == q[0];
      assert q[1..] < p[1..];
      AboveIsObject(v.fields[p[0]], p[1..], q[1..]);
    }
  }

  /** Nothing is defined below a leaf: leaf paths are prefix-free. */
  lemma LeafPathsPrefixFree(d: Doc, p: seq<string>, q: seq<string>)
    requires IsLeafPath(d, p) && IsLeafPath(d, q)
    requires p <= q
    ensures p == q
  {
    if p < q {
      AboveIsObject(Obj(d), q, p);
    }
  }

  /** Looking up a longer path is looking up its tail from where its head leads. */
  lemma {:induction false} LookupAppend(v: Value, p: seq<string>, q: seq<string>)
    ensures Lookup(v, p + q) == match Lookup(v, p)
                                 case None => None
                                 case Some(w) => Lookup(w, q)
    decreases |p|
  {
    if p != [] {
      assert (p + q)[0] == p[0];
      assert (p + q)[1..] == p[1..] + q;
      if v.Obj? && p[0] in v.fields {
        LookupAppend(v.fields[p[0]], p[1..], q);
      }
    } else {
      assert p + q == q;
    }
  }

  /** A leaf below an object lies below one of its fields. */
  lemma LeafBelowObject(v: Value, q: seq<string>)
    requires v.Obj? && Lookup(v, q).Some? && !Lookup(v, q).value.Obj?
    ensures q != [] && q[0] in v.fields && q == [q[0]] + q[1..]
    ensures Lookup(v.fields[q[0]], q[1..]) == Lookup(v, q)
  {
  }

  /** Nothing lies below a non-object. */
  lemma NothingBelowLeaf(v: Value, q: seq<string>)
    requires !v.Obj? && Lookup(v, q).Some?
    ensures q == []
  {
  }
}
