/**
 * `UnflattenMap` and `unflatten`: every flat key is split on `"."` and its
 * value is stored at the end of that path of nested objects, creating the
 * objects on the way or reusing the ones already there.
 *
 * When a segment on the way already holds something that is not an object,
 * the Go code's type assertion `vmap.(ResultMap)` panics; here that is the
 * result `Err(NotAnObject(segment))`. `UnflattenMap` visits the keys in an
 * unspecified order, chosen with `:|`; which of several conflicting keys
 * wins, and whether a conflict panics, depends on that order, so the
 * method also returns the order it used as a ghost value.
 */
module Unflattener {
  import opened Document
  import opened Keys

  /** The panic of the type assertion: `segment` holds a non-object where an object is needed. */
  datatype Error = NotAnObject(segment: string)

  datatype Result<T> = Ok(value: T) | Err(error: Error)

  /** Some proper, non-empty prefix of `kparts` leads to a non-object in `m`. */
  predicate Blocked(m: Doc, kparts: seq<string>) {
    exists i :: 0 < i < |kparts| && IsLeafPath(m, kparts[..i])
  }

  /**
   * `unflatten(kparts, value, outmap)`: stores `value` at the path `kparts`
   * of `outmap`, finding or creating an object for every segment but the
   * last. On success the value is found at that path and the top level has
   * gained at most the first segment.
   */
  function Unflatten(kparts: seq<string>, value: Value, outmap: Doc): (r: Result<Doc>)
    requires |kparts| >= 1
    ensures r.Ok? ==> Lookup(Obj(r.value), kparts) == Some(value)
    ensures r.Ok? ==> r.value.Keys == outmap.Keys + {kparts[0]}
    decreases |kparts|
  {
    var key := kparts[0];
    if |kparts| > 1 then
      var vmap := if key in outmap then outmap[key] else Obj(map[]);
      if !vmap.Obj? then Err(NotAnObject(key))
      else match Unflatten(kparts[1..], value, vmap.fields)
        case Err(e) => Err(e)
        case Ok(sub) => Ok(outmap[key := Obj(sub)])
    else Ok(outmap[key := value])
  }

  /** Two paths with the same head are prefix-related exactly when their tails are. */
  lemma PrefixTail(p: seq<string>, q: seq<string>)
    requires p != [] && q != [] && p[0] == q[0]
    ensures p <= q <==> p[1..] <= q[1..]
    ensures p < q <==> p[1..] < q[1..]
  {
    assert p == [p[0]] + p[1..];
    assert q == [q[0]] + q[1..];
  }

  /**
   * `unflatten` fails exactly when a segment before the last leads to a
   * non-object, and it then names the first such segment.
   */
  lemma {:induction false} UnflattenFailsIff(kparts: seq<string>, value: Value, outmap: Doc)
    requires |kparts| >= 1
    ensures Unflatten(kparts, value, outmap).Err? <==> Blocked(outmap, kparts)
    ensures Unflatten(kparts, value, outmap).Err? ==>
      exists i :: 0 < i < |kparts| && IsLeafPath(outmap, kparts[..i])
        && Unflatten(kparts, value, outmap).error == NotAnObject(kparts[i - 1])
        && forall j :: 0 < j < i ==> !IsLeafPath(outmap, kparts[..j])
    decreases |kparts|
  {
    var key := kparts[0];
    if |kparts| > 1 {
      assert kparts[..1] == [key];
      var vmap := if key in outmap then outmap[key] else Obj(map[]);
      if vmap.Obj? {
        var tail := kparts[1..];
        UnflattenFailsIff(tail, value, vmap.fields);
        // A prefix of `kparts` of length i + 1 is a leaf exactly when the
        // prefix of the tail of length i is a leaf below `vmap`.
        forall i | 0 < i < |kparts|
          ensures IsLeafPath(outmap, kparts[..i]) <==>
                  i > 1 && IsLeafPath(vmap.fields, tail[..i - 1])
        {
          var q := kparts[..i];
          assert q[0] == key && q[1..] == tail[..i - 1];
          if key in outmap {
            assert Lookup(Obj(outmap), q) == Lookup(vmap, tail[..i - 1]);
            assert vmap == Obj(vmap.fields);
          } else {
            assert Lookup(Obj(outmap), q) == None;
          }
        }
        if Blocked(outmap, kparts) {
          var i :| 0 < i < |kparts| && IsLeafPath(outmap, kparts[..i]);
          assert IsLeafPath(vmap.fields, tail[..i - 1]);
        }
        if Blocked(vmap.fields, tail) {
          var i :| 0 < i < |tail| && IsLeafPath(vmap.fields, tail[..i]);
          assert IsLeafPath(outmap, kparts[..i + 1]);
        }
        if Unflatten(kparts, value, outmap).Err? {
          var i :| 0 < i < |tail| && IsLeafPath(vmap.fields, tail[..i])
            && Unflatten(tail, value, vmap.fields).error == NotAnObject(tail[i - 1])
            && forall j :: 0 < j < i ==> !IsLeafPath(vmap.fields, tail[..j]);
          assert IsLeafPath(outmap, kparts[..i + 1]);
          assert kparts[i] == tail[i - 1];
        }
      } else {
        assert IsLeafPath(outmap, kparts[..1]);
      }
    }
  }

  /**
   * A successful `unflatten` leaves alone every path of `outmap` that
   * neither lies on the way to `kparts` nor below it: keys sharing a prefix
   * with `kparts` are merged, not replaced.
   */
  lemma {:induction false} UnflattenPreserves(kparts: seq<string>, value: Value, outmap: Doc, p: seq<string>)
    requires |kparts| >= 1
    requires Unflatten(kparts, value, outmap).Ok?
    requires Defined(outmap, p) && !(kparts <= p) && !(p < kparts)
    ensures Lookup(Obj(Unflatten(kparts, value, outmap).value), p) == Lookup(Obj(outmap), p)
    decreases |kparts|
  {
    var r := Unflatten(kparts, value, outmap).value;
    var key := kparts[0];
    assert p != [];
    if p[0] == key {
      PrefixTail(kparts, p);
      PrefixTail(p, kparts);
      if |kparts| > 1 {
        var vmap := outmap[key];
        UnflattenPreserves(kparts[1..], value, vmap.fields, p[1..]);
      }
    }
  }

  /** A successful `unflatten` adds nothing away from the path `kparts`. */
  lemma {:induction false} UnflattenAddsOnlyPath(kparts: seq<string>, value: Value, outmap: Doc, p: seq<string>)
    requires |kparts| >= 1
    requires Unflatten(kparts, value, outmap).Ok?
    requires Defined(Unflatten(kparts, value, outmap).value, p)
    ensures Defined(outmap, p) || p <= kparts || kparts <= p
    decreases |kparts|
  {
    var key := kparts[0];
    if p != [] && p[0] == key && |kparts| > 1 {
      PrefixTail(kparts, p);
      PrefixTail(p, kparts);
      var vmap := if key in outmap then outmap[key] else Obj(map[]);
      UnflattenAddsOnlyPath(kparts[1..], value, vmap.fields, p[1..]);
      if key !in outmap && p[1..] != [] {
        assert !Defined(vmap.fields, p[1..]);
      }
    }
  }

  /** The entries of `inmap` whose keys are listed in `ks`. */
  function Taken(inmap: Doc, ks: seq<string>): Doc {
    map k | k in inmap && k in ks :: inmap[k]
  }

  /**
   * What `UnflattenMap`'s loop computes when it visits the keys `ks` in
   * this order, starting from an empty map and stopping at the first panic.
   */
  function UnflattenAll(inmap: Doc, ks: seq<string>): Result<Doc>
    requires forall i :: 0 <= i < |ks| ==> ks[i] in inmap
    decreases |ks|
  {
    if ks == [] then Ok(map[])
    else
      var k := ks[|ks| - 1];
      match UnflattenAll(inmap, ks[..|ks| - 1])
      case Err(e) => Err(e)
      case Ok(acc) => Unflatten(Split(k), inmap[k], acc)
  }

  /** No flat key's path of segments is a prefix of another's (which rules out `"a"` beside `"a.b"`). */
  ghost predicate NoConflict(inmap: Doc) {
    forall k1, k2 :: k1 in inmap && k2 in inmap && k1 != k2 ==> !(Split(k1) <= Split(k2))
  }

  /**
   * `u` unflattens the flat map `f`: each flat key's value is found at the
   * path its segments spell, and every other path of `u` lies on the way
   * to, or inside, one of those values.
   */
  ghost predicate Unflattened(f: Doc, u: Doc) {
    && (forall k :: k in f ==> Lookup(Obj(u), Split(k)) == Some(f[k]))
    && (forall p :: p != [] && Defined(u, p) ==> exists k :: k in f && (p <= Split(k) || Split(k) <= p))
  }

  /** One more key that conflicts with none unflattened so far is stored without a panic. */
  lemma UnflattenExtends(f: Doc, acc: Doc, k: string, v: Value)
    requires Unflattened(f, acc)
    requires k !in f
    requires forall k' :: k' in f ==> !(Split(k') <= Split(k)) && !(Split(k) <= Split(k'))
    ensures Unflatten(Split(k), v, acc).Ok?
    ensures Unflattened(f[k := v], Unflatten(Split(k), v, acc).value)
  {
    var path := Split(k);
    UnflattenFailsIff(path, v, acc);
    if Blocked(acc, path) {
      var i :| 0 < i < |path| && IsLeafPath(acc, path[..i]);
      var q := path[..i];
      assert q != [] && Defined(acc, q);
      var k' :| k' in f && (q <= Split(k') || Split(k') <= q);
      if q < Split(k') {
        AboveIsObject(Obj(acc), Split(k'), q);
      }
    }
    var u := Unflatten(path, v, acc).value;
    forall k' | k' in f[k := v] ensures Lookup(Obj(u), Split(k')) == Some(f[k := v][k']) {
      if k' != k {
        UnflattenPreserves(path, v, acc, Split(k'));
      }
    }
    forall p | p != [] && Defined(u, p)
      ensures exists k' :: k' in f[k := v] && (p <= Split(k') || Split(k') <= p)
    {
      UnflattenAddsOnlyPath(path, v, acc, p);
      if Defined(acc, p) {
        var k' :| k' in f && (p <= Split(k') || Split(k') <= p);
        assert k' in f[k := v];
      } else {
        assert k in f[k := v];
      }
    }
  }

  /**
   * Whatever order the keys of a conflict-free flat map are visited in,
   * unflattening them never panics and unflattens the keys visited.
   */
  lemma {:induction false} UnflattenAllNoConflict(inmap: Doc, ks: seq<string>)
    requires NoConflict(inmap)
    requires forall i :: 0 <= i < |ks| ==> ks[i] in inmap
    requires forall i, j :: 0 <= i < j < |ks| ==> ks[i] != ks[j]
    ensures UnflattenAll(inmap, ks).Ok?
    ensures Unflattened(Taken(inmap, ks), UnflattenAll(inmap, ks).value)
    decreases |ks|
  {
    if ks == [] {
      assert Taken(inmap, ks) == map[];
      forall p | p != [] ensures !Defined(map[], p) {
      }
    } else {
      var init, k := ks[..|ks| - 1], ks[|ks| - 1];
      assert ks == init + [k];
      UnflattenAllNoConflict(inmap, init);
      var acc := UnflattenAll(inmap, init).value;
      UnflattenAllSnoc(inmap, init, k, acc);
      TakenSnoc(inmap, init, k);
      TakenNoConflict(inmap, init, k);
      UnflattenExtends(Taken(inmap, init), acc, k, inmap[k]);
    }
  }

  /** Taking one more, new key adds its entry. */
  lemma TakenSnoc(inmap: Doc, ks: seq<string>, k: string)
    requires k in inmap && k !in ks
    ensures Taken(inmap, ks + [k]) == Taken(inmap, ks)[k := inmap[k]]
  {
    assert Taken(inmap, ks + [k]).Keys == Taken(inmap, ks).Keys + {k};
  }

  /** In a conflict-free map, a key not yet taken conflicts with none of those taken. */
  lemma TakenNoConflict(inmap: Doc, ks: seq<string>, k: string)
    requires NoConflict(inmap)
    requires k in inmap
    requires forall i :: 0 <= i < |ks| ==> ks[i] != k
    ensures k !in Taken(inmap, ks)
    ensures forall k' :: k' in Taken(inmap, ks) ==> !(Split(k') <= Split(k)) && !(Split(k) <= Split(k'))
  {
  }

  /** The first segments of the keys `ks`. */
  function Heads(ks: seq<string>): set<string> {
    set k | k in ks :: Split(k)[0]
  }

  /** One more key adds its first segment. */
  lemma HeadsSnoc(ks: seq<string>, k: string)
    ensures Heads(ks + [k]) == Heads(ks) + {Split(k)[0]}
  {
    forall h | h in Heads(ks + [k]) ensures h in Heads(ks) + {Split(k)[0]} {
      var x :| x in ks + [k] && Split(x)[0] == h;
      if x != k {
        assert x in ks;
      }
    }
    forall h | h in Heads(ks) ensures h in Heads(ks + [k]) {
      var x :| x in ks && Split(x)[0] == h;
      assert x in ks + [k];
    }
  }

  /** On success the top level holds exactly the first segments of the keys visited. */
  lemma {:induction false} UnflattenAllTopLevel(inmap: Doc, ks: seq<string>)
    requires forall i :: 0 <= i < |ks| ==> ks[i] in inmap
    requires UnflattenAll(inmap, ks).Ok?
    ensures UnflattenAll(inmap, ks).value.Keys == Heads(ks)
    decreases |ks|
  {
    if ks != [] {
      var init, k := ks[..|ks| - 1], ks[|ks| - 1];
      UnflattenAllTopLevel(inmap, init);
      HeadsSnoc(init, k);
      assert ks == init + [k];
    }
  }

  /** Visiting one more key continues from where the earlier keys left off. */
  lemma UnflattenAllSnoc(inmap: Doc, ks: seq<string>, k: string, acc: Doc)
    requires forall i :: 0 <= i < |ks| ==> ks[i] in inmap
    requires k in inmap
    requires UnflattenAll(inmap, ks) == Ok(acc)
    ensures UnflattenAll(inmap, ks + [k]) == Unflatten(Split(k), inmap[k], acc)
  {
    assert (ks + [k])[..|ks|] == ks;
  }

  /** Taking every key of a map gives the map. */
  lemma TakenAll(inmap: Doc, ks: seq<string>)
    requires forall k :: k in inmap ==> k in ks
    ensures Taken(inmap, ks) == inmap
  {
    assert Taken(inmap, ks).Keys == inmap.Keys;
  }

  /** When `ks` lists exactly the keys of `inmap`, its first segments are those of `inmap`'s keys. */
  lemma HeadsOfAll(inmap: Doc, ks: seq<string>)
    requires forall i :: 0 <= i < |ks| ==> ks[i] in inmap
    requires forall k :: k in inmap ==> k in ks
    ensures Heads(ks) == set k | k in inmap :: Split(k)[0]
  {
    forall x | x in Heads(ks) ensures x in (set k | k in inmap :: Split(k)[0]) {
      var k :| k in ks && Split(k)[0] == x;
    }
  }

  /** Once every key has been visited without a panic, the result is the whole map's. */
  lemma UnflattenAllComplete(inmap: Doc, ks: seq<string>)
    requires forall i :: 0 <= i < |ks| ==> ks[i] in inmap
    requires forall i, j :: 0 <= i < j < |ks| ==> ks[i] != ks[j]
    requires forall k :: k in inmap ==> k in ks
    requires UnflattenAll(inmap, ks).Ok?
    ensures UnflattenAll(inmap, ks).value.Keys == set k | k in inmap :: Split(k)[0]
    ensures NoConflict(inmap) ==> Unflattened(inmap, UnflattenAll(inmap, ks).value)
  {
    UnflattenAllTopLevel(inmap, ks);
    HeadsOfAll(inmap, ks);
    if NoConflict(inmap) {
      UnflattenAllNoConflict(inmap, ks);
      TakenAll(inmap, ks);
    }
  }

  /**
   * `UnflattenMap`: unflattens every key of a flat map into a fresh map, in
   * an unspecified order returned as `order`. It panics (`Err`) only where
   * the keys conflict; without conflicts it always succeeds, whatever the
   * order.
   */
  method UnflattenMap(inmap: Doc) returns (r: Result<Doc>, ghost order: seq<string>)
    ensures forall i :: 0 <= i < |order| ==> order[i] in inmap
    ensures forall i, j :: 0 <= i < j < |order| ==> order[i] != order[j]
    ensures r == UnflattenAll(inmap, order)
    ensures r.Ok? ==> forall k :: k in inmap ==> k in order
    ensures r.Ok? ==> r.value.Keys == set k | k in inmap :: Split(k)[0]
    ensures NoConflict(inmap) ==> r.Ok? && Unflattened(inmap, r.value)
  {
    var outmap: Doc := map[];
    var rest := inmap.Keys;
    order := [];
    while rest != {}
      invariant rest <= inmap.Keys
      invariant forall i :: 0 <= i < |order| ==> order[i] in inmap && order[i] !in rest
      invariant forall k :: k in inmap ==> k in rest || k in order
      invariant forall i, j :: 0 <= i < j < |order| ==> order[i] != order[j]
      invariant UnflattenAll(inmap, order) == Ok(outmap)
      decreases rest
    {
      var k :| k in rest;
      var res := Unflatten(Split(k), inmap[k], outmap);
      UnflattenAllSnoc(inmap, order, k, outmap);
      order := order + [k];
      if res.Err? {
        r := res;
        if NoConflict(inmap) {
          UnflattenAllNoConflict(inmap, order);
        }
        return;
      }
      outmap := res.value;
      rest := rest - {k};
    }
    r := Ok(outmap);
    UnflattenAllComplete(inmap, order);
  }
}
