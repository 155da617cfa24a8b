# flat: flattening and unflattening nested documents

This is a model of the `flat` Go package. The package turns a nested,
JSON-like document into a single-level map. Each key of that map is the
`"."`-joined path to a non-object value: `{"name": {"first_name": "John"}}`
becomes `{"name.first_name": "John"}`. The package also turns such a flat
map back into nested objects.

The model is written in Dafny and has six modules.

- `Keys` (`keys.dfy`) covers `newkey` and the `strings.Join` / `strings.Split`
  calls of `flatten` and `unflatten`.
  - `Join` and `Split` are `strings.Join` and `strings.Split` with the
    separator `"."`.
  - `NewKey` is `newkey` and `Join` is `strings.Join`. They are stated as
    functions without contracts of their own; `NewKeySplit`, `NewKeyDotted`,
    `SplitJoin` and `RootPathKeyIsJoin` carry what is proved about them.
  - `PathKey` folds `newkey` along a path.
  - The lemmas show that `Split` undoes the keys that flattening builds.
- `Document` (`document.dfy`) defines the value model: null, bool, number,
  string, array and object.
  - A document is a `map<string, Value>`.
  - `Lookup` follows a path through nested objects.
  - A leaf path leads to a value that is not an object.
- `Flattener` (`flattener.dfy`) covers `flatten` and `FlattenMap`.
  - `Flatten` is the recursive walk, written as a method with a loop over
    the keys that are still to be visited. Go visits map keys in an
    unspecified order, so the next key is picked with `:|` and every
    contract holds for every order.
  - The walk is specified by the set of (flat key, value) pairs it writes
    (`EntriesOf`).
  - `Overlays` says that those pairs are written into the output in some
    order, the last write winning.
  - `Flattened` states the result as a whole. Every leaf path's key is
    present, and every key holds the value of a leaf that produces it.
- `Unflattener` (`unflattener.dfy`) covers `unflatten` and `UnflattenMap`.
  - `Unflatten` is the recursive function over the segments of one key.
  - `UnflattenMap` is the loop over the flat map. It also returns, as a
    ghost value, the order it visited the keys in.
  - `UnflattenAll` is the fold over an explicit order. It is the
    specification the loop is proved against, so its properties are stated
    by `UnflattenMap`, `UnflattenAllNoConflict`, `UnflattenAllTopLevel`,
    `UnflattenAllSnoc` and `UnflattenAllComplete`.
  - `Unflattened` is the order-independent description of a correct result.
  - In Go, a segment that already holds a non-object makes the type
    assertion `vmap.(ResultMap)` panic. The model returns
    `Err(NotAnObject(segment))` instead.
- `RoundTrip` (`roundtrip.dfy`) proves that unflattening a flattening
  gives the document back. The document must be well formed: every key is
  non-empty and has no `"."`, and no nested object is empty.
- `Cases` (`cases.dfy`) states the expected results of the package's tests
  as lemmas. It also has small documents that show why each precondition
  of the round trip is needed.

## Model

| member | source | states |
|---|---|---|
| Keys.NewKeySplit | flat.go:84-92 | An empty prefix gives the key. An empty key gives the prefix. Two non-empty sides give `prefix + "." + key`, whose pieces are the pieces of the prefix followed by the pieces of the key. |
| Keys.NewKeyDotted | flat.go:91 | Two non-empty sides are joined with exactly one separator. |
| Keys.Split | flat.go:114 | `strings.Split` on `"."` always yields at least one piece. No piece contains the separator, and joining the pieces gives back the original string. |
| Keys.SplitConcat | flat.go:114 | Splitting `a + "." + b` gives the pieces of `a` followed by the pieces of `b`. |
| Keys.SplitJoin | flat.go:114 | Splitting the join of separator-free pieces gives back those pieces. |
| Keys.PathKeyJoin | flat.go:74 | Below a non-empty prefix, the key built along a path of segments is the prefix, a separator and the joined path. |
| Keys.SplitPathKey | flat.go:74 | Below a non-empty prefix, the key built along a path of segments splits into the prefix's pieces followed by the path. |
| Keys.SplitRootPathKey | flat.go:68 | From the empty prefix, the key built along a non-empty path of segments splits back into exactly that path. |
| Keys.RootPathKeyIsJoin | flat.go:68 | From the empty prefix, the key built along any path of segments, the empty one included, is the path joined with `"."`. |
| Keys.PathKeyInjective | flat.go:74 | Different paths of segments, the empty path included, get different flat keys. |
| Keys.RootPathKeyNonEmpty | flat.go:68 | From the empty prefix, a non-empty path of segments never gets the empty key. |
| Document.LeafPathsPrefixFree | flat.go:75-79 | Nothing is defined below a leaf, so one leaf path is never a proper prefix of another. |
| Document.LookupAppend | flat.go:72-82 | Looking up `p + q` means looking up `q` from where `p` leads. |
| Flattener.Flatten | flat.go:72-82 | The output is the input map with the pairs of every leaf below `inmap` written in: each key holds the leaf's value under `prefix` joined with its path, and all other keys are unchanged. Under a key written more than once, the value left is one of those written there, chosen key by key. |
| Flattener.FlattenMap | flat.go:66-70 | The result has a key for each leaf path, and each key holds a leaf value whose path gives that key. No value in the result is an object. When no two leaves collide, each leaf's key holds exactly that leaf's value. A document without nested objects comes back unchanged. |
| Flattener.LeafPathEntry | flat.go:75-79 | Every leaf below a value is written, under the key of its path. |
| Flattener.EntryLeafPath | flat.go:75-79 | Every pair written is a leaf below the value, under the key of its path. |
| Flattener.FlattenedByEntries | flat.go:66-70 | Writing all pairs of a document into an empty map yields its flattening. |
| Flattener.FlattenedIsOneLevel | flat.go:78-79 | A flattening holds no objects. |
| Flattener.FlattenedWithoutCollisions | flat.go:79 | Without collisions, every leaf (arrays included) sits unchanged under its path's key. |
| Flattener.FlattenedOneLevelDoc | flat.go:85-87 | A document with no nested objects flattens to itself. |
| Flattener.OverlaysCompose | flat.go:73 | Writing two batches of pairs in sequence writes their union. |
| Flattener.FlattenStep | flat.go:73-81 | After one more field is flattened, its pairs are added to those of the fields already done. |
| Unflattener.Unflatten | flat.go:120-132 | On success, the value is found at the path of segments. The top level gains the first segment and nothing else. |
| Unflattener.UnflattenFailsIff | flat.go:123-127 | The type assertion fails exactly when some segment before the last leads to a non-object. The error names the first such segment. |
| Unflattener.UnflattenPreserves | flat.go:123-128 | A successful call leaves unchanged every existing path that is neither on the way to the new key nor below it. Keys with a shared prefix are merged, not replaced. |
| Unflattener.UnflattenAddsOnlyPath | flat.go:120-132 | A successful call adds nothing off the path it writes. |
| Unflattener.UnflattenExtends | flat.go:115 | Adding a key that conflicts with none already stored never panics, and the result still unflattens the keys stored so far plus the new one. |
| Unflattener.UnflattenAllNoConflict | flat.go:113-116 | If no flat key's path is a prefix of another's, visiting the keys in any order never panics and unflattens every key visited. |
| Unflattener.UnflattenAllTopLevel | flat.go:113-116 | On success, the top-level keys are exactly the first segments of the keys visited. |
| Unflattener.UnflattenAllSnoc | flat.go:113-116 | Visiting one more key continues from the result of the earlier keys. |
| Unflattener.HeadsSnoc | flat.go:111-118 | One more key adds its first segment to the set of first segments. |
| Unflattener.UnflattenAllComplete | flat.go:111-118 | After every key is visited without a panic, the top level holds the first segments of all keys. Without conflicts, the result unflattens the whole map. |
| Unflattener.UnflattenMap | flat.go:111-118 | The keys visited are distinct keys of the map, listed in the order returned, and the result is the fold of `unflatten` over that order, stopping at the first panic. On success, every key was visited and the top level holds the first segments of all keys. Without conflicts, the call never panics and the result unflattens the whole map. |
| RoundTrip.WellFormedNoCollisions | flat.go:84-92 | When every key is a non-empty segment without `"."`, distinct leaves never share a flat key. |
| RoundTrip.FlattenedNoConflict | flat.go:114 | The flattening of a well-formed document has no conflicting keys, so unflattening it cannot panic. |
| RoundTrip.DeterminedByLeaves | flat.go:111-132 | A document without empty nested objects is determined by its leaves and the paths leading to them. |
| RoundTrip.RoundTrip | flat.go:111-132 | Any unflattening of the flattening of a well-formed document is that document. |
| RoundTrip.FlattenThenUnflatten | flat.go:66-70 | `UnflattenMap(FlattenMap(d))` succeeds and returns `d` for a well-formed document, whatever orders both loops visit keys in. |
| Cases.FlattenScalars | flat_test.go:15-22 | `{"number": 1.4567, "bool": true}` flattens to itself. |
| Cases.FlattenName | flat_test.go:25-34 | The nested `name` document flattens to `name.first_name` and `name.last_name`. |
| Cases.FlattenDeep | flat_test.go:37-52 | The deep document flattens to `a.b.d.e.c` and `a.c`. |
| Cases.UnflattenShared | flat_test.go:131-142 | Any unflattening of `{"a.b.c": "c", "a.c": "c"}` is the single merged object under `a`. |
| Cases.SharedKeysNoConflict | flat_test.go:131-134 | The keys `a.b.c` and `a.c` do not conflict, so unflattening them cannot panic. |
| Cases.UnflattenSharedMap | flat_test.go:145-150 | `UnflattenMap` of the test input returns `Ok` of the merged object, in every visiting order. |
| Cases.ConflictingKeys | flat.go:114 | The flat keys `"a"` and `"a.b"` conflict. |
| Cases.ConflictDependsOnOrder | flat.go:123-127 | Visiting `"a"` first makes `"a.b"` panic at segment `a`. Visiting `"a.b"` first lets `"a"` overwrite the object. |
| Cases.EmptyObjectVanishes | flat.go:75-79 | `{"a": {}}` flattens to the empty map, so empty nested objects cannot survive the round trip. |

## Left out

- `FlattenJSON` and `UnflattenJSON` (flat.go:21-36, 96-108) are not modelled. They only wrap the core in `encoding/json` decoding and encoding, which is outside the model; the documents here are already decoded.
- Numbers are float64 in Go and `real` here. Neither transformation looks inside a number, so numbers are opaque leaves.
- Go keeps two dynamic types apart: `map[string]interface{}`, produced by JSON decoding, and the named `ResultMap`, produced by `unflatten` (flat.go:76, 127). The model has a single `Obj` variant, which changes four cases.
  - A leaf value that is itself an object, stored by `UnflattenMap` and then reached by a longer key, is merged into in the model. When that value is a `map[string]interface{}`, as JSON decoding produces, Go's type assertion panics there instead. When it is a `ResultMap`, Go merges into it as the model does, but in place (see the next point).
  - An input value of `UnflattenMap` that is itself a `ResultMap` is stored by reference (flat.go:130). A longer key reaching it writes into the caller's own map (flat.go:127-128), so Go changes its input, and a `ResultMap` stored under two keys receives the writes of both. The model works on values: it computes the same merged result and leaves the input unchanged.
  - `UnflattenMap` builds nested `ResultMap`s, while a JSON-decoded document holds nested `map[string]interface{}` values. So in Go, `reflect.DeepEqual(UnflattenMap(FlattenMap(d)), d)` is false for a decoded `d` with a nested object. `RoundTrip.RoundTrip` and `RoundTrip.FlattenThenUnflatten` state the round trip up to that type name, with both map types seen as the same object.
  - A nested `ResultMap` value handed to `FlattenMap` is descended into in the model. Go's type switch would store it as a leaf.
- The doc comment of `FlattenMap` (flat.go:38-65) shows arrays of objects being flattened element by element. The code never descends into arrays; the model follows the code and keeps every array as a leaf.
- `FlattenMap`'s `error` result is always `nil` (flat.go:69), so the model does not return it.
- Go mutates the output maps in place. The model passes them by value and returns the updated map, so aliasing is not modelled. The output maps `FlattenMap` and `UnflattenMap` create are fresh, and `flatten` only writes into them. The one case where `unflatten` writes into a map the caller also holds, an input value that is a `ResultMap`, is described above.
- Go's map iteration order is unspecified. The model picks each next key by an unconstrained choice, and `UnflattenMap` returns the order it used as a ghost value. Which colliding leaf wins in `Flattener.Flatten` is therefore left open, key by key.
- Flattener.Flatten: the contract picks the winner of each colliding key on its own. It does not record that the writes of one field's subtree come one after another, so it also allows mixed outcomes the depth-first walk cannot produce. For example, `{"x": {"a.b": 1, "a.c": 2}, "x.a": {"b": 3, "c": 4}}` ends in Go with 1 and 2 or with 3 and 4 under `x.a.b` and `x.a.c`, while the contract also allows 1 and 4. Such keys collide only when a key contains `"."` or is empty (`newkey` drops an empty side, flat.go:85-90).
- `unflatten` panics when a conflicting key meets a non-object (the type assertion at flat.go:127). The model returns `Err(NotAnObject(segment))` there instead of modelling the panic.
- flat_test.go:58 binds a single result from `FlattenMap`, which returns two, so that test does not compile as written. `Cases.FlattenScalars`, `Cases.FlattenName` and `Cases.FlattenDeep` state the expected maps of its cases directly.
