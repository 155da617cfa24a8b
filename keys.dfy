/**
 * Flat keys: the `"."`-separated paths that `flatten` builds and `unflatten`
 * takes apart. `Join` and `Split` are Go's `strings.Join` and `strings.Split`
 * with the separator fixed to `"."`; `NewKey` is `newkey`.
 */
module Keys {

  /** The path separator. */
  const Sep: char := '.'

  /** A key that is a single path segment: not empty and without a separator. */
  predicate IsSegment(k: string) {
    k != "" && Sep !in k
  }

  /** `strings.Join(parts, ".")`. */
  function Join(parts: seq<string>): string
  {
    if |parts| == 0 then ""
    else if |parts| == 1 then parts[0]
    else parts[0] + [Sep] + Join(parts[1..])
  }

  /**
   * `strings.Split(s, ".")`: the pieces of `s` between separators. There is
   * always at least one piece (`Split("") == [""]`), no piece holds a
   * separator, and joining the pieces gives `s` back.
   */
  function Split(s: string): (parts: seq<string>)
    ensures |parts| >= 1
    ensures forall i :: 0 <= i < |parts| ==> Sep !in parts[i]
    ensures Join(parts) == s
  {
    if s == [] then [""]
    else
      var rest := Split(s[1..]);
      if s[0] == Sep then
        assert [s[0]] + Join(rest) == s;
        [""] + rest
      else
        var parts := [[s[0]] + rest[0]] + rest[1..];
        assert Join(parts) == [s[0]] + Join(rest) by {
          if |rest| > 1 {
            assert parts[1..] == rest[1..];
            assert [s[0]] + rest[0] + [Sep] + Join(rest[1..])
                == [s[0]] + (rest[0] + [Sep] + Join(rest[1..]));
          }
        }
        assert [s[0]] + s[1..] == s;
        parts
  }

  /** `newkey`: the key of `key` below `prefix`; an empty side is dropped. */
  function NewKey(prefix: string, key: string): string
  {
    if prefix == "" then key
    else if key == "" then prefix
    else Join([prefix, key])
  }

  /** The flat key `flatten` builds for `path` when it starts below `prefix`. */
  function PathKey(prefix: string, path: seq<string>): string
    decreases |path|
  {
    if path == [] then prefix else PathKey(NewKey(prefix, path[0]), path[1..])
  }

  /** Splitting at a separator splits each side on its own. */
  lemma {:induction false} SplitConcat(a: string, b: string)
    ensures Split(a + [Sep] + b) == Split(a) + Split(b)
  {
    if a == [] {
      assert a + [Sep] + b == [Sep] + b;
      assert ([Sep] + b)[1..] == b;
    } else {
      var s := a + [Sep] + b;
      assert s[0] == a[0];
      assert s[1..] == a[1..] + [Sep] + b;
      SplitConcat(a[1..], b);
    }
  }

  /** A single segment splits into itself. */
  lemma {:induction false} SplitSegment(k: string)
    requires Sep !in k
    ensures Split(k) == [k]
  {
    if k != [] {
      SplitSegment(k[1..]);
      assert [k[0]] + k[1..] == k;
    }
  }

  /** `Split` undoes `Join` whenever no piece holds a separator. */
  lemma {:induction false} SplitJoin(parts: seq<string>)
    requires |parts| >= 1
    requires forall i :: 0 <= i < |parts| ==> Sep !in parts[i]
    ensures Split(Join(parts)) == parts
  {
    SplitSegment(parts[0]);
    if |parts| > 1 {
      SplitJoin(parts[1..]);
      SplitConcat(parts[0], Join(parts[1..]));
      assert [parts[0]] + parts[1..] == parts;
    }
  }

  /** Two non-empty sides are joined with one separator. */
  lemma NewKeyDotted(prefix: string, key: string)
    requires prefix != "" && key != ""
    ensures NewKey(prefix, key) == prefix + [Sep] + key
  {
    assert Join([prefix, key]) == prefix + [Sep] + key;
  }

  /**
   * `newkey` keeps the other side when one side is empty, and otherwise
   * makes a key whose segments are those of the prefix followed by those
   * of the key.
   */
  lemma NewKeySplit(prefix: string, key: string)
    ensures prefix == "" ==> NewKey(prefix, key) == key
    ensures prefix != "" && key == "" ==> NewKey(prefix, key) == prefix
    ensures prefix != "" && key != "" ==>
      Split(NewKey(prefix, key)) == Split(prefix) + Split(key) &&
      NewKey(prefix, key) == prefix + [Sep] + key
  {
    if prefix != "" && key != "" {
      NewKeyDotted(prefix, key);
      SplitConcat(prefix, key);
    }
  }

  /** Below a non-empty prefix, the key built for a path of segments is the prefix and the joined path. */
  lemma {:induction false} PathKeyJoin(prefix: string, path: seq<string>)
    requires prefix != ""
    requires forall i :: 0 <= i < |path| ==> IsSegment(path[i])
    ensures PathKey(prefix, path) == if path == [] then prefix else prefix + [Sep] + Join(path)
    decreases |path|
  {
    if path != [] {
      var k, tail := path[0], path[1..];
      var nk := prefix + [Sep] + k;
      assert IsSegment(path[0]);
      NewKeyDotted(prefix, k);
      assert forall i :: 0 <= i < |tail| ==> IsSegment(tail[i]) by {
        forall i | 0 <= i < |tail| ensures IsSegment(tail[i]) {
          assert tail[i] == path[i + 1];
        }
      }
      PathKeyJoin(nk, tail);
      if tail != [] {
        assert nk + [Sep] + Join(tail) == prefix + [Sep] + (k + [Sep] + Join(tail));
      }
    }
  }

  /**
   * The key built for a path of segments below a non-empty prefix splits
   * into the prefix's segments followed by the path.
   */
  lemma SplitPathKey(prefix: string, path: seq<string>)
    requires prefix != ""
    requires forall i :: 0 <= i < |path| ==> IsSegment(path[i])
    ensures Split(PathKey(prefix, path)) == Split(prefix) + path
  {
    PathKeyJoin(prefix, path);
    if path != [] {
      SplitConcat(prefix, Join(path));
      SplitJoin(path);
    }
  }

  /** The key built for a non-empty path of segments from the root splits back into that path. */
  lemma SplitRootPathKey(path: seq<string>)
    requires |path| >= 1
    requires forall i :: 0 <= i < |path| ==> IsSegment(path[i])
    ensures Split(PathKey("", path)) == path
  {
    assert PathKey("", path) == PathKey(path[0], path[1..]);
    SplitPathKey(path[0], path[1..]);
    SplitSegment(path[0]);
    assert [path[0]] + path[1..] == path;
  }

  /** From the root, a non-empty path of segments never gets the empty key. */
  lemma RootPathKeyNonEmpty(path: seq<string>)
    requires |path| >= 1
    requires forall i :: 0 <= i < |path| ==> IsSegment(path[i])
    ensures PathKey("", path) != ""
  {
    SplitRootPathKey(path);
    assert IsSegment(path[0]);
  }

  /** Distinct paths of segments from the root get distinct flat keys. */
  lemma PathKeyInjective(p: seq<string>, q: seq<string>)
    requires forall i :: 0 <= i < |p| ==> IsSegment(p[i])
    requires forall i :: 0 <= i < |q| ==> IsSegment(q[i])
    requires PathKey("", p) == PathKey("", q)
    ensures p == q
  {
    if p != [] {
      RootPathKeyNonEmpty(p);
      SplitRootPathKey(p);
    }
    if q != [] {
      RootPathKeyNonEmpty(q);
      SplitRootPathKey(q);
    }
  }

  /** From the root, the key built for a path of segments is the path joined with separators. */
  lemma RootPathKeyIsJoin(path: seq<string>)
    requires forall i :: 0 <= i < |path| ==> IsSegment(path[i])
    ensures PathKey("", path) == Join(path)
  {
    if path != [] {
      SplitRootPathKey(path);
    }
  }
}
