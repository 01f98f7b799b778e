/** Paths as Node's `path.join` builds them, and `homePath`, which places
    every file of the credential store under `<home directory>/.corebos`.

    A path is the list of its segments below the root, already normalised:
    `path.join` glues its arguments with '/', then drops empty and '.'
    segments and lets '..' remove the segment before it (never climbing
    above the root). Folding the segments one at a time from the left does
    exactly that, which is how `Walk` is written.
 */
module Paths {
  import opened Text

  type Path = seq<string>

  /** The home directory name of the store, `join(homedir(), '.corebos')`. */
  const StoreDir: string := ".corebos"

  /** A normalised segment: what `Walk` ever appends. */
  predicate IsSegment(seg: string) {
    seg != "" && seg != "." && seg != ".." && '/' !in seg
  }

  predicate Normal(p: Path) {
    forall i :: 0 <= i < |p| ==> IsSegment(p[i])
  }

  /** `s.split('/')` */
  function Split(s: string): (parts: seq<string>)
    ensures |parts| > 0
    ensures forall i :: 0 <= i < |parts| ==> '/' !in parts[i]
    decreases |s|
  {
    if |s| == 0 then [""]
    else if s[0] == '/' then [""] + Split(s[1..])
    else
      var rest := Split(s[1..]);
      [[s[0]] + rest[0]] + rest[1..]
  }

  function Step(p: Path, seg: string): Path {
    if seg == "" || seg == "." then p
    else if seg == ".." then (if |p| == 0 then p else p[..|p| - 1])
    else p + [seg]
  }

  function Walk(p: Path, segs: seq<string>): Path
    decreases |segs|
  {
    if |segs| == 0 then p else Walk(Step(p, segs[0]), segs[1..])
  }

  /** All the segments of `path.join`'s arguments, in order. */
  function SegmentsOf(parts: seq<string>): seq<string> {
    if |parts| == 0 then [] else Split(parts[0]) + SegmentsOf(parts[1..])
  }

  /** `path.join(base, ...parts)` for an absolute `base`. */
  function JoinAll(base: Path, parts: seq<string>): Path {
    Walk(base, SegmentsOf(parts))
  }

  function Join(base: Path, part: string): Path {
    JoinAll(base, [part])
  }

  /** A path given to `fs` by the operator: absolute when it starts with '/',
      otherwise relative to the working directory. */
  function Resolve(cwd: Path, s: string): Path {
    if StartsWith(s, "/") then Join([], s) else Join(cwd, s)
  }

  /** `homePath({})`: the store's base directory. */
  function Base(home: Path): Path {
    Join(home, StoreDir)
  }

  /** `homePath({file})`: a falsy `file` is filtered out of the join. */
  function HomePath(home: Path, file: string): (p: Path)
    ensures file == "" ==> p == Base(home)
    ensures file != "" ==> p == JoinAll(Base(home), [file])
  {
    JoinAll(Base(home), if file == "" then [] else [file])
  }

  lemma {:induction false} StepNormal(p: Path, seg: string)
    requires Normal(p) && '/' !in seg
    ensures Normal(Step(p, seg))
    ensures seg != "" && seg != "." && seg != ".." ==> Step(p, seg) == p + [seg]
  {
  }

  lemma {:induction false} WalkNormal(p: Path, segs: seq<string>)
    requires Normal(p)
    requires forall i :: 0 <= i < |segs| ==> '/' !in segs[i]
    ensures Normal(Walk(p, segs))
    decreases |segs|
  {
    if |segs| > 0 {
      StepNormal(p, segs[0]);
      WalkNormal(Step(p, segs[0]), segs[1..]);
    }
  }

  lemma {:induction false} WalkAppend(p: Path, a: seq<string>, b: seq<string>)
    ensures Walk(p, a + b) == Walk(Walk(p, a), b)
    decreases |a|
  {
    if |a| > 0 {
      assert (a + b)[0] == a[0];
      assert (a + b)[1..] == a[1..] + b;
      WalkAppend(Step(p, a[0]), a[1..], b);
    } else {
      assert a + b == b;
    }
  }

  lemma {:induction false} SegmentsOfAppend(a: seq<string>, b: seq<string>)
    ensures SegmentsOf(a + b) == SegmentsOf(a) + SegmentsOf(b)
    decreases |a|
  {
    if |a| > 0 {
      assert (a + b)[0] == a[0];
      assert (a + b)[1..] == a[1..] + b;
      SegmentsOfAppend(a[1..], b);
    } else {
      assert a + b == b;
    }
  }

  /** Joining in two steps is joining once: `join(join(x, ...a), ...b)` is
      `join(x, ...a, ...b)`. */
  lemma JoinAllAppend(base: Path, a: seq<string>, b: seq<string>)
    ensures JoinAll(base, a + b) == JoinAll(JoinAll(base, a), b)
  {
    SegmentsOfAppend(a, b);
    WalkAppend(base, SegmentsOf(a), SegmentsOf(b));
  }

  /** Joining a plain file name appends it as the last segment. */
  lemma JoinFileName(base: Path, name: string)
    requires IsSegment(name)
    ensures Join(base, name) == base + [name]
  {
    assert Split(name) == [name] by {
      SplitPlain(name);
    }
    assert SegmentsOf([name]) == [name];
    assert Walk(base, [name]) == Walk(Step(base, name), []);
  }

  /** A plain file name at the end of a join is the path's last segment. */
  lemma JoinEndsWith(base: Path, parts: seq<string>, name: string)
    requires IsSegment(name)
    ensures JoinAll(base, parts + [name]) == JoinAll(base, parts) + [name]
  {
    JoinAllAppend(base, parts, [name]);
    JoinFileName(JoinAll(base, parts), name);
  }

  lemma {:induction false} SplitPlain(s: string)
    requires '/' !in s
    ensures Split(s) == [s]
    decreases |s|
  {
    if |s| > 0 {
      SplitPlain(s[1..]);
      assert [s[0]] + s[1..] == s;
    }
  }

  /** The writer names a node's file `join(homePath({file: node}), name)`,
      the reader `join(homePath({}), node, name)`: they are the same path,
      whatever the node is called, including the empty name. */
  lemma WriterReaderPathsAgree(home: Path, node: string, name: string)
    ensures Join(HomePath(home, node), name) == JoinAll(HomePath(home, ""), [node, name])
  {
    if node == "" {
      assert Split("") == [""];
      assert SegmentsOf([node]) == [""];
      assert SegmentsOf([node, name]) == [""] + SegmentsOf([name]);
      assert Walk(Base(home), [""] + SegmentsOf([name])) == Walk(Base(home), SegmentsOf([name]));
      assert SegmentsOf([]) == [];
      assert HomePath(home, node) == Walk(Base(home), []) == Base(home);
    } else {
      JoinAllAppend(Base(home), [node], [name]);
      assert [node] + [name] == [node, name];
    }
  }
}
