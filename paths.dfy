/** The shell's filesystem helpers (components/Terminal.tsx): `getNode`, which walks the
    in-memory tree from its root, and `resolvePath`, which turns a relative path into an
    absolute one against the current directory. */
module Paths {
  import opened Strings
  import opened Types

  /** A piece of a path between two slashes that names something: non-empty, no `/`. */
  predicate IsSegment(s: string) {
    s != "" && '/' !in s
  }

  /** A segment the resolver keeps on its stack: not `.` and not `..`. */
  predicate IsName(s: string) {
    IsSegment(s) && s != "." && s != ".."
  }

  predicate AllNames(segs: seq<string>) {
    forall i :: 0 <= i < |segs| ==> IsName(segs[i])
  }

  /** `parts.filter(p => p)`. */
  function NonEmpty(parts: seq<string>): (r: seq<string>)
    ensures forall i :: 0 <= i < |r| ==> r[i] != "" && r[i] in parts
  {
    if parts == [] then []
    else (if parts[0] == "" then [] else [parts[0]]) + NonEmpty(parts[1..])
  }

  /** `path.split('/').filter(p => p)`: empty pieces (repeated, leading or trailing slashes) vanish. */
  function Segments(path: string): (segs: seq<string>)
    ensures forall i :: 0 <= i < |segs| ==> IsSegment(segs[i])
  {
    NonEmpty(Split(path, '/'))
  }

  /** A tree whose directories hold entries with usable, pairwise distinct names, as the keys
      of an object are. */
  predicate WellFormed(node: Node) {
    match node
    case File(_) => true
    case Dir(entries) =>
      && (forall j, k :: 0 <= j < k < |entries| ==> entries[j].0 != entries[k].0)
      && (forall j :: 0 <= j < |entries| ==> IsName(entries[j].0) && WellFormed(entries[j].1))
  }

  /** `contents[name]` on an association list: the first entry of that name. */
  function Find(entries: seq<(string, Node)>, name: string): (r: Option<Node>)
    ensures r.Some? ==> (name, r.value) in entries
    ensures r.None? <==> forall i :: 0 <= i < |entries| ==> entries[i].0 != name
  {
    if entries == [] then None
    else if entries[0].0 == name then Some(entries[0].1)
    else Find(entries[1..], name)
  }

  /** One step down: the entry `name` of a directory; nothing below a file or a missing node. */
  function Child(node: Option<Node>, name: string): Option<Node> {
    if node.Some? && node.value.Dir? then Find(node.value.entries, name) else None
  }

  /** Successive entry lookups from `node`, failing on a missing entry or on a file. */
  function Walk(node: Node, segs: seq<string>): Option<Node>
  {
    if segs == [] then Some(node)
    else match Child(Some(node), segs[0])
      case None => None
      case Some(next) => Walk(next, segs[1..])
  }

  lemma {:induction false} WalkOne(node: Node, name: string)
    ensures Walk(node, [name]) == Child(Some(node), name)
  {
    match Child(Some(node), name) {
      case None =>
      case Some(next) => assert Walk(next, []) == Some(next);
    }
  }

  /** `getNode(path)` on the tree whose root is `root`. */
  function Lookup(root: Node, path: string): Option<Node> {
    Walk(root, Segments(path))
  }

  /** `getNode`, iteratively: `currentNode` descends one segment per turn of the loop. */
  method GetNode(root: Node, path: string) returns (r: Option<Node>)
    ensures r == Lookup(root, path)
  {
    var parts := Segments(path);
    var current := root;
    for i := 0 to |parts|
      invariant Walk(current, parts[i..]) == Walk(root, parts)
    {
      assert parts[i..][1..] == parts[i + 1..];
      var next := Child(Some(current), parts[i]);
      if next.None? {
        return None;
      }
      current := next.value;
    }
    return Some(current);
  }

  /** One turn of `resolvePath`'s loop: `..` pops (a no-op on the empty stack), empty pieces
      and `.` are dropped, anything else is pushed. */
  function Push(stack: seq<string>, part: string): seq<string> {
    if part == ".." then (if stack == [] then [] else stack[..|stack| - 1])
    else if part != "" && part != "." then stack + [part]
    else stack
  }

  function Normalize(stack: seq<string>, parts: seq<string>): seq<string>
    decreases |parts|
  {
    if parts == [] then stack else Normalize(Push(stack, parts[0]), parts[1..])
  }

  /** `'/' + segs.join('/')`. */
  function PathOf(segs: seq<string>): string {
    "/" + Join(segs, "/")
  }

  /** The segments of an absolute path that starts with `/`: `split('/')` without the leading empty piece. */
  function CanonSegs(p: string): seq<string>
    requires |p| >= 1
  {
    if p == "/" then [] else Split(p[1..], '/')
  }

  /** An absolute path with no empty, `.` or `..` segment, and no trailing slash. */
  predicate Canonical(p: string) {
    |p| >= 1 && p[0] == '/' && (p == "/" || AllNames(CanonSegs(p)))
  }

  /** A path the shell can stand in: absolute, every non-empty piece between slashes a name.
      Repeated and trailing slashes are allowed, since `cd` keeps an absolute argument as it
      is typed (`cd /home/` leaves `/home/`). */
  predicate DirPath(p: string) {
    |p| >= 1 && p[0] == '/' && AllNames(Segments(p))
  }

  /** `resolvePath(path)` with `currentDirectory` equal to `cwd`. */
  function Resolve(cwd: string, path: string): (r: string)
    ensures |r| >= 1 && r[0] == '/'
    ensures StartsWith(path, "/") ==> r == path
    ensures !StartsWith(path, "/") ==> Canonical(r)
  {
    if StartsWith(path, "/") then path
    else
      var parts := Split(if cwd == "/" then "" else cwd, '/') + Split(path, '/');
      NormalizeNames([], parts);
      CanonicalPathOf(Normalize([], parts));
      PathOf(Normalize([], parts))
  }

  /** `resolvePath`, iteratively. */
  method ResolvePath(cwd: string, path: string) returns (r: string)
    ensures r == Resolve(cwd, path)
  {
    if StartsWith(path, "/") {
      return path;
    }
    var resolved := ResolveParts(Split(if cwd == "/" then "" else cwd, '/') + Split(path, '/'));
    return "/" + Join(resolved, "/");
  }

  /** The loop of `resolvePath`: the `resolved` stack is pushed and popped part by part. */
  method ResolveParts(parts: seq<string>) returns (resolved: seq<string>)
    ensures resolved == Normalize([], parts)
  {
    resolved := [];
    for i := 0 to |parts|
      invariant Normalize(resolved, parts[i..]) == Normalize([], parts)
    {
      assert parts[i..][0] == parts[i] && parts[i..][1..] == parts[i + 1..];
      ghost var pushed := Push(resolved, parts[i]);
      assert Normalize(resolved, parts[i..]) == Normalize(pushed, parts[i + 1..]);
      if parts[i] == ".." {
        if resolved != [] {
          resolved := resolved[..|resolved| - 1];
        }
      } else if parts[i] != "" && parts[i] != "." {
        resolved := resolved + [parts[i]];
      }
      assert resolved == pushed;
    }
  }

  // ----- lemmas -----

  /** What `filter(p => p)` keeps of one piece. */
  function Kept(part: string): seq<string> {
    if part == "" then [] else [part]
  }

  lemma {:induction false} NonEmptyCons(part: string, rest: seq<string>)
    ensures NonEmpty([part] + rest) == Kept(part) + NonEmpty(rest)
  {
    assert ([part] + rest)[1..] == rest;
  }

  lemma {:induction false} NonEmptyAppend(a: seq<string>, b: seq<string>)
    ensures NonEmpty(a + b) == NonEmpty(a) + NonEmpty(b)
    decreases |a|
  {
    if a != [] {
      assert a == [a[0]] + a[1..];
      assert a + b == [a[0]] + (a[1..] + b);
      NonEmptyCons(a[0], a[1..] + b);
      NonEmptyCons(a[0], a[1..]);
      NonEmptyAppend(a[1..], b);
      assert Kept(a[0]) + (NonEmpty(a[1..]) + NonEmpty(b)) == (Kept(a[0]) + NonEmpty(a[1..])) + NonEmpty(b);
    } else {
      assert a + b == b;
    }
  }

  lemma {:induction false} NonEmptyOfNames(segs: seq<string>)
    requires forall i :: 0 <= i < |segs| ==> segs[i] != ""
    ensures NonEmpty(segs) == segs
    decreases |segs|
  {
    if segs != [] {
      NonEmptyOfNames(segs[1..]);
      assert [segs[0]] + segs[1..] == segs;
    }
  }

  /** The stack only ever holds names, given parts free of `/`. */
  lemma {:induction false} NormalizeNames(stack: seq<string>, parts: seq<string>)
    requires AllNames(stack)
    requires forall i :: 0 <= i < |parts| ==> '/' !in parts[i]
    ensures AllNames(Normalize(stack, parts))
    decreases |parts|
  {
    if parts != [] {
      NormalizeNames(Push(stack, parts[0]), parts[1..]);
    }
  }

  lemma {:induction false} NormalizeAppend(stack: seq<string>, a: seq<string>, b: seq<string>)
    ensures Normalize(stack, a + b) == Normalize(Normalize(stack, a), b)
    decreases |a|
  {
    if a != [] {
      assert (a + b)[0] == a[0] && (a + b)[1..] == a[1..] + b;
      assert Normalize(stack, a + b) == Normalize(Push(stack, a[0]), a[1..] + b);
      NormalizeAppend(Push(stack, a[0]), a[1..], b);
    } else {
      assert a + b == b;
    }
  }

  /** Names are pushed one by one: normalising an already normal path changes nothing. */
  lemma {:induction false} NormalizeOfNames(stack: seq<string>, segs: seq<string>)
    requires AllNames(segs)
    ensures Normalize(stack, segs) == stack + segs
    decreases |segs|
  {
    if segs != [] {
      NormalizeOfNames(stack + [segs[0]], segs[1..]);
      assert stack + [segs[0]] + segs[1..] == stack + segs;
    }
  }

  lemma {:induction false} CanonicalPathOf(segs: seq<string>)
    requires AllNames(segs)
    ensures Canonical(PathOf(segs))
    ensures CanonSegs(PathOf(segs)) == segs
  {
    var p := PathOf(segs);
    assert p[1..] == Join(segs, "/");
    if segs == [] {
      assert p == "/";
    } else {
      assert Join(segs, "/") != "" by {
        if |segs| > 1 {
          assert Join(segs, "/") == segs[0] + "/" + Join(segs[1..], "/");
        }
      }
      SplitJoin(segs, '/');
    }
  }

  /** The segments `getNode` walks through on a canonical path are its own segments. */
  lemma {:induction false} SegmentsOfCanonical(p: string)
    requires Canonical(p)
    ensures Segments(p) == CanonSegs(p)
  {
    if p == "/" {
      assert Split(p, '/') == [""] + Split("", '/');
      assert Split(p, '/') == [""] + [""];
      NonEmptyCons("", [""]);
      NonEmptyCons("", []);
      assert [""] == [""] + [];
    } else {
      assert Split(p, '/') == [""] + Split(p[1..], '/');
      NonEmptyOfNames(CanonSegs(p));
    }
  }

  /** A canonical path is rebuilt from its segments. */
  lemma {:induction false} PathOfCanonSegs(p: string)
    requires Canonical(p)
    ensures PathOf(CanonSegs(p)) == p
  {
    if p != "/" {
      JoinSplit(p[1..], '/');
    }
  }

  /** Relative input from a canonical directory is the directory's segments, then the input's
      pieces pushed and popped on top of them. */
  lemma {:induction false} ResolveRelative(cwd: string, path: string)
    requires Canonical(cwd) && !StartsWith(path, "/")
    ensures Resolve(cwd, path) == PathOf(Normalize(CanonSegs(cwd), Split(path, '/')))
  {
    var segs := CanonSegs(cwd);
    var head := Split(if cwd == "/" then "" else cwd, '/');
    assert head == [""] + segs by {
      if cwd != "/" {
        assert Split(cwd, '/') == [""] + Split(cwd[1..], '/');
      }
    }
    NormalizeAppend([], head, Split(path, '/'));
    NormalizeAppend([], [""], segs);
    assert Normalize([], [""]) == [] by {
      assert Normalize([], [""]) == Normalize(Push([], ""), []);
    }
    NormalizeOfNames([], segs);
    assert [] + segs == segs;
  }

  /** Empty pieces are skipped: normalising sees only the non-empty ones. */
  lemma {:induction false} NormalizeSkipsEmpty(stack: seq<string>, parts: seq<string>)
    ensures Normalize(stack, parts) == Normalize(stack, NonEmpty(parts))
    decreases |parts|
  {
    if parts != [] {
      var p := parts[0];
      var r := parts[1..];
      assert [p] + r == parts;
      NonEmptyCons(p, r);
      NormalizeSkipsEmpty(Push(stack, p), r);
      if p != "" {
        var q := [p] + NonEmpty(r);
        assert q[0] == p && q[1..] == NonEmpty(r);
      } else {
        assert Kept(p) + NonEmpty(r) == NonEmpty(r);
      }
    }
  }

  /** Pieces that are empty or names: the stack gains exactly the names, in order. */
  lemma {:induction false} NormalizeKept(stack: seq<string>, parts: seq<string>)
    requires AllNames(NonEmpty(parts))
    ensures Normalize(stack, parts) == stack + NonEmpty(parts)
  {
    NormalizeSkipsEmpty(stack, parts);
    NormalizeOfNames(stack, NonEmpty(parts));
  }

  /** Relative input from any directory path is the directory's segments, then the input's
      pieces pushed and popped on top of them: the empty pieces of the directory vanish. */
  lemma {:induction false} ResolveFrom(cwd: string, path: string)
    requires DirPath(cwd) && !StartsWith(path, "/")
    ensures Resolve(cwd, path) == PathOf(Normalize(Segments(cwd), Split(path, '/')))
  {
    var head := Split(if cwd == "/" then "" else cwd, '/');
    assert NonEmpty(head) == Segments(cwd) by {
      if cwd == "/" {
        LookupSlashesOnly(Dir([]), cwd);
        assert head == [""];
        NonEmptyCons("", []);
      }
    }
    NormalizeAppend([], head, Split(path, '/'));
    NormalizeKept([], head);
    assert [] + Segments(cwd) == Segments(cwd);
  }

  /** A canonical path is a directory path whose segments are its own. */
  lemma {:induction false} CanonicalDirPath(p: string)
    requires Canonical(p)
    ensures DirPath(p) && Segments(p) == CanonSegs(p)
  {
    SegmentsOfCanonical(p);
  }

  /** The pieces of a walk that reaches a node of a well-formed tree are names. */
  lemma {:induction false} WalkNames(node: Node, segs: seq<string>)
    requires WellFormed(node) && Walk(node, segs).Some?
    ensures AllNames(segs)
    decreases |segs|
  {
    if segs != [] {
      var next := Child(Some(node), segs[0]).value;
      var j :| 0 <= j < |node.entries| && node.entries[j] == (segs[0], next);
      WalkNames(next, segs[1..]);
      forall k | 0 <= k < |segs|
        ensures IsName(segs[k])
      {
        if k > 0 {
          assert segs[k] == segs[1..][k - 1];
        }
      }
    }
  }

  /** Every absolute path that leads to a node of a well-formed tree is a directory path, so
      every directory `cd` can move to is one. */
  lemma {:induction false} ReachedDirPath(root: Node, p: string)
    requires WellFormed(root) && |p| >= 1 && p[0] == '/' && Lookup(root, p).Some?
    ensures DirPath(p)
  {
    WalkNames(root, Segments(p));
  }

  /** `..` pops one segment; at the root it is a no-op. */
  lemma {:induction false} ResolveParent(cwd: string)
    requires DirPath(cwd)
    ensures var segs := Segments(cwd);
            Resolve(cwd, "..") == PathOf(if segs == [] then [] else segs[..|segs| - 1])
  {
    assert ".."[..1][0] == '.';
    ResolveFrom(cwd, "..");
    SplitNoSeparator("..", '/');
  }

  /** `.` and the empty path resolve to the current directory itself. */
  lemma {:induction false} ResolveSelf(cwd: string)
    requires Canonical(cwd)
    ensures Resolve(cwd, ".") == cwd && Resolve(cwd, "") == cwd
  {
    assert "."[..1][0] == '.';
    ResolveRelative(cwd, ".");
    ResolveRelative(cwd, "");
    SplitNoSeparator(".", '/');
    PathOfCanonSegs(cwd);
  }

  /** Below a directory other than the root, the path of an entry is the directory's path, a
      slash and the entry's name. */
  lemma {:induction false} PathOfAppend(p: string, name: string)
    requires Canonical(p) && p != "/"
    ensures PathOf(CanonSegs(p) + [name]) == p + "/" + name
  {
    PathOfCanonSegs(p);
    JoinSnoc(CanonSegs(p), name, "/");
  }

  /** A name relative to a directory path resolves to that directory's child path. */
  lemma {:induction false} ResolveName(cwd: string, name: string)
    requires DirPath(cwd) && IsName(name)
    ensures Resolve(cwd, name) == PathOf(Segments(cwd) + [name])
  {
    assert name[0] in name;
    ResolveFrom(cwd, name);
    SplitNoSeparator(name, '/');
  }

  /** `n` copies of `../`. */
  function Ups(n: nat): string {
    if n == 0 then "" else "../" + Ups(n - 1)
  }

  function Dots(n: nat): seq<string> {
    if n == 0 then [] else [".."] + Dots(n - 1)
  }

  lemma {:induction false} SplitUps(n: nat, name: string)
    requires IsName(name)
    ensures Split(Ups(n) + name, '/') == Dots(n) + [name]
  {
    if n == 0 {
      SplitNoSeparator(name, '/');
      assert Ups(0) + name == name;
    } else {
      SplitUps(n - 1, name);
      assert Ups(n) + name == ".." + ['/'] + (Ups(n - 1) + name);
      SplitAtSeparator("..", Ups(n - 1) + name, '/');
      SplitNoSeparator("..", '/');
    }
  }

  lemma {:induction false} NormalizeDotsAtRoot(n: nat)
    ensures Normalize([], Dots(n)) == []
  {
    if n > 0 {
      NormalizeDotsAtRoot(n - 1);
    }
  }

  /** Ascending past the root leaves no trace: from `/`, any number of `../` before a name
      resolves to that name directly under the root. */
  lemma {:induction false} ClampAtRoot(n: nat, name: string)
    requires IsName(name)
    ensures Resolve("/", Ups(n) + name) == "/" + name
  {
    var p := Ups(n) + name;
    assert p[0] == '/' ==> false by {
      if n == 0 { assert p == name && p[0] in name; }
    }
    SplitUps(n, name);
    ResolveRelative("/", p);
    NormalizeAppend([], Dots(n), [name]);
    NormalizeDotsAtRoot(n);
    assert Normalize([], [name]) == Normalize([name], []);
  }

  /** From `/`, `../../../x` is `/x`. */
  lemma {:induction false} DotDotClamps()
    ensures Resolve("/", "../../../x") == "/x"
  {
    assert Ups(3) + "x" == "../../../x";
    ClampAtRoot(3, "x");
  }

  /** Resolving an already resolved path returns it unchanged. */
  lemma {:induction false} ResolveIdempotent(cwd: string, path: string)
    ensures Resolve(cwd, Resolve(cwd, path)) == Resolve(cwd, path)
  {
  }

  lemma {:induction false} WalkAppend(node: Node, a: seq<string>, b: seq<string>)
    ensures Walk(node, a + b) == (match Walk(node, a) case None => None case Some(n) => Walk(n, b))
    decreases |a|
  {
    if a != [] {
      assert (a + b)[0] == a[0] && (a + b)[1..] == a[1..] + b;
      match Child(Some(node), a[0])
      case None =>
      case Some(next) => WalkAppend(next, a[1..], b);
    } else {
      assert a + b == b;
    }
  }

  /** A path made of slashes only (`/`, `//`, the empty path) names the root. */
  lemma {:induction false} LookupSlashesOnly(root: Node, path: string)
    requires forall i :: 0 <= i < |path| ==> path[i] == '/'
    ensures Segments(path) == [] && Lookup(root, path) == Some(root)
    decreases |path|
  {
    if path != [] {
      LookupSlashesOnly(root, path[1..]);
      assert Split(path, '/') == [""] + Split(path[1..], '/');
    }
  }

  /** Appending `/name` to any path takes one more step: into the entry `name` of a directory,
      and to nothing from a file or a missing node. */
  lemma {:induction false} LookupAppend(root: Node, path: string, name: string)
    requires IsSegment(name)
    ensures Lookup(root, path + "/" + name) == Child(Lookup(root, path), name)
  {
    SplitAtSeparator(path, name, '/');
    SplitNoSeparator(name, '/');
    assert path + "/" + name == path + ['/'] + name;
    NonEmptyAppend(Split(path, '/'), [name]);
    WalkAppend(root, Segments(path), [name]);
  }

  /** `.` from a directory path reaches what the directory path itself reaches. */
  lemma {:induction false} LookupSelf(root: Node, cwd: string)
    requires DirPath(cwd)
    ensures Lookup(root, Resolve(cwd, ".")) == Lookup(root, cwd)
  {
    assert "."[..1][0] == '.';
    ResolveFrom(cwd, ".");
    SplitNoSeparator(".", '/');
    assert Normalize(Segments(cwd), ["."]) == Segments(cwd);
    LookupPathOf(root, Segments(cwd));
  }

  /** The segments of a name resolved against a directory path: the directory's, then the name. */
  lemma {:induction false} SegmentsOfChild(cwd: string, name: string)
    requires DirPath(cwd) && IsName(name)
    ensures Segments(Resolve(cwd, name)) == Segments(cwd) + [name]
  {
    var segs := Segments(cwd);
    ResolveName(cwd, name);
    assert AllNames(segs + [name]);
    CanonicalPathOf(segs + [name]);
    SegmentsOfCanonical(PathOf(segs + [name]));
  }

  /** An entry listed in a directory reached through a directory path is reached again through
      the path resolved from that directory and the entry's name. */
  lemma {:induction false} ResolveThenLookup(root: Node, cwd: string, name: string)
    requires DirPath(cwd) && IsName(name)
    ensures Lookup(root, Resolve(cwd, name)) == Child(Lookup(root, cwd), name)
  {
    var segs := Segments(cwd);
    assert Lookup(root, cwd) == Walk(root, segs);
    SegmentsOfChild(cwd, name);
    assert Lookup(root, Resolve(cwd, name)) == Walk(root, segs + [name]);
    WalkAppend(root, segs, [name]);
    match Walk(root, segs) {
      case None =>
      case Some(n) => WalkOne(n, name);
    }
  }

  /** With distinct names, `Find` returns the node stored under the name. */
  lemma {:induction false} FindDistinct(entries: seq<(string, Node)>, i: nat)
    requires i < |entries|
    requires forall j, k :: 0 <= j < k < |entries| ==> entries[j].0 != entries[k].0
    ensures Find(entries, entries[i].0) == Some(entries[i].1)
    decreases i
  {
    if i > 0 {
      FindDistinct(entries[1..], i - 1);
    }
  }

  /** A path built from names leads exactly where the walk through those names leads. */
  lemma {:induction false} LookupPathOf(root: Node, segs: seq<string>)
    requires AllNames(segs)
    ensures Canonical(PathOf(segs))
    ensures Lookup(root, PathOf(segs)) == Walk(root, segs)
  {
    CanonicalPathOf(segs);
    SegmentsOfCanonical(PathOf(segs));
  }
}
