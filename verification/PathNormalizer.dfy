/**
 * The lexical normalisation of SFTP paths (src/sftp.rs), on Unix, where a path has no prefix component.
 * A path that was normalised already is a sequence of names.
 */
module PathNormalizer {
  import opened Common

  type Name = string
  datatype Component = RootDir | CurDir | ParentDir | Normal(name: Name)
  datatype PathBuf = PathBuf(absolute: bool, names: seq<Name>)

  function Parent(dir: seq<Name>): seq<Name> {
    if dir == [] then [] else dir[..|dir| - 1]
  }

  /** The directory that one component leads to. */
  function Go(dir: seq<Name>, c: Component): seq<Name> {
    match c
    case RootDir => []
    case CurDir => dir
    case ParentDir => Parent(dir)
    case Normal(name) => dir + [name]
  }

  /** The directory that a path leads to. */
  function Walk(dir: seq<Name>, path: seq<Component>): seq<Name>
    decreases path
  {
    if path == [] then dir else Walk(Go(dir, path[0]), path[1..])
  }

  /** The path of a directory. */
  function ToDirectory(dir: seq<Name>): seq<Component> {
    seq(|dir|, i requires 0 <= i < |dir| => Normal(dir[i]))
  }

  /** Pushes and pops; a relative base that is popped empty becomes the root. */
  method NormalizePath(base: PathBuf, input: seq<Component>) returns (out: PathBuf)
    ensures out.names == Walk(base.names, input)
    ensures out.absolute <==> base.absolute || RootDir in input || out.names == []
  {
    out := base;
    var i := 0;
    while i < |input|
      invariant i <= |input|
      invariant Walk(base.names, input) == Walk(out.names, input[i..])
      invariant out.absolute <==> base.absolute || RootDir in input[..i]
    {
      assert input[i..][1..] == input[i + 1..] && input[..i + 1] == input[..i] + [input[i]];
      match input[i] {
        case RootDir => out := PathBuf(true, []);
        case CurDir =>
        case ParentDir => if out.names != [] { out := out.(names := out.names[..|out.names| - 1]); }
        case Normal(name) => out := out.(names := out.names + [name]);
      }
      i := i + 1;
    }
    assert input[..i] == input;
    if !out.absolute && out.names == [] {
      out := PathBuf(true, []);
    }
  }

  /** A path is resolved from the root if it is absolute, from the home directory otherwise. */
  method ResolvePath(home: seq<Name>, input: seq<Component>) returns (out: PathBuf)
    ensures out == PathBuf(true, Walk(home, input))
    ensures input != [] && input[0].RootDir? ==> out.names == Walk([], input[1..])
  {
    if input != [] && input[0].RootDir? {
      assert input == [] + [RootDir] + input[1..];
      RootStartsOver(home, [], input[1..]);
    }
    if input != [] && input[0].RootDir? {
      out := NormalizePath(PathBuf(true, []), input);
    } else {
      out := NormalizePath(PathBuf(true, home), input);
    }
  }

  // ---------------------------------------------------------------- composition

  /** Following `p` and then `q` is following both at once. */
  lemma {:induction false} WalkComposes(dir: seq<Name>, p: seq<Component>, q: seq<Component>)
    ensures Walk(dir, p + q) == Walk(Walk(dir, p), q)
    decreases p
  {
    if p == [] {
      assert p + q == q;
    } else {
      assert (p + q)[1..] == p[1..] + q;
      WalkComposes(Go(dir, p[0]), p[1..], q);
    }
  }

  /** What comes before a root has no say: an absolute path leads to one place from everywhere. */
  lemma RootStartsOver(dir: seq<Name>, p: seq<Component>, q: seq<Component>)
    ensures Walk(dir, p + [RootDir] + q) == Walk([], q)
  {
    WalkComposes(dir, p + [RootDir], q);
    WalkComposes(dir, p, [RootDir]);
  }

  /** A directory's own path leads there from the root: results are fixed points. */
  lemma {:induction false} DirectoriesAreFixed(dir: seq<Name>)
    ensures Walk([], ToDirectory(dir)) == dir
  {
    if dir != [] {
      var last := |dir| - 1;
      DirectoriesAreFixed(dir[..last]);
      assert ToDirectory(dir) == ToDirectory(dir[..last]) + [Normal(dir[last])];
      WalkComposes([], ToDirectory(dir[..last]), [Normal(dir[last])]);
    }
  }

  /** How far a path climbs out of where it starts. */
  function Climbs(path: seq<Component>): nat
    requires RootDir !in path
  {
    if path == [] then 0
    else
      var front := path[..|path| - 1];
      Climbs(front) + if path[|path| - 1].ParentDir? && Walk([], front) == [] then 1 else 0
  }

  function Climbed(dir: seq<Name>, n: nat): seq<Name> {
    dir[..Max(0, |dir| - n)]
  }

  lemma GoFromAnywhere(dir: seq<Name>, n: nat, down: seq<Name>, c: Component)
    requires !c.RootDir?
    ensures Go(Climbed(dir, n) + down, c) == Climbed(dir, if c.ParentDir? && down == [] then n + 1 else n) + Go(down, c)
  {
    var up := Climbed(dir, n);
    match c {
      case CurDir =>
      case Normal(name) => assert up + down + [name] == up + (down + [name]);
      case ParentDir =>
        if down == [] {
          assert up + down == up && Parent(up) == Climbed(dir, n + 1);
        } else {
          assert Parent(up + down) == up + Parent(down);
        }
    }
  }

  /** A path without a root drops as many names as it climbs and then goes down, wherever it starts. */
  lemma {:induction false} WalkFromAnywhere(dir: seq<Name>, path: seq<Component>)
    requires RootDir !in path
    ensures Walk(dir, path) == Climbed(dir, Climbs(path)) + Walk([], path)
  {
    if path != [] {
      var front, last := path[..|path| - 1], path[|path| - 1];
      assert path == front + [last];
      WalkFromAnywhere(dir, front);
      WalkComposes(dir, front, [last]);
      WalkComposes([], front, [last]);
      assert last in path;
      GoFromAnywhere(dir, Climbs(front), Walk([], front), last);
    }
  }

  // ---------------------------------------------------------------- cancelling in any order

  /** One cancellation: `.` goes, a name and the `..` behind it go, `..` at the root goes. */
  predicate Cancels(p: seq<Component>, q: seq<Component>, at: nat) {
    || (at < |p| && p[at].CurDir? && q == p[..at] + p[at + 1..])
    || (at + 1 < |p| && p[at].Normal? && p[at + 1].ParentDir? && q == p[..at] + p[at + 2..])
    || (at == 0 < |p| && p[0].ParentDir? && q == p[1..])
  }

  /** A run of cancellations, one after the other. */
  datatype Cancellations = Done | Then(at: nat, next: seq<Component>, rest: Cancellations)

  predicate Runs(p: seq<Component>, c: Cancellations)
    decreases c
  {
    c.Then? ==> Cancels(p, c.next, c.at) && Runs(c.next, c.rest)
  }

  function End(p: seq<Component>, c: Cancellations): seq<Component>
    decreases c
  {
    match c
    case Done => p
    case Then(_, next, rest) => End(next, rest)
  }

  /** Nothing is left to cancel. */
  ghost predicate Irreducible(p: seq<Component>) {
    forall q, at: nat :: !Cancels(p, q, at)
  }

  lemma CancellingKeeps(p: seq<Component>, q: seq<Component>, at: nat)
    requires Cancels(p, q, at)
    ensures Walk([], p) == Walk([], q)
  {
    if at < |p| && p[at].CurDir? {
      assert p == p[..at] + p[at..] && p[at..][1..] == p[at + 1..];
      WalkComposes([], p[..at], p[at..]);
      WalkComposes([], p[..at], p[at + 1..]);
    } else if at + 1 < |p| && p[at].Normal? {
      var dir := Walk([], p[..at]);
      assert p == p[..at] + p[at..] && p[at..][1..] == p[at + 1..] && p[at + 1..][1..] == p[at + 2..];
      WalkComposes([], p[..at], p[at..]);
      WalkComposes([], p[..at], p[at + 2..]);
      assert Parent(dir + [p[at].name]) == dir;
    }
  }

  /** The first component that is not a name can be cancelled. */
  lemma IrreduciblePathsAreDirectories(p: seq<Component>, i: nat)
    requires RootDir !in p && Irreducible(p) && i <= |p|
    ensures forall j | 0 <= j < i :: p[j].Normal?
    decreases i
  {
    if i > 0 {
      IrreduciblePathsAreDirectories(p, i - 1);
      if p[i - 1].CurDir? {
        assert Cancels(p, p[..i - 1] + p[i..], i - 1);
      } else if p[i - 1].ParentDir? && i == 1 {
        assert Cancels(p, p[1..], 0);
      } else if p[i - 1].ParentDir? {
        assert Cancels(p, p[..i - 2] + p[i..], i - 2);
      }
      assert p[i - 1] in p;
    }
  }

  lemma {:induction false} CancellationsKeep(p: seq<Component>, c: Cancellations)
    requires RootDir !in p && Runs(p, c)
    ensures RootDir !in End(p, c) && Walk([], p) == Walk([], End(p, c))
    decreases c
  {
    if c.Then? {
      CancellingKeeps(p, c.next, c.at);
      assert forall x | x in c.next :: x in p;
      CancellationsKeep(c.next, c.rest);
    }
  }

  /** In whatever order a path is cancelled, what is left in the end is the path of the normalised result. */
  lemma AnyOrderNormalizes(p: seq<Component>, c: Cancellations)
    requires RootDir !in p && Runs(p, c) && Irreducible(End(p, c))
    ensures End(p, c) == ToDirectory(Walk([], p))
  {
    var end := End(p, c);
    CancellationsKeep(p, c);
    IrreduciblePathsAreDirectories(end, |end|);
    var names := seq(|end|, i requires 0 <= i < |end| && end[i].Normal? => end[i].name);
    assert end == ToDirectory(names);
    DirectoriesAreFixed(names);
  }

  /** And some order gets there. */
  lemma {:induction false} SomeOrderNormalizes(p: seq<Component>) returns (c: Cancellations)
    requires RootDir !in p
    ensures Runs(p, c) && Irreducible(End(p, c))
    decreases |p|
  {
    if q: seq<Component>, at: nat :| Cancels(p, q, at) {
      assert forall x | x in q :: x in p;
      var rest := SomeOrderNormalizes(q);
      c := Then(at, q, rest);
    } else {
      c := Done;
    }
  }
}
