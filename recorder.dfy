/** The build step (`BinaryDeployerRecorder`): flattens the artifact tree
    into the list of Binaries to deploy, naming each leaf under its
    directory path or, with `flatten`, by its own name alone. */
module Recorder {
  import W = Wrappers
  import opened Strings
  import opened Files
  import opened Binaries
  import opened Http
  import opened HttpBackend

  /** The parent name passed down when the traversal enters directory
      `dirName` from parent name `parentName`. */
  function ChildPrefix(parentName: string, dirName: string, flatten: bool): (p: string)
    ensures flatten ==> p == parentName
    ensures !flatten ==>
              parentName <= p && IsSuffix(dirName, p)
              && |p| == |parentName| + (if parentName == "" then 0 else 1) + |dirName|
    ensures !flatten && parentName != "" ==> p[|parentName|] == '/'
  {
    if flatten then parentName
    else (if parentName == "" then parentName else parentName + "/") + dirName
  }

  /** What `crossDirectories(files, parentName)` returns: Binaries of
      leaves only, never of a directory. */
  function Flatten(files: seq<Node>, parentName: string, flatten: bool): (r: seq<Binary>)
    ensures forall b :: b in r ==> b.file.Leaf?
    decreases files
  {
    if files == [] then []
    else
      (match files[0]
       case Leaf(_) => [NamedUnder(files[0], parentName)]
       case Dir(name, children) => Flatten(children, ChildPrefix(parentName, name, flatten), flatten))
      + Flatten(files[1..], parentName, flatten)
  }

  // ---------------------------------------------------------------------
  // Root-to-leaf paths: the reference the flattening is measured against.

  /** A leaf with the names of the directories that lead to it. */
  datatype LeafPath = LeafPath(dirs: seq<string>, leaf: Node)

  /** The same paths, one directory further down. */
  function Under(dir: string, paths: seq<LeafPath>): (r: seq<LeafPath>)
    ensures |r| == |paths|
  {
    seq(|paths|, i requires 0 <= i < |paths| => LeafPath([dir] + paths[i].dirs, paths[i].leaf))
  }

  /** Every root-to-leaf path under `files`, depth-first, in enumeration
      order. */
  function LeafPaths(files: seq<Node>): (r: seq<LeafPath>)
    decreases files
  {
    if files == [] then []
    else
      (match files[0]
       case Leaf(_) => [LeafPath([], files[0])]
       case Dir(name, children) => Under(name, LeafPaths(children)))
      + LeafPaths(files[1..])
  }

  /** The parent name reached from `parentName` by entering `dirs` in turn. */
  function PrefixAfter(parentName: string, dirs: seq<string>, flatten: bool): (p: string)
    decreases |dirs|
  {
    if dirs == [] then parentName
    else PrefixAfter(ChildPrefix(parentName, dirs[0], flatten), dirs[1..], flatten)
  }

  /** The Binary each path's leaf becomes. */
  function Destinations(paths: seq<LeafPath>, parentName: string, flatten: bool): (r: seq<Binary>)
    ensures |r| == |paths|
  {
    seq(|paths|, i requires 0 <= i < |paths| =>
      NamedUnder(paths[i].leaf, PrefixAfter(parentName, paths[i].dirs, flatten)))
  }

  lemma DestinationsAppend(a: seq<LeafPath>, b: seq<LeafPath>, parentName: string, flatten: bool)
    ensures Destinations(a + b, parentName, flatten)
         == Destinations(a, parentName, flatten) + Destinations(b, parentName, flatten)
  {
    var l, r := Destinations(a + b, parentName, flatten), Destinations(a, parentName, flatten) + Destinations(b, parentName, flatten);
    forall i | 0 <= i < |l| ensures l[i] == r[i] {
      if i >= |a| {
        assert (a + b)[i] == b[i - |a|];
      }
    }
  }

  lemma DestinationsUnder(dir: string, paths: seq<LeafPath>, parentName: string, flatten: bool)
    ensures Destinations(Under(dir, paths), parentName, flatten)
         == Destinations(paths, ChildPrefix(parentName, dir, flatten), flatten)
  {
    var l, r := Destinations(Under(dir, paths), parentName, flatten), Destinations(paths, ChildPrefix(parentName, dir, flatten), flatten);
    forall i | 0 <= i < |l| ensures l[i] == r[i] {
      var dirs := [dir] + paths[i].dirs;
      assert dirs[1..] == paths[i].dirs;
    }
  }

  /** The traversal names each leaf by the parent name its path reaches:
      `crossDirectories` agrees with the path reference on every tree. */
  lemma {:induction false} FlattenFollowsLeafPaths(files: seq<Node>, parentName: string, flatten: bool)
    ensures Flatten(files, parentName, flatten) == Destinations(LeafPaths(files), parentName, flatten)
    decreases files
  {
    if files != [] {
      var rest := files[1..];
      FlattenFollowsLeafPaths(rest, parentName, flatten);
      var pathsHead := match files[0]
        case Leaf(_) => [LeafPath([], files[0])]
        case Dir(name, children) => Under(name, LeafPaths(children));
      var flatHead := match files[0]
        case Leaf(_) => [NamedUnder(files[0], parentName)]
        case Dir(name, children) => Flatten(children, ChildPrefix(parentName, name, flatten), flatten);
      assert Flatten(files, parentName, flatten) == flatHead + Flatten(rest, parentName, flatten);
      assert LeafPaths(files) == pathsHead + LeafPaths(rest);
      assert flatHead == Destinations(pathsHead, parentName, flatten) by {
        match files[0]
        case Leaf(_) =>
        case Dir(name, children) =>
          FlattenFollowsLeafPaths(children, ChildPrefix(parentName, name, flatten), flatten);
          DestinationsUnder(name, LeafPaths(children), parentName, flatten);
      }
      DestinationsAppend(pathsHead, LeafPaths(rest), parentName, flatten);
    }
  }

  lemma {:induction false} LeafPathsFollowLeaves(files: seq<Node>)
    ensures |LeafPaths(files)| == |Leaves(files)|
    ensures forall i :: 0 <= i < |Leaves(files)| ==> LeafPaths(files)[i].leaf == Leaves(files)[i] && Leaves(files)[i].Leaf?
    decreases files
  {
    if files != [] {
      LeafPathsFollowLeaves(files[1..]);
      match files[0]
      case Leaf(_) =>
      case Dir(_, children) => LeafPathsFollowLeaves(children);
    }
  }

  /** A listing's Binaries are its first node's followed by the rest's. */
  lemma FlattenCons(file: Node, rest: seq<Node>, parentName: string, flatten: bool)
    ensures Flatten([file] + rest, parentName, flatten) == Flatten([file], parentName, flatten) + Flatten(rest, parentName, flatten)
  {
    assert ([file] + rest)[0] == file && ([file] + rest)[1..] == rest;
    assert [file][1..] == [];
  }

  // Regrouping three lists of Binaries. Stated apart from `FlattenAppend`,
  // where the same fact asserted inline makes the proof far more costly.
  lemma ConcatAssociates(a: seq<Binary>, b: seq<Binary>, c: seq<Binary>)
    ensures a + (b + c) == (a + b) + c
  {
  }

  /** Splicing: the Binaries of a concatenation are the concatenation of
      the Binaries, and a directory's leaves take its place in the list. */
  lemma {:induction false} FlattenAppend(xs: seq<Node>, ys: seq<Node>, parentName: string, flatten: bool)
    ensures Flatten(xs + ys, parentName, flatten) == Flatten(xs, parentName, flatten) + Flatten(ys, parentName, flatten)
    decreases |xs|
  {
    if xs == [] {
      assert xs + ys == ys;
    } else {
      var x, rest := xs[0], xs[1..];
      assert xs + ys == [x] + (rest + ys);
      assert xs == [x] + rest;
      FlattenAppend(rest, ys, parentName, flatten);
      FlattenCons(x, rest + ys, parentName, flatten);
      FlattenCons(x, rest, parentName, flatten);
      ConcatAssociates(Flatten([x], parentName, flatten), Flatten(rest, parentName, flatten), Flatten(ys, parentName, flatten));
    }
  }

  /** One node alone: a leaf becomes one Binary named under the parent name,
      a directory its children's Binaries under the extended parent name. */
  lemma FlattenSingle(file: Node, parentName: string, flatten: bool)
    ensures file.Leaf? ==> Flatten([file], parentName, flatten) == [NamedUnder(file, parentName)]
    ensures file.Dir? ==> Flatten([file], parentName, flatten) == Flatten(file.children, ChildPrefix(parentName, file.name, flatten), flatten)
  {
    assert [file][1..] == [];
  }

  /** Each directory contributes exactly its own leaves, at its own place;
      an empty directory contributes nothing. */
  lemma FlattenDirectory(name: string, children: seq<Node>, parentName: string, flatten: bool)
    ensures Flatten([Dir(name, children)], parentName, flatten) == Flatten(children, ChildPrefix(parentName, name, flatten), flatten)
    ensures Flatten([Dir(name, [])], parentName, flatten) == []
  {
    assert [Dir(name, children)][1..] == [];
  }

  /** Only leaves are emitted, one Binary per leaf, in depth-first
      enumeration order. */
  lemma FlattenEmitsLeavesInOrder(files: seq<Node>, parentName: string, flatten: bool)
    ensures |Flatten(files, parentName, flatten)| == |Leaves(files)|
    ensures forall i :: 0 <= i < |Flatten(files, parentName, flatten)| ==>
              Flatten(files, parentName, flatten)[i].file == Leaves(files)[i] && Flatten(files, parentName, flatten)[i].file.Leaf?
  {
    FlattenFollowsLeafPaths(files, parentName, flatten);
    LeafPathsFollowLeaves(files);
  }

  lemma {:induction false} PrefixAfterFlattened(parentName: string, dirs: seq<string>)
    ensures PrefixAfter(parentName, dirs, true) == parentName
    decreases |dirs|
  {
    if dirs != [] {
      PrefixAfterFlattened(parentName, dirs[1..]);
    }
  }

  /** With `flatten` the parent name never grows: every leaf is named by the
      normalised starting prefix and its own name, so from the root by its
      own name alone, whatever its depth. */
  lemma FlattenedNames(files: seq<Node>, parentName: string)
    ensures forall i :: 0 <= i < |Flatten(files, parentName, true)| ==>
              Flatten(files, parentName, true)[i].name == NormalizeParent(parentName) + Flatten(files, parentName, true)[i].file.name
    ensures forall i :: 0 <= i < |Flatten(files, "", true)| ==>
              Flatten(files, "", true)[i].name == Flatten(files, "", true)[i].file.name
  {
    FlattenFollowsLeafPaths(files, parentName, true);
    FlattenFollowsLeafPaths(files, "", true);
    var paths := LeafPaths(files);
    forall i | 0 <= i < |paths|
      ensures PrefixAfter(parentName, paths[i].dirs, true) == parentName
      ensures PrefixAfter("", paths[i].dirs, true) == ""
    {
      PrefixAfterFlattened(parentName, paths[i].dirs);
      PrefixAfterFlattened("", paths[i].dirs);
    }
  }

  /** Without `flatten`, entering non-empty directory names builds their
      `/`-joined path after the starting prefix. */
  lemma {:induction false} PrefixAfterHierarchy(parentName: string, dirs: seq<string>)
    requires forall i :: 0 <= i < |dirs| ==> dirs[i] != ""
    ensures PrefixAfter(parentName, dirs, false)
         == if dirs == [] then parentName
            else if parentName == "" then Join(dirs)
            else parentName + "/" + Join(dirs)
    decreases |dirs|
  {
    if dirs != [] {
      var next := ChildPrefix(parentName, dirs[0], false);
      PrefixAfterHierarchy(next, dirs[1..]);
      if |dirs| > 1 {
        assert Join(dirs) == dirs[0] + "/" + Join(dirs[1..]);
      }
    }
  }

  /** Every directory and leaf name is a well-formed path segment. */
  predicate WellNamed(files: seq<Node>)
    decreases files
  {
    forall i :: 0 <= i < |files| ==>
      IsSegment(files[i].name) && (files[i].Dir? ==> WellNamed(files[i].children))
  }

  predicate PathWellNamed(path: LeafPath) {
    IsSegment(path.leaf.name) && forall d :: 0 <= d < |path.dirs| ==> IsSegment(path.dirs[d])
  }

  lemma {:induction false} LeafPathsWellNamed(files: seq<Node>)
    requires WellNamed(files)
    ensures forall i :: 0 <= i < |LeafPaths(files)| ==> PathWellNamed(LeafPaths(files)[i])
    decreases files
  {
    if files != [] {
      assert WellNamed(files[1..]) by {
        forall i | 0 <= i < |files[1..]| ensures IsSegment(files[1..][i].name) && (files[1..][i].Dir? ==> WellNamed(files[1..][i].children)) {
          assert files[1..][i] == files[i + 1];
        }
      }
      LeafPathsWellNamed(files[1..]);
      match files[0]
      case Leaf(_) =>
      case Dir(name, children) =>
        LeafPathsWellNamed(children);
        var sub := LeafPaths(children);
        forall i | 0 <= i < |sub| ensures PathWellNamed(Under(name, sub)[i]) {
          assert PathWellNamed(sub[i]);
          var dirs := Under(name, sub)[i].dirs;
          assert dirs == [name] + sub[i].dirs;
          forall d | 0 <= d < |dirs| ensures IsSegment(dirs[d]) {
            if d > 0 {
              assert dirs[d] == sub[i].dirs[d - 1];
            }
          }
        }
    }
  }

  /** A join of well-formed segments is non-empty, does not start with `/`
      and does not end with `/`. */
  lemma JoinOfSegments(segments: seq<string>)
    requires segments != [] && forall d :: 0 <= d < |segments| ==> IsSegment(segments[d])
    ensures |Join(segments)| > 0 && Join(segments)[0] != '/' && !EndsWithSlash(Join(segments))
  {
    JoinEnds(segments);
    var first, last := segments[0], segments[|segments| - 1];
    assert first[0] in first;
    assert last[|last| - 1] in last;
  }

  /** The destination name of a leaf reached through well-formed
      directories is the `/`-joined path of those directories and its own
      name, and never starts with `/`. */
  lemma HierarchicalName(path: LeafPath)
    requires PathWellNamed(path)
    ensures NamedUnder(path.leaf, PrefixAfter("", path.dirs, false)).name == Join(path.dirs + [path.leaf.name])
    ensures |Join(path.dirs + [path.leaf.name])| > 0
    ensures Join(path.dirs + [path.leaf.name])[0] != '/'
  {
    var dirs, leafName := path.dirs, path.leaf.name;
    PrefixAfterHierarchy("", dirs);
    var segments := dirs + [leafName];
    assert forall d :: 0 <= d < |segments| ==> IsSegment(segments[d]) by {
      forall d | 0 <= d < |segments| ensures IsSegment(segments[d]) {
        if d < |dirs| { assert segments[d] == dirs[d]; }
      }
    }
    JoinOfSegments(segments);
    if dirs == [] {
      assert segments == [leafName];
    } else {
      JoinOfSegments(dirs);
      assert NormalizeParent(Join(dirs)) == Join(dirs) + "/";
      JoinSnoc(dirs, leafName);
    }
  }

  /** Without `flatten`, each Binary is named by the `/`-joined directory
      path from the root to its leaf followed by the leaf's name, with no
      leading `/`. */
  lemma HierarchicalNames(files: seq<Node>)
    requires WellNamed(files)
    ensures |Flatten(files, "", false)| == |LeafPaths(files)|
    ensures forall i :: 0 <= i < |Flatten(files, "", false)| ==>
              Flatten(files, "", false)[i].name == Join(LeafPaths(files)[i].dirs + [LeafPaths(files)[i].leaf.name])
              && |Flatten(files, "", false)[i].name| > 0
              && Flatten(files, "", false)[i].name[0] != '/'
  {
    FlattenFollowsLeafPaths(files, "", false);
    LeafPathsWellNamed(files);
    forall i | 0 <= i < |LeafPaths(files)|
      ensures NamedUnder(LeafPaths(files)[i].leaf, PrefixAfter("", LeafPaths(files)[i].dirs, false)).name
           == Join(LeafPaths(files)[i].dirs + [LeafPaths(files)[i].leaf.name])
      ensures |Join(LeafPaths(files)[i].dirs + [LeafPaths(files)[i].leaf.name])| > 0
      ensures Join(LeafPaths(files)[i].dirs + [LeafPaths(files)[i].leaf.name])[0] != '/'
    {
      HierarchicalName(LeafPaths(files)[i]);
    }
  }

  /** A top-level leaf is named by its own name under either policy, at the
      position after the leaves enumerated before it. */
  lemma TopLevelLeafNamed(files: seq<Node>, flatten: bool, i: nat)
    requires i < |files| && files[i].Leaf?
    ensures |Leaves(files[..i])| < |Flatten(files, "", flatten)|
    ensures Flatten(files, "", flatten)[|Leaves(files[..i])|] == FromFile(files[i])
  {
    assert files == files[..i] + ([files[i]] + files[i + 1..]);
    FlattenAppend(files[..i], [files[i]] + files[i + 1..], "", flatten);
    FlattenAppend([files[i]], files[i + 1..], "", flatten);
    FlattenEmitsLeavesInOrder(files[..i], "", flatten);
    assert [files[i]][1..] == [];
  }

  /** A leaf beside a directory holding one leaf. */
  lemma LeafBesideDirectory(a: Node, dir: string, b: Node, flatten: bool)
    requires a.Leaf? && b.Leaf?
    ensures Flatten([a, Dir(dir, [b])], "", flatten)
         == [NamedUnder(a, ""), NamedUnder(b, ChildPrefix("", dir, flatten))]
  {
    var sub := Dir(dir, [b]);
    assert [a, sub] == [a] + [sub];
    FlattenCons(a, [sub], "", flatten);
    FlattenSingle(a, "", flatten);
    FlattenSingle(sub, "", flatten);
    FlattenSingle(b, ChildPrefix("", dir, flatten), flatten);
  }

  lemma SmallTreeNames()
    ensures NamedUnder(Leaf("a.txt"), "") == Binary(Leaf("a.txt"), "a.txt")
    ensures NamedUnder(Leaf("b.txt"), "") == Binary(Leaf("b.txt"), "b.txt")
    ensures NamedUnder(Leaf("b.txt"), "sub") == Binary(Leaf("b.txt"), "sub/b.txt")
    ensures ChildPrefix("", "sub", false) == "sub" && ChildPrefix("", "sub", true) == ""
  {
    assert !EndsWithSlash("sub") && "sub" + "/" + "b.txt" == "sub/b.txt";
  }

  /** The two policies on a root holding `a.txt` and `sub/b.txt`. */
  lemma SmallTreeExample()
    ensures Flatten([Leaf("a.txt"), Dir("sub", [Leaf("b.txt")])], "", false)
         == [Binary(Leaf("a.txt"), "a.txt"), Binary(Leaf("b.txt"), "sub/b.txt")]
    ensures Flatten([Leaf("a.txt"), Dir("sub", [Leaf("b.txt")])], "", true)
         == [Binary(Leaf("a.txt"), "a.txt"), Binary(Leaf("b.txt"), "b.txt")]
  {
    LeafBesideDirectory(Leaf("a.txt"), "sub", Leaf("b.txt"), false);
    LeafBesideDirectory(Leaf("a.txt"), "sub", Leaf("b.txt"), true);
    SmallTreeNames();
  }

  /** Flattening does not detect name collisions: two leaves with the same
      name in different directories are both emitted, under the same name. */
  lemma CollisionsKept()
    ensures Flatten([Leaf("a.txt"), Dir("sub", [Leaf("a.txt")])], "", true)
         == [Binary(Leaf("a.txt"), "a.txt"), Binary(Leaf("a.txt"), "a.txt")]
  {
    var a := Leaf("a.txt");
    var sub := Dir("sub", [a]);
    FlattenAppend([a], [sub], "", true);
    FlattenSingle(a, "", true);
    FlattenSingle(sub, "", true);
    assert [a] + [sub] == [Leaf("a.txt"), Dir("sub", [Leaf("a.txt")])];
  }

  /** The destination names, in order. */
  function Names(binaries: seq<Binary>): (r: seq<string>) {
    seq(|binaries|, i requires 0 <= i < |binaries| => binaries[i].name)
  }

  class BinaryDeployerRecorder {
    const repository: HttpRepository
    const flatten: bool

    constructor (repository: HttpRepository, flatten: bool)
      ensures this.repository == repository && this.flatten == flatten
    {
      this.repository := repository;
      this.flatten := flatten;
    }

    /** `crossDirectories(files)`: the traversal starts with the empty
        parent name. */
    method CrossDirectoriesFromRoot(files: seq<Node>) returns (binaries: seq<Binary>)
      ensures binaries == Flatten(files, "", flatten)
    {
      binaries := CrossDirectories(files, "");
    }

    /** `crossDirectories(files, parentName)`. */
    method CrossDirectories(files: seq<Node>, parentName: string) returns (binaries: seq<Binary>)
      ensures binaries == Flatten(files, parentName, flatten)
      decreases files
    {
      binaries := [];
      for i := 0 to |files|
        invariant binaries == Flatten(files[..i], parentName, flatten)
      {
        var file := files[i];
        FlattenSingle(file, parentName, flatten);
        FlattenAppend(files[..i], [file], parentName, flatten);
        assert files[..i + 1] == files[..i] + [file];
        if file.Dir? {
          var nested := CrossDirectories(file.children, ChildPrefix(parentName, file.name, flatten));
          binaries := binaries + nested;
        } else {
          var binary := From(file, W.Some(parentName));
          binaries := binaries + [binary.value];
        }
      }
      assert files[..|files|] == files;
    }

    /** `perform`: flatten the artifact root and deploy the result. */
    method Perform(root: seq<Node>, run: Run, lookup: CredentialLookup, server: Server) returns (outcome: Outcome)
      modifies repository, run
      ensures ChooseClient(repository.credentialsId, lookup).Failure? ==>
                outcome == Failed(ChooseClient(repository.credentialsId, lookup).error)
                && repository.posted == old(repository.posted) && run.result == old(run.result)
      ensures ChooseClient(repository.credentialsId, lookup).Success? ==>
                repository.posted == old(repository.posted)
                  + Upload(repository.remoteLocation, Names(Flatten(root, "", flatten)), server).posted
                && outcome == Upload(repository.remoteLocation, Names(Flatten(root, "", flatten)), server).outcome
                && run.result == (if MarksFailure(outcome) then Worse(old(run.result), Failure) else old(run.result))
      ensures ChooseClient(repository.credentialsId, lookup).Failure? ==> repository.client == old(repository.client)
      ensures ChooseClient(repository.credentialsId, lookup).Success? ==>
                repository.client == W.Some(ChooseClient(repository.credentialsId, lookup).value)
      ensures repository.openClients == old(repository.openClients)
      ensures repository.openResponses == old(repository.openResponses)
    {
      var binaries := CrossDirectoriesFromRoot(root);
      outcome := repository.Deploy(Names(binaries), run, lookup, server);
    }
  }
}
