/** The per-session fake file system of honeypot/shell/filesystem.py: mutable directory objects changed in place.
    Every method is specified on the graph of the objects, whatever they share, and on the tree they stand for as
    long as they form one. */
module FakeFilesystem {
  import opened Basics
  import opened FakeTree
  import opened FakeGraph
  import opened GraphAsTree
  import opened PathLaws

  class FakeFilesystem {
    const root: FakeDir
    var cwdPath: Path
    /** Every directory ever held by this file system. */
    ghost var dirs: set<FakeDir>

    ghost function Heap(): Graph
      reads this`dirs, dirs
    {
      map d | d in dirs :: d.entries
    }

    ghost predicate Valid()
      reads this, dirs
    {
      Closed(Heap(), root) && cwdPath != [] && Clean(cwdPath)
    }

    constructor ()
      ensures Valid() && fresh(root) && dirs == {root} && cwdPath == ["root"]
      ensures Heap() == map[root := map[]] && StandsFor(Heap(), root, map[[] := IsDir])
    {
      root := new FakeDir();
      cwdPath := ["root"];
      new;
      dirs := {root};
      assert Component("root");
      BareTree(root);
    }

    /** `entries[name] = node`. */
    method PutEntry(dir: FakeDir, name: string, node: Node)
      requires Valid() && dir in dirs && NodeIn(Heap(), node)
      modifies dir
      ensures Valid() && Heap() == Stored(old(Heap()), dir, name, node)
    {
      StoredClosed(Heap(), root, dir, name, node);
      dir.entries := dir.entries[name := node];
      assert Heap() == Stored(old(Heap()), dir, name, node);
    }

    /** `entries.pop(name, None)`. */
    method DropEntry(dir: FakeDir, name: string)
      requires Valid() && dir in dirs
      modifies dir
      ensures Valid() && Heap() == Dropped(old(Heap()), dir, name)
    {
      DroppedClosed(Heap(), root, dir, name);
      dir.entries := dir.entries - {name};
      assert Heap() == Dropped(old(Heap()), dir, name);
    }

    method Resolve(path: string) returns (base: Path)
      requires Valid()
      ensures base == FakeTree.Resolve(cwdPath, path) && base != [] && Clean(base)
    {
      base := cwdPath;
      var parts;
      if path != "" && path[0] == '/' {
        base := if path == "/" then ["root"] else [];
        parts := SplitSlash(RStripSlash(LStripSlash(path)));
      } else {
        parts := SplitSlash(path);
      }
      for i := 0 to |parts|
        invariant EnterAll(base, parts[i..]) == EnterAll(StartOf(cwdPath, path), PartsOf(path))
      {
        var part := parts[i];
        assert parts[i..][1..] == parts[i + 1..];
        if part == "" || part == "." {
        } else if part == ".." {
          if |base| > 1 || (base != [] && base != ["root"]) {
            base := if base != ["root"] then base[..|base| - 1] else base;
          }
        } else {
          base := base + [part];
        }
      }
      assert parts[|parts|..] == [];
      if base == [] { base := ["root"]; }
      ResolveClean(cwdPath, path);
    }

    method Lookup(parts: Path) returns (found: Option<Node>)
      requires Valid()
      ensures found == Walk(Heap(), root, parts) && (found.Some? ==> NodeIn(Heap(), found.value))
    {
      hide Closed, Canon, Clean, ReachFrom;
      ReachIn(Heap(), root, Canon(parts));
      RootIn(Heap(), root);
      var node := DirNode(root);
      WalkStart(Heap(), root);
      for i := 0 to |parts|
        invariant Walk(Heap(), root, parts[..i]) == Some(node) && NodeIn(Heap(), node)
      {
        WalkOn(Heap(), root, parts, i);
        ReachIn(Heap(), root, Canon(parts[..i + 1]));
        if parts[i] != "root" {
          if !node.DirNode? { return None; }
          if parts[i] !in node.dir.entries { return None; }
          node := node.dir.entries[parts[i]];
        }
      }
      assert parts[..|parts|] == parts;
      found := Some(node);
    }

    /** `cd`: only to a directory; `cd` to the displayed working directory leads to the same node, whatever the
        objects share. */
    method Chdir(path: string) returns (outcome: Outcome)
      requires Valid()
      modifies `cwdPath
      ensures Valid() && Heap() == old(Heap())
      ensures var target := FakeTree.Resolve(old(cwdPath), path);
              match KindAt(Walk(Heap(), root, target))
              case Some(IsDir) => outcome == Done && cwdPath == target
              case None => outcome == NoSuchSource && cwdPath == old(cwdPath)
              case Some(_) => outcome == NotADirectory && cwdPath == old(cwdPath)
      ensures path == Display(old(cwdPath)) ==> Walk(Heap(), root, cwdPath) == Walk(Heap(), root, old(cwdPath))
      ensures path == Display(old(cwdPath)) ==> (outcome == Done <==> KindAt(Walk(Heap(), root, cwdPath)) == Some(IsDir))
      // after `cd name`, `cd ..` leads back, and there is a directory to lead back to
      ensures Component(path) && outcome == Done ==>
                cwdPath == old(cwdPath) + [path] && KindAt(Walk(Heap(), root, old(cwdPath))) == Some(IsDir)
      ensures path == ".." && outcome == Done ==>
                cwdPath == if |old(cwdPath)| == 1 then ["root"] else old(cwdPath)[..|old(cwdPath)| - 1]
    {
      hide Closed, Canon, FakeTree.Resolve, Display, Clean, ReachFrom;
      if Component(path) {
        ResolveInto(cwdPath, path);
        DirectoryAbove(Heap(), root, cwdPath, path);
      }
      ResolveUp(cwdPath);
      var target := Resolve(path);
      var node := Lookup(target);
      if path == Display(cwdPath) { DisplayStays(Heap(), root, cwdPath); }
      match node
      case Some(DirNode(_)) => cwdPath := target; outcome := Done;
      case None => outcome := NoSuchSource;
      case Some(Leaf(_)) => outcome := NotADirectory;
    }

    /** What a link with this target leads to from the directory `parts`. */
    method Beside(parts: Path, name: string) returns (node: Option<Node>)
      requires Valid()
      ensures node == EntryIn(Heap(), Walk(Heap(), root, parts), name)
    {
      hide Closed, Canon, Clean, ReachFrom;
      var directory := Lookup(parts);
      if directory == None || !directory.value.DirNode? { return None; }
      var entries := directory.value.dir.entries;
      node := if name in entries then Some(entries[name]) else None;
    }

    /** `read_file`, following links as `_resolve_symlink` does. */
    method ReadFile(path: string) returns (reading: Reading)
      requires Valid()
      ensures reading == ReadIn(Heap(), root, FakeTree.Resolve(cwdPath, path))
      ensures forall t {:trigger StandsFor(Heap(), root, t)} ::
                StandsFor(Heap(), root, t) ==> reading == Read(t, FakeTree.Resolve(cwdPath, path))
    {
      hide Closed, FakeTree.Resolve, Canon, Clean, ReachFrom, StandsFor, Read;
      var target := Resolve(path);
      var node := Lookup(target);
      var seen := 0;
      ghost var g, parent := Heap(), Walk(Heap(), root, Init(target));
      while node.Some? && KindOf(node.value).IsLink? && seen < 8
        invariant 0 <= seen <= 8
        invariant FollowIn(g, parent, node, 8 - seen) == FollowIn(g, parent, Walk(g, root, target), 8)
        decreases 8 - seen
      {
        node := Beside(target[..|target| - 1], KindOf(node.value).target);
        seen := seen + 1;
      }
      reading := ReadingOf(KindAt(node));
      forall t | StandsFor(g, root, t) ensures reading == Read(t, target) { ReadIsTree(g, root, t, target); }
    }

    method WriteFile(path: string, content: string)
      requires Valid()
      modifies dirs
      ensures Valid() && Heap() == WriteIn(old(Heap()), root, FakeTree.Resolve(cwdPath, path), content)
      ensures forall t {:trigger StandsFor(old(Heap()), root, t)} ::
                StandsFor(old(Heap()), root, t) ==> StandsFor(Heap(), root, Write(t, FakeTree.Resolve(cwdPath, path), content))
    {
      hide Closed, FakeTree.Resolve, Canon, Clean, ReachFrom, StandsFor, Write;
      var target := Resolve(path);
      ghost var g := Heap();
      var parent := Lookup(target[..|target| - 1]);
      if parent.Some? && parent.value.DirNode? {
        PutEntry(parent.value.dir, target[|target| - 1], Leaf(IsFile(content)));
      }
      forall t | StandsFor(g, root, t) ensures StandsFor(Heap(), root, Write(t, target, content)) {
        WriteIsTree(g, root, t, target, content);
      }
    }

    /** `entries.setdefault(name, FakeDir())`. */
    method SetDefault(dir: FakeDir, name: string, d: FakeDir)
      requires Valid() && dir in dirs && d !in dirs && d.entries == map[]
      modifies `dirs, dir
      ensures Valid() && dirs == if name in old(Heap())[dir] then old(dirs) else old(dirs) + {d}
      ensures Heap() == if name in old(Heap())[dir] then old(Heap()) else Stored(old(Heap()), dir, name, DirNode(d))[d := map[]]
    {
      hide Closed, Clean;
      if name in dir.entries { return; }
      ghost var g := Heap();
      MadeClosed(g, root, d);
      dirs := dirs + {d};
      assert Heap() == g[d := map[]];
      PutEntry(dir, name, DirNode(d));
      assert Heap() == Stored(g, dir, name, DirNode(d))[d := map[]];
    }

    method MakeDir(path: string) returns (ghost made: FakeDir)
      requires Valid()
      modifies `dirs, dirs
      ensures made !in old(dirs) && fresh(dirs - old(dirs)) && root in dirs
      ensures Valid() && Heap() == MakeDirIn(old(Heap()), root, FakeTree.Resolve(cwdPath, path), made)
      ensures forall t {:trigger StandsFor(old(Heap()), root, t)} ::
                StandsFor(old(Heap()), root, t) ==> StandsFor(Heap(), root, FakeTree.MakeDir(t, FakeTree.Resolve(cwdPath, path)))
    {
      hide Closed, FakeTree.Resolve, Canon, Clean, ReachFrom, StandsFor, FakeTree.MakeDir;
      var target := Resolve(path);
      ghost var g := Heap();
      var parent := Lookup(target[..|target| - 1]);
      var d := new FakeDir();
      made := d;
      if parent.Some? && parent.value.DirNode? {
        SetDefault(parent.value.dir, target[|target| - 1], d);
      }
      assert Heap() == MakeDirIn(g, root, target, d);
      assert dirs == old(dirs) || dirs == old(dirs) + {d};
      forall t | StandsFor(g, root, t) ensures StandsFor(Heap(), root, FakeTree.MakeDir(t, target)) {
        MakeDirIsTree(g, root, t, target, d);
      }
      RootIn(Heap(), root);
    }

    method Remove(path: string)
      requires Valid()
      modifies dirs
      ensures Valid() && Heap() == RemoveIn(old(Heap()), root, FakeTree.Resolve(cwdPath, path))
      ensures forall t {:trigger StandsFor(old(Heap()), root, t)} ::
                StandsFor(old(Heap()), root, t) ==> StandsFor(Heap(), root, FakeTree.Remove(t, FakeTree.Resolve(cwdPath, path)))
    {
      hide Closed, FakeTree.Resolve, Canon, Clean, ReachFrom, StandsFor, FakeTree.Remove;
      var target := Resolve(path);
      ghost var g := Heap();
      var parent := Lookup(target[..|target| - 1]);
      if parent.Some? && parent.value.DirNode? {
        DropEntry(parent.value.dir, target[|target| - 1]);
      }
      forall t | StandsFor(g, root, t) ensures StandsFor(Heap(), root, FakeTree.Remove(t, target)) {
        RemoveIsTree(g, root, t, target);
      }
    }

    /** `mv`. */
    method MoveNode(src: string, dst: string) returns (outcome: Outcome)
      requires Valid()
      modifies dirs
      ensures Valid() && (outcome, Heap()) == MoveIn(old(Heap()), root, FakeTree.Resolve(cwdPath, src), FakeTree.Resolve(cwdPath, dst))
      ensures forall t {:trigger StandsFor(old(Heap()), root, t)} :: StandsFor(old(Heap()), root, t) ==>
                MovedAs(t, FakeTree.Resolve(cwdPath, src), FakeTree.Resolve(cwdPath, dst), outcome, Heap())
    {
      hide Closed, FakeTree.Resolve, Canon, Clean, ReachFrom, StandsFor, MovedAs;
      var srcParts := Resolve(src);
      var dstParts := Resolve(dst);
      ghost var g := Heap();
      outcome := MoveParts(srcParts, dstParts);
      forall t | StandsFor(g, root, t) ensures MovedAs(t, srcParts, dstParts, outcome, Heap()) {
        MoveMeans(g, t, srcParts, dstParts);
      }
    }

    /** What a move does to a tree: nothing when it fails at once; otherwise the moved tree, or, when a directory
        named through a trailing "root" goes anywhere but onto the entry "root" inside it, no tree at all. */
    ghost predicate MovedAs(t: Tree, from: Path, to: Path, outcome: Outcome, g': Graph)
      requires from != [] && to != []
    {
      var slot := FinalSlot(t, from, to);
      && outcome == MoveOutcome(t, from, to)
      && (outcome == NoSuchSource || outcome == NoSuchTarget ==> StandsFor(g', root, t))
      && (outcome == KeyError ==> Last(from) == "root" && slot != Slot(from))
      && (outcome == Done && (Last(from) != "root" || slot == Slot(from)) ==> StandsFor(g', root, MoveTree(t, Slot(from), slot)))
      && ((outcome == Done || outcome == KeyError) && Last(from) == "root" && slot != Slot(from) ==> forall t' :: !StandsFor(g', root, t'))
    }

    lemma MoveMeans(g: Graph, t: Tree, from: Path, to: Path)
      requires Closed(g, root) && StandsFor(g, root, t) && from != [] && to != []
      ensures MovedAs(t, from, to, MoveIn(g, root, from, to).0, MoveIn(g, root, from, to).1)
    {
      hide Closed, Canon, ReachFrom, StandsFor, FinalSlot, MoveTree, MoveIn;
      MoveShown(g, root, t, from, to);
      SlotIsCanon(from);
      if MoveOutcome(t, from, to) == KeyError { KeyErrorNeedsRoot(t, from, to); }
      var slot, outcome := FinalSlot(t, from, to), MoveOutcome(t, from, to);
      if outcome == Done && (Last(from) != "root" || slot == Slot(from)) { MoveIsTree(g, root, t, from, to); }
      if (outcome == Done || outcome == KeyError) && Last(from) == "root" && slot != Slot(from) { MoveBreaksTree(g, root, t, from, to); }
    }

    method MoveParts(srcParts: Path, dstParts: Path) returns (outcome: Outcome)
      requires Valid() && srcParts != [] && dstParts != []
      modifies dirs
      ensures Valid() && (outcome, Heap()) == MoveIn(old(Heap()), root, srcParts, dstParts)
    {
      hide Closed, Canon, Clean, ReachFrom;
      var srcParent := Lookup(srcParts[..|srcParts| - 1]);
      var node := Lookup(srcParts);
      if node == None || srcParent == None || !srcParent.value.DirNode? { return NoSuchSource; }
      var dstNode := Lookup(dstParts);
      if dstNode.Some? && dstNode.value.DirNode? {
        outcome := Reparent(dstNode.value.dir, srcParts[|srcParts| - 1], node.value, srcParent.value.dir, srcParts[|srcParts| - 1]);
        return;
      }
      var parent := Lookup(dstParts[..|dstParts| - 1]);
      if parent == None || !parent.value.DirNode? { return NoSuchTarget; }
      outcome := Reparent(parent.value.dir, dstParts[|dstParts| - 1], node.value, srcParent.value.dir, srcParts[|srcParts| - 1]);
    }

    /** `dir.entries[name] = node; del from.entries[gone]`. */
    method Reparent(dir: FakeDir, name: string, node: Node, from: FakeDir, gone: string) returns (outcome: Outcome)
      requires Valid() && dir in dirs && from in dirs && NodeIn(Heap(), node)
      modifies dir, from
      ensures Valid()
      ensures var stored := Stored(old(Heap()), dir, name, node);
              if gone in stored[from] then outcome == Done && Heap() == Dropped(stored, from, gone) else outcome == KeyError && Heap() == stored
    {
      hide Closed, Clean;
      PutEntry(dir, name, node);
      if gone !in from.entries { return KeyError; }
      DropEntry(from, gone);
      outcome := Done;
    }

    /** `cp`, with the correspondence between the directories copied and their copies. */
    method CopyNode(src: string, dst: string) returns (outcome: Outcome, ghost iso: map<FakeDir, FakeDir>)
      requires Valid()
      modifies `dirs, dirs
      ensures Valid() && fresh(dirs - old(dirs))
      ensures var from, to := FakeTree.Resolve(cwdPath, src), FakeTree.Resolve(cwdPath, dst);
              && outcome == CopyOutcomeIn(old(Heap()), root, from, to)
              && (if outcome == Done then CopiedIn(old(Heap()), Heap(), root, from, to, iso) else Heap() == old(Heap()))
      ensures forall t {:trigger StandsFor(old(Heap()), root, t)} :: StandsFor(old(Heap()), root, t) ==>
                var from, to := FakeTree.Resolve(cwdPath, src), FakeTree.Resolve(cwdPath, dst);
                && outcome == CopyOutcome(t, from, to)
                && StandsFor(Heap(), root, if outcome == Done then CopyTree(t, Canon(from), FinalSlot(t, from, to)) else t)
    {
      hide Closed, FakeTree.Resolve, Canon, Clean, ReachFrom, StandsFor, CopiedIn, CopyTree, FinalSlot, Destination;
      iso := map[];
      var srcParts := Resolve(src);
      var dstParts := Resolve(dst);
      ghost var g := Heap();
      outcome, iso := CopyParts(srcParts, dstParts);
      forall t | StandsFor(g, root, t)
        ensures outcome == CopyOutcome(t, srcParts, dstParts)
        ensures StandsFor(Heap(), root, if outcome == Done then CopyTree(t, Canon(srcParts), FinalSlot(t, srcParts, dstParts)) else t)
      {
        Shown(g, root, t, Canon(srcParts));
        DestinationShown(g, root, t, srcParts, dstParts);
        if outcome == Done { CopyIsTree(g, Heap(), root, t, srcParts, dstParts, iso); }
      }
    }

    method CopyParts(srcParts: Path, dstParts: Path) returns (outcome: Outcome, ghost iso: map<FakeDir, FakeDir>)
      requires Valid() && srcParts != [] && dstParts != []
      modifies `dirs, dirs
      ensures Valid() && fresh(dirs - old(dirs))
      ensures outcome == CopyOutcomeIn(old(Heap()), root, srcParts, dstParts)
      ensures if outcome == Done then CopiedIn(old(Heap()), Heap(), root, srcParts, dstParts, iso) else Heap() == old(Heap())
    {
      hide Closed, Canon, Clean, ReachFrom, Duplicate;
      iso := map[];
      var node := Lookup(srcParts);
      if node == None { return NoSuchSource, iso; }
      var dstNode := Lookup(dstParts);
      if dstNode.Some? && dstNode.value.DirNode? {
        iso := PlaceCopy(dstNode.value.dir, srcParts[|srcParts| - 1], node.value);
        return Done, iso;
      }
      var parent := Lookup(dstParts[..|dstParts| - 1]);
      if parent == None || !parent.value.DirNode? { return NoSuchTarget, iso; }
      iso := PlaceCopy(parent.value.dir, dstParts[|dstParts| - 1], node.value);
      return Done, iso;
    }

    /** `dir.entries[name] = deepcopy(node)`. */
    method PlaceCopy(dir: FakeDir, name: string, node: Node) returns (ghost iso: map<FakeDir, FakeDir>)
      requires Valid() && dir in dirs && NodeIn(Heap(), node)
      modifies `dirs, dir
      ensures Valid() && fresh(dirs - old(dirs)) && Duplicate(old(Heap()), node, iso)
      ensures Heap().Keys == old(Heap()).Keys + iso.Values
      ensures forall d {:trigger iso[d]} :: d in iso ==> iso[d] in Heap() && Heap()[iso[d]] == RenamedAll(old(Heap())[d], iso)
      ensures forall d {:trigger Heap()[d]} :: d in old(Heap()) ==>
                d in Heap() && Heap()[d] == if d == dir then old(Heap())[d][name := Renamed(node, iso)] else old(Heap())[d]
    {
      hide Clean;
      ghost var g := Heap();
      var copy, memo := DeepCopy(node, map[], dirs, g);
      iso := memo;
      dirs := dirs + iso.Values;
      CopiesClosed(g, Heap(), root, node, iso);
      PutEntry(dir, name, copy);
    }
  }

  lemma DirectoryAbove(g: Graph, root: FakeDir, cwd: Path, name: string)
    ensures KindAt(Walk(g, root, cwd + [name])) == Some(IsDir) ==> KindAt(Walk(g, root, cwd)) == Some(IsDir)
  {
    hide Canon, ReachFrom;
    CanonSnoc(cwd, name);
    ReachStep(g, root, Canon(cwd), name);
  }

  /** Everything in `es` copied so far: the entries under the names in `done`. */
  ghost predicate PartlyCopied(es: map<string, Node>, copy: map<string, Node>, done: set<string>, memo: map<FakeDir, FakeDir>) {
    && copy.Keys == done && done <= es.Keys
    && (forall k {:trigger copy[k]} :: k in done ==> Covered(es[k], memo) && copy[k] == Renamed(es[k], memo))
  }

  ghost predicate CopiedSince(g: Graph, memo0: map<FakeDir, FakeDir>, memo: map<FakeDir, FakeDir>, except: set<FakeDir>)
    reads memo.Values
  {
    && (forall d {:trigger d in memo} :: d in memo0 ==> d in memo && memo[d] == memo0[d])
    && (forall d {:trigger memo[d]} :: d in memo && d !in memo0 && d !in except ==>
          d in g && AllCovered(g[d], memo) && memo[d].entries == RenamedAll(g[d], memo))
  }

  /** Copies are other objects than the originals, one each. */
  ghost predicate Memo(memo: map<FakeDir, FakeDir>, dirs: set<FakeDir>) {
    memo.Keys <= dirs && memo.Values !! dirs && OneToOne(memo)
  }

  lemma MemoGrows(memo: map<FakeDir, FakeDir>, dirs: set<FakeDir>, d: FakeDir, made: FakeDir)
    requires Memo(memo, dirs) && d in dirs && d !in memo && made !in dirs && made !in memo.Values
    ensures Memo(memo[d := made], dirs) && memo[d := made].Values == memo.Values + {made}
  {
    var grown := memo[d := made];
    assert grown[d] == made;
    forall x: FakeDir | x in grown.Values ensures x in memo.Values + {made} {}
    forall x: FakeDir | x in memo.Values ensures x in grown.Values {
      var k: FakeDir :| k in memo && memo[k] == x;
      assert grown[k] == x;
    }
    forall a: FakeDir | a in memo ensures memo[a] in memo.Values {}
  }

  /** `copy.deepcopy`: every directory the node leads to is copied once, however often it is held; `memo` remembers
      the copies made so far. */
  method DeepCopy(node: Node, memo0: map<FakeDir, FakeDir>, ghost dirs: set<FakeDir>, ghost g: Graph)
    returns (copy: Node, memo: map<FakeDir, FakeDir>)
    requires g.Keys == dirs && (forall d {:trigger g[d]} :: d in dirs ==> g[d] == d.entries)
    requires NodeIn(g, node) && forall d {:trigger AllIn(g, g[d])} :: d in g ==> AllIn(g, g[d])
    requires Memo(memo0, dirs)
    ensures Memo(memo, dirs) && fresh(memo.Values - memo0.Values)
    ensures CopiedSince(g, memo0, memo, {}) && Covered(node, memo) && copy == Renamed(node, memo)
    decreases dirs - memo0.Keys
  {
    hide CopiedSince, PartlyCopied, RenamedAll, AllCovered, Memo;
    memo := memo0;
    NothingCopied(g, memo0);
    if node.Leaf? { return node, memo; }
    var d := node.dir;
    if d in memo { return DirNode(memo[d]), memo; }
    var made := new FakeDir();
    memo := memo0[d := made];
    var todo := d.entries.Keys;
    ghost var done := {};
    MemoGrows(memo0, dirs, d, made);
    JustMade(g, memo0, memo, d, g[d], made.entries);
    while todo != {}
      invariant done + todo == g[d].Keys && done !! todo
      invariant Memo(memo, dirs) && fresh(memo.Values - memo0.Values)
      invariant d in memo && memo[d] == made && CopiedSince(g, memo0, memo, {d})
      invariant PartlyCopied(g[d], made.entries, done, memo)
    {
      var name :| name in todo;
      assert AllIn(g, g[d]);
      ghost var before := memo;
      FewerLeft(g, dirs, memo0, memo, d);
      var child;
      child, memo := DeepCopy(d.entries[name], memo, dirs, g);
      CopyGrows(g, memo0, before, memo, d, made.entries, done);
      SetChild(made, name, child, g, memo0, memo, d, done);
      todo, done := todo - {name}, done + {name};
    }
    copy := DirNode(made);
    CopyWhole(g, memo0, memo, d);
  }

  lemma NothingCopied(g: Graph, memo: map<FakeDir, FakeDir>)
    ensures CopiedSince(g, memo, memo, {})
  {
  }

  lemma JustMade(g: Graph, memo0: map<FakeDir, FakeDir>, memo: map<FakeDir, FakeDir>, d: FakeDir, es: map<string, Node>, none: map<string, Node>)
    requires d in memo && d !in memo0 && memo == memo0[d := memo[d]] && none == map[]
    ensures CopiedSince(g, memo0, memo, {d}) && PartlyCopied(es, none, {}, memo)
  {
  }

  lemma KeepsMemo(g: Graph, memo0: map<FakeDir, FakeDir>, memo: map<FakeDir, FakeDir>, except: set<FakeDir>)
    requires CopiedSince(g, memo0, memo, except)
    ensures forall d {:trigger d in memo} {:trigger d in memo0} :: d in memo0 ==> d in memo && memo[d] == memo0[d]
  {
  }

  /** One more entry copied, and whatever it leads to. */
  lemma CopyGrows(g: Graph, memo0: map<FakeDir, FakeDir>, memo1: map<FakeDir, FakeDir>, memo2: map<FakeDir, FakeDir>, d: FakeDir,
                  copy: map<string, Node>, done: set<string>)
    requires CopiedSince(g, memo0, memo1, {d}) && CopiedSince(g, memo1, memo2, {}) && d in memo1 && d in g
    requires PartlyCopied(g[d], copy, done, memo1)
    ensures CopiedSince(g, memo0, memo2, {d}) && PartlyCopied(g[d], copy, done, memo2) && d in memo2 && memo2[d] == memo1[d]
  {
    hide CopiedSince, PartlyCopied;
    KeepsMemo(g, memo1, memo2, {});
    CopiesChain(g, memo0, memo1, memo2, d);
    PartStays(g[d], copy, done, memo1, memo2);
  }

  lemma FewerLeft(g: Graph, dirs: set<FakeDir>, memo0: map<FakeDir, FakeDir>, memo: map<FakeDir, FakeDir>, d: FakeDir)
    requires d in dirs && d in memo && d !in memo0 && CopiedSince(g, memo0, memo, {d})
    ensures dirs - memo.Keys < dirs - memo0.Keys
  {
    KeepsMemo(g, memo0, memo, {d});
    assert d in dirs - memo0.Keys && d !in dirs - memo.Keys;
  }

  /** One entry of a directory being copied. */
  method SetChild(made: FakeDir, name: string, child: Node, ghost g: Graph, ghost memo0: map<FakeDir, FakeDir>,
                  ghost memo: map<FakeDir, FakeDir>, ghost d: FakeDir, ghost done: set<string>)
    requires d in g && d in memo && memo[d] == made && Memo(memo, g.Keys) && CopiedSince(g, memo0, memo, {d})
    requires PartlyCopied(g[d], made.entries, done, memo) && name in g[d] && name !in done
    requires Covered(g[d][name], memo) && child == Renamed(g[d][name], memo)
    modifies made
    ensures CopiedSince(g, memo0, memo, {d}) && PartlyCopied(g[d], made.entries, done + {name}, memo)
  {
    made.entries := made.entries[name := child];
  }

  /** Copies made later leave those made before as they were. */
  lemma CopiesChain(g: Graph, memo0: map<FakeDir, FakeDir>, memo1: map<FakeDir, FakeDir>, memo2: map<FakeDir, FakeDir>, d: FakeDir)
    requires CopiedSince(g, memo0, memo1, {d}) && CopiedSince(g, memo1, memo2, {})
    ensures CopiedSince(g, memo0, memo2, {d})
  {
    forall x | x in memo2 && x !in memo0 && x != d
      ensures x in g && AllCovered(g[x], memo2) && memo2[x].entries == RenamedAll(g[x], memo2)
    {
      if x in memo1 {
        assert memo2[x] == memo1[x];
        forall k | k in g[x] ensures Covered(g[x][k], memo2) && Renamed(g[x][k], memo2) == Renamed(g[x][k], memo1) {
          assert Covered(g[x][k], memo1);
        }
      }
    }
  }

  lemma PartStays(es: map<string, Node>, copy: map<string, Node>, done: set<string>, memo1: map<FakeDir, FakeDir>, memo2: map<FakeDir, FakeDir>)
    requires PartlyCopied(es, copy, done, memo1) && forall d :: d in memo1 ==> d in memo2 && memo2[d] == memo1[d]
    ensures PartlyCopied(es, copy, done, memo2)
  {
  }

  lemma CopyWhole(g: Graph, memo0: map<FakeDir, FakeDir>, memo: map<FakeDir, FakeDir>, d: FakeDir)
    requires d in g && d in memo && d !in memo0 && CopiedSince(g, memo0, memo, {d})
    requires PartlyCopied(g[d], memo[d].entries, g[d].Keys, memo)
    ensures CopiedSince(g, memo0, memo, {})
  {
    assert memo[d].entries == RenamedAll(g[d], memo) by {
      assert forall k :: k in g[d] <==> k in g[d].Keys;
    }
  }

  lemma KeyErrorNeedsRoot(t: Tree, from: Path, to: Path)
    requires from != [] && to != [] && MoveOutcome(t, from, to) == KeyError
    ensures Last(from) == "root" && FinalSlot(t, from, to) != Slot(from)
  {
    SlotIsCanon(from);
  }

  lemma BareTree(root: FakeDir)
    ensures StandsFor(map[root := map[]], root, map[[] := IsDir]) && Closed(map[root := map[]], root)
  {
    var g: Graph := map[root := map[]];
    forall q ensures Reach(g, root, q) == if q == [] then Some(DirNode(root)) else None { ReachEmpty(g, root, q); }
    Standing(g, root, map[[] := IsDir]);
  }

  lemma RootIn(g: Graph, root: FakeDir)
    requires Closed(g, root)
    ensures root in g
  {
  }

  lemma WalkStart(g: Graph, root: FakeDir)
    ensures forall parts: Path {:trigger parts[..0]} :: Walk(g, root, parts[..0]) == Some(DirNode(root))
  {
  }

  /** One step of a lookup: what it misses, the whole walk misses. */
  lemma WalkOn(g: Graph, root: FakeDir, parts: Path, i: nat)
    requires i < |parts|
    ensures Walk(g, root, parts[..i + 1]) == if parts[i] == "root" then Walk(g, root, parts[..i]) else EntryIn(g, Walk(g, root, parts[..i]), parts[i])
    ensures Walk(g, root, parts[..i + 1]) == None ==> Walk(g, root, parts) == None
  {
    hide Canon, ReachFrom;
    assert parts[..i + 1] == parts[..i] + [parts[i]];
    CanonSnoc(parts[..i], parts[i]);
    ReachStep(g, root, Canon(parts[..i]), parts[i]);
    CanonPrefix(parts, i + 1);
    var p, q := Canon(parts[..i + 1]), Canon(parts);
    assert q == p + q[|p|..];
    ReachJoin(g, Some(DirNode(root)), p, q[|p|..]);
    ReachNone(g, q[|p|..]);
  }

  /** The graph with the copies in it, before the copy is stored anywhere. */
  lemma CopiesClosed(g: Graph, g': Graph, root: FakeDir, node: Node, iso: map<FakeDir, FakeDir>)
    requires Closed(g, root) && NodeIn(g, node) && Duplicate(g, node, iso) && g'.Keys == g.Keys + iso.Values
    requires forall d {:trigger iso[d]} :: d in iso ==> iso[d] in g' && g'[iso[d]] == RenamedAll(g[d], iso)
    requires forall d {:trigger g'[d]} :: d in g ==> d in g' && g'[d] == g[d]
    ensures Closed(g', root) && NodeIn(g', Renamed(node, iso))
  {
    RenamedIn(g, g', node, iso);
    forall x | x in g' ensures AllIn(g', g'[x]) {
      if x in g {
        assert AllIn(g, g[x]);
      } else {
        var d :| d in iso && iso[d] == x;
        assert AllIn(g, g[d]) && AllCovered(g[d], iso);
        forall k | k in g[d] ensures NodeIn(g', Renamed(g[d][k], iso)) {
          assert Covered(g[d][k], iso);
          RenamedIn(g, g', g[d][k], iso);
        }
      }
    }
  }

  ghost const TWO_DIRS: Tree := map[[] := IsDir, ["tmp"] := IsDir, ["root"] := IsDir]

  /** `mkdir /tmp` in a fresh session. */
  method OneDirectory() returns (fs: FakeFilesystem, ghost tmp: FakeDir)
    ensures fresh(fs) && fresh(fs.dirs) && fs.Valid() && fs.cwdPath == ["root"]
    ensures fs.root != tmp && fs.Heap() == TmpMade(fs.root, tmp)
    ensures StandsFor(fs.Heap(), fs.root, FakeTree.MakeDir(map[[] := IsDir], ["tmp"]))
  {
    hide Closed, Clean, StandsFor, FakeTree.Resolve, FakeTree.MakeDir, MakeDirIn, TmpMade;
    fs := new FakeFilesystem();
    TmpAndRoot(fs.cwdPath);
    tmp := fs.MakeDir("/tmp");
    MakesTmp(fs.root, tmp);
  }

  /** `mkdir /tmp; mkdir /root`. */
  method TwoDirectories() returns (fs: FakeFilesystem, ghost tmp: FakeDir, ghost home: FakeDir)
    ensures fresh(fs) && fresh(fs.dirs) && fs.Valid() && fs.cwdPath == ["root"]
    ensures fs.root != tmp && fs.root != home && tmp != home && fs.Heap() == RootMade(fs.root, tmp, home)
    ensures StandsFor(fs.Heap(), fs.root, TWO_DIRS)
  {
    hide Closed, Clean, StandsFor, FakeTree.Resolve, FakeTree.MakeDir, MakeDirIn, RootMade;
    fs, tmp := OneDirectory();
    TmpAndRoot(fs.cwdPath);
    TrailingRootMove(fs.cwdPath);
    assert tmp in fs.Heap() && fs.root in fs.Heap();
    home := fs.MakeDir("/root");
    MakesRoot(fs.root, tmp, home);
  }

  /** A session can leave the trees: `mkdir /tmp; mkdir /root; mv / /tmp/x` leaves directories that form none. */
  method RootMoved() returns (fs: FakeFilesystem, outcome: Outcome, ghost tmp: FakeDir)
    ensures fresh(fs) && fresh(fs.dirs) && fs.Valid() && outcome == Done && fs.cwdPath == ["root"]
    ensures forall t {:trigger StandsFor(fs.Heap(), fs.root, t)} :: !StandsFor(fs.Heap(), fs.root, t)
    ensures Looped(fs.Heap(), fs.root, tmp)
  {
    hide Closed, Clean, StandsFor, FakeTree.Resolve, MoveOutcome, FinalSlot, MoveIn, RootMade, Looped;
    ghost var home;
    fs, tmp, home := TwoDirectories();
    ResolveSlash(fs.cwdPath);
    TrailingRootMove(fs.cwdPath);
    ghost var g := fs.Heap();
    outcome := fs.MoveNode("/", "/tmp/x");
    MovedIntoTmp(g, fs.root, tmp, home);
  }

  /** The directory `tmp` of the root holds the root itself under the name x. */
  ghost predicate Looped(g: Graph, root: FakeDir, tmp: FakeDir) {
    && root in g && tmp in g && tmp != root && g[tmp] == map["x" := DirNode(root)]
    && "tmp" in g[root] && g[root]["tmp"] == DirNode(tmp)
  }

  lemma WalkOne(g: Graph, root: FakeDir, name: string)
    requires name != "root"
    ensures Canon([]) == [] && Canon([name]) == [name] && Init([name]) == [] && Last([name]) == name
    ensures Walk(g, root, []) == Some(DirNode(root)) && Walk(g, root, [name]) == EntryIn(g, Some(DirNode(root)), name)
  {
    CanonSnoc([], name);
    assert [] + [name] == [name];
    ReachStep(g, root, [], name);
  }

  lemma WalkTwo(g: Graph, root: FakeDir, a: string, b: string)
    requires a != "root" && b != "root"
    ensures Canon([a, b]) == [a, b] && Init([a, b]) == [a] && Last([a, b]) == b
    ensures Walk(g, root, [a, b]) == EntryIn(g, Walk(g, root, [a]), b)
  {
    WalkOne(g, root, a);
    CanonSnoc([a], b);
    assert [a] + [b] == [a, b];
    ReachStep(g, root, [a], b);
  }

  ghost function TmpMade(root: FakeDir, tmp: FakeDir): Graph {
    map[root := map["tmp" := DirNode(tmp)], tmp := map[]]
  }

  ghost function RootMade(root: FakeDir, tmp: FakeDir, home: FakeDir): Graph {
    map[root := map["tmp" := DirNode(tmp), "root" := DirNode(home)], tmp := map[], home := map[]]
  }

  lemma MakesTmp(root: FakeDir, tmp: FakeDir)
    requires root != tmp
    ensures MakeDirIn(map[root := map[]], root, ["tmp"], tmp) == TmpMade(root, tmp)
  {
    hide Canon, ReachFrom;
    WalkOne(map[root := map[]], root, "tmp");
  }

  lemma MakesRoot(root: FakeDir, tmp: FakeDir, home: FakeDir)
    requires root != tmp && root != home && tmp != home
    ensures MakeDirIn(TmpMade(root, tmp), root, ["root"], home) == RootMade(root, tmp, home)
  {
    hide Canon, ReachFrom;
    WalkOne(TmpMade(root, tmp), root, "tmp");
    assert Init(["root"]) == [] && Last(["root"]) == "root" && "root" != "tmp";
  }

  lemma MovedIntoTmp(g: Graph, root: FakeDir, tmp: FakeDir, home: FakeDir)
    requires root != tmp && root != home && tmp != home && g == RootMade(root, tmp, home)
    ensures Looped(MoveIn(g, root, ["root"], ["tmp", "x"]).1, root, tmp)
  {
    hide Canon, ReachFrom;
    CanonSnoc([], "root");
    assert [] + ["root"] == ["root"];
    assert Init(["root"]) == [] && Last(["root"]) == "root";
    WalkOne(g, root, "tmp");
    WalkTwo(g, root, "tmp", "x");
    var src: Path, dst: Path := ["root"], ["tmp", "x"];
    assert Walk(g, root, src) == Some(DirNode(root)) && ParentOf(g, root, src) == Some(root);
    assert Destination(g, root, src, dst) == Some((tmp, "x"));
  }

  lemma WalkThree(g: Graph, root: FakeDir, a: string, b: string, c: string)
    requires a != "root" && b != "root" && c != "root"
    ensures Canon([a, b, c]) == [a, b, c] && Init([a, b, c]) == [a, b] && Last([a, b, c]) == c
    ensures Walk(g, root, [a, b, c]) == EntryIn(g, Walk(g, root, [a, b]), c)
  {
    WalkTwo(g, root, a, b);
    CanonSnoc([a, b], c);
    assert [a, b] + [c] == [a, b, c];
    ReachStep(g, root, [a, b], c);
  }

  lemma LoopedWalk(g: Graph, root: FakeDir, tmp: FakeDir)
    requires Looped(g, root, tmp)
    ensures Walk(g, root, ["tmp"]) == Some(DirNode(tmp)) && Walk(g, root, ["tmp", "x"]) == Some(DirNode(root))
  {
    hide Canon, ReachFrom;
    WalkOne(g, root, "tmp");
    WalkTwo(g, root, "tmp", "x");
  }

  /** Where directories are shared, writing at one path shows at another that is not below it. */
  lemma SharedWrite(g: Graph, root: FakeDir, tmp: FakeDir, text: string)
    requires Looped(g, root, tmp)
    ensures var g' := WriteIn(g, root, ["tmp", "x", "foo"], text);
            Looped(g', root, tmp) && ReadIn(g', root, ["foo"]) == Content(text)
  {
    hide Canon, ReachFrom;
    LoopedWalk(g, root, tmp);
    WalkThree(g, root, "tmp", "x", "foo");
    var g' := WriteIn(g, root, ["tmp", "x", "foo"], text);
    assert g' == Stored(g, root, "foo", Leaf(IsFile(text))) && "foo" != "tmp";
    WalkOne(g', root, "foo");
  }

  /** Where a walk to a directory goes round, writing there can cut the very path written. */
  lemma LostWrite(g: Graph, root: FakeDir, tmp: FakeDir, text: string)
    requires Looped(g, root, tmp)
    ensures ReadIn(WriteIn(g, root, ["tmp", "x", "tmp"], text), root, ["tmp", "x", "tmp"]) == Nothing
  {
    hide Canon, ReachFrom;
    LoopedWalk(g, root, tmp);
    WalkThree(g, root, "tmp", "x", "tmp");
    var g' := WriteIn(g, root, ["tmp", "x", "tmp"], text);
    assert g' == Stored(g, root, "tmp", Leaf(IsFile(text)));
    WalkOne(g', root, "tmp");
    WalkTwo(g', root, "tmp", "x");
    WalkThree(g', root, "tmp", "x", "tmp");
  }

  lemma ResolveTmpX(cwd: Path, name: string)
    requires Component(name)
    ensures Resolve(cwd, "/" + name) == [name] && Resolve(cwd, "/tmp/x/" + name) == ["tmp", "x", name]
  {
    hide Resolve;
    assert Component("tmp") && Component("x");
    ResolveAbsolute(cwd, [name]);
    ResolveAbsolute(cwd, ["tmp", "x", name]);
    assert ["tmp", "x", name][1..] == ["x", name] && ["x", name][1..] == [name];
    assert JoinSlash(["tmp", "x", name]) == "tmp" + "/" + ("x" + "/" + name);
    assert "/" + ("tmp" + "/" + ("x" + "/" + name)) == "/tmp/x/" + name;
  }

  /** Both happen in a session: after `mv / /tmp/x`, what is written at /tmp/x/foo is read at /foo, and what is
      written at /tmp/x/tmp cannot be read there. */
  method LoopedWrites() returns (fs: FakeFilesystem, shared: Reading, lost: Reading)
    ensures fresh(fs) && fs.Valid() && shared == Content("a") && lost == Nothing
  {
    hide Closed, Clean, StandsFor, FakeTree.Resolve, WriteIn, ReadIn, Looped;
    var outcome;
    ghost var tmp;
    fs, outcome, tmp := RootMoved();
    ResolveTmpX(fs.cwdPath, "foo");
    ResolveTmpX(fs.cwdPath, "tmp");
    assert "/tmp/x/" + "foo" == "/tmp/x/foo" && "/" + "foo" == "/foo" && "/tmp/x/" + "tmp" == "/tmp/x/tmp";
    ghost var g := fs.Heap();
    fs.WriteFile("/tmp/x/foo", "a");
    SharedWrite(g, fs.root, tmp, "a");
    shared := fs.ReadFile("/foo");
    g := fs.Heap();
    fs.WriteFile("/tmp/x/tmp", "hi");
    LostWrite(g, fs.root, tmp, "hi");
    lost := fs.ReadFile("/tmp/x/tmp");
  }
}
