/** The directory objects of the fake file system as a graph: any objects holding any others, shared and circular
    ones included, and what the operations of honeypot/shell/filesystem.py do to them. */
module FakeGraph {
  import opened Basics
  import opened FakeTree

  class FakeDir {
    var entries: map<string, Node>

    constructor ()
      ensures entries == map[]
    {
      entries := map[];
    }
  }

  /** What a directory entry holds; files and links are never changed, only replaced. */
  datatype Node = DirNode(dir: FakeDir) | Leaf(kind: Kind)

  /** The entries of every directory there is. */
  type Graph = map<FakeDir, map<string, Node>>

  function KindOf(n: Node): Kind {
    match n case DirNode(_) => IsDir case Leaf(kind) => kind
  }

  function KindAt(n: Option<Node>): Option<Kind> {
    match n case Some(node) => Some(KindOf(node)) case None => None
  }

  ghost predicate NodeIn(g: Graph, n: Node) {
    match n case DirNode(d) => d in g case Leaf(kind) => kind != IsDir
  }

  ghost predicate AllIn(g: Graph, es: map<string, Node>) {
    forall k {:trigger es[k]} :: k in es ==> NodeIn(g, es[k])
  }

  /** Every directory held by one of the graph is in the graph. */
  ghost predicate Closed(g: Graph, root: FakeDir) {
    root in g && forall d {:trigger AllIn(g, g[d])} :: d in g ==> AllIn(g, g[d])
  }

  // ---------------------------------------------------------------- walking

  ghost function EntryIn(g: Graph, n: Option<Node>, name: string): Option<Node> {
    if n.Some? && n.value.DirNode? && n.value.dir in g && name in g[n.value.dir] then Some(g[n.value.dir][name]) else None
  }

  ghost function ReachFrom(g: Graph, n: Option<Node>, q: Path): Option<Node>
    decreases |q|
  {
    if q == [] then n else EntryIn(g, ReachFrom(g, n, Init(q)), Last(q))
  }

  /** Where the entries named by `q` lead from the root, one after the other. */
  ghost function Reach(g: Graph, root: FakeDir, q: Path): Option<Node> { ReachFrom(g, Some(DirNode(root)), q) }

  /** `_lookup`. */
  ghost function Walk(g: Graph, root: FakeDir, parts: Path): Option<Node> { Reach(g, root, Canon(parts)) }

  lemma {:induction false} ReachJoin(g: Graph, n: Option<Node>, a: Path, b: Path)
    ensures ReachFrom(g, n, a + b) == ReachFrom(g, ReachFrom(g, n, a), b)
    decreases |b|
  {
    if b == [] {
      assert a + b == a;
    } else {
      assert Init(a + b) == a + Init(b) && Last(a + b) == Last(b);
      ReachJoin(g, n, a, Init(b));
    }
  }

  lemma ReachSnoc(g: Graph, n: Option<Node>, q: Path, name: string)
    ensures ReachFrom(g, n, q + [name]) == EntryIn(g, ReachFrom(g, n, q), name)
  {
    assert Init(q + [name]) == q && Last(q + [name]) == name;
  }

  lemma {:induction false} ReachNone(g: Graph, q: Path)
    ensures ReachFrom(g, None, q) == None
    decreases |q|
  {
    if q != [] { ReachNone(g, Init(q)); }
  }

  /** Nothing lies below what is missing or is no directory. */
  lemma {:induction false} ReachLeaf(g: Graph, n: Option<Node>, q: Path)
    requires q != [] && (n == None || n.value.Leaf?)
    ensures ReachFrom(g, n, q) == None
    decreases |q|
  {
    if |q| > 1 { ReachLeaf(g, n, Init(q)); } else { assert Init(q) == []; }
  }

  lemma {:induction false} ReachIn(g: Graph, root: FakeDir, q: Path)
    requires Closed(g, root)
    ensures Reach(g, root, q).Some? ==> NodeIn(g, Reach(g, root, q).value)
    decreases |q|
  {
    if q != [] {
      ReachIn(g, root, Init(q));
      var n := Reach(g, root, Init(q));
      if n.Some? && n.value.DirNode? { assert AllIn(g, g[n.value.dir]); }
    }
  }

  // ---------------------------------------------------------------- reading and writing

  /** `_resolve_symlink`. */
  ghost function FollowIn(g: Graph, parent: Option<Node>, n: Option<Node>, fuel: nat): Option<Node>
    decreases fuel
  {
    if n.Some? && KindOf(n.value).IsLink? && fuel > 0
    then FollowIn(g, parent, EntryIn(g, parent, KindOf(n.value).target), fuel - 1)
    else n
  }

  function ReadingOf(kind: Option<Kind>): Reading {
    match kind
    case Some(IsFile(text)) => Content(text)
    case Some(IsDynamic(generator)) => Generated(generator)
    case _ => Nothing
  }

  /** `read_file`, from resolved components. */
  ghost function ReadIn(g: Graph, root: FakeDir, parts: Path): Reading
    requires parts != []
  {
    ReadingOf(KindAt(FollowIn(g, Walk(g, root, Init(parts)), Walk(g, root, parts), 8)))
  }

  /** The directory that holds the last component. */
  ghost function ParentOf(g: Graph, root: FakeDir, parts: Path): Option<FakeDir>
    requires parts != []
  {
    var n := Walk(g, root, Init(parts));
    if n.Some? && n.value.DirNode? && n.value.dir in g then Some(n.value.dir) else None
  }

  /** `entries[name] = node`. */
  ghost function Stored(g: Graph, d: FakeDir, name: string, node: Node): Graph
    requires d in g
  {
    g[d := g[d][name := node]]
  }

  ghost function Dropped(g: Graph, d: FakeDir, name: string): Graph
    requires d in g
  {
    g[d := g[d] - {name}]
  }

  /** `write_file`. */
  ghost function WriteIn(g: Graph, root: FakeDir, parts: Path, text: string): Graph
    requires parts != []
  {
    match ParentOf(g, root, parts) case Some(d) => Stored(g, d, Last(parts), Leaf(IsFile(text))) case None => g
  }

  /** `remove`. */
  ghost function RemoveIn(g: Graph, root: FakeDir, parts: Path): Graph
    requires parts != []
  {
    match ParentOf(g, root, parts) case Some(d) => Dropped(g, d, Last(parts)) case None => g
  }

  /** `make_dir`, where `made` is the new directory if one is made. */
  ghost function MakeDirIn(g: Graph, root: FakeDir, parts: Path, made: FakeDir): Graph
    requires parts != []
  {
    match ParentOf(g, root, parts)
    case Some(d) => if Last(parts) in g[d] then g else Stored(g, d, Last(parts), DirNode(made))[made := map[]]
    case None => g
  }

  /** The walk along `q` comes by the entry `name` of directory `d`, or asks for it in vain. */
  ghost predicate Uses(g: Graph, root: FakeDir, q: Path, d: FakeDir, name: string) {
    exists i {:trigger q[..i]} :: 0 <= i < |q| && Reach(g, root, q[..i]) == Some(DirNode(d)) && q[i] == name
  }

  lemma UsesSnoc(g: Graph, root: FakeDir, q: Path, d: FakeDir, name: string)
    requires q != []
    ensures Uses(g, root, q, d, name)
       <==> Uses(g, root, Init(q), d, name) || (Reach(g, root, Init(q)) == Some(DirNode(d)) && Last(q) == name)
  {
    if Uses(g, root, q, d, name) {
      var i :| 0 <= i < |q| && Reach(g, root, q[..i]) == Some(DirNode(d)) && q[i] == name;
      if i < |q| - 1 { assert Init(q)[..i] == q[..i]; }
    }
    if Uses(g, root, Init(q), d, name) {
      var i :| 0 <= i < |Init(q)| && Reach(g, root, Init(q)[..i]) == Some(DirNode(d)) && Init(q)[i] == name;
      assert Init(q)[..i] == q[..i];
    }
    assert q[..|q| - 1] == Init(q);
  }

  /** The second graph differs from the first at most in one entry, and in directories the first does not have. */
  ghost predicate OneEntry(g: Graph, g': Graph, d: FakeDir, name: string) {
    && d in g && d in g' && (forall x {:trigger x in g} {:trigger x in g'} :: x in g ==> x in g' && (x != d ==> g'[x] == g[x]))
    && (forall k {:trigger k in g'[d]} {:trigger k in g[d]} :: k != name ==> (k in g'[d] <==> k in g[d]) && (k in g[d] ==> g'[d][k] == g[d][k]))
  }

  /** Changing one entry changes only the walks that use it. */
  lemma {:induction false} UnusedSame(g: Graph, g': Graph, root: FakeDir, d: FakeDir, name: string, q: Path)
    requires Closed(g, root) && OneEntry(g, g', d, name) && !Uses(g, root, q, d, name)
    ensures Reach(g', root, q) == Reach(g, root, q)
    decreases |q|
  {
    hide Closed, Uses;
    if q != [] {
      UsesSnoc(g, root, q, d, name);
      UnusedSame(g, g', root, d, name, Init(q));
      ReachIn(g, root, Init(q));
    }
  }

  /** A walk that uses an entry now holding a file ends there. */
  lemma {:induction false} UsedWritten(g: Graph, g': Graph, root: FakeDir, d: FakeDir, name: string, leaf: Node, q: Path)
    requires Closed(g, root) && OneEntry(g, g', d, name) && Uses(g, root, q, d, name)
    requires leaf.Leaf? && name in g'[d] && g'[d][name] == leaf
    ensures Reach(g', root, q) == None || Reach(g', root, q) == Some(leaf)
    decreases |q|
  {
    hide Closed, Uses, OneEntry;
    NoUse(g, root, d, name);
    UsesSnoc(g, root, q, d, name);
    if Uses(g, root, Init(q), d, name) {
      UsedWritten(g, g', root, d, name, leaf, Init(q));
    } else {
      UnusedSame(g, g', root, d, name, Init(q));
    }
  }

  lemma UsesName(g: Graph, root: FakeDir, q: Path, d: FakeDir, name: string)
    requires Uses(g, root, q, d, name)
    ensures name in q
  {
  }

  lemma NoUse(g: Graph, root: FakeDir, d: FakeDir, name: string)
    ensures !Uses(g, root, [], d, name)
  {
  }

  lemma ParentIs(g: Graph, root: FakeDir, parts: Path)
    requires Closed(g, root) && parts != []
    ensures ParentOf(g, root, parts).Some? <==> Walk(g, root, Init(parts)).Some? && Walk(g, root, Init(parts)).value.DirNode?
    ensures ParentOf(g, root, parts).Some? ==>
              ParentOf(g, root, parts).value in g && Walk(g, root, Init(parts)) == Some(DirNode(ParentOf(g, root, parts).value))
  {
    ReachIn(g, root, Canon(Init(parts)));
  }

  /** What is written into an existing directory can be read back, whatever the objects share, if and only if the
      last component is not "root" and the walk to the directory does not itself use the entry written. */
  lemma WriteThenRead(g: Graph, root: FakeDir, parts: Path, text: string)
    requires Closed(g, root) && parts != [] && ParentOf(g, root, parts).Some?
    ensures ReadIn(WriteIn(g, root, parts, text), root, parts) == Content(text)
       <==> Last(parts) != "root" && !Uses(g, root, Canon(Init(parts)), ParentOf(g, root, parts).value, Last(parts))
  {
    hide Closed, Uses, Reach, Canon;
    ParentIs(g, root, parts);
    var d, name, p := ParentOf(g, root, parts).value, Last(parts), Canon(Init(parts));
    var g', leaf := WriteIn(g, root, parts, text), Leaf(IsFile(text));
    assert parts == Init(parts) + [name];
    CanonSnoc(Init(parts), name);
    CanonClean(Init(parts));
    if Uses(g, root, p, d, name) {
      UsesName(g, root, p, d, name);
      UsedWritten(g, g', root, d, name, leaf, p);
    } else {
      UnusedSame(g, g', root, d, name, p);
    }
    if name != "root" { ReachStep(g', root, p, name); }
  }

  lemma ReachStep(g: Graph, root: FakeDir, q: Path, name: string)
    ensures Reach(g, root, q + [name]) == EntryIn(g, Reach(g, root, q), name)
  {
    ReachSnoc(g, Some(DirNode(root)), q, name);
  }

  /** Every other path reads as before, unless its walk uses the entry written, when it reads the new content or
      nothing, or it is a symbolic link beside that entry. */
  lemma WriteElsewhere(g: Graph, root: FakeDir, parts: Path, text: string, other: Path)
    requires Closed(g, root) && parts != [] && other != [] && ParentOf(g, root, parts).Some?
    ensures var (d, name, g') := (ParentOf(g, root, parts).value, Last(parts), WriteIn(g, root, parts, text));
            if Uses(g, root, Canon(other), d, name)
            then ReadIn(g', root, other) == Content(text) || ReadIn(g', root, other) == Nothing
            else Walk(g', root, other) == Walk(g, root, other)
                 && (!IsLinkNode(Walk(g, root, other)) || Walk(g, root, Init(other)) != Some(DirNode(d)) ==>
                       ReadIn(g', root, other) == ReadIn(g, root, other))
  {
    hide Closed, Uses, Reach, Canon;
    var d, name, g' := ParentOf(g, root, parts).value, Last(parts), WriteIn(g, root, parts, text);
    if Uses(g, root, Canon(other), d, name) {
      UsedWritten(g, g', root, d, name, Leaf(IsFile(text)), Canon(other));
    } else {
      UnusedSame(g, g', root, d, name, Canon(other));
      UnusedInit(g, root, other, d, name);
      UnusedSame(g, g', root, d, name, Canon(Init(other)));
      if Walk(g, root, Init(other)) != Some(DirNode(d)) {
        ReachIn(g, root, Canon(Init(other)));
        FollowSame(g, g', d, Walk(g, root, Init(other)), Walk(g, root, other), 8);
      }
    }
  }

  lemma UnusedInit(g: Graph, root: FakeDir, parts: Path, d: FakeDir, name: string)
    requires parts != [] && !Uses(g, root, Canon(parts), d, name)
    ensures !Uses(g, root, Canon(Init(parts)), d, name)
  {
    hide Uses, Reach;
    var p := Canon(Init(parts));
    assert parts == Init(parts) + [Last(parts)];
    CanonSnoc(Init(parts), Last(parts));
    assert Init(p + [Last(parts)]) == p;
    UsesSnoc(g, root, p + [Last(parts)], d, name);
  }

  /** Links are followed inside one directory. */
  lemma {:induction false} FollowSame(g: Graph, g': Graph, d: FakeDir, parent: Option<Node>, n: Option<Node>, fuel: nat)
    requires (forall x {:trigger x in g} :: x in g ==> x in g' && (x != d ==> g'[x] == g[x]))
    requires parent != Some(DirNode(d)) && (IsDirNode(parent) ==> parent.value.dir in g)
    ensures FollowIn(g', parent, n, fuel) == FollowIn(g, parent, n, fuel)
    decreases fuel
  {
    if n.Some? && KindOf(n.value).IsLink? && fuel > 0 {
      FollowSame(g, g', d, parent, EntryIn(g, parent, KindOf(n.value).target), fuel - 1);
    }
  }

  ghost predicate IsDirNode(n: Option<Node>) { n.Some? && n.value.DirNode? }

  predicate IsLinkNode(n: Option<Node>) { n.Some? && KindOf(n.value).IsLink? }

  /** What is removed from an existing directory is gone, if and only if the last component is not "root", in every
      graph. */
  lemma RemoveThenGone(g: Graph, root: FakeDir, parts: Path)
    requires Closed(g, root) && parts != [] && ParentOf(g, root, parts).Some?
    ensures Walk(RemoveIn(g, root, parts), root, parts) == None <==> Last(parts) != "root"
  {
    hide Closed, Uses, Reach, Canon;
    ParentIs(g, root, parts);
    var d, name, p, g' := ParentOf(g, root, parts).value, Last(parts), Canon(Init(parts)), RemoveIn(g, root, parts);
    assert parts == Init(parts) + [name];
    CanonSnoc(Init(parts), name);
    CanonClean(Init(parts));
    if Uses(g, root, p, d, name) {
      UsesName(g, root, p, d, name);
      UsedGone(g, g', root, d, name, p);
    } else {
      UnusedSame(g, g', root, d, name, p);
    }
    if name != "root" { ReachStep(g', root, p, name); }
  }

  /** A walk that uses an entry now missing leads nowhere. */
  lemma {:induction false} UsedGone(g: Graph, g': Graph, root: FakeDir, d: FakeDir, name: string, q: Path)
    requires Closed(g, root) && OneEntry(g, g', d, name) && Uses(g, root, q, d, name) && name !in g'[d]
    ensures Reach(g', root, q) == None
    decreases |q|
  {
    hide Closed, Uses, OneEntry;
    NoUse(g, root, d, name);
    UsesSnoc(g, root, q, d, name);
    if Uses(g, root, Init(q), d, name) {
      UsedGone(g, g', root, d, name, Init(q));
    } else {
      UnusedSame(g, g', root, d, name, Init(q));
    }
  }

  /** A directory made under a free name is there afterwards, in every graph. */
  lemma MakeDirThenThere(g: Graph, root: FakeDir, parts: Path, made: FakeDir)
    requires Closed(g, root) && parts != [] && ParentOf(g, root, parts).Some? && made !in g && Last(parts) != "root"
    ensures Walk(MakeDirIn(g, root, parts, made), root, parts)
         == if Last(parts) in g[ParentOf(g, root, parts).value] then Walk(g, root, parts) else Some(DirNode(made))
  {
    hide Closed, Uses, Reach, Canon;
    ParentIs(g, root, parts);
    var d, name, p, g' := ParentOf(g, root, parts).value, Last(parts), Canon(Init(parts)), MakeDirIn(g, root, parts, made);
    assert parts == Init(parts) + [name];
    CanonSnoc(Init(parts), name);
    if name !in g[d] {
      if Uses(g, root, p, d, name) { MissingUsed(g, root, d, name, p); }
      UnusedSame(g, g', root, d, name, p);
      ReachStep(g', root, p, name);
    }
  }

  /** A walk that asks for a missing entry leads nowhere. */
  lemma MissingUsed(g: Graph, root: FakeDir, d: FakeDir, name: string, q: Path)
    requires Closed(g, root) && d in g && name !in g[d] && Uses(g, root, q, d, name)
    ensures Reach(g, root, q) == None
  {
    UsedGone(g, g, root, d, name, q);
  }

  /** Reading follows at most eight symbolic links, each to an entry of the same directory. */
  lemma ReadThroughLinks(g: Graph, root: FakeDir, parts: Path, names: seq<string>, text: string)
    requires parts != [] && names != [] && Walk(g, root, parts) == EntryIn(g, Walk(g, root, Init(parts)), names[0])
    requires forall i {:trigger names[i]} :: 0 <= i < |names| ==>
               EntryIn(g, Walk(g, root, Init(parts)), names[i])
               == Some(Leaf(if i == |names| - 1 then IsFile(text) else IsLink(names[i + 1])))
    ensures ReadIn(g, root, parts) == if |names| <= 9 then Content(text) else Nothing
  {
    FollowChain(g, Walk(g, root, Init(parts)), names, text, 8);
  }

  lemma {:induction false} FollowChain(g: Graph, parent: Option<Node>, names: seq<string>, text: string, fuel: nat)
    requires names != []
    requires forall i {:trigger names[i]} :: 0 <= i < |names| ==>
               EntryIn(g, parent, names[i]) == Some(Leaf(if i == |names| - 1 then IsFile(text) else IsLink(names[i + 1])))
    ensures ReadingOf(KindAt(FollowIn(g, parent, EntryIn(g, parent, names[0]), fuel))) == if |names| <= fuel + 1 then Content(text) else Nothing
    decreases fuel
  {
    hide EntryIn;
    if |names| > 1 && fuel > 0 {
      var rest := names[1..];
      assert forall i :: 0 <= i < |rest| ==> rest[i] == names[i + 1];
      FollowChain(g, parent, rest, text, fuel - 1);
    }
  }

  /** `cd` to the displayed working directory leads where the working directory leads, in every graph. */
  lemma DisplayStays(g: Graph, root: FakeDir, cwd: Path)
    requires cwd != [] && Clean(cwd)
    ensures Walk(g, root, Resolve(cwd, Display(cwd))) == Walk(g, root, cwd)
  {
    DisplayResolves(cwd);
  }

  // ---------------------------------------------------------------- copying and moving

  /** Where `cp` and `mv` store the node, and under which name. */
  ghost function Destination(g: Graph, root: FakeDir, src: Path, dst: Path): Option<(FakeDir, string)>
    requires src != [] && dst != []
  {
    var n := Walk(g, root, dst);
    if n.Some? && n.value.DirNode? && n.value.dir in g then Some((n.value.dir, Last(src)))
    else match ParentOf(g, root, dst) case Some(d) => Some((d, Last(dst))) case None => None
  }

  ghost function CopyOutcomeIn(g: Graph, root: FakeDir, src: Path, dst: Path): Outcome
    requires src != [] && dst != []
  {
    if Walk(g, root, src) == None then NoSuchSource
    else if Destination(g, root, src, dst) == None then NoSuchTarget
    else Done
  }

  ghost function Renamed(n: Node, iso: map<FakeDir, FakeDir>): Node {
    if n.DirNode? && n.dir in iso then DirNode(iso[n.dir]) else n
  }

  ghost function RenamedAll(es: map<string, Node>, iso: map<FakeDir, FakeDir>): map<string, Node> {
    map k | k in es :: Renamed(es[k], iso)
  }

  ghost predicate Covered(n: Node, iso: map<FakeDir, FakeDir>) { n.DirNode? ==> n.dir in iso }

  ghost predicate AllCovered(es: map<string, Node>, iso: map<FakeDir, FakeDir>) {
    forall k {:trigger es[k]} :: k in es ==> Covered(es[k], iso)
  }

  ghost predicate OneToOne(iso: map<FakeDir, FakeDir>) {
    forall a, b {:trigger iso[a], iso[b]} :: a in iso && b in iso && iso[a] == iso[b] ==> a == b
  }

  /** A deep copy of node `n`: every directory it leads to has exactly one new counterpart, and the counterparts
      hold each other as the originals do. */
  ghost predicate Duplicate(g: Graph, n: Node, iso: map<FakeDir, FakeDir>) {
    && Covered(n, iso) && OneToOne(iso)
    && (forall d {:trigger iso[d]} :: d in iso ==> d in g && iso[d] !in g && AllCovered(g[d], iso))
  }

  /** `cp`, with the correspondence that `copy.deepcopy` leaves behind. */
  ghost predicate CopiedIn(g: Graph, g': Graph, root: FakeDir, src: Path, dst: Path, iso: map<FakeDir, FakeDir>)
    requires src != [] && dst != [] && CopyOutcomeIn(g, root, src, dst) == Done
  {
    var (node, to) := (Walk(g, root, src).value, Destination(g, root, src, dst).value);
    && Duplicate(g, node, iso) && g'.Keys == g.Keys + iso.Values
    && (forall d {:trigger iso[d]} :: d in iso ==> iso[d] in g' && g'[iso[d]] == RenamedAll(g[d], iso))
    && (forall d {:trigger g'[d]} :: d in g ==> d in g' && g'[d] == if d == to.0 then g[d][to.1 := Renamed(node, iso)] else g[d])
  }

  /** `mv`: the node is stored first, and then the source's own entry is deleted, if there is one. */
  ghost function MoveIn(g: Graph, root: FakeDir, src: Path, dst: Path): (r: (Outcome, Graph))
    requires src != [] && dst != []
  {
    var (node, from, to) := (Walk(g, root, src), ParentOf(g, root, src), Destination(g, root, src, dst));
    if node == None || from == None then (NoSuchSource, g)
    else if to == None then (NoSuchTarget, g)
    else
      var stored := Stored(g, to.value.0, to.value.1, node.value);
      if from.value in stored && Last(src) in stored[from.value] then (Done, Dropped(stored, from.value, Last(src)))
      else (KeyError, stored)
  }

  // ---------------------------------------------------------------- what every operation keeps

  lemma StoredClosed(g: Graph, root: FakeDir, d: FakeDir, name: string, node: Node)
    requires Closed(g, root) && d in g && NodeIn(g, node)
    ensures Closed(Stored(g, d, name, node), root)
  {
    var g' := Stored(g, d, name, node);
    forall x | x in g' ensures AllIn(g', g'[x]) { assert AllIn(g, g[x]); }
  }

  lemma DroppedClosed(g: Graph, root: FakeDir, d: FakeDir, name: string)
    requires Closed(g, root) && d in g
    ensures Closed(Dropped(g, d, name), root)
  {
    var g' := Dropped(g, d, name);
    forall x | x in g' ensures AllIn(g', g'[x]) { assert AllIn(g, g[x]); }
  }

  lemma MadeClosed(g: Graph, root: FakeDir, made: FakeDir)
    requires Closed(g, root) && made !in g
    ensures Closed(g[made := map[]], root)
  {
    var g' := g[made := map[]];
    forall x | x in g' ensures AllIn(g', g'[x]) { assert x in g ==> AllIn(g, g[x]); }
  }

  lemma WriteClosed(g: Graph, root: FakeDir, parts: Path, text: string)
    requires Closed(g, root) && parts != []
    ensures Closed(WriteIn(g, root, parts, text), root)
  {
    hide Closed;
    if ParentOf(g, root, parts).Some? { StoredClosed(g, root, ParentOf(g, root, parts).value, Last(parts), Leaf(IsFile(text))); }
  }

  lemma RemoveClosed(g: Graph, root: FakeDir, parts: Path)
    requires Closed(g, root) && parts != []
    ensures Closed(RemoveIn(g, root, parts), root)
  {
    hide Closed;
    if ParentOf(g, root, parts).Some? { DroppedClosed(g, root, ParentOf(g, root, parts).value, Last(parts)); }
  }

  lemma MakeDirClosed(g: Graph, root: FakeDir, parts: Path, made: FakeDir)
    requires Closed(g, root) && parts != [] && made !in g
    ensures Closed(MakeDirIn(g, root, parts, made), root)
  {
    hide Closed;
    MadeClosed(g, root, made);
    if ParentOf(g, root, parts).Some? {
      var d := ParentOf(g, root, parts).value;
      StoredClosed(g[made := map[]], root, d, Last(parts), DirNode(made));
      assert Stored(g[made := map[]], d, Last(parts), DirNode(made)) == Stored(g, d, Last(parts), DirNode(made))[made := map[]];
    }
  }

  lemma MoveClosed(g: Graph, root: FakeDir, src: Path, dst: Path)
    requires Closed(g, root) && src != [] && dst != []
    ensures Closed(MoveIn(g, root, src, dst).1, root)
  {
    hide Closed;
    var (node, from, to) := (Walk(g, root, src), ParentOf(g, root, src), Destination(g, root, src, dst));
    if node.Some? && from.Some? && to.Some? {
      ReachIn(g, root, Canon(src));
      StoredClosed(g, root, to.value.0, to.value.1, node.value);
      DroppedClosed(Stored(g, to.value.0, to.value.1, node.value), root, from.value, Last(src));
    }
  }

  lemma CopyClosed(g: Graph, g': Graph, root: FakeDir, src: Path, dst: Path, iso: map<FakeDir, FakeDir>)
    requires Closed(g, root) && src != [] && dst != [] && CopyOutcomeIn(g, root, src, dst) == Done
    requires CopiedIn(g, g', root, src, dst, iso)
    ensures Closed(g', root)
  {
    hide Reach, Canon;
    var node := Walk(g, root, src).value;
    ReachIn(g, root, Canon(src));
    RenamedIn(g, g', node, iso);
    forall x | x in g' ensures AllIn(g', g'[x]) {
      if x in g {
        assert AllIn(g, g[x]);
      } else {
        var d :| d in iso && iso[d] == x;
        assert AllIn(g, g[d]) && AllCovered(g[d], iso);
        forall k | k in g[d] ensures NodeIn(g', Renamed(g[d][k], iso)) {
          assert Covered(g[d][k], iso);
          RenamedIn(g, g', g[d][k], iso);
        }
      }
    }
  }

  lemma RenamedIn(g: Graph, g': Graph, n: Node, iso: map<FakeDir, FakeDir>)
    requires NodeIn(g, n) && Covered(n, iso) && iso.Values <= g'.Keys
    ensures NodeIn(g', Renamed(n, iso))
  {
    if n.DirNode? { assert iso[n.dir] in iso.Values; }
  }
}
