/** When the directory objects form a tree, and what the operations on them then mean. */
module GraphAsTree {
  import opened Basics
  import opened FakeTree
  import opened FakeGraph

  /** Every path leads where the tree says, and no directory is reached by two paths. */
  ghost predicate StandsFor(g: Graph, root: FakeDir, t: Tree) {
    && (forall q {:trigger Reach(g, root, q)} :: KindAt(Reach(g, root, q)) == Get(t, q))
    && Unshared(g, root)
  }

  ghost predicate Unshared(g: Graph, root: FakeDir) {
    forall p, q {:trigger Reach(g, root, p), Reach(g, root, q)} ::
      IsDirNode(Reach(g, root, p)) && Reach(g, root, p) == Reach(g, root, q) ==> p == q
  }

  lemma Shown(g: Graph, root: FakeDir, t: Tree, q: Path)
    requires Closed(g, root) && StandsFor(g, root, t)
    ensures KindAt(Reach(g, root, q)) == Get(t, q)
    ensures Get(t, q) == Some(IsDir) <==> IsDirNode(Reach(g, root, q))
    ensures IsDirNode(Reach(g, root, q)) ==> Reach(g, root, q).value.dir in g
  {
    hide Closed;
    ReachIn(g, root, q);
  }

  lemma OnePath(g: Graph, root: FakeDir, t: Tree, p: Path, q: Path)
    requires StandsFor(g, root, t) && IsDirNode(Reach(g, root, p)) && Reach(g, root, p) == Reach(g, root, q)
    ensures p == q
  {
  }

  lemma StandsOk(g: Graph, root: FakeDir, t: Tree)
    requires Closed(g, root) && StandsFor(g, root, t)
    ensures TreeOk(t)
  {
    hide StandsFor, Closed;
    Shown(g, root, t, []);
    forall q | q in t && q != [] ensures Init(q) in t && t[Init(q)] == IsDir {
      Shown(g, root, t, q);
      Shown(g, root, t, Init(q));
    }
  }

  lemma ParentShown(g: Graph, root: FakeDir, t: Tree, parts: Path)
    requires Closed(g, root) && StandsFor(g, root, t) && parts != []
    ensures ParentOf(g, root, parts).Some? <==> Get(t, Canon(Init(parts))) == Some(IsDir)
    ensures ParentOf(g, root, parts).Some? ==> Reach(g, root, Canon(Init(parts))) == Some(DirNode(ParentOf(g, root, parts).value))
    ensures Slot(parts) != [] && Init(Slot(parts)) == Canon(Init(parts)) && Last(Slot(parts)) == Last(parts)
  {
    hide StandsFor, Closed, Reach, Canon;
    SlotIsCanon(parts);
    Shown(g, root, t, Canon(Init(parts)));
    ParentIs(g, root, parts);
  }

  /** In a tree a walk uses an entry exactly when it leads to or below it: never on the way to the directory itself. */
  lemma UsesBelow(g: Graph, root: FakeDir, t: Tree, p: Path, d: FakeDir, name: string, q: Path)
    requires StandsFor(g, root, t) && Reach(g, root, p) == Some(DirNode(d))
    ensures Uses(g, root, q, d, name) <==> p + [name] <= q
  {
    hide Reach;
    if Uses(g, root, q, d, name) {
      var i :| 0 <= i < |q| && Reach(g, root, q[..i]) == Some(DirNode(d)) && q[i] == name;
      assert q[..i] == p;
    }
    if p + [name] <= q { assert q[..|p|] == p && q[|p|] == name; }
  }

  // ---------------------------------------------------------------- reading

  lemma EntryShown(g: Graph, root: FakeDir, t: Tree, p: Path, name: string)
    requires Closed(g, root) && StandsFor(g, root, t)
    ensures EntryIn(g, Reach(g, root, p), name) == Reach(g, root, p + [name])
    ensures KindAt(EntryIn(g, Reach(g, root, p), name)) == if Get(t, p) == Some(IsDir) then Get(t, p + [name]) else None
  {
    hide StandsFor, Closed, Reach;
    ReachStep(g, root, p, name);
    Shown(g, root, t, p);
    Shown(g, root, t, p + [name]);
  }

  lemma {:induction false} FollowShown(g: Graph, root: FakeDir, t: Tree, p: Path, n: Option<Node>, fuel: nat)
    requires Closed(g, root) && StandsFor(g, root, t)
    ensures KindAt(FollowIn(g, Reach(g, root, p), n, fuel)) == Follow(t, p, KindAt(n), fuel)
    decreases fuel
  {
    hide StandsFor, Closed, Reach;
    if n.Some? && KindOf(n.value).IsLink? && fuel > 0 {
      var name := KindOf(n.value).target;
      EntryShown(g, root, t, p, name);
      FollowShown(g, root, t, p, EntryIn(g, Reach(g, root, p), name), fuel - 1);
    }
  }

  /** Reading means what the tree says. */
  lemma ReadIsTree(g: Graph, root: FakeDir, t: Tree, parts: Path)
    requires Closed(g, root) && StandsFor(g, root, t) && parts != []
    ensures ReadIn(g, root, parts) == Read(t, parts)
  {
    hide StandsFor, Closed, Reach, Canon, Follow, FollowIn;
    FollowShown(g, root, t, Canon(Init(parts)), Walk(g, root, parts), 8);
    Shown(g, root, t, Canon(parts));
  }

  // ---------------------------------------------------------------- changing one entry

  /** Where everything leads after one entry of the directory at `p` has changed. */
  lemma EntryChanged(g: Graph, g': Graph, root: FakeDir, t: Tree, p: Path, d: FakeDir, name: string, q: Path)
    requires Closed(g, root) && StandsFor(g, root, t) && Reach(g, root, p) == Some(DirNode(d)) && OneEntry(g, g', d, name)
    ensures !(p + [name] <= q) ==> Reach(g', root, q) == Reach(g, root, q)
    ensures p + [name] <= q ==>
              Reach(g', root, q) == ReachFrom(g', if name in g'[d] then Some(g'[d][name]) else None, Remainder(p + [name], q))
  {
    hide StandsFor, Closed, Uses, ReachFrom;
    var slot := p + [name];
    UsesBelow(g, root, t, p, d, name, q);
    UsesBelow(g, root, t, p, d, name, p);
    if !(slot <= q) {
      UnusedSame(g, g', root, d, name, q);
    } else {
      UnusedSame(g, g', root, d, name, p);
      ReachStep(g', root, p, name);
      assert q == slot + Remainder(slot, q);
      ReachJoin(g', Some(DirNode(root)), slot, Remainder(slot, q));
    }
  }

  /** A leaf or nothing stored at `slot`. */
  lemma LeafStored(g: Graph, g': Graph, root: FakeDir, t: Tree, t': Tree, slot: Path, d: FakeDir)
    requires Closed(g, root) && StandsFor(g, root, t) && slot != []
    requires Reach(g, root, Init(slot)) == Some(DirNode(d)) && OneEntry(g, g', d, Last(slot))
    requires Last(slot) in g'[d] ==> g'[d][Last(slot)].Leaf?
    requires forall q {:trigger Get(t', q)} :: Get(t', q) ==
               if !(slot <= q) then Get(t, q)
               else if q == slot && Last(slot) in g'[d] then Some(KindOf(g'[d][Last(slot)])) else None
    ensures StandsFor(g', root, t')
  {
    hide StandsFor, Closed, Reach;
    var name, n := Last(slot), if Last(slot) in g'[d] then Some(g'[d][Last(slot)]) else None;
    assert slot == Init(slot) + [name];
    forall q ensures KindAt(Reach(g', root, q)) == Get(t', q) && (slot <= q ==> !IsDirNode(Reach(g', root, q)))
      ensures !(slot <= q) ==> Reach(g', root, q) == Reach(g, root, q)
    {
      EntryChanged(g, g', root, t, Init(slot), d, name, q);
      Shown(g, root, t, q);
      if slot <= q {
        if q != slot { ReachLeaf(g', n, Remainder(slot, q)); } else { assert Remainder(slot, q) == []; }
      }
    }
    StandsAgain(g, g', root, t, t', slot);
  }

  /** Nothing is shared as long as every directory still reached is reached where it was. */
  lemma StandsAgain(g: Graph, g': Graph, root: FakeDir, t: Tree, t': Tree, slot: Path)
    requires StandsFor(g, root, t)
    requires forall q {:trigger Reach(g', root, q)} :: KindAt(Reach(g', root, q)) == Get(t', q)
    requires forall q {:trigger Reach(g', root, q)} ::
               (slot <= q ==> !IsDirNode(Reach(g', root, q))) && (!(slot <= q) ==> Reach(g', root, q) == Reach(g, root, q))
    ensures StandsFor(g', root, t')
  {
    hide Reach;
  }

  /** `write_file` means what the tree says, and leaves a tree. */
  lemma WriteIsTree(g: Graph, root: FakeDir, t: Tree, parts: Path, text: string)
    requires Closed(g, root) && StandsFor(g, root, t) && parts != []
    ensures StandsFor(WriteIn(g, root, parts, text), root, Write(t, parts, text))
  {
    hide StandsFor, Closed, Reach, Canon, Put, Slot;
    ParentShown(g, root, t, parts);
    if ParentOf(g, root, parts).Some? {
      var slot := Slot(parts);
      forall q ensures Get(Write(t, parts, text), q) == if slot <= q then (if q == slot then Some(IsFile(text)) else None) else Get(t, q) {
        GetPut(t, slot, IsFile(text), q);
      }
      LeafStored(g, WriteIn(g, root, parts, text), root, t, Write(t, parts, text), slot, ParentOf(g, root, parts).value);
    }
  }

  lemma GetPut(t: Tree, slot: Path, kind: Kind, q: Path)
    ensures Get(Put(t, slot, kind), q) == if slot <= q then (if q == slot then Some(kind) else None) else Get(t, q)
  {
  }

  /** `remove` likewise. */
  lemma RemoveIsTree(g: Graph, root: FakeDir, t: Tree, parts: Path)
    requires Closed(g, root) && StandsFor(g, root, t) && parts != []
    ensures StandsFor(RemoveIn(g, root, parts), root, Remove(t, parts))
  {
    hide StandsFor, Closed, Reach, Canon, Slot;
    ParentShown(g, root, t, parts);
    if ParentOf(g, root, parts).Some? {
      LeafStored(g, RemoveIn(g, root, parts), root, t, Remove(t, parts), Slot(parts), ParentOf(g, root, parts).value);
    }
  }

  /** `make_dir` likewise. */
  lemma MakeDirIsTree(g: Graph, root: FakeDir, t: Tree, parts: Path, made: FakeDir)
    requires Closed(g, root) && StandsFor(g, root, t) && parts != [] && made !in g
    ensures StandsFor(MakeDirIn(g, root, parts, made), root, MakeDir(t, parts))
  {
    hide StandsFor, Closed, Canon, Put, Slot, ReachFrom;
    ParentShown(g, root, t, parts);
    if ParentOf(g, root, parts).Some? {
      var slot, d, g', t' := Slot(parts), ParentOf(g, root, parts).value, MakeDirIn(g, root, parts, made), MakeDir(t, parts);
      var name := Last(parts);
      assert slot == Init(slot) + [name];
      EntryShown(g, root, t, Init(slot), name);
      if name !in g[d] {
        forall q ensures KindAt(Reach(g', root, q)) == Get(t', q)
          ensures Reach(g', root, q) == if q == slot then Some(DirNode(made)) else if slot <= q then None else Reach(g, root, q)
        {
          GetPut(t, slot, IsDir, q);
          EntryChanged(g, g', root, t, Init(slot), d, name, q);
          Shown(g, root, t, q);
          if slot <= q { ReachEmpty(g', made, Remainder(slot, q)); }
        }
        MadeApart(g, g', root, t, t', slot, made);
      }
    }
  }

  lemma {:induction false} ReachEmpty(g: Graph, made: FakeDir, q: Path)
    requires made in g && g[made] == map[]
    ensures ReachFrom(g, Some(DirNode(made)), q) == if q == [] then Some(DirNode(made)) else None
    decreases |q|
  {
    if q != [] { ReachEmpty(g, made, Init(q)); }
  }

  lemma MadeApart(g: Graph, g': Graph, root: FakeDir, t: Tree, t': Tree, slot: Path, made: FakeDir)
    requires Closed(g, root) && StandsFor(g, root, t) && made !in g
    requires forall q {:trigger Reach(g', root, q)} :: KindAt(Reach(g', root, q)) == Get(t', q)
    requires forall q {:trigger Reach(g', root, q)} ::
               Reach(g', root, q) == if q == slot then Some(DirNode(made)) else if slot <= q then None else Reach(g, root, q)
    ensures StandsFor(g', root, t')
  {
    hide Reach, Closed;
    forall p, q | IsDirNode(Reach(g', root, p)) && Reach(g', root, p) == Reach(g', root, q) ensures p == q {
      Shown(g, root, t, p);
      Shown(g, root, t, q);
    }
  }

  // ---------------------------------------------------------------- copying

  /** Where the node is stored is the final slot of the tree. */
  lemma DestinationShown(g: Graph, root: FakeDir, t: Tree, src: Path, dst: Path)
    requires Closed(g, root) && StandsFor(g, root, t) && src != [] && dst != []
    ensures var (slot, to) := (FinalSlot(t, src, dst), Destination(g, root, src, dst));
            && (to.Some? <==> Get(t, Init(slot)) == Some(IsDir))
            && (to.Some? ==> to.value.0 in g && Reach(g, root, Init(slot)) == Some(DirNode(to.value.0)) && to.value.1 == Last(slot))
  {
    hide StandsFor, Closed, Reach, Canon;
    SlotIsSource(t, src, dst);
    Shown(g, root, t, Canon(dst));
    ParentShown(g, root, t, dst);
    ParentIs(g, root, dst);
  }

  lemma {:induction false} RenamedReach(g: Graph, g': Graph, n: Node, iso: map<FakeDir, FakeDir>, r: Path)
    requires Duplicate(g, n, iso)
    requires forall d {:trigger iso[d]} :: d in iso ==> iso[d] in g' && g'[iso[d]] == RenamedAll(g[d], iso)
    ensures var there := ReachFrom(g, Some(n), r);
            ReachFrom(g', Some(Renamed(n, iso)), r) == (if there.Some? then Some(Renamed(there.value, iso)) else None)
            && (there.Some? ==> Covered(there.value, iso))
    decreases |r|
  {
    if r != [] {
      RenamedReach(g, g', n, iso, Init(r));
      var there := ReachFrom(g, Some(n), Init(r));
      if there.Some? && there.value.DirNode? { assert AllCovered(g[there.value.dir], iso); }
    }
  }

  ghost function CopiedReach(g: Graph, root: FakeDir, from: Path, slot: Path, iso: map<FakeDir, FakeDir>, q: Path): Option<Node> {
    if slot <= q then
      var there := Reach(g, root, from + Remainder(slot, q));
      if there.Some? then Some(Renamed(there.value, iso)) else None
    else Reach(g, root, q)
  }

  lemma CopyReaches(g: Graph, g': Graph, root: FakeDir, t: Tree, src: Path, dst: Path, iso: map<FakeDir, FakeDir>, q: Path)
    requires Closed(g, root) && StandsFor(g, root, t) && src != [] && dst != []
    requires CopyOutcomeIn(g, root, src, dst) == Done && CopiedIn(g, g', root, src, dst, iso)
    ensures var slot := FinalSlot(t, src, dst);
            && Reach(g', root, q) == CopiedReach(g, root, Canon(src), slot, iso, q)
            && (slot <= q && Reach(g', root, q).Some? ==> Covered(Reach(g, root, Canon(src) + Remainder(slot, q)).value, iso))
  {
    hide StandsFor, Closed, Canon, Duplicate, FinalSlot;
    var slot, node, to := FinalSlot(t, src, dst), Walk(g, root, src).value, Destination(g, root, src, dst).value;
    DestinationShown(g, root, t, src, dst);
    assert slot == Init(slot) + [Last(slot)];
    EntryChanged(g, g', root, t, Init(slot), to.0, to.1, q);
    if slot <= q {
      RenamedReach(g, g', node, iso, Remainder(slot, q));
      ReachJoin(g, Some(DirNode(root)), Canon(src), Remainder(slot, q));
    }
  }

  /** `copy_node` means what the tree says: the source's subtree appears at the final slot, nothing is shared with
      it, and the objects still form a tree. */
  lemma CopyIsTree(g: Graph, g': Graph, root: FakeDir, t: Tree, src: Path, dst: Path, iso: map<FakeDir, FakeDir>)
    requires Closed(g, root) && StandsFor(g, root, t) && src != [] && dst != []
    requires CopyOutcomeIn(g, root, src, dst) == Done && CopiedIn(g, g', root, src, dst, iso)
    ensures StandsFor(g', root, CopyTree(t, Canon(src), FinalSlot(t, src, dst)))
  {
    hide StandsFor, Closed, Canon, CopiedIn, FinalSlot, Reach, CopyTree, CopiedReach, Covered;
    var slot := FinalSlot(t, src, dst);
    forall q ensures Reach(g', root, q) == CopiedReach(g, root, Canon(src), slot, iso, q)
      ensures KindAt(Reach(g', root, q)) == Get(CopyTree(t, Canon(src), slot), q)
    {
      CopyReaches(g, g', root, t, src, dst, iso, q);
      GetCopy(t, Canon(src), slot, q);
      Shown(g, root, t, q);
      if slot <= q { Shown(g, root, t, Canon(src) + Remainder(slot, q)); }
      CopiedKind(g, root, Canon(src), slot, iso, q);
    }
    forall p, q | IsDirNode(Reach(g', root, p)) && Reach(g', root, p) == Reach(g', root, q) ensures p == q {
      CopiesApart(g, g', root, t, src, dst, iso, p, q);
    }
    Standing(g', root, CopyTree(t, Canon(src), slot));
  }

  lemma CopiedKind(g: Graph, root: FakeDir, from: Path, slot: Path, iso: map<FakeDir, FakeDir>, q: Path)
    ensures KindAt(CopiedReach(g, root, from, slot, iso, q))
         == if slot <= q then KindAt(Reach(g, root, from + Remainder(slot, q))) else KindAt(Reach(g, root, q))
  {
  }

  lemma Standing(g: Graph, root: FakeDir, t: Tree)
    requires forall q {:trigger Reach(g, root, q)} :: KindAt(Reach(g, root, q)) == Get(t, q)
    requires forall p, q {:trigger Reach(g, root, p), Reach(g, root, q)} ::
               IsDirNode(Reach(g, root, p)) && Reach(g, root, p) == Reach(g, root, q) ==> p == q
    ensures StandsFor(g, root, t)
  {
    hide Reach;
  }

  lemma CopiesApart(g: Graph, g': Graph, root: FakeDir, t: Tree, src: Path, dst: Path, iso: map<FakeDir, FakeDir>, p: Path, q: Path)
    requires Closed(g, root) && StandsFor(g, root, t) && src != [] && dst != []
    requires CopyOutcomeIn(g, root, src, dst) == Done && CopiedIn(g, g', root, src, dst, iso)
    requires IsDirNode(Reach(g', root, p)) && Reach(g', root, p) == Reach(g', root, q)
    ensures p == q
  {
    hide StandsFor, Closed, Canon, FinalSlot, Reach;
    var slot, from := FinalSlot(t, src, dst), Canon(src);
    CopyReaches(g, g', root, t, src, dst, iso, p);
    CopyReaches(g, g', root, t, src, dst, iso, q);
    Shown(g, root, t, p);
    Shown(g, root, t, q);
    if slot <= p && slot <= q {
      var a, b := from + Remainder(slot, p), from + Remainder(slot, q);
      assert Reach(g, root, a) == Reach(g, root, b);
      OnePath(g, root, t, a, b);
      assert Remainder(slot, p) == a[|from|..] && Remainder(slot, q) == b[|from|..];
      assert p == slot + Remainder(slot, p) && q == slot + Remainder(slot, q);
    } else if !(slot <= p) && !(slot <= q) {
      OnePath(g, root, t, p, q);
    }
  }

  // ---------------------------------------------------------------- moving

  /** Where everything leads after a move from entry `leaving` to entry `slot`. */
  ghost function MovedReach(g: Graph, root: FakeDir, leaving: Path, slot: Path, q: Path): Option<Node> {
    if !(leaving <= slot) && slot <= q then Reach(g, root, leaving + Remainder(slot, q))
    else if leaving <= q then None
    else Reach(g, root, q)
  }

  /** The two graphs differ in the two entries of a move. */
  ghost predicate MovedEntries(g: Graph, g': Graph, e: FakeDir, name: string, node: Node, f: FakeDir, gone: string)
    requires e in g && f in g
  {
    g'.Keys == g.Keys && forall x {:trigger x in g} :: x in g ==>
      g'[x] == (var es := if x == e then g[x][name := node] else g[x]; if x == f then es - {gone} else es)
  }

  lemma {:induction false} MoveReaches(g: Graph, g': Graph, root: FakeDir, t: Tree, leaving: Path, slot: Path,
                                       e: FakeDir, node: Node, f: FakeDir, q: Path)
    requires Closed(g, root) && StandsFor(g, root, t) && leaving != [] && slot != [] && leaving != slot
    requires Reach(g, root, Init(slot)) == Some(DirNode(e)) && Reach(g, root, Init(leaving)) == Some(DirNode(f))
    requires e in g && f in g && Reach(g, root, leaving) == Some(node)
    requires MovedEntries(g, g', e, Last(slot), node, f, Last(leaving))
    ensures Reach(g', root, q) == MovedReach(g, root, leaving, slot, q)
    decreases |q|
  {
    hide StandsFor, Closed;
    assert slot == Init(slot) + [Last(slot)] && leaving == Init(leaving) + [Last(leaving)];
    if q != [] {
      var p, k := Init(q), Last(q);
      assert q == p + [k];
      MoveReaches(g, g', root, t, leaving, slot, e, node, f, p);
      MoveStep(g, g', root, t, leaving, slot, e, node, f, p, k);
    }
  }

  lemma MoveStep(g: Graph, g': Graph, root: FakeDir, t: Tree, leaving: Path, slot: Path,
                 e: FakeDir, node: Node, f: FakeDir, p: Path, k: string)
    requires Closed(g, root) && StandsFor(g, root, t) && leaving != [] && slot != [] && leaving != slot
    requires Reach(g, root, Init(slot)) == Some(DirNode(e)) && Reach(g, root, Init(leaving)) == Some(DirNode(f))
    requires e in g && f in g && Reach(g, root, leaving) == Some(node)
    requires MovedEntries(g, g', e, Last(slot), node, f, Last(leaving))
    ensures EntryIn(g', MovedReach(g, root, leaving, slot, p), k) == MovedReach(g, root, leaving, slot, p + [k])
  {
    hide StandsFor, Closed, Reach, MovedEntries;
    var q := p + [k];
    assert slot == Init(slot) + [Last(slot)] && leaving == Init(leaving) + [Last(leaving)];
    assert slot <= q <==> slot <= p || slot == q;
    assert leaving <= q <==> leaving <= p || leaving == q;
    assert leaving <= Init(slot) ==> leaving <= slot;
    if !(leaving <= slot) && slot <= p {
      var there := leaving + Remainder(slot, p);
      assert there + [k] == leaving + Remainder(slot, q);
      assert there != Init(leaving) && there != Init(slot);
      EntryStill(g, g', root, t, leaving, slot, e, node, f, there, k);
    } else if leaving <= p {
      assert slot == q ==> leaving <= Init(slot);
    } else {
      EntryStill(g, g', root, t, leaving, slot, e, node, f, p, k);
      if q == slot { assert Remainder(slot, q) == [] && leaving + [] == leaving; }
    }
  }

  /** One entry, looked up after the move in a directory reached before it. */
  lemma EntryStill(g: Graph, g': Graph, root: FakeDir, t: Tree, leaving: Path, slot: Path,
                   e: FakeDir, node: Node, f: FakeDir, p: Path, k: string)
    requires Closed(g, root) && StandsFor(g, root, t) && leaving != [] && slot != [] && leaving != slot
    requires Reach(g, root, Init(slot)) == Some(DirNode(e)) && Reach(g, root, Init(leaving)) == Some(DirNode(f))
    requires e in g && f in g && MovedEntries(g, g', e, Last(slot), node, f, Last(leaving))
    ensures EntryIn(g', Reach(g, root, p), k)
         == if p + [k] == leaving then None
            else if p + [k] == slot then Some(node)
            else Reach(g, root, p + [k])
  {
    hide StandsFor, Closed, Reach;
    ReachStep(g, root, p, k);
    Shown(g, root, t, p);
    assert slot == Init(slot) + [Last(slot)] && leaving == Init(leaving) + [Last(leaving)];
    assert Init(p + [k]) == p && Last(p + [k]) == k;
    if Reach(g, root, p) == Some(DirNode(e)) { OnePath(g, root, t, p, Init(slot)); }
    if Reach(g, root, p) == Some(DirNode(f)) { OnePath(g, root, t, p, Init(leaving)); }
  }

  lemma MoveShown(g: Graph, root: FakeDir, t: Tree, src: Path, dst: Path)
    requires Closed(g, root) && StandsFor(g, root, t) && src != [] && dst != []
    ensures MoveIn(g, root, src, dst).0 == MoveOutcome(t, src, dst)
    ensures MoveOutcome(t, src, dst) == NoSuchSource || MoveOutcome(t, src, dst) == NoSuchTarget ==> MoveIn(g, root, src, dst).1 == g
  {
    hide StandsFor, Closed, Reach, Canon, FinalSlot;
    var slot, leaving := FinalSlot(t, src, dst), Slot(src);
    ParentShown(g, root, t, src);
    DestinationShown(g, root, t, src, dst);
    Shown(g, root, t, Canon(src));
    ParentIs(g, root, src);
    var from, to := ParentOf(g, root, src), Destination(g, root, src, dst);
    if Walk(g, root, src).Some? && from.Some? && to.Some? {
      assert slot == Init(slot) + [Last(slot)] && leaving == Init(leaving) + [Last(leaving)];
      EntryShown(g, root, t, Init(leaving), Last(leaving));
      if from.value == to.value.0 { OnePath(g, root, t, Init(leaving), Init(slot)); }
    }
  }

  /** `move_node` means what the tree says and leaves a tree, unless the source is a directory named through a
      trailing "root" and goes anywhere but onto the entry "root" inside it. */
  lemma MoveIsTree(g: Graph, root: FakeDir, t: Tree, src: Path, dst: Path)
    requires Closed(g, root) && StandsFor(g, root, t) && src != [] && dst != [] && MoveOutcome(t, src, dst) == Done
    requires Last(src) != "root" || FinalSlot(t, src, dst) == Slot(src)
    ensures StandsFor(MoveIn(g, root, src, dst).1, root, MoveTree(t, Slot(src), FinalSlot(t, src, dst)))
  {
    hide StandsFor, Closed, Reach, Canon, FinalSlot, MoveTree, Slot;
    var slot, leaving, g' := FinalSlot(t, src, dst), Slot(src), MoveIn(g, root, src, dst).1;
    MoveShown(g, root, t, src, dst);
    ParentShown(g, root, t, src);
    ParentIs(g, root, src);
    DestinationShown(g, root, t, src, dst);
    SlotIsCanon(src);
    var f, to, node := ParentOf(g, root, src).value, Destination(g, root, src, dst).value, Walk(g, root, src).value;
    if slot == leaving {
      OnePath(g, root, t, Init(leaving), Init(slot));
      forall q ensures Get(MoveTree(t, leaving, slot), q) == if leaving <= q then None else Get(t, q) { GetMove(t, leaving, slot, q); }
      LeafStored(g, g', root, t, MoveTree(t, leaving, slot), leaving, f);
    } else {
      forall q ensures Reach(g', root, q) == MovedReach(g, root, leaving, slot, q)
        ensures KindAt(Reach(g', root, q)) == Get(MoveTree(t, leaving, slot), q)
      {
        MoveReaches(g, g', root, t, leaving, slot, to.0, node, f, q);
        GetMove(t, leaving, slot, q);
        Shown(g, root, t, q);
        if slot <= q { Shown(g, root, t, leaving + Remainder(slot, q)); }
      }
      forall p, q | IsDirNode(Reach(g', root, p)) && Reach(g', root, p) == Reach(g', root, q) ensures p == q {
        MovedApart(g, root, t, leaving, slot, p, q);
      }
      Standing(g', root, MoveTree(t, leaving, slot));
    }
  }

  lemma MovedApart(g: Graph, root: FakeDir, t: Tree, leaving: Path, slot: Path, p: Path, q: Path)
    requires StandsFor(g, root, t)
    requires IsDirNode(MovedReach(g, root, leaving, slot, p)) && MovedReach(g, root, leaving, slot, p) == MovedReach(g, root, leaving, slot, q)
    ensures p == q
  {
    hide StandsFor, Reach;
    var a := if !(leaving <= slot) && slot <= p then leaving + Remainder(slot, p) else p;
    var b := if !(leaving <= slot) && slot <= q then leaving + Remainder(slot, q) else q;
    OnePath(g, root, t, a, b);
    if slot <= p { assert p == slot + Remainder(slot, p) && (leaving + Remainder(slot, p))[|leaving|..] == Remainder(slot, p); }
    if slot <= q { assert q == slot + Remainder(slot, q) && (leaving + Remainder(slot, q))[|leaving|..] == Remainder(slot, q); }
  }

  /** In the excepted case the directory is reached by two paths afterwards, and no tree is left. */
  lemma MoveBreaksTree(g: Graph, root: FakeDir, t: Tree, src: Path, dst: Path)
    requires Closed(g, root) && StandsFor(g, root, t) && src != [] && dst != []
    requires MoveOutcome(t, src, dst) == Done || MoveOutcome(t, src, dst) == KeyError
    requires Last(src) == "root" && FinalSlot(t, src, dst) != Slot(src)
    ensures var g' := MoveIn(g, root, src, dst).1;
            Reach(g', root, Canon(src)) == Reach(g', root, FinalSlot(t, src, dst)) && IsDirNode(Reach(g', root, Canon(src)))
            && FinalSlot(t, src, dst) != Canon(src) && forall t' :: !StandsFor(g', root, t')
  {
    hide StandsFor, Closed, Reach, Canon, FinalSlot, Slot, MoveOutcome;
    var slot, g', c := FinalSlot(t, src, dst), MoveIn(g, root, src, dst).1, Canon(src);
    var e, f, node := BreakingMove(g, root, t, src, dst);
    BothReached(g, g', root, t, c, slot, e, node, f);
    forall t' ensures !StandsFor(g', root, t') {
      if StandsFor(g', root, t') { OnePath(g', root, t', c, slot); }
    }
  }

  /** The parts of such a move: a directory held under `slot`, and the entry "root" inside it deleted, if any. */
  lemma BreakingMove(g: Graph, root: FakeDir, t: Tree, src: Path, dst: Path) returns (e: FakeDir, f: FakeDir, node: Node)
    requires Closed(g, root) && StandsFor(g, root, t) && src != [] && dst != []
    requires MoveOutcome(t, src, dst) == Done || MoveOutcome(t, src, dst) == KeyError
    requires Last(src) == "root" && FinalSlot(t, src, dst) != Slot(src)
    ensures var (slot, c, g') := (FinalSlot(t, src, dst), Canon(src), MoveIn(g, root, src, dst).1);
            && e in g && f in g && node == DirNode(f) && slot != c + ["root"] && !(slot <= c) && "root" !in Init(slot)
            && Reach(g, root, c) == Some(node) && Reach(g, root, Init(slot)) == Some(DirNode(e))
            && (g' == Stored(g, e, Last(slot), node) || g' == Dropped(Stored(g, e, Last(slot), node), f, "root"))
  {
    hide StandsFor, Closed, Reach, Canon, FinalSlot, Slot, Destination, ParentOf, TreeOk;
    MoveShown(g, root, t, src, dst);
    ParentShown(g, root, t, src);
    ParentIs(g, root, src);
    DestinationShown(g, root, t, src, dst);
    SlotIsCanon(src);
    SlotIsSource(t, src, dst);
    StandsOk(g, root, t);
    SlotNotAbove(t, src, dst);
    assert Slot(src) == Init(Slot(src)) + [Last(Slot(src))];
    e, f, node := Destination(g, root, src, dst).value.0, ParentOf(g, root, src).value, Walk(g, root, src).value;
  }

  lemma BothReached(g: Graph, g': Graph, root: FakeDir, t: Tree, c: Path, slot: Path, e: FakeDir, node: Node, f: FakeDir)
    requires Closed(g, root) && StandsFor(g, root, t) && slot != []
    requires e in g && f in g && node == DirNode(f) && slot != c + ["root"] && !(slot <= c) && "root" !in Init(slot)
    requires Reach(g, root, c) == Some(node) && Reach(g, root, Init(slot)) == Some(DirNode(e))
    requires g' == Stored(g, e, Last(slot), node) || g' == Dropped(Stored(g, e, Last(slot), node), f, "root")
    ensures Reach(g', root, c) == Reach(g', root, slot) == Some(node)
  {
    hide StandsFor, Closed, Reach;
    var leaving := c + ["root"];
    assert slot == Init(slot) + [Last(slot)] && Init(leaving) == c && Last(leaving) == "root";
    ApartKept(g, g', root, t, leaving, slot, e, node, f, c);
    if leaving <= Init(slot) { Through(c, Init(slot)); }
    ApartKept(g, g', root, t, leaving, slot, e, node, f, Init(slot));
    ReachStep(g', root, Init(slot), Last(slot));
    if f == e { OnePath(g, root, t, c, Init(slot)); }
  }

  lemma Through(p: Path, q: Path)
    requires p + ["root"] <= q
    ensures "root" in q
  {
    assert q[|p|] == "root";
  }

  /** What lies neither below the one entry nor below the other stays where it was. */
  lemma {:induction false} ApartKept(g: Graph, g': Graph, root: FakeDir, t: Tree, leaving: Path, slot: Path,
                                     e: FakeDir, node: Node, f: FakeDir, q: Path)
    requires Closed(g, root) && StandsFor(g, root, t) && leaving != [] && slot != []
    requires Reach(g, root, Init(slot)) == Some(DirNode(e)) && Reach(g, root, Init(leaving)) == Some(DirNode(f))
    requires e in g && f in g && !(leaving <= q) && !(slot <= q)
    requires g' == Stored(g, e, Last(slot), node) || g' == Dropped(Stored(g, e, Last(slot), node), f, Last(leaving))
    ensures Reach(g', root, q) == Reach(g, root, q)
    decreases |q|
  {
    hide StandsFor, Closed;
    assert slot == Init(slot) + [Last(slot)] && leaving == Init(leaving) + [Last(leaving)];
    if q != [] {
      var p := Init(q);
      assert q == p + [Last(q)];
      assert (leaving <= p ==> leaving <= q) && (slot <= p ==> slot <= q);
      ApartKept(g, g', root, t, leaving, slot, e, node, f, p);
      Shown(g, root, t, p);
      if Reach(g, root, p) == Some(DirNode(e)) { OnePath(g, root, t, p, Init(slot)); }
      if Reach(g, root, p) == Some(DirNode(f)) { OnePath(g, root, t, p, Init(leaving)); }
    }
  }
}
