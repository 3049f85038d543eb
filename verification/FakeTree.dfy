/** The meaning of the fake file system of honeypot/shell/filesystem.py: a finite tree, held
    as a map from paths to what is there.  Path resolution and lookup are those of the
    source, including its rule that a component named "root" is skipped. */
module FakeTree {
  import opened Basics

  type Path = seq<string>

  datatype Kind = IsDir | IsFile(content: string) | IsLink(target: string) | IsDynamic(generator: nat)

  type Tree = map<Path, Kind>

  function Init(p: Path): Path
    requires p != []
  {
    p[..|p| - 1]
  }

  function Last(p: Path): string
    requires p != []
  {
    p[|p| - 1]
  }

  ghost predicate TreeOk(t: Tree) {
    && [] in t && t[[]] == IsDir
    && (forall q {:trigger q in t} :: q in t && q != [] ==> Init(q) in t && t[Init(q)] == IsDir)
  }

  function Get(t: Tree, p: Path): Option<Kind> { if p in t then Some(t[p]) else None }

  // ---------------------------------------------------------------- paths

  function SplitSlash(s: string): (parts: seq<string>)
    ensures parts != [] && forall i :: 0 <= i < |parts| ==> '/' !in parts[i]
  {
    if s == "" then [""]
    else
      var rest := SplitSlash(s[1..]);
      if s[0] == '/' then [""] + rest else [[s[0]] + rest[0]] + rest[1..]
  }

  function LStripSlash(s: string): string { if s != "" && s[0] == '/' then LStripSlash(s[1..]) else s }
  function RStripSlash(s: string): string { if s != "" && s[|s| - 1] == '/' then RStripSlash(s[..|s| - 1]) else s }

  /** One component of a path, applied to the directory reached so far. */
  function Enter(base: Path, part: string): Path {
    if part == "" || part == "." then base
    else if part == ".." then
      if |base| > 1 || (base != [] && base != ["root"]) then base[..|base| - 1] else base
    else base + [part]
  }

  function EnterAll(base: Path, parts: seq<string>): Path
    decreases parts
  {
    if parts == [] then base else EnterAll(Enter(base, parts[0]), parts[1..])
  }

  function StartOf(cwd: Path, path: string): Path {
    if path != "" && path[0] == '/' then (if path == "/" then ["root"] else []) else cwd
  }

  function PartsOf(path: string): seq<string> {
    if path != "" && path[0] == '/' then SplitSlash(RStripSlash(LStripSlash(path))) else SplitSlash(path)
  }

  /** `_resolve`. */
  function Resolve(cwd: Path, path: string): Path {
    var base := EnterAll(StartOf(cwd, path), PartsOf(path));
    if base == [] then ["root"] else base
  }

  predicate Component(s: string) { s != "" && s != "." && s != ".." && '/' !in s }

  predicate Clean(p: Path) { forall i :: 0 <= i < |p| ==> Component(p[i]) }

  /** The components `_lookup` follows. */
  function Canon(parts: Path): Path {
    if parts == [] then []
    else if parts[|parts| - 1] == "root" then Canon(parts[..|parts| - 1])
    else Canon(parts[..|parts| - 1]) + [parts[|parts| - 1]]
  }

  /** The directory entry that `parts` names when something is stored there. */
  function Slot(parts: Path): Path
    requires parts != []
  {
    Canon(Init(parts)) + [Last(parts)]
  }

  lemma {:induction false} EnterAllClean(base: Path, parts: seq<string>)
    requires Clean(base) && forall i :: 0 <= i < |parts| ==> '/' !in parts[i]
    ensures Clean(EnterAll(base, parts))
    decreases |parts|
  {
    if parts != [] { EnterAllClean(Enter(base, parts[0]), parts[1..]); }
  }

  /** Resolving never gives an empty list, nor one with empty, "." or ".." components. */
  lemma ResolveClean(cwd: Path, path: string)
    requires Clean(cwd)
    ensures Resolve(cwd, path) != [] && Clean(Resolve(cwd, path))
  {
    assert Component("root");
    EnterAllClean(StartOf(cwd, path), PartsOf(path));
  }

  lemma CanonSnoc(parts: Path, part: string)
    ensures Canon(parts + [part]) == if part == "root" then Canon(parts) else Canon(parts) + [part]
  {
    assert (parts + [part])[..|parts|] == parts;
  }

  lemma {:induction false} CanonClean(parts: Path)
    ensures Clean(parts) ==> Clean(Canon(parts))
    ensures "root" !in Canon(parts)
  {
    if parts != [] { CanonClean(parts[..|parts| - 1]); }
  }

  lemma {:induction false} CanonFixed(p: Path)
    requires "root" !in p
    ensures Canon(p) == p
  {
    if p != [] {
      assert p == p[..|p| - 1] + [p[|p| - 1]];
      CanonFixed(p[..|p| - 1]);
    }
  }

  /** `"/".join(parts)`. */
  function JoinSlash(parts: seq<string>): string {
    if parts == [] then "" else if |parts| == 1 then parts[0] else parts[0] + "/" + JoinSlash(parts[1..])
  }

  /** `cwd_display`. */
  function Display(cwd: Path): string {
    if cwd == ["root"] then "/" else "/" + JoinSlash(Canon(cwd))
  }

  lemma {:induction false} SplitWord(word: string)
    requires '/' !in word
    ensures SplitSlash(word) == [word]
  {
    if word != "" { SplitWord(word[1..]); assert word == [word[0]] + word[1..]; }
  }

  lemma {:induction false} SplitAfterWord(word: string, rest: string)
    requires '/' !in word
    ensures SplitSlash(word + "/" + rest) == [word] + SplitSlash(rest)
  {
    var s := word + "/" + rest;
    if word == "" {
      assert s[1..] == rest;
    } else {
      assert s[1..] == word[1..] + "/" + rest;
      SplitAfterWord(word[1..], rest);
      assert word == [word[0]] + word[1..];
      assert ([word[1..]] + SplitSlash(rest))[1..] == SplitSlash(rest);
    }
  }

  lemma {:induction false} SplitJoined(parts: seq<string>)
    requires parts != [] && forall i :: 0 <= i < |parts| ==> '/' !in parts[i]
    ensures SplitSlash(JoinSlash(parts)) == parts
    decreases |parts|
  {
    if |parts| == 1 {
      SplitWord(parts[0]);
      assert parts == [parts[0]];
    } else {
      SplitAfterWord(parts[0], JoinSlash(parts[1..]));
      SplitJoined(parts[1..]);
      assert parts == [parts[0]] + parts[1..];
    }
  }

  lemma {:induction false} EnterPlain(base: Path, parts: seq<string>)
    requires Clean(parts)
    ensures EnterAll(base, parts) == base + parts
    decreases |parts|
  {
    if parts == [] { assert base + parts == base; }
    else {
      assert Component(parts[0]);
      EnterPlain(base + [parts[0]], parts[1..]);
      assert base + [parts[0]] + parts[1..] == base + parts;
    }
  }

  lemma {:induction false} JoinEnds(parts: seq<string>)
    requires parts != [] && Clean(parts)
    ensures var s := JoinSlash(parts); s != "" && s[0] != '/' && s[|s| - 1] != '/'
    decreases |parts|
  {
    assert Component(parts[0]);
    if |parts| > 1 { JoinEnds(parts[1..]); }
  }

  lemma ResolveSlash(cwd: Path)
    ensures Resolve(cwd, "/") == ["root"]
  {
    assert "/"[1..] == "" && LStripSlash("/") == LStripSlash("") == "";
    assert PartsOf("/") == SplitSlash("") == [""];
    assert EnterAll(["root"], [""]) == EnterAll(["root"], [""][1..]);
  }

  lemma ResolveAbsolute(cwd: Path, parts: Path)
    requires parts != [] && Clean(parts)
    ensures Resolve(cwd, "/" + JoinSlash(parts)) == parts
  {
    hide SplitSlash, JoinSlash, EnterAll, Enter;
    var s := JoinSlash(parts);
    var path := "/" + s;
    JoinEnds(parts);
    assert path[0] == '/' && path[1..] == s && path != "/" && |path| > 1;
    assert LStripSlash(path) == LStripSlash(s) == s && RStripSlash(s) == s;
    assert forall i :: 0 <= i < |parts| ==> Component(parts[i]);
    SplitJoined(parts);
    EnterPlain([], parts);
    assert [] + parts == parts;
  }

  /** The displayed directory resolves to the place it displays. */
  lemma DisplayResolves(cwd: Path)
    requires cwd != [] && Clean(cwd)
    ensures Canon(Resolve(cwd, Display(cwd))) == Canon(cwd)
  {
    hide Resolve, EnterAll;
    CanonClean(cwd);
    CanonSnoc([], "root");
    assert [] + ["root"] == ["root"];
    var c := Canon(cwd);
    if c == [] {
      assert "/" + "" == "/" && JoinSlash([]) == "";
      ResolveSlash(cwd);
    } else {
      ResolveAbsolute(cwd, c);
      CanonFixed(c);
    }
  }

  // ---------------------------------------------------------------- what operations do to the tree

  function Without(t: Tree, p: Path): Tree { map q | q in t && !(p <= q) :: t[q] }

  function Put(t: Tree, slot: Path, kind: Kind): Tree { Without(t, slot)[slot := kind] }

  ghost function SubPaths(t: Tree, p: Path): (rs: set<Path>)
    ensures forall r {:trigger r in rs} {:trigger p + r} :: r in rs <==> p + r in t
  {
    var rs := set q | q in t && p <= q :: q[|p|..];
    assert forall r :: p + r in t ==> p <= p + r && (p + r)[|p|..] == r;
    assert forall q :: q in t && p <= q ==> p + q[|p|..] == q;
    rs
  }

  /** What hangs below `p`, by relative path. */
  ghost function Sub(t: Tree, p: Path): Tree { map r | r in SubPaths(t, p) :: t[p + r] }

  /** Everything at or below `slot` replaced by `sub`. */
  ghost function Graft(t: Tree, slot: Path, sub: Tree): Tree {
    var kept := set q | q in t && !(slot <= q);
    var grown := set r | r in sub :: slot + r;
    map q | q in kept + grown :: if slot <= q then (if q[|slot|..] in sub then sub[q[|slot|..]] else IsDir) else t[q]
  }

  lemma GetSub(t: Tree, p: Path, r: Path)
    ensures Get(Sub(t, p), r) == Get(t, p + r)
  {
  }

  lemma GetGraft(t: Tree, slot: Path, sub: Tree, q: Path)
    ensures Get(Graft(t, slot, sub), q) == if slot <= q then Get(sub, q[|slot|..]) else Get(t, q)
  {
    var grown := set r | r in sub :: slot + r;
    if slot <= q {
      assert slot + q[|slot|..] == q;
      if q in grown {
        var r :| r in sub && slot + r == q;
        assert q[|slot|..] == r;
      }
    } else {
      assert forall r :: r in sub ==> slot <= slot + r;
    }
  }

  lemma SameTree(t: Tree, u: Tree)
    requires forall q {:trigger Get(t, q)} :: Get(t, q) == Get(u, q)
    ensures t == u
  {
    forall q ensures q in t <==> q in u { assert Get(t, q) == Get(u, q); }
    forall q | q in t ensures t[q] == u[q] { assert Get(t, q) == Get(u, q); }
  }

  /** `cp`: a copy taken before anything is stored. */
  ghost function CopyTree(t: Tree, src: Path, slot: Path): Tree { Graft(t, slot, Sub(t, src)) }

  /** `mv`: the node appears in its new place and is gone from the old one.  A node moved
      to or below its own place disappears with it. */
  ghost function MoveTree(t: Tree, src: Path, slot: Path): Tree {
    if src <= slot then Without(t, src) else Graft(Without(t, src), slot, Sub(t, src))
  }

  function Remainder(slot: Path, q: Path): Path
    requires slot <= q
  {
    q[|slot|..]
  }

  lemma GetCopy(t: Tree, src: Path, slot: Path, q: Path)
    ensures Get(CopyTree(t, src, slot), q) == if slot <= q then Get(t, src + Remainder(slot, q)) else Get(t, q)
  {
    GetGraft(t, slot, Sub(t, src), q);
    if slot <= q { GetSub(t, src, Remainder(slot, q)); }
  }

  lemma GetMove(t: Tree, src: Path, slot: Path, q: Path)
    ensures Get(MoveTree(t, src, slot), q)
         == if src <= slot then (if src <= q then None else Get(t, q))
            else if slot <= q then Get(t, src + Remainder(slot, q))
            else if src <= q then None else Get(t, q)
  {
    if !(src <= slot) {
      GetGraft(Without(t, src), slot, Sub(t, src), q);
      if slot <= q { GetSub(t, src, Remainder(slot, q)); }
    }
  }

  /** The one case in which moving is not copying and then removing: the node moves up onto
      a directory it lay in, and carries within it something at the very path it came from. */
  predicate Shadowed(t: Tree, src: Path, slot: Path) {
    slot <= src && slot != src && src + src[|slot|..] in t
  }

  lemma {:induction false} PrefixIn(t: Tree, p: Path, q: Path)
    requires TreeOk(t) && p <= q && q in t
    ensures p in t
    decreases |q|
  {
    if p != q {
      assert p <= Init(q);
      PrefixIn(t, p, Init(q));
    }
  }

  lemma MoveCopyAt(t: Tree, src: Path, slot: Path, q: Path)
    requires TreeOk(t) && !Shadowed(t, src, slot)
    ensures src <= slot && slot <= q ==> src <= q
    ensures !(src <= slot) && slot <= q && src <= q ==> Get(t, src + Remainder(slot, q)) == None
  {
    if !(src <= slot) && slot <= q && src <= q {
      assert slot <= src by { assert slot == q[..|slot|] && src == q[..|src|]; }
      var p, r := src + src[|slot|..], src + Remainder(slot, q);
      assert p <= r by {
        assert Remainder(slot, q) == src[|slot|..] + q[|src|..];
        assert r == p + q[|src|..];
      }
      if r in t { PrefixIn(t, p, r); }
    }
  }

  /** `mv` leaves the same tree as `cp` followed by `rm`, exactly when nothing is shadowed. */
  lemma MoveIsCopyThenRemove(t: Tree, src: Path, slot: Path)
    requires TreeOk(t)
    ensures MoveTree(t, src, slot) == Without(CopyTree(t, src, slot), src) <==> !Shadowed(t, src, slot)
  {
    hide MoveTree, CopyTree;
    var moved, copied := MoveTree(t, src, slot), Without(CopyTree(t, src, slot), src);
    if Shadowed(t, src, slot) {
      GetMove(t, src, slot, src);
      assert Remainder(slot, src) == src[|slot|..];
      assert Get(moved, src) != Get(copied, src);
    } else {
      forall q ensures Get(moved, q) == Get(copied, q) {
        GetMove(t, src, slot, q);
        GetCopy(t, src, slot, q);
        MoveCopyAt(t, src, slot, q);
      }
      SameTree(moved, copied);
    }
  }

  // ---------------------------------------------------------------- reading and writing

  datatype Reading = Content(text: string) | Generated(generator: nat) | Nothing

  /** `_resolve_symlink`: at most `fuel` links, each looked up in the same directory. */
  function Follow(t: Tree, parent: Path, node: Option<Kind>, fuel: nat): Option<Kind>
    decreases fuel
  {
    if node.Some? && node.value.IsLink? && fuel > 0
    then Follow(t, parent, if Get(t, parent) == Some(IsDir) then Get(t, parent + [node.value.target]) else None, fuel - 1)
    else node
  }

  /** `read_file`, from resolved components. */
  function Read(t: Tree, parts: Path): Reading
    requires parts != []
  {
    match Follow(t, Canon(Init(parts)), Get(t, Canon(parts)), 8)
    case Some(IsFile(text)) => Content(text)
    case Some(IsDynamic(generator)) => Generated(generator)
    case _ => Nothing
  }

  /** `write_file`, from resolved components. */
  function Write(t: Tree, parts: Path, text: string): Tree
    requires parts != []
  {
    if Get(t, Canon(Init(parts))) == Some(IsDir) then Put(t, Slot(parts), IsFile(text)) else t
  }

  /** In a tree, what is written into an existing directory can be read back, except under the name
      "root": that entry no lookup ever reaches. */
  lemma WriteThenRead(t: Tree, parts: Path, text: string)
    requires parts != [] && Get(t, Canon(Init(parts))) == Some(IsDir)
    ensures Read(Write(t, parts, text), parts) == Content(text) <==> Last(parts) != "root"
  {
    assert parts == Init(parts) + [Last(parts)];
    CanonSnoc(Init(parts), Last(parts));
    var dir, slot := Canon(Init(parts)), Slot(parts);
    assert !(slot <= dir);
  }

  /** In a tree, every other path that is not a symbolic link reads as before. */
  lemma WriteElsewhere(t: Tree, parts: Path, text: string, other: Path)
    requires parts != [] && other != [] && !(Slot(parts) <= Canon(other))
    requires match Get(t, Canon(other)) case Some(IsLink(_)) => false case _ => true
    ensures Read(Write(t, parts, text), other) == Read(t, other)
  {
  }

  /** `make_dir`: nothing happens if the name is taken. */
  function MakeDir(t: Tree, parts: Path): Tree
    requires parts != []
  {
    if Get(t, Canon(Init(parts))) == Some(IsDir) && Slot(parts) !in t then Put(t, Slot(parts), IsDir) else t
  }

  /** `remove`. */
  function Remove(t: Tree, parts: Path): Tree
    requires parts != []
  {
    if Get(t, Canon(Init(parts))) == Some(IsDir) then Without(t, Slot(parts)) else t
  }

  // ---------------------------------------------------------------- copying and moving

  datatype Outcome = Done | NoSuchSource | NotADirectory | NoSuchTarget | KeyError

  /** Where `cp` and `mv` store the node: inside an existing directory under the source's
      last component, otherwise under the destination's own name. */
  function FinalSlot(t: Tree, src: Path, dst: Path): (slot: Path)
    requires src != [] && dst != []
    ensures slot != []
  {
    if Get(t, Canon(dst)) == Some(IsDir) then Canon(dst) + [Last(src)] else Slot(dst)
  }

  function CopyOutcome(t: Tree, src: Path, dst: Path): Outcome
    requires src != [] && dst != []
  {
    if Get(t, Canon(src)) == None then NoSuchSource
    else if Get(t, Init(FinalSlot(t, src, dst))) != Some(IsDir) then NoSuchTarget
    else Done
  }

  /** `mv` fails half-way when the entry it wants to delete does not exist, which takes a
      source whose last component is "root". */
  function MoveOutcome(t: Tree, src: Path, dst: Path): Outcome
    requires src != [] && dst != []
  {
    if Get(t, Canon(src)) == None || Get(t, Canon(Init(src))) != Some(IsDir) then NoSuchSource
    else if Get(t, Init(FinalSlot(t, src, dst))) != Some(IsDir) then NoSuchTarget
    else if Slot(src) !in t && Slot(src) != FinalSlot(t, src, dst) then KeyError
    else Done
  }

  lemma PutIsGraft(t: Tree, slot: Path, kind: Kind)
    ensures Put(t, slot, kind) == Graft(t, slot, map[[] := kind])
  {
    var put, graft := Put(t, slot, kind), Graft(t, slot, map[[] := kind]);
    forall q ensures Get(put, q) == Get(graft, q) {
      GetGraft(t, slot, map[[] := kind], q);
      if slot <= q && q != slot { assert q == slot + q[|slot|..]; }
      assert slot <= slot && slot[|slot|..] == [];
    }
    SameTree(put, graft);
  }

  lemma SlotIsCanon(parts: Path)
    requires parts != []
    ensures Canon(parts) == if Last(parts) == "root" then Canon(Init(parts)) else Slot(parts)
    ensures Init(Slot(parts)) == Canon(Init(parts)) && Last(Slot(parts)) == Last(parts)
  {
    assert parts == Init(parts) + [Last(parts)];
    CanonSnoc(Init(parts), Last(parts));
  }

  lemma {:induction false} CanonPrefix(parts: Path, i: nat)
    requires i <= |parts|
    ensures Canon(parts[..i]) <= Canon(parts)
    decreases |parts| - i
  {
    if i < |parts| {
      assert parts[..i + 1] == parts[..i] + [parts[i]];
      CanonSnoc(parts[..i], parts[i]);
      CanonPrefix(parts, i + 1);
    } else {
      assert parts[..i] == parts;
    }
  }

  lemma SlotIsSource(t: Tree, src: Path, dst: Path)
    requires src != [] && dst != []
    ensures "root" !in Init(FinalSlot(t, src, dst))
    ensures Init(FinalSlot(t, src, dst)) == if Get(t, Canon(dst)) == Some(IsDir) then Canon(dst) else Canon(Init(dst))
    ensures Last(FinalSlot(t, src, dst)) == if Get(t, Canon(dst)) == Some(IsDir) then Last(src) else Last(dst)
  {
    CanonClean(dst);
    CanonClean(Init(dst));
    SlotIsCanon(dst);
    assert Init(Canon(dst) + [Last(src)]) == Canon(dst);
  }

  /** A directory named through a trailing "root" is never overwritten by its own move. */
  lemma SlotNotAbove(t: Tree, src: Path, dst: Path)
    requires TreeOk(t) && src != [] && dst != [] && Last(src) == "root" && Get(t, Canon(src)) == Some(IsDir)
    ensures !(FinalSlot(t, src, dst) <= Canon(src))
  {
    hide Canon;
    var slot, p := FinalSlot(t, src, dst), Canon(src);
    CanonClean(src);
    if slot <= p {
      assert Last(slot) in p by { assert p[|slot| - 1] == Last(slot); }
      SlotIsCanon(dst);
      SlotIsSource(t, src, dst);
      PrefixIsDir(t, slot, p);
    }
  }

  lemma PrefixIsDir(t: Tree, p: Path, q: Path)
    requires TreeOk(t) && p <= q && Get(t, q) == Some(IsDir)
    ensures Get(t, p) == Some(IsDir)
    decreases |q|
  {
    if p != q {
      assert p <= Init(q);
      PrefixIsDir(t, p, Init(q));
    }
  }

  lemma CopyOk(t: Tree, src: Path, slot: Path)
    requires TreeOk(t) && slot != [] && Get(t, Init(slot)) == Some(IsDir)
    ensures TreeOk(CopyTree(t, src, slot))
  {
    hide CopyTree;
    var c := CopyTree(t, src, slot);
    GetCopy(t, src, slot, []);
    forall q | q in c && q != [] ensures Init(q) in c && c[Init(q)] == IsDir {
      GetCopy(t, src, slot, q);
      GetCopy(t, src, slot, Init(q));
      if slot <= q {
        if slot != q {
          assert slot <= Init(q);
          assert src + Remainder(slot, Init(q)) == Init(src + Remainder(slot, q));
        } else {
          assert !(slot <= Init(q));
        }
      } else {
        assert slot <= Init(q) ==> slot <= q;
      }
    }
  }

  /** `mv` against the commands `cp` and then `rm`: the same tree, exactly when the moved node does not
      land on a directory it came from while holding something at the very path it came by. */
  lemma MoveAgainstCopy(t: Tree, src: Path, dst: Path)
    requires TreeOk(t) && src != [] && dst != [] && Last(src) != "root" && MoveOutcome(t, src, dst) == Done
    ensures CopyOutcome(t, src, dst) == Done
    ensures var slot := FinalSlot(t, src, dst);
            MoveTree(t, Canon(src), slot) == Remove(CopyTree(t, Canon(src), slot), src) <==> !Shadowed(t, Canon(src), slot)
  {
    hide Canon, MoveTree, CopyTree, TreeOk;
    var slot := FinalSlot(t, src, dst);
    SlotIsCanon(src);
    CopyOk(t, Canon(src), slot);
    RemoveIsWithout(CopyTree(t, Canon(src), slot), src);
    MoveIsCopyThenRemove(t, Canon(src), slot);
  }

  lemma RemoveIsWithout(t: Tree, parts: Path)
    requires TreeOk(t) && parts != []
    ensures Remove(t, parts) == Without(t, Slot(parts))
  {
    var slot := Slot(parts);
    SlotIsCanon(parts);
    if Get(t, Init(slot)) != Some(IsDir) {
      forall q | q in t ensures !(slot <= q) {
        if slot <= q { PrefixIn(t, slot, q); }
      }
      assert Without(t, slot) == t;
    }
  }

  /** The one failing case does occur: with directories /a, /a/a and /a/a/a, `mv /a/a /` puts /a/a in the place of
      /a and leaves its child at /a/a, which `cp` and then `rm` would have removed. */
  lemma ShadowedMove()
    ensures var a := "a";
            var t: Tree := map[[] := IsDir, [a] := IsDir, [a, a] := IsDir, [a, a, a] := IsDir];
            var (src, dst) := ([a, a], ["root"]);
            && TreeOk(t) && MoveOutcome(t, src, dst) == Done && FinalSlot(t, src, dst) == [a] && Shadowed(t, Canon(src), [a])
            && [a, a] in MoveTree(t, Canon(src), [a]) && [a, a] !in Remove(CopyTree(t, Canon(src), [a]), src)
  {
    hide Canon, CopyTree, MoveTree;
    var a := "a";
    var t: Tree := map[[] := IsDir, [a] := IsDir, [a, a] := IsDir, [a, a, a] := IsDir];
    var src: Path, slot: Path := [a, a], [a];
    assert Init([a]) == [] && Init([a, a]) == [a] && Init([a, a, a]) == [a, a];
    CanonFixed([]);
    CanonFixed([a]);
    CanonFixed(src);
    CanonSnoc([], "root");
    assert [] + ["root"] == ["root"] && [] + [a] == slot;
    assert Slot(src) == src by { assert [a] + [a] == src; }
    assert src + src[|slot|..] == [a, a, a];
    GetMove(t, src, slot, src);
    assert Remainder(slot, src) == [a] && src + [a] == [a, a, a];
    assert TreeOk(t);
    CopyOk(t, src, slot);
    RemoveIsWithout(CopyTree(t, src, slot), src);
  }

  /** What `mkdir /tmp; mkdir /root` makes of an empty tree. */
  lemma TmpAndRoot(cwd: Path)
    ensures Resolve(cwd, "/tmp") == ["tmp"]
    ensures var tmp := MakeDir(map[[] := IsDir], ["tmp"]);
            MakeDir(tmp, ["root"]) == map[[] := IsDir, ["tmp"] := IsDir, ["root"] := IsDir]
  {
    hide Canon, Resolve;
    ResolveAbsolute(cwd, ["tmp"]) by { assert Component("tmp"); }
    assert "/" + "tmp" == "/tmp";
    var tmp: Path, root: Path := ["tmp"], ["root"];
    assert Init(tmp) == [] && Init(root) == [];
    CanonFixed([]);
    assert [] + ["tmp"] == tmp && [] + ["root"] == root;
    var first: Tree := map[[] := IsDir, tmp := IsDir];
    assert MakeDir(map[[] := IsDir], tmp) == first;
    assert tmp != root by { assert |"tmp"| != |"root"|; }
  }

  /** `mv /root /tmp/x` does reach the branch that stores a directory twice, or fails half-way when the entry
      "root" is not there. */
  lemma TrailingRootMove(cwd: Path)
    ensures Resolve(cwd, "/root") == ["root"] && Resolve(cwd, "/tmp/x") == ["tmp", "x"]
    ensures var (src, dst) := (["root"], ["tmp", "x"]);
            var without: Tree := map[[] := IsDir, ["tmp"] := IsDir];
            var t: Tree := without[["root"] := IsDir];
            && TreeOk(t) && MoveOutcome(t, src, dst) == Done && FinalSlot(t, src, dst) != Slot(src)
            && TreeOk(without) && MoveOutcome(without, src, dst) == KeyError
  {
    hide Canon, Resolve;
    ResolveAbsolute(cwd, ["root"]) by { assert Component("root"); }
    ResolveAbsolute(cwd, ["tmp", "x"]) by { assert Component("tmp") && Component("x"); }
    assert JoinSlash(["tmp", "x"]) == "tmp" + "/" + JoinSlash(["x"]) by { assert ["tmp", "x"][1..] == ["x"]; }
    assert "/" + "root" == "/root" && "/" + ("tmp" + "/" + "x") == "/tmp/x";
    var src: Path, dst: Path := ["root"], ["tmp", "x"];
    assert Init(src) == [] && Init(dst) == ["tmp"] && Init(["tmp"]) == [];
    CanonFixed([]);
    CanonFixed(["tmp"]);
    CanonFixed(dst);
    CanonSnoc([], "root");
    assert [] + ["root"] == src && ["tmp"] + ["x"] == dst;
  }
}
