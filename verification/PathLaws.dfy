/** What `_resolve` of honeypot/shell/filesystem.py makes of `..`, of names and of joined paths. */
module PathLaws {
  import opened FakeTree

  /** One level up; above a single component lies the root. */
  lemma ResolveUp(cwd: Path)
    requires cwd != [] && Clean(cwd)
    ensures Resolve(cwd, "..") == if |cwd| == 1 then ["root"] else cwd[..|cwd| - 1]
  {
    SplitWord("..");
    assert [".."][1..] == [];
    assert EnterAll(cwd, [".."]) == Enter(cwd, "..");
  }

  lemma ResolveHere(cwd: Path)
    requires cwd != []
    ensures Resolve(cwd, ".") == cwd && Resolve(cwd, "") == cwd
  {
    SplitWord(".");
    assert ["."][1..] == [] && [""][1..] == [];
    assert EnterAll(cwd, ["."]) == cwd && EnterAll(cwd, [""]) == cwd;
  }

  /** A plain name leads one level down. */
  lemma ResolveInto(cwd: Path, name: string)
    requires name != "" && name != "." && name != ".." && '/' !in name
    ensures Resolve(cwd, name) == cwd + [name]
  {
    SplitWord(name);
    assert [name][1..] == [];
    assert EnterAll(cwd, [name]) == Enter(cwd, name);
  }

  // ---------------------------------------------------------------- joined paths

  lemma {:induction false} SplitJoins(a: string, b: string)
    ensures SplitSlash(a + "/" + b) == SplitSlash(a) + SplitSlash(b)
    decreases |a|
  {
    var s := a + "/" + b;
    if a == "" {
      assert s[1..] == b;
    } else {
      assert s[0] == a[0] && s[1..] == a[1..] + "/" + b;
      SplitJoins(a[1..], b);
      var rest := SplitSlash(a[1..]);
      assert (rest + SplitSlash(b))[0] == rest[0] && (rest + SplitSlash(b))[1..] == rest[1..] + SplitSlash(b);
    }
  }

  lemma {:induction false} EnterJoins(base: Path, x: seq<string>, y: seq<string>)
    ensures EnterAll(base, x + y) == EnterAll(EnterAll(base, x), y)
    decreases |x|
  {
    if x == [] {
      assert x + y == y;
    } else {
      assert (x + y)[0] == x[0] && (x + y)[1..] == x[1..] + y;
      EnterJoins(Enter(base, x[0]), x[1..], y);
    }
  }

  /** Where a path without regard to its slashes at either end leads from a base. */
  function Lead(base: Path, path: string): Path { EnterAll(base, SplitSlash(path)) }

  function OrRoot(p: Path): Path { if p == [] then ["root"] else p }

  lemma LeadJoins(base: Path, a: string, b: string)
    ensures Lead(base, a + "/" + b) == Lead(Lead(base, a), b)
  {
    SplitJoins(a, b);
    EnterJoins(base, SplitSlash(a), SplitSlash(b));
  }

  lemma LeadNothing(base: Path)
    ensures Lead(base, "") == base
  {
    assert [""][1..] == [];
  }

  lemma {:induction false} LeadLStrip(base: Path, path: string)
    ensures Lead(base, LStripSlash(path)) == Lead(base, path)
    decreases |path|
  {
    if path != "" && path[0] == '/' {
      LeadLStrip(base, path[1..]);
      assert ([""] + SplitSlash(path[1..]))[1..] == SplitSlash(path[1..]);
      assert EnterAll(base, [""] + SplitSlash(path[1..])) == EnterAll(Enter(base, ""), SplitSlash(path[1..]));
    }
  }

  lemma {:induction false} LeadRStrip(base: Path, path: string)
    ensures Lead(base, RStripSlash(path)) == Lead(base, path)
    decreases |path|
  {
    if path != "" && path[|path| - 1] == '/' {
      var front := path[..|path| - 1];
      LeadRStrip(base, front);
      assert path == front + "/" + "";
      LeadJoins(base, front, "");
      LeadNothing(Lead(base, front));
    }
  }

  lemma ResolveLeads(cwd: Path, path: string)
    ensures Resolve(cwd, path) == OrRoot(Lead(StartOf(cwd, path), path))
  {
    LeadLStrip(StartOf(cwd, path), path);
    LeadRStrip(StartOf(cwd, path), LStripSlash(path));
  }

  /** Starting at the root component or at nothing makes no difference to where a path leads. */
  lemma {:induction false} RootInFront(s: Path, parts: seq<string>)
    ensures var (full, bare) := (EnterAll(["root"] + s, parts), EnterAll(s, parts)); full == ["root"] + bare || full == bare
    decreases |parts|
  {
    if parts != [] {
      var part, full := parts[0], ["root"] + s;
      if part == "" || part == "." {
        RootInFront(s, parts[1..]);
      } else if part == ".." {
        if s == ["root"] {
          assert full[..1] == ["root"];
        } else if s == [] {
          assert full == ["root"];
          RootInFront(s, parts[1..]);
        } else {
          assert full[..|full| - 1] == ["root"] + s[..|s| - 1];
          RootInFront(s[..|s| - 1], parts[1..]);
        }
      } else {
        assert full + [part] == ["root"] + (s + [part]);
        RootInFront(s + [part], parts[1..]);
      }
    }
  }

  lemma {:induction false} CanonRootFront(s: Path)
    ensures Canon(["root"] + s) == Canon(s)
    decreases |s|
  {
    if s == [] {
      assert ["root"] + s == ["root"] && ["root"][..0] == [];
    } else {
      assert (["root"] + s)[..|s|] == ["root"] + s[..|s| - 1];
      CanonRootFront(s[..|s| - 1]);
    }
  }

  lemma CanonOrRoot(p: Path)
    ensures Canon(OrRoot(p)) == Canon(p)
  {
    CanonRootFront([]);
    assert ["root"] + [] == ["root"];
  }

  lemma FromRoot(x: Path, b: string)
    ensures Canon(Lead(OrRoot(x), b)) == Canon(Lead(x, b))
  {
    if x == [] {
      RootInFront([], SplitSlash(b));
      assert ["root"] + [] == ["root"];
      CanonRootFront(Lead([], b));
    }
  }

  /** A joined path leads where its second part leads from where its first part leads. */
  lemma ResolveJoin(cwd: Path, a: string, b: string)
    requires cwd != [] && a != "" && !("/" <= b)
    ensures Canon(Resolve(cwd, a + "/" + b)) == Canon(Resolve(Resolve(cwd, a), b))
  {
    hide EnterAll, SplitSlash, Resolve, Canon, Lead;
    var path, mid := a + "/" + b, Resolve(cwd, a);
    ResolveLeads(cwd, path);
    ResolveLeads(cwd, a);
    ResolveLeads(mid, b);
    assert path[0] == a[0] && path != "/";
    var start := if a[0] == '/' then [] else cwd;
    LeadJoins(start, a, b);
    CanonOrRoot(Lead(start, path));
    CanonOrRoot(Lead(mid, b));
    FromRoot(Lead(start, a), b);
    if a == "/" { LeadSlash(); }
  }

  lemma LeadSlash()
    ensures Lead([], "/") == [] && Lead(["root"], "/") == ["root"]
  {
    assert "/"[1..] == "" && ["", ""][1..] == [""] && [""][1..] == [];
    assert SplitSlash("/") == ["", ""];
  }
}
