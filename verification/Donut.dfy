/** `_lump_and_cap` of tools/dashboard.py: a table of counts cut down to a few rows, the smallest folded together. */
module Donut {
  import opened PyDict

  datatype Row = Row(name: string, n: int)

  // ---------------------------------------------------------------- orders

  /** Python's order on strings. */
  predicate StrLeq(a: string, b: string) {
    a == "" || (b != "" && (a[0] < b[0] || (a[0] == b[0] && StrLeq(a[1..], b[1..]))))
  }

  predicate StrLess(a: string, b: string) { StrLeq(a, b) && a != b }

  /** `a` and `b` agree up to `i`, where `a` ends or has the smaller character. */
  predicate FirstDifference(a: string, b: string, i: nat) {
    i <= |a| && i < |b| && a[..i] == b[..i] && (i == |a| || a[i] < b[i])
  }

  lemma SameStart(a: string, b: string, i: nat)
    requires 0 < i && FirstDifference(a, b, i)
    ensures a != "" && b != "" && a[0] == b[0]
  {
    assert a[..i][0] == b[..i][0];
  }

  /** The order of strings is decided by the first difference. */
  lemma {:induction false} StrLessIs(a: string, b: string)
    ensures StrLess(a, b) <==> exists i: nat :: FirstDifference(a, b, i)
  {
    if a == "" || b == "" || a[0] != b[0] {
      if StrLess(a, b) {
        assert FirstDifference(a, b, 0);
      } else if i: nat :| FirstDifference(a, b, i) {
        if i > 0 { SameStart(a, b, i); }
      }
    } else {
      var x, y := a[1..], b[1..];
      assert a == [a[0]] + x && b == [b[0]] + y;
      StrLessIs(x, y);
      if i: nat :| FirstDifference(x, y, i) {
        assert a[..i + 1] == [a[0]] + x[..i] && b[..i + 1] == [b[0]] + y[..i];
        assert FirstDifference(a, b, i + 1);
      }
      if i: nat :| FirstDifference(a, b, i) {
        assert i > 0 && x[..i - 1] == a[..i][1..] && y[..i - 1] == b[..i][1..];
        assert FirstDifference(x, y, i - 1);
      }
    }
  }

  lemma {:induction false} StrLeqTotal(a: string, b: string)
    ensures StrLeq(a, b) || StrLeq(b, a)
    ensures StrLeq(a, b) && StrLeq(b, a) ==> a == b
  {
    if a != "" && b != "" && a[0] == b[0] {
      StrLeqTotal(a[1..], b[1..]);
      assert a == [a[0]] + a[1..] && b == [b[0]] + b[1..];
    }
  }

  lemma {:induction false} StrLeqTransitive(a: string, b: string, c: string)
    requires StrLeq(a, b) && StrLeq(b, c)
    ensures StrLeq(a, c)
  {
    if a != "" && a[0] == b[0] && b[0] == c[0] { StrLeqTransitive(a[1..], b[1..], c[1..]); }
  }

  function Count(vals: map<string, int>, l: string): int { if l in vals then vals[l] else 0 }

  datatype Ranking = Alphabetical | ByCount(vals: map<string, int>)

  predicate Leq(rk: Ranking, a: string, b: string) {
    match rk
    case Alphabetical => StrLeq(a, b)
    case ByCount(vals) => -Count(vals, a) <= -Count(vals, b)
  }

  lemma LeqTotal(rk: Ranking, a: string, b: string)
    ensures Leq(rk, a, b) || Leq(rk, b, a)
  {
    StrLeqTotal(a, b);
  }

  lemma LeqTransitive(rk: Ranking, a: string, b: string, c: string)
    requires Leq(rk, a, b) && Leq(rk, b, c)
    ensures Leq(rk, a, c)
  {
    if rk.Alphabetical? { StrLeqTransitive(a, b, c); }
  }

  // ---------------------------------------------------------------- the stable sort

  ghost predicate NoDup(s: seq<string>) { forall i, j :: 0 <= i < j < |s| ==> s[i] != s[j] }

  /** Where `x` first occurs. */
  function Pos(s: seq<string>, x: string): (i: nat)
    ensures i <= |s| && (i < |s| <==> x in s) && (i < |s| ==> s[i] == x)
  {
    if s == [] || s[0] == x then 0 else 1 + Pos(s[1..], x)
  }

  function Insert(rk: Ranking, r: seq<string>, x: string): seq<string> {
    if r == [] || Leq(rk, r[|r| - 1], x) then r + [x] else Insert(rk, r[..|r| - 1], x) + [r[|r| - 1]]
  }

  /** `sorted`: each element goes behind the earlier ones that do not exceed it. */
  function Sorted(rk: Ranking, s: seq<string>): seq<string> {
    if s == [] then [] else Insert(rk, Sorted(rk, s[..|s| - 1]), s[|s| - 1])
  }

  /** In a sorted list `a` stands before `b`: it ranks lower, or ties and stood before it already. */
  predicate Ahead(rk: Ranking, s: seq<string>, a: string, b: string) {
    Leq(rk, a, b) && (Leq(rk, b, a) ==> Pos(s, a) < Pos(s, b))
  }

  ghost predicate Chained(rk: Ranking, s: seq<string>, r: seq<string>) {
    forall i, j {:trigger r[i], r[j]} :: 0 <= i < j < |r| ==> Ahead(rk, s, r[i], r[j])
  }

  lemma {:induction false} InsertKeeps(rk: Ranking, r: seq<string>, x: string)
    ensures multiset(Insert(rk, r, x)) == multiset(r) + multiset{x}
  {
    if r != [] && !Leq(rk, r[|r| - 1], x) {
      InsertKeeps(rk, r[..|r| - 1], x);
      assert r == r[..|r| - 1] + [r[|r| - 1]];
    }
  }

  lemma {:induction false} PosPrefix(s: seq<string>, x: string, a: string)
    requires a in s
    ensures Pos(s + [x], a) == Pos(s, a)
  {
    if s[0] != a {
      assert (s + [x])[1..] == s[1..] + [x];
      PosPrefix(s[1..], x, a);
    }
  }

  lemma {:induction false} PosNew(s: seq<string>, x: string)
    requires x !in s
    ensures Pos(s + [x], x) == |s|
  {
    if s != [] {
      assert (s + [x])[1..] == s[1..] + [x];
      PosNew(s[1..], x);
    }
  }

  lemma {:induction false} InsertChained(rk: Ranking, s: seq<string>, r: seq<string>, x: string)
    requires Chained(rk, s, r) && x !in s && forall a {:trigger a in r} :: a in r ==> a in s
    ensures Chained(rk, s + [x], Insert(rk, r, x))
    decreases |r|
  {
    hide Leq, Pos, Ahead;
    var t := s + [x];
    forall i {:trigger r[i]} | 0 <= i < |r| ensures r[i] in s { assert r[i] in r; }
    if r == [] {
    } else if Leq(rk, r[|r| - 1], x) {
      forall i, j | 0 <= i < j < |r| ensures Ahead(rk, t, r[i], r[j]) { AheadGrows(rk, s, x, r[i], r[j]); }
      forall i | 0 <= i < |r| ensures Ahead(rk, t, r[i], x) {
        if i < |r| - 1 {
          AheadLeq(rk, s, r[i], r[|r| - 1]);
          LeqTransitive(rk, r[i], r[|r| - 1], x);
        }
        AheadNew(rk, s, x, r[i]);
      }
    } else {
      var last, front := r[|r| - 1], r[..|r| - 1];
      forall a | a in front ensures a in s { assert a in r; }
      InsertChained(rk, s, front, x);
      var placed := Insert(rk, front, x);
      InsertKeeps(rk, front, x);
      forall i | 0 <= i < |placed| ensures Ahead(rk, t, placed[i], last) {
        assert placed[i] in multiset(placed);
        if placed[i] != x {
          assert placed[i] in front;
          var k :| 0 <= k < |front| && front[k] == placed[i];
          assert r[k] == front[k] && Ahead(rk, s, r[k], last);
          AheadGrows(rk, s, x, r[k], last);
        } else {
          AheadStrict(rk, t, x, last);
        }
      }
    }
  }

  lemma AheadGrows(rk: Ranking, s: seq<string>, x: string, a: string, b: string)
    requires a in s && b in s && Ahead(rk, s, a, b)
    ensures Ahead(rk, s + [x], a, b)
  {
    hide Leq;
    PosPrefix(s, x, a);
    PosPrefix(s, x, b);
  }

  lemma AheadNew(rk: Ranking, s: seq<string>, x: string, a: string)
    requires a in s && x !in s && Leq(rk, a, x)
    ensures Ahead(rk, s + [x], a, x)
  {
    hide Leq;
    PosPrefix(s, x, a);
    PosNew(s, x);
  }

  lemma AheadLeq(rk: Ranking, s: seq<string>, a: string, b: string)
    requires Ahead(rk, s, a, b)
    ensures Leq(rk, a, b)
  {
  }

  lemma AheadStrict(rk: Ranking, s: seq<string>, a: string, b: string)
    requires !Leq(rk, b, a)
    ensures Ahead(rk, s, a, b)
  {
    LeqTotal(rk, a, b);
  }

  /** Sorting gives the same elements, each ahead of those behind it. */
  lemma {:induction false} SortedStable(rk: Ranking, s: seq<string>)
    requires NoDup(s)
    ensures multiset(Sorted(rk, s)) == multiset(s) && Chained(rk, s, Sorted(rk, s))
  {
    if s != [] {
      var front, x := s[..|s| - 1], s[|s| - 1];
      assert s == front + [x];
      SortedStable(rk, front);
      var r := Sorted(rk, front);
      InsertKeeps(rk, r, x);
      forall a | a in r ensures a in front { assert a in multiset(r); }
      InsertChained(rk, front, r, x);
    }
  }

  lemma SameMembers(a: seq<string>, b: seq<string>)
    requires multiset(a) == multiset(b)
    ensures |a| == |b| && forall x {:trigger x in a} {:trigger x in b} :: x in a <==> x in b
    ensures NoDup(a) ==> NoDup(b)
  {
    assert |multiset(a)| == |a| && |multiset(b)| == |b|;
    forall x ensures x in a <==> x in b { assert x in multiset(a) <==> x in multiset(b); }
    if NoDup(a) {
      forall i, j | 0 <= i < j < |b| ensures b[i] != b[j] {
        OnceOnly(a, b[i]);
        if b[i] == b[j] { TwiceThere(b, i, j); }
      }
    }
  }

  lemma {:induction false} OnceOnly(a: seq<string>, x: string)
    requires NoDup(a)
    ensures multiset(a)[x] <= 1
  {
    if a != [] {
      assert a == [a[0]] + a[1..];
      OnceOnly(a[1..], x);
      if x == a[0] { assert x !in a[1..]; }
    }
  }

  lemma TwiceThere(b: seq<string>, i: nat, j: nat)
    requires i < j < |b| && b[i] == b[j]
    ensures multiset(b)[b[i]] >= 2
  {
    assert b == b[..i] + [b[i]] + b[i + 1..j] + [b[j]] + b[j + 1..];
  }

  // ---------------------------------------------------------------- filters and sums

  /** `[l for l in s if l in keep]`. */
  function Only(s: seq<string>, keep: set<string>): (r: seq<string>)
    ensures forall x {:trigger x in r} :: x in r <==> x in s && x in keep
    ensures |r| <= |s|
  {
    if s == [] then []
    else
      var rest := Only(s[1..], keep);
      if s[0] in keep then [s[0]] + rest else rest
  }

  lemma {:induction false} OnlyNoDup(s: seq<string>, keep: set<string>)
    requires NoDup(s)
    ensures NoDup(Only(s, keep))
  {
    if s != [] {
      var rest := Only(s[1..], keep);
      OnlyNoDup(s[1..], keep);
      assert s[0] !in s[1..] && s[0] !in rest;
      var r := Only(s, keep);
      forall i, j | 0 <= i < j < |r| ensures r[i] != r[j] {
        if s[0] in keep {
          assert r[j] == rest[j - 1] && rest[j - 1] in rest;
          if i > 0 { assert r[i] == rest[i - 1]; }
        }
      }
    }
  }

  /** Filtering keeps the order. */
  lemma {:induction false} OnlyInOrder(s: seq<string>, keep: set<string>, i: nat, j: nat)
    requires i < j < |Only(s, keep)|
    ensures exists a, b :: 0 <= a < b < |s| && s[a] == Only(s, keep)[i] && s[b] == Only(s, keep)[j]
  {
    var rest := Only(s[1..], keep);
    if s[0] !in keep {
      OnlyInOrder(s[1..], keep, i, j);
      var a, b :| 0 <= a < b < |s[1..]| && s[1..][a] == rest[i] && s[1..][b] == rest[j];
      assert s[a + 1] == rest[i] && s[b + 1] == rest[j];
    } else if i == 0 {
      assert rest[j - 1] in rest;
      var b :| 0 <= b < |s[1..]| && s[1..][b] == rest[j - 1];
      assert s[b + 1] == rest[j - 1] && s[0] == Only(s, keep)[0];
    } else {
      OnlyInOrder(s[1..], keep, i - 1, j - 1);
      var a, b :| 0 <= a < b < |s[1..]| && s[1..][a] == rest[i - 1] && s[1..][b] == rest[j - 1];
      assert s[a + 1] == rest[i - 1] && s[b + 1] == rest[j - 1];
    }
  }

  function Total(s: seq<string>, vals: map<string, int>): int {
    if s == [] then 0 else Count(vals, s[0]) + Total(s[1..], vals)
  }

  lemma {:induction false} TotalSplit(s: seq<string>, keep: set<string>, drop: set<string>, vals: map<string, int>)
    requires forall x {:trigger x in keep} {:trigger x in drop} :: x in s ==> (x in keep <==> x !in drop)
    ensures Total(s, vals) == Total(Only(s, keep), vals) + Total(Only(s, drop), vals)
    ensures |s| == |Only(s, keep)| + |Only(s, drop)|
  {
    if s != [] {
      TotalSplit(s[1..], keep, drop, vals);
      assert s[0] in s;
      var a, b := Only(s[1..], keep), Only(s[1..], drop);
      assert ([s[0]] + a)[1..] == a && ([s[0]] + b)[1..] == b;
    }
  }

  lemma {:induction false} TotalWithout(s: seq<string>, i: nat, vals: map<string, int>)
    requires i < |s|
    ensures Total(s, vals) == Count(vals, s[i]) + Total(s[..i] + s[i + 1..], vals)
  {
    if i == 0 {
      assert s[..0] + s[1..] == s[1..];
    } else {
      TotalWithout(s[1..], i - 1, vals);
      assert (s[..i] + s[i + 1..])[1..] == s[1..][..i - 1] + s[1..][i..];
    }
  }

  lemma RestOf(s: seq<string>, i: nat)
    requires i < |s|
    ensures multiset(s[..i] + s[i + 1..]) == multiset(s) - multiset{s[i]}
  {
    assert s == s[..i] + [s[i]] + s[i + 1..];
  }

  lemma TailPermuted(a: seq<string>, b: seq<string>, i: nat)
    requires a != [] && i < |b| && a[0] == b[i] && multiset(a) == multiset(b)
    ensures multiset(a[1..]) == multiset(b[..i] + b[i + 1..])
  {
    var rest, tail := b[..i] + b[i + 1..], a[1..];
    assert multiset(tail) == multiset(a) - multiset{a[0]} by {
      RestOf(a, 0);
      assert a[..0] + a[0 + 1..] == tail;
    }
    RestOf(b, i);
  }

  /** A sum does not depend on the order. */
  lemma {:induction false} TotalPermuted(a: seq<string>, b: seq<string>, vals: map<string, int>)
    requires multiset(a) == multiset(b)
    ensures Total(a, vals) == Total(b, vals)
    decreases |a|
  {
    hide NoDup, Count;
    SameMembers(a, b);
    if a != [] {
      assert a[0] in b;
      var i :| 0 <= i < |b| && b[i] == a[0];
      TailPermuted(a, b, i);
      TotalPermuted(a[1..], b[..i] + b[i + 1..], vals);
      TotalWithout(b, i, vals);
    }
  }

  // ---------------------------------------------------------------- the table

  function Members(s: seq<string>): set<string> { set l | l in s }

  /** `s[:k]`, a negative bound counting from the end. */
  function Upto(s: seq<string>, k: int): seq<string> {
    if k >= |s| then s else if k >= 0 then s[..k] else if |s| + k >= 0 then s[..|s| + k] else []
  }

  function Rows(s: seq<string>, vals: map<string, int>): (rows: seq<Row>)
    ensures |rows| == |s| && forall i :: 0 <= i < |s| ==> rows[i] == Row(s[i], Count(vals, s[i]))
  {
    seq(|s|, i requires 0 <= i < |s| => Row(s[i], Count(vals, s[i])))
  }

  function Ordered(counts: Dict<int>, order: seq<string>): seq<string> {
    Only(order, Members(counts.keys)) + Sorted(Alphabetical, Only(counts.keys, Members(counts.keys) - Members(order)))
  }

  function Kept(counts: Dict<int>, order: seq<string>, cap: int): set<string> {
    Members(Upto(Sorted(ByCount(counts.vals), Ordered(counts, order)), cap - 1))
  }

  /** `_lump_and_cap`. */
  function LumpAndCap(counts: Dict<int>, order: seq<string>, cap: int): seq<Row> {
    if counts.keys == [] then []
    else
      var ordered := Ordered(counts, order);
      if |ordered| <= cap then Rows(ordered, counts.vals)
      else
        var kept := Kept(counts, order, cap);
        Rows(Only(ordered, kept), counts.vals)
        + [Row("Other", Total(Only(counts.keys, Members(counts.keys) - kept), counts.vals))]
  }

  /** Listed labels by their place in the list, then all others alphabetically. */
  predicate RowBefore(order: seq<string>, a: string, b: string) {
    if a in order && b in order then Pos(order, a) < Pos(order, b) else a in order || (b !in order && StrLess(a, b))
  }

  ghost predicate InRowOrder(order: seq<string>, s: seq<string>) {
    forall i, j {:trigger s[i], s[j]} :: 0 <= i < j < |s| ==> RowBefore(order, s[i], s[j])
  }

  lemma PosIs(s: seq<string>, i: nat)
    requires NoDup(s) && i < |s|
    ensures Pos(s, s[i]) == i
  {
  }

  lemma OnlyOrderPositions(order: seq<string>, keep: set<string>, i: nat, j: nat)
    requires NoDup(order) && i < j < |Only(order, keep)|
    ensures Pos(order, Only(order, keep)[i]) < Pos(order, Only(order, keep)[j])
  {
    OnlyInOrder(order, keep, i, j);
    var a, b :| 0 <= a < b < |order| && order[a] == Only(order, keep)[i] && order[b] == Only(order, keep)[j];
    PosIs(order, a);
    PosIs(order, b);
  }

  /** The ordered labels are those of the table, each once, the listed ones first. */
  lemma OrderedIs(counts: Dict<int>, order: seq<string>)
    requires counts.Valid() && NoDup(order)
    ensures multiset(Ordered(counts, order)) == multiset(counts.keys) && NoDup(Ordered(counts, order))
    ensures InRowOrder(order, Ordered(counts, order))
  {
    var present := Members(counts.keys);
    var listed, others := Only(order, present), Only(counts.keys, present - Members(order));
    var sorted := Sorted(Alphabetical, others);
    OnlyNoDup(order, present);
    OnlyNoDup(counts.keys, present - Members(order));
    SortedStable(Alphabetical, others);
    SameMembers(others, sorted);
    var s := listed + sorted;
    forall i, j | 0 <= i < j < |s| ensures RowBefore(order, s[i], s[j]) && s[i] != s[j] {
      if j < |listed| {
        OnlyOrderPositions(order, present, i, j);
      } else {
        assert sorted[j - |listed|] in sorted;
        if i < |listed| {
          assert listed[i] in listed;
        } else {
          assert sorted[i - |listed|] in sorted;
          assert Ahead(Alphabetical, others, sorted[i - |listed|], sorted[j - |listed|]);
        }
      }
    }
    SameOnce(s, counts.keys);
  }

  lemma SameOnce(a: seq<string>, b: seq<string>)
    requires NoDup(a) && NoDup(b) && forall x {:trigger x in a} {:trigger x in b} :: x in a <==> x in b
    ensures multiset(a) == multiset(b)
  {
    forall x ensures multiset(a)[x] == multiset(b)[x] {
      OnceOnly(a, x);
      OnceOnly(b, x);
      assert x in multiset(a) <==> x in a;
      assert x in multiset(b) <==> x in b;
    }
  }

  lemma {:induction false} UptoIs(s: seq<string>, k: int)
    ensures Upto(s, k) <= s && (0 <= k <= |s| ==> |Upto(s, k)| == k)
  {
  }

  /** `k` counts for more than `f`, or for as much and stands before it. */
  predicate Outranks(counts: Dict<int>, order: seq<string>, k: string, f: string) {
    && k in counts.vals && f in counts.vals
    && (counts.vals[k] > counts.vals[f] || (counts.vals[k] == counts.vals[f] && RowBefore(order, k, f)))
  }

  /** The kept labels are the first of the stable sort: none of the folded ones counts for more, and among
      equals the one standing earlier in the table is kept. */
  lemma KeptIs(counts: Dict<int>, order: seq<string>, cap: int, k: string, f: string)
    requires counts.Valid() && NoDup(order)
    requires k in Kept(counts, order, cap) && f in counts.keys && f !in Kept(counts, order, cap)
    ensures k in counts.keys && Outranks(counts, order, k, f)
  {
    hide Ordered, Sorted, RowBefore;
    var ordered, rk := Ordered(counts, order), ByCount(counts.vals);
    var sorted := Sorted(rk, ordered);
    var upto := Upto(sorted, cap - 1);
    OrderedIs(counts, order);
    SortedStable(rk, ordered);
    SameMembers(ordered, sorted);
    SameMembers(counts.keys, ordered);
    UptoIs(sorted, cap - 1);
    var i :| 0 <= i < |upto| && upto[i] == k;
    assert sorted[i] == k && k in sorted;
    assert f in sorted;
    var j :| 0 <= j < |sorted| && sorted[j] == f;
    assert forall m :: 0 <= m < |upto| ==> upto[m] in Kept(counts, order, cap) && upto[m] == sorted[m];
    assert Ahead(rk, ordered, sorted[i], sorted[j]);
    if Pos(ordered, k) < Pos(ordered, f) {
      assert RowBefore(order, ordered[Pos(ordered, k)], ordered[Pos(ordered, f)]);
    }
  }

  lemma KeptMany(counts: Dict<int>, order: seq<string>, cap: int)
    requires counts.Valid() && NoDup(order) && 1 <= cap < |counts.keys|
    ensures |Only(Ordered(counts, order), Kept(counts, order, cap))| == cap - 1
  {
    hide Ordered, Sorted;
    var ordered, rk := Ordered(counts, order), ByCount(counts.vals);
    var sorted := Sorted(rk, ordered);
    var upto := Upto(sorted, cap - 1);
    OrderedIs(counts, order);
    SortedStable(rk, ordered);
    SameMembers(ordered, sorted);
    SameMembers(counts.keys, ordered);
    UptoIs(sorted, cap - 1);
    var only := Only(ordered, Kept(counts, order, cap));
    OnlyNoDup(ordered, Kept(counts, order, cap));
    forall x ensures x in only <==> x in upto {
      if x in upto { assert x in sorted; }
    }
    SameOnce(only, upto);
    SameMembers(only, upto);
  }

  lemma {:induction false} OnlyRowOrder(order: seq<string>, s: seq<string>, keep: set<string>)
    requires InRowOrder(order, s)
    ensures InRowOrder(order, Only(s, keep))
  {
    hide RowBefore;
    var r := Only(s, keep);
    forall i, j | 0 <= i < j < |r| ensures RowBefore(order, r[i], r[j]) { OnlyInOrder(s, keep, i, j); }
  }

  function SumRows(rows: seq<Row>): int { if rows == [] then 0 else rows[0].n + SumRows(rows[1..]) }

  lemma {:induction false} SumRowsOf(s: seq<string>, vals: map<string, int>)
    ensures SumRows(Rows(s, vals)) == Total(s, vals)
  {
    if s != [] {
      assert Rows(s, vals)[1..] == Rows(s[1..], vals);
      SumRowsOf(s[1..], vals);
    }
  }

  lemma {:induction false} SumRowsSnoc(rows: seq<Row>, row: Row)
    ensures SumRows(rows + [row]) == SumRows(rows) + row.n
  {
    if rows != [] {
      assert (rows + [row])[1..] == rows[1..] + [row];
      SumRowsSnoc(rows[1..], row);
    }
  }

  /** Nothing is lost: the rows add up to the whole table. */
  lemma Conserves(counts: Dict<int>, order: seq<string>, cap: int)
    requires counts.Valid() && NoDup(order)
    ensures SumRows(LumpAndCap(counts, order, cap)) == Total(counts.keys, counts.vals)
  {
    hide Ordered, Kept;
    var ordered, vals, kept := Ordered(counts, order), counts.vals, Kept(counts, order, cap);
    OrderedIs(counts, order);
    TotalPermuted(ordered, counts.keys, vals);
    SumRowsOf(ordered, vals);
    if counts.keys != [] && |ordered| > cap {
      var only, rest := Only(ordered, kept), Members(counts.keys) - kept;
      SameMembers(ordered, counts.keys);
      TotalSplit(ordered, kept, rest, vals);
      SumRowsOf(only, vals);
      SumRowsSnoc(Rows(only, vals), Row("Other", Total(Only(counts.keys, rest), vals)));
      OnlyPermuted(ordered, counts.keys, rest);
      TotalPermuted(Only(ordered, rest), Only(counts.keys, rest), vals);
    }
  }

  lemma OnlyPermuted(a: seq<string>, b: seq<string>, keep: set<string>)
    requires multiset(a) == multiset(b) && NoDup(a) && NoDup(b)
    ensures multiset(Only(a, keep)) == multiset(Only(b, keep))
  {
    OnlyNoDup(a, keep);
    OnlyNoDup(b, keep);
    SameMembers(a, b);
    SameOnce(Only(a, keep), Only(b, keep));
  }

  /** A non-empty table gives at most `cap` rows exactly when `cap` is at least one. */
  lemma Capped(counts: Dict<int>, order: seq<string>, cap: int)
    requires counts.Valid() && NoDup(order) && counts.keys != []
    ensures |LumpAndCap(counts, order, cap)| <= cap <==> cap >= 1
    ensures cap >= 1 ==> |LumpAndCap(counts, order, cap)| == if |counts.keys| <= cap then |counts.keys| else cap
  {
    hide Ordered, Kept;
    OrderedIs(counts, order);
    SameMembers(Ordered(counts, order), counts.keys);
    if 1 <= cap < |counts.keys| { KeptMany(counts, order, cap); }
  }

  /** Past the cap the last row is called "Other" and stands for all that the rows before it leave out. */
  lemma OtherLast(counts: Dict<int>, order: seq<string>, cap: int)
    requires counts.Valid() && NoDup(order) && counts.keys != [] && |counts.keys| > cap
    ensures var rows := LumpAndCap(counts, order, cap);
            && rows != [] && rows[|rows| - 1].name == "Other"
            && rows[|rows| - 1].n == Total(counts.keys, counts.vals) - SumRows(rows[..|rows| - 1])
  {
    hide Ordered, Kept;
    OrderedIs(counts, order);
    SameMembers(Ordered(counts, order), counts.keys);
    Conserves(counts, order, cap);
    var rows := LumpAndCap(counts, order, cap);
    assert rows == rows[..|rows| - 1] + [rows[|rows| - 1]];
    SumRowsSnoc(rows[..|rows| - 1], rows[|rows| - 1]);
  }

  /** The rows that stand for one label each: all but the folded one. */
  function Named(counts: Dict<int>, order: seq<string>, cap: int): seq<Row> {
    var rows := LumpAndCap(counts, order, cap);
    if |counts.keys| <= cap || rows == [] then rows else rows[..|rows| - 1]
  }

  predicate IsNamed(rows: seq<Row>, l: string) { exists i :: 0 <= i < |rows| && rows[i].name == l }

  /** Every named row carries its label's own count, rows come in the fixed order and then alphabetically, and
      what was folded away counts for no more than anything kept. */
  lemma RowsAreBiggest(counts: Dict<int>, order: seq<string>, cap: int)
    requires counts.Valid() && NoDup(order)
    ensures var rows := Named(counts, order, cap);
            && (forall i :: 0 <= i < |rows| ==> rows[i].name in counts.keys && rows[i].n == counts.vals[rows[i].name])
            && (forall i, j :: 0 <= i < j < |rows| ==> RowBefore(order, rows[i].name, rows[j].name) && rows[i].name != rows[j].name)
            && (forall i, f {:trigger rows[i], f in counts.keys} :: 0 <= i < |rows| && f in counts.keys && !IsNamed(rows, f) ==>
                  Outranks(counts, order, rows[i].name, f))
  {
    hide Ordered, Kept, RowBefore, Outranks;
    var ordered, kept, rows := Ordered(counts, order), Kept(counts, order, cap), Named(counts, order, cap);
    OrderedIs(counts, order);
    SameMembers(ordered, counts.keys);
    if counts.keys != [] {
      var names := if |ordered| <= cap then ordered else Only(ordered, kept);
      assert rows == Rows(names, counts.vals);
      OnlyNoDup(ordered, kept);
      OnlyRowOrder(order, ordered, kept);
      forall i | 0 <= i < |rows| ensures rows[i].name in counts.keys && rows[i].n == counts.vals[rows[i].name] {
        assert names[i] in names;
      }
      forall i, f {:trigger rows[i], f in counts.keys} | 0 <= i < |rows| && f in counts.keys && !IsNamed(rows, f)
        ensures Outranks(counts, order, rows[i].name, f)
      {
        assert names[i] in names;
        if f in names { NamedThere(names, counts.vals, f); }
        KeptIs(counts, order, cap, rows[i].name, f);
      }
    }
  }

  lemma NamedThere(names: seq<string>, vals: map<string, int>, f: string)
    requires f in names
    ensures IsNamed(Rows(names, vals), f)
  {
    var i :| 0 <= i < |names| && names[i] == f;
    assert Rows(names, vals)[i].name == f;
  }
}
