/** Python's insertion-ordered dictionary with string keys: assigning to a key that is
    already present keeps its position, popping takes the oldest position first. */
module PyDict {

  datatype Dict<V> = Dict(keys: seq<string>, vals: map<string, V>) {

    ghost predicate Valid() {
      && (forall k {:trigger k in vals} :: k in vals <==> k in keys)
      && Distinct(keys)
    }

    predicate Has(k: string) { k in vals }

    function GetOr(k: string, default: V): V { if k in vals then vals[k] else default }

    function Set(k: string, v: V): (d: Dict<V>)
      ensures Valid() ==> d.Valid()
      ensures d.vals == vals[k := v] && keys <= d.keys
      ensures |d.keys| == |keys| + (if k in vals then 0 else 1)
    {
      Dict(if k in vals then keys else keys + [k], vals[k := v])
    }

    /** The dictionary without its `n` oldest positions. */
    function DropOldest(n: nat): (d: Dict<V>)
      requires n <= |keys|
    {
      Dict(keys[n..], map k | k in vals && k !in keys[..n] :: vals[k])
    }

    lemma DropOldestValid(n: nat)
      requires Valid() && n <= |keys|
      ensures DropOldest(n).Valid()
    {
      assert keys == keys[..n] + keys[n..];
    }

    lemma DropOneMore(n: nat)
      requires n < |keys|
      ensures DropOldest(n).DropOldest(1) == DropOldest(n + 1)
    {
      assert keys[n..][..1] == [keys[n]];
      assert keys[..n + 1] == keys[..n] + [keys[n]];
      assert keys[n..][1..] == keys[n + 1..];
      assert DropOldest(n).DropOldest(1).vals == DropOldest(n + 1).vals;
    }

    lemma DropKeeps(n: nat, k: string)
      requires Valid() && n < |keys| && k == keys[n]
      ensures k in DropOldest(n).vals && DropOldest(n).vals[k] == vals[k]
    {
    }

    lemma DropNone()
      ensures DropOldest(0) == this
    {
      assert DropOldest(0).vals == vals;
    }

    /** A dictionary comprehension `{k: v for k, v in self.items() if keep(v)}`. */
    function Filter(keep: V -> bool): (d: Dict<V>)
      ensures Valid() ==> d.Valid()
      ensures Valid() ==> forall k :: k in d.vals <==> k in vals && keep(vals[k])
      ensures forall k :: k in d.vals ==> k in vals && d.vals[k] == vals[k]
      ensures |d.keys| <= |keys|
      ensures Valid() && (forall k :: k in vals ==> keep(vals[k])) ==> d.keys == keys
    {
      FilterKeysIs(keys, vals, keep);
      Dict(FilterKeys(keys, vals, keep), map k | k in vals && keep(vals[k]) :: vals[k])
    }
  }

  function FilterKeys<V>(keys: seq<string>, vals: map<string, V>, keep: V -> bool): seq<string> {
    if keys == [] then [] else
      var rest := FilterKeys(keys[1..], vals, keep);
      if keys[0] in vals && keep(vals[keys[0]]) then [keys[0]] + rest else rest
  }

  lemma {:induction false} FilterKeysAmong<V>(keys: seq<string>, vals: map<string, V>, keep: V -> bool)
    ensures |FilterKeys(keys, vals, keep)| <= |keys|
    ensures forall k {:trigger k in FilterKeys(keys, vals, keep)} :: k in FilterKeys(keys, vals, keep) <==> k in keys && k in vals && keep(vals[k])
  {
    if keys != [] {
      FilterKeysAmong(keys[1..], vals, keep);
      assert keys == [keys[0]] + keys[1..];
    }
  }

  ghost predicate Distinct(keys: seq<string>) { forall i, j :: 0 <= i < j < |keys| ==> keys[i] != keys[j] }

  lemma {:induction false} FilterKeysDistinct<V>(keys: seq<string>, vals: map<string, V>, keep: V -> bool)
    requires Distinct(keys)
    ensures Distinct(FilterKeys(keys, vals, keep))
  {
    if keys != [] {
      FilterKeysDistinct(keys[1..], vals, keep);
      FilterKeysAmong(keys[1..], vals, keep);
      var rest := FilterKeys(keys[1..], vals, keep);
      forall k | k in rest ensures k != keys[0] { assert k in keys[1..]; }
      forall j | 0 <= j < |rest| ensures rest[j] != keys[0] { assert rest[j] in rest; }
    }
  }

  lemma {:induction false} FilterKeysAll<V>(keys: seq<string>, vals: map<string, V>, keep: V -> bool)
    requires forall k {:trigger k in vals} :: k in keys ==> k in vals && keep(vals[k])
    ensures FilterKeys(keys, vals, keep) == keys
  {
    if keys != [] { FilterKeysAll(keys[1..], vals, keep); }
  }

  lemma FilterKeysIs<V>(keys: seq<string>, vals: map<string, V>, keep: V -> bool)
    ensures var r := FilterKeys(keys, vals, keep);
            && (forall k {:trigger k in r} :: k in r <==> k in keys && k in vals && keep(vals[k])) && |r| <= |keys|
            && ((forall k {:trigger k in vals} :: k in keys ==> k in vals && keep(vals[k])) ==> r == keys)
            && (Distinct(keys) ==> Distinct(r))
  {
    FilterKeysAmong(keys, vals, keep);
    if forall k {:trigger k in vals} :: k in keys ==> k in vals && keep(vals[k]) { FilterKeysAll(keys, vals, keep); }
    if Distinct(keys) { FilterKeysDistinct(keys, vals, keep); }
  }

  /** The positions from `i` on whose values pass. */
  ghost function Passing<V>(keys: seq<string>, vals: map<string, V>, keep: V -> bool, i: nat): set<int> {
    set j | i <= j < |keys| && keys[j] in vals && keep(vals[keys[j]])
  }

  lemma {:induction false} PassingCounted<V>(keys: seq<string>, vals: map<string, V>, keep: V -> bool, i: nat)
    requires i <= |keys|
    ensures |FilterKeys(keys[i..], vals, keep)| == |Passing(keys, vals, keep, i)|
    decreases |keys| - i
  {
    if i < |keys| {
      PassingCounted(keys, vals, keep, i + 1);
      assert keys[i..][1..] == keys[i + 1..];
      var here := if keys[i] in vals && keep(vals[keys[i]]) then {i} else {};
      assert Passing(keys, vals, keep, i) == here + Passing(keys, vals, keep, i + 1);
    } else {
      assert Passing(keys, vals, keep, i) == {};
    }
  }

  lemma {:induction false} FilterJoins<V>(a: seq<string>, b: seq<string>, vals: map<string, V>, keep: V -> bool)
    ensures FilterKeys(a + b, vals, keep) == FilterKeys(a, vals, keep) + FilterKeys(b, vals, keep)
    decreases |a|
  {
    if a == [] {
      assert a + b == b;
    } else {
      assert (a + b)[1..] == a[1..] + b;
      FilterJoins(a[1..], b, vals, keep);
    }
  }

  /** A key that passes stands in the filtered list before exactly those behind it that pass. */
  lemma FilterAt<V>(keys: seq<string>, vals: map<string, V>, keep: V -> bool, i: nat) returns (p: nat)
    requires i < |keys| && keys[i] in vals && keep(vals[keys[i]])
    ensures var r := FilterKeys(keys, vals, keep);
            p < |r| && r[p] == keys[i] && |r| - p - 1 == |Passing(keys, vals, keep, i + 1)|
  {
    p := |FilterKeys(keys[..i], vals, keep)|;
    assert keys == keys[..i] + keys[i..];
    FilterJoins(keys[..i], keys[i..], vals, keep);
    assert keys[i..][1..] == keys[i + 1..];
    PassingCounted(keys, vals, keep, i + 1);
  }

  ghost predicate InThisOrder(keys: seq<string>, x: string, y: string) {
    exists i, j :: 0 <= i < j < |keys| && keys[i] == x && keys[j] == y
  }

  lemma OrderBehind(keys: seq<string>, x: string, y: string)
    requires keys != [] && (InThisOrder(keys[1..], x, y) || (keys[0] == x && y in keys[1..]))
    ensures InThisOrder(keys, x, y)
  {
    if InThisOrder(keys[1..], x, y) {
      var i, j :| 0 <= i < j < |keys[1..]| && keys[1..][i] == x && keys[1..][j] == y;
      assert keys[i + 1] == x && keys[j + 1] == y;
    } else {
      var j :| 0 <= j < |keys[1..]| && keys[1..][j] == y;
      assert keys[0] == x && keys[j + 1] == y;
    }
  }

  /** Filtering keeps the order. */
  lemma {:induction false} FilterInOrder<V>(keys: seq<string>, vals: map<string, V>, keep: V -> bool, a: nat, b: nat)
    requires a < b < |FilterKeys(keys, vals, keep)|
    ensures InThisOrder(keys, FilterKeys(keys, vals, keep)[a], FilterKeys(keys, vals, keep)[b])
  {
    hide InThisOrder;
    var all, rest := FilterKeys(keys, vals, keep), FilterKeys(keys[1..], vals, keep);
    if !(keys[0] in vals && keep(vals[keys[0]])) {
      FilterInOrder(keys[1..], vals, keep, a, b);
    } else if a == 0 {
      FilterKeysIs(keys[1..], vals, keep);
      assert rest[b - 1] in rest;
    } else {
      FilterInOrder(keys[1..], vals, keep, a - 1, b - 1);
    }
    OrderBehind(keys, all[a], all[b]);
  }
}
