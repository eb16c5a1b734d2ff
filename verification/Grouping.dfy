/** Grouping a sequence by a key per element, the way PHP code does it
    with `$groups[$key][] = $item` over an ordered array: keys in the order
    they are first seen, and each group's elements in their original order.
    The service's album grouping, its song de-duplication and the CLI's
    album grouping are all instances. */
module Grouping {

  /** Appending is associative; stated once so that long chains of
      appends can be regrouped explicitly. */
  lemma {:induction false} AppendAssoc<T>(a: seq<T>, b: seq<T>, c: seq<T>)
    ensures (a + b) + c == a + (b + c)
  {
  }

  predicate NoDup(s: seq<string>) {
    forall i, j :: 0 <= i < j < |s| ==> s[i] != s[j]
  }

  /** The keys of `keys`, each once, in first-seen order. */
  function Distinct(keys: seq<string>): (r: seq<string>)
    ensures forall k :: k in r <==> k in keys
    ensures |r| <= |keys|
  {
    if keys == [] then []
    else
      var p := Distinct(keys[..|keys| - 1]);
      var k := keys[|keys| - 1];
      if k in p then p else p + [k]
  }

  /** Each key appears once in Distinct. */
  lemma {:induction false} DistinctNoDup(keys: seq<string>)
    ensures NoDup(Distinct(keys))
  {
    if keys != [] {
      DistinctNoDup(keys[..|keys| - 1]);
    }
  }

  /** The elements whose key is `k`, in their original order. */
  function Select<T(!new)>(xs: seq<T>, keys: seq<string>, k: string): (r: seq<T>)
    requires |xs| == |keys|
    ensures |r| <= |xs|
    ensures r != [] <==> k in keys
    ensures forall x :: x in r ==> x in xs
  {
    if xs == [] then []
    else
      var n := |xs| - 1;
      Select(xs[..n], keys[..n], k) + (if keys[n] == k then [xs[n]] else [])
  }

  /** Adding one element extends exactly its own group, at the end. */
  lemma {:induction false} SelectSnoc<T(!new)>(xs: seq<T>, keys: seq<string>, x: T, key: string, k: string)
    requires |xs| == |keys|
    ensures Select(xs + [x], keys + [key], k)
         == Select(xs, keys, k) + (if key == k then [x] else [])
  {
    assert (xs + [x])[..|xs|] == xs;
    assert (keys + [key])[..|keys|] == keys;
  }

  /** The first element whose key is `k` heads the group of `k`. */
  lemma {:induction false} SelectHead<T(!new)>(xs: seq<T>, keys: seq<string>, f: nat)
    requires |xs| == |keys| && f < |xs|
    requires forall j :: 0 <= j < f ==> keys[j] != keys[f]
    ensures Select(xs, keys, keys[f]) != [] && Select(xs, keys, keys[f])[0] == xs[f]
  {
    var n := |xs| - 1;
    if f < n {
      SelectHead(xs[..n], keys[..n], f);
    } else {
      assert keys[f] !in keys[..n];
    }
  }

  /** Every element belongs to the group of its own key. */
  lemma {:induction false} SelectContains<T(!new)>(xs: seq<T>, keys: seq<string>, i: nat)
    requires |xs| == |keys| && i < |xs|
    ensures xs[i] in Select(xs, keys, keys[i])
  {
    var n := |xs| - 1;
    if i < n {
      SelectContains(xs[..n], keys[..n], i);
    }
  }

  /** A group holds one element per occurrence of its key. */
  lemma {:induction false} SelectSize<T(!new)>(xs: seq<T>, keys: seq<string>, k: string)
    requires |xs| == |keys|
    ensures |Select(xs, keys, k)| == Count(keys, k)
  {
    if xs != [] {
      var n := |xs| - 1;
      SelectSize(xs[..n], keys[..n], k);
    }
  }

  /** How many times `k` occurs in `keys`. */
  function Count(keys: seq<string>, k: string): nat
  {
    if keys == [] then 0
    else Count(keys[..|keys| - 1], k) + (if keys[|keys| - 1] == k then 1 else 0)
  }

  /** Total size of the groups named by `ds`. */
  function Sizes<T(!new)>(xs: seq<T>, keys: seq<string>, ds: seq<string>): nat
    requires |xs| == |keys|
  {
    if ds == [] then 0
    else Sizes(xs, keys, ds[..|ds| - 1]) + |Select(xs, keys, ds[|ds| - 1])|
  }

  lemma {:induction false} SizesSnoc<T(!new)>(xs: seq<T>, keys: seq<string>, x: T, key: string, ds: seq<string>)
    requires |xs| == |keys| && NoDup(ds)
    ensures Sizes(xs + [x], keys + [key], ds) == Sizes(xs, keys, ds) + (if key in ds then 1 else 0)
  {
    if ds != [] {
      var m := |ds| - 1;
      var ds' := ds[..m];
      var last := ds[m];
      assert ds == ds' + [last];
      assert NoDup(ds') && last !in ds';
      SizesSnoc(xs, keys, x, key, ds');
      SelectSnoc(xs, keys, x, key, last);
      assert Sizes(xs + [x], keys + [key], ds)
          == Sizes(xs + [x], keys + [key], ds') + |Select(xs + [x], keys + [key], last)|;
      assert key in ds <==> key in ds' || key == last;
    }
  }

  /** Grouping is a partition: the groups of the distinct keys together
      hold exactly as many elements as the input. */
  lemma {:induction false} GroupsPartition<T(!new)>(xs: seq<T>, keys: seq<string>)
    requires |xs| == |keys|
    ensures Sizes(xs, keys, Distinct(keys)) == |xs|
  {
    if xs != [] {
      var n := |xs| - 1;
      var xs', keys' := xs[..n], keys[..n];
      assert xs == xs' + [xs[n]] && keys == keys' + [keys[n]];
      GroupsPartition(xs', keys');
      var d' := Distinct(keys');
      DistinctNoDup(keys');
      SizesSnoc(xs', keys', xs[n], keys[n], d');
      if keys[n] !in d' {
        assert Select(xs', keys', keys[n]) == [];
        SelectSnoc(xs', keys', xs[n], keys[n], keys[n]);
        assert Distinct(keys) == d' + [keys[n]];
        assert (d' + [keys[n]])[..|d'|] == d';
      }
    }
  }
  /** The groups named by `ds`, in the order of `ds`: the ordered map
      `$groups` read out with array_values(). */
  function GroupsOf<T(!new)>(xs: seq<T>, keys: seq<string>, ds: seq<string>): (gs: seq<seq<T>>)
    requires |xs| == |keys|
    ensures |gs| == |ds|
    ensures forall j :: 0 <= j < |ds| ==> gs[j] == Select(xs, keys, ds[j])
  {
    if ds == [] then [] else GroupsOf(xs, keys, ds[..|ds| - 1]) + [Select(xs, keys, ds[|ds| - 1])]
  }

  /** Every group of a distinct key has at least its first element. */
  lemma {:induction false} DistinctGroupsNonEmpty<T(!new)>(xs: seq<T>, keys: seq<string>)
    requires |xs| == |keys|
    ensures forall j :: 0 <= j < |Distinct(keys)| ==> GroupsOf(xs, keys, Distinct(keys))[j] != []
  {
    var ds := Distinct(keys);
    forall j | 0 <= j < |ds|
      ensures GroupsOf(xs, keys, ds)[j] != []
    {
      assert ds[j] in ds;
    }
  }

  /** The number of elements in all groups together. */
  function TotalSize<T>(gs: seq<seq<T>>): nat
  {
    if gs == [] then 0 else TotalSize(gs[..|gs| - 1]) + |gs[|gs| - 1]|
  }

  lemma {:induction false} TotalSizeOfGroups<T(!new)>(xs: seq<T>, keys: seq<string>, ds: seq<string>)
    requires |xs| == |keys|
    ensures TotalSize(GroupsOf(xs, keys, ds)) == Sizes(xs, keys, ds)
  {
    if ds != [] {
      var m := |ds| - 1;
      TotalSizeOfGroups(xs, keys, ds[..m]);
      assert GroupsOf(xs, keys, ds)[..m] == GroupsOf(xs, keys, ds[..m]);
    }
  }

  /** Grouping by first-seen key loses no element and duplicates none:
      the groups hold |xs| elements in all, each element sits in the group
      of its own key, and there is one non-empty group per distinct key. */
  lemma {:induction false} GroupingIsPartition<T(!new)>(xs: seq<T>, keys: seq<string>)
    requires |xs| == |keys|
    ensures TotalSize(GroupsOf(xs, keys, Distinct(keys))) == |xs|
    ensures forall i :: 0 <= i < |xs| ==> xs[i] in Select(xs, keys, keys[i])
    ensures forall g :: g in GroupsOf(xs, keys, Distinct(keys)) ==> g != []
  {
    TotalSizeOfGroups(xs, keys, Distinct(keys));
    GroupsPartition(xs, keys);
    forall i | 0 <= i < |xs| ensures xs[i] in Select(xs, keys, keys[i]) {
      SelectContains(xs, keys, i);
    }
  }

  lemma {:induction false} DistinctSnoc(ks: seq<string>, k: string)
    ensures Distinct(ks + [k]) == if k in ks then Distinct(ks) else Distinct(ks) + [k]
  {
    assert (ks + [k])[..|ks|] == ks;
  }

  /** The state of a `$groups[$key][] = $x` loop after the first `n`
      elements: the keys seen so far in first-seen order, and for each the
      elements so far that carry it. */
  ghost predicate GroupedPrefix<T(!new)>(xs: seq<T>, keys: seq<string>, n: nat, order: seq<string>, groups: map<string, seq<T>>)
    requires |xs| == |keys| && n <= |xs|
  {
    Grouped(xs[..n], keys[..n], order, groups)
  }

  /** One iteration of such a loop: open the group when its key is new,
      then append the element to it. */
  lemma {:induction false} GroupedStep<T(!new)>(xs: seq<T>, keys: seq<string>, n: nat, order: seq<string>, groups: map<string, seq<T>>)
    requires |xs| == |keys| && n < |xs|
    requires GroupedPrefix(xs, keys, n, order, groups)
    ensures var k := keys[n];
      var open := if k in groups then groups else groups[k := []];
      GroupedPrefix(xs, keys, n + 1, if k in groups then order else order + [k], open[k := open[k] + [xs[n]]])
  {
    var k := keys[n];
    assert keys[..n + 1] == keys[..n] + [k];
    assert xs[..n + 1] == xs[..n] + [xs[n]];
    GroupedSnoc(xs[..n], keys[..n], xs[n], k, order, groups);
  }

  /** The state of a `$groups[$key][] = $x` loop that has kept the
      elements `xs`, whose keys are `keys`. */
  ghost predicate Grouped<T(!new)>(xs: seq<T>, keys: seq<string>, order: seq<string>, groups: map<string, seq<T>>)
    requires |xs| == |keys|
  {
    && order == Distinct(keys)
    && (forall k :: k in groups <==> k in order)
    && (forall k :: k in groups ==> groups[k] == Select(xs, keys, k))
  }

  /** One more kept element: open its group when its key is new, then
      append it to the group. */
  lemma {:induction false} GroupedSnoc<T(!new)>(xs: seq<T>, keys: seq<string>, x: T, key: string, order: seq<string>, groups: map<string, seq<T>>)
    requires |xs| == |keys|
    requires Grouped(xs, keys, order, groups)
    ensures var open := if key in groups then groups else groups[key := []];
      Grouped(xs + [x], keys + [key], if key in groups then order else order + [key], open[key := open[key] + [x]])
  {
    var order' := if key in groups then order else order + [key];
    var open := if key in groups then groups else groups[key := []];
    var groups' := open[key := open[key] + [x]];
    DistinctSnoc(keys, key);
    assert order' == Distinct(keys + [key]);
    assert forall k :: k in groups' <==> k in order';
    forall k | k in groups'
      ensures groups'[k] == Select(xs + [x], keys + [key], k)
    {
      SelectSnoc(xs, keys, x, key, k);
    }
  }

  /** Every member of the group of `k` is an element whose key is `k`. */
  lemma {:induction false} SelectOrigin<T(!new)>(xs: seq<T>, keys: seq<string>, k: string, x: T)
    requires |xs| == |keys| && x in Select(xs, keys, k)
    ensures exists i :: 0 <= i < |xs| && xs[i] == x && keys[i] == k
  {
    var n := |xs| - 1;
    if x in Select(xs[..n], keys[..n], k) {
      SelectOrigin(xs[..n], keys[..n], k, x);
      var i :| 0 <= i < n && xs[..n][i] == x && keys[..n][i] == k;
      assert xs[i] == x && keys[i] == k;
    } else {
      assert xs[n] == x && keys[n] == k;
    }
  }

  /** A finished loop has grouped everything. */
  lemma {:induction false} GroupedAll<T(!new)>(xs: seq<T>, keys: seq<string>, order: seq<string>, groups: map<string, seq<T>>)
    requires |xs| == |keys|
    requires GroupedPrefix(xs, keys, |xs|, order, groups)
    ensures order == Distinct(keys)
    ensures forall k :: k in groups ==> groups[k] == Select(xs, keys, k)
  {
    assert xs[..|xs|] == xs && keys[..|xs|] == keys;
  }
}
