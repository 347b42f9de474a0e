/** In which order `to_yaml` lists the values of `stem.0`, `stem.1`, ... : the
    keys are sorted as texts. */
module YamlFamilies {
  import opened Wrappers
  import opened Text
  import opened Yaml
  import opened YamlBuild

  // ------------------------------------------------- keys and their segments

  lemma {:induction false} JoinSnoc(parts: seq<string>, last: string, sep: string)
    requires parts != []
    ensures Join(parts + [last], sep) == Join(parts, sep) + sep + last
  {
    if |parts| > 1 {
      assert (parts + [last])[1..] == parts[1..] + [last];
      JoinSnoc(parts[1..], last, sep);
    } else {
      assert (parts + [last])[1..] == [last];
    }
  }

  function MemberKey(stem: string, d: string): string
  {
    stem + "." + d
  }

  lemma SplitMember(stem: string, d: string)
    requires '.' !in d
    ensures Split(MemberKey(stem, d), ".") == Split(stem, ".") + [d]
  {
    SplitPieces(stem, '.');
    JoinSplit(stem, ".");
    JoinSnoc(Split(stem, "."), d, ".");
    SplitJoin(Split(stem, ".") + [d], '.');
  }

  lemma MemberFromPath(k: string, stem: string, d: string)
    requires Split(k, ".") == Split(stem, ".") + [d]
    ensures k == MemberKey(stem, d)
  {
    JoinSplit(k, ".");
    JoinSplit(stem, ".");
    JoinSnoc(Split(stem, "."), d, ".");
  }

  /** With the stem in common, keys are ordered as their indices are. */
  lemma {:induction false} LessMember(prefix: string, a: string, b: string)
    ensures Less(prefix + a, prefix + b) <==> Less(a, b)
  {
    if prefix == "" {
      assert prefix + a == a && prefix + b == b;
    } else {
      assert (prefix + a)[1..] == prefix[1..] + a && (prefix + b)[1..] == prefix[1..] + b;
      LessMember(prefix[1..], a, b);
    }
  }

  // --------------------------------------------------------- one family's keys

  predicate MemberOf(k: string, stem: string)
  {
    InFamily(Split(k, "."), Split(stem, "."))
  }

  /** The keys of the family, in the order they come. */
  function FamilyKeys(keys: seq<string>, stem: string): seq<string>
  {
    if keys == [] then []
    else
      var n := |keys| - 1;
      FamilyKeys(keys[..n], stem) + if MemberOf(keys[n], stem) then [keys[n]] else []
  }

  lemma {:induction false} FamilyKeysIn(keys: seq<string>, stem: string, k: string)
    ensures k in FamilyKeys(keys, stem) <==> k in keys && MemberOf(k, stem)
    decreases |keys|
  {
    if keys != [] {
      var n := |keys| - 1;
      FamilyKeysIn(keys[..n], stem, k);
      assert keys == keys[..n] + [keys[n]];
    }
  }

  lemma {:induction false} FamilyKeysSorted(keys: seq<string>, stem: string)
    requires Sorted(keys)
    ensures Sorted(FamilyKeys(keys, stem))
    decreases |keys|
  {
    if keys != [] {
      var n := |keys| - 1;
      FamilyKeysSorted(keys[..n], stem);
      var before := FamilyKeys(keys[..n], stem);
      forall i | 0 <= i < |before| ensures Less(before[i], keys[n]) {
        FamilyKeysIn(keys[..n], stem, before[i]);
      }
    }
  }

  function Leaves(props: map<string, string>, keys: seq<string>): (r: seq<Tree>)
    requires forall k <- keys :: k in props
    ensures |r| == |keys| && forall i :: 0 <= i < |keys| ==> r[i] == Leaf(props[keys[i]])
  {
    seq(|keys|, i requires 0 <= i < |keys| => Leaf(props[keys[i]]))
  }

  lemma FamilyKeysHeld(props: map<string, string>, keys: seq<string>, stem: string)
    requires forall k <- keys :: k in props
    ensures forall k <- FamilyKeys(keys, stem) :: k in props
  {
    forall k | k in FamilyKeys(keys, stem) ensures k in props { FamilyKeysIn(keys, stem, k); }
  }

  lemma LeavesSnoc(props: map<string, string>, keys: seq<string>, k: string)
    requires (forall x <- keys :: x in props) && k in props
    ensures Leaves(props, keys + [k]) == Leaves(props, keys) + [Leaf(props[k])]
  {
  }

  lemma {:induction false} FamilyLeaves(props: map<string, string>, keys: seq<string>, stem: string)
    requires forall k <- keys :: k in props
    ensures forall k <- FamilyKeys(keys, stem) :: k in props
    ensures FamilyValues(KeyItems(props, keys), Split(stem, ".")) == Leaves(props, FamilyKeys(keys, stem))
    decreases |keys|
  {
    FamilyKeysHeld(props, keys, stem);
    if keys != [] {
      var n := |keys| - 1;
      FamilyLeaves(props, keys[..n], stem);
      FamilyLast(props, keys, stem, KeyItems(props, keys), Split(stem, "."));
    }
  }

  lemma FamilyLast(props: map<string, string>, keys: seq<string>, stem: string, items: seq<Item>, init: seq<string>)
    requires keys != [] && (forall k <- keys :: k in props) && items == KeyItems(props, keys) && init == Split(stem, ".")
    requires forall k <- FamilyKeys(keys[..|keys| - 1], stem) :: k in props
    requires FamilyValues(KeyItems(props, keys[..|keys| - 1]), init) == Leaves(props, FamilyKeys(keys[..|keys| - 1], stem))
    ensures forall k <- FamilyKeys(keys, stem) :: k in props
    ensures FamilyValues(items, init) == Leaves(props, FamilyKeys(keys, stem))
  {
    var n := |keys| - 1;
    FamilyKeysHeld(props, keys, stem);
    assert items[..n] == KeyItems(props, keys[..n]);
    assert items[n] == Item(Split(keys[n], "."), props[keys[n]]);
    LeavesSnoc(props, FamilyKeys(keys[..n], stem), keys[n]);
  }

  lemma MemberExactly(k: string, stem: string)
    ensures MemberOf(k, stem) <==> exists d: string :: AllDigits(d) && k == MemberKey(stem, d)
  {
    if MemberOf(k, stem) {
      var p, init := Split(k, "."), Split(stem, ".");
      assert p == init + [p[|init|]];
      MemberFromPath(k, stem, p[|init|]);
    }
    if exists d: string :: AllDigits(d) && k == MemberKey(stem, d) {
      var d: string :| AllDigits(d) && k == MemberKey(stem, d);
      SplitMember(stem, d);
    }
  }

  // ------------------------------------------------------------ in which order

  /** The indices of the family of `stem`, as they are written, in some order. */
  ghost predicate Indices(keys: set<string>, stem: string, ds: seq<string>)
  {
    ds != [] && forall d: string :: d in ds <==> AllDigits(d) && MemberKey(stem, d) in keys
  }

  function IndexKeys(stem: string, ds: seq<string>): (r: seq<string>)
    ensures |r| == |ds| && forall i :: 0 <= i < |ds| ==> r[i] == MemberKey(stem, ds[i])
  {
    seq(|ds|, i requires 0 <= i < |ds| => MemberKey(stem, ds[i]))
  }

  lemma IndexKeysSorted(stem: string, ds: seq<string>)
    ensures Sorted(IndexKeys(stem, ds)) <==> Sorted(ds)
  {
    var ks := IndexKeys(stem, ds);
    forall i, j | 0 <= i < j < |ds| ensures Less(ks[i], ks[j]) <==> Less(ds[i], ds[j]) {
      LessMember(stem + ".", ds[i], ds[j]);
    }
  }

  lemma IndexKeysIn(keys: set<string>, stem: string, ds: seq<string>, k: string)
    requires Indices(keys, stem, ds)
    ensures k in IndexKeys(stem, ds) <==> k in FamilyKeys(SortedKeys(keys), stem)
  {
    FamilyKeysIn(SortedKeys(keys), stem, k);
    MemberExactly(k, stem);
    if k in keys && MemberOf(k, stem) {
      var d: string :| AllDigits(d) && k == MemberKey(stem, d);
      var i :| 0 <= i < |ds| && ds[i] == d;
      assert IndexKeys(stem, ds)[i] == k;
    }
  }

  lemma SortedFamily(keys: set<string>, stem: string, ds: seq<string>)
    requires Indices(keys, stem, ds)
    ensures FamilyKeys(SortedKeys(keys), stem) == IndexKeys(stem, ds) <==> Sorted(ds)
  {
    FamilyKeysSorted(SortedKeys(keys), stem);
    IndexKeysSorted(stem, ds);
    if Sorted(ds) {
      forall k ensures k in FamilyKeys(SortedKeys(keys), stem) <==> k in IndexKeys(stem, ds) {
        IndexKeysIn(keys, stem, ds, k);
      }
      SortedUnique(FamilyKeys(SortedKeys(keys), stem), IndexKeys(stem, ds));
    }
  }

  /** The list at `stem` holds the family's values in the order of `ds`. */
  ghost predicate ListedInOrder(props: map<string, string>, stem: string, ds: seq<string>)
    requires Indices(props.Keys, stem, ds)
  {
    YamlOf(props).Ok? &&
    Lookup(YamlOf(props).value, Split(stem, ".")) == Some(List(Leaves(props, IndexKeys(stem, ds))))
  }

  /** On clean keys the list is that of the sorted keys of the family. */
  lemma FamilyListed(props: map<string, string>, stem: string, ds: seq<string>)
    requires CleanKeys(props.Keys) && Indices(props.Keys, stem, ds)
    ensures forall k <- FamilyKeys(SortedKeys(props.Keys), stem) :: k in props
    ensures YamlOf(props).Ok? && Lookup(YamlOf(props).value, Split(stem, ".")) ==
            Some(List(Leaves(props, FamilyKeys(SortedKeys(props.Keys), stem))))
  {
    assert ds[0] in ds;
    SplitMember(stem, ds[0]);
    var path := Split(MemberKey(stem, ds[0]), ".");
    assert Last(path) == ds[0] && Init(path) == Split(stem, ".");
    ToYamlFaithful(props, MemberKey(stem, ds[0]));
    FamilyLeaves(props, SortedKeys(props.Keys), stem);
  }

  lemma KeysOfLeaves(props: map<string, string>, a: seq<string>, b: seq<string>)
    requires (forall k <- a :: k in props && props[k] == k) && (forall k <- b :: k in props && props[k] == k)
    requires Leaves(props, a) == Leaves(props, b)
    ensures a == b
  {
    forall i | 0 <= i < |a| ensures a[i] == b[i] {
      assert Leaves(props, a)[i] == Leaves(props, b)[i];
    }
  }

  lemma SortedListed(props: map<string, string>, stem: string, ds: seq<string>)
    requires CleanKeys(props.Keys) && Indices(props.Keys, stem, ds) && Sorted(ds)
    ensures ListedInOrder(props, stem, ds)
  {
    FamilyListed(props, stem, ds);
    SortedFamily(props.Keys, stem, ds);
  }

  lemma ListedLeaves(props: map<string, string>, stem: string, ds: seq<string>)
    requires CleanKeys(props.Keys) && Indices(props.Keys, stem, ds) && ListedInOrder(props, stem, ds)
    ensures forall k <- FamilyKeys(SortedKeys(props.Keys), stem) :: k in props
    ensures Leaves(props, FamilyKeys(SortedKeys(props.Keys), stem)) == Leaves(props, IndexKeys(stem, ds))
  {
    FamilyListed(props, stem, ds);
  }

  lemma LeavesSorted(keys: set<string>, stem: string, ds: seq<string>)
    requires Indices(keys, stem, ds) && forall k <- FamilyKeys(SortedKeys(keys), stem) :: k in keys
    requires Leaves(KeysAsValues(keys), FamilyKeys(SortedKeys(keys), stem)) == Leaves(KeysAsValues(keys), IndexKeys(stem, ds))
    ensures Sorted(ds)
  {
    KeysOfLeaves(KeysAsValues(keys), FamilyKeys(SortedKeys(keys), stem), IndexKeys(stem, ds));
    SortedFamily(keys, stem, ds);
  }

  /** Whatever the values of these keys, the list at `stem` holds them in the order of `ds`. */
  ghost predicate AlwaysListed(keys: set<string>, stem: string, ds: seq<string>)
    requires Indices(keys, stem, ds)
  {
    forall props: map<string, string> :: props.Keys == keys ==> ListedInOrder(props, stem, ds)
  }

  /** For a family whose indices are `ds`: the list follows `ds` for all values,
      if and only if `ds` is in the order of texts. */
  lemma ListedInOrderExactly(keys: set<string>, stem: string, ds: seq<string>)
    requires CleanKeys(keys) && Indices(keys, stem, ds)
    ensures AlwaysListed(keys, stem, ds) <==> Sorted(ds)
  {
    if Sorted(ds) {
      forall props: map<string, string> | props.Keys == keys ensures ListedInOrder(props, stem, ds) {
        SortedListed(props, stem, ds);
      }
    }
    if AlwaysListed(keys, stem, ds) {
      assert KeysAsValues(keys).Keys == keys;
      ListedLeaves(KeysAsValues(keys), stem, ds);
      LeavesSorted(keys, stem, ds);
    }
  }

  // ---------------------------------------------------------- in numeric order

  function Decimals(idx: seq<nat>): (r: seq<string>)
    ensures |r| == |idx| && forall i :: 0 <= i < |idx| ==> r[i] == Dec(idx[i])
  {
    seq(|idx|, i requires 0 <= i < |idx| => Dec(idx[i]))
  }

  function UpTo(n: nat): (r: seq<nat>)
    ensures |r| == n + 1 && forall i :: 0 <= i <= n ==> r[i] == i
  {
    seq(n + 1, i => i)
  }

  /** No smaller number is a later text. */
  predicate TextOrder(idx: seq<nat>)
  {
    forall a <- idx, b <- idx :: a < b ==> Less(Dec(a), Dec(b))
  }

  predicate Increasing(idx: seq<nat>)
  {
    forall i, j :: 0 <= i < j < |idx| ==> idx[i] < idx[j]
  }

  lemma TextOrderSorted(idx: seq<nat>)
    requires Increasing(idx)
    ensures Sorted(Decimals(idx)) <==> TextOrder(idx)
  {
    var ds := Decimals(idx);
    if TextOrder(idx) {
      forall i, j | 0 <= i < j < |ds| ensures Less(ds[i], ds[j]) {
        assert idx[i] in idx && idx[j] in idx;
      }
    }
    if Sorted(ds) {
      forall a, b | a in idx && b in idx && a < b ensures Less(Dec(a), Dec(b)) {
        var i :| 0 <= i < |idx| && idx[i] == a;
        var j :| 0 <= j < |idx| && idx[j] == b;
        assert Less(ds[i], ds[j]);
      }
    }
  }

  /** The values of `stem.<i>` stay in the numeric order of the indices, for all
      values, if and only if no smaller index is a later text. */
  lemma NumericOrderExactly(keys: set<string>, stem: string, idx: seq<nat>)
    requires CleanKeys(keys) && Increasing(idx) && Indices(keys, stem, Decimals(idx))
    ensures AlwaysListed(keys, stem, Decimals(idx)) <==> TextOrder(idx)
  {
    ListedInOrderExactly(keys, stem, Decimals(idx));
    TextOrderSorted(idx);
  }

  lemma DigitsInOrder(a: nat, b: nat)
    requires a < b < 10
    ensures Less(Dec(a), Dec(b))
  {
  }

  lemma TenBeforeTwo()
    ensures Less(Dec(10), Dec(2)) && !Less(Dec(2), Dec(10))
  {
    assert Dec(10) == "1" + Dec(0);
    LessTrichotomy(Dec(2), Dec(10));
  }

  /** The values of `stem.0` to `stem.n` stay in order exactly while the last index has one digit. */
  lemma InOrderUpToTen(keys: set<string>, stem: string, n: nat)
    requires CleanKeys(keys) && Indices(keys, stem, Decimals(UpTo(n)))
    ensures AlwaysListed(keys, stem, Decimals(UpTo(n))) <==> n <= 9
  {
    var idx := UpTo(n);
    NumericOrderExactly(keys, stem, idx);
    if n <= 9 {
      forall a, b | a in idx && b in idx && a < b ensures Less(Dec(a), Dec(b)) {
        DigitsInOrder(a, b);
      }
    } else {
      assert idx[2] in idx && idx[10] in idx;
      TenBeforeTwo();
    }
  }
}
