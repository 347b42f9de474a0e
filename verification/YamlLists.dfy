/** Which sets of keys `to_yaml` keeps, exactly, when keys may also end in
    indices: such keys share a list with all keys of their family. */
module YamlLists {
  import opened Wrappers
  import opened Text
  import opened Yaml
  import opened YamlBuild
  import opened YamlExact

  // ----------------------------------------------- the number of a last index

  predicate EndsInIndex(p: seq<string>)
  {
    p != [] && AllDigits(Last(p))
  }

  /** The same path with another index at its end, if it has one there. */
  function Numbered(p: seq<string>, i: nat): (r: seq<string>)
    ensures |r| == |p|
  {
    if EndsInIndex(p) then p[..|p| - 1] + [Dec(i)] else p
  }

  lemma NumberedTail(p: seq<string>, i: nat)
    requires |p| > 1
    ensures Numbered(p, i)[0] == p[0] && Numbered(p, i)[1..] == Numbered(p[1..], i)
  {
    if EndsInIndex(p) { assert p[..|p| - 1][1..] == p[1..][..|p| - 2]; }
  }

  lemma NumberedEnd(p: seq<string>, i: nat)
    requires p != []
    ensures EndsInIndex(Numbered(p, i)) <==> EndsInIndex(p)
    ensures Init(Numbered(p, i)) == Init(p)
  {
    NumDec(i);
  }

  lemma {:induction false} LeafErrorNumbered(s: string, p: seq<string>, i: nat)
    requires p != []
    ensures LeafError(s, Numbered(p, i)) == LeafError(s, p)
    decreases |p|
  {
    if |p| > 1 {
      NumberedTail(p, i);
      if AllDigits(p[0]) && Num(p[0]) < |s| { LeafErrorNumbered([s[Num(p[0])]], p[1..], i); }
    } else {
      NumDec(i);
    }
  }

  /** Insertion does not read the number of an index at the end. */
  lemma {:induction false} PutNumbered(t: Tree, p: seq<string>, v: string, ctx: Context, i: nat)
    requires p != []
    ensures Put(t, Numbered(p, i), v, ctx) == Put(t, p, v, ctx)
    decreases |p|, 1
  {
    if |p| > 1 { NumberedTail(p, i); } else { NumDec(i); }
    if t.Leaf? {
      LeafErrorNumbered(t.text, p, i);
    } else if AllDigits(p[0]) {
      PutItemNumbered(if t.List? then t.items else [], p, v, i);
    } else if t.Dict? && |p| > 1 {
      PutNumbered(if p[0] in t.fields then t.fields[p[0]] else EMPTY, p[1..], v, UnderDict, i);
    }
  }

  lemma {:induction false} PutItemNumbered(items: seq<Tree>, p: seq<string>, v: string, i: nat)
    requires p != [] && AllDigits(p[0])
    ensures AllDigits(Numbered(p, i)[0]) && PutItem(items, Numbered(p, i), v) == PutItem(items, p, v)
    decreases |p|, 0
  {
    if |p| > 1 {
      NumberedTail(p, i);
      PutNumbered(Pad(items, Num(p[0]) + 1)[Num(p[0])], p[1..], v, UnderList, i);
    } else {
      NumDec(i);
    }
  }

  /** All paths in shortest form, each index at an end replaced by its key's place. */
  function NumberedItems(items: seq<Item>): (r: seq<Item>)
    ensures |r| == |items|
    ensures forall i :: 0 <= i < |items| ==> r[i] == Item(Numbered(Canon(items[i].path), i), items[i].value)
  {
    seq(|items|, i requires 0 <= i < |items| => Item(Numbered(Canon(items[i].path), i), items[i].value))
  }

  lemma NumberedPathed(items: seq<Item>)
    requires Pathed(items)
    ensures Pathed(NumberedItems(items))
  {
    forall it | it in NumberedItems(items) ensures it.path != [] {
      var i :| 0 <= i < |items| && NumberedItems(items)[i] == it;
      assert items[i] in items;
    }
  }

  lemma {:induction false} BuildNumbered(items: seq<Item>)
    requires Pathed(items)
    ensures Pathed(NumberedItems(items)) && Build(NumberedItems(items)) == Build(items)
    decreases |items|
  {
    hide Canon, Numbered, Put;
    NumberedPathed(items);
    if items != [] {
      var n := |items| - 1;
      BuildNumbered(items[..n]);
      assert NumberedItems(items)[..n] == NumberedItems(items[..n]);
      var t := Build(items[..n]);
      assert items[n] in items;
      if t.Ok? {
        PutNumbered(t.value, Canon(items[n].path), items[n].value, AtRoot, n);
        PutCanon(t.value, items[n].path, items[n].value, AtRoot);
      }
    }
  }

  // ------------------------------------------------------------ the condition

  /** Neither path is a prefix of the other, and they part at two names, at two
      indices with more behind both, or at two indices at their ends; these may
      even be the same. */
  predicate Apart(p: seq<string>, q: seq<string>)
    decreases |p|
  {
    p != [] && q != [] &&
    if |p| == 1 && |q| == 1 && AllDigits(p[0]) && AllDigits(q[0]) then true
    else if p[0] == q[0] then |p| > 1 && |q| > 1 && Apart(p[1..], q[1..])
    else (AllDigits(p[0]) <==> AllDigits(q[0])) && (AllDigits(p[0]) ==> (|p| == 1 <==> |q| == 1))
  }

  lemma {:induction false} ApartCompatible(p: seq<string>, q: seq<string>, i: nat, j: nat)
    requires Apart(p, q) && i != j
    ensures Compatible(Numbered(p, i), Numbered(q, j))
    decreases |p|
  {
    hide AllDigits;
    if |p| > 1 { NumberedTail(p, i); } else { NumberedEnd(p, i); }
    if |q| > 1 { NumberedTail(q, j); } else { NumberedEnd(q, j); }
    if |p| == 1 && |q| == 1 && AllDigits(p[0]) && AllDigits(q[0]) {
      if Dec(i) == Dec(j) { DecInjective(i, j); }
    } else if p[0] == q[0] {
      ApartCompatible(p[1..], q[1..], i, j);
    }
  }

  lemma {:induction false} NumberedGood(p: seq<string>, i: nat)
    requires GoodTail(p)
    ensures GoodTail(Numbered(p, i))
    decreases |p|
  {
    hide AllDigits, Num;
    if |p| > 1 {
      NumberedTail(p, i);
      NumberedGood(p[1..], i);
      if |p| > 2 { NumberedTail(p[1..], i); } else { NumberedEnd(p[1..], i); }
    }
  }

  /** No key starts with an index, no index follows another, and any two keys are apart. */
  predicate Separable(keys: set<string>)
  {
    && (forall k <- keys :: Spaced(Split(k, ".")))
    && (forall a <- keys, b <- keys :: a != b ==> Apart(Canon(Split(a, ".")), Canon(Split(b, "."))))
  }

  /** The values of all keys that end in an index and are otherwise this path, in key order. */
  function Family(props: map<string, string>, keys: seq<string>, init: seq<string>): seq<Tree>
    requires forall k <- keys :: k in props
  {
    if keys == [] then []
    else
      var n := |keys| - 1;
      var p := Split(keys[n], ".");
      Family(props, keys[..n], init) + if EndsInIndex(p) && Canon(Init(p)) == init then [Leaf(props[keys[n]])] else []
  }

  /** `to_yaml` does not fail; a key that ends in a name leads to its value, and
      one that ends in an index to the list of the values of its family. */
  ghost predicate Held(props: map<string, string>)
  {
    YamlOf(props).Ok? && forall k <- props.Keys :: HeldKey(props, YamlOf(props).value, k)
  }

  ghost predicate HeldKey(props: map<string, string>, t: Tree, k: string)
    requires k in props
  {
    var p := Split(k, ".");
    if EndsInIndex(p) then Lookup(t, Init(p)) == Some(List(Family(props, SortedKeys(props.Keys), Canon(Init(p)))))
    else Lookup(t, p) == Some(Leaf(props[k]))
  }

  // ----------------------------------------------------------- it is sufficient

  lemma SeparableAt(props: map<string, string>, keys: seq<string>, i: nat)
    requires Separable(props.Keys) && (forall k <- keys :: k in props) && i < |keys|
    ensures GoodPath(NumberedItems(KeyItems(props, keys))[i].path)
  {
    hide Canon, AllDigits, Split;
    assert keys[i] in props.Keys;
    var c := Canon(Split(keys[i], "."));
    SpacedGood(Split(keys[i], "."));
    NumberedGood(c, i);
    if |c| > 1 { NumberedTail(c, i); } else { NumberedEnd(c, i); }
  }

  lemma SeparablePair(props: map<string, string>, keys: seq<string>, i: nat, j: nat)
    requires Separable(props.Keys) && (forall k <- keys :: k in props) && i < |keys| && j < |keys| && keys[i] != keys[j]
    ensures var all := NumberedItems(KeyItems(props, keys)); Compatible(all[i].path, all[j].path)
  {
    hide Apart, Compatible, Canon, Split;
    assert keys[i] in props.Keys && keys[j] in props.Keys;
    ApartCompatible(Canon(Split(keys[i], ".")), Canon(Split(keys[j], ".")), i, j);
  }

  lemma SeparableClean(props: map<string, string>, keys: seq<string>)
    requires Separable(props.Keys) && (forall k <- keys :: k in props) && Sorted(keys)
    ensures Yaml.Clean(NumberedItems(KeyItems(props, keys)))
  {
    hide KeyItems, GoodPath, Compatible, Separable, Split, Less, Canon, Numbered;
    var all := NumberedItems(KeyItems(props, keys));
    assert forall it <- all :: GoodPath(it.path) by {
      forall i | 0 <= i < |all| ensures GoodPath(all[i].path) { SeparableAt(props, keys, i); }
    }
    forall i, j | 0 <= i < j < |all|
      ensures Compatible(all[i].path, all[j].path) && Compatible(all[j].path, all[i].path)
    {
      LessTrichotomy(keys[i], keys[j]);
      SeparablePair(props, keys, i, j);
      SeparablePair(props, keys, j, i);
    }
  }

  lemma FamilyMember(p: seq<string>, i: nat, init: seq<string>)
    requires p != []
    ensures InFamily(Numbered(Canon(p), i), init) <==> EndsInIndex(p) && Canon(Init(p)) == init
  {
    CanonEnd(p);
    NumberedEnd(Canon(p), i);
    assert Init(Canon(p)) == Canon(Init(p));
    assert Numbered(Canon(p), i)[..|p| - 1] == Canon(Init(p));
  }

  lemma NumberedPrefix(props: map<string, string>, keys: seq<string>)
    requires (forall k <- keys :: k in props) && keys != []
    ensures var all, n := NumberedItems(KeyItems(props, keys)), |keys| - 1;
      && all[..n] == NumberedItems(KeyItems(props, keys[..n]))
      && all[n] == Item(Numbered(Canon(Split(keys[n], ".")), n), props[keys[n]])
  {
    hide Canon, Numbered, Split, KeyItems;
  }

  lemma {:induction false} FamilyListed(props: map<string, string>, keys: seq<string>, init: seq<string>)
    requires forall k <- keys :: k in props
    ensures FamilyValues(NumberedItems(KeyItems(props, keys)), init) == Family(props, keys, init)
    decreases |keys|
  {
    if keys == [] {
      assert NumberedItems(KeyItems(props, keys)) == [];
    } else {
      hide Canon, Numbered, InFamily, Split, KeyItems, NumberedItems, EndsInIndex;
      var n := |keys| - 1;
      FamilyListed(props, keys[..n], init);
      FamilyMember(Split(keys[n], "."), n, init);
      NumberedPrefix(props, keys);
    }
  }

  /** What `YamlFaithful` says of one key. */
  lemma NumberedFound(props: map<string, string>, keys: seq<string>, i: nat, c: seq<string>)
    requires Separable(props.Keys) && keys == SortedKeys(props.Keys) && i < |keys| && c == Canon(Split(keys[i], "."))
    ensures YamlOf(props).Ok? && c != []
    ensures var t := YamlOf(props).value;
      if EndsInIndex(c) then Lookup(t, Init(c)) == Some(List(FamilyValues(NumberedItems(KeyItems(props, keys)), Init(c))))
      else Lookup(t, c) == Some(Leaf(props[keys[i]]))
  {
    hide Canon, Split, Build, FamilyValues, Lookup, KeyItems, Separable, Pathed;
    SeparableClean(props, keys);
    ItemsPathed(props);
    BuildNumbered(KeyItems(props, keys));
    YamlFaithful(NumberedItems(KeyItems(props, keys)));
    assert NumberedItems(KeyItems(props, keys))[i] == Item(Numbered(c, i), props[keys[i]]);
    NumberedEnd(c, i);
    if !EndsInIndex(c) { NotNumbered(c, i); }
  }

  lemma SeparableHeld(props: map<string, string>, keys: seq<string>, i: nat)
    requires Separable(props.Keys) && keys == SortedKeys(props.Keys) && i < |keys|
    ensures YamlOf(props).Ok? && HeldKey(props, YamlOf(props).value, keys[i])
  {
    hide Canon, Split, YamlOf, FamilyValues, Family, Lookup, KeyItems, NumberedItems, Separable, AllDigits;
    var p := Split(keys[i], ".");
    var c := Canon(p);
    NumberedFound(props, keys, i, c);
    CanonEnd(p);
    if EndsInIndex(p) {
      assert Init(c) == Canon(Init(p));
      FamilyListed(props, keys, Init(c));
      LookupCanon(YamlOf(props).value, Init(p));
    } else {
      LookupCanon(YamlOf(props).value, p);
    }
  }

  lemma NotNumbered(p: seq<string>, i: nat)
    requires !EndsInIndex(p)
    ensures Numbered(p, i) == p
  {
  }

  // ------------------------------------------------------------- and necessary

  /** The structure holds this text under the path: alone, or in a list of texts. */
  ghost predicate Holds(t: Tree, p: seq<string>, x: string)
  {
    if EndsInIndex(p) then
      Lookup(t, Init(p)).Some? && Lookup(t, Init(p)).value.List? &&
      Leaf(x) in Lookup(t, Init(p)).value.items && forall u <- Lookup(t, Init(p)).value.items :: u.Leaf?
    else Lookup(t, p) == Some(Leaf(x))
  }

  function Child(t: Tree, part: string): Option<Tree>
  {
    if AllDigits(part) then if t.List? && Num(part) < |t.items| then Some(t.items[Num(part)]) else None
    else if t.Dict? && part in t.fields then Some(t.fields[part])
    else None
  }

  lemma HoldsBelow(t: Tree, p: seq<string>, x: string)
    requires p != [] && Holds(t, p, x) && (|p| > 1 || !AllDigits(p[0]))
    ensures Child(t, p[0]).Some? && Holds(Child(t, p[0]).value, p[1..], x)
  {
    hide AllDigits;
    if EndsInIndex(p) { assert Init(p)[0] == p[0] && Init(p)[1..] == Init(p[1..]); }
  }

  lemma LeafHolds(y: string, p: seq<string>, x: string)
    requires Holds(Leaf(y), p, x)
    ensures p == [] && x == y
  {
  }

  /** A list of texts holds nothing deeper. */
  lemma ListHolds(t: Tree, p: seq<string>, q: seq<string>, x: string, y: string)
    requires |p| == 1 && AllDigits(p[0]) && Holds(t, p, x) && q != [] && Holds(t, q, y)
    ensures |q| == 1 && AllDigits(q[0])
  {
    hide AllDigits;
    if |q| > 1 || !AllDigits(q[0]) {
      HoldsBelow(t, q, y);
      var u := Child(t, q[0]).value;
      assert t.List? && u in t.items;
      LeafHolds(u.text, q[1..], y);
    }
  }

  lemma {:induction false} HeldApart(t: Tree, p: seq<string>, q: seq<string>, x: string, y: string)
    requires Holds(t, p, x) && Holds(t, q, y) && x != y
    ensures Apart(Canon(p), Canon(q))
    decreases |p|
  {
    hide Canon, CanonPart, AllDigits, Holds, Num;
    if p == [] || q == [] {
      HoldsNowhere(t, p, q, x, y);
    } else {
      CanonTail(p);
      CanonTail(q);
      CanonPartSame(p[0]);
      CanonPartSame(q[0]);
      if |p| == 1 && AllDigits(p[0]) {
        ListHolds(t, p, q, x, y);
      } else if |q| == 1 && AllDigits(q[0]) {
        ListHolds(t, q, p, y, x);
      } else {
        HoldsBelow(t, p, x);
        HoldsBelow(t, q, y);
        if Canon(p)[0] == Canon(q)[0] {
          HeldApart(Child(t, p[0]).value, p[1..], q[1..], x, y);
        }
      }
    }
  }

  lemma HoldsNowhere(t: Tree, p: seq<string>, q: seq<string>, x: string, y: string)
    requires Holds(t, p, x) && Holds(t, q, y) && (p == [] || q == [])
    ensures x == y
  {
    if p == [] { LeafHolds(x, q, y); } else { LeafHolds(y, p, x); }
  }

  lemma {:induction false} FamilyLeaves(props: map<string, string>, keys: seq<string>, init: seq<string>)
    requires forall k <- keys :: k in props
    ensures forall u <- Family(props, keys, init) :: u.Leaf?
    decreases |keys|
  {
    if keys != [] {
      hide Split, EndsInIndex, Canon;
      FamilyLeaves(props, keys[..|keys| - 1], init);
    }
  }

  lemma {:induction false} FamilyHolds(props: map<string, string>, keys: seq<string>, i: nat, p: seq<string>)
    requires (forall k <- keys :: k in props) && i < |keys| && p == Split(keys[i], ".") && EndsInIndex(p)
    ensures Leaf(props[keys[i]]) in Family(props, keys, Canon(Init(p)))
    decreases |keys|
  {
    hide Split, EndsInIndex, Canon;
    if i < |keys| - 1 { FamilyHolds(props, keys[..|keys| - 1], i, p); }
  }

  lemma KeyHolds(props: map<string, string>, t: Tree, k: string)
    requires k in props && HeldKey(props, t, k)
    ensures Holds(t, Split(k, "."), props[k])
  {
    hide Split, EndsInIndex, Canon, Family, Lookup;
    var keys, p := SortedKeys(props.Keys), Split(k, ".");
    if EndsInIndex(p) {
      var i :| 0 <= i < |keys| && keys[i] == k;
      FamilyLeaves(props, keys, Canon(Init(p)));
      FamilyHolds(props, keys, i, p);
    }
  }

  /** No list is found as an item of a list. */
  lemma {:induction false} ListBehindName(t: Tree, q: seq<string>)
    requires Flat(t) && q != [] && Lookup(t, q).Some? && Lookup(t, q).value.List?
    ensures !AllDigits(q[|q| - 1])
    decreases |q|
  {
    hide AllDigits, Num;
    if |q| > 1 {
      ListBehindName(if AllDigits(q[0]) then t.items[Num(q[0])] else t.fields[q[0]], q[1..]);
    }
  }

  lemma HoldsSpaced(t: Tree, p: seq<string>, x: string)
    requires Flat(t) && t.Dict? && p != [] && Holds(t, p, x)
    ensures Spaced(p)
  {
    hide AllDigits, Flat;
    if EndsInIndex(p) {
      var q := Init(p);
      assert q != [];
      FoundAllSpaced(t, q);
      ListBehindName(t, q);
      assert q[0] == p[0];
      forall i | 0 <= i < |p| - 1 ensures !(AllDigits(p[i]) && AllDigits(p[i + 1])) {
        assert p[i] == q[i] && (i < |p| - 2 ==> p[i + 1] == q[i + 1]);
      }
    } else {
      FoundAllSpaced(t, p);
    }
  }

  lemma HeldSeparable(keys: set<string>)
    requires Held(KeysAsValues(keys))
    ensures Separable(keys)
  {
    hide Split, Canon, Spaced, Apart, Holds, HeldKey, Flat, YamlOf, KeyItems;
    var props := KeysAsValues(keys);
    var t := YamlOf(props).value;
    HeldFlat(props);
    forall k | k in keys ensures Holds(t, Split(k, "."), k) { KeyHolds(props, t, k); }
    forall k | k in keys ensures Spaced(Split(k, ".")) { HoldsSpaced(t, Split(k, "."), k); }
    forall a, b | a in keys && b in keys && a != b ensures Apart(Canon(Split(a, ".")), Canon(Split(b, "."))) {
      HeldApart(t, Split(a, "."), Split(b, "."), a, b);
    }
  }

  lemma HeldFlat(props: map<string, string>)
    requires YamlOf(props).Ok?
    ensures Flat(YamlOf(props).value) && YamlOf(props).value.Dict?
  {
    ItemsPathed(props);
    BuildFlat(KeyItems(props, SortedKeys(props.Keys)));
  }

  /** For every set of keys: `to_yaml` holds all of their values, whatever these
      are, if and only if the keys are separable. */
  lemma HoldsAllExactly(keys: set<string>)
    ensures (forall props: map<string, string> :: props.Keys == keys ==> Held(props)) <==> Separable(keys)
  {
    hide HeldKey, Separable, YamlOf;
    if Separable(keys) {
      forall props: map<string, string> | props.Keys == keys ensures Held(props) { SeparableHoldsAll(props); }
    }
    if forall props: map<string, string> :: props.Keys == keys ==> Held(props) {
      assert Held(KeysAsValues(keys));
      HeldSeparable(keys);
    }
  }

  lemma SeparableHoldsAll(props: map<string, string>)
    requires Separable(props.Keys)
    ensures Held(props)
  {
    hide HeldKey, Separable;
    var keys := SortedKeys(props.Keys);
    if keys == [] { NothingHeld(props); }
    forall k | k in props.Keys ensures YamlOf(props).Ok? && HeldKey(props, YamlOf(props).value, k) {
      var i :| 0 <= i < |keys| && keys[i] == k;
      SeparableHeld(props, keys, i);
    }
    if keys != [] { SeparableHeld(props, keys, 0); }
  }

  lemma NothingHeld(props: map<string, string>)
    requires SortedKeys(props.Keys) == []
    ensures YamlOf(props).Ok?
  {
  }
}
