/** Which sets of keys `to_yaml` keeps, exactly. Indices are read as numbers, so
    keys are compared with every index in its shortest form. */
module YamlExact {
  import opened Wrappers
  import opened Text
  import opened Yaml
  import opened YamlBuild

  // -------------------------------------------- indices in their shortest form

  function CanonPart(s: string): string
  {
    if AllDigits(s) then Dec(Num(s)) else s
  }

  lemma CanonPartSame(s: string)
    ensures AllDigits(CanonPart(s)) <==> AllDigits(s)
    ensures AllDigits(s) ==> Num(CanonPart(s)) == Num(s) && CanonPart(s) == Dec(Num(CanonPart(s)))
    ensures !AllDigits(s) ==> CanonPart(s) == s
  {
    if AllDigits(s) { NumDec(Num(s)); }
  }

  function Canon(p: seq<string>): (r: seq<string>)
    ensures |r| == |p|
    ensures forall i :: 0 <= i < |p| ==> r[i] == CanonPart(p[i])
  {
    seq(|p|, i requires 0 <= i < |p| => CanonPart(p[i]))
  }

  lemma CanonTail(p: seq<string>)
    requires p != []
    ensures Canon(p) != [] && Canon(p)[0] == CanonPart(p[0]) && Canon(p)[1..] == Canon(p[1..])
  {
    CanonPartSame(p[0]);
  }

  lemma {:induction false} LeafErrorCanon(s: string, p: seq<string>)
    requires p != []
    ensures LeafError(s, Canon(p)) == LeafError(s, p)
    decreases |p|
  {
    CanonTail(p);
    CanonPartSame(p[0]);
    if AllDigits(p[0]) && |p| > 1 && Num(p[0]) < |s| { LeafErrorCanon([s[Num(p[0])]], p[1..]); }
  }

  /** Insertion and lookup read an index as a number. */
  lemma {:induction false} PutCanon(t: Tree, p: seq<string>, v: string, ctx: Context)
    requires p != []
    ensures Put(t, Canon(p), v, ctx) == Put(t, p, v, ctx)
    decreases |p|, 1
  {
    CanonTail(p);
    CanonPartSame(p[0]);
    if t.Leaf? {
      LeafErrorCanon(t.text, p);
    } else if AllDigits(p[0]) {
      PutItemCanon(if t.List? then t.items else [], p, v);
    } else if t.Dict? && |p| > 1 {
      PutCanon(if p[0] in t.fields then t.fields[p[0]] else EMPTY, p[1..], v, UnderDict);
    }
  }

  lemma {:induction false} PutItemCanon(items: seq<Tree>, p: seq<string>, v: string)
    requires p != [] && AllDigits(p[0])
    ensures AllDigits(Canon(p)[0]) && PutItem(items, Canon(p), v) == PutItem(items, p, v)
    decreases |p|, 0
  {
    CanonTail(p);
    CanonPartSame(p[0]);
    if |p| > 1 { PutCanon(Pad(items, Num(p[0]) + 1)[Num(p[0])], p[1..], v, UnderList); }
  }

  lemma {:induction false} LookupCanon(t: Tree, p: seq<string>)
    ensures Lookup(t, Canon(p)) == Lookup(t, p)
    decreases |p|
  {
    if p != [] {
      CanonTail(p);
      CanonPartSame(p[0]);
      if AllDigits(p[0]) {
        if t.List? && Num(p[0]) < |t.items| { LookupCanon(t.items[Num(p[0])], p[1..]); }
      } else if t.Dict? && p[0] in t.fields {
        LookupCanon(t.fields[p[0]], p[1..]);
      }
    }
  }

  function CanonItems(items: seq<Item>): (r: seq<Item>)
    ensures |r| == |items|
    ensures forall i :: 0 <= i < |items| ==> r[i] == Item(Canon(items[i].path), items[i].value)
  {
    seq(|items|, i requires 0 <= i < |items| => Item(Canon(items[i].path), items[i].value))
  }

  predicate Pathed(items: seq<Item>)
  {
    forall it <- items :: it.path != []
  }

  lemma {:induction false} BuildCanon(items: seq<Item>)
    requires Pathed(items)
    ensures Pathed(CanonItems(items)) && Build(CanonItems(items)) == Build(items)
    decreases |items|
  {
    forall it | it in CanonItems(items) ensures it.path != [] {
      var i :| 0 <= i < |items| && CanonItems(items)[i] == it;
      assert items[i] in items;
    }
    if items != [] {
      var n := |items| - 1;
      BuildCanon(items[..n]);
      assert CanonItems(items)[..n] == CanonItems(items[..n]);
      var t := Build(items[..n]);
      if t.Ok? { PutCanon(t.value, items[n].path, items[n].value, AtRoot); }
    }
  }

  // --------------------------------------------------- conditions that suffice

  /** No key starts with an index and no index follows another. */
  predicate Spaced(p: seq<string>)
  {
    p != [] && !AllDigits(p[0]) && forall i :: 0 <= i < |p| - 1 ==> !(AllDigits(p[i]) && AllDigits(p[i + 1]))
  }

  lemma {:induction false} SpacedTail(p: seq<string>)
    requires p != [] && forall i :: 0 <= i < |p| - 1 ==> !(AllDigits(p[i]) && AllDigits(p[i + 1]))
    ensures GoodTail(Canon(p))
    decreases |p|
  {
    CanonTail(p);
    CanonPartSame(p[0]);
    if |p| > 1 {
      var q := p[1..];
      forall i | 0 <= i < |q| - 1 ensures !(AllDigits(q[i]) && AllDigits(q[i + 1])) {
        assert q[i] == p[i + 1] && q[i + 1] == p[i + 2];
      }
      SpacedTail(q);
      CanonPartSame(p[1]);
      assert Canon(p)[1] == CanonPart(p[1]);
    }
  }

  lemma SpacedGood(p: seq<string>)
    requires Spaced(p)
    ensures GoodPath(Canon(p))
  {
    SpacedTail(p);
    CanonPartSame(p[0]);
  }

  predicate EndsInName(p: seq<string>)
  {
    p != [] && !AllDigits(Last(p))
  }

  lemma CanonEnd(p: seq<string>)
    requires p != []
    ensures AllDigits(Last(Canon(p))) <==> AllDigits(Last(p))
  {
    CanonPartSame(Last(p));
  }

  /** Every key starts with a name, has no two indices in a row, and any two keys
      are neither equal, nor is one a prefix of the other, nor do they part at a
      place where one has an index and the other a name. */
  predicate Separate(keys: set<string>)
  {
    && (forall k <- keys :: Spaced(Split(k, ".")))
    && (forall a <- keys, b <- keys :: a != b ==> Compatible(Canon(Split(a, ".")), Canon(Split(b, "."))))
  }

  /** `to_yaml` does not fail, and under every key its value is found. */
  ghost predicate Kept(props: map<string, string>)
  {
    YamlOf(props).Ok? && forall k <- props.Keys :: Lookup(YamlOf(props).value, Split(k, ".")) == Some(Leaf(props[k]))
  }

  lemma SeparateClean(props: map<string, string>)
    requires Separate(props.Keys)
    ensures Yaml.Clean(CanonItems(KeyItems(props, SortedKeys(props.Keys))))
  {
    var keys := SortedKeys(props.Keys);
    var items := KeyItems(props, keys);
    var all := CanonItems(items);
    forall it | it in all ensures GoodPath(it.path) {
      var i :| 0 <= i < |all| && all[i] == it;
      assert keys[i] in keys;
      SpacedGood(Split(keys[i], "."));
    }
    forall i, j | 0 <= i < j < |all|
      ensures Compatible(all[i].path, all[j].path) && Compatible(all[j].path, all[i].path)
    {
      LessTrichotomy(keys[i], keys[j]);
      assert keys[i] in keys && keys[j] in keys;
    }
  }

  lemma ItemsPathed(props: map<string, string>)
    ensures Pathed(KeyItems(props, SortedKeys(props.Keys)))
  {
  }

  lemma CleanFound(items: seq<Item>, i: nat)
    requires Pathed(items) && Yaml.Clean(CanonItems(items)) && i < |items| && EndsInName(items[i].path)
    ensures Build(items).Ok? && Lookup(Build(items).value, items[i].path) == Some(Leaf(items[i].value))
  {
    BuildCanon(items);
    YamlFaithful(CanonItems(items));
    CanonEnd(items[i].path);
    LookupCanon(Build(items).value, items[i].path);
  }

  lemma CleanBuilt(items: seq<Item>)
    requires Pathed(items) && Yaml.Clean(CanonItems(items))
    ensures Build(items).Ok?
  {
    BuildCanon(items);
    YamlFaithful(CanonItems(items));
  }

  lemma KeyFound(props: map<string, string>, k: string)
    requires Yaml.Clean(CanonItems(KeyItems(props, SortedKeys(props.Keys)))) && k in props && EndsInName(Split(k, "."))
    ensures YamlOf(props).Ok? && Lookup(YamlOf(props).value, Split(k, ".")) == Some(Leaf(props[k]))
  {
    var keys := SortedKeys(props.Keys);
    assert k in keys;
    var i :| 0 <= i < |keys| && keys[i] == k;
    ItemsPathed(props);
    CleanFound(KeyItems(props, keys), i);
  }

  lemma SeparateKept(props: map<string, string>)
    requires Separate(props.Keys) && forall k <- props.Keys :: EndsInName(Split(k, "."))
    ensures Kept(props)
  {
    SeparateClean(props);
    ItemsPathed(props);
    CleanBuilt(KeyItems(props, SortedKeys(props.Keys)));
    forall k | k in props.Keys ensures Lookup(YamlOf(props).value, Split(k, ".")) == Some(Leaf(props[k])) {
      KeyFound(props, k);
    }
  }

  // ------------------------------------------------------ and that are needed

  /** No list is an element of a list. */
  predicate Flat(t: Tree)
  {
    match t
    case Leaf(_) => true
    case Dict(fields) => forall k <- fields :: Flat(fields[k])
    case List(items) => forall i :: 0 <= i < |items| ==> Flat(items[i]) && !items[i].List?
  }

  lemma {:induction false} PutFlat(t: Tree, p: seq<string>, v: string, ctx: Context)
    requires p != [] && Flat(t) && Put(t, p, v, ctx).Ok?
    ensures Flat(Put(t, p, v, ctx).value)
    ensures ctx == UnderList && !t.List? ==> !Put(t, p, v, ctx).value.List?
    decreases |p|, 1
  {
    if AllDigits(p[0]) {
      if t.List? || ctx == UnderDict { PutItemFlat(if t.List? then t.items else [], p, v); }
    } else if |p| > 1 {
      PutFlat(if p[0] in t.fields then t.fields[p[0]] else EMPTY, p[1..], v, UnderDict);
    }
  }

  lemma {:induction false} PutItemFlat(items: seq<Tree>, p: seq<string>, v: string)
    requires p != [] && AllDigits(p[0]) && Flat(List(items)) && PutItem(items, p, v).Ok?
    ensures Flat(PutItem(items, p, v).value)
    decreases |p|, 0
  {
    if |p| > 1 {
      var padded := Pad(items, Num(p[0]) + 1);
      assert forall i :: 0 <= i < |padded| ==> padded[i] == if i < |items| then items[i] else EMPTY;
      PutFlat(padded[Num(p[0])], p[1..], v, UnderList);
    }
  }

  lemma {:induction false} BuildFlat(items: seq<Item>)
    requires Pathed(items) && Build(items).Ok?
    ensures Flat(Build(items).value) && Build(items).value.Dict?
    decreases |items|
  {
    if items != [] {
      var n := |items| - 1;
      BuildFlat(items[..n]);
      PutFlat(Build(items[..n]).value, items[n].path, items[n].value, AtRoot);
    }
  }

  /** In such a structure nothing is found under two indices in a row. */
  lemma {:induction false} FoundSpaced(t: Tree, p: seq<string>, i: nat)
    requires Flat(t) && Lookup(t, p).Some? && i < |p| - 1
    ensures !(AllDigits(p[i]) && AllDigits(p[i + 1]))
    decreases i
  {
    if i > 0 {
      FoundSpaced(if AllDigits(p[0]) then t.items[Num(p[0])] else t.fields[p[0]], p[1..], i - 1);
    }
  }

  /** Two keys that lead to different values are compatible. */
  lemma {:induction false} FoundCompatible(t: Tree, p: seq<string>, q: seq<string>, x: string, y: string)
    requires Lookup(t, p) == Some(Leaf(x)) && Lookup(t, q) == Some(Leaf(y)) && x != y
    requires (p != [] ==> EndsInName(p)) && (q != [] ==> EndsInName(q))
    ensures Compatible(Canon(p), Canon(q))
    decreases |p|
  {
    hide Canon, CanonPart, AllDigits;
    if p != [] && q != [] {
      CanonTail(p);
      CanonTail(q);
      CanonPartSame(p[0]);
      CanonPartSame(q[0]);
      if Canon(p)[0] == Canon(q)[0] {
        FoundCompatible(if AllDigits(p[0]) then t.items[Num(p[0])] else t.fields[p[0]], p[1..], q[1..], x, y);
      }
    }
  }

  lemma FoundAllSpaced(t: Tree, p: seq<string>)
    requires Flat(t) && t.Dict? && p != [] && Lookup(t, p).Some?
    ensures Spaced(p)
  {
    forall i | 0 <= i < |p| - 1 ensures !(AllDigits(p[i]) && AllDigits(p[i + 1])) {
      FoundSpaced(t, p, i);
    }
  }

  lemma KeptSeparate(keys: set<string>)
    requires forall k <- keys :: EndsInName(Split(k, "."))
    requires Kept(KeysAsValues(keys))
    ensures Separate(keys)
  {
    var props := KeysAsValues(keys);
    var t := YamlOf(props).value;
    ItemsPathed(props);
    BuildFlat(KeyItems(props, SortedKeys(props.Keys)));
    forall k | k in keys ensures Spaced(Split(k, ".")) {
      FoundAllSpaced(t, Split(k, "."));
    }
    forall a, b | a in keys && b in keys && a != b
      ensures Compatible(Canon(Split(a, ".")), Canon(Split(b, ".")))
    {
      FoundCompatible(t, Split(a, "."), Split(b, "."), a, b);
    }
  }

  /** For keys that end in names: `to_yaml` keeps all of them, whatever their
      values, if and only if they are separate. */
  lemma KeepsAllExactly(keys: set<string>)
    requires forall k <- keys :: EndsInName(Split(k, "."))
    ensures (forall props: map<string, string> :: props.Keys == keys ==> Kept(props)) <==> Separate(keys)
  {
    if Separate(keys) {
      forall props: map<string, string> | props.Keys == keys ensures Kept(props) {
        SeparateKept(props);
      }
    }
    if forall props: map<string, string> :: props.Keys == keys ==> Kept(props) {
      assert Kept(KeysAsValues(keys));
      KeptSeparate(keys);
    }
  }
}
