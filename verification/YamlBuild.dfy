/** `to_yaml` as it runs: `node` and `parent_node` move down a structure that is
    changed in place. A node is addressed by its path from the top. */
module YamlBuild {
  import opened Wrappers
  import opened Text
  import opened Properties
  import opened Yaml

  datatype Step = Field(name: string) | Index(i: nat)

  predicate HasChild(t: Tree, s: Step)
  {
    match s
    case Field(name) => t.Dict? && name in t.fields
    case Index(i) => t.List? && i < |t.items|
  }

  function Child(t: Tree, s: Step): Tree
    requires HasChild(t, s)
  {
    match s
    case Field(name) => t.fields[name]
    case Index(i) => t.items[i]
  }

  function SetChild(t: Tree, s: Step, x: Tree): Tree
    requires HasChild(t, s)
  {
    match s
    case Field(name) => Dict(t.fields[name := x])
    case Index(i) => List(t.items[i := x])
  }

  predicate HasPath(t: Tree, path: seq<Step>)
    decreases |path|
  {
    path == [] || (HasChild(t, path[0]) && HasPath(Child(t, path[0]), path[1..]))
  }

  function Sub(t: Tree, path: seq<Step>): Tree
    requires HasPath(t, path)
    decreases |path|
  {
    if path == [] then t else Sub(Child(t, path[0]), path[1..])
  }

  /** The structure after the node at `path` has become `x`. */
  function Replace(t: Tree, path: seq<Step>, x: Tree): Tree
    requires HasPath(t, path)
    decreases |path|
  {
    if path == [] then x else SetChild(t, path[0], Replace(Child(t, path[0]), path[1..], x))
  }

  lemma {:induction false} ReplaceSub(t: Tree, path: seq<Step>, x: Tree)
    requires HasPath(t, path)
    ensures HasPath(Replace(t, path, x), path) && Sub(Replace(t, path, x), path) == x
    decreases |path|
  {
    if path != [] { ReplaceSub(Child(t, path[0]), path[1..], x); }
  }

  lemma {:induction false} ReplaceTwice(t: Tree, path: seq<Step>, x: Tree, y: Tree)
    requires HasPath(t, path) && HasPath(Replace(t, path, x), path)
    ensures Replace(Replace(t, path, x), path, y) == Replace(t, path, y)
    decreases |path|
  {
    if path != [] { ReplaceTwice(Child(t, path[0]), path[1..], x, y); }
  }

  lemma {:induction false} ReplaceDeeper(t: Tree, path: seq<Step>, s: Step, x: Tree)
    requires HasPath(t, path) && HasChild(Sub(t, path), s)
    ensures HasPath(t, path + [s]) && Sub(t, path + [s]) == Child(Sub(t, path), s)
    ensures Replace(t, path + [s], x) == Replace(t, path, SetChild(Sub(t, path), s, x))
    decreases |path|
  {
    if path == [] {
      assert [s][1..] == [];
    } else {
      assert (path + [s])[1..] == path[1..] + [s];
      ReplaceDeeper(Child(t, path[0]), path[1..], s, x);
    }
  }

  function ContextOf(path: seq<Step>): Context
  {
    if path == [] then AtRoot else if path[|path| - 1].Field? then UnderDict else UnderList
  }

  /** What remains to be done at the current node, seen from the top. */
  ghost function Outcome(root: Tree, tree: Tree, attached: bool, path: seq<Step>, rest: seq<string>, value: string): Result<Tree, YamlError>
    requires rest != [] && HasPath(tree, path)
  {
    match Put(Sub(tree, path), rest, value, ContextOf(path))
    case Err(e) => Err(e)
    case Ok(x) => Ok(if attached then Replace(tree, path, x) else root)
  }

  /** Moving one step down after the current node has become `node`. */
  lemma Deepen(tree: Tree, path: seq<Step>, node: Tree, s: Step, x: Tree)
    requires HasPath(tree, path) && HasChild(node, s)
    ensures HasPath(Replace(tree, path, node), path + [s])
    ensures Sub(Replace(tree, path, node), path + [s]) == Child(node, s)
    ensures Replace(Replace(tree, path, node), path + [s], x) == Replace(tree, path, SetChild(node, s, x))
  {
    ReplaceSub(tree, path, node);
    ReplaceDeeper(Replace(tree, path, node), path, s, x);
    ReplaceTwice(tree, path, node, SetChild(node, s, x));
  }

  /** An index in the middle of a key: on to the element, after padding. */
  lemma StepIndex(root: Tree, tree: Tree, attached: bool, path: seq<Step>, rest: seq<string>, value: string, items: seq<Tree>)
    requires |rest| > 1 && AllDigits(rest[0]) && HasPath(tree, path) && !Sub(tree, path).Leaf?
    requires Sub(tree, path).Dict? ==> ContextOf(path) != UnderList
    requires path == [] ==> attached && tree == root
    requires items == Pad(if Sub(tree, path).List? then Sub(tree, path).items else [], Num(rest[0]) + 1)
    ensures HasPath(Replace(tree, path, List(items)), path + [Index(Num(rest[0]))])
    ensures Outcome(root, tree, attached, path, rest, value) ==
            Outcome(root, Replace(tree, path, List(items)), attached && !(path == [] && tree.Dict?),
                    path + [Index(Num(rest[0]))], rest[1..], value)
  {
    var s := Index(Num(rest[0]));
    var below := Put(items[s.i], rest[1..], value, UnderList);
    var node := Sub(tree, path);
    Deepen(tree, path, List(items), s, if below.Ok? then below.value else EMPTY);
    assert ContextOf(path + [s]) == UnderList;
    assert PutItem(if node.List? then node.items else [], rest, value) ==
           if below.Ok? then Ok(List(items[s.i := below.value])) else Err(below.error);
  }

  /** A name in the middle of a key: on to the entry, made if missing. */
  lemma StepName(root: Tree, tree: Tree, attached: bool, path: seq<Step>, rest: seq<string>, value: string, fields: map<string, Tree>)
    requires |rest| > 1 && !AllDigits(rest[0]) && HasPath(tree, path) && Sub(tree, path).Dict?
    requires fields == if rest[0] in Sub(tree, path).fields then Sub(tree, path).fields else Sub(tree, path).fields[rest[0] := EMPTY]
    ensures HasPath(Replace(tree, path, Dict(fields)), path + [Field(rest[0])])
    ensures Outcome(root, tree, attached, path, rest, value) ==
            Outcome(root, Replace(tree, path, Dict(fields)), attached, path + [Field(rest[0])], rest[1..], value)
  {
    var s := Field(rest[0]);
    var below := Put(fields[s.name], rest[1..], value, UnderDict);
    var node := Sub(tree, path);
    Deepen(tree, path, Dict(fields), s, if below.Ok? then below.value else EMPTY);
    assert ContextOf(path + [s]) == UnderDict;
    if below.Ok? {
      assert fields[s.name := below.value] == node.fields[s.name := below.value];
    }
  }

  /** `while len(node) <= idx: node.append({})` */
  method AppendPlaceholders(items: seq<Tree>, idx: nat) returns (r: seq<Tree>)
    ensures r == Pad(items, idx + 1)
  {
    r := items;
    while |r| <= idx
      invariant Pad(r, idx + 1) == Pad(items, idx + 1)
      decreases idx + 1 - |r|
    {
      r := r + [EMPTY];
    }
  }

  /** The current position: the structure being walked (the result's own, or a
      detached one), and the path of `node` in it. */
  datatype Cursor = Cursor(tree: Tree, attached: bool, path: seq<Step>)

  ghost predicate At(root: Tree, c: Cursor)
  {
    HasPath(c.tree, c.path) && (c.path == [] ==> c.attached && c.tree == root)
  }

  ghost function Rest(root: Tree, c: Cursor, rest: seq<string>, value: string): Result<Tree, YamlError>
    requires rest != [] && At(root, c)
  {
    Outcome(root, c.tree, c.attached, c.path, rest, value)
  }

  /** One turn of the loop over `parts[:-1]`. */
  method Advance(root: Tree, c: Cursor, ghost rest: seq<string>, part: string, value: string) returns (r: Result<Cursor, YamlError>)
    requires At(root, c) && |rest| > 1 && part == rest[0] && !Sub(c.tree, c.path).Leaf?
    ensures r.Err? ==> Rest(root, c, rest, value) == Err(r.error)
    ensures r.Ok? ==> At(root, r.value) && r.value.path != []
    ensures r.Ok? ==> Rest(root, r.value, rest[1..], value) == Rest(root, c, rest, value)
  {
    var node := Sub(c.tree, c.path);
    if AllDigits(part) {
      var idx := Num(part);
      if node.Dict? && ContextOf(c.path) == UnderList { return Err(TypeError); }
      var items := AppendPlaceholders(if node.Dict? then [] else node.items, idx);
      StepIndex(root, c.tree, c.attached, c.path, rest, value, items);
      return Ok(Cursor(Replace(c.tree, c.path, List(items)), c.attached && !(c.path == [] && node.Dict?), c.path + [Index(idx)]));
    } else {
      if node.List? { return Err(TypeError); }
      var fields := if part in node.fields then node.fields else node.fields[part := EMPTY];
      StepName(root, c.tree, c.attached, c.path, rest, value, fields);
      return Ok(Cursor(Replace(c.tree, c.path, Dict(fields)), c.attached, c.path + [Field(part)]));
    }
  }

  /** What follows the loop over `parts[:-1]`. */
  method Finish(root: Tree, c: Cursor, ghost rest: seq<string>, last: string, value: string) returns (r: Result<Tree, YamlError>)
    requires At(root, c) && |rest| == 1 && last == rest[0]
    ensures r == Rest(root, c, rest, value)
  {
    var node := Sub(c.tree, c.path);
    assert c.path == [] ==> Replace(c.tree, c.path, node) == root;
    if node.Leaf? {
      assert rest == [last];
      r := Err(LeafError(node.text, [last]));
    } else if AllDigits(last) {
      if node.Dict? && ContextOf(c.path) == UnderList { return Err(TypeError); }
      var attached := c.attached && !(c.path == [] && node.Dict?);
      var items := if node.Dict? then [] else node.items;
      assert PutItem(items, rest, value) == Ok(List(items + [Leaf(value)]));
      r := Ok(if attached then Replace(c.tree, c.path, List(items + [Leaf(value)])) else root);
    } else {
      if node.List? { return Err(TypeError); }
      r := Ok(if c.attached then Replace(c.tree, c.path, Dict(node.fields[last := Leaf(value)])) else root);
    }
  }

  /** The body of the loop over the keys in `to_yaml`. */
  method InsertKey(root: Tree, parts: seq<string>, value: string) returns (r: Result<Tree, YamlError>)
    requires parts != []
    ensures r == Put(root, parts, value, AtRoot)
  {
    var c := Cursor(root, true, []);
    var i := 0;
    assert parts[0..] == parts;
    assert Put(root, parts, value, AtRoot) == Rest(root, c, parts[0..], value);
    while i < |parts| - 1
      invariant 0 <= i <= |parts| - 1 && At(root, c)
      invariant Put(root, parts, value, AtRoot) == Rest(root, c, parts[i..], value)
    {
      var node := Sub(c.tree, c.path);
      if node.Leaf? { return Err(LeafError(node.text, parts[i..])); }
      assert parts[i..][1..] == parts[i + 1..];
      var next := Advance(root, c, parts[i..], parts[i], value);
      if next.Err? { return Err(next.error); }
      c := next.value;
      i := i + 1;
    }
    r := Finish(root, c, parts[i..], parts[i], value);
  }

  // ------------------------------------------------------------ the whole loop

  /** The keys, cut at their dots, with their values. */
  function KeyItems(props: map<string, string>, keys: seq<string>): (r: seq<Item>)
    requires forall k <- keys :: k in props
    ensures |r| == |keys|
    ensures forall i :: 0 <= i < |keys| ==> r[i] == Item(Split(keys[i], "."), props[keys[i]])
  {
    if keys == [] then []
    else
      var n := |keys| - 1;
      KeyItems(props, keys[..n]) + [Item(Split(keys[n], "."), props[keys[n]])]
  }

  ghost function YamlOf(props: map<string, string>): Result<Tree, YamlError>
  {
    Build(KeyItems(props, SortedKeys(props.Keys)))
  }

  /** `to_yaml` up to the rendering. */
  method ToYaml(content: string) returns (r: Result<Tree, YamlError>)
    ensures r == YamlOf(Parse(content))
  {
    var props := ProcessProperties(content);
    var keys := SortKeys(props.Keys);
    r := InsertKeys(props, keys);
  }

  /** The loop over the sorted keys; an exception ends it. */
  method InsertKeys(props: map<string, string>, keys: seq<string>) returns (r: Result<Tree, YamlError>)
    requires forall k <- keys :: k in props
    ensures r == Build(KeyItems(props, keys))
  {
    var tree := EMPTY;
    for i := 0 to |keys|
      invariant Build(KeyItems(props, keys[..i])) == Ok(tree)
    {
      BuildPrefix(props, keys, i);
      var next := InsertKey(tree, Split(keys[i], "."), props[keys[i]]);
      if next.Err? {
        BuildStops(props, keys, i + 1);
        return next;
      }
      tree := next.value;
    }
    assert keys[..|keys|] == keys;
    r := Ok(tree);
  }

  lemma ItemsPrefix(props: map<string, string>, keys: seq<string>, i: nat)
    requires i < |keys| && forall k <- keys :: k in props
    ensures KeyItems(props, keys[..i + 1]) == KeyItems(props, keys[..i]) + [Item(Split(keys[i], "."), props[keys[i]])]
  {
    assert keys[..i + 1][..i] == keys[..i];
  }

  lemma BuildLast(items: seq<Item>, it: Item)
    requires it.path != [] && forall x <- items :: x.path != []
    ensures Build(items + [it]) == match Build(items) case Err(e) => Err(e) case Ok(t) => Put(t, it.path, it.value, AtRoot)
  {
    assert (items + [it])[..|items|] == items;
  }

  lemma BuildPrefix(props: map<string, string>, keys: seq<string>, i: nat)
    requires i < |keys| && forall k <- keys :: k in props
    requires Build(KeyItems(props, keys[..i])).Ok?
    ensures Build(KeyItems(props, keys[..i + 1])) ==
            Put(Build(KeyItems(props, keys[..i])).value, Split(keys[i], "."), props[keys[i]], AtRoot)
  {
    ItemsPrefix(props, keys, i);
    BuildLast(KeyItems(props, keys[..i]), Item(Split(keys[i], "."), props[keys[i]]));
  }

  lemma ErrorStays(props: map<string, string>, keys: seq<string>, i: nat)
    requires i < |keys| && (forall k <- keys :: k in props) && Build(KeyItems(props, keys[..i])).Err?
    ensures Build(KeyItems(props, keys[..i + 1])) == Build(KeyItems(props, keys[..i]))
  {
    ItemsPrefix(props, keys, i);
    BuildLast(KeyItems(props, keys[..i]), Item(Split(keys[i], "."), props[keys[i]]));
  }

  /** No key is inserted after one that failed. */
  lemma {:induction false} BuildStops(props: map<string, string>, keys: seq<string>, i: nat)
    requires i <= |keys| && forall k <- keys :: k in props
    requires Build(KeyItems(props, keys[..i])).Err?
    ensures Build(KeyItems(props, keys)) == Build(KeyItems(props, keys[..i]))
    decreases |keys| - i
  {
    if i < |keys| {
      ErrorStays(props, keys, i);
      BuildStops(props, keys, i + 1);
    } else {
      assert keys[..i] == keys;
    }
  }

  /** The assignment that tells all keys apart by their values. */
  function KeysAsValues(keys: set<string>): (props: map<string, string>)
    ensures props.Keys == keys && forall k <- keys :: props[k] == k
  {
    map k | k in keys :: k
  }

  /** Keys free of the ways in which `to_yaml` fails or loses data. */
  predicate CleanKeys(keys: set<string>)
  {
    && (forall k <- keys :: GoodPath(Split(k, ".")))
    && (forall a <- keys, b <- keys :: a != b ==> Compatible(Split(a, "."), Split(b, ".")))
  }

  lemma CleanKey(props: map<string, string>, keys: seq<string>, i: nat)
    requires CleanKeys(props.Keys) && (forall k <- keys :: k in props) && i < |keys|
    ensures GoodPath(KeyItems(props, keys)[i].path)
  {
    assert keys[i] in props.Keys;
  }

  lemma CleanPair(props: map<string, string>, keys: seq<string>, i: nat, j: nat)
    requires CleanKeys(props.Keys) && (forall k <- keys :: k in props) && Sorted(keys) && i < j < |keys|
    ensures var items := KeyItems(props, keys);
            Compatible(items[i].path, items[j].path) && Compatible(items[j].path, items[i].path)
  {
    LessTrichotomy(keys[i], keys[j]);
    assert keys[i] in props.Keys && keys[j] in props.Keys;
  }

  lemma CleanSequence(props: map<string, string>, keys: seq<string>)
    requires CleanKeys(props.Keys) && (forall k <- keys :: k in props) && Sorted(keys)
    ensures Yaml.Clean(KeyItems(props, keys))
  {
    hide KeyItems, GoodPath, Compatible, CleanKeys, Sorted, Split;
    var items := KeyItems(props, keys);
    assert forall it <- items :: GoodPath(it.path) by {
      forall i | 0 <= i < |items| ensures GoodPath(items[i].path) { CleanKey(props, keys, i); }
    }
    forall i, j | 0 <= i < j < |items|
      ensures Compatible(items[i].path, items[j].path) && Compatible(items[j].path, items[i].path)
    {
      CleanPair(props, keys, i, j);
    }
  }

  lemma CleanItems(props: map<string, string>)
    requires CleanKeys(props.Keys)
    ensures Yaml.Clean(KeyItems(props, SortedKeys(props.Keys)))
  {
    CleanSequence(props, SortedKeys(props.Keys));
  }

  /** `to_yaml` on clean keys: nothing fails, and every key that ends in a name
      leads to its value; a key that ends in an index leads to the list of all
      values of its family, in the order of the sorted keys. */
  lemma ToYamlFaithful(props: map<string, string>, k: string)
    requires CleanKeys(props.Keys) && k in props
    ensures YamlOf(props).Ok?
    ensures var path := Split(k, ".");
            if AllDigits(Last(path)) then
              Lookup(YamlOf(props).value, Init(path)) ==
              Some(List(FamilyValues(KeyItems(props, SortedKeys(props.Keys)), Init(path))))
            else Lookup(YamlOf(props).value, path) == Some(Leaf(props[k]))
  {
    CleanItems(props);
    YamlFaithful(KeyItems(props, SortedKeys(props.Keys)));
    var keys := SortedKeys(props.Keys);
    assert k in keys;
    var i :| 0 <= i < |keys| && keys[i] == k;
    assert KeyItems(props, keys)[i] == Item(Split(k, "."), props[k]);
  }
}
