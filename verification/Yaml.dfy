/** The nested structure `to_yaml` builds from dotted keys (transformation.py). */
module Yaml {
  import opened Wrappers
  import opened Text

  datatype Tree = Leaf(text: string) | Dict(fields: map<string, Tree>) | List(items: seq<Tree>)

  datatype YamlError = TypeError | AttributeError

  const EMPTY := Dict(map[])

  /** Where the current node hangs: the root, whose `parent_node` is a fresh
      dictionary nobody refers to, a dictionary entry, or a list element. */
  datatype Context = AtRoot | UnderDict | UnderList

  function Pad(items: seq<Tree>, n: nat): (r: seq<Tree>)
    ensures |r| == if |items| < n then n else |items|
    ensures items <= r
    ensures forall i :: |items| <= i < |r| ==> r[i] == EMPTY
    decreases n - |items|
  {
    if |items| < n then Pad(items + [EMPTY], n) else items
  }

  /** The exception raised by walking into a string. */
  function LeafError(s: string, parts: seq<string>): YamlError
    requires parts != []
    decreases |parts|
  {
    if !AllDigits(parts[0]) then TypeError
    else if |parts| == 1 || |s| <= Num(parts[0]) then AttributeError
    else LeafError([s[Num(parts[0])]], parts[1..])
  }

  /** One key inserted below `node`; the result takes the place of `node`. */
  function Put(node: Tree, parts: seq<string>, value: string, ctx: Context): Result<Tree, YamlError>
    requires parts != []
    decreases |parts|, 1
  {
    var part := parts[0];
    if node.Leaf? then Err(LeafError(node.text, parts))
    else if AllDigits(part) then
      if node.List? then PutItem(node.items, parts, value)
      else match ctx
        case UnderDict => PutItem([], parts, value)
        case UnderList => Err(TypeError)
        case AtRoot => if PutItem([], parts, value).Err? then PutItem([], parts, value) else Ok(node)
    else if node.List? then Err(TypeError)
    else if |parts| == 1 then Ok(Dict(node.fields[part := Leaf(value)]))
    else
      var child := if part in node.fields then node.fields[part] else EMPTY;
      var r :- Put(child, parts[1..], value, UnderDict);
      Ok(Dict(node.fields[part := r]))
  }

  function PutItem(items: seq<Tree>, parts: seq<string>, value: string): Result<Tree, YamlError>
    requires parts != [] && AllDigits(parts[0])
    decreases |parts|, 0
  {
    if |parts| == 1 then Ok(List(items + [Leaf(value)]))
    else
      var padded := Pad(items, Num(parts[0]) + 1);
      var r :- Put(padded[Num(parts[0])], parts[1..], value, UnderList);
      Ok(List(padded[Num(parts[0]) := r]))
  }

  /** Following a key's segments: names select fields, digits select items. */
  function Lookup(t: Tree, parts: seq<string>): Option<Tree>
    decreases |parts|
  {
    if parts == [] then Some(t)
    else if AllDigits(parts[0]) then
      if t.List? && Num(parts[0]) < |t.items| then Lookup(t.items[Num(parts[0])], parts[1..]) else None
    else if t.Dict? && parts[0] in t.fields then Lookup(t.fields[parts[0]], parts[1..])
    else None
  }

  // ------------------------------------------------------- well-behaved keys

  /** No two adjacent indices, and indices written canonically. */
  predicate GoodTail(p: seq<string>)
    decreases |p|
  {
    p != [] && (|p| > 1 ==> GoodTail(p[1..]) && (AllDigits(p[0]) ==> p[0] == Dec(Num(p[0])) && !AllDigits(p[1])))
  }

  predicate GoodPath(p: seq<string>)
  {
    GoodTail(p) && !AllDigits(p[0])
  }

  /** Neither path is a prefix of the other, and where they part they agree on
      what the node is: a dictionary, a list of structures, or a list of values. */
  predicate Compatible(p: seq<string>, q: seq<string>)
    decreases |p|
  {
    p != [] && q != [] &&
    if p[0] == q[0] then |p| > 1 && |q| > 1 && Compatible(p[1..], q[1..])
    else (AllDigits(p[0]) <==> AllDigits(q[0])) && (AllDigits(p[0]) ==> (|p| == 1 <==> |q| == 1))
  }

  /** `p` leaves the way to `q` before reaching it. */
  predicate Diverges(p: seq<string>, q: seq<string>)
    decreases |q|
  {
    p != [] && q != [] &&
    if p[0] == q[0] then |p| > 1 && Diverges(p[1..], q[1..])
    else (AllDigits(p[0]) <==> AllDigits(q[0])) && (AllDigits(p[0]) ==> |p| > 1 && Num(p[0]) != Num(q[0]))
  }

  /** Inserting a key changes no lookup it diverges from. */
  lemma {:induction false} PutFrame(t: Tree, p: seq<string>, v: string, ctx: Context, q: seq<string>)
    requires p != [] && Put(t, p, v, ctx).Ok? && Lookup(t, q).Some? && Diverges(p, q)
    ensures Lookup(Put(t, p, v, ctx).value, q) == Lookup(t, q)
    decreases |p|
  {
    if p[0] == q[0] {
      if AllDigits(p[0]) {
        PutFrame(t.items[Num(p[0])], p[1..], v, UnderList, q[1..]);
      } else {
        PutFrame(t.fields[p[0]], p[1..], v, UnderDict, q[1..]);
      }
    }
  }

  /** The tree has room for a key: on its way there are only nodes of the kind
      its segments ask for, or nodes still to be made. */
  predicate Open(t: Tree, p: seq<string>, ctx: Context)
    requires p != []
    decreases |p|
  {
    if AllDigits(p[0]) then
      (t == EMPTY && ctx == UnderDict) ||
      (t.List? && (|p| > 1 && Num(p[0]) < |t.items| ==> Open(t.items[Num(p[0])], p[1..], UnderList)))
    else
      t.Dict? && (|p| > 1 && p[0] in t.fields ==> Open(t.fields[p[0]], p[1..], UnderDict))
  }

  /** A node just made has room for every well-behaved rest of a key. */
  lemma EmptyOpen(p: seq<string>, ctx: Context)
    requires GoodTail(p) && (AllDigits(p[0]) ==> ctx == UnderDict)
    ensures Open(EMPTY, p, ctx)
  {
  }

  /** A value for a key with a name at the end is found under the key. */
  lemma {:induction false} PutLookup(t: Tree, p: seq<string>, v: string, ctx: Context)
    requires GoodTail(p) && Open(t, p, ctx) && !AllDigits(p[|p| - 1])
    ensures Put(t, p, v, ctx).Ok?
    ensures Lookup(Put(t, p, v, ctx).value, p) == Some(Leaf(v))
    decreases |p|
  {
    if |p| > 1 {
      if AllDigits(p[0]) {
        var items := if t.List? then t.items else [];
        var n := Num(p[0]);
        var child := Pad(items, n + 1)[n];
        if n >= |items| { EmptyOpen(p[1..], UnderList); }
        PutLookup(child, p[1..], v, UnderList);
      } else {
        var child := if p[0] in t.fields then t.fields[p[0]] else EMPTY;
        if p[0] !in t.fields { EmptyOpen(p[1..], UnderDict); }
        PutLookup(child, p[1..], v, UnderDict);
      }
    }
  }

  /** The values already listed where a key ending in an index goes. */
  function Listed(t: Tree, init: seq<string>): seq<Tree>
  {
    match Lookup(t, init)
    case Some(List(items)) => items
    case _ => []
  }

  /** A value for a key ending in an index is appended to the list of its family. */
  lemma {:induction false} PutAppend(t: Tree, p: seq<string>, v: string, ctx: Context)
    requires GoodTail(p) && Open(t, p, ctx) && AllDigits(p[|p| - 1]) && (|p| == 1 ==> t.List? || ctx == UnderDict)
    ensures Put(t, p, v, ctx).Ok?
    ensures Lookup(Put(t, p, v, ctx).value, p[..|p| - 1]) == Some(List(Listed(t, p[..|p| - 1]) + [Leaf(v)]))
    decreases |p|
  {
    hide Num;
    if |p| > 1 {
      assert p[..|p| - 1][1..] == p[1..][..|p| - 2];
      if AllDigits(p[0]) {
        var items := if t.List? then t.items else [];
        var n := Num(p[0]);
        var child := Pad(items, n + 1)[n];
        if n >= |items| { EmptyOpen(p[1..], UnderList); }
        PutAppend(child, p[1..], v, UnderList);
      } else {
        var child := if p[0] in t.fields then t.fields[p[0]] else EMPTY;
        if p[0] !in t.fields { EmptyOpen(p[1..], UnderDict); }
        PutAppend(child, p[1..], v, UnderDict);
      }
    }
  }

  /** Inserting one key keeps room for every compatible one. */
  lemma {:induction false} PutKeepsOpen(t: Tree, p: seq<string>, v: string, ctx: Context, q: seq<string>)
    requires GoodTail(p) && GoodTail(q) && Compatible(p, q)
    requires Open(t, p, ctx) && Open(t, q, ctx) && Put(t, p, v, ctx).Ok?
    requires AllDigits(q[0]) ==> ctx == UnderDict || t.List?
    ensures Open(Put(t, p, v, ctx).value, q, ctx)
    decreases |p|
  {
    if AllDigits(p[0]) {
      if |p| > 1 {
        var items := if t.List? then t.items else [];
        var n := Num(p[0]);
        var padded := Pad(items, n + 1);
        var child := padded[n];
        if p[0] == q[0] {
          if n >= |items| {
            EmptyOpen(p[1..], UnderList);
            EmptyOpen(q[1..], UnderList);
          }
          PutKeepsOpen(child, p[1..], v, UnderList, q[1..]);
        } else if Num(q[0]) < |padded| && Num(q[0]) >= |items| {
          EmptyOpen(q[1..], UnderList);
        }
      }
    } else if |p| > 1 && p[0] == q[0] {
      var child := if p[0] in t.fields then t.fields[p[0]] else EMPTY;
      if p[0] !in t.fields {
        EmptyOpen(p[1..], UnderDict);
        EmptyOpen(q[1..], UnderDict);
      }
      PutKeepsOpen(child, p[1..], v, UnderDict, q[1..]);
    }
  }

  // -------------------------------------------------------- all keys in order

  datatype Item = Item(path: seq<string>, value: string)

  /** The keys inserted one after the other. */
  function Build(items: seq<Item>): Result<Tree, YamlError>
    requires forall it <- items :: it.path != []
    decreases |items|
  {
    if items == [] then Ok(EMPTY)
    else
      var n := |items| - 1;
      var t :- Build(items[..n]);
      Put(t, items[n].path, items[n].value, AtRoot)
  }

  predicate Clean(items: seq<Item>)
  {
    && (forall it <- items :: GoodPath(it.path))
    && (forall i, j :: 0 <= i < j < |items| ==>
          Compatible(items[i].path, items[j].path) && Compatible(items[j].path, items[i].path))
  }

  predicate InFamily(p: seq<string>, init: seq<string>)
  {
    |p| == |init| + 1 && p[..|init|] == init && AllDigits(p[|init|])
  }

  /** The values of `init.<index>`, in the order the keys come. */
  function FamilyValues(items: seq<Item>, init: seq<string>): seq<Tree>
    decreases |items|
  {
    if items == [] then []
    else
      var n := |items| - 1;
      FamilyValues(items[..n], init) + if InFamily(items[n].path, init) then [Leaf(items[n].value)] else []
  }

  lemma DifferentNumbers(a: string, b: string)
    requires AllDigits(a) && AllDigits(b) && a == Dec(Num(a)) && b == Dec(Num(b)) && a != b
    ensures Num(a) != Num(b)
  {
  }

  /** A compatible key leaves the way to a key with a name at the end. */
  lemma {:induction false} CompatibleDiverges(p: seq<string>, q: seq<string>)
    requires GoodTail(p) && GoodTail(q) && Compatible(p, q) && !AllDigits(q[|q| - 1])
    ensures Diverges(p, q)
    decreases |p|
  {
    if p[0] == q[0] {
      CompatibleDiverges(p[1..], q[1..]);
    } else if AllDigits(p[0]) {
      DifferentNumbers(p[0], q[0]);
    }
  }

  lemma FamilyTail(p: seq<string>, init: seq<string>)
    requires p != [] && init != [] && p[0] == init[0]
    ensures InFamily(p[1..], init[1..]) ==> InFamily(p, init)
  {
    if InFamily(p[1..], init[1..]) {
      assert p[..|init|] == [p[0]] + p[1..][..|init| - 1];
      assert init == [init[0]] + init[1..];
    }
  }

  /** A compatible key leaves the way to a family it does not belong to. */
  lemma {:induction false} CompatibleLeavesFamily(p: seq<string>, q: seq<string>)
    requires GoodTail(p) && GoodTail(q) && Compatible(p, q)
    requires AllDigits(q[|q| - 1]) && !InFamily(p, q[..|q| - 1])
    ensures Diverges(p, q[..|q| - 1])
    decreases |p|
  {
    var init := q[..|q| - 1];
    if p[0] == q[0] {
      assert init[1..] == q[1..][..|q| - 2];
      FamilyTail(p, init);
      CompatibleLeavesFamily(p[1..], q[1..]);
    } else if AllDigits(p[0]) {
      if |q| > 1 { DifferentNumbers(p[0], q[0]); }
    }
  }

  lemma EmptyListed(q: seq<string>)
    ensures Listed(EMPTY, q) == []
  {
  }

  /** Inserting a key outside a family leaves the family's list as it is. */
  lemma {:induction false} PutKeepsListed(t: Tree, p: seq<string>, v: string, ctx: Context, q: seq<string>)
    requires p != [] && Put(t, p, v, ctx).Ok? && Diverges(p, q)
    ensures Listed(Put(t, p, v, ctx).value, q) == Listed(t, q)
    decreases |p|, 1
  {
    EmptyListed(q[1..]);
    if AllDigits(p[0]) {
      if t.List? || ctx == UnderDict {
        PutItemKeepsListed(if t.List? then t.items else [], p, v, q);
      }
    } else if |p| > 1 && p[0] == q[0] {
      PutKeepsListed(if p[0] in t.fields then t.fields[p[0]] else EMPTY, p[1..], v, UnderDict, q[1..]);
    }
  }

  lemma {:induction false} PutItemKeepsListed(items: seq<Tree>, p: seq<string>, v: string, q: seq<string>)
    requires p != [] && AllDigits(p[0]) && PutItem(items, p, v).Ok? && Diverges(p, q)
    ensures Listed(PutItem(items, p, v).value, q) == Listed(List(items), q)
    decreases |p|, 0
  {
    EmptyListed(q[1..]);
    if p[0] == q[0] {
      PutKeepsListed(Pad(items, Num(p[0]) + 1)[Num(p[0])], p[1..], v, UnderList, q[1..]);
    }
  }

  /** What the tree built from the first keys satisfies, for all keys. */
  predicate Faithful(all: seq<Item>, n: nat, t: Tree)
    requires n <= |all| && forall it <- all :: it.path != []
  {
    && (forall i :: n <= i < |all| ==> Open(t, all[i].path, AtRoot))
    && (forall i :: 0 <= i < n && !AllDigits(Last(all[i].path)) ==> Lookup(t, all[i].path) == Some(Leaf(all[i].value)))
    && (forall i :: 0 <= i < |all| && AllDigits(Last(all[i].path)) ==>
          Listed(t, Init(all[i].path)) == FamilyValues(all[..n], Init(all[i].path)))
  }

  function Last(p: seq<string>): string
    requires p != []
  {
    p[|p| - 1]
  }

  function Init(p: seq<string>): seq<string>
    requires p != []
  {
    p[..|p| - 1]
  }

  lemma FaithfulStart(all: seq<Item>)
    requires Clean(all)
    ensures Faithful(all, 0, EMPTY)
  {
    forall i | 0 <= i < |all| ensures GoodPath(all[i].path) { assert all[i] in all; }
  }

  lemma GoodPathAt(all: seq<Item>, i: nat)
    requires Clean(all) && i < |all|
    ensures GoodPath(all[i].path)
  {
    assert all[i] in all;
  }

  lemma StepPut(all: seq<Item>, n: nat, t: Tree)
    requires Clean(all) && n < |all| && Faithful(all, n, t)
    ensures Put(t, all[n].path, all[n].value, AtRoot).Ok?
  {
    GoodPathAt(all, n);
    var p, v := all[n].path, all[n].value;
    if AllDigits(Last(p)) { PutAppend(t, p, v, AtRoot); } else { PutLookup(t, p, v, AtRoot); }
  }

  lemma StepLookup(all: seq<Item>, n: nat, t: Tree, i: nat)
    requires Clean(all) && n < |all| && Faithful(all, n, t) && i <= n && !AllDigits(Last(all[i].path))
    requires Put(t, all[n].path, all[n].value, AtRoot).Ok?
    ensures Lookup(Put(t, all[n].path, all[n].value, AtRoot).value, all[i].path) == Some(Leaf(all[i].value))
  {
    var p, v := all[n].path, all[n].value;
    GoodPathAt(all, n);
    GoodPathAt(all, i);
    if i < n {
      CompatibleDiverges(p, all[i].path);
      PutFrame(t, p, v, AtRoot, all[i].path);
    } else {
      PutLookup(t, p, v, AtRoot);
    }
  }

  lemma FamilyStep(all: seq<Item>, n: nat, init: seq<string>)
    requires n < |all|
    ensures FamilyValues(all[..n + 1], init) ==
            FamilyValues(all[..n], init) + if InFamily(all[n].path, init) then [Leaf(all[n].value)] else []
  {
    assert all[..n + 1][..n] == all[..n];
  }

  lemma StepListed(all: seq<Item>, n: nat, t: Tree, i: nat)
    requires Clean(all) && n < |all| && Faithful(all, n, t) && i < |all| && AllDigits(Last(all[i].path))
    requires Put(t, all[n].path, all[n].value, AtRoot).Ok?
    ensures Listed(Put(t, all[n].path, all[n].value, AtRoot).value, Init(all[i].path)) ==
            FamilyValues(all[..n + 1], Init(all[i].path))
  {
    GoodPathAt(all, n);
    GoodPathAt(all, i);
    FamilyStep(all, n, Init(all[i].path));
    PutListed(t, all[n].path, all[n].value, all[i].path);
  }

  /** The list of a family grows by the value of a member and by nothing else. */
  lemma PutListed(t: Tree, p: seq<string>, v: string, q: seq<string>)
    requires GoodPath(p) && GoodPath(q) && AllDigits(Last(q)) && Open(t, p, AtRoot) && Put(t, p, v, AtRoot).Ok?
    requires p == q || Compatible(p, q)
    ensures Listed(Put(t, p, v, AtRoot).value, Init(q)) ==
            Listed(t, Init(q)) + if InFamily(p, Init(q)) then [Leaf(v)] else []
  {
    if InFamily(p, Init(q)) {
      assert Init(p) == Init(q);
      PutAppend(t, p, v, AtRoot);
    } else {
      assert p != q;
      CompatibleLeavesFamily(p, q);
      PutKeepsListed(t, p, v, AtRoot, Init(q));
    }
  }

  lemma FaithfulStep(all: seq<Item>, n: nat, t: Tree)
    requires Clean(all) && n < |all| && Faithful(all, n, t)
    ensures Put(t, all[n].path, all[n].value, AtRoot).Ok?
    ensures Faithful(all, n + 1, Put(t, all[n].path, all[n].value, AtRoot).value)
  {
    var p, v := all[n].path, all[n].value;
    StepPut(all, n, t);
    var r := Put(t, p, v, AtRoot).value;
    forall i | n < i < |all| ensures Open(r, all[i].path, AtRoot) {
      GoodPathAt(all, n);
      GoodPathAt(all, i);
      PutKeepsOpen(t, p, v, AtRoot, all[i].path);
    }
    forall i | 0 <= i < n + 1 && !AllDigits(Last(all[i].path))
      ensures Lookup(r, all[i].path) == Some(Leaf(all[i].value))
    {
      StepLookup(all, n, t, i);
    }
    forall i | 0 <= i < |all| && AllDigits(Last(all[i].path))
      ensures Listed(r, Init(all[i].path)) == FamilyValues(all[..n + 1], Init(all[i].path))
    {
      StepListed(all, n, t, i);
    }
  }

  lemma {:induction false} BuildFaithful(all: seq<Item>, n: nat)
    requires Clean(all) && n <= |all|
    ensures Build(all[..n]).Ok? && Faithful(all, n, Build(all[..n]).value)
  {
    if n == 0 {
      FaithfulStart(all);
    } else {
      BuildFaithful(all, n - 1);
      assert all[..n][..n - 1] == all[..n - 1];
      FaithfulStep(all, n - 1, Build(all[..n - 1]).value);
    }
  }

  /** The built structure is faithful to well-behaved keys: no key fails; under
      each key that ends in a name its value is found; and for each family
      `init.<index>` the list at `init` holds the family's values in key order. */
  lemma YamlFaithful(all: seq<Item>)
    requires Clean(all)
    ensures Build(all).Ok?
    ensures forall i :: 0 <= i < |all| && !AllDigits(Last(all[i].path)) ==>
      Lookup(Build(all).value, all[i].path) == Some(Leaf(all[i].value))
    ensures forall i :: 0 <= i < |all| && AllDigits(Last(all[i].path)) ==>
      Lookup(Build(all).value, Init(all[i].path)) == Some(List(FamilyValues(all, Init(all[i].path))))
  {
    BuildFaithful(all, |all|);
    assert all[..|all|] == all;
    forall i | 0 <= i < |all| && AllDigits(Last(all[i].path))
      ensures Lookup(Build(all).value, Init(all[i].path)) == Some(List(FamilyValues(all, Init(all[i].path))))
    {
      MemberListed(all, i);
      ListedFound(Build(all).value, Init(all[i].path));
    }
  }

  lemma ListedFound(t: Tree, q: seq<string>)
    requires Listed(t, q) != []
    ensures Lookup(t, q) == Some(List(Listed(t, q)))
  {
  }

  lemma {:induction false} MemberListed(all: seq<Item>, i: nat)
    requires i < |all| && all[i].path != [] && AllDigits(Last(all[i].path))
    ensures Leaf(all[i].value) in FamilyValues(all, Init(all[i].path))
    decreases |all|
  {
    var n := |all| - 1;
    if i < n {
      assert all[..n][i] == all[i];
      MemberListed(all[..n], i);
    } else {
      assert InFamily(all[n].path, Init(all[i].path));
    }
  }

  // ------------------------------------------ why the conditions are needed

  /** A key that starts with an index is dropped without a word: it is built on
      a dictionary nothing refers to. */
  lemma FirstIndexLost(t: Tree, p: seq<string>, v: string)
    requires p != [] && AllDigits(p[0]) && t.Dict? && Put(t, p, v, AtRoot).Ok?
    ensures Put(t, p, v, AtRoot).value == t
  {
  }

  /** A key that continues another key raises an exception. */
  lemma {:induction false} PrefixFails(t: Tree, p: seq<string>, v: string, ctx: Context, n: nat, text: string)
    requires n < |p| && Lookup(t, p[..n]) == Some(Leaf(text))
    ensures Put(t, p, v, ctx).Err?
    decreases n
  {
    if n > 0 {
      assert p[..n][1..] == p[1..][..n - 1];
      if AllDigits(p[0]) {
        PrefixFails(t.items[Num(p[0])], p[1..], v, UnderList, n - 1, text);
      } else {
        PrefixFails(t.fields[p[0]], p[1..], v, UnderDict, n - 1, text);
      }
    } else {
      assert t == Leaf(text);
    }
  }

  /** An index where names stand already erases what is below the names. */
  lemma IndexErasesNames(t: Tree, p: seq<string>, v: string, q: seq<string>)
    requires t.Dict? && p != [] && AllDigits(p[0]) && Put(t, p, v, UnderDict).Ok?
    requires q != [] && !AllDigits(q[0])
    ensures Lookup(Put(t, p, v, UnderDict).value, q) == None
  {
  }
}
