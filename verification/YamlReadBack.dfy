/** `render_yaml` of transformation.py, read back: which structures its text
    still holds, for a reader of block collections and plain scalars on one line
    as YAML 1.2.2 has them (sections 7.3.3, 8.2.1 and 8.2.2). */
module YamlReadBack {
  import opened Wrappers
  import opened Text
  import opened Properties
  import opened Yaml
  import opened YamlBuild
  import YamlExact
  import opened YamlLists
  import opened Transformers

  // ------------------------------------------------------------------ scalars

  predicate White(c: char)
  {
    c == ' ' || c == '\t'
  }

  /** The printable characters that break no line (section 5.1). */
  predicate LineChar(c: char)
  {
    c == '\t' || ' ' <= c <= '~' || c == '\U{85}' ||
    ('\U{A0}' <= c && c != '\U{FEFF}' && c != '\U{FFFE}' && c != '\U{FFFF}')
  }

  /** The characters that start something other than a plain scalar (section 5.3). */
  const INDICATORS := "-?:,[]{}#&*!|>'\"%@`"

  predicate PlainStart(s: string)
  {
    s != "" && !White(s[0]) && (s[0] in INDICATORS ==> s[0] in "-?:" && |s| > 1 && !White(s[1]))
  }

  /** Neither the end of a key, nor the start of a comment, nor a white end. */
  predicate PlainAt(s: string, i: nat)
    requires i < |s|
  {
    && LineChar(s[i])
    && (s[i] == ':' ==> i + 1 < |s| && !White(s[i + 1]))
    && (White(s[i]) ==> i + 1 < |s| && s[i + 1] != '#')
  }

  /** A text that is its own plain scalar. */
  predicate Plain(s: string)
  {
    PlainStart(s) && forall i :: 0 <= i < |s| ==> PlainAt(s, i)
  }

  /** A key on one line is limited in length (section 7.4.2). */
  predicate PlainName(s: string)
  {
    Plain(s) && |s| <= 1024
  }

  // --------------------------------------------------------------- the reader

  /** The number of spaces a text starts with. */
  function Indent(s: string): (n: nat)
    ensures n <= |s| && (n < |s| ==> s[n] != ' ') && forall i :: 0 <= i < n ==> s[i] == ' '
  {
    if s == "" || s[0] != ' ' then 0 else 1 + Indent(s[1..])
  }

  /** An entry of a sequence whose dashes stand in this column. */
  predicate Dash(s: string, m: nat)
  {
    Indent(s) == m && m + 1 < |s| && s[m] == '-' && s[m + 1] == ' '
  }

  function LineEnd(s: string, i: nat): (r: nat)
    requires i <= |s|
    ensures i <= r <= |s| && (forall j :: i <= j < r ==> s[j] != '\n') && (r < |s| ==> s[r] == '\n')
    decreases |s| - i
  {
    if i == |s| || s[i] == '\n' then i else LineEnd(s, i + 1)
  }

  predicate NameEndAt(s: string, i: nat)
  {
    i + 1 < |s| && s[i] == ':' && White(s[i + 1])
  }

  /** Where the key ends that starts at `i`, or the end. */
  function NameEnd(s: string, i: nat): (r: nat)
    requires i <= |s|
    ensures i <= r <= |s| && (forall j :: i <= j < r ==> !NameEndAt(s, j)) && (r < |s| ==> NameEndAt(s, r))
    decreases |s| - i
  {
    if i == |s| || NameEndAt(s, i) then i else NameEnd(s, i + 1)
  }

  datatype NamePart = NamePart(name: string, rest: string)

  /** A key in this column, its colon and a space. */
  function ReadName(s: string, m: nat): (r: Option<NamePart>)
    requires m <= |s|
    ensures r.Some? ==> |r.value.rest| < |s| && PlainName(r.value.name)
  {
    var i := NameEnd(s, m);
    if i == |s| || s[i + 1] != ' ' || !PlainName(s[m..i]) then None else Some(NamePart(s[m..i], s[i + 2..]))
  }

  datatype Member = Member(name: string, tree: Tree)

  datatype NodePart = NodePart(tree: Tree, rest: string)
  datatype ItemsPart = ItemsPart(items: seq<Tree>, rest: string)
  datatype FieldsPart = FieldsPart(fields: seq<Member>, rest: string)

  function MapOf(fields: seq<Member>): map<string, Tree>
  {
    if fields == [] then map[]
    else MapOf(fields[..|fields| - 1])[fields[|fields| - 1].name := fields[|fields| - 1].tree]
  }

  /** What follows a key or a dash: a scalar on the same line, or a collection
      below that is indented more than what it belongs to. */
  function ReadNode(s: string, parent: nat): (r: Option<NodePart>)
    ensures r.Some? ==> |r.value.rest| <= |s|
    decreases |s|
  {
    if s == "" then None
    else if s[0] != '\n' then
      var i := LineEnd(s, 0);
      if i == |s| || !Plain(s[..i]) then None else Some(NodePart(Leaf(s[..i]), s[i + 1..]))
    else
      var below := s[1..];
      var m := Indent(below);
      if m <= parent then None
      else if Dash(below, m) then
        match ReadItems(below, m)
        case None => None
        case Some(r) => Some(NodePart(List(r.items), r.rest))
      else
        match ReadFields(below, m)
        case None => None
        case Some(r) => if r.fields == [] then None else Some(NodePart(Dict(MapOf(r.fields)), r.rest))
  }

  function ReadItems(s: string, m: nat): (r: Option<ItemsPart>)
    ensures r.Some? ==> |r.value.rest| <= |s|
    decreases |s|
  {
    if !Dash(s, m) then Some(ItemsPart([], s))
    else
      match ReadNode(s[m + 2..], m)
      case None => None
      case Some(item) =>
        match ReadItems(item.rest, m)
        case None => None
        case Some(r) => Some(ItemsPart([item.tree] + r.items, r.rest))
  }

  function ReadFields(s: string, m: nat): (r: Option<FieldsPart>)
    ensures r.Some? ==> |r.value.rest| <= |s|
    decreases |s|
  {
    if Indent(s) != m || m == |s| then Some(FieldsPart([], s))
    else
      match ReadName(s, m)
      case None => None
      case Some(key) =>
        match ReadNode(key.rest, m)
        case None => None
        case Some(value) =>
          match ReadFields(value.rest, m)
          case None => None
          case Some(r) => Some(FieldsPart([Member(key.name, value.tree)] + r.fields, r.rest))
  }

  /** A document that is one mapping. */
  function ReadYaml(s: string): Option<Tree>
  {
    match ReadFields(s, 0)
    case None => None
    case Some(r) => if r.rest == "" && r.fields != [] then Some(Dict(MapOf(r.fields))) else None
  }

  // -------------------------------------------------------- what can be read

  /** Scalars and keys are plain, and no collection is empty. */
  predicate Spelled(t: Tree)
  {
    match t
    case Leaf(text) => Plain(text)
    case Dict(fields) => fields != map[] && forall k <- fields.Keys :: PlainName(k) && Spelled(fields[k])
    case List(items) => items != [] && forall item <- items :: Spelled(item)
  }

  /** And no list holds a dictionary, whose keys `render_yaml` puts below the dash. */
  predicate Readable(t: Tree)
  {
    match t
    case Leaf(text) => Plain(text)
    case Dict(fields) => fields != map[] && forall k <- fields.Keys :: PlainName(k) && Readable(fields[k])
    case List(items) => items != [] && forall item <- items :: !item.Dict? && Readable(item)
  }

  predicate SpelledFields(fields: seq<Member>)
  {
    forall f <- fields :: PlainName(f.name) && Spelled(f.tree)
  }

  lemma {:induction false} MapSpelled(fields: seq<Member>)
    requires SpelledFields(fields)
    ensures forall k <- MapOf(fields).Keys :: PlainName(k) && Spelled(MapOf(fields)[k])
    ensures fields != [] ==> MapOf(fields) != map[]
  {
    if fields != [] {
      hide Spelled, PlainName;
      var n := |fields| - 1;
      MapSpelled(fields[..n]);
      assert PlainName(fields[n].name) && Spelled(fields[n].tree);
      assert fields[n].name in MapOf(fields);
    }
  }

  /** Whatever the text: what is read from it is spelled like this. */
  lemma {:induction false} NodeSpelled(s: string, parent: nat)
    requires ReadNode(s, parent).Some?
    ensures Spelled(ReadNode(s, parent).value.tree)
    decreases |s|
  {
    if s[0] == '\n' {
      var below := s[1..];
      var m := Indent(below);
      if Dash(below, m) {
        ItemsSpelled(below, m);
      } else {
        FieldsSpelled(below, m);
        MapSpelled(ReadFields(below, m).value.fields);
      }
    }
  }

  lemma {:induction false} ItemsSpelled(s: string, m: nat)
    requires ReadItems(s, m).Some?
    ensures forall item <- ReadItems(s, m).value.items :: Spelled(item)
    ensures Dash(s, m) ==> ReadItems(s, m).value.items != []
    decreases |s|
  {
    if Dash(s, m) {
      hide Spelled;
      NodeSpelled(s[m + 2..], m);
      ItemsSpelled(ReadNode(s[m + 2..], m).value.rest, m);
    }
  }

  lemma {:induction false} FieldsSpelled(s: string, m: nat)
    requires ReadFields(s, m).Some?
    ensures SpelledFields(ReadFields(s, m).value.fields)
    decreases |s|
  {
    if Indent(s) == m && m < |s| {
      hide Spelled, PlainName;
      var rest := ReadName(s, m).value.rest;
      NodeSpelled(rest, m);
      FieldsSpelled(ReadNode(rest, m).value.rest, m);
    }
  }

  // ------------------------------------------------- reading what is rendered

  predicate Blank(p: string)
  {
    forall c <- p :: c == ' '
  }

  /** Such a text ends every collection that stands in this column. */
  predicate Outside(x: string, m: nat)
  {
    x == "" || (Indent(x) < |x| && Indent(x) < m)
  }

  lemma IndentIs(p: string, s: string)
    requires Blank(p) && s != "" && s[0] != ' '
    ensures Indent(p + s) == |p|
  {
    assert (p + s)[|p|] == s[0];
    assert forall i :: 0 <= i < |p| ==> (p + s)[i] == p[i] && p[i] in p;
  }

  lemma EndsCollections(x: string, m: nat)
    requires Outside(x, m)
    ensures !Dash(x, m) && ReadItems(x, m) == Some(ItemsPart([], x)) && ReadFields(x, m) == Some(FieldsPart([], x))
  {
  }

  /** A plain text of one line is read as it is. */
  lemma LeafRead(text: string, x: string, parent: nat)
    requires Plain(text)
    ensures ReadNode(text + "\n" + x, parent) == Some(NodePart(Leaf(text), x))
  {
    var s := text + "\n" + x;
    assert PlainAt(text, 0);
    assert s[0] == text[0] && s[|text|] == '\n';
    forall j | 0 <= j < |text| ensures s[j] != '\n' { assert PlainAt(text, j) && s[j] == text[j]; }
    var i := LineEnd(s, 0);
    assert i == |text|;
    assert s[..i] == text && s[i + 1..] == x;
  }

  lemma NameGoesOn(s: string, k: string, n: nat, j: nat)
    requires j < |k| && PlainAt(k, j) && n + |k| <= |s| && s[n..n + |k|] == k
    ensures !NameEndAt(s, n + j)
  {
    assert s[n + j] == k[j] && (j + 1 < |k| ==> s[n + j + 1] == k[j + 1]);
  }

  lemma NameEndIs(s: string, k: string, n: nat)
    requires Plain(k) && n + |k| <= |s| && s[n..n + |k|] == k && NameEndAt(s, n + |k|)
    ensures NameEnd(s, n) == n + |k|
  {
    forall j | n <= j < n + |k| ensures !NameEndAt(s, j) { NameGoesOn(s, k, n, j - n); }
  }

  lemma KeyLine(p: string, k: string, y: string, s: string, i: nat)
    requires s == p + k + ": " + y && k != "" && i == |p| + |k|
    ensures i + 2 <= |s| && s[|p|..i] == k && s[i] == ':' && s[i + 1] == ' ' && s[i + 2..] == y
    ensures s[|p|] == k[0] && (|k| > 1 ==> s[|p| + 1] == k[1])
  {
  }

  lemma KeyIndent(p: string, k: string, y: string, s: string)
    requires Blank(p) && PlainStart(k) && s == p + k + ": " + y
    ensures Indent(s) == |p| && !Dash(s, |p|)
  {
    KeyLine(p, k, y, s, |p| + |k|);
    assert s == p + (k + ": " + y) && (k + ": " + y)[0] == k[0];
    IndentIs(p, k + ": " + y);
  }

  lemma NameRead(p: string, k: string, y: string, s: string, i: nat)
    requires PlainName(k) && k != "" && s == p + k + ": " + y && i == |p| + |k|
    ensures ReadName(s, |p|) == Some(NamePart(k, y))
  {
    hide PlainAt, PlainStart, NameEnd;
    KeyLine(p, k, y, s, i);
    NameEndIs(s, k, |p|);
  }

  lemma FieldStep(p: string, k: string, y: string, s: string)
    requires Blank(p) && PlainName(k) && s == p + k + ": " + y
    ensures ReadFields(s, |p|) ==
      match ReadNode(y, |p|)
      case None => None
      case Some(value) =>
        match ReadFields(value.rest, |p|)
        case None => None
        case Some(r) => Some(FieldsPart([Member(k, value.tree)] + r.fields, r.rest))
  {
    hide ReadNode, ReadName, PlainAt, Dash, Blank;
    KeyIndent(p, k, y, s);
    NameRead(p, k, y, s, |p| + |k|);
  }

  lemma DashRead(p: string, y: string, s: string)
    requires Blank(p) && s == p + " - " + y
    ensures Dash(s, |p| + 1) && s[|p| + 3..] == y
  {
    assert s == (p + " ") + ("- " + y);
    IndentIs(p + " ", "- " + y);
  }

  lemma ItemStep(p: string, y: string, s: string)
    requires Blank(p) && s == p + " - " + y
    ensures ReadItems(s, |p| + 1) ==
      match ReadNode(y, |p| + 1)
      case None => None
      case Some(item) =>
        match ReadItems(item.rest, |p| + 1)
        case None => None
        case Some(r) => Some(ItemsPart([item.tree] + r.items, r.rest))
  {
    hide ReadNode, Dash, Blank;
    DashRead(p, y, s);
  }

  ghost predicate ReadableFields(t: Tree, keys: seq<string>, i: nat)
    requires t.Dict? && forall k <- keys :: k in t.fields
  {
    forall j :: i <= j < |keys| ==> Readable(t.fields[keys[j]])
  }

  ghost predicate ReadableItems(t: Tree, i: nat)
    requires t.List?
  {
    forall j :: i <= j < |t.items| ==> !t.items[j].Dict? && Readable(t.items[j])
  }

  function MembersFrom(t: Tree, keys: seq<string>, i: nat): (ms: seq<Member>)
    requires t.Dict? && i <= |keys| && forall k <- keys :: k in t.fields
    ensures |ms| == |keys| - i && forall j :: 0 <= j < |ms| ==> ms[j] == Member(keys[i + j], t.fields[keys[i + j]])
  {
    seq(|keys| - i, j requires 0 <= j < |keys| - i => Member(keys[i + j], t.fields[keys[i + j]]))
  }

  lemma {:induction false} MapOfMembers(fields: seq<Member>, m: map<string, Tree>)
    requires forall f <- fields :: f.name in m && m[f.name] == f.tree
    ensures forall i :: 0 <= i < |fields| ==> fields[i].name in MapOf(fields)
    ensures forall k <- MapOf(fields).Keys :: k in m && MapOf(fields)[k] == m[k]
  {
    if fields != [] { MapOfMembers(fields[..|fields| - 1], m); }
  }

  lemma AllMembers(t: Tree, keys: seq<string>)
    requires t.Dict? && keys == SortedKeys(t.fields.Keys)
    ensures MapOf(MembersFrom(t, keys, 0)) == t.fields
  {
    hide MembersFrom, MapOf;
    var ms := MembersFrom(t, keys, 0);
    MapOfMembers(ms, t.fields);
    forall k | k in t.fields ensures k in MapOf(ms) {
      var j :| 0 <= j < |keys| && keys[j] == k;
      assert ms[j].name == k;
    }
  }

  /** The reader finds the node and goes on behind it, or fails if some list
      in it holds a dictionary. */
  ghost predicate NodeIsRead(t: Tree, p: string, x: string, parent: nat)
  {
    ReadNode(Render(t, p) + x, parent) == if Readable(t) then Some(NodePart(t, x)) else None
  }

  ghost predicate FieldsAreRead(t: Tree, keys: seq<string>, i: nat, p: string, x: string)
    requires t.Dict? && i <= |keys| && forall k <- keys :: k in t.fields
  {
    ReadFields(RenderFields(t, keys, i, p) + x, |p|) ==
    if ReadableFields(t, keys, i) then Some(FieldsPart(MembersFrom(t, keys, i), x)) else None
  }

  ghost predicate ItemsAreRead(t: Tree, i: nat, p: string, x: string)
    requires t.List? && i <= |t.items|
  {
    ReadItems(RenderItems(t, i, p) + x, |p| + 1) ==
    if ReadableItems(t, i) then Some(ItemsPart(t.items[i..], x)) else None
  }

  /** The collection stands in a column behind its parent's, and what follows ends it. */
  predicate Placed(t: Tree, p: string, x: string, parent: nat)
  {
    && (t.Dict? ==> parent < |p| && Outside(x, |p|))
    && (t.List? ==> parent <= |p| && Outside(x, |p| + 1))
  }

  lemma FieldJoins(p: string, k: string, below: string, y: string, s: string, child: Tree, ms: seq<Member>, x: string, a: bool, b: bool)
    requires Blank(p) && PlainName(k) && s == p + k + ": " + below
    requires ReadNode(below, |p|) == if a then Some(NodePart(child, y)) else None
    requires ReadFields(y, |p|) == if b then Some(FieldsPart(ms, x)) else None
    ensures ReadFields(s, |p|) == if a && b then Some(FieldsPart([Member(k, child)] + ms, x)) else None
  {
    hide ReadNode, ReadFields, PlainName, Blank;
    FieldStep(p, k, below, s);
  }

  lemma FieldsText(t: Tree, keys: seq<string>, i: nat, p: string, x: string)
    requires t.Dict? && i < |keys| && (forall k <- keys :: k in t.fields)
    ensures RenderFields(t, keys, i, p) + x ==
            p + keys[i] + ": " + (Render(t.fields[keys[i]], p + "   ") + (RenderFields(t, keys, i + 1, p) + x))
  {
    hide Render;
  }

  lemma MembersNext(t: Tree, keys: seq<string>, i: nat)
    requires t.Dict? && i < |keys| && (forall k <- keys :: k in t.fields)
    ensures MembersFrom(t, keys, i) == [Member(keys[i], t.fields[keys[i]])] + MembersFrom(t, keys, i + 1)
    ensures ReadableFields(t, keys, i) <==> Readable(t.fields[keys[i]]) && ReadableFields(t, keys, i + 1)
  {
    hide Readable;
  }

  lemma FieldsNext(t: Tree, keys: seq<string>, i: nat, p: string, x: string, y: string)
    requires t.Dict? && i < |keys| && (forall k <- keys :: k in t.fields) && Blank(p) && PlainName(keys[i])
    requires y == RenderFields(t, keys, i + 1, p) + x
    requires NodeIsRead(t.fields[keys[i]], p + "   ", y, |p|) && FieldsAreRead(t, keys, i + 1, p, x)
    ensures FieldsAreRead(t, keys, i, p, x)
  {
    hide ReadNode, ReadFields, Readable, PlainName, Blank, Render, RenderFields, MembersFrom, ReadableFields;
    var child := t.fields[keys[i]];
    FieldsText(t, keys, i, p, x);
    MembersNext(t, keys, i);
    FieldJoins(p, keys[i], Render(child, p + "   ") + y, y, RenderFields(t, keys, i, p) + x, child, MembersFrom(t, keys, i + 1), x,
               Readable(child), ReadableFields(t, keys, i + 1));
  }

  lemma ItemJoins(p: string, below: string, y: string, s: string, item: Tree, items: seq<Tree>, x: string, a: bool, b: bool)
    requires Blank(p) && s == p + " - " + below
    requires ReadNode(below, |p| + 1) == if a then Some(NodePart(item, y)) else None
    requires ReadItems(y, |p| + 1) == if b then Some(ItemsPart(items, x)) else None
    ensures ReadItems(s, |p| + 1) == if a && b then Some(ItemsPart([item] + items, x)) else None
  {
    hide ReadNode, ReadItems, Blank;
    ItemStep(p, below, s);
  }

  lemma ItemsText(t: Tree, i: nat, p: string, x: string)
    requires t.List? && i < |t.items|
    ensures RenderItems(t, i, p) + x == p + " - " + (Render(t.items[i], p + " ") + (RenderItems(t, i + 1, p) + x))
  {
    hide Render;
  }

  lemma ItemsTail(t: Tree, i: nat)
    requires t.List? && i < |t.items|
    ensures t.items[i..] == [t.items[i]] + t.items[i + 1..]
    ensures ReadableItems(t, i) <==> (!t.items[i].Dict? && Readable(t.items[i])) && ReadableItems(t, i + 1)
  {
    hide Readable;
  }

  lemma ItemsNext(t: Tree, i: nat, p: string, x: string, y: string)
    requires t.List? && i < |t.items| && Blank(p) && y == RenderItems(t, i + 1, p) + x
    requires t.items[i].Dict? ==> ReadNode(Render(t.items[i], p + " ") + y, |p| + 1) == None
    requires !t.items[i].Dict? ==> NodeIsRead(t.items[i], p + " ", y, |p| + 1)
    requires ItemsAreRead(t, i + 1, p, x)
    ensures ItemsAreRead(t, i, p, x)
  {
    hide ReadNode, ReadItems, Readable, Blank, Render, RenderItems, ReadableItems;
    var item := t.items[i];
    ItemsText(t, i, p, x);
    ItemsTail(t, i);
    ItemJoins(p, Render(item, p + " ") + y, y, RenderItems(t, i, p) + x, item, t.items[i + 1..], x,
              !item.Dict? && Readable(item), ReadableItems(t, i + 1));
  }

  lemma FieldsOutside(t: Tree, keys: seq<string>, i: nat, p: string, x: string, m: nat)
    requires t.Dict? && i <= |keys| && (forall k <- keys :: k in t.fields && Plain(k)) && Blank(p) && Outside(x, |p|) && m > |p|
    ensures Outside(RenderFields(t, keys, i, p) + x, m)
  {
    if i == |keys| {
      assert RenderFields(t, keys, i, p) + x == x;
    } else {
      hide Render, RenderFields, PlainAt;
      var y := Render(t.fields[keys[i]], p + "   ") + (RenderFields(t, keys, i + 1, p) + x);
      FieldsText(t, keys, i, p, x);
      KeyIndent(p, keys[i], y, p + keys[i] + ": " + y);
    }
  }

  lemma ItemsOutside(t: Tree, i: nat, p: string, x: string, m: nat)
    requires t.List? && i <= |t.items| && Blank(p) && Outside(x, |p| + 1) && m > |p| + 1
    ensures Outside(RenderItems(t, i, p) + x, m)
  {
    if i == |t.items| {
      assert RenderItems(t, i, p) + x == x;
    } else {
      hide Render, RenderItems;
      var y := Render(t.items[i], p + " ") + (RenderItems(t, i + 1, p) + x);
      ItemsText(t, i, p, x);
      DashRead(p, y, p + " - " + y);
    }
  }

  /** The first line of a dictionary below is indented like its keys. */
  lemma FirstField(t: Tree, keys: seq<string>, p: string, x: string)
    requires t.Dict? && keys != [] && (forall k <- keys :: k in t.fields && Plain(k)) && Blank(p)
    ensures var s := RenderFields(t, keys, 0, p) + x; Indent(s) == |p| && !Dash(s, |p|)
  {
    hide Render, RenderFields, PlainAt, Dash;
    var y := Render(t.fields[keys[0]], p + "   ") + (RenderFields(t, keys, 1, p) + x);
    FieldsText(t, keys, 0, p, x);
    KeyIndent(p, keys[0], y, p + keys[0] + ": " + y);
  }

  lemma FirstItem(t: Tree, p: string, x: string)
    requires t.List? && t.items != [] && Blank(p)
    ensures Dash(RenderItems(t, 0, p) + x, |p| + 1)
  {
    hide Render, RenderItems, Dash;
    var y := Render(t.items[0], p + " ") + (RenderItems(t, 1, p) + x);
    ItemsText(t, 0, p, x);
    DashRead(p, y, p + " - " + y);
  }

  lemma DictText(t: Tree, p: string, x: string, keys: seq<string>)
    requires t.Dict? && p != "" && keys == SortedKeys(t.fields.Keys)
    ensures Render(t, p) + x == "\n" + (RenderFields(t, keys, 0, p) + x)
  {
    hide RenderFields;
  }

  lemma ListText(t: Tree, p: string, x: string)
    requires t.List?
    ensures Render(t, p) + x == "\n" + (RenderItems(t, 0, p) + x)
  {
    hide RenderItems;
  }

  lemma BelowDict(s: string, parent: nat, m: nat)
    requires Indent(s) == m && !Dash(s, m)
    ensures ReadNode("\n" + s, parent) ==
      if m <= parent then None
      else match ReadFields(s, m)
           case None => None
           case Some(r) => if r.fields == [] then None else Some(NodePart(Dict(MapOf(r.fields)), r.rest))
  {
    hide ReadFields, ReadItems;
    assert ("\n" + s)[1..] == s;
  }

  lemma BelowList(s: string, parent: nat, m: nat)
    requires Dash(s, m) && m > parent
    ensures ReadNode("\n" + s, parent) ==
      match ReadItems(s, m)
      case None => None
      case Some(r) => Some(NodePart(List(r.items), r.rest))
  {
    hide ReadFields, ReadItems;
    assert ("\n" + s)[1..] == s;
  }

  lemma KeysPlain(t: Tree, keys: seq<string>)
    requires t.Dict? && Spelled(t) && keys == SortedKeys(t.fields.Keys)
    ensures keys != [] && forall k <- keys :: k in t.fields && PlainName(k) && Plain(k)
    ensures Readable(t) <==> ReadableFields(t, keys, 0)
  {
    assert forall k <- t.fields.Keys :: PlainName(k);
    assert t.fields.Keys != {};
    var first :| first in t.fields.Keys;
    assert first in keys;
    if ReadableFields(t, keys, 0) {
      forall k | k in t.fields.Keys ensures Readable(t.fields[k]) {
        var j :| 0 <= j < |keys| && keys[j] == k;
      }
    }
  }

  lemma DictRead(t: Tree, p: string, x: string, parent: nat, keys: seq<string>)
    requires t.Dict? && Spelled(t) && Blank(p) && p != "" && parent < |p| && keys == SortedKeys(t.fields.Keys)
    requires FieldsAreRead(t, keys, 0, p, x)
    ensures NodeIsRead(t, p, x, parent)
  {
    hide ReadNode, ReadFields, Readable, Spelled, Render, RenderFields, ReadableFields, MapOf, Plain, PlainName, Indent, Dash;
    KeysPlain(t, keys);
    DictText(t, p, x, keys);
    FirstField(t, keys, p, x);
    BelowDict(RenderFields(t, keys, 0, p) + x, parent, |p|);
    AllMembers(t, keys);
  }

  lemma ListRead(t: Tree, p: string, x: string, parent: nat)
    requires t.List? && Spelled(t) && Blank(p) && parent <= |p| && ItemsAreRead(t, 0, p, x)
    ensures NodeIsRead(t, p, x, parent)
  {
    hide ReadNode, ReadItems, Render, RenderItems, Dash;
    ListText(t, p, x);
    FirstItem(t, p, x);
    BelowList(RenderItems(t, 0, p) + x, parent, |p| + 1);
    ListReadable(t);
    assert t.items[0..] == t.items;
  }

  lemma ListReadable(t: Tree)
    requires t.List? && t.items != []
    ensures Readable(t) <==> ReadableItems(t, 0)
  {
    if ReadableItems(t, 0) {
      forall item | item in t.items ensures !item.Dict? && Readable(item) {
        var j :| 0 <= j < |t.items| && t.items[j] == item;
      }
    }
  }

  /** A dictionary in a list stands in the column of the dash, and is not taken for its item. */
  lemma DictInList(t: Tree, p: string, x: string)
    requires t.Dict? && Spelled(t) && Blank(p) && p != ""
    ensures ReadNode(Render(t, p) + x, |p|) == None
  {
    hide ReadNode, ReadFields, Readable, Spelled, Render, RenderFields, ReadableFields, MapOf, Plain, PlainName, Indent, Dash;
    var keys := SortedKeys(t.fields.Keys);
    KeysPlain(t, keys);
    DictText(t, p, x, keys);
    FirstField(t, keys, p, x);
    BelowDict(RenderFields(t, keys, 0, p) + x, |p|, |p|);
  }

  lemma NoFields(t: Tree, keys: seq<string>, p: string, x: string)
    requires t.Dict? && (forall k <- keys :: k in t.fields) && Outside(x, |p|)
    ensures FieldsAreRead(t, keys, |keys|, p, x)
  {
    EndsCollections(x, |p|);
    assert RenderFields(t, keys, |keys|, p) + x == x;
    assert MembersFrom(t, keys, |keys|) == [];
  }

  lemma NoItems(t: Tree, p: string, x: string)
    requires t.List? && Outside(x, |p| + 1)
    ensures ItemsAreRead(t, |t.items|, p, x)
  {
    EndsCollections(x, |p| + 1);
    assert RenderItems(t, |t.items|, p) + x == x && t.items[|t.items|..] == [];
  }

  lemma {:induction false} NodeRead(t: Tree, p: string, x: string, parent: nat)
    requires Spelled(t) && Blank(p) && p != "" && Placed(t, p, x, parent)
    ensures NodeIsRead(t, p, x, parent)
    decreases t, 1, 0
  {
    hide ReadNode, Render, Readable, Spelled, Outside, Blank;
    match t
    case Leaf(text) =>
      LeafAsNode(text, p, x, parent);
    case Dict(fields) =>
      var keys := SortedKeys(fields.Keys);
      KeysPlain(t, keys);
      FieldsRead(t, keys, 0, p, x);
      DictRead(t, p, x, parent, keys);
    case List(items) =>
      ItemsRead(t, 0, p, x);
      ListRead(t, p, x, parent);
  }

  lemma LeafAsNode(text: string, p: string, x: string, parent: nat)
    requires Spelled(Leaf(text))
    ensures NodeIsRead(Leaf(text), p, x, parent)
  {
    hide Plain, ReadNode;
    LeafRead(text, x, parent);
  }

  lemma FieldPlaced(t: Tree, keys: seq<string>, i: nat, p: string, x: string, child: Tree, y: string)
    requires t.Dict? && Spelled(t) && Blank(p) && Outside(x, |p|)
    requires i < |keys| && (forall k <- keys :: k in t.fields && PlainName(k) && Plain(k))
    requires child == t.fields[keys[i]] && y == RenderFields(t, keys, i + 1, p) + x
    ensures Spelled(child) && Blank(p + "   ") && Placed(child, p + "   ", y, |p|)
  {
    hide Outside, Plain, PlainName, RenderFields;
    FieldsOutside(t, keys, i + 1, p, x, |p| + 3);
    FieldsOutside(t, keys, i + 1, p, x, |p| + 4);
  }

  lemma ItemPlaced(t: Tree, i: nat, p: string, x: string, item: Tree, y: string)
    requires t.List? && Spelled(t) && Blank(p) && Outside(x, |p| + 1)
    requires i < |t.items| && item == t.items[i] && y == RenderItems(t, i + 1, p) + x
    ensures Spelled(item) && Blank(p + " ") && (!item.Dict? ==> Placed(item, p + " ", y, |p| + 1))
  {
    hide Outside, RenderItems;
    ItemsOutside(t, i + 1, p, x, |p| + 2);
  }

  lemma {:induction false} FieldsRead(t: Tree, keys: seq<string>, i: nat, p: string, x: string)
    requires t.Dict? && Spelled(t) && Blank(p) && Outside(x, |p|)
    requires i <= |keys| && forall k <- keys :: k in t.fields && PlainName(k) && Plain(k)
    ensures FieldsAreRead(t, keys, i, p, x)
    decreases t, 0, |keys| - i
  {
    hide FieldsAreRead, NodeIsRead, Outside, Plain, PlainName, RenderFields, Spelled, Placed, Blank;
    if i == |keys| {
      NoFields(t, keys, p, x);
    } else {
      var child, y := t.fields[keys[i]], RenderFields(t, keys, i + 1, p) + x;
      FieldsRead(t, keys, i + 1, p, x);
      FieldPlaced(t, keys, i, p, x, child, y);
      NodeRead(child, p + "   ", y, |p|);
      FieldsNext(t, keys, i, p, x, y);
    }
  }

  lemma {:induction false} ItemsRead(t: Tree, i: nat, p: string, x: string)
    requires t.List? && Spelled(t) && Blank(p) && Outside(x, |p| + 1) && i <= |t.items|
    ensures ItemsAreRead(t, i, p, x)
    decreases t, 0, |t.items| - i
  {
    hide ItemsAreRead, NodeIsRead, Outside, RenderItems, Render, ReadNode, Spelled, Placed, Blank;
    if i == |t.items| {
      NoItems(t, p, x);
    } else {
      var item, y := t.items[i], RenderItems(t, i + 1, p) + x;
      ItemsRead(t, i + 1, p, x);
      ItemPlaced(t, i, p, x, item, y);
      if item.Dict? { DictInList(item, p + " ", y); } else { NodeRead(item, p + " ", y, |p| + 1); }
      ItemsNext(t, i, p, x, y);
    }
  }

  // ------------------------------------------------------------- whole texts

  lemma RootText(t: Tree, keys: seq<string>)
    requires t.Dict? && keys == SortedKeys(t.fields.Keys)
    ensures Render(t, "") == RenderFields(t, keys, 0, "") + ""
  {
    hide RenderFields;
  }

  lemma RootRead(t: Tree, keys: seq<string>)
    requires t.Dict? && Spelled(t) && keys == SortedKeys(t.fields.Keys)
    ensures ReadYaml(Render(t, "")) == if Readable(t) then Some(t) else None
  {
    hide ReadFields, Readable, Spelled, Render, RenderFields, ReadableFields, MapOf, Plain, PlainName;
    KeysPlain(t, keys);
    RootText(t, keys);
    FieldsRead(t, keys, 0, "", "");
    AllMembers(t, keys);
  }

  lemma ReadableSpelled(t: Tree)
    requires Readable(t)
    ensures Spelled(t)
  {
    match t
    case Leaf(_) =>
    case Dict(fields) => forall k | k in fields.Keys ensures Spelled(fields[k]) { ReadableSpelled(fields[k]); }
    case List(items) => forall item | item in items ensures Spelled(item) { ReadableSpelled(item); }
  }

  lemma YamlSpelled(s: string)
    requires ReadYaml(s).Some?
    ensures Spelled(ReadYaml(s).value)
  {
    FieldsSpelled(s, 0);
    MapSpelled(ReadFields(s, 0).value.fields);
  }

  /** The rendered text reads back as the structure, if and only if keys and
      scalars are plain, no collection is empty and no list holds a dictionary. */
  lemma RenderReadsBackExactly(t: Tree)
    requires t.Dict?
    ensures ReadYaml(Render(t, "")) == Some(t) <==> Readable(t)
  {
    hide ReadYaml, Render, Readable, Spelled;
    if Readable(t) { ReadableSpelled(t); }
    if ReadYaml(Render(t, "")) == Some(t) { YamlSpelled(Render(t, "")); }
    if Spelled(t) { RootRead(t, SortedKeys(t.fields.Keys)); }
  }

  // --------------------------------------------------------- from the keys on

  /** Names are plain, and an index stands at the end at most. */
  predicate PlainPath(p: seq<string>)
  {
    p != [] && if AllDigits(p[0]) then |p| == 1 else PlainName(p[0]) && (|p| > 1 ==> PlainPath(p[1..]))
  }

  /** Readable, and lists hold scalars only. */
  predicate Tidy(t: Tree)
  {
    match t
    case Leaf(text) => Plain(text)
    case Dict(fields) => fields != map[] && forall k <- fields.Keys :: PlainName(k) && Tidy(fields[k])
    case List(items) => items != [] && forall item <- items :: item.Leaf? && Plain(item.text)
  }

  lemma TidyReadable(t: Tree)
    requires Tidy(t)
    ensures Readable(t)
  {
    match t
    case Leaf(_) =>
    case Dict(fields) => forall k | k in fields.Keys ensures Readable(fields[k]) { TidyReadable(fields[k]); }
    case List(items) =>
  }

  lemma FieldTidy(fields: map<string, Tree>, k: string, u: Tree)
    requires (Dict(fields) == EMPTY || Tidy(Dict(fields))) && PlainName(k) && Tidy(u)
    ensures Tidy(Dict(fields[k := u]))
  {
    hide PlainName;
    assert k in fields[k := u];
  }

  lemma {:induction false} PutTidy(t: Tree, p: seq<string>, v: string, ctx: Context)
    requires PlainPath(p) && Plain(v) && (t == EMPTY || Tidy(t)) && Put(t, p, v, ctx).Ok?
    requires AllDigits(p[0]) ==> ctx != AtRoot || t.List?
    ensures Tidy(Put(t, p, v, ctx).value)
    decreases |p|
  {
    hide PlainName, Plain;
    if !AllDigits(p[0]) {
      if |p| == 1 {
        FieldTidy(t.fields, p[0], Leaf(v));
      } else {
        var child := if p[0] in t.fields then t.fields[p[0]] else EMPTY;
        PutTidy(child, p[1..], v, UnderDict);
        FieldTidy(t.fields, p[0], Put(child, p[1..], v, UnderDict).value);
      }
    }
  }

  lemma {:induction false} BuildTidy(items: seq<Item>)
    requires forall it <- items :: it.path != [] && PlainPath(it.path) && !AllDigits(it.path[0]) && Plain(it.value)
    requires items != [] && Build(items).Ok?
    ensures Tidy(Build(items).value)
    decreases |items|
  {
    hide Put, PlainPath, Plain, Tidy;
    var n := |items| - 1;
    if n > 0 { BuildTidy(items[..n]); } else { assert items[..n] == []; }
    assert items[n] in items;
    PutTidy(Build(items[..n]).value, items[n].path, items[n].value, AtRoot);
  }

  /** Every index on the way is followed by a name. */
  predicate Inner(p: seq<string>)
  {
    forall i :: 0 <= i < |p| && AllDigits(p[i]) ==> i + 1 < |p| && !AllDigits(p[i + 1])
  }

  /** In a readable structure such a way leads over plain names only. */
  lemma {:induction false} LookupReadable(t: Tree, p: seq<string>)
    requires Readable(t) && Inner(p) && Lookup(t, p).Some?
    ensures Readable(Lookup(t, p).value)
    ensures forall i :: 0 <= i < |p| ==> !AllDigits(p[i]) && PlainName(p[i])
    decreases |p|
  {
    hide PlainName, Plain;
    if p != [] && !AllDigits(p[0]) {
      assert forall i :: 0 <= i < |p| - 1 ==> p[1..][i] == p[i + 1];
      LookupReadable(t.fields[p[0]], p[1..]);
      assert forall i :: 1 <= i < |p| ==> p[i] == p[1..][i - 1];
    }
  }

  lemma {:induction false} PlainPathIs(p: seq<string>)
    requires p != []
    ensures PlainPath(p) <==> forall i :: 0 <= i < |p| ==> if AllDigits(p[i]) then i == |p| - 1 else PlainName(p[i])
  {
    hide PlainName, AllDigits;
    if |p| > 1 {
      PlainPathIs(p[1..]);
      assert forall i :: 1 <= i < |p| ==> p[i] == p[1..][i - 1];
      assert forall i :: 0 <= i < |p| - 1 ==> p[1..][i] == p[i + 1];
    }
  }

  /** What a readable structure says of a key whose value it holds. */
  lemma NameKey(t: Tree, p: seq<string>, v: string)
    requires p != [] && Readable(t) && YamlExact.Spaced(p) && !AllDigits(Last(p)) && Lookup(t, p) == Some(Leaf(v))
    ensures PlainPath(p) && Plain(v)
  {
    hide AllDigits, PlainName, Plain, PlainPath;
    assert Inner(p);
    LookupReadable(t, p);
    PlainPathIs(p);
  }

  lemma IndexKey(t: Tree, p: seq<string>, vs: seq<Tree>, v: string)
    requires p != [] && Readable(t) && YamlExact.Spaced(p) && AllDigits(Last(p)) && Lookup(t, Init(p)) == Some(List(vs)) && Leaf(v) in vs
    ensures PlainPath(p) && Plain(v)
  {
    hide AllDigits, PlainName, Plain, PlainPath;
    var init := Init(p);
    assert forall i :: 0 <= i < |init| ==> init[i] == p[i];
    assert Inner(init);
    LookupReadable(t, init);
    forall i | 0 <= i < |p| ensures if AllDigits(p[i]) then i == |p| - 1 else PlainName(p[i]) {
      if i < |p| - 1 { assert init[i] == p[i]; }
    }
    PlainPathIs(p);
  }

  /** The keys and values a YAML text can carry as `to_yaml` writes it. */
  predicate Writable(props: map<string, string>)
  {
    props != map[] && forall k <- props.Keys :: PlainPath(Split(k, ".")) && Plain(props[k])
  }

  lemma ReadableWritable(props: map<string, string>, k: string)
    requires Separable(props.Keys) && k in props && YamlOf(props).Ok? && Readable(YamlOf(props).value)
    ensures PlainPath(Split(k, ".")) && Plain(props[k])
  {
    hide Plain, PlainPath, AllDigits, Split, Readable, YamlOf, Lookup, YamlExact.Spaced, HeldKey;
    var t, p := YamlOf(props).value, Split(k, ".");
    SeparableHoldsAll(props);
    KeyHolds(props, t, k);
    SeparableKey(props.Keys, k);
    if EndsInIndex(p) { IndexKey(t, p, Lookup(t, Init(p)).value.items, props[k]); } else { NameKey(t, p, props[k]); }
  }

  lemma SeparableKey(keys: set<string>, k: string)
    requires Separable(keys) && k in keys
    ensures YamlExact.Spaced(Split(k, ".")) && Split(k, ".") != [] && !AllDigits(Split(k, ".")[0])
  {
  }

  lemma WritableReadable(props: map<string, string>)
    requires Separable(props.Keys) && Writable(props) && YamlOf(props).Ok?
    ensures Readable(YamlOf(props).value)
  {
    hide Plain, PlainPath, AllDigits, Readable, Build, Separable, YamlExact.Spaced, Split;
    var keys := SortedKeys(props.Keys);
    var items := KeyItems(props, keys);
    forall it | it in items ensures it.path != [] && PlainPath(it.path) && !AllDigits(it.path[0]) && Plain(it.value) {
      var i :| 0 <= i < |items| && items[i] == it;
      assert keys[i] in props.Keys;
      SeparableKey(props.Keys, keys[i]);
    }
    BuildTidy(items);
    TidyReadable(YamlOf(props).value);
  }

  lemma NothingBuilt()
    ensures YamlOf(map[]).Ok? && !Readable(YamlOf(map[]).value)
  {
    var none: map<string, string> := map[];
    assert |none.Keys| == 0;
    assert KeyItems(none, SortedKeys(none.Keys)) == [];
  }

  lemma ReadableExactly(props: map<string, string>)
    requires Separable(props.Keys) && YamlOf(props).Ok?
    ensures Readable(YamlOf(props).value) <==> Writable(props)
  {
    hide Separable, YamlOf, Readable, PlainPath, Plain, Split;
    if Writable(props) { WritableReadable(props); }
    if Readable(YamlOf(props).value) {
      if props == map[] { NothingBuilt(); }
      forall k | k in props.Keys ensures PlainPath(Split(k, ".")) && Plain(props[k]) { ReadableWritable(props, k); }
    }
  }

  /** For contents whose keys `to_yaml` keeps: the YAML text holds the structure
      that was built if and only if all names and values are plain scalars and no
      index has anything below it; for `a.0.b` it never does. */
  lemma ToYamlReadsBackExactly(content: string)
    requires Separable(Parse(content).Keys)
    ensures YamlText(content).Ok? && YamlOf(Parse(content)).Ok?
    ensures ReadYaml(YamlText(content).value) == Some(YamlOf(Parse(content)).value) <==> Writable(Parse(content))
  {
    hide Parse, Separable, YamlOf, Readable, Render, ReadYaml, Writable, HeldKey;
    var props := Parse(content);
    SeparableHoldsAll(props);
    HeldFlat(props);
    RenderReadsBackExactly(YamlOf(props).value);
    ReadableExactly(props);
  }
}
