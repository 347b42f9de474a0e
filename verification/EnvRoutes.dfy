/** Where each environment variable goes (envtoconf.py): the routing of one
    variable, and the raw files after any number of them. */
module EnvRoutes {
  import opened Wrappers
  import opened Text
  import opened Properties

  // ------------------------------------------------------------ one variable

  function LowerChar(c: char): char
  {
    if 'A' <= c <= 'Z' then (c as int + 32) as char else c
  }

  function Lower(s: string): (r: string)
    ensures |r| == |s|
    ensures forall i :: 0 <= i < |s| ==> r[i] == LowerChar(s[i])
  {
    if s == "" then "" else [LowerChar(s[0])] + Lower(s[1..])
  }

  predicate Separates(c: char)
  {
    c == '_' || c == '.'
  }

  /** The first separator from `i` on, or the end. */
  function Cut(s: string, i: nat): (r: nat)
    requires i <= |s|
    ensures i <= r <= |s| && (r < |s| ==> Separates(s[r]))
    ensures forall j :: i <= j < r ==> !Separates(s[j])
    decreases |s| - i
  {
    if i == |s| || Separates(s[i]) then i else Cut(s, i + 1)
  }

  /** `re.compile("[_\\.]").split(s)` */
  function Pieces(s: string): (parts: seq<string>)
    ensures |parts| >= 1
    decreases |s|
  {
    var i := Cut(s, 0);
    if i == |s| then [s] else [s[..i]] + Pieces(s[i + 1..])
  }

  /** Python's `s[n..]`, which is empty beyond the end. */
  function From(s: string, n: nat): string
  {
    if n <= |s| then s[n..] else ""
  }

  /** `known_formats` */
  const KNOWN_FORMATS := ["xml", "properties", "yaml", "yml", "env", "sh", "cfg", "conf"]

  predicate KnownFrom(e: string, i: nat)
    decreases |KNOWN_FORMATS| - i
  {
    i < |KNOWN_FORMATS| && (e == KNOWN_FORMATS[i] || KnownFrom(e, i + 1))
  }

  predicate KnownFormat(e: string)
  {
    KnownFrom(e, 0)
  }

  datatype Route =
    | Excluded
    | Declares(name: string, extension: string, fmt: string, configKey: string)
    | Follows

  /** The second piece of a variable's name: its extension and format, and how
      much of the variable's name stands before the configuration key. */
  datatype Second = Second(extension: string, fmt: string, length: nat)

  function ReadSecond(second: string): Second
  {
    if Contains(second, "!") then
      var splitted := Split(second, "!");
      MarkedLength(second);
      Second(splitted[0], splitted[1], |splitted[0]| + |splitted[1]| + 3)
    else Second(second, second, |second| + 2)
  }

  function RouteOf(key: string): Route
  {
    if key == "HADOOP_CONF_DIR" then Excluded
    else if |Pieces(key)| == 1 then Follows
    else
      RouteWith(key, Lower(Pieces(key)[0]), ReadSecond(Lower(Pieces(key)[1])))
  }

  function RouteWith(key: string, name: string, second: Second): Route
  {
    if KnownFormat(second.extension)
    then Declares(name, second.extension, second.fmt, Strip(From(key, |name| + second.length)))
    else Follows
  }

  lemma RouteWithRest(key: string, name: string, second: Second, r: Route)
    requires r == RouteWith(key, name, second) && r.Declares?
    ensures r.name == name && r.configKey == Strip(From(key, |name| + second.length))
  {
  }

  lemma RouteReads(key: string, first: string, second: Second)
    requires |Pieces(key)| >= 2 && first == Pieces(key)[0] && second == ReadSecond(Lower(Pieces(key)[1]))
    ensures RouteOf(key) == Excluded || RouteOf(key) == RouteWith(key, Lower(first), second)
  {
  }

  /** The configuration key is the stripped rest of the variable's name after the
      first piece and as much as the reading of the second piece takes. */
  lemma ConfigKeyRest(key: string, first: string, second: Second, r: Route, n: nat)
    requires |Pieces(key)| >= 2 && first == Pieces(key)[0] && second == ReadSecond(Lower(Pieces(key)[1]))
    requires r == RouteOf(key) && n == |first| + second.length
    ensures r.Declares? ==> r.name == Lower(first) && r.configKey == Strip(From(key, n))
  {
    hide RouteOf, Pieces, ReadSecond, Strip, From, Lower;
    RouteReads(key, first, second);
    if r.Declares? { RouteWithRest(key, Lower(first), second, r); }
    assert |Lower(first)| + second.length == n;
  }

  /** A variable with its value and where it goes. */
  datatype Variable = Variable(key: string, value: string, route: Route)

  function VariablesOf(env: map<string, string>, keys: seq<string>): (vars: seq<Variable>)
    requires forall k <- keys :: k in env
    ensures |vars| == |keys|
    ensures forall i :: 0 <= i < |keys| ==> vars[i] == Variable(keys[i], env[keys[i]], RouteOf(keys[i]))
  {
    seq(|keys|, i requires 0 <= i < |keys| => Variable(keys[i], env[keys[i]], RouteOf(keys[i])))
  }

  lemma MarkedLength(s: string)
    requires Contains(s, "!")
    ensures |Split(s, "!")| >= 2
    ensures |Split(s, "!")| == 2 ==> |Split(s, "!")[0]| + |Split(s, "!")[1]| + 1 == |s|
  {
    JoinSplit(s, "!");
    var parts := Split(s, "!");
    if |parts| == 2 {
      assert Join(parts, "!") == parts[0] + "!" + Join(parts[1..], "!");
    }
  }

  /** The first two pieces stand at the start of the text. */
  lemma FirstPieces(s: string)
    requires |Pieces(s)| >= 2
    ensures var p := Pieces(s); |p[0]| + 1 + |p[1]| <= |s| && s[..|p[0]|] == p[0] && s[|p[0]| + 1..|p[0]| + 1 + |p[1]|] == p[1]
  {
    var i := Cut(s, 0);
    FirstPiece(s);
    FirstPiece(s[i + 1..]);
    SecondPiece(s);
    Slice(s, i + 1, Cut(s[i + 1..], 0));
  }

  lemma FirstPiece(s: string)
    ensures Pieces(s)[0] == s[..Cut(s, 0)]
    ensures forall c <- Pieces(s)[0] :: !Separates(c)
  {
  }

  lemma SecondPiece(s: string)
    requires |Pieces(s)| >= 2
    ensures Cut(s, 0) < |s| && Pieces(s)[1] == Pieces(s[Cut(s, 0) + 1..])[0]
  {
  }

  lemma Slice(s: string, i: nat, n: nat)
    requires i + n <= |s|
    ensures s[i..i + n] == s[i..][..n]
  {
  }

  /** The reading takes exactly the second piece and its separators, except when
      the piece carries more than one mark. */
  lemma ConfigKeyLength(second: string)
    ensures ReadSecond(second).length == |second| + 2 <==> |Split(second, "!")| <= 2
  {
    if Contains(second, "!") {
      MarkedLength(second);
      if |Split(second, "!")| > 2 { ManyMarks(second, Split(second, "!")); }
    }
  }

  lemma ManyMarks(second: string, parts: seq<string>)
    requires parts == Split(second, "!") && |parts| > 2
    ensures |parts[0]| + |parts[1]| + 3 < |second| + 2
  {
    JoinSplit(second, "!");
    assert second == parts[0] + "!" + Join(parts[1..], "!");
    assert Join(parts[1..], "!") == parts[1] + "!" + Join(parts[1..][1..], "!");
  }

  // ---- the key is the rest of the name

  lemma AfterFirst(s: string)
    ensures |Pieces(s)[0]| == Cut(s, 0) && (|Pieces(s)| == 1 <==> Cut(s, 0) == |s|)
    ensures Cut(s, 0) < |s| ==> |Pieces(s)| == 1 + |Pieces(s[Cut(s, 0) + 1..])|
  {
  }

  /** What follows the second piece: nothing, or a separator. */
  lemma AfterSecond(s: string, n: nat)
    requires |Pieces(s)| >= 2 && n == |Pieces(s)[0]| + 1 + |Pieces(s)[1]|
    ensures n <= |s| && (|Pieces(s)| == 2 <==> n == |s|) && (n < |s| ==> Separates(s[n]))
  {
    var i := Cut(s, 0);
    AfterFirst(s);
    SecondPiece(s);
    var rest := s[i + 1..];
    AfterFirst(rest);
    assert n == i + 1 + Cut(rest, 0);
  }

  /** A key cut off too early still holds the separator, whatever is stripped. */
  lemma EarlyKey(key: string, early: nat, n: nat)
    requires early <= n < |key| && Separates(key[n])
    ensures Strip(From(key, early)) != Strip(From(key, n + 1))
  {
    var a, x := key[early..n], key[n + 1..];
    assert key[early..] == a + [key[n]] + x;
    StripLonger(a, key[n], x);
  }

  /** How long the text before the key is read to be, when the second piece has
      more than one mark. */
  lemma EarlyLength(second: string)
    requires |Split(second, "!")| > 2
    ensures ReadSecond(second).length == |Split(second, "!")[0]| + |Split(second, "!")[1]| + 3 <= |second| + 1
  {
    ManyMarks(second, Split(second, "!"));
  }

  lemma StripNothing()
    ensures Strip("") == ""
  {
  }

  /** The key read from inside the second piece on, against the exact rest. */
  lemma EarlyOrExact(key: string, first: string, second: string, n: nat, m: nat)
    requires n == |first| + 1 + |second| <= |key| && m <= |second| && key[|first| + 1..n] == second
    requires n < |key| ==> Separates(key[n])
    ensures Strip(From(key, |first| + 1 + m)) == Strip(From(key, n + 1)) <==> n == |key| && Strip(From(second, m)) == ""
  {
    if n == |key| {
      StripNothing();
      assert key[|first| + 1 + m..] == second[m..];
    } else {
      EarlyKey(key, |first| + 1 + m, n);
    }
  }

  /** Where the second piece stands, and what follows it. */
  lemma SecondPlace(key: string, first: string, second: string, n: nat)
    requires |Pieces(key)| >= 2 && first == Pieces(key)[0] && second == Pieces(key)[1] && n == |first| + 1 + |second|
    ensures n <= |key| && key[|first| + 1..n] == second && (n < |key| ==> Separates(key[n]))
    ensures |Pieces(key)| == 2 <==> n == |key|
  {
    FirstPieces(key);
    AfterSecond(key, n);
  }

  /** With more than one mark the key starts right after the second mark. */
  lemma ManyMarksKey(key: string, first: string, second: string, n: nat, m: nat)
    requires |Pieces(key)| >= 2 && first == Pieces(key)[0] && second == Pieces(key)[1] && n == |first| + 1 + |second|
    requires m <= |second|
    ensures Strip(From(key, |first| + 1 + m)) == Strip(From(key, n + 1)) <==>
            |Pieces(key)| == 2 && Strip(From(second, m)) == ""
  {
    SecondPlace(key, first, second, n);
    EarlyOrExact(key, first, second, n, m);
  }

  predicate OneMark(second: string)
  {
    |Split(Lower(second), "!")| <= 2
  }

  /** How much of the second piece stands before the end of its second mark. */
  function Marked(second: string): nat
  {
    var parts := Split(Lower(second), "!");
    if OneMark(second) then |second| else |parts[0]| + |parts[1]| + 2
  }

  lemma MarkedRead(second: string)
    ensures Marked(second) <= |second|
    ensures ReadSecond(Lower(second)).length == if OneMark(second) then |second| + 2 else Marked(second) + 1
  {
    if OneMark(second) { ConfigKeyLength(Lower(second)); } else { EarlyLength(Lower(second)); }
  }

  /** The key that starts at `start`. */
  lemma ExactOrMarked(key: string, first: string, second: string, n: nat, start: nat, one: bool, m: nat)
    requires |Pieces(key)| >= 2 && first == Pieces(key)[0] && second == Pieces(key)[1] && n == |first| + 1 + |second|
    requires m <= |second| && start == if one then n + 1 else |first| + 1 + m
    ensures Strip(From(key, start)) == Strip(From(key, n + 1)) <==>
            one || (|Pieces(key)| == 2 && Strip(From(second, m)) == "")
  {
    if !one { ManyMarksKey(key, first, second, n, m); }
  }

  /** The configuration key is the exact rest of the variable's name after its
      first two pieces and their separators, if and only if the second piece has
      at most one mark - or there is no third piece, and nothing but spaces
      follows the second mark. */
  lemma ConfigKeyExactly(key: string, first: string, second: string, n: nat, r: Route)
    requires r == RouteOf(key) && r.Declares? && |Pieces(key)| >= 2
    requires first == Pieces(key)[0] && second == Pieces(key)[1] && n == |first| + 1 + |second|
    ensures r.configKey == Strip(From(key, n + 1)) <==>
            OneMark(second) || (|Pieces(key)| == 2 && Strip(From(second, Marked(second))) == "")
  {
    var read := ReadSecond(Lower(second));
    var start := |first| + read.length;
    ConfigKeyRest(key, first, read, r, start);
    MarkedRead(second);
    ExactOrMarked(key, first, second, n, start, OneMark(second), Marked(second));
  }

  /** Names have no separators in them. */
  lemma NameDotless(key: string)
    requires RouteOf(key).Declares?
    ensures '.' !in RouteOf(key).name && KnownFormat(RouteOf(key).extension)
  {
    FirstPiece(key);
    var p := Pieces(key)[0];
    forall i | 0 <= i < |p| ensures Lower(p)[i] != '.' {
      assert p[i] in p;
    }
  }

  // ------------------------------------------------------------------- files

  function RawPath(name: string, extension: string): string
  {
    DestinationPath(name, extension) + ".raw"
  }

  function DestinationPath(name: string, extension: string): string
  {
    name + "." + extension
  }

  lemma FirstDot(n1: string, r1: string, n2: string, r2: string)
    requires '.' !in n1 && '.' !in n2 && n1 + "." + r1 == n2 + "." + r2
    ensures n1 == n2 && r1 == r2
  {
    var s := n1 + "." + r1;
    assert s[|n1|] == '.' && s[|n2|] == '.';
    assert forall i :: 0 <= i < |n1| ==> s[i] == n1[i];
    assert forall i :: 0 <= i < |n2| ==> s[i] == n2[i];
    assert s[..|n1|] == n1 && s[..|n2|] == n2;
    assert s[|n1| + 1..] == r1 && s[|n2| + 1..] == r2;
  }

  /** Different names, and different extensions, have different raw files. */
  lemma RawPathInjective(n1: string, e1: string, n2: string, e2: string)
    requires '.' !in n1 && '.' !in n2 && RawPath(n1, e1) == RawPath(n2, e2)
    ensures n1 == n2 && e1 == e2
  {
    assert n1 + "." + (e1 + ".raw") == RawPath(n1, e1) == n2 + "." + (e2 + ".raw");
    FirstDot(n1, e1 + ".raw", n2, e2 + ".raw");
    assert (e1 + ".raw")[..|e1|] == e1 && (e2 + ".raw")[..|e2|] == e2;
  }

  lemma RawTail(n1: string, e1: string, n2: string, e2: string)
    requires '.' !in n1 && '.' !in n2 && DestinationPath(n1, e1) == RawPath(n2, e2)
    ensures '.' in e1
  {
    assert n2 + "." + (e2 + ".raw") == RawPath(n2, e2);
    FirstDot(n1, e1, n2, e2 + ".raw");
    assert e1[|e2|] == '.';
  }

  /** A destination is never a raw file. */
  lemma DestinationIsNotRaw(n1: string, e1: string, n2: string, e2: string)
    requires '.' !in n1 && '.' !in n2 && '.' !in e1
    ensures DestinationPath(n1, e1) != RawPath(n2, e2)
  {
    if DestinationPath(n1, e1) == RawPath(n2, e2) { RawTail(n1, e1, n2, e2); }
  }

  // --------------------------------------------- any number of variables

  datatype Kind = Kind(extension: string, fmt: string)

  /** The configurables after one more variable. */
  function Declared(known: map<string, Kind>, route: Route): map<string, Kind>
  {
    match route
    case Declares(name, extension, fmt, _) => known[name := Kind(extension, fmt)]
    case _ => known
  }

  /** What a variable adds to the raw file of `name` and `extension`. */
  function Added(known: map<string, Kind>, v: Variable, name: string, extension: string): seq<Entry>
  {
    match v.route
    case Excluded => []
    case Declares(n, e, _, configKey) => if n == name && e == extension then [Entry(configKey, v.value)] else []
    case Follows =>
      if name in known && known[name].extension == extension && Lower(name) <= Lower(v.key)
      then [Entry(From(v.key, |name| + 1), v.value)] else []
  }

  predicate DeclaresFile(route: Route, name: string, extension: string)
  {
    route.Declares? && route.name == name && route.extension == extension
  }

  /** The first declaration of a name empties the file of its extension. */
  predicate Truncates(known: map<string, Kind>, route: Route, name: string, extension: string)
  {
    DeclaresFile(route, name, extension) && name !in known
  }

  function Content(file: Option<string>): string
  {
    match file
    case None => ""
    case Some(text) => text
  }

  function StepFile(file: Option<string>, truncated: bool, added: seq<Entry>): Option<string>
  {
    if truncated then Some(TextOf(added))
    else if added == [] then file
    else Some(Content(file) + TextOf(added))
  }

  function KnownAfter(vars: seq<Variable>, n: nat): map<string, Kind>
    requires n <= |vars|
  {
    if n == 0 then map[] else Declared(KnownAfter(vars, n - 1), vars[n - 1].route)
  }

  /** One raw file after the first `n` variables. */
  function FileAfter(vars: seq<Variable>, n: nat, name: string, extension: string, file: Option<string>): Option<string>
    requires n <= |vars|
  {
    if n == 0 then file
    else
      var known := KnownAfter(vars, n - 1);
      StepFile(FileAfter(vars, n - 1, name, extension, file),
               Truncates(known, vars[n - 1].route, name, extension), Added(known, vars[n - 1], name, extension))
  }

  // ---------------------------------------------------- the files, outright

  /** The entries routed to a file, in order. */
  function Routed(vars: seq<Variable>, n: nat, name: string, extension: string): seq<Entry>
    requires n <= |vars|
  {
    if n == 0 then []
    else Routed(vars, n - 1, name, extension) + Added(KnownAfter(vars, n - 1), vars[n - 1], name, extension)
  }

  function FirstExtension(vars: seq<Variable>, n: nat, name: string): Option<string>
    requires n <= |vars|
  {
    if n == 0 then None
    else if FirstExtension(vars, n - 1, name).Some? then FirstExtension(vars, n - 1, name)
    else
      match vars[n - 1].route
      case Declares(m, extension, _, _) => if m == name then Some(extension) else None
      case _ => None
  }

  lemma {:induction false} KnownIsDeclared(vars: seq<Variable>, n: nat, name: string)
    requires n <= |vars|
    ensures name in KnownAfter(vars, n) <==> FirstExtension(vars, n, name).Some?
  {
    if n > 0 { KnownIsDeclared(vars, n - 1, name); }
  }

  lemma RoutedKnownNext(vars: seq<Variable>, n: nat, name: string, extension: string)
    requires 0 < n <= |vars|
    requires Routed(vars, n - 1, name, extension) != [] ==> name in KnownAfter(vars, n - 1)
    requires FirstExtension(vars, n - 1, name) == Some(extension) ==> Routed(vars, n - 1, name, extension) != []
    ensures Routed(vars, n, name, extension) != [] ==> name in KnownAfter(vars, n)
    ensures FirstExtension(vars, n, name) == Some(extension) ==> Routed(vars, n, name, extension) != []
  {
  }

  lemma {:induction false} RoutedIsKnown(vars: seq<Variable>, n: nat, name: string, extension: string)
    requires n <= |vars|
    ensures Routed(vars, n, name, extension) != [] ==> name in KnownAfter(vars, n)
    ensures FirstExtension(vars, n, name) == Some(extension) ==> Routed(vars, n, name, extension) != []
  {
    if n > 0 {
      hide Routed, KnownAfter, FirstExtension;
      RoutedIsKnown(vars, n - 1, name, extension);
      RoutedKnownNext(vars, n, name, extension);
    }
  }

  lemma {:induction false} TextOfAppend(a: seq<Entry>, b: seq<Entry>)
    ensures TextOf(a + b) == TextOf(a) + TextOf(b)
  {
    if a == [] {
      assert a + b == b;
    } else {
      assert (a + b)[1..] == a[1..] + b;
      TextOfAppend(a[1..], b);
    }
  }

  /** A file that was emptied, or not, before the entries were written to it. */
  function Closed(file: Option<string>, emptied: bool, es: seq<Entry>): Option<string>
  {
    if es == [] then file else Some((if emptied then "" else Content(file)) + TextOf(es))
  }

  lemma ExtendText(file: Option<string>, emptied: bool, before: seq<Entry>, added: seq<Entry>, truncated: bool)
    requires truncated ==> before == [] && added != []
    requires emptied ==> before != []
    ensures StepFile(Closed(file, emptied, before), truncated, added) == Closed(file, emptied || truncated, before + added)
  {
    if before == [] {
      assert before + added == added;
      assert "" + TextOf(added) == TextOf(added);
    } else if added == [] {
      assert before + added == before;
    } else {
      TextOfAppend(before, added);
      var start := if emptied then "" else Content(file);
      assert |before + added| > 0;
      assert start + (TextOf(before) + TextOf(added)) == (start + TextOf(before)) + TextOf(added);
    }
  }

  lemma FirstExtensionStep(vars: seq<Variable>, n: nat, name: string, extension: string)
    requires 0 < n <= |vars|
    ensures FirstExtension(vars, n, name) == Some(extension) <==>
            FirstExtension(vars, n - 1, name) == Some(extension) ||
            Truncates(KnownAfter(vars, n - 1), vars[n - 1].route, name, extension)
  {
    KnownIsDeclared(vars, n - 1, name);
  }

  /** How one more variable changes what is routed to a file. */
  lemma RoutedStep(vars: seq<Variable>, n: nat, name: string, extension: string, added: seq<Entry>, truncated: bool)
    requires 0 < n <= |vars|
    requires added == Added(KnownAfter(vars, n - 1), vars[n - 1], name, extension)
    requires truncated == Truncates(KnownAfter(vars, n - 1), vars[n - 1].route, name, extension)
    ensures Routed(vars, n, name, extension) == Routed(vars, n - 1, name, extension) + added
    ensures truncated ==> Routed(vars, n - 1, name, extension) == [] && added != []
    ensures FirstExtension(vars, n - 1, name) == Some(extension) ==> Routed(vars, n - 1, name, extension) != []
    ensures FirstExtension(vars, n, name) == Some(extension) <==> FirstExtension(vars, n - 1, name) == Some(extension) || truncated
  {
    RoutedIsKnown(vars, n - 1, name, extension);
    FirstExtensionStep(vars, n, name, extension);
  }

  ghost predicate Explained(vars: seq<Variable>, n: nat, name: string, extension: string, file: Option<string>)
    requires n <= |vars|
  {
    FileAfter(vars, n, name, extension, file) ==
    Closed(file, FirstExtension(vars, n, name) == Some(extension), Routed(vars, n, name, extension))
  }

  lemma FileExplainedFirst(vars: seq<Variable>, name: string, extension: string, file: Option<string>)
    ensures Explained(vars, 0, name, extension, file)
  {
    assert Routed(vars, 0, name, extension) == [];
  }

  lemma {:induction false} FilesExplained(vars: seq<Variable>, n: nat, name: string, extension: string, file: Option<string>)
    requires n <= |vars|
    ensures Explained(vars, n, name, extension, file)
  {
    hide Explained;
    if n == 0 {
      FileExplainedFirst(vars, name, extension, file);
    } else {
      FilesExplained(vars, n - 1, name, extension, file);
      RawFileStep(vars, n, name, extension, file);
    }
  }

  lemma RawFileStep(vars: seq<Variable>, n: nat, name: string, extension: string, file: Option<string>)
    requires 0 < n <= |vars|
    requires Explained(vars, n - 1, name, extension, file)
    ensures Explained(vars, n, name, extension, file)
  {
    var added := Added(KnownAfter(vars, n - 1), vars[n - 1], name, extension);
    var truncated := Truncates(KnownAfter(vars, n - 1), vars[n - 1].route, name, extension);
    RoutedStep(vars, n, name, extension, added, truncated);
    ExtendText(file, FirstExtension(vars, n - 1, name) == Some(extension), Routed(vars, n - 1, name, extension), added, truncated);
  }

  /** Every raw file, for every environment and every prior content: untouched
      when nothing is routed to it; otherwise the lines of the variables routed
      to it, in order, after the prior content unless the name's first
      declaration had this extension. */
  lemma RawFileExactly(vars: seq<Variable>, n: nat, name: string, extension: string, file: Option<string>)
    requires n <= |vars|
    ensures FileAfter(vars, n, name, extension, file) ==
            Closed(file, FirstExtension(vars, n, name) == Some(extension), Routed(vars, n, name, extension))
  {
    FilesExplained(vars, n, name, extension, file);
  }

  // ------------------------------------------------- one extension per name

  predicate OneExtension(vars: seq<Variable>, name: string, extension: string)
  {
    forall v <- vars :: v.route.Declares? && v.route.name == name ==> v.route.extension == extension
  }

  lemma {:induction false} OnlyExtension(vars: seq<Variable>, n: nat, name: string, extension: string)
    requires n <= |vars| && OneExtension(vars, name, extension)
    ensures name in KnownAfter(vars, n) ==>
      KnownAfter(vars, n)[name].extension == extension && FirstExtension(vars, n, name) == Some(extension)
  {
    if n > 0 {
      OnlyExtension(vars, n - 1, name, extension);
      KnownIsDeclared(vars, n - 1, name);
      assert vars[n - 1] in vars;
    }
  }

  /** A name declared with one extension only has a raw file, and it is exactly
      the lines of the variables routed to it: no earlier content survives. */
  lemma DeclaredFileFresh(vars: seq<Variable>, name: string, extension: string, file: Option<string>)
    requires OneExtension(vars, name, extension) && name in KnownAfter(vars, |vars|)
    ensures Routed(vars, |vars|, name, extension) != []
    ensures FileAfter(vars, |vars|, name, extension, file) == Some(TextOf(Routed(vars, |vars|, name, extension)))
    ensures KnownAfter(vars, |vars|)[name].extension == extension
  {
    OnlyExtension(vars, |vars|, name, extension);
    RoutedIsKnown(vars, |vars|, name, extension);
    RawFileExactly(vars, |vars|, name, extension, file);
    assert "" + TextOf(Routed(vars, |vars|, name, extension)) == TextOf(Routed(vars, |vars|, name, extension));
  }

  /** With a second extension the earlier content of the second file survives. */
  lemma SecondExtensionKeepsStaleText(vars: seq<Variable>, name: string, extension: string, stale: string)
    requires FirstExtension(vars, |vars|, name) != Some(extension) && Routed(vars, |vars|, name, extension) != []
    ensures FileAfter(vars, |vars|, name, extension, Some(stale)) ==
            Some(stale + TextOf(Routed(vars, |vars|, name, extension)))
  {
    RawFileExactly(vars, |vars|, name, extension, Some(stale));
  }
}
