/** The compiler from environment variables to configuration files (envtoconf.py). */
module EnvToConf {
  import opened Wrappers
  import opened Text
  import opened Properties
  import opened PropertiesExact
  import opened Yaml
  import opened Transformers
  import opened EnvRoutes

  function Get(files: map<string, string>, path: string): Option<string>
  {
    if path in files then Some(files[path]) else None
  }

  /** The directory after one more variable: every raw file is as the variable's
      route says, and nothing but raw files has changed. */
  ghost predicate StepDone(before: map<string, string>, after: map<string, string>, known: map<string, Kind>, v: Variable)
  {
    && (forall name: string, extension: string :: '.' !in name ==>
          Get(after, RawPath(name, extension)) ==
          StepFile(Get(before, RawPath(name, extension)), Truncates(known, v.route, name, extension), Added(known, v, name, extension)))
    && OnlyRaw(before, after)
  }

  ghost predicate IsRaw(path: string)
  {
    exists name: string, extension: string :: '.' !in name && path == RawPath(name, extension)
  }

  ghost predicate OnlyRaw(before: map<string, string>, after: map<string, string>)
  {
    forall path :: !IsRaw(path) ==> Get(after, path) == Get(before, path)
  }

  /** The followers written so far: those of the names in `done`. */
  ghost predicate FollowersDone(before: map<string, string>, after: map<string, string>, known: map<string, Kind>, v: Variable, done: seq<string>)
  {
    && (forall name: string, extension: string :: '.' !in name ==>
          Get(after, RawPath(name, extension)) ==
          StepFile(Get(before, RawPath(name, extension)), false, if name in done then Added(known, v, name, extension) else []))
    && OnlyRaw(before, after)
  }

  lemma OneWrite(text: string, e: Entry)
    ensures text + TextOf([e]) == text + (FormatLine(e.key, e.value) + "\n")
  {
    assert [e][1..] == [];
    assert TextOf([e]) == FormatLine(e.key, e.value) + "\n" + "";
  }

  predicate Reaches(known: map<string, Kind>, v: Variable, name: string, n: string, e: string)
    requires name in known
  {
    n == name && e == known[name].extension && Lower(name) <= Lower(v.key)
  }

  /** One follower more, seen from one file. */
  lemma FollowerAt(before: Option<string>, mid: Option<string>, after: Option<string>, known: map<string, Kind>, v: Variable,
                   done: seq<string>, name: string, n: string, e: string)
    requires v.route.Follows? && name in known && name !in done
    requires mid == StepFile(before, false, if n in done then Added(known, v, n, e) else [])
    requires after == if Reaches(known, v, name, n, e) then Some(Content(mid) + TextOf([Entry(From(v.key, |name| + 1), v.value)])) else mid
    ensures after == StepFile(before, false, if n in done + [name] then Added(known, v, n, e) else [])
  {
    assert n in done + [name] <==> n in done || n == name;
  }

  lemma WriteAt(mid: map<string, string>, after: map<string, string>, known: map<string, Kind>, v: Variable, name: string, n: string, e: string)
    requires '.' !in name && name in known && '.' !in n
    requires after == if Lower(name) <= Lower(v.key)
                      then mid[RawPath(name, known[name].extension) :=
                               Content(Get(mid, RawPath(name, known[name].extension))) + TextOf([Entry(From(v.key, |name| + 1), v.value)])]
                      else mid
    ensures Get(after, RawPath(n, e)) ==
            if Reaches(known, v, name, n, e)
            then Some(Content(Get(mid, RawPath(n, e))) + TextOf([Entry(From(v.key, |name| + 1), v.value)]))
            else Get(mid, RawPath(n, e))
  {
    if RawPath(n, e) == RawPath(name, known[name].extension) {
      RawPathInjective(n, e, name, known[name].extension);
    }
  }

  /** One follower more. */
  lemma FollowerWritten(before: map<string, string>, mid: map<string, string>, after: map<string, string>,
                        known: map<string, Kind>, v: Variable, done: seq<string>, name: string)
    requires v.route.Follows? && '.' !in name && name in known && name !in done
    requires FollowersDone(before, mid, known, v, done)
    requires after == if Lower(name) <= Lower(v.key)
                      then mid[RawPath(name, known[name].extension) :=
                               Content(Get(mid, RawPath(name, known[name].extension))) + TextOf([Entry(From(v.key, |name| + 1), v.value)])]
                      else mid
    ensures FollowersDone(before, after, known, v, done + [name])
  {
    assert IsRaw(RawPath(name, known[name].extension));
    forall n: string, e: string | '.' !in n
      ensures Get(after, RawPath(n, e)) ==
              StepFile(Get(before, RawPath(n, e)), false, if n in done + [name] then Added(known, v, n, e) else [])
    {
      WriteAt(mid, after, known, v, name, n, e);
      FollowerAt(Get(before, RawPath(n, e)), Get(mid, RawPath(n, e)), Get(after, RawPath(n, e)), known, v, done, name, n, e);
    }
  }

  /** One declaration. */
  lemma DeclarationWritten(before: map<string, string>, after: map<string, string>, known: map<string, Kind>, v: Variable)
    requires v.route.Declares? && '.' !in v.route.name
    requires var path := RawPath(v.route.name, v.route.extension);
             after == before[path := (if v.route.name in known then Content(Get(before, path)) else "") +
                                     (FormatLine(v.route.configKey, v.value) + "\n")]
    ensures StepDone(before, after, known, v)
  {
    var path := RawPath(v.route.name, v.route.extension);
    assert IsRaw(path);
    forall n: string, e: string | '.' !in n
      ensures Get(after, RawPath(n, e)) ==
              StepFile(Get(before, RawPath(n, e)), Truncates(known, v.route, n, e), Added(known, v, n, e))
    {
      if RawPath(n, e) == path {
        RawPathInjective(n, e, v.route.name, v.route.extension);
        var start := if n in known then Content(Get(before, path)) else "";
        OneWrite(start, Entry(v.route.configKey, v.value));
        assert "" + TextOf([Entry(v.route.configKey, v.value)]) == TextOf([Entry(v.route.configKey, v.value)]);
      }
    }
  }

  class Simple {
    /** `configurables`, a dictionary, and the order of its keys. */
    var configurables: map<string, Kind>
    var order: seq<string>
    /** The destination directory. */
    var files: map<string, string>
    /** The formats reported as having no transformer. */
    var reported: seq<string>

    ghost predicate Valid()
      reads this
    {
      && (forall name :: name in order <==> name in configurables)
      && (forall i, j :: 0 <= i < j < |order| ==> order[i] != order[j])
      && (forall name <- order :: '.' !in name)
    }

    constructor (directory: map<string, string>)
      ensures Valid() && configurables == map[] && files == directory && reported == []
    {
      configurables, order, files, reported := map[], [], directory, [];
    }

    /** `write_env_var` */
    method WriteEnvVar(name: string, extension: string, key: string, value: string)
      modifies this`files
      ensures files == old(files)[RawPath(name, extension) :=
                Content(Get(old(files), RawPath(name, extension))) + (FormatLine(key, value) + "\n")]
    {
      var path := RawPath(name, extension);
      files := files[path := Content(Get(files, path)) + (key + ": " + value + "\n")];
    }

    method WriteFollower(v: Variable, name: string)
      requires name in configurables
      modifies this`files
      ensures files == if Lower(name) <= Lower(v.key)
                       then old(files)[RawPath(name, configurables[name].extension) :=
                              Content(Get(old(files), RawPath(name, configurables[name].extension))) +
                              TextOf([Entry(From(v.key, |name| + 1), v.value)])]
                       else old(files)
    {
      if Lower(name) <= Lower(v.key) {
        OneWrite(Content(Get(files, RawPath(name, configurables[name].extension))), Entry(From(v.key, |name| + 1), v.value));
        WriteEnvVar(name, configurables[name].extension, From(v.key, |name| + 1), v.value);
      }
    }

    /** The loop over the configurables for a variable that declares nothing. */
    method WriteFollowers(v: Variable)
      requires Valid() && v.route.Follows?
      modifies this`files
      ensures StepDone(old(files), files, configurables, v)
    {
      for j := 0 to |order|
        invariant FollowersDone(old(files), files, configurables, v, order[..j])
      {
        assert order[j] !in order[..j] && order[j] in order;
        ghost var mid := files;
        WriteFollower(v, order[j]);
        FollowerWritten(old(files), mid, files, configurables, v, order[..j], order[j]);
        assert order[..j + 1] == order[..j] + [order[j]];
      }
      assert order[..|order|] == order;
    }

    method WriteDeclaration(v: Variable)
      requires Valid() && v.route.Declares? && '.' !in v.route.name
      modifies this`files, this`configurables, this`order
      ensures Valid() && configurables == Declared(old(configurables), v.route)
      ensures StepDone(old(files), files, old(configurables), v)
    {
      var name, extension := v.route.name, v.route.extension;
      if name !in configurables {
        files := files[RawPath(name, extension) := ""];
        order := order + [name];
      }
      configurables := configurables[name := Kind(extension, v.route.fmt)];
      WriteEnvVar(name, extension, v.route.configKey, v.value);
      DeclarationWritten(old(files), files, old(configurables), v);
    }

    /** The body of the loop in `process_envs`. */
    method ProcessVariable(v: Variable)
      requires Valid() && (v.route.Declares? ==> '.' !in v.route.name)
      modifies this`files, this`configurables, this`order
      ensures Valid() && configurables == Declared(old(configurables), v.route)
      ensures StepDone(old(files), files, old(configurables), v)
    {
      match v.route
      case Excluded =>
      case Declares(_, _, _, _) => WriteDeclaration(v);
      case Follows => WriteFollowers(v);
    }

    /** `process_envs`: each raw file is the one the variables in order lead to,
        and no other file is touched. */
    method ProcessEnvs(env: map<string, string>)
      requires Valid() && configurables == map[]
      modifies this`files, this`configurables, this`order
      ensures Valid() && AllProcessed(env, old(files), files, configurables)
    {
      var keys := SortKeys(env.Keys);
      ghost var vars := VariablesOf(env, keys);
      for i := 0 to |keys|
        invariant Valid() && configurables == KnownAfter(vars, i)
        invariant RunDone(vars, i, old(files), files)
      {
        var v := Variable(keys[i], env[keys[i]], RouteOf(keys[i]));
        if v.route.Declares? { NameDotless(v.key); }
        ghost var mid := files;
        ProcessVariable(v);
        RunStep(vars, i, old(files), mid, files);
      }
    }

    /** The body of the loop in `transform`; the result tells whether an
        exception ends the loop. */
    method TransformName(name: string) returns (raised: Option<YamlError>)
      requires name in configurables
      modifies this`files, this`reported
      ensures Output(files, reported, raised) == TransformOne(configurables, name, Output(old(files), old(reported), None))
    {
      raised := None;
      var kind := configurables[name];
      var path := DestinationPath(name, kind.extension);
      if path + ".raw" in files {
        var r := TransformContent(kind.fmt, LineEnds(files[path + ".raw"]));
        match r
        case Ok(text) => files := files[path := text];
        case Err(AttributeError) => reported := reported + [kind.fmt];
        case Err(TypeError) => raised := Some(TypeError);
      }
    }

    /** The loop over the sorted names; an exception ends it. */
    method TransformNames(names: seq<string>) returns (raised: Option<YamlError>)
      requires forall name <- names :: name in configurables
      modifies this`files, this`reported
      ensures Output(files, reported, raised) ==
              TransformRun(configurables, names, |names|, Output(old(files), old(reported), None))
    {
      ghost var start := Output(files, reported, None);
      raised := None;
      var i := 0;
      while i < |names| && raised.None?
        invariant 0 <= i <= |names|
        invariant Output(files, reported, raised) == TransformRun(configurables, names, i, start)
      {
        assert names[i] in names;
        raised := TransformName(names[i]);
        i := i + 1;
      }
      if i < |names| { RaisedStays(configurables, names, i, start); }
    }

    /** `transform` */
    method Transform() returns (raised: Option<YamlError>)
      requires Valid()
      modifies this`files, this`reported
      ensures Output(files, reported, raised) == TransformAll(configurables, Output(old(files), old(reported), None))
    {
      var names := SortKeys(configurables.Keys);
      raised := TransformNames(names);
    }

    /** `main` */
    method CompileAll(env: map<string, string>) returns (raised: Option<YamlError>)
      requires Valid() && configurables == map[] && reported == []
      modifies this
      ensures exists mid :: AllProcessed(env, old(files), mid, configurables) &&
                            Output(files, reported, raised) == TransformAll(configurables, Output(mid, [], None))
    {
      ProcessEnvs(env);
      ghost var mid := files;
      raised := Transform();
    }
  }

  ghost predicate RunDone(vars: seq<Variable>, n: nat, before: map<string, string>, after: map<string, string>)
    requires n <= |vars|
  {
    && (forall name: string, extension: string :: '.' !in name ==>
          Get(after, RawPath(name, extension)) == FileAfter(vars, n, name, extension, Get(before, RawPath(name, extension))))
    && OnlyRaw(before, after)
  }

  lemma RunStep(vars: seq<Variable>, n: nat, before: map<string, string>, mid: map<string, string>, after: map<string, string>)
    requires n < |vars| && RunDone(vars, n, before, mid) && StepDone(mid, after, KnownAfter(vars, n), vars[n])
    ensures RunDone(vars, n + 1, before, after)
  {
    forall name: string, extension: string | '.' !in name
      ensures Get(after, RawPath(name, extension)) == FileAfter(vars, n + 1, name, extension, Get(before, RawPath(name, extension)))
    {
    }
    forall path | !IsRaw(path) ensures Get(after, path) == Get(before, path) {
      assert Get(after, path) == Get(mid, path);
    }
  }

  /** The variables in the order `process_envs` takes them. */
  ghost function SortedVariables(env: map<string, string>): seq<Variable>
  {
    VariablesOf(env, SortedKeys(env.Keys))
  }

  ghost predicate AllProcessed(env: map<string, string>, before: map<string, string>, after: map<string, string>, configurables: map<string, Kind>)
  {
    var vars := SortedVariables(env);
    configurables == KnownAfter(vars, |vars|) && RunDone(vars, |vars|, before, after)
  }

  // ---------------------------------------------------------------- transform

  datatype Output = Output(files: map<string, string>, reported: seq<string>, raised: Option<YamlError>)

  ghost function TransformOne(known: map<string, Kind>, name: string, s: Output): Output
    requires name in known
  {
    var kind := known[name];
    var raw := RawPath(name, kind.extension);
    if raw !in s.files then s
    else
      match Transformed(kind.fmt, LineEnds(s.files[raw]))
      case Ok(text) => s.(files := s.files[DestinationPath(name, kind.extension) := text])
      case Err(AttributeError) => s.(reported := s.reported + [kind.fmt])
      case Err(TypeError) => s.(raised := Some(TypeError))
  }

  ghost function TransformRun(known: map<string, Kind>, names: seq<string>, n: nat, start: Output): Output
    requires n <= |names| && forall name <- names :: name in known
  {
    if n == 0 then start
    else
      var s := TransformRun(known, names, n - 1, start);
      if s.raised.Some? then s else TransformOne(known, names[n - 1], s)
  }

  ghost function TransformAll(known: map<string, Kind>, start: Output): Output
  {
    var names := SortedKeys(known.Keys);
    TransformRun(known, names, |names|, start)
  }

  lemma {:induction false} RaisedStays(known: map<string, Kind>, names: seq<string>, n: nat, start: Output)
    requires n <= |names| && forall name <- names :: name in known
    requires TransformRun(known, names, n, start).raised.Some?
    ensures TransformRun(known, names, |names|, start) == TransformRun(known, names, n, start)
    decreases |names| - n
  {
    if n < |names| { RaisedStays(known, names, n + 1, start); }
  }

  /** Neither names nor extensions have dots in them. */
  predicate Dotless(known: map<string, Kind>)
  {
    forall name <- known.Keys :: '.' !in name && '.' !in known[name].extension
  }

  lemma {:induction false} FormatDotless(e: string, i: nat)
    requires KnownFrom(e, i)
    ensures '.' !in e
    decreases |KNOWN_FORMATS| - i
  {
    if e != KNOWN_FORMATS[i] { FormatDotless(e, i + 1); }
  }

  predicate DotlessRoute(route: Route)
  {
    route.Declares? ==> '.' !in route.name && '.' !in route.extension
  }

  lemma RouteDotless(key: string)
    ensures DotlessRoute(RouteOf(key))
  {
    if RouteOf(key).Declares? {
      NameDotless(key);
      FormatDotless(RouteOf(key).extension, 0);
    }
  }

  lemma {:induction false} KnownDotless(vars: seq<Variable>, n: nat)
    requires n <= |vars| && forall v <- vars :: DotlessRoute(v.route)
    ensures Dotless(KnownAfter(vars, n))
  {
    if n > 0 {
      KnownDotless(vars, n - 1);
      assert vars[n - 1] in vars;
    }
  }

  lemma SortedVariablesDotless(env: map<string, string>)
    ensures forall v <- SortedVariables(env) :: DotlessRoute(v.route)
  {
    forall v | v in SortedVariables(env) ensures DotlessRoute(v.route) {
      RouteDotless(v.key);
    }
  }

  lemma OneKeepsOthers(known: map<string, Kind>, name: string, s: Output, path: string)
    requires name in known && path != DestinationPath(name, known[name].extension)
    ensures Get(TransformOne(known, name, s).files, path) == Get(s.files, path)
  {
  }

  /** Raw files are only read. */
  lemma {:induction false} RawKept(known: map<string, Kind>, names: seq<string>, n: nat, start: Output, name: string, extension: string)
    requires n <= |names| && (forall m <- names :: m in known) && Dotless(known) && '.' !in name
    ensures Get(TransformRun(known, names, n, start).files, RawPath(name, extension)) == Get(start.files, RawPath(name, extension))
  {
    if n > 0 {
      RawKept(known, names, n - 1, start, name, extension);
      DestinationIsNotRaw(names[n - 1], known[names[n - 1]].extension, name, extension);
      OneKeepsOthers(known, names[n - 1], TransformRun(known, names, n - 1, start), RawPath(name, extension));
    }
  }

  /** A run changes no destination but those of the names it comes past. */
  lemma {:induction false} OthersKept(known: map<string, Kind>, names: seq<string>, i: nat, n: nat, start: Output, name: string)
    requires i <= n <= |names| && (forall m <- names :: m in known) && Dotless(known) && name in known
    requires forall j :: i <= j < n ==> names[j] != name
    ensures Get(TransformRun(known, names, n, start).files, DestinationPath(name, known[name].extension)) ==
            Get(TransformRun(known, names, i, start).files, DestinationPath(name, known[name].extension))
    decreases n
  {
    if i < n {
      OthersKept(known, names, i, n - 1, start, name);
      var m := names[n - 1];
      if DestinationPath(m, known[m].extension) == DestinationPath(name, known[name].extension) {
        FirstDot(m, known[m].extension, name, known[name].extension);
      }
      OneKeepsOthers(known, m, TransformRun(known, names, n - 1, start), DestinationPath(name, known[name].extension));
    }
  }

  lemma OneTransforms(known: map<string, Kind>, name: string, s: Output)
    requires name in known && RawPath(name, known[name].extension) in s.files && s.raised.None?
    requires TransformOne(known, name, s).raised.None?
    ensures var kind := known[name];
            var r := Transformed(kind.fmt, LineEnds(s.files[RawPath(name, kind.extension)]));
            if r.Ok? then Get(TransformOne(known, name, s).files, DestinationPath(name, kind.extension)) == Some(r.value)
            else Get(TransformOne(known, name, s).files, DestinationPath(name, kind.extension)) ==
                 Get(s.files, DestinationPath(name, kind.extension))
  {
  }

  /** What the destination of a name holds after the run has come past it. */
  ghost predicate Arrived(known: map<string, Kind>, start: Output, end: Output, name: string)
    requires name in known
  {
    var kind := known[name];
    var raw := RawPath(name, kind.extension);
    raw in start.files ==>
    var r := Transformed(kind.fmt, LineEnds(start.files[raw]));
    Get(end.files, DestinationPath(name, kind.extension)) ==
    if r.Ok? then Some(r.value) else Get(start.files, DestinationPath(name, kind.extension))
  }

  lemma NowArrives(known: map<string, Kind>, names: seq<string>, n: nat, start: Output)
    requires n < |names| && (forall m <- names :: m in known) && Dotless(known)
    requires forall j :: 0 <= j < n ==> names[j] != names[n]
    requires TransformRun(known, names, n, start).raised.None? && TransformRun(known, names, n + 1, start).raised.None?
    ensures Arrived(known, start, TransformRun(known, names, n + 1, start), names[n])
  {
    var name := names[n];
    var kind := known[name];
    RawKept(known, names, n, start, name, kind.extension);
    OthersKept(known, names, 0, n, start, name);
    if RawPath(name, kind.extension) in start.files {
      OneTransforms(known, name, TransformRun(known, names, n, start));
    }
  }

  lemma {:induction false} QuietBefore(known: map<string, Kind>, names: seq<string>, i: nat, n: nat, start: Output)
    requires i <= n <= |names| && (forall m <- names :: m in known) && TransformRun(known, names, n, start).raised.None?
    ensures TransformRun(known, names, i, start).raised.None?
    decreases n
  {
    if i < n { QuietBefore(known, names, i, n - 1, start); }
  }

  lemma SortedDistinct(keys: set<string>)
    ensures Distinct(SortedKeys(keys))
  {
    var names := SortedKeys(keys);
    forall a, b | 0 <= a < b < |names| ensures names[a] != names[b] { LessTrichotomy(names[a], names[b]); }
  }

  lemma StillArrived(known: map<string, Kind>, start: Output, mid: Output, end: Output, name: string)
    requires name in known && Arrived(known, start, mid, name)
    requires Get(end.files, DestinationPath(name, known[name].extension)) == Get(mid.files, DestinationPath(name, known[name].extension))
    ensures Arrived(known, start, end, name)
  {
  }

  predicate Distinct(names: seq<string>)
  {
    forall a, b :: 0 <= a < b < |names| ==> names[a] != names[b]
  }

  lemma QuietAt(known: map<string, Kind>, names: seq<string>, i: nat, start: Output, at: Output, end: Output)
    requires i <= |names| && (forall m <- names :: m in known)
    requires at == TransformRun(known, names, i, start) && end == TransformRun(known, names, |names|, start) && end.raised.None?
    ensures at.raised.None?
  {
    QuietBefore(known, names, i, |names|, start);
  }

  lemma ArrivesFirst(known: map<string, Kind>, names: seq<string>, i: nat, start: Output, before: Output, mid: Output)
    requires i < |names| && (forall m <- names :: m in known) && Dotless(known) && Distinct(names)
    requires before == TransformRun(known, names, i, start) && before.raised.None?
    requires mid == TransformRun(known, names, i + 1, start) && mid.raised.None?
    ensures Arrived(known, start, mid, names[i])
  {
    NowArrives(known, names, i, start);
  }

  lemma KeptLater(known: map<string, Kind>, names: seq<string>, i: nat, start: Output, name: string)
    requires i < |names| && name == names[i] && (forall m <- names :: m in known) && Dotless(known) && Distinct(names)
    ensures Get(TransformRun(known, names, |names|, start).files, DestinationPath(name, known[name].extension)) ==
            Get(TransformRun(known, names, i + 1, start).files, DestinationPath(name, known[name].extension))
  {
    OthersKept(known, names, i + 1, |names|, start, name);
  }

  lemma ArrivesAt(known: map<string, Kind>, names: seq<string>, i: nat, start: Output, name: string,
                  before: Output, mid: Output, end: Output)
    requires i < |names| && name == names[i] && (forall m <- names :: m in known) && Dotless(known) && Distinct(names)
    requires before == TransformRun(known, names, i, start) && mid == TransformRun(known, names, i + 1, start)
    requires end == TransformRun(known, names, |names|, start) && end.raised.None?
    ensures Arrived(known, start, end, name)
  {
    QuietAt(known, names, i, start, before, end);
    QuietAt(known, names, i + 1, start, mid, end);
    ArrivesFirst(known, names, i, start, before, mid);
    KeptLater(known, names, i, start, name);
    StillArrived(known, start, mid, end, name);
  }

  /** A run that raises nothing has brought every name's raw file, transformed,
      to its destination, whatever was there; only a format without transformer
      leaves the destination alone. */
  lemma TransformArrives(known: map<string, Kind>, start: Output, name: string)
    requires Dotless(known) && name in known && TransformAll(known, start).raised.None?
    ensures Arrived(known, start, TransformAll(known, start), name)
  {
    var names := SortedKeys(known.Keys);
    assert name in names;
    var i :| 0 <= i < |names| && names[i] == name;
    SortedDistinct(known.Keys);
    ArrivesAt(known, names, i, start, name, TransformRun(known, names, i, start), TransformRun(known, names, i + 1, start),
              TransformAll(known, start));
  }

  // --------------------------------------------------------------- end to end

  lemma {:induction false} LastWinsFrom(es: seq<Entry>, k: string)
    requires k in LastWins(es)
    ensures Entry(k, LastWins(es)[k]) in es
    decreases |es|
  {
    var n := |es| - 1;
    if es[n].key == k {
      assert es[n] == Entry(k, LastWins(es)[k]);
    } else {
      LastWinsFrom(es[..n], k);
    }
  }

  /** What a text of printable entries is transformed into: read back from the
      properties format it is the dictionary of the last values. */
  lemma TransformedEntries(es: seq<Entry>)
    requires forall e <- es :: Printable(e.key, e.value)
    ensures Parse(TextOf(es)) == LastWins(es)
    ensures Parse(Print(Parse(TextOf(es)))) == LastWins(es)
  {
    ParseEntries(es);
    forall k | k in LastWins(es) ensures Printable(k, LastWins(es)[k]) {
      LastWinsFrom(es, k);
    }
    RoundTrip(LastWins(es));
  }

  /** From the environment to the destination file, for a name declared with one
      extension: the raw file holds exactly the routed variables, whatever the
      directory held before; the destination holds what the format's printer
      makes of them, with every line end read as an LF. */
  lemma EndToEnd(env: map<string, string>, before: map<string, string>, mid: map<string, string>, known: map<string, Kind>, name: string)
    requires AllProcessed(env, before, mid, known) && name in known
    requires OneExtension(SortedVariables(env), name, known[name].extension)
    requires TransformAll(known, Output(mid, [], None)).raised.None?
    ensures var vars := SortedVariables(env);
            var kind := known[name];
            var text := TextOf(Routed(vars, |vars|, name, kind.extension));
            var end := TransformAll(known, Output(mid, [], None)).files;
            && Get(end, RawPath(name, kind.extension)) == Some(text)
            && (Transformed(kind.fmt, LineEnds(text)).Ok? ==>
                  Get(end, DestinationPath(name, kind.extension)) == Some(Transformed(kind.fmt, LineEnds(text)).value))
  {
    var vars := SortedVariables(env);
    var kind := known[name];
    SortedVariablesDotless(env);
    KnownDotless(vars, |vars|);
    DeclaredFileFresh(vars, name, kind.extension, Get(before, RawPath(name, kind.extension)));
    TransformArrives(known, Output(mid, [], None), name);
    var names := SortedKeys(known.Keys);
    RawKept(known, names, |names|, Output(mid, [], None), name, kind.extension);
  }

  /** An entry without CR, which reading the file back would turn into an LF. */
  predicate OneLineEnd(e: Entry)
  {
    '\r' !in e.key && '\r' !in e.value
  }

  lemma {:induction false} TextLineEnds(es: seq<Entry>)
    requires forall e <- es :: OneLineEnd(e)
    ensures '\r' !in TextOf(es)
  {
    if es != [] {
      TextLineEnds(es[1..]);
      LineWithout(es[0]);
    }
  }

  lemma LineWithout(e: Entry)
    requires OneLineEnd(e)
    ensures '\r' !in FormatLine(e.key, e.value) + "\n"
  {
    assert '\r' !in ": ";
  }

  /** No entry that holds a CR is replaced by a later one. */
  predicate ReturnsLast(es: seq<Entry>)
  {
    forall i, j :: 0 <= i < j < |es| && es[i].key == es[j].key ==> OneLineEnd(es[i])
  }

  lemma {:induction false} LastWinsAt(es: seq<Entry>, i: nat)
    requires i < |es| && forall j :: i < j < |es| ==> es[j].key != es[i].key
    ensures es[i].key in LastWins(es) && LastWins(es)[es[i].key] == es[i].value
    decreases |es|
  {
    if i < |es| - 1 { LastWinsAt(es[..|es| - 1], i); }
  }

  lemma PrintedWithout(m: map<string, string>)
    requires forall k <- m.Keys :: OneLineEnd(Entry(k, m[k]))
    ensures '\r' !in Print(m)
  {
    var keys := SortedKeys(m.Keys);
    PrintIsText(m, keys);
    forall e | e in EntriesOf(m, keys) ensures OneLineEnd(e) {
      var i :| 0 <= i < |keys| && EntriesOf(m, keys)[i] == e;
      assert keys[i] in keys;
    }
    TextLineEnds(EntriesOf(m, keys));
  }

  /** What is read back from a destination never holds a CR. */
  lemma ReadBackWithout(raw: string, k: string)
    requires k in Parse(Print(Parse(LineEnds(raw))))
    ensures OneLineEnd(Entry(k, Parse(Print(Parse(LineEnds(raw))))[k]))
  {
    var m := Parse(LineEnds(raw));
    LineEndsExactly(raw);
    forall x | x in m.Keys ensures OneLineEnd(Entry(x, m[x])) { ParsedWithout(LineEnds(raw), x, '\r'); }
    PrintedWithout(m);
    ParsedWithout(Print(m), k, '\r');
  }

  /** Whatever the entries: if the destination reads back as their last values,
      none of these holds a CR. */
  lemma ReturnNeverReadBack(es: seq<Entry>, k: string)
    requires Parse(Print(Parse(LineEnds(TextOf(es))))) == LastWins(es) && k in LastWins(es)
    ensures OneLineEnd(Entry(k, LastWins(es)[k]))
  {
    ReadBackWithout(TextOf(es), k);
  }

  lemma ReadBackOneLineEnd(es: seq<Entry>, i: nat)
    requires ReturnsLast(es) && Parse(Print(Parse(LineEnds(TextOf(es))))) == LastWins(es) && i < |es|
    ensures OneLineEnd(es[i])
  {
    if forall j :: i < j < |es| ==> es[j].key != es[i].key {
      LastWinsAt(es, i);
      ReturnNeverReadBack(es, es[i].key);
      assert es[i] == Entry(es[i].key, es[i].value);
    }
  }

  lemma ReadBackExactly(es: seq<Entry>)
    requires (forall e <- es :: Printable(e.key, e.value)) && ReturnsLast(es)
    ensures Parse(Print(Parse(LineEnds(TextOf(es))))) == LastWins(es) <==> forall e <- es :: OneLineEnd(e)
  {
    if forall e <- es :: OneLineEnd(e) {
      TextLineEnds(es);
      LineEndsExactly(TextOf(es));
      TransformedEntries(es);
    }
    if Parse(Print(Parse(LineEnds(TextOf(es))))) == LastWins(es) {
      forall e | e in es ensures OneLineEnd(e) {
        var i :| 0 <= i < |es| && es[i] == e;
        ReadBackOneLineEnd(es, i);
      }
    }
  }

  /** The shortest such entry: printable on its line, and not read back. */
  lemma ReturnLost()
    ensures var es := [Entry("a", "x\ry")];
            Printable(es[0].key, es[0].value) && Parse(Print(Parse(LineEnds(TextOf(es))))) != LastWins(es)
  {
    hide Parse, Print, LineEnds, TextOf, LastWins;
    var es := [Entry("a", "x\ry")];
    ShortPrintable();
    assert es[0].value[1] in es[0].value;
    ReadBackExactly(es);
    assert es[0] in es;
  }

  lemma ShortPrintable()
    ensures Printable("a", "x\ry")
  {
    IndexOfFirst("a", SEP);
  }

  /** In the properties format, for printable entries of which none with a CR is
      replaced by a later one: the destination reads back as the last value of
      every routed configuration key if and only if no entry holds a CR. */
  lemma PropertiesCompiled(env: map<string, string>, before: map<string, string>, mid: map<string, string>, known: map<string, Kind>, name: string)
    requires AllProcessed(env, before, mid, known) && name in known && known[name].fmt == "properties"
    requires OneExtension(SortedVariables(env), name, known[name].extension)
    requires TransformAll(known, Output(mid, [], None)).raised.None?
    requires var routed := Routed(SortedVariables(env), |SortedVariables(env)|, name, known[name].extension);
             (forall e <- routed :: Printable(e.key, e.value)) && ReturnsLast(routed)
    ensures var file := Get(TransformAll(known, Output(mid, [], None)).files, DestinationPath(name, known[name].extension));
            var routed := Routed(SortedVariables(env), |SortedVariables(env)|, name, known[name].extension);
            file.Some? && (Parse(file.value) == LastWins(routed) <==> forall e <- routed :: OneLineEnd(e))
  {
    var routed := Routed(SortedVariables(env), |SortedVariables(env)|, name, known[name].extension);
    EndToEnd(env, before, mid, known, name);
    PropertiesPrinted(known[name].fmt, LineEnds(TextOf(routed)));
    ReadBackExactly(routed);
  }

  lemma PropertiesPrinted(fmt: string, content: string)
    requires fmt == "properties"
    ensures Transformed(fmt, content) == Ok(Print(Parse(content)))
  {
    hide Print, Parse;
  }
}
