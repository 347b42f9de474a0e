/** The printers of transformation.py, and the choice among them by format. */
module Transformers {
  import opened Wrappers
  import opened Text
  import opened Properties
  import opened Yaml
  import opened YamlBuild

  // --------------------------------------------------------------- rendering

  /** `render_yaml`: fields in key order, items in list order. */
  ghost function Render(t: Tree, prefix: string): string
    decreases t, 1, 0
  {
    match t
    case Leaf(text) => text + "\n"
    case Dict(fields) => (if prefix != "" then "\n" else "") + RenderFields(t, SortedKeys(fields.Keys), 0, prefix)
    case List(items) => "\n" + RenderItems(t, 0, prefix)
  }

  ghost function RenderFields(t: Tree, keys: seq<string>, i: nat, prefix: string): string
    requires t.Dict? && i <= |keys| && forall k <- keys :: k in t.fields
    decreases t, 0, |keys| - i
  {
    if i == |keys| then ""
    else prefix + keys[i] + ": " + Render(t.fields[keys[i]], prefix + "   ") + RenderFields(t, keys, i + 1, prefix)
  }

  ghost function RenderItems(t: Tree, i: nat, prefix: string): string
    requires t.List? && i <= |t.items|
    decreases t, 0, |t.items| - i
  {
    if i == |t.items| then ""
    else prefix + " - " + Render(t.items[i], prefix + " ") + RenderItems(t, i + 1, prefix)
  }

  lemma FieldsMove(t: Tree, keys: seq<string>, i: nat, prefix: string, text: string)
    requires t.Dict? && (forall k <- keys :: k in t.fields) && i < |keys|
    ensures text + RenderFields(t, keys, i, prefix) ==
            text + (prefix + keys[i] + ": " + Render(t.fields[keys[i]], prefix + "   ")) + RenderFields(t, keys, i + 1, prefix)
  {
  }

  lemma ItemsMove(t: Tree, i: nat, prefix: string, text: string)
    requires t.List? && i < |t.items|
    ensures text + RenderItems(t, i, prefix) ==
            text + (prefix + " - " + Render(t.items[i], prefix + " ")) + RenderItems(t, i + 1, prefix)
  {
  }

  method RenderYaml(t: Tree, prefix: string) returns (result: string)
    ensures result == Render(t, prefix)
    decreases t
  {
    result := "";
    match t
    case Leaf(text) =>
      result := text + "\n";
    case Dict(fields) =>
      if prefix != "" { result := "\n"; }
      ghost var start := result;
      var keys := SortKeys(fields.Keys);
      for i := 0 to |keys|
        invariant result + RenderFields(t, keys, i, prefix) == start + RenderFields(t, keys, 0, prefix)
      {
        hide Render, RenderFields;
        var below := RenderYaml(fields[keys[i]], prefix + "   ");
        FieldsMove(t, keys, i, prefix, result);
        result := result + (prefix + keys[i] + ": " + below);
      }
    case List(items) =>
      result := "\n";
      for i := 0 to |items|
        invariant result + RenderItems(t, i, prefix) == "\n" + RenderItems(t, 0, prefix)
      {
        hide Render, RenderItems;
        var below := RenderYaml(items[i], prefix + " ");
        ItemsMove(t, i, prefix, result);
        result := result + (prefix + " - " + below);
      }
  }

  // ---------------------------------------------------- undotted keys in YAML

  predicate Flat(props: map<string, string>)
  {
    forall k <- props.Keys :: '.' !in k && !AllDigits(k)
  }

  /** The structure after the given keys: one string for each. */
  function FlatTree(props: map<string, string>, keys: seq<string>): Tree
    requires forall k <- keys :: k in props
  {
    Dict(map k | k in keys :: Leaf(props[k]))
  }

  lemma FlatPut(props: map<string, string>, keys: seq<string>, n: nat)
    requires Flat(props) && n < |keys| && forall k <- keys :: k in props
    ensures Put(FlatTree(props, keys[..n]), Split(keys[n], "."), props[keys[n]], AtRoot) == Ok(FlatTree(props, keys[..n + 1]))
  {
    ContainsChar(keys[n], '.');
    assert keys[..n + 1] == keys[..n] + [keys[n]];
    assert FlatTree(props, keys[..n]).fields[keys[n] := Leaf(props[keys[n]])] == FlatTree(props, keys[..n + 1]).fields;
  }

  lemma {:induction false} FlatBuild(props: map<string, string>, keys: seq<string>, n: nat)
    requires Flat(props) && n <= |keys| && forall k <- keys :: k in props
    ensures Build(KeyItems(props, keys[..n])) == Ok(FlatTree(props, keys[..n]))
  {
    if n == 0 {
      assert FlatTree(props, keys[..0]) == EMPTY;
    } else {
      FlatBuild(props, keys, n - 1);
      BuildPrefix(props, keys, n - 1);
      FlatPut(props, keys, n - 1);
    }
  }

  lemma {:induction false} FlatRender(props: map<string, string>, keys: seq<string>, t: Tree, i: nat)
    requires t.Dict? && i <= |keys| && forall k <- keys :: k in props && k in t.fields && t.fields[k] == Leaf(props[k])
    ensures RenderFields(t, keys, i, "") == PrintKeys(props, keys[i..])
    decreases |keys| - i
  {
    if i < |keys| {
      FlatRender(props, keys, t, i + 1);
      assert keys[i..][0] == keys[i] && keys[i..][1..] == keys[i + 1..];
      assert keys[i] in keys;
      assert Render(t.fields[keys[i]], "" + "   ") == props[keys[i]] + "\n";
    }
  }

  ghost function YamlText(content: string): Result<string, YamlError>
  {
    match YamlOf(Parse(content))
    case Err(e) => Err(e)
    case Ok(t) => Ok(Render(t, ""))
  }

  lemma FlatRendered(props: map<string, string>, t: Tree)
    requires t.Dict? && t.fields.Keys == props.Keys && forall k <- props.Keys :: t.fields[k] == Leaf(props[k])
    ensures Render(t, "") == Print(props)
  {
    var keys := SortedKeys(props.Keys);
    FlatRender(props, keys, t, 0);
    assert keys[0..] == keys;
    assert Render(t, "") == "" + RenderFields(t, keys, 0, "");
  }

  lemma FlatYamlOf(props: map<string, string>)
    requires Flat(props)
    ensures YamlOf(props) == Ok(FlatTree(props, SortedKeys(props.Keys)))
  {
    var keys := SortedKeys(props.Keys);
    FlatBuild(props, keys, |keys|);
    assert keys[..|keys|] == keys;
  }

  /** On undotted keys the YAML text is the properties text. */
  lemma FlatYamlIsProperties(content: string)
    requires Flat(Parse(content))
    ensures YamlText(content) == Ok(Print(Parse(content)))
  {
    var props := Parse(content);
    FlatYamlOf(props);
    FlatRendered(props, FlatTree(props, SortedKeys(props.Keys)));
  }

  // ---------------------------------------------------------- the other ones

  /** The texts a printer puts around keys and values, and around the whole. */
  datatype Style = Style(open: string, before: string, between: string, after: string, close: string)

  const ENV := Style("", "", "=", "\n", "")
  const SH := Style("", "export ", "=\"", "\"\n", "")
  const CONF := Style("", "export ", "=", "\n", "")
  const XML := Style("<configuration>\n", "<property><name>", "</name><value>", "</value></property>\n", "</configuration>")

  function StyledLines(style: Style, props: map<string, string>, keys: seq<string>): string
    requires forall k <- keys :: k in props
  {
    if keys == [] then ""
    else style.before + keys[0] + style.between + props[keys[0]] + style.after + StyledLines(style, props, keys[1..])
  }

  ghost function Styled(style: Style, content: string): string
  {
    var props := Parse(content);
    style.open + StyledLines(style, props, SortedKeys(props.Keys)) + style.close
  }

  /** `to_env`, `to_sh`, `to_cfg`, `to_conf` and `to_xml`, which differ in these texts. */
  method ToStyle(style: Style, content: string) returns (result: string)
    ensures result == Styled(style, content)
  {
    var props := ProcessProperties(content);
    var keys := SortKeys(props.Keys);
    var lines := StyleItems(style, props, keys);
    result := style.open + lines + style.close;
  }

  lemma LinesMove(style: Style, props: map<string, string>, keys: seq<string>, i: nat, text: string)
    requires (forall k <- keys :: k in props) && i < |keys|
    ensures text + StyledLines(style, props, keys[i..]) ==
            text + (style.before + keys[i] + style.between + props[keys[i]] + style.after) + StyledLines(style, props, keys[i + 1..])
  {
    assert keys[i..][1..] == keys[i + 1..];
  }

  /** The printing loop over the sorted items. */
  method StyleItems(style: Style, props: map<string, string>, keys: seq<string>) returns (result: string)
    requires forall k <- keys :: k in props
    ensures result == StyledLines(style, props, keys)
  {
    result := "";
    for i := 0 to |keys|
      invariant result + StyledLines(style, props, keys[i..]) == StyledLines(style, props, keys)
    {
      hide StyledLines;
      LinesMove(style, props, keys, i, result);
      result := result + (style.before + keys[i] + style.between + props[keys[i]] + style.after);
    }
  }

  // ---------------------------------------------------------------- the choice

  /** What `getattr(transformation, "to_" + fmt)(content)` gives or raises. */
  ghost function Transformed(fmt: string, content: string): Result<string, YamlError>
  {
    match StyleOf(fmt)
    case Some(style) => Ok(Styled(style, content))
    case None =>
      if fmt == "yaml" || fmt == "yml" then YamlText(content)
      else if fmt == "properties" then Ok(Print(Parse(content)))
      else Err(AttributeError)
  }

  function StyleOf(fmt: string): Option<Style>
  {
    if fmt == "env" then Some(ENV)
    else if fmt == "sh" then Some(SH)
    else if fmt == "cfg" then Some(ENV)
    else if fmt == "conf" then Some(CONF)
    else if fmt == "xml" then Some(XML)
    else None
  }

  method TransformContent(fmt: string, content: string) returns (r: Result<string, YamlError>)
    ensures r == Transformed(fmt, content)
  {
    var style := StyleOf(fmt);
    if style.Some? {
      var text := ToStyle(style.value, content);
      r := Ok(text);
    } else if fmt == "yaml" || fmt == "yml" {
      var t := ToYaml(content);
      if t.Err? { return Err(t.error); }
      var text := RenderYaml(t.value, "");
      r := Ok(text);
    } else if fmt == "properties" {
      var text := ToProperties(content);
      r := Ok(text);
    } else {
      r := Err(AttributeError);
    }
  }
}
