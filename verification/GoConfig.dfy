/** The Go operator's configuration texts and their hash (configmap.go): Go
    iterates over maps in any order it likes. */
module GoConfig {
  import opened Wrappers
  import opened Text
  import opened Properties

  // ----------------------------------------------------------- the XML writer

  /** The fixed texts around names and values. */
  datatype Tags = Tags(header: string, open: string, between: string, close: string, footer: string)

  const TAGS := Tags("<?xml version=\"1.0\"?>\n<configuration>\n",
                     "  <property>\n    <name>", "</name>\n    <value>", "</value>\n  </property>\n",
                     "</configuration>\n")

  predicate Sound(t: Tags)
  {
    && t.open != "" && t.between != "" && t.between[0] == '<' && t.close != "" && t.close[0] == '<'
    && !(t.open <= t.footer) && !(t.footer <= t.open)
    && '\r' !in t.header && '\r' !in t.open && '\r' !in t.between && '\r' !in t.close && '\r' !in t.footer
  }

  lemma HeaderPlain()
    ensures '\r' !in TAGS.header
  {
  }

  lemma OpenPlain()
    ensures '\r' !in TAGS.open
  {
  }

  lemma BetweenPlain()
    ensures '\r' !in TAGS.between
  {
  }

  lemma ClosePlain()
    ensures '\r' !in TAGS.close && '\r' !in TAGS.footer
  {
  }

  lemma TagsSound()
    ensures Sound(TAGS)
  {
    HeaderPlain();
    OpenPlain();
    BetweenPlain();
    ClosePlain();
    assert TAGS.open[0] != TAGS.footer[0];
  }

  function Block(t: Tags, e: Entry): string
  {
    t.open + (e.key + (t.between + (e.value + t.close)))
  }

  function Blocks(t: Tags, es: seq<Entry>): string
  {
    if es == [] then "" else Blocks(t, es[..|es| - 1]) + Block(t, es[|es| - 1])
  }

  lemma {:induction false} BlocksFront(t: Tags, es: seq<Entry>)
    requires es != []
    ensures Blocks(t, es) == Block(t, es[0]) + Blocks(t, es[1..])
    decreases |es|
  {
    var n := |es| - 1;
    if n == 0 {
      assert es[..0] == [] && es[1..] == [];
      assert Block(t, es[0]) + "" == "" + Block(t, es[0]);
    } else {
      BlocksFront(t, es[..n]);
      assert es[..n][1..] == es[1..][..n - 1];
    }
  }

  function XmlText(t: Tags, es: seq<Entry>): string
  {
    t.header + Body(t, es)
  }

  /** An order in which all keys of a map are met, each once. */
  ghost predicate Enumerates(order: seq<string>, m: map<string, string>)
  {
    (forall k :: k in order <==> k in m) && forall i, j :: 0 <= i < j < |order| ==> order[i] != order[j]
  }

  /** `generateXMLConfig`, for whatever order the iteration over the map takes. */
  method GenerateXMLConfig(t: Tags, properties: map<string, string>) returns (text: string)
    ensures exists order :: Enumerates(order, properties) && text == XmlText(t, EntriesOf(properties, order))
  {
    var sb := "";
    ghost var order: seq<string> := [];
    var rest := properties.Keys;
    while rest != {}
      invariant rest <= properties.Keys
      invariant forall k :: k in order <==> k in properties.Keys - rest
      invariant forall i, j :: 0 <= i < j < |order| ==> order[i] != order[j]
      invariant sb == Blocks(t, EntriesOf(properties, order))
      decreases |rest|
    {
      var key :| key in rest;
      rest := rest - {key};
      ghost var es := EntriesOf(properties, order + [key]);
      assert es[..|order|] == EntriesOf(properties, order);
      order := order + [key];
      sb := sb + (t.open + (key + (t.between + (properties[key] + t.close))));
    }
    text := t.header + (sb + t.footer);
    assert Enumerates(order, properties) && text == XmlText(t, EntriesOf(properties, order));
  }

  // ----------------------------------------------------------- the XML reader

  /** The first '<' from `i` on, or the end: where character data ends. */
  function DataEnd(s: string, i: nat): (r: nat)
    requires i <= |s|
    ensures i <= r <= |s| && (forall j :: i <= j < r ==> s[j] != '<') && (r < |s| ==> s[r] == '<')
    decreases |s| - i
  {
    if i == |s| || s[i] == '<' then i else DataEnd(s, i + 1)
  }

  /** The characters of an XML document (section 2.2 of XML 1.0). */
  predicate XmlChar(c: char)
  {
    (c == '\t' || c == '\n' || c == '\r' || c >= ' ') && c != '\U{FFFE}' && c != '\U{FFFF}'
  }

  /** Character data that a reader hands on as it is: neither '<' nor '&' nor
      "]]>" (section 2.4), no CR, which becomes an LF (section 2.11). */
  predicate CharData(s: string)
  {
    (forall c <- s :: XmlChar(c) && c != '<' && c != '&' && c != '\r') && !Contains(s, "]]>")
  }

  function After(s: string, p: string): Option<string>
  {
    if p <= s then Some(s[|p|..]) else None
  }

  datatype Piece = Piece(data: string, rest: string)

  /** Character data, and what follows the tag after it. */
  function ReadPiece(s: string, tag: string): Option<Piece>
  {
    var i := DataEnd(s, 0);
    if !CharData(s[..i]) then None
    else
      match After(s[i..], tag)
      case None => None
      case Some(rest) => Some(Piece(s[..i], rest))
  }

  /** The entries of the property elements up to the footer. */
  function ReadBlocks(t: Tags, s: string): Option<seq<Entry>>
    requires Sound(t)
    decreases |s|
  {
    if s == t.footer then Some([])
    else
      match After(s, t.open)
      case None => None
      case Some(s1) =>
        match ReadPiece(s1, t.between)
        case None => None
        case Some(name) =>
          match ReadPiece(name.rest, t.close)
          case None => None
          case Some(value) =>
            match ReadBlocks(t, value.rest)
            case None => None
            case Some(es) => Some([Entry(name.data, value.data)] + es)
  }

  function ReadXml(t: Tags, s: string): Option<map<string, string>>
    requires Sound(t)
  {
    match After(LineEnds(s), t.header)
    case None => None
    case Some(body) =>
      match ReadBlocks(t, body)
      case None => None
      case Some(es) => Some(LastWins(es))
  }

  // ----------------------------------------------------------- reading it back

  lemma AfterPrefix(p: string, s: string)
    ensures After(p + s, p) == Some(s)
  {
  }

  lemma PieceRead(data: string, tag: string, rest: string)
    requires CharData(data) && tag != "" && tag[0] == '<'
    ensures ReadPiece(data + (tag + rest), tag) == Some(Piece(data, rest))
  {
    var s := data + (tag + rest);
    var i := DataEnd(s, 0);
    assert s[|data|] == '<';
    assert forall j :: 0 <= j < |data| ==> s[j] == data[j] && data[j] in data;
    assert i == |data|;
    assert s[..i] == data && s[i..] == tag + rest;
  }

  predicate CleanEntry(e: Entry)
  {
    CharData(e.key) && CharData(e.value)
  }

  lemma BlockShape(t: Tags, e: Entry, rest: string)
    ensures Block(t, e) + rest == t.open + (e.key + (t.between + (e.value + (t.close + rest))))
  {
  }

  lemma BlockRead(t: Tags, e: Entry, rest: string)
    requires Sound(t) && CleanEntry(e) && Block(t, e) + rest != t.footer
    ensures ReadBlocks(t, Block(t, e) + rest) ==
            (match ReadBlocks(t, rest) case None => None case Some(es) => Some([e] + es))
  {
    BlockShape(t, e, rest);
    AfterPrefix(t.open, e.key + (t.between + (e.value + (t.close + rest))));
    PieceRead(e.key, t.between, e.value + (t.close + rest));
    PieceRead(e.value, t.close, rest);
  }

  lemma BlockIsNoFooter(t: Tags, e: Entry, rest: string)
    requires Sound(t)
    ensures Block(t, e) + rest != t.footer
  {
    BlockShape(t, e, rest);
    assert t.open <= Block(t, e) + rest;
  }

  function Body(t: Tags, es: seq<Entry>): string
  {
    Blocks(t, es) + t.footer
  }

  lemma BodyFront(t: Tags, es: seq<Entry>)
    requires es != []
    ensures Body(t, es) == Block(t, es[0]) + Body(t, es[1..])
  {
    BlocksFront(t, es);
  }

  predicate ReadsAs(t: Tags, s: string, es: seq<Entry>)
    requires Sound(t)
  {
    ReadBlocks(t, s) == Some(es)
  }

  lemma ReadStep(t: Tags, e: Entry, rest: string, es: seq<Entry>)
    requires Sound(t) && CleanEntry(e) && ReadsAs(t, rest, es)
    ensures ReadsAs(t, Block(t, e) + rest, [e] + es)
  {
    BlockIsNoFooter(t, e, rest);
    BlockRead(t, e, rest);
  }

  lemma {:induction false} BlocksRead(t: Tags, es: seq<Entry>)
    requires Sound(t) && forall e <- es :: CleanEntry(e)
    ensures ReadsAs(t, Body(t, es), es)
    decreases |es|
  {
    if es == [] {
      assert Body(t, es) == t.footer;
    } else {
      BlocksRead(t, es[1..]);
      BodyFront(t, es);
      ReadStep(t, es[0], Body(t, es[1..]), es[1..]);
      assert es == [es[0]] + es[1..];
    }
  }

  /** What is read is always character data. */
  lemma {:induction false} ReadIsClean(t: Tags, s: string, es: seq<Entry>)
    requires Sound(t) && ReadBlocks(t, s) == Some(es)
    ensures forall e <- es :: CleanEntry(e)
    decreases |s|
  {
    if s != t.footer {
      var s1 := After(s, t.open).value;
      var name := ReadPiece(s1, t.between).value;
      var value := ReadPiece(name.rest, t.close).value;
      ReadIsClean(t, value.rest, ReadBlocks(t, value.rest).value);
    }
  }

  // ---------------------------------------------------------------- the content

  lemma LastWinsClean(es: seq<Entry>, k: string)
    requires k in LastWins(es) && forall e <- es :: CleanEntry(e)
    ensures CharData(k) && CharData(LastWins(es)[k])
    decreases |es|
  {
    var n := |es| - 1;
    if es[n].key == k { assert CleanEntry(es[n]); } else { LastWinsClean(es[..n], k); }
  }

  predicate CleanMap(m: map<string, string>)
  {
    forall k <- m.Keys :: CharData(k) && CharData(m[k])
  }

  lemma EnumeratedMap(m: map<string, string>, order: seq<string>)
    requires Enumerates(order, m)
    ensures LastWins(EntriesOf(m, order)) == m
  {
    LastWinsOf(m, order);
  }

  lemma {:induction false} BlocksLines(t: Tags, es: seq<Entry>)
    requires Sound(t) && forall e <- es :: CleanEntry(e)
    ensures '\r' !in Blocks(t, es)
    decreases |es|
  {
    if es != [] {
      BlocksLines(t, es[..|es| - 1]);
      var e := es[|es| - 1];
      assert CleanEntry(e);
      assert '\r' !in Block(t, e);
    }
  }

  /** The header is the same line however the text's line ends are read. */
  lemma {:induction false} LineEndsPrefix(p: string, s: string)
    requires '\r' !in p
    ensures LineEnds(p + s) == p + LineEnds(s)
  {
    if p == "" {
      assert p + s == s;
    } else {
      assert (p + s)[1..] == p[1..] + s;
      LineEndsPrefix(p[1..], s);
    }
  }

  lemma XmlRead(t: Tags, es: seq<Entry>)
    requires Sound(t)
    ensures ReadXml(t, XmlText(t, es)) ==
            (match ReadBlocks(t, LineEnds(Body(t, es))) case None => None case Some(r) => Some(LastWins(r)))
  {
    LineEndsPrefix(t.header, Body(t, es));
    AfterPrefix(t.header, LineEnds(Body(t, es)));
  }

  /** Whatever order the map is iterated in, the text reads back as the map, if
      and only if all keys and values are character data. */
  lemma XmlReadsBackExactly(t: Tags, m: map<string, string>, order: seq<string>)
    requires Sound(t) && Enumerates(order, m)
    ensures ReadXml(t, XmlText(t, EntriesOf(m, order))) == Some(m) <==> CleanMap(m)
  {
    var es := EntriesOf(m, order);
    XmlRead(t, es);
    if CleanMap(m) {
      BlocksLines(t, es);
      LineEndsExactly(Body(t, es));
      BlocksRead(t, es);
      EnumeratedMap(m, order);
    }
    if ReadXml(t, XmlText(t, es)) == Some(m) {
      var r := ReadBlocks(t, LineEnds(Body(t, es))).value;
      ReadIsClean(t, LineEnds(Body(t, es)), r);
      forall k | k in m.Keys ensures CharData(k) && CharData(m[k]) { LastWinsClean(r, k); }
    }
  }

  /** The text itself depends on the order: two iterations over the same clean
      map give the same text only if they met the keys in the same order. */
  lemma XmlTextTellsOrder(t: Tags, m: map<string, string>, a: seq<string>, b: seq<string>)
    requires Sound(t) && CleanMap(m) && Enumerates(a, m) && Enumerates(b, m)
    ensures XmlText(t, EntriesOf(m, a)) == XmlText(t, EntriesOf(m, b)) <==> a == b
  {
    if XmlText(t, EntriesOf(m, a)) == XmlText(t, EntriesOf(m, b)) {
      BlocksRead(t, EntriesOf(m, a));
      BlocksRead(t, EntriesOf(m, b));
      SameBody(t.header, Body(t, EntriesOf(m, a)), Body(t, EntriesOf(m, b)));
      assert EntriesOf(m, a) == EntriesOf(m, b);
      forall i | 0 <= i < |a| ensures a[i] == b[i] {
        assert EntriesOf(m, a)[i].key == EntriesOf(m, b)[i].key;
      }
    }
  }

  lemma SameBody(p: string, a: string, b: string)
    requires p + a == p + b
    ensures a == b
  {
    assert (p + a)[|p|..] == a && (p + b)[|p|..] == b;
  }

  /** The operator's defaults with the user's entries over them, in any order of
      merging: the loop `for k, v := range user { site[k] = v }`. */
  method MergeOverrides(defaults: map<string, string>, user: map<string, string>) returns (site: map<string, string>)
    ensures site == defaults + user
  {
    site := defaults;
    var rest := user.Keys;
    while rest != {}
      invariant rest <= user.Keys && site == defaults + (map k | k in user && k !in rest :: user[k])
      decreases |rest|
    {
      var k :| k in rest;
      rest := rest - {k};
      site := site[k := user[k]];
    }
  }

  /** A site file, read back. */
  function ReadSite(text: string): Option<map<string, string>>
  {
    TagsSound();
    ReadXml(TAGS, text)
  }
}
