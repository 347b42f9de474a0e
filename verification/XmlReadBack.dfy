/** `to_xml` of transformation.py, read back: what the text it prints holds. */
module XmlReadBack {
  import opened Wrappers
  import opened Text
  import opened Properties
  import opened Transformers
  import opened GoConfig

  /** The fixed texts of `to_xml`. */
  const XML_TAGS := Tags(XML.open, XML.before, XML.between, XML.after, XML.close)

  lemma OuterPlain()
    ensures '\r' !in XML.open && '\r' !in XML.close
  {
  }

  lemma InnerPlain()
    ensures '\r' !in XML.before && '\r' !in XML.between
  {
  }

  lemma AfterPlain()
    ensures '\r' !in XML.after
  {
  }

  lemma XmlTagsSound()
    ensures Sound(XML_TAGS)
  {
    assert XML_TAGS.open[1] != XML_TAGS.footer[1];
    OuterPlain();
    InnerPlain();
    AfterPlain();
  }

  lemma BlockLine(props: map<string, string>, k: string, rest: string)
    requires k in props
    ensures XML.before + k + XML.between + props[k] + XML.after + rest == Block(XML_TAGS, Entry(k, props[k])) + rest
  {
  }

  /** The lines printed are the elements of the entries, in the order of the keys. */
  lemma {:induction false} LinesAreBlocks(props: map<string, string>, keys: seq<string>)
    requires forall k <- keys :: k in props
    ensures StyledLines(XML, props, keys) == Blocks(XML_TAGS, EntriesOf(props, keys))
  {
    if keys != [] {
      hide Block, XML;
      LinesAreBlocks(props, keys[1..]);
      BlocksFront(XML_TAGS, EntriesOf(props, keys));
      assert EntriesOf(props, keys)[1..] == EntriesOf(props, keys[1..]);
      BlockLine(props, keys[0], StyledLines(XML, props, keys[1..]));
    }
  }

  lemma SortedEnumerates(props: map<string, string>)
    ensures Enumerates(SortedKeys(props.Keys), props)
  {
    var keys := SortedKeys(props.Keys);
    forall i, j | 0 <= i < j < |keys| ensures keys[i] != keys[j] { LessTrichotomy(keys[i], keys[j]); }
  }

  lemma StyledText(content: string, props: map<string, string>, keys: seq<string>)
    requires props == Parse(content) && keys == SortedKeys(props.Keys)
    ensures Styled(XML, content) == XmlText(XML_TAGS, EntriesOf(props, keys))
  {
    hide Parse, Blocks, StyledLines;
    LinesAreBlocks(props, keys);
  }

  /** A reader of the printed XML text finds the properties of the content if and
      only if all their keys and values are character data: nothing is escaped. */
  lemma ToXmlReadsBackExactly(content: string)
    ensures Sound(XML_TAGS)
    ensures ReadXml(XML_TAGS, Styled(XML, content)) == Some(Parse(content)) <==> CleanMap(Parse(content))
  {
    hide Parse, ReadXml, XmlText, Styled, CleanMap, Enumerates;
    var props := Parse(content);
    var keys := SortedKeys(props.Keys);
    XmlTagsSound();
    StyledText(content, props, keys);
    SortedEnumerates(props);
    XmlReadsBackExactly(XML_TAGS, props, keys);
  }
}
