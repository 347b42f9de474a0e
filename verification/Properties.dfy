/** Parsing and printing of `key: value` texts (transformation.py). */
module Properties {
  import opened Wrappers
  import opened Text

  const SEP := ": "

  datatype Entry = Entry(key: string, value: string)

  // ---------------------------------------------------------------- parsing

  /** What a stripped line means: the texts before and after its first separator. */
  function ReadStripped(s: string): Option<Entry>
  {
    if s == "" || s[0] == '#' || !Contains(s, SEP) then None
    else
      var i := IndexOf(s, SEP);
      Some(Entry(Strip(s[..i]), StripQuotes(Strip(s[i + 2..]))))
  }

  function ParseLine(line: string): Option<Entry>
  {
    ReadStripped(Strip(line))
  }

  function Update(m: map<string, string>, e: Option<Entry>): map<string, string>
  {
    match e
    case None => m
    case Some(Entry(k, v)) => m[k := v]
  }

  /** The dictionary after the given lines: a later line wins. */
  function ParseLines(lines: seq<string>): map<string, string>
  {
    if lines == [] then map[]
    else Update(ParseLines(lines[..|lines| - 1]), ParseLine(lines[|lines| - 1]))
  }

  function Parse(content: string): map<string, string>
  {
    ParseLines(Split(content, "\n"))
  }

  /** One turn of the loop in `process_properties`: it cuts at every separator
      and joins all pieces but the first again. */
  method ReadLine(line: string) returns (e: Option<Entry>)
    ensures e == ParseLine(line)
  {
    e := None;
    var sline := Strip(line);
    if sline != "" && sline[0] != '#' {
      if Contains(sline, SEP) {
        SplitHeadTail(sline, SEP);
        var keyValue := Split(sline, SEP);
        var key := Strip(keyValue[0]);
        var value := StripQuotes(Strip(Join(keyValue[1..], SEP)));
        e := Some(Entry(key, value));
      }
    }
  }

  lemma ParseEmpty()
    ensures Parse("") == map[]
  {
    assert Split("", "\n") == [""];
    assert [""][..0] == [];
  }

  /** `process_properties`. */
  method ProcessProperties(content: string) returns (props: map<string, string>)
    ensures props == Parse(content)
  {
    props := map[];
    if content == "" {
      ParseEmpty();
      return;
    }
    props := ReadLines(Split(content, "\n"));
  }

  /** The loop of `process_properties`. */
  method ReadLines(lines: seq<string>) returns (props: map<string, string>)
    ensures props == ParseLines(lines)
  {
    props := map[];
    for i := 0 to |lines|
      invariant props == ParseLines(lines[..i])
    {
      assert lines[..i + 1][..i] == lines[..i];
      var e := ReadLine(lines[i]);
      if e.Some? { props := props[e.value.key := e.value.value]; }
    }
    assert lines[..|lines|] == lines;
  }

  // --------------------------------------------------------------- printing

  function FormatLine(key: string, value: string): string
  {
    key + SEP + value
  }

  /** The text printed for the keys in the given order. */
  function PrintKeys(m: map<string, string>, keys: seq<string>): string
    requires forall k <- keys :: k in m
  {
    if keys == [] then "" else FormatLine(keys[0], m[keys[0]]) + "\n" + PrintKeys(m, keys[1..])
  }

  ghost function Print(m: map<string, string>): string
  {
    PrintKeys(m, SortedKeys(m.Keys))
  }

  /** `to_properties`. */
  method ToProperties(content: string) returns (result: string)
    ensures result == Print(Parse(content))
  {
    var props := ProcessProperties(content);
    var keys := SortKeys(props.Keys);
    result := PrintItems(props, keys);
  }

  /** The printing loop over the sorted items. */
  method PrintItems(props: map<string, string>, keys: seq<string>) returns (result: string)
    requires forall k <- keys :: k in props
    ensures result == PrintKeys(props, keys)
  {
    result := "";
    for i := 0 to |keys|
      invariant result + PrintKeys(props, keys[i..]) == PrintKeys(props, keys)
    {
      assert keys[i..][1..] == keys[i + 1..];
      result := result + (keys[i] + SEP + props[keys[i]] + "\n");
    }
  }

  // ------------------------------------------------------------- round trip

  /** A key that prints so that it can be read back. */
  predicate GoodKey(k: string)
  {
    Trimmed(k) && !Contains(k, SEP) && (k == "" || k[0] != '#')
  }

  predicate GoodValue(v: string)
  {
    v != "" && Trimmed(v) && Clean(v, Quotes)
  }

  predicate Printable(k: string, v: string)
  {
    '\n' !in k && '\n' !in v && GoodKey(k) && GoodValue(v)
  }

  /** `line` is a printed entry. */
  predicate IsLine(line: string, k: string, v: string)
  {
    && |line| == |k| + 2 + |v|
    && k <= line && line[|k|] == ':' && line[|k| + 1] == ' ' && line[|k| + 2..] == v
  }

  lemma FormatIsLine(k: string, v: string)
    ensures IsLine(FormatLine(k, v), k, v)
  {
  }

  /** The separator of a printed line is found where it was put, unless the key contains one. */
  lemma SeparatorPosition(line: string, k: string, v: string)
    requires IsLine(line, k, v) && !Contains(k, SEP)
    ensures IndexOf(line, SEP) == |k|
  {
    IndexOfFirst(k, SEP);
    forall j | 0 <= j < |k| ensures !OccursAt(line, SEP, j) {
      OccursPair(line, SEP, j);
      OccursPair(k, SEP, j);
    }
    OccursPair(line, SEP, |k|);
    FirstIndex(line, SEP, |k|);
  }

  lemma GoodLineStripped(line: string, k: string, v: string)
    requires IsLine(line, k, v) && GoodKey(k) && GoodValue(v)
    ensures Strip(line) == line && line[0] != '#'
  {
    assert line[0] == (if k == "" then ':' else k[0]);
    assert line[|line| - 1] == v[|v| - 1];
    StripBothClean(line, Spaces);
  }

  lemma GoodParts(k: string, v: string)
    requires GoodKey(k) && GoodValue(v)
    ensures Entry(Strip(k), StripQuotes(Strip(v))) == Entry(k, v)
  {
    StripBothClean(k, Spaces);
    StripBothClean(v, Spaces);
    StripBothClean(v, Quotes);
  }

  lemma ReadAt(s: string, i: nat)
    requires IndexOf(s, SEP) == i && s != "" && s[0] != '#'
    ensures ReadStripped(s) == Some(Entry(Strip(s[..i]), StripQuotes(Strip(s[i + 2..]))))
  {
  }

  /** A good entry is read back from its line. */
  lemma GoodLine(line: string, k: string, v: string)
    requires IsLine(line, k, v) && GoodKey(k) && GoodValue(v)
    ensures ParseLine(line) == Some(Entry(k, v))
  {
    SeparatorPosition(line, k, v);
    GoodLineStripped(line, k, v);
    ReadAt(line, |k|);
    assert line[..|k|] == k;
    GoodParts(k, v);
  }

  /** The first separator of the stripped line is not beyond the printed one:
      `t` is the line `s` without `d` characters on the left and some on the right. */
  lemma SeparatorBound(s: string, k: nat, d: nat, t: string)
    requires OccursAt(s, SEP, k) && d <= k
    requires d + |t| <= |s| && t == s[d..d + |t|] && Contains(t, SEP)
    ensures d + IndexOf(t, SEP) <= k
  {
    IndexOfFirst(t, SEP);
    if k - d + 2 <= |t| {
      OccursPair(s, SEP, k);
      OccursPair(t, SEP, k - d);
    }
  }

  lemma LineBound(line: string, k: string, v: string)
    requires IsLine(line, k, v) && Contains(Strip(line), SEP)
    ensures IndexOf(Strip(line), SEP) <= |k|
    ensures IndexOf(Strip(line), SEP) == |k| ==> Strip(line) <= line
  {
    var d := StripWindow(line, Spaces);
    assert d <= |k|;
    assert line[|k|..|k| + 2] == SEP;
    SeparatorBound(line, |k|, d, Strip(line));
  }

  lemma ValueShorter(x: string)
    ensures |StripQuotes(Strip(x))| <= |x|
    ensures Clean(StripQuotes(Strip(x)), Quotes)
    ensures |StripQuotes(Strip(x))| == |x| ==> StripQuotes(Strip(x)) == x && Trimmed(x)
  {
    StripBothClean(x, Spaces);
    StripBothClean(Strip(x), Quotes);
  }

  lemma ReadKey(s: string, e: Entry, i: int)
    requires ReadStripped(s) == Some(e) && i == IndexOf(s, SEP)
    ensures s != "" && s[0] != '#' && 0 <= i && i + 2 <= |s| && e.key == Strip(s[..i])
  {
  }

  lemma ReadValue(s: string, e: Entry, i: int)
    requires ReadStripped(s) == Some(e) && i == IndexOf(s, SEP)
    ensures 0 <= i && i + 2 <= |s| && e.value == StripQuotes(Strip(s[i + 2..]))
  {
  }

  /** What a stripped text is read as is no longer than the text: the key, */
  lemma ReadKeyShorter(s: string, e: Entry, i: int)
    requires ReadStripped(s) == Some(e) && i == IndexOf(s, SEP)
    ensures s != "" && s[0] != '#' && 0 <= i && i + 2 <= |s|
    ensures |e.key| <= i && Trimmed(e.key) && (|e.key| == i ==> e.key == s[..i])
  {
    ReadKey(s, e, i);
    StripBothClean(s[..i], Spaces);
  }

  /** and the value. */
  lemma ReadValueShorter(s: string, e: Entry, i: int)
    requires ReadStripped(s) == Some(e) && i == IndexOf(s, SEP)
    ensures 0 <= i && i + 2 <= |s|
    ensures |e.value| <= |s| - i - 2 && Clean(e.value, Quotes)
    ensures |e.value| == |s| - i - 2 ==> e.value == s[i + 2..] && Trimmed(e.value)
  {
    ReadValue(s, e, i);
    ValueShorter(s[i + 2..]);
  }

  /** Reading a printed line never gives a longer key, nor a longer entry; a key
      read back at full length is the printed one. */
  lemma ReadLengths(line: string, k: string, v: string, e: Entry)
    requires IsLine(line, k, v) && ParseLine(line) == Some(e)
    ensures |e.key| <= |k| && |e.key| + |e.value| <= |k| + |v|
    ensures |e.key| == |k| ==> e.key == k
  {
    var t := Strip(line);
    var i := IndexOf(t, SEP);
    ReadKeyShorter(t, e, i);
    ReadValueShorter(t, e, i);
    StripBothClean(line, Spaces);
    LineBound(line, k, v);
    if i == |k| {
      assert t[..i] == line[..i] == k;
    }
  }

  lemma ReadBackWhole(line: string, k: string, v: string)
    requires IsLine(line, k, v) && ParseLine(line) == Some(Entry(k, v))
    ensures Strip(line) == line && IndexOf(line, SEP) == |k|
    ensures Trimmed(k) && line[0] != '#' && Trimmed(v) && Clean(v, Quotes)
  {
    var t := Strip(line);
    ReadKeyShorter(t, Entry(k, v), IndexOf(t, SEP));
    ReadValueShorter(t, Entry(k, v), IndexOf(t, SEP));
    LineBound(line, k, v);
    StripBothClean(line, Spaces);
  }

  lemma ReadBackGood(line: string, k: string, v: string)
    requires IsLine(line, k, v) && ParseLine(line) == Some(Entry(k, v))
    ensures GoodKey(k) && GoodValue(v)
  {
    ReadBackWhole(line, k, v);
    assert k != "" ==> line[0] == k[0];
    assert line[|line| - 1] == if v == "" then ' ' else v[|v| - 1];
    KeyBeforeSeparator(line, k);
    StripBothClean(line, Spaces);
  }

  /** Nothing before the first separator contains a separator. */
  lemma KeyBeforeSeparator(s: string, k: string)
    requires k <= s && IndexOf(s, SEP) == |k|
    ensures !Contains(k, SEP)
  {
    IndexOfFirst(s, SEP);
    IndexOfFirst(k, SEP);
    forall j | 0 <= j < |k| - 1 ensures !OccursAt(k, SEP, j) {
      OccursPair(s, SEP, j);
      OccursPair(k, SEP, j);
    }
  }

  /** An entry is read back from its line exactly when it is good. */
  lemma GoodLineExactly(line: string, k: string, v: string)
    requires IsLine(line, k, v)
    ensures ParseLine(line) == Some(Entry(k, v)) <==> GoodKey(k) && GoodValue(v)
  {
    if GoodKey(k) && GoodValue(v) {
      GoodLine(line, k, v);
    }
    if ParseLine(line) == Some(Entry(k, v)) {
      ReadBackGood(line, k, v);
    }
  }

  // ------------------------------------------------------ texts of entries

  /** The text of a list of entries, one line each. */
  function TextOf(es: seq<Entry>): string
  {
    if es == [] then "" else FormatLine(es[0].key, es[0].value) + "\n" + TextOf(es[1..])
  }

  function LinesOf(es: seq<Entry>): (ls: seq<string>)
    ensures |ls| == |es|
    ensures forall i :: 0 <= i < |es| ==> ls[i] == FormatLine(es[i].key, es[i].value)
  {
    seq(|es|, i requires 0 <= i < |es| => FormatLine(es[i].key, es[i].value))
  }

  /** The dictionary a list of entries denotes when a later one wins. */
  function LastWins(es: seq<Entry>): map<string, string>
  {
    if es == [] then map[]
    else LastWins(es[..|es| - 1])[es[|es| - 1].key := es[|es| - 1].value]
  }

  predicate NewlineFree(e: Entry)
  {
    '\n' !in e.key && '\n' !in e.value
  }

  lemma SplitFirst(es: seq<Entry>)
    requires es != [] && NewlineFree(es[0])
    ensures Split(TextOf(es), "\n") == [LinesOf(es)[0]] + Split(TextOf(es[1..]), "\n")
    ensures LinesOf(es) == [LinesOf(es)[0]] + LinesOf(es[1..])
  {
    SplitStep(FormatLine(es[0].key, es[0].value), '\n', TextOf(es[1..]));
  }

  lemma {:induction false} SplitText(es: seq<Entry>)
    requires forall e <- es :: NewlineFree(e)
    ensures Split(TextOf(es), "\n") == LinesOf(es) + [""]
  {
    if es == [] {
      ContainsChar("", '\n');
    } else {
      assert NewlineFree(es[0]);
      SplitText(es[1..]);
      SplitFirst(es);
    }
  }

  lemma ParseText(es: seq<Entry>)
    requires forall e <- es :: NewlineFree(e)
    ensures Parse(TextOf(es)) == ParseLines(LinesOf(es))
  {
    SplitText(es);
    LastLineEmpty(LinesOf(es));
  }

  /** The empty piece after the last newline is not an entry. */
  lemma LastLineEmpty(lines: seq<string>)
    ensures ParseLines(lines + [""]) == ParseLines(lines)
  {
    assert (lines + [""])[..|lines|] == lines;
  }

  lemma {:induction false} ParsePrintable(es: seq<Entry>)
    requires forall e <- es :: Printable(e.key, e.value)
    ensures ParseLines(LinesOf(es)) == LastWins(es)
    decreases |es|
  {
    if es != [] {
      var k := |es| - 1;
      ParsePrintable(es[..k]);
      assert LinesOf(es)[..k] == LinesOf(es[..k]);
      FormatIsLine(es[k].key, es[k].value);
      GoodLine(LinesOf(es)[k], es[k].key, es[k].value);
    }
  }

  /** Parsing a text of printable entries gives the last value of every key. */
  lemma ParseEntries(es: seq<Entry>)
    requires forall e <- es :: Printable(e.key, e.value)
    ensures Parse(TextOf(es)) == LastWins(es)
  {
    assert forall e <- es :: NewlineFree(e);
    ParseText(es);
    ParsePrintable(es);
  }

  // ------------------------------------------------- round trip of a dictionary

  function EntriesOf(m: map<string, string>, keys: seq<string>): (es: seq<Entry>)
    requires forall k <- keys :: k in m
    ensures |es| == |keys|
    ensures forall i :: 0 <= i < |keys| ==> es[i] == Entry(keys[i], m[keys[i]])
  {
    seq(|keys|, i requires 0 <= i < |keys| => Entry(keys[i], m[keys[i]]))
  }

  lemma {:induction false} PrintIsText(m: map<string, string>, keys: seq<string>)
    requires forall k <- keys :: k in m
    ensures PrintKeys(m, keys) == TextOf(EntriesOf(m, keys))
  {
    if keys != [] {
      PrintIsText(m, keys[1..]);
      assert EntriesOf(m, keys)[1..] == EntriesOf(m, keys[1..]);
    }
  }

  lemma {:induction false} LastWinsOf(m: map<string, string>, keys: seq<string>)
    requires forall k <- keys :: k in m
    ensures LastWins(EntriesOf(m, keys)) == map k | k in keys :: m[k]
    decreases |keys|
  {
    if keys != [] {
      var n := |keys| - 1;
      LastWinsOf(m, keys[..n]);
      assert EntriesOf(m, keys)[..n] == EntriesOf(m, keys[..n]);
      assert keys == keys[..n] + [keys[n]];
    }
  }

  lemma EntriesPrintable(m: map<string, string>, keys: seq<string>)
    requires forall k <- keys :: k in m && Printable(k, m[k])
    ensures forall e <- EntriesOf(m, keys) :: Printable(e.key, e.value)
  {
  }

  lemma PrintedReadBack(m: map<string, string>, keys: seq<string>)
    requires forall k <- keys :: k in m && Printable(k, m[k])
    ensures Parse(PrintKeys(m, keys)) == map k | k in keys :: m[k]
  {
    PrintIsText(m, keys);
    EntriesPrintable(m, keys);
    ParseEntries(EntriesOf(m, keys));
    LastWinsOf(m, keys);
  }

  /** Printing and parsing again restores every printable dictionary. */
  lemma RoundTrip(m: map<string, string>)
    requires forall k <- m.Keys :: Printable(k, m[k])
    ensures Parse(Print(m)) == m
  {
    PrintedReadBack(m, SortedKeys(m.Keys));
  }
}
