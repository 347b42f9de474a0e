/** Exactly which dictionaries survive printing and parsing (transformation.py). */
module PropertiesExact {
  import opened Wrappers
  import opened Text
  import opened Properties

  // --------------------------------------------- what parsing can produce

  lemma WindowSubset(s: string, drop: CharClass, c: char)
    requires c in StripBoth(s, drop)
    ensures c in s
  {
    var d := StripWindow(s, drop);
    var i :| 0 <= i < |StripBoth(s, drop)| && StripBoth(s, drop)[i] == c;
    assert s[d + i] == c;
  }

  lemma ReadSubset(line: string, e: Entry, c: char)
    requires ParseLine(line) == Some(e) && c !in line
    ensures c !in e.key && c !in e.value
  {
    var s := Strip(line);
    var i := IndexOf(s, SEP);
    ReadKey(s, e, i);
    ReadValue(s, e, i);
    if c in e.key {
      WindowSubset(s[..i], Spaces, c);
      WindowSubset(line, Spaces, c);
    }
    if c in e.value {
      WindowSubset(Strip(s[i + 2..]), Quotes, c);
      WindowSubset(s[i + 2..], Spaces, c);
      WindowSubset(line, Spaces, c);
    }
  }

  /** Every parsed entry comes from one of the lines. */
  lemma {:induction false} ParsedFrom(lines: seq<string>, k: string) returns (i: nat)
    requires k in ParseLines(lines)
    ensures i < |lines| && ParseLine(lines[i]) == Some(Entry(k, ParseLines(lines)[k]))
    decreases |lines|
  {
    var n := |lines| - 1;
    var last := ParseLine(lines[n]);
    if last.Some? && last.value.key == k {
      i := n;
    } else {
      i := ParsedFrom(lines[..n], k);
    }
  }

  /** Parsed keys are printable, parsed values at least free of newlines and outer quotes. */
  lemma ParsedShape(content: string, k: string)
    requires k in Parse(content)
    ensures GoodKey(k) && '\n' !in k && '\n' !in Parse(content)[k] && Clean(Parse(content)[k], Quotes)
  {
    var lines := Split(content, "\n");
    var i := ParsedFrom(lines, k);
    SplitPieces(content, '\n');
    assert lines[i] in lines;
    ReadSubset(lines[i], Entry(k, Parse(content)[k]), '\n');
    StripBothClean(lines[i], Spaces);
    ParsedKeyGood(Strip(lines[i]), Entry(k, Parse(content)[k]));
  }

  lemma ParsedKeyGood(s: string, e: Entry)
    requires ReadStripped(s) == Some(e) && Trimmed(s)
    ensures GoodKey(e.key) && Clean(e.value, Quotes)
  {
    var i := IndexOf(s, SEP);
    ReadKeyShorter(s, e, i);
    ReadValueShorter(s, e, i);
    ReadKey(s, e, i);
    KeyBeforeSeparator(s, s[..i]);
    var d := StripWindow(s[..i], Spaces);
    WindowContains(s[..i], d, e.key);
    if e.key != "" {
      assert s[..i][0] == s[0];
      assert e.key[0] == s[0];
    }
  }

  lemma WindowContains(s: string, d: nat, t: string)
    requires d + |t| <= |s| && t == s[d..d + |t|] && !Contains(s, SEP)
    ensures !Contains(t, SEP)
  {
    IndexOfFirst(s, SEP);
    IndexOfFirst(t, SEP);
    forall j | 0 <= j <= |t| ensures !OccursAt(t, SEP, j) {
      OccursPair(t, SEP, j);
      if j + 2 <= |t| { OccursPair(s, SEP, d + j); }
    }
  }

  lemma {:induction false} PartsIn(parts: seq<string>, sep: string, p: string, c: char)
    requires p in parts && c in p
    ensures c in Join(parts, sep)
  {
    if p != parts[0] {
      assert p in parts[1..];
      PartsIn(parts[1..], sep, p, c);
    }
  }

  /** A character that is not in a text is in nothing parsed from it. */
  lemma ParsedWithout(content: string, k: string, c: char)
    requires c !in content && k in Parse(content)
    ensures c !in k && c !in Parse(content)[k]
  {
    var lines := Split(content, "\n");
    var i := ParsedFrom(lines, k);
    assert lines[i] in lines;
    JoinSplit(content, "\n");
    if c in lines[i] { PartsIn(lines, "\n", lines[i], c); }
    ReadSubset(lines[i], Entry(k, Parse(content)[k]), c);
  }

  // ------------------------------------------ a permutation that lengthens nothing

  ghost function TotalLength(s: set<string>): nat
    decreases |s|
  {
    if s == {} then 0
    else
      var x :| x in s;
      |x| + TotalLength(s - {x})
  }

  lemma {:induction false} TotalLengthAdd(s: set<string>, y: string)
    requires y !in s
    ensures TotalLength(s + {y}) == TotalLength(s) + |y|
    decreases |s|
  {
    var t := s + {y};
    var x :| x in t && TotalLength(t) == |x| + TotalLength(t - {x});
    if x == y {
      assert t - {x} == s;
    } else {
      TotalLengthAdd(s - {x}, y);
      assert t - {x} == (s - {x}) + {y};
      TotalLengthAdd(s - {x}, x);
      assert (s - {x}) + {x} == s;
    }
  }

  ghost predicate Lengthens(h: map<string, string>, s: set<string>)
  {
    && s <= h.Keys
    && (forall k <- s :: |k| <= |h[k]|)
    && (forall a, b :: a in s && b in s && h[a] == h[b] ==> a == b)
  }

  function Image(h: map<string, string>, s: set<string>): set<string>
    requires s <= h.Keys
  {
    set k | k in s :: h[k]
  }

  lemma ImageAdd(h: map<string, string>, s: set<string>, x: string)
    requires Lengthens(h, s) && x in s
    ensures Image(h, s) == Image(h, s - {x}) + {h[x]} && h[x] !in Image(h, s - {x})
  {
  }

  lemma {:induction false} ImageLength(h: map<string, string>, s: set<string>)
    requires Lengthens(h, s)
    ensures |Image(h, s)| == |s| && TotalLength(Image(h, s)) >= TotalLength(s)
    ensures TotalLength(Image(h, s)) == TotalLength(s) ==> forall k <- s :: |k| == |h[k]|
    decreases |s|
  {
    if s != {} {
      hide TotalLength, Image;
      var x :| x in s;
      var rest := s - {x};
      ImageLength(h, rest);
      ImageAdd(h, s, x);
      TotalLengthAdd(Image(h, rest), h[x]);
      TotalLengthAdd(rest, x);
      assert rest + {x} == s;
    }
  }

  lemma SameSize(a: set<string>, b: set<string>)
    requires a <= b && |a| == |b|
    ensures a == b
  {
    assert |b - a| == |b| - |a|;
  }

  /** A permutation of a finite set of texts that shortens none keeps every length. */
  lemma PermutationKeepsLengths(h: map<string, string>, s: set<string>)
    requires Lengthens(h, s) && Image(h, s) <= s
    ensures forall k <- s :: |k| == |h[k]|
  {
    ImageLength(h, s);
    SameSize(Image(h, s), s);
  }

  // ---------------------------------------------------------- the exact condition

  /** Where each key of a restored dictionary was read from. */
  ghost predicate Origin(m: map<string, string>, k: string, from: string)
  {
    from in m && k in m && ParseLine(FormatLine(from, m[from])) == Some(Entry(k, m[k]))
  }

  lemma OriginExists(m: map<string, string>, k: string) returns (from: string)
    requires k in m && (forall x <- m.Keys :: NewlineFree(Entry(x, m[x]))) && Parse(Print(m)) == m
    ensures Origin(m, k, from)
  {
    var keys := SortedKeys(m.Keys);
    var es := EntriesOf(m, keys);
    PrintIsText(m, keys);
    forall e | e in es ensures NewlineFree(e) {
      var j :| 0 <= j < |es| && es[j] == e;
      assert keys[j] in keys;
    }
    ParseText(es);
    var i := ParsedFrom(LinesOf(es), k);
    from := keys[i];
    assert keys[i] in keys;
  }

  lemma RestoredNewlineFree(m: map<string, string>)
    requires Parse(Print(m)) == m
    ensures forall k <- m.Keys :: NewlineFree(Entry(k, m[k]))
  {
    forall k | k in m.Keys ensures NewlineFree(Entry(k, m[k])) {
      ParsedShape(Print(m), k);
    }
  }

  lemma OriginLengths(m: map<string, string>, k: string, from: string)
    requires Origin(m, k, from)
    ensures |k| <= |from| && (|k| == |from| ==> k == from)
  {
    FormatIsLine(from, m[from]);
    ReadLengths(FormatLine(from, m[from]), from, m[from], Entry(k, m[k]));
  }

  lemma OriginUnique(m: map<string, string>, a: string, b: string, from: string)
    requires Origin(m, a, from) && Origin(m, b, from)
    ensures a == b
  {
  }

  /** A choice of origins for some of the keys. */
  ghost predicate Origins(m: map<string, string>, h: map<string, string>)
  {
    forall k <- h.Keys :: Origin(m, k, h[k])
  }

  lemma {:induction false} OriginMap(m: map<string, string>, s: set<string>) returns (h: map<string, string>)
    requires s <= m.Keys && Parse(Print(m)) == m
    ensures h.Keys == s && Origins(m, h)
    decreases |s|
  {
    if s == {} {
      h := map[];
    } else {
      var k :| k in s;
      h := OriginMap(m, s - {k});
      RestoredNewlineFree(m);
      var from := OriginExists(m, k);
      h := h[k := from];
    }
  }

  lemma OriginLengthens(m: map<string, string>, h: map<string, string>)
    requires Origins(m, h)
    ensures Lengthens(h, h.Keys) && Image(h, h.Keys) <= m.Keys
  {
    forall k | k in h.Keys ensures |k| <= |h[k]| && h[k] in m {
      OriginLengths(m, k, h[k]);
    }
    forall a, b | a in h.Keys && b in h.Keys && h[a] == h[b] ensures a == b {
      OriginUnique(m, a, b, h[a]);
    }
  }

  /** In a restored dictionary every key was read from its own line. */
  lemma OriginsAreKeys(m: map<string, string>)
    requires Parse(Print(m)) == m
    ensures forall k <- m.Keys :: Origin(m, k, k)
  {
    var h := OriginMap(m, m.Keys);
    OriginLengthens(m, h);
    PermutationKeepsLengths(h, m.Keys);
    forall k | k in m.Keys ensures Origin(m, k, k) {
      OriginLengths(m, k, h[k]);
    }
  }

  /** A dictionary survives printing and parsing exactly when all its entries are
      printable: one bad entry is never made up for by the others. */
  lemma RoundTripExactly(m: map<string, string>)
    ensures Parse(Print(m)) == m <==> forall k <- m.Keys :: Printable(k, m[k])
  {
    if forall k <- m.Keys :: Printable(k, m[k]) {
      RoundTrip(m);
    }
    if Parse(Print(m)) == m {
      RestoredNewlineFree(m);
      OriginsAreKeys(m);
      forall k | k in m.Keys ensures Printable(k, m[k]) {
        assert Origin(m, k, k);
        assert NewlineFree(Entry(k, m[k]));
        FormatIsLine(k, m[k]);
        GoodLineExactly(FormatLine(k, m[k]), k, m[k]);
      }
    }
  }

  /** `to_properties` leaves its own output's meaning alone exactly when every
      parsed value is nonempty and has no blanks inside its quotes. */
  lemma ToPropertiesStable(content: string)
    ensures Parse(Print(Parse(content))) == Parse(content) <==>
            forall k <- Parse(content).Keys :: Parse(content)[k] != "" && Trimmed(Parse(content)[k])
  {
    var m := Parse(content);
    RoundTripExactly(m);
    forall k | k in m.Keys ensures Printable(k, m[k]) <==> m[k] != "" && Trimmed(m[k]) {
      ParsedShape(content, k);
    }
  }
}
