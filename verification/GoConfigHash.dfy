/** The hash of the Go operator's configuration data (configmap.go). The digest
    itself is not modelled: what is hashed is the text below. */
module GoConfigHash {
  import opened Wrappers
  import opened Text
  import opened Properties
  import opened GoConfig

  function SerialLine(k: string, v: string): string
  {
    k + ("=" + (v + "\n"))
  }

  function SerialKeys(data: map<string, string>, keys: seq<string>): string
    requires forall k <- keys :: k in data
  {
    if keys == [] then "" else SerialLine(keys[0], data[keys[0]]) + SerialKeys(data, keys[1..])
  }

  /** The hashed text, a function of the map alone. */
  ghost function Serial(data: map<string, string>): string
  {
    SerialKeys(data, SortedKeys(data.Keys))
  }

  /** `computeConfigHash` up to the digest: the keys are collected in any order, then sorted. */
  method ComputeConfigText(data: map<string, string>) returns (text: string)
    ensures text == Serial(data)
  {
    var keys := SortKeys(data.Keys);
    text := WriteLines(data, keys);
  }

  method WriteLines(data: map<string, string>, keys: seq<string>) returns (text: string)
    requires forall k <- keys :: k in data
    ensures text == SerialKeys(data, keys)
  {
    text := "";
    for i := 0 to |keys|
      invariant text + SerialKeys(data, keys[i..]) == SerialKeys(data, keys)
    {
      assert keys[i..][0] == keys[i] && keys[i..][1..] == keys[i + 1..];
      var line := SerialLine(keys[i], data[keys[i]]);
      Associate(text, line, SerialKeys(data, keys[i + 1..]));
      text := text + line;
    }
  }

  lemma Associate(a: string, b: string, c: string)
    ensures a + (b + c) == (a + b) + c
  {
  }

  // ------------------------------------------------------- what the text tells

  /** Two maps with the same keys and values of the same lengths. */
  predicate SameShape(a: map<string, string>, b: map<string, string>, keys: seq<string>)
  {
    forall k <- keys :: k in a && k in b && |a[k]| == |b[k]|
  }

  lemma LineTells(k: string, v: string, w: string, rest: string, other: string)
    requires |v| == |w| && SerialLine(k, v) + rest == SerialLine(k, w) + other
    ensures v == w && rest == other
  {
    var s := SerialLine(k, v) + rest;
    var i := |k| + 1;
    assert s[i..i + |v|] == v && s[i..i + |w|] == w;
    assert s[i + |v| + 1..] == rest && s[i + |w| + 1..] == other;
  }

  lemma {:induction false} ShapeTells(a: map<string, string>, b: map<string, string>, keys: seq<string>)
    requires SameShape(a, b, keys) && SerialKeys(a, keys) == SerialKeys(b, keys)
    ensures forall k <- keys :: a[k] == b[k]
  {
    if keys != [] {
      LineTells(keys[0], a[keys[0]], b[keys[0]], SerialKeys(a, keys[1..]), SerialKeys(b, keys[1..]));
      ShapeTells(a, b, keys[1..]);
      assert keys == [keys[0]] + keys[1..];
    }
  }

  // --------------------------------------------- the hash depends on the order

  /** The sum of the weights of these keys. */
  ghost function Weight(w: map<string, nat>, s: set<string>): nat
    requires s <= w.Keys
    decreases |s|
  {
    if s == {} then 0
    else
      var x :| x in s;
      w[x] + Weight(w, s - {x})
  }

  lemma {:induction false} WeightAdd(w: map<string, nat>, s: set<string>, y: string)
    requires s <= w.Keys && y in w.Keys && y !in s
    ensures Weight(w, s + {y}) == Weight(w, s) + w[y]
    decreases |s|
  {
    var u := s + {y};
    var x :| x in u && Weight(w, u) == w[x] + Weight(w, u - {x});
    if x == y {
      assert u - {x} == s;
    } else {
      WeightAdd(w, s - {x}, y);
      assert u - {x} == (s - {x}) + {y};
      WeightAdd(w, s - {x}, x);
      assert (s - {x}) + {x} == s;
    }
  }

  /** How much text each entry takes. */
  function Weights(t: Tags, m: map<string, string>): map<string, nat>
  {
    map k | k in m :: |Block(t, Entry(k, m[k]))|
  }

  function KeySet(order: seq<string>): set<string>
  {
    set k | k in order
  }

  lemma {:induction false} BlocksWeight(t: Tags, m: map<string, string>, order: seq<string>)
    requires (forall k <- order :: k in m) && forall i, j :: 0 <= i < j < |order| ==> order[i] != order[j]
    ensures |Blocks(t, EntriesOf(m, order))| == Weight(Weights(t, m), KeySet(order))
    decreases |order|
  {
    if order != [] {
      var n := |order| - 1;
      BlocksWeight(t, m, order[..n]);
      assert EntriesOf(m, order)[..n] == EntriesOf(m, order[..n]);
      WeightAdd(Weights(t, m), KeySet(order[..n]), order[n]);
      assert KeySet(order) == KeySet(order[..n]) + {order[n]};
    }
  }

  /** All iteration orders over a map write texts of the same length. */
  lemma SameLength(t: Tags, m: map<string, string>, a: seq<string>, b: seq<string>)
    requires Enumerates(a, m) && Enumerates(b, m)
    ensures |XmlText(t, EntriesOf(m, a))| == |XmlText(t, EntriesOf(m, b))|
  {
    BlocksWeight(t, m, a);
    BlocksWeight(t, m, b);
    assert KeySet(a) == m.Keys == KeySet(b);
  }

  lemma SameLengthTold(data: map<string, string>, file: string, v: string, w: string)
    requires |v| == |w| && Serial(data[file := v]) == Serial(data[file := w])
    ensures v == w
  {
    var a, b := data[file := v], data[file := w];
    assert a.Keys == b.Keys;
    ShapeTells(a, b, SortedKeys(a.Keys));
    assert file in SortedKeys(a.Keys);
  }

  /** The data with one file written in this order. */
  function Written(data: map<string, string>, file: string, m: map<string, string>, order: seq<string>): map<string, string>
    requires forall k <- order :: k in m
  {
    data[file := XmlText(TAGS, EntriesOf(m, order))]
  }

  /** Two writes of one clean site, whatever the other files hold, have the same
      hashed text if and only if they met the keys in the same order. */
  lemma HashDependsOnOrder(data: map<string, string>, file: string, m: map<string, string>, a: seq<string>, b: seq<string>)
    requires Enumerates(a, m) && Enumerates(b, m) && CleanMap(m)
    ensures Serial(Written(data, file, m, a)) == Serial(Written(data, file, m, b)) <==> a == b
  {
    TagsSound();
    SameLength(TAGS, m, a, b);
    XmlTextTellsOrder(TAGS, m, a, b);
    if Serial(Written(data, file, m, a)) == Serial(Written(data, file, m, b)) {
      SameLengthTold(data, file, XmlText(TAGS, EntriesOf(m, a)), XmlText(TAGS, EntriesOf(m, b)));
    }
  }

  /** The first two keys met the other way round. */
  function Swapped(order: seq<string>): seq<string>
    requires |order| >= 2
  {
    [order[1], order[0]] + order[2..]
  }

  lemma SwappedEnumerates(order: seq<string>, m: map<string, string>)
    requires |order| >= 2 && Enumerates(order, m)
    ensures Enumerates(Swapped(order), m) && Swapped(order) != order
  {
    var b := Swapped(order);
    assert order == [order[0], order[1]] + order[2..];
    forall k ensures k in b <==> k in order { }
    forall i, j | 0 <= i < j < |b| ensures b[i] != b[j] {
      assert i >= 2 ==> b[i] == order[i];
      assert j >= 2 ==> b[j] == order[j];
    }
    assert b[0] != order[0];
  }

  lemma Unchanged(data: map<string, string>, f: string, v: string)
    requires f in data && data[f] == v
    ensures data[f := v] == data
  {
  }

  /** A file written in one order, and the same with its first two keys swapped. */
  lemma SwappedHash(data: map<string, string>, f: string, m: map<string, string>, order: seq<string>)
    requires f in data && Enumerates(order, m) && data[f] == XmlText(TAGS, EntriesOf(m, order))
    requires CleanMap(m) && |order| >= 2
    ensures Enumerates(Swapped(order), m)
    ensures Serial(Written(data, f, m, Swapped(order))) != Serial(data)
  {
    SwappedEnumerates(order, m);
    HashDependsOnOrder(data, f, m, order, Swapped(order));
    Unchanged(data, f, XmlText(TAGS, EntriesOf(m, order)));
  }

  lemma SortedEnumerates(m: map<string, string>)
    ensures Enumerates(SortedKeys(m.Keys), m)
  {
    var ks := SortedKeys(m.Keys);
    forall i, j | 0 <= i < j < |ks| ensures ks[i] != ks[j] { LessTrichotomy(ks[i], ks[j]); }
  }

  lemma OneOrder(m: map<string, string>, a: seq<string>, b: seq<string>)
    requires Enumerates(a, m) && Enumerates(b, m) && |m.Keys| <= 1
    ensures a == b
  {
    AllAre(m, a);
    AllAre(m, b);
  }

  lemma TwoKeys(m: map<string, string>, a: seq<string>)
    requires Enumerates(a, m) && |a| >= 2
    ensures |m.Keys| >= 2
  {
    var rest := m.Keys - {a[0]};
    assert a[0] in a && a[1] in a && a[1] in rest;
    assert |m.Keys| == |rest| + 1;
  }

  lemma AllAre(m: map<string, string>, a: seq<string>)
    requires Enumerates(a, m) && |m.Keys| <= 1
    ensures a == SortedKeys(m.Keys)
  {
    if |a| >= 2 { TwoKeys(m, a); }
    var ks := SortedKeys(m.Keys);
    if a != [] { assert a[0] in ks; }
    if ks != [] { assert ks[0] in a; }
  }

  /** The hashed text is the same for all iteration orders. */
  ghost predicate HashStable(data: map<string, string>, file: string, m: map<string, string>)
  {
    forall a: seq<string>, b: seq<string> :: Enumerates(a, m) && Enumerates(b, m) ==>
      Serial(Written(data, file, m, a)) == Serial(Written(data, file, m, b))
  }

  /** The configuration determines the hashed text only of sites with at most one entry. */
  lemma HashStableExactly(data: map<string, string>, file: string, m: map<string, string>)
    requires CleanMap(m)
    ensures HashStable(data, file, m) <==> |m.Keys| <= 1
  {
    if |m.Keys| <= 1 {
      forall a: seq<string>, b: seq<string> | Enumerates(a, m) && Enumerates(b, m)
        ensures Serial(Written(data, file, m, a)) == Serial(Written(data, file, m, b))
      {
        OneOrder(m, a, b);
      }
    } else {
      var order := SortedKeys(m.Keys);
      SortedEnumerates(m);
      SwappedEnumerates(order, m);
      HashDependsOnOrder(data, file, m, order, Swapped(order));
    }
  }

  // -------------------------------------------------------------------- heap

  /** `computeHeapSize` for a memory limit in bytes: four fifths of it in
      mebibytes, or the default. */
  function HeapMegabytes(memory: nat): nat
  {
    memory / (1024 * 1024) * 80 / 100
  }

  function HeapSize(memory: Option<nat>, default: string): string
  {
    if memory.Some? && HeapMegabytes(memory.value) > 0 then Dec(HeapMegabytes(memory.value)) else default
  }

  lemma HeapZero(memory: nat)
    ensures HeapMegabytes(memory) == 0 <==> memory < 2 * 1024 * 1024
  {
  }

  lemma HeapBound(memory: nat)
    ensures HeapMegabytes(memory) * 1024 * 1024 * 100 <= memory * 80
  {
    var mib := memory / (1024 * 1024);
    assert mib * (1024 * 1024) <= memory;
    assert mib * 80 / 100 * 100 <= mib * 80;
  }

  /** The default is used exactly without a limit, or with one below two mebibytes;
      otherwise the heap is never more than four fifths of the limit. */
  lemma HeapWithinLimit(memory: nat, default: string)
    ensures HeapSize(Some(memory), default) == if memory < 2 * 1024 * 1024 then default else Dec(HeapMegabytes(memory))
    ensures HeapMegabytes(memory) * 1024 * 1024 * 100 <= memory * 80
  {
    HeapZero(memory);
    HeapBound(memory);
  }
}
