/** The data of the Go operator's ConfigMap: six files with fixed names, and what
    its hashed text tells of them (configmap.go). */
module GoConfigData {
  import opened Wrappers
  import opened Text
  import opened Properties
  import opened GoConfig
  import opened GoConfigHash

  // ---------------------------------------------- texts that tell where they end

  /** Entries without a '<': their text shows where each name and value ends. */
  predicate Untagged(e: Entry)
  {
    '<' !in e.key && '<' !in e.value
  }

  lemma DropPrefix(p: string, a: string, b: string)
    requires p + a == p + b
    ensures a == b
  {
    assert (p + a)[|p|..] == a && (p + b)[|p|..] == b;
  }

  lemma FirstMark(a: string, tag: string, x: string)
    requires tag != "" && tag[0] !in a
    ensures IndexOf(a + (tag + x), [tag[0]]) == |a|
  {
    assert tag == [tag[0]] + tag[1..];
    assert a + (tag + x) == a + [tag[0]] + (tag[1..] + x);
    FirstAt(a + (tag + x), a, tag[0], tag[1..] + x);
  }

  /** Two texts up to a mark that neither contains, then the same tag. */
  lemma SameUpTo(a: string, b: string, tag: string, x: string, y: string)
    requires tag != "" && tag[0] !in a && tag[0] !in b && a + (tag + x) == b + (tag + y)
    ensures a == b && x == y
  {
    var s := a + (tag + x);
    FirstMark(a, tag, x);
    FirstMark(b, tag, y);
    assert s[..|a|] == a && s[..|b|] == b;
    DropPrefix(a, tag + x, tag + y);
    DropPrefix(tag, x, y);
  }

  lemma BlockTells(t: Tags, e: Entry, f: Entry, x: string, y: string)
    requires Sound(t) && Untagged(e) && Untagged(f) && Block(t, e) + x == Block(t, f) + y
    ensures e == f && x == y
  {
    BlockShape(t, e, x);
    BlockShape(t, f, y);
    DropPrefix(t.open, e.key + (t.between + (e.value + (t.close + x))), f.key + (t.between + (f.value + (t.close + y))));
    SameUpTo(e.key, f.key, t.between, e.value + (t.close + x), f.value + (t.close + y));
    SameUpTo(e.value, f.value, t.close, x, y);
  }

  lemma BodyStep(t: Tags, es: seq<Entry>, x: string)
    requires es != []
    ensures Body(t, es) + x == Block(t, es[0]) + (Body(t, es[1..]) + x)
  {
    BodyFront(t, es);
  }

  lemma OnePrefix(a: string, b: string, s: string)
    requires a <= s && b <= s
    ensures a <= b || b <= a
  {
    assert s[..|a|] == a && s[..|b|] == b;
  }

  lemma FooterFirst(t: Tags, es: seq<Entry>, x: string)
    requires Sound(t)
    ensures t.footer <= Body(t, es) + x <==> es == []
  {
    if es == [] {
      assert Body(t, es) == t.footer;
    } else {
      BodyStep(t, es, x);
      BlockShape(t, es[0], Body(t, es[1..]) + x);
      if t.footer <= Body(t, es) + x { OnePrefix(t.open, t.footer, Body(t, es) + x); }
    }
  }

  /** No body of a site file is the start of another. */
  lemma {:induction false} BodyTells(t: Tags, es: seq<Entry>, fs: seq<Entry>, x: string, y: string)
    requires Sound(t) && (forall e <- es :: Untagged(e)) && (forall f <- fs :: Untagged(f))
    requires Body(t, es) + x == Body(t, fs) + y
    ensures es == fs && x == y
    decreases |es|
  {
    FooterFirst(t, es, x);
    FooterFirst(t, fs, y);
    if es == [] {
      assert Body(t, es) == t.footer == Body(t, fs);
      DropPrefix(t.footer, x, y);
    } else {
      BodyStep(t, es, x);
      BodyStep(t, fs, y);
      BlockTells(t, es[0], fs[0], Body(t, es[1..]) + x, Body(t, fs[1..]) + y);
      BodyTells(t, es[1..], fs[1..], x, y);
      assert es == [es[0]] + es[1..] && fs == [fs[0]] + fs[1..];
    }
  }

  lemma XmlTells(t: Tags, es: seq<Entry>, fs: seq<Entry>, x: string, y: string)
    requires Sound(t) && (forall e <- es :: Untagged(e)) && (forall f <- fs :: Untagged(f))
    requires XmlText(t, es) + x == XmlText(t, fs) + y
    ensures es == fs && x == y
  {
    assert XmlText(t, es) + x == t.header + (Body(t, es) + x) && XmlText(t, fs) + y == t.header + (Body(t, fs) + y);
    DropPrefix(t.header, Body(t, es) + x, Body(t, fs) + y);
    BodyTells(t, es, fs, x, y);
  }

  // ------------------------------------------------------------ hadoop-env.sh

  /** The fixed texts around the four heap sizes. */
  datatype EnvParts = EnvParts(head: string, second: string, third: string, fourth: string, tail: string)

  const ENV := EnvParts(
    "#!/bin/bash\n# Auto-generated by Hadoop Operator - Do not edit manually\n\nexport HADOOP_NAMENODE_HEAPSIZE=",
    "\nexport HADOOP_DATANODE_HEAPSIZE=",
    "\nexport YARN_RESOURCEMANAGER_HEAPSIZE=",
    "\nexport YARN_NODEMANAGER_HEAPSIZE=",
    "\n\n" + "# General Hadoop settings\nexport HADOOP_HOME=/opt/hadoop\nexport HADOOP_CONF_DIR=/opt/hadoop/etc/hadoop\n" +
    "export HADOOP_LOG_DIR=/opt/hadoop/logs\nexport HADOOP_PID_DIR=/tmp/hadoop-pids\n" +
    "export JAVA_HOME=$(dirname $(dirname $(readlink -f $(which java))))\n")

  predicate Broken(p: EnvParts)
  {
    && p.second != "" && p.second[0] == '\n' && p.third != "" && p.third[0] == '\n'
    && p.fourth != "" && p.fourth[0] == '\n' && p.tail != "" && p.tail[0] == '\n'
  }

  lemma EnvBroken()
    ensures Broken(ENV)
  {
    assert "\n\n" <= ENV.tail;
  }

  /** The heap sizes of NameNode, DataNode, ResourceManager and NodeManager. */
  datatype Heaps = Heaps(nn: string, dn: string, rm: string, nm: string)

  function EnvText(p: EnvParts, h: Heaps): string
  {
    p.head + (h.nn + (p.second + (h.dn + (p.third + (h.rm + (p.fourth + (h.nm + p.tail)))))))
  }

  predicate Numbers(h: Heaps)
  {
    AllDigits(h.nn) && AllDigits(h.dn) && AllDigits(h.rm) && AllDigits(h.nm)
  }

  lemma EnvShape(p: EnvParts, h: Heaps, x: string)
    ensures EnvText(p, h) + x ==
            p.head + (h.nn + (p.second + (h.dn + (p.third + (h.rm + (p.fourth + (h.nm + (p.tail + x))))))))
  {
  }

  lemma NumberUpTo(a: string, b: string, tag: string, x: string, y: string)
    requires AllDigits(a) && AllDigits(b) && tag != "" && tag[0] == '\n' && a + (tag + x) == b + (tag + y)
    ensures a == b && x == y
  {
    SameUpTo(a, b, tag, x, y);
  }

  lemma EnvTells(p: EnvParts, g: Heaps, h: Heaps, x: string, y: string)
    requires Broken(p) && Numbers(g) && Numbers(h) && EnvText(p, g) + x == EnvText(p, h) + y
    ensures g == h && x == y
  {
    EnvShape(p, g, x);
    EnvShape(p, h, y);
    var g4, h4 := g.nm + (p.tail + x), h.nm + (p.tail + y);
    var g3, h3 := g.rm + (p.fourth + g4), h.rm + (p.fourth + h4);
    var g2, h2 := g.dn + (p.third + g3), h.dn + (p.third + h3);
    DropPrefix(p.head, g.nn + (p.second + g2), h.nn + (p.second + h2));
    NumberUpTo(g.nn, h.nn, p.second, g2, h2);
    NumberUpTo(g.dn, h.dn, p.third, g3, h3);
    NumberUpTo(g.rm, h.rm, p.fourth, g4, h4);
    NumberUpTo(g.nm, h.nm, p.tail, x, y);
  }

  // ------------------------------------------------------------- the six files

  const CAPACITY_FILE := "capacity-scheduler.xml"
  const CORE_FILE := "core-site.xml"
  const ENV_FILE := "hadoop-env.sh"
  const HDFS_FILE := "hdfs-site.xml"
  const MAPRED_FILE := "mapred-site.xml"
  const YARN_FILE := "yarn-site.xml"

  const FILES := [CAPACITY_FILE, CORE_FILE, ENV_FILE, HDFS_FILE, MAPRED_FILE, YARN_FILE]

  ghost predicate SiteText(v: string)
  {
    exists es: seq<Entry> :: (forall e <- es :: Untagged(e)) && v == XmlText(TAGS, es)
  }

  ghost predicate HeapText(v: string)
  {
    exists h: Heaps :: Numbers(h) && v == EnvText(ENV, h)
  }

  /** What the operator stores under a file name. */
  ghost predicate StoredIn(f: string, v: string)
  {
    if f == ENV_FILE then HeapText(v) else SiteText(v)
  }

  ghost predicate OperatorData(data: map<string, string>)
  {
    data.Keys == KeySet(FILES) && forall f <- data.Keys :: StoredIn(f, data[f])
  }

  lemma SiteTells(v: string, w: string, x: string, y: string)
    requires SiteText(v) && SiteText(w) && v + x == w + y
    ensures v == w && x == y
  {
    var es: seq<Entry> :| (forall e <- es :: Untagged(e)) && v == XmlText(TAGS, es);
    var fs: seq<Entry> :| (forall e <- fs :: Untagged(e)) && w == XmlText(TAGS, fs);
    TagsSound();
    XmlTells(TAGS, es, fs, x, y);
  }

  lemma HeapTells(v: string, w: string, x: string, y: string)
    requires HeapText(v) && HeapText(w) && v + x == w + y
    ensures v == w && x == y
  {
    var g: Heaps :| Numbers(g) && v == EnvText(ENV, g);
    var h: Heaps :| Numbers(h) && w == EnvText(ENV, h);
    EnvBroken();
    EnvTells(ENV, g, h, x, y);
  }

  lemma LineSplit(k: string, v: string, rest: string)
    ensures SerialLine(k, v) + rest == (k + "=") + (v + ("\n" + rest))
  {
  }

  lemma LineOf(k: string, v: string, w: string, x: string, y: string)
    requires StoredIn(k, v) && StoredIn(k, w) && SerialLine(k, v) + x == SerialLine(k, w) + y
    ensures v == w && x == y
  {
    LineSplit(k, v, x);
    LineSplit(k, w, y);
    DropPrefix(k + "=", v + ("\n" + x), w + ("\n" + y));
    if k == ENV_FILE { HeapTells(v, w, "\n" + x, "\n" + y); } else { SiteTells(v, w, "\n" + x, "\n" + y); }
    DropPrefix("\n", x, y);
  }

  lemma {:induction false} FilesTell(a: map<string, string>, b: map<string, string>, keys: seq<string>)
    requires forall k <- keys :: k in a && k in b && StoredIn(k, a[k]) && StoredIn(k, b[k])
    requires SerialKeys(a, keys) == SerialKeys(b, keys)
    ensures forall k <- keys :: a[k] == b[k]
  {
    hide StoredIn;
    if keys != [] {
      LineOf(keys[0], a[keys[0]], b[keys[0]], SerialKeys(a, keys[1..]), SerialKeys(b, keys[1..]));
      FilesTell(a, b, keys[1..]);
      assert keys == [keys[0]] + keys[1..];
    }
  }

  lemma SameData(a: map<string, string>, b: map<string, string>, keys: seq<string>)
    requires a.Keys == b.Keys && (forall k <- a.Keys :: k in keys) && (forall k <- keys :: k in a && a[k] == b[k])
    ensures a == b
  {
  }

  lemma SameText(a: map<string, string>, b: map<string, string>)
    requires OperatorData(a) && OperatorData(b) && Serial(a) == Serial(b)
    ensures a == b
  {
    var keys := SortedKeys(a.Keys);
    FilesTell(a, b, keys);
    SameData(a, b, keys);
  }

  /** For the data the operator stores, with values that hold no '<': the hashed
      texts are equal if and only if the data are. */
  lemma SerialInjective(a: map<string, string>, b: map<string, string>)
    requires OperatorData(a) && OperatorData(b)
    ensures Serial(a) == Serial(b) <==> a == b
  {
    if Serial(a) == Serial(b) { SameText(a, b); }
  }

  /** `getConfigHash` up to the digest: the text of the stored data, or nothing when it cannot be read. */
  method GetConfigText(stored: Option<map<string, string>>) returns (text: Option<string>)
    ensures text == ConfigText(stored)
  {
    if stored.None? { return None; }
    var t := ComputeConfigText(stored.value);
    text := Some(t);
  }

  ghost function ConfigText(stored: Option<map<string, string>>): Option<string>
  {
    match stored case None => None case Some(data) => Some(Serial(data))
  }

  /** The pod annotation stays the same exactly while the ConfigMap does, or
      while it cannot be read. */
  lemma AnnotationTells(a: Option<map<string, string>>, b: Option<map<string, string>>)
    requires (a.Some? ==> OperatorData(a.value)) && (b.Some? ==> OperatorData(b.value))
    ensures ConfigText(a) == ConfigText(b) <==> a == b
  {
    if a.Some? && b.Some? { SerialInjective(a.value, b.value); }
  }

  // -------------------------------------------- with a '<' the text is ambiguous

  /** From the end of a value through the end of its file and the start of file
      `g` to the value of `j` there. */
  function Crossing(t: Tags, g: string, j: string): string
  {
    t.close + (t.footer + "\n" + g + "=" + t.header) + (t.open + j + t.between)
  }

  lemma Shift(l: string, v: string, n: string, u: string, w: string, r: string)
    ensures l + (v + n + u) + n + w + r == l + v + n + (u + n + w) + r
  {
  }

  lemma TwoFiles(t: Tags, f: string, g: string, es: seq<Entry>, k: string, v: string, j: string, w: string, fs: seq<Entry>)
    ensures SerialLine(f, XmlText(t, es + [Entry(k, v)])) + SerialLine(g, XmlText(t, [Entry(j, w)] + fs)) ==
            (f + "=" + t.header + Blocks(t, es) + t.open + k + t.between) + v + Crossing(t, g, j) + w +
            (t.close + Blocks(t, fs) + t.footer + "\n")
  {
    assert (es + [Entry(k, v)])[..|es|] == es;
    BlocksFront(t, [Entry(j, w)] + fs);
    assert ([Entry(j, w)] + fs)[1..] == fs;
    FirstFile(t, f, Blocks(t, es), k, v);
    SecondFile(t, g, j, w, Blocks(t, fs));
    Meet(f + "=" + t.header + Blocks(t, es) + t.open + k + t.between, v, t.close, t.footer + "\n",
         g + "=" + t.header, t.open + j + t.between, w, t.close + Blocks(t, fs) + t.footer + "\n");
    assert (t.footer + "\n") + (g + "=" + t.header) == t.footer + "\n" + g + "=" + t.header;
  }

  lemma FirstFile(t: Tags, f: string, before: string, k: string, v: string)
    ensures SerialLine(f, t.header + ((before + Block(t, Entry(k, v))) + t.footer)) ==
            (f + "=" + t.header + before + t.open + k + t.between) + v + t.close + (t.footer + "\n")
  {
  }

  lemma SecondFile(t: Tags, g: string, j: string, w: string, after: string)
    ensures SerialLine(g, t.header + ((Block(t, Entry(j, w)) + after) + t.footer)) ==
            (g + "=" + t.header) + (t.open + j + t.between) + w + (t.close + after + t.footer + "\n")
  {
  }

  lemma Meet(a: string, v: string, c: string, m: string, n: string, o: string, w: string, z: string)
    ensures (a + v + c + m) + (n + o + w + z) == a + v + (c + (m + n) + o) + w + z
  {
  }

  lemma {:induction false} SerialConcat(data: map<string, string>, a: seq<string>, b: seq<string>)
    requires (forall k <- a :: k in data) && (forall k <- b :: k in data)
    ensures SerialKeys(data, a + b) == SerialKeys(data, a) + SerialKeys(data, b)
  {
    if a == [] {
      assert a + b == b;
    } else {
      assert (a + b)[1..] == a[1..] + b;
      SerialConcat(data, a[1..], b);
    }
  }

  lemma SerialPair(data: map<string, string>, f: string, g: string)
    requires f in data && g in data
    ensures SerialKeys(data, [f, g]) == SerialLine(f, data[f]) + SerialLine(g, data[g])
  {
    assert [f, g][1..] == [g] && [g][1..] == [];
    assert SerialKeys(data, [g]) == SerialLine(g, data[g]);
  }

  lemma SerialAround(data: map<string, string>, pre: seq<string>, f: string, g: string, post: seq<string>)
    requires (forall k <- pre :: k in data) && f in data && g in data && forall k <- post :: k in data
    ensures forall k <- pre + [f, g] + post :: k in data
    ensures SerialKeys(data, pre + [f, g] + post) ==
            SerialKeys(data, pre) + (SerialLine(f, data[f]) + SerialLine(g, data[g])) + SerialKeys(data, post)
  {
    SerialConcat(data, pre + [f, g], post);
    SerialConcat(data, pre, [f, g]);
    SerialPair(data, f, g);
  }

  lemma {:induction false} SerialSame(a: map<string, string>, b: map<string, string>, keys: seq<string>)
    requires forall k <- keys :: k in a && k in b && a[k] == b[k]
    ensures SerialKeys(a, keys) == SerialKeys(b, keys)
  {
    if keys != [] { SerialSame(a, b, keys[1..]); }
  }

  lemma NeighboursApart(keys: seq<string>, pre: seq<string>, f: string, g: string, post: seq<string>)
    requires Sorted(keys) && keys == pre + [f, g] + post
    ensures f != g && f !in pre && g !in pre && f !in post && g !in post
  {
    var n := |pre|;
    assert keys[n] == f && keys[n + 1] == g;
    forall i | 0 <= i < n ensures keys[i] == pre[i] && keys[i] != f && keys[i] != g {
      LessTrichotomy(keys[i], f);
      LessTrichotomy(keys[i], g);
    }
    forall i | 0 <= i < |post| ensures post[i] == keys[n + 2 + i] && post[i] != f && post[i] != g {
      LessTrichotomy(f, keys[n + 2 + i]);
      LessTrichotomy(g, keys[n + 2 + i]);
    }
    LessTrichotomy(f, g);
  }

  /** Both data hold these keys, with the same values. */
  predicate Agree(a: map<string, string>, b: map<string, string>, keys: seq<string>)
  {
    forall k <- keys :: k in a && k in b && a[k] == b[k]
  }

  lemma ParallelSerial(a: map<string, string>, b: map<string, string>, pre: seq<string>, f: string, g: string, post: seq<string>)
    requires Agree(a, b, pre) && Agree(a, b, post) && f in a && g in a && f in b && g in b
    requires SerialLine(f, a[f]) + SerialLine(g, a[g]) == SerialLine(f, b[f]) + SerialLine(g, b[g])
    ensures (forall k <- pre + [f, g] + post :: k in a) && (forall k <- pre + [f, g] + post :: k in b)
    ensures SerialKeys(a, pre + [f, g] + post) == SerialKeys(b, pre + [f, g] + post)
  {
    SerialAround(a, pre, f, g, post);
    SerialAround(b, pre, f, g, post);
    SerialSame(a, b, pre);
    SerialSame(a, b, post);
  }

  lemma LastEntry(m: map<string, string>, p: seq<string>, k: string, v: string)
    requires (forall x <- p :: x in m && x != k)
    ensures EntriesOf(m[k := v], p + [k]) == EntriesOf(m, p) + [Entry(k, v)]
  {
  }

  lemma FirstEntry(m: map<string, string>, q: seq<string>, j: string, v: string)
    requires (forall x <- q :: x in m && x != j)
    ensures EntriesOf(m[j := v], [j] + q) == [Entry(j, v)] + EntriesOf(m, q)
  {
  }

  /** A site file whose last key met is `k`, and one whose first key met is `j`. */
  function EndingIn(m: map<string, string>, p: seq<string>, k: string, v: string): string
    requires forall x <- p :: x in m && x != k
  {
    XmlText(TAGS, EntriesOf(m[k := v], p + [k]))
  }

  function StartingWith(m: map<string, string>, q: seq<string>, j: string, v: string): string
    requires forall x <- q :: x in m && x != j
  {
    XmlText(TAGS, EntriesOf(m[j := v], [j] + q))
  }

  lemma CrossingLines(t: Tags, f: string, g: string, es: seq<Entry>, k: string, j: string, fs: seq<Entry>, u: string, v: string, w: string)
    ensures SerialLine(f, XmlText(t, es + [Entry(k, u + Crossing(t, g, j) + v)])) + SerialLine(g, XmlText(t, [Entry(j, w)] + fs)) ==
            SerialLine(f, XmlText(t, es + [Entry(k, u)])) + SerialLine(g, XmlText(t, [Entry(j, v + Crossing(t, g, j) + w)] + fs))
  {
    var n := Crossing(t, g, j);
    TwoFiles(t, f, g, es, k, u + n + v, j, w, fs);
    TwoFiles(t, f, g, es, k, u, j, v + n + w, fs);
    Shift(f + "=" + t.header + Blocks(t, es) + t.open + k + t.between, u, n, v, w, t.close + Blocks(t, fs) + t.footer + "\n");
  }

  lemma LongerText(t: Tags, es: seq<Entry>, k: string, u: string, v: string)
    requires |u| < |v|
    ensures XmlText(t, es + [Entry(k, u)]) != XmlText(t, es + [Entry(k, v)])
  {
    assert (es + [Entry(k, u)])[..|es|] == es && (es + [Entry(k, v)])[..|es|] == es;
    assert |Block(t, Entry(k, u))| < |Block(t, Entry(k, v))|;
  }

  /** Values that hold a '<' can carry the end of one file and the start of the
      next: for any data, any two site files next to each other in name order and
      any texts `u`, `v`, `w`, two different configurations have the same hashed
      text, with the keys of both sites the same. */
  lemma SerialAmbiguous(data: map<string, string>, pre: seq<string>, f: string, g: string, post: seq<string>,
                        mf: map<string, string>, p: seq<string>, k: string,
                        mg: map<string, string>, q: seq<string>, j: string, u: string, v: string, w: string)
    requires SortedKeys(data.Keys) == pre + [f, g] + post
    requires (forall x <- p :: x in mf && x != k) && (forall x <- q :: x in mg && x != j)
    ensures var n := Crossing(TAGS, g, j);
            var a := data[f := EndingIn(mf, p, k, u + n + v)][g := StartingWith(mg, q, j, w)];
            var b := data[f := EndingIn(mf, p, k, u)][g := StartingWith(mg, q, j, v + n + w)];
            a != b && Serial(a) == Serial(b)
  {
    var n := Crossing(TAGS, g, j);
    TextsCross(f, g, mf, p, k, mg, q, j, u, v, w);
    TwoFilesRewritten(data, pre, f, g, post, EndingIn(mf, p, k, u + n + v), StartingWith(mg, q, j, w),
                      EndingIn(mf, p, k, u), StartingWith(mg, q, j, v + n + w));
  }

  lemma TextsCross(f: string, g: string, mf: map<string, string>, p: seq<string>, k: string,
                   mg: map<string, string>, q: seq<string>, j: string, u: string, v: string, w: string)
    requires (forall x <- p :: x in mf && x != k) && (forall x <- q :: x in mg && x != j)
    ensures var n := Crossing(TAGS, g, j);
            && EndingIn(mf, p, k, u + n + v) != EndingIn(mf, p, k, u)
            && SerialLine(f, EndingIn(mf, p, k, u + n + v)) + SerialLine(g, StartingWith(mg, q, j, w)) ==
               SerialLine(f, EndingIn(mf, p, k, u)) + SerialLine(g, StartingWith(mg, q, j, v + n + w))
  {
    var n := Crossing(TAGS, g, j);
    LastEntry(mf, p, k, u + n + v);
    LastEntry(mf, p, k, u);
    FirstEntry(mg, q, j, w);
    FirstEntry(mg, q, j, v + n + w);
    CrossingLines(TAGS, f, g, EntriesOf(mf, p), k, j, EntriesOf(mg, q), u, v, w);
    CrossingLonger(g, j, u, v);
    LongerText(TAGS, EntriesOf(mf, p), k, u, u + n + v);
  }

  lemma TwoFilesRewritten(data: map<string, string>, pre: seq<string>, f: string, g: string, post: seq<string>,
                          x: string, y: string, x2: string, y2: string)
    requires SortedKeys(data.Keys) == pre + [f, g] + post && x != x2
    requires SerialLine(f, x) + SerialLine(g, y) == SerialLine(f, x2) + SerialLine(g, y2)
    ensures data[f := x][g := y] != data[f := x2][g := y2] && Serial(data[f := x][g := y]) == Serial(data[f := x2][g := y2])
  {
    NeighboursApart(SortedKeys(data.Keys), pre, f, g, post);
    PartsIn(data, pre, f, g, post);
    Rewritten(data, f, g, x, y);
    Rewritten(data, f, g, x2, y2);
    Neighbours(data, data[f := x][g := y], data[f := x2][g := y2], pre, f, g, post);
  }

  lemma Rewritten(data: map<string, string>, f: string, g: string, x: string, y: string)
    requires f in data && g in data && f != g
    ensures var a := data[f := x][g := y]; SameBut(data, a, f, g) && a[f] == x && a[g] == y
  {
  }

  lemma CrossingLonger(g: string, j: string, u: string, v: string)
    ensures |u| < |u + Crossing(TAGS, g, j) + v|
  {
  }

  /** The data are the same but for what these two files hold. */
  predicate SameBut(data: map<string, string>, a: map<string, string>, f: string, g: string)
  {
    a.Keys == data.Keys && forall k <- data.Keys :: k != f && k != g ==> a[k] == data[k]
  }

  lemma AgreeElsewhere(data: map<string, string>, a: map<string, string>, b: map<string, string>, keys: seq<string>, f: string, g: string)
    requires f !in keys && g !in keys && (forall k <- keys :: k in data)
    requires SameBut(data, a, f, g) && SameBut(data, b, f, g)
    ensures Agree(a, b, keys)
  {
  }

  lemma Neighbours(data: map<string, string>, a: map<string, string>, b: map<string, string>,
                   pre: seq<string>, f: string, g: string, post: seq<string>)
    requires SortedKeys(data.Keys) == pre + [f, g] + post
    requires SameBut(data, a, f, g) && SameBut(data, b, f, g) && f in data && g in data
    requires SerialLine(f, a[f]) + SerialLine(g, a[g]) == SerialLine(f, b[f]) + SerialLine(g, b[g])
    ensures Serial(a) == Serial(b)
  {
    NeighboursApart(SortedKeys(data.Keys), pre, f, g, post);
    PartsIn(data, pre, f, g, post);
    AgreeElsewhere(data, a, b, pre, f, g);
    AgreeElsewhere(data, a, b, post, f, g);
    ParallelSerial(a, b, pre, f, g, post);
  }

  lemma PartsIn(data: map<string, string>, pre: seq<string>, f: string, g: string, post: seq<string>)
    requires SortedKeys(data.Keys) == pre + [f, g] + post
    ensures (forall k <- pre :: k in data) && f in data && g in data && forall k <- post :: k in data
  {
    var keys := SortedKeys(data.Keys);
    assert keys[|pre|] == f && keys[|pre| + 1] == g;
    assert f in keys && g in keys;
    assert forall k <- pre :: k in keys;
    assert forall k <- post :: k in keys;
  }
}
