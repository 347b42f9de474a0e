/** `generateHadoopConfig`: the operator's default entries, the user's over them,
    and the heap sizes, as the data of the ConfigMap (configmap.go). */
module GoSites {
  import opened Wrappers
  import opened Text
  import opened Properties
  import opened GoConfig
  import opened GoConfigHash
  import opened GoConfigData

  /** What the defaults depend on. `connection` is the external ZooKeeper's
      connection string, empty where none is given. */
  datatype Setup = Setup(name: string, namespace: string, nnHa: bool, rmHa: bool, connection: string)

  /** What `generateHadoopConfig` reads of a cluster. A memory limit is in bytes. */
  datatype Cluster = Cluster(
    setup: Setup,
    core: map<string, string>, hdfs: map<string, string>, yarn: map<string, string>,
    mapred: map<string, string>, capacity: map<string, string>,
    nnMemory: Option<nat>, dnMemory: Option<nat>, rmMemory: Option<nat>, nmMemory: Option<nat>)

  datatype Site = CapacitySite | CoreSite | HdfsSite | MapredSite | YarnSite

  function FileOf(site: Site): string
  {
    match site
    case CapacitySite => CAPACITY_FILE
    case CoreSite => CORE_FILE
    case HdfsSite => HDFS_FILE
    case MapredSite => MAPRED_FILE
    case YarnSite => YARN_FILE
  }

  /** The DNS name of pod `i` of a component. */
  function PodHost(c: Setup, component: string, i: string): string
  {
    c.name + "-" + component + "-" + i + "." + c.name + "-" + component + "." + c.namespace + ".svc.cluster.local"
  }

  /** `getZooKeeperQuorum` */
  function Quorum(c: Setup): string
  {
    if c.connection != "" then c.connection else PodHost(c, "zookeeper", "0") + ":2181"
  }

  // --------------------------------------------------------------- the defaults

  function CoreDefaults(c: Setup): seq<Entry>
  {
    [
      Entry("hadoop.tmp.dir", "/opt/hadoop/tmpdata"),
      Entry("fs.defaultFS", "hdfs://" + PodHost(c, "namenode", "0") + ":9000"),
      Entry("hadoop.proxyuser.hadoop.hosts", "*"),
      Entry("hadoop.proxyuser.hadoop.groups", "*"),
      Entry("hadoop.proxyuser.hue.hosts", "*"),
      Entry("hadoop.proxyuser.hue.groups", "*"),
      Entry("hadoop.proxyuser.hive.hosts", "*"),
      Entry("hadoop.proxyuser.hive.groups", "*"),
      Entry("hadoop.proxyuser.root.hosts", "*"),
      Entry("hadoop.proxyuser.root.groups", "*")
    ] + if !c.nnHa then [] else [
      Entry("fs.defaultFS", "hdfs://" + c.name),
      Entry("ha.zookeeper.quorum", Quorum(c))
    ]
  }

  function HdfsDefaults(c: Setup): seq<Entry>
  {
    [
      Entry("dfs.namenode.name.dir", "/opt/hadoop/data/nn"),
      Entry("dfs.datanode.data.dir", "/opt/hadoop/data/dn"),
      Entry("dfs.namenode.rpc-address", PodHost(c, "namenode", "0") + ":9000"),
      Entry("dfs.namenode.rpc-bind-host", "0.0.0.0"),
      Entry("dfs.namenode.http-bind-host", "0.0.0.0"),
      Entry("dfs.replication", "3"),
      Entry("dfs.client.use.datanode.hostname", "true"),
      Entry("dfs.permissions.enabled", "false"),
      Entry("dfs.webhdfs.enabled", "true"),
      Entry("dfs.namenode.datanode.registration.ip-hostname-check", "false")
    ] + if !c.nnHa then [] else [
      Entry("dfs.nameservices", c.name),
      Entry("dfs.ha.namenodes." + c.name, "nn1,nn2"),
      Entry("dfs.namenode.rpc-address." + c.name + ".nn1", PodHost(c, "namenode", "0") + ":9000"),
      Entry("dfs.namenode.rpc-address." + c.name + ".nn2", PodHost(c, "namenode", "1") + ":9000"),
      Entry("dfs.namenode.http-address." + c.name + ".nn1", PodHost(c, "namenode", "0") + ":9870"),
      Entry("dfs.namenode.http-address." + c.name + ".nn2", PodHost(c, "namenode", "1") + ":9870"),
      Entry("dfs.client.failover.proxy.provider." + c.name,
            "org.apache.hadoop.hdfs.server.namenode.ha.ConfiguredFailoverProxyProvider"),
      Entry("dfs.ha.fencing.methods", "shell(/bin/true)"),
      Entry("dfs.ha.automatic-failover.enabled", "true")
    ]
  }

  function YarnDefaults(c: Setup): seq<Entry>
  {
    [
      Entry("yarn.resourcemanager.hostname", PodHost(c, "resourcemanager", "0")),
      Entry("yarn.resourcemanager.bind-host", "0.0.0.0"),
      Entry("yarn.resourcemanager.webapp.address", "0.0.0.0:8088"),
      Entry("yarn.nodemanager.bind-host", "0.0.0.0"),
      Entry("yarn.nodemanager.pmem-check-enabled", "false"),
      Entry("yarn.nodemanager.delete.debug-delay-sec", "600"),
      Entry("yarn.nodemanager.vmem-check-enabled", "false"),
      Entry("yarn.nodemanager.aux-services", "mapreduce_shuffle"),
      Entry("yarn.nodemanager.aux-services.mapreduce_shuffle.class", "org.apache.hadoop.mapred.ShuffleHandler"),
      Entry("yarn.acl.enable", "false"),
      Entry("yarn.nodemanager.env-whitelist",
            "JAVA_HOME,HADOOP_COMMON_HOME,HADOOP_HDFS_HOME,HADOOP_CONF_DIR,CLASSPATH_PREPEND_DISTCACHE," +
            "HADOOP_YARN_HOME,HADOOP_HOME,PATH,LANG,TZ,HADOOP_MAPRED_HOME")
    ] + if !c.rmHa then [] else [
      Entry("yarn.resourcemanager.ha.enabled", "true"),
      Entry("yarn.resourcemanager.cluster-id", c.name + "-rm"),
      Entry("yarn.resourcemanager.ha.rm-ids", "rm1,rm2"),
      Entry("yarn.resourcemanager.hostname.rm1", PodHost(c, "resourcemanager", "0")),
      Entry("yarn.resourcemanager.hostname.rm2", PodHost(c, "resourcemanager", "1")),
      Entry("yarn.resourcemanager.webapp.address.rm1", PodHost(c, "resourcemanager", "0") + ":8088"),
      Entry("yarn.resourcemanager.webapp.address.rm2", PodHost(c, "resourcemanager", "1") + ":8088"),
      Entry("yarn.resourcemanager.zk-address", Quorum(c))
    ]
  }

  const MAPRED_DEFAULTS := [
    Entry("mapreduce.framework.name", "yarn"),
    Entry("yarn.app.mapreduce.am.env", "HADOOP_MAPRED_HOME=/opt/hadoop"),
    Entry("mapreduce.map.env", "HADOOP_MAPRED_HOME=/opt/hadoop"),
    Entry("mapreduce.reduce.env", "HADOOP_MAPRED_HOME=/opt/hadoop")]

  const CAPACITY_DEFAULTS := [
    Entry("yarn.scheduler.capacity.maximum-applications", "10000"),
    Entry("yarn.scheduler.capacity.maximum-am-resource-percent", "0.1"),
    Entry("yarn.scheduler.capacity.resource-calculator",
          "org.apache.hadoop.yarn.util.resource.DefaultResourceCalculator"),
    Entry("yarn.scheduler.capacity.root.queues", "default"),
    Entry("yarn.scheduler.capacity.root.default.capacity", "100"),
    Entry("yarn.scheduler.capacity.root.default.user-limit-factor", "1"),
    Entry("yarn.scheduler.capacity.root.default.maximum-capacity", "100"),
    Entry("yarn.scheduler.capacity.root.default.state", "RUNNING"),
    Entry("yarn.scheduler.capacity.root.default.acl_submit_applications", "*"),
    Entry("yarn.scheduler.capacity.root.default.acl_administer_queue", "*"),
    Entry("yarn.scheduler.capacity.node-locality-delay", "40"),
    Entry("yarn.scheduler.capacity.root.default.acl_application_max_priority", "*"),
    Entry("yarn.scheduler.capacity.root.default.maximum-application-lifetime", "-1"),
    Entry("yarn.scheduler.capacity.rack-locality-additional-delay", "-1")]

  /** The entries assigned before the user's, in order; a later one replaces an earlier one. */
  function Defaults(c: Setup, site: Site): seq<Entry>
  {
    match site
    case CapacitySite => CAPACITY_DEFAULTS
    case CoreSite => CoreDefaults(c)
    case HdfsSite => HdfsDefaults(c)
    case MapredSite => MAPRED_DEFAULTS
    case YarnSite => YarnDefaults(c)
  }

  function Overrides(c: Cluster, site: Site): map<string, string>
  {
    match site
    case CapacitySite => c.capacity
    case CoreSite => c.core
    case HdfsSite => c.hdfs
    case MapredSite => c.mapred
    case YarnSite => c.yarn
  }

  /** The effective configuration of a site. */
  function SiteOf(c: Cluster, site: Site): map<string, string>
  {
    LastWins(Defaults(c.setup, site)) + Overrides(c, site)
  }

  const DEFAULT_HEAP := "1024"

  function HeapsOf(c: Cluster): Heaps
  {
    Heaps(HeapSize(c.nnMemory, DEFAULT_HEAP), HeapSize(c.dnMemory, DEFAULT_HEAP),
          HeapSize(c.rmMemory, DEFAULT_HEAP), HeapSize(c.nmMemory, DEFAULT_HEAP))
  }

  lemma HeapsNumbers(c: Cluster)
    ensures Numbers(HeapsOf(c))
  {
    assert AllDigits(DEFAULT_HEAP);
  }

  // -------------------------------------------------------------- what is written

  /** The text is this site's, in some order of its entries. */
  ghost predicate SiteWritten(text: string, m: map<string, string>)
  {
    exists order :: Enumerates(order, m) && text == XmlText(TAGS, EntriesOf(m, order))
  }

  lemma FilesApart(site: Site, other: Site)
    ensures FileOf(site) == FileOf(other) ==> site == other
    ensures FileOf(site) in FILES && FileOf(site) != ENV_FILE
  {
  }

  /** The data of the ConfigMap written for a cluster. */
  ghost predicate Generated(c: Cluster, data: map<string, string>)
  {
    && data.Keys == KeySet(FILES)
    && (forall site: Site :: FileOf(site) in data && SiteWritten(data[FileOf(site)], SiteOf(c, site)))
    && ENV_FILE in data && data[ENV_FILE] == EnvText(ENV, HeapsOf(c))
  }

  method GenerateSiteFile(c: Cluster, site: Site) returns (text: string)
    ensures SiteWritten(text, SiteOf(c, site))
  {
    var merged := MergeOverrides(LastWins(Defaults(c.setup, site)), Overrides(c, site));
    text := GenerateXMLConfig(TAGS, merged);
  }

  /** `generateHadoopEnv` */
  method GenerateHadoopEnv(c: Cluster) returns (text: string)
    ensures text == EnvText(ENV, HeapsOf(c))
  {
    var h := HeapsOf(c);
    text := ENV.head + h.nn;
    text := text + ENV.second + h.dn;
    text := text + ENV.third + h.rm;
    text := text + ENV.fourth + h.nm;
    text := text + ENV.tail;
    EnvInPieces(ENV, h);
  }

  lemma EnvInPieces(p: EnvParts, h: Heaps)
    ensures EnvText(p, h) == p.head + h.nn + p.second + h.dn + p.third + h.rm + p.fourth + h.nm + p.tail
  {
  }

  /** The texts under the names of their files. */
  function ConfigOf(texts: Texts): map<string, string>
  {
    map[CAPACITY_FILE := texts.capacity, CORE_FILE := texts.core, ENV_FILE := texts.env,
        HDFS_FILE := texts.hdfs, MAPRED_FILE := texts.mapred, YARN_FILE := texts.yarn]
  }

  datatype Texts = Texts(capacity: string, core: string, env: string, hdfs: string, mapred: string, yarn: string)

  function TextOf(texts: Texts, site: Site): string
  {
    match site
    case CapacitySite => texts.capacity
    case CoreSite => texts.core
    case HdfsSite => texts.hdfs
    case MapredSite => texts.mapred
    case YarnSite => texts.yarn
  }

  lemma NamesApart()
    ensures forall i, j :: 0 <= i < j < |FILES| ==> FILES[i] != FILES[j]
  {
    assert CAPACITY_FILE[0] == 'c' && CORE_FILE[0] == 'c' && ENV_FILE[0] == 'h' && HDFS_FILE[0] == 'h';
    assert CAPACITY_FILE[1] == 'a' && CORE_FILE[1] == 'o' && ENV_FILE[1] == 'a' && HDFS_FILE[1] == 'd';
    assert MAPRED_FILE[0] == 'm' && YARN_FILE[0] == 'y';
  }

  lemma SixKeys(k: seq<string>, t: Texts)
    requires |k| == 6 && forall i, j :: 0 <= i < j < 6 ==> k[i] != k[j]
    ensures var m := map[k[0] := t.capacity, k[1] := t.core, k[2] := t.env, k[3] := t.hdfs, k[4] := t.mapred, k[5] := t.yarn];
            && m.Keys == KeySet(k)
            && m[k[0]] == t.capacity && m[k[1]] == t.core && m[k[2]] == t.env
            && m[k[3]] == t.hdfs && m[k[4]] == t.mapred && m[k[5]] == t.yarn
  {
  }

  lemma ConfigFiles(t: Texts)
    ensures ConfigOf(t).Keys == KeySet(FILES)
    ensures ENV_FILE in ConfigOf(t) && ConfigOf(t)[ENV_FILE] == t.env
    ensures forall site: Site :: FileOf(site) in ConfigOf(t) && ConfigOf(t)[FileOf(site)] == TextOf(t, site)
  {
    NamesApart();
    SixKeys(FILES, t);
  }

  /** The five files the sites are written to. */
  method GenerateSiteFiles(c: Cluster) returns (core: string, hdfs: string, yarn: string, mapred: string, capacity: string)
    ensures SiteWritten(core, SiteOf(c, CoreSite)) && SiteWritten(hdfs, SiteOf(c, HdfsSite))
    ensures SiteWritten(yarn, SiteOf(c, YarnSite)) && SiteWritten(mapred, SiteOf(c, MapredSite))
    ensures SiteWritten(capacity, SiteOf(c, CapacitySite))
  {
    core := GenerateSiteFile(c, CoreSite);
    hdfs := GenerateSiteFile(c, HdfsSite);
    yarn := GenerateSiteFile(c, YarnSite);
    mapred := GenerateSiteFile(c, MapredSite);
    capacity := GenerateSiteFile(c, CapacitySite);
  }

  ghost predicate TextsWritten(c: Cluster, t: Texts)
  {
    (forall site: Site :: SiteWritten(TextOf(t, site), SiteOf(c, site))) && t.env == EnvText(ENV, HeapsOf(c))
  }

  lemma TextsGenerated(c: Cluster, t: Texts)
    requires TextsWritten(c, t)
    ensures Generated(c, ConfigOf(t))
  {
    ConfigFiles(t);
  }

  /** `generateHadoopConfig`: one file after the other. */
  method GenerateHadoopConfig(c: Cluster) returns (config: map<string, string>)
    ensures Generated(c, config)
  {
    var core, hdfs, yarn, mapred, capacity := GenerateSiteFiles(c);
    var env := GenerateHadoopEnv(c);
    var t := Texts(capacity, core, env, hdfs, mapred, yarn);
    forall site: Site ensures SiteWritten(TextOf(t, site), SiteOf(c, site)) {
      match site { case CapacitySite => case CoreSite => case HdfsSite => case MapredSite => case YarnSite => }
    }
    TextsGenerated(c, t);
    config := ConfigOf(t);
  }

  // ------------------------------------------------------------- what it means

  /** Each generated site reads back as the defaults with the user's entries over
      them, if and only if these are character data. */
  lemma SitesReadBack(c: Cluster, data: map<string, string>, site: Site)
    requires Generated(c, data)
    ensures ReadSite(data[FileOf(site)]) == Some(SiteOf(c, site)) <==> CleanMap(SiteOf(c, site))
  {
    var order :| Enumerates(order, SiteOf(c, site)) && data[FileOf(site)] == XmlText(TAGS, EntriesOf(SiteOf(c, site), order));
    TagsSound();
    XmlReadsBackExactly(TAGS, SiteOf(c, site), order);
  }

  ghost predicate CleanSites(c: Cluster)
  {
    forall site: Site :: CleanMap(SiteOf(c, site))
  }

  lemma CleanSiteText(text: string, m: map<string, string>)
    requires SiteWritten(text, m) && CleanMap(m)
    ensures SiteText(text)
  {
    var order :| Enumerates(order, m) && text == XmlText(TAGS, EntriesOf(m, order));
    forall e | e in EntriesOf(m, order) ensures Untagged(e) {
      var i :| 0 <= i < |order| && EntriesOf(m, order)[i] == e;
      assert order[i] in m.Keys;
    }
  }

  function SiteAt(f: string): Site
  {
    if f == CAPACITY_FILE then CapacitySite
    else if f == CORE_FILE then CoreSite
    else if f == HDFS_FILE then HdfsSite
    else if f == MAPRED_FILE then MapredSite
    else YarnSite
  }

  lemma SiteAtFile(f: string)
    requires f in FILES && f != ENV_FILE
    ensures FileOf(SiteAt(f)) == f
  {
  }

  lemma GeneratedStored(c: Cluster, data: map<string, string>)
    requires Generated(c, data) && CleanSites(c)
    ensures OperatorData(data)
  {
    forall f | f in data.Keys ensures StoredIn(f, data[f]) {
      if f == ENV_FILE {
        HeapsNumbers(c);
      } else {
        SiteAtFile(f);
        CleanSiteText(data[f], SiteOf(c, SiteAt(f)));
      }
    }
  }

  /** The hash tells the configuration: if two clusters with clean sites are
      written as data with the same hashed text, the data are equal, and so are
      all effective sites and all heap sizes. */
  lemma HashTellsConfiguration(c: Cluster, a: map<string, string>, d: Cluster, b: map<string, string>)
    requires Generated(c, a) && Generated(d, b) && CleanSites(c) && CleanSites(d)
    ensures Serial(a) == Serial(b) <==> a == b
    ensures Serial(a) == Serial(b) ==> HeapsOf(c) == HeapsOf(d) && forall site: Site :: SiteOf(c, site) == SiteOf(d, site)
  {
    GeneratedStored(c, a);
    GeneratedStored(d, b);
    SerialInjective(a, b);
    if a == b { DataTellsConfiguration(c, d, a); }
  }

  lemma DataTellsConfiguration(c: Cluster, d: Cluster, a: map<string, string>)
    requires Generated(c, a) && Generated(d, a) && CleanSites(c) && CleanSites(d)
    ensures HeapsOf(c) == HeapsOf(d) && forall site: Site :: SiteOf(c, site) == SiteOf(d, site)
  {
    HeapsNumbers(c);
    HeapsNumbers(d);
    EnvBroken();
    EnvTells(ENV, HeapsOf(c), HeapsOf(d), "", "");
    forall site: Site ensures SiteOf(c, site) == SiteOf(d, site) {
      SitesReadBack(c, a, site);
      SitesReadBack(d, a, site);
    }
  }

  // --------------------------------------- but is not told by the configuration

  lemma TwoMapredKeys(c: Cluster)
    ensures |SiteOf(c, MapredSite).Keys| >= 2
  {
    var m := SiteOf(c, MapredSite);
    LastWinsHas(MAPRED_DEFAULTS, 0);
    LastWinsHas(MAPRED_DEFAULTS, 1);
    var first, second := MAPRED_DEFAULTS[0].key, MAPRED_DEFAULTS[1].key;
    assert first[0] == 'm' && second[0] == 'y';
    assert {first, second} <= m.Keys;
    var rest := m.Keys - {first};
    assert second in rest && |m.Keys| == |rest| + 1;
  }

  lemma {:induction false} LastWinsHas(es: seq<Entry>, i: nat)
    requires i < |es|
    ensures es[i].key in LastWins(es)
    decreases |es|
  {
    if i < |es| - 1 { LastWinsHas(es[..|es| - 1], i); }
  }

  lemma StillWritten(data: map<string, string>, f: string, text: string, g: string, m: map<string, string>)
    requires g in data && SiteWritten(data[g], m) && (g == f ==> SiteWritten(text, m))
    ensures g in data[f := text] && SiteWritten(data[f := text][g], m)
  {
  }

  lemma StillKeys(data: map<string, string>, f: string, text: string, g: string)
    requires f in data && g in data && f != g
    ensures data[f := text].Keys == data.Keys && data[f := text][g] == data[g]
  {
  }

  lemma RewriteSite(c: Cluster, data: map<string, string>, site: Site, text: string)
    requires Generated(c, data) && SiteWritten(text, SiteOf(c, site))
    ensures Generated(c, data[FileOf(site) := text])
  {
    var after := data[FileOf(site) := text];
    forall other: Site ensures FileOf(other) in after && SiteWritten(after[FileOf(other)], SiteOf(c, other)) {
      FilesApart(site, other);
      StillWritten(data, FileOf(site), text, FileOf(other), SiteOf(c, other));
    }
    FilesApart(site, site);
    StillKeys(data, FileOf(site), text, ENV_FILE);
  }

  /** Two iteration orders over a map with two entries or more. */
  lemma AnotherOrder(data: map<string, string>, f: string, m: map<string, string>) returns (text: string)
    requires f in data && SiteWritten(data[f], m) && CleanMap(m) && |m.Keys| >= 2
    ensures SiteWritten(text, m) && Serial(data[f := text]) != Serial(data)
  {
    var order :| Enumerates(order, m) && data[f] == XmlText(TAGS, EntriesOf(m, order));
    EnumeratesAll(m, order);
    SwappedHash(data, f, m, order);
    text := Written(data, f, m, Swapped(order))[f];
  }

  /** Whatever was generated for a cluster, the same function can generate data
      with another hashed text for the same cluster, if some clean site has two
      entries or more. */
  lemma GenerationUnstable(c: Cluster, data: map<string, string>, site: Site) returns (other: map<string, string>)
    requires Generated(c, data) && CleanMap(SiteOf(c, site)) && |SiteOf(c, site).Keys| >= 2
    ensures Generated(c, other) && Serial(other) != Serial(data)
  {
    var text := AnotherOrder(data, FileOf(site), SiteOf(c, site));
    RewriteSite(c, data, site, text);
    other := data[FileOf(site) := text];
  }

  /** The mapred site has: so this happens to every cluster whose mapred site is clean. */
  lemma MapredUnstable(c: Cluster, data: map<string, string>) returns (other: map<string, string>)
    requires Generated(c, data) && CleanMap(SiteOf(c, MapredSite))
    ensures Generated(c, other) && Serial(other) != Serial(data)
  {
    TwoMapredKeys(c);
    other := GenerationUnstable(c, data, MapredSite);
  }

  lemma EnumeratesAll(m: map<string, string>, order: seq<string>)
    requires Enumerates(order, m)
    ensures |order| >= |m.Keys|
  {
    assert m.Keys == KeySet(order);
    KeySetSize(order);
  }

  lemma {:induction false} KeySetSize(order: seq<string>)
    ensures |KeySet(order)| <= |order|
  {
    if order != [] {
      KeySetSize(order[1..]);
      assert KeySet(order) == {order[0]} + KeySet(order[1..]);
    }
  }

  // -------------------------------- two clusters whose data have the same hash

  /** The keys but one, in their order. */
  ghost function OtherKeys(m: map<string, string>, k: string): (p: seq<string>)
    ensures forall x <- p :: x in m && x != k
  {
    SortedKeys(m.Keys - {k})
  }

  lemma OtherKeysDistinct(m: map<string, string>, k: string)
    ensures var p := OtherKeys(m, k);
            (forall x :: x in p <==> x in m.Keys && x != k) && forall i, j :: 0 <= i < j < |p| ==> p[i] != p[j]
  {
    var p := OtherKeys(m, k);
    forall i, j | 0 <= i < j < |p| ensures p[i] != p[j] { LessTrichotomy(p[i], p[j]); }
    assert forall x :: x in p <==> x in m.Keys - {k};
  }

  lemma OneMore(m: map<string, string>, p: seq<string>, k: string, v: string)
    requires (forall x :: x in p <==> x in m.Keys && x != k) && forall i, j :: 0 <= i < j < |p| ==> p[i] != p[j]
    ensures Enumerates(p + [k], m[k := v]) && Enumerates([k] + p, m[k := v])
  {
    assert k !in p;
    forall x ensures x in p + [k] <==> x in m[k := v] { assert x in p <==> x in m.Keys && x != k; }
    forall x ensures x in [k] + p <==> x in m[k := v] { assert x in p <==> x in m.Keys && x != k; }
    assert forall i :: 0 <= i < |p| ==> p[i] in p;
  }

  lemma OtherKeysOrder(m: map<string, string>, k: string, v: string)
    ensures Enumerates(OtherKeys(m, k) + [k], m[k := v]) && Enumerates([k] + OtherKeys(m, k), m[k := v])
  {
    OtherKeysDistinct(m, k);
    OneMore(m, OtherKeys(m, k), k, v);
  }

  /** A site written with this entry last, and one with it first. */
  lemma SiteEnds(m: map<string, string>, k: string, v: string)
    ensures SiteWritten(EndingIn(m, OtherKeys(m, k), k, v), m[k := v])
    ensures SiteWritten(StartingWith(m, OtherKeys(m, k), k, v), m[k := v])
  {
    OtherKeysOrder(m, k, v);
  }

  lemma SiteSorted(m: map<string, string>) returns (text: string)
    ensures SiteWritten(text, m)
  {
    SortedEnumerates(m);
    text := XmlText(TAGS, EntriesOf(m, SortedKeys(m.Keys)));
  }

  lemma FilesSorted()
    ensures SortedKeys(KeySet(FILES)) == [CAPACITY_FILE, CORE_FILE, ENV_FILE] + [HDFS_FILE, MAPRED_FILE] + [YARN_FILE]
  {
    FilesInOrder();
    SortedUnique(SortedKeys(KeySet(FILES)), FILES);
    assert FILES == [CAPACITY_FILE, CORE_FILE, ENV_FILE] + [HDFS_FILE, MAPRED_FILE] + [YARN_FILE];
  }

  lemma LessAt(a: string, b: string)
    requires |a| > 1 && |b| > 1 && (a[0] < b[0] || (a[0] == b[0] && a[1] < b[1]))
    ensures Less(a, b)
  {
    assert a[1..][0] == a[1] && b[1..][0] == b[1];
  }

  lemma FilesInOrder()
    ensures Sorted(FILES)
  {
    assert CAPACITY_FILE[0] == 'c' && CORE_FILE[0] == 'c' && ENV_FILE[0] == 'h' && HDFS_FILE[0] == 'h';
    assert CAPACITY_FILE[1] == 'a' && CORE_FILE[1] == 'o' && ENV_FILE[1] == 'a' && HDFS_FILE[1] == 'd';
    assert MAPRED_FILE[0] == 'm' && YARN_FILE[0] == 'y';
    forall i, j | 0 <= i < j < |FILES| ensures Less(FILES[i], FILES[j]) {
      LessAt(FILES[i], FILES[j]);
    }
  }

  lemma OverrideOne(base: map<string, string>, user: map<string, string>, k: string, v: string)
    ensures base + user[k := v] == (base + user)[k := v]
  {
  }

  /** With one entry of the hdfs site and one of the mapred site set. */
  function Set(c: Cluster, k: string, x: string, j: string, y: string): Cluster
  {
    c.(hdfs := c.hdfs[k := x], mapred := c.mapred[j := y])
  }

  lemma SetHdfs(c: Cluster, k: string, x: string, j: string, y: string)
    ensures SiteOf(Set(c, k, x, j, y), HdfsSite) == SiteOf(c, HdfsSite)[k := x]
  {
    OverrideOne(LastWins(Defaults(c.setup, HdfsSite)), c.hdfs, k, x);
  }

  lemma SetMapred(c: Cluster, k: string, x: string, j: string, y: string)
    ensures SiteOf(Set(c, k, x, j, y), MapredSite) == SiteOf(c, MapredSite)[j := y]
  {
    OverrideOne(LastWins(Defaults(c.setup, MapredSite)), c.mapred, j, y);
  }

  lemma OverridesKept(c: Cluster, k: string, x: string, j: string, y: string, site: Site)
    requires site != HdfsSite && site != MapredSite
    ensures Overrides(Set(c, k, x, j, y), site) == Overrides(c, site)
  {
  }

  lemma SameMerge(c: Cluster, d: Cluster, site: Site)
    requires c.setup == d.setup && Overrides(c, site) == Overrides(d, site)
    ensures SiteOf(c, site) == SiteOf(d, site)
  {
  }

  lemma SetOther(c: Cluster, k: string, x: string, j: string, y: string, site: Site)
    requires site != HdfsSite && site != MapredSite
    ensures SiteOf(Set(c, k, x, j, y), site) == SiteOf(c, site)
  {
    OverridesKept(c, k, x, j, y, site);
    SameMerge(c, Set(c, k, x, j, y), site);
  }

  /** The texts of a cluster, but for what `Set` changes. */
  ghost predicate TextsBut(c: Cluster, t: Texts)
  {
    && SiteWritten(t.capacity, SiteOf(c, CapacitySite)) && SiteWritten(t.core, SiteOf(c, CoreSite))
    && SiteWritten(t.yarn, SiteOf(c, YarnSite)) && t.env == EnvText(ENV, HeapsOf(c))
  }

  lemma TextsOf(c: Cluster) returns (t: Texts)
    ensures TextsBut(c, t)
  {
    var capacity := SiteSorted(SiteOf(c, CapacitySite));
    var core := SiteSorted(SiteOf(c, CoreSite));
    var yarn := SiteSorted(SiteOf(c, YarnSite));
    t := Texts(capacity, core, EnvText(ENV, HeapsOf(c)), "", "", yarn);
  }

  /** The texts are those of the sites given one by one. */
  ghost predicate TextsAre(t: Texts, capacity: map<string, string>, core: map<string, string>, hdfs: map<string, string>,
                           mapred: map<string, string>, yarn: map<string, string>)
  {
    SiteWritten(t.capacity, capacity) && SiteWritten(t.core, core) && SiteWritten(t.hdfs, hdfs) &&
    SiteWritten(t.mapred, mapred) && SiteWritten(t.yarn, yarn)
  }

  lemma TextsAreWritten(d: Cluster, t: Texts)
    requires TextsAre(t, SiteOf(d, CapacitySite), SiteOf(d, CoreSite), SiteOf(d, HdfsSite), SiteOf(d, MapredSite), SiteOf(d, YarnSite))
    requires t.env == EnvText(ENV, HeapsOf(d))
    ensures TextsWritten(d, t)
  {
    forall site: Site ensures SiteWritten(TextOf(t, site), SiteOf(d, site)) {
      match site { case CapacitySite => case CoreSite => case HdfsSite => case MapredSite => case YarnSite => }
    }
  }

  lemma SetGenerated(c: Cluster, t: Texts, k: string, x: string, j: string, y: string, hdfs: string, mapred: string)
    requires TextsBut(c, t)
    requires SiteWritten(hdfs, SiteOf(c, HdfsSite)[k := x]) && SiteWritten(mapred, SiteOf(c, MapredSite)[j := y])
    ensures Generated(Set(c, k, x, j, y), ConfigOf(t.(hdfs := hdfs, mapred := mapred)))
  {
    var d, r := Set(c, k, x, j, y), t.(hdfs := hdfs, mapred := mapred);
    SetOther(c, k, x, j, y, CapacitySite);
    SetOther(c, k, x, j, y, CoreSite);
    SetHdfs(c, k, x, j, y);
    SetMapred(c, k, x, j, y);
    SetOther(c, k, x, j, y, YarnSite);
    TextsAreWritten(d, r);
    TextsGenerated(d, r);
  }

  lemma ConfigSet(t: Texts, hdfs: string, mapred: string)
    ensures ConfigOf(t)[HDFS_FILE := hdfs][MAPRED_FILE := mapred] == ConfigOf(t.(hdfs := hdfs, mapred := mapred))
  {
    NamesApart();
    SixSet(FILES, t, hdfs, mapred);
  }

  lemma SixSet(k: seq<string>, t: Texts, hdfs: string, mapred: string)
    requires |k| == 6 && forall i, j :: 0 <= i < j < 6 ==> k[i] != k[j]
    ensures map[k[0] := t.capacity, k[1] := t.core, k[2] := t.env, k[3] := t.hdfs, k[4] := t.mapred, k[5] := t.yarn]
              [k[3] := hdfs][k[4] := mapred] ==
            map[k[0] := t.capacity, k[1] := t.core, k[2] := t.env, k[3] := hdfs, k[4] := mapred, k[5] := t.yarn]
  {
  }

  /** The hash does not tell the configuration once values hold a '<': for every
      cluster, any entry of its hdfs site, any entry of its mapred site and any
      three texts there are two settings of these entries, and data generated for
      each, that differ and have the same hashed text. */
  lemma GeneratedAmbiguous(c: Cluster, k: string, j: string, u: string, v: string, w: string)
      returns (a: map<string, string>, b: map<string, string>)
    ensures var n := Crossing(TAGS, MAPRED_FILE, j);
            && Generated(Set(c, k, u + n + v, j, w), a) && Generated(Set(c, k, u, j, v + n + w), b)
            && a != b && Serial(a) == Serial(b)
  {
    hide SiteOf, Serial, EndingIn, StartingWith, Generated, TextsBut;
    var n := Crossing(TAGS, MAPRED_FILE, j);
    var mf, mg := SiteOf(c, HdfsSite), SiteOf(c, MapredSite);
    var t := TextsOf(c);
    a, b := AmbiguousTexts(t, mf, k, mg, j, u, v, w, n);
    SiteEnds(mf, k, u + n + v);
    SiteEnds(mf, k, u);
    SiteEnds(mg, j, w);
    SiteEnds(mg, j, v + n + w);
    SetGenerated(c, t, k, u + n + v, j, w, EndingIn(mf, OtherKeys(mf, k), k, u + n + v), StartingWith(mg, OtherKeys(mg, j), j, w));
    SetGenerated(c, t, k, u, j, v + n + w, EndingIn(mf, OtherKeys(mf, k), k, u), StartingWith(mg, OtherKeys(mg, j), j, v + n + w));
  }

  lemma AmbiguousTexts(t: Texts, mf: map<string, string>, k: string, mg: map<string, string>, j: string,
                       u: string, v: string, w: string, n: string)
      returns (a: map<string, string>, b: map<string, string>)
    requires n == Crossing(TAGS, MAPRED_FILE, j)
    ensures a == ConfigOf(t.(hdfs := EndingIn(mf, OtherKeys(mf, k), k, u + n + v), mapred := StartingWith(mg, OtherKeys(mg, j), j, w)))
    ensures b == ConfigOf(t.(hdfs := EndingIn(mf, OtherKeys(mf, k), k, u), mapred := StartingWith(mg, OtherKeys(mg, j), j, v + n + w)))
    ensures a != b && Serial(a) == Serial(b)
  {
    var p, q := OtherKeys(mf, k), OtherKeys(mg, j);
    ConfigFiles(t);
    FilesSorted();
    SerialAmbiguous(ConfigOf(t), [CAPACITY_FILE, CORE_FILE, ENV_FILE], HDFS_FILE, MAPRED_FILE, [YARN_FILE],
                    mf, p, k, mg, q, j, u, v, w);
    ConfigSet(t, EndingIn(mf, p, k, u + n + v), StartingWith(mg, q, j, w));
    ConfigSet(t, EndingIn(mf, p, k, u), StartingWith(mg, q, j, v + n + w));
    a := ConfigOf(t.(hdfs := EndingIn(mf, p, k, u + n + v), mapred := StartingWith(mg, q, j, w)));
    b := ConfigOf(t.(hdfs := EndingIn(mf, p, k, u), mapred := StartingWith(mg, q, j, v + n + w)));
  }
}
