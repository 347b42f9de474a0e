/** The Kubernetes objects of a HadoopCluster and their builders
    (k8s_resources.py, config_xml.py). */
module HadoopResources {
  import opened Wrappers
  import opened Text
  import opened HadoopSpec
  import opened Topology
  import opened HadoopNames

  /** The identity of the custom resource. */
  datatype Cr = Cr(apiVersion: string, kind: string, namespace: string, name: string, uid: string)

  /** Library code and text templates the model leaves uninterpreted. */
  datatype Python = Python(
    show: Json -> string,
    coreSite: string -> string,
    coreSiteHa: (string, string) -> string,
    hdfsSite: (string, int) -> string,
    hdfsSiteHa: HaSite -> string,
    yarnSite: string -> string,
    mapredSite: string,
    capacityScheduler: string,
    digest: string -> string)

  datatype HaSite = HaSite(
    nameservice: string, nn1Rpc: string, nn2Rpc: string, nn1Http: string, nn2Http: string, qjournal: string,
    replication: int)

  // ---------------------------------------------------------------- objects

  /** Metadata; the labels are a function of cluster and component. */
  datatype Meta = Meta(namespace: string, name: string, cluster: string, component: string, owner: Cr)

  datatype Selector = ByLabels(cluster: string, component: string) | ByPod(pod: string)

  datatype ServiceType = Headless | NodePortService | ClusterIpService

  datatype Port = Port(name: string, number: nat)

  datatype Service = Service(meta: Meta, svcType: ServiceType, selector: Selector, ports: seq<Port>)

  /** The keys of the generated ConfigMaps. */
  datatype ConfigFile = CapacityScheduler | CoreSite | HdfsSite | MapredSite | YarnSite | ZooCfg

  datatype ConfigMap = ConfigMap(meta: Meta, data: map<ConfigFile, string>)

  /** `configMap` is the mounted ConfigMap, `subPaths` the keys mounted from it,
      `waitsFor` the hosts its init containers wait for. */
  datatype StatefulSet = StatefulSet(
    meta: Meta, serviceName: string, replicas: int, configMap: string, subPaths: seq<ConfigFile>,
    waitsFor: seq<string>, revision: string, image: Json, pullPolicy: Json, parts: PodParts,
    storage: Option<(Json, Json)>)

  /** The resource requirements of one container. */
  datatype Requirements = Requirements(requests: Json, limits: Json)

  /** What the pod template takes from blocks of the spec that the builder reads:
      the requirements of its containers and the names of its pull secrets. */
  datatype PodParts = PodParts(resources: seq<Requirements>, pullSecrets: seq<Json>)

  datatype Pdb = Pdb(meta: Meta, minAvailable: nat, selector: Selector)

  datatype Rule = Rule(host: Json, service: string, port: nat)

  datatype Tls = Tls(hosts: seq<Json>, secret: Json)

  datatype Ingress = Ingress(meta: Meta, className: Json, rules: seq<Rule>, tls: Option<Tls>)

  datatype Object = Cm(cm: ConfigMap) | Svc(svc: Service) | Sts(sts: StatefulSet) | Budget(pdb: Pdb) | Ing(ing: Ingress)

  function MetaOf(o: Object): Meta
  {
    match o
    case Cm(cm) => cm.meta
    case Svc(svc) => svc.meta
    case Sts(sts) => sts.meta
    case Budget(pdb) => pdb.meta
    case Ing(ing) => ing.meta
  }

  function ObjectKind(o: Object): Kind
  {
    match o
    case Cm(_) => ConfigMapKind
    case Svc(_) => ServiceKind
    case Sts(_) => StatefulSetKind
    case Budget(_) => PdbKind
    case Ing(_) => IngressKind
  }

  function ObjectRef(o: Object): Ref
  {
    Ref(ObjectKind(o), MetaOf(o).namespace, MetaOf(o).name)
  }

  // ------------------------------------------------------------- host names

  /** The DNS name of one pod of a StatefulSet behind its headless Service. */
  function Host(svc: string, i: nat): string
  {
    svc + "-" + Dec(i) + "." + svc
  }

  /** `[... for i in range(n)]` */
  function Hosts(svc: string, n: int, suffix: string): (hs: seq<string>)
    ensures |hs| == Max(0, n)
    ensures forall i :: 0 <= i < |hs| ==> hs[i] == Host(svc, i) + suffix
  {
    if n <= 0 then [] else Hosts(svc, n - 1, suffix) + [Host(svc, n - 1) + suffix]
  }

  function NameserviceId(cluster: string, isAlnum: char -> bool): string
  {
    var base := Filter(cluster, isAlnum);
    if base != "" then base + "ns" else "hadoopns"
  }

  function Filter(s: string, keep: char -> bool): string
  {
    if s == "" then ""
    else (if keep(s[0]) then [s[0]] else "") + Filter(s[1..], keep)
  }

  predicate IsAlnum(c: char)
  {
    '0' <= c <= '9' || 'a' <= c <= 'z' || 'A' <= c <= 'Z'
  }

  function QjournalUri(cluster: string, jnReplicas: int, nameservice: string): string
  {
    "qjournal://" + Join(Hosts(Name(cluster, SvcJournalNode), jnReplicas, ":8485"), ";") + "/" + nameservice
  }

  function ZkConnectString(cluster: string, zkReplicas: int): string
  {
    Join(Hosts(Name(cluster, SvcZookeeper), zkReplicas, ":2181"), ",")
  }

  function ZooServerLines(cluster: string, replicas: int): (ls: seq<string>)
    ensures |ls| == Max(0, replicas)
  {
    if replicas <= 0 then []
    else ZooServerLines(cluster, replicas - 1) + [ZooServerLine(cluster, replicas - 1)]
  }

  function ZooServerLine(cluster: string, i: nat): string
  {
    "server." + Dec(i + 1) + "=" + Host(Name(cluster, SvcZookeeper), i) + ":2888:3888:participant"
  }

  const ZOO_CFG_HEAD := ["tickTime=2000", "dataDir=/data", "clientPort=2181", "initLimit=10", "syncLimit=5",
                         "4lw.commands.whitelist=srvr,ruok,mntr", "maxClientCnxns=256"]

  /** `build_zookeeper_zoo_cfg` */
  function ZooCfgText(cluster: string, replicas: int): string
  {
    Join(ZOO_CFG_HEAD + ZooServerLines(cluster, replicas), "\n") + "\n"
  }

  // --------------------------------------------------------------- builders

  function MetaFor(cr: Cr, name: string, component: string): Meta
  {
    Meta(cr.namespace, name, cr.name, component, cr)
  }

  function BuildConfigMap(py: Python, cr: Cr, n: Norm): ConfigMap
  {
    var c := cr.name;
    var nn := Name(c, SvcNameNode);
    var core_hdfs :=
      if n.hdfs.ha.enabled then
        var ns := if Truthy(n.hdfs.ha.nameservice) then py.show(n.hdfs.ha.nameservice) else NameserviceId(c, IsAlnum);
        map[CoreSite := py.coreSiteHa("hdfs://" + ns, ZkConnectString(c, n.zk.replicas)),
            HdfsSite := py.hdfsSiteHa(HaSite(ns, Host(nn, 0) + ":9000", Host(nn, 1) + ":9000", Host(nn, 0) + ":9870",
              Host(nn, 1) + ":9870", QjournalUri(c, n.hdfs.ha.jnReplicas, ns), n.hdfs.replication))]
      else
        map[CoreSite := py.coreSite("hdfs://" + Host(nn, 0) + ":9000"),
            HdfsSite := py.hdfsSite(Host(nn, 0) + ":9000", n.hdfs.replication)];
    var yarn :=
      if n.yarn.enabled then
        map[YarnSite := py.yarnSite(Host(Name(c, SvcRm), 0)), MapredSite := py.mapredSite,
            CapacityScheduler := py.capacityScheduler]
      else map[];
    ConfigMap(MetaFor(cr, c + "-hadoop-config", "config"), core_hdfs + yarn)
  }

  function BuildZookeeperConfigMap(cr: Cr, n: Norm): ConfigMap
  {
    ConfigMap(MetaFor(cr, cr.name + "-zookeeper-config", "zookeeper-config"),
              map[ZooCfg := ZooCfgText(cr.name, n.zk.replicas)])
  }

  function HeadlessService(cr: Cr, name: string, component: string, ports: seq<Port>): Service
  {
    Service(MetaFor(cr, name, component), Headless, ByLabels(cr.name, component), ports)
  }

  function OptionalNodeportService(cr: Cr, name: string, component: string, svcType: string, ports: seq<Port>): Option<Service>
  {
    if svcType != "NodePort" then None
    else Some(Service(MetaFor(cr, name, component), NodePortService, ByLabels(cr.name, component), ports))
  }

  function ClusteripServiceForPod(cr: Cr, name: string, pod: string, component: string, ports: seq<Port>): Service
  {
    Service(MetaFor(cr, name, component), ClusterIpService, ByPod(pod), ports)
  }

  function NodeportServiceForPod(cr: Cr, name: string, pod: string, component: string, ports: seq<Port>): Service
  {
    Service(MetaFor(cr, name, component), NodePortService, ByPod(pod), ports)
  }

  const CONFIG_MOUNTS := [CoreSite, HdfsSite]
  const YARN_MOUNTS := [YarnSite, MapredSite, CapacityScheduler]

  /** `_res_requirements(block)`: a block that is no dictionary has no `get`. */
  function ResRequirements(block: Json): Result<Requirements, PyError>
  {
    var fields :- Fields(block);
    Ok(Requirements(Get(fields, Key.requests, Null), Get(fields, Key.limits, Null)))
  }

  function AllRequirements(blocks: seq<Json>): Result<seq<Requirements>, PyError>
  {
    if blocks == [] then Ok([])
    else
      var first :- ResRequirements(blocks[0]);
      var rest :- AllRequirements(blocks[1..]);
      Ok([first] + rest)
  }

  /** `[s["name"] for s in items if s.get("name")]` */
  function SecretNames(items: seq<Json>): Result<seq<Json>, PyError>
  {
    if items == [] then Ok([])
    else
      var fields :- Fields(items[0]);
      var rest :- SecretNames(items[1..]);
      var name := Get(fields, Key.name, Null);
      Ok((if Truthy(name) then [name] else []) + rest)
  }

  /** The same over any value: the characters of a text and the keys of a
      dictionary have no `get`, and other values cannot be iterated. */
  function PullSecrets(secrets: Json): Result<seq<Json>, PyError>
  {
    match secrets
    case List(items) => SecretNames(items)
    case Str(s) => if s == "" then Ok([]) else Err(AttributeError)
    case Obj(fields) => if fields.Keys == {} then Ok([]) else Err(AttributeError)
    case _ => Err(TypeError)
  }

  /** The resource blocks the builder of a StatefulSet reads, in order. */
  function Blocks(n: Norm, r: Role): seq<Json>
  {
    match r
    case StsZookeeper => [n.resources.zookeeper]
    case StsJournalNode => [n.resources.journalnode]
    case StsNameNode => if n.hdfs.ha.enabled then [n.resources.namenode, n.resources.zkfc] else [n.resources.namenode]
    case StsDataNode => [n.resources.datanode]
    case StsRm => [n.resources.resourcemanager]
    case StsNm => [n.resources.nodemanager]
    case _ => []
  }

  /** The part of every StatefulSet builder that can raise. */
  function ReadParts(n: Norm, r: Role): Result<PodParts, PyError>
  {
    var resources :- AllRequirements(Blocks(n, r));
    var secrets :- PullSecrets(n.imagePullSecrets);
    Ok(PodParts(resources, secrets))
  }

  function PartsOf(n: Norm, r: Role): PodParts
  {
    if ReadParts(n, r).Ok? then ReadParts(n, r).value else PodParts([], [])
  }

  function ZookeeperStatefulset(cr: Cr, n: Norm, cmName: string, revision: string): StatefulSet
  {
    StatefulSet(MetaFor(cr, cr.name + "-zookeeper", "zookeeper"), cr.name + "-zookeeper", n.zk.replicas, cmName, [ZooCfg], [],
                revision, n.zk.image, n.imagePullPolicy, PartsOf(n, StsZookeeper),
                Some((n.zk.storageClass, n.zk.storageSize)))
  }

  function JournalnodeStatefulset(cr: Cr, n: Norm, cmName: string, revision: string): StatefulSet
  {
    StatefulSet(MetaFor(cr, cr.name + "-journalnode", "journalnode"), cr.name + "-journalnode", n.hdfs.ha.jnReplicas, cmName,
                CONFIG_MOUNTS, [], revision, n.image, n.imagePullPolicy, PartsOf(n, StsJournalNode),
                Some((n.hdfs.nnStorageClass, Str("10Gi"))))
  }

  /** The hosts the init containers of an HA NameNode wait for. */
  function HaWaits(cr: Cr, n: Norm): seq<string>
  {
    Hosts(Name(cr.name, StsZookeeper), n.zk.replicas, "") + Hosts(Name(cr.name, StsJournalNode), n.hdfs.ha.jnReplicas, "") +
    [Host(Name(cr.name, StsNameNode), 0)]
  }

  function NamenodeHaStatefulset(cr: Cr, n: Norm, cmName: string, revision: string): StatefulSet
  {
    StatefulSet(MetaFor(cr, cr.name + "-namenode", "namenode"), cr.name + "-namenode", n.hdfs.ha.nnReplicas, cmName, CONFIG_MOUNTS,
                HaWaits(cr, n),
                revision, n.image, n.imagePullPolicy, PartsOf(n, StsNameNode),
                Some((n.hdfs.nnStorageClass, n.hdfs.nnStorageSize)))
  }

  function NamenodeStatefulset(cr: Cr, n: Norm, cmName: string, revision: string): StatefulSet
  {
    StatefulSet(MetaFor(cr, cr.name + "-namenode", "namenode"), cr.name + "-namenode", 1, cmName, CONFIG_MOUNTS, [],
                revision, n.image, n.imagePullPolicy, PartsOf(n, StsNameNode),
                Some((n.hdfs.nnStorageClass, n.hdfs.nnStorageSize)))
  }

  /** The NameNode hosts DataNodes and the ResourceManager wait for. */
  function NameNodeHosts(cr: Cr, n: Norm): seq<string>
  {
    [Host(cr.name + "-namenode", 0)] + if n.hdfs.ha.enabled then [Host(cr.name + "-namenode", 1)] else []
  }

  function DatanodeStatefulset(cr: Cr, n: Norm, cmName: string, revision: string): StatefulSet
  {
    StatefulSet(MetaFor(cr, cr.name + "-datanode", "datanode"), cr.name + "-datanode", n.hdfs.dnReplicas, cmName,
                CONFIG_MOUNTS + (if n.yarn.enabled then YARN_MOUNTS else []), NameNodeHosts(cr, n),
                revision, n.image, n.imagePullPolicy, PartsOf(n, StsDataNode),
                Some((n.hdfs.dnStorageClass, n.hdfs.dnStorageSize)))
  }

  function ResourcemanagerStatefulset(cr: Cr, n: Norm, cmName: string, revision: string): StatefulSet
  {
    StatefulSet(MetaFor(cr, cr.name + "-resourcemanager", "resourcemanager"), cr.name + "-resourcemanager", 1, cmName,
                CONFIG_MOUNTS + YARN_MOUNTS, NameNodeHosts(cr, n),
                revision, n.image, n.imagePullPolicy, PartsOf(n, StsRm), None)
  }

  function NodemanagerStatefulset(cr: Cr, n: Norm, cmName: string, revision: string): StatefulSet
  {
    StatefulSet(MetaFor(cr, cr.name + "-nodemanager", "nodemanager"), cr.name + "-nodemanager", n.yarn.nmReplicas, cmName,
                CONFIG_MOUNTS + YARN_MOUNTS, [Host(cr.name + "-resourcemanager", 0)],
                revision, n.image, n.imagePullPolicy, PartsOf(n, StsNm), None)
  }

  function NamenodePdb(cr: Cr): Pdb
  {
    Pdb(MetaFor(cr, cr.name + "-namenode-pdb", "namenode"), 1, ByLabels(cr.name, "namenode"))
  }

  function IngressRules(cr: Cr, n: Norm): seq<Rule>
  {
    var ing := n.expose.ingress;
    (if n.hdfs.ha.enabled then
       (if Truthy(ing.nn1Host) then [Rule(ing.nn1Host, cr.name + "-namenode-0-web", 9870)] else []) +
       (if Truthy(ing.nn2Host) then [Rule(ing.nn2Host, cr.name + "-namenode-1-web", 9870)] else [])
     else
       (if Truthy(ing.singleHost) then [Rule(ing.singleHost, cr.name + "-namenode-0-web", 9870)] else [])) +
    (if n.yarn.enabled && Truthy(ing.rmHost) then [Rule(ing.rmHost, cr.name + "-resourcemanager-0-web", 8088)] else [])
  }

  function RuleHosts(rules: seq<Rule>): seq<Json>
  {
    if rules == [] then []
    else (if Truthy(rules[0].host) then [rules[0].host] else []) + RuleHosts(rules[1..])
  }

  function IngressObject(cr: Cr, n: Norm): Ingress
  {
    var ing := n.expose.ingress;
    var rules := IngressRules(cr, n);
    var hosts := RuleHosts(rules);
    Ingress(MetaFor(cr, cr.name + "-hadoop-ui", "ingress"), Or(ing.className, Null), rules,
            if Truthy(ing.tlsSecretName) && hosts != [] then Some(Tls(hosts, ing.tlsSecretName)) else None)
  }

  function BuildHadoopIngress(cr: Cr, n: Norm): Option<Ingress>
  {
    if !n.expose.ingress.enabled || IngressRules(cr, n) == [] then None else Some(IngressObject(cr, n))
  }

  // -------------------------------------------------------- config revision

  function FileName(f: ConfigFile): string
  {
    match f
    case CapacityScheduler => "capacity-scheduler.xml"
    case CoreSite => "core-site.xml"
    case HdfsSite => "hdfs-site.xml"
    case MapredSite => "mapred-site.xml"
    case YarnSite => "yarn-site.xml"
    case ZooCfg => "zoo.cfg"
  }

  const FILES := [CapacityScheduler, CoreSite, HdfsSite, MapredSite, YarnSite, ZooCfg]

  /** A name's first two characters tell it from the other names, in this order. */
  function Rank(f: ConfigFile): (char, char)
  {
    match f
    case CapacityScheduler => ('c', 'a')
    case CoreSite => ('c', 'o')
    case HdfsSite => ('h', 'd')
    case MapredSite => ('m', 'a')
    case YarnSite => ('y', 'a')
    case ZooCfg => ('z', 'o')
  }

  lemma NameRank(f: ConfigFile)
    ensures |FileName(f)| >= 2 && Rank(f) == (FileName(f)[0], FileName(f)[1])
  {
  }

  lemma LessByRank(a: string, b: string)
    requires |a| >= 2 && |b| >= 2 && (a[0] < b[0] || (a[0] == b[0] && a[1] < b[1]))
    ensures Less(a, b)
  {
    assert a[1..][0] == a[1] && b[1..][0] == b[1];
  }

  /** `FILES` lists every key in the order `sorted` gives. */
  lemma FilesSorted(i: nat, j: nat)
    requires i < j < |FILES|
    ensures Less(FileName(FILES[i]), FileName(FILES[j]))
  {
    hide FileName, Less;
    NameRank(FILES[i]);
    NameRank(FILES[j]);
    LessByRank(FileName(FILES[i]), FileName(FILES[j]));
  }

  /** `"".join(f"{k}={v}" for k, v in sorted(data.items()))` */
  function Item(data: map<ConfigFile, string>, file: ConfigFile): string
  {
    if file in data then FileName(file) + "=" + data[file] else ""
  }

  function Payload(data: map<ConfigFile, string>, files: seq<ConfigFile>): string
  {
    if files == [] then ""
    else Item(data, files[0]) + Payload(data, files[1..])
  }

  lemma PayloadStep(data: map<ConfigFile, string>, files: seq<ConfigFile>, i: nat)
    requires i < |files|
    ensures Payload(data, files[i..]) == Item(data, files[i]) + Payload(data, files[i + 1..])
  {
    assert files[i..][1..] == files[i + 1..];
  }

  lemma PayloadMoves(data: map<ConfigFile, string>, files: seq<ConfigFile>, i: nat, text: string)
    requires i < |files|
    ensures text + Payload(data, files[i..]) == (text + Item(data, files[i])) + Payload(data, files[i + 1..])
  {
    PayloadStep(data, files, i);
    Associate(text, Item(data, files[i]), Payload(data, files[i + 1..]));
  }

  lemma Associate(a: string, b: string, c: string)
    ensures a + (b + c) == (a + b) + c
  {
  }

  /** The `payload_parts` of one reconcile, joined. */
  function RevisionText(py: Python, cr: Cr, n: Norm): string
  {
    Payload(BuildConfigMap(py, cr, n).data, FILES) +
    if n.hdfs.ha.enabled then Payload(BuildZookeeperConfigMap(cr, n).data, FILES) else ""
  }

  function Revision(py: Python, cr: Cr, n: Norm): string
  {
    py.digest(RevisionText(py, cr, n))
  }

  // -------------------------------------------------- the object of each role

  function SwitchesOf(n: Norm): Switches
  {
    var ing := n.expose.ingress;
    Switches(
      n.hdfs.ha.enabled, n.yarn.enabled,
      n.expose.namenodeWeb == NodePort, n.expose.datanodeWeb == NodePort,
      n.expose.resourcemanagerWeb == NodePort, n.expose.nodemanagerWeb == NodePort,
      ing.enabled, Truthy(ing.rmHost),
      if n.hdfs.ha.enabled then Truthy(ing.nn1Host) || Truthy(ing.nn2Host) || (n.yarn.enabled && Truthy(ing.rmHost))
      else Truthy(ing.singleHost) || (n.yarn.enabled && Truthy(ing.rmHost)))
  }

  const NN_PORTS := [Port("web", 9870), Port("rpc", 9000)]
  const WEB_9870 := [Port("web", 9870)]
  const WEB_8088 := [Port("web", 8088)]
  const DN_PORTS := [Port("web", 9864), Port("data", 9866)]
  const RM_PORTS := [Port("web", 8088), Port("rpc", 8032)]
  const NM_PORTS := [Port("web", 8042)]
  const ZK_PORTS := [Port("client", 2181), Port("peer", 2888), Port("election", 3888)]
  const JN_PORTS := [Port("rpc", 8485), Port("web", 8480)]

  /** The Service of a role depends on the identity of the custom resource alone. */
  function ServiceBody(cr: Cr, r: Role): Service
    requires IsService(r)
  {
    var c := cr.name;
    match r
    case SvcZookeeper => HeadlessService(cr, Name(c, r), "zookeeper", ZK_PORTS)
    case SvcJournalNode => HeadlessService(cr, Name(c, r), "journalnode", JN_PORTS)
    case SvcNameNode => HeadlessService(cr, Name(c, r), "namenode", NN_PORTS)
    case SvcNameNodeExternal => OptionalNodeportService(cr, Name(c, r), "namenode", "NodePort", NN_PORTS).value
    case SvcNnPodExternal(i) => NodeportServiceForPod(cr, Name(c, r), c + "-namenode-" + Dec(i), "namenode", NN_PORTS)
    case SvcNnPodWeb(i) => ClusteripServiceForPod(cr, Name(c, r), c + "-namenode-" + Dec(i), "namenode", WEB_9870)
    case SvcRmWeb => ClusteripServiceForPod(cr, Name(c, r), c + "-resourcemanager-0", "resourcemanager", WEB_8088)
    case SvcDataNode => HeadlessService(cr, Name(c, r), "datanode", DN_PORTS)
    case SvcDataNodeExternal => OptionalNodeportService(cr, Name(c, r), "datanode", "NodePort", DN_PORTS).value
    case SvcRm => HeadlessService(cr, Name(c, r), "resourcemanager", RM_PORTS)
    case SvcRmExternal => OptionalNodeportService(cr, Name(c, r), "resourcemanager", "NodePort", RM_PORTS).value
    case SvcNm => HeadlessService(cr, Name(c, r), "nodemanager", NM_PORTS)
    case SvcNmExternal => OptionalNodeportService(cr, Name(c, r), "nodemanager", "NodePort", NM_PORTS).value
  }

  function StatefulSetWith(cr: Cr, n: Norm, r: Role, revision: string): StatefulSet
    requires KindOf(r) == StatefulSetKind
  {
    var cm := Name(cr.name, CmHadoop);
    match r
    case StsZookeeper => ZookeeperStatefulset(cr, n, Name(cr.name, CmZookeeper), revision)
    case StsJournalNode => JournalnodeStatefulset(cr, n, cm, revision)
    case StsNameNode =>
      if n.hdfs.ha.enabled then NamenodeHaStatefulset(cr, n, cm, revision) else NamenodeStatefulset(cr, n, cm, revision)
    case StsDataNode => DatanodeStatefulset(cr, n, cm, revision)
    case StsRm => ResourcemanagerStatefulset(cr, n, cm, revision)
    case StsNm => NodemanagerStatefulset(cr, n, cm, revision)
  }

  /** The builder of a StatefulSet: it raises, or returns the object. */
  function BuildStatefulSet(cr: Cr, n: Norm, r: Role, revision: string): Result<StatefulSet, PyError>
    requires KindOf(r) == StatefulSetKind
  {
    match ReadParts(n, r)
    case Err(e) => Err(e)
    case Ok(_) => Ok(StatefulSetWith(cr, n, r, revision))
  }

  function StatefulSetBody(py: Python, cr: Cr, n: Norm, r: Role): StatefulSet
    requires KindOf(r) == StatefulSetKind
  {
    StatefulSetWith(cr, n, r, Revision(py, cr, n))
  }

  /** The object a reconcile of `cr` under `n` builds for a role. */
  function Body(py: Python, cr: Cr, n: Norm, r: Role): Object
  {
    if IsService(r) then Svc(ServiceBody(cr, r))
    else if KindOf(r) == StatefulSetKind then Sts(StatefulSetBody(py, cr, n, r))
    else match r
      case CmHadoop => Cm(BuildConfigMap(py, cr, n))
      case CmZookeeper => Cm(BuildZookeeperConfigMap(cr, n))
      case PdbNameNode => Budget(NamenodePdb(cr))
      case IngUi => Ing(IngressObject(cr, n))
  }

  lemma ServiceRef(cr: Cr, r: Role)
    requires IsService(r)
    ensures ObjectRef(Svc(ServiceBody(cr, r))) == RefOf(cr.namespace, cr.name, r)
  {
  }

  lemma StatefulSetRef(cr: Cr, n: Norm, r: Role, revision: string)
    requires KindOf(r) == StatefulSetKind
    ensures ObjectRef(Sts(StatefulSetWith(cr, n, r, revision))) == RefOf(cr.namespace, cr.name, r)
  {
  }

  /** Every object is stored under the address of its role. */
  lemma BodyRef(py: Python, cr: Cr, n: Norm, r: Role)
    ensures ObjectRef(Body(py, cr, n, r)) == RefOf(cr.namespace, cr.name, r)
  {
    hide ServiceBody, StatefulSetWith, Revision;
    if IsService(r) { ServiceRef(cr, r); } else if KindOf(r) == StatefulSetKind { StatefulSetRef(cr, n, r, Revision(py, cr, n)); }
  }
}
