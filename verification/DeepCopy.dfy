/** The generated deep copies of the qoder operator (zz_generated.deepcopy.go).
    Structs are values; maps, slices and pointers are references into the heap.
    `nil` is `null`. */
module DeepCopy {
  import opened Wrappers

  /** A map, or the target of a pointer. */
  class Box<T> {
    var value: T

    constructor (v: T)
      ensures value == v
    {
      value := v;
    }
  }

  /** What the Kubernetes packages define; it holds no reference here. */
  datatype External = External(id: int)

  type StringMap = Box<map<string, string>>
  type StringMap? = Box?<map<string, string>>

  // --------------------------------------------------------------- the structs

  datatype Storage = Storage(size: string, className: Box?<string>, accessMode: string)

  datatype Service = Service(kind: string, nodePorts: Box?<map<string, int>>, annotations: StringMap?)

  datatype JournalNode = JournalNode(replicas: int, resources: External, storage: Storage)

  datatype Ha = Ha(enabled: bool, zooKeeper: Box?<string>, journalNode: JournalNode)

  datatype NameNode = NameNode(replicas: int, resources: External, storage: Storage, service: Service,
                               ha: Box?<Ha>, affinity: Box?<External>, tolerations: array?<External>)

  datatype Config = Config(coreSite: StringMap?, hdfsSite: StringMap?, yarnSite: StringMap?, mapredSite: StringMap?, capacityScheduler: StringMap?)

  datatype Kerberos = Kerberos(enabled: bool, realm: string, kdc: string, adminServer: string, keytab: string)
  datatype Tls = Tls(enabled: bool, certificate: string)
  datatype Ranger = Ranger(enabled: bool, url: string)

  datatype Security = Security(kerberos: Box?<Kerberos>, tls: Box?<Tls>, ranger: Box?<Ranger>)

  datatype NodeStatus = NodeStatus(replicas: int, ready: int, active: string, standby: array?<string>)

  /** Plain numbers: the status of the data nodes and of the node managers. */
  datatype Nodes = Nodes(replicas: int, ready: int, live: int, dead: int)

  datatype Status = Status(phase: string, conditions: array?<External>, observed: int, nameNode: NodeStatus, dataNode: Nodes,
                           resourceManager: NodeStatus, nodeManager: Nodes)

  datatype Cluster = Cluster(meta: External, nameNode: NameNode, config: Config, security: Security, status: Status)

  // ------------------------------------------- what a struct means, and reaches

  /** The value behind a reference. */
  ghost function Deref<T>(b: Box?<T>): (v: Option<T>)
    reads b
  {
    if b == null then None else Some(b.value)
  }

  ghost function Elements<T>(a: array?<T>): (v: Option<seq<T>>)
    reads a
  {
    if a == null then None else Some(a[..])
  }

  function Reached(o: object?): set<object>
  {
    if o == null then {} else {o}
  }

  datatype StorageValue = StorageValue(size: string, className: Option<string>, accessMode: string)

  ghost function StorageOf(s: Storage): StorageValue
    reads s.className
  {
    StorageValue(s.size, Deref(s.className), s.accessMode)
  }

  datatype ServiceValue = ServiceValue(kind: string, nodePorts: Option<map<string, int>>, annotations: Option<map<string, string>>)

  ghost function ServiceOf(s: Service): ServiceValue
    reads s.nodePorts, s.annotations
  {
    ServiceValue(s.kind, Deref(s.nodePorts), Deref(s.annotations))
  }

  datatype HaValue = HaValue(enabled: bool, zooKeeper: Option<string>, replicas: int, resources: External, storage: StorageValue)

  function HaRefs(h: Ha): set<object>
  {
    Reached(h.zooKeeper) + Reached(h.journalNode.storage.className)
  }

  ghost function HaOf(h: Ha): HaValue
    reads HaRefs(h)
  {
    HaValue(h.enabled, Deref(h.zooKeeper), h.journalNode.replicas, h.journalNode.resources, StorageOf(h.journalNode.storage))
  }

  datatype NameNodeValue = NameNodeValue(replicas: int, resources: External, storage: StorageValue, service: ServiceValue,
                                         ha: Option<HaValue>, affinity: Option<External>, tolerations: Option<seq<External>>)

  /** What the pointer to the HA settings leads to. */
  ghost function HaTargets(b: Box?<Ha>): set<object>
    reads b
  {
    if b == null then {} else HaRefs(b.value)
  }

  ghost function NameNodeRefs(n: NameNode): set<object>
    reads n.ha
  {
    Reached(n.storage.className) + Reached(n.service.nodePorts) + Reached(n.service.annotations) +
    Reached(n.ha) + HaTargets(n.ha) + Reached(n.affinity) + Reached(n.tolerations)
  }

  ghost function NameNodeOf(n: NameNode): NameNodeValue
    reads n.ha, NameNodeRefs(n)
  {
    NameNodeValue(n.replicas, n.resources, StorageOf(n.storage), ServiceOf(n.service),
                  if n.ha == null then None else Some(HaOf(n.ha.value)), Deref(n.affinity), Elements(n.tolerations))
  }

  datatype ConfigValue = ConfigValue(coreSite: Option<map<string, string>>, hdfsSite: Option<map<string, string>>, yarnSite: Option<map<string, string>>,
                                     mapredSite: Option<map<string, string>>, capacityScheduler: Option<map<string, string>>)

  function ConfigRefs(c: Config): set<object>
  {
    Reached(c.coreSite) + Reached(c.hdfsSite) + Reached(c.yarnSite) + Reached(c.mapredSite) + Reached(c.capacityScheduler)
  }

  ghost function ConfigOf(c: Config): ConfigValue
    reads ConfigRefs(c)
  {
    ConfigValue(Deref(c.coreSite), Deref(c.hdfsSite), Deref(c.yarnSite), Deref(c.mapredSite), Deref(c.capacityScheduler))
  }

  datatype SecurityValue = SecurityValue(kerberos: Option<Kerberos>, tls: Option<Tls>, ranger: Option<Ranger>)

  function SecurityRefs(s: Security): set<object>
  {
    Reached(s.kerberos) + Reached(s.tls) + Reached(s.ranger)
  }

  ghost function SecurityOf(s: Security): SecurityValue
    reads SecurityRefs(s)
  {
    SecurityValue(Deref(s.kerberos), Deref(s.tls), Deref(s.ranger))
  }

  datatype StatusValue = StatusValue(phase: string, conditions: Option<seq<External>>, observed: int,
                                     nameNode: NodeStatusValue, dataNode: Nodes,
                                     resourceManager: NodeStatusValue, nodeManager: Nodes)
  datatype NodeStatusValue = NodeStatusValue(replicas: int, ready: int, active: string, standby: Option<seq<string>>)

  ghost function NodeStatusOf(s: NodeStatus): NodeStatusValue
    reads s.standby
  {
    NodeStatusValue(s.replicas, s.ready, s.active, Elements(s.standby))
  }

  function StatusRefs(s: Status): set<object>
  {
    Reached(s.conditions) + Reached(s.nameNode.standby) + Reached(s.resourceManager.standby)
  }

  ghost function StatusOf(s: Status): StatusValue
    reads StatusRefs(s)
  {
    StatusValue(s.phase, Elements(s.conditions), s.observed, NodeStatusOf(s.nameNode), s.dataNode,
                NodeStatusOf(s.resourceManager), s.nodeManager)
  }

  datatype ClusterValue = ClusterValue(meta: External, nameNode: NameNodeValue, config: ConfigValue, security: SecurityValue, status: StatusValue)

  ghost function ClusterOf(c: Cluster): ClusterValue
    reads c.nameNode.ha, NameNodeRefs(c.nameNode), ConfigRefs(c.config), SecurityRefs(c.security), StatusRefs(c.status)
  {
    ClusterValue(c.meta, NameNodeOf(c.nameNode), ConfigOf(c.config), SecurityOf(c.security), StatusOf(c.status))
  }

  // ------------------------------------------ everything a struct reaches is new

  twostate predicate New(new o: object?)
  {
    o != null ==> fresh(o)
  }

  twostate predicate NewHa(new h: Ha)
  {
    New(h.zooKeeper) && New(h.journalNode.storage.className)
  }

  twostate predicate NewNameNode(new n: NameNode)
    reads n.ha
  {
    && New(n.storage.className) && New(n.service.nodePorts) && New(n.service.annotations)
    && New(n.ha) && (n.ha != null ==> NewHa(n.ha.value)) && New(n.affinity) && New(n.tolerations)
  }

  twostate predicate NewConfig(new c: Config)
  {
    New(c.coreSite) && New(c.hdfsSite) && New(c.yarnSite) && New(c.mapredSite) && New(c.capacityScheduler)
  }

  twostate predicate NewSecurity(new s: Security)
  {
    New(s.kerberos) && New(s.tls) && New(s.ranger)
  }

  twostate predicate NewStatus(new s: Status)
  {
    New(s.conditions) && New(s.nameNode.standby) && New(s.resourceManager.standby)
  }

  twostate predicate NewCluster(new c: Cluster)
    reads c.nameNode.ha
  {
    NewNameNode(c.nameNode) && NewConfig(c.config) && NewSecurity(c.security) && NewStatus(c.status)
  }

  // -------------------------------------------------------------- the building blocks

  /** `*out = new(T); **out = **in`, unless nil. */
  method CopyPointer<T>(b: Box?<T>) returns (r: Box?<T>)
    ensures r != null ==> fresh(r)
    ensures (r == null <==> b == null) && (b != null ==> r.value == b.value)
  {
    r := null;
    if b != null { r := new Box(b.value); }
  }

  /** `*out = make(map..)` and the loop over the entries, in any order. */
  method CopyMap<V>(b: Box?<map<string, V>>) returns (r: Box?<map<string, V>>)
    ensures r != null ==> fresh(r)
    ensures (r == null <==> b == null) && (b != null ==> r.value == b.value)
  {
    if b == null { return null; }
    var out := new Box(map[]);
    var rest := b.value.Keys;
    while rest != {}
      invariant rest <= b.value.Keys
      invariant out.value == map k | k in b.value && k !in rest :: b.value[k]
      decreases |rest|
    {
      var key :| key in rest;
      rest := rest - {key};
      out.value := out.value[key := b.value[key]];
    }
    assert out.value == b.value;
    r := out;
  }

  /** `*out = make([]T, len)` and the loop over the elements. */
  method CopySlice<T(0)>(a: array?<T>) returns (r: array?<T>)
    ensures r != null ==> fresh(r)
    ensures (r == null <==> a == null) && (a != null ==> r[..] == a[..])
  {
    if a == null { return null; }
    var out := new T[a.Length];
    for i := 0 to a.Length
      invariant out[..i] == a[..i]
    {
      out[i] := a[i];
    }
    assert out[..] == out[..a.Length] && a[..] == a[..a.Length];
    r := out;
  }

  // -------------------------------------------------------------- the copies

  method CopyStorage(s: Storage) returns (r: Storage)
    ensures New(r.className) && StorageOf(r) == old(StorageOf(s))
  {
    var className := CopyPointer(s.className);
    r := s.(className := className);
  }

  method CopyService(s: Service) returns (r: Service)
    ensures New(r.nodePorts) && New(r.annotations) && ServiceOf(r) == old(ServiceOf(s))
  {
    var nodePorts := CopyMap(s.nodePorts);
    var annotations := CopyMap(s.annotations);
    r := s.(nodePorts := nodePorts, annotations := annotations);
  }

  /** The references of the HA settings are not the same object. */
  predicate DistinctHa(h: Ha)
  {
    h.zooKeeper != null ==> h.zooKeeper !in Reached(h.journalNode.storage.className)
  }

  method CopyHa(h: Ha) returns (r: Ha)
    ensures NewHa(r) && HaOf(r) == old(HaOf(h)) && DistinctHa(r)
  {
    var zooKeeper := CopyPointer(h.zooKeeper);
    var storage := CopyStorage(h.journalNode.storage);
    r := h.(zooKeeper := zooKeeper, journalNode := h.journalNode.(storage := storage));
  }

  /** No two of the maps are the same object. */
  predicate DistinctMaps(c: Config)
  {
    && (c.coreSite != null ==> c.coreSite !in Reached(c.hdfsSite) + Reached(c.yarnSite) + Reached(c.mapredSite) + Reached(c.capacityScheduler))
    && (c.hdfsSite != null ==> c.hdfsSite !in Reached(c.yarnSite) + Reached(c.mapredSite) + Reached(c.capacityScheduler))
    && (c.yarnSite != null ==> c.yarnSite !in Reached(c.mapredSite) + Reached(c.capacityScheduler))
    && (c.mapredSite != null ==> c.mapredSite !in Reached(c.capacityScheduler))
  }

  /** The copy's maps are apart even where the original's were shared. */
  method CopyConfig(c: Config) returns (r: Config)
    ensures NewConfig(r) && ConfigOf(r) == old(ConfigOf(c)) && DistinctMaps(r)
  {
    var coreSite := CopyMap(c.coreSite);
    var hdfsSite := CopyMap(c.hdfsSite);
    var yarnSite := CopyMap(c.yarnSite);
    var mapredSite := CopyMap(c.mapredSite);
    var capacityScheduler := CopyMap(c.capacityScheduler);
    r := Config(coreSite, hdfsSite, yarnSite, mapredSite, capacityScheduler);
  }

  method CopySecurity(s: Security) returns (r: Security)
    ensures NewSecurity(r) && SecurityOf(r) == old(SecurityOf(s))
  {
    var kerberos := CopyPointer(s.kerberos);
    var tls := CopyPointer(s.tls);
    var ranger := CopyPointer(s.ranger);
    r := Security(kerberos, tls, ranger);
  }

  /** The copy's slices of names are apart even where the original's were shared. */
  method CopyStatus(s: Status) returns (r: Status)
    ensures NewStatus(r) && StatusOf(r) == old(StatusOf(s))
    ensures r.nameNode.standby != null ==> r.nameNode.standby != r.resourceManager.standby
  {
    var conditions := CopySlice(s.conditions);
    var nameNode := CopySlice(s.nameNode.standby);
    var resourceManager := CopySlice(s.resourceManager.standby);
    r := s.(conditions := conditions, nameNode := s.nameNode.(standby := nameNode),
            resourceManager := s.resourceManager.(standby := resourceManager));
  }

  method CopyHaPointer(b: Box?<Ha>) returns (r: Box?<Ha>)
    ensures r == null <==> b == null
    ensures r != null ==> fresh(r) && NewHa(r.value) && HaOf(r.value) == HaOf(b.value) && DistinctHa(r.value)
  {
    if b == null { return null; }
    var h := CopyHa(b.value);
    r := new Box(h);
  }

  /** The references of a name node that lead to nothing further. */
  ghost predicate SameLinks(r: NameNode, n: NameNode)
    reads r.affinity, r.tolerations, n.affinity, n.tolerations
  {
    Deref(r.affinity) == Deref(n.affinity) && Elements(r.tolerations) == Elements(n.tolerations)
  }

  method CopyLinks(n: NameNode) returns (affinity: Box?<External>, tolerations: array?<External>)
    ensures (affinity != null ==> fresh(affinity)) && (tolerations != null ==> fresh(tolerations))
    ensures SameLinks(n.(affinity := affinity, tolerations := tolerations), n)
  {
    affinity := CopyPointer(n.affinity);
    tolerations := CopySlice(n.tolerations);
  }

  method CopyPlain(n: NameNode) returns (storage: Storage, service: Service)
    ensures New(storage.className) && New(service.nodePorts) && New(service.annotations)
    ensures StorageOf(storage) == old(StorageOf(n.storage)) && ServiceOf(service) == old(ServiceOf(n.service))
  {
    storage := CopyStorage(n.storage);
    service := CopyService(n.service);
  }

  ghost predicate SameHa(a: Box?<Ha>, b: Box?<Ha>)
    reads a, b, if a == null then {} else HaRefs(a.value), if b == null then {} else HaRefs(b.value)
  {
    (a == null <==> b == null) && (a != null ==> HaOf(a.value) == HaOf(b.value))
  }

  lemma NameNodeSame(r: NameNode, n: NameNode)
    requires r.replicas == n.replicas && r.resources == n.resources
    requires StorageOf(r.storage) == StorageOf(n.storage) && ServiceOf(r.service) == ServiceOf(n.service)
    requires SameHa(r.ha, n.ha) && SameLinks(r, n)
    ensures NameNodeOf(r) == NameNodeOf(n)
  {
  }

  /** The copy's pointers to texts are apart. */
  ghost predicate ApartHa(n: NameNode)
    reads n.ha
  {
    n.ha != null ==>
      DistinctHa(n.ha.value) &&
      (n.ha.value.zooKeeper != null ==> n.ha.value.zooKeeper !in Reached(n.storage.className))
  }

  method CopyNameNode(n: NameNode) returns (r: NameNode)
    ensures NewNameNode(r) && (r.ha != null ==> fresh(r.ha))
    ensures NameNodeOf(r) == NameNodeOf(n) && ApartHa(r)
  {
    var storage, service := CopyPlain(n);
    var affinity, tolerations := CopyLinks(n);
    var ha := CopyHaPointer(n.ha);
    assert SameHa(ha, n.ha);
    r := n.(storage := storage, service := service, ha := ha, affinity := affinity, tolerations := tolerations);
    NameNodeSame(r, n);
  }

  method CopySpec(c: Cluster) returns (nameNode: NameNode, config: Config, security: Security)
    ensures NewNameNode(nameNode) && NewConfig(config) && NewSecurity(security)
    ensures nameNode.ha != null ==> fresh(nameNode.ha)
    ensures NameNodeOf(nameNode) == NameNodeOf(c.nameNode)
    ensures ConfigOf(config) == ConfigOf(c.config) && SecurityOf(security) == SecurityOf(c.security)
  {
    config, security := CopySettings(c);
    nameNode := CopyNameNode(c.nameNode);
    assert ConfigOf(config) == ConfigOf(c.config);
    assert SecurityOf(security) == SecurityOf(c.security);
  }

  method CopySettings(c: Cluster) returns (config: Config, security: Security)
    ensures NewConfig(config) && NewSecurity(security)
    ensures ConfigOf(config) == old(ConfigOf(c.config)) && SecurityOf(security) == old(SecurityOf(c.security))
  {
    security := CopySecurity(c.security);
    config := CopyConfig(c.config);
  }

  lemma ClusterSame(r: Cluster, c: Cluster)
    requires r.meta == c.meta && NameNodeOf(r.nameNode) == NameNodeOf(c.nameNode)
    requires ConfigOf(r.config) == ConfigOf(c.config) && SecurityOf(r.security) == SecurityOf(c.security)
    requires StatusOf(r.status) == StatusOf(c.status)
    ensures ClusterOf(r) == ClusterOf(c)
  {
  }

  /** `DeepCopy`: the copy means the same, and everything it reaches is new,
      whatever the original shares. */
  method CopyCluster(c: Cluster) returns (r: Cluster)
    ensures ClusterOf(r) == ClusterOf(c)
    ensures NewCluster(r) && (r.nameNode.ha != null ==> fresh(r.nameNode.ha))
  {
    var status := CopyStatus(c.status);
    var nameNode, config, security := CopySpec(c);
    r := c.(nameNode := nameNode, config := config, security := security, status := status);
    ClusterSame(r, c);
  }

  /** A copy, and then anything written through it: the copy has changed in that
      place only, and the original keeps its meaning, though no precondition keeps
      the two apart. Here through a map, */
  method ChangeMap(c: Config, site: map<string, string>) returns (r: Config)
    ensures ConfigOf(c) == old(ConfigOf(c))
    ensures ConfigOf(r) == if c.coreSite != null then old(ConfigOf(c)).(coreSite := Some(site)) else old(ConfigOf(c))
  {
    r := CopyConfig(c);
    if r.coreSite != null { r.coreSite.value := site; }
  }

  /** through a pointer in a pointer's target, */
  method ChangePointer(n: NameNode, zooKeeper: string) returns (r: NameNode)
    ensures NameNodeOf(n) == old(NameNodeOf(n))
    ensures NameNodeOf(r) ==
      if n.ha != null && n.ha.value.zooKeeper != null
      then old(NameNodeOf(n)).(ha := Some(old(HaOf(n.ha.value)).(zooKeeper := Some(zooKeeper))))
      else old(NameNodeOf(n))
  {
    r := CopyNameNode(n);
    if r.ha != null && r.ha.value.zooKeeper != null { r.ha.value.zooKeeper.value := zooKeeper; }
  }

  /** and through a slice. */
  method ChangeSlice(s: Status, standby: string) returns (r: Status)
    ensures StatusOf(s) == old(StatusOf(s))
    ensures StatusOf(r) ==
      if s.nameNode.standby != null && s.nameNode.standby.Length > 0
      then old(StatusOf(s)).(nameNode := old(NodeStatusOf(s.nameNode)).(standby := Some(old(s.nameNode.standby[..])[0 := standby])))
      else old(StatusOf(s))
  {
    r := CopyStatus(s);
    var a := r.nameNode.standby;
    if a != null && a.Length > 0 {
      a[0] := standby;
      assert a[..] == old(s.nameNode.standby[..])[0 := standby];
    }
  }
}
