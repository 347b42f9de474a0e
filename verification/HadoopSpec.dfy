/** The custom resource's `spec` and its normalisation (k8s_resources.py).
    The CRD keeps unknown fields, so a spec is an arbitrary JSON value and the
    exceptions Python raises on ill-typed fields are part of the model. */
module HadoopSpec {
  import opened Wrappers
  import opened Text

  /** Dictionary keys: the ones the operator reads, and any other. */
  datatype Key =
    | requests | cpu | memory | limits | namenodeStorageClass | namenodeStorageSize
    | datanodeReplicas | datanodeStorageClass | datanodeStorageSize | replication | ha | enabled
    | nameservice | journalnodeReplicas | namenodeReplicas | namenodeWeb | datanodeWeb | resourcemanagerWeb
    | nodemanagerWeb | ingress | className | tlsSecretName | namenodeNn1Host | namenodeNn2Host
    | namenodeSingleHost | resourcemanagerHost | namenode | datanode | resourcemanager | nodemanager
    | journalnode | zookeeper | zkfc | image | imagePullPolicy | imagePullSecrets
    | hdfs | replicas | storageClass | storageSize | yarn | nodemanagerReplicas
    | expose | resources
    | name
    | other(text: string)

  datatype Json =
    | Null
    | Bool(b: bool)
    | Int(i: int)
    | Float(r: real)
    | Str(s: string)
    | List(items: seq<Json>)
    | Obj(fields: map<Key, Json>)

  datatype PyError = AttributeError | TypeError | ValueError

  /** Python's truth value of a decoded JSON value. */
  predicate Truthy(j: Json)
  {
    match j
    case Null => false
    case Bool(b) => b
    case Int(i) => i != 0
    case Float(r) => r != 0.0
    case Str(s) => s != ""
    case List(items) => items != []
    case Obj(fields) => fields.Keys != {}
  }

  /** `x or default` */
  function Or(x: Json, default: Json): Json
  {
    if Truthy(x) then x else default
  }

  /** `d.get(key, default)` */
  function Get(d: map<Key, Json>, key: Key, default: Json): Json
  {
    if key in d then d[key] else default
  }

  /** `d.get(key) or {}`, which is then used as a dictionary. */
  function Section(d: map<Key, Json>, key: Key): Result<map<Key, Json>, PyError>
  {
    Fields(Or(Get(d, key, Null), Obj(map[])))
  }

  function Fields(j: Json): Result<map<Key, Json>, PyError>
  {
    if j.Obj? then Ok(j.fields) else Err(AttributeError)
  }

  /** `int(text)` for an optional sign and ASCII digits. */
  function ParseInt(text: string): Result<int, PyError>
  {
    var t := Strip(text);
    if AllDigits(t) then Ok(Num(t))
    else if t != "" && t[0] == '-' && AllDigits(t[1..]) then Ok(-(Num(t[1..]) as int))
    else if t != "" && t[0] == '+' && AllDigits(t[1..]) then Ok(Num(t[1..]))
    else Err(ValueError)
  }

  /** `int(x)`: floats truncate toward zero. */
  function ToInt(j: Json): Result<int, PyError>
  {
    match j
    case Int(i) => Ok(i)
    case Bool(b) => Ok(if b then 1 else 0)
    case Float(r) => Ok(if r >= 0.0 then r.Floor else -((-r).Floor))
    case Str(s) => ParseInt(s)
    case _ => Err(TypeError)
  }

  datatype ExposeMode = NodePort | ClusterIP

  function ExposeModeOf(j: Json): ExposeMode
  {
    if j == Str("NodePort") then NodePort else ClusterIP
  }

  datatype IngressNorm = IngressNorm(
    enabled: bool, className: Json, tlsSecretName: Json, nn1Host: Json, nn2Host: Json, singleHost: Json, rmHost: Json)

  datatype Resources = Resources(
    namenode: Json, datanode: Json, resourcemanager: Json, nodemanager: Json, journalnode: Json, zookeeper: Json, zkfc: Json)

  datatype HdfsNorm = HdfsNorm(
    nnStorageClass: Json, nnStorageSize: Json, dnReplicas: int, dnStorageClass: Json, dnStorageSize: Json,
    replication: int, ha: HaNorm)

  datatype HaNorm = HaNorm(enabled: bool, nameservice: Json, jnReplicas: int, nnReplicas: int)

  datatype ZkNorm = ZkNorm(image: Json, replicas: int, storageClass: Json, storageSize: Json)

  datatype YarnNorm = YarnNorm(enabled: bool, nmReplicas: int)

  datatype ExposeNorm = ExposeNorm(
    namenodeWeb: ExposeMode, datanodeWeb: ExposeMode, resourcemanagerWeb: ExposeMode, nodemanagerWeb: ExposeMode,
    ingress: IngressNorm)

  datatype Norm = Norm(
    image: Json, imagePullPolicy: Json, imagePullSecrets: Json,
    hdfs: HdfsNorm, zk: ZkNorm, yarn: YarnNorm, expose: ExposeNorm, resources: Resources)

  function Max(a: int, b: int): int { if a < b then b else a }
  function Min(a: int, b: int): int { if a < b then a else b }

  /** The replica adjustment applied to JournalNodes and ZooKeeper under HA. */
  function Quorum(requested: int): int
  {
    var n := Max(3, requested);
    if n % 2 == 0 then n + 1 else n
  }

  const DEFAULT_IMAGE := "zhuyifeiruichuang/hadoop:3.1.1"
  const DEFAULT_PULL_POLICY := "IfNotPresent"

  function ResourceBlock(reqCpu: string, reqMemory: string, limCpu: string, limMemory: string): Json
  {
    Obj(map[Key.requests := Obj(map[Key.cpu := Str(reqCpu), Key.memory := Str(reqMemory)]),
            Key.limits := Obj(map[Key.cpu := Str(limCpu), Key.memory := Str(limMemory)])])
  }

  function NormalizeResources(r: map<Key, Json>): Resources
  {
    Resources(
      Or(Get(r, Key.namenode, Null), ResourceBlock("500m", "2Gi", "2000m", "4Gi")),
      Or(Get(r, Key.datanode, Null), ResourceBlock("500m", "2Gi", "2000m", "4Gi")),
      Or(Get(r, Key.resourcemanager, Null), ResourceBlock("250m", "1Gi", "1000m", "2Gi")),
      Or(Get(r, Key.nodemanager, Null), ResourceBlock("250m", "1Gi", "1000m", "2Gi")),
      Or(Get(r, Key.journalnode, Null), ResourceBlock("250m", "512Mi", "1000m", "1Gi")),
      Or(Get(r, Key.zookeeper, Null), ResourceBlock("100m", "256Mi", "500m", "512Mi")),
      Or(Get(r, Key.zkfc, Null), ResourceBlock("100m", "256Mi", "500m", "512Mi")))
  }

  function NormalizeIngress(ing: map<Key, Json>): IngressNorm
  {
    IngressNorm(
      Truthy(Get(ing, Key.enabled, Bool(false))),
      Get(ing, Key.className, Str("nginx")),
      Or(Get(ing, Key.tlsSecretName, Null), Str("")),
      Or(Get(ing, Key.namenodeNn1Host, Null), Str("")),
      Or(Get(ing, Key.namenodeNn2Host, Null), Str("")),
      Or(Get(ing, Key.namenodeSingleHost, Null), Str("")),
      Or(Get(ing, Key.resourcemanagerHost, Null), Str("")))
  }

  function NormalizeHa(ha: map<Key, Json>): Result<HaNorm, PyError>
  {
    var enabled := Truthy(Get(ha, Key.enabled, Bool(false)));
    var jn :- ToInt(Get(ha, Key.journalnodeReplicas, Int(3)));
    Ok(HaNorm(
      enabled,
      Or(Get(ha, Key.nameservice, Null), Null),
      if enabled then Quorum(jn) else jn,
      if enabled then 2 else 1))
  }

  function NormalizeHdfs(hdfs: map<Key, Json>): Result<HdfsNorm, PyError>
  {
    var dn :- ToInt(Get(hdfs, Key.datanodeReplicas, Int(1)));
    var replication :- ToInt(Get(hdfs, Key.replication, Int(Min(3, Max(1, dn)))));
    var haIn :- Section(hdfs, Key.ha);
    var ha :- NormalizeHa(haIn);
    Ok(HdfsNorm(
      Get(hdfs, Key.namenodeStorageClass, Str("standard")),
      Get(hdfs, Key.namenodeStorageSize, Str("20Gi")),
      dn,
      Get(hdfs, Key.datanodeStorageClass, Str("standard")),
      Get(hdfs, Key.datanodeStorageSize, Str("20Gi")),
      replication,
      ha))
  }

  function NormalizeZk(zk: map<Key, Json>, hdfs: HdfsNorm): Result<ZkNorm, PyError>
  {
    var requested :- ToInt(Get(zk, Key.replicas, Int(3)));
    Ok(ZkNorm(
      Get(zk, Key.image, Str("zookeeper:3.8.4")),
      if hdfs.ha.enabled then Quorum(requested) else requested,
      Or(Get(zk, Key.storageClass, Null), hdfs.nnStorageClass),
      Get(zk, Key.storageSize, Str("8Gi"))))
  }

  function NormalizeYarn(yarn: map<Key, Json>): Result<YarnNorm, PyError>
  {
    var nm :- ToInt(Get(yarn, Key.nodemanagerReplicas, Int(1)));
    Ok(YarnNorm(Truthy(Get(yarn, Key.enabled, Bool(true))), nm))
  }

  function NormalizeExpose(expose: map<Key, Json>): Result<ExposeNorm, PyError>
  {
    var ingress :- Section(expose, Key.ingress);
    Ok(ExposeNorm(
      ExposeModeOf(Get(expose, Key.namenodeWeb, Str("ClusterIP"))),
      ExposeModeOf(Get(expose, Key.datanodeWeb, Str("ClusterIP"))),
      ExposeModeOf(Get(expose, Key.resourcemanagerWeb, Str("ClusterIP"))),
      ExposeModeOf(Get(expose, Key.nodemanagerWeb, Str("ClusterIP"))),
      NormalizeIngress(ingress)))
  }

  /** The dictionaries `normalize_spec` uses at once: `s.get`, `hdfs.get` and
      `expose.get` come before anything else. */
  datatype Sections = Sections(top: map<Key, Json>, hdfs: map<Key, Json>, expose: map<Key, Json>)

  function ReadSections(spec: Json): Result<Sections, PyError>
  {
    var s :- Fields(Or(spec, Obj(map[])));
    var hdfs :- Section(s, Key.hdfs);
    var expose :- Section(s, Key.expose);
    Ok(Sections(s, hdfs, expose))
  }

  /** The rest, each section read where it is first used. */
  function Assemble(d: Sections): Result<Norm, PyError>
  {
    var hdfs :- NormalizeHdfs(d.hdfs);
    var zkIn :- Section(d.top, Key.zookeeper);
    var zk :- NormalizeZk(zkIn, hdfs);
    var yarnIn :- Section(d.top, Key.yarn);
    var yarn :- NormalizeYarn(yarnIn);
    var expose :- NormalizeExpose(d.expose);
    var resources :- Section(d.top, Key.resources);
    Ok(WithTop(d.top, hdfs, zk, yarn, expose, NormalizeResources(resources)))
  }

  function WithTop(top: map<Key, Json>, hdfs: HdfsNorm, zk: ZkNorm, yarn: YarnNorm, expose: ExposeNorm,
                   resources: Resources): Norm
  {
    Norm(
      Get(top, Key.image, Str(DEFAULT_IMAGE)),
      Get(top, Key.imagePullPolicy, Str(DEFAULT_PULL_POLICY)),
      Or(Get(top, Key.imagePullSecrets, Null), List([])),
      hdfs, zk, yarn, expose, resources)
  }

  /** `normalize_spec`: any exception leaves the function before a result exists. */
  function NormalizeSpec(spec: Json): Result<Norm, PyError>
  {
    var sections :- ReadSections(spec);
    Assemble(sections)
  }

  // ------------------------------------------- the dictionary that is returned

  function ExposeJson(m: ExposeMode): Json
  {
    Str(if m == NodePort then "NodePort" else "ClusterIP")
  }

  function HaFields(ha: HaNorm): map<Key, Json>
  {
    map[Key.enabled := Bool(ha.enabled), Key.nameservice := ha.nameservice,
        Key.journalnodeReplicas := Int(ha.jnReplicas), Key.namenodeReplicas := Int(ha.nnReplicas)]
  }

  function HdfsFields(h: HdfsNorm): map<Key, Json>
  {
    map[Key.namenodeStorageClass := h.nnStorageClass, Key.namenodeStorageSize := h.nnStorageSize,
        Key.datanodeReplicas := Int(h.dnReplicas), Key.datanodeStorageClass := h.dnStorageClass,
        Key.datanodeStorageSize := h.dnStorageSize, Key.replication := Int(h.replication),
        Key.ha := Obj(HaFields(h.ha))]
  }

  function ZkFields(z: ZkNorm): map<Key, Json>
  {
    map[Key.image := z.image, Key.replicas := Int(z.replicas),
        Key.storageClass := z.storageClass, Key.storageSize := z.storageSize]
  }

  function YarnFields(y: YarnNorm): map<Key, Json>
  {
    map[Key.enabled := Bool(y.enabled), Key.nodemanagerReplicas := Int(y.nmReplicas)]
  }

  function IngressFields(i: IngressNorm): map<Key, Json>
  {
    map[Key.enabled := Bool(i.enabled), Key.className := i.className, Key.tlsSecretName := i.tlsSecretName,
        Key.namenodeNn1Host := i.nn1Host, Key.namenodeNn2Host := i.nn2Host,
        Key.namenodeSingleHost := i.singleHost, Key.resourcemanagerHost := i.rmHost]
  }

  function ExposeFields(e: ExposeNorm): map<Key, Json>
  {
    map[Key.namenodeWeb := ExposeJson(e.namenodeWeb), Key.datanodeWeb := ExposeJson(e.datanodeWeb),
        Key.resourcemanagerWeb := ExposeJson(e.resourcemanagerWeb), Key.nodemanagerWeb := ExposeJson(e.nodemanagerWeb),
        Key.ingress := Obj(IngressFields(e.ingress))]
  }

  function ResourceFields(r: Resources): map<Key, Json>
  {
    map[Key.namenode := r.namenode, Key.datanode := r.datanode, Key.resourcemanager := r.resourcemanager,
        Key.nodemanager := r.nodemanager, Key.journalnode := r.journalnode, Key.zookeeper := r.zookeeper,
        Key.zkfc := r.zkfc]
  }

  function NormFields(n: Norm): map<Key, Json>
  {
    map[Key.image := n.image, Key.imagePullPolicy := n.imagePullPolicy, Key.imagePullSecrets := n.imagePullSecrets,
        Key.hdfs := Obj(HdfsFields(n.hdfs)), Key.zookeeper := Obj(ZkFields(n.zk)), Key.yarn := Obj(YarnFields(n.yarn)),
        Key.expose := Obj(ExposeFields(n.expose)), Key.resources := Obj(ResourceFields(n.resources))]
  }

  /** The dictionary `normalize_spec` returns. */
  function NormJson(n: Norm): Json
  {
    Obj(NormFields(n))
  }

  // ------------------------------------------------------------- normal forms

  predicate CanonicalHa(ha: HaNorm)
  {
    && (Truthy(ha.nameservice) || ha.nameservice == Null)
    && ha.nnReplicas == (if ha.enabled then 2 else 1)
    && (ha.enabled ==> Quorum(ha.jnReplicas) == ha.jnReplicas)
  }

  predicate CanonicalZk(z: ZkNorm, hdfs: HdfsNorm)
  {
    && (Truthy(z.storageClass) || z.storageClass == hdfs.nnStorageClass)
    && (hdfs.ha.enabled ==> Quorum(z.replicas) == z.replicas)
  }

  predicate CanonicalIngress(ing: IngressNorm)
  {
    && (Truthy(ing.tlsSecretName) || ing.tlsSecretName == Str(""))
    && (Truthy(ing.nn1Host) || ing.nn1Host == Str(""))
    && (Truthy(ing.nn2Host) || ing.nn2Host == Str(""))
    && (Truthy(ing.singleHost) || ing.singleHost == Str(""))
    && (Truthy(ing.rmHost) || ing.rmHost == Str(""))
  }

  predicate CanonicalResources(r: Resources)
  {
    && Truthy(r.namenode) && Truthy(r.datanode) && Truthy(r.resourcemanager) && Truthy(r.nodemanager)
    && Truthy(r.journalnode) && Truthy(r.zookeeper) && Truthy(r.zkfc)
  }

  /** The shape every normalised spec has. */
  predicate Canonical(n: Norm)
  {
    && (Truthy(n.imagePullSecrets) || n.imagePullSecrets == List([]))
    && CanonicalHa(n.hdfs.ha)
    && CanonicalZk(n.zk, n.hdfs)
    && CanonicalIngress(n.expose.ingress)
    && CanonicalResources(n.resources)
  }

  lemma ResourceBlockTruthy(a: string, b: string, c: string, d: string)
    ensures Truthy(ResourceBlock(a, b, c, d))
  {
    assert Key.limits in ResourceBlock(a, b, c, d).fields.Keys;
  }

  lemma ResourcesCanonical(r: map<Key, Json>)
    ensures CanonicalResources(NormalizeResources(r))
  {
    ResourceBlockTruthy("500m", "2Gi", "2000m", "4Gi");
    ResourceBlockTruthy("250m", "1Gi", "1000m", "2Gi");
    ResourceBlockTruthy("250m", "512Mi", "1000m", "1Gi");
    ResourceBlockTruthy("100m", "256Mi", "500m", "512Mi");
  }

  lemma HdfsCanonical(hdfs: map<Key, Json>)
    requires NormalizeHdfs(hdfs).Ok?
    ensures CanonicalHa(NormalizeHdfs(hdfs).value.ha)
  {
  }

  lemma ExposeCanonical(expose: map<Key, Json>)
    requires NormalizeExpose(expose).Ok?
    ensures CanonicalIngress(NormalizeExpose(expose).value.ingress)
  {
  }

  lemma ZkCanonical(zk: map<Key, Json>, hdfs: HdfsNorm)
    requires NormalizeZk(zk, hdfs).Ok?
    ensures CanonicalZk(NormalizeZk(zk, hdfs).value, hdfs)
  {
  }

  lemma AssembledFrom(d: Sections, n: Norm)
    requires Assemble(d) == Ok(n)
    ensures NormalizeHdfs(d.hdfs) == Ok(n.hdfs) && NormalizeExpose(d.expose) == Ok(n.expose)
    ensures Section(d.top, Key.zookeeper).Ok? && NormalizeZk(Section(d.top, Key.zookeeper).value, n.hdfs) == Ok(n.zk)
    ensures Section(d.top, Key.resources).Ok? && n.resources == NormalizeResources(Section(d.top, Key.resources).value)
    ensures Truthy(n.imagePullSecrets) || n.imagePullSecrets == List([])
  {
    hide NormalizeHdfs, NormalizeExpose, NormalizeZk, NormalizeResources, Section;
  }

  lemma AssembleCanonical(d: Sections, n: Norm)
    requires Assemble(d) == Ok(n)
    ensures Canonical(n)
  {
    AssembledFrom(d, n);
    HdfsCanonical(d.hdfs);
    ZkCanonical(Section(d.top, Key.zookeeper).value, n.hdfs);
    ExposeCanonical(d.expose);
    ResourcesCanonical(Section(d.top, Key.resources).value);
  }

  /** A nonempty sub-dictionary under a key is found again by `Section`. */
  lemma SectionFound(d: map<Key, Json>, key: Key, sub: map<Key, Json>, witnessKey: Key)
    requires key in d && d[key] == Obj(sub) && witnessKey in sub
    ensures Section(d, key) == Ok(sub)
  {
    assert witnessKey in sub.Keys;
  }

  lemma HdfsFixed(h: HdfsNorm)
    ensures NormalizeHdfs(HdfsFields(h)) == Ok(h) <==> CanonicalHa(h.ha)
  {
    SectionFound(HdfsFields(h), Key.ha, HaFields(h.ha), Key.enabled);
  }

  lemma ExposeFixed(e: ExposeNorm)
    ensures NormalizeExpose(ExposeFields(e)) == Ok(e) <==> CanonicalIngress(e.ingress)
  {
    SectionFound(ExposeFields(e), Key.ingress, IngressFields(e.ingress), Key.enabled);
  }

  lemma ResourcesFixed(r: Resources)
    ensures NormalizeResources(ResourceFields(r)) == r <==> CanonicalResources(r)
  {
    ResourcesCanonical(ResourceFields(r));
  }

  function NormSections(n: Norm): Sections
  {
    Sections(NormFields(n), HdfsFields(n.hdfs), ExposeFields(n.expose))
  }

  lemma TopTruthy(n: Norm)
    ensures Fields(Or(NormJson(n), Obj(map[]))) == Ok(NormFields(n))
  {
    assert Key.image in NormFields(n).Keys;
  }

  lemma NormSectionsRead(n: Norm)
    ensures ReadSections(NormJson(n)) == Ok(NormSections(n))
  {
    var d := NormSections(n);
    TopTruthy(n);
    SectionFound(d.top, Key.hdfs, d.hdfs, Key.replication);
    SectionFound(d.top, Key.expose, d.expose, Key.namenodeWeb);
  }

  /** The sections read later are found too. */
  lemma LaterSections(n: Norm)
    ensures Section(NormFields(n), Key.zookeeper) == Ok(ZkFields(n.zk))
    ensures Section(NormFields(n), Key.yarn) == Ok(YarnFields(n.yarn))
    ensures Section(NormFields(n), Key.resources) == Ok(ResourceFields(n.resources))
  {
    SectionFound(NormFields(n), Key.zookeeper, ZkFields(n.zk), Key.replicas);
    SectionFound(NormFields(n), Key.yarn, YarnFields(n.yarn), Key.enabled);
    SectionFound(NormFields(n), Key.resources, ResourceFields(n.resources), Key.zkfc);
  }

  lemma ZkFixed(z: ZkNorm, h: HdfsNorm)
    ensures NormalizeZk(ZkFields(z), h) == Ok(z) <==> CanonicalZk(z, h)
  {
  }

  lemma TopFixed(n: Norm)
    requires Truthy(n.imagePullSecrets) || n.imagePullSecrets == List([])
    ensures WithTop(NormFields(n), n.hdfs, n.zk, n.yarn, n.expose, n.resources) == n
  {
  }

  lemma AssembleParts(d: Sections, n: Norm, zk: map<Key, Json>, yarn: map<Key, Json>, resources: map<Key, Json>)
    requires NormalizeHdfs(d.hdfs) == Ok(n.hdfs)
    requires Section(d.top, Key.zookeeper) == Ok(zk) && NormalizeZk(zk, n.hdfs) == Ok(n.zk)
    requires Section(d.top, Key.yarn) == Ok(yarn) && NormalizeYarn(yarn) == Ok(n.yarn)
    requires NormalizeExpose(d.expose) == Ok(n.expose)
    requires Section(d.top, Key.resources) == Ok(resources) && NormalizeResources(resources) == n.resources
    requires WithTop(d.top, n.hdfs, n.zk, n.yarn, n.expose, n.resources) == n
    ensures Assemble(d) == Ok(n)
  {
  }

  lemma AssembleCanonicalSections(n: Norm)
    requires Canonical(n)
    ensures Assemble(NormSections(n)) == Ok(n)
  {
    hide Assemble, NormalizeHdfs, NormalizeExpose, NormalizeZk;
    HdfsFixed(n.hdfs);
    ZkFixed(n.zk, n.hdfs);
    ExposeFixed(n.expose);
    ResourcesFixed(n.resources);
    TopFixed(n);
    LaterSections(n);
    AssembleParts(NormSections(n), n, ZkFields(n.zk), YarnFields(n.yarn), ResourceFields(n.resources));
  }

  // ------------------------------------------- which exception is raised first

  /** The dictionary a section is, or an empty one where it is ill-typed. */
  function Lenient(d: map<Key, Json>, key: Key): map<Key, Json>
  {
    if Section(d, key).Ok? then Section(d, key).value else map[]
  }

  function SectionFails(d: map<Key, Json>, key: Key): Option<PyError>
  {
    if Or(Get(d, key, Null), Obj(map[])).Obj? then None else Some(AttributeError)
  }

  function IntFails(d: map<Key, Json>, key: Key): Option<PyError>
  {
    if key in d && ToInt(d[key]).Err? then Some(ToInt(d[key]).error) else None
  }

  /** Everything that can raise, in the order of the program's lines. */
  function Checks(s: map<Key, Json>): seq<Option<PyError>>
  {
    var hdfs, expose := Lenient(s, Key.hdfs), Lenient(s, Key.expose);
    [
      SectionFails(s, Key.hdfs),
      SectionFails(s, Key.expose),
      IntFails(hdfs, Key.datanodeReplicas),
      IntFails(hdfs, Key.replication),
      SectionFails(hdfs, Key.ha),
      IntFails(Lenient(hdfs, Key.ha), Key.journalnodeReplicas),
      SectionFails(s, Key.zookeeper),
      IntFails(Lenient(s, Key.zookeeper), Key.replicas),
      SectionFails(s, Key.yarn),
      IntFails(Lenient(s, Key.yarn), Key.nodemanagerReplicas),
      SectionFails(expose, Key.ingress),
      SectionFails(s, Key.resources)
    ]
  }

  /** The first failure from `i` on. */
  function FirstFailure(checks: seq<Option<PyError>>, i: nat): Option<PyError>
    decreases |checks| - i
  {
    if i >= |checks| then None
    else if checks[i].Some? then checks[i]
    else FirstFailure(checks, i + 1)
  }

  /** The exception of a result, if it is one. */
  function Failure<T>(r: Result<T, PyError>): Option<PyError>
  {
    match r case Ok(_) => None case Err(e) => Some(e)
  }

  function Then(a: Option<PyError>, b: Option<PyError>): Option<PyError>
  {
    if a.Some? then a else b
  }

  lemma SectionFailure(d: map<Key, Json>, key: Key)
    ensures Failure(Section(d, key)) == SectionFails(d, key)
  {
  }

  lemma HdfsFailure(hdfs: map<Key, Json>)
    ensures Failure(NormalizeHdfs(hdfs)) ==
      Then(IntFails(hdfs, Key.datanodeReplicas), Then(IntFails(hdfs, Key.replication),
      Then(SectionFails(hdfs, Key.ha), IntFails(Lenient(hdfs, Key.ha), Key.journalnodeReplicas))))
  {
  }

  lemma ZkFailure(zk: map<Key, Json>, h: HdfsNorm)
    ensures Failure(NormalizeZk(zk, h)) == IntFails(zk, Key.replicas)
  {
  }

  lemma YarnFailure(yarn: map<Key, Json>)
    ensures Failure(NormalizeYarn(yarn)) == IntFails(yarn, Key.nodemanagerReplicas)
  {
  }

  lemma ExposeFailure(expose: map<Key, Json>)
    ensures Failure(NormalizeExpose(expose)) == SectionFails(expose, Key.ingress)
  {
  }

  /** Sequencing: the first of the parts that fails. */
  lemma AssembleFailure(d: Sections, h: HdfsNorm, zk: Option<PyError>, yarn: Option<PyError>)
    requires NormalizeHdfs(d.hdfs) == Ok(h)
    requires zk == Then(Failure(Section(d.top, Key.zookeeper)), Failure(NormalizeZk(Lenient(d.top, Key.zookeeper), h)))
    requires yarn == Then(Failure(Section(d.top, Key.yarn)), Failure(NormalizeYarn(Lenient(d.top, Key.yarn))))
    ensures Failure(Assemble(d)) ==
      Then(zk, Then(yarn, Then(Failure(NormalizeExpose(d.expose)), Failure(Section(d.top, Key.resources)))))
  {
  }

  lemma LateFailure(d: Sections, h: HdfsNorm)
    requires NormalizeHdfs(d.hdfs) == Ok(h)
    ensures Failure(Assemble(d)) ==
      Then(SectionFails(d.top, Key.zookeeper), Then(IntFails(Lenient(d.top, Key.zookeeper), Key.replicas),
      Then(SectionFails(d.top, Key.yarn), Then(IntFails(Lenient(d.top, Key.yarn), Key.nodemanagerReplicas),
      Then(SectionFails(d.expose, Key.ingress), SectionFails(d.top, Key.resources))))))
  {
    ZkFailure(Lenient(d.top, Key.zookeeper), h);
    YarnFailure(Lenient(d.top, Key.yarn));
    ExposeFailure(d.expose);
    SectionFailure(d.top, Key.zookeeper);
    SectionFailure(d.top, Key.yarn);
    SectionFailure(d.top, Key.resources);
    AssembleFailure(d, h, Then(SectionFails(d.top, Key.zookeeper), IntFails(Lenient(d.top, Key.zookeeper), Key.replicas)),
                    Then(SectionFails(d.top, Key.yarn), IntFails(Lenient(d.top, Key.yarn), Key.nodemanagerReplicas)));
  }

  lemma OneCheck(c: seq<Option<PyError>>, i: nat)
    requires i < |c|
    ensures FirstFailure(c, i) == Then(c[i], FirstFailure(c, i + 1))
  {
  }

  lemma ThreeChecks(c: seq<Option<PyError>>, i: nat)
    requires i + 3 <= |c|
    ensures FirstFailure(c, i) == Then(c[i], Then(c[i + 1], Then(c[i + 2], FirstFailure(c, i + 3))))
  {
    OneCheck(c, i);
    OneCheck(c, i + 1);
    OneCheck(c, i + 2);
  }

  lemma ChecksFailure(c: seq<Option<PyError>>)
    requires |c| == 12
    ensures FirstFailure(c, 0) ==
      Then(c[0], Then(c[1], Then(Then(c[2], Then(c[3], Then(c[4], c[5]))),
      Then(c[6], Then(c[7], Then(c[8], Then(c[9], Then(c[10], c[11]))))))))
  {
    ThreeChecks(c, 0);
    ThreeChecks(c, 3);
    ThreeChecks(c, 6);
    ThreeChecks(c, 9);
    assert FirstFailure(c, 12) == None;
  }

  /** Normalisation raises exactly if one of the checks does, and then the
      exception of the first one in the program's order. */
  lemma RaisesFirst(spec: Json)
    ensures Failure(NormalizeSpec(spec)) ==
      if Or(spec, Obj(map[])).Obj? then FirstFailure(Checks(Or(spec, Obj(map[])).fields), 0) else Some(AttributeError)
  {
    if Or(spec, Obj(map[])).Obj? {
      var s := Or(spec, Obj(map[])).fields;
      ChecksFailure(Checks(s));
      HdfsFailure(Lenient(s, Key.hdfs));
      SectionsRead(spec, s);
      if SectionFails(s, Key.hdfs).None? && SectionFails(s, Key.expose).None? {
        var d := Sections(s, Lenient(s, Key.hdfs), Lenient(s, Key.expose));
        if NormalizeHdfs(d.hdfs).Ok? { LateFailure(d, NormalizeHdfs(d.hdfs).value); } else { HdfsFirst(d); }
      }
    }
  }

  lemma SectionsRead(spec: Json, s: map<Key, Json>)
    requires Or(spec, Obj(map[])) == Obj(s)
    ensures ReadSections(spec) ==
      match Then(SectionFails(s, Key.hdfs), SectionFails(s, Key.expose))
      case Some(e) => Err(e)
      case None => Ok(Sections(s, Lenient(s, Key.hdfs), Lenient(s, Key.expose)))
  {
  }

  lemma HdfsFirst(d: Sections)
    requires NormalizeHdfs(d.hdfs).Err?
    ensures Failure(Assemble(d)) == Failure(NormalizeHdfs(d.hdfs))
  {
  }

  /** The normal forms are exactly the specs normalisation leaves alone. */
  lemma CanonicalFixed(n: Norm)
    ensures NormalizeSpec(NormJson(n)) == Ok(n) <==> Canonical(n)
  {
    NormSectionsRead(n);
    if Canonical(n) { AssembleCanonicalSections(n); }
    if Assemble(NormSections(n)) == Ok(n) { AssembleCanonical(NormSections(n), n); }
  }

  /** Normalising a normalised spec changes nothing. */
  lemma NormalizeIdempotent(spec: Json)
    requires NormalizeSpec(spec).Ok?
    ensures NormalizeSpec(NormJson(NormalizeSpec(spec).value)) == NormalizeSpec(spec)
  {
    AssembleCanonical(ReadSections(spec).value, NormalizeSpec(spec).value);
    CanonicalFixed(NormalizeSpec(spec).value);
  }

  /** Under HA the two quorums are the least odd size that is at least three
      and at least the requested one. */
  lemma QuorumLeast(requested: int, size: int)
    ensures Quorum(requested) % 2 == 1 && Quorum(requested) >= 3 && Quorum(requested) >= requested
    ensures size % 2 == 1 && size >= 3 && size >= requested ==> Quorum(requested) <= size
  {
  }
}
