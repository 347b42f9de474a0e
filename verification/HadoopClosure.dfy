/** What holds between the objects a completed reconcile leaves: every reference
    resolves, and the config revision is the one of the stored configuration. */
module HadoopClosure {
  import opened Wrappers
  import opened Text
  import opened HadoopSpec
  import opened Topology
  import opened HadoopNames
  import opened HadoopResources
  import opened HadoopStore

  // ------------------------------------------------------- config revision

  function StoredPayload(s: Store, ref: Ref): string
  {
    if ref in s && s[ref].Cm? then Payload(s[ref].cm.data, FILES) else ""
  }

  /** The revision of the configuration found in the store. */
  function StoredRevision(py: Python, cr: Cr, s: Store): string
  {
    py.digest(StoredPayload(s, RoleRef(cr, CmHadoop)) + StoredPayload(s, RoleRef(cr, CmZookeeper)))
  }

  lemma PayloadAt(s: Store, ref: Ref, cm: Option<ConfigMap>)
    requires At(s, ref) == match cm case Some(c) => Some(Cm(c)) case None => None
    ensures StoredPayload(s, ref) == match cm case Some(c) => Payload(c.data, FILES) case None => ""
  {
  }

  lemma HadoopConfigStored(py: Python, cr: Cr, n: Norm, s: Store)
    ensures At(Reconciled(py, cr, n, s), RoleRef(cr, CmHadoop)) == Some(Cm(BuildConfigMap(py, cr, n)))
  {
    ReconcileEffect(py, cr, n, s, CmHadoop);
  }

  lemma ZookeeperConfigStored(py: Python, cr: Cr, n: Norm, s: Store)
    ensures At(Reconciled(py, cr, n, s), RoleRef(cr, CmZookeeper)) ==
      if n.hdfs.ha.enabled then Some(Cm(BuildZookeeperConfigMap(cr, n))) else None
  {
    ReconcileEffect(py, cr, n, s, CmZookeeper);
  }

  lemma StoredText(py: Python, cr: Cr, n: Norm, s: Store)
    ensures StoredRevision(py, cr, Reconciled(py, cr, n, s)) == Revision(py, cr, n)
  {
    var after := Reconciled(py, cr, n, s);
    HadoopConfigStored(py, cr, n, s);
    ZookeeperConfigStored(py, cr, n, s);
    PayloadAt(after, RoleRef(cr, CmHadoop), Some(BuildConfigMap(py, cr, n)));
    PayloadAt(after, RoleRef(cr, CmZookeeper), if n.hdfs.ha.enabled then Some(BuildZookeeperConfigMap(cr, n)) else None);
  }

  lemma BodyRevision(cr: Cr, n: Norm, r: Role, revision: string)
    requires KindOf(r) == StatefulSetKind
    ensures StatefulSetWith(cr, n, r, revision).revision == revision
  {
  }

  /** After every completed reconcile, from any store, each StatefulSet carries
      the revision of the configuration actually stored. */
  lemma RevisionAgrees(py: Python, cr: Cr, n: Norm, s: Store, r: Role)
    requires KindOf(r) == StatefulSetKind && RoleRef(cr, r) in Reconciled(py, cr, n, s)
    ensures var after := Reconciled(py, cr, n, s);
            after[RoleRef(cr, r)].Sts? && after[RoleRef(cr, r)].sts.revision == StoredRevision(py, cr, after)
  {
    StoredText(py, cr, n, s);
    BodyRevision(cr, n, r, Revision(py, cr, n));
    ReconcileEffect(py, cr, n, s, r);
    var after := Reconciled(py, cr, n, s);
    assert At(after, RoleRef(cr, r)) == Some(after[RoleRef(cr, r)]);
  }

  // ------------------------------------------------------- reference closure

  /** A StatefulSet of that name exists, governed by that Service, and has the ordinal. */
  predicate HasPod(s: Store, ns: string, svc: string, i: nat)
  {
    var ref := Ref(StatefulSetKind, ns, svc);
    ref in s && s[ref].Sts? && s[ref].sts.serviceName == svc && i < s[ref].sts.replicas &&
    Ref(ServiceKind, ns, svc) in s
  }

  ghost predicate HostResolves(s: Store, ns: string, host: string)
  {
    exists svc: string, i: nat :: host == Host(svc, i) && HasPod(s, ns, svc, i)
  }

  ghost predicate PodResolves(s: Store, ns: string, pod: string)
  {
    exists svc: string, i: nat :: pod == svc + "-" + Dec(i) && HasPod(s, ns, svc, i)
  }

  predicate MountsResolve(s: Store, ns: string, sts: StatefulSet)
  {
    var cm := Ref(ConfigMapKind, ns, sts.configMap);
    cm in s && s[cm].Cm? && forall f <- sts.subPaths :: f in s[cm].cm.data
  }

  predicate BackendExists(s: Store, ns: string, rule: Rule)
  {
    Ref(ServiceKind, ns, rule.service) in s
  }

  ghost predicate Resolves(s: Store, ns: string, o: Object)
  {
    match o
    case Sts(sts) =>
      && Ref(ServiceKind, ns, sts.serviceName) in s
      && MountsResolve(s, ns, sts)
      && forall h <- sts.waitsFor :: HostResolves(s, ns, h)
    case Ing(ing) => forall rule <- ing.rules :: BackendExists(s, ns, rule)
    case Svc(svc) => svc.selector.ByPod? ==> PodResolves(s, ns, svc.selector.pod)
    case _ => true
  }

  lemma StsStored(py: Python, cr: Cr, n: Norm, s: Store, r: Role)
    requires KindOf(r) == StatefulSetKind && Desired(SwitchesOf(n), r)
    ensures At(Reconciled(py, cr, n, s), RoleRef(cr, r)) == Some(Sts(StatefulSetBody(py, cr, n, r)))
  {
    ReconcileEffect(py, cr, n, s, r);
  }

  lemma Present(py: Python, cr: Cr, n: Norm, s: Store, r: Role)
    requires Desired(SwitchesOf(n), r)
    ensures RoleRef(cr, r) in Reconciled(py, cr, n, s)
  {
    HistoryIndependentNames(py, cr, s, n, r);
  }

  /** The headless Service governing a StatefulSet. */
  function Governing(r: Role): Role
    requires KindOf(r) == StatefulSetKind
  {
    match r
    case StsZookeeper => SvcZookeeper
    case StsJournalNode => SvcJournalNode
    case StsNameNode => SvcNameNode
    case StsDataNode => SvcDataNode
    case StsRm => SvcRm
    case StsNm => SvcNm
  }

  lemma GoverningName(cr: Cr, r: Role)
    requires KindOf(r) == StatefulSetKind
    ensures Name(cr.name, r) == Name(cr.name, Governing(r))
  {
  }

  lemma ServiceNames(cr: Cr, n: Norm, r: Role, revision: string)
    requires KindOf(r) == StatefulSetKind
    ensures StatefulSetWith(cr, n, r, revision).serviceName == Name(cr.name, r) == Name(cr.name, Governing(r))
  {
    GoverningName(cr, r);
  }

  /** `replicas` of each StatefulSet. */
  function Replicas(n: Norm, r: Role): int
    requires KindOf(r) == StatefulSetKind
  {
    match r
    case StsZookeeper => n.zk.replicas
    case StsJournalNode => n.hdfs.ha.jnReplicas
    case StsNameNode => if n.hdfs.ha.enabled then n.hdfs.ha.nnReplicas else 1
    case StsDataNode => n.hdfs.dnReplicas
    case StsRm => 1
    case StsNm => n.yarn.nmReplicas
  }

  lemma BodyReplicas(cr: Cr, n: Norm, r: Role, revision: string)
    requires KindOf(r) == StatefulSetKind
    ensures StatefulSetWith(cr, n, r, revision).replicas == Replicas(n, r)
  {
  }

  lemma PodStored(py: Python, cr: Cr, n: Norm, s: Store, r: Role, i: nat)
    requires KindOf(r) == StatefulSetKind && Desired(SwitchesOf(n), r) && Desired(SwitchesOf(n), Governing(r))
    requires i < Replicas(n, r)
    ensures HasPod(Reconciled(py, cr, n, s), cr.namespace, Name(cr.name, r), i)
    ensures HostResolves(Reconciled(py, cr, n, s), cr.namespace, Host(Name(cr.name, r), i))
    ensures PodResolves(Reconciled(py, cr, n, s), cr.namespace, Name(cr.name, r) + "-" + Dec(i))
  {
    var after := Reconciled(py, cr, n, s);
    var ref := RoleRef(cr, r);
    StsStored(py, cr, n, s, r);
    ServiceNames(cr, n, r, Revision(py, cr, n));
    BodyReplicas(cr, n, r, Revision(py, cr, n));
    Present(py, cr, n, s, Governing(r));
    assert At(after, ref) == Some(after[ref]);
    assert HasPod(after, cr.namespace, Name(cr.name, r), i);
  }

  lemma HostListResolves(py: Python, cr: Cr, n: Norm, s: Store, r: Role)
    requires KindOf(r) == StatefulSetKind && Desired(SwitchesOf(n), r) && Desired(SwitchesOf(n), Governing(r))
    ensures AllResolve(Reconciled(py, cr, n, s), cr.namespace, AllHosts(cr, n, r))
  {
    var hs := AllHosts(cr, n, r);
    forall i | 0 <= i < |hs| ensures HostResolves(Reconciled(py, cr, n, s), cr.namespace, hs[i]) {
      PodStored(py, cr, n, s, r, i);
      assert Host(Name(cr.name, r), i) + "" == Host(Name(cr.name, r), i);
    }
  }

  lemma NameNodePod(py: Python, cr: Cr, n: Norm, s: Store, i: Ordinal)
    requires CanonicalHa(n.hdfs.ha) && (i == 0 || n.hdfs.ha.enabled)
    ensures HostResolves(Reconciled(py, cr, n, s), cr.namespace, Host(Name(cr.name, StsNameNode), i))
    ensures PodResolves(Reconciled(py, cr, n, s), cr.namespace, Name(cr.name, StsNameNode) + "-" + Dec(i))
  {
    PodStored(py, cr, n, s, StsNameNode, i);
  }

  lemma NameNodeHostsResolve(py: Python, cr: Cr, n: Norm, s: Store)
    requires CanonicalHa(n.hdfs.ha)
    ensures AllResolve(Reconciled(py, cr, n, s), cr.namespace, NameNodeHosts(cr, n))
  {
    NameNodePod(py, cr, n, s, 0);
    if n.hdfs.ha.enabled { NameNodePod(py, cr, n, s, 1); }
    NameNodeHostNames(cr, n);
  }

  lemma NameNodeHostNames(cr: Cr, n: Norm)
    ensures forall h <- NameNodeHosts(cr, n) ::
      h == Host(Name(cr.name, StsNameNode), 0) || (n.hdfs.ha.enabled && h == Host(Name(cr.name, StsNameNode), 1))
  {
  }

  /** The hosts of the whole StatefulSet of a role. */
  function AllHosts(cr: Cr, n: Norm, r: Role): seq<string>
    requires KindOf(r) == StatefulSetKind
  {
    Hosts(Name(cr.name, r), Replicas(n, r), "")
  }

  lemma HaWaitHosts(cr: Cr, n: Norm, revision: string)
    requires n.hdfs.ha.enabled
    ensures StatefulSetWith(cr, n, StsNameNode, revision).waitsFor == HaWaits(cr, n)
  {
  }

  ghost predicate AllResolve(s: Store, ns: string, hs: seq<string>)
  {
    forall h <- hs :: HostResolves(s, ns, h)
  }

  lemma AllResolveConcat(s: Store, ns: string, a: seq<string>, b: seq<string>, c: string)
    requires AllResolve(s, ns, a) && AllResolve(s, ns, b) && HostResolves(s, ns, c)
    ensures AllResolve(s, ns, a + b + [c])
  {
  }

  lemma HaWaitsResolve(py: Python, cr: Cr, n: Norm, s: Store)
    requires CanonicalHa(n.hdfs.ha) && n.hdfs.ha.enabled
    ensures AllResolve(Reconciled(py, cr, n, s), cr.namespace, StatefulSetBody(py, cr, n, StsNameNode).waitsFor)
  {
    HaWaitHosts(cr, n, Revision(py, cr, n));
    HostListResolves(py, cr, n, s, StsZookeeper);
    HostListResolves(py, cr, n, s, StsJournalNode);
    NameNodePod(py, cr, n, s, 0);
    AllResolveConcat(Reconciled(py, cr, n, s), cr.namespace, AllHosts(cr, n, StsZookeeper),
                     AllHosts(cr, n, StsJournalNode), Host(Name(cr.name, StsNameNode), 0));
  }

  lemma WaitsResolve(py: Python, cr: Cr, n: Norm, s: Store, r: Role)
    requires CanonicalHa(n.hdfs.ha) && KindOf(r) == StatefulSetKind && Desired(SwitchesOf(n), r)
    ensures AllResolve(Reconciled(py, cr, n, s), cr.namespace, StatefulSetBody(py, cr, n, r).waitsFor)
  {
    hide Reconciled;
    if r == StsNameNode && n.hdfs.ha.enabled {
      HaWaitsResolve(py, cr, n, s);
    } else if r == StsDataNode || r == StsRm {
      NameNodeHostsResolve(py, cr, n, s);
    } else if r == StsNm {
      PodStored(py, cr, n, s, StsRm, 0);
    }
  }

  lemma ConfigKeys(py: Python, cr: Cr, n: Norm)
    ensures CoreSite in BuildConfigMap(py, cr, n).data && HdfsSite in BuildConfigMap(py, cr, n).data
    ensures n.yarn.enabled ==> forall f <- YARN_MOUNTS :: f in BuildConfigMap(py, cr, n).data
    ensures ZooCfg in BuildZookeeperConfigMap(cr, n).data
  {
  }

  lemma SubPathsStored(py: Python, cr: Cr, n: Norm, r: Role, revision: string)
    requires KindOf(r) == StatefulSetKind && Desired(SwitchesOf(n), r)
    ensures forall f <- StatefulSetWith(cr, n, r, revision).subPaths ::
      f in (if r == StsZookeeper then BuildZookeeperConfigMap(cr, n) else BuildConfigMap(py, cr, n)).data
  {
    ConfigKeys(py, cr, n);
  }

  lemma ConfigMapNames(cr: Cr, n: Norm, r: Role, revision: string)
    requires KindOf(r) == StatefulSetKind
    ensures StatefulSetWith(cr, n, r, revision).configMap ==
      Name(cr.name, if r == StsZookeeper then CmZookeeper else CmHadoop)
  {
  }

  lemma MountsStored(py: Python, cr: Cr, n: Norm, s: Store, r: Role)
    requires KindOf(r) == StatefulSetKind && Desired(SwitchesOf(n), r)
    ensures MountsResolve(Reconciled(py, cr, n, s), cr.namespace, StatefulSetBody(py, cr, n, r))
  {
    var cmRole := if r == StsZookeeper then CmZookeeper else CmHadoop;
    var after := Reconciled(py, cr, n, s);
    ConfigMapNames(cr, n, r, Revision(py, cr, n));
    SubPathsStored(py, cr, n, r, Revision(py, cr, n));
    HadoopConfigStored(py, cr, n, s);
    ZookeeperConfigStored(py, cr, n, s);
    assert At(after, RoleRef(cr, cmRole)) == Some(after[RoleRef(cr, cmRole)]);
  }

  /** The role of the Service an Ingress rule names. */
  lemma RuleRole(cr: Cr, n: Norm, rule: Rule) returns (r: Role)
    requires n.expose.ingress.enabled && rule in IngressRules(cr, n)
    ensures IsService(r) && Desired(SwitchesOf(n), r) && rule.service == Name(cr.name, r)
    ensures Port("web", rule.port) in ServiceBody(cr, r).ports
  {
    var nn0 := SvcNnPodWeb(0);
    var nn1 := SvcNnPodWeb(1);
    if rule.service == Name(cr.name, nn0) {
      assert Port("web", 9870) in ServiceBody(cr, nn0).ports;
      r := nn0;
    } else if rule.service == Name(cr.name, nn1) {
      assert Port("web", 9870) in ServiceBody(cr, nn1).ports;
      r := nn1;
    } else {
      assert rule.service == Name(cr.name, SvcRmWeb);
      assert Port("web", 8088) in ServiceBody(cr, SvcRmWeb).ports;
      r := SvcRmWeb;
    }
  }

  /** What is stored there is a Service that serves this port under the name `web`. */
  predicate Serves(stored: Option<Object>, port: nat)
  {
    stored.Some? && stored.value.Svc? && Port("web", port) in stored.value.svc.ports
  }

  /** The Service behind an Ingress rule is wanted, and as built it serves the rule's port. */
  lemma RuleService(cr: Cr, n: Norm, rule: Rule, r: Role)
    requires n.expose.ingress.enabled && rule in IngressRules(cr, n)
    requires IsService(r) && rule.service == Name(cr.name, r)
    ensures Desired(SwitchesOf(n), r) && Serves(Some(Svc(ServiceBody(cr, r))), rule.port)
  {
    hide IngressRules, Name, ServiceBody, Desired;
    var t := RuleRole(cr, n, rule);
    assert RefOf(cr.namespace, cr.name, r) == RefOf(cr.namespace, cr.name, t);
    RefInjective(cr.namespace, cr.name, r, cr.namespace, cr.name, t);
  }

  /** After a completed reconcile, from any store, the Service an Ingress rule
      names serves the rule's port if and only if it was not there before, or the
      run creates it anew, or what was there served the port. */
  lemma BackendPortsExactly(py: Python, cr: Cr, n: Norm, s: Store, rule: Rule, r: Role)
    requires Desired(SwitchesOf(n), IngUi) && rule in IngressRules(cr, n)
    requires IsService(r) && rule.service == Name(cr.name, r)
    ensures Serves(At(Reconciled(py, cr, n, s), RoleRef(cr, r)), rule.port) <==>
      RoleRef(cr, r) !in s || !Kept(SwitchesOf(n), r) || Serves(At(s, RoleRef(cr, r)), rule.port)
  {
    RuleService(cr, n, rule, r);
    ReconcileEffect(py, cr, n, s, r);
  }

  /** Where the stored Services are current, every Ingress backend resolves with its port. */
  lemma BackendPortsResolve(py: Python, cr: Cr, n: Norm, s: Store, rule: Rule)
    requires Desired(SwitchesOf(n), IngUi) && rule in IngressRules(cr, n) && ServicesCurrent(cr, s)
    ensures Serves(At(Reconciled(py, cr, n, s), Ref(ServiceKind, cr.namespace, rule.service)), rule.port)
  {
    hide IngressRules, Reconciled, ServiceBody, Name;
    var r := RuleRole(cr, n, rule);
    RuleService(cr, n, rule, r);
    BackendPortsExactly(py, cr, n, s, rule, r);
  }

  lemma BackendsStored(py: Python, cr: Cr, n: Norm, s: Store)
    requires Desired(SwitchesOf(n), IngUi)
    ensures forall rule <- IngressRules(cr, n) ::
      BackendExists(Reconciled(py, cr, n, s), cr.namespace, rule)
  {
    hide IngressRules, Reconciled;
    forall rule | rule in IngressRules(cr, n)
      ensures BackendExists(Reconciled(py, cr, n, s), cr.namespace, rule)
    {
      var r := RuleRole(cr, n, rule);
      Present(py, cr, n, s, r);
    }
  }

  lemma PodNames(cluster: string, i: Ordinal)
    ensures cluster + "-namenode-" + Dec(i) == Name(cluster, StsNameNode) + "-" + Dec(i)
    ensures cluster + "-resourcemanager-0" == Name(cluster, StsRm) + "-" + Dec(0)
  {
    assert "-namenode-" == "-namenode" + "-";
    assert "-resourcemanager-0" == "-resourcemanager" + "-" + "0";
  }

  /** The pod a per-pod Service selects. */
  function SelectedPod(cluster: string, r: Role): string
    requires r.SvcNnPodExternal? || r.SvcNnPodWeb? || r.SvcRmWeb?
  {
    if r.SvcRmWeb? then Name(cluster, StsRm) + "-" + Dec(0) else Name(cluster, StsNameNode) + "-" + Dec(r.i)
  }

  lemma Selectors(cr: Cr, r: Role)
    requires IsService(r)
    ensures ServiceBody(cr, r).selector ==
      if r.SvcNnPodExternal? || r.SvcNnPodWeb? || r.SvcRmWeb? then ByPod(SelectedPod(cr.name, r))
      else ByLabels(cr.name, MetaOf(Svc(ServiceBody(cr, r))).component)
  {
    PodNames(cr.name, if r.SvcNnPodExternal? || r.SvcNnPodWeb? then r.i else 0);
  }

  lemma PodSelectorResolves(py: Python, cr: Cr, n: Norm, s: Store, r: Role)
    requires CanonicalHa(n.hdfs.ha) && Desired(SwitchesOf(n), r)
    requires r.SvcNnPodExternal? || r.SvcNnPodWeb? || r.SvcRmWeb?
    ensures PodResolves(Reconciled(py, cr, n, s), cr.namespace, SelectedPod(cr.name, r))
  {
    if r.SvcRmWeb? {
      PodStored(py, cr, n, s, StsRm, 0);
    } else {
      NameNodePod(py, cr, n, s, r.i);
    }
  }

  lemma ServiceResolves(py: Python, cr: Cr, n: Norm, s: Store, r: Role)
    requires CanonicalHa(n.hdfs.ha) && IsService(r) && Desired(SwitchesOf(n), r)
    ensures Resolves(Reconciled(py, cr, n, s), cr.namespace, Svc(ServiceBody(cr, r)))
  {
    hide Reconciled, ServiceBody;
    Selectors(cr, r);
    if r.SvcNnPodExternal? || r.SvcNnPodWeb? || r.SvcRmWeb? { PodSelectorResolves(py, cr, n, s, r); }
  }

  lemma StatefulSetResolves(py: Python, cr: Cr, n: Norm, s: Store, r: Role)
    requires CanonicalHa(n.hdfs.ha) && KindOf(r) == StatefulSetKind && Desired(SwitchesOf(n), r)
    ensures Resolves(Reconciled(py, cr, n, s), cr.namespace, Sts(StatefulSetBody(py, cr, n, r)))
  {
    hide Reconciled, Revision, StatefulSetWith, MountsResolve, HostResolves;
    ServiceNames(cr, n, r, Revision(py, cr, n));
    Present(py, cr, n, s, Governing(r));
    MountsStored(py, cr, n, s, r);
    WaitsResolve(py, cr, n, s, r);
  }

  /** Reference closure: after a completed reconcile of a normalised spec, from
      any store, every object the operator built refers only to objects that
      exist - headless Services, mounted ConfigMaps and their keys, hosts waited
      for, Ingress backends and per-pod selectors. */
  lemma ReferencesResolve(py: Python, cr: Cr, n: Norm, s: Store, r: Role)
    requires CanonicalHa(n.hdfs.ha)
    requires At(Reconciled(py, cr, n, s), RoleRef(cr, r)) == Some(Body(py, cr, n, r))
    ensures Resolves(Reconciled(py, cr, n, s), cr.namespace, Body(py, cr, n, r))
  {
    hide Reconciled, ServiceBody, StatefulSetBody;
    ReconcileEffect(py, cr, n, s, r);
    if IsService(r) {
      ServiceResolves(py, cr, n, s, r);
    } else if KindOf(r) == StatefulSetKind {
      StatefulSetResolves(py, cr, n, s, r);
    } else if r == IngUi {
      BackendsStored(py, cr, n, s);
    }
  }
}
