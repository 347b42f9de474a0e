/** The defaulting and validating webhook of the codebuddy operator
    (hadoopcluster_webhook.go). Empty strings and zeros are unset fields. */
module Webhook {
  import opened Wrappers

  datatype Node = Node(replicas: int, image: string, pullPolicy: string, serviceType: string, nameDir: string,
                       volumes: int, ports: Option<seq<int>>)

  datatype HBase = HBase(enabled: bool, master: Option<Node>, region: Option<Node>)

  datatype Ha = Ha(enabled: bool, replicas: int)

  datatype HaConfig = HaConfig(nameNode: Option<Ha>, resourceManager: Option<Ha>)

  datatype ClusterConfig = ClusterConfig(replication: int, blockSize: int)

  datatype Spec = Spec(image: string, pullPolicy: string, account: string,
                       nameNode: Option<Node>, dataNode: Option<Node>, journalNode: Option<Node>,
                       resourceManager: Option<Node>, nodeManager: Option<Node>,
                       hbase: Option<HBase>, ha: Option<HaConfig>, config: Option<ClusterConfig>)

  // ------------------------------------------------------------- the defaults

  /** What an unset field of a component becomes; an empty text or zero leaves it unset. */
  datatype Rule = Rule(replicas: int, pulls: bool, serviceType: string, nameDir: string, volumes: int, ports: seq<int>)

  const NAME_NODE := Rule(1, true, "ClusterIP", "/tmp/hadoop/dfs/name", 0, [9000, 9870, 9871])
  const DATA_NODE := Rule(3, true, "", "", 1, [9866, 9867, 9864, 9865])
  const JOURNAL_NODE := Rule(3, true, "", "", 0, [8485, 8480])
  const RESOURCE_MANAGER := Rule(1, true, "ClusterIP", "", 0, [8032, 8088, 8090, 8030])
  const NODE_MANAGER := Rule(3, true, "", "", 0, [8042, 8044, 8040, 13562])
  const HBASE_MASTER := Rule(1, false, "", "", 0, [16010, 16000])
  const HBASE_REGION := Rule(3, false, "", "", 1, [16030, 16020])

  const IMAGE := "apache/hadoop:3.4.1"
  const PULL_POLICY := "IfNotPresent"
  const ACCOUNT := "hadoop-operator"

  /** The journal nodes that name node HA brings along. */
  const NEW_JOURNAL_NODE := Node(3, "", "", "", "", 0, None)

  function Text(value: string, default: string): string
  {
    if value == "" then default else value
  }

  function Number(value: int, default: int): int
  {
    if value == 0 then default else value
  }

  function FillNode(n: Node, r: Rule, image: string, pullPolicy: string): Node
  {
    Node(Number(n.replicas, r.replicas), Text(n.image, image), if r.pulls then Text(n.pullPolicy, pullPolicy) else n.pullPolicy,
         Text(n.serviceType, r.serviceType), Text(n.nameDir, r.nameDir), Number(n.volumes, r.volumes),
         if n.ports.None? then Some(r.ports) else n.ports)
  }

  function Fill(n: Option<Node>, r: Rule, s: Spec): Option<Node>
  {
    match n
    case None => None
    case Some(node) => Some(FillNode(node, r, s.image, s.pullPolicy))
  }

  function FillHBase(h: Option<HBase>, s: Spec): Option<HBase>
  {
    match h
    case Some(HBase(true, master, region)) => Some(HBase(true, Fill(master, HBASE_MASTER, s), Fill(region, HBASE_REGION, s)))
    case _ => h
  }

  function FillHa(h: Option<Ha>): Option<Ha>
  {
    match h
    case Some(Ha(true, replicas)) => Some(Ha(true, Number(replicas, 2)))
    case _ => h
  }

  function FillHaConfig(h: Option<HaConfig>): Option<HaConfig>
  {
    match h
    case None => None
    case Some(c) => Some(HaConfig(FillHa(c.nameNode), FillHa(c.resourceManager)))
  }

  function FillConfig(c: Option<ClusterConfig>): Option<ClusterConfig>
  {
    match c
    case None => None
    case Some(ClusterConfig(replication, blockSize)) => Some(ClusterConfig(Number(replication, 3), Number(blockSize, 134217728)))
  }

  predicate NameNodeHa(s: Spec)
  {
    s.ha.Some? && s.ha.value.nameNode.Some? && s.ha.value.nameNode.value.enabled
  }

  predicate ResourceManagerHa(s: Spec)
  {
    s.ha.Some? && s.ha.value.resourceManager.Some? && s.ha.value.resourceManager.value.enabled
  }

  /** One pass: the components first, from the global fields as they are, then
      the global fields, then HA, then the cluster configuration. */
  function Defaulted(s: Spec): Spec
  {
    var journal := Fill(s.journalNode, JOURNAL_NODE, s);
    Spec(Text(s.image, IMAGE), Text(s.pullPolicy, PULL_POLICY), Text(s.account, ACCOUNT),
         Fill(s.nameNode, NAME_NODE, s), Fill(s.dataNode, DATA_NODE, s),
         if NameNodeHa(s) && journal.None? then Some(NEW_JOURNAL_NODE) else journal,
         Fill(s.resourceManager, RESOURCE_MANAGER, s), Fill(s.nodeManager, NODE_MANAGER, s),
         FillHBase(s.hbase, s), FillHaConfig(s.ha), FillConfig(s.config))
  }

  // ---------------------------------------------------- nothing is overwritten

  predicate KeepsText(a: string, b: string)
  {
    a != "" ==> b == a
  }

  predicate KeepsNumber(a: int, b: int)
  {
    a != 0 ==> b == a
  }

  predicate KeepsNode(a: Option<Node>, b: Option<Node>)
  {
    a.Some? ==>
      (b.Some? &&
       KeepsNumber(a.value.replicas, b.value.replicas) && KeepsText(a.value.image, b.value.image) &&
       KeepsText(a.value.pullPolicy, b.value.pullPolicy) && KeepsText(a.value.serviceType, b.value.serviceType) &&
       KeepsText(a.value.nameDir, b.value.nameDir) && KeepsNumber(a.value.volumes, b.value.volumes) &&
       (a.value.ports.Some? ==> b.value.ports == a.value.ports))
  }

  predicate KeepsHa(a: Option<Ha>, b: Option<Ha>)
  {
    if a.None? then b.None?
    else b.Some? && b.value.enabled == a.value.enabled && KeepsNumber(a.value.replicas, b.value.replicas)
  }

  predicate KeepsHBase(a: Option<HBase>, b: Option<HBase>)
  {
    if a.None? then b.None?
    else b.Some? && b.value.enabled == a.value.enabled && KeepsNode(a.value.master, b.value.master) && KeepsNode(a.value.region, b.value.region)
  }

  predicate Keeps(a: Spec, b: Spec)
  {
    && KeepsText(a.image, b.image) && KeepsText(a.pullPolicy, b.pullPolicy) && KeepsText(a.account, b.account)
    && KeepsNode(a.nameNode, b.nameNode) && KeepsNode(a.dataNode, b.dataNode) && KeepsNode(a.journalNode, b.journalNode)
    && KeepsNode(a.resourceManager, b.resourceManager) && KeepsNode(a.nodeManager, b.nodeManager)
    && KeepsHBase(a.hbase, b.hbase)
    && (a.ha.Some? <==> b.ha.Some?)
    && (a.ha.Some? ==> KeepsHa(a.ha.value.nameNode, b.ha.value.nameNode) && KeepsHa(a.ha.value.resourceManager, b.ha.value.resourceManager))
    && (a.config.Some? <==> b.config.Some?)
    && (a.config.Some? ==> KeepsNumber(a.config.value.replication, b.config.value.replication) && KeepsNumber(a.config.value.blockSize, b.config.value.blockSize))
  }

  lemma FillKeeps(n: Option<Node>, r: Rule, s: Spec)
    ensures KeepsNode(n, Fill(n, r, s)) && (n.None? <==> Fill(n, r, s).None?)
  {
  }

  /** No pass overwrites a field that is set. */
  lemma NeverOverwrites(s: Spec)
    ensures Keeps(s, Defaulted(s))
  {
    FillKeeps(s.nameNode, NAME_NODE, s);
    FillKeeps(s.dataNode, DATA_NODE, s);
    FillKeeps(s.journalNode, JOURNAL_NODE, s);
    FillKeeps(s.resourceManager, RESOURCE_MANAGER, s);
    FillKeeps(s.nodeManager, NODE_MANAGER, s);
    if s.hbase.Some? {
      FillKeeps(s.hbase.value.master, HBASE_MASTER, s);
      FillKeeps(s.hbase.value.region, HBASE_REGION, s);
    }
  }

  // ------------------------------------------------------- how often is enough

  /** A component needs the global image, or pull policy, and does not find it. */
  predicate Starved(n: Option<Node>, r: Rule, s: Spec)
  {
    n.Some? && ((n.value.image == "" && s.image == "") || (r.pulls && n.value.pullPolicy == "" && s.pullPolicy == ""))
  }

  predicate StarvedHBase(s: Spec)
  {
    s.hbase.Some? && s.hbase.value.enabled &&
    (Starved(s.hbase.value.master, HBASE_MASTER, s) || Starved(s.hbase.value.region, HBASE_REGION, s))
  }

  /** One pass does not reach everything. */
  predicate NeedsAnotherPass(s: Spec)
  {
    || Starved(s.nameNode, NAME_NODE, s) || Starved(s.dataNode, DATA_NODE, s) || Starved(s.journalNode, JOURNAL_NODE, s)
    || Starved(s.resourceManager, RESOURCE_MANAGER, s) || Starved(s.nodeManager, NODE_MANAGER, s)
    || StarvedHBase(s)
    || (NameNodeHa(s) && s.journalNode.None?)
  }

  /** Filling twice, the second time from later global fields, changes the
      component exactly if it was starved the first time. */
  lemma FillTwice(n: Option<Node>, r: Rule, s: Spec, t: Spec)
    requires t.image == Text(s.image, IMAGE) && t.pullPolicy == Text(s.pullPolicy, PULL_POLICY)
    ensures Fill(Fill(n, r, s), r, t) == Fill(n, r, s) <==> !Starved(n, r, s)
    ensures !Starved(Fill(n, r, s), r, t)
  {
  }

  lemma HBaseTwice(s: Spec, t: Spec)
    requires t.image == Text(s.image, IMAGE) && t.pullPolicy == Text(s.pullPolicy, PULL_POLICY)
    ensures FillHBase(FillHBase(s.hbase, s), t) == FillHBase(s.hbase, s) <==> !StarvedHBase(s)
    ensures t.hbase == FillHBase(s.hbase, s) ==> !StarvedHBase(t)
  {
    if s.hbase.Some? {
      FillTwice(s.hbase.value.master, HBASE_MASTER, s, t);
      FillTwice(s.hbase.value.region, HBASE_REGION, s, t);
    }
  }

  lemma HaTwice(h: Option<HaConfig>, c: Option<ClusterConfig>)
    ensures FillHaConfig(FillHaConfig(h)) == FillHaConfig(h) && FillConfig(FillConfig(c)) == FillConfig(c)
  {
  }

  lemma SameHa(s: Spec)
    ensures NameNodeHa(Defaulted(s)) <==> NameNodeHa(s)
    ensures ResourceManagerHa(Defaulted(s)) <==> ResourceManagerHa(s)
  {
  }

  /** The journal nodes after two passes. */
  lemma JournalTwice(s: Spec)
    requires NameNodeHa(s) && s.journalNode.None?
    ensures Defaulted(s).journalNode == Some(NEW_JOURNAL_NODE)
    ensures Defaulted(Defaulted(s)).journalNode != Defaulted(s).journalNode
  {
    assert Defaulted(Defaulted(s)).journalNode.value.ports.Some?;
  }

  lemma OneComponentTwice(s: Spec)
    ensures var t := Defaulted(s); var u := Defaulted(t);
            && (u.nameNode == t.nameNode <==> !Starved(s.nameNode, NAME_NODE, s))
            && (u.dataNode == t.dataNode <==> !Starved(s.dataNode, DATA_NODE, s))
            && (u.resourceManager == t.resourceManager <==> !Starved(s.resourceManager, RESOURCE_MANAGER, s))
            && (u.nodeManager == t.nodeManager <==> !Starved(s.nodeManager, NODE_MANAGER, s))
            && (u.hbase == t.hbase <==> !StarvedHBase(s))
  {
    var t := Defaulted(s);
    FillTwice(s.nameNode, NAME_NODE, s, t);
    FillTwice(s.dataNode, DATA_NODE, s, t);
    FillTwice(s.resourceManager, RESOURCE_MANAGER, s, t);
    FillTwice(s.nodeManager, NODE_MANAGER, s, t);
    HBaseTwice(s, t);
  }

  lemma JournalKept(s: Spec)
    requires !(NameNodeHa(s) && s.journalNode.None?)
    ensures Defaulted(Defaulted(s)).journalNode == Defaulted(s).journalNode <==> !Starved(s.journalNode, JOURNAL_NODE, s)
  {
    SameHa(s);
    FillTwice(s.journalNode, JOURNAL_NODE, s, Defaulted(s));
  }

  lemma GlobalsTwice(s: Spec)
    ensures var t := Defaulted(s); var u := Defaulted(t);
            u.image == t.image && u.pullPolicy == t.pullPolicy && u.account == t.account && u.ha == t.ha && u.config == t.config
  {
    HaTwice(s.ha, s.config);
  }

  /** A second pass changes nothing exactly when no component lacks an image or
      a pull policy that the global fields lack too, and name node HA does not
      have to bring its journal nodes along. */
  lemma OnceIsEnoughExactly(s: Spec)
    ensures Defaulted(Defaulted(s)) == Defaulted(s) <==> !NeedsAnotherPass(s)
  {
    OneComponentTwice(s);
    GlobalsTwice(s);
    if NameNodeHa(s) && s.journalNode.None? { JournalTwice(s); } else { JournalKept(s); }
  }

  /** After a pass every component finds what it lacks in the global fields, and
      the journal nodes are there. */
  lemma PassFeeds(s: Spec)
    ensures !NeedsAnotherPass(Defaulted(s))
  {
    var t := Defaulted(s);
    SameHa(s);
    FillTwice(s.nameNode, NAME_NODE, s, t);
    FillTwice(s.dataNode, DATA_NODE, s, t);
    FillTwice(s.journalNode, JOURNAL_NODE, s, t);
    FillTwice(s.resourceManager, RESOURCE_MANAGER, s, t);
    FillTwice(s.nodeManager, NODE_MANAGER, s, t);
    HBaseTwice(s, t);
  }

  /** Three passes are two. */
  lemma ThreePassesAreTwo(s: Spec)
    ensures Defaulted(Defaulted(Defaulted(s))) == Defaulted(Defaulted(s))
  {
    PassFeeds(s);
    OnceIsEnoughExactly(Defaulted(s));
  }

  // --------------------------------------------------------------- validation

  datatype Invalid =
    | NameNodeReplicas(n: int)
    | TooFewJournalNodes
    | ResourceManagerReplicas(n: int)
    | TooFewDataNodes
    | NoHBaseMaster
    | NoHBaseRegionServer
    | ReplicationTooSmall
    | ReplicationTooLarge(replication: int, replicas: int)

  function Only(c: bool, e: Invalid): seq<Invalid>
  {
    if c then [e] else []
  }

  function HaErrors(s: Spec): seq<Invalid>
  {
    (if NameNodeHa(s) then
       (if s.nameNode.Some? then Only(s.nameNode.value.replicas != 2, NameNodeReplicas(s.nameNode.value.replicas)) else []) +
       Only(s.journalNode.None? || s.journalNode.value.replicas < 3, TooFewJournalNodes)
     else []) +
    (if ResourceManagerHa(s) && s.resourceManager.Some?
     then Only(s.resourceManager.value.replicas != 2, ResourceManagerReplicas(s.resourceManager.value.replicas)) else [])
  }

  function PlainErrors(s: Spec): seq<Invalid>
  {
    Only(s.dataNode.Some? && s.dataNode.value.replicas < 1, TooFewDataNodes) +
    (if s.hbase.Some? && s.hbase.value.enabled
     then Only(s.hbase.value.master.None?, NoHBaseMaster) + Only(s.hbase.value.region.None?, NoHBaseRegionServer) else [])
  }

  function ReplicationErrors(s: Spec): seq<Invalid>
  {
    if s.config.None? then []
    else
      Only(s.config.value.replication < 1, ReplicationTooSmall) +
      (if s.dataNode.Some? && s.config.value.replication > s.dataNode.value.replicas
       then [ReplicationTooLarge(s.config.value.replication, s.dataNode.value.replicas)] else [])
  }

  /** The errors `validateHadoopCluster` collects, in its order. */
  function Errors(s: Spec): seq<Invalid>
  {
    HaErrors(s) + PlainErrors(s) + ReplicationErrors(s)
  }

  lemma ReplicasSettle(n: Option<Node>, r: Rule, s: Spec, t: Spec)
    ensures n.Some? ==> Fill(Fill(n, r, s), r, t).value.replicas == Fill(n, r, s).value.replicas
  {
  }

  lemma JournalReplicasSettle(s: Spec)
    ensures var t := Defaulted(s); var u := Defaulted(t);
            (t.journalNode.Some? <==> u.journalNode.Some?) &&
            (t.journalNode.Some? ==> u.journalNode.value.replicas == t.journalNode.value.replicas)
  {
    SameHa(s);
    ReplicasSettle(s.journalNode, JOURNAL_NODE, s, Defaulted(s));
  }

  lemma HaVerdict(s: Spec)
    ensures HaErrors(Defaulted(Defaulted(s))) == HaErrors(Defaulted(s))
  {
    var t := Defaulted(s);
    SameHa(s);
    SameHa(t);
    ReplicasSettle(s.nameNode, NAME_NODE, s, t);
    ReplicasSettle(s.resourceManager, RESOURCE_MANAGER, s, t);
    JournalReplicasSettle(s);
  }

  lemma PlainVerdict(s: Spec)
    ensures PlainErrors(Defaulted(Defaulted(s))) == PlainErrors(Defaulted(s))
    ensures ReplicationErrors(Defaulted(Defaulted(s))) == ReplicationErrors(Defaulted(s))
  {
    GlobalsTwice(s);
    ReplicasSettle(s.dataNode, DATA_NODE, s, Defaulted(s));
  }

  /** What validation finds after one pass it finds after any further pass. */
  lemma VerdictSettled(s: Spec)
    ensures Errors(Defaulted(Defaulted(s))) == Errors(Defaulted(s))
  {
    HaVerdict(s);
    PlainVerdict(s);
  }

  /** The specification after `n` passes. */
  function Passes(s: Spec, n: nat): Spec
  {
    if n == 0 then s else Defaulted(Passes(s, n - 1))
  }

  lemma {:induction false} PassesTwo(s: Spec, n: nat)
    ensures Passes(s, n + 2) == Defaulted(Defaulted(s))
  {
    if n == 0 {
      assert Passes(s, 1) == Defaulted(Passes(s, 0));
    } else {
      PassesTwo(s, n - 1);
      ThreePassesAreTwo(s);
      assert Passes(s, n + 2) == Defaulted(Passes(s, n + 1));
    }
  }

  /** However often the webhook is called: from the second pass on nothing
      changes, and from the first on the verdict is the same. */
  lemma PassesSettle(s: Spec, n: nat)
    ensures Passes(s, n + 2) == Passes(s, 2)
    ensures Errors(Passes(s, n + 1)) == Errors(Passes(s, 1))
  {
    PassesTwo(s, n);
    PassesTwo(s, 0);
    if n > 0 {
      PassesTwo(s, n - 1);
      VerdictSettled(s);
    }
    assert Passes(s, 1) == Defaulted(Passes(s, 0));
  }

  // ------------------------------------------------------- which specs get in

  predicate HaAdmitted(s: Spec)
  {
    && (NameNodeHa(s) && s.nameNode.Some? ==> s.nameNode.value.replicas == 2)
    && (NameNodeHa(s) && s.journalNode.Some? ==> s.journalNode.value.replicas == 0 || s.journalNode.value.replicas >= 3)
    && (ResourceManagerHa(s) && s.resourceManager.Some? ==> s.resourceManager.value.replicas == 2)
  }

  predicate PlainAdmitted(s: Spec)
  {
    && (s.dataNode.Some? ==> s.dataNode.value.replicas >= 0)
    && (s.hbase.Some? && s.hbase.value.enabled ==> s.hbase.value.master.Some? && s.hbase.value.region.Some?)
  }

  predicate ReplicationAdmitted(s: Spec)
  {
    s.config.Some? ==>
      (s.config.value.replication >= 0 &&
       (s.dataNode.Some? ==> Number(s.config.value.replication, 3) <= Number(s.dataNode.value.replicas, 3)))
  }

  lemma HaAdmission(s: Spec)
    ensures HaErrors(Defaulted(s)) == [] <==> HaAdmitted(s)
  {
    SameHa(s);
  }

  lemma PlainAdmission(s: Spec)
    ensures PlainErrors(Defaulted(s)) == [] <==> PlainAdmitted(s)
  {
  }

  lemma ReplicationAdmission(s: Spec)
    ensures ReplicationErrors(Defaulted(s)) == [] <==> ReplicationAdmitted(s)
  {
  }

  /** Which specifications pass defaulting and validation, in terms of what the
      user wrote. */
  lemma AdmittedExactly(s: Spec)
    ensures Errors(Defaulted(s)) == [] <==> HaAdmitted(s) && PlainAdmitted(s) && ReplicationAdmitted(s)
  {
    HaAdmission(s);
    PlainAdmission(s);
    ReplicationAdmission(s);
  }

  /** Defaulting and validation disagree: under name node HA, name nodes whose
      number is left out get one replica and are then refused; so are resource
      managers; and a single data node refuses the default replication factor. */
  lemma DefaultsRefused(s: Spec)
    requires || (NameNodeHa(s) && s.nameNode.Some? && s.nameNode.value.replicas == 0)
             || (ResourceManagerHa(s) && s.resourceManager.Some? && s.resourceManager.value.replicas == 0)
             || (s.config.Some? && s.config.value.replication == 0 && s.dataNode.Some? && 1 <= s.dataNode.value.replicas < 3)
    ensures Errors(Defaulted(s)) != []
  {
    AdmittedExactly(s);
  }

  // -------------------------------------------------------------- as it is run

  /** The cluster object, defaulted in place. */
  class HadoopCluster {
    var image: string
    var pullPolicy: string
    var account: string
    var nameNode: Option<Node>
    var dataNode: Option<Node>
    var journalNode: Option<Node>
    var resourceManager: Option<Node>
    var nodeManager: Option<Node>
    var hbase: Option<HBase>
    var ha: Option<HaConfig>
    var config: Option<ClusterConfig>

    ghost function Value(): Spec
      reads this
    {
      Spec(image, pullPolicy, account, nameNode, dataNode, journalNode, resourceManager, nodeManager, hbase, ha, config)
    }

    constructor (s: Spec)
      ensures Value() == s
    {
      image, pullPolicy, account := s.image, s.pullPolicy, s.account;
      nameNode, dataNode, journalNode, resourceManager, nodeManager := s.nameNode, s.dataNode, s.journalNode, s.resourceManager, s.nodeManager;
      hbase, ha, config := s.hbase, s.ha, s.config;
    }

    /** The assignments for one component. */
    method FillIn(n: Option<Node>, r: Rule) returns (m: Option<Node>)
      ensures m == Fill(n, r, Value())
    {
      if n.None? { return None; }
      var node := n.value;
      if node.replicas == 0 { node := node.(replicas := r.replicas); }
      if node.image == "" { node := node.(image := image); }
      if r.pulls && node.pullPolicy == "" { node := node.(pullPolicy := pullPolicy); }
      if node.serviceType == "" { node := node.(serviceType := r.serviceType); }
      if node.nameDir == "" { node := node.(nameDir := r.nameDir); }
      if node.volumes == 0 { node := node.(volumes := r.volumes); }
      if node.ports.None? { node := node.(ports := Some(r.ports)); }
      m := Some(node);
    }

    method DefaultComponents()
      modifies this`nameNode, this`dataNode, this`journalNode, this`resourceManager, this`nodeManager, this`hbase
      ensures nameNode == Fill(old(nameNode), NAME_NODE, old(Value())) && dataNode == Fill(old(dataNode), DATA_NODE, old(Value()))
      ensures journalNode == Fill(old(journalNode), JOURNAL_NODE, old(Value()))
      ensures resourceManager == Fill(old(resourceManager), RESOURCE_MANAGER, old(Value()))
      ensures nodeManager == Fill(old(nodeManager), NODE_MANAGER, old(Value()))
      ensures hbase == FillHBase(old(hbase), old(Value()))
    {
      nameNode := FillIn(nameNode, NAME_NODE);
      dataNode := FillIn(dataNode, DATA_NODE);
      journalNode := FillIn(journalNode, JOURNAL_NODE);
      resourceManager := FillIn(resourceManager, RESOURCE_MANAGER);
      nodeManager := FillIn(nodeManager, NODE_MANAGER);
      if hbase.Some? && hbase.value.enabled {
        var master := FillIn(hbase.value.master, HBASE_MASTER);
        var region := FillIn(hbase.value.region, HBASE_REGION);
        hbase := Some(HBase(true, master, region));
      }
    }

    method DefaultHa()
      modifies this`ha, this`journalNode
      ensures ha == FillHaConfig(old(ha))
      ensures journalNode == if old(NameNodeHa(Value())) && old(journalNode).None? then Some(NEW_JOURNAL_NODE) else old(journalNode)
    {
      if ha.Some? {
        var nn, rm := ha.value.nameNode, ha.value.resourceManager;
        if nn.Some? && nn.value.enabled {
          if nn.value.replicas == 0 { nn := Some(Ha(true, 2)); }
          if journalNode.None? { journalNode := Some(NEW_JOURNAL_NODE); }
        }
        if rm.Some? && rm.value.enabled {
          if rm.value.replicas == 0 { rm := Some(Ha(true, 2)); }
        }
        ha := Some(HaConfig(nn, rm));
      }
    }

    method DefaultGlobals()
      modifies this`image, this`pullPolicy, this`account
      ensures image == Text(old(image), IMAGE) && pullPolicy == Text(old(pullPolicy), PULL_POLICY) && account == Text(old(account), ACCOUNT)
    {
      if image == "" { image := IMAGE; }
      if pullPolicy == "" { pullPolicy := PULL_POLICY; }
      if account == "" { account := ACCOUNT; }
    }

    method DefaultConfig()
      modifies this`config
      ensures config == FillConfig(old(config))
    {
      if config.Some? {
        var c := config.value;
        if c.replication == 0 { c := c.(replication := 3); }
        if c.blockSize == 0 { c := c.(blockSize := 134217728); }
        config := Some(c);
      }
    }

    /** `Default` */
    method Default()
      modifies this
      ensures Value() == Defaulted(old(Value()))
    {
      DefaultComponents();
      DefaultGlobals();
      DefaultHa();
      DefaultConfig();
    }

    method ValidateHa() returns (errors: seq<Invalid>)
      ensures errors == HaErrors(Value())
    {
      errors := [];
      if ha.Some? && ha.value.nameNode.Some? && ha.value.nameNode.value.enabled {
        if nameNode.Some? && nameNode.value.replicas != 2 { errors := errors + [NameNodeReplicas(nameNode.value.replicas)]; }
        if journalNode.None? || journalNode.value.replicas < 3 { errors := errors + [TooFewJournalNodes]; }
      }
      if ha.Some? && ha.value.resourceManager.Some? && ha.value.resourceManager.value.enabled {
        if resourceManager.Some? && resourceManager.value.replicas != 2 {
          errors := errors + [ResourceManagerReplicas(resourceManager.value.replicas)];
        }
      }
    }

    /** `validateHadoopCluster` */
    method Validate() returns (errors: seq<Invalid>)
      ensures errors == Errors(Value())
    {
      errors := ValidateHa();
      var plain := [];
      if dataNode.Some? && dataNode.value.replicas < 1 { plain := plain + [TooFewDataNodes]; }
      if hbase.Some? && hbase.value.enabled {
        if hbase.value.master.None? { plain := plain + [NoHBaseMaster]; }
        if hbase.value.region.None? { plain := plain + [NoHBaseRegionServer]; }
      }
      assert plain == PlainErrors(Value());
      var replication := [];
      if config.Some? {
        if config.value.replication < 1 { replication := replication + [ReplicationTooSmall]; }
        if dataNode.Some? && config.value.replication > dataNode.value.replicas {
          replication := replication + [ReplicationTooLarge(config.value.replication, dataNode.value.replicas)];
        }
      }
      assert replication == ReplicationErrors(Value());
      errors := errors + plain + replication;
    }

    /** Creation: defaulting, then validation. */
    method Admit() returns (ok: bool)
      modifies this
      ensures Value() == Defaulted(old(Value()))
      ensures ok == old(HaAdmitted(Value()) && PlainAdmitted(Value()) && ReplicationAdmitted(Value()))
    {
      ghost var s := Value();
      Default();
      var errors := Validate();
      AdmittedExactly(s);
      ok := errors == [];
    }
  }
}
