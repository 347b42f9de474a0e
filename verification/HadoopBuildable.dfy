/** When the builders raise: fields the normalisation passes on unread are read by
    the StatefulSet builders, in the middle of a run (k8s_resources.py). */
module HadoopBuildable {
  import opened HadoopSpec
  import opened Topology
  import opened HadoopNames
  import opened HadoopResources

  // ------------------------------------------------------------- one builder

  predicate AllObjects(items: seq<Json>)
  {
    forall j <- items :: j.Obj?
  }

  lemma {:induction false} RequirementsExactly(blocks: seq<Json>)
    ensures AllRequirements(blocks).Ok? <==> AllObjects(blocks)
    ensures AllRequirements(blocks).Err? ==> AllRequirements(blocks).error == AttributeError
  {
    if blocks != [] {
      RequirementsExactly(blocks[1..]);
      assert blocks == [blocks[0]] + blocks[1..];
    }
  }

  lemma {:induction false} SecretNamesExactly(items: seq<Json>)
    ensures SecretNames(items).Ok? <==> AllObjects(items)
  {
    if items != [] {
      SecretNamesExactly(items[1..]);
      assert items == [items[0]] + items[1..];
    }
  }

  /** A list whose items are all dictionaries. */
  predicate ObjectList(j: Json)
  {
    j.List? && AllObjects(j.items)
  }

  lemma SecretsExactly(secrets: Json)
    requires Truthy(secrets) || secrets == List([])
    ensures PullSecrets(secrets).Ok? <==> ObjectList(secrets)
  {
    if secrets.List? { SecretNamesExactly(secrets.items); }
  }

  lemma PartsExactly(n: Norm, r: Role)
    requires Canonical(n)
    ensures ReadParts(n, r).Ok? <==> AllObjects(Blocks(n, r)) && ObjectList(n.imagePullSecrets)
  {
    RequirementsExactly(Blocks(n, r));
    SecretsExactly(n.imagePullSecrets);
  }

  // ---------------------------------------------------------- a whole run

  /** The builder behind a step, if it has one that can raise, returns. */
  predicate StepBuilds(n: Norm, a: Action)
  {
    a.Put? && KindOf(a.role) == StatefulSetKind ==> ReadParts(n, a.role).Ok?
  }

  predicate BuiltSteps(n: Norm, acts: seq<Action>, pos: nat)
  {
    pos <= |acts| && forall k :: 0 <= k < pos ==> StepBuilds(n, acts[k])
  }

  /** The first step from `i` on whose builder raises, or the end. */
  function ReachFrom(n: Norm, acts: seq<Action>, i: nat): (r: nat)
    requires i <= |acts|
    ensures i <= r <= |acts| && (r < |acts| ==> !StepBuilds(n, acts[r]))
    ensures forall k :: i <= k < r ==> StepBuilds(n, acts[k])
    decreases |acts| - i
  {
    if i == |acts| || !StepBuilds(n, acts[i]) then i else ReachFrom(n, acts, i + 1)
  }

  /** How many steps a run makes when no API call fails. */
  function Reach(n: Norm): nat
  {
    ReachFrom(n, Plan(SwitchesOf(n)), 0)
  }

  /** The exception that ends such a run early. */
  function CrashError(n: Norm): PyError
    requires Reach(n) < |Plan(SwitchesOf(n))|
  {
    ReadParts(n, Plan(SwitchesOf(n))[Reach(n)].role).error
  }

  /** A run stopped where everything before was built, at the end or at a builder
      that raises, has come exactly as far as it can. */
  lemma StopsAtReach(n: Norm, pos: nat)
    requires BuiltSteps(n, Plan(SwitchesOf(n)), pos)
    requires pos == |Plan(SwitchesOf(n))| || !StepBuilds(n, Plan(SwitchesOf(n))[pos])
    ensures pos == Reach(n)
  {
  }

  lemma WithinReach(n: Norm, pos: nat)
    requires BuiltSteps(n, Plan(SwitchesOf(n)), pos)
    ensures pos <= Reach(n)
  {
  }

  /** What a user can see in the specification: the pull secrets are a list of
      objects, and so is every resource block that is used an object. */
  predicate Buildable(n: Norm)
  {
    && ObjectList(n.imagePullSecrets)
    && n.resources.namenode.Obj? && n.resources.datanode.Obj?
    && (n.hdfs.ha.enabled ==> n.resources.zkfc.Obj? && n.resources.zookeeper.Obj? && n.resources.journalnode.Obj?)
    && (n.yarn.enabled ==> n.resources.resourcemanager.Obj? && n.resources.nodemanager.Obj?)
  }

  lemma BlocksObjects(n: Norm, r: Role)
    requires Buildable(n) && KindOf(r) == StatefulSetKind && Desired(SwitchesOf(n), r)
    ensures AllObjects(Blocks(n, r))
  {
  }

  lemma NameNodeBlocks(n: Norm)
    ensures AllObjects(Blocks(n, StsNameNode)) ==> n.resources.namenode.Obj? && (n.hdfs.ha.enabled ==> n.resources.zkfc.Obj?)
  {
    assert n.resources.namenode in Blocks(n, StsNameNode);
    if n.hdfs.ha.enabled { assert n.resources.zkfc in Blocks(n, StsNameNode); }
  }

  lemma SingleBlock(n: Norm, r: Role, block: Json)
    requires Blocks(n, r) == [block] && AllObjects(Blocks(n, r))
    ensures block.Obj?
  {
    assert block in Blocks(n, r);
  }

  lemma DesiredBuilds(n: Norm, r: Role)
    requires BuiltSteps(n, Plan(SwitchesOf(n)), |Plan(SwitchesOf(n))|) && Canonical(n)
    requires KindOf(r) == StatefulSetKind && Desired(SwitchesOf(n), r)
    ensures AllObjects(Blocks(n, r)) && ObjectList(n.imagePullSecrets)
  {
    var plan := Plan(SwitchesOf(n));
    PlanPuts(SwitchesOf(n), r);
    var k :| 0 <= k < |plan| && plan[k] == Put(r);
    assert StepBuilds(n, plan[k]);
    PartsExactly(n, r);
  }

  lemma BuiltIsBuildable(n: Norm)
    requires Canonical(n) && BuiltSteps(n, Plan(SwitchesOf(n)), |Plan(SwitchesOf(n))|)
    ensures Buildable(n)
  {
    DesiredBuilds(n, StsNameNode);
    NameNodeBlocks(n);
    DesiredBuilds(n, StsDataNode);
    SingleBlock(n, StsDataNode, n.resources.datanode);
    if n.hdfs.ha.enabled { QuorumBuilt(n); }
    if n.yarn.enabled { YarnBuilt(n); }
  }

  lemma QuorumBuilt(n: Norm)
    requires Canonical(n) && n.hdfs.ha.enabled && BuiltSteps(n, Plan(SwitchesOf(n)), |Plan(SwitchesOf(n))|)
    ensures n.resources.zookeeper.Obj? && n.resources.journalnode.Obj?
  {
    DesiredBuilds(n, StsZookeeper);
    SingleBlock(n, StsZookeeper, n.resources.zookeeper);
    DesiredBuilds(n, StsJournalNode);
    SingleBlock(n, StsJournalNode, n.resources.journalnode);
  }

  lemma YarnBuilt(n: Norm)
    requires Canonical(n) && n.yarn.enabled && BuiltSteps(n, Plan(SwitchesOf(n)), |Plan(SwitchesOf(n))|)
    ensures n.resources.resourcemanager.Obj? && n.resources.nodemanager.Obj?
  {
    DesiredBuilds(n, StsRm);
    SingleBlock(n, StsRm, n.resources.resourcemanager);
    DesiredBuilds(n, StsNm);
    SingleBlock(n, StsNm, n.resources.nodemanager);
  }

  lemma BuildableBuilds(n: Norm, k: nat)
    requires Canonical(n) && Buildable(n) && k < |Plan(SwitchesOf(n))|
    ensures StepBuilds(n, Plan(SwitchesOf(n))[k])
  {
    var a := Plan(SwitchesOf(n))[k];
    if a.Put? && KindOf(a.role) == StatefulSetKind {
      assert a == Put(a.role) && a in Plan(SwitchesOf(n));
      PlanPuts(SwitchesOf(n), a.role);
      BlocksObjects(n, a.role);
      PartsExactly(n, a.role);
    }
  }

  /** A normalised specification lets every builder return if and only if it is
      buildable; otherwise a run without API errors stops inside the plan. */
  lemma BuildableExactly(n: Norm)
    requires Canonical(n)
    ensures Buildable(n) <==> Reach(n) == |Plan(SwitchesOf(n))|
  {
    if Buildable(n) {
      forall k | 0 <= k < |Plan(SwitchesOf(n))| ensures StepBuilds(n, Plan(SwitchesOf(n))[k]) {
        BuildableBuilds(n, k);
      }
      StopsAtReach(n, |Plan(SwitchesOf(n))|);
    }
    if Reach(n) == |Plan(SwitchesOf(n))| { BuiltIsBuildable(n); }
  }

  /** A run that crashes has written the configuration at least: the first
      StatefulSet, and so the first builder that can raise, comes after it. */
  lemma CrashAfterConfiguration(n: Norm)
    requires Reach(n) < |Plan(SwitchesOf(n))|
    ensures Reach(n) >= |ConfigSteps(SwitchesOf(n))| > 0
  {
    var w := SwitchesOf(n);
    var a := Plan(w)[Reach(n)];
    StartOfPlan(w, Reach(n));
    ConfigMembers(w, a);
  }

  lemma StartOfPlan(w: Switches, k: nat)
    requires k < |Plan(w)|
    ensures k < |ConfigSteps(w)| ==> Plan(w)[k] in ConfigSteps(w)
  {
    PlanSplit(w);
  }
}
