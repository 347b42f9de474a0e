/** What one reconcile of a HadoopCluster does, by role: the sequence of
    create, replace, ensure and delete steps of `_reconcile` (controller.py),
    and, independently, which roles a specification asks for. */
module Topology {

  type Ordinal = i: nat | i < 2

  /** The objects a cluster can own: 2 ConfigMaps, 15 Services, 6
      StatefulSets, a PodDisruptionBudget and an Ingress. */
  datatype Role =
    | CmHadoop | CmZookeeper
    | SvcZookeeper | SvcJournalNode
    | SvcNameNode | SvcNameNodeExternal | SvcNnPodExternal(i: Ordinal) | SvcNnPodWeb(i: Ordinal)
    | SvcRmWeb | SvcDataNode | SvcDataNodeExternal
    | SvcRm | SvcRmExternal | SvcNm | SvcNmExternal
    | StsZookeeper | StsJournalNode | StsNameNode | StsDataNode | StsRm | StsNm
    | PdbNameNode
    | IngUi

  predicate IsService(r: Role)
  {
    r.SvcZookeeper? || r.SvcJournalNode? || r.SvcNameNode? || r.SvcNameNodeExternal? || r.SvcNnPodExternal? ||
    r.SvcNnPodWeb? || r.SvcRmWeb? || r.SvcDataNode? || r.SvcDataNodeExternal? || r.SvcRm? || r.SvcRmExternal? ||
    r.SvcNm? || r.SvcNmExternal?
  }

  /** The decisions `_reconcile` takes on a normalised spec. */
  datatype Switches = Switches(
    ha: bool, yarn: bool,
    nnNodePort: bool, dnNodePort: bool, rmNodePort: bool, nmNodePort: bool,
    ingress: bool, rmHost: bool, anyRule: bool)

  /** `replace_or_create_*`, `ensure_service` and `delete_*`. */
  datatype Action = Put(role: Role) | Ensure(role: Role) | Drop(role: Role)

  // ------------------------------------------------------- the steps, in order

  function HaTeardown(): seq<Action>
  {
    [Drop(SvcZookeeper), Drop(SvcJournalNode), Drop(StsZookeeper), Drop(StsJournalNode), Drop(CmZookeeper),
     Drop(SvcNnPodExternal(0)), Drop(SvcNnPodWeb(0)), Drop(SvcNnPodExternal(1)), Drop(SvcNnPodWeb(1))]
  }

  function ConfigSteps(w: Switches): seq<Action>
  {
    [Put(CmHadoop)] + if w.ha then [Put(CmZookeeper)] else HaTeardown() + [Drop(CmZookeeper)]
  }

  function QuorumSteps(w: Switches): seq<Action>
  {
    if w.ha then [Ensure(SvcZookeeper), Put(StsZookeeper), Ensure(SvcJournalNode), Put(StsJournalNode)] else []
  }

  function NameNodeExposureSteps(w: Switches): seq<Action>
  {
    [Ensure(SvcNameNode)] +
    if w.nnNodePort then
      if w.ha then [Drop(SvcNameNodeExternal), Ensure(SvcNnPodExternal(0)), Ensure(SvcNnPodExternal(1))]
      else [Drop(SvcNnPodExternal(0)), Drop(SvcNnPodExternal(1)), Ensure(SvcNameNodeExternal)]
    else [Drop(SvcNameNodeExternal), Drop(SvcNnPodExternal(0)), Drop(SvcNnPodExternal(1))]
  }

  function IngressSteps(w: Switches): seq<Action>
  {
    if w.ingress then
      (if w.ha then [Ensure(SvcNnPodWeb(0)), Ensure(SvcNnPodWeb(1))]
       else [Drop(SvcNnPodWeb(1)), Ensure(SvcNnPodWeb(0))]) +
      [if w.yarn && w.rmHost then Ensure(SvcRmWeb) else Drop(SvcRmWeb)] +
      [if w.anyRule then Put(IngUi) else Drop(IngUi)]
    else [Drop(IngUi), Drop(SvcNnPodWeb(0)), Drop(SvcNnPodWeb(1)), Drop(SvcRmWeb)]
  }

  function HdfsSteps(w: Switches): seq<Action>
  {
    [if w.dnNodePort then Ensure(SvcDataNodeExternal) else Drop(SvcDataNodeExternal)] +
    [Ensure(SvcDataNode), Put(StsNameNode), Put(StsDataNode), Put(PdbNameNode)]
  }

  function YarnSteps(w: Switches): seq<Action>
  {
    if w.yarn then
      [Ensure(SvcRm), if w.rmNodePort then Ensure(SvcRmExternal) else Drop(SvcRmExternal),
       Ensure(SvcNm), if w.nmNodePort then Ensure(SvcNmExternal) else Drop(SvcNmExternal),
       Put(StsRm), Put(StsNm)]
    else
      [Drop(SvcRmExternal), Drop(SvcRm), Drop(SvcNmExternal), Drop(SvcNm), Drop(StsRm), Drop(StsNm)]
  }

  function Plan(w: Switches): seq<Action>
  {
    ConfigSteps(w) + QuorumSteps(w) + NameNodeExposureSteps(w) + IngressSteps(w) + HdfsSteps(w) + YarnSteps(w)
  }

  // ------------------------------------------------------- the desired state

  /** Which roles a specification asks for. */
  predicate Desired(w: Switches, r: Role)
  {
    match r
    case CmHadoop | SvcNameNode | SvcDataNode | StsNameNode | StsDataNode | PdbNameNode => true
    case CmZookeeper | SvcZookeeper | SvcJournalNode | StsZookeeper | StsJournalNode => w.ha
    case SvcNameNodeExternal => w.nnNodePort && !w.ha
    case SvcNnPodExternal(_) => w.nnNodePort && w.ha
    case SvcNnPodWeb(i) => w.ingress && (w.ha || i == 0)
    case SvcRmWeb => w.ingress && w.yarn && w.rmHost
    case SvcDataNodeExternal => w.dnNodePort
    case SvcRm | SvcNm | StsRm | StsNm => w.yarn
    case SvcRmExternal => w.yarn && w.rmNodePort
    case SvcNmExternal => w.yarn && w.nmNodePort
    case IngUi => w.ingress && w.anyRule
  }

  /** The one Service a reconcile deletes and creates again: without HA the
      teardown of the HA objects removes `namenode-0-web`, which the ingress
      branch then ensures. */
  predicate Recreated(w: Switches, r: Role)
  {
    !w.ha && r == SvcNnPodWeb(0)
  }

  /** An object already present is kept as it is. */
  predicate Kept(w: Switches, r: Role)
  {
    IsService(r) && !Recreated(w, r)
  }

  // ------------------------------------------- effect of a sequence on one role

  /** What is stored for a role, relative to the state before the sequence. */
  datatype Cell = Absent | Old | Built

  function Step(c: Cell, a: Action, r: Role): Cell
  {
    if a.role != r then c
    else match a
      case Put(_) => Built
      case Ensure(_) => if c == Absent then Built else c
      case Drop(_) => Absent
  }

  function Fold(c: Cell, acts: seq<Action>, r: Role): Cell
    decreases |acts|
  {
    if acts == [] then c else Fold(Step(c, acts[0], r), acts[1..], r)
  }

  lemma {:induction false} FoldConcat(c: Cell, a: seq<Action>, b: seq<Action>, r: Role)
    ensures Fold(c, a + b, r) == Fold(Fold(c, a, r), b, r)
    decreases |a|
  {
    if a == [] {
      assert a + b == b;
    } else {
      assert (a + b)[1..] == a[1..] + b;
      FoldConcat(Step(c, a[0], r), a[1..], b, r);
    }
  }

  lemma FoldLast(c: Cell, acts: seq<Action>, r: Role)
    requires acts != []
    ensures Fold(c, acts, r) == Step(Fold(c, acts[..|acts| - 1], r), acts[|acts| - 1], r)
  {
    var init, last := acts[..|acts| - 1], acts[|acts| - 1];
    assert acts == init + [last];
    FoldConcat(c, init, [last], r);
  }

  /** A sequence that only drops a role leaves it absent, if it mentions it at all. */
  lemma {:induction false} FoldDrops(c: Cell, acts: seq<Action>, r: Role)
    requires Put(r) !in acts && Ensure(r) !in acts
    ensures Fold(c, acts, r) == if Drop(r) in acts then Absent else c
    decreases |acts|
  {
    if acts != [] {
      assert acts == [acts[0]] + acts[1..];
      FoldDrops(Step(c, acts[0], r), acts[1..], r);
    }
  }

  /** A sequence that only replaces a role leaves it freshly built. */
  lemma {:induction false} FoldPuts(c: Cell, acts: seq<Action>, r: Role)
    requires Drop(r) !in acts && Ensure(r) !in acts
    ensures Fold(c, acts, r) == if Put(r) in acts then Built else c
    decreases |acts|
  {
    if acts != [] {
      assert acts == [acts[0]] + acts[1..];
      FoldPuts(Step(c, acts[0], r), acts[1..], r);
    }
  }

  /** A sequence that only ensures a role creates it when missing and keeps it otherwise. */
  lemma {:induction false} FoldEnsures(c: Cell, acts: seq<Action>, r: Role)
    requires Drop(r) !in acts && Put(r) !in acts
    ensures Fold(c, acts, r) == if Ensure(r) in acts && c == Absent then Built else c
    decreases |acts|
  {
    if acts != [] {
      assert acts == [acts[0]] + acts[1..];
      FoldEnsures(Step(c, acts[0], r), acts[1..], r);
    }
  }

  // -------------------------------------------- which steps each part contains

  predicate InTeardown(a: Action)
  {
    a.Drop? && (a.role.SvcZookeeper? || a.role.SvcJournalNode? || a.role.StsZookeeper? || a.role.StsJournalNode? ||
                a.role.CmZookeeper? || a.role.SvcNnPodExternal? || a.role.SvcNnPodWeb?)
  }

  lemma TeardownMembers(a: Action)
    ensures a in HaTeardown() <==> InTeardown(a)
  {
    if InTeardown(a) && a.role.SvcNnPodExternal? { assert a.role.i == 0 || a.role.i == 1; }
    if InTeardown(a) && a.role.SvcNnPodWeb? { assert a.role.i == 0 || a.role.i == 1; }
  }

  predicate InConfig(w: Switches, a: Action)
  {
    a == Put(CmHadoop) || if w.ha then a == Put(CmZookeeper) else InTeardown(a)
  }

  lemma ConfigMembers(w: Switches, a: Action)
    ensures a in ConfigSteps(w) <==> InConfig(w, a)
  {
    TeardownMembers(a);
  }

  predicate InQuorum(w: Switches, a: Action)
  {
    w.ha && (a == Ensure(SvcZookeeper) || a == Put(StsZookeeper) || a == Ensure(SvcJournalNode) || a == Put(StsJournalNode))
  }

  lemma QuorumMembers(w: Switches, a: Action)
    ensures a in QuorumSteps(w) <==> InQuorum(w, a)
  {
  }

  predicate InExposure(w: Switches, a: Action)
  {
    match a.role
    case SvcNameNode => a.Ensure?
    case SvcNameNodeExternal => if w.nnNodePort && !w.ha then a.Ensure? else a.Drop?
    case SvcNnPodExternal(_) => if w.nnNodePort && w.ha then a.Ensure? else a.Drop?
    case _ => false
  }

  lemma ExposureMembers(w: Switches, a: Action)
    ensures a in NameNodeExposureSteps(w) <==> InExposure(w, a)
  {
    if a.role.SvcNnPodExternal? { assert a.role.i == 0 || a.role.i == 1; }
  }

  predicate InIngress(w: Switches, a: Action)
  {
    match a.role
    case SvcNnPodWeb(i) => if w.ingress && (w.ha || i == 0) then a.Ensure? else a.Drop?
    case SvcRmWeb => if w.ingress && w.yarn && w.rmHost then a.Ensure? else a.Drop?
    case IngUi => if w.ingress && w.anyRule then a.Put? else a.Drop?
    case _ => false
  }

  lemma IngressMembers(w: Switches, a: Action)
    ensures a in IngressSteps(w) <==> InIngress(w, a)
  {
    if a.role.SvcNnPodWeb? { assert a.role.i == 0 || a.role.i == 1; }
  }

  predicate InHdfs(w: Switches, a: Action)
  {
    match a.role
    case SvcDataNodeExternal => if w.dnNodePort then a.Ensure? else a.Drop?
    case SvcDataNode => a.Ensure?
    case StsNameNode | StsDataNode | PdbNameNode => a.Put?
    case _ => false
  }

  lemma HdfsMembers(w: Switches, a: Action)
    ensures a in HdfsSteps(w) <==> InHdfs(w, a)
  {
  }

  predicate InYarn(w: Switches, a: Action)
  {
    match a.role
    case SvcRm | SvcNm => if w.yarn then a.Ensure? else a.Drop?
    case SvcRmExternal => if w.yarn && w.rmNodePort then a.Ensure? else a.Drop?
    case SvcNmExternal => if w.yarn && w.nmNodePort then a.Ensure? else a.Drop?
    case StsRm | StsNm => if w.yarn then a.Put? else a.Drop?
    case _ => false
  }

  lemma YarnMembers(w: Switches, a: Action)
    ensures a in YarnSteps(w) <==> InYarn(w, a)
  {
  }

  /** The part of the plan after the configuration and teardown. */
  function Later(w: Switches): seq<Action>
  {
    QuorumSteps(w) + NameNodeExposureSteps(w) + IngressSteps(w) + HdfsSteps(w) + YarnSteps(w)
  }

  predicate InLater(w: Switches, a: Action)
  {
    InQuorum(w, a) || InExposure(w, a) || InIngress(w, a) || InHdfs(w, a) || InYarn(w, a)
  }

  lemma Members5(a: seq<Action>, b: seq<Action>, c: seq<Action>, d: seq<Action>, e: seq<Action>, x: Action)
    ensures x in a + b + c + d + e <==> x in a || x in b || x in c || x in d || x in e
  {
  }

  lemma LaterMembers(w: Switches, a: Action)
    ensures a in Later(w) <==> InLater(w, a)
  {
    Members5(QuorumSteps(w), NameNodeExposureSteps(w), IngressSteps(w), HdfsSteps(w), YarnSteps(w), a);
    QuorumMembers(w, a);
    ExposureMembers(w, a);
    IngressMembers(w, a);
    HdfsMembers(w, a);
    YarnMembers(w, a);
  }

  lemma PlanSplit(w: Switches)
    ensures Plan(w) == ConfigSteps(w) + Later(w)
  {
    Associate(ConfigSteps(w), QuorumSteps(w), NameNodeExposureSteps(w), IngressSteps(w), HdfsSteps(w), YarnSteps(w));
  }

  lemma Associate(a: seq<Action>, b: seq<Action>, c: seq<Action>, d: seq<Action>, e: seq<Action>, f: seq<Action>)
    ensures a + b + c + d + e + f == a + (b + c + d + e + f)
  {
  }

  lemma PlanMembers(w: Switches, a: Action)
    ensures a in Plan(w) <==> InConfig(w, a) || InLater(w, a)
  {
    PlanSplit(w);
    ConfigMembers(w, a);
    LaterMembers(w, a);
  }

  /** The roles that are replaced are the desired ones that are not Services. */
  lemma PlanPuts(w: Switches, r: Role)
    ensures Put(r) in Plan(w) <==> Desired(w, r) && !IsService(r)
  {
    PlanMembers(w, Put(r));
    if r.IngUi? { PutIngress(w); } else if r.StsRm? || r.StsNm? { PutYarn(w, r); } else { PutRest(w, r); }
  }

  lemma PutIngress(w: Switches)
    ensures InConfig(w, Put(IngUi)) || InLater(w, Put(IngUi)) <==> Desired(w, IngUi)
  {
  }

  lemma PutYarn(w: Switches, r: Role)
    requires r.StsRm? || r.StsNm?
    ensures InConfig(w, Put(r)) || InLater(w, Put(r)) <==> Desired(w, r)
  {
  }

  lemma PutRest(w: Switches, r: Role)
    requires !r.IngUi? && !r.StsRm? && !r.StsNm?
    ensures InConfig(w, Put(r)) || InLater(w, Put(r)) <==> Desired(w, r) && !IsService(r)
  {
  }

  /** The roles that are ensured are the desired Services. */
  lemma PlanEnsures(w: Switches, r: Role)
    ensures Ensure(r) in Plan(w) <==> Desired(w, r) && IsService(r)
  {
    hide Plan;
    PlanMembers(w, Ensure(r));
  }

  /** Every role is either written or dropped, and only `Recreated` is both. */
  lemma PlanDrops(w: Switches, r: Role)
    ensures Drop(r) in Plan(w) <==> !Desired(w, r) || Recreated(w, r)
  {
    PlanMembers(w, Drop(r));
    if NameNodeRole(r) { DropNameNode(w, r); } else if QuorumRole(r) { DropQuorum(w, r); } else { DropRest(w, r); }
  }

  predicate NameNodeRole(r: Role)
  {
    r.SvcNameNode? || r.SvcNameNodeExternal? || r.SvcNnPodExternal? || r.SvcNnPodWeb?
  }

  predicate QuorumRole(r: Role)
  {
    r.CmZookeeper? || r.SvcZookeeper? || r.SvcJournalNode? || r.StsZookeeper? || r.StsJournalNode?
  }

  lemma DropNameNode(w: Switches, r: Role)
    requires NameNodeRole(r)
    ensures InConfig(w, Drop(r)) || InLater(w, Drop(r)) <==> !Desired(w, r) || Recreated(w, r)
  {
  }

  lemma DropQuorum(w: Switches, r: Role)
    requires QuorumRole(r)
    ensures InConfig(w, Drop(r)) || InLater(w, Drop(r)) <==> !Desired(w, r)
  {
  }

  lemma DropRest(w: Switches, r: Role)
    requires !NameNodeRole(r) && !QuorumRole(r)
    ensures InConfig(w, Drop(r)) || InLater(w, Drop(r)) <==> !Desired(w, r)
  {
  }

  lemma RecreatedFirstDropped(w: Switches, r: Role)
    requires Recreated(w, r)
    ensures Drop(r) in ConfigSteps(w) && Put(r) !in ConfigSteps(w) && Ensure(r) !in ConfigSteps(w)
  {
    ConfigMembers(w, Drop(r));
    ConfigMembers(w, Put(r));
    ConfigMembers(w, Ensure(r));
  }

  lemma RecreatedThenEnsured(w: Switches, r: Role)
    requires Desired(w, r) && Recreated(w, r)
    ensures Ensure(r) in Later(w) && Drop(r) !in Later(w) && Put(r) !in Later(w)
  {
    hide Later;
    LaterMembers(w, Drop(r));
    LaterMembers(w, Put(r));
    LaterMembers(w, Ensure(r));
  }

  /** What a complete reconcile leaves for every role, from any state: exactly
      the desired roles exist, and each is freshly built unless it is a Service
      that was already there and is not one the run recreates. */
  lemma PlanEffect(w: Switches, r: Role, before: Cell)
    ensures Fold(before, Plan(w), r) ==
      if !Desired(w, r) then Absent
      else if before != Absent && Kept(w, r) then before
      else Built
  {
    PlanPuts(w, r);
    PlanEnsures(w, r);
    PlanDrops(w, r);
    if !Desired(w, r) {
      FoldDrops(before, Plan(w), r);
    } else if Recreated(w, r) {
      RecreatedFirstDropped(w, r);
      RecreatedThenEnsured(w, r);
      PlanSplit(w);
      FoldConcat(before, ConfigSteps(w), Later(w), r);
      FoldDrops(before, ConfigSteps(w), r);
      FoldEnsures(Absent, Later(w), r);
    } else if IsService(r) {
      FoldEnsures(before, Plan(w), r);
    } else {
      FoldPuts(before, Plan(w), r);
    }
  }
}
