/** What holds after a reconcile that an API error cut short (controller.py). */
module HadoopInterrupted {
  import opened Wrappers
  import opened HadoopSpec
  import opened Topology
  import opened HadoopNames
  import opened HadoopResources
  import opened HadoopStore
  import opened HadoopClosure

  // --------------------------------------------- which step comes before which

  /** Wherever a run is cut, `b` is among the steps made only if `a` is. */
  ghost predicate Leads(acts: seq<Action>, a: Action, b: Action)
  {
    forall k :: 0 <= k <= |acts| && b in acts[..k] ==> a in acts[..k]
  }

  lemma LeadsWithin(p: seq<Action>, x: seq<Action>, q: seq<Action>, a: Action, b: Action)
    requires b !in p && b in x && Leads(x, a, b)
    ensures Leads(p + x + q, a, b)
  {
    var acts := p + x + q;
    assert x[..|x|] == x;
    forall k | 0 <= k <= |acts| && b in acts[..k] ensures a in acts[..k] {
      Take(p + x, q, k);
      if k <= |p + x| { Take(p, x, k); }
    }
  }

  lemma Take(p: seq<Action>, q: seq<Action>, k: nat)
    requires k <= |p| + |q|
    ensures (p + q)[..k] == if k <= |p| then p[..k] else p + q[..k - |p|]
  {
  }

  lemma LeadsAcross(p: seq<Action>, q: seq<Action>, a: Action, b: Action)
    requires a in p && b !in p
    ensures Leads(p + q, a, b)
  {
    var acts := p + q;
    forall k | 0 <= k <= |acts| && b in acts[..k] ensures a in acts[..k] {
      Take(p, q, k);
    }
  }

  /** A step that stands at a position after another. */
  lemma LeadsAt(x: seq<Action>, i: nat, j: nat)
    requires i < j < |x| && forall m :: 0 <= m < j ==> x[m] != x[j]
    ensures Leads(x, x[i], x[j])
  {
    forall k | 0 <= k <= |x| && x[j] in x[..k] ensures x[i] in x[..k] {
      assert x[..k][i] == x[i];
    }
  }

  lemma QuorumLeads(w: Switches, r: Role)
    requires w.ha && (r.StsZookeeper? || r.StsJournalNode?)
    ensures Leads(Plan(w), Ensure(Governing(r)), Put(r))
  {
    var x := QuorumSteps(w);
    var i := if r.StsZookeeper? then 0 else 2;
    LeadsAt(x, i, i + 1);
    ConfigMembers(w, Put(r));
    QuorumMembers(w, Put(r));
    LeadsWithin(ConfigSteps(w), x, NameNodeExposureSteps(w) + IngressSteps(w) + HdfsSteps(w) + YarnSteps(w), Ensure(Governing(r)), Put(r));
    Regroup6(ConfigSteps(w), x, NameNodeExposureSteps(w), IngressSteps(w), HdfsSteps(w), YarnSteps(w));
  }

  lemma Regroup6(a: seq<Action>, b: seq<Action>, c: seq<Action>, d: seq<Action>, e: seq<Action>, f: seq<Action>)
    ensures a + b + (c + d + e + f) == a + b + c + d + e + f
    ensures (a + b + c) + (d + e + f) == a + b + c + d + e + f
    ensures (a + b + c + d) + e + f == a + b + c + d + e + f
    ensures (a + b + c + d + e) + f + [] == a + b + c + d + e + f
  {
  }

  lemma NameNodeLeads(w: Switches)
    ensures Leads(Plan(w), Ensure(SvcNameNode), Put(StsNameNode))
  {
    var p := ConfigSteps(w) + QuorumSteps(w) + NameNodeExposureSteps(w);
    EarlyMembers(w, Put(StsNameNode));
    EarlyMembers(w, Ensure(SvcNameNode));
    LeadsAcross(p, IngressSteps(w) + HdfsSteps(w) + YarnSteps(w), Ensure(SvcNameNode), Put(StsNameNode));
    Regroup6(ConfigSteps(w), QuorumSteps(w), NameNodeExposureSteps(w), IngressSteps(w), HdfsSteps(w), YarnSteps(w));
  }

  lemma EarlyMembers(w: Switches, a: Action)
    ensures a in ConfigSteps(w) + QuorumSteps(w) + NameNodeExposureSteps(w) <==> InConfig(w, a) || InQuorum(w, a) || InExposure(w, a)
  {
    ConfigMembers(w, a);
    QuorumMembers(w, a);
    ExposureMembers(w, a);
  }

  lemma DataNodeLeads(w: Switches)
    ensures Leads(Plan(w), Ensure(SvcDataNode), Put(StsDataNode))
  {
    var p := ConfigSteps(w) + QuorumSteps(w) + NameNodeExposureSteps(w) + IngressSteps(w);
    EarlyMembers(w, Put(StsDataNode));
    IngressMembers(w, Put(StsDataNode));
    var x := HdfsSteps(w);
    assert x[1] == Ensure(SvcDataNode) && x[3] == Put(StsDataNode);
    LeadsAt(x, 1, 3);
    LeadsWithin(p, x, YarnSteps(w), Ensure(SvcDataNode), Put(StsDataNode));
    Regroup6(ConfigSteps(w), QuorumSteps(w), NameNodeExposureSteps(w), IngressSteps(w), x, YarnSteps(w));
  }

  lemma YarnLeads(w: Switches, r: Role)
    requires w.yarn && (r.StsRm? || r.StsNm?)
    ensures Leads(Plan(w), Ensure(Governing(r)), Put(r))
  {
    var p := ConfigSteps(w) + QuorumSteps(w) + NameNodeExposureSteps(w) + IngressSteps(w) + HdfsSteps(w);
    EarlyMembers(w, Put(r));
    IngressMembers(w, Put(r));
    HdfsMembers(w, Put(r));
    var x := YarnSteps(w);
    if r.StsRm? { LeadsAt(x, 0, 4); } else { LeadsAt(x, 2, 5); }
    LeadsWithin(p, x, [], Ensure(Governing(r)), Put(r));
    Regroup6(ConfigSteps(w), QuorumSteps(w), NameNodeExposureSteps(w), IngressSteps(w), HdfsSteps(w), x);
  }

  /** A StatefulSet is written only after the Service that governs it. */
  lemma ServiceLeads(w: Switches, r: Role)
    requires KindOf(r) == StatefulSetKind && Desired(w, r)
    ensures Leads(Plan(w), Ensure(Governing(r)), Put(r))
  {
    if r.StsNameNode? { NameNodeLeads(w); }
    else if r.StsDataNode? { DataNodeLeads(w); }
    else if r.StsZookeeper? || r.StsJournalNode? { QuorumLeads(w, r); }
    else { YarnLeads(w, r); }
  }

  /** A StatefulSet is written only after all steps of the configuration part. */
  lemma ConfigLeads(w: Switches, r: Role, k: nat, a: Action)
    requires KindOf(r) == StatefulSetKind && k <= |Plan(w)| && Put(r) in Plan(w)[..k] && a in ConfigSteps(w)
    ensures a in Plan(w)[..k]
  {
    ConfigMembers(w, Put(r));
    PlanSplit(w);
    LeadsAcross(ConfigSteps(w), Later(w), a, Put(r));
  }

  // ------------------------------------------------------ what is in the store

  /** The cells of an interrupted run that has written a StatefulSet. */
  lemma InterruptedCells(w: Switches, k: nat, r: Role, c: Cell, g: Cell, h: Cell, z: Cell)
    requires KindOf(r) == StatefulSetKind && k <= |Plan(w)| && Put(r) in Plan(w)[..k]
    ensures Fold(c, Plan(w)[..k], r) == Built
    ensures Fold(g, Plan(w)[..k], Governing(r)) != Absent
    ensures Fold(h, Plan(w)[..k], CmHadoop) == Built
    ensures Fold(z, Plan(w)[..k], CmZookeeper) == if w.ha then Built else Absent
  {
    PlanPuts(w, r);
    OwnCell(w, k, r, c);
    ServiceCell(w, k, r, g);
    ConfigCell(w, k, r, h);
    ZookeeperCell(w, k, r, z);
  }

  lemma OwnCell(w: Switches, k: nat, r: Role, c: Cell)
    requires KindOf(r) == StatefulSetKind && k <= |Plan(w)| && Put(r) in Plan(w)[..k] && Desired(w, r)
    ensures Fold(c, Plan(w)[..k], r) == Built
  {
    PlanDrops(w, r);
    PlanEnsures(w, r);
    FoldPuts(c, Plan(w)[..k], r);
  }

  lemma ServiceCell(w: Switches, k: nat, r: Role, g: Cell)
    requires KindOf(r) == StatefulSetKind && k <= |Plan(w)| && Put(r) in Plan(w)[..k] && Desired(w, r)
    ensures Fold(g, Plan(w)[..k], Governing(r)) != Absent
  {
    ServiceLeads(w, r);
    assert Ensure(Governing(r)) in Plan(w)[..k];
    EnsuredCell(w, k, Governing(r), g);
  }

  /** A Service the plan keeps is there once its step is made. */
  lemma EnsuredCell(w: Switches, k: nat, svc: Role, g: Cell)
    requires k <= |Plan(w)| && Ensure(svc) in Plan(w)[..k] && !Recreated(w, svc)
    ensures Fold(g, Plan(w)[..k], svc) != Absent
  {
    PlanEnsures(w, svc);
    PlanDrops(w, svc);
    PlanPuts(w, svc);
    FoldEnsures(g, Plan(w)[..k], svc);
  }

  lemma ConfigCell(w: Switches, k: nat, r: Role, h: Cell)
    requires KindOf(r) == StatefulSetKind && k <= |Plan(w)| && Put(r) in Plan(w)[..k]
    ensures Fold(h, Plan(w)[..k], CmHadoop) == Built
  {
    ConfigMembers(w, Put(CmHadoop));
    ConfigLeads(w, r, k, Put(CmHadoop));
    PlanDrops(w, CmHadoop);
    PlanEnsures(w, CmHadoop);
    FoldPuts(h, Plan(w)[..k], CmHadoop);
  }

  lemma ZookeeperCell(w: Switches, k: nat, r: Role, z: Cell)
    requires KindOf(r) == StatefulSetKind && k <= |Plan(w)| && Put(r) in Plan(w)[..k]
    ensures Fold(z, Plan(w)[..k], CmZookeeper) == if w.ha then Built else Absent
  {
    var a := if w.ha then Put(CmZookeeper) else Drop(CmZookeeper);
    ConfigMembers(w, a);
    ConfigLeads(w, r, k, a);
    PlanPuts(w, CmZookeeper);
    PlanEnsures(w, CmZookeeper);
    PlanDrops(w, CmZookeeper);
    if w.ha { FoldPuts(z, Plan(w)[..k], CmZookeeper); } else { FoldDrops(z, Plan(w)[..k], CmZookeeper); }
  }

  /** The store holds the configuration of this spec. */
  predicate ConfigStored(py: Python, cr: Cr, n: Norm, s: Store)
  {
    && At(s, RoleRef(cr, CmHadoop)) == Some(Cm(BuildConfigMap(py, cr, n)))
    && At(s, RoleRef(cr, CmZookeeper)) == if n.hdfs.ha.enabled then Some(Cm(BuildZookeeperConfigMap(cr, n))) else None
  }

  lemma StoredRevisionOf(py: Python, cr: Cr, n: Norm, s: Store)
    requires ConfigStored(py, cr, n, s)
    ensures StoredRevision(py, cr, s) == Revision(py, cr, n)
  {
    PayloadAt(s, RoleRef(cr, CmHadoop), Some(BuildConfigMap(py, cr, n)));
    PayloadAt(s, RoleRef(cr, CmZookeeper), if n.hdfs.ha.enabled then Some(BuildZookeeperConfigMap(cr, n)) else None);
  }

  /** A reconcile cut short at any call, on any store: every StatefulSet it has
      written is governed by a Service that exists and carries the revision of
      the configuration that is stored. */
  lemma InterruptedConsistent(py: Python, cr: Cr, s: Store, t: Attempt, r: Role)
    requires ValidAttempt(t) && KindOf(r) == StatefulSetKind && Put(r) in Plan(SwitchesOf(t.n))[..t.steps]
    ensures var after := RunAttempt(py, cr, s, t);
            && At(after, RoleRef(cr, r)) == Some(Sts(StatefulSetBody(py, cr, t.n, r)))
            && RoleRef(cr, Governing(r)) in after
            && ConfigStored(py, cr, t.n, after)
            && StatefulSetBody(py, cr, t.n, r).revision == StoredRevision(py, cr, after)
  {
    var w := SwitchesOf(t.n);
    var acts := Plan(w)[..t.steps];
    var after := RunAttempt(py, cr, s, t);
    InterruptedCells(w, t.steps, r, CellOf(s, RoleRef(cr, r)), CellOf(s, RoleRef(cr, Governing(r))),
                     CellOf(s, RoleRef(cr, CmHadoop)), CellOf(s, RoleRef(cr, CmZookeeper)));
    RunRole(py, cr, t.n, acts, s, r);
    ConfigThere(py, cr, s, t);
    ServiceThere(py, cr, s, t, Governing(r));
    StoredRevisionOf(py, cr, t.n, after);
    BodyRevision(cr, t.n, r, Revision(py, cr, t.n));
  }

  lemma ConfigThere(py: Python, cr: Cr, s: Store, t: Attempt)
    requires ValidAttempt(t)
    requires Fold(CellOf(s, RoleRef(cr, CmHadoop)), Plan(SwitchesOf(t.n))[..t.steps], CmHadoop) == Built
    requires Fold(CellOf(s, RoleRef(cr, CmZookeeper)), Plan(SwitchesOf(t.n))[..t.steps], CmZookeeper) ==
             if SwitchesOf(t.n).ha then Built else Absent
    ensures ConfigStored(py, cr, t.n, RunAttempt(py, cr, s, t))
  {
    hide Run, Fold, Plan;
    RunRole(py, cr, t.n, Plan(SwitchesOf(t.n))[..t.steps], s, CmHadoop);
    RunRole(py, cr, t.n, Plan(SwitchesOf(t.n))[..t.steps], s, CmZookeeper);
  }

  lemma ServiceThere(py: Python, cr: Cr, s: Store, t: Attempt, g: Role)
    requires ValidAttempt(t) && Fold(CellOf(s, RoleRef(cr, g)), Plan(SwitchesOf(t.n))[..t.steps], g) != Absent
    ensures RoleRef(cr, g) in RunAttempt(py, cr, s, t)
  {
    RunRole(py, cr, t.n, Plan(SwitchesOf(t.n))[..t.steps], s, g);
  }
}
