/** The API server's objects as a value, the effect of the operator's steps on
    it, and what whole histories of reconciles leave behind. */
module HadoopStore {
  import opened Wrappers
  import opened HadoopSpec
  import opened Topology
  import opened HadoopNames
  import opened HadoopResources

  type Store = map<Ref, Object>

  /** A step of the operator on concrete objects. */
  datatype Op = PutOp(obj: Object) | EnsureOp(obj: Object) | DropOp(ref: Ref)

  function At(s: Store, ref: Ref): Option<Object>
  {
    if ref in s then Some(s[ref]) else None
  }

  function Apply(s: Store, op: Op): Store
  {
    match op
    case PutOp(o) => s[ObjectRef(o) := o]
    case EnsureOp(o) => if ObjectRef(o) in s then s else s[ObjectRef(o) := o]
    case DropOp(ref) => s - {ref}
  }

  function Run(s: Store, ops: seq<Op>): Store
  {
    if ops == [] then s else Apply(Run(s, ops[..|ops| - 1]), ops[|ops| - 1])
  }

  lemma {:induction false} RunConcat(s: Store, a: seq<Op>, b: seq<Op>)
    ensures Run(s, a + b) == Run(Run(s, a), b)
  {
    if b == [] {
      assert a + b == a;
    } else {
      assert (a + b)[..|a + b| - 1] == a + b[..|b| - 1];
      RunConcat(s, a, b[..|b| - 1]);
    }
  }

  /** The concrete step behind an action of the plan. */
  function Concrete(py: Python, cr: Cr, n: Norm, a: Action): Op
  {
    match a
    case Put(r) => PutOp(Body(py, cr, n, r))
    case Ensure(r) => EnsureOp(Body(py, cr, n, r))
    case Drop(r) => DropOp(RefOf(cr.namespace, cr.name, r))
  }

  function ConcreteAll(py: Python, cr: Cr, n: Norm, acts: seq<Action>): (ops: seq<Op>)
    ensures |ops| == |acts|
    ensures forall i :: 0 <= i < |acts| ==> ops[i] == Concrete(py, cr, n, acts[i])
  {
    seq(|acts|, i requires 0 <= i < |acts| => Concrete(py, cr, n, acts[i]))
  }

  lemma ConcreteConcat(py: Python, cr: Cr, n: Norm, a: seq<Action>, b: seq<Action>)
    ensures ConcreteAll(py, cr, n, a + b) == ConcreteAll(py, cr, n, a) + ConcreteAll(py, cr, n, b)
  {
    var x, y := ConcreteAll(py, cr, n, a + b), ConcreteAll(py, cr, n, a) + ConcreteAll(py, cr, n, b);
    forall i | 0 <= i < |x| ensures x[i] == y[i] {
      assert (a + b)[i] == if i < |a| then a[i] else b[i - |a|];
    }
  }

  /** One more step of a plan. */
  lemma ConcreteNext(py: Python, cr: Cr, n: Norm, plan: seq<Action>, pos: nat)
    requires pos < |plan|
    ensures ConcreteAll(py, cr, n, plan[..pos + 1]) == ConcreteAll(py, cr, n, plan[..pos]) + [Concrete(py, cr, n, plan[pos])]
  {
    assert plan[..pos + 1] == plan[..pos] + [plan[pos]];
    ConcreteConcat(py, cr, n, plan[..pos], [plan[pos]]);
  }

  /** The steps of one uninterrupted reconcile. */
  function PlanOps(py: Python, cr: Cr, n: Norm): seq<Op>
  {
    ConcreteAll(py, cr, n, Plan(SwitchesOf(n)))
  }

  // ----------------------------------------------------- one object at a time

  function RoleRef(cr: Cr, r: Role): Ref
  {
    RefOf(cr.namespace, cr.name, r)
  }

  ghost predicate Owned(cr: Cr, ref: Ref)
  {
    exists r: Role :: ref == RoleRef(cr, r)
  }

  /** What a cell of the role-level account denotes. */
  function Meaning(c: Cell, before: Option<Object>, body: Object): Option<Object>
  {
    match c
    case Absent => None
    case Old => before
    case Built => Some(body)
  }

  function CellOf(s: Store, ref: Ref): Cell
  {
    if ref in s then Old else Absent
  }

  lemma ConcreteTarget(py: Python, cr: Cr, n: Norm, a: Action, s: Store, ref: Ref)
    requires ref != RoleRef(cr, a.role)
    ensures At(Apply(s, Concrete(py, cr, n, a)), ref) == At(s, ref)
  {
    BodyRef(py, cr, n, a.role);
  }

  lemma ConcreteStep(py: Python, cr: Cr, n: Norm, a: Action, s: Store, r: Role, c: Cell, before: Option<Object>)
    requires At(s, RoleRef(cr, r)) == Meaning(c, before, Body(py, cr, n, r))
    requires before == None ==> c != Old
    ensures At(Apply(s, Concrete(py, cr, n, a)), RoleRef(cr, r)) == Meaning(Step(c, a, r), before, Body(py, cr, n, r))
  {
    BodyRef(py, cr, n, r);
    if a.role != r {
      if RoleRef(cr, a.role) == RoleRef(cr, r) {
        RefInjective(cr.namespace, cr.name, a.role, cr.namespace, cr.name, r);
      }
      ConcreteTarget(py, cr, n, a, s, RoleRef(cr, r));
    }
  }

  /** The store after a sequence of steps agrees, at every role, with the
      role-level account of the sequence. */
  lemma {:induction false} RunRole(py: Python, cr: Cr, n: Norm, acts: seq<Action>, s: Store, r: Role)
    ensures At(Run(s, ConcreteAll(py, cr, n, acts)), RoleRef(cr, r)) ==
            Meaning(Fold(CellOf(s, RoleRef(cr, r)), acts, r), At(s, RoleRef(cr, r)), Body(py, cr, n, r))
    ensures RoleRef(cr, r) !in s ==> Fold(CellOf(s, RoleRef(cr, r)), acts, r) != Old
    decreases |acts|
  {
    if acts != [] {
      var k := |acts| - 1;
      RunRole(py, cr, n, acts[..k], s, r);
      RunRoleStep(py, cr, n, acts, s, r, Run(s, ConcreteAll(py, cr, n, acts[..k])), Fold(CellOf(s, RoleRef(cr, r)), acts[..k], r));
    }
  }

  lemma RunRoleStep(py: Python, cr: Cr, n: Norm, acts: seq<Action>, s: Store, r: Role, mid: Store, c: Cell)
    requires acts != [] && mid == Run(s, ConcreteAll(py, cr, n, acts[..|acts| - 1]))
    requires c == Fold(CellOf(s, RoleRef(cr, r)), acts[..|acts| - 1], r)
    requires At(mid, RoleRef(cr, r)) == Meaning(c, At(s, RoleRef(cr, r)), Body(py, cr, n, r))
    requires RoleRef(cr, r) !in s ==> c != Old
    ensures At(Run(s, ConcreteAll(py, cr, n, acts)), RoleRef(cr, r)) ==
            Meaning(Fold(CellOf(s, RoleRef(cr, r)), acts, r), At(s, RoleRef(cr, r)), Body(py, cr, n, r))
    ensures RoleRef(cr, r) !in s ==> Fold(CellOf(s, RoleRef(cr, r)), acts, r) != Old
  {
    hide Body;
    var k := |acts| - 1;
    var ops := ConcreteAll(py, cr, n, acts);
    assert ops[..k] == ConcreteAll(py, cr, n, acts[..k]);
    ConcreteStep(py, cr, n, acts[k], mid, r, c, At(s, RoleRef(cr, r)));
    FoldLast(CellOf(s, RoleRef(cr, r)), acts, r);
  }

  /** Steps of a cluster touch nothing but that cluster's objects. */
  lemma {:induction false} RunFrame(py: Python, cr: Cr, n: Norm, acts: seq<Action>, s: Store, ref: Ref)
    requires !Owned(cr, ref)
    ensures At(Run(s, ConcreteAll(py, cr, n, acts)), ref) == At(s, ref)
    decreases |acts|
  {
    if acts != [] {
      var k := |acts| - 1;
      var ops := ConcreteAll(py, cr, n, acts);
      RunFrame(py, cr, n, acts[..k], s, ref);
      assert ops[..k] == ConcreteAll(py, cr, n, acts[..k]);
      ConcreteTarget(py, cr, n, acts[k], Run(s, ops[..k]), ref);
    }
  }

  // ------------------------------------------------------- one whole reconcile

  /** `_reconcile` run to completion on a store. */
  function Reconciled(py: Python, cr: Cr, n: Norm, s: Store): Store
  {
    Run(s, PlanOps(py, cr, n))
  }

  /** A complete reconcile, from any store whatsoever: exactly the desired roles
      exist; each holds the object built now, except a Service that was there
      before and that the run does not recreate. */
  lemma ReconcileEffect(py: Python, cr: Cr, n: Norm, s: Store, r: Role)
    ensures At(Reconciled(py, cr, n, s), RoleRef(cr, r)) ==
      if !Desired(SwitchesOf(n), r) then None
      else if RoleRef(cr, r) in s && Kept(SwitchesOf(n), r) then At(s, RoleRef(cr, r))
      else Some(Body(py, cr, n, r))
  {
    var w := SwitchesOf(n);
    RunRole(py, cr, n, Plan(w), s, r);
    PlanEffect(w, r, CellOf(s, RoleRef(cr, r)));
  }

  /** The store that holds exactly the desired objects for `cr`, freshly built,
      and everything of others as before. */
  ghost predicate Matches(py: Python, cr: Cr, n: Norm, before: Store, after: Store)
  {
    && (forall r: Role :: At(after, RoleRef(cr, r)) == DesiredAt(py, cr, n, r))
    && (forall ref: Ref :: !Owned(cr, ref) ==> At(after, ref) == At(before, ref))
  }

  function DesiredAt(py: Python, cr: Cr, n: Norm, r: Role): Option<Object>
  {
    if Desired(SwitchesOf(n), r) then Some(Body(py, cr, n, r)) else None
  }

  lemma StoreExtensional(a: Store, b: Store)
    requires forall ref: Ref :: At(a, ref) == At(b, ref)
    ensures a == b
  {
    forall ref: Ref
      ensures ref in a <==> ref in b
      ensures ref in a ==> a[ref] == b[ref]
    {
      assert At(a, ref) == At(b, ref);
    }
  }

  /** The desired store is a function of the custom resource and of what others own. */
  lemma MatchesUnique(py: Python, cr: Cr, n: Norm, before1: Store, after1: Store, before2: Store, after2: Store)
    requires Matches(py, cr, n, before1, after1) && Matches(py, cr, n, before2, after2)
    requires forall ref: Ref :: !Owned(cr, ref) ==> At(before1, ref) == At(before2, ref)
    ensures after1 == after2
  {
    forall ref: Ref ensures At(after1, ref) == At(after2, ref) {
      if Owned(cr, ref) {
        var r: Role :| ref == RoleRef(cr, r);
        assert At(after1, RoleRef(cr, r)) == At(after2, RoleRef(cr, r));
      }
    }
    StoreExtensional(after1, after2);
  }

  /** Every stored Service of the cluster is the one the operator would build. */
  ghost predicate ServicesCurrent(cr: Cr, s: Store)
  {
    forall r: Role :: IsService(r) && RoleRef(cr, r) in s ==> s[RoleRef(cr, r)] == Svc(ServiceBody(cr, r))
  }

  /** Creating only when missing leaves stale Services exactly when one of the
      Services the run keeps was not current before. */
  lemma ReconcileMatchesExactly(py: Python, cr: Cr, n: Norm, s: Store)
    ensures Matches(py, cr, n, s, Reconciled(py, cr, n, s)) <==>
      forall r: Role :: Desired(SwitchesOf(n), r) && Kept(SwitchesOf(n), r) && RoleRef(cr, r) in s
                        ==> s[RoleRef(cr, r)] == Svc(ServiceBody(cr, r))
  {
    var after := Reconciled(py, cr, n, s);
    forall r: Role
      ensures At(after, RoleRef(cr, r)) == DesiredAt(py, cr, n, r) <==>
        (Desired(SwitchesOf(n), r) && Kept(SwitchesOf(n), r) && RoleRef(cr, r) in s
         ==> s[RoleRef(cr, r)] == Svc(ServiceBody(cr, r)))
    {
      ReconcileEffect(py, cr, n, s, r);
    }
    forall ref: Ref | !Owned(cr, ref) ensures At(after, ref) == At(s, ref) {
      RunFrame(py, cr, n, Plan(SwitchesOf(n)), s, ref);
    }
    if Matches(py, cr, n, s, after) {
      forall r: Role | Desired(SwitchesOf(n), r) && Kept(SwitchesOf(n), r) && RoleRef(cr, r) in s
        ensures s[RoleRef(cr, r)] == Svc(ServiceBody(cr, r))
      {
        assert At(after, RoleRef(cr, r)) == DesiredAt(py, cr, n, r);
      }
    }
  }

  /** On a store of current Services, create-if-missing and replace-or-create
      are the same operation. */
  lemma EnsureRefinesPut(py: Python, cr: Cr, n: Norm, s: Store, r: Role)
    requires ServicesCurrent(cr, s) && IsService(r)
    ensures Apply(s, Concrete(py, cr, n, Ensure(r))) == Apply(s, Concrete(py, cr, n, Put(r)))
  {
    BodyRef(py, cr, n, r);
  }

  // ---------------------------------------------------- histories of reconciles

  /** One invocation of the handler: the spec it saw and how many of its steps
      took effect before an API error ended it. */
  datatype Attempt = Attempt(n: Norm, steps: nat)

  predicate ValidAttempt(t: Attempt)
  {
    t.steps <= |Plan(SwitchesOf(t.n))|
  }

  function RunAttempt(py: Python, cr: Cr, s: Store, t: Attempt): Store
    requires ValidAttempt(t)
  {
    Run(s, ConcreteAll(py, cr, t.n, Plan(SwitchesOf(t.n))[..t.steps]))
  }

  function RunHistory(py: Python, cr: Cr, s: Store, h: seq<Attempt>): Store
    requires forall t <- h :: ValidAttempt(t)
  {
    if h == [] then s
    else RunAttempt(py, cr, RunHistory(py, cr, s, h[..|h| - 1]), h[|h| - 1])
  }

  /** No step ever makes a Service stale. */
  lemma RunKeepsServices(py: Python, cr: Cr, n: Norm, acts: seq<Action>, s: Store)
    requires ServicesCurrent(cr, s)
    ensures ServicesCurrent(cr, Run(s, ConcreteAll(py, cr, n, acts)))
  {
    var after := Run(s, ConcreteAll(py, cr, n, acts));
    forall r: Role | IsService(r) && RoleRef(cr, r) in after
      ensures after[RoleRef(cr, r)] == Svc(ServiceBody(cr, r))
    {
      RunRole(py, cr, n, acts, s, r);
      assert At(after, RoleRef(cr, r)) == Some(after[RoleRef(cr, r)]);
    }
  }

  /** Over every history of specs, failures and retries of one custom resource,
      stored Services stay current and other objects stay untouched. */
  lemma {:induction false} HistoryInvariant(py: Python, cr: Cr, s: Store, h: seq<Attempt>)
    requires forall t <- h :: ValidAttempt(t)
    requires ServicesCurrent(cr, s)
    ensures ServicesCurrent(cr, RunHistory(py, cr, s, h))
    ensures forall ref: Ref :: !Owned(cr, ref) ==> At(RunHistory(py, cr, s, h), ref) == At(s, ref)
  {
    if h != [] {
      var k := |h| - 1;
      HistoryInvariant(py, cr, s, h[..k]);
      var mid := RunHistory(py, cr, s, h[..k]);
      assert h[k] in h;
      var acts := Plan(SwitchesOf(h[k].n))[..h[k].steps];
      RunKeepsServices(py, cr, h[k].n, acts, mid);
      forall ref: Ref | !Owned(cr, ref) ensures At(RunHistory(py, cr, s, h), ref) == At(s, ref) {
        RunFrame(py, cr, h[k].n, acts, mid, ref);
      }
    }
  }

  /** History independence: whatever specs were tried before, and wherever those
      attempts failed, a completed reconcile leaves exactly the desired store. */
  lemma HistoryIndependence(py: Python, cr: Cr, s: Store, h: seq<Attempt>, n: Norm)
    requires forall t <- h :: ValidAttempt(t)
    requires ServicesCurrent(cr, s)
    ensures Matches(py, cr, n, s, Reconciled(py, cr, n, RunHistory(py, cr, s, h)))
    ensures Reconciled(py, cr, n, RunHistory(py, cr, s, h)) == Reconciled(py, cr, n, s)
  {
    var mid := RunHistory(py, cr, s, h);
    HistoryInvariant(py, cr, s, h);
    ReconcileMatchesExactly(py, cr, n, mid);
    ReconcileMatchesExactly(py, cr, n, s);
    MatchesUnique(py, cr, n, s, Reconciled(py, cr, n, mid), s, Reconciled(py, cr, n, s));
  }

  /** Without the assumption on Services the set of objects is still a function
      of the last spec alone. */
  lemma HistoryIndependentNames(py: Python, cr: Cr, s: Store, n: Norm, r: Role)
    ensures RoleRef(cr, r) in Reconciled(py, cr, n, s) <==> Desired(SwitchesOf(n), r)
  {
    ReconcileEffect(py, cr, n, s, r);
    assert At(Reconciled(py, cr, n, s), RoleRef(cr, r)).Some? <==> RoleRef(cr, r) in Reconciled(py, cr, n, s);
  }

  /** A custom resource deleted and created again under the same name, before its
      old objects are gone, keeps Services owned by the old identity: the
      create-only update does go stale across identities. */
  lemma RecreatedClusterStale(py: Python, gone: Cr, cr: Cr, n: Norm, m: Norm)
    requires gone.namespace == cr.namespace && gone.name == cr.name && gone != cr
    ensures At(Reconciled(py, cr, m, Reconciled(py, gone, n, map[])), RoleRef(cr, SvcNameNode))
            == Some(Svc(ServiceBody(gone, SvcNameNode)))
    ensures !Matches(py, cr, m, Reconciled(py, gone, n, map[]), Reconciled(py, cr, m, Reconciled(py, gone, n, map[])))
  {
    var s := Reconciled(py, gone, n, map[]);
    ReconcileEffect(py, gone, n, map[], SvcNameNode);
    ReconcileEffect(py, cr, m, s, SvcNameNode);
    assert At(s, RoleRef(cr, SvcNameNode)) == Some(Svc(ServiceBody(gone, SvcNameNode)));
    assert RoleRef(cr, SvcNameNode) in s;
    assert ServiceBody(gone, SvcNameNode).meta.owner != ServiceBody(cr, SvcNameNode).meta.owner;
    assert DesiredAt(py, cr, m, SvcNameNode) == Some(Svc(ServiceBody(cr, SvcNameNode)));
  }
}
