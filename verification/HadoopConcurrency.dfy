/** Handlers of several clusters running at once: their API steps interleave. */
module HadoopConcurrency {
  import opened HadoopSpec
  import opened Topology
  import opened HadoopNames
  import opened HadoopResources
  import opened HadoopStore

  /** One step taken on behalf of one custom resource under one of its specs. */
  datatype Event = Event(cr: Cr, n: Norm, a: Action)

  function RunEvents(py: Python, s: Store, evs: seq<Event>): Store
  {
    if evs == [] then s
    else
      var k := |evs| - 1;
      Apply(RunEvents(py, s, evs[..k]), Concrete(py, evs[k].cr, evs[k].n, evs[k].a))
  }

  predicate SameCluster(a: Cr, b: Cr)
  {
    a.namespace == b.namespace && a.name == b.name
  }

  /** The steps of one cluster, in order. */
  function Only(evs: seq<Event>, cr: Cr): seq<Event>
  {
    if evs == [] then []
    else
      var k := |evs| - 1;
      Only(evs[..k], cr) + if SameCluster(evs[k].cr, cr) then [evs[k]] else []
  }

  /** Two stores agree on everything a cluster owns. */
  ghost predicate Agree(cr: Cr, a: Store, b: Store)
  {
    forall r: Role :: At(a, RoleRef(cr, r)) == At(b, RoleRef(cr, r))
  }

  lemma StepAgrees(py: Python, cr: Cr, e: Event, a: Store, b: Store)
    requires Agree(cr, a, b) && SameCluster(e.cr, cr)
    ensures Agree(cr, Apply(a, Concrete(py, e.cr, e.n, e.a)), Apply(b, Concrete(py, e.cr, e.n, e.a)))
  {
    BodyRef(py, e.cr, e.n, e.a.role);
    var target := RoleRef(e.cr, e.a.role);
    assert At(a, RoleRef(cr, e.a.role)) == At(b, RoleRef(cr, e.a.role));
    forall r: Role
      ensures At(Apply(a, Concrete(py, e.cr, e.n, e.a)), RoleRef(cr, r)) ==
              At(Apply(b, Concrete(py, e.cr, e.n, e.a)), RoleRef(cr, r))
    {
      assert At(a, RoleRef(cr, r)) == At(b, RoleRef(cr, r));
      if RoleRef(cr, r) != target {
        ConcreteTarget(py, e.cr, e.n, e.a, a, RoleRef(cr, r));
        ConcreteTarget(py, e.cr, e.n, e.a, b, RoleRef(cr, r));
      }
    }
  }

  lemma ForeignStepAgrees(py: Python, cr: Cr, e: Event, a: Store)
    requires !SameCluster(e.cr, cr)
    ensures Agree(cr, Apply(a, Concrete(py, e.cr, e.n, e.a)), a)
  {
    forall r: Role
      ensures At(Apply(a, Concrete(py, e.cr, e.n, e.a)), RoleRef(cr, r)) == At(a, RoleRef(cr, r))
    {
      if RoleRef(cr, r) == RoleRef(e.cr, e.a.role) {
        RefInjective(cr.namespace, cr.name, r, e.cr.namespace, e.cr.name, e.a.role);
      }
      ConcreteTarget(py, e.cr, e.n, e.a, a, RoleRef(cr, r));
    }
  }

  /** Non-interference: in every interleaving of the steps of any number of
      clusters, what a cluster owns ends as if its own steps had run alone. */
  lemma {:induction false} Projection(py: Python, s: Store, evs: seq<Event>, cr: Cr)
    ensures Agree(cr, RunEvents(py, s, evs), RunEvents(py, s, Only(evs, cr)))
    decreases |evs|
  {
    if evs != [] {
      var k := |evs| - 1;
      Projection(py, s, evs[..k], cr);
      var mixed := RunEvents(py, s, evs[..k]);
      var own := RunEvents(py, s, Only(evs[..k], cr));
      if SameCluster(evs[k].cr, cr) {
        StepAgrees(py, cr, evs[k], mixed, own);
        assert Only(evs, cr)[..|Only(evs, cr)| - 1] == Only(evs[..k], cr);
      } else {
        ForeignStepAgrees(py, cr, evs[k], mixed);
        assert Only(evs, cr) == Only(evs[..k], cr);
        AgreeTransitive(cr, RunEvents(py, s, evs), mixed, own);
      }
    }
  }

  lemma AgreeTransitive(cr: Cr, a: Store, b: Store, c: Store)
    requires Agree(cr, a, b) && Agree(cr, b, c)
    ensures Agree(cr, a, c)
  {
    forall r: Role ensures At(a, RoleRef(cr, r)) == At(c, RoleRef(cr, r)) {
      assert At(a, RoleRef(cr, r)) == At(b, RoleRef(cr, r)) && At(b, RoleRef(cr, r)) == At(c, RoleRef(cr, r));
    }
  }

  function Events(cr: Cr, n: Norm, acts: seq<Action>): (evs: seq<Event>)
    ensures |evs| == |acts|
    ensures forall i :: 0 <= i < |acts| ==> evs[i] == Event(cr, n, acts[i])
  {
    seq(|acts|, i requires 0 <= i < |acts| => Event(cr, n, acts[i]))
  }

  /** The steps of one complete reconcile. */
  function PlanEvents(cr: Cr, n: Norm): seq<Event>
  {
    Events(cr, n, Plan(SwitchesOf(n)))
  }

  lemma {:induction false} EventsRun(py: Python, s: Store, evs: seq<Event>, ops: seq<Op>)
    requires |evs| == |ops|
    requires forall i :: 0 <= i < |evs| ==> ops[i] == Concrete(py, evs[i].cr, evs[i].n, evs[i].a)
    ensures RunEvents(py, s, evs) == Run(s, ops)
    decreases |evs|
  {
    if evs != [] {
      var k := |evs| - 1;
      EventsRun(py, s, evs[..k], ops[..k]);
      assert ops[k] == Concrete(py, evs[k].cr, evs[k].n, evs[k].a);
    }
  }

  lemma PlanEventsRun(py: Python, s: Store, cr: Cr, n: Norm)
    ensures RunEvents(py, s, PlanEvents(cr, n)) == Reconciled(py, cr, n, s)
  {
    EventsRun(py, s, PlanEvents(cr, n), PlanOps(py, cr, n));
  }

  lemma {:induction false} ForeignFrame(py: Python, s: Store, evs: seq<Event>, ref: Ref)
    requires forall e <- evs :: !Owned(e.cr, ref)
    ensures At(RunEvents(py, s, evs), ref) == At(s, ref)
    decreases |evs|
  {
    if evs != [] {
      var k := |evs| - 1;
      ForeignFrame(py, s, evs[..k], ref);
      assert !Owned(evs[k].cr, ref);
      ConcreteTarget(py, evs[k].cr, evs[k].n, evs[k].a, RunEvents(py, s, evs[..k]), ref);
    }
  }

  /** An interleaving of one complete reconcile of `a` with one of `b`. */
  ghost predicate Interleaves(evs: seq<Event>, a: Cr, n: Norm, b: Cr, m: Norm)
  {
    && Only(evs, a) == PlanEvents(a, n)
    && Only(evs, b) == PlanEvents(b, m)
    && forall e <- evs :: SameCluster(e.cr, a) || SameCluster(e.cr, b)
  }

  /** Reconciles of two clusters commute, and every interleaving of their API
      calls ends in the same store as running one after the other. */
  lemma ClustersCommute(py: Python, s: Store, evs: seq<Event>, a: Cr, n: Norm, b: Cr, m: Norm)
    requires !SameCluster(a, b) && Interleaves(evs, a, n, b, m)
    ensures RunEvents(py, s, evs) == Reconciled(py, b, m, Reconciled(py, a, n, s))
    ensures RunEvents(py, s, evs) == Reconciled(py, a, n, Reconciled(py, b, m, s))
  {
    InterleavingSequential(py, s, evs, a, n, b, m);
    InterleavingSequential(py, s, evs, b, m, a, n);
  }

  lemma InterleavingSequential(py: Python, s: Store, evs: seq<Event>, a: Cr, n: Norm, b: Cr, m: Norm)
    requires !SameCluster(a, b) && Interleaves(evs, a, n, b, m)
    ensures RunEvents(py, s, evs) == Reconciled(py, b, m, Reconciled(py, a, n, s))
  {
    var mixed := RunEvents(py, s, evs);
    var first := Reconciled(py, a, n, s);
    var both := Reconciled(py, b, m, first);
    Projection(py, s, evs, a);
    Projection(py, s, evs, b);
    PlanEventsRun(py, s, a, n);
    PlanEventsRun(py, s, b, m);
    forall ref: Ref ensures At(mixed, ref) == At(both, ref) {
      if Owned(a, ref) {
        var r: Role :| ref == RoleRef(a, r);
        assert At(mixed, RoleRef(a, r)) == At(first, RoleRef(a, r));
        NotShared(a, r, b);
        RunFrame(py, b, m, Plan(SwitchesOf(m)), first, ref);
      } else if Owned(b, ref) {
        var r: Role :| ref == RoleRef(b, r);
        assert At(mixed, RoleRef(b, r)) == At(Reconciled(py, b, m, s), RoleRef(b, r));
        NotShared(b, r, a);
        RunFrame(py, a, n, Plan(SwitchesOf(n)), s, ref);
        ReconcileEffect(py, b, m, s, r);
        ReconcileEffect(py, b, m, first, r);
        assert At(first, ref) == At(s, ref);
      } else {
        SameOwned(a, b, evs, ref);
        ForeignFrame(py, s, evs, ref);
        RunFrame(py, a, n, Plan(SwitchesOf(n)), s, ref);
        RunFrame(py, b, m, Plan(SwitchesOf(m)), first, ref);
      }
    }
    StoreExtensional(mixed, both);
  }

  lemma NotShared(a: Cr, r: Role, b: Cr)
    requires !SameCluster(a, b)
    ensures !Owned(b, RoleRef(a, r))
  {
    if Owned(b, RoleRef(a, r)) {
      var q: Role :| RoleRef(a, r) == RoleRef(b, q);
      RefInjective(a.namespace, a.name, r, b.namespace, b.name, q);
    }
  }

  lemma OwnedSame(x: Cr, a: Cr, ref: Ref)
    requires SameCluster(x, a) && Owned(x, ref)
    ensures Owned(a, ref)
  {
    var r: Role :| ref == RoleRef(x, r);
    assert ref == RoleRef(a, r);
  }

  lemma SameOwned(a: Cr, b: Cr, evs: seq<Event>, ref: Ref)
    requires forall e <- evs :: SameCluster(e.cr, a) || SameCluster(e.cr, b)
    requires !Owned(a, ref) && !Owned(b, ref)
    ensures forall e <- evs :: !Owned(e.cr, ref)
  {
    forall e | e in evs ensures !Owned(e.cr, ref) {
      if Owned(e.cr, ref) {
        OwnedSame(e.cr, if SameCluster(e.cr, a) then a else b, ref);
      }
    }
  }
}
