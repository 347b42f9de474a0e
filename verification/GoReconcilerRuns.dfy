/** What every run of the Go operator's reconcile loop keeps (controller.go). */
module GoReconcilerRuns {
  import opened Wrappers
  import opened GoReconciler

  // ------------------------------------------------------------ the invariant

  /** What holds of every stored object. */
  predicate ObjectOk(o: Object, carried: bool)
  {
    && (FINALIZER in o.finalizers ==> carried)
    && (carried && FINALIZER !in o.finalizers ==> o.status.phase == Deleting)
    && (o.status.phase == Deleting ==> o.deleting)
    && |o.status.counts| == 4 && ReadyTold(o.status)
  }

  /** What an object looks like to a worker about to make a certain call. */
  predicate Facts(pc: Pc, o: Object)
  {
    match pc
    case Fetch => true
    case SetPending => o.status.phase == Unset
    case AddFinalizer => o.status.phase != Unset && FINALIZER !in o.finalizers
    case MarkDeleting => o.deleting && FINALIZER in o.finalizers && o.status.phase != Unset
    case DropFinalizer => o.deleting && o.status.phase == Deleting
    case SetCreating => !o.deleting && o.status.phase == Pending && FINALIZER in o.finalizers
    case Reconciling(_) => Steady(o)
    case Reading(_) => Steady(o)
    case WriteStatus => Steady(o)
    case SetRunning => Steady(o) && o.status.phase == Creating && AllReady(o.status)
    case Done(_) => true
  }

  predicate Steady(o: Object)
  {
    !o.deleting && (o.status.phase == Creating || o.status.phase == Running) && FINALIZER in o.finalizers
  }

  /** The draft differs from the copy only in counts, and only while they are read. */
  predicate Drafted(w: Worker)
  {
    && w.draft.phase == w.copy.status.phase && w.draft.conditions == w.copy.status.conditions
    && |w.draft.counts| == 4
    && (w.pc.Reading? || w.pc.WriteStatus? || w.draft == w.copy.status)
  }

  /** Every earlier component step of the call has succeeded. */
  predicate Ordered(w: Worker)
  {
    match w.pc
    case Reconciling(k) => k <= |Plan(w.copy.spec)| && w.log == Plan(w.copy.spec)[..k]
    case Reading(_) => w.log == Plan(w.copy.spec)
    case WriteStatus => w.log == Plan(w.copy.spec)
    case SetRunning => w.log == Plan(w.copy.spec)
    case Done(_) => true
    case Fetch => true
    case _ => w.log == []
  }

  /** What holds of a worker in the middle of a call. */
  predicate Engaged(s: State, w: Worker)
  {
    && w.copy.version < s.next && Facts(w.pc, w.copy) && Drafted(w) && Ordered(w) && ReadyTold(w.copy.status)
    && (w.copy.status.phase == Deleting ==> w.copy.deleting)
    && (s.cluster.Some? && s.cluster.value.version == w.copy.version ==> s.cluster.value == w.copy)
  }

  predicate WorkerOk(s: State, w: Worker)
  {
    w.pc.Fetch? || w.pc.Done? || Engaged(s, w)
  }

  predicate Invariant(s: State)
  {
    && (s.cluster.None? ==> !s.carried)
    && (s.cluster.Some? ==> ObjectOk(s.cluster.value, s.carried) && s.cluster.value.version < s.next && s.cluster.value.uid < s.next)
    && (forall d <- s.gone :: ObjectOk(d.cluster, d.carried) && d.cluster.finalizers == {})
    && (forall i :: 0 <= i < |s.workers| ==> WorkerOk(s, s.workers[i]))
  }

  lemma InvariantInitial(s: State)
    requires Initial(s)
    ensures Invariant(s)
  {
  }

  // -------------------------------------------------------- one step of a worker

  lemma FactsEnter(o: Object)
    requires o.status.phase == Deleting ==> o.deleting
    ensures Facts(Enter(o), o) && !Enter(o).Fetch? && !Enter(o).Done?
  {
  }

  lemma FetchOk(s: State, i: nat, a: Answer)
    requires Invariant(s) && i < |s.workers| && s.workers[i].pc.Fetch?
    ensures WorkerOk(s, ReadStep(s, s.workers[i], a))
  {
    if s.cluster.Some? {
      FactsEnter(s.cluster.value);
    }
  }

  lemma ReconcilingOk(s: State, w: Worker, k: nat, a: Answer)
    requires Engaged(s, w) && w.pc == Reconciling(k)
    ensures WorkerOk(s, ReadStep(s, w, a))
  {
    var p := Plan(w.copy.spec);
    if k < |p| { assert p[..k] + [p[k]] == p[..k + 1]; } else { assert p[..k] == p; }
  }

  lemma ReadingOk(s: State, w: Worker, i: nat, a: Answer)
    requires Engaged(s, w) && w.pc == Reading(i)
    ensures WorkerOk(s, ReadStep(s, w, a))
  {
  }

  lemma ReadStepOk(s: State, i: nat, a: Answer)
    requires Invariant(s) && i < |s.workers| && !Writes(s.workers[i].pc)
    ensures WorkerOk(s, ReadStep(s, s.workers[i], a))
  {
    var w := s.workers[i];
    if w.pc.Fetch? {
      FetchOk(s, i, a);
    } else {
      assert WorkerOk(s, w);
      if w.pc.Reconciling? { ReconcilingOk(s, w, w.pc.k, a); }
      if w.pc.Reading? { ReadingOk(s, w, w.pc.i, a); }
    }
  }

  /** The object a write stores is sound. */
  lemma WrittenOk(o: Object, carried: bool, w: Worker)
    requires ObjectOk(o, carried) && o == w.copy && Writes(w.pc) && Facts(w.pc, o) && Drafted(w)
    ensures ObjectOk(Written(o, w), carried || FINALIZER in Written(o, w).finalizers)
    ensures Written(o, w).uid == o.uid && Written(o, w).spec == o.spec && Written(o, w).deleting == o.deleting
  {
    if w.pc.WriteStatus? { WithReadySingle(w.draft.conditions, AllReady(w.draft)); }
  }

  /** Where a write leads, its worker knows what it needs. */
  lemma WrittenFacts(w: Worker, stored: Object, version: nat)
    requires Writes(w.pc) && Facts(w.pc, w.copy) && Drafted(w) && stored == Written(w.copy, w).(version := version)
    requires w.copy.status.phase == Deleting ==> w.copy.deleting
    ensures AfterWrite(w, stored).Done? || Facts(AfterWrite(w, stored), stored)
  {
  }

  lemma WrittenOrdered(w: Worker, stored: Object, version: nat)
    requires Writes(w.pc) && Ordered(w) && stored == Written(w.copy, w).(version := version)
    ensures Ordered(Refreshed(w, stored, AfterWrite(w, stored)))
  {
  }

  /** The other workers' copies are outdated by a write. */
  lemma StoreKeepsWorker(s: State, o: Object, w: Worker)
    requires WorkerOk(s, w)
    ensures WorkerOk(Store(s, o), w)
  {
  }

  lemma StoreKeepsCluster(s: State, o: Object)
    requires Invariant(s) && ObjectOk(o, s.carried || FINALIZER in o.finalizers) && o.uid <= s.next
    ensures var r := Store(s, o);
            && (r.cluster.None? ==> !r.carried)
            && (r.cluster.Some? ==> ObjectOk(r.cluster.value, r.carried) && r.cluster.value.version < r.next && r.cluster.value.uid < r.next)
            && (forall d <- r.gone :: ObjectOk(d.cluster, d.carried) && d.cluster.finalizers == {})
  {
  }

  lemma StoreKeeps(s: State, o: Object)
    requires Invariant(s) && ObjectOk(o, s.carried || FINALIZER in o.finalizers) && o.uid <= s.next
    ensures Invariant(Store(s, o))
  {
    StoreKeepsCluster(s, o);
    forall i | 0 <= i < |s.workers| ensures WorkerOk(Store(s, o), s.workers[i]) {
      StoreKeepsWorker(s, o, s.workers[i]);
    }
  }

  /** Only the acting worker changes. */
  lemma OneWorkerChanged(s: State, i: nat, w: Worker)
    requires Invariant(s) && i < |s.workers| && WorkerOk(s, w)
    ensures Invariant(s.(workers := s.workers[i := w]))
  {
    var r := s.(workers := s.workers[i := w]);
    forall k | 0 <= k < |r.workers| ensures WorkerOk(r, r.workers[k]) {
      assert WorkerOk(s, s.workers[k]);
    }
  }

  lemma WriteStepOk(s: State, i: nat)
    requires Invariant(s) && i < |s.workers| && Writes(s.workers[i].pc) && Accepted(s, s.workers[i], Okay)
    ensures Invariant(WorkerStep(s, i, Okay))
  {
    var w := s.workers[i];
    assert WorkerOk(s, w);
    var o := Written(s.cluster.value, w);
    var stored := o.(version := s.next);
    WrittenOk(s.cluster.value, s.carried, w);
    StoreKeeps(s, o);
    WrittenFacts(w, stored, s.next);
    WrittenOrdered(w, stored, s.next);
    OneWorkerChanged(Store(s, o), i, Refreshed(w, stored, AfterWrite(w, stored)));
  }

  lemma WorkerStepOk(s: State, i: nat, a: Answer)
    requires Invariant(s) && i < |s.workers|
    ensures Invariant(WorkerStep(s, i, a))
  {
    var w := s.workers[i];
    if !Writes(w.pc) {
      ReadStepOk(s, i, a);
      OneWorkerChanged(s, i, ReadStep(s, w, a));
    } else if !Accepted(s, w, a) {
      OneWorkerChanged(s, i, w.(pc := Done(WithBackoff)));
    } else {
      WriteStepOk(s, i);
    }
  }

  // ----------------------------------------------------------- the other actors

  lemma ReportOk(s: State, i: nat, counts: Option<Counts>)
    requires Invariant(s) && i < |s.workloads|
    ensures Invariant(s.(workloads := s.workloads[i := counts]))
  {
    var r := s.(workloads := s.workloads[i := counts]);
    forall k | 0 <= k < |r.workers| ensures WorkerOk(r, r.workers[k]) {
      assert WorkerOk(s, s.workers[k]);
    }
  }

  lemma InvariantStep(s: State, e: Event)
    requires Invariant(s)
    ensures Invariant(Step(s, e))
  {
    match e
    case Act(i, a) => if i < |s.workers| { WorkerStepOk(s, i, a); }
    case Create(spec) => if s.cluster.None? { StoreKeeps(s, Object(s.next, 0, 1, spec, false, {}, BlankStatus())); }
    case EditSpec(spec) =>
      if s.cluster.Some? { StoreKeeps(s, s.cluster.value.(spec := spec, generation := s.cluster.value.generation + 1)); }
    case RequestDeletion => if s.cluster.Some? { StoreKeeps(s, s.cluster.value.(deleting := true)); }
    case OtherFinalizers(names) =>
      if s.cluster.Some? {
        StoreKeeps(s, s.cluster.value.(finalizers := (names - {FINALIZER}) + (s.cluster.value.finalizers * {FINALIZER})));
      }
    case Report(i, counts) => if i < |s.workloads| { ReportOk(s, i, counts); }
  }

  lemma {:induction false} InvariantRun(s: State, es: seq<Event>, n: nat)
    requires Initial(s) && n <= |es|
    ensures Invariant(Run(s, es, n))
  {
    if n == 0 {
      InvariantInitial(s);
    } else {
      InvariantRun(s, es, n - 1);
      InvariantStep(Run(s, es, n - 1), es[n - 1]);
    }
  }

  // ------------------------------------------------------------- the theorems

  /** An object that ever carried the finalizer leaves the store only after the
      phase Deleting has been written to it. */
  lemma DeparturesMarked(s: State, es: seq<Event>, n: nat, i: nat)
    requires Initial(s) && n <= |es|
    ensures var r := Run(s, es, n);
            i < |r.gone| && r.gone[i].carried ==> r.gone[i].cluster.status.phase == Deleting && r.gone[i].cluster.deleting
  {
    InvariantRun(s, es, n);
    var r := Run(s, es, n);
    if i < |r.gone| { assert r.gone[i] in r.gone; }
  }

  /** At every moment the status holds at most one Ready condition, and it tells
      whether all four recorded counts are positive. */
  lemma ConditionsTold(s: State, es: seq<Event>, n: nat)
    requires Initial(s) && n <= |es|
    ensures var r := Run(s, es, n); r.cluster.Some? ==> ReadyTold(r.cluster.value.status)
  {
    InvariantRun(s, es, n);
  }

  /** The stored object before and after one step, if it is the same object. */
  predicate Advances(a: Object, b: Object)
  {
    a.uid == b.uid ==> Order(a.status.phase) <= Order(b.status.phase)
  }

  lemma WriteAdvances(o: Object, w: Worker)
    requires o == w.copy && Writes(w.pc) && Facts(w.pc, o) && Drafted(w)
    ensures Order(o.status.phase) <= Order(Written(o, w).status.phase)
    ensures Written(o, w).status.phase == Running && o.status.phase != Running ==>
            w.pc.SetRunning? && o.status.phase == Creating && AllReady(Written(o, w).status)
  {
  }

  lemma StepAdvances(s: State, e: Event)
    requires Invariant(s)
    ensures var r := Step(s, e);
            && s.next <= r.next
            && (s.cluster.Some? && r.cluster.Some? ==> Advances(s.cluster.value, r.cluster.value))
            && (r.cluster.Some? && (s.cluster.None? || r.cluster.value.uid != s.cluster.value.uid) ==> r.cluster.value.uid >= s.next)
  {
    if e.Act? && e.i < |s.workers| {
      var w := s.workers[e.i];
      assert WorkerOk(s, w);
      if Writes(w.pc) && Accepted(s, w, e.a) { WriteAdvances(s.cluster.value, w); }
    }
  }

  lemma {:induction false} NextGrows(s: State, es: seq<Event>, n: nat, m: nat)
    requires Initial(s) && n <= m <= |es|
    ensures Run(s, es, n).next <= Run(s, es, m).next
    decreases m
  {
    if n < m {
      NextGrows(s, es, n, m - 1);
      InvariantRun(s, es, m - 1);
      StepAdvances(Run(s, es, m - 1), es[m - 1]);
    }
  }

  ghost predicate SameObject(s: State, es: seq<Event>, n: nat, m: nat)
    requires n <= |es| && m <= |es|
  {
    Run(s, es, n).cluster.Some? && Run(s, es, m).cluster.Some? &&
    Run(s, es, n).cluster.value.uid == Run(s, es, m).cluster.value.uid
  }

  /** An object seen at two moments was there in between. */
  lemma StillThere(s: State, es: seq<Event>, n: nat, m: nat)
    requires Initial(s) && n < m <= |es| && SameObject(s, es, n, m)
    ensures SameObject(s, es, n, m - 1)
    ensures Order(Run(s, es, m - 1).cluster.value.status.phase) <= Order(Run(s, es, m).cluster.value.status.phase)
  {
    InvariantRun(s, es, n);
    InvariantRun(s, es, m - 1);
    NextGrows(s, es, n, m - 1);
    StepAdvances(Run(s, es, m - 1), es[m - 1]);
  }

  ghost function PhaseAt(s: State, es: seq<Event>, n: nat): Phase
    requires n <= |es| && Run(s, es, n).cluster.Some?
  {
    Run(s, es, n).cluster.value.status.phase
  }

  /** Over the whole life of an object its phase only advances: unset, Pending,
      Creating, Running, Deleting; whatever fails and whoever interferes. */
  lemma {:induction false} PhaseAdvances(s: State, es: seq<Event>, n: nat, m: nat)
    requires Initial(s) && n <= m <= |es| && SameObject(s, es, n, m)
    ensures Order(PhaseAt(s, es, n)) <= Order(PhaseAt(s, es, m))
    decreases m
  {
    hide Step, Run;
    if n < m {
      StillThere(s, es, n, m);
      PhaseAdvances(s, es, n, m - 1);
    }
  }

  /** The phase Running is written only to a status in which all four counts are positive. */
  lemma RunningWasReady(s: State, es: seq<Event>, n: nat)
    requires Initial(s) && n < |es| && SameObject(s, es, n, n + 1)
    requires PhaseAt(s, es, n) != Running && PhaseAt(s, es, n + 1) == Running
    ensures AllReady(Run(s, es, n + 1).cluster.value.status) && PhaseAt(s, es, n) == Creating
  {
    InvariantRun(s, es, n);
    RunningStep(Run(s, es, n), es[n]);
  }

  lemma RunningStep(s: State, e: Event)
    requires Invariant(s) && s.cluster.Some? && Step(s, e).cluster.Some? && s.cluster.value.uid == Step(s, e).cluster.value.uid
    requires s.cluster.value.status.phase != Running && Step(s, e).cluster.value.status.phase == Running
    ensures AllReady(Step(s, e).cluster.value.status) && s.cluster.value.status.phase == Creating
  {
    if e.Act? && e.i < |s.workers| {
      var w := s.workers[e.i];
      assert WorkerOk(s, w);
      if Writes(w.pc) && Accepted(s, w, e.a) { WriteAdvances(s.cluster.value, w); }
    }
  }

  /** In every call the component steps that succeeded are a prefix of the plan;
      the status is read and written only after all of them did. */
  lemma StepsInOrder(s: State, es: seq<Event>, n: nat, i: nat)
    requires Initial(s) && n <= |es|
    ensures var r := Run(s, es, n);
            i < |r.workers| ==>
            match r.workers[i].pc
            case Reconciling(k) => k <= |Plan(r.workers[i].copy.spec)| && r.workers[i].log == Plan(r.workers[i].copy.spec)[..k]
            case Reading(_) => r.workers[i].log == Plan(r.workers[i].copy.spec)
            case WriteStatus => r.workers[i].log == Plan(r.workers[i].copy.spec)
            case _ => true
  {
    InvariantRun(s, es, n);
    var r := Run(s, es, n);
    if i < |r.workers| { assert WorkerOk(r, r.workers[i]); }
  }

  // -------------------------------------------------- dependencies come first

  /** What `b` needs to be there: the configuration, for every component; the
      quorum, for the name nodes; its service, for each kind of pods; and every
      component of the plan, for the disruption budgets. */
  predicate Needs(spec: Spec, b: Component, a: Component)
  {
    || (a == ConfigMap && b != ConfigMap)
    || (spec.nameNodeHA && (a == ZooKeeper || a == JournalNode) && (b == NameNodeService || b == NameNode))
    || (spec.nameNodeHA && a == ZooKeeper && b == JournalNode)
    || (a == NameNodeService && b == NameNode) || (a == DataNodeService && b == DataNode)
    || (a == ResourceManagerService && b == ResourceManager) || (a == NodeManagerService && b == NodeManager)
    || (b == DisruptionBudgets && a != b && a in Plan(spec))
  }

  lemma PlanPlaces(spec: Spec)
    ensures Plan(spec)[0] == ConfigMap
    ensures spec.nameNodeHA ==> Plan(spec)[1] == ZooKeeper && Plan(spec)[2] == JournalNode
    ensures var b := if spec.nameNodeHA then 3 else 1;
            && |Plan(spec)| == b + 8 + (if spec.nameNodeHA || spec.resourceManagerHA then 1 else 0)
            && Plan(spec)[b] == NameNodeService && Plan(spec)[b + 1] == NameNode
            && Plan(spec)[b + 2] == DataNodeService && Plan(spec)[b + 3] == DataNode
            && Plan(spec)[b + 4] == ResourceManagerService && Plan(spec)[b + 5] == ResourceManager
            && Plan(spec)[b + 6] == NodeManagerService && Plan(spec)[b + 7] == NodeManager
    ensures spec.nameNodeHA || spec.resourceManagerHA ==> Plan(spec)[|Plan(spec)| - 1] == DisruptionBudgets
  {
  }

  lemma NeededEarlier(spec: Spec, q: nat, a: Component)
    requires q < |Plan(spec)| && Needs(spec, Plan(spec)[q], a)
    ensures exists p :: 0 <= p < q && Plan(spec)[p] == a
  {
    PlanPlaces(spec);
  }

  predicate LogOk(w: Worker)
  {
    w.log <= Plan(w.copy.spec)
  }

  lemma ReadStepLog(s: State, w: Worker, a: Answer)
    requires WorkerOk(s, w) && LogOk(w) && !Writes(w.pc)
    ensures LogOk(ReadStep(s, w, a))
  {
    if w.pc.Reconciling? && w.pc.k < |Plan(w.copy.spec)| {
      var p := Plan(w.copy.spec);
      assert p[..w.pc.k] + [p[w.pc.k]] == p[..w.pc.k + 1];
    }
  }

  lemma WriteLog(w: Worker, stored: Object)
    requires LogOk(w) && stored.spec == w.copy.spec
    ensures LogOk(Refreshed(w, stored, AfterWrite(w, stored)))
  {
  }

  lemma WorkerStepLog(s: State, i: nat, a: Answer)
    requires Invariant(s) && i < |s.workers| && LogOk(s.workers[i])
    ensures LogOk(WorkerStep(s, i, a).workers[i])
  {
    var w := s.workers[i];
    assert WorkerOk(s, w);
    if !Writes(w.pc) {
      ReadStepLog(s, w, a);
    } else if Accepted(s, w, a) {
      WrittenOk(s.cluster.value, s.carried, w);
      WriteLog(w, Written(s.cluster.value, w).(version := s.next));
    }
  }

  ghost predicate LogsOk(s: State)
  {
    forall i :: 0 <= i < |s.workers| ==> LogOk(s.workers[i])
  }

  lemma LogsStep(s: State, e: Event)
    requires Invariant(s) && LogsOk(s)
    ensures LogsOk(Step(s, e))
  {
    if e.Act? && e.i < |s.workers| {
      WorkerStepLog(s, e.i, e.a);
      OthersStay(s, e.i, e.a);
    }
  }

  lemma OthersStay(s: State, i: nat, a: Answer)
    requires i < |s.workers|
    ensures |WorkerStep(s, i, a).workers| == |s.workers|
    ensures forall k :: 0 <= k < |s.workers| && k != i ==> WorkerStep(s, i, a).workers[k] == s.workers[k]
  {
  }

  lemma {:induction false} LogsRun(s: State, es: seq<Event>, n: nat)
    requires Initial(s) && n <= |es|
    ensures LogsOk(Run(s, es, n))
  {
    if n > 0 {
      LogsRun(s, es, n - 1);
      InvariantRun(s, es, n - 1);
      LogsStep(Run(s, es, n - 1), es[n - 1]);
    }
  }

  /** In every run and at every moment, whatever has failed: where a call has
      completed the step of a component, it has completed before it the steps of
      everything the component needs. */
  lemma DependenciesFirst(s: State, es: seq<Event>, n: nat, i: nat, q: nat, a: Component)
    requires Initial(s) && n <= |es|
    requires var r := Run(s, es, n);
             i < |r.workers| && q < |r.workers[i].log| && Needs(r.workers[i].copy.spec, r.workers[i].log[q], a)
    ensures exists p :: 0 <= p < q && Run(s, es, n).workers[i].log[p] == a
  {
    LogsRun(s, es, n);
    var w := Run(s, es, n).workers[i];
    assert LogOk(w);
    NeededEarlier(w.copy.spec, q, a);
    var p :| 0 <= p < q && Plan(w.copy.spec)[p] == a;
    assert w.log[p] == a;
  }
}
