/** What one call of `Reconcile` brings about when nothing fails and nobody
    interferes (controller.go). */
module GoQuietCalls {
  import opened Wrappers
  import opened GoReconciler

  predicate Alone(s: State)
  {
    |s.workers| == 1
  }

  /** The only worker's next `n` actions, all answered. */
  function Calm(s: State, n: nat): (r: State)
    requires Alone(s)
    ensures Alone(r)
    decreases n
  {
    if n == 0 then s else Calm(WorkerStep(s, 0, Okay), n - 1)
  }

  lemma {:induction false} CalmAppend(s: State, a: nat, b: nat)
    requires Alone(s)
    ensures Calm(s, a + b) == Calm(Calm(s, a), b)
    decreases a
  {
    if a > 0 { CalmAppend(WorkerStep(s, 0, Okay), a - 1, b); }
  }

  lemma CalmThen(s: State, a: nat, m: State, b: nat, r: State)
    requires Alone(s) && Calm(s, a) == m && Calm(m, b) == r
    ensures Calm(s, a + b) == r
  {
    CalmAppend(s, a, b);
  }

  lemma CalmOne(s: State, r: State)
    requires Alone(s) && WorkerStep(s, 0, Okay) == r
    ensures Calm(s, 1) == r
  {
  }

  // ------------------------------------------------------------- the deletion

  lemma OnlyFinalizer(fs: set<string>)
    requires FINALIZER in fs
    ensures fs - {FINALIZER} == {} <==> fs == {FINALIZER}
  {
    assert forall f <- fs :: f == FINALIZER || f in fs - {FINALIZER};
  }

  /** A deletion: marked, then released; with no other finalizer the object is gone. */
  lemma QuietDeletion(s: State)
    requires Alone(s) && s.workers[0].pc == Fetch && s.cluster.Some?
    requires var o := s.cluster.value; o.deleting && o.status.phase != Unset && FINALIZER in o.finalizers
    ensures var r := Calm(s, 3);
            var o := s.cluster.value;
            && r.workers[0].pc == Done(Never)
            && (o.finalizers == {FINALIZER} ==>
                  r.cluster == None && |r.gone| == |s.gone| + 1 && r.gone[|s.gone|].cluster.status.phase == Deleting)
            && (o.finalizers != {FINALIZER} ==>
                  r.cluster.Some? && r.cluster.value.finalizers == o.finalizers - {FINALIZER} && r.cluster.value.status.phase == Deleting)
  {
    var o := s.cluster.value;
    OnlyFinalizer(o.finalizers);
    var one := WorkerStep(s, 0, Okay);
    assert one.workers[0].pc == MarkDeleting && one.cluster == s.cluster && one.gone == s.gone;
    var two := WorkerStep(one, 0, Okay);
    assert two.cluster.value.finalizers == o.finalizers && two.workers[0].pc == DropFinalizer && two.gone == s.gone;
    CalmOne(s, one);
    CalmOne(one, two);
    CalmThen(s, 1, one, 1, two);
    CalmOne(two, WorkerStep(two, 0, Okay));
    CalmThen(s, 2, two, 1, WorkerStep(two, 0, Okay));
  }

  // ------------------------------------------------- the parts of a living call

  /** The machine with its worker here, the rest unchanged. */
  function With(s: State, w: Worker): State
  {
    s.(workers := [w])
  }

  lemma ComponentStep(s: State, plan: seq<Component>, w: Worker, k: nat)
    requires Alone(s) && plan == Plan(w.copy.spec) && k < |plan| && w.pc == Reconciling(k) && w.log == plan[..k]
    ensures WorkerStep(With(s, w), 0, Okay) == With(s, w.(pc := Reconciling(k + 1), log := plan[..k + 1]))
  {
    assert plan[..k + 1] == plan[..k] + [plan[k]];
  }

  lemma {:induction false} CalmComponents(s: State, plan: seq<Component>, w: Worker, k: nat)
    requires Alone(s) && plan == Plan(w.copy.spec) && k <= |plan| && w.pc == Reconciling(k) && w.log == plan[..k]
    ensures Calm(With(s, w), |plan| - k) == With(s, w.(pc := Reconciling(|plan|), log := plan))
    decreases |plan| - k
  {
    if k < |plan| {
      ComponentStep(s, plan, w, k);
      CalmComponents(s, plan, w.(pc := Reconciling(k + 1), log := plan[..k + 1]), k + 1);
    } else {
      assert plan[..k] == plan;
    }
  }

  predicate Reporting(s: State)
  {
    |s.workloads| == 4 && forall j :: 0 <= j < 4 ==> s.workloads[j].Some?
  }

  /** The counts the four StatefulSets report. */
  function Present(s: State): (r: seq<Counts>)
    requires Reporting(s)
    ensures |r| == 4 && forall j :: 0 <= j < 4 ==> Some(r[j]) == s.workloads[j]
  {
    [s.workloads[0].value, s.workloads[1].value, s.workloads[2].value, s.workloads[3].value]
  }

  lemma ReadStepAt(s: State, w: Worker, i: nat)
    requires Alone(s) && Reporting(s) && i < 4 && w.pc == Reading(i) && |w.draft.counts| == 4
    requires w.draft.counts[..i] == Present(s)[..i]
    ensures var v := w.(pc := Reading(i + 1), draft := w.draft.(counts := w.draft.counts[i := Present(s)[i]]));
            WorkerStep(With(s, w), 0, Okay) == With(s, v) && v.draft.counts[..i + 1] == Present(s)[..i + 1]
  {
  }

  lemma {:induction false} CalmReading(s: State, w: Worker, i: nat)
    requires Alone(s) && Reporting(s) && i <= 4 && w.pc == Reading(i) && |w.draft.counts| == 4
    requires w.draft.counts[..i] == Present(s)[..i]
    ensures Calm(With(s, w), 4 - i) == With(s, w.(pc := Reading(4), draft := w.draft.(counts := Present(s))))
    decreases 4 - i
  {
    if i < 4 {
      ReadStepAt(s, w, i);
      CalmReading(s, w.(pc := Reading(i + 1), draft := w.draft.(counts := w.draft.counts[i := Present(s)[i]])), i + 1);
    } else {
      assert w.draft.counts == Present(s);
    }
  }

  predicate Living(s: State)
  {
    && Alone(s) && s.workers[0].pc == Fetch && s.cluster.Some? && Reporting(s)
    && var o := s.cluster.value;
       !o.deleting && FINALIZER in o.finalizers && |o.status.counts| == 4 &&
       (o.status.phase == Creating || o.status.phase == Running)
  }

  lemma FetchStep(s: State)
    requires Living(s)
    ensures WorkerStep(s, 0, Okay) == With(s, Worker(Reconciling(0), s.cluster.value, s.cluster.value.status, []))
  {
  }

  lemma TurnSteps(s: State, w: Worker)
    requires Alone(s)
    ensures w.pc == Reconciling(|Plan(w.copy.spec)|) ==> WorkerStep(With(s, w), 0, Okay) == With(s, w.(pc := Reading(0)))
    ensures w.pc == Reading(4) ==> WorkerStep(With(s, w), 0, Okay) == With(s, w.(pc := WriteStatus))
  {
  }

  /** How many actions a quiet call takes up to writing the status. */
  function UpToStatus(spec: Spec): nat
  {
    |Plan(spec)| + 7
  }

  lemma UpToReading(s: State)
    requires Living(s)
    ensures var o := s.cluster.value;
            Calm(s, |Plan(o.spec)| + 2) == With(s, Worker(Reading(0), o, o.status, Plan(o.spec)))
  {
    var o := s.cluster.value;
    var plan := Plan(o.spec);
    var w := Worker(Reconciling(0), o, o.status, []);
    FetchStep(s);
    CalmOne(s, With(s, w));
    CalmComponents(s, plan, w, 0);
    CalmThen(s, 1, With(s, w), |plan|, With(s, w.(pc := Reconciling(|plan|), log := plan)));
    TurnSteps(s, w.(pc := Reconciling(|plan|), log := plan));
    CalmOne(With(s, w.(pc := Reconciling(|plan|), log := plan)), With(s, w.(pc := Reading(0), log := plan)));
    CalmThen(s, |plan| + 1, With(s, w.(pc := Reconciling(|plan|), log := plan)), 1, With(s, w.(pc := Reading(0), log := plan)));
  }

  lemma BeforeStatus(s: State)
    requires Living(s)
    ensures var o := s.cluster.value;
            Calm(s, UpToStatus(o.spec)) == With(s, Worker(WriteStatus, o, o.status.(counts := Present(s)), Plan(o.spec)))
  {
    hide Calm, WorkerStep;
    var o := s.cluster.value;
    var w := Worker(Reading(0), o, o.status, Plan(o.spec));
    var v := w.(pc := Reading(4), draft := o.status.(counts := Present(s)));
    UpToReading(s);
    CalmReading(s, w, 0);
    CalmThen(s, |Plan(o.spec)| + 2, With(s, w), 4, With(s, v));
    TurnSteps(s, v);
    CalmOne(With(s, v), With(s, v.(pc := WriteStatus)));
    CalmThen(s, |Plan(o.spec)| + 6, With(s, v), 1, With(s, v.(pc := WriteStatus)));
  }

  /** The machine after a write of the status: the object is stored with it, and
      is otherwise as it was; the reported workloads are the same. */
  predicate Stored(s: State, r: State, o: Object, status: Status, pc: Pc, log: seq<Component>)
  {
    && Alone(r) && r.workloads == s.workloads && r.workers[0].pc == pc && r.workers[0].log == log
    && r.cluster == Some(r.workers[0].copy) && r.workers[0].draft == status
    && r.workers[0].copy == o.(status := status, version := r.workers[0].copy.version)
  }

  lemma StatusWritten(s: State, w: Worker)
    requires Alone(s) && Writes(w.pc) && !w.pc.AddFinalizer? && !w.pc.DropFinalizer?
    requires s.cluster == Some(w.copy) && !w.copy.deleting
    ensures Stored(s, WorkerStep(With(s, w), 0, Okay), w.copy, Sent(w), AfterWrite(w, w.copy.(status := Sent(w))), w.log)
  {
  }

  /** The status one quiet call leaves. */
  function QuietStatus(s: State): Status
    requires Living(s)
  {
    var o := s.cluster.value;
    var ready := AllReady(o.status.(counts := Present(s)));
    Status(if ready then Running else o.status.phase, Present(s), WithReady(o.status.conditions, ready), o.generation)
  }

  /** The write that turns the phase to Running. */
  lemma TurnsRunning(s: State, a: State, o: Object, status: Status, log: seq<Component>)
    requires Stored(s, a, o, status, SetRunning, log) && !o.deleting
    ensures Stored(s, WorkerStep(a, 0, Okay), o, status.(phase := Running), Done(After30Seconds), log)
  {
    WithItself(a);
    StatusWritten(a, a.workers[0]);
  }

  lemma StatusStep(s: State) returns (a: State)
    requires Living(s)
    ensures var o := s.cluster.value;
            var ready := AllReady(o.status.(counts := Present(s)));
            && Calm(s, UpToStatus(o.spec) + 1) == a
            && if ready && o.status.phase != Running
               then Stored(s, a, o, a.workers[0].draft, SetRunning, Plan(o.spec)) && QuietStatus(s) == a.workers[0].draft.(phase := Running)
               else Stored(s, a, o, QuietStatus(s), Done(After30Seconds), Plan(o.spec))
  {
    var o := s.cluster.value;
    var w := Worker(WriteStatus, o, o.status.(counts := Present(s)), Plan(o.spec));
    BeforeStatus(s);
    StatusWritten(s, w);
    a := WorkerStep(With(s, w), 0, Okay);
    CalmOne(With(s, w), a);
    CalmThen(s, UpToStatus(o.spec), With(s, w), 1, a);
    SentStatus(s, w);
  }

  /** One quiet call on a living cluster: all components reconciled in order; the
      recorded counts are the present ones; the phase is Running exactly if it
      was already or if all four counts are positive; the one Ready condition
      says whether they are; and nothing else of the object changes. */
  lemma QuietCall(s: State) returns (n: nat)
    requires Living(s)
    ensures n > 0 && Stored(s, Calm(s, n), s.cluster.value, QuietStatus(s), Done(After30Seconds), Plan(s.cluster.value.spec))
  {
    var o := s.cluster.value;
    n := UpToStatus(o.spec) + 1;
    var a := StatusStep(s);
    if AllReady(o.status.(counts := Present(s))) && o.status.phase != Running {
      TurnsRunning(s, a, o, a.workers[0].draft, Plan(o.spec));
      CalmOne(a, WorkerStep(a, 0, Okay));
      CalmThen(s, n, a, 1, WorkerStep(a, 0, Okay));
      n := n + 1;
    }
  }

  lemma WithItself(s: State)
    requires Alone(s)
    ensures With(s, s.workers[0]) == s
  {
  }

  lemma SentStatus(s: State, w: Worker)
    requires Living(s) && w == Worker(WriteStatus, s.cluster.value, s.cluster.value.status.(counts := Present(s)), w.log)
    ensures var ready := AllReady(Sent(w));
            var o := s.cluster.value;
            && (QuietStatus(s) == if ready && o.status.phase != Running then Sent(w).(phase := Running) else Sent(w))
            && AfterWrite(w, w.copy.(status := Sent(w))) == if ready && o.status.phase != Running then SetRunning else Done(After30Seconds)
  {
  }

  // ---------------------------------------------------------- the first call

  /** A cluster just created, and a worker about to fetch it. */
  predicate New(s: State)
  {
    && Alone(s) && s.workers[0].pc == Fetch && s.cluster.Some? && Reporting(s)
    && var o := s.cluster.value;
       !o.deleting && FINALIZER !in o.finalizers && |o.status.counts| == 4 && o.status.phase == Unset
  }

  /** The object before the components are reconciled for the first time. */
  function Adopted(o: Object, version: nat): Object
  {
    o.(finalizers := o.finalizers + {FINALIZER}, status := o.status.(phase := Creating), version := version)
  }

  /** The worker holds the stored object unchanged; the workloads are as in `s`. */
  predicate Stage(s: State, m: State, pc: Pc, o: Object)
  {
    m.workers == [Worker(pc, o, o.status, [])] && m.cluster == Some(o) && m.workloads == s.workloads
  }

  lemma FetchNew(s: State) returns (m: State)
    requires New(s)
    ensures m == WorkerStep(s, 0, Okay) && Stage(s, m, SetPending, s.cluster.value) && m.next == s.next
  {
    m := WorkerStep(s, 0, Okay);
    assert m == With(s, Worker(SetPending, s.cluster.value, s.cluster.value.status, []));
  }

  lemma PendingStep(s: State, m: State, o: Object) returns (r: State)
    requires Stage(s, m, SetPending, o) && !o.deleting && FINALIZER !in o.finalizers
    ensures r == WorkerStep(m, 0, Okay) && r.next == m.next + 1
    ensures Stage(s, r, AddFinalizer, o.(status := o.status.(phase := Pending), version := m.next))
  {
    r := WorkerStep(m, 0, Okay);
  }

  lemma FinalizerStep(s: State, m: State, p: Object) returns (r: State)
    requires Stage(s, m, AddFinalizer, p) && !p.deleting && p.status.phase == Pending
    ensures r == WorkerStep(m, 0, Okay) && r.next == m.next + 1
    ensures Stage(s, r, SetCreating, p.(finalizers := p.finalizers + {FINALIZER}, version := m.next))
  {
    r := WorkerStep(m, 0, Okay);
  }

  lemma CreatingStep(s: State, m: State, q: Object) returns (r: State)
    requires Stage(s, m, SetCreating, q) && !q.deleting
    ensures r == WorkerStep(m, 0, Okay)
    ensures Stage(s, r, Reconciling(0), q.(status := q.status.(phase := Creating), version := m.next))
  {
    r := WorkerStep(m, 0, Okay);
  }

  lemma CalmTwo(s: State, m: State, r: State)
    requires Alone(s) && m == WorkerStep(s, 0, Okay) && r == WorkerStep(m, 0, Okay)
    ensures Calm(s, 2) == r
  {
    CalmOne(s, m);
    CalmOne(m, r);
    CalmThen(s, 1, m, 1, r);
  }

  lemma Beginning(s: State)
    requires New(s)
    ensures Stage(s, Calm(s, 4), Reconciling(0), Adopted(s.cluster.value, s.next + 2))
  {
    var o := s.cluster.value;
    var a := FetchNew(s);
    var b := PendingStep(s, a, o);
    var p := o.(status := o.status.(phase := Pending), version := s.next);
    var c := FinalizerStep(s, b, p);
    var q := p.(finalizers := p.finalizers + {FINALIZER}, version := s.next + 1);
    var d := CreatingStep(s, c, q);
    CalmTwo(s, a, b);
    CalmTwo(b, c, d);
    CalmThen(s, 2, b, 2, d);
    assert q.(status := q.status.(phase := Creating), version := s.next + 2) == Adopted(o, s.next + 2);
  }

  /** The status the first quiet call leaves. */
  function FirstStatus(s: State): Status
    requires New(s)
  {
    var o := s.cluster.value;
    var ready := AllReady(o.status.(counts := Present(s)));
    Status(if ready then Running else Creating, Present(s), WithReady(o.status.conditions, ready), o.generation)
  }

  /** The machine in the middle of the first call is a living one that has just
      fetched its object. */
  lemma AsLiving(m: State, a: Object) returns (l: State)
    requires m.workers == [Worker(Reconciling(0), a, a.status, [])] && m.cluster == Some(a) && Reporting(m)
    requires !a.deleting && FINALIZER in a.finalizers && |a.status.counts| == 4 && a.status.phase == Creating
    ensures Living(l) && l.cluster == m.cluster && l.workloads == m.workloads && WorkerStep(l, 0, Okay) == m
  {
    l := With(m, m.workers[0].(pc := Fetch));
    FetchStep(l);
    WithItself(m);
  }

  lemma FirstIsQuiet(s: State, l: State, r: State, version: nat, log: seq<Component>)
    requires New(s) && Living(l) && l.workloads == s.workloads && l.cluster == Some(Adopted(s.cluster.value, version))
    requires Stored(l, r, l.cluster.value, QuietStatus(l), Done(After30Seconds), log)
    ensures Stored(s, r, Adopted(s.cluster.value, 0), FirstStatus(s), Done(After30Seconds), log)
  {
    assert Present(l) == Present(s);
  }

  /** Four actions into the first call the machine is where a living one is after one. */
  lemma Begun(s: State) returns (l: State)
    requires New(s)
    ensures Living(l) && l.workloads == s.workloads && l.cluster == Some(Adopted(s.cluster.value, s.next + 2))
    ensures WorkerStep(l, 0, Okay) == Calm(s, 4)
  {
    Beginning(s);
    l := AsLiving(Calm(s, 4), Adopted(s.cluster.value, s.next + 2));
  }

  lemma AfterOne(l: State, k: nat, m: State, r: State)
    requires Alone(l) && k > 0 && WorkerStep(l, 0, Okay) == m && Calm(l, k) == r
    ensures Calm(m, k - 1) == r
  {
  }

  lemma AfterBegun(s: State, b: nat, m: State, l: State, k: nat, r: State)
    requires Alone(s) && Alone(l) && k > 0 && WorkerStep(l, 0, Okay) == m && Calm(s, b) == m && Calm(l, k) == r
    ensures Calm(s, b + (k - 1)) == r
  {
    AfterOne(l, k, m, r);
    CalmThen(s, b, m, k - 1, r);
  }

  /** One quiet call on a cluster just created: it is adopted, all components are
      reconciled, the present counts recorded; the phase is Running exactly if
      all four are positive, and the one Ready condition says whether they are. */
  lemma QuietFirstCall(s: State) returns (n: nat)
    requires New(s)
    ensures Stored(s, Calm(s, n), Adopted(s.cluster.value, 0), FirstStatus(s), Done(After30Seconds), Plan(s.cluster.value.spec))
  {
    var l := Begun(s);
    var k := QuietCall(l);
    n := 4 + (k - 1);
    AfterBegun(s, 4, Calm(s, 4), l, k, Calm(l, k));
    FirstIsQuiet(s, l, Calm(l, k), s.next + 2, Plan(s.cluster.value.spec));
  }
}
