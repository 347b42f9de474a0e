/** The Go operator's reconcile loop (controller.go of the qoder operator) as a
    machine: any number of workers, each making one API call at a time, any of
    which may fail, among the doings of users and other controllers. */
module GoReconciler {
  import opened Wrappers

  // --------------------------------------------------------------- the object

  datatype Phase = Unset | Pending | Creating | Running | Deleting

  function Order(p: Phase): nat
  {
    match p
    case Unset => 0
    case Pending => 1
    case Creating => 2
    case Running => 3
    case Deleting => 4
  }

  datatype Counts = Counts(replicas: int, ready: int)

  datatype ConditionType = Ready | Progressing | Degraded

  datatype Condition = Condition(kind: ConditionType, holds: bool)

  /** `counts`: name nodes, data nodes, resource managers, node managers. */
  datatype Status = Status(phase: Phase, counts: seq<Counts>, conditions: seq<Condition>, observed: nat)

  datatype Spec = Spec(nameNodeHA: bool, resourceManagerHA: bool)

  const FINALIZER := "hadoop.apache.org/finalizer"

  datatype Object = Object(uid: nat, version: nat, generation: nat, spec: Spec, deleting: bool, finalizers: set<string>, status: Status)

  /** `IsClusterReady` */
  predicate AllReady(status: Status)
  {
    |status.counts| == 4 && forall i :: 0 <= i < 4 ==> status.counts[i].ready > 0
  }

  // ----------------------------------------------------------- the components

  datatype Component =
    | ConfigMap | ZooKeeper | JournalNode | NameNodeService | NameNode | DataNodeService | DataNode
    | ResourceManagerService | ResourceManager | NodeManagerService | NodeManager | DisruptionBudgets

  /** The ordered list of component reconcilers. */
  function Plan(spec: Spec): seq<Component>
  {
    [ConfigMap] +
    (if spec.nameNodeHA then [ZooKeeper, JournalNode] else []) +
    [NameNodeService, NameNode, DataNodeService, DataNode,
     ResourceManagerService, ResourceManager, NodeManagerService, NodeManager] +
    (if spec.nameNodeHA || spec.resourceManagerHA then [DisruptionBudgets] else [])
  }

  // ---------------------------------------------------------------- conditions

  predicate SingleReady(cs: seq<Condition>)
  {
    forall i, j :: 0 <= i < j < |cs| ==> !(cs[i].kind == Ready && cs[j].kind == Ready)
  }

  /** The first Ready entry, or the length. */
  function ReadyIndex(cs: seq<Condition>, i: nat): (r: nat)
    requires i <= |cs|
    ensures i <= r <= |cs| && (r < |cs| ==> cs[r].kind == Ready)
    ensures forall j :: i <= j < r ==> cs[j].kind != Ready
    decreases |cs| - i
  {
    if i == |cs| || cs[i].kind == Ready then i else ReadyIndex(cs, i + 1)
  }

  /** Updates or appends the Ready condition. */
  function WithReady(cs: seq<Condition>, holds: bool): seq<Condition>
  {
    var i := ReadyIndex(cs, 0);
    if i < |cs| then cs[i := Condition(Ready, holds)] else cs + [Condition(Ready, holds)]
  }

  /** A Ready entry, where there is one, tells whether all counts are positive. */
  predicate ReadyTold(status: Status)
  {
    SingleReady(status.conditions) &&
    forall c <- status.conditions :: c.kind == Ready ==> (c.holds <==> AllReady(status))
  }

  lemma WithReadySingle(cs: seq<Condition>, holds: bool)
    requires SingleReady(cs)
    ensures SingleReady(WithReady(cs, holds))
    ensures forall c <- WithReady(cs, holds) :: c.kind == Ready ==> c.holds == holds
    ensures Condition(Ready, holds) in WithReady(cs, holds)
  {
    var i := ReadyIndex(cs, 0);
    if i < |cs| {
      assert WithReady(cs, holds)[i] == Condition(Ready, holds);
    } else {
      assert WithReady(cs, holds)[|cs|] == Condition(Ready, holds);
    }
  }

  // ------------------------------------------------------------------- workers

  datatype Retry = Never | After30Seconds | Soon | WithBackoff

  /** The next API call of a worker. */
  datatype Pc =
    | Fetch
    | SetPending
    | AddFinalizer
    | MarkDeleting
    | DropFinalizer
    | SetCreating
    | Reconciling(k: nat)
    | Reading(i: nat)
    | WriteStatus
    | SetRunning
    | Done(retry: Retry)

  /** `copy` is the object as the server last returned it; `draft` its status as
      changed in memory since; `log` the component steps of this call that succeeded. */
  datatype Worker = Worker(pc: Pc, copy: Object, draft: Status, log: seq<Component>)

  /** An object that has left the store, and whether it ever carried the finalizer. */
  datatype Departure = Departure(cluster: Object, carried: bool)

  datatype State = State(cluster: Option<Object>, carried: bool, next: nat, workloads: seq<Option<Counts>>,
                         workers: seq<Worker>, gone: seq<Departure>)

  /** How an API call ends; a component step may also ask for another turn. */
  datatype Answer = Okay | Failure | Requeue

  // ---------------------------------------------------------------- the server

  /** An object stored under a new version; with a deletion pending and no
      finalizer left, it is gone instead. */
  function Store(s: State, o: Object): State
  {
    var stored := o.(version := s.next);
    var carried := s.carried || FINALIZER in o.finalizers;
    if o.deleting && o.finalizers == {}
    then s.(cluster := None, carried := false, next := s.next + 1, gone := s.gone + [Departure(stored, carried)])
    else s.(cluster := Some(stored), carried := carried, next := s.next + 1)
  }

  /** Optimistic concurrency: a write succeeds only on the version it was based on. */
  predicate Accepted(s: State, w: Worker, a: Answer)
  {
    a == Okay && s.cluster.Some? && s.cluster.value.version == w.copy.version
  }

  // ------------------------------------------------------------ the control flow

  function Enter(o: Object): Pc
  {
    if o.status.phase == Unset then SetPending else AfterPhase(o)
  }

  function AfterPhase(o: Object): Pc
  {
    if FINALIZER !in o.finalizers then AddFinalizer else AfterFinalizer(o)
  }

  function AfterFinalizer(o: Object): Pc
  {
    if o.deleting then MarkDeleting else if o.status.phase == Pending then SetCreating else Reconciling(0)
  }

  /** The status `r.Status().Update` sends. */
  function Sent(w: Worker): Status
  {
    match w.pc
    case SetPending => w.draft.(phase := Pending)
    case MarkDeleting => w.draft.(phase := Deleting)
    case SetCreating => w.draft.(phase := Creating)
    case SetRunning => w.draft.(phase := Running)
    case WriteStatus => w.draft.(conditions := WithReady(w.draft.conditions, AllReady(w.draft)), observed := w.copy.generation)
    case _ => w.draft
  }

  /** The object a write asks the server to store. */
  function Written(o: Object, w: Worker): Object
  {
    match w.pc
    case AddFinalizer => o.(finalizers := o.finalizers + {FINALIZER})
    case DropFinalizer => o.(finalizers := o.finalizers - {FINALIZER})
    case _ => o.(status := Sent(w))
  }

  /** Where a write leads when it succeeds. */
  function AfterWrite(w: Worker, o: Object): Pc
  {
    match w.pc
    case SetPending => AfterPhase(o)
    case AddFinalizer => AfterFinalizer(o)
    case MarkDeleting => DropFinalizer
    case DropFinalizer => Done(Never)
    case SetCreating => Reconciling(0)
    case WriteStatus => if AllReady(o.status) && o.status.phase != Running then SetRunning else Done(After30Seconds)
    case _ => Done(After30Seconds)
  }

  predicate Writes(pc: Pc)
  {
    pc.SetPending? || pc.AddFinalizer? || pc.MarkDeleting? || pc.DropFinalizer? || pc.SetCreating? || pc.WriteStatus? || pc.SetRunning?
  }

  function Refreshed(w: Worker, o: Object, pc: Pc): Worker
  {
    w.(copy := o, draft := o.status, pc := pc)
  }

  /** The worker's part of a step that only reads. */
  function ReadStep(s: State, w: Worker, a: Answer): Worker
  {
    match w.pc
    case Fetch =>
      if a != Okay then w.(pc := Done(WithBackoff))
      else if s.cluster.None? then w.(pc := Done(Never))
      else Refreshed(w, s.cluster.value, Enter(s.cluster.value)).(log := [])
    case Reconciling(k) =>
      if k >= |Plan(w.copy.spec)| then w.(pc := Reading(0))
      else if a == Failure then w.(pc := Done(WithBackoff))
      else
        var done := w.(log := w.log + [Plan(w.copy.spec)[k]]);
        if a == Requeue then done.(pc := Done(Soon)) else done.(pc := Reconciling(k + 1))
    case Reading(i) =>
      if i >= 4 || |w.draft.counts| != 4 then w.(pc := WriteStatus)
      else if a == Okay && i < |s.workloads| && s.workloads[i].Some?
      then w.(draft := w.draft.(counts := w.draft.counts[i := s.workloads[i].value]), pc := Reading(i + 1))
      else w.(pc := Reading(i + 1))
    case Done(_) => w.(pc := Fetch)
    case _ => w
  }

  function WorkerStep(s: State, i: nat, a: Answer): State
    requires i < |s.workers|
  {
    var w := s.workers[i];
    if !Writes(w.pc) then s.(workers := s.workers[i := ReadStep(s, w, a)])
    else if !Accepted(s, w, a) then s.(workers := s.workers[i := w.(pc := Done(WithBackoff))])
    else
      var o := Written(s.cluster.value, w);
      var stored := o.(version := s.next);
      Store(s, o).(workers := s.workers[i := Refreshed(w, stored, AfterWrite(w, stored))])
  }

  // -------------------------------------------------------------- other actors

  datatype Event =
    | Act(i: nat, a: Answer)                            // a worker's next call
    | Create(spec: Spec)
    | EditSpec(spec: Spec)
    | RequestDeletion
    | OtherFinalizers(names: set<string>)               // everything but this operator's own
    | Report(i: nat, counts: Option<Counts>)            // a StatefulSet appears, changes or goes

  function BlankStatus(): Status
  {
    Status(Unset, [Counts(0, 0), Counts(0, 0), Counts(0, 0), Counts(0, 0)], [], 0)
  }

  function Step(s: State, e: Event): State
  {
    match e
    case Act(i, a) => if i < |s.workers| then WorkerStep(s, i, a) else s
    case Create(spec) =>
      if s.cluster.Some? then s else Store(s, Object(s.next, 0, 1, spec, false, {}, BlankStatus()))
    case EditSpec(spec) =>
      if s.cluster.None? then s
      else Store(s, s.cluster.value.(spec := spec, generation := s.cluster.value.generation + 1))
    case RequestDeletion => if s.cluster.None? then s else Store(s, s.cluster.value.(deleting := true))
    case OtherFinalizers(names) =>
      if s.cluster.None? then s
      else Store(s, s.cluster.value.(finalizers := (names - {FINALIZER}) + (s.cluster.value.finalizers * {FINALIZER})))
    case Report(i, counts) => if i < |s.workloads| then s.(workloads := s.workloads[i := counts]) else s
  }

  function Run(s: State, es: seq<Event>, n: nat): State
    requires n <= |es|
  {
    if n == 0 then s else Step(Run(s, es, n - 1), es[n - 1])
  }

  predicate Initial(s: State)
  {
    s.cluster.None? && !s.carried && |s.workloads| == 4 && s.gone == [] &&
    forall i :: 0 <= i < |s.workers| ==> s.workers[i].pc == Fetch && s.workers[i].log == []
  }
}
