/** The reconcile loop as it is written (controller.go): one `cluster` object
    changed in place, one API call after the other, an early return at every error. */
module GoController {
  import opened Wrappers
  import opened GoReconciler

  /** `HadoopCluster`, as held in memory. */
  class HadoopCluster {
    var uid: nat
    var version: nat
    var generation: nat
    var spec: Spec
    var deleting: bool
    var finalizers: set<string>
    var phase: Phase
    var counts: seq<Counts>
    var conditions: seq<Condition>
    var observed: nat

    ghost function Value(): Object
      reads this
    {
      Object(uid, version, generation, spec, deleting, finalizers, Status(phase, counts, conditions, observed))
    }

    constructor (o: Object)
      ensures Value() == o
    {
      uid, version, generation, spec, deleting, finalizers := o.uid, o.version, o.generation, o.spec, o.deleting, o.finalizers;
      phase, counts, conditions, observed := o.status.phase, o.status.counts, o.status.conditions, o.status.observed;
    }

    /** The server's answer to a write replaces the object. */
    method Refresh(o: Object)
      modifies this
      ensures Value() == o
    {
      uid, version, generation, spec, deleting, finalizers := o.uid, o.version, o.generation, o.spec, o.deleting, o.finalizers;
      phase, counts, conditions, observed := o.status.phase, o.status.counts, o.status.conditions, o.status.observed;
    }

    /** `IsClusterReady` */
    method IsClusterReady() returns (r: bool)
      requires |counts| == 4
      ensures r == AllReady(Value().status)
    {
      r := counts[0].ready > 0 && counts[1].ready > 0 && counts[2].ready > 0 && counts[3].ready > 0;
    }

    /** The loop over the conditions in `UpdateClusterStatus`. */
    method PutReadyCondition(holds: bool)
      modifies this`conditions
      ensures conditions == WithReady(old(conditions), holds)
    {
      var found := false;
      var i := 0;
      while i < |conditions| && !found
        invariant 0 <= i <= |conditions|
        invariant !found ==> conditions == old(conditions) && ReadyIndex(conditions, 0) == ReadyIndex(conditions, i)
        invariant found ==> conditions == WithReady(old(conditions), holds)
        decreases |conditions| - i, !found
      {
        if conditions[i].kind == Ready {
          conditions := conditions[i := Condition(Ready, holds)];
          found := true;
        } else {
          i := i + 1;
        }
      }
      if !found { conditions := conditions + [Condition(Ready, holds)]; }
    }
  }

  /** The API server. Whether a call gets through is not determined. */
  class ApiServer {
    var cluster: Option<Object>
    var next: nat
    var workloads: seq<Option<Counts>>
    ghost var carried: bool
    ghost var gone: seq<Departure>

    ghost function View(): State
      reads this
    {
      State(cluster, carried, next, workloads, [], gone)
    }

    constructor (w: seq<Option<Counts>>)
      ensures View() == State(None, false, 0, w, [], [])
    {
      cluster, next, workloads, carried, gone := None, 0, w, false, [];
    }

    /** `Get`; a missing object is told apart from a failure. */
    method Get() returns (a: Answer, o: Option<Object>)
      ensures a == Okay || a == Failure
      ensures a == Okay ==> o == cluster
    {
      var through: bool := *;
      a := if through then Okay else Failure;
      o := cluster;
    }

    method GetWorkload(i: nat) returns (a: Answer, o: Option<Counts>)
      ensures a == Okay || a == Failure
      ensures o == if a == Okay && i < |workloads| then workloads[i] else None
    {
      var through: bool := *;
      a := if through then Okay else Failure;
      o := if through && i < |workloads| then workloads[i] else None;
    }

    /** Stores a changed object under the version it was read at. */
    method Save(o: Object) returns (a: Answer)
      modifies this
      ensures a == Okay || a == Failure
      ensures a == Okay ==> old(cluster).Some? && old(cluster).value.version == o.version && View() == Store(old(View()), o)
      ensures a == Failure ==> View() == old(View())
    {
      var through: bool := *;
      a := Failure;
      if cluster.Some? && cluster.value.version == o.version && through {
        a := Okay;
        var stored := o.(version := next);
        ghost var c := carried || FINALIZER in o.finalizers;
        if o.deleting && o.finalizers == {} {
          cluster := None;
          gone := gone + [Departure(stored, c)];
          carried := false;
        } else {
          cluster := Some(stored);
          carried := c;
        }
        next := next + 1;
      }
    }
  }

  // --------------------------------------------------------- the machine, alone

  /** The machine with this worker only, after some answers. */
  function Solo(s: State, answers: seq<Answer>): State
    requires |s.workers| == 1
    ensures |Solo(s, answers).workers| == 1
  {
    if answers == [] then s else WorkerStep(Solo(s, answers[..|answers| - 1]), 0, answers[|answers| - 1])
  }

  lemma SoloOneMore(s: State, answers: seq<Answer>, a: Answer)
    requires |s.workers| == 1
    ensures Solo(s, answers + [a]) == WorkerStep(Solo(s, answers), 0, a)
  {
    assert (answers + [a])[..|answers|] == answers;
  }

  /** The server and the object in memory are those of the machine. */
  ghost predicate At(server: ApiServer, cluster: HadoopCluster, s: State)
    reads server, cluster
  {
    |s.workers| == 1 && s.(workers := []) == server.View() &&
    cluster.Value() == s.workers[0].copy.(status := s.workers[0].draft)
  }

  /** The call is over. */
  ghost predicate Over(server: ApiServer, s: State, retry: Retry)
    reads server
  {
    |s.workers| == 1 && s.(workers := []) == server.View() && s.workers[0].pc == Done(retry)
  }

  /** A call of `r.Status().Update` or `r.Update` with the object as changed in memory. */
  method Write(server: ApiServer, cluster: HadoopCluster, ghost s: State) returns (ok: bool, ghost r: State)
    requires |s.workers| == 1 && s.(workers := []) == server.View() && Writes(s.workers[0].pc)
    requires s.cluster.Some? && s.cluster.value.version == s.workers[0].copy.version ==> s.cluster.value == s.workers[0].copy
    requires cluster.Value() == Written(s.workers[0].copy, s.workers[0])
    modifies server, cluster
    ensures r == WorkerStep(s, 0, if ok then Okay else Failure)
    ensures if ok then Accepted(s, s.workers[0], Okay) && At(server, cluster, r) else Over(server, r, WithBackoff)
  {
    var o := Object(cluster.uid, cluster.version, cluster.generation, cluster.spec, cluster.deleting, cluster.finalizers,
                    Status(cluster.phase, cluster.counts, cluster.conditions, cluster.observed));
    var version := server.next;
    var a := server.Save(o);
    ok := a == Okay;
    r := WorkerStep(s, 0, if ok then Okay else Failure);
    if ok { cluster.Refresh(o.(version := version)); }
  }

  // ------------------------------------------------------- the parts of a call

  /** `ReconcileDelete` */
  method ReconcileDelete(server: ApiServer, cluster: HadoopCluster, ghost s: State) returns (retry: Retry, ghost answers: seq<Answer>)
    requires At(server, cluster, s) && s.workers[0].pc == MarkDeleting && s.workers[0].draft == s.workers[0].copy.status
    requires s.cluster.Some? && s.cluster.value.version == s.workers[0].copy.version ==> s.cluster.value == s.workers[0].copy
    modifies server, cluster
    ensures Over(server, Solo(s, answers), retry)
  {
    answers := [];
    cluster.phase := Deleting;
    var ok;
    ghost var r;
    ok, r := Write(server, cluster, s);
    SoloOneMore(s, [], if ok then Okay else Failure);
    answers := [if ok then Okay else Failure];
    assert answers == [] + answers;
    if !ok { return WithBackoff, answers; }
    cluster.finalizers := cluster.finalizers - {FINALIZER};
    ok, r := Write(server, cluster, r);
    SoloOneMore(s, answers, if ok then Okay else Failure);
    answers := answers + [if ok then Okay else Failure];
    retry := if ok then Never else WithBackoff;
  }

  /** The loop over the component reconcilers; what each does is not determined. */
  method RunComponents(server: ApiServer, cluster: HadoopCluster, ghost s: State) returns (retry: Option<Retry>, ghost answers: seq<Answer>)
    requires At(server, cluster, s) && s.workers[0].pc == Reconciling(0)
    ensures match retry
            case Some(t) => Over(server, Solo(s, answers), t)
            case None =>
              var r := Solo(s, answers);
              At(server, cluster, r) && r.workers[0] == s.workers[0].(pc := Reading(0), log := r.workers[0].log) && r.cluster == s.cluster
  {
    var plan := Plan(cluster.spec);
    answers := [];
    for k := 0 to |plan|
      invariant var r := Solo(s, answers);
                At(server, cluster, r) && r.workers[0] == s.workers[0].(pc := Reconciling(k), log := r.workers[0].log) && r.cluster == s.cluster
    {
      var a: Answer := *;
      SoloOneMore(s, answers, a);
      answers := answers + [a];
      if a == Failure { return Some(WithBackoff), answers; }
      if a == Requeue { return Some(Soon), answers; }
    }
    SoloOneMore(s, answers, Okay);
    answers := answers + [Okay];
    retry := None;
  }

  /** The four reads in `UpdateClusterStatus`: a read that fails leaves the old counts. */
  method ReadWorkloads(server: ApiServer, cluster: HadoopCluster, ghost s: State) returns (ghost answers: seq<Answer>)
    requires At(server, cluster, s) && s.workers[0].pc == Reading(0) && |cluster.counts| == 4
    modifies cluster`counts
    ensures var r := Solo(s, answers);
            At(server, cluster, r) && r.workers[0].pc == WriteStatus && r.workers[0].copy == s.workers[0].copy && r.cluster == s.cluster
    ensures |cluster.counts| == 4
  {
    answers := [];
    for i := 0 to 4
      invariant |cluster.counts| == 4
      invariant var r := Solo(s, answers);
                At(server, cluster, r) && r.workers[0].pc == Reading(i) && r.workers[0].copy == s.workers[0].copy && r.cluster == s.cluster
    {
      var a, o := server.GetWorkload(i);
      if o.Some? { cluster.counts := cluster.counts[i := o.value]; }
      SoloOneMore(s, answers, a);
      answers := answers + [a];
    }
    SoloOneMore(s, answers, Okay);
    answers := answers + [Okay];
  }

  /** Between two parts of a call: nothing changed in memory that was not sent. */
  ghost predicate Between(server: ApiServer, cluster: HadoopCluster, s: State)
    reads server, cluster
  {
    && At(server, cluster, s) && s.workers[0].draft == s.workers[0].copy.status && |cluster.counts| == 4
    && (s.cluster.Some? && s.cluster.value.version == s.workers[0].copy.version ==> s.cluster.value == s.workers[0].copy)
  }

  /** One change sent off: the call ends or goes on after it. */
  method Send(server: ApiServer, cluster: HadoopCluster, ghost s: State) returns (ok: bool, ghost answers: seq<Answer>)
    requires |s.workers| == 1 && s.(workers := []) == server.View() && Writes(s.workers[0].pc)
    requires s.cluster.Some? && s.cluster.value.version == s.workers[0].copy.version ==> s.cluster.value == s.workers[0].copy
    requires cluster.Value() == Written(s.workers[0].copy, s.workers[0]) && |cluster.counts| == 4
    modifies server, cluster
    ensures var r := Solo(s, answers);
            if ok then Between(server, cluster, r) && r.workers[0].pc == AfterWrite(s.workers[0], r.workers[0].copy)
            else Over(server, r, WithBackoff)
  {
    ghost var r;
    ok, r := Write(server, cluster, s);
    SoloOneMore(s, [], if ok then Okay else Failure);
    answers := [if ok then Okay else Failure];
    assert answers == [] + answers;
  }

  /** Sets the initial phase. */
  method EnsurePhase(server: ApiServer, cluster: HadoopCluster, ghost s: State) returns (ok: bool, ghost answers: seq<Answer>)
    requires Between(server, cluster, s) && s.workers[0].pc == Enter(s.workers[0].copy)
    modifies server, cluster
    ensures var r := Solo(s, answers);
            if ok then Between(server, cluster, r) && r.workers[0].pc == AfterPhase(r.workers[0].copy) else Over(server, r, WithBackoff)
  {
    ok, answers := true, [];
    if cluster.phase == Unset {
      cluster.phase := Pending;
      ok, answers := Send(server, cluster, s);
    }
  }

  /** Adds the finalizer. */
  method EnsureFinalizer(server: ApiServer, cluster: HadoopCluster, ghost s: State) returns (ok: bool, ghost answers: seq<Answer>)
    requires Between(server, cluster, s) && s.workers[0].pc == AfterPhase(s.workers[0].copy)
    modifies server, cluster
    ensures var r := Solo(s, answers);
            if ok then Between(server, cluster, r) && r.workers[0].pc == AfterFinalizer(r.workers[0].copy) else Over(server, r, WithBackoff)
  {
    ok, answers := true, [];
    if FINALIZER !in cluster.finalizers {
      cluster.finalizers := cluster.finalizers + {FINALIZER};
      ok, answers := Send(server, cluster, s);
    }
  }

  /** Pending becomes Creating. */
  method EnsureCreating(server: ApiServer, cluster: HadoopCluster, ghost s: State) returns (ok: bool, ghost answers: seq<Answer>)
    requires Between(server, cluster, s) && s.workers[0].pc == AfterFinalizer(s.workers[0].copy) && !cluster.deleting
    modifies server, cluster
    ensures var r := Solo(s, answers);
            if ok then Between(server, cluster, r) && r.workers[0].pc == Reconciling(0) else Over(server, r, WithBackoff)
  {
    ok, answers := true, [];
    if cluster.phase == Pending {
      cluster.phase := Creating;
      ok, answers := Send(server, cluster, s);
    }
  }

  lemma {:induction false} SoloAppend(s: State, a: seq<Answer>, b: seq<Answer>)
    requires |s.workers| == 1
    ensures Solo(s, a + b) == Solo(Solo(s, a), b)
    decreases |b|
  {
    if b == [] {
      assert a + b == a;
    } else {
      var n := |b| - 1;
      SoloAppend(s, a, b[..n]);
      assert (a + b)[..|a + b| - 1] == a + b[..n];
    }
  }

  /** `UpdateClusterStatus` */
  method UpdateClusterStatus(server: ApiServer, cluster: HadoopCluster, ghost s: State) returns (ok: bool, ghost answers: seq<Answer>)
    requires At(server, cluster, s) && s.workers[0].pc == Reading(0) && |cluster.counts| == 4
    requires s.cluster.Some? && s.cluster.value.version == s.workers[0].copy.version ==> s.cluster.value == s.workers[0].copy
    modifies server, cluster
    ensures var r := Solo(s, answers);
            if ok then
              var o := r.workers[0].copy;
              Between(server, cluster, r) &&
              r.workers[0].pc == if AllReady(o.status) && o.status.phase != Running then SetRunning else Done(After30Seconds)
            else Over(server, r, WithBackoff)
  {
    ghost var read := ReadWorkloads(server, cluster, s);
    ghost var mid := Solo(s, read);
    var ready := cluster.IsClusterReady();
    cluster.PutReadyCondition(ready);
    cluster.observed := cluster.generation;
    ok, answers := Send(server, cluster, mid);
    SoloAppend(s, read, answers);
    answers := read + answers;
  }

  /** Creating becomes Running once everything is ready. */
  method EnsureRunning(server: ApiServer, cluster: HadoopCluster, ghost s: State) returns (retry: Retry, ghost answers: seq<Answer>)
    requires Between(server, cluster, s)
    requires var o := s.workers[0].copy;
             s.workers[0].pc == if AllReady(o.status) && o.status.phase != Running then SetRunning else Done(After30Seconds)
    modifies server, cluster
    ensures Over(server, Solo(s, answers), retry)
  {
    retry, answers := After30Seconds, [];
    var ready := cluster.IsClusterReady();
    if ready && cluster.phase != Running {
      cluster.phase := Running;
      var ok;
      ok, answers := Send(server, cluster, s);
      if !ok { retry := WithBackoff; }
    }
  }

  /** From the component list to the end. */
  method ReconcileParts(server: ApiServer, cluster: HadoopCluster, ghost s: State) returns (retry: Retry, ghost answers: seq<Answer>)
    requires Between(server, cluster, s) && s.workers[0].pc == Reconciling(0)
    modifies server, cluster
    ensures Over(server, Solo(s, answers), retry)
  {
    var early;
    early, answers := RunComponents(server, cluster, s);
    if early.Some? { return early.value, answers; }
    ghost var mid := Solo(s, answers);
    var ok;
    ghost var more;
    ok, more := UpdateClusterStatus(server, cluster, mid);
    SoloAppend(s, answers, more);
    answers := answers + more;
    if !ok { return WithBackoff, answers; }
    retry, more := EnsureRunning(server, cluster, Solo(mid, more));
    SoloAppend(s, answers, more);
    answers := answers + more;
  }

  /** From the fetched object on. */
  method ReconcileFetched(server: ApiServer, cluster: HadoopCluster, ghost s: State) returns (retry: Retry, ghost answers: seq<Answer>)
    requires Between(server, cluster, s) && s.workers[0].pc == Enter(s.workers[0].copy)
    modifies server, cluster
    ensures Over(server, Solo(s, answers), retry)
  {
    var ok;
    ghost var more;
    ok, answers := EnsurePhase(server, cluster, s);
    if !ok { return WithBackoff, answers; }
    ok, more := EnsureFinalizer(server, cluster, Solo(s, answers));
    SoloAppend(s, answers, more);
    answers := answers + more;
    if !ok { return WithBackoff, answers; }
    if cluster.deleting {
      retry, more := ReconcileDelete(server, cluster, Solo(s, answers));
    } else {
      retry, more := ReconcileLiving(server, cluster, Solo(s, answers));
    }
    SoloAppend(s, answers, more);
    answers := answers + more;
  }

  /** What follows when no deletion is pending. */
  method ReconcileLiving(server: ApiServer, cluster: HadoopCluster, ghost s: State) returns (retry: Retry, ghost answers: seq<Answer>)
    requires Between(server, cluster, s) && s.workers[0].pc == AfterFinalizer(s.workers[0].copy) && !cluster.deleting
    modifies server, cluster
    ensures Over(server, Solo(s, answers), retry)
  {
    var ok;
    ghost var more;
    ok, answers := EnsureCreating(server, cluster, s);
    if !ok { return WithBackoff, answers; }
    retry, more := ReconcileParts(server, cluster, Solo(s, answers));
    SoloAppend(s, answers, more);
    answers := answers + more;
  }

  /** `Reconcile`: from start to end, a run of the machine's worker. */
  method Reconcile(server: ApiServer, ghost s: State) returns (retry: Retry, ghost answers: seq<Answer>)
    requires |s.workers| == 1 && s.(workers := []) == server.View() && s.workers[0].pc == Fetch
    requires server.cluster.Some? ==> |server.cluster.value.status.counts| == 4
    modifies server
    ensures Over(server, Solo(s, answers), retry)
  {
    var a, o := server.Get();
    SoloOneMore(s, [], a);
    answers := [a];
    assert [a] == [] + [a];
    if a != Okay { return WithBackoff, answers; }
    if o.None? { return Never, answers; }
    var cluster := new HadoopCluster(o.value);
    ghost var more;
    retry, more := ReconcileFetched(server, cluster, Solo(s, answers));
    SoloAppend(s, answers, more);
    answers := answers + more;
  }
}
