/** When the phase Running outlives readiness (controller.go): in which runs, and
    that there are some. */
module GoRunning {
  import opened Wrappers
  import opened GoReconciler
  import opened GoReconcilerRuns
  import opened GoQuietCalls

  /** The phase says Running while the Ready condition says no. */
  predicate Unready(o: Object)
  {
    o.status.phase == Running && Condition(Ready, false) in o.status.conditions
  }

  // ------------------------------------------------------------ in every run

  /** What the status write of a call stores. */
  lemma StatusWriteStores(s: State, i: nat)
    requires Invariant(s) && i < |s.workers| && s.workers[i].pc == WriteStatus && Accepted(s, s.workers[i], Okay)
    ensures var r := Step(s, Act(i, Okay)).cluster;
            && r.Some? && r.value.uid == s.cluster.value.uid && r.value.status.phase == s.cluster.value.status.phase
            && (Condition(Ready, false) in r.value.status.conditions <==> !AllReady(s.workers[i].draft))
  {
    var w := s.workers[i];
    assert WorkerOk(s, w);
    WithReadySingle(w.draft.conditions, AllReady(w.draft));
  }

  /** In every run, at every status write the server accepts: the object is left
      with phase Running and a false Ready condition if and only if its phase was
      Running and one of the counts just read is not positive. */
  lemma UnreadyExactly(s: State, es: seq<Event>, n: nat, i: nat)
    requires Initial(s) && n < |es| && es[n] == Act(i, Okay)
    requires var r := Run(s, es, n); i < |r.workers| && r.workers[i].pc == WriteStatus && Accepted(r, r.workers[i], Okay)
    ensures var r := Run(s, es, n);
            var after := Run(s, es, n + 1).cluster;
            after.Some? && (Unready(after.value) <==> r.cluster.value.status.phase == Running && !AllReady(r.workers[i].draft))
  {
    InvariantRun(s, es, n);
    StatusWriteStores(Run(s, es, n), i);
  }

  predicate IsStatusWrite(s: State, e: Event)
  {
    e.Act? && e.a == Okay && e.i < |s.workers| && s.workers[e.i].pc == WriteStatus && Accepted(s, s.workers[e.i], Okay)
  }

  /** A write of a worker that keeps the conditions and, unless it turns the phase
      to Running, does not make it Running. */
  lemma OtherWrites(o: Object, w: Worker)
    requires o == w.copy && Writes(w.pc) && Facts(w.pc, o) && Drafted(w) && w.pc != WriteStatus && ReadyTold(o.status)
    ensures Unready(Written(o, w)) ==> Unready(o)
  {
  }

  lemma OtherSteps(s: State, e: Event)
    requires Invariant(s) && s.cluster.Some? && Step(s, e).cluster.Some? && !IsStatusWrite(s, e)
    requires s.cluster.value.uid == Step(s, e).cluster.value.uid
    ensures Unready(Step(s, e).cluster.value) ==> Unready(s.cluster.value)
  {
    if e.Act? && e.i < |s.workers| {
      var w := s.workers[e.i];
      assert WorkerOk(s, w);
      if Writes(w.pc) && Accepted(s, w, e.a) { OtherWrites(s.cluster.value, w); }
    }
  }

  /** And nothing but such a write brings an object there. */
  lemma UnreadyArises(s: State, es: seq<Event>, n: nat)
    requires Initial(s) && n < |es| && SameObject(s, es, n, n + 1)
    requires !Unready(Run(s, es, n).cluster.value) && Unready(Run(s, es, n + 1).cluster.value)
    ensures var r := Run(s, es, n);
            && IsStatusWrite(r, es[n])
            && r.cluster.value.status.phase == Running && !AllReady(r.workers[es[n].i].draft)
  {
    InvariantRun(s, es, n);
    if !IsStatusWrite(Run(s, es, n), es[n]) { OtherSteps(Run(s, es, n), es[n]); }
    UnreadyExactly(s, es, n, es[n].i);
  }

  // ----------------------------------------------------------- and in some runs

  /** Some events lead from one state to the other. */
  ghost predicate Leads(s: State, t: State)
  {
    exists es :: Run(s, es, |es|) == t
  }

  lemma {:induction false} RunPrefix(s: State, a: seq<Event>, b: seq<Event>, n: nat)
    requires n <= |a|
    ensures Run(s, a + b, n) == Run(s, a, n)
  {
    if n > 0 { RunPrefix(s, a, b, n - 1); }
  }

  lemma RunLast(s: State, es: seq<Event>, n: nat, t: State, e: Event, u: State)
    requires n < |es| && Run(s, es, n) == t && es[n] == e && Step(t, e) == u
    ensures Run(s, es, n + 1) == u
  {
  }

  lemma RunOf(s: State, t: State) returns (es: seq<Event>)
    requires Leads(s, t)
    ensures Run(s, es, |es|) == t
  {
    es :| Run(s, es, |es|) == t;
  }

  lemma RunSnoc(s: State, es: seq<Event>, e: Event, fs: seq<Event>, t: State, u: State)
    requires Run(s, es, |es|) == t && Step(t, e) == u && fs == es + [e]
    ensures Run(s, fs, |fs|) == u
  {
    RunPrefix(s, es, [e], |es|);
    RunLast(s, fs, |es|, t, e, u);
  }

  lemma LeadsBy(s: State, es: seq<Event>, t: State)
    requires Run(s, es, |es|) == t
    ensures Leads(s, t)
  {
  }

  lemma LeadsTo(s: State, t: State, e: Event, u: State)
    requires Leads(s, t) && Step(t, e) == u
    ensures Leads(s, u)
  {
    var es := RunOf(s, t);
    RunSnoc(s, es, e, es + [e], t, u);
    LeadsBy(s, es + [e], u);
  }

  /** A set of states that no event leaves. */
  ghost predicate Closed(reach: iset<State>)
  {
    forall t, e :: t in reach ==> Step(t, e) in reach
  }

  /** The states that runs from `s` come to. */
  lemma Reachable(s: State) returns (reach: iset<State>)
    ensures s in reach && Closed(reach) && forall t <- reach :: Leads(s, t)
  {
    reach := iset t: State | Leads(s, t);
    var none: seq<Event> := [];
    LeadsBy(s, none, s);
    forall t, e | t in reach ensures Step(t, e) in reach { LeadsTo(s, t, e, Step(t, e)); }
  }

  lemma ActSteps(t: State, u: State)
    requires Alone(t) && WorkerStep(t, 0, Okay) == u
    ensures Step(t, Act(0, Okay)) == u && Alone(u)
  {
  }

  lemma CalmStart(reach: iset<State>, t: State, n: nat, r: State) returns (u: State)
    requires Closed(reach) && t in reach && Alone(t) && n > 0 && Calm(t, n) == r
    ensures Alone(u) && u in reach && Calm(u, n - 1) == r
  {
    u := WorkerStep(t, 0, Okay);
    AfterOne(t, n, u, r);
    ActSteps(t, u);
  }

  /** Calls that nothing disturbs are runs. */
  lemma {:induction false} CalmReached(reach: iset<State>, t: State, n: nat, r: State)
    requires Closed(reach) && t in reach && Alone(t) && Calm(t, n) == r
    ensures r in reach
    decreases n
  {
    if n > 0 {
      var u := CalmStart(reach, t, n, r);
      CalmReached(reach, u, n - 1, r);
    }
  }

  /** The four StatefulSets report these counts. */
  function Reported(s: State, counts: seq<Counts>): State
    requires |counts| == 4
  {
    Step(Step(Step(Step(s, Report(0, Some(counts[0]))), Report(1, Some(counts[1]))), Report(2, Some(counts[2]))), Report(3, Some(counts[3])))
  }

  lemma ReportedReached(reach: iset<State>, t: State, counts: seq<Counts>)
    requires Closed(reach) && t in reach && |counts| == 4
    ensures Reported(t, counts) in reach
  {
  }

  lemma ReportedState(s: State, counts: seq<Counts>)
    requires |counts| == 4 && |s.workloads| == 4
    ensures Reported(s, counts) == s.(workloads := [Some(counts[0]), Some(counts[1]), Some(counts[2]), Some(counts[3])])
  {
  }

  predicate Positive(counts: seq<Counts>)
  {
    |counts| == 4 && forall i :: 0 <= i < 4 ==> counts[i].ready > 0
  }

  /** A cluster is created and its workloads are up before the first call. */
  lemma Opening(reach: iset<State>, s: State, spec: Spec, counts: seq<Counts>) returns (t: State)
    requires Closed(reach) && s in reach && Initial(s) && Alone(s) && |counts| == 4
    ensures t in reach && New(t) && t.cluster.value.status == BlankStatus()
    ensures t.workloads == [Some(counts[0]), Some(counts[1]), Some(counts[2]), Some(counts[3])]
  {
    var c := Step(s, Create(spec));
    ReportedReached(reach, c, counts);
    ReportedState(c, counts);
    t := Reported(c, counts);
  }

  lemma CountsPresent(s: State, counts: seq<Counts>)
    requires Reporting(s) && |counts| == 4
    requires s.workloads == [Some(counts[0]), Some(counts[1]), Some(counts[2]), Some(counts[3])]
    ensures Present(s) == counts
  {
  }

  /** The first call brings it to Running. */
  lemma FirstCall(reach: iset<State>, t: State, counts: seq<Counts>) returns (r: State)
    requires Closed(reach) && t in reach && New(t) && t.cluster.value.status == BlankStatus() && Positive(counts)
    requires t.workloads == [Some(counts[0]), Some(counts[1]), Some(counts[2]), Some(counts[3])]
    ensures r in reach && Alone(r) && r.workloads == t.workloads && r.workers[0].pc == Done(After30Seconds) && r.cluster.Some?
    ensures var o := r.cluster.value;
            !o.deleting && FINALIZER in o.finalizers && o.status.counts == counts &&
            o.status.phase == Running && o.status.conditions == [Condition(Ready, true)]
  {
    var n := QuietFirstCall(t);
    r := Calm(t, n);
    CalmReached(reach, t, n, r);
    CountsPresent(t, counts);
    FirstReady(t, counts);
  }

  lemma FirstReady(t: State, counts: seq<Counts>)
    requires New(t) && t.cluster.value.status == BlankStatus() && Positive(counts) && Present(t) == counts
    ensures FirstStatus(t) == Status(Running, counts, [Condition(Ready, true)], t.cluster.value.generation)
  {
    assert AllReady(BlankStatus().(counts := counts));
    assert WithReady([], true) == [Condition(Ready, true)];
  }

  /** Other counts are reported, and the worker's turn comes again. */
  lemma NextTurn(reach: iset<State>, t: State, counts: seq<Counts>) returns (r: State)
    requires Closed(reach) && t in reach
    requires Alone(t) && |t.workloads| == 4 && |counts| == 4 && t.workers[0].pc == Done(After30Seconds)
    ensures r in reach && Alone(r) && r.workers[0].pc == Fetch && r.cluster == t.cluster
    ensures r.workloads == [Some(counts[0]), Some(counts[1]), Some(counts[2]), Some(counts[3])]
  {
    ReportedReached(reach, t, counts);
    ReportedState(t, counts);
    r := Step(Reported(t, counts), Act(0, Okay));
  }

  /** The next call leaves the phase and turns the condition. */
  lemma NextCall(reach: iset<State>, t: State, counts: seq<Counts>) returns (r: State)
    requires Closed(reach) && t in reach && Living(t) && Present(t) == counts && |counts| == 4 && !Positive(counts)
    requires t.cluster.value.status.phase == Running && t.cluster.value.status.conditions == [Condition(Ready, true)]
    ensures r in reach && r.cluster.Some? && Unready(r.cluster.value)
    ensures r.cluster.value.status.counts == counts && !r.cluster.value.deleting
  {
    var n := QuietCall(t);
    r := Calm(t, n);
    CalmReached(reach, t, n, r);
    assert !AllReady(t.cluster.value.status.(counts := counts));
    assert WithReady([Condition(Ready, true)], false) == [Condition(Ready, false)];
    assert Condition(Ready, false) in QuietStatus(t).conditions;
  }

  /** Running is not withdrawn: from every initial state, for every specification,
      all counts with which the cluster becomes ready and all with which it is not
      any more, there is a run - creation, one call, the new counts, one call -
      that ends with phase Running over these counts and a false Ready condition. */
  lemma RunningOutlivesReadiness(s: State, spec: Spec, up: seq<Counts>, down: seq<Counts>) returns (es: seq<Event>)
    requires Initial(s) && Alone(s) && Positive(up) && |down| == 4 && !Positive(down)
    ensures var r := Run(s, es, |es|).cluster;
            r.Some? && Unready(r.value) && r.value.status.counts == down && !r.value.deleting
  {
    var reach := Reachable(s);
    var t := Opening(reach, s, spec, up);
    var u := FirstCall(reach, t, up);
    var v := NextTurn(reach, u, down);
    CountsPresent(v, down);
    var r := NextCall(reach, v, down);
    es := RunOf(s, r);
  }
}
