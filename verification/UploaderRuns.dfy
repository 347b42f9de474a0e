/** What every interleaving of the uploader guarantees (upload.py). */
module UploaderRuns {
  import opened Uploader

  // ------------------------------------------------------------------ safety

  /** A success means that every file of the task was put and is stored. */
  lemma SuccessMeansStored(s: State, es: seq<Event>, n: nat, i: nat)
    requires Initial(s) && n <= |es|
    ensures var r := Run(s, es, n);
            i < |r.threads| && r.threads[i].status == Success ==>
            var t := r.threads[i];
            t.put == t.uploaded == t.total == |t.files| && forall f <- t.files :: f in r.bucket
  {
    InvariantRun(s, es, n);
    var r := Run(s, es, n);
    if i < |r.threads| {
      assert ThreadOk(Local(r.threads[i], r.bucket));
    }
  }

  lemma ProgressBounded(s: State, es: seq<Event>, n: nat, i: nat)
    requires Initial(s) && n <= |es|
    ensures var r := Run(s, es, n);
            i < |r.threads| ==>
            var t := r.threads[i];
            t.uploaded <= t.put <= |t.files| && (t.total != 0 ==> t.total == |t.files|)
  {
    InvariantRun(s, es, n);
    var r := Run(s, es, n);
    if i < |r.threads| {
      assert ThreadOk(Local(r.threads[i], r.bucket));
    }
  }

  /** Completion is reported only when every task is in a terminal state, though
      the statuses are read one by one and without locks; the completion flag
      is wrong only after the main thread has failed. */
  lemma CompletionIsTrue(s: State, es: seq<Event>, n: nat)
    requires Initial(s) && n <= |es|
    ensures var r := Run(s, es, n);
            (r.reported || (r.complete && !Crashed(r))) ==> AllTerminal(r, |r.threads|)
  {
    InvariantRun(s, es, n);
  }

  /** The main thread's action raises an exception. */
  predicate MainRaises(s: State, e: Event)
  {
    e == MainEvent(true) &&
    match s.main
    case Starting(j) => j < |s.threads|
    case Showing => true
    case LastShow => true
    case Reporting => true
    case LastLog => true
    case _ => false
  }

  ghost predicate MainRaisesAt(s: State, es: seq<Event>, k: nat)
    requires k < |es|
  {
    MainRaises(Run(s, es, k), es[k])
  }

  ghost predicate MainRaised(s: State, es: seq<Event>, n: nat)
    requires n <= |es|
  {
    exists k :: 0 <= k < n && MainRaisesAt(s, es, k)
  }

  lemma CrashStep(s: State, e: Event)
    ensures Crashed(Step(s, e)) <==> Crashed(s) || MainRaises(s, e)
  {
  }

  lemma RaisedLast(s: State, es: seq<Event>, n: nat)
    requires 0 < n <= |es|
    ensures MainRaised(s, es, n) <==> MainRaised(s, es, n - 1) || MainRaisesAt(s, es, n - 1)
  {
    if MainRaised(s, es, n) {
      var k :| 0 <= k < n && MainRaisesAt(s, es, k);
      if k < n - 1 { assert MainRaised(s, es, n - 1); }
    }
  }

  lemma CrashNext(s: State, es: seq<Event>, n: nat, before: State, after: State)
    requires 0 < n <= |es| && before == Run(s, es, n - 1) && after == Step(before, es[n - 1])
    requires Crashed(before) <==> MainRaised(s, es, n - 1)
    ensures Crashed(after) <==> MainRaised(s, es, n)
  {
    CrashStep(before, es[n - 1]);
    RaisedLast(s, es, n);
  }

  lemma {:induction false} CrashedExactly(s: State, es: seq<Event>, n: nat, r: State)
    requires Initial(s) && n <= |es| && r == Run(s, es, n)
    ensures Crashed(r) <==> MainRaised(s, es, n)
  {
    if n > 0 {
      var before := Run(s, es, n - 1);
      CrashedExactly(s, es, n - 1, before);
      CrashNext(s, es, n, before, r);
    }
  }

  lemma FlagAt(r: State)
    requires Watched(r)
    ensures r.complete && !AllTerminal(r, |r.threads|) <==> r.main == Exited && !AllTerminal(r, |r.threads|)
    ensures r.complete && !AllTerminal(r, |r.threads|) ==> Crashed(r) && !r.reported
  {
  }

  /** In every run the completion flag is set while a task is not in a terminal
      state, if and only if the main thread has raised an exception and left, with
      the task still running; and then completion has not been reported. */
  lemma FlagWrongExactly(s: State, es: seq<Event>, n: nat)
    requires Initial(s) && n <= |es|
    ensures var r := Run(s, es, n);
            && (Crashed(r) <==> MainRaised(s, es, n))
            && (r.complete && !AllTerminal(r, |r.threads|) <==> r.main == Exited && !AllTerminal(r, |r.threads|))
            && (r.complete && !AllTerminal(r, |r.threads|) ==> MainRaised(s, es, n) && !r.reported)
  {
    InvariantRun(s, es, n);
    CrashedExactly(s, es, n, Run(s, es, n));
    FlagAt(Run(s, es, n));
  }

  /** When the main thread fails, it marks completion whatever the tasks are doing. */
  lemma CrashMarksCompletion(s: State)
    requires Initial(s) && |s.threads| > 0
    ensures var r := Step(Step(s, MainEvent(true)), MainEvent(false));
            r.complete && !r.reported && r.main == Exited && r.threads == s.threads && !AllTerminal(r, |r.threads|)
  {
    assert Fresh(s.threads[0]);
  }

  // --------------------------------------------------------------- monotony

  predicate Later(a: Status, b: Status)
  {
    a == b || a == Waiting || (a == Running && Terminal(b)) || (a == Success && b == Failed)
  }

  predicate Forward(a: Thread, b: Thread)
  {
    Later(a.status, b.status) && a.uploaded <= b.uploaded && (a.total != 0 ==> b.total == a.total)
  }

  lemma ForwardStep(s: State, e: Event, i: nat)
    requires Invariant(s) && i < |s.threads|
    ensures |Step(s, e).threads| == |s.threads| && Forward(s.threads[i], Step(s, e).threads[i])
  {
    assert ThreadOk(Local(s.threads[i], s.bucket));
    if e.TaskEvent? && e.i == i {
      StatusMoves(Local(s.threads[i], s.bucket), e.o);
    }
  }

  lemma ForwardTransitive(a: Thread, b: Thread, c: Thread)
    requires Forward(a, b) && Forward(b, c)
    ensures Forward(a, c)
  {
  }

  lemma {:induction false} SameThreads(s: State, es: seq<Event>, n: nat)
    requires n <= |es|
    ensures |Run(s, es, n).threads| == |s.threads|
  {
    if n > 0 { SameThreads(s, es, n - 1); }
  }

  /** Thread `i` after `n` events. */
  ghost function At(s: State, es: seq<Event>, n: nat, i: nat): Thread
    requires n <= |es| && i < |s.threads|
  {
    SameThreads(s, es, n);
    Run(s, es, n).threads[i]
  }

  lemma NextForward(s: State, es: seq<Event>, n: nat, i: nat)
    requires Initial(s) && n < |es| && i < |s.threads|
    ensures Forward(At(s, es, n, i), At(s, es, n + 1, i))
  {
    InvariantRun(s, es, n);
    SameThreads(s, es, n);
    ForwardStep(Run(s, es, n), es[n], i);
  }

  /** Between any two moments of any run: a status goes only from waiting to
      running to success or failure, and from success only to failure; the
      number of uploaded files never decreases; a total once set stays. */
  lemma {:induction false} RunsForward(s: State, es: seq<Event>, n: nat, m: nat, i: nat)
    requires Initial(s) && n <= m <= |es| && i < |s.threads|
    ensures Forward(At(s, es, n, i), At(s, es, m, i))
    decreases m
  {
    if n < m {
      RunsForward(s, es, n, m - 1, i);
      ForwardExtend(s, es, At(s, es, n, i), m - 1, i);
    }
  }

  lemma ForwardExtend(s: State, es: seq<Event>, t: Thread, m: nat, i: nat)
    requires Initial(s) && m < |es| && i < |s.threads| && Forward(t, At(s, es, m, i))
    ensures Forward(t, At(s, es, m + 1, i))
  {
    NextForward(s, es, m, i);
    ForwardTransitive(t, At(s, es, m, i), At(s, es, m + 1, i));
  }

  /** Terminal states are never left for others. */
  lemma TerminalForever(s: State, es: seq<Event>, n: nat, m: nat, i: nat)
    requires Initial(s) && n <= m <= |es| && i < |s.threads|
    ensures Terminal(At(s, es, n, i).status) ==> Terminal(At(s, es, m, i).status)
    ensures At(s, es, n, i).status == Failed ==> At(s, es, m, i).status == Failed
  {
    RunsForward(s, es, n, m, i);
  }

  // -------------------------------------------------- when a success is lost

  /** The event at which writing the log line of a success fails. */
  predicate FinalLogFails(s: State, e: Event, i: nat)
    requires i < |s.threads|
  {
    e.TaskEvent? && e.i == i && s.threads[i].pc == LogSuccess && Raises(e.o)
  }

  predicate Settled(t: Thread)
  {
    t.status == Success ==> t.pc == LogSuccess || t.pc == Ended
  }

  lemma SettledStep(s: State, e: Event, i: nat)
    requires Invariant(s) && i < |s.threads| && Settled(s.threads[i]) && !FinalLogFails(s, e, i)
    ensures |Step(s, e).threads| == |s.threads| && Settled(Step(s, e).threads[i])
    ensures s.threads[i].status == Success ==> Step(s, e).threads[i].status == Success
  {
    assert ThreadOk(Local(s.threads[i], s.bucket));
  }

  /** The event after `k` others is the one at which that log line fails. */
  ghost predicate LogRaises(s: State, es: seq<Event>, k: nat, i: nat)
    requires k < |es| && i < |s.threads|
  {
    es[k].TaskEvent? && es[k].i == i && At(s, es, k, i).pc == LogSuccess && Raises(es[k].o)
  }

  ghost predicate LogHolds(s: State, es: seq<Event>, n: nat, i: nat)
    requires n <= |es| && i < |s.threads|
  {
    forall k :: 0 <= k < n ==> !LogRaises(s, es, k, i)
  }

  lemma NextSettled(s: State, es: seq<Event>, n: nat, i: nat)
    requires Initial(s) && n < |es| && i < |s.threads| && Settled(At(s, es, n, i)) && LogHolds(s, es, n + 1, i)
    ensures Settled(At(s, es, n + 1, i))
    ensures At(s, es, n, i).status == Success ==> At(s, es, n + 1, i).status == Success
  {
    InvariantRun(s, es, n);
    SameThreads(s, es, n);
    assert !LogRaises(s, es, n, i);
    SettledStep(Run(s, es, n), es[n], i);
  }

  lemma {:induction false} AlwaysSettled(s: State, es: seq<Event>, n: nat, i: nat)
    requires Initial(s) && n <= |es| && i < |s.threads| && LogHolds(s, es, n, i)
    ensures Settled(At(s, es, n, i))
  {
    if n == 0 {
      assert Fresh(s.threads[i]);
    } else {
      AlwaysSettled(s, es, n - 1, i);
      NextSettled(s, es, n - 1, i);
    }
  }

  /** While the log can be written, a success is final. */
  lemma {:induction false} SuccessKept(s: State, es: seq<Event>, n: nat, m: nat, i: nat)
    requires Initial(s) && n <= m <= |es| && i < |s.threads| && LogHolds(s, es, m, i)
    ensures At(s, es, n, i).status == Success ==> At(s, es, m, i).status == Success
    decreases m
  {
    if n < m {
      SuccessKept(s, es, n, m - 1, i);
      AlwaysSettled(s, es, m - 1, i);
      NextSettled(s, es, m - 1, i);
    }
  }

  lemma RaisedStep(s: State, es: seq<Event>, k: nat, i: nat)
    requires Initial(s) && k < |es| && i < |s.threads| && LogRaises(s, es, k, i)
    ensures At(s, es, k + 1, i).pc == Fail && At(s, es, k + 1, i).status == Success
  {
    InvariantRun(s, es, k);
    SameThreads(s, es, k);
    var r := Run(s, es, k);
    assert ThreadOk(Local(r.threads[i], r.bucket));
  }

  /** A thread that has started changes only by its own actions. */
  lemma OwnActionsOnly(s: State, e: Event, i: nat)
    requires Invariant(s) && i < |s.threads| && s.threads[i].pc != NotStarted && !(e.TaskEvent? && e.i == i)
    ensures |Step(s, e).threads| == |s.threads| && Step(s, e).threads[i] == s.threads[i]
  {
  }

  lemma NextUntouched(s: State, es: seq<Event>, n: nat, i: nat)
    requires Initial(s) && n < |es| && i < |s.threads| && At(s, es, n, i).pc != NotStarted
    requires !(es[n].TaskEvent? && es[n].i == i)
    ensures At(s, es, n + 1, i) == At(s, es, n, i)
  {
    InvariantRun(s, es, n);
    SameThreads(s, es, n);
    OwnActionsOnly(Run(s, es, n), es[n], i);
  }

  lemma {:induction false} Untouched(s: State, es: seq<Event>, n: nat, m: nat, i: nat)
    requires Initial(s) && n <= m <= |es| && i < |s.threads| && At(s, es, n, i).pc != NotStarted
    requires forall l :: n <= l < m ==> !(es[l].TaskEvent? && es[l].i == i)
    ensures At(s, es, m, i) == At(s, es, n, i)
    decreases m
  {
    if n < m {
      Untouched(s, es, n, m - 1, i);
      NextUntouched(s, es, m - 1, i);
    }
  }

  lemma FailStep(s: State, e: Event, i: nat)
    requires Invariant(s) && i < |s.threads| && s.threads[i].pc == Fail
    ensures |Step(s, e).threads| == |s.threads|
    ensures if e.TaskEvent? && e.i == i then Step(s, e).threads[i].status == Failed else Step(s, e).threads[i] == s.threads[i]
  {
    if !(e.TaskEvent? && e.i == i) { OwnActionsOnly(s, e, i); }
  }

  lemma NextFail(s: State, es: seq<Event>, n: nat, i: nat)
    requires Initial(s) && n < |es| && i < |s.threads| && At(s, es, n, i).pc == Fail
    ensures if es[n].TaskEvent? && es[n].i == i then At(s, es, n + 1, i).status == Failed
            else At(s, es, n + 1, i).pc == Fail
  {
    InvariantRun(s, es, n);
    SameThreads(s, es, n);
    FailStep(Run(s, es, n), es[n], i);
  }

  /** In the except branch, a thread is about to fail its task or has done so. */
  predicate Lost(t: Thread)
  {
    t.status == Failed || t.pc == Fail
  }

  lemma LostNext(s: State, es: seq<Event>, n: nat, i: nat)
    requires Initial(s) && n < |es| && i < |s.threads| && Lost(At(s, es, n, i))
    ensures Lost(At(s, es, n + 1, i))
  {
    if At(s, es, n, i).status == Failed { TerminalForever(s, es, n, n + 1, i); } else { NextFail(s, es, n, i); }
  }

  lemma {:induction false} Doomed(s: State, es: seq<Event>, n: nat, m: nat, i: nat)
    requires Initial(s) && n <= m <= |es| && i < |s.threads| && Lost(At(s, es, n, i))
    ensures Lost(At(s, es, m, i))
    decreases m
  {
    if n < m {
      Doomed(s, es, n, m - 1, i);
      LostNext(s, es, m - 1, i);
    }
  }

  /** The log line of the task's success failed, and the thread has acted since. */
  ghost predicate LossBetween(s: State, es: seq<Event>, m: nat, i: nat)
    requires m <= |es| && i < |s.threads|
  {
    exists k, l :: 0 <= k < l < m && LogRaises(s, es, k, i) && es[l].TaskEvent? && es[l].i == i
  }

  lemma ActedOnce(s: State, es: seq<Event>, k: nat, l: nat, i: nat)
    requires Initial(s) && k < l < |es| && i < |s.threads| && LogRaises(s, es, k, i) && es[l].TaskEvent? && es[l].i == i
    ensures At(s, es, l + 1, i).status == Failed
  {
    RaisedStep(s, es, k, i);
    Doomed(s, es, k + 1, l, i);
    if At(s, es, l, i).status == Failed { TerminalForever(s, es, l, l + 1, i); } else { NextFail(s, es, l, i); }
  }

  lemma LossFails(s: State, es: seq<Event>, m: nat, i: nat)
    requires Initial(s) && m <= |es| && i < |s.threads| && LossBetween(s, es, m, i)
    ensures At(s, es, m, i).status == Failed
  {
    var k, l :| 0 <= k < l < m && LogRaises(s, es, k, i) && es[l].TaskEvent? && es[l].i == i;
    ActedOnce(s, es, k, l, i);
    TerminalForever(s, es, l + 1, m, i);
  }

  lemma FailedWasLost(s: State, es: seq<Event>, n: nat, m: nat, i: nat)
    requires Initial(s) && n <= m <= |es| && i < |s.threads|
    requires At(s, es, n, i).status == Success && At(s, es, m, i).status == Failed
    ensures LossBetween(s, es, m, i)
  {
    if LogHolds(s, es, m, i) { SuccessKept(s, es, n, m, i); }
    var k :| 0 <= k < m && LogRaises(s, es, k, i);
    RaisedStep(s, es, k, i);
    if forall l :: k + 1 <= l < m ==> !(es[l].TaskEvent? && es[l].i == i) { Untouched(s, es, k + 1, m, i); }
    var l :| k + 1 <= l < m && es[l].TaskEvent? && es[l].i == i;
    assert 0 <= k < l < m && LogRaises(s, es, k, i) && es[l].TaskEvent? && es[l].i == i;
  }

  /** A task that was successful is failed later, if and only if writing its last
      log line raised and the thread acted once more: in every run. */
  lemma SuccessLostExactly(s: State, es: seq<Event>, n: nat, m: nat, i: nat)
    requires Initial(s) && n <= m <= |es| && i < |s.threads| && At(s, es, n, i).status == Success
    ensures At(s, es, m, i).status == Failed <==> LossBetween(s, es, m, i)
  {
    if At(s, es, m, i).status == Failed { FailedWasLost(s, es, n, m, i); }
    if LossBetween(s, es, m, i) { LossFails(s, es, m, i); }
  }

  // ---- and such runs exist

  lemma {:induction false} RunConcat(s: State, a: seq<Event>, b: seq<Event>, n: nat)
    requires n <= |b|
    ensures Run(s, a + b, |a| + n) == Run(Run(s, a, |a|), b, n)
    decreases n
  {
    hide Step;
    if n == 0 {
      RunPrefix(s, a, b, |a|);
    } else {
      RunConcat(s, a, b, n - 1);
    }
  }

  lemma {:induction false} RunPrefix(s: State, a: seq<Event>, b: seq<Event>, n: nat)
    requires n <= |a|
    ensures Run(s, a + b, n) == Run(s, a, n)
  {
    hide Step;
    if n > 0 { RunPrefix(s, a, b, n - 1); }
  }

  /** The first `n` actions of the main thread start as many threads. */
  function Starts(n: nat): (es: seq<Event>)
    ensures |es| == n && forall k :: 0 <= k < n ==> es[k] == MainEvent(false)
  {
    seq(n, _ => MainEvent(false))
  }

  lemma {:induction false} Started(s: State, es: seq<Event>, n: nat)
    requires Initial(s) && n <= |s.threads| && n <= |es| && forall k :: 0 <= k < n ==> es[k] == MainEvent(false)
    ensures var r := Run(s, es, n);
            && r.main == Starting(n) && |r.threads| == |s.threads|
            && forall j :: 0 <= j < |s.threads| ==> r.threads[j] == if j < n then s.threads[j].(pc := Begin) else s.threads[j]
  {
    if n > 0 { Started(s, es, n - 1); }
  }

  /** A thread on its own, with what its actions meet. */
  function Alone(l: Local, os: seq<Outcome>, n: nat): Local
    requires n <= |os|
  {
    if n == 0 then l else ThreadStep(Alone(l, os, n - 1), os[n - 1])
  }

  function TaskEvents(i: nat, os: seq<Outcome>): (es: seq<Event>)
    ensures |es| == |os| && forall k :: 0 <= k < |os| ==> es[k] == TaskEvent(i, os[k])
  {
    seq(|os|, k requires 0 <= k < |os| => TaskEvent(i, os[k]))
  }

  lemma {:induction false} RunsAlone(s: State, i: nat, os: seq<Outcome>, n: nat)
    requires i < |s.threads| && n <= |os|
    ensures var r := Run(s, TaskEvents(i, os), n);
            |r.threads| == |s.threads| && Local(r.threads[i], r.bucket) == Alone(Local(s.threads[i], s.bucket), os, n)
  {
    if n > 0 { RunsAlone(s, i, os, n - 1); }
  }

  /** What a task meets whose last log line cannot be written: a file is stored,
      or a directory with this one file. */
  function LossOutcomes(kind: Kind, file: string): seq<Outcome>
  {
    if kind == FileTask then [Fine, Fine, Fine, Fine, Fine, Raise, Fine]
    else [Fine, Listed([file]), Fine, Fine, Fine, Fine, Fine, Raise, Fine]
  }

  lemma AloneNext(l: Local, os: seq<Outcome>, n: nat, before: Local)
    requires n < |os| && Alone(l, os, n) == before
    ensures Alone(l, os, n + 1) == ThreadStep(before, os[n])
  {
  }

  lemma FileLoss(l: Local, os: seq<Outcome>)
    requires l.t.kind == FileTask && |l.t.files| == 1 && l.t.pc == Begin && os == LossOutcomes(FileTask, "")
    ensures Alone(l, os, 5).t.status == Success && Alone(l, os, 7).t.status == Failed
  {
    AloneNext(l, os, 0, l);
    AloneNext(l, os, 1, Alone(l, os, 1));
    assert Alone(l, os, 2).t.pc == Put(0) && Alone(l, os, 2).t.files == l.t.files;
    AloneNext(l, os, 2, Alone(l, os, 2));
    AloneNext(l, os, 3, Alone(l, os, 3));
    assert Alone(l, os, 4).t.pc == Succeed;
    AloneNext(l, os, 4, Alone(l, os, 4));
    AloneNext(l, os, 5, Alone(l, os, 5));
    AloneNext(l, os, 6, Alone(l, os, 6));
  }

  lemma DirLoss(l: Local, os: seq<Outcome>, file: string)
    requires l.t.kind == DirTask && l.t.pc == Begin && os == LossOutcomes(DirTask, file)
    ensures Alone(l, os, 7).t.status == Success && Alone(l, os, 9).t.status == Failed
  {
    AloneNext(l, os, 0, l);
    AloneNext(l, os, 1, Alone(l, os, 1));
    assert Alone(l, os, 2).t.pc == Announce && Alone(l, os, 2).t.files == [file] && Alone(l, os, 2).t.kind == DirTask;
    AloneNext(l, os, 2, Alone(l, os, 2));
    AloneNext(l, os, 3, Alone(l, os, 3));
    AloneNext(l, os, 4, Alone(l, os, 4));
    assert Alone(l, os, 5).t.pc == LogProgress(1) && Alone(l, os, 5).t.files == [file] && Alone(l, os, 5).t.kind == DirTask;
    DirLossEnd(l, os, file);
  }

  lemma DirLossEnd(l: Local, os: seq<Outcome>, file: string)
    requires os == LossOutcomes(DirTask, file)
    requires Alone(l, os, 5).t.pc == LogProgress(1) && Alone(l, os, 5).t.files == [file] && Alone(l, os, 5).t.kind == DirTask
    ensures Alone(l, os, 7).t.status == Success && Alone(l, os, 9).t.status == Failed
  {
    AloneNext(l, os, 5, Alone(l, os, 5));
    AloneNext(l, os, 6, Alone(l, os, 6));
    AloneNext(l, os, 7, Alone(l, os, 7));
    AloneNext(l, os, 8, Alone(l, os, 8));
  }

  /** A run that loses the success of task `i`. */
  function LossRun(s: State, i: nat): seq<Event>
    requires i < |s.threads|
  {
    Starts(i + 1) + TaskEvents(i, LossOutcomes(s.threads[i].kind, ""))
  }

  lemma JoinedRun(s: State, a: seq<Event>, b: seq<Event>, es: seq<Event>, k: nat, mid: State)
    requires es == a + b && k <= |b| && mid == Run(s, a, |a|)
    ensures Run(s, es, |a| + k) == Run(mid, b, k)
  {
    RunConcat(s, a, b, k);
  }

  /** A thread after any beginning and `k` of its own actions. */
  lemma JoinedThread(s: State, a: seq<Event>, i: nat, os: seq<Outcome>, es: seq<Event>, k: nat, mid: State)
    requires i < |s.threads| && k <= |os| && es == a + TaskEvents(i, os)
    requires mid == Run(s, a, |a|) && |mid.threads| == |s.threads|
    ensures At(s, es, |a| + k, i) == Alone(Local(mid.threads[i], mid.bucket), os, k).t
  {
    JoinedRun(s, a, TaskEvents(i, os), es, k, mid);
    RunsAlone(mid, i, os, k);
  }

  /** These outcomes lead a thread to its success and, two actions later, to its failure. */
  predicate Loses(l: Local, os: seq<Outcome>)
  {
    |os| >= 2 && Alone(l, os, |os| - 2).t.status == Success && Alone(l, os, |os|).t.status == Failed
  }

  lemma JoinedStatus(s: State, a: seq<Event>, i: nat, os: seq<Outcome>, es: seq<Event>, k: nat, mid: State, n: nat)
    requires i < |s.threads| && k <= |os| && es == a + TaskEvents(i, os) && n == |a| + k
    requires mid == Run(s, a, |a|) && |mid.threads| == |s.threads|
    ensures n <= |es| && At(s, es, n, i).status == Alone(Local(mid.threads[i], mid.bucket), os, k).t.status
  {
    JoinedThread(s, a, i, os, es, k, mid);
  }

  lemma LossThread(s: State, i: nat) returns (mid: State, os: seq<Outcome>)
    requires Initial(s) && i < |s.threads|
    ensures LossRun(s, i) == Starts(i + 1) + TaskEvents(i, os)
    ensures mid == Run(s, Starts(i + 1), i + 1) && |mid.threads| == |s.threads|
    ensures Loses(Local(mid.threads[i], mid.bucket), os)
  {
    mid := LossStart(s, i, Starts(i + 1));
    os := LossOutcomes(s.threads[i].kind, "");
    LossAlone(Local(mid.threads[i], mid.bucket), os);
  }

  /** Whatever the tasks: each of them can be successful and then failed. */
  lemma SuccessLost(s: State, i: nat) returns (n: nat)
    requires Initial(s) && i < |s.threads|
    ensures n <= |LossRun(s, i)| && At(s, LossRun(s, i), n, i).status == Success
    ensures At(s, LossRun(s, i), |LossRun(s, i)|, i).status == Failed
  {
    var mid, os := LossThread(s, i);
    n := i + 1 + (|os| - 2);
    JoinedStatus(s, Starts(i + 1), i, os, LossRun(s, i), |os| - 2, mid, n);
    JoinedStatus(s, Starts(i + 1), i, os, LossRun(s, i), |os|, mid, |LossRun(s, i)|);
  }

  lemma LossStart(s: State, i: nat, a: seq<Event>) returns (mid: State)
    requires Initial(s) && i < |s.threads| && a == Starts(i + 1)
    ensures mid == Run(s, a, |a|) && |mid.threads| == |s.threads|
    ensures var t := mid.threads[i]; t.pc == Begin && t.kind == s.threads[i].kind && (t.kind == FileTask ==> |t.files| == 1)
  {
    mid := Run(s, a, |a|);
    Started(s, a, |a|);
    assert Fresh(s.threads[i]);
  }

  lemma LossAlone(l: Local, os: seq<Outcome>)
    requires l.t.pc == Begin && (l.t.kind == FileTask ==> |l.t.files| == 1) && os == LossOutcomes(l.t.kind, "")
    ensures Loses(l, os)
  {
    if l.t.kind == FileTask { FileLoss(l, os); } else { DirLoss(l, os, ""); }
  }

  /** A task fails only if something it did raised. */
  lemma {:induction false} FailureHasCause(s: State, es: seq<Event>, n: nat, i: nat)
    requires Initial(s) && n <= |es| && i < |s.threads|
    requires forall k :: 0 <= k < n && es[k].TaskEvent? && es[k].i == i ==> !Raises(es[k].o)
    ensures !Failing(At(s, es, n, i))
  {
    if n == 0 {
      assert Fresh(s.threads[i]);
    } else {
      FailureHasCause(s, es, n - 1, i);
      NextClean(s, es, n - 1, i);
    }
  }

  lemma NextClean(s: State, es: seq<Event>, n: nat, i: nat)
    requires Initial(s) && n < |es| && i < |s.threads| && !Failing(At(s, es, n, i))
    requires es[n].TaskEvent? && es[n].i == i ==> !Raises(es[n].o)
    ensures !Failing(At(s, es, n + 1, i))
  {
    InvariantRun(s, es, n);
    SameThreads(s, es, n);
    CleanStep(Run(s, es, n), es[n], i);
  }

  /** On the way through the except branch, or past it. */
  predicate Failing(t: Thread)
  {
    t.status == Failed || t.pc == Fail || t.pc == LogFailure
  }

  lemma CleanStep(s: State, e: Event, i: nat)
    requires Invariant(s) && i < |s.threads| && (e.TaskEvent? && e.i == i ==> !Raises(e.o)) && !Failing(s.threads[i])
    ensures |Step(s, e).threads| == |s.threads| && !Failing(Step(s, e).threads[i])
  {
    assert ThreadOk(Local(s.threads[i], s.bucket));
  }

  // ----------------------------------------------------------------- progress

  /** The actions a thread has made so far. */
  function Actions(s: State, es: seq<Event>, n: nat, i: nat): nat
    requires n <= |es|
  {
    if n == 0 then 0
    else
      var before := Run(s, es, n - 1);
      Actions(s, es, n - 1, i) +
      if es[n - 1].TaskEvent? && es[n - 1].i == i && i < |before.threads| && Alive(before.threads[i]) then 1 else 0
  }

  lemma PositionStep(s: State, e: Event, i: nat)
    requires Invariant(s) && i < |s.threads|
    ensures |Step(s, e).threads| == |s.threads|
    ensures Position(Step(s, e).threads[i]) >=
            Position(s.threads[i]) + if e.TaskEvent? && e.i == i && Alive(s.threads[i]) then 1 else 0
  {
    assert ThreadOk(Local(s.threads[i], s.bucket));
    if e.TaskEvent? && e.i == i && Alive(s.threads[i]) {
      PositionAdvances(Local(s.threads[i], s.bucket), e.o);
    } else if e.MainEvent? && s.main.Starting? && s.main.j == i {
      assert s.threads[i].pc == NotStarted;
    }
  }

  lemma PositionBounded(l: Local)
    requires ThreadOk(l)
    ensures Position(l.t) <= 3 * |l.t.files| + 8
  {
  }

  lemma {:induction false} ActionsBehindPosition(s: State, es: seq<Event>, n: nat, i: nat)
    requires Initial(s) && n <= |es| && i < |s.threads|
    ensures |Run(s, es, n).threads| == |s.threads|
    ensures Actions(s, es, n, i) <= Position(Run(s, es, n).threads[i])
  {
    if n > 0 {
      ActionsBehindPosition(s, es, n - 1, i);
      InvariantRun(s, es, n - 1);
      PositionStep(Run(s, es, n - 1), es[n - 1], i);
    }
  }

  /** Every thread ends: it makes at most three actions for each file and eight
      others, and where it can make no more its task is in a terminal state. */
  lemma ThreadsEnd(s: State, es: seq<Event>, n: nat, i: nat)
    requires Initial(s) && n <= |es| && i < |s.threads|
    ensures |Run(s, es, n).threads| == |s.threads|
    ensures var t := Run(s, es, n).threads[i];
            && Actions(s, es, n, i) <= 3 * |t.files| + 8
            && (t.pc == Ended ==> Terminal(t.status))
  {
    ActionsBehindPosition(s, es, n, i);
    InvariantRun(s, es, n);
    var r := Run(s, es, n);
    assert ThreadOk(Local(r.threads[i], r.bucket));
    PositionBounded(Local(r.threads[i], r.bucket));
  }

  // -------------------------------------------------------- the monitor's end

  /** The actions the main thread makes from moment `n` on. */
  function MainCount(es: seq<Event>, n: nat, m: nat): nat
    requires n <= m <= |es|
    decreases m
  {
    if n == m then 0 else MainCount(es, n, m - 1) + if es[m - 1].MainEvent? then 1 else 0
  }

  /** How many actions the main thread is from its end, all tasks being done. */
  function Distance(s: State): nat
  {
    var n := |s.threads|;
    match s.main
    case Starting(_) => n + 7
    case Showing => n + 6
    case Scanning(j) => if j <= n then n - j + 5 else 5
    case Sleeping => if s.complete then 4 else n + 7
    case LastShow => 3
    case Reporting => 2
    case LastLog => 1
    case _ => 0
  }

  /** All tasks are in a terminal state and the main thread is on its way. */
  predicate Closing(s: State)
  {
    AllTerminal(s, |s.threads|) && !Crashed(s) && (s.main == LastLog || s.main == Finished ==> s.reported)
  }

  /** A task whose thread is still to be started is not done. */
  lemma NextIsWaiting(s: State)
    requires Invariant(s) && s.main.Starting? && s.main.j < |s.threads|
    ensures !AllTerminal(s, |s.threads|)
  {
    assert ThreadOk(Local(s.threads[s.main.j], s.bucket));
  }

  lemma AllStarted(s: State)
    requires Invariant(s) && Closing(s) && s.main.Starting?
    ensures s.main.j == |s.threads|
  {
    if s.main.j < |s.threads| { NextIsWaiting(s); }
  }

  lemma MainCloses(s: State)
    requires Invariant(s) && Closing(s)
    ensures Closing(MainStep(s, false)) && |MainStep(s, false).threads| == |s.threads|
    ensures Distance(MainStep(s, false)) == if Distance(s) == 0 then 0 else Distance(s) - 1
  {
    if s.main.Starting? { AllStarted(s); }
  }

  lemma TasksStayClosed(s: State, i: nat, o: Outcome)
    requires Invariant(s) && Closing(s)
    ensures Closing(Step(s, TaskEvent(i, o))) && |Step(s, TaskEvent(i, o)).threads| == |s.threads|
    ensures Distance(Step(s, TaskEvent(i, o))) == Distance(s)
  {
    if i < |s.threads| {
      assert ThreadOk(Local(s.threads[i], s.bucket));
      StatusMoves(Local(s.threads[i], s.bucket), o);
    }
  }

  lemma {:induction false} ClosingStart(s: State, es: seq<Event>, n: nat)
    requires Initial(s) && n <= |es|
    ensures Run(s, es, n).main in {LastLog, Finished} ==> Run(s, es, n).reported
  {
    if n > 0 { ClosingStart(s, es, n - 1); }
  }

  lemma ClosingStep(r: State, e: Event, u: State)
    requires Invariant(r) && Closing(r) && e != MainEvent(true) && u == Step(r, e)
    ensures Closing(u)
    ensures Distance(u) == if e.TaskEvent? then Distance(r) else if Distance(r) == 0 then 0 else Distance(r) - 1
  {
    match e
    case MainEvent(_) => MainCloses(r);
    case TaskEvent(i, o) => TasksStayClosed(r, i, o);
  }

  /** The main thread has come nearer its end by at least so many actions, or is there. */
  predicate Nearer(start: nat, r: State, count: nat)
  {
    Closing(r) && (Distance(r) == 0 || Distance(r) + count <= start)
  }

  /** One step of a run. */
  ghost predicate Moved(r: State, e: Event, u: State)
  {
    Invariant(r) && u == Step(r, e)
  }

  lemma NearerNext(start: nat, r: State, count: nat, e: Event, u: State, next: nat)
    requires Nearer(start, r, count) && Moved(r, e, u) && e != MainEvent(true)
    requires next == count + if e.MainEvent? then 1 else 0
    ensures Nearer(start, u, next)
  {
    ClosingStep(r, e, u);
  }

  /** The states of a run, one after the other. */
  ghost predicate Trace(states: seq<State>, es: seq<Event>)
  {
    |states| == |es| + 1 && forall k :: 0 <= k < |es| ==> Moved(states[k], es[k], states[k + 1])
  }

  ghost function States(s: State, es: seq<Event>): (states: seq<State>)
    ensures |states| == |es| + 1 && forall k :: 0 <= k <= |es| ==> states[k] == Run(s, es, k)
  {
    seq(|es| + 1, k requires 0 <= k <= |es| => Run(s, es, k))
  }

  lemma StatesTrace(s: State, es: seq<Event>)
    requires Initial(s)
    ensures Trace(States(s, es), es)
  {
    forall k | 0 <= k < |es| ensures Moved(States(s, es)[k], es[k], States(s, es)[k + 1]) {
      InvariantRun(s, es, k);
    }
  }

  lemma {:induction false} Closes(states: seq<State>, es: seq<Event>, n: nat, m: nat)
    requires Trace(states, es) && n <= m <= |es| && Closing(states[n])
    requires forall k :: n <= k < m ==> es[k] != MainEvent(true)
    ensures Nearer(Distance(states[n]), states[m], MainCount(es, n, m))
    decreases m
  {
    if n < m {
      Closes(states, es, n, m - 1);
      NearerNext(Distance(states[n]), states[m - 1], MainCount(es, n, m - 1), es[m - 1], states[m], MainCount(es, n, m));
    }
  }

  /** A closing state is no further than this from the end. */
  lemma DistanceBounded(r: State)
    ensures Distance(r) <= |r.threads| + 7
  {
  }

  lemma AtEnd(start: nat, r: State, count: nat)
    requires Nearer(start, r, count) && start <= count && Watched(r)
    ensures r.main == Finished && r.complete && r.reported
  {
  }

  lemma ClosingRun(s: State, es: seq<Event>, n: nat, r: State)
    requires Initial(s) && n <= |es| && r == Run(s, es, n)
    requires AllTerminal(r, |r.threads|) && !Crashed(r)
    ensures Closing(r) && Distance(r) <= |s.threads| + 7
  {
    ClosingStart(s, es, n);
    SameThreads(s, es, n);
    DistanceBounded(r);
  }

  lemma TraceEnds(states: seq<State>, es: seq<Event>, n: nat, m: nat)
    requires Trace(states, es) && n <= m <= |es| && Closing(states[n]) && Watched(states[m])
    requires forall k :: n <= k < m ==> es[k] != MainEvent(true)
    requires MainCount(es, n, m) >= Distance(states[n])
    ensures states[m].main == Finished && states[m].complete && states[m].reported
  {
    Closes(states, es, n, m);
    AtEnd(Distance(states[n]), states[m], MainCount(es, n, m));
  }

  /** Once all tasks are in a terminal state, and wherever the main thread is,
      it ends by reporting completion within seven actions more than there are
      tasks - in every interleaving with what the threads still do. */
  lemma MonitorEnds(s: State, es: seq<Event>, n: nat, m: nat)
    requires Initial(s) && n <= m <= |es|
    requires AllTerminal(Run(s, es, n), |Run(s, es, n).threads|) && !Crashed(Run(s, es, n))
    requires forall k :: n <= k < m ==> es[k] != MainEvent(true)
    requires MainCount(es, n, m) >= |s.threads| + 7
    ensures Run(s, es, m).main == Finished && Run(s, es, m).complete && Run(s, es, m).reported
  {
    StatesTrace(s, es);
    InvariantRun(s, es, m);
    ClosingRun(s, es, n, Run(s, es, n));
    TraceEnds(States(s, es), es, n, m);
  }
}
