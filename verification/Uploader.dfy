/** The concurrent uploader (upload.py): one thread per task, and a main thread
    that watches their statuses without taking their locks. Every interleaving
    of the threads' atomic actions is a run of this machine. */
module Uploader {

  datatype Status = Waiting | Running | Success | Failed

  predicate Terminal(s: Status)
  {
    s == Success || s == Failed
  }

  datatype Kind = FileTask | DirTask

  /** What a thread does next. */
  datatype Pc =
    | NotStarted
    | Begin              // update_status(RUNNING)
    | Inspect            // the file exists; the directory is listed
    | Announce           // update_progress(0, total), directories only
    | WarnEmpty          // log, empty directories only
    | Put(i: nat)        // fput_object of file i
    | Progress(i: nat)   // update_progress(i, total)
    | LogProgress(i: nat)
    | Succeed            // update_status(SUCCESS)
    | LogSuccess
    | Fail               // the except branch: update_status(FAILED)
    | LogFailure
    | Ended

  /** A task and its thread. `files` are the names of the objects to store. */
  datatype Thread = Thread(kind: Kind, pc: Pc, files: seq<string>, put: nat, status: Status, uploaded: nat, total: nat)

  /** How an action of the outside world ends: a listing names the objects, and a
      store may raise after it has taken effect. */
  datatype Outcome = Fine | Listed(files: seq<string>) | Raise | RaiseLate

  predicate Raises(o: Outcome)
  {
    o == Raise || o == RaiseLate
  }

  /** A thread together with the bucket all threads share. */
  datatype Local = Local(t: Thread, bucket: set<string>)

  predicate Alive(t: Thread)
  {
    t.pc != NotStarted && t.pc != Ended
  }

  function ListedFiles(t: Thread, o: Outcome): seq<string>
  {
    if t.kind == FileTask then t.files else if o.Listed? then o.files else []
  }

  function ThreadStep(l: Local, o: Outcome): Local
  {
    var t := l.t;
    match t.pc
    case NotStarted => l
    case Begin => l.(t := t.(status := Running, pc := Inspect))
    case Inspect =>
      if Raises(o) then l.(t := t.(pc := Fail))
      else l.(t := t.(files := ListedFiles(t, o), pc := if t.kind == FileTask then Put(0) else Announce))
    case Announce => l.(t := t.(uploaded := 0, total := |t.files|, pc := if t.files == [] then WarnEmpty else Put(0)))
    case WarnEmpty => l.(t := t.(pc := if Raises(o) then Fail else Succeed))
    case Put(i) => PutStep(l, i, o)
    case Progress(i) =>
      l.(t := t.(uploaded := i, total := |t.files|, pc := if t.kind == FileTask then Succeed else LogProgress(i)))
    case LogProgress(i) => l.(t := t.(pc := if Raises(o) then Fail else if i >= |t.files| then Succeed else Put(i)))
    case Succeed => l.(t := t.(status := Success, pc := if t.kind == DirTask && t.files == [] then Ended else LogSuccess))
    case LogSuccess => l.(t := t.(pc := if Raises(o) then Fail else Ended))
    case Fail => l.(t := t.(status := Failed, pc := LogFailure))
    case LogFailure => l.(t := t.(pc := Ended))
    case Ended => l
  }

  function PutStep(l: Local, i: nat, o: Outcome): Local
  {
    if i >= |l.t.files| || o == Raise then l.(t := l.t.(pc := Fail))
    else if o == RaiseLate then Local(l.t.(pc := Fail), l.bucket + {l.t.files[i]})
    else Local(l.t.(put := i + 1, pc := Progress(i + 1)), l.bucket + {l.t.files[i]})
  }

  // ------------------------------------------------- what holds in a thread

  /** The files put so far are stored. */
  predicate Stored(l: Local)
  {
    l.t.put <= |l.t.files| && forall i :: 0 <= i < l.t.put ==> l.t.files[i] in l.bucket
  }

  predicate Counted(t: Thread)
  {
    t.uploaded <= t.put && (t.total == 0 ==> t.uploaded == 0) && (t.total != 0 ==> t.total == |t.files|)
  }

  /** Where the thread stands, in terms of its task's fields. */
  predicate Placed(t: Thread)
  {
    && (t.kind == FileTask ==> |t.files| == 1)
    && match t.pc
       case NotStarted => t.status == Waiting && t.put == 0 && t.total == 0
       case Begin => t.status == Waiting && t.put == 0 && t.total == 0
       case Inspect => t.status == Running && t.put == 0 && t.total == 0
       case Announce => t.status == Running && t.put == 0 && t.kind == DirTask && t.total == 0
       case WarnEmpty => t.status == Running && t.files == [] && t.kind == DirTask
       case Put(i) => t.status == Running && t.put == i < |t.files| && t.uploaded == i
       case Progress(i) => t.status == Running && t.put == i <= |t.files| && 0 < i
       case LogProgress(i) => t.status == Running && t.put == i == t.uploaded <= |t.files| && t.kind == DirTask && t.total == |t.files|
       case Succeed => t.status == Running && Whole(t)
       case LogSuccess => t.status == Success && Whole(t)
       case Fail => t.status == Running || (t.status == Success && Whole(t))
       case LogFailure => t.status == Failed
       case Ended => t.status == Failed || (t.status == Success && Whole(t))
  }

  predicate Whole(t: Thread)
  {
    t.put == t.uploaded == t.total == |t.files|
  }

  predicate ThreadOk(l: Local)
  {
    Stored(l) && Counted(l.t) && Placed(l.t)
  }

  lemma StoredKept(l: Local, o: Outcome)
    requires ThreadOk(l)
    ensures Stored(ThreadStep(l, o)) && l.bucket <= ThreadStep(l, o).bucket
  {
    if l.t.pc.Put? { PutStores(l, l.t.pc.i, o); }
  }

  lemma PutStores(l: Local, i: nat, o: Outcome)
    requires Stored(l) && l.t.put == i
    ensures Stored(PutStep(l, i, o)) && l.bucket <= PutStep(l, i, o).bucket
  {
  }

  lemma CountedKept(l: Local, o: Outcome)
    requires ThreadOk(l)
    ensures Counted(ThreadStep(l, o).t)
  {
  }

  lemma PutPlaced(l: Local, o: Outcome)
    requires ThreadOk(l) && l.t.pc.Put?
    ensures Placed(ThreadStep(l, o).t)
  {
    assert ThreadStep(l, o) == PutStep(l, l.t.pc.i, o);
  }

  lemma ProgressPlaced(l: Local, o: Outcome)
    requires ThreadOk(l) && l.t.pc.Progress?
    ensures Placed(ThreadStep(l, o).t)
  {
  }

  lemma LoggedPlaced(l: Local, o: Outcome)
    requires ThreadOk(l) && l.t.pc.LogProgress?
    ensures Placed(ThreadStep(l, o).t)
  {
  }

  lemma EarlyPlaced(l: Local, o: Outcome)
    requires ThreadOk(l) && (l.t.pc.NotStarted? || l.t.pc.Begin? || l.t.pc.Inspect? || l.t.pc.Announce? || l.t.pc.WarnEmpty?)
    ensures Placed(ThreadStep(l, o).t)
  {
  }

  lemma LatePlaced(l: Local, o: Outcome)
    requires ThreadOk(l) && (l.t.pc.Succeed? || l.t.pc.LogSuccess? || l.t.pc.Fail? || l.t.pc.LogFailure? || l.t.pc.Ended?)
    ensures Placed(ThreadStep(l, o).t)
  {
  }

  lemma PlacedKept(l: Local, o: Outcome)
    requires ThreadOk(l)
    ensures Placed(ThreadStep(l, o).t)
  {
    match l.t.pc
    case Put(_) => PutPlaced(l, o);
    case Progress(_) => ProgressPlaced(l, o);
    case LogProgress(_) => LoggedPlaced(l, o);
    case Succeed => LatePlaced(l, o);
    case LogSuccess => LatePlaced(l, o);
    case Fail => LatePlaced(l, o);
    case LogFailure => LatePlaced(l, o);
    case Ended => LatePlaced(l, o);
    case _ => EarlyPlaced(l, o);
  }

  lemma ThreadOkKept(l: Local, o: Outcome)
    requires ThreadOk(l)
    ensures ThreadOk(ThreadStep(l, o)) && l.bucket <= ThreadStep(l, o).bucket
  {
    StoredKept(l, o);
    CountedKept(l, o);
    PlacedKept(l, o);
  }

  /** The moves a status makes. Success is left only towards failure. */
  predicate Moves(a: Status, b: Status)
  {
    a == b || (a == Waiting && b == Running) || (a == Running && Terminal(b)) || (a == Success && b == Failed)
  }

  lemma StatusMoves(l: Local, o: Outcome)
    requires ThreadOk(l)
    ensures Moves(l.t.status, ThreadStep(l, o).t.status)
    ensures Terminal(l.t.status) ==> Terminal(ThreadStep(l, o).t.status)
    ensures l.t.uploaded <= ThreadStep(l, o).t.uploaded
    ensures l.t.total != 0 ==> ThreadStep(l, o).t.total == l.t.total
  {
  }

  // --------------------------------------------------- how long a thread runs

  /** The place of a thread in its program; every action moves it forward. */
  function Position(t: Thread): nat
  {
    var end := 3 * |t.files|;
    match t.pc
    case NotStarted => 0
    case Begin => 0
    case Inspect => 1
    case Announce => 2
    case WarnEmpty => 2 + 1
    case Put(i) => 3 + 3 * i
    case Progress(i) => 3 * i + 1
    case LogProgress(i) => 3 * i + 2
    case Succeed => end + 4
    case LogSuccess => end + 5
    case Fail => end + 6
    case LogFailure => end + 7
    case Ended => end + 8
  }

  lemma PositionAdvances(l: Local, o: Outcome)
    requires ThreadOk(l) && Alive(l.t)
    ensures Position(ThreadStep(l, o).t) > Position(l.t)
    ensures Position(ThreadStep(l, o).t) <= 3 * |ThreadStep(l, o).t.files| + 8
  {
  }

  // ------------------------------------------------------------- the machine

  datatype MainPc =
    | Starting(j: nat)   // thread.start() of task j
    | Showing            // update_console_display()
    | Scanning(j: nat)   // reads the status of task j, without its lock
    | Sleeping
    | LastShow
    | Reporting          // prints that all tasks have finished
    | LastLog
    | Finished
    | Crashing           // the except branch
    | Exited

  datatype State = State(threads: seq<Thread>, bucket: set<string>, main: MainPc, complete: bool, reported: bool)

  datatype Event = TaskEvent(i: nat, o: Outcome) | MainEvent(raises: bool)

  function MainStep(s: State, raises: bool): State
  {
    var n := |s.threads|;
    match s.main
    case Starting(j) =>
      if j >= n then s.(main := Showing)
      else if raises then s.(main := Crashing)
      else s.(threads := s.threads[j := s.threads[j].(pc := Begin)], main := Starting(j + 1))
    case Showing => s.(main := if raises then Crashing else Scanning(0))
    case Scanning(j) =>
      if j >= n then s.(complete := true, main := Sleeping)
      else s.(main := if Terminal(s.threads[j].status) then Scanning(j + 1) else Sleeping)
    case Sleeping => s.(main := if s.complete then LastShow else Showing)
    case LastShow => s.(main := if raises then Crashing else Reporting)
    case Reporting => if raises then s.(main := Crashing) else s.(reported := true, main := LastLog)
    case LastLog => s.(main := if raises then Crashing else Finished)
    case Finished => s
    case Crashing => s.(complete := true, main := Exited)
    case Exited => s
  }

  function Step(s: State, e: Event): State
  {
    match e
    case MainEvent(raises) => MainStep(s, raises)
    case TaskEvent(i, o) =>
      if i >= |s.threads| then s
      else
        var l := ThreadStep(Local(s.threads[i], s.bucket), o);
        s.(threads := s.threads[i := l.t], bucket := l.bucket)
  }

  function Run(s: State, es: seq<Event>, n: nat): State
    requires n <= |es|
  {
    if n == 0 then s else Step(Run(s, es, n - 1), es[n - 1])
  }

  predicate Fresh(t: Thread)
  {
    t.pc == NotStarted && t.status == Waiting && t.put == t.uploaded == t.total == 0 && (t.kind == FileTask ==> |t.files| == 1)
  }

  predicate Initial(s: State)
  {
    s.main == Starting(0) && !s.complete && !s.reported && forall i :: 0 <= i < |s.threads| ==> Fresh(s.threads[i])
  }

  // ------------------------------------------------------------ the invariant

  predicate AllTerminal(s: State, n: nat)
    requires n <= |s.threads|
  {
    forall i :: 0 <= i < n ==> Terminal(s.threads[i].status)
  }

  predicate ThreadsOk(s: State)
  {
    forall i :: 0 <= i < |s.threads| ==> ThreadOk(Local(s.threads[i], s.bucket))
  }

  predicate Crashed(s: State)
  {
    s.main == Crashing || s.main == Exited
  }

  /** The monitor's knowledge is true: of the prefix it has scanned, and of all
      tasks once it has marked completion by itself. */
  predicate Watched(s: State)
  {
    && (s.main.Starting? ==> s.main.j <= |s.threads| && forall i :: s.main.j <= i < |s.threads| ==> s.threads[i].pc == NotStarted)
    && (s.main.Scanning? ==> s.main.j <= |s.threads| && AllTerminal(s, s.main.j))
    && (s.complete && s.main != Exited ==> AllTerminal(s, |s.threads|))
    && (s.reported ==> AllTerminal(s, |s.threads|))
    && (s.main in {LastShow, Reporting, LastLog, Finished} ==> s.complete)
    && (s.main in {Showing, Exited} || s.main.Starting? || s.main.Scanning? ==> (s.complete <==> s.main == Exited))
  }

  predicate Invariant(s: State)
  {
    ThreadsOk(s) && Watched(s)
  }

  lemma InvariantInitial(s: State)
    requires Initial(s)
    ensures Invariant(s)
  {
    forall i | 0 <= i < |s.threads| ensures ThreadOk(Local(s.threads[i], s.bucket)) {
      assert Fresh(s.threads[i]);
    }
  }

  /** Other threads see the bucket only grow. */
  lemma StoredInLarger(t: Thread, a: set<string>, b: set<string>)
    requires ThreadOk(Local(t, a)) && a <= b
    ensures ThreadOk(Local(t, b))
  {
  }

  lemma TaskEventKeepsThreads(s: State, i: nat, o: Outcome)
    requires ThreadsOk(s)
    ensures ThreadsOk(Step(s, TaskEvent(i, o)))
  {
    if i < |s.threads| {
      ThreadOkKept(Local(s.threads[i], s.bucket), o);
      var r := Step(s, TaskEvent(i, o));
      forall k | 0 <= k < |r.threads| ensures ThreadOk(Local(r.threads[k], r.bucket)) {
        if k != i { StoredInLarger(s.threads[k], s.bucket, r.bucket); }
      }
    }
  }

  lemma MainEventKeepsThreads(s: State, raises: bool)
    requires ThreadsOk(s) && Watched(s)
    ensures ThreadsOk(MainStep(s, raises))
  {
    var r := MainStep(s, raises);
    forall k | 0 <= k < |r.threads| ensures ThreadOk(Local(r.threads[k], r.bucket)) {
      assert ThreadOk(Local(s.threads[k], s.bucket));
    }
  }

  lemma MainEventKeepsWatch(s: State, raises: bool)
    requires ThreadsOk(s) && Watched(s)
    ensures Watched(MainStep(s, raises))
  {
    if s.main.Starting? && s.main.j < |s.threads| {
      assert ThreadOk(Local(s.threads[s.main.j], s.bucket));
    }
  }

  lemma TaskEventKeepsWatch(s: State, i: nat, o: Outcome)
    requires ThreadsOk(s) && Watched(s) && i < |s.threads|
    ensures Watched(Step(s, TaskEvent(i, o)))
  {
    assert ThreadOk(Local(s.threads[i], s.bucket));
    StatusMoves(Local(s.threads[i], s.bucket), o);
  }

  lemma InvariantStep(s: State, e: Event)
    requires Invariant(s)
    ensures Invariant(Step(s, e))
  {
    match e
    case MainEvent(raises) =>
      MainEventKeepsThreads(s, raises);
      MainEventKeepsWatch(s, raises);
    case TaskEvent(i, o) =>
      TaskEventKeepsThreads(s, i, o);
      if i < |s.threads| { TaskEventKeepsWatch(s, i, o); }
  }

  lemma {:induction false} InvariantRun(s: State, es: seq<Event>, n: nat)
    requires n <= |es| && Initial(s)
    ensures ThreadsOk(Run(s, es, n)) && Watched(Run(s, es, n))
  {
    if n == 0 {
      InvariantInitial(s);
    } else {
      InvariantRun(s, es, n - 1);
      InvariantStep(Run(s, es, n - 1), es[n - 1]);
    }
  }
}
