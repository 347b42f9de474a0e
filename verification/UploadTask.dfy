/** The two thread bodies of upload.py, action by action. */
module UploadTask {
  import opened Uploader

  /** The machine's thread after some outcomes. */
  function After(l: Local, os: seq<Outcome>): Local
  {
    if os == [] then l else ThreadStep(After(l, os[..|os| - 1]), os[|os| - 1])
  }

  lemma AfterOneMore(l: Local, os: seq<Outcome>, o: Outcome)
    ensures After(l, os + [o]) == ThreadStep(After(l, os), o)
  {
    assert (os + [o])[..|os|] == os;
  }

  class Task {
    var status: Status
    var uploaded: nat
    var total: nat
    var errorMessage: string

    constructor ()
      ensures status == Waiting && uploaded == 0 && total == 0 && errorMessage == ""
    {
      status, uploaded, total, errorMessage := Waiting, 0, 0, "";
    }

    /** `update_status`; an empty message leaves the old one. */
    method UpdateStatus(s: Status, message: string)
      modifies this`status, this`errorMessage
      ensures status == s && errorMessage == if message != "" then message else old(errorMessage)
    {
      status := s;
      if message != "" { errorMessage := message; }
    }

    /** `update_progress` */
    method UpdateProgress(u: nat, t: nat)
      modifies this`uploaded, this`total
      ensures uploaded == u && total == t
    {
      uploaded := u;
      total := t;
    }
  }

  /** The store, the local files and the log; what they do is not determined. */
  class Outside {
    var bucket: set<string>

    constructor ()
    {
      bucket := {};
    }

    /** `fput_object` */
    method Put(name: string) returns (o: Outcome)
      modifies this
      ensures bucket == if o == Raise then old(bucket) else old(bucket) + {name}
    {
      o := *;
      if o != Raise { bucket := bucket + {name}; }
    }

    /** The check that the file exists, the listing of a directory, or `log`. */
    method Consult() returns (o: Outcome)
    {
      o := *;
    }
  }

  /** The fields of the upload task and the bucket are those of the machine's thread. */
  ghost predicate Mirrors(task: Task, outside: Outside, l: Local)
    reads task, outside
  {
    task.status == l.t.status && task.uploaded == l.t.uploaded && task.total == l.t.total && outside.bucket == l.bucket
  }

  function Started(kind: Kind, files: seq<string>, bucket: set<string>): Local
  {
    Local(Thread(kind, Begin, files, 0, Waiting, 0, 0), bucket)
  }

  // ------------------------------------------------------------ object names

  function Basename(path: string): string
  {
    if path == "" || path[|path| - 1] == '/' then "" else Basename(path[..|path| - 1]) + [path[|path| - 1]]
  }

  function FileObject(localFile: string, objectName: string): string
  {
    if objectName == "" then Basename(localFile) else objectName
  }

  function DirObject(remoteDir: string, relativePath: string): string
  {
    if remoteDir != "" then remoteDir + "/" + relativePath else relativePath
  }

  function DirObjects(remoteDir: string, paths: seq<string>): (names: seq<string>)
    ensures |names| == |paths|
    ensures forall i :: 0 <= i < |paths| ==> names[i] == DirObject(remoteDir, paths[i])
  {
    seq(|paths|, i requires 0 <= i < |paths| => DirObject(remoteDir, paths[i]))
  }

  // ------------------------------------------------------------ the two bodies

  /** `update_status(STATUS_SUCCESS)` and the log line after it. */
  method Conclude(task: Task, outside: Outside, ghost start: Local, ghost before: seq<Outcome>) returns (raised: bool, ghost os: seq<Outcome>)
    requires Mirrors(task, outside, After(start, before)) && After(start, before).t.pc == Succeed
    requires After(start, before).t.files != []
    modifies task
    ensures Mirrors(task, outside, After(start, os)) && After(start, os).t.pc == if raised then Fail else Ended
  {
    os := MarkSuccess(task, outside, start, before);
    var logged := outside.Consult();
    AfterOneMore(start, os, logged);
    os := os + [logged];
    raised := Raises(logged);
  }

  method MarkSuccess(task: Task, outside: Outside, ghost start: Local, ghost before: seq<Outcome>) returns (ghost os: seq<Outcome>)
    requires Mirrors(task, outside, After(start, before)) && After(start, before).t.pc == Succeed
    requires After(start, before).t.files != []
    modifies task
    ensures Mirrors(task, outside, After(start, os)) && After(start, os).t.pc == LogSuccess
  {
    task.UpdateStatus(Success, "");
    AfterOneMore(start, before, Fine);
    os := before + [Fine];
  }

  /** The `try` block of `run_file_task`. */
  method FileBody(task: Task, outside: Outside, name: string, ghost start: Local) returns (raised: bool, ghost os: seq<Outcome>)
    requires Mirrors(task, outside, start) && start == Started(FileTask, [name], outside.bucket)
    modifies task, outside
    ensures Mirrors(task, outside, After(start, os)) && After(start, os).t.pc == if raised then Fail else Ended
  {
    raised := true;
    task.UpdateStatus(Running, "");
    os := [Fine];
    assert os[..0] == [];
    var found := outside.Consult();
    AfterOneMore(start, os, found);
    os := os + [found];
    if Raises(found) { return; }
    var put := outside.Put(name);
    AfterOneMore(start, os, put);
    os := os + [put];
    if Raises(put) { return; }
    task.UpdateProgress(1, 1);
    AfterOneMore(start, os, Fine);
    os := os + [Fine];
    raised, os := Conclude(task, outside, start, os);
  }

  /** The `except` block of either task. */
  method Handle(task: Task, outside: Outside, message: string, ghost start: Local, ghost before: seq<Outcome>) returns (ghost os: seq<Outcome>)
    requires Mirrors(task, outside, After(start, before)) && After(start, before).t.pc == Fail
    modifies task
    ensures Mirrors(task, outside, After(start, os)) && After(start, os).t.pc == Ended && task.status == Failed
    ensures message != "" ==> task.errorMessage == message
  {
    task.UpdateStatus(Failed, message);
    AfterOneMore(start, before, Fine);
    os := before + [Fine];
    var logged := outside.Consult();
    AfterOneMore(start, os, logged);
    os := os + [logged];
  }

  /** `run_file_task`: from start to end, a run of the machine's thread. */
  method RunFileTask(task: Task, outside: Outside, localFile: string, objectName: string, message: string)
    returns (ghost os: seq<Outcome>)
    requires task.status == Waiting && task.uploaded == 0 && task.total == 0
    modifies task, outside
    ensures var l := After(Started(FileTask, [FileObject(localFile, objectName)], old(outside.bucket)), os);
            Mirrors(task, outside, l) && l.t.pc == Ended
  {
    var name := FileObject(localFile, objectName);
    ghost var start := Started(FileTask, [name], outside.bucket);
    var raised;
    raised, os := FileBody(task, outside, name, start);
    if raised { os := Handle(task, outside, message, start, os); }
  }

  /** The loop of `run_dir_task` over the listed files. */
  method PutFiles(task: Task, outside: Outside, names: seq<string>, ghost start: Local, ghost before: seq<Outcome>)
    returns (raised: bool, ghost os: seq<Outcome>)
    requires names != [] && Mirrors(task, outside, After(start, before))
    requires InDir(After(start, before).t, names, Put(0))
    modifies task, outside
    ensures Mirrors(task, outside, After(start, os)) && InDir(After(start, os).t, names, if raised then Fail else Succeed)
  {
    os := before;
    var i := 0;
    while i < |names|
      invariant 0 <= i <= |names| && Mirrors(task, outside, After(start, os))
      invariant InDir(After(start, os).t, names, if i < |names| then Put(i) else Succeed)
    {
      raised, os := PutFile(task, outside, names, i, start, os);
      if raised { return; }
      i := i + 1;
    }
    raised := false;
  }

  predicate InDir(t: Thread, names: seq<string>, pc: Pc)
  {
    t.kind == DirTask && t.files == names && t.pc == pc
  }

  /** The body of the loop. */
  method PutFile(task: Task, outside: Outside, names: seq<string>, i: nat, ghost start: Local, ghost before: seq<Outcome>)
    returns (raised: bool, ghost os: seq<Outcome>)
    requires i < |names| && Mirrors(task, outside, After(start, before)) && InDir(After(start, before).t, names, Put(i))
    modifies task, outside
    ensures Mirrors(task, outside, After(start, os))
    ensures InDir(After(start, os).t, names, if raised then Fail else if i + 1 < |names| then Put(i + 1) else Succeed)
  {
    var put := outside.Put(names[i]);
    AfterOneMore(start, before, put);
    os := before + [put];
    if Raises(put) { return true, os; }
    raised, os := CountFile(task, outside, names, i + 1, start, os);
  }

  method CountFile(task: Task, outside: Outside, names: seq<string>, i: nat, ghost start: Local, ghost before: seq<Outcome>)
    returns (raised: bool, ghost os: seq<Outcome>)
    requires i <= |names| && Mirrors(task, outside, After(start, before)) && InDir(After(start, before).t, names, Progress(i))
    modifies task
    ensures Mirrors(task, outside, After(start, os))
    ensures InDir(After(start, os).t, names, if raised then Fail else if i < |names| then Put(i) else Succeed)
  {
    task.UpdateProgress(i, |names|);
    AfterOneMore(start, before, Fine);
    os := before + [Fine];
    var logged := outside.Consult();
    AfterOneMore(start, os, logged);
    os := os + [logged];
    raised := Raises(logged);
  }

  /** `run_dir_task` for a directory without files. */
  method EmptyDir(task: Task, outside: Outside, ghost start: Local, ghost before: seq<Outcome>) returns (raised: bool, ghost os: seq<Outcome>)
    requires Mirrors(task, outside, After(start, before))
    requires InDir(After(start, before).t, [], WarnEmpty)
    modifies task
    ensures Mirrors(task, outside, After(start, os)) && After(start, os).t.pc == if raised then Fail else Ended
  {
    var warned := outside.Consult();
    AfterOneMore(start, before, warned);
    os := before + [warned];
    raised := Raises(warned);
    if !raised { os := SucceedEmpty(task, outside, start, os); }
  }

  method SucceedEmpty(task: Task, outside: Outside, ghost start: Local, ghost before: seq<Outcome>) returns (ghost os: seq<Outcome>)
    requires Mirrors(task, outside, After(start, before)) && InDir(After(start, before).t, [], Succeed)
    modifies task
    ensures Mirrors(task, outside, After(start, os)) && After(start, os).t.pc == Ended
  {
    task.UpdateStatus(Success, "");
    AfterOneMore(start, before, Fine);
    os := before + [Fine];
  }

  /** Up to the listing. */
  method ListDir(task: Task, outside: Outside, remoteDir: string, ghost start: Local)
    returns (raised: bool, names: seq<string>, ghost os: seq<Outcome>)
    requires Mirrors(task, outside, start) && start == Started(DirTask, [], outside.bucket)
    modifies task
    ensures Mirrors(task, outside, After(start, os))
    ensures var t := After(start, os).t; if raised then t.pc == Fail else t.kind == DirTask && t.pc == Announce && t.files == names
  {
    task.UpdateStatus(Running, "");
    os := [Fine];
    assert os[..0] == [];
    var listed := outside.Consult();
    names := if listed.Listed? then DirObjects(remoteDir, listed.files) else [];
    ghost var named := if listed.Listed? then Listed(names) else listed;
    AfterOneMore(start, os, named);
    os := os + [named];
    raised := Raises(listed);
  }

  /** The `try` block of `run_dir_task`. */
  method DirBody(task: Task, outside: Outside, remoteDir: string, ghost start: Local) returns (raised: bool, ghost os: seq<Outcome>)
    requires Mirrors(task, outside, start) && start == Started(DirTask, [], outside.bucket)
    modifies task, outside
    ensures Mirrors(task, outside, After(start, os)) && After(start, os).t.pc == if raised then Fail else Ended
  {
    var names;
    raised, names, os := ListDir(task, outside, remoteDir, start);
    if raised { return; }
    task.UpdateProgress(0, |names|);
    AfterOneMore(start, os, Fine);
    os := os + [Fine];
    if names == [] {
      raised, os := EmptyDir(task, outside, start, os);
    } else {
      raised, os := PutFiles(task, outside, names, start, os);
      if !raised { raised, os := Conclude(task, outside, start, os); }
    }
  }

  /** `run_dir_task`: from start to end, a run of the machine's thread. */
  method RunDirTask(task: Task, outside: Outside, remoteDir: string, message: string) returns (ghost os: seq<Outcome>)
    requires task.status == Waiting && task.uploaded == 0 && task.total == 0
    modifies task, outside
    ensures var l := After(Started(DirTask, [], old(outside.bucket)), os);
            Mirrors(task, outside, l) && l.t.pc == Ended
  {
    ghost var start := Started(DirTask, [], outside.bucket);
    var raised;
    raised, os := DirBody(task, outside, remoteDir, start);
    if raised { os := Handle(task, outside, message, start, os); }
  }

  lemma {:induction false} AfterOk(l: Local, os: seq<Outcome>)
    requires ThreadOk(l)
    ensures ThreadOk(After(l, os))
    decreases |os|
  {
    if os != [] {
      AfterOk(l, os[..|os| - 1]);
      ThreadOkKept(After(l, os[..|os| - 1]), os[|os| - 1]);
    }
  }

  /** What a thread body leaves behind, whatever the outside does: a terminal
      status, and, on success, every file counted and stored. */
  lemma BodyResult(kind: Kind, files: seq<string>, bucket: set<string>, os: seq<Outcome>)
    requires kind == FileTask ==> |files| == 1
    requires After(Started(kind, files, bucket), os).t.pc == Ended
    ensures var l := After(Started(kind, files, bucket), os);
            && Terminal(l.t.status)
            && (l.t.status == Success ==> l.t.uploaded == l.t.total == |l.t.files| && forall f <- l.t.files :: f in l.bucket)
  {
    AfterOk(Started(kind, files, bucket), os);
  }
}
