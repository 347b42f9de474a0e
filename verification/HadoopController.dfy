/** The API server as a mutable store whose calls can fail, the helpers of
    apply.py, and `_reconcile` of controller.py as the sequence of calls it makes. */
module HadoopController {
  import opened Wrappers
  import opened HadoopSpec
  import opened Topology
  import opened HadoopNames
  import opened HadoopResources
  import opened HadoopBuildable
  import opened HadoopStore

  /** How one API call ends: 404 is told apart from every other error. */
  datatype Status = Success | NotFound | Failure

  /** The steps recorded in `after` are those in `before` and possibly `op`, certainly if `ok`. */
  ghost predicate Extends(before: seq<Op>, after: seq<Op>, op: Op, ok: bool)
  {
    after == before + [op] || (!ok && after == before)
  }

  class ApiServer {
    var objects: Store
    ghost var log: seq<Op>
    ghost const initial: Store
    /** How many calls have failed other than with 404. */
    ghost var failures: nat

    /** The objects are what the recorded steps made of the initial ones. */
    ghost predicate Valid()
      reads this
    {
      objects == Run(initial, log)
    }

    constructor (s: Store)
      ensures Valid() && objects == initial == s && log == []
    {
      objects, log, initial, failures := s, [], s, 0;
    }

    // --------------------------------------------------- single API calls
    // A failed call may or may not have been carried out by the server.

    method Read(ref: Ref) returns (st: Status)
      modifies `failures
      ensures failures == old(failures) + if st == Failure then 1 else 0
      ensures st == Success ==> ref in objects
      ensures st == NotFound ==> ref !in objects
    {
      var lost: bool := *;
      st := if lost then Failure else if ref in objects then Success else NotFound;
      if st == Failure { failures := failures + 1; }
    }

    method Replace(obj: Object) returns (st: Status)
      modifies `objects, `failures
      ensures failures == old(failures) + if st == Failure then 1 else 0
      ensures st == Success ==> ObjectRef(obj) in old(objects) && objects == old(objects)[ObjectRef(obj) := obj]
      ensures st == NotFound ==> ObjectRef(obj) !in old(objects) && objects == old(objects)
      ensures objects == old(objects) || objects == old(objects)[ObjectRef(obj) := obj]
    {
      var lost: bool := *;
      var carriedOut: bool := *;
      if lost { failures := failures + 1; }
      if lost && !carriedOut { return Failure; }
      if ObjectRef(obj) !in objects { return if lost then Failure else NotFound; }
      objects := objects[ObjectRef(obj) := obj];
      st := if lost then Failure else Success;
    }

    method Create(obj: Object) returns (st: Status)
      modifies `objects, `failures
      ensures failures == old(failures) + if st == Failure then 1 else 0
      ensures st == Success ==> ObjectRef(obj) !in old(objects) && objects == old(objects)[ObjectRef(obj) := obj]
      ensures st != NotFound
      ensures objects == old(objects) ||
              (ObjectRef(obj) !in old(objects) && objects == old(objects)[ObjectRef(obj) := obj])
    {
      var lost: bool := *;
      var carriedOut: bool := *;
      if lost { failures := failures + 1; }
      if lost && !carriedOut { return Failure; }
      if ObjectRef(obj) in objects {
        if !lost { failures := failures + 1; }
        return Failure;
      }
      objects := objects[ObjectRef(obj) := obj];
      st := if lost then Failure else Success;
    }

    method Delete(ref: Ref) returns (st: Status)
      modifies `objects, `failures
      ensures failures == old(failures) + if st == Failure then 1 else 0
      ensures st == Success ==> ref in old(objects) && objects == old(objects) - {ref}
      ensures st == NotFound ==> ref !in old(objects) && objects == old(objects)
      ensures objects == old(objects) || objects == old(objects) - {ref}
    {
      var lost: bool := *;
      var carriedOut: bool := *;
      if lost { failures := failures + 1; }
      if lost && !carriedOut { return Failure; }
      if ref !in objects { return if lost then Failure else NotFound; }
      objects := objects - {ref};
      st := if lost then Failure else Success;
    }

    // ------------------------------------------------------------ apply.py

    /** Records the step whose calls have been made, if it is complete or has changed the store. */
    ghost method Conclude(op: Op, before: Store, ok: bool)
      requires before == Run(initial, log)
      requires objects == Apply(before, op) || (!ok && objects == before)
      modifies `log
      ensures Valid() && Extends(old(log), log, op, ok)
    {
      if ok || objects != before {
        assert (log + [op])[..|log|] == log;
        log := log + [op];
      }
    }

    /** `replace_or_create_configmap`, `_statefulset`, `_pdb` and `_ingress`. */
    method ReplaceOrCreate(obj: Object) returns (ok: bool)
      requires Valid()
      modifies this
      ensures Valid() && Extends(old(log), log, PutOp(obj), ok)
      ensures failures == old(failures) + if ok then 0 else 1
    {
      hide Run;
      var st := Read(ObjectRef(obj));
      if st == Success { st := Replace(obj); }
      if st == NotFound { st := Create(obj); }
      ok := st == Success;
      Conclude(PutOp(obj), old(objects), ok);
    }

    /** `ensure_service`: create if missing only. */
    method EnsureService(svc: Service) returns (ok: bool)
      requires Valid()
      modifies this
      ensures Valid() && Extends(old(log), log, EnsureOp(Svc(svc)), ok)
      ensures failures == old(failures) + if ok then 0 else 1
    {
      hide Run;
      var st := Read(ObjectRef(Svc(svc)));
      if st == NotFound { st := Create(Svc(svc)); }
      ok := st == Success;
      Conclude(EnsureOp(Svc(svc)), old(objects), ok);
    }

    /** `delete_service`, `_statefulset`, `_config_map` and `_ingress`: 404 is success. */
    method DeleteIfPresent(ref: Ref) returns (ok: bool)
      requires Valid()
      modifies this
      ensures Valid() && Extends(old(log), log, DropOp(ref), ok)
      ensures failures == old(failures) + if ok then 0 else 1
    {
      hide Run;
      var st := Delete(ref);
      ok := st != Failure;
      assert ref !in old(objects) ==> old(objects) - {ref} == old(objects);
      Conclude(DropOp(ref), old(objects), ok);
    }
  }

  /** `"".join(f"{k}={v}" for k, v in sorted(data.items()))`, over the sorted file names. */
  method JoinedItems(data: map<ConfigFile, string>, files: seq<ConfigFile>) returns (text: string)
    ensures text == Payload(data, files)
  {
    text := "";
    for i := 0 to |files|
      invariant text + Payload(data, files[i..]) == Payload(data, files)
    {
      PayloadMoves(data, files, i, text);
      text := text + Item(data, files[i]);
    }
  }

  /** How a part of `_reconcile` ends: normally, with the `ApiException` of a call
      that failed, or with the exception of a builder. */
  datatype Ending = Fine | ApiError | Raised(error: PyError)

  lemma Recorded(py: Python, cr: Cr, n: Norm, base: seq<Op>, plan: seq<Action>, pos: nat, log: seq<Op>)
    requires pos < |plan| && log == base + ConcreteAll(py, cr, n, plan[..pos])
    requires BuiltSteps(n, plan, pos) && StepBuilds(n, plan[pos])
    ensures log + [Concrete(py, cr, n, plan[pos])] == base + ConcreteAll(py, cr, n, plan[..pos + 1])
    ensures BuiltSteps(n, plan, pos + 1)
  {
    ConcreteNext(py, cr, n, plan, pos);
  }

  /** One invocation of the handler, on one custom resource with one normalised
      spec. `pos` counts the steps of the plan that have taken effect. */
  class Handler {
    const py: Python
    const api: ApiServer
    const cr: Cr
    const n: Norm
    ghost const base: seq<Op>
    ghost const plan: seq<Action>
    ghost var pos: nat

    ghost const before: nat

    /** What the server recorded since the start is a prefix of the plan, and
        every builder met so far has returned. */
    ghost predicate Valid()
      reads this, api
    {
      && api.Valid() && pos <= |plan| && api.log == base + ConcreteAll(py, cr, n, plan[..pos])
      && BuiltSteps(n, plan, pos)
    }

    /** No API call has failed. */
    ghost predicate Going()
      reads this, api
    {
      Valid() && api.failures == before
    }

    /** How things stand when a part has ended: an API error is on its way exactly
        if a call failed, and another exception exactly if the builder of the
        next step raises it. */
    ghost predicate Ended(e: Ending)
      reads this, api
    {
      match e
      case Fine => Going()
      case ApiError => Valid() && api.failures > before
      case Raised(error) =>
        Going() && pos < |plan| && !StepBuilds(n, plan[pos]) && error == ReadParts(n, plan[pos].role).error
    }

    /** The plan continues with these steps. */
    ghost predicate Next(steps: seq<Action>)
      reads this
    {
      pos + |steps| <= |plan| && forall k :: pos <= k < pos + |steps| ==> plan[k] == steps[k - pos]
    }

    constructor (py: Python, api: ApiServer, cr: Cr, n: Norm)
      requires api.Valid()
      ensures this.py == py && this.api == api && this.cr == cr && this.n == n
      ensures plan == Plan(SwitchesOf(n)) && pos == 0 && base == api.log && before == api.failures && Going()
    {
      this.py, this.api, this.cr, this.n := py, api, cr, n;
      base, plan, pos, before := api.log, Plan(SwitchesOf(n)), 0, api.failures;
    }

    // ----------------------------------- the helpers, following the plan

    ghost method Record(a: Action, log: seq<Op>, ok: bool)
      requires api.Valid() && pos < |plan| && plan[pos] == a
      requires log == base + ConcreteAll(py, cr, n, plan[..pos]) && BuiltSteps(n, plan, pos) && StepBuilds(n, a)
      requires Extends(log, api.log, Concrete(py, cr, n, a), ok)
      modifies `pos
      ensures Valid() && old(pos) <= pos <= old(pos) + 1
      ensures ok ==> pos == old(pos) + 1
    {
      if api.log != log {
        Recorded(py, cr, n, base, plan, pos, log);
        pos := pos + 1;
      }
    }

    method Put(obj: Object, ghost r: Role) returns (e: Ending)
      requires Going() && pos < |plan| && plan[pos] == Action.Put(r) && obj == Body(py, cr, n, r) && StepBuilds(n, Action.Put(r))
      modifies `pos, api
      ensures Ended(e) && old(pos) <= pos && (e == Fine ==> pos == old(pos) + 1)
    {
      var ok := api.ReplaceOrCreate(obj);
      Record(Action.Put(r), old(api.log), ok);
      e := if ok then Fine else ApiError;
    }

    /** The StatefulSet is built, which may raise, and then stored. */
    method PutStatefulSet(r: Role, revision: string) returns (e: Ending)
      requires Going() && pos < |plan| && plan[pos] == Action.Put(r)
      requires KindOf(r) == StatefulSetKind && revision == Revision(py, cr, n)
      modifies `pos, api
      ensures Ended(e) && old(pos) <= pos && (e == Fine ==> pos == old(pos) + 1)
    {
      var sts := BuildStatefulSet(cr, n, r, revision);
      if sts.Err? { return Raised(sts.error); }
      e := Put(Sts(sts.value), r);
    }

    method PutPdb() returns (e: Ending)
      requires Going() && pos < |plan| && plan[pos] == Action.Put(PdbNameNode)
      modifies `pos, api
      ensures Ended(e) && old(pos) <= pos && (e == Fine ==> pos == old(pos) + 1)
    {
      e := Put(Budget(NamenodePdb(cr)), PdbNameNode);
    }

    method Ensure(r: Role) returns (e: Ending)
      requires Going() && pos < |plan| && plan[pos] == Action.Ensure(r) && IsService(r)
      modifies `pos, api
      ensures Ended(e) && old(pos) <= pos && (e == Fine ==> pos == old(pos) + 1)
    {
      var ok := api.EnsureService(ServiceBody(cr, r));
      Record(Action.Ensure(r), old(api.log), ok);
      e := if ok then Fine else ApiError;
    }

    method Drop(r: Role) returns (e: Ending)
      requires Going() && pos < |plan| && plan[pos] == Action.Drop(r)
      modifies `pos, api
      ensures Ended(e) && old(pos) <= pos && (e == Fine ==> pos == old(pos) + 1)
    {
      var ok := api.DeleteIfPresent(Ref(KindOf(r), cr.namespace, Name(cr.name, r)));
      Record(Action.Drop(r), old(api.log), ok);
      e := if ok then Fine else ApiError;
    }

    // ------------------------------------------------ the parts of _reconcile

    /** The last loop of `_delete_ha_infra`. */
    method DeletePodServices() returns (e: Ending)
      requires Going() && Next(HaTeardown()[5..])
      modifies `pos, api
      ensures Ended(e) && (e == Fine ==> pos == old(pos) + 4)
    {
      hide Valid, StepBuilds, ReadParts;
      e := Fine;
      for i := 0 to 2
        invariant Going() && e == Fine && pos == old(pos) + 2 * i
      {
        ghost var rest := HaTeardown()[5..];
        assert rest[2 * i] == Action.Drop(SvcNnPodExternal(i)) && rest[2 * i + 1] == Action.Drop(SvcNnPodWeb(i));
        e := Drop(SvcNnPodExternal(i));
        if e != Fine { return; }
        e := Drop(SvcNnPodWeb(i));
        if e != Fine { return; }
      }
    }

    /** `_delete_ha_infra` */
    method DeleteHaInfra() returns (e: Ending)
      requires Going() && Next(HaTeardown())
      modifies `pos, api
      ensures Ended(e) && (e == Fine ==> pos == old(pos) + 9)
    {
      hide Valid, StepBuilds, ReadParts;
      e := DeleteQuorum();
      if e != Fine { return; }
      e := DeletePodServices();
    }

    /** The first calls of `_delete_ha_infra`. */
    method DeleteQuorum() returns (e: Ending)
      requires Going()
      requires Next([Action.Drop(SvcZookeeper), Action.Drop(SvcJournalNode), Action.Drop(StsZookeeper),
                     Action.Drop(StsJournalNode), Action.Drop(CmZookeeper)])
      modifies `pos, api
      ensures Ended(e) && (e == Fine ==> pos == old(pos) + 5)
    {
      hide Valid, StepBuilds, ReadParts;
      var services := [SvcZookeeper, SvcJournalNode];
      e := Fine;
      for i := 0 to 2
        invariant Going() && e == Fine && pos == old(pos) + i
      {
        e := Drop(services[i]);
        if e != Fine { return; }
      }
      e := Drop(StsZookeeper);
      if e != Fine { return; }
      e := Drop(StsJournalNode);
      if e != Fine { return; }
      e := Drop(CmZookeeper);
    }

    /** The ConfigMap and its part of the payload. */
    method PutHadoopConfig() returns (e: Ending, part: string)
      requires Going() && pos < |plan| && plan[pos] == Action.Put(CmHadoop)
      modifies `pos, api
      ensures Ended(e) && (e == Fine ==> pos == old(pos) + 1 && part == Payload(BuildConfigMap(py, cr, n).data, FILES))
    {
      var cm := BuildConfigMap(py, cr, n);
      e := Put(Cm(cm), CmHadoop);
      part := JoinedItems(cm.data, FILES);
    }

    method PutZookeeperConfig() returns (e: Ending, part: string)
      requires Going() && pos < |plan| && plan[pos] == Action.Put(CmZookeeper)
      modifies `pos, api
      ensures Ended(e) && (e == Fine ==> pos == old(pos) + 1 && part == Payload(BuildZookeeperConfigMap(cr, n).data, FILES))
    {
      var zkcm := BuildZookeeperConfigMap(cr, n);
      e := Put(Cm(zkcm), CmZookeeper);
      part := JoinedItems(zkcm.data, FILES);
    }

    method ReconcileConfig() returns (e: Ending, revision: string)
      requires Going() && Next(ConfigSteps(SwitchesOf(n)))
      modifies `pos, api
      ensures Ended(e)
      ensures e == Fine ==> pos == old(pos) + |ConfigSteps(SwitchesOf(n))| && revision == Revision(py, cr, n)
    {
      hide Valid, StepBuilds, ReadParts;
      revision := "";
      var payload, part: string := "", "";
      e, payload := PutHadoopConfig();
      if e != Fine { return; }
      if n.hdfs.ha.enabled {
        e, part := PutZookeeperConfig();
        if e != Fine { return; }
      } else {
        e := DeleteHaInfra();
        if e != Fine { return; }
        e := Drop(CmZookeeper);
      }
      revision := py.digest(payload + part);
    }

    /** A headless Service and the StatefulSet behind it. */
    method EnsureAndPut(svc: Role, sts: Role, revision: string) returns (e: Ending)
      requires Going() && pos + 1 < |plan| && plan[pos] == Action.Ensure(svc) && plan[pos + 1] == Action.Put(sts)
      requires revision == Revision(py, cr, n)
      requires IsService(svc) && KindOf(sts) == StatefulSetKind
      modifies `pos, api
      ensures Ended(e) && (e == Fine ==> pos == old(pos) + 2)
    {
      hide Revision, Valid, StepBuilds, ReadParts;
      e := Ensure(svc);
      if e != Fine { return; }
      e := PutStatefulSet(sts, revision);
    }

    method CreateQuorum(revision: string) returns (e: Ending)
      requires Going() && pos + 3 < |plan| && revision == Revision(py, cr, n)
      requires plan[pos] == Action.Ensure(SvcZookeeper) && plan[pos + 1] == Action.Put(StsZookeeper)
      requires plan[pos + 2] == Action.Ensure(SvcJournalNode) && plan[pos + 3] == Action.Put(StsJournalNode)
      modifies `pos, api
      ensures Ended(e) && (e == Fine ==> pos == old(pos) + 4)
    {
      hide Revision, Valid, StepBuilds, ReadParts;
      e := EnsureAndPut(SvcZookeeper, StsZookeeper, revision);
      if e != Fine { return; }
      e := EnsureAndPut(SvcJournalNode, StsJournalNode, revision);
    }

    method ReconcileQuorum(revision: string) returns (e: Ending)
      requires Going() && Next(QuorumSteps(SwitchesOf(n))) && revision == Revision(py, cr, n)
      modifies `pos, api
      ensures Ended(e) && (e == Fine ==> pos == old(pos) + |QuorumSteps(SwitchesOf(n))|)
    {
      hide Revision, Valid, StepBuilds, ReadParts;
      e := Fine;
      if n.hdfs.ha.enabled {
        e := CreateQuorum(revision);
      }
    }

    /** `for i in (0, 1): delete_service(... -namenode-{i}-external)` */
    method HidePods() returns (e: Ending)
      requires Going() && Next([Action.Drop(SvcNnPodExternal(0)), Action.Drop(SvcNnPodExternal(1))])
      modifies `pos, api
      ensures Ended(e) && (e == Fine ==> pos == old(pos) + 2)
    {
      hide Valid, StepBuilds, ReadParts;
      e := Fine;
      for i := 0 to 2
        invariant Going() && e == Fine && pos == old(pos) + i
      {
        e := Drop(SvcNnPodExternal(i));
        if e != Fine { return; }
      }
    }

    /** `for i in range(namenodeReplicas): ensure_service(... -namenode-{i}-external)` */
    method ExposePods() returns (e: Ending)
      requires Going() && n.hdfs.ha.nnReplicas == 2
      requires Next([Action.Ensure(SvcNnPodExternal(0)), Action.Ensure(SvcNnPodExternal(1))])
      modifies `pos, api
      ensures Ended(e) && (e == Fine ==> pos == old(pos) + 2)
    {
      hide Valid, StepBuilds, ReadParts;
      e := Fine;
      for i := 0 to n.hdfs.ha.nnReplicas
        invariant Going() && e == Fine && pos == old(pos) + i
      {
        e := Ensure(SvcNnPodExternal(i));
        if e != Fine { return; }
      }
    }

    method ReconcileNameNodeExposure() returns (e: Ending)
      requires Going() && CanonicalHa(n.hdfs.ha) && Next(NameNodeExposureSteps(SwitchesOf(n)))
      modifies `pos, api
      ensures Ended(e) && (e == Fine ==> pos == old(pos) + |NameNodeExposureSteps(SwitchesOf(n))|)
    {
      hide Valid, StepBuilds, ReadParts;
      e := Ensure(SvcNameNode);
      if e != Fine { return; }
      if n.expose.namenodeWeb == NodePort {
        if n.hdfs.ha.enabled {
          e := Drop(SvcNameNodeExternal);
          if e != Fine { return; }
          e := ExposePods();
        } else {
          e := HidePods();
          if e != Fine { return; }
          e := Ensure(SvcNameNodeExternal);
        }
      } else {
        e := Drop(SvcNameNodeExternal);
        if e != Fine { return; }
        e := HidePods();
      }
    }

    /** The per-pod web Services behind the Ingress. */
    method ReconcileNameNodeWeb() returns (e: Ending)
      requires Going() && CanonicalHa(n.hdfs.ha)
      requires Next(if n.hdfs.ha.enabled then [Action.Ensure(SvcNnPodWeb(0)), Action.Ensure(SvcNnPodWeb(1))]
                    else [Action.Drop(SvcNnPodWeb(1)), Action.Ensure(SvcNnPodWeb(0))])
      modifies `pos, api
      ensures Ended(e) && (e == Fine ==> pos == old(pos) + 2)
    {
      hide Valid, StepBuilds, ReadParts;
      if n.hdfs.ha.enabled {
        e := Fine;
        for i := 0 to n.hdfs.ha.nnReplicas
          invariant Going() && e == Fine && pos == old(pos) + i
        {
          e := Ensure(SvcNnPodWeb(i));
          if e != Fine { return; }
        }
      } else {
        e := Drop(SvcNnPodWeb(1));
        if e != Fine { return; }
        e := Ensure(SvcNnPodWeb(0));
      }
    }

    /** `_delete_ingress_ui` */
    method DeleteIngressUi() returns (e: Ending)
      requires Going()
      requires Next([Action.Drop(IngUi), Action.Drop(SvcNnPodWeb(0)), Action.Drop(SvcNnPodWeb(1)), Action.Drop(SvcRmWeb)])
      modifies `pos, api
      ensures Ended(e) && (e == Fine ==> pos == old(pos) + 4)
    {
      hide Valid, StepBuilds, ReadParts;
      e := Drop(IngUi);
      if e != Fine { return; }
      e := Drop(SvcNnPodWeb(0));
      if e != Fine { return; }
      e := Drop(SvcNnPodWeb(1));
      if e != Fine { return; }
      e := Drop(SvcRmWeb);
    }

    method ReconcileIngress() returns (e: Ending)
      requires Going() && CanonicalHa(n.hdfs.ha) && Next(IngressSteps(SwitchesOf(n)))
      modifies `pos, api
      ensures Ended(e) && (e == Fine ==> pos == old(pos) + 4)
    {
      hide Valid, StepBuilds, ReadParts;
      if n.expose.ingress.enabled {
        e := ReconcileNameNodeWeb();
        if e != Fine { return; }
        e := ReconcileUi();
      } else {
        e := DeleteIngressUi();
      }
    }

    /** The ResourceManager's web Service and the Ingress itself. */
    method ReconcileUi() returns (e: Ending)
      requires Going() && n.expose.ingress.enabled
      requires var w := SwitchesOf(n);
               Next([if w.yarn && w.rmHost then Action.Ensure(SvcRmWeb) else Action.Drop(SvcRmWeb),
                     if w.anyRule then Action.Put(IngUi) else Action.Drop(IngUi)])
      modifies `pos, api
      ensures Ended(e) && (e == Fine ==> pos == old(pos) + 2)
    {
      hide Valid, StepBuilds, ReadParts;
      if n.yarn.enabled && Truthy(n.expose.ingress.rmHost) {
        e := Ensure(SvcRmWeb);
      } else {
        e := Drop(SvcRmWeb);
      }
      if e != Fine { return; }
      AnyRule(cr, n);
      var ing := BuildHadoopIngress(cr, n);
      if ing.Some? {
        e := Put(Ing(ing.value), IngUi);
      } else {
        e := Drop(IngUi);
      }
    }

    /** A NodePort Service that is either wanted or removed. */
    method Expose(r: Role, mode: ExposeMode) returns (e: Ending)
      requires Going() && pos < |plan| && IsService(r)
      requires plan[pos] == if mode == NodePort then Action.Ensure(r) else Action.Drop(r)
      modifies `pos, api
      ensures Ended(e) && old(pos) <= pos && (e == Fine ==> pos == old(pos) + 1)
    {
      hide Valid, StepBuilds, ReadParts;
      if mode == NodePort {
        e := Ensure(r);
      } else {
        e := Drop(r);
      }
    }

    method PutHdfs(revision: string) returns (e: Ending)
      requires Going() && revision == Revision(py, cr, n)
      requires Next([Action.Put(StsNameNode), Action.Put(StsDataNode), Action.Put(PdbNameNode)])
      modifies `pos, api
      ensures Ended(e) && (e == Fine ==> pos == old(pos) + 3)
    {
      hide Revision, Valid, StepBuilds, ReadParts;
      e := PutStatefulSet(StsNameNode, revision);
      if e != Fine { return; }
      e := PutStatefulSet(StsDataNode, revision);
      if e != Fine { return; }
      e := PutPdb();
    }

    method ReconcileHdfs(revision: string) returns (e: Ending)
      requires Going() && Next(HdfsSteps(SwitchesOf(n))) && revision == Revision(py, cr, n)
      modifies `pos, api
      ensures Ended(e) && (e == Fine ==> pos == old(pos) + |HdfsSteps(SwitchesOf(n))|)
    {
      hide Revision, Valid, StepBuilds, ReadParts;
      e := Expose(SvcDataNodeExternal, n.expose.datanodeWeb);
      if e != Fine { return; }
      e := Ensure(SvcDataNode);
      if e != Fine { return; }
      e := PutHdfs(revision);
    }

    method DeleteYarn() returns (e: Ending)
      requires Going() && !n.yarn.enabled && Next(YarnSteps(SwitchesOf(n)))
      modifies `pos, api
      ensures Ended(e) && (e == Fine ==> pos == old(pos) + 6)
    {
      hide Valid, StepBuilds, ReadParts;
      var services := [SvcRmExternal, SvcRm, SvcNmExternal, SvcNm];
      e := Fine;
      for i := 0 to 4
        invariant Going() && e == Fine && pos == old(pos) + i
      {
        e := Drop(services[i]);
        if e != Fine { return; }
      }
      e := Drop(StsRm);
      if e != Fine { return; }
      e := Drop(StsNm);
    }

    method EnsureYarnServices() returns (e: Ending)
      requires Going()
      requires Next([Action.Ensure(SvcRm),
                     if n.expose.resourcemanagerWeb == NodePort then Action.Ensure(SvcRmExternal) else Action.Drop(SvcRmExternal),
                     Action.Ensure(SvcNm),
                     if n.expose.nodemanagerWeb == NodePort then Action.Ensure(SvcNmExternal) else Action.Drop(SvcNmExternal)])
      modifies `pos, api
      ensures Ended(e) && (e == Fine ==> pos == old(pos) + 4)
    {
      hide Valid, StepBuilds, ReadParts;
      e := Ensure(SvcRm);
      if e != Fine { return; }
      e := Expose(SvcRmExternal, n.expose.resourcemanagerWeb);
      if e != Fine { return; }
      e := Ensure(SvcNm);
      if e != Fine { return; }
      e := Expose(SvcNmExternal, n.expose.nodemanagerWeb);
    }

    method PutYarn(revision: string) returns (e: Ending)
      requires Going() && pos + 1 < |plan| && plan[pos] == Action.Put(StsRm) && plan[pos + 1] == Action.Put(StsNm)
      requires revision == Revision(py, cr, n)
      modifies `pos, api
      ensures Ended(e) && (e == Fine ==> pos == old(pos) + 2)
    {
      hide Revision, Valid, StepBuilds, ReadParts;
      e := PutStatefulSet(StsRm, revision);
      if e != Fine { return; }
      e := PutStatefulSet(StsNm, revision);
    }

    method ReconcileYarn(revision: string) returns (e: Ending)
      requires Going() && Next(YarnSteps(SwitchesOf(n))) && revision == Revision(py, cr, n)
      modifies `pos, api
      ensures Ended(e) && (e == Fine ==> pos == old(pos) + 6)
    {
      hide Revision, Valid, StepBuilds, ReadParts;
      if !n.yarn.enabled {
        e := DeleteYarn();
        return;
      }
      e := EnsureYarnServices();
      if e != Fine { return; }
      e := PutYarn(revision);
    }

    lemma NextAt(before: seq<Action>, steps: seq<Action>, rest: seq<Action>)
      requires plan == before + steps + rest && pos == |before|
      ensures Next(steps)
    {
    }

    /** The first half of `_reconcile`: configuration, quorums, NameNode exposure. */
    method ReconcileFirst() returns (e: Ending, revision: string)
      requires Going() && pos == 0 && plan == Plan(SwitchesOf(n)) && CanonicalHa(n.hdfs.ha)
      modifies `pos, api
      ensures Ended(e)
      ensures e == Fine ==> revision == Revision(py, cr, n) && pos == |FirstSteps(SwitchesOf(n))|
    {
      hide Revision, Valid, StepBuilds, ReadParts;
      ghost var w := SwitchesOf(n);
      ghost var a, b, c := ConfigSteps(w), QuorumSteps(w), NameNodeExposureSteps(w);
      PlanParts(w);
      NextAt([], a, b + c + LastSteps(w));
      e, revision := ReconcileConfig();
      if e != Fine { return; }
      NextAt(a, b, c + LastSteps(w));
      e := ReconcileQuorum(revision);
      if e != Fine { return; }
      NextAt(a + b, c, LastSteps(w));
      e := ReconcileNameNodeExposure();
    }

    /** The second half: Ingress, HDFS, YARN. */
    method ReconcileLast(revision: string) returns (e: Ending)
      requires Going() && plan == Plan(SwitchesOf(n)) && CanonicalHa(n.hdfs.ha)
      requires pos == |FirstSteps(SwitchesOf(n))| && revision == Revision(py, cr, n)
      modifies `pos, api
      ensures Ended(e) && (e == Fine ==> pos == |plan|)
    {
      hide Revision, Valid, StepBuilds, ReadParts;
      ghost var w := SwitchesOf(n);
      ghost var first, ingress, hdfs, yarn := FirstSteps(w), IngressSteps(w), HdfsSteps(w), YarnSteps(w);
      PlanParts(w);
      NextAt(first, ingress, hdfs + yarn);
      e := ReconcileIngress();
      if e != Fine { return; }
      NextAt(first + ingress, hdfs, yarn);
      e := ReconcileHdfs(revision);
      if e != Fine { return; }
      NextAt(first + ingress + hdfs, yarn, []);
      e := ReconcileYarn(revision);
    }

    /** `_reconcile`, after normalisation. */
    method Reconcile() returns (e: Ending)
      requires Going() && pos == 0 && plan == Plan(SwitchesOf(n)) && CanonicalHa(n.hdfs.ha)
      modifies `pos, api
      ensures Ended(e) && (e == Fine ==> pos == |plan|)
    {
      hide Revision, Valid, StepBuilds, ReadParts;
      var revision;
      e, revision := ReconcileFirst();
      if e != Fine { return; }
      e := ReconcileLast(revision);
    }
  }

  ghost function FirstSteps(w: Switches): seq<Action>
  {
    ConfigSteps(w) + QuorumSteps(w) + NameNodeExposureSteps(w)
  }

  ghost function LastSteps(w: Switches): seq<Action>
  {
    IngressSteps(w) + HdfsSteps(w) + YarnSteps(w)
  }

  lemma PlanParts(w: Switches)
    ensures var p, a, b, c := Plan(w), ConfigSteps(w), QuorumSteps(w), NameNodeExposureSteps(w);
      && p == [] + a + (b + c + LastSteps(w))
      && p == a + b + (c + LastSteps(w))
      && p == (a + b) + c + LastSteps(w)
    ensures var p, q, d, e, f := Plan(w), FirstSteps(w), IngressSteps(w), HdfsSteps(w), YarnSteps(w);
      && p == q + d + (e + f)
      && p == (q + d) + e + f
      && p == (q + d + e) + f + []
  {
    Regroup(ConfigSteps(w), QuorumSteps(w), NameNodeExposureSteps(w), IngressSteps(w), HdfsSteps(w), YarnSteps(w));
  }

  lemma Regroup(a: seq<Action>, b: seq<Action>, c: seq<Action>, d: seq<Action>, e: seq<Action>, f: seq<Action>)
    ensures var p, q, l := a + b + c + d + e + f, a + b + c, d + e + f;
      && p == [] + a + (b + c + l) && p == a + b + (c + l) && p == (a + b) + c + l
      && p == q + d + (e + f) && p == (q + d) + e + f && p == (q + d + e) + f + []
  {
  }

  /** How the handler ends: done, retried by the framework after an API error,
      or ended by another exception. */
  datatype Outcome = Done | TemporaryError | Crashed(error: PyError)

  /** The exception a specification leads to, when no API call fails. */
  function ExceptionOf(spec: Json): Option<PyError>
  {
    match NormalizeSpec(spec)
    case Err(e) => Some(e)
    case Ok(n) => if Reach(n) < |Plan(SwitchesOf(n))| then Some(CrashError(n)) else None
  }

  /** Where a run stopped: at the end, at a failed call, or at the first builder that raises. */
  ghost predicate Stopped(n: Norm, pos: nat, e: Ending)
  {
    pos <= Reach(n) &&
    match e
    case Fine => pos == Reach(n) == |Plan(SwitchesOf(n))|
    case ApiError => true
    case Raised(error) => pos == Reach(n) < |Plan(SwitchesOf(n))| && error == CrashError(n)
  }

  lemma StoppedAt(n: Norm, plan: seq<Action>, pos: nat, e: Ending)
    requires plan == Plan(SwitchesOf(n)) && BuiltSteps(n, plan, pos)
    requires e == Fine ==> pos == |plan|
    requires e.Raised? ==> pos < |plan| && !StepBuilds(n, plan[pos]) && e.error == ReadParts(n, plan[pos].role).error
    ensures Stopped(n, pos, e)
  {
    WithinReach(n, pos);
    if e != ApiError { StopsAtReach(n, pos); }
  }

  lemma AttemptAfter(py: Python, cr: Cr, n: Norm, initial: Store, base: seq<Op>, pos: nat, log: seq<Op>)
    requires pos <= |Plan(SwitchesOf(n))| && log == base + ConcreteAll(py, cr, n, Plan(SwitchesOf(n))[..pos])
    ensures Run(initial, log) == RunAttempt(py, cr, Run(initial, base), Attempt(n, pos))
  {
    RunConcat(initial, base, ConcreteAll(py, cr, n, Plan(SwitchesOf(n))[..pos]));
  }

  /** `_reconcile`, on a specification that could be normalised. */
  method RunHandler(py: Python, api: ApiServer, cr: Cr, n: Norm) returns (e: Ending, ghost pos: nat)
    requires api.Valid() && CanonicalHa(n.hdfs.ha)
    modifies api
    ensures api.Valid() && Stopped(n, pos, e)
    ensures api.failures >= old(api.failures) && (e == ApiError <==> api.failures > old(api.failures))
    ensures api.objects == RunAttempt(py, cr, old(api.objects), Attempt(n, pos))
  {
    hide Run, ConcreteAll, BuiltSteps, StepBuilds, ReadParts, Plan, CanonicalHa, Reach, Stopped;
    var handler := new Handler(py, api, cr, n);
    e := handler.Reconcile();
    pos := handler.pos;
    StoppedAt(n, handler.plan, pos, e);
    AttemptAfter(py, cr, n, api.initial, handler.base, pos, api.log);
  }

  /** `reconcile_hadoop`: an API error is reported exactly if a call failed, and
      leaves some prefix of the run's steps. Otherwise the specification alone
      decides: a run that completes turns the store into `Reconciled`; one that
      cannot be normalised changes nothing; and one whose builders raise leaves
      exactly the steps before the first such builder. */
  method ReconcileHadoop(py: Python, api: ApiServer, cr: Cr, spec: Json) returns (r: Outcome)
    requires api.Valid()
    modifies api
    ensures api.Valid()
    ensures api.failures >= old(api.failures) && (r.TemporaryError? <==> api.failures > old(api.failures))
    ensures !r.TemporaryError? ==> r == match ExceptionOf(spec) case None => Done case Some(e) => Crashed(e)
    ensures r.Done? ==> api.objects == Reconciled(py, cr, NormalizeSpec(spec).value, old(api.objects))
    ensures NormalizeSpec(spec).Err? ==> api.objects == old(api.objects)
    ensures NormalizeSpec(spec).Ok? && r.Crashed? ==>
      var n := NormalizeSpec(spec).value; api.objects == RunAttempt(py, cr, old(api.objects), Attempt(n, Reach(n)))
    ensures r.TemporaryError? ==> NormalizeSpec(spec).Ok? && exists steps: nat ::
      steps <= Reach(NormalizeSpec(spec).value) &&
      api.objects == RunAttempt(py, cr, old(api.objects), Attempt(NormalizeSpec(spec).value, steps))
  {
    hide NormalizeSpec, Run, Reach, CrashError, Plan, ConcreteAll;
    var norm := NormalizeSpec(spec);
    if norm.Err? { return Crashed(norm.error); }
    NormalCanonical(spec);
    WholeAttempt(py, cr, api.objects, norm.value);
    var e;
    ghost var pos;
    e, pos := RunHandler(py, api, cr, norm.value);
    match e
    case Fine => r := Done;
    case ApiError => r := TemporaryError;
    case Raised(error) => r := Crashed(error);
  }

  lemma NormalCanonical(spec: Json)
    requires NormalizeSpec(spec).Ok?
    ensures Canonical(NormalizeSpec(spec).value) && CanonicalHa(NormalizeSpec(spec).value.hdfs.ha)
  {
    AssembleCanonical(ReadSections(spec).value, NormalizeSpec(spec).value);
  }

  /** Without API errors a call completes if and only if the specification can be
      normalised and is buildable. */
  lemma CompletesExactly(spec: Json)
    ensures ExceptionOf(spec).None? <==> NormalizeSpec(spec).Ok? && Buildable(NormalizeSpec(spec).value)
  {
    if NormalizeSpec(spec).Ok? {
      var n := NormalizeSpec(spec).value;
      NormalCanonical(spec);
      BuildableExactly(n);
    }
  }

  /** The store is the desired one for this spec. */
  ghost predicate Settled(py: Python, cr: Cr, spec: Json, before: Store, after: Store)
  {
    ExceptionOf(spec).None? && Matches(py, cr, NormalizeSpec(spec).value, before, after)
  }

  /** What one call of the handler did to the store. */
  ghost predicate Handled(py: Python, cr: Cr, spec: Json, r: Outcome, before: Store, after: Store)
  {
    && (r.Done? ==> ExceptionOf(spec).None? && after == Reconciled(py, cr, NormalizeSpec(spec).value, before))
    && (NormalizeSpec(spec).Err? ==> after == before)
    && (NormalizeSpec(spec).Ok? && !r.Done? ==>
          exists steps: nat :: steps <= Reach(NormalizeSpec(spec).value) &&
            after == RunAttempt(py, cr, before, Attempt(NormalizeSpec(spec).value, steps)))
  }

  /** The store is what a series of whole and partial runs made of the first one. */
  ghost predicate FromHistory(py: Python, cr: Cr, start: Store, h: seq<Attempt>, now: Store)
  {
    (forall t <- h :: ValidAttempt(t)) && now == RunHistory(py, cr, start, h)
  }

  /** One call by the framework. */
  method HandleOne(py: Python, api: ApiServer, cr: Cr, spec: Json) returns (r: Outcome)
    requires api.Valid()
    modifies api
    ensures api.Valid() && api.failures >= old(api.failures)
    ensures Handled(py, cr, spec, r, old(api.objects), api.objects)
    ensures api.failures == old(api.failures) ==> (r.Done? <==> ExceptionOf(spec).None?)
  {
    ghost var before := api.objects;
    r := ReconcileHadoop(py, api, cr, spec);
    if NormalizeSpec(spec).Ok? && r.Crashed? {
      ghost var t := Attempt(NormalizeSpec(spec).value, Reach(NormalizeSpec(spec).value));
      assert t.steps <= Reach(t.n) && api.objects == RunAttempt(py, cr, before, t);
    }
  }

  /** The framework calling the handler for a series of events, again after every
      exception, with whatever the spec is by then. If the last call completes,
      the store is exactly the desired one, whatever happened before; and if no
      call of the series failed, the last one completes exactly if its spec can
      be normalised and built. */
  method HandleEvents(py: Python, api: ApiServer, cr: Cr, specs: seq<Json>) returns (last: Outcome)
    requires api.Valid() && specs != [] && ServicesCurrent(cr, api.objects)
    modifies api
    ensures api.Valid()
    ensures last.Done? ==> Settled(py, cr, specs[|specs| - 1], old(api.objects), api.objects)
    ensures api.failures == old(api.failures) ==> (last.Done? <==> ExceptionOf(specs[|specs| - 1]).None?)
  {
    ghost var start := api.objects;
    ghost var history: seq<Attempt> := [];
    last := TemporaryError;
    for i := 0 to |specs|
      invariant api.Valid() && api.failures >= old(api.failures)
      invariant FromHistory(py, cr, start, history, api.objects)
      invariant last.Done? && i > 0 ==> Settled(py, cr, specs[i - 1], start, api.objects)
      invariant api.failures == old(api.failures) && i > 0 ==> (last.Done? <==> ExceptionOf(specs[i - 1]).None?)
    {
      ghost var before := api.objects;
      last := HandleOne(py, api, cr, specs[i]);
      history := Extended(py, cr, start, history, specs[i], last, before, api.objects);
    }
  }

  /** One more handled event extends the history by one attempt, or by none. */
  lemma Extended(py: Python, cr: Cr, start: Store, h: seq<Attempt>, spec: Json, r: Outcome, before: Store, after: Store)
    returns (g: seq<Attempt>)
    requires FromHistory(py, cr, start, h, before) && ServicesCurrent(cr, start)
    requires Handled(py, cr, spec, r, before, after)
    ensures FromHistory(py, cr, start, g, after)
    ensures r.Done? ==> Settled(py, cr, spec, start, after)
  {
    if NormalizeSpec(spec).Err? {
      g := h;
    } else if !r.Done? {
      var n := NormalizeSpec(spec).value;
      var steps: nat :| steps <= Reach(n) && after == RunAttempt(py, cr, before, Attempt(n, steps));
      OneMoreAttempt(py, cr, start, h, Attempt(n, steps));
      g := h + [Attempt(n, steps)];
    } else {
      var n := NormalizeSpec(spec).value;
      var t := Attempt(n, |Plan(SwitchesOf(n))|);
      WholeAttempt(py, cr, before, n);
      OneMoreAttempt(py, cr, start, h, t);
      g := h + [t];
      HistoryIndependence(py, cr, start, h, n);
    }
  }

  lemma OneMoreAttempt(py: Python, cr: Cr, s: Store, h: seq<Attempt>, t: Attempt)
    requires (forall u <- h :: ValidAttempt(u)) && ValidAttempt(t)
    ensures forall u <- h + [t] :: ValidAttempt(u)
    ensures RunHistory(py, cr, s, h + [t]) == RunAttempt(py, cr, RunHistory(py, cr, s, h), t)
  {
    assert (h + [t])[..|h|] == h;
  }

  lemma WholeAttempt(py: Python, cr: Cr, s: Store, n: Norm)
    ensures RunAttempt(py, cr, s, Attempt(n, |Plan(SwitchesOf(n))|)) == Reconciled(py, cr, n, s)
  {
    var p := Plan(SwitchesOf(n));
    assert p[..|p|] == p;
  }

  /** An Ingress is built exactly when some rule has a host. */
  lemma AnyRule(cr: Cr, n: Norm)
    ensures BuildHadoopIngress(cr, n).Some? <==> n.expose.ingress.enabled && SwitchesOf(n).anyRule
  {
  }
}
