/**
 * The APIEndpoint reconciler: one pass over one APIEndpoint object. It
 * registers its finalizer, or, when the object is being deleted, deletes the
 * API in Gravitee before releasing the finalizer; otherwise it either
 * creates the API (empty status ID) or, when the status is stale, pushes the
 * specification to the API it already created, and asks to be run again
 * after the configured period.
 *
 * The object is a class whose finalizers and status the pass updates in
 * place; its specification, namespace, generation and deletion mark are
 * fixed for the pass. Each step is a method proved against a function
 * giving the collaborators' final snapshot, the object and the outcome.
 */
module EndpointController {
  import opened Types
  import opened Gateway
  import opened StubHelpers
  import opened ApiStubs
  import opened PlanSync
  import opened Deletion
  import opened Target

  const FinalizerName := "apiendpoint.platform.my.domain/finalizer"

  /** The fields of an APIEndpoint object that a pass reads or writes. */
  datatype Endpoint = Endpoint(
    spec: EndpointSpec,
    namespace: string,
    generation: int,
    deleting: bool,
    finalizers: seq<string>,
    status: Status)

  class APIEndpoint {
    const spec: EndpointSpec
    const namespace: string
    const generation: int
    const deleting: bool
    var finalizers: seq<string>
    var status: Status

    function Value(): Endpoint
      reads this
    {
      Endpoint(spec, namespace, generation, deleting, finalizers, status)
    }

    constructor (e: Endpoint)
      ensures Value() == e
    {
      spec, namespace, generation, deleting := e.spec, e.namespace, e.generation, e.deleting;
      finalizers, status := e.finalizers, e.status;
    }
  }

  /** A step's final snapshot, object and outcome. */
  datatype Step = Step(trace: Trace, obj: Endpoint, out: Outcome)

  /** A pass's final snapshot, object, outcome and the result handed back to the dispatcher. */
  datatype Pass = Pass(trace: Trace, obj: Endpoint, out: Outcome, result: CtrlResult)

  /** The status recording an API: its ID and last-modified time, and the object's generation. */
  function Recorded(e: Endpoint, api: ApiEntity): Endpoint {
    e.(status := Status(api.id, api.updatedAt, e.generation))
  }

  /**
   * The staleness test: the status lags the object's generation or, when
   * the API was read, the API's last change. The second operand is only
   * looked at when the first is false.
   */
  predicate Stale(status: Status, generation: int, api: Option<ApiEntity>) {
    status.updatedGeneration < generation || (api.Some? && status.updatedAt < api.value.updatedAt)
  }

  // UpdateCRD

  /** UpdateCRD: record the generation in the status and write the status. */
  function UpdateCRDRun(t: Trace, e: Endpoint): Step {
    var e' := e.(status := e.status.(updatedGeneration := e.generation));
    var c := UpdateStatus(e'.status);
    Step(Issue(t, c), e', if Accepted(t, c) then Ok else Fail(CallFailed(|t.log|)))
  }

  /**
   * UpdateCRD changes only the status's generation, to the object's, and
   * issues exactly one status write carrying the new status.
   */
  lemma UpdateCRDWrites(t: Trace, e: Endpoint)
    ensures var r := UpdateCRDRun(t, e);
      && r.obj.status.updatedGeneration == e.generation
      && r.obj.status.id == e.status.id && r.obj.status.updatedAt == e.status.updatedAt
      && r.obj == e.(status := r.obj.status)
      && Extends(t, r.trace) && Since(t, r.trace) == [UpdateStatus(r.obj.status)]
      && r.trace.store == t.store
      && (r.out.Ok? <==> |t.log| !in t.faults)
  {
    var c := UpdateStatus(e.status.(updatedGeneration := e.generation));
    IssueExtends(t, c);
    ReadOnlyEffect(t.store, c);
  }

  method UpdateCRD(b: Backend, obj: APIEndpoint) returns (out: Outcome)
    modifies b, obj
    ensures Step(b.Snapshot(), obj.Value(), out) == UpdateCRDRun(old(b.Snapshot()), old(obj.Value()))
  {
    obj.status := obj.status.(updatedGeneration := obj.generation);
    var at := |b.log|;
    var ok, reply := b.Invoke(UpdateStatus(obj.status));
    out := if ok then Ok else Fail(CallFailed(at));
  }

  // The finalizer

  /** Registering the finalizer: when missing, append it and write the object; a refused write is returned. */
  function RegisterRun(t: Trace, e: Endpoint): Step {
    if ContainsString(e.finalizers, FinalizerName) then Step(t, e, Ok)
    else
      var e' := e.(finalizers := e.finalizers + [FinalizerName]);
      var c := UpdateObject(e'.finalizers);
      Step(Issue(t, c), e', if Accepted(t, c) then Ok else Fail(CallFailed(|t.log|)))
  }

  lemma RegisterWrites(t: Trace, e: Endpoint)
    ensures var r := RegisterRun(t, e);
      && Extends(t, r.trace) && r.trace.store == t.store
      && (FinalizerName in e.finalizers ==> r.trace == t && r.obj == e && r.out == Ok)
      && (FinalizerName !in e.finalizers ==>
            && r.obj == e.(finalizers := e.finalizers + [FinalizerName])
            && Since(t, r.trace) == [UpdateObject(r.obj.finalizers)]
            && (r.out.Ok? <==> |t.log| !in t.faults)
            && (!r.out.Ok? ==> r.out == Fail(CallFailed(|t.log|))))
  {
    if FinalizerName !in e.finalizers {
      var c := UpdateObject(e.finalizers + [FinalizerName]);
      IssueExtends(t, c);
      ReadOnlyEffect(t.store, c);
    } else {
      assert t.log[..|t.log|] == t.log;
    }
  }

  method Register(b: Backend, obj: APIEndpoint) returns (out: Outcome)
    modifies b, obj
    ensures Step(b.Snapshot(), obj.Value(), out) == RegisterRun(old(b.Snapshot()), old(obj.Value()))
  {
    if ContainsString(obj.finalizers, FinalizerName) {
      return Ok;
    }
    obj.finalizers := obj.finalizers + [FinalizerName];
    var at := |b.log|;
    var ok, reply := b.Invoke(UpdateObject(obj.finalizers));
    out := if ok then Ok else Fail(CallFailed(at));
  }

  /**
   * Finalizing a deleted object: when the finalizer is present, delete the
   * API; only if that succeeds, drop the finalizer and write the object.
   * DeleteAPI's error or abort is the step's.
   */
  function FinalizeRun(t: Trace, e: Endpoint): Step {
    if !ContainsString(e.finalizers, FinalizerName) then Step(t, e, Ok)
    else
      var d := DeleteAPIRun(t, e.status.id);
      if !d.out.Ok? then Step(d.trace, e, d.out)
      else
        var e' := e.(finalizers := RemoveString(e.finalizers, FinalizerName));
        var c := UpdateObject(e'.finalizers);
        Step(Issue(d.trace, c), e', if Accepted(d.trace, c) then Ok else Fail(CallFailed(|d.trace.log|)))
  }

  method Finalize(b: Backend, obj: APIEndpoint) returns (out: Outcome)
    modifies b, obj
    ensures Step(b.Snapshot(), obj.Value(), out) == FinalizeRun(old(b.Snapshot()), old(obj.Value()))
  {
    if !ContainsString(obj.finalizers, FinalizerName) {
      return Ok;
    }
    out := DeleteAPI(b, obj.status.id);
    if !out.Ok? {
      return;
    }
    obj.finalizers := RemoveString(obj.finalizers, FinalizerName);
    var at := |b.log|;
    var ok, reply := b.Invoke(UpdateObject(obj.finalizers));
    out := if ok then Ok else Fail(CallFailed(at));
  }

  // Pushing the specification to the API

  /**
   * The steps both branches share: resolve the target, update the API,
   * sync its plans, deploy the API read or found (None: nil, dereferenced
   * at the deploy). The update, plan and deploy errors are only logged; a
   * panic in any of them, or a nil API, aborts the pass.
   */
  function PushRun(t: Trace, e: Endpoint, cfg: Config, deploy: Option<Id>): (r: Step)
    ensures deploy.None? ==> r.out.Panic?
    ensures !r.out.Fail? && r.obj == e
  {
    var tg := GetAPITargetRun(t, e.spec, e.namespace, cfg);
    if tg.out.Panic? then Step(tg.trace, e, Panic)
    else
      var u := UpdateAPIRun(tg.trace, e.spec, e.status.id, tg.value);
      if u.out.Panic? then Step(u.trace, e, Panic)
      else
        var p := UpdateAPIPlansRun(u.trace, e.status.id, e.spec.plans);
        if p.out.Panic? || deploy.None? then Step(p.trace, e, Panic)
        else Step(DeployAPIRun(p.trace, deploy.value).trace, e, Ok)
  }

  /** A push only appends to the log. */
  lemma PushExtends(t: Trace, e: Endpoint, cfg: Config, deploy: Option<Id>)
    ensures Extends(t, PushRun(t, e, cfg, deploy).trace)
  {
    var tg := GetAPITargetRun(t, e.spec, e.namespace, cfg);
    GetAPITargetExtends(t, e.spec, e.namespace, cfg);
    if !tg.out.Panic? {
      var u := UpdateAPIRun(tg.trace, e.spec, e.status.id, tg.value);
      UpdateAPIExtends(tg.trace, e.spec, e.status.id, tg.value);
      ExtendsTrans(t, tg.trace, u.trace);
      if !u.out.Panic? {
        var p := UpdateAPIPlansRun(u.trace, e.status.id, e.spec.plans);
        UpdateAPIPlansExtends(u.trace, e.status.id, e.spec.plans);
        ExtendsTrans(t, u.trace, p.trace);
        if !p.out.Panic? && deploy.Some? {
          DeployAPIExtends(p.trace, deploy.value);
          ExtendsTrans(t, p.trace, DeployAPIRun(p.trace, deploy.value).trace);
        }
      }
    }
  }

  /** A push only appends to the log; one that completes ends with the deploy and the START of the API. */
  lemma PushEnds(t: Trace, e: Endpoint, cfg: Config, deploy: Option<Id>)
    ensures Extends(t, PushRun(t, e, cfg, deploy).trace)
    ensures var r := PushRun(t, e, cfg, deploy); var log := Calls(r.trace.log);
      r.out.Ok? ==> |log| >= 2 && log[|log| - 2..] == [DeployApi(deploy.value), DoLifecycleAction(deploy.value, Start)]
  {
    PushExtends(t, e, cfg, deploy);
    var r := PushRun(t, e, cfg, deploy);
    if r.out.Ok? {
      PushSteps(t, e, cfg, deploy);
      var tg := GetAPITargetRun(t, e.spec, e.namespace, cfg);
      var u := UpdateAPIRun(tg.trace, e.spec, e.status.id, tg.value);
      var p := UpdateAPIPlansRun(u.trace, e.status.id, e.spec.plans);
      DeployAPIStarts(p.trace, deploy.value);
      var log := Calls(r.trace.log);
      assert log == Calls(p.trace.log) + [DeployApi(deploy.value), DoLifecycleAction(deploy.value, Start)];
    }
  }

  /**
   * A push that completes issued, in order: the Service read when the
   * target names a Service, the update of the API with the resolved target
   * and the CORS settings, the plan listing and every plan write, then the
   * deploy and the START.
   */
  lemma PushIssues(t: Trace, e: Endpoint, cfg: Config, deploy: Option<Id>)
    ensures var r := PushRun(t, e, cfg, deploy);
      var tg := GetAPITargetRun(t, e.spec, e.namespace, cfg);
      r.out.Ok? ==>
        && tg.value.Some? && e.spec.cors.Some? && deploy.Some?
        && Since(t, r.trace)
           == (if e.spec.targetService != "" then [GetService(e.namespace, e.spec.targetService)] else [])
              + [UpdateApi(e.status.id, ApiUpdateFor(e.spec, tg.value.value, e.spec.cors.value)), ListPlans(e.status.id)]
              + PlanWrites(e.status.id, e.spec.plans,
                           PublishedPlansOf(UpdateAPIRun(tg.trace, e.spec, e.status.id, tg.value).trace.store.plans, e.status.id))
              + [DeployApi(deploy.value), DoLifecycleAction(deploy.value, Start)]
  {
    var r := PushRun(t, e, cfg, deploy);
    PushSteps(t, e, cfg, deploy);
    if r.out.Ok? {
      var tg := GetAPITargetRun(t, e.spec, e.namespace, cfg);
      var u := UpdateAPIRun(tg.trace, e.spec, e.status.id, tg.value);
      var p := UpdateAPIPlansRun(u.trace, e.status.id, e.spec.plans);
      var d := DeployAPIRun(p.trace, deploy.value);
      GetAPITargetExtends(t, e.spec, e.namespace, cfg);
      UpdateAPIExtends(tg.trace, e.spec, e.status.id, tg.value);
      UpdateAPIPlansExtends(u.trace, e.status.id, e.spec.plans);
      UpdateAPIPlansCalls(u.trace, e.status.id, e.spec.plans);
      DeployAPIExtends(p.trace, deploy.value);
      SinceChain(t, tg.trace, u.trace, p.trace, d.trace);
      PushRegroup(Since(t, tg.trace), UpdateApi(e.status.id, ApiUpdateFor(e.spec, tg.value.value, e.spec.cors.value)),
                  ListPlans(e.status.id), PlanWrites(e.status.id, e.spec.plans, PublishedPlansOf(u.trace.store.plans, e.status.id)),
                  Since(p.trace, d.trace));
    }
  }

  /** The stretches of a push, regrouped: the update and the listing side by side. */
  lemma PushRegroup(a: seq<Call>, update: Call, list: Call, writes: seq<Call>, d: seq<Call>)
    ensures a + [update] + ([list] + writes) + d == a + [update, list] + writes + d
  {
    assert [update] + ([list] + writes) == [update, list] + writes;
  }

  /** Which branch of a push completed: a target, CORS settings, a plan sync that went through, a deploy. */
  lemma PushSteps(t: Trace, e: Endpoint, cfg: Config, deploy: Option<Id>)
    ensures var r := PushRun(t, e, cfg, deploy);
      var tg := GetAPITargetRun(t, e.spec, e.namespace, cfg);
      var u := UpdateAPIRun(tg.trace, e.spec, e.status.id, tg.value);
      var p := UpdateAPIPlansRun(u.trace, e.status.id, e.spec.plans);
      r.out.Ok? ==>
        && tg.value.Some? && e.spec.cors.Some? && deploy.Some? && p.out.Ok?
        && r.trace == DeployAPIRun(p.trace, deploy.value).trace
  {
  }

  /** The calls since a snapshot, over four consecutive stretches of a growing log. */
  lemma SinceChain(t0: Trace, t1: Trace, t2: Trace, t3: Trace, t4: Trace)
    requires Extends(t0, t1) && Extends(t1, t2) && Extends(t2, t3) && Extends(t3, t4)
    ensures Since(t0, t4) == Since(t0, t1) + Since(t1, t2) + Since(t2, t3) + Since(t3, t4)
  {
    SinceSplit(t0, t1, t2);
    ExtendsTrans(t0, t1, t2);
    SinceSplit(t0, t2, t3);
    ExtendsTrans(t0, t2, t3);
    SinceSplit(t0, t3, t4);
  }

  method Push(b: Backend, obj: APIEndpoint, cfg: Config, deploy: Option<Id>) returns (out: Outcome)
    modifies b
    ensures Step(b.Snapshot(), obj.Value(), out) == PushRun(old(b.Snapshot()), obj.Value(), cfg, deploy)
  {
    var target;
    out, target := GetAPITarget(b, obj.spec, obj.namespace, cfg);
    if out.Panic? {
      return;
    }
    out := UpdateAPI(b, obj.spec, obj.status.id, target);
    if out.Panic? {
      return;
    }
    out := UpdateAPIPlans(b, obj.status.id, obj.spec.plans);
    if out.Panic? || deploy.None? {
      return Panic;
    }
    out := DeployAPI(b, deploy.value);
  }

  // The update branch (non-empty status ID)

  /**
   * Read the API by the status ID; if the status is stale, push, then record
   * the API read before the push in the status and write it (its error is
   * only logged). A failed read leaves the API nil: the staleness test
   * dereferences it unless the generation alone decides, and the deploy
   * always does.
   */
  function UpdateBranchRun(t: Trace, e: Endpoint, cfg: Config): (r: Step)
    ensures !r.out.Fail? && r.obj == e.(status := r.obj.status)
  {
    var g := GetAPIRun(t, e.status.id);
    if !(e.status.updatedGeneration < e.generation) && g.value.None? then Step(g.trace, e, Panic)
    else if !Stale(e.status, e.generation, g.value) then Step(g.trace, e, Ok)
    else
      var p := PushRun(g.trace, e, cfg, if g.value.Some? then Some(g.value.value.id) else None);
      if p.out.Panic? then p
      else
        var crd := UpdateCRDRun(p.trace, Recorded(e, g.value.value));
        Step(crd.trace, crd.obj, Ok)
  }

  lemma UpdateBranchExtends(t: Trace, e: Endpoint, cfg: Config)
    ensures Extends(t, UpdateBranchRun(t, e, cfg).trace)
  {
    var g := GetAPIRun(t, e.status.id);
    GetAPIExtends(t, e.status.id);
    if Stale(e.status, e.generation, g.value) {
      var deploy := if g.value.Some? then Some(g.value.value.id) else None;
      var p := PushRun(g.trace, e, cfg, deploy);
      PushEnds(g.trace, e, cfg, deploy);
      ExtendsTrans(t, g.trace, p.trace);
      if !p.out.Panic? {
        UpdateCRDWrites(p.trace, Recorded(e, g.value.value));
        ExtendsTrans(t, p.trace, UpdateCRDRun(p.trace, Recorded(e, g.value.value)).trace);
      }
    }
  }

  /** When the API is read and the status is not stale, nothing but the read is issued and nothing changes. */
  lemma UpdateBranchIdle(t: Trace, e: Endpoint, cfg: Config)
    requires GetAPIRun(t, e.status.id).value.Some?
    requires !Stale(e.status, e.generation, GetAPIRun(t, e.status.id).value)
    ensures var r := UpdateBranchRun(t, e, cfg);
      r.out == Ok && r.obj == e && r.trace.store == t.store && Since(t, r.trace) == [GetApi(e.status.id)]
  {
    GetAPIExtends(t, e.status.id);
    GetAPIReads(t, e.status.id);
  }

  /** A failed read of the API always aborts the pass, at the staleness test or at the deploy. */
  lemma UpdateBranchUnreadable(t: Trace, e: Endpoint, cfg: Config)
    requires GetAPIRun(t, e.status.id).value.None?
    ensures UpdateBranchRun(t, e, cfg).out == Panic
  {
  }

  /**
   * A stale pass that completes records the API read before the push (its
   * ID and last-modified time) with the object's generation, whatever the
   * update, the plan sync and the deploy answered, and ends by deploying
   * and starting that API and then writing the status.
   */
  lemma UpdateBranchRecords(t: Trace, e: Endpoint, cfg: Config)
    requires Stale(e.status, e.generation, GetAPIRun(t, e.status.id).value)
    ensures var r := UpdateBranchRun(t, e, cfg); var g := GetAPIRun(t, e.status.id);
      r.out.Ok? ==>
        && g.value.Some? && g.value.value.id == e.status.id
        && r.obj == Recorded(e, g.value.value)
        && var log := Calls(r.trace.log);
           |log| >= 3
           && log[|log| - 3..] == [DeployApi(e.status.id), DoLifecycleAction(e.status.id, Start), UpdateStatus(r.obj.status)]
  {
    var r := UpdateBranchRun(t, e, cfg);
    var g := GetAPIRun(t, e.status.id);
    GetAPIReads(t, e.status.id);
    if r.out.Ok? {
      var api := g.value.value;
      var p := PushRun(g.trace, e, cfg, Some(api.id));
      PushEnds(g.trace, e, cfg, Some(api.id));
      var crd := UpdateCRDRun(p.trace, Recorded(e, api));
      UpdateCRDWrites(p.trace, Recorded(e, api));
      CallsAppend(p.trace.log, [crd.trace.log[|crd.trace.log| - 1]]);
      assert crd.trace.log == p.trace.log + [crd.trace.log[|crd.trace.log| - 1]];
    }
  }

  method UpdateBranch(b: Backend, obj: APIEndpoint, cfg: Config) returns (out: Outcome)
    modifies b, obj
    ensures Step(b.Snapshot(), obj.Value(), out) == UpdateBranchRun(old(b.Snapshot()), old(obj.Value()), cfg)
  {
    var got, api := GetAPI(b, obj.status.id);
    if !(obj.status.updatedGeneration < obj.generation) && api.None? {
      return Panic;
    }
    if !Stale(obj.status, obj.generation, api) {
      return Ok;
    }
    out := Push(b, obj, cfg, if api.Some? then Some(api.value.id) else None);
    if out.Panic? {
      return;
    }
    obj.status := Status(api.value.id, api.value.updatedAt, obj.generation);
    var written := UpdateCRD(b, obj);
    out := Ok;
  }

  // The create branch (empty status ID)

  /** The search that follows the create, by the specification's context path. */
  function SearchAfterCreate(t: Trace, e: Endpoint): Answered<ApiEntity> {
    SearchAPIRun(CreateAPIRun(t, e.spec).trace, e.spec.contextPath)
  }

  /**
   * Create the API (its error is only logged) and search for it by context
   * path. If exactly one API is found, record it in the status, write the
   * status (its error is only logged), and push to it.
   */
  function CreateBranchRun(t: Trace, e: Endpoint, cfg: Config): (r: Step)
    ensures !r.out.Fail? && r.obj == e.(status := r.obj.status)
  {
    var s := SearchAfterCreate(t, e);
    if s.out.Panic? then Step(s.trace, e, Panic)
    else if s.value.None? then Step(s.trace, e, Ok)
    else
      var crd := UpdateCRDRun(s.trace, Recorded(e, s.value.value));
      PushRun(crd.trace, crd.obj, cfg, Some(s.value.value.id))
  }

  /** The create and the search are the branch's first two calls. */
  lemma SearchAfterCreateSince(t: Trace, e: Endpoint)
    ensures var s := SearchAfterCreate(t, e);
      Extends(t, s.trace) && Since(t, s.trace) == [CreateApi(NewApiFor(e.spec)), SearchApis(e.spec.contextPath)]
  {
    var c := CreateAPIRun(t, e.spec);
    CreateAPIExtends(t, e.spec);
    SearchAPIExtends(c.trace, e.spec.contextPath);
    SinceSplit(t, c.trace, SearchAfterCreate(t, e).trace);
    ExtendsTrans(t, c.trace, SearchAfterCreate(t, e).trace);
  }

  /** After a search that found one API: the status write of the recorded object, then the push to that API. */
  lemma CreateBranchFound(t: Trace, e: Endpoint, cfg: Config)
    requires SearchAfterCreate(t, e).value.Some?
    ensures var s := SearchAfterCreate(t, e);
      var crd := UpdateCRDRun(s.trace, Recorded(e, s.value.value));
      var r := CreateBranchRun(t, e, cfg);
      && crd.obj == Recorded(e, s.value.value)
      && Extends(s.trace, crd.trace) && Since(s.trace, crd.trace) == [UpdateStatus(crd.obj.status)]
      && r == PushRun(crd.trace, crd.obj, cfg, Some(s.value.value.id))
  {
    var s := SearchAfterCreate(t, e);
    SearchAPIFinds(CreateAPIRun(t, e.spec).trace, e.spec.contextPath);
    UpdateCRDWrites(s.trace, Recorded(e, s.value.value));
  }

  lemma CreateBranchExtends(t: Trace, e: Endpoint, cfg: Config)
    ensures Extends(t, CreateBranchRun(t, e, cfg).trace)
    ensures |Since(t, CreateBranchRun(t, e, cfg).trace)| >= 2
    ensures Since(t, CreateBranchRun(t, e, cfg).trace)[..2] == [CreateApi(NewApiFor(e.spec)), SearchApis(e.spec.contextPath)]
  {
    var s := SearchAfterCreate(t, e);
    var r := CreateBranchRun(t, e, cfg);
    SearchAfterCreateSince(t, e);
    if s.value.Some? {
      var crd := UpdateCRDRun(s.trace, Recorded(e, s.value.value));
      CreateBranchFound(t, e, cfg);
      PushEnds(crd.trace, crd.obj, cfg, Some(s.value.value.id));
      ExtendsTrans(s.trace, crd.trace, r.trace);
      SincePrefix(t, s.trace, r.trace);
    } else {
      assert r.trace == s.trace;
      assert Since(t, r.trace)[..2] == Since(t, s.trace);
    }
  }

  /**
   * The create branch creates, then searches. When the search finds no
   * single API, nothing else happens and the status ID stays empty. When
   * it finds one, that API is at the specification's context path, the
   * status records it and is written next, and a completed pass ends by
   * deploying and starting it.
   */
  lemma CreateBranchOrder(t: Trace, e: Endpoint, cfg: Config)
    ensures var r := CreateBranchRun(t, e, cfg); var s := SearchAfterCreate(t, e);
      s.out.Ok? && s.value.None? ==> r.out == Ok && r.obj == e && |Since(t, r.trace)| == 2
    ensures var r := CreateBranchRun(t, e, cfg); var s := SearchAfterCreate(t, e);
      s.value.Some? ==>
        && s.value.value.contextPath == e.spec.contextPath
        && r.obj == Recorded(e, s.value.value)
        && |Since(t, r.trace)| >= 3 && Since(t, r.trace)[2] == UpdateStatus(r.obj.status)
        && (r.out.Ok? ==>
              var log := Calls(r.trace.log);
              |log| >= 2 && log[|log| - 2..] == [DeployApi(s.value.value.id), DoLifecycleAction(s.value.value.id, Start)])
  {
    var s := SearchAfterCreate(t, e);
    var r := CreateBranchRun(t, e, cfg);
    SearchAfterCreateSince(t, e);
    SearchAPIFinds(CreateAPIRun(t, e.spec).trace, e.spec.contextPath);
    if s.value.Some? {
      var crd := UpdateCRDRun(s.trace, Recorded(e, s.value.value));
      CreateBranchFound(t, e, cfg);
      PushEnds(crd.trace, crd.obj, cfg, Some(s.value.value.id));
      SinceSplit(t, s.trace, crd.trace);
      ExtendsTrans(t, s.trace, crd.trace);
      SincePrefix(t, crd.trace, r.trace);
      assert Since(t, crd.trace) == Since(t, s.trace) + [UpdateStatus(crd.obj.status)];
      assert Since(t, r.trace)[2] == Since(t, crd.trace)[2];
    }
  }

  method CreateBranch(b: Backend, obj: APIEndpoint, cfg: Config) returns (out: Outcome)
    modifies b, obj
    ensures Step(b.Snapshot(), obj.Value(), out) == CreateBranchRun(old(b.Snapshot()), old(obj.Value()), cfg)
  {
    var created := CreateAPI(b, obj.spec);
    var api;
    out, api := SearchAPI(b, obj.spec.contextPath);
    if out.Panic? {
      return;
    }
    if api.None? {
      return Ok;
    }
    obj.status := Status(api.value.id, api.value.updatedAt, obj.generation);
    var written := UpdateCRD(b, obj);
    out := Push(b, obj, cfg, Some(api.value.id));
  }

  // One pass

  /**
   * One reconcile pass. A deleted object is finalized and never requeued.
   * Otherwise the finalizer is registered (a refused write is returned),
   * then the update or the create branch runs, and a pass that does not
   * abort asks to be run again after the configured period.
   */
  function ReconcileRun(t: Trace, e: Endpoint, cfg: Config): Pass {
    if e.deleting then
      var f := FinalizeRun(t, e);
      Pass(f.trace, f.obj, f.out, NoRequeue)
    else
      var r := RegisterRun(t, e);
      if !r.out.Ok? then Pass(r.trace, r.obj, r.out, NoRequeue)
      else
        var body := if r.obj.status.id != "" then UpdateBranchRun(r.trace, r.obj, cfg) else CreateBranchRun(r.trace, r.obj, cfg);
        if body.out.Panic? then Pass(body.trace, body.obj, Panic, NoRequeue)
        else Pass(body.trace, body.obj, Ok, CtrlResult(cfg.reschedulePeriod))
  }

  /** The branch a registered pass runs. */
  function Body(t: Trace, e: Endpoint, cfg: Config): Step {
    if e.status.id != "" then UpdateBranchRun(t, e, cfg) else CreateBranchRun(t, e, cfg)
  }

  lemma BodyExtends(t: Trace, e: Endpoint, cfg: Config)
    ensures Extends(t, Body(t, e, cfg).trace)
  {
    if e.status.id != "" {
      UpdateBranchExtends(t, e, cfg);
    } else {
      CreateBranchExtends(t, e, cfg);
    }
  }

  /**
   * A live object missing the finalizer gets it, and the object write is
   * the first call of the pass; a refused write ends the pass with that
   * error and nothing else issued. A live object keeps the finalizer.
   */
  lemma ReconcileRegistersFirst(t: Trace, e: Endpoint, cfg: Config)
    requires !e.deleting
    ensures var p := ReconcileRun(t, e, cfg);
      p.obj.finalizers == (if FinalizerName in e.finalizers then e.finalizers else e.finalizers + [FinalizerName])
    ensures var p := ReconcileRun(t, e, cfg);
      FinalizerName !in e.finalizers ==>
        && |Since(t, p.trace)| >= 1 && Since(t, p.trace)[0] == UpdateObject(e.finalizers + [FinalizerName])
        && (p.out.Fail? <==> |t.log| in t.faults)
        && (p.out.Fail? ==> |Since(t, p.trace)| == 1)
  {
    var r := RegisterRun(t, e);
    RegisterWrites(t, e);
    if r.out.Ok? {
      BodyExtends(r.trace, r.obj, cfg);
      SinceSplit(t, r.trace, Body(r.trace, r.obj, cfg).trace);
    }
  }

  /** Finalizing issues only DeleteAPI's calls and, after them, the object write. */
  lemma FinalizeCalls(t: Trace, e: Endpoint)
    ensures forall c :: c in Since(t, FinalizeRun(t, e).trace) ==> TeardownCall(e.status.id, c) || c.UpdateObject?
  {
    if FinalizerName in e.finalizers {
      var d := DeleteAPIRun(t, e.status.id);
      DeleteAPICalls(t, e.status.id);
      if d.out.Ok? {
        var c := UpdateObject(RemoveString(e.finalizers, FinalizerName));
        IssueExtends(d.trace, c);
        SinceSplit(t, d.trace, Issue(d.trace, c));
      }
    } else {
      assert Since(t, t) == [];
    }
  }

  /**
   * A pass over a deleted object is never requeued and never creates,
   * updates or deploys an API, or writes the status. Without the finalizer
   * it does nothing. With it, the finalizer is dropped exactly when
   * DeleteAPI succeeds; otherwise DeleteAPI's error (or abort) is the
   * pass's and the object is untouched.
   */
  lemma ReconcileDeletion(t: Trace, e: Endpoint, cfg: Config)
    requires e.deleting
    ensures ReconcileRun(t, e, cfg).result == NoRequeue
    ensures var p := ReconcileRun(t, e, cfg);
      FinalizerName !in e.finalizers ==> p.trace == t && p.obj == e && p.out == Ok
    ensures var p := ReconcileRun(t, e, cfg); var d := DeleteAPIRun(t, e.status.id);
      FinalizerName in e.finalizers ==>
        && (p.obj.finalizers == RemoveString(e.finalizers, FinalizerName) <==> d.out.Ok?)
        && (!d.out.Ok? ==> p.out == d.out && p.obj == e)
    ensures forall c :: c in Since(t, ReconcileRun(t, e, cfg).trace) ==>
      !c.CreateApi? && !c.UpdateApi? && !c.DeployApi? && !c.UpdateStatus?
  {
    FinalizeCalls(t, e);
    if FinalizerName in e.finalizers {
      assert FinalizerName !in RemoveString(e.finalizers, FinalizerName);
    }
  }

  /**
   * Only a pass over a live object that does not abort is requeued, after
   * the configured period; a live object's pass returns an error only when
   * the finalizer write was refused.
   */
  lemma ReconcileRequeue(t: Trace, e: Endpoint, cfg: Config)
    ensures var p := ReconcileRun(t, e, cfg);
      !e.deleting && p.out.Ok? ==> p.result == CtrlResult(cfg.reschedulePeriod)
    ensures var p := ReconcileRun(t, e, cfg);
      e.deleting || !p.out.Ok? ==> p.result == NoRequeue
    ensures var p := ReconcileRun(t, e, cfg);
      !e.deleting ==> (p.out.Fail? <==> FinalizerName !in e.finalizers && |t.log| in t.faults)
  {
    RegisterWrites(t, e);
  }

  method Reconcile(b: Backend, obj: APIEndpoint, cfg: Config) returns (out: Outcome, result: CtrlResult)
    modifies b, obj
    ensures Pass(b.Snapshot(), obj.Value(), out, result) == ReconcileRun(old(b.Snapshot()), old(obj.Value()), cfg)
  {
    if obj.deleting {
      out := Finalize(b, obj);
      return out, NoRequeue;
    }
    out := Register(b, obj);
    if !out.Ok? {
      return out, NoRequeue;
    }
    if obj.status.id != "" {
      out := UpdateBranch(b, obj, cfg);
    } else {
      out := CreateBranch(b, obj, cfg);
    }
    if out.Panic? {
      return Panic, NoRequeue;
    }
    return Ok, CtrlResult(cfg.reschedulePeriod);
  }
}
