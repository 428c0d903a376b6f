/**
 * The single-purpose Gravitee stubs the endpoint controller calls: reading,
 * creating, searching, updating and deploying an API, and finding a plan by
 * name. Each is a method over the collaborators proved against a function
 * giving its final snapshot, outcome and returned value; lemmas say what
 * those mean for the gateway's store.
 */
module ApiStubs {
  import opened Types
  import opened Gateway
  import opened StubHelpers

  // GetAPI

  /** GetAPI: read the API; a refused read is returned as an error. */
  function GetAPIRun(t: Trace, id: Id): Answered<ApiEntity> {
    var c := GetApi(id);
    if Accepted(t, c) then Answered(Issue(t, c), Ok, Some(FindApi(t.store.apis, id).value))
    else Answered(Issue(t, c), Fail(CallFailed(|t.log|)), None)
  }

  lemma GetAPIReads(t: Trace, id: Id)
    ensures var r := GetAPIRun(t, id);
      && (r.out.Ok? <==> |t.log| !in t.faults && exists a :: a in t.store.apis && a.id == id)
      && (r.out.Ok? ==> r.value.Some? && r.value.value in t.store.apis && r.value.value.id == id)
      && (!r.out.Ok? ==> r.value.None? && r.out == Fail(CallFailed(|t.log|)))
      && r.trace.store == t.store
      && r.trace.log == t.log + [Event(GetApi(id), r.out.Ok?)]
  {
  }

  method GetAPI(b: Backend, id: Id) returns (out: Outcome, api: Option<ApiEntity>)
    modifies b
    ensures Answered(b.Snapshot(), out, api) == GetAPIRun(old(b.Snapshot()), id)
  {
    var at := |b.log|;
    var ok, reply := b.Invoke(GetApi(id));
    if ok {
      out, api := Ok, Some(reply.apiEntity);
    } else {
      out, api := Fail(CallFailed(at)), None;
    }
  }

  // CreateAPI

  /** The create body: context path, description, name, version and the static target of the spec. */
  function NewApiFor(spec: EndpointSpec): NewApi {
    NewApi(spec.contextPath, spec.description, spec.name, spec.version, spec.target)
  }

  /** CreateAPI: one create; a refusal is returned as an error. */
  function CreateAPIRun(t: Trace, spec: EndpointSpec): Run {
    var c := CreateApi(NewApiFor(spec));
    Run(Issue(t, c), if Accepted(t, c) then Ok else Fail(CallFailed(|t.log|)))
  }

  /**
   * A create the transport lets through adds exactly one stopped API with a
   * fresh ID carrying the spec's context path, name, version, description
   * and static target; a refused one changes nothing.
   */
  lemma CreateAPIAdds(t: Trace, spec: EndpointSpec)
    ensures var r := CreateAPIRun(t, spec);
      && (r.out.Ok? <==> |t.log| !in t.faults)
      && (r.out.Ok? ==>
            exists a :: r.trace.store.apis == t.store.apis + [a]
                        && (forall old_ :: old_ in t.store.apis ==> old_.id != a.id)
                        && a.contextPath == spec.contextPath && a.name == spec.name
                        && a.version == spec.version && a.description == spec.description
                        && a.target == spec.target && a.state == Stopped && a.deployments == 0)
      && (!r.out.Ok? ==> r.trace.store == t.store && r.out == Fail(CallFailed(|t.log|)))
  {
  }

  method CreateAPI(b: Backend, spec: EndpointSpec) returns (out: Outcome)
    modifies b
    ensures Run(b.Snapshot(), out) == CreateAPIRun(old(b.Snapshot()), spec)
  {
    var at := |b.log|;
    var ok, reply := b.Invoke(CreateApi(NewApiFor(spec)));
    out := if ok then Ok else Fail(CallFailed(at));
  }

  // SearchAPI

  /**
   * SearchAPI: search by context path. A refused search aborts the pass; an
   * answer is kept only when exactly one API matched, otherwise nil.
   */
  function SearchAPIRun(t: Trace, path: string): Answered<ApiEntity> {
    var c := SearchApis(path);
    if Accepted(t, c) then Answered(Issue(t, c), Ok, SingleMatch(ApisAtPath(t.store.apis, path)))
    else Answered(Issue(t, c), Panic, None)
  }

  /** A search result is the one and only API at the path. */
  lemma SearchAPIFinds(t: Trace, path: string)
    ensures var r := SearchAPIRun(t, path);
      && (r.out.Panic? <==> |t.log| in t.faults)
      && !r.out.Fail?
      && (r.value.Some? ==>
            && r.value.value in t.store.apis && r.value.value.contextPath == path
            && forall a :: a in t.store.apis && a.contextPath == path ==> a == r.value.value)
      && (r.out.Ok? && r.value.None? && (exists a :: a in t.store.apis && a.contextPath == path) ==>
            |ApisAtPath(t.store.apis, path)| >= 2)
      && r.trace.store == t.store
  {
  }

  method SearchAPI(b: Backend, path: string) returns (out: Outcome, api: Option<ApiEntity>)
    modifies b
    ensures Answered(b.Snapshot(), out, api) == SearchAPIRun(old(b.Snapshot()), path)
  {
    var ok, reply := b.Invoke(SearchApis(path));
    if !ok {
      return Panic, None;
    }
    out, api := Ok, SingleMatch(reply.apis);
  }

  // UpdateAPI

  /** The CORS settings sent: every field but the origin regexes, exposed headers and error status. */
  function ProxyCorsOf(c: Cors): ProxyCors {
    ProxyCors(c.enabled, c.allowCredentials, c.allowHeaders, c.allowMethods, c.allowOrigin, c.maxAge, c.runPolicies)
  }

  /**
   * The update body: the spec's texts and tags, private visibility, one
   * virtual host on the context path, one HTTP endpoint "default" in group
   * "default-group" pointing at the resolved target.
   */
  function ApiUpdateFor(spec: EndpointSpec, target: string, cors: Cors): ApiUpdate {
    ApiUpdate(spec.name, spec.version, spec.description, "private", spec.tags, spec.contextPath,
              "default-group", "default", target, "http", ProxyCorsOf(cors))
  }

  /**
   * UpdateAPI: the body dereferences the resolved target and the spec's
   * CORS settings, so a missing one aborts the pass before any call; a
   * refused update is returned as an error.
   */
  function UpdateAPIRun(t: Trace, spec: EndpointSpec, apiId: Id, target: Option<string>): Run {
    if target.None? || spec.cors.None? then Run(t, Panic)
    else
      var c := UpdateApi(apiId, ApiUpdateFor(spec, target.value, spec.cors.value));
      Run(Issue(t, c), if Accepted(t, c) then Ok else Fail(CallFailed(|t.log|)))
  }

  /**
   * After an accepted update the API carries the spec's name, version,
   * description, tags and context path, the resolved target and the CORS
   * settings, and is private; every other API is untouched.
   */
  lemma UpdateAPIApplies(t: Trace, spec: EndpointSpec, apiId: Id, target: Option<string>)
    ensures var r := UpdateAPIRun(t, spec, apiId, target);
      && (r.out.Panic? <==> target.None? || spec.cors.None?)
      && (r.out.Panic? ==> r.trace == t)
      && (r.out.Ok? ==>
            && FindApi(t.store.apis, apiId).Some?
            && var a := FindApi(r.trace.store.apis, apiId);
            && a.Some?
            && a.value.name == spec.name && a.value.version == spec.version
            && a.value.description == spec.description && a.value.tags == spec.tags
            && a.value.contextPath == spec.contextPath && a.value.target == target.value
            && a.value.cors == Some(ProxyCorsOf(spec.cors.value)) && a.value.visibility == "private"
            && a.value.state == FindApi(t.store.apis, apiId).value.state)
      && (r.out.Ok? ==> forall other :: other != apiId ==> FindApi(r.trace.store.apis, other) == FindApi(t.store.apis, other))
      && (r.out.Fail? ==> r.trace.store == t.store)
  {
    var r := UpdateAPIRun(t, spec, apiId, target);
    if r.out.Ok? {
      var u := ApiUpdateFor(spec, target.value, spec.cors.value);
      var a := FindApi(t.store.apis, apiId).value;
      FindApiReplace(t.store.apis, apiId,
                     a.(name := u.name, version := u.version, description := u.description,
                        visibility := u.visibility, tags := u.tags, contextPath := u.virtualHostPath,
                        target := u.endpointTarget, cors := Some(u.cors), updatedAt := t.store.clock + 1));
    }
  }

  method UpdateAPI(b: Backend, spec: EndpointSpec, apiId: Id, target: Option<string>) returns (out: Outcome)
    modifies b
    ensures Run(b.Snapshot(), out) == UpdateAPIRun(old(b.Snapshot()), spec, apiId, target)
  {
    if target.None? || spec.cors.None? {
      return Panic;
    }
    var at := |b.log|;
    var ok, reply := b.Invoke(UpdateApi(apiId, ApiUpdateFor(spec, target.value, spec.cors.value)));
    out := if ok then Ok else Fail(CallFailed(at));
  }

  // DeployAPI

  /**
   * DeployAPI: deploy, then START. The deploy's error is overwritten and the
   * START's is dropped (an already started API refuses it), so the stub
   * always succeeds.
   */
  function DeployAPIRun(t: Trace, id: Id): Run {
    Run(Issue(Issue(t, DeployApi(id)), DoLifecycleAction(id, Start)), Ok)
  }

  /**
   * DeployAPI never reports an error, and it issues exactly a deploy and a
   * START. When both reach an existing API, the API ends started with one
   * more deployment, whether or not it was already started.
   */
  lemma DeployAPIStarts(t: Trace, id: Id)
    ensures var r := DeployAPIRun(t, id);
      && r.out == Ok
      && Calls(r.trace.log) == Calls(t.log) + [DeployApi(id), DoLifecycleAction(id, Start)]
      && (FindApi(t.store.apis, id).Some? && |t.log| !in t.faults && |t.log| + 1 !in t.faults ==>
            && FindApi(r.trace.store.apis, id).Some?
            && FindApi(r.trace.store.apis, id).value.state == Started
            && FindApi(r.trace.store.apis, id).value.deployments == FindApi(t.store.apis, id).value.deployments + 1)
  {
    var r := DeployAPIRun(t, id);
    assert Calls(r.trace.log) == Calls(t.log) + [DeployApi(id), DoLifecycleAction(id, Start)];
    if FindApi(t.store.apis, id).Some? && |t.log| !in t.faults && |t.log| + 1 !in t.faults {
      DeployedAndStarted(t, id);
    }
  }

  lemma DeployedAndStarted(t: Trace, id: Id)
    requires FindApi(t.store.apis, id).Some? && |t.log| !in t.faults && |t.log| + 1 !in t.faults
    ensures var s := DeployAPIRun(t, id).trace.store;
      var a := FindApi(t.store.apis, id).value;
      FindApi(s.apis, id).Some? && FindApi(s.apis, id).value.state == Started
      && FindApi(s.apis, id).value.deployments == a.deployments + 1
  {
    DeployStep(t, id);
    StartStep(Issue(t, DeployApi(id)), id);
  }

  /** An accepted deploy of an existing API counts one more deployment. */
  lemma DeployStep(t: Trace, id: Id)
    requires FindApi(t.store.apis, id).Some? && |t.log| !in t.faults
    ensures var a := FindApi(t.store.apis, id).value;
      var t1 := Issue(t, DeployApi(id));
      && |t1.log| == |t.log| + 1 && t1.faults == t.faults
      && FindApi(t1.store.apis, id) == Some(a.(deployments := a.deployments + 1, updatedAt := t.store.clock + 1))
  {
    var a := FindApi(t.store.apis, id).value;
    var a1 := a.(deployments := a.deployments + 1, updatedAt := t.store.clock + 1);
    FindApiReplace(t.store.apis, id, a1);
    assert Issue(t, DeployApi(id)).store.apis == ReplaceApi(t.store.apis, id, a1);
  }

  /** An accepted START of an existing API leaves it started, with its deployments. */
  lemma StartStep(t: Trace, id: Id)
    requires FindApi(t.store.apis, id).Some? && |t.log| !in t.faults
    ensures var a := FindApi(t.store.apis, id).value;
      var s := Issue(t, DoLifecycleAction(id, Start)).store;
      FindApi(s.apis, id).Some? && FindApi(s.apis, id).value.state == Started
      && FindApi(s.apis, id).value.deployments == a.deployments
  {
    var a := FindApi(t.store.apis, id).value;
    var start := DoLifecycleAction(id, Start);
    if a.state == Stopped {
      var a2 := a.(state := Started, updatedAt := t.store.clock + 1);
      FindApiReplace(t.store.apis, id, a2);
      assert Issue(t, start).store.apis == ReplaceApi(t.store.apis, id, a2);
    } else {
      assert Issue(t, start).store == t.store;
    }
  }

  method DeployAPI(b: Backend, id: Id) returns (out: Outcome)
    modifies b
    ensures Run(b.Snapshot(), out) == DeployAPIRun(old(b.Snapshot()), id)
  {
    var ok, reply := b.Invoke(DeployApi(id));
    ok, reply := b.Invoke(DoLifecycleAction(id, Start));
    out := Ok;
  }

  // GetPlanByName

  /**
   * GetPlanByName: list the API's plans and return the first carrying the
   * name; a refused listing and a missing name are errors.
   */
  function GetPlanByNameRun(t: Trace, apiId: Id, name: string): (r: Answered<PlanEntity>)
    ensures r.out.Ok? <==> r.value.Some?
    ensures !r.out.Panic?
  {
    var c := ListPlans(apiId);
    if !Accepted(t, c) then Answered(Issue(t, c), Fail(CallFailed(|t.log|)), None)
    else
      match FirstPlanNamed(PublishedPlansOf(t.store.plans, apiId), name)
      case None => Answered(Issue(t, c), Fail(NoPlanNamed(name)), None)
      case Some(p) => Answered(Issue(t, c), Ok, Some(p))
  }

  /** Whether the API has a published plan with the name. */
  predicate HasPublishedPlanNamed(s: Store, apiId: Id, name: string) {
    exists p :: p in s.plans && p.api == apiId && p.status == Published && p.name == name
  }

  /**
   * The plan found is a published plan of the API with the name, the first
   * such in listing order; "no plan with the name" is reported exactly when
   * the listing succeeded and no published plan of the API has the name.
   */
  lemma GetPlanByNameFinds(t: Trace, apiId: Id, name: string)
    ensures var r := GetPlanByNameRun(t, apiId, name);
      r.value.Some? ==>
        && r.value.value in t.store.plans && r.value.value.api == apiId
        && r.value.value.status == Published && r.value.value.name == name
    ensures var r := GetPlanByNameRun(t, apiId, name);
      r.value.Some? ==> IsFirstNamed(PublishedPlansOf(t.store.plans, apiId), r.value.value, name)
    ensures GetPlanByNameRun(t, apiId, name).out == Fail(NoPlanNamed(name)) <==>
      Accepted(t, ListPlans(apiId)) && !HasPublishedPlanNamed(t.store, apiId, name)
    ensures GetPlanByNameRun(t, apiId, name).out == Fail(CallFailed(|t.log|)) <==> !Accepted(t, ListPlans(apiId))
    ensures GetPlanByNameRun(t, apiId, name).trace.store == t.store
  {
    var r := GetPlanByNameRun(t, apiId, name);
    var listed := PublishedPlansOf(t.store.plans, apiId);
    var found := FirstPlanNamed(listed, name);
    ReadOnlyEffect(t.store, ListPlans(apiId));
    assert r.trace.store == t.store;
    if found.Some? {
      assert found.value in listed;
    }
    assert r.out == Fail(CallFailed(|t.log|)) <==> !Accepted(t, ListPlans(apiId));
    assert r.out == Fail(NoPlanNamed(name)) <==> Accepted(t, ListPlans(apiId)) && found.None?;
    assert found.None? <==> !HasPublishedPlanNamed(t.store, apiId, name);
  }

  method GetPlanByName(b: Backend, apiId: Id, name: string) returns (out: Outcome, plan: Option<PlanEntity>)
    modifies b
    ensures Answered(b.Snapshot(), out, plan) == GetPlanByNameRun(old(b.Snapshot()), apiId, name)
  {
    var at := |b.log|;
    var ok, reply := b.Invoke(ListPlans(apiId));
    if !ok {
      return Fail(CallFailed(at)), None;
    }
    var i := 0;
    while i < |reply.plans|
      invariant 0 <= i <= |reply.plans|
      invariant FirstPlanNamed(reply.plans, name) == FirstPlanNamed(reply.plans[i..], name)
    {
      if reply.plans[i].name == name {
        return Ok, Some(reply.plans[i]);
      }
      assert reply.plans[i..][1..] == reply.plans[i + 1..];
      i := i + 1;
    }
    return Fail(NoPlanNamed(name)), None;
  }

  // Every stub only appends to the log

  lemma GetAPIExtends(t: Trace, id: Id)
    ensures Extends(t, GetAPIRun(t, id).trace)
    ensures Since(t, GetAPIRun(t, id).trace) == [GetApi(id)]
  {
    IssueExtends(t, GetApi(id));
  }

  lemma CreateAPIExtends(t: Trace, spec: EndpointSpec)
    ensures Extends(t, CreateAPIRun(t, spec).trace)
    ensures Since(t, CreateAPIRun(t, spec).trace) == [CreateApi(NewApiFor(spec))]
  {
    IssueExtends(t, CreateApi(NewApiFor(spec)));
  }

  lemma SearchAPIExtends(t: Trace, path: string)
    ensures Extends(t, SearchAPIRun(t, path).trace)
    ensures Since(t, SearchAPIRun(t, path).trace) == [SearchApis(path)]
  {
    IssueExtends(t, SearchApis(path));
  }

  lemma UpdateAPIExtends(t: Trace, spec: EndpointSpec, apiId: Id, target: Option<string>)
    ensures Extends(t, UpdateAPIRun(t, spec, apiId, target).trace)
    ensures target.Some? && spec.cors.Some? ==>
      Since(t, UpdateAPIRun(t, spec, apiId, target).trace) == [UpdateApi(apiId, ApiUpdateFor(spec, target.value, spec.cors.value))]
  {
    if target.Some? && spec.cors.Some? {
      IssueExtends(t, UpdateApi(apiId, ApiUpdateFor(spec, target.value, spec.cors.value)));
    } else {
      assert t.log[..|t.log|] == t.log;
    }
  }

  lemma DeployAPIExtends(t: Trace, id: Id)
    ensures Extends(t, DeployAPIRun(t, id).trace)
    ensures Since(t, DeployAPIRun(t, id).trace) == [DeployApi(id), DoLifecycleAction(id, Start)]
  {
    var t1 := Issue(t, DeployApi(id));
    IssueExtends(t, DeployApi(id));
    IssueExtends(t1, DoLifecycleAction(id, Start));
    ExtendsTrans(t, t1, Issue(t1, DoLifecycleAction(id, Start)));
    SinceSplit(t, t1, Issue(t1, DoLifecycleAction(id, Start)));
  }

  lemma GetPlanByNameExtends(t: Trace, apiId: Id, name: string)
    ensures Extends(t, GetPlanByNameRun(t, apiId, name).trace)
  {
    IssueExtends(t, ListPlans(apiId));
  }
}
