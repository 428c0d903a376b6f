/**
 * The external collaborators of the controllers, modelled as one in-memory
 * store: the Gravitee management API (APIs, plans, subscriptions,
 * applications) and the parts of the Kubernetes API server that the
 * controllers touch (Services they read, object and status writes).
 *
 * Every call is recorded in a log. A call issued at log position i is
 * refused when i is in the fault schedule (a transport failure, a timeout,
 * a 5xx answer) or when the store itself refuses it (an unknown ID, a START
 * on a started API, a close of a closed plan). The properties of the
 * controllers are proved for every fault schedule.
 */
module Gateway {
  import opened Types

  type Id = string

  const Published := "PUBLISHED"
  const Closed := "CLOSED"

  datatype LifecycleState = Started | Stopped
  datatype LifecycleAction = Start | Stop

  /** The CORS part of an API's proxy settings, as sent by an API update. */
  datatype ProxyCors = ProxyCors(
    enabled: bool,
    allowCredentials: bool,
    allowHeaders: seq<string>,
    allowMethods: seq<string>,
    allowOrigin: seq<string>,
    maxAge: int,
    runPolicies: bool)

  datatype ApiEntity = ApiEntity(
    id: Id,
    name: string,
    version: string,
    description: string,
    contextPath: string,
    target: string,
    tags: seq<string>,
    visibility: string,
    cors: Option<ProxyCors>,
    state: LifecycleState,
    deployments: nat,
    updatedAt: int)

  datatype PlanEntity = PlanEntity(
    id: Id,
    api: Id,
    name: string,
    description: string,
    security: string,
    securityDefinition: string,
    tags: seq<string>,
    order: int,
    validation: string,
    status: string,
    planType: string)

  datatype SubscriptionEntity = SubscriptionEntity(
    id: Id,
    application: Id,
    api: Id,
    plan: Id,
    status: string)

  datatype AppSettings = AppSettings(clientId: string, appType: string)

  datatype ApplicationEntity = ApplicationEntity(
    id: Id,
    name: string,
    description: string,
    appType: string,
    clientId: string,
    settings: Option<AppSettings>,
    updatedAt: int)

  /** A Kubernetes Service, reduced to its ports. */
  datatype ServicePort = ServicePort(port: int, appProtocol: Option<string>)
  datatype Service = Service(ports: seq<ServicePort>)

  // Request bodies

  datatype NewApi = NewApi(
    contextPath: string,
    description: string,
    name: string,
    version: string,
    endpoint: string)

  datatype ApiUpdate = ApiUpdate(
    name: string,
    version: string,
    description: string,
    visibility: string,
    tags: seq<string>,
    virtualHostPath: string,
    groupName: string,
    endpointName: string,
    endpointTarget: string,
    endpointType: string,
    cors: ProxyCors)

  datatype NewPlan = NewPlan(
    api: Id,
    description: string,
    name: string,
    security: string,
    securityDefinition: string,
    status: string,
    planType: string,
    validation: string)

  datatype PlanUpdate = PlanUpdate(
    description: string,
    name: string,
    securityDefinition: string,
    tags: seq<string>,
    order: int,
    validation: string)

  datatype ApplicationBody = ApplicationBody(
    name: string,
    description: string,
    appType: string,
    clientId: string,
    settings: Option<AppSettings>)

  /** Every remote operation the controllers issue. */
  datatype Call =
    | GetApi(api: Id)
    | CreateApi(newApi: NewApi)
    | SearchApis(path: string)
    | UpdateApi(api: Id, apiUpdate: ApiUpdate)
    | DeployApi(api: Id)
    | DoLifecycleAction(api: Id, action: LifecycleAction)
    | DeleteApi(api: Id)
    | ListPlans(api: Id)
    | GetPlan(api: Id, plan: Id)
    | CreatePlan(api: Id, newPlan: NewPlan)
    | UpdatePlan(api: Id, plan: Id, planUpdate: PlanUpdate)
    | ClosePlan(api: Id, plan: Id)
    | DeletePlan(api: Id, plan: Id)
    | ListSubscriptions(app: Id)
    | CreateSubscription(app: Id, plan: Id)
    | CloseSubscription(app: Id, subscription: Id)
    | GetApplication(app: Id)
    | CreateApplication(body: ApplicationBody)
    | UpdateApplication(app: Id, body: ApplicationBody)
    | DeleteApplication(app: Id)
    // Kubernetes API server
    | GetService(namespace: string, name: string)
    | UpdateObject(finalizers: seq<string>)
    | UpdateStatus(status: Status)

  /** Calls that change the Gravitee side. */
  predicate IsGatewayWrite(c: Call) {
    || c.CreateApi? || c.UpdateApi? || c.DeployApi? || c.DoLifecycleAction? || c.DeleteApi?
    || c.CreatePlan? || c.UpdatePlan? || c.ClosePlan? || c.DeletePlan?
    || c.CreateSubscription? || c.CloseSubscription?
    || c.CreateApplication? || c.UpdateApplication? || c.DeleteApplication?
  }

  /** Calls addressed to the Kubernetes API server rather than to Gravitee. */
  predicate IsKubernetesCall(c: Call) {
    c.GetService? || c.UpdateObject? || c.UpdateStatus?
  }

  datatype Reply =
    | Done
    | ApiReply(apiEntity: ApiEntity)
    | ApiList(apis: seq<ApiEntity>)
    | PlanReply(planEntity: PlanEntity)
    | PlanList(plans: seq<PlanEntity>)
    | SubscriptionList(subscriptions: seq<SubscriptionEntity>)
    | ApplicationReply(application: ApplicationEntity)
    | ServiceReply(service: Service)

  datatype Store = Store(
    apis: seq<ApiEntity>,
    plans: seq<PlanEntity>,
    subscriptions: seq<SubscriptionEntity>,
    applications: seq<ApplicationEntity>,
    services: map<(string, string), Service>,
    clock: int)

  /** One logged call and whether it was accepted. */
  datatype Event = Event(call: Call, ok: bool)

  /** A snapshot of the collaborators: store, call log and fault schedule. */
  datatype Trace = Trace(store: Store, log: seq<Event>, faults: set<nat>)

  // Lookups (first match)

  function FindApi(apis: seq<ApiEntity>, id: Id): (r: Option<ApiEntity>)
    ensures r.Some? ==> r.value in apis && r.value.id == id
    ensures r.None? ==> forall a :: a in apis ==> a.id != id
  {
    if apis == [] then None
    else if apis[0].id == id then Some(apis[0])
    else FindApi(apis[1..], id)
  }

  function FindPlan(plans: seq<PlanEntity>, api: Id, id: Id): (r: Option<PlanEntity>)
    ensures r.Some? ==> r.value in plans && r.value.api == api && r.value.id == id
    ensures r.None? ==> forall p :: p in plans ==> p.api != api || p.id != id
  {
    if plans == [] then None
    else if plans[0].api == api && plans[0].id == id then Some(plans[0])
    else FindPlan(plans[1..], api, id)
  }

  function FindPlanById(plans: seq<PlanEntity>, id: Id): (r: Option<PlanEntity>)
    ensures r.Some? ==> r.value in plans && r.value.id == id
    ensures r.None? ==> forall p :: p in plans ==> p.id != id
  {
    if plans == [] then None
    else if plans[0].id == id then Some(plans[0])
    else FindPlanById(plans[1..], id)
  }

  function FindSubscription(subs: seq<SubscriptionEntity>, app: Id, id: Id): (r: Option<SubscriptionEntity>)
    ensures r.Some? ==> r.value in subs && r.value.application == app && r.value.id == id
    ensures r.None? ==> forall x :: x in subs ==> x.application != app || x.id != id
  {
    if subs == [] then None
    else if subs[0].application == app && subs[0].id == id then Some(subs[0])
    else FindSubscription(subs[1..], app, id)
  }

  function FindApplication(apps: seq<ApplicationEntity>, id: Id): (r: Option<ApplicationEntity>)
    ensures r.Some? ==> r.value in apps && r.value.id == id
    ensures r.None? ==> forall a :: a in apps ==> a.id != id
  {
    if apps == [] then None
    else if apps[0].id == id then Some(apps[0])
    else FindApplication(apps[1..], id)
  }

  // Listings (in store order)

  /** The APIs a search by context path returns. */
  function ApisAtPath(apis: seq<ApiEntity>, path: string): (r: seq<ApiEntity>)
    ensures forall a :: a in r <==> a in apis && a.contextPath == path
  {
    if apis == [] then []
    else
      var last := apis[|apis| - 1];
      ApisAtPath(apis[..|apis| - 1], path) + (if last.contextPath == path then [last] else [])
  }

  /** The plans listed for an API: its published plans. */
  function PublishedPlansOf(plans: seq<PlanEntity>, api: Id): (r: seq<PlanEntity>)
    ensures forall p :: p in r <==> p in plans && p.api == api && p.status == Published
  {
    if plans == [] then []
    else
      var last := plans[|plans| - 1];
      PublishedPlansOf(plans[..|plans| - 1], api)
        + (if last.api == api && last.status == Published then [last] else [])
  }

  /** The subscriptions listed for an application: those not closed. */
  function ActiveSubscriptionsOf(subs: seq<SubscriptionEntity>, app: Id): (r: seq<SubscriptionEntity>)
    ensures forall x :: x in r <==> x in subs && x.application == app && x.status != Closed
  {
    if subs == [] then []
    else
      var last := subs[|subs| - 1];
      ActiveSubscriptionsOf(subs[..|subs| - 1], app)
        + (if last.application == app && last.status != Closed then [last] else [])
  }

  // Removal and replacement by ID

  function RemoveApi(apis: seq<ApiEntity>, id: Id): (r: seq<ApiEntity>)
    ensures forall a :: a in r <==> a in apis && a.id != id
  {
    if apis == [] then []
    else (if apis[0].id == id then [] else [apis[0]]) + RemoveApi(apis[1..], id)
  }

  function RemovePlan(plans: seq<PlanEntity>, id: Id): (r: seq<PlanEntity>)
    ensures forall p :: p in r <==> p in plans && p.id != id
  {
    if plans == [] then []
    else (if plans[0].id == id then [] else [plans[0]]) + RemovePlan(plans[1..], id)
  }

  function RemoveApplication(apps: seq<ApplicationEntity>, id: Id): (r: seq<ApplicationEntity>)
    ensures forall a :: a in r <==> a in apps && a.id != id
  {
    if apps == [] then []
    else (if apps[0].id == id then [] else [apps[0]]) + RemoveApplication(apps[1..], id)
  }

  function ReplaceApi(apis: seq<ApiEntity>, id: Id, a: ApiEntity): seq<ApiEntity> {
    seq(|apis|, i requires 0 <= i < |apis| => if apis[i].id == id then a else apis[i])
  }

  function ReplacePlan(plans: seq<PlanEntity>, id: Id, p: PlanEntity): seq<PlanEntity> {
    seq(|plans|, i requires 0 <= i < |plans| => if plans[i].id == id then p else plans[i])
  }

  function ReplaceSubscription(subs: seq<SubscriptionEntity>, id: Id, x: SubscriptionEntity): seq<SubscriptionEntity> {
    seq(|subs|, i requires 0 <= i < |subs| => if subs[i].id == id then x else subs[i])
  }

  function ReplaceApplication(apps: seq<ApplicationEntity>, id: Id, a: ApplicationEntity): seq<ApplicationEntity> {
    seq(|apps|, i requires 0 <= i < |apps| => if apps[i].id == id then a else apps[i])
  }

  // Fresh identifiers: longer than every identifier in the store

  function MaxApiIdLength(apis: seq<ApiEntity>): (m: nat)
    ensures forall a :: a in apis ==> |a.id| <= m
  {
    if apis == [] then 0
    else var m := MaxApiIdLength(apis[1..]); if |apis[0].id| > m then |apis[0].id| else m
  }

  function MaxPlanIdLength(plans: seq<PlanEntity>): (m: nat)
    ensures forall p :: p in plans ==> |p.id| <= m
  {
    if plans == [] then 0
    else var m := MaxPlanIdLength(plans[1..]); if |plans[0].id| > m then |plans[0].id| else m
  }

  function MaxSubscriptionIdLength(subs: seq<SubscriptionEntity>): (m: nat)
    ensures forall x :: x in subs ==> |x.id| <= m
  {
    if subs == [] then 0
    else var m := MaxSubscriptionIdLength(subs[1..]); if |subs[0].id| > m then |subs[0].id| else m
  }

  function MaxApplicationIdLength(apps: seq<ApplicationEntity>): (m: nat)
    ensures forall a :: a in apps ==> |a.id| <= m
  {
    if apps == [] then 0
    else var m := MaxApplicationIdLength(apps[1..]); if |apps[0].id| > m then |apps[0].id| else m
  }

  /** The identifier the gateway assigns to the next entity it creates. */
  function FreshId(s: Store): (id: Id)
    ensures id != ""
    ensures forall a :: a in s.apis ==> a.id != id
    ensures forall p :: p in s.plans ==> p.id != id
    ensures forall x :: x in s.subscriptions ==> x.id != id
    ensures forall a :: a in s.applications ==> a.id != id
  {
    var m := MaxApiIdLength(s.apis) + MaxPlanIdLength(s.plans)
      + MaxSubscriptionIdLength(s.subscriptions) + MaxApplicationIdLength(s.applications);
    seq(m + 1, _ => '#')
  }

  function NewApplication(id: Id, b: ApplicationBody, now: int): ApplicationEntity {
    ApplicationEntity(id, b.name, b.description, b.appType, b.clientId, b.settings, now)
  }

  // The semantics of one call

  /** Whether the store accepts a call (independently of injected faults). */
  predicate Accepts(s: Store, c: Call) {
    match c
    case GetApi(id) => FindApi(s.apis, id).Some?
    case CreateApi(_) => true
    case SearchApis(_) => true
    case UpdateApi(id, _) => FindApi(s.apis, id).Some?
    case DeployApi(id) => FindApi(s.apis, id).Some?
    case DoLifecycleAction(id, action) =>
      FindApi(s.apis, id).Some?
      && FindApi(s.apis, id).value.state != (if action == Start then Started else Stopped)
    case DeleteApi(id) => FindApi(s.apis, id).Some?
    case ListPlans(api) => FindApi(s.apis, api).Some?
    case GetPlan(api, id) => FindPlan(s.plans, api, id).Some?
    case CreatePlan(api, _) => FindApi(s.apis, api).Some?
    case UpdatePlan(api, id, _) => FindPlan(s.plans, api, id).Some?
    case ClosePlan(api, id) =>
      FindPlan(s.plans, api, id).Some? && FindPlan(s.plans, api, id).value.status != Closed
    case DeletePlan(api, id) => FindPlan(s.plans, api, id).Some?
    case ListSubscriptions(app) => FindApplication(s.applications, app).Some?
    case CreateSubscription(app, plan) =>
      FindApplication(s.applications, app).Some? && FindPlanById(s.plans, plan).Some?
    case CloseSubscription(app, id) =>
      FindSubscription(s.subscriptions, app, id).Some?
      && FindSubscription(s.subscriptions, app, id).value.status != Closed
    case GetApplication(id) => FindApplication(s.applications, id).Some?
    case CreateApplication(_) => true
    case UpdateApplication(id, _) => FindApplication(s.applications, id).Some?
    case DeleteApplication(id) => FindApplication(s.applications, id).Some?
    case GetService(ns, name) => (ns, name) in s.services
    case UpdateObject(_) => true
    case UpdateStatus(_) => true
  }

  /** What an accepted call answers. */
  function Answer(s: Store, c: Call): Reply {
    match c
    case GetApi(id) =>
      if FindApi(s.apis, id).Some? then ApiReply(FindApi(s.apis, id).value) else Done
    case SearchApis(path) => ApiList(ApisAtPath(s.apis, path))
    case ListPlans(api) => PlanList(PublishedPlansOf(s.plans, api))
    case GetPlan(api, id) =>
      if FindPlan(s.plans, api, id).Some? then PlanReply(FindPlan(s.plans, api, id).value) else Done
    case ListSubscriptions(app) => SubscriptionList(ActiveSubscriptionsOf(s.subscriptions, app))
    case GetApplication(id) =>
      if FindApplication(s.applications, id).Some? then ApplicationReply(FindApplication(s.applications, id).value) else Done
    case CreateApplication(b) => ApplicationReply(NewApplication(FreshId(s), b, s.clock + 1))
    case GetService(ns, name) =>
      if (ns, name) in s.services then ServiceReply(s.services[(ns, name)]) else Done
    case _ => Done
  }

  /** The store after an accepted call. Reads and Kubernetes calls leave it unchanged. */
  function Effect(s: Store, c: Call): Store {
    var now := s.clock + 1;
    match c
    case CreateApi(b) =>
      s.(apis := s.apis + [ApiEntity(FreshId(s), b.name, b.version, b.description, b.contextPath,
                                     b.endpoint, [], "PRIVATE", None, Stopped, 0, now)],
         clock := now)
    case UpdateApi(id, u) =>
      (match FindApi(s.apis, id)
       case None => s
       case Some(a) =>
         s.(apis := ReplaceApi(s.apis, id, a.(name := u.name, version := u.version,
                                                description := u.description, visibility := u.visibility,
                                                tags := u.tags, contextPath := u.virtualHostPath,
                                                target := u.endpointTarget, cors := Some(u.cors),
                                                updatedAt := now)),
            clock := now))
    case DeployApi(id) =>
      (match FindApi(s.apis, id)
       case None => s
       case Some(a) =>
         s.(apis := ReplaceApi(s.apis, id, a.(deployments := a.deployments + 1, updatedAt := now)),
            clock := now))
    case DoLifecycleAction(id, action) =>
      (match FindApi(s.apis, id)
       case None => s
       case Some(a) =>
         s.(apis := ReplaceApi(s.apis, id, a.(state := if action == Start then Started else Stopped,
                                                updatedAt := now)),
            clock := now))
    case DeleteApi(id) => s.(apis := RemoveApi(s.apis, id), clock := now)
    case CreatePlan(api, p) =>
      s.(plans := s.plans + [PlanEntity(FreshId(s), api, p.name, p.description, p.security,
                                        p.securityDefinition, [], 0, p.validation, p.status, p.planType)],
         clock := now)
    case UpdatePlan(api, id, u) =>
      (match FindPlan(s.plans, api, id)
       case None => s
       case Some(p) =>
         s.(plans := ReplacePlan(s.plans, id, p.(description := u.description, name := u.name,
                                                  securityDefinition := u.securityDefinition,
                                                  tags := u.tags, order := u.order,
                                                  validation := u.validation)),
            clock := now))
    case ClosePlan(api, id) =>
      (match FindPlan(s.plans, api, id)
       case None => s
       case Some(p) => s.(plans := ReplacePlan(s.plans, id, p.(status := Closed)), clock := now))
    case DeletePlan(_, id) => s.(plans := RemovePlan(s.plans, id), clock := now)
    case CreateSubscription(app, planId) =>
      (match FindPlanById(s.plans, planId)
       case None => s
       case Some(p) =>
         s.(subscriptions := s.subscriptions
              + [SubscriptionEntity(FreshId(s), app, p.api, planId,
                                    if p.validation == "AUTO" then "ACCEPTED" else "PENDING")],
            clock := now))
    case CloseSubscription(app, id) =>
      (match FindSubscription(s.subscriptions, app, id)
       case None => s
       case Some(x) =>
         s.(subscriptions := ReplaceSubscription(s.subscriptions, id, x.(status := Closed)), clock := now))
    case CreateApplication(b) =>
      s.(applications := s.applications + [NewApplication(FreshId(s), b, now)], clock := now)
    case UpdateApplication(id, b) =>
      (match FindApplication(s.applications, id)
       case None => s
       case Some(a) =>
         s.(applications := ReplaceApplication(s.applications, id,
                                               a.(name := b.name, description := b.description,
                                                  appType := b.appType, clientId := b.clientId,
                                                  settings := b.settings, updatedAt := now)),
            clock := now))
    case DeleteApplication(id) => s.(applications := RemoveApplication(s.applications, id), clock := now)
    case _ => s
  }

  /** Whether the call issued next in trace t is accepted. */
  predicate Accepted(t: Trace, c: Call) {
    |t.log| !in t.faults && Accepts(t.store, c)
  }

  /** Issue one call: log it and, if accepted, apply its effect. */
  function Issue(t: Trace, c: Call): Trace {
    var ok := Accepted(t, c);
    Trace(if ok then Effect(t.store, c) else t.store, t.log + [Event(c, ok)], t.faults)
  }

  /** Whether the last logged call was accepted. */
  predicate LastOk(t: Trace) {
    |t.log| > 0 && t.log[|t.log| - 1].ok
  }

  /** Errors the stubs return: a refused call (by its log index), or a plan not found by name. */
  datatype Error = CallFailed(at: nat) | NoPlanNamed(name: string)

  /** How a stub ends: normally, with an error, or by aborting the pass (a panic). */
  datatype Outcome = Ok | Fail(error: Error) | Panic

  /** A stub's final snapshot and outcome. */
  datatype Run = Run(trace: Trace, out: Outcome)

  /** The error for the last logged call. */
  function LastCallFailed(t: Trace): Error {
    CallFailed(if |t.log| > 0 then |t.log| - 1 else 0)
  }

  /** A stub's final snapshot, outcome and the value it returns (None when it returns nil). */
  datatype Answered<T> = Answered(trace: Trace, out: Outcome, value: Option<T>)

  datatype Progress = Progress(trace: Trace, ok: bool)

  /** Issue calls in order, stopping after the first refused one. */
  function IssueAll(t: Trace, calls: seq<Call>): Progress
    decreases |calls|
  {
    if calls == [] then Progress(t, true)
    else
      var p := IssueAll(t, calls[..|calls| - 1]);
      if !p.ok then p
      else Progress(Issue(p.trace, calls[|calls| - 1]), Accepted(p.trace, calls[|calls| - 1]))
  }

  lemma IssueAllSnoc(t: Trace, calls: seq<Call>, c: Call)
    requires IssueAll(t, calls).ok
    ensures IssueAll(t, calls + [c])
            == Progress(Issue(IssueAll(t, calls).trace, c), Accepted(IssueAll(t, calls).trace, c))
  {
    assert (calls + [c])[..|calls|] == calls;
  }

  /** Issuing a + b is issuing a, then, unless a was cut short, issuing b from where a ended. */
  lemma {:induction false} IssueAllAppend(t: Trace, a: seq<Call>, b: seq<Call>)
    ensures IssueAll(t, a + b)
            == (var p := IssueAll(t, a); if p.ok then IssueAll(p.trace, b) else p)
    decreases |b|
  {
    if b == [] {
      assert a + b == a;
    } else {
      assert (a + b)[..|a + b| - 1] == a + b[..|b| - 1];
      IssueAllAppend(t, a, b[..|b| - 1]);
    }
  }

  /** Once a call is refused, issuing a longer list that extends it changes nothing. */
  lemma {:induction false} IssueAllHalted(t: Trace, a: seq<Call>, b: seq<Call>)
    requires a <= b && !IssueAll(t, a).ok
    ensures IssueAll(t, b) == IssueAll(t, a)
    decreases |b|
  {
    if |b| > |a| {
      assert a <= b[..|b| - 1];
      IssueAllHalted(t, a, b[..|b| - 1]);
    } else {
      assert a == b;
    }
  }

  /** IssueAll keeps the faults and the earlier log, and logs at most one call per call issued, all of them on success. */
  lemma {:induction false} IssueAllLength(t: Trace, calls: seq<Call>)
    ensures var p := IssueAll(t, calls);
      && p.trace.faults == t.faults
      && t.log <= p.trace.log
      && |t.log| + (if p.ok then |calls| else 1) <= |p.trace.log| <= |t.log| + |calls|
    decreases |calls|
  {
    if calls != [] {
      IssueAllLength(t, calls[..|calls| - 1]);
    }
  }

  /** The calls IssueAll logs are the calls issued, in order. */
  lemma {:induction false} IssueAllCallsInOrder(t: Trace, calls: seq<Call>)
    ensures var p := IssueAll(t, calls);
      forall i :: |t.log| <= i < |p.trace.log| ==> i - |t.log| < |calls| && p.trace.log[i].call == calls[i - |t.log|]
    decreases |calls|
  {
    if calls != [] {
      var front := calls[..|calls| - 1];
      IssueAllCallsInOrder(t, front);
      IssueAllLength(t, front);
      var p0 := IssueAll(t, front);
      if p0.ok {
        var log := Issue(p0.trace, calls[|calls| - 1]).log;
        assert forall i :: |t.log| <= i < |p0.trace.log| ==> log[i] == p0.trace.log[i];
      }
    }
  }

  /** Every call IssueAll logs before the last was accepted, and the last one's acceptance is the result. */
  lemma {:induction false} IssueAllRefusedLast(t: Trace, calls: seq<Call>)
    ensures var p := IssueAll(t, calls);
      && (forall i :: |t.log| <= i < |p.trace.log| - 1 ==> p.trace.log[i].ok)
      && (|p.trace.log| > |t.log| ==> p.trace.log[|p.trace.log| - 1].ok == p.ok)
    decreases |calls|
  {
    if calls != [] {
      var front := calls[..|calls| - 1];
      IssueAllRefusedLast(t, front);
      IssueAllLength(t, front);
      var p0 := IssueAll(t, front);
      if p0.ok {
        var log := Issue(p0.trace, calls[|calls| - 1]).log;
        assert forall i :: |t.log| <= i < |p0.trace.log| ==> log[i] == p0.trace.log[i];
      }
    }
  }

  /**
   * IssueAll logs the calls in order: an accepted prefix, followed, if it
   * stopped early, by exactly one refused call; nothing else changes.
   */
  lemma IssueAllLog(t: Trace, calls: seq<Call>)
    ensures var p := IssueAll(t, calls);
      && p.trace.faults == t.faults
      && t.log <= p.trace.log
      && |t.log| + (if p.ok then |calls| else 1) <= |p.trace.log| <= |t.log| + |calls|
      && (p.ok ==> |p.trace.log| == |t.log| + |calls|)
      && (forall i :: |t.log| <= i < |p.trace.log| ==> p.trace.log[i].call == calls[i - |t.log|])
      && (forall i :: |t.log| <= i < |p.trace.log| - 1 ==> p.trace.log[i].ok)
      && (|p.trace.log| > |t.log| ==> p.trace.log[|p.trace.log| - 1].ok == p.ok)
  {
    IssueAllLength(t, calls);
    IssueAllCallsInOrder(t, calls);
    IssueAllRefusedLast(t, calls);
  }

  /** Since t, something was logged, and the last call logged was refused and is one of calls. */
  predicate RefusedLastAmong(t: Trace, t': Trace, calls: seq<Call>) {
    |t.log| < |t'.log| && !t'.log[|t'.log| - 1].ok && t'.log[|t'.log| - 1].call in calls
  }

  /** A list that stopped early ends its log with the refused call, one of the calls issued. */
  lemma IssueAllRefused(t: Trace, calls: seq<Call>)
    requires !IssueAll(t, calls).ok
    ensures RefusedLastAmong(t, IssueAll(t, calls).trace, calls)
  {
    IssueAllLength(t, calls);
    IssueAllCallsInOrder(t, calls);
    IssueAllRefusedLast(t, calls);
  }

  /** A list whose first call is refused stops there. */
  lemma {:induction false} IssueAllFirstRefused(t: Trace, calls: seq<Call>)
    requires calls != [] && !Accepted(t, calls[0])
    ensures !IssueAll(t, calls).ok
    decreases |calls|
  {
    if |calls| > 1 {
      IssueAllFirstRefused(t, calls[..|calls| - 1]);
    }
  }

  /** The log entries of calls that were all accepted. */
  function AcceptedEvents(calls: seq<Call>): (r: seq<Event>)
    ensures |r| == |calls|
    ensures forall i :: 0 <= i < |calls| ==> r[i] == Event(calls[i], true)
  {
    seq(|calls|, i requires 0 <= i < |calls| => Event(calls[i], true))
  }

  /** A list issued without refusal is logged call by call, all accepted. */
  lemma IssueAllOkLog(t: Trace, calls: seq<Call>)
    requires IssueAll(t, calls).ok
    ensures IssueAll(t, calls).trace.log == t.log + AcceptedEvents(calls)
  {
    IssueAllLog(t, calls);
    var log := IssueAll(t, calls).trace.log;
    if |calls| > 0 {
      assert log[|log| - 1].ok;
    }
    assert forall i :: |t.log| <= i < |log| ==> log[i] == Event(calls[i - |t.log|], true);
  }

  /** The calls of a log, in order. */
  function Calls(log: seq<Event>): (r: seq<Call>)
    ensures |r| == |log|
    ensures forall i :: 0 <= i < |log| ==> r[i] == log[i].call
  {
    seq(|log|, i requires 0 <= i < |log| => log[i].call)
  }

  lemma CallsAppend(a: seq<Event>, b: seq<Event>)
    ensures Calls(a + b) == Calls(a) + Calls(b)
  {
  }

  /** A list issued without refusal adds exactly its calls to the log. */
  lemma IssueAllOkCalls(t: Trace, calls: seq<Call>)
    requires IssueAll(t, calls).ok
    ensures Calls(IssueAll(t, calls).trace.log) == Calls(t.log) + calls
  {
    IssueAllOkLog(t, calls);
    CallsAppend(t.log, AcceptedEvents(calls));
    CallsAcceptedEvents(calls);
  }

  /** The calls logged after the first trace's log, when the second log extends it in length. */
  function Since(t: Trace, t': Trace): seq<Call> {
    if |t.log| <= |t'.log| then Calls(t'.log)[|t.log|..] else []
  }

  /** A log that extends another by calls has exactly those calls since. */
  lemma SinceExtended(t: Trace, t': Trace, a: seq<Call>, b: seq<Call>, c: seq<Call>)
    requires Calls(t'.log) == Calls(t.log) + a + b + c
    ensures Since(t, t') == a + b + c
  {
    assert |t'.log| == |t.log| + |a + b + c|;
    assert Calls(t.log) + a + b + c == Calls(t.log) + (a + b + c);
  }

  /** A log that extends another entry by entry with the given calls. */
  lemma CallsExtended(before: seq<Event>, log: seq<Event>, extra: seq<Call>)
    requires |log| == |before| + |extra| && log[..|before|] == before
    requires forall i :: 0 <= i < |extra| ==> log[|before| + i].call == extra[i]
    ensures Calls(log) == Calls(before) + extra
  {
    forall i | 0 <= i < |log|
      ensures Calls(log)[i] == (Calls(before) + extra)[i]
    {
      if i < |before| {
        assert log[i] == before[i];
      } else {
        assert log[|before| + (i - |before|)].call == extra[i - |before|];
      }
    }
  }

  lemma CallsAcceptedEvents(calls: seq<Call>)
    ensures Calls(AcceptedEvents(calls)) == calls
  {
  }

  /** The second snapshot comes from the first by issuing calls: the same faults, a log that only grew. */
  predicate Extends(t: Trace, t': Trace) {
    t'.faults == t.faults && |t.log| <= |t'.log| && t'.log[..|t.log|] == t.log
  }

  lemma ExtendsTrans(t1: Trace, t2: Trace, t3: Trace)
    requires Extends(t1, t2) && Extends(t2, t3)
    ensures Extends(t1, t3)
  {
    assert t3.log[..|t1.log|] == t3.log[..|t2.log|][..|t1.log|];
  }

  /** The calls since the first snapshot are those up to the second and then those after it. */
  lemma SinceSplit(t1: Trace, t2: Trace, t3: Trace)
    requires Extends(t1, t2) && Extends(t2, t3)
    ensures Since(t1, t3) == Since(t1, t2) + Since(t2, t3)
  {
    ExtendsTrans(t1, t2, t3);
    var c3 := Calls(t3.log);
    assert Calls(t2.log) == c3[..|t2.log|] by {
      assert t3.log[..|t2.log|] == t2.log;
    }
    assert c3[|t1.log|..] == c3[|t1.log|..|t2.log|] + c3[|t2.log|..];
  }

  /** The calls up to an intermediate snapshot begin the calls up to a later one. */
  lemma SincePrefix(t1: Trace, t2: Trace, t3: Trace)
    requires Extends(t1, t2) && Extends(t2, t3)
    ensures Extends(t1, t3)
    ensures |Since(t1, t2)| <= |Since(t1, t3)| && Since(t1, t3)[..|Since(t1, t2)|] == Since(t1, t2)
  {
    SinceSplit(t1, t2, t3);
    ExtendsTrans(t1, t2, t3);
  }

  /** A prefix of the middle part, after the same head, is a prefix of the whole. */
  lemma PrefixPad(a: seq<Call>, b: seq<Call>, c: seq<Call>, d: seq<Call>)
    requires b <= c
    ensures a + b <= a + c + d
  {
    assert (a + c + d)[..|a + b|] == a + b;
  }

  /** Every call of a prefix is a call of the whole. */
  lemma PrefixMembers(a: seq<Call>, b: seq<Call>)
    requires a <= b
    ensures forall c :: c in a ==> c in b
  {
    forall c | c in a
      ensures c in b
    {
      var i :| 0 <= i < |a| && a[i] == c;
      assert b[i] == c;
    }
  }

  /** One call extends the log by exactly that call. */
  lemma IssueExtends(t: Trace, c: Call)
    ensures Extends(t, Issue(t, c))
    ensures Since(t, Issue(t, c)) == [c]
  {
    var log := Issue(t, c).log;
    assert log[..|t.log|] == t.log;
  }

  /** Issuing a list of calls extends the log, by the whole list when none is refused. */
  lemma IssueAllExtends(t: Trace, calls: seq<Call>)
    ensures Extends(t, IssueAll(t, calls).trace)
    ensures IssueAll(t, calls).ok ==> Since(t, IssueAll(t, calls).trace) == calls
    ensures Since(t, IssueAll(t, calls).trace) <= calls
  {
    IssueAllSincePrefix(t, calls);
    if IssueAll(t, calls).ok {
      IssueAllOkSince(t, calls);
    }
  }

  /** The calls since the start of a list are a prefix of it. */
  lemma IssueAllSincePrefix(t: Trace, calls: seq<Call>)
    ensures Extends(t, IssueAll(t, calls).trace)
    ensures Since(t, IssueAll(t, calls).trace) <= calls
  {
    IssueAllLog(t, calls);
    var log := IssueAll(t, calls).trace.log;
    assert log[..|t.log|] == t.log;
    var since := Since(t, IssueAll(t, calls).trace);
    assert forall i :: 0 <= i < |since| ==> since[i] == log[|t.log| + i].call;
    assert since == calls[..|since|];
  }

  /** A list issued without refusal has exactly its calls since the start. */
  lemma IssueAllOkSince(t: Trace, calls: seq<Call>)
    requires IssueAll(t, calls).ok
    ensures Since(t, IssueAll(t, calls).trace) == calls
  {
    var log := IssueAll(t, calls).trace.log;
    IssueAllOkCalls(t, calls);
    assert Calls(t.log) + calls == Calls(log);
    assert Calls(log)[|t.log|..] == calls;
  }

  /** A list issued with a refusal ends with the refused call, logged last. */
  lemma IssueAllFailLog(t: Trace, calls: seq<Call>)
    requires !IssueAll(t, calls).ok
    ensures var log := IssueAll(t, calls).trace.log;
      |t.log| < |log| && !log[|log| - 1].ok && LastCallFailed(IssueAll(t, calls).trace).at == |log| - 1
  {
    IssueAllLog(t, calls);
  }

  /** After replacing the API with ID id, a lookup of id finds the replacement and other lookups are unchanged. */
  lemma {:induction false} FindApiReplace(apis: seq<ApiEntity>, id: Id, a: ApiEntity)
    requires a.id == id
    ensures FindApi(ReplaceApi(apis, id, a), id) == (if FindApi(apis, id).Some? then Some(a) else None)
    ensures forall other :: other != id ==> FindApi(ReplaceApi(apis, id, a), other) == FindApi(apis, other)
    decreases |apis|
  {
    if apis != [] {
      assert ReplaceApi(apis, id, a)[1..] == ReplaceApi(apis[1..], id, a);
      FindApiReplace(apis[1..], id, a);
    }
  }

  /** After removing the APIs with ID id, no lookup of id succeeds and other lookups are unchanged. */
  lemma {:induction false} FindApiRemove(apis: seq<ApiEntity>, id: Id)
    ensures FindApi(RemoveApi(apis, id), id).None?
    ensures forall other :: other != id ==> FindApi(RemoveApi(apis, id), other) == FindApi(apis, other)
    decreases |apis|
  {
    if apis != [] {
      FindApiRemove(apis[1..], id);
      if apis[0].id == id {
        assert RemoveApi(apis, id) == RemoveApi(apis[1..], id);
      } else {
        assert RemoveApi(apis, id) == [apis[0]] + RemoveApi(apis[1..], id);
        assert (forall other :: other != id ==> FindApi(RemoveApi(apis, id), other) == FindApi(apis, other));
      }
    }
  }

  /** After removing the applications with ID id, no lookup of id succeeds. */
  lemma {:induction false} FindApplicationRemove(apps: seq<ApplicationEntity>, id: Id)
    ensures FindApplication(RemoveApplication(apps, id), id).None?
    decreases |apps|
  {
    if apps != [] {
      FindApplicationRemove(apps[1..], id);
      if apps[0].id == id {
        assert RemoveApplication(apps, id) == RemoveApplication(apps[1..], id);
      } else {
        assert RemoveApplication(apps, id) == [apps[0]] + RemoveApplication(apps[1..], id);
      }
    }
  }

  /** Reads and Kubernetes calls leave the store unchanged. */
  predicate ReadOnly(c: Call) {
    c.GetApi? || c.SearchApis? || c.ListPlans? || c.GetPlan? || c.ListSubscriptions?
    || c.GetApplication? || IsKubernetesCall(c)
  }

  lemma ReadOnlyEffect(s: Store, c: Call)
    requires ReadOnly(c)
    ensures Effect(s, c) == s
  {
  }

  /** Subscription calls leave APIs and plans alone. */
  lemma SubscriptionEffect(s: Store, c: Call)
    requires c.CreateSubscription? || c.CloseSubscription?
    ensures Effect(s, c).apis == s.apis && Effect(s, c).plans == s.plans
  {
  }

  /** Issuing reads leaves the store as it was; if none was refused, the store accepts every one. */
  lemma {:induction false} IssueAllReads(t: Trace, calls: seq<Call>)
    requires forall c :: c in calls ==> ReadOnly(c)
    ensures IssueAll(t, calls).trace.store == t.store
    ensures IssueAll(t, calls).ok ==> forall c :: c in calls ==> Accepts(t.store, c)
    decreases |calls|
  {
    if calls != [] {
      var front, last := calls[..|calls| - 1], calls[|calls| - 1];
      assert calls == front + [last];
      IssueAllReads(t, front);
      ReadOnlyEffect(t.store, last);
    }
  }

  /**
   * The collaborators as an object with state: each remote operation is a
   * call of Invoke, which may be refused.
   */
  class Backend {
    var store: Store
    var log: seq<Event>
    const faults: set<nat>

    function Snapshot(): Trace
      reads this
    {
      Trace(store, log, faults)
    }

    constructor (initial: Store, faults: set<nat>)
      ensures Snapshot() == Trace(initial, [], faults)
    {
      this.store := initial;
      this.log := [];
      this.faults := faults;
    }

    method Invoke(c: Call) returns (ok: bool, reply: Reply)
      modifies this
      ensures Snapshot() == Issue(old(Snapshot()), c)
      ensures ok == Accepted(old(Snapshot()), c)
      ensures ok ==> reply == Answer(old(store), c)
    {
      ok := |log| !in faults && Accepts(store, c);
      reply := if ok then Answer(store, c) else Done;
      if ok {
        store := Effect(store, c);
      }
      log := log + [Event(c, ok)];
    }
  }

  /** Issue the next call of a list being issued in order: the list issued so far grows by c. */
  method IssueNext(b: Backend, ghost t0: Trace, ghost sent: seq<Call>, c: Call) returns (ok: bool)
    requires IssueAll(t0, sent) == Progress(b.Snapshot(), true)
    modifies b
    ensures IssueAll(t0, sent + [c]) == Progress(b.Snapshot(), ok)
  {
    IssueAllSnoc(t0, sent, c);
    var reply;
    ok, reply := b.Invoke(c);
  }

  /** As IssueNext, also returning the reply. */
  method IssueNextReading(b: Backend, ghost t0: Trace, ghost sent: seq<Call>, c: Call) returns (ok: bool, reply: Reply)
    requires IssueAll(t0, sent) == Progress(b.Snapshot(), true)
    modifies b
    ensures IssueAll(t0, sent + [c]) == Progress(b.Snapshot(), ok)
    ensures ok ==> reply == Answer(old(b.store), c)
    ensures b.store == (if ok then Effect(old(b.store), c) else old(b.store))
  {
    IssueAllSnoc(t0, sent, c);
    ok, reply := b.Invoke(c);
  }
}
