# Gravitee operator: a verified model of its reconcilers

The operator keeps Gravitee API-gateway objects in line with two Kubernetes
custom resources:

- An **APIEndpoint** describes an API: name, version, context path, target
  or target Service, CORS, plans and tags. Its reconciler creates the API in
  Gravitee, or updates it when the object's generation or the API's
  modification time says it is stale. It pushes the target, CORS and plans,
  deploys and starts the API, records the API's identity in the status, and
  asks to be run again after a configured period.
- An **APIClient** describes an application and the (context path, plan name)
  pairs it subscribes to. Its reconciler creates or updates the application,
  records it in the status and brings its subscriptions in line.
- Both reconcilers register a finalizer on live objects. When an object is
  deleted, they tear the Gravitee side down (the API with its plans, the
  application with its subscriptions) before releasing the finalizer.

This project models those reconcile passes and the gateway helpers they
call:
- plan sync, subscription sync, API and application deletion, deploy, and
  the search by context path;
- plan lookup by name, the target resolution, and the finalizer-list
  helpers.

It proves what each promises.

## How the model is built

- **The outside world.** `Gateway` holds all of it in one value, a `Trace`:
  - a `Store` of Gravitee APIs, plans, subscriptions and applications, and of
    Kubernetes Services;
  - the log of every call issued (Gravitee calls, object writes, status
    writes, Service reads), each with whether it succeeded;
  - a fixed set of log positions at which a call is refused.

  A call succeeds when the store accepts it (the entity exists, the API is
  not already started, ...) and its position is not refused. Every property
  is proved for every such fault pattern. The class `Gateway.Backend` is the
  mutable form of a `Trace`: its `Invoke` issues one call.
- **Methods and specification functions.** Every operation is an imperative
  method on the `Backend` (and, in the controllers, on the custom resource
  object). Its `ensures` says that the new backend state, the object and
  the outcome are those computed by a pure specification function, such as
  `DeleteAPIRun` or `ReconcileRun`. Lemmas then prove what the source
  promises about that function.
- **Outcomes.** `Ok`, `Fail(error)` and `Panic`. `Panic` ends the pass; it
  stands for `l.Panicf` and for a nil pointer dereference after a logged
  error. An error that the Go code only logs does not stop the model either.
- **Map order.** The subscription sync walks a Go map whose order is
  unspecified. The method returns the order it used as a ghost value, and
  the specification is stated for that order and proved for every order
  that enumerates the map's keys.

Consequences of the source that the proofs make explicit:

- **Missing remote objects.** A status ID whose API or application no
  longer exists always ends the update branch in a panic. Usually the
  staleness test dereferences the nil result. When the generation alone
  makes the object stale, the panic comes later: the endpoint deploys the
  nil API (`UpdateBranchUnreadable`), and the client's subscription sync
  is refused the listing of the missing application (`UpdateBranchMissing`).
- **Deleting a missing API.** `DeleteAPI` on an API that no longer exists
  fails. The listing of its plans is refused (`DeleteAPIMissing`), so the
  finalizer is never released.
- **Errors in the update and create branches.** A refused API update is
  only logged, as are the deploy and status write: the pass still syncs
  the plans, deploys and records the status. A failed plan sync is not: the
  plan stub panics on a refused listing or write. An unresolved target is
  not either: a refused Service read leaves the target nil, and a Service
  without ports panics, so the API update dereferences nil and the pass
  ends in a panic.
- **CreateAPI.** The endpoint's CreateAPI error is ignored, and the search
  by context path decides what happens next.
- **Recorded modification time.** The endpoint's update branch records the
  API's modification time as read before its own update and deploy. These
  change that time, so the next pass can find the object stale again. The
  model records the pre-update value, as the code does.
- **Subscription keys.** They are `contextPath + "-" + planName`, which two
  different pairs can share (`SubscriptionKeyCollides`). The key is
  unambiguous when context paths contain no dash
  (`SubscriptionKeyInjective`).

## Model

| member | source | states |
|---|---|---|
| StubHelpers.ContainsString | controllers/gravitee_stubs.go:667-674 | true exactly when the string occurs in the slice |
| StubHelpers.RemoveString | controllers/gravitee_stubs.go:676-684 | the result lacks the string, holds exactly the other elements with their multiplicities |
| StubHelpers.RemoveStringAppend | controllers/gravitee_stubs.go:676-684 | removal distributes over concatenation, so the kept elements stay in their order |
| StubHelpers.RemoveStringAbsent | controllers/gravitee_stubs.go:676-684 | removing a string that does not occur returns the slice unchanged |
| StubHelpers.SingleMatch | controllers/gravitee_stubs.go:130-134 | a search result is taken exactly when exactly one API matched, and it is that API |
| StubHelpers.FirstPlanNamed | controllers/gravitee_stubs.go:515-520 | none exactly when no plan has the name; otherwise the first plan with that name |
| StubHelpers.SubscriptionKeyCollides | controllers/gravitee_stubs.go:426 | two different (context path, plan name) pairs can give the same subscription key |
| StubHelpers.SubscriptionKeyInjective | controllers/gravitee_stubs.go:426 | with dash-free context paths, equal keys mean equal pairs |
| StubHelpers.LastSubscriptionOnPlan | controllers/gravitee_stubs.go:463-470 | empty when no subscription is on the plan, otherwise the ID of the last one that is |
| ApiStubs.GetAPIReads | controllers/gravitee_stubs.go:70-86 | succeeds exactly when the API exists and the call is not refused, returning that API; the store is unchanged and one read is logged |
| ApiStubs.GetAPI | controllers/gravitee_stubs.go:70-86 | the backend state, outcome and API are those of GetAPIRun |
| ApiStubs.CreateAPIAdds | controllers/gravitee_stubs.go:88-113 | on success one stopped, undeployed API with a new ID and the spec's context path, name, version, description and target is appended; on failure the store is unchanged |
| ApiStubs.CreateAPI | controllers/gravitee_stubs.go:88-113 | the backend state and outcome are those of CreateAPIRun |
| ApiStubs.SearchAPIFinds | controllers/gravitee_stubs.go:115-135 | a refused search panics and it never returns an error; a result is the only API at the path; no result while some API has the path means several have it |
| ApiStubs.SearchAPI | controllers/gravitee_stubs.go:115-135 | the backend state, outcome and result are those of SearchAPIRun |
| ApiStubs.UpdateAPIApplies | controllers/gravitee_stubs.go:137-193 | a missing target or CORS panics without a call; on success the API gets the spec's name, version, description, tags, path, target and CORS, private visibility, keeps its state, and no other API changes; a failure changes nothing |
| ApiStubs.UpdateAPI | controllers/gravitee_stubs.go:137-193 | the backend state and outcome are those of UpdateAPIRun |
| ApiStubs.DeployAPIStarts | controllers/gravitee_stubs.go:195-223 | always succeeds, issues a deploy then a START, and when both are accepted the API is started with one more deployment |
| ApiStubs.DeployedAndStarted | controllers/gravitee_stubs.go:195-223 | an existing API whose deploy and START are not refused ends started and deployed once more |
| ApiStubs.DeployAPI | controllers/gravitee_stubs.go:195-223 | the backend state and outcome are those of DeployAPIRun |
| ApiStubs.GetPlanByNameRun | controllers/gravitee_stubs.go:502-521 | a plan is returned exactly when the outcome is success, and the lookup never panics |
| ApiStubs.GetPlanByNameFinds | controllers/gravitee_stubs.go:502-521 | the plan returned is the API's first published plan with the name; "no plan" exactly when the listing succeeds without one; a refused listing is returned as its error; the store is unchanged |
| ApiStubs.GetPlanByName | controllers/gravitee_stubs.go:502-521 | the backend state, outcome and plan are those of GetPlanByNameRun |
| PlanSync.UpdatesForMembers | controllers/gravitee_stubs.go:241-263 | the updates issued for a desired plan are exactly one per remote plan with its name |
| PlanSync.MatchCallsMembers | controllers/gravitee_stubs.go:239-290 | the first loop issues exactly an update per (desired, same-named remote) pair and a create per desired plan no remote plan is named like |
| PlanSync.RetireCallsMembers | controllers/gravitee_stubs.go:292-323 | the second loop closes and deletes exactly the remote plans whose name no desired plan has |
| PlanSync.PlanWritesCreates | controllers/gravitee_stubs.go:265-289 | the creates are, in order, one per unmatched desired plan, each published, of type API, validated AUTO, for this API, with that plan's name, description, security and security definition |
| PlanSync.PlanWritesUpdates | controllers/gravitee_stubs.go:244-256 | each update carries the desired description, name and security definition and the remote plan's tags, order and validation |
| PlanSync.PlanWritesRetires | controllers/gravitee_stubs.go:291-323 | a remote plan is closed and deleted if and only if its name matches no desired plan |
| PlanSync.PlanWritesOrder | controllers/gravitee_stubs.go:237-323 | every retirement is a close immediately followed by the delete of the same plan, and all creates and updates come before any retirement |
| PlanSync.UpdateAPIPlans | controllers/gravitee_stubs.go:225-325 | the backend state and outcome are those of UpdateAPIPlansRun: the listing, then the writes, stopping at the first refused write |
| PlanSync.UpdateAPIPlansCalls | controllers/gravitee_stubs.go:225-325 | a successful sync issues the listing and then exactly the plan writes for the listed published plans |
| PlanConvergence.UpdateAPIPlansConverges | controllers/gravitee_stubs.go:225-325 | after a successful sync the plan IDs stay distinct and the API's published plan names are exactly the desired names |
| PlanConvergence.MatchCallsInv | controllers/gravitee_stubs.go:239-290 | the first loop keeps plan IDs distinct and every existing plan's API, status and name; any plan it adds is a published plan of the API with a desired name |
| PlanConvergence.MatchCallsCreates | controllers/gravitee_stubs.go:265-289 | after the first loop, each desired plan no listed plan names has a new published plan of the API with its name |
| PlanConvergence.RetireCallsInv | controllers/gravitee_stubs.go:291-323 | the second loop removes exactly the listed plans whose name no desired plan has, keeps IDs distinct and changes nothing else |
| PlanSync.UpdateAPIPlansExtends | controllers/gravitee_stubs.go:225-325 | plan sync only appends to the log |
| Deletion.TeardownCallsShape | controllers/gravitee_stubs.go:354-379 | each listed plan is closed and then deleted, and nothing else is issued in the loop |
| Deletion.DeleteAPIOrder | controllers/gravitee_stubs.go:327-391 | a successful deletion issues STOP (its result discarded), the plan listing, every close and delete, then exactly one API delete |
| Deletion.DeleteAPIGone | controllers/gravitee_stubs.go:380-390 | after a successful deletion the API no longer exists |
| Deletion.DeleteAPIMissing | controllers/gravitee_stubs.go:343-353 | deleting an API that does not exist fails at the plan listing and changes nothing |
| Deletion.DeleteAPIPanicStops | controllers/gravitee_stubs.go:354-379 | a panic comes from a refused close or delete of a listed plan, the last call issued, and the API delete is never issued |
| Deletion.DeleteAPIDeleteOrder | controllers/gravitee_stubs.go:327-391 | whenever the API delete is issued, it comes after STOP, the listing and every close and delete of the listed plans |
| Deletion.DeleteAPIFailure | controllers/gravitee_stubs.go:349-389 | an error returned is the refusal of the plan listing or of the API delete, the last call issued |
| Deletion.DeleteAPICalls | controllers/gravitee_stubs.go:327-391 | deletion only stops, lists, closes and deletes plans of this API and deletes this API |
| Deletion.DeleteAPI | controllers/gravitee_stubs.go:327-391 | the backend state and outcome are those of DeleteAPIRun |
| Deletion.CloseAllCallsMembers | controllers/gravitee_stubs.go:597-613 | the loop closes exactly the listed subscriptions of the application |
| Deletion.DeleteApplicationOrder | controllers/gravitee_stubs.go:584-628 | a successful deletion lists the subscriptions, closes every active one, then deletes the application once |
| Deletion.DeleteApplicationGone | controllers/gravitee_stubs.go:614-627 | after a successful deletion the application no longer exists |
| Deletion.DeleteApplicationFailure | controllers/gravitee_stubs.go:606-626 | an error returned is the last call's refusal, and after a refused close the application delete is never issued |
| Deletion.DeleteApplicationCalls | controllers/gravitee_stubs.go:584-628 | deletion only lists and closes this application's subscriptions and deletes this application |
| Deletion.DeleteApplication | controllers/gravitee_stubs.go:584-628 | the backend state and outcome are those of DeleteApplicationRun |
| SubscriptionSync.ExtIndexCovers | controllers/gravitee_stubs.go:407-427 | every listed subscription's key is in the index |
| SubscriptionSync.ExtIndexKeys | controllers/gravitee_stubs.go:407-427 | every indexed key maps to the plan of the last listed subscription with that key |
| SubscriptionSync.IndexSubscriptions | controllers/gravitee_stubs.go:407-427 | reads each listed subscription's API and plan in turn, stopping at a refusal; on success returns the index |
| SubscriptionSync.UpdateAPISubscriptionsCalls | controllers/gravitee_stubs.go:393-488 | a successful sync issues exactly the reads, then the per-pair creates, then the closes |
| SubscriptionSync.CreateCallsKinds | controllers/gravitee_stubs.go:429-452 | the create phase only searches APIs, lists plans and creates subscriptions: it never closes or deletes |
| SubscriptionSync.UpdateAPISubscriptionsCreates | controllers/gravitee_stubs.go:429-452 | every desired pair whose key is not indexed resolves to a plan, and a subscription of the application to that plan is created |
| SubscriptionSync.UpdateAPISubscriptionsCreatesOnly | controllers/gravitee_stubs.go:429-452 | every subscription created is for this application and the plan of a desired pair whose key was not indexed |
| SubscriptionSync.UpdateAPISubscriptionsCloses | controllers/gravitee_stubs.go:453-487 | the subscriptions closed are exactly, per indexed key no desired pair has, the last listed subscription on that key's plan |
| SubscriptionSync.UpdateAPISubscriptionsFailure | controllers/gravitee_stubs.go:429-483 | an error returned is a desired plan name not found or the refusal of the last call issued, a plan listing or a close, never a create |
| SubscriptionSync.UpdateAPISubscriptionsCloseRefused | controllers/gravitee_stubs.go:472-483 | a refused close is the last call issued and its refusal is the error returned |
| SubscriptionSync.CreatePhaseKinds | controllers/gravitee_stubs.go:429-452 | the create phase only searches APIs, lists plans and creates subscriptions, whatever is refused |
| SubscriptionSync.CloseCallsMembers | controllers/gravitee_stubs.go:453-487 | the close loop closes exactly for the walked keys no desired pair has, never more closes than keys walked |
| SubscriptionSync.FindDesiredKey | controllers/gravitee_stubs.go:456-461 | the flag is set exactly when some desired pair has the key |
| SubscriptionSync.FindSubscriptionOnPlan | controllers/gravitee_stubs.go:463-470 | returns the ID of the last listed subscription on the plan |
| SubscriptionSync.CloseSubscriptions | controllers/gravitee_stubs.go:453-487 | walks every key once, in the order returned, issuing the closes until one is refused |
| SubscriptionSync.UpdateAPISubscriptions | controllers/gravitee_stubs.go:393-488 | the order walked enumerates the index's keys, and the backend state and outcome are those of UpdateAPISubscriptionsRun for that order |
| SubscriptionSync.CreateCallsIndexed | controllers/gravitee_stubs.go:430-431 | when every desired pair is already indexed, the create loop issues no call |
| SubscriptionSync.CloseCallsDesired | controllers/gravitee_stubs.go:455-462 | when every indexed key is desired, the close loop issues no call |
| SubscriptionSync.UpdateAPISubscriptionsSteady | controllers/gravitee_stubs.go:393-488 | when the desired pairs are exactly the indexed keys, a successful sync issues only its reads and leaves the store unchanged |
| SubscriptionSync.UpdateAPISubscriptionsExtends | controllers/gravitee_stubs.go:393-488 | the sync only appends to the log |
| Target.Digits | controllers/apiendpoint_controller.go:206 | the decimal digits of a port, without leading zeros |
| Target.FormatInt | controllers/apiendpoint_controller.go:206 | %d output starts with a minus sign exactly for negative numbers |
| Target.FormatIntRoundTrip | controllers/apiendpoint_controller.go:206 | reading back the printed port gives the port |
| Target.ServiceTargetParts | controllers/apiendpoint_controller.go:206 | the URL is protocol://name.namespace.svc.domain: then the port, which reads back, then "/" and the target path |
| Target.GetAPITargetResolves | controllers/apiendpoint_controller.go:190-225 | without a Service name the literal target is used and nothing is called; with one, one Service read; an error exactly when the read fails; a panic exactly when the Service has no port; otherwise the URL of the first port with its protocol or the default |
| Target.GetServiceByName | controllers/apiendpoint_controller.go:190-208 | the backend state, outcome and target are those of GetServiceByNameRun |
| Target.GetAPITarget | controllers/apiendpoint_controller.go:216-225 | the backend state, outcome and target are those of GetAPITargetRun |
| EndpointController.UpdateCRDWrites | controllers/apiendpoint_controller.go:210-214 | the status takes the generation, its ID and modification time and the rest of the object unchanged, and exactly one status write is issued |
| EndpointController.UpdateCRD | controllers/apiendpoint_controller.go:210-214 | the backend state, object and outcome are those of UpdateCRDRun |
| EndpointController.RegisterWrites | controllers/apiendpoint_controller.go:78-83 | a present finalizer means no call; a missing one is appended and the object written, a refused write being returned |
| EndpointController.PushRun | controllers/apiendpoint_controller.go:114-127 | target, update, plans and deploy never return an error; a missing API panics at the deploy |
| EndpointController.PushIssues | controllers/apiendpoint_controller.go:114-127 | a completed push reads the Service when named, updates the API, lists and writes its plans, then deploys and starts it, in that order and nothing else |
| EndpointController.PushEnds | controllers/apiendpoint_controller.go:114-127 | a completed push ends with the deploy and the START of the API |
| EndpointController.UpdateBranchIdle | controllers/apiendpoint_controller.go:105-111 | an API that is read and not stale costs one read and nothing else changes |
| EndpointController.UpdateBranchUnreadable | controllers/apiendpoint_controller.go:107-125 | an API that cannot be read aborts the pass |
| EndpointController.UpdateBranchRecords | controllers/apiendpoint_controller.go:111-137 | a stale object that completes records the ID and modification time of the API read before the update and the generation, after deploy and START, whatever those returned |
| EndpointController.UpdateBranch | controllers/apiendpoint_controller.go:105-140 | the backend state, object and outcome are those of UpdateBranchRun |
| EndpointController.CreateBranchExtends | controllers/apiendpoint_controller.go:141-151 | the create branch first creates the API from the spec, then searches its context path |
| EndpointController.CreateBranchOrder | controllers/apiendpoint_controller.go:151-177 | no API found means nothing more is done; a found API at the path is recorded and the status written next, and a completed pass ends with its deploy and START |
| EndpointController.CreateBranch | controllers/apiendpoint_controller.go:141-178 | the backend state, object and outcome are those of CreateBranchRun |
| EndpointController.ReconcileRegistersFirst | controllers/apiendpoint_controller.go:74-83 | a live object ends with the finalizer; when missing, its write is the pass's first call, and a refused write ends the pass with an error after that call alone |
| EndpointController.ReconcileDeletion | controllers/apiendpoint_controller.go:84-103 | a deleted object without the finalizer is left alone; with it, the finalizer is dropped exactly when DeleteAPI succeeds and its error is returned otherwise; no create, update, deploy or status write; no requeue |
| EndpointController.ReconcileRequeue | controllers/apiendpoint_controller.go:179-180 | a successful live pass requeues after the configured period, any other pass does not; a live pass errs exactly when the finalizer write is refused |
| EndpointController.Reconcile | controllers/apiendpoint_controller.go:57-181 | the backend state, object, outcome and result are those of ReconcileRun |
| ClientController.UpdateCRDWrites | controllers/apiclient_controller.go:163-167 | only the status's generation changes, to the object's, and exactly one status write is issued |
| ClientController.UpdateCRD | controllers/apiclient_controller.go:163-167 | the backend state, object and outcome are those of UpdateCRDRun |
| ClientController.RegisterWrites | controllers/apiclient_controller.go:75-80 | a present finalizer means no call; a missing one is appended and the object written, a refused write being returned |
| ClientController.SyncRun | controllers/apiclient_controller.go:132 | the subscription sync's error is ignored, and the object is unchanged |
| ClientController.UpdatePreludeStaleness | controllers/apiclient_controller.go:102-133 | the staleness test panics on an unreadable application unless the generation alone makes the object stale; a read, non-stale application costs one read; a stale one is updated with the spec's name, description, type, client ID and matching settings, then the generation is recorded |
| ClientController.FindApplicationAppended | controllers/apiclient_controller.go:144-148 | an application created with a new ID is found under that ID |
| ClientController.CreatePreludeRecords | controllers/apiclient_controller.go:134-151 | a refused create panics; otherwise an application with a new ID and the spec's fields exists, the status takes that ID and the generation, and the status is written next |
| ClientController.UpdateBranch | controllers/apiclient_controller.go:102-133 | the order walked suits the sync, and the backend state, object and outcome are those of UpdatePrelude carried through the sync |
| ClientController.CreateBranch | controllers/apiclient_controller.go:134-151 | the order walked suits the sync, and the backend state, object and outcome are those of CreatePrelude carried through the sync |
| ClientController.ReconcileRegistersFirst | controllers/apiclient_controller.go:71-80 | a live object ends with the finalizer; when missing, its write is the pass's first call, and a refused write ends the pass with an error after that call alone |
| ClientController.ReconcileDeletion | controllers/apiclient_controller.go:81-100 | a deleted object without the finalizer is left alone; with it, the finalizer is dropped exactly when DeleteApplication succeeds and its error is returned otherwise; only subscription, application and object calls are made |
| ClientController.UpdateBranchMissing | controllers/apiclient_controller.go:102-133 | an application that no longer exists ends the update branch in a panic, whether or not the generation alone makes the object stale |
| ClientController.SyncMissingPanics | controllers/gravitee_stubs.go:396-405 | the subscription sync of an application that does not exist panics, since its listing is refused |
| ClientController.ReconcileOutcome | controllers/apiclient_controller.go:152-167 | no pass requeues, the status's modification time is written back unchanged by every status write and never altered, and a live pass errs exactly when the finalizer write is refused |
| ClientController.Reconcile | controllers/apiclient_controller.go:55-153 | the backend state, object, outcome and result are those of ReconcileRun for the order the sync walked |

## Left out

- Fetching the object at the start of a pass is not modelled. The pass starts from the object, and a missing object (ignored as not found) is not part of the model.
- Init and the configuration file, the HTTP transport, authentication, timeouts, organization and environment routing are left out. The configuration values used (requeue period, default protocol and domain) are parameters.
- GetAPIAnalytics is left out: it reads the wall clock and works on floating-point analytics.
- SetupWithManager, controller-runtime dispatch and concurrency between workers are left out.
- The two-second sleep before the search, and all logging, are left out.
- The Gravitee search query ("virtual_hosts.path" followed by the path) is modelled as an exact match on the API's context path.
- Plan listings are modelled as returning the API's published plans, which is the gateway's default status filter.
- Subscription listings are modelled as returning only the application's subscriptions that are not closed (`ActiveSubscriptionsOf`), so the application deletion closes only those.
- PlanConvergence.UpdateAPIPlansConverges: assumes the API's plans have distinct IDs, as the gateway generates them.
- No convergence lemma is stated for the subscription sync: a refused subscription create is ignored by the source, so a successful sync need not have subscribed to every desired plan. What it does issue is stated by the SubscriptionSync lemmas.
- The JSON encoding of a plan's security definition is modelled as an opaque string.
- Go map iteration order is a ghost result of the sync method, not a fixed order.
- The gateway itself is a model of the behaviour the code relies on, not of Gravitee's implementation.
- EndpointController.UpdateBranchRecords: does not prove that the next pass is stale again when the update and deploy move the API's modification time, because the gateway's clock is not constrained.
