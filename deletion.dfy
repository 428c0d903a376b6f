/**
 * The finalizer-time clean-up stubs. DeleteAPI stops the API, closes and
 * deletes each of its listed plans and deletes the API; DeleteApplication
 * closes each listed subscription of the application and deletes it.
 */
module Deletion {
  import opened Types
  import opened Gateway
  import opened PlanSync

  // DeleteAPI

  /** The close-then-delete pair for each listed plan, in listing order, addressed to the API's status ID. */
  function TeardownCalls(apiId: Id, plans: seq<PlanEntity>): seq<Call>
    decreases |plans|
  {
    if plans == [] then []
    else
      var p := plans[|plans| - 1];
      TeardownCalls(apiId, plans[..|plans| - 1]) + [ClosePlan(apiId, p.id), DeletePlan(apiId, p.id)]
  }

  /**
   * One run of DeleteAPI. The STOP's result is discarded. A refused listing
   * is returned as an error; a refused close or delete of a plan aborts the
   * pass; a refused API delete is returned as an error.
   */
  function DeleteAPIRun(t: Trace, apiId: Id): Run {
    var t1 := Issue(t, DoLifecycleAction(apiId, Stop));
    var list := ListPlans(apiId);
    if !Accepted(t1, list) then Run(Issue(t1, list), Fail(CallFailed(|t1.log|)))
    else
      var p := IssueAll(Issue(t1, list), TeardownCalls(apiId, PublishedPlansOf(t1.store.plans, apiId)));
      if !p.ok then Run(p.trace, Panic)
      else
        var del := DeleteApi(apiId);
        Run(Issue(p.trace, del), if Accepted(p.trace, del) then Ok else Fail(CallFailed(|p.trace.log|)))
  }

  /** Each listed plan is closed and then at once deleted, and nothing else is issued. */
  lemma {:induction false} TeardownCallsShape(apiId: Id, plans: seq<PlanEntity>)
    ensures ClosedThenDeleted(TeardownCalls(apiId, plans))
    ensures forall c :: c in TeardownCalls(apiId, plans) <==>
              exists p :: p in plans && (c == ClosePlan(apiId, p.id) || c == DeletePlan(apiId, p.id))
    decreases |plans|
  {
    if plans != [] {
      var front, p := plans[..|plans| - 1], plans[|plans| - 1];
      TeardownCallsShape(apiId, front);
      var pair := [ClosePlan(apiId, p.id), DeletePlan(apiId, p.id)];
      assert ClosedThenDeleted(pair) by {
        assert pair[1] == DeletePlan(apiId, p.id);
      }
      ClosedThenDeletedAppend(TeardownCalls(apiId, front), pair);
      assert plans == front + [p];
    }
  }

  lemma {:induction false} TeardownCallsPrefix(apiId: Id, plans: seq<PlanEntity>, k: nat)
    requires k <= |plans|
    ensures TeardownCalls(apiId, plans[..k]) <= TeardownCalls(apiId, plans)
    decreases |plans|
  {
    if k < |plans| {
      TeardownCallsPrefix(apiId, plans[..|plans| - 1], k);
      assert plans[..|plans| - 1][..k] == plans[..k];
    } else {
      assert plans[..k] == plans;
    }
  }

  /** After a successful DeleteAPI the gateway has no API with the ID. */
  lemma DeleteAPIGone(t: Trace, apiId: Id)
    ensures var r := DeleteAPIRun(t, apiId);
      r.out.Ok? ==> FindApi(r.trace.store.apis, apiId).None?
  {
    var r := DeleteAPIRun(t, apiId);
    if r.out.Ok? {
      var t1 := Issue(t, DoLifecycleAction(apiId, Stop));
      var p := IssueAll(Issue(t1, ListPlans(apiId)), TeardownCalls(apiId, PublishedPlansOf(t1.store.plans, apiId)));
      assert r.trace.store.apis == RemoveApi(p.trace.store.apis, apiId);
      FindApiRemove(p.trace.store.apis, apiId);
    }
  }

  /**
   * The API is deleted only after the STOP, the listing, and the close and
   * delete of every listed plan: a successful run logs exactly these, and
   * every call after the STOP was accepted.
   */
  lemma DeleteAPIOrder(t: Trace, apiId: Id)
    ensures var stop := DoLifecycleAction(apiId, Stop);
      var calls := TeardownCalls(apiId, PublishedPlansOf(t.store.plans, apiId));
      DeleteAPIRun(t, apiId).out.Ok? ==>
        DeleteAPIRun(t, apiId).trace.log
          == t.log + [Event(stop, Accepted(t, stop))] + [Event(ListPlans(apiId), true)] + AcceptedEvents(calls)
             + [Event(DeleteApi(apiId), true)]
  {
    if DeleteAPIRun(t, apiId).out.Ok? {
      var t1 := Issue(t, DoLifecycleAction(apiId, Stop));
      assert t1.store.plans == t.store.plans;
      var t2 := Issue(t1, ListPlans(apiId));
      IssueAllOkLog(t2, TeardownCalls(apiId, PublishedPlansOf(t.store.plans, apiId)));
    }
  }

  /** The STOP and the listing that open a DeleteAPI pass; the STOP leaves the plans alone. */
  lemma DeleteAPIPrelude(t: Trace, apiId: Id)
    ensures var t1 := Issue(t, DoLifecycleAction(apiId, Stop));
      var t2 := Issue(t1, ListPlans(apiId));
      && t1.store.plans == t.store.plans
      && Extends(t, t2) && Since(t, t2) == [DoLifecycleAction(apiId, Stop), ListPlans(apiId)]
  {
    var t1 := Issue(t, DoLifecycleAction(apiId, Stop));
    var t2 := Issue(t1, ListPlans(apiId));
    IssueExtends(t, DoLifecycleAction(apiId, Stop));
    IssueExtends(t1, ListPlans(apiId));
    SinceSplit(t, t1, t2);
    ExtendsTrans(t, t1, t2);
  }

  /** The teardown list issued after the prelude: its calls since, and no API delete among them. */
  lemma TeardownIssuedSince(t: Trace, t2: Trace, calls: seq<Call>, apiId: Id, plans: seq<PlanEntity>)
    requires calls == TeardownCalls(apiId, plans)
    requires Extends(t, t2)
    ensures var p := IssueAll(t2, calls);
      && Extends(t, p.trace) && Since(t, p.trace) == Since(t, t2) + Since(t2, p.trace)
      && Since(t2, p.trace) <= calls && (p.ok ==> Since(t2, p.trace) == calls)
      && DeleteApi(apiId) !in Since(t2, p.trace)
  {
    var p := IssueAll(t2, calls);
    IssueAllExtends(t2, calls);
    SinceSplit(t, t2, p.trace);
    ExtendsTrans(t, t2, p.trace);
    TeardownCallsNoDelete(apiId, plans);
    PrefixMembers(Since(t2, p.trace), calls);
  }

  /** The plan loop never deletes the API itself. */
  lemma TeardownCallsNoDelete(apiId: Id, plans: seq<PlanEntity>)
    ensures DeleteApi(apiId) !in TeardownCalls(apiId, plans)
  {
    TeardownCallsShape(apiId, plans);
  }

  /**
   * A pass aborted by a refused close or delete of a plan never reaches the
   * API delete: the refused call, logged last, is one of the teardown calls.
   */
  lemma DeleteAPIPanicStops(t: Trace, apiId: Id)
    ensures var r := DeleteAPIRun(t, apiId);
      var calls := TeardownCalls(apiId, PublishedPlansOf(t.store.plans, apiId));
      r.out.Panic? ==> DeleteApi(apiId) !in Since(t, r.trace) && RefusedLastAmong(t, r.trace, calls)
  {
    var r := DeleteAPIRun(t, apiId);
    if r.out.Panic? {
      DeleteAPIPanicTrace(t, apiId);
      DeleteAPITeardownSince(t, apiId, r.trace);
      TeardownRefusedLast(t, apiId, r.trace);
    }
  }

  /** Up to the API delete, a DeleteAPI pass has issued the STOP, the listing and part of the teardown list, and no API delete. */
  lemma DeleteAPITeardownSince(t: Trace, apiId: Id, tr: Trace)
    requires tr == IssueAll(Issue(Issue(t, DoLifecycleAction(apiId, Stop)), ListPlans(apiId)),
                            TeardownCalls(apiId, PublishedPlansOf(t.store.plans, apiId))).trace
    ensures DeleteApi(apiId) !in Since(t, tr)
  {
    var t2 := Issue(Issue(t, DoLifecycleAction(apiId, Stop)), ListPlans(apiId));
    var calls := TeardownCalls(apiId, PublishedPlansOf(t.store.plans, apiId));
    var p := IssueAll(t2, calls);
    DeleteAPIPrelude(t, apiId);
    TeardownIssuedSince(t, t2, calls, apiId, PublishedPlansOf(t.store.plans, apiId));
    assert Since(t, p.trace) == [DoLifecycleAction(apiId, Stop), ListPlans(apiId)] + Since(t2, p.trace);
  }

  /** A DeleteAPI pass panics only when the teardown list stopped early, and its trace is that list's. */
  lemma DeleteAPIPanicTrace(t: Trace, apiId: Id)
    ensures var r := DeleteAPIRun(t, apiId);
      var t2 := Issue(Issue(t, DoLifecycleAction(apiId, Stop)), ListPlans(apiId));
      var p := IssueAll(t2, TeardownCalls(apiId, PublishedPlansOf(t.store.plans, apiId)));
      r.out.Panic? ==> !p.ok && r.trace == p.trace
  {
    assert Issue(t, DoLifecycleAction(apiId, Stop)).store.plans == t.store.plans;
  }

  /** A teardown list that stopped early after the STOP and the listing ends its log with the refused call. */
  lemma TeardownRefusedLast(t: Trace, apiId: Id, tr: Trace)
    requires var t2 := Issue(Issue(t, DoLifecycleAction(apiId, Stop)), ListPlans(apiId));
      var p := IssueAll(t2, TeardownCalls(apiId, PublishedPlansOf(t.store.plans, apiId)));
      !p.ok && tr == p.trace
    ensures RefusedLastAmong(t, tr, TeardownCalls(apiId, PublishedPlansOf(t.store.plans, apiId)))
  {
    var t2 := Issue(Issue(t, DoLifecycleAction(apiId, Stop)), ListPlans(apiId));
    assert |t2.log| == |t.log| + 2;
    IssueAllRefused(t2, TeardownCalls(apiId, PublishedPlansOf(t.store.plans, apiId)));
  }

  /**
   * Whenever the API delete is issued, refused or not, it was issued after
   * the STOP, the listing and the close and delete of every listed plan,
   * and nothing else.
   */
  lemma DeleteAPIDeleteOrder(t: Trace, apiId: Id)
    ensures var r := DeleteAPIRun(t, apiId);
      var calls := TeardownCalls(apiId, PublishedPlansOf(t.store.plans, apiId));
      DeleteApi(apiId) in Since(t, r.trace) ==>
        Since(t, r.trace) == [DoLifecycleAction(apiId, Stop), ListPlans(apiId)] + calls + [DeleteApi(apiId)]
  {
    var r := DeleteAPIRun(t, apiId);
    var t1 := Issue(t, DoLifecycleAction(apiId, Stop));
    var t2 := Issue(t1, ListPlans(apiId));
    var calls := TeardownCalls(apiId, PublishedPlansOf(t.store.plans, apiId));
    DeleteAPIPrelude(t, apiId);
    if Accepted(t1, ListPlans(apiId)) {
      var p := IssueAll(t2, calls);
      TeardownIssuedSince(t, t2, calls, apiId, PublishedPlansOf(t.store.plans, apiId));
      if p.ok {
        IssueExtends(p.trace, DeleteApi(apiId));
        SinceSplit(t, p.trace, r.trace);
      }
    }
  }

  /**
   * Deleting an API the gateway no longer has never succeeds: the STOP and
   * the listing are refused and the listing's refusal is returned, so the
   * finalizer is never released.
   */
  lemma DeleteAPIMissing(t: Trace, apiId: Id)
    requires forall a :: a in t.store.apis ==> a.id != apiId
    ensures DeleteAPIRun(t, apiId).out == Fail(CallFailed(|t.log| + 1))
    ensures DeleteAPIRun(t, apiId).trace.store == t.store
  {
  }

  /** A returned error names a refused call of this run: the listing or the API delete, logged last. */
  lemma DeleteAPIFailure(t: Trace, apiId: Id)
    ensures var r := DeleteAPIRun(t, apiId);
      r.out.Fail? ==>
        && r.out.error.CallFailed? && r.out.error.at == |r.trace.log| - 1 && |t.log| < r.out.error.at
        && !r.trace.log[r.out.error.at].ok
        && r.trace.log[r.out.error.at].call in {ListPlans(apiId), DeleteApi(apiId)}
  {
    var t1 := Issue(t, DoLifecycleAction(apiId, Stop));
    if Accepted(t1, ListPlans(apiId)) {
      var t2 := Issue(t1, ListPlans(apiId));
      IssueAllLog(t2, TeardownCalls(apiId, PublishedPlansOf(t1.store.plans, apiId)));
    }
  }

  /** The calls DeleteAPI may issue for an API. */
  predicate TeardownCall(apiId: Id, c: Call) {
    || c == DoLifecycleAction(apiId, Stop) || c == ListPlans(apiId) || c == DeleteApi(apiId)
    || ((c.ClosePlan? || c.DeletePlan?) && c.api == apiId)
  }

  lemma TeardownIssued(t: Trace, apiId: Id, plans: seq<PlanEntity>)
    ensures Extends(t, IssueAll(t, TeardownCalls(apiId, plans)).trace)
    ensures forall c :: c in Since(t, IssueAll(t, TeardownCalls(apiId, plans)).trace) ==> TeardownCall(apiId, c)
  {
    var calls := TeardownCalls(apiId, plans);
    IssueAllExtends(t, calls);
    TeardownCallsShape(apiId, plans);
    assert forall c :: c in Since(t, IssueAll(t, calls).trace) ==> c in calls;
  }

  /**
   * DeleteAPI only appends to the log, and all it issues is the STOP, the
   * listing, closes and deletes of the API's plans and the API delete:
   * never a create, an update or a deploy.
   */
  lemma DeleteAPICalls(t: Trace, apiId: Id)
    ensures Extends(t, DeleteAPIRun(t, apiId).trace)
    ensures forall c :: c in Since(t, DeleteAPIRun(t, apiId).trace) ==> TeardownCall(apiId, c)
  {
    var plans := PublishedPlansOf(t.store.plans, apiId);
    var full := [DoLifecycleAction(apiId, Stop), ListPlans(apiId)] + TeardownCalls(apiId, plans) + [DeleteApi(apiId)];
    var since := Since(t, DeleteAPIRun(t, apiId).trace);
    DeleteAPIWithin(t, apiId);
    PrefixMembers(since, full);
    TeardownFull(apiId, plans);
    forall c | c in since
      ensures TeardownCall(apiId, c)
    {
      assert c in full;
    }
  }

  /** Every call of a whole DeleteAPI pass is a teardown call of the API. */
  lemma TeardownFull(apiId: Id, plans: seq<PlanEntity>)
    ensures forall c :: c in [DoLifecycleAction(apiId, Stop), ListPlans(apiId)] + TeardownCalls(apiId, plans) + [DeleteApi(apiId)]
                        ==> TeardownCall(apiId, c)
  {
    TeardownCallsShape(apiId, plans);
  }

  /** What DeleteAPI issues begins the STOP, the listing, the close and delete of each listed plan, and the API delete. */
  lemma DeleteAPIWithin(t: Trace, apiId: Id)
    ensures var calls := TeardownCalls(apiId, PublishedPlansOf(t.store.plans, apiId));
      var r := DeleteAPIRun(t, apiId);
      Extends(t, r.trace) && Since(t, r.trace) <= [DoLifecycleAction(apiId, Stop), ListPlans(apiId)] + calls + [DeleteApi(apiId)]
  {
    var t1 := Issue(t, DoLifecycleAction(apiId, Stop));
    var t2 := Issue(t1, ListPlans(apiId));
    var calls := TeardownCalls(apiId, PublishedPlansOf(t.store.plans, apiId));
    var head := [DoLifecycleAction(apiId, Stop), ListPlans(apiId)];
    DeleteAPIPrelude(t, apiId);
    if Accepted(t1, ListPlans(apiId)) {
      var p := IssueAll(t2, calls);
      TeardownIssuedSince(t, t2, calls, apiId, PublishedPlansOf(t.store.plans, apiId));
      if p.ok {
        IssueExtends(p.trace, DeleteApi(apiId));
        SinceSplit(t, p.trace, Issue(p.trace, DeleteApi(apiId)));
        ExtendsTrans(t, p.trace, Issue(p.trace, DeleteApi(apiId)));
      } else {
        PrefixPad(head, Since(t2, p.trace), calls, [DeleteApi(apiId)]);
      }
    } else {
      PrefixPad(head, [], calls, [DeleteApi(apiId)]);
    }
  }

  /** One more listed plan adds its close and delete to the calls. */
  lemma TeardownCallsNext(apiId: Id, plans: seq<PlanEntity>, k: nat)
    requires k < |plans|
    ensures TeardownCalls(apiId, plans[..k + 1])
            == TeardownCalls(apiId, plans[..k]) + [ClosePlan(apiId, plans[k].id)] + [DeletePlan(apiId, plans[k].id)]
  {
    assert plans[..k + 1][..k] == plans[..k];
  }

  /** The plan loop of DeleteAPI. */
  method IssueTeardown(b: Backend, apiId: Id, plans: seq<PlanEntity>) returns (ok: bool)
    modifies b
    ensures IssueAll(old(b.Snapshot()), TeardownCalls(apiId, plans)) == Progress(b.Snapshot(), ok)
  {
    ghost var t0 := b.Snapshot();
    var k := 0;
    while k < |plans|
      invariant 0 <= k <= |plans|
      invariant IssueAll(t0, TeardownCalls(apiId, plans[..k])) == Progress(b.Snapshot(), true)
    {
      ghost var sent := TeardownCalls(apiId, plans[..k]);
      var close, delete := ClosePlan(apiId, plans[k].id), DeletePlan(apiId, plans[k].id);
      TeardownCallsNext(apiId, plans, k);
      TeardownCallsPrefix(apiId, plans, k + 1);
      ok := IssueNext(b, t0, sent, close);
      if !ok {
        IssueAllHalted(t0, sent + [close], TeardownCalls(apiId, plans));
        return;
      }
      ok := IssueNext(b, t0, sent + [close], delete);
      if !ok {
        IssueAllHalted(t0, sent + [close] + [delete], TeardownCalls(apiId, plans));
        return;
      }
      k := k + 1;
    }
    assert plans[..k] == plans;
    ok := true;
  }

  method DeleteAPI(b: Backend, apiId: Id) returns (out: Outcome)
    modifies b
    ensures Run(b.Snapshot(), out) == DeleteAPIRun(old(b.Snapshot()), apiId)
  {
    var ok, reply := b.Invoke(DoLifecycleAction(apiId, Stop));
    var at := |b.log|;
    ok, reply := b.Invoke(ListPlans(apiId));
    if !ok {
      return Fail(CallFailed(at));
    }
    ok := IssueTeardown(b, apiId, reply.plans);
    if !ok {
      return Panic;
    }
    at := |b.log|;
    ok, reply := b.Invoke(DeleteApi(apiId));
    out := if ok then Ok else Fail(CallFailed(at));
  }

  // DeleteApplication

  /** One close per listed subscription, in listing order. */
  function CloseAllCalls(appId: Id, subs: seq<SubscriptionEntity>): seq<Call>
    decreases |subs|
  {
    if subs == [] then []
    else CloseAllCalls(appId, subs[..|subs| - 1]) + [CloseSubscription(appId, subs[|subs| - 1].id)]
  }

  /**
   * One run of DeleteApplication. A refused listing aborts the pass (it is
   * raised as a panic); a refused close or delete is returned as an error.
   */
  function DeleteApplicationRun(t: Trace, appId: Id): Run {
    var list := ListSubscriptions(appId);
    if !Accepted(t, list) then Run(Issue(t, list), Panic)
    else
      var p := IssueAll(Issue(t, list), CloseAllCalls(appId, ActiveSubscriptionsOf(t.store.subscriptions, appId)));
      if !p.ok then Run(p.trace, Fail(LastCallFailed(p.trace)))
      else
        var del := Call.DeleteApplication(appId);
        Run(Issue(p.trace, del), if Accepted(p.trace, del) then Ok else Fail(CallFailed(|p.trace.log|)))
  }

  /**
   * DeleteApplication only appends to the log, and all it issues is the
   * listing, closes of the application's subscriptions and the application
   * delete.
   */
  lemma DeleteApplicationCalls(t: Trace, appId: Id)
    ensures Extends(t, DeleteApplicationRun(t, appId).trace)
    ensures forall c :: c in Since(t, DeleteApplicationRun(t, appId).trace) ==>
      c == ListSubscriptions(appId) || c == Call.DeleteApplication(appId) || (c.CloseSubscription? && c.app == appId)
  {
    var subs := ActiveSubscriptionsOf(t.store.subscriptions, appId);
    var full := [ListSubscriptions(appId)] + CloseAllCalls(appId, subs) + [Call.DeleteApplication(appId)];
    var since := Since(t, DeleteApplicationRun(t, appId).trace);
    DeleteApplicationWithin(t, appId);
    PrefixMembers(since, full);
    CloseAllCallsMembers(appId, subs);
    forall c | c in since
      ensures c == ListSubscriptions(appId) || c == Call.DeleteApplication(appId) || (c.CloseSubscription? && c.app == appId)
    {
      assert c in full;
    }
  }

  /** What DeleteApplication issues begins the listing, the closes of the listed subscriptions and the delete. */
  lemma DeleteApplicationWithin(t: Trace, appId: Id)
    ensures var calls := CloseAllCalls(appId, ActiveSubscriptionsOf(t.store.subscriptions, appId));
      var r := DeleteApplicationRun(t, appId);
      Extends(t, r.trace) && Since(t, r.trace) <= [ListSubscriptions(appId)] + calls + [Call.DeleteApplication(appId)]
  {
    var list, del := ListSubscriptions(appId), Call.DeleteApplication(appId);
    var calls := CloseAllCalls(appId, ActiveSubscriptionsOf(t.store.subscriptions, appId));
    var t1 := Issue(t, list);
    IssueExtends(t, list);
    if Accepted(t, list) {
      var p := IssueAll(t1, calls);
      IssueAllExtends(t1, calls);
      SinceSplit(t, t1, p.trace);
      ExtendsTrans(t, t1, p.trace);
      if p.ok {
        IssueExtends(p.trace, del);
        SinceSplit(t, p.trace, Issue(p.trace, del));
        ExtendsTrans(t, p.trace, Issue(p.trace, del));
      } else {
        PrefixPad([list], Since(t1, p.trace), calls, [del]);
      }
    }
  }

  lemma {:induction false} CloseAllCallsMembers(appId: Id, subs: seq<SubscriptionEntity>)
    ensures forall c :: c in CloseAllCalls(appId, subs) <==> exists x :: x in subs && c == CloseSubscription(appId, x.id)
    decreases |subs|
  {
    if subs != [] {
      CloseAllCallsMembers(appId, subs[..|subs| - 1]);
      assert subs == subs[..|subs| - 1] + [subs[|subs| - 1]];
    }
  }

  lemma {:induction false} CloseAllCallsPrefix(appId: Id, subs: seq<SubscriptionEntity>, k: nat)
    requires k <= |subs|
    ensures CloseAllCalls(appId, subs[..k]) <= CloseAllCalls(appId, subs)
    decreases |subs|
  {
    if k < |subs| {
      CloseAllCallsPrefix(appId, subs[..|subs| - 1], k);
      assert subs[..|subs| - 1][..k] == subs[..k];
    } else {
      assert subs[..k] == subs;
    }
  }

  /**
   * The application is deleted only after the listing and the close of
   * every listed subscription: a successful run logs exactly these, all
   * accepted.
   */
  lemma DeleteApplicationOrder(t: Trace, appId: Id)
    ensures var calls := CloseAllCalls(appId, ActiveSubscriptionsOf(t.store.subscriptions, appId));
      DeleteApplicationRun(t, appId).out.Ok? ==>
        DeleteApplicationRun(t, appId).trace.log
          == t.log + [Event(ListSubscriptions(appId), true)] + AcceptedEvents(calls)
             + [Event(Call.DeleteApplication(appId), true)]
  {
    if DeleteApplicationRun(t, appId).out.Ok? {
      var t1 := Issue(t, ListSubscriptions(appId));
      IssueAllOkLog(t1, CloseAllCalls(appId, ActiveSubscriptionsOf(t.store.subscriptions, appId)));
    }
  }

  /** After a successful DeleteApplication the gateway has no application with the ID. */
  lemma DeleteApplicationGone(t: Trace, appId: Id)
    ensures var r := DeleteApplicationRun(t, appId);
      r.out.Ok? ==> FindApplication(r.trace.store.applications, appId).None?
  {
    var r := DeleteApplicationRun(t, appId);
    if r.out.Ok? {
      var t1 := Issue(t, ListSubscriptions(appId));
      var p := IssueAll(t1, CloseAllCalls(appId, ActiveSubscriptionsOf(t.store.subscriptions, appId)));
      var del := Call.DeleteApplication(appId);
      assert r.trace == Issue(p.trace, del) && Accepted(p.trace, del);
      assert Effect(p.trace.store, del).applications == RemoveApplication(p.trace.store.applications, appId);
      FindApplicationRemove(p.trace.store.applications, appId);
    }
  }

  /**
   * A returned error names the refused call, logged last; when it is a
   * close, the application delete was never issued.
   */
  lemma DeleteApplicationFailure(t: Trace, appId: Id)
    ensures var r := DeleteApplicationRun(t, appId);
      r.out.Fail? ==>
        && r.out.error.CallFailed? && r.out.error.at == |r.trace.log| - 1 && |t.log| < r.out.error.at
        && !r.trace.log[r.out.error.at].ok
        && (r.trace.log[r.out.error.at].call.CloseSubscription? ==>
              forall i :: |t.log| <= i < |r.trace.log| ==> !r.trace.log[i].call.DeleteApplication?)
  {
    var r := DeleteApplicationRun(t, appId);
    var list := ListSubscriptions(appId);
    if r.out.Fail? && Accepted(t, list) {
      var t1 := Issue(t, list);
      var calls := CloseAllCalls(appId, ActiveSubscriptionsOf(t.store.subscriptions, appId));
      var p := IssueAll(t1, calls);
      IssueAllLog(t1, calls);
      CloseAllCallsMembers(appId, ActiveSubscriptionsOf(t.store.subscriptions, appId));
      if !p.ok {
        IssueAllFailLog(t1, calls);
        forall i | |t.log| <= i < |r.trace.log|
          ensures !r.trace.log[i].call.DeleteApplication?
        {
          if i > |t.log| {
            assert r.trace.log[i].call == calls[i - |t1.log|];
            assert calls[i - |t1.log|] in calls;
          }
        }
      }
    }
  }

  /** The subscription loop of DeleteApplication. */
  method IssueCloseAll(b: Backend, appId: Id, subs: seq<SubscriptionEntity>) returns (ok: bool)
    modifies b
    ensures IssueAll(old(b.Snapshot()), CloseAllCalls(appId, subs)) == Progress(b.Snapshot(), ok)
  {
    ghost var t0 := b.Snapshot();
    var k := 0;
    while k < |subs|
      invariant 0 <= k <= |subs|
      invariant IssueAll(t0, CloseAllCalls(appId, subs[..k])) == Progress(b.Snapshot(), true)
    {
      assert subs[..k + 1][..k] == subs[..k];
      ok := IssueNext(b, t0, CloseAllCalls(appId, subs[..k]), CloseSubscription(appId, subs[k].id));
      if !ok {
        CloseAllCallsPrefix(appId, subs, k + 1);
        IssueAllHalted(t0, CloseAllCalls(appId, subs[..k + 1]), CloseAllCalls(appId, subs));
        return;
      }
      k := k + 1;
    }
    assert subs[..k] == subs;
    ok := true;
  }

  method DeleteApplication(b: Backend, appId: Id) returns (out: Outcome)
    modifies b
    ensures Run(b.Snapshot(), out) == DeleteApplicationRun(old(b.Snapshot()), appId)
  {
    var ok, reply := b.Invoke(ListSubscriptions(appId));
    if !ok {
      return Panic;
    }
    ok := IssueCloseAll(b, appId, reply.subscriptions);
    if !ok {
      return Fail(LastCallFailed(b.Snapshot()));
    }
    var at := |b.log|;
    ok, reply := b.Invoke(Call.DeleteApplication(appId));
    out := if ok then Ok else Fail(CallFailed(at));
  }
}
