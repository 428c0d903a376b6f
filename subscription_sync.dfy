/**
 * UpdateAPISubscriptions: bring an application's subscriptions in line with
 * the desired list of (API context path, plan name) pairs.
 *
 * A pass lists the application's subscriptions, reads the API and the plan
 * of each to index them by "<context path>-<plan name>", creates a
 * subscription for every desired pair whose key is not indexed, then closes
 * the subscription behind every indexed key that no desired pair names.
 * The close loop walks a Go map, whose order is unspecified: the model
 * makes the order a ghost result that enumerates the indexed keys.
 */
module SubscriptionSync {
  import opened Types
  import opened Gateway
  import opened StubHelpers
  import opened ApiStubs

  // Index of the existing subscriptions

  /** The reads of the index loop: the API, then the plan, of each listed subscription. */
  function IndexCalls(subs: seq<SubscriptionEntity>): (r: seq<Call>)
    ensures |r| == 2 * |subs|
    ensures forall c :: c in r ==> ReadOnly(c)
  {
    if subs == [] then []
    else
      var x := subs[|subs| - 1];
      IndexCalls(subs[..|subs| - 1]) + [GetApi(x.api), GetPlan(x.api, x.plan)]
  }

  lemma {:induction false} IndexCallsPrefix(subs: seq<SubscriptionEntity>, n: nat)
    requires n <= |subs|
    ensures IndexCalls(subs[..n]) <= IndexCalls(subs)
    decreases |subs| - n
  {
    if n < |subs| {
      assert subs[..n + 1][..n] == subs[..n];
      IndexCallsPrefix(subs, n + 1);
    } else {
      assert subs[..n] == subs;
    }
  }

  /** Whether both the API and the plan of a listed subscription can be read. */
  predicate Readable(s: Store, x: SubscriptionEntity) {
    FindApi(s.apis, x.api).Some? && FindPlan(s.plans, x.api, x.plan).Some?
  }

  /** The key under which a readable subscription is indexed. */
  function KeyOf(s: Store, x: SubscriptionEntity): string
    requires Readable(s, x)
  {
    SubscriptionKey(FindApi(s.apis, x.api).value.contextPath, FindPlan(s.plans, x.api, x.plan).value.name)
  }

  /** The plan a readable subscription is on. */
  function PlanOf(s: Store, x: SubscriptionEntity): PlanEntity
    requires Readable(s, x)
  {
    FindPlan(s.plans, x.api, x.plan).value
  }

  /**
   * The index: key to plan, a later subscription overwriting an earlier one
   * with the same key. A subscription that cannot be read aborts the pass
   * before the index is used (IndexReadsAll), so skipping it here never
   * matters.
   */
  function ExtIndex(s: Store, subs: seq<SubscriptionEntity>): map<string, PlanEntity> {
    if subs == [] then map[]
    else
      var x := subs[|subs| - 1];
      var ext := ExtIndex(s, subs[..|subs| - 1]);
      if Readable(s, x) then ext[KeyOf(s, x) := PlanOf(s, x)] else ext
  }

  /** Whether the i-th subscription is the last readable one with the key. */
  predicate LastWithKey(s: Store, subs: seq<SubscriptionEntity>, i: int, key: string) {
    && 0 <= i < |subs| && Readable(s, subs[i]) && KeyOf(s, subs[i]) == key
    && forall j :: i < j < |subs| && Readable(s, subs[j]) ==> KeyOf(s, subs[j]) != key
  }

  /** Every readable subscription's key is in the index. */
  lemma {:induction false} ExtIndexCovers(s: Store, subs: seq<SubscriptionEntity>)
    ensures forall i :: 0 <= i < |subs| && Readable(s, subs[i]) ==> KeyOf(s, subs[i]) in ExtIndex(s, subs)
    decreases |subs|
  {
    if subs != [] {
      var n := |subs| - 1;
      var front := subs[..n];
      ExtIndexCovers(s, front);
      forall i | 0 <= i < n && Readable(s, subs[i])
        ensures KeyOf(s, subs[i]) in ExtIndex(s, subs)
      {
        assert subs[i] == front[i];
      }
    }
  }

  /** Every key in the index is that of a readable subscription, and holds the plan of the last one with the key. */
  lemma {:induction false} ExtIndexKeys(s: Store, subs: seq<SubscriptionEntity>)
    ensures forall key :: key in ExtIndex(s, subs) ==>
      exists i :: LastWithKey(s, subs, i, key) && ExtIndex(s, subs)[key] == PlanOf(s, subs[i])
    decreases |subs|
  {
    if subs != [] {
      var n := |subs| - 1;
      var front, x := subs[..n], subs[n];
      ExtIndexKeys(s, front);
      var ext0 := ExtIndex(s, front);
      var ext := ExtIndex(s, subs);
      assert ext == if Readable(s, x) then ext0[KeyOf(s, x) := PlanOf(s, x)] else ext0;
      forall key | key in ext
        ensures exists i :: LastWithKey(s, subs, i, key) && ext[key] == PlanOf(s, subs[i])
      {
        if Readable(s, x) && KeyOf(s, x) == key {
          assert LastWithKey(s, subs, n, key);
        } else {
          var i :| LastWithKey(s, front, i, key) && ext0[key] == PlanOf(s, front[i]);
          LastWithKeyExtends(s, subs, i, key);
        }
      }
    }
  }

  /** The last readable subscription with a key in a prefix stays last when the next one has another key or is unreadable. */
  lemma LastWithKeyExtends(s: Store, subs: seq<SubscriptionEntity>, i: int, key: string)
    requires subs != [] && LastWithKey(s, subs[..|subs| - 1], i, key)
    requires !(Readable(s, subs[|subs| - 1]) && KeyOf(s, subs[|subs| - 1]) == key)
    ensures LastWithKey(s, subs, i, key)
  {
    var n := |subs| - 1;
    var front := subs[..n];
    assert subs[i] == front[i];
    forall j | i < j < |subs| && Readable(s, subs[j])
      ensures KeyOf(s, subs[j]) != key
    {
      if j < n {
        assert subs[j] == front[j];
      }
    }
  }

  /** An index loop without refusal has read every listed subscription. */
  lemma IndexReadsAll(t: Trace, subs: seq<SubscriptionEntity>)
    requires IssueAll(t, IndexCalls(subs)).ok
    ensures forall x :: x in subs ==> Readable(t.store, x)
    ensures IssueAll(t, IndexCalls(subs)).trace.store == t.store
  {
    IssueAllReads(t, IndexCalls(subs));
    forall x | x in subs
      ensures Readable(t.store, x)
    {
      IndexCallsMention(subs, x);
    }
  }

  lemma {:induction false} IndexCallsMention(subs: seq<SubscriptionEntity>, x: SubscriptionEntity)
    requires x in subs
    ensures GetApi(x.api) in IndexCalls(subs) && GetPlan(x.api, x.plan) in IndexCalls(subs)
    decreases |subs|
  {
    if subs[|subs| - 1] != x {
      var front := subs[..|subs| - 1];
      assert x in front by {
        assert subs == front + [subs[|subs| - 1]];
      }
      IndexCallsMention(front, x);
    }
  }

  // Creating the missing subscriptions

  /** The API a desired subscription names: the only one at its context path. */
  function CatalogApi(s: Store, sub: APISubscription): Option<ApiEntity> {
    SingleMatch(ApisAtPath(s.apis, sub.apiContextPath))
  }

  /** The plan a desired subscription names: the first published plan of that API with the plan name. */
  function PlanFor(s: Store, sub: APISubscription): Option<PlanEntity> {
    match CatalogApi(s, sub)
    case None => None
    case Some(api) => FirstPlanNamed(PublishedPlansOf(s.plans, api.id), sub.apiPlanName)
  }

  /** One pass of the create loop: nothing when the key is indexed, else search, list plans, subscribe. */
  function CreateOne(t: Trace, appId: Id, sub: APISubscription, ext: map<string, PlanEntity>): Run {
    if DesiredKey(sub) in ext then Run(t, Ok)
    else
      var s := SearchAPIRun(t, sub.apiContextPath);
      if s.out.Panic? || s.value.None? then Run(s.trace, Panic)
      else
        var g := GetPlanByNameRun(s.trace, s.value.value.id, sub.apiPlanName);
        if !g.out.Ok? then Run(g.trace, g.out)
        else Run(Issue(g.trace, CreateSubscription(appId, g.value.value.id)), Ok)
  }

  /** The create loop over the desired subscriptions, stopping at the first pass that does not end Ok. */
  function CreatePhase(t: Trace, appId: Id, desired: seq<APISubscription>, ext: map<string, PlanEntity>): Run
    decreases |desired|
  {
    if desired == [] then Run(t, Ok)
    else
      var r := CreatePhase(t, appId, desired[..|desired| - 1], ext);
      if r.out.Ok? then CreateOne(r.trace, appId, desired[|desired| - 1], ext) else r
  }

  /** The calls one successful create pass issues. */
  function OneCalls(s: Store, appId: Id, sub: APISubscription, ext: map<string, PlanEntity>): seq<Call> {
    if DesiredKey(sub) in ext || PlanFor(s, sub).None? then []
    else [SearchApis(sub.apiContextPath), ListPlans(CatalogApi(s, sub).value.id), CreateSubscription(appId, PlanFor(s, sub).value.id)]
  }

  /** The calls a successful create loop issues. */
  function CreateCalls(s: Store, appId: Id, desired: seq<APISubscription>, ext: map<string, PlanEntity>): seq<Call>
    decreases |desired|
  {
    if desired == [] then []
    else CreateCalls(s, appId, desired[..|desired| - 1], ext) + OneCalls(s, appId, desired[|desired| - 1], ext)
  }

  /** Whether the store still holds the same APIs and plans. */
  predicate SameCatalog(s: Store, s': Store) {
    s'.apis == s.apis && s'.plans == s.plans
  }

  /** A create pass leaves APIs and plans alone. */
  lemma CreateOneCatalog(t: Trace, appId: Id, sub: APISubscription, ext: map<string, PlanEntity>)
    ensures SameCatalog(t.store, CreateOne(t, appId, sub, ext).trace.store)
  {
    if DesiredKey(sub) !in ext {
      var r := CreateOne(t, appId, sub, ext);
      var s := SearchAPIRun(t, sub.apiContextPath);
      ReadOnlyEffect(t.store, SearchApis(sub.apiContextPath));
      assert s.trace.store == t.store;
      if !(s.out.Panic? || s.value.None?) {
        var api := s.value.value;
        ReadOnlyEffect(t.store, ListPlans(api.id));
        var g := GetPlanByNameRun(s.trace, api.id, sub.apiPlanName);
        assert g.trace.store == t.store;
        if g.out.Ok? {
          var c := CreateSubscription(appId, g.value.value.id);
          SubscriptionEffect(t.store, c);
          assert r.trace == Issue(g.trace, c);
        }
      }
    }
  }

  /** A create pass for a missing key that ends Ok logged a search, a plan listing and a create, in that order. */
  lemma CreateOneLog(t: Trace, appId: Id, sub: APISubscription, ext: map<string, PlanEntity>)
    requires CreateOne(t, appId, sub, ext).out.Ok? && DesiredKey(sub) !in ext
    ensures CatalogApi(t.store, sub).Some? && PlanFor(t.store, sub).Some?
    ensures var log, n := CreateOne(t, appId, sub, ext).trace.log, |t.log|;
      && |log| == n + 3 && log[..n] == t.log
      && log[n].call == SearchApis(sub.apiContextPath)
      && log[n + 1].call == ListPlans(CatalogApi(t.store, sub).value.id)
      && log[n + 2].call == CreateSubscription(appId, PlanFor(t.store, sub).value.id)
  {
    var s := SearchAPIRun(t, sub.apiContextPath);
    ReadOnlyEffect(t.store, SearchApis(sub.apiContextPath));
    var api := s.value.value;
    ReadOnlyEffect(t.store, ListPlans(api.id));
    var g := GetPlanByNameRun(s.trace, api.id, sub.apiPlanName);
    assert CatalogApi(t.store, sub) == Some(api);
    assert PlanFor(t.store, sub) == g.value;
  }

  /** A create pass that ends Ok resolved the plan of a missing key and issued OneCalls. */
  lemma CreateOneOk(t: Trace, appId: Id, sub: APISubscription, ext: map<string, PlanEntity>)
    requires CreateOne(t, appId, sub, ext).out.Ok?
    ensures DesiredKey(sub) !in ext ==> PlanFor(t.store, sub).Some?
    ensures Calls(CreateOne(t, appId, sub, ext).trace.log) == Calls(t.log) + OneCalls(t.store, appId, sub, ext)
  {
    if DesiredKey(sub) !in ext {
      CreateOneLog(t, appId, sub, ext);
      OneCallsLogged(t, appId, sub, ext, CreateOne(t, appId, sub, ext).trace.log);
    }
  }

  lemma OneCallsLogged(t: Trace, appId: Id, sub: APISubscription, ext: map<string, PlanEntity>, log: seq<Event>)
    requires DesiredKey(sub) !in ext && CatalogApi(t.store, sub).Some? && PlanFor(t.store, sub).Some?
    requires var n := |t.log|;
      && |log| == n + 3 && log[..n] == t.log
      && log[n].call == SearchApis(sub.apiContextPath)
      && log[n + 1].call == ListPlans(CatalogApi(t.store, sub).value.id)
      && log[n + 2].call == CreateSubscription(appId, PlanFor(t.store, sub).value.id)
    ensures Calls(log) == Calls(t.log) + OneCalls(t.store, appId, sub, ext)
  {
    var n := |t.log|;
    var one := OneCalls(t.store, appId, sub, ext);
    assert one == [log[n].call, log[n + 1].call, log[n + 2].call];
    CallsExtended(t.log, log, one);
  }

  /** Stores with the same APIs and plans resolve desired subscriptions alike. */
  lemma SameCatalogResolves(s: Store, s': Store, appId: Id, sub: APISubscription, ext: map<string, PlanEntity>)
    requires SameCatalog(s, s')
    ensures PlanFor(s', sub) == PlanFor(s, sub)
    ensures OneCalls(s', appId, sub, ext) == OneCalls(s, appId, sub, ext)
  {
  }

  /** A create loop leaves APIs and plans alone. */
  lemma {:induction false} CreatePhaseCatalog(t: Trace, appId: Id, desired: seq<APISubscription>, ext: map<string, PlanEntity>)
    ensures SameCatalog(t.store, CreatePhase(t, appId, desired, ext).trace.store)
    decreases |desired|
  {
    if desired != [] {
      var front, last := desired[..|desired| - 1], desired[|desired| - 1];
      CreatePhaseCatalog(t, appId, front, ext);
      var r' := CreatePhase(t, appId, front, ext);
      if r'.out.Ok? {
        CreateOneCatalog(r'.trace, appId, last, ext);
      }
    }
  }

  /** A create loop that ends Ok resolved the plan of every missing key. */
  lemma {:induction false} CreatePhaseResolves(t: Trace, appId: Id, desired: seq<APISubscription>, ext: map<string, PlanEntity>)
    requires CreatePhase(t, appId, desired, ext).out.Ok?
    ensures forall sub :: sub in desired && DesiredKey(sub) !in ext ==> PlanFor(t.store, sub).Some?
    decreases |desired|
  {
    if desired != [] {
      var front, last := desired[..|desired| - 1], desired[|desired| - 1];
      var r' := CreatePhase(t, appId, front, ext);
      assert r'.out.Ok?;
      CreatePhaseResolves(t, appId, front, ext);
      CreatePhaseCatalog(t, appId, front, ext);
      CreateOneOk(r'.trace, appId, last, ext);
      SameCatalogResolves(t.store, r'.trace.store, appId, last, ext);
      forall sub | sub in desired && DesiredKey(sub) !in ext
        ensures PlanFor(t.store, sub).Some?
      {
        var i :| 0 <= i < |desired| && desired[i] == sub;
        if i < |front| {
          assert front[i] == sub;
        }
      }
    }
  }

  /** A create loop that ends Ok issued CreateCalls. */
  lemma {:induction false} CreatePhaseOk(t: Trace, appId: Id, desired: seq<APISubscription>, ext: map<string, PlanEntity>)
    requires CreatePhase(t, appId, desired, ext).out.Ok?
    ensures Calls(CreatePhase(t, appId, desired, ext).trace.log) == Calls(t.log) + CreateCalls(t.store, appId, desired, ext)
    decreases |desired|
  {
    if desired != [] {
      var front, last := desired[..|desired| - 1], desired[|desired| - 1];
      var r' := CreatePhase(t, appId, front, ext);
      assert r'.out.Ok?;
      CreatePhaseOk(t, appId, front, ext);
      CreatePhaseCatalog(t, appId, front, ext);
      var r := CreatePhase(t, appId, desired, ext);
      assert r == CreateOne(r'.trace, appId, last, ext);
      CreateOneOk(r'.trace, appId, last, ext);
      SameCatalogResolves(t.store, r'.trace.store, appId, last, ext);
      var before, one := CreateCalls(t.store, appId, front, ext), OneCalls(t.store, appId, last, ext);
      assert Calls(r.trace.log) == Calls(t.log) + before + one;
      assert CreateCalls(t.store, appId, desired, ext) == before + one;
    }
  }

  /** A create loop that stopped early stays stopped. */
  lemma {:induction false} CreatePhaseHalted(t: Trace, appId: Id, desired: seq<APISubscription>, ext: map<string, PlanEntity>, n: nat)
    requires n <= |desired|
    requires !CreatePhase(t, appId, desired[..n], ext).out.Ok?
    ensures CreatePhase(t, appId, desired, ext) == CreatePhase(t, appId, desired[..n], ext)
    decreases |desired| - n
  {
    if n < |desired| {
      assert desired[..n + 1][..n] == desired[..n];
      CreatePhaseHalted(t, appId, desired, ext, n + 1);
    } else {
      assert desired[..n] == desired;
    }
  }

  /** A create loop subscribes each desired pair whose key is not indexed to its plan. */
  lemma {:induction false} CreateCallsSubscribes(s: Store, appId: Id, desired: seq<APISubscription>, ext: map<string, PlanEntity>)
    requires forall sub :: sub in desired && DesiredKey(sub) !in ext ==> PlanFor(s, sub).Some?
    ensures forall sub :: sub in desired && DesiredKey(sub) !in ext ==>
      CreateSubscription(appId, PlanFor(s, sub).value.id) in CreateCalls(s, appId, desired, ext)
    decreases |desired|
  {
    if desired != [] {
      var front, last := desired[..|desired| - 1], desired[|desired| - 1];
      var calls := CreateCalls(s, appId, desired, ext);
      assert forall sub :: sub in front ==> sub in desired;
      CreateCallsSubscribes(s, appId, front, ext);
      var one := OneCalls(s, appId, last, ext);
      assert calls == CreateCalls(s, appId, front, ext) + one;
      if DesiredKey(last) !in ext {
        assert CreateSubscription(appId, PlanFor(s, last).value.id) in one;
      }
      forall sub | sub in desired && DesiredKey(sub) !in ext && sub != last
        ensures sub in front
      {
        InFront(desired, sub);
      }
    }
  }

  /** An element of a non-empty sequence other than its last is in the sequence without its last. */
  lemma InFront<T>(xs: seq<T>, x: T)
    requires x in xs && xs != [] && x != xs[|xs| - 1]
    ensures x in xs[..|xs| - 1]
  {
    var i :| 0 <= i < |xs| && xs[i] == x;
    assert xs[..|xs| - 1][i] == x;
  }

  /** A create loop creates no subscription but those, all for the application. */
  lemma {:induction false} CreateCallsOnly(s: Store, appId: Id, desired: seq<APISubscription>, ext: map<string, PlanEntity>)
    ensures forall app, plan :: CreateSubscription(app, plan) in CreateCalls(s, appId, desired, ext) ==>
      app == appId && exists sub :: sub in desired && DesiredKey(sub) !in ext
                                    && PlanFor(s, sub).Some? && PlanFor(s, sub).value.id == plan
    decreases |desired|
  {
    if desired != [] {
      var front, last := desired[..|desired| - 1], desired[|desired| - 1];
      CreateCallsOnly(s, appId, front, ext);
      forall app, plan | CreateSubscription(app, plan) in CreateCalls(s, appId, desired, ext)
        ensures app == appId && exists sub :: sub in desired && DesiredKey(sub) !in ext
                                              && PlanFor(s, sub).Some? && PlanFor(s, sub).value.id == plan
      {
        if CreateSubscription(app, plan) in CreateCalls(s, appId, front, ext) {
          var sub :| sub in front && DesiredKey(sub) !in ext && PlanFor(s, sub).Some? && PlanFor(s, sub).value.id == plan;
          assert sub in desired;
        } else {
          assert CreateSubscription(app, plan) in OneCalls(s, appId, last, ext);
          assert last in desired;
        }
      }
    }
  }

  /** A create loop issues searches, plan listings and creates, nothing else. */
  lemma {:induction false} CreateCallsKinds(s: Store, appId: Id, desired: seq<APISubscription>, ext: map<string, PlanEntity>)
    ensures forall c :: c in CreateCalls(s, appId, desired, ext) ==> c.SearchApis? || c.ListPlans? || c.CreateSubscription?
    decreases |desired|
  {
    if desired != [] {
      CreateCallsKinds(s, appId, desired[..|desired| - 1], ext);
    }
  }

  // Closing the subscriptions no longer desired

  /** The close calls, walking the index keys in the given order. */
  function CloseCalls(appId: Id, subs: seq<SubscriptionEntity>, ext: map<string, PlanEntity>,
                      desired: seq<APISubscription>, order: seq<string>): seq<Call>
    decreases |order|
  {
    if order == [] then []
    else
      var key := order[|order| - 1];
      CloseCalls(appId, subs, ext, desired, order[..|order| - 1])
        + (if key in ext && !IsDesiredKey(desired, key)
           then [CloseSubscription(appId, LastSubscriptionOnPlan(subs, ext[key].id))] else [])
  }

  /** Whether order lists each key of the set exactly once. */
  ghost predicate Enumerates(order: seq<string>, keys: set<string>) {
    && (forall k :: k in order <==> k in keys)
    && forall i, j :: 0 <= i < j < |order| ==> order[i] != order[j]
  }

  /** Enumerations of disjoint sets concatenate to one of their union. */
  lemma EnumeratesAppend(a: seq<string>, keysA: set<string>, b: seq<string>, keysB: set<string>)
    requires Enumerates(a, keysA) && Enumerates(b, keysB) && keysA !! keysB
    ensures Enumerates(a + b, keysA + keysB)
  {
    var ab := a + b;
    forall i, j | 0 <= i < j < |ab|
      ensures ab[i] != ab[j]
    {
      if j < |a| {
        assert ab[i] == a[i] && ab[j] == a[j];
      } else if i >= |a| {
        assert ab[i] == b[i - |a|] && ab[j] == b[j - |a|];
      } else {
        assert ab[i] == a[i] && ab[j] == b[j - |a|];
        assert a[i] in keysA && b[j - |a|] in keysB;
      }
    }
  }

  /** Some order of a set of keys. */
  ghost function Enumerate(keys: set<string>): (r: seq<string>)
    ensures Enumerates(r, keys)
    decreases keys
  {
    if keys == {} then []
    else
      var k :| k in keys;
      [k] + Enumerate(keys - {k})
  }

  /** The calls closing the subscriptions of the keys no desired pair names, one per key. */
  lemma {:induction false} CloseCallsMembers(appId: Id, subs: seq<SubscriptionEntity>, ext: map<string, PlanEntity>,
                                             desired: seq<APISubscription>, order: seq<string>)
    ensures forall c :: c in CloseCalls(appId, subs, ext, desired, order) <==>
      exists key :: key in order && key in ext && !IsDesiredKey(desired, key)
        && c == CloseSubscription(appId, LastSubscriptionOnPlan(subs, ext[key].id))
    ensures |CloseCalls(appId, subs, ext, desired, order)| <= |order|
    decreases |order|
  {
    if order != [] {
      var front := order[..|order| - 1];
      assert order == front + [order[|order| - 1]];
      CloseCallsMembers(appId, subs, ext, desired, front);
    }
  }

  lemma {:induction false} CloseCallsPrefix(appId: Id, subs: seq<SubscriptionEntity>, ext: map<string, PlanEntity>,
                                            desired: seq<APISubscription>, order: seq<string>, n: nat)
    requires n <= |order|
    ensures CloseCalls(appId, subs, ext, desired, order[..n]) <= CloseCalls(appId, subs, ext, desired, order)
    decreases |order| - n
  {
    if n < |order| {
      assert order[..n + 1][..n] == order[..n];
      CloseCallsPrefix(appId, subs, ext, desired, order, n + 1);
    } else {
      assert order[..n] == order;
    }
  }

  // The whole pass

  /** The subscriptions a pass lists for the application. */
  function ListedOf(t: Trace, appId: Id): seq<SubscriptionEntity> {
    ActiveSubscriptionsOf(t.store.subscriptions, appId)
  }

  /** The index a pass builds. */
  function ExtOf(t: Trace, appId: Id): map<string, PlanEntity> {
    ExtIndex(t.store, ListedOf(t, appId))
  }

  /** The reads of a pass: the listing, then the index loop. A refusal of any of them panics. */
  function ReadCalls(t: Trace, appId: Id): seq<Call> {
    [ListSubscriptions(appId)] + IndexCalls(ListedOf(t, appId))
  }

  /**
   * A pass, the close loop walking the index in the given order: a refused
   * listing or read panics, so does a create pass whose search is refused or
   * finds no single API; a failed plan lookup or a refused close ends the
   * pass with that error; a refused create is ignored.
   */
  function UpdateAPISubscriptionsRun(t: Trace, appId: Id, desired: seq<APISubscription>, order: seq<string>): Run {
    var rd := IssueAll(t, ReadCalls(t, appId));
    if !rd.ok then Run(rd.trace, Panic)
    else
      var cr := CreatePhase(rd.trace, appId, desired, ExtOf(t, appId));
      if !cr.out.Ok? then cr
      else
        var cl := IssueAll(cr.trace, CloseCalls(appId, ListedOf(t, appId), ExtOf(t, appId), desired, order));
        Run(cl.trace, if cl.ok then Ok else Fail(LastCallFailed(cl.trace)))
  }

  lemma CreateOneExtends(t: Trace, appId: Id, sub: APISubscription, ext: map<string, PlanEntity>)
    ensures Extends(t, CreateOne(t, appId, sub, ext).trace)
  {
    if DesiredKey(sub) !in ext {
      var s := SearchAPIRun(t, sub.apiContextPath);
      SearchAPIExtends(t, sub.apiContextPath);
      if s.out.Ok? && s.value.Some? {
        var g := GetPlanByNameRun(s.trace, s.value.value.id, sub.apiPlanName);
        GetPlanByNameExtends(s.trace, s.value.value.id, sub.apiPlanName);
        ExtendsTrans(t, s.trace, g.trace);
        if g.out.Ok? {
          IssueExtends(g.trace, CreateSubscription(appId, g.value.value.id));
          ExtendsTrans(t, g.trace, Issue(g.trace, CreateSubscription(appId, g.value.value.id)));
        }
      }
    } else {
      assert t.log[..|t.log|] == t.log;
    }
  }

  lemma {:induction false} CreatePhaseExtends(t: Trace, appId: Id, desired: seq<APISubscription>, ext: map<string, PlanEntity>)
    ensures Extends(t, CreatePhase(t, appId, desired, ext).trace)
    decreases |desired|
  {
    if desired == [] {
      assert t.log[..|t.log|] == t.log;
    } else {
      var front := desired[..|desired| - 1];
      var r := CreatePhase(t, appId, front, ext);
      CreatePhaseExtends(t, appId, front, ext);
      if r.out.Ok? {
        CreateOneExtends(r.trace, appId, desired[|desired| - 1], ext);
        ExtendsTrans(t, r.trace, CreateOne(r.trace, appId, desired[|desired| - 1], ext).trace);
      }
    }
  }

  /** A subscription sync only appends to the log. */
  lemma UpdateAPISubscriptionsExtends(t: Trace, appId: Id, desired: seq<APISubscription>, order: seq<string>)
    ensures Extends(t, UpdateAPISubscriptionsRun(t, appId, desired, order).trace)
  {
    var rd := IssueAll(t, ReadCalls(t, appId));
    IssueAllExtends(t, ReadCalls(t, appId));
    if rd.ok {
      var cr := CreatePhase(rd.trace, appId, desired, ExtOf(t, appId));
      CreatePhaseExtends(rd.trace, appId, desired, ExtOf(t, appId));
      ExtendsTrans(t, rd.trace, cr.trace);
      if cr.out.Ok? {
        var closes := CloseCalls(appId, ListedOf(t, appId), ExtOf(t, appId), desired, order);
        IssueAllExtends(cr.trace, closes);
        ExtendsTrans(t, cr.trace, IssueAll(cr.trace, closes).trace);
      }
    }
  }

  /** The reads of a pass that go through leave the store alone and find every listed subscription readable. */
  lemma ReadsOk(t: Trace, appId: Id)
    requires IssueAll(t, ReadCalls(t, appId)).ok
    ensures IssueAll(t, ReadCalls(t, appId)).trace.store == t.store
    ensures IssueAll(t, ReadCalls(t, appId)).trace.log == t.log + AcceptedEvents(ReadCalls(t, appId))
    ensures forall x :: x in ListedOf(t, appId) ==> Readable(t.store, x)
  {
    var subs := ListedOf(t, appId);
    IssueAllReads(t, ReadCalls(t, appId));
    IssueAllOkLog(t, ReadCalls(t, appId));
    forall x | x in subs
      ensures Readable(t.store, x)
    {
      IndexCallsMention(subs, x);
      var calls := ReadCalls(t, appId);
      assert GetApi(x.api) in calls && GetPlan(x.api, x.plan) in calls;
      assert Accepts(t.store, GetApi(x.api)) && Accepts(t.store, GetPlan(x.api, x.plan));
    }
  }

  /**
   * A pass that ends Ok issued, in order: the listing, the index reads, a
   * search, a plan listing and a create for each desired pair missing from
   * the index, and a close for each indexed key no desired pair names.
   */
  lemma UpdateAPISubscriptionsCalls(t: Trace, appId: Id, desired: seq<APISubscription>, order: seq<string>)
    requires UpdateAPISubscriptionsRun(t, appId, desired, order).out.Ok?
    ensures Since(t, UpdateAPISubscriptionsRun(t, appId, desired, order).trace)
         == ReadCalls(t, appId) + CreateCalls(t.store, appId, desired, ExtOf(t, appId))
            + CloseCalls(appId, ListedOf(t, appId), ExtOf(t, appId), desired, order)
  {
    var listed := ReadCalls(t, appId);
    var rd := IssueAll(t, listed);
    assert rd.ok;
    ReadsOk(t, appId);
    IssueAllOkCalls(t, listed);
    var ext := ExtOf(t, appId);
    var creates := CreateCalls(t.store, appId, desired, ext);
    var closes := CloseCalls(appId, ListedOf(t, appId), ext, desired, order);
    var r := UpdateAPISubscriptionsRun(t, appId, desired, order);
    AfterReadsCalls(rd.trace, appId, desired, ext, closes);
    assert Calls(r.trace.log) == Calls(t.log) + listed + creates + closes;
    SinceExtended(t, r.trace, listed, creates, closes);
  }

  /** The create and close loops of a pass that ends Ok add their calls to the log. */
  lemma AfterReadsCalls(t: Trace, appId: Id, desired: seq<APISubscription>, ext: map<string, PlanEntity>, closes: seq<Call>)
    requires CreatePhase(t, appId, desired, ext).out.Ok?
    requires IssueAll(CreatePhase(t, appId, desired, ext).trace, closes).ok
    ensures Calls(IssueAll(CreatePhase(t, appId, desired, ext).trace, closes).trace.log)
         == Calls(t.log) + CreateCalls(t.store, appId, desired, ext) + closes
  {
    var cr := CreatePhase(t, appId, desired, ext);
    CreatePhaseOk(t, appId, desired, ext);
    IssueAllOkCalls(cr.trace, closes);
  }

  /** A pass that ends Ok found every listed subscription readable and resolved every missing desired pair. */
  lemma UpdateAPISubscriptionsResolves(t: Trace, appId: Id, desired: seq<APISubscription>, order: seq<string>)
    requires UpdateAPISubscriptionsRun(t, appId, desired, order).out.Ok?
    ensures forall x :: x in ListedOf(t, appId) ==> Readable(t.store, x)
    ensures forall sub :: sub in desired && DesiredKey(sub) !in ExtOf(t, appId) ==> PlanFor(t.store, sub).Some?
  {
    var rd := IssueAll(t, ReadCalls(t, appId));
    assert rd.ok;
    ReadsOk(t, appId);
    assert CreatePhase(rd.trace, appId, desired, ExtOf(t, appId)).out.Ok?;
    CreatePhaseResolves(rd.trace, appId, desired, ExtOf(t, appId));
  }

  /** A pass that ends Ok subscribed to the named plan of each desired pair missing from the index. */
  lemma UpdateAPISubscriptionsCreates(t: Trace, appId: Id, desired: seq<APISubscription>, order: seq<string>)
    requires UpdateAPISubscriptionsRun(t, appId, desired, order).out.Ok?
    ensures forall sub :: sub in desired && DesiredKey(sub) !in ExtOf(t, appId) ==>
      PlanFor(t.store, sub).Some? && CreateSubscription(appId, PlanFor(t.store, sub).value.id) in Since(t, UpdateAPISubscriptionsRun(t, appId, desired, order).trace)
  {
    var ext := ExtOf(t, appId);
    UpdateAPISubscriptionsCalls(t, appId, desired, order);
    UpdateAPISubscriptionsResolves(t, appId, desired, order);
    CreateCallsSubscribes(t.store, appId, desired, ext);
    var creates := CreateCalls(t.store, appId, desired, ext);
    var closes := CloseCalls(appId, ListedOf(t, appId), ext, desired, order);
    forall c | c in creates
      ensures c in ReadCalls(t, appId) + creates + closes
    {
    }
  }

  /** A pass that ends Ok created no subscription but those, all for the application. */
  lemma UpdateAPISubscriptionsCreatesOnly(t: Trace, appId: Id, desired: seq<APISubscription>, order: seq<string>)
    requires UpdateAPISubscriptionsRun(t, appId, desired, order).out.Ok?
    ensures forall app, plan :: CreateSubscription(app, plan) in Since(t, UpdateAPISubscriptionsRun(t, appId, desired, order).trace) ==>
      app == appId && exists sub :: sub in desired && DesiredKey(sub) !in ExtOf(t, appId)
                                    && PlanFor(t.store, sub).Some? && PlanFor(t.store, sub).value.id == plan
  {
    var ext := ExtOf(t, appId);
    UpdateAPISubscriptionsCalls(t, appId, desired, order);
    UpdateAPISubscriptionsResolves(t, appId, desired, order);
    var listed := ReadCalls(t, appId);
    var creates := CreateCalls(t.store, appId, desired, ext);
    var closes := CloseCalls(appId, ListedOf(t, appId), ext, desired, order);
    CreateCallsOnly(t.store, appId, desired, ext);
    CloseCallsMembers(appId, ListedOf(t, appId), ext, desired, order);
    forall app, plan | CreateSubscription(app, plan) in listed + creates + closes
      ensures CreateSubscription(app, plan) in creates
    {
      var c := CreateSubscription(app, plan);
      assert c !in listed by {
        assert !ReadOnly(c);
      }
      assert c !in closes;
    }
  }

  /**
   * A pass that ends Ok closed, whatever the walk order, the last listed
   * subscription on the plan of each indexed key that no desired pair
   * names, and nothing else.
   */
  lemma UpdateAPISubscriptionsCloses(t: Trace, appId: Id, desired: seq<APISubscription>, order: seq<string>)
    requires Enumerates(order, ExtOf(t, appId).Keys)
    requires UpdateAPISubscriptionsRun(t, appId, desired, order).out.Ok?
    ensures forall c :: c in Since(t, UpdateAPISubscriptionsRun(t, appId, desired, order).trace) && c.CloseSubscription? <==>
      exists key :: key in ExtOf(t, appId) && !IsDesiredKey(desired, key)
        && c == CloseSubscription(appId, LastSubscriptionOnPlan(ListedOf(t, appId), ExtOf(t, appId)[key].id))
  {
    var ext := ExtOf(t, appId);
    UpdateAPISubscriptionsCalls(t, appId, desired, order);
    var listed := ReadCalls(t, appId);
    var creates := CreateCalls(t.store, appId, desired, ext);
    var closes := CloseCalls(appId, ListedOf(t, appId), ext, desired, order);
    CreateCallsKinds(t.store, appId, desired, ext);
    CloseCallsMembers(appId, ListedOf(t, appId), ext, desired, order);
    forall c: Call | c in listed + creates + closes && c.CloseSubscription?
      ensures c in closes
    {
      assert c !in listed by {
        assert !ReadOnly(c);
      }
      assert c !in creates;
    }
  }

  /** With every desired pair already indexed, the create loop issues nothing. */
  lemma {:induction false} CreateCallsIndexed(s: Store, appId: Id, desired: seq<APISubscription>, ext: map<string, PlanEntity>)
    requires forall sub :: sub in desired ==> DesiredKey(sub) in ext
    ensures CreateCalls(s, appId, desired, ext) == []
    decreases |desired|
  {
    if desired != [] {
      CreateCallsIndexed(s, appId, desired[..|desired| - 1], ext);
    }
  }

  /** With every indexed key desired, the close loop issues nothing. */
  lemma {:induction false} CloseCallsDesired(appId: Id, subs: seq<SubscriptionEntity>, ext: map<string, PlanEntity>,
                                             desired: seq<APISubscription>, order: seq<string>)
    requires forall key :: key in ext ==> IsDesiredKey(desired, key)
    ensures CloseCalls(appId, subs, ext, desired, order) == []
    decreases |order|
  {
    if order != [] {
      CloseCallsDesired(appId, subs, ext, desired, order[..|order| - 1]);
    }
  }

  /**
   * A sync whose desired pairs are exactly the indexed keys changes nothing:
   * a successful pass issues only its reads.
   */
  lemma UpdateAPISubscriptionsSteady(t: Trace, appId: Id, desired: seq<APISubscription>, order: seq<string>)
    requires UpdateAPISubscriptionsRun(t, appId, desired, order).out.Ok?
    requires forall sub :: sub in desired ==> DesiredKey(sub) in ExtOf(t, appId)
    requires forall key :: key in ExtOf(t, appId) ==> IsDesiredKey(desired, key)
    ensures Since(t, UpdateAPISubscriptionsRun(t, appId, desired, order).trace) == ReadCalls(t, appId)
    ensures UpdateAPISubscriptionsRun(t, appId, desired, order).trace.store == t.store
  {
    UpdateAPISubscriptionsCalls(t, appId, desired, order);
    CreateCallsIndexed(t.store, appId, desired, ExtOf(t, appId));
    CloseCallsDesired(appId, ListedOf(t, appId), ExtOf(t, appId), desired, order);
    ReadsOk(t, appId);
    var rd := IssueAll(t, ReadCalls(t, appId));
    assert CreatePhase(rd.trace, appId, desired, ExtOf(t, appId)) == Run(rd.trace, Ok) by {
      CreatePhaseIndexed(rd.trace, appId, desired, ExtOf(t, appId));
    }
  }

  lemma {:induction false} CreatePhaseIndexed(t: Trace, appId: Id, desired: seq<APISubscription>, ext: map<string, PlanEntity>)
    requires forall sub :: sub in desired ==> DesiredKey(sub) in ext
    ensures CreatePhase(t, appId, desired, ext) == Run(t, Ok)
    decreases |desired|
  {
    if desired != [] {
      CreatePhaseIndexed(t, appId, desired[..|desired| - 1], ext);
    }
  }

  /**
   * A pass that does not end Ok either panicked, failed on a plan name not
   * found, or failed on the last call it issued, which was refused.
   */
  lemma UpdateAPISubscriptionsFailure(t: Trace, appId: Id, desired: seq<APISubscription>, order: seq<string>)
    ensures var r := UpdateAPISubscriptionsRun(t, appId, desired, order);
      r.out.Fail? ==>
        || (exists sub :: sub in desired && r.out.error == NoPlanNamed(sub.apiPlanName))
        || (r.out.error.CallFailed? && r.out.error.at == |r.trace.log| - 1 && |t.log| < |r.trace.log|
            && !r.trace.log[r.out.error.at].ok
            && (r.trace.log[r.out.error.at].call.ListPlans? || r.trace.log[r.out.error.at].call.CloseSubscription?))
  {
    var r := UpdateAPISubscriptionsRun(t, appId, desired, order);
    var rd := IssueAll(t, ReadCalls(t, appId));
    if r.out.Fail? {
      assert rd.ok;
      IssueAllLog(t, ReadCalls(t, appId));
      var ext := ExtOf(t, appId);
      var cr := CreatePhase(rd.trace, appId, desired, ext);
      CreatePhaseFailure(rd.trace, appId, desired, ext);
      if cr.out.Ok? {
        var closes := CloseCalls(appId, ListedOf(t, appId), ext, desired, order);
        assert !IssueAll(cr.trace, closes).ok;
        IssueAllFailLog(cr.trace, closes);
        IssueAllLog(cr.trace, closes);
        CloseCallsMembers(appId, ListedOf(t, appId), ext, desired, order);
        var last := |r.trace.log| - 1;
        assert r.trace.log[last].call == closes[last - |cr.trace.log|];
        assert closes[last - |cr.trace.log|] in closes;
      }
    }
  }

  /**
   * The converse: a close the pass issued and the gateway refused was the
   * last call of the pass, and the pass returned it as its error.
   */
  lemma UpdateAPISubscriptionsCloseRefused(t: Trace, appId: Id, desired: seq<APISubscription>, order: seq<string>)
    ensures var r := UpdateAPISubscriptionsRun(t, appId, desired, order);
      forall i :: |t.log| <= i < |r.trace.log| ==>
        (r.trace.log[i].call.CloseSubscription? && !r.trace.log[i].ok ==>
           i == |r.trace.log| - 1 && r.out == Fail(CallFailed(i)))
  {
    var r := UpdateAPISubscriptionsRun(t, appId, desired, order);
    var rd := IssueAll(t, ReadCalls(t, appId));
    ReadsNoCloses(t, appId);
    if rd.ok {
      var ext := ExtOf(t, appId);
      var cr := CreatePhase(rd.trace, appId, desired, ext);
      CreatePhaseNoCloses(rd.trace, appId, desired, ext);
      IssueAllExtends(t, ReadCalls(t, appId));
      CreatePhaseExtends(rd.trace, appId, desired, ext);
      NoClosesTrans(t, rd.trace, cr.trace);
      if cr.out.Ok? {
        var closes := CloseCalls(appId, ListedOf(t, appId), ext, desired, order);
        IssueAllLog(cr.trace, closes);
        assert r.trace == IssueAll(cr.trace, closes).trace;
        assert r.trace.log[..|cr.trace.log|] == cr.trace.log;
        forall i | |t.log| <= i < |cr.trace.log|
          ensures !r.trace.log[i].call.CloseSubscription?
        {
          assert r.trace.log[i] == cr.trace.log[i];
        }
      }
    }
  }

  /** No close was logged after the first snapshot's log, up to the second's. */
  predicate NoClosesSince(t: Trace, t': Trace) {
    forall i :: |t.log| <= i < |t'.log| ==> !t'.log[i].call.CloseSubscription?
  }

  lemma NoClosesTrans(t1: Trace, t2: Trace, t3: Trace)
    requires Extends(t1, t2) && Extends(t2, t3)
    requires NoClosesSince(t1, t2) && NoClosesSince(t2, t3)
    ensures NoClosesSince(t1, t3)
  {
    forall i | |t1.log| <= i < |t2.log|
      ensures t3.log[i] == t2.log[i]
    {
      assert t3.log[..|t2.log|][i] == t3.log[i];
    }
  }

  /** The reads of a pass log no close, whether or not they all go through. */
  lemma ReadsNoCloses(t: Trace, appId: Id)
    ensures NoClosesSince(t, IssueAll(t, ReadCalls(t, appId)).trace)
  {
    var calls := ReadCalls(t, appId);
    IssueAllLog(t, calls);
    forall i | |t.log| <= i < |IssueAll(t, calls).trace.log|
      ensures ReadOnly(IssueAll(t, calls).trace.log[i].call)
    {
      assert calls[i - |t.log|] in calls;
    }
  }

  /** The create loop logs no close, whatever its outcome. */
  lemma CreatePhaseNoCloses(t: Trace, appId: Id, desired: seq<APISubscription>, ext: map<string, PlanEntity>)
    ensures NoClosesSince(t, CreatePhase(t, appId, desired, ext).trace)
  {
    var r := CreatePhase(t, appId, desired, ext);
    CreatePhaseExtends(t, appId, desired, ext);
    CreatePhaseKinds(t, appId, desired, ext);
    forall i | |t.log| <= i < |r.trace.log|
      ensures CreateKind(r.trace.log[i].call)
    {
      assert r.trace.log[i].call == Since(t, r.trace)[i - |t.log|];
    }
  }

  /** Whether a call is one a create pass issues: a search, a plan listing or a create. */
  predicate CreateKind(c: Call) {
    c.SearchApis? || c.ListPlans? || c.CreateSubscription?
  }

  /** A create pass, whatever its outcome, issues searches, plan listings and creates only. */
  lemma CreateOneKinds(t: Trace, appId: Id, sub: APISubscription, ext: map<string, PlanEntity>)
    ensures forall c :: c in Since(t, CreateOne(t, appId, sub, ext).trace) ==> CreateKind(c)
  {
    var r := CreateOne(t, appId, sub, ext);
    if DesiredKey(sub) in ext {
      assert Since(t, r.trace) == [];
    } else {
      var s := SearchAPIRun(t, sub.apiContextPath);
      SearchAPIExtends(t, sub.apiContextPath);
      if s.out.Ok? && s.value.Some? {
        CreateOneFoundKinds(t, appId, sub, ext);
      } else {
        assert Since(t, r.trace) == [SearchApis(sub.apiContextPath)];
      }
    }
  }

  /** Once the search finds the API, a create pass adds a plan listing and at most a create. */
  lemma CreateOneFoundKinds(t: Trace, appId: Id, sub: APISubscription, ext: map<string, PlanEntity>)
    requires DesiredKey(sub) !in ext
    requires SearchAPIRun(t, sub.apiContextPath).out.Ok? && SearchAPIRun(t, sub.apiContextPath).value.Some?
    ensures forall c :: c in Since(t, CreateOne(t, appId, sub, ext).trace) ==> CreateKind(c)
  {
    var r := CreateOne(t, appId, sub, ext);
    var s := SearchAPIRun(t, sub.apiContextPath);
    SearchAPIExtends(t, sub.apiContextPath);
    var list := ListPlans(s.value.value.id);
    var g := GetPlanByNameRun(s.trace, s.value.value.id, sub.apiPlanName);
    assert g.trace == Issue(s.trace, list);
    IssueExtends(s.trace, list);
    SinceSplit(t, s.trace, g.trace);
    if g.out.Ok? {
      var create := CreateSubscription(appId, g.value.value.id);
      IssueExtends(g.trace, create);
      ExtendsTrans(t, s.trace, g.trace);
      SinceSplit(t, g.trace, Issue(g.trace, create));
      assert Since(t, r.trace) == [SearchApis(sub.apiContextPath), list, create];
    } else {
      assert Since(t, r.trace) == [SearchApis(sub.apiContextPath), list];
    }
  }

  /** The create loop, whatever its outcome, issues searches, plan listings and creates only. */
  lemma {:induction false} CreatePhaseKinds(t: Trace, appId: Id, desired: seq<APISubscription>, ext: map<string, PlanEntity>)
    ensures forall c :: c in Since(t, CreatePhase(t, appId, desired, ext).trace) ==> CreateKind(c)
    decreases |desired|
  {
    if desired != [] {
      var front := desired[..|desired| - 1];
      var r := CreatePhase(t, appId, front, ext);
      CreatePhaseKinds(t, appId, front, ext);
      if r.out.Ok? {
        var last := desired[|desired| - 1];
        CreatePhaseExtends(t, appId, front, ext);
        CreateOneExtends(r.trace, appId, last, ext);
        CreateOneKinds(r.trace, appId, last, ext);
        SinceSplit(t, r.trace, CreateOne(r.trace, appId, last, ext).trace);
      }
    }
  }

  /** A create pass that fails names the desired plan, or the refused plan listing it issued last. */
  lemma CreateOneFailure(t: Trace, appId: Id, sub: APISubscription, ext: map<string, PlanEntity>)
    ensures |t.log| <= |CreateOne(t, appId, sub, ext).trace.log|
    ensures var r := CreateOne(t, appId, sub, ext);
      r.out.Fail? ==>
        || r.out.error == NoPlanNamed(sub.apiPlanName)
        || (r.out.error.CallFailed? && r.out.error.at == |r.trace.log| - 1 && |t.log| < |r.trace.log|
            && !r.trace.log[r.out.error.at].ok && r.trace.log[r.out.error.at].call.ListPlans?)
  {
    if DesiredKey(sub) !in ext {
      var s := SearchAPIRun(t, sub.apiContextPath);
      if !(s.out.Panic? || s.value.None?) {
        var g := GetPlanByNameRun(s.trace, s.value.value.id, sub.apiPlanName);
        assert |g.trace.log| == |t.log| + 2;
      }
    }
  }

  /** A create loop that fails names a desired plan, or a refused call it issued last. */
  lemma {:induction false} CreatePhaseFailure(t: Trace, appId: Id, desired: seq<APISubscription>, ext: map<string, PlanEntity>)
    ensures |t.log| <= |CreatePhase(t, appId, desired, ext).trace.log|
    ensures var r := CreatePhase(t, appId, desired, ext);
      r.out.Fail? ==>
        || (exists sub :: sub in desired && r.out.error == NoPlanNamed(sub.apiPlanName))
        || (r.out.error.CallFailed? && r.out.error.at == |r.trace.log| - 1 && |t.log| < |r.trace.log|
            && !r.trace.log[r.out.error.at].ok && r.trace.log[r.out.error.at].call.ListPlans?)
    decreases |desired|
  {
    if desired != [] {
      var front, last := desired[..|desired| - 1], desired[|desired| - 1];
      CreatePhaseFailure(t, appId, front, ext);
      var r' := CreatePhase(t, appId, front, ext);
      assert forall sub :: sub in front ==> sub in desired;
      if r'.out.Ok? {
        CreateOneFailure(r'.trace, appId, last, ext);
      }
    }
  }

  // The imperative pass

  /** One pass of the index loop: read the API and the plan of a listed subscription. */
  method ReadSubscription(b: Backend, ghost t0: Trace, ghost sent: seq<Call>, x: SubscriptionEntity)
    returns (ok: bool, api: Option<ApiEntity>, plan: Option<PlanEntity>)
    requires IssueAll(t0, sent) == Progress(b.Snapshot(), true)
    modifies b
    ensures IssueAll(t0, sent + [GetApi(x.api), GetPlan(x.api, x.plan)]) == Progress(b.Snapshot(), ok)
    ensures b.store == old(b.store)
    ensures ok ==> Readable(b.store, x) && api == FindApi(b.store.apis, x.api) && plan == Some(PlanOf(b.store, x))
  {
    var both := sent + [GetApi(x.api), GetPlan(x.api, x.plan)];
    assert sent + [GetApi(x.api)] <= both;
    assert both == sent + [GetApi(x.api)] + [GetPlan(x.api, x.plan)];
    var reply;
    ok, reply := IssueNextReading(b, t0, sent, GetApi(x.api));
    if !ok {
      IssueAllHalted(t0, sent + [GetApi(x.api)], both);
      return ok, None, None;
    }
    api := Some(reply.apiEntity);
    ok, reply := IssueNextReading(b, t0, sent + [GetApi(x.api)], GetPlan(x.api, x.plan));
    plan := if ok then Some(reply.planEntity) else None;
  }

  /** The index loop: read the API and the plan of each listed subscription and index the plan. */
  method IndexSubscriptions(b: Backend, subs: seq<SubscriptionEntity>) returns (ok: bool, ext: map<string, PlanEntity>)
    modifies b
    ensures IssueAll(old(b.Snapshot()), IndexCalls(subs)) == Progress(b.Snapshot(), ok)
    ensures ok ==> ext == ExtIndex(old(b.store), subs)
  {
    ghost var t0 := b.Snapshot();
    ext := map[];
    var i := 0;
    while i < |subs|
      invariant 0 <= i <= |subs|
      invariant IssueAll(t0, IndexCalls(subs[..i])) == Progress(b.Snapshot(), true)
      invariant b.store == t0.store
      invariant ext == ExtIndex(t0.store, subs[..i])
    {
      var x := subs[i];
      assert subs[..i + 1][..i] == subs[..i];
      var api, plan;
      ok, api, plan := ReadSubscription(b, t0, IndexCalls(subs[..i]), x);
      if !ok {
        IndexCallsPrefix(subs, i + 1);
        IssueAllHalted(t0, IndexCalls(subs[..i + 1]), IndexCalls(subs));
        return;
      }
      ext := ext[SubscriptionKey(api.value.contextPath, plan.value.name) := plan.value];
      i := i + 1;
    }
    assert subs[..i] == subs;
    ok := true;
  }

  /** One pass of the create loop. */
  method CreateSubscriptionFor(b: Backend, appId: Id, sub: APISubscription, ext: map<string, PlanEntity>) returns (out: Outcome)
    modifies b
    ensures Run(b.Snapshot(), out) == CreateOne(old(b.Snapshot()), appId, sub, ext)
  {
    if DesiredKey(sub) in ext {
      return Ok;
    }
    var found, api := SearchAPI(b, sub.apiContextPath);
    if found.Panic? || api.None? {
      return Panic;
    }
    var listed, plan := GetPlanByName(b, api.value.id, sub.apiPlanName);
    if !listed.Ok? {
      return listed;
    }
    var ok, reply := b.Invoke(CreateSubscription(appId, plan.value.id));
    out := Ok;
  }

  /** The create loop. */
  method CreateSubscriptions(b: Backend, appId: Id, desired: seq<APISubscription>, ext: map<string, PlanEntity>) returns (out: Outcome)
    modifies b
    ensures Run(b.Snapshot(), out) == CreatePhase(old(b.Snapshot()), appId, desired, ext)
  {
    ghost var t0 := b.Snapshot();
    var i := 0;
    while i < |desired|
      invariant 0 <= i <= |desired|
      invariant CreatePhase(t0, appId, desired[..i], ext) == Run(b.Snapshot(), Ok)
    {
      assert desired[..i + 1][..i] == desired[..i];
      out := CreateSubscriptionFor(b, appId, desired[i], ext);
      if !out.Ok? {
        CreatePhaseHalted(t0, appId, desired, ext, i + 1);
        return;
      }
      i := i + 1;
    }
    assert desired[..i] == desired;
    out := Ok;
  }

  /** Whether a desired pair has the key (the inner loop setting sub_found). */
  method FindDesiredKey(desired: seq<APISubscription>, key: string) returns (found: bool)
    ensures found == IsDesiredKey(desired, key)
  {
    found := false;
    var i := 0;
    while i < |desired|
      invariant 0 <= i <= |desired|
      invariant found == IsDesiredKey(desired[..i], key)
    {
      assert desired[..i + 1] == desired[..i] + [desired[i]];
      if key == DesiredKey(desired[i]) {
        found := true;
      }
      i := i + 1;
    }
    assert desired[..i] == desired;
  }

  /** The ID of the last listed subscription on the plan (the inner loop setting sub_id). */
  method FindSubscriptionOnPlan(subs: seq<SubscriptionEntity>, planId: Id) returns (id: Id)
    ensures id == LastSubscriptionOnPlan(subs, planId)
  {
    id := "";
    var i := 0;
    while i < |subs|
      invariant 0 <= i <= |subs|
      invariant id == LastSubscriptionOnPlan(subs[..i], planId)
    {
      assert subs[..i + 1][..i] == subs[..i];
      if subs[i].plan == planId {
        id := subs[i].id;
      }
      i := i + 1;
    }
    assert subs[..i] == subs;
  }

  /** One pass of the close loop: close the subscription behind the key unless a desired pair names it. */
  method CloseKey(b: Backend, ghost t0: Trace, appId: Id, subs: seq<SubscriptionEntity>, ext: map<string, PlanEntity>,
                  desired: seq<APISubscription>, ghost order: seq<string>, key: string) returns (ok: bool)
    requires key in ext
    requires IssueAll(t0, CloseCalls(appId, subs, ext, desired, order)) == Progress(b.Snapshot(), true)
    modifies b
    ensures IssueAll(t0, CloseCalls(appId, subs, ext, desired, order + [key])) == Progress(b.Snapshot(), ok)
  {
    var found := FindDesiredKey(desired, key);
    ghost var next := order + [key];
    assert next[..|next| - 1] == order;
    ok := true;
    if found {
      assert CloseCalls(appId, subs, ext, desired, next) == CloseCalls(appId, subs, ext, desired, order);
    } else {
      var id := FindSubscriptionOnPlan(subs, ext[key].id);
      ok := IssueNext(b, t0, CloseCalls(appId, subs, ext, desired, order), CloseSubscription(appId, id));
    }
  }

  /** Walking one more key of the remaining ones. */
  lemma EnumeratesStep(order: seq<string>, keys: set<string>, remaining: set<string>, key: string)
    requires remaining <= keys && key in remaining && Enumerates(order, keys - remaining)
    ensures Enumerates(order + [key], keys - (remaining - {key}))
  {
    EnumeratesAppend(order, keys - remaining, [key], {key});
    assert keys - remaining + {key} == keys - (remaining - {key});
  }

  /** A close loop stopped by a refusal: completing the walk in any order issues nothing more. */
  lemma CloseHalted(t0: Trace, appId: Id, subs: seq<SubscriptionEntity>, ext: map<string, PlanEntity>,
                    desired: seq<APISubscription>, walked: seq<string>, remaining: set<string>)
    requires remaining <= ext.Keys && Enumerates(walked, ext.Keys - remaining)
    requires !IssueAll(t0, CloseCalls(appId, subs, ext, desired, walked)).ok
    ensures Enumerates(walked + Enumerate(remaining), ext.Keys)
    ensures IssueAll(t0, CloseCalls(appId, subs, ext, desired, walked + Enumerate(remaining)))
         == IssueAll(t0, CloseCalls(appId, subs, ext, desired, walked))
  {
    var order := walked + Enumerate(remaining);
    EnumeratesAppend(walked, ext.Keys - remaining, Enumerate(remaining), remaining);
    assert ext.Keys - remaining + remaining == ext.Keys;
    assert order[..|walked|] == walked;
    CloseCallsPrefix(appId, subs, ext, desired, order, |walked|);
    IssueAllHalted(t0, CloseCalls(appId, subs, ext, desired, walked), CloseCalls(appId, subs, ext, desired, order));
  }

  /** The close loop, over the index keys in an unspecified order, returned as order. */
  method CloseSubscriptions(b: Backend, appId: Id, subs: seq<SubscriptionEntity>, ext: map<string, PlanEntity>,
                            desired: seq<APISubscription>) returns (ok: bool, ghost order: seq<string>)
    modifies b
    ensures Enumerates(order, ext.Keys)
    ensures IssueAll(old(b.Snapshot()), CloseCalls(appId, subs, ext, desired, order)) == Progress(b.Snapshot(), ok)
  {
    ghost var t0 := b.Snapshot();
    var remaining := ext.Keys;
    order := [];
    while remaining != {}
      invariant remaining <= ext.Keys
      invariant Enumerates(order, ext.Keys - remaining)
      invariant IssueAll(t0, CloseCalls(appId, subs, ext, desired, order)) == Progress(b.Snapshot(), true)
      decreases |remaining|
    {
      var key :| key in remaining;
      ok := CloseKey(b, t0, appId, subs, ext, desired, order, key);
      EnumeratesStep(order, ext.Keys, remaining, key);
      order := order + [key];
      remaining := remaining - {key};
      if !ok {
        CloseHalted(t0, appId, subs, ext, desired, order, remaining);
        order := order + Enumerate(remaining);
        return;
      }
    }
    assert ext.Keys - remaining == ext.Keys;
    ok := true;
  }

  /** UpdateAPISubscriptions, the close loop walking the index in the order returned. */
  method UpdateAPISubscriptions(b: Backend, appId: Id, desired: seq<APISubscription>) returns (out: Outcome, ghost order: seq<string>)
    modifies b
    ensures Enumerates(order, ExtOf(old(b.Snapshot()), appId).Keys)
    ensures Run(b.Snapshot(), out) == UpdateAPISubscriptionsRun(old(b.Snapshot()), appId, desired, order)
  {
    ghost var t0 := b.Snapshot();
    order := Enumerate(ExtOf(t0, appId).Keys);
    var list := ListSubscriptions(appId);
    assert [] + [list] == [list];
    var ok, reply := IssueNextReading(b, t0, [], list);
    if !ok {
      IssueAllHalted(t0, [list], ReadCalls(t0, appId));
      return Panic, order;
    }
    ReadOnlyEffect(t0.store, list);
    var subs := reply.subscriptions;
    var ext;
    ok, ext := IndexSubscriptions(b, subs);
    IssueAllAppend(t0, [list], IndexCalls(subs));
    if !ok {
      return Panic, order;
    }
    out := CreateSubscriptions(b, appId, desired, ext);
    if !out.Ok? {
      return;
    }
    ok, order := CloseSubscriptions(b, appId, subs, ext, desired);
    out := if ok then Ok else Fail(LastCallFailed(b.Snapshot()));
  }
}
