/**
 * Where a completed UpdateAPIPlans leaves the gateway: the API's published
 * plans carry exactly the desired names. The argument follows each plan ID
 * through the writes, on a store whose plan IDs are unique, as the
 * gateway's generated IDs are: the updates keep a listed plan's API, status
 * and name, the creates add fresh published plans with desired names, and
 * the retirements remove exactly the listed plans whose names are not
 * desired.
 */
module PlanConvergence {
  import opened Types
  import opened Gateway
  import opened StubHelpers
  import opened PlanSync

  /** No two plans of the store share an ID. */
  predicate UniquePlanIds(plans: seq<PlanEntity>) {
    forall i, j :: 0 <= i < j < |plans| ==> plans[i].id != plans[j].id
  }

  /** The store after the effects of the calls, in order. */
  function Apply(s: Store, calls: seq<Call>): Store
    decreases |calls|
  {
    if calls == [] then s
    else Effect(Apply(s, calls[..|calls| - 1]), calls[|calls| - 1])
  }

  /** A list issued without refusal leaves the store its effects produce. */
  lemma {:induction false} IssueAllStore(t: Trace, calls: seq<Call>)
    requires IssueAll(t, calls).ok
    ensures IssueAll(t, calls).trace.store == Apply(t.store, calls)
    decreases |calls|
  {
    if calls != [] {
      IssueAllStore(t, calls[..|calls| - 1]);
    }
  }

  lemma {:induction false} ApplyAppend(s: Store, a: seq<Call>, b: seq<Call>)
    ensures Apply(s, a + b) == Apply(Apply(s, a), b)
    decreases |b|
  {
    if b == [] {
      assert a + b == a;
    } else {
      assert (a + b)[..|a + b| - 1] == a + b[..|b| - 1];
      ApplyAppend(s, a, b[..|b| - 1]);
    }
  }

  // Lookups by ID

  lemma UniqueTail(plans: seq<PlanEntity>)
    requires plans != [] && UniquePlanIds(plans)
    ensures UniquePlanIds(plans[1..])
    ensures forall p :: p in plans[1..] ==> p.id != plans[0].id
  {
    forall i, j | 0 <= i < j < |plans[1..]|
      ensures plans[1..][i].id != plans[1..][j].id
    {
      assert plans[1..][i] == plans[i + 1] && plans[1..][j] == plans[j + 1];
    }
  }

  /** With unique IDs, a plan is in the store exactly when the lookup of its ID finds it. */
  lemma {:induction false} FindPlanByIdUnique(plans: seq<PlanEntity>, p: PlanEntity)
    requires UniquePlanIds(plans)
    ensures p in plans <==> FindPlanById(plans, p.id) == Some(p)
    decreases |plans|
  {
    if plans != [] {
      UniqueTail(plans);
      FindPlanByIdUnique(plans[1..], p);
      assert plans == [plans[0]] + plans[1..];
    }
  }

  /** Replacing the plans with ID id changes the lookup of id only. */
  lemma {:induction false} FindPlanByIdReplace(plans: seq<PlanEntity>, id: Id, p: PlanEntity)
    requires p.id == id
    ensures FindPlanById(ReplacePlan(plans, id, p), id) == (if FindPlanById(plans, id).Some? then Some(p) else None)
    ensures forall x :: x != id ==> FindPlanById(ReplacePlan(plans, id, p), x) == FindPlanById(plans, x)
    ensures UniquePlanIds(plans) ==> UniquePlanIds(ReplacePlan(plans, id, p))
    decreases |plans|
  {
    var r := ReplacePlan(plans, id, p);
    assert forall i :: 0 <= i < |plans| ==> r[i].id == plans[i].id;
    if plans != [] {
      assert r[1..] == ReplacePlan(plans[1..], id, p);
      FindPlanByIdReplace(plans[1..], id, p);
    }
  }

  /** Removing the plans with ID id empties the lookup of id and changes no other. */
  lemma {:induction false} FindPlanByIdRemove(plans: seq<PlanEntity>, id: Id)
    ensures FindPlanById(RemovePlan(plans, id), id).None?
    ensures forall x :: x != id ==> FindPlanById(RemovePlan(plans, id), x) == FindPlanById(plans, x)
    ensures UniquePlanIds(plans) ==> UniquePlanIds(RemovePlan(plans, id))
    decreases |plans|
  {
    if plans != [] {
      var rest := RemovePlan(plans[1..], id);
      FindPlanByIdRemove(plans[1..], id);
      if plans[0].id == id {
        assert RemovePlan(plans, id) == rest;
        if UniquePlanIds(plans) {
          UniqueTail(plans);
        }
      } else {
        assert RemovePlan(plans, id) == [plans[0]] + rest;
        if UniquePlanIds(plans) {
          UniqueTail(plans);
          UniqueCons(plans[0], rest);
        }
      }
    }
  }

  /** A plan put in front of plans with distinct IDs, none of them its own, keeps the IDs distinct. */
  lemma UniqueCons(p: PlanEntity, rest: seq<PlanEntity>)
    requires UniquePlanIds(rest) && forall q :: q in rest ==> q.id != p.id
    ensures UniquePlanIds([p] + rest)
  {
    var plans := [p] + rest;
    forall i, j | 0 <= i < j < |plans|
      ensures plans[i].id != plans[j].id
    {
      assert plans[j] == rest[j - 1];
      if i > 0 {
        assert plans[i] == rest[i - 1];
      }
    }
  }

  /** Appending a plan whose ID is not taken adds one lookup and changes no other. */
  lemma {:induction false} FindPlanByIdAppend(plans: seq<PlanEntity>, p: PlanEntity)
    requires FindPlanById(plans, p.id).None?
    ensures FindPlanById(plans + [p], p.id) == Some(p)
    ensures forall x :: x != p.id ==> FindPlanById(plans + [p], x) == FindPlanById(plans, x)
    ensures UniquePlanIds(plans) ==> UniquePlanIds(plans + [p])
    decreases |plans|
  {
    if plans != [] {
      assert (plans + [p])[1..] == plans[1..] + [p];
      FindPlanByIdAppend(plans[1..], p);
    }
    if UniquePlanIds(plans) {
      UniqueSnoc(plans, p);
    }
  }

  /** A plan put after plans with distinct IDs, none of them its own, keeps the IDs distinct. */
  lemma UniqueSnoc(plans: seq<PlanEntity>, p: PlanEntity)
    requires UniquePlanIds(plans) && forall q :: q in plans ==> q.id != p.id
    ensures UniquePlanIds(plans + [p])
  {
    var all := plans + [p];
    forall i, j | 0 <= i < j < |all|
      ensures all[i].id != all[j].id
    {
      assert all[i] == plans[i];
      if j < |plans| {
        assert all[j] == plans[j];
      }
    }
  }

  // The effect of each plan write on the lookups

  /** With unique IDs, the plan a write addresses by API and ID is the lookup of the ID, when it belongs to the API. */
  lemma FindPlanUnique(plans: seq<PlanEntity>, api: Id, id: Id)
    requires UniquePlanIds(plans)
    ensures FindPlanById(plans, id).Some? && FindPlanById(plans, id).value.api == api ==>
      FindPlan(plans, api, id) == FindPlanById(plans, id)
    ensures FindPlan(plans, api, id).Some? ==> FindPlan(plans, api, id) == FindPlanById(plans, id)
  {
    if FindPlan(plans, api, id).Some? {
      FindPlanByIdUnique(plans, FindPlan(plans, api, id).value);
    }
    if FindPlanById(plans, id).Some? {
      FindPlanByIdUnique(plans, FindPlanById(plans, id).value);
    }
  }

  lemma UpdatePlanEffect(s: Store, api: Id, id: Id, u: PlanUpdate)
    requires UniquePlanIds(s.plans)
    ensures var s' := Effect(s, UpdatePlan(api, id, u));
      && UniquePlanIds(s'.plans)
      && (forall x :: x != id ==> FindPlanById(s'.plans, x) == FindPlanById(s.plans, x))
      && (var q := FindPlanById(s.plans, id);
          q.Some? && q.value.api == api ==>
            FindPlanById(s'.plans, id)
              == Some(q.value.(description := u.description, name := u.name,
                               securityDefinition := u.securityDefinition,
                               tags := u.tags, order := u.order, validation := u.validation)))
  {
    FindPlanUnique(s.plans, api, id);
    var found := FindPlan(s.plans, api, id);
    if found.Some? {
      var p := found.value.(description := u.description, name := u.name,
                            securityDefinition := u.securityDefinition,
                            tags := u.tags, order := u.order, validation := u.validation);
      FindPlanByIdReplace(s.plans, id, p);
    }
  }

  lemma ClosePlanEffect(s: Store, api: Id, id: Id)
    requires UniquePlanIds(s.plans)
    ensures var s' := Effect(s, ClosePlan(api, id));
      && UniquePlanIds(s'.plans)
      && (forall x :: x != id ==> FindPlanById(s'.plans, x) == FindPlanById(s.plans, x))
  {
    var found := FindPlan(s.plans, api, id);
    if found.Some? {
      FindPlanByIdReplace(s.plans, id, found.value.(status := Closed));
    }
  }

  lemma DeletePlanEffect(s: Store, api: Id, id: Id)
    requires UniquePlanIds(s.plans)
    ensures var s' := Effect(s, DeletePlan(api, id));
      && UniquePlanIds(s'.plans)
      && FindPlanById(s'.plans, id).None?
      && (forall x :: x != id ==> FindPlanById(s'.plans, x) == FindPlanById(s.plans, x))
  {
    FindPlanByIdRemove(s.plans, id);
  }

  lemma CreatePlanEffect(s: Store, api: Id, np: NewPlan)
    requires UniquePlanIds(s.plans)
    ensures var s' := Effect(s, CreatePlan(api, np)); var newId := FreshId(s);
      && UniquePlanIds(s'.plans)
      && FindPlanById(s.plans, newId).None?
      && FindPlanById(s'.plans, newId).Some?
      && FindPlanById(s'.plans, newId).value.api == api
      && FindPlanById(s'.plans, newId).value.name == np.name
      && FindPlanById(s'.plans, newId).value.status == np.status
      && (forall x :: x != newId ==> FindPlanById(s'.plans, x) == FindPlanById(s.plans, x))
  {
    var p := PlanEntity(FreshId(s), api, np.name, np.description, np.security,
                        np.securityDefinition, [], 0, np.validation, np.status, np.planType);
    FindPlanByIdAppend(s.plans, p);
  }

  // The update and create loop

  /** The lookup keeps a plan's API, status and name. */
  predicate Kept(p: PlanEntity, q: Option<PlanEntity>) {
    q.Some? && q.value.api == p.api && q.value.status == p.status && q.value.name == p.name
  }

  /** The lookup finds nothing, or a published plan of the API with a desired name. */
  predicate AddedFor(q: Option<PlanEntity>, apiId: Id, desired: seq<Plan>) {
    q.Some? ==> q.value.api == apiId && q.value.status == Published && IsDesiredName(desired, q.value.name)
  }

  /**
   * The state the update and create loop keeps, against the store s0 it
   * started from: unique IDs, every plan of s0 still there with its API,
   * status and name, and every other plan a published plan of the API with
   * a desired name.
   */
  ghost predicate MatchInv(s0: Store, s: Store, apiId: Id, desired: seq<Plan>) {
    && UniquePlanIds(s.plans)
    && (forall x :: FindPlanById(s0.plans, x).Some? ==> Kept(FindPlanById(s0.plans, x).value, FindPlanById(s.plans, x)))
    && (forall x :: FindPlanById(s0.plans, x).None? ==> AddedFor(FindPlanById(s.plans, x), apiId, desired))
  }

  /** Some plan absent from s0 is a published plan of the API with the name. */
  ghost predicate CreatedNamed(s0: Store, s: Store, apiId: Id, name: string) {
    exists x :: && FindPlanById(s0.plans, x).None? && FindPlanById(s.plans, x).Some?
                && FindPlanById(s.plans, x).value.api == apiId
                && FindPlanById(s.plans, x).value.status == Published
                && FindPlanById(s.plans, x).value.name == name
  }

  /** One update of a listed plan carrying the desired name keeps the invariant and touches no plan absent from s0. */
  lemma UpdateStepInv(s0: Store, s: Store, apiId: Id, d: Plan, r: PlanEntity, all: seq<Plan>)
    requires UniquePlanIds(s0.plans) && MatchInv(s0, s, apiId, all)
    requires r in s0.plans && r.api == apiId && r.name == d.name
    ensures var s' := Effect(s, UpdatePlan(apiId, r.id, PlanUpdateFor(d, r)));
      && MatchInv(s0, s', apiId, all)
      && forall x :: FindPlanById(s0.plans, x).None? ==> FindPlanById(s'.plans, x) == FindPlanById(s.plans, x)
  {
    FindPlanByIdUnique(s0.plans, r);
    assert Kept(r, FindPlanById(s.plans, r.id));
    UpdatePlanEffect(s, apiId, r.id, PlanUpdateFor(d, r));
  }

  /** The updates for one desired plan keep the invariant and touch no plan absent from s0. */
  lemma {:induction false} UpdatesForInv(s0: Store, s: Store, apiId: Id, d: Plan, remote: seq<PlanEntity>, all: seq<Plan>)
    requires UniquePlanIds(s0.plans) && MatchInv(s0, s, apiId, all)
    requires forall r :: r in remote ==> r in s0.plans && r.api == apiId
    ensures var s' := Apply(s, UpdatesFor(apiId, d, remote));
      && MatchInv(s0, s', apiId, all)
      && forall x :: FindPlanById(s0.plans, x).None? ==> FindPlanById(s'.plans, x) == FindPlanById(s.plans, x)
    decreases |remote|
  {
    if remote != [] {
      var front, r := remote[..|remote| - 1], remote[|remote| - 1];
      assert forall q :: q in front ==> q in remote;
      UpdatesForInv(s0, s, apiId, d, front, all);
      var mid := Apply(s, UpdatesFor(apiId, d, front));
      var tail := if r.name == d.name then [UpdatePlan(apiId, r.id, PlanUpdateFor(d, r))] else [];
      ApplyAppend(s, UpdatesFor(apiId, d, front), tail);
      if r.name == d.name {
        assert Apply(mid, tail) == Effect(mid, tail[0]);
        UpdateStepInv(s0, mid, apiId, d, r, all);
      }
    }
  }

  /** The create for a desired plan keeps the invariant, adds a plan with its name, and changes no other lookup. */
  lemma CreateStepInv(s0: Store, s: Store, apiId: Id, d: Plan, all: seq<Plan>)
    requires MatchInv(s0, s, apiId, all) && d in all
    ensures var s' := Effect(s, CreatePlan(apiId, NewPlanFor(apiId, d)));
      && MatchInv(s0, s', apiId, all)
      && CreatedNamed(s0, s', apiId, d.name)
      && forall x :: FindPlanById(s.plans, x).Some? ==> FindPlanById(s'.plans, x) == FindPlanById(s.plans, x)
  {
    var newId := FreshId(s);
    CreatePlanEffect(s, apiId, NewPlanFor(apiId, d));
    assert FindPlanById(s0.plans, newId).None?;
  }

  /** A plan absent from s0 that a step leaves alone keeps its name published. */
  lemma CreatedKept(s0: Store, s: Store, s': Store, apiId: Id, name: string)
    requires forall x :: FindPlanById(s0.plans, x).None? && FindPlanById(s.plans, x).Some? ==>
      FindPlanById(s'.plans, x) == FindPlanById(s.plans, x)
    requires CreatedNamed(s0, s, apiId, name)
    ensures CreatedNamed(s0, s', apiId, name)
  {
    var x :| && FindPlanById(s0.plans, x).None? && FindPlanById(s.plans, x).Some?
             && FindPlanById(s.plans, x).value.api == apiId
             && FindPlanById(s.plans, x).value.status == Published
             && FindPlanById(s.plans, x).value.name == name;
    assert FindPlanById(s'.plans, x) == FindPlanById(s.plans, x);
  }

  /** The calls for one desired plan keep the invariant and leave every plan absent from s0 where it was. */
  lemma CallsForInv(s0: Store, s: Store, apiId: Id, d: Plan, all: seq<Plan>)
    requires UniquePlanIds(s0.plans) && MatchInv(s0, s, apiId, all) && d in all
    ensures var s' := Apply(s, CallsFor(apiId, d, PublishedPlansOf(s0.plans, apiId)));
      && MatchInv(s0, s', apiId, all)
      && forall x :: FindPlanById(s0.plans, x).None? && FindPlanById(s.plans, x).Some? ==>
           FindPlanById(s'.plans, x) == FindPlanById(s.plans, x)
  {
    var remote := PublishedPlansOf(s0.plans, apiId);
    var updates := UpdatesFor(apiId, d, remote);
    var creates := if HasPlanNamed(remote, d.name) then [] else [CreatePlan(apiId, NewPlanFor(apiId, d))];
    ApplyAppend(s, updates, creates);
    UpdatesForInv(s0, s, apiId, d, remote, all);
    var su := Apply(s, updates);
    if !HasPlanNamed(remote, d.name) {
      assert Apply(su, creates) == Effect(su, creates[0]);
      CreateStepInv(s0, su, apiId, d, all);
    }
  }

  /** The calls for a desired plan no listed plan names add a new plan of its name. */
  lemma CallsForCreates(s0: Store, s: Store, apiId: Id, d: Plan, all: seq<Plan>)
    requires UniquePlanIds(s0.plans) && MatchInv(s0, s, apiId, all) && d in all
    requires !HasPlanNamed(PublishedPlansOf(s0.plans, apiId), d.name)
    ensures CreatedNamed(s0, Apply(s, CallsFor(apiId, d, PublishedPlansOf(s0.plans, apiId))), apiId, d.name)
  {
    var remote := PublishedPlansOf(s0.plans, apiId);
    var updates := UpdatesFor(apiId, d, remote);
    var creates := [CreatePlan(apiId, NewPlanFor(apiId, d))];
    ApplyAppend(s, updates, creates);
    UpdatesForInv(s0, s, apiId, d, remote, all);
    var su := Apply(s, updates);
    assert Apply(su, creates) == Effect(su, creates[0]);
    CreateStepInv(s0, su, apiId, d, all);
  }

  /** The update and create loop keeps the invariant. */
  lemma {:induction false} MatchCallsInv(s0: Store, apiId: Id, desired: seq<Plan>, all: seq<Plan>)
    requires UniquePlanIds(s0.plans)
    requires forall d :: d in desired ==> d in all
    ensures MatchInv(s0, Apply(s0, MatchCalls(apiId, desired, PublishedPlansOf(s0.plans, apiId))), apiId, all)
    decreases |desired|
  {
    var remote := PublishedPlansOf(s0.plans, apiId);
    if desired != [] {
      var front, d := desired[..|desired| - 1], desired[|desired| - 1];
      assert forall q :: q in front ==> q in desired;
      MatchCallsInv(s0, apiId, front, all);
      MatchCallsSplit(s0, apiId, desired);
      CallsForInv(s0, Apply(s0, MatchCalls(apiId, front, remote)), apiId, d, all);
    } else {
      assert Apply(s0, MatchCalls(apiId, desired, remote)) == s0;
    }
  }

  /** The store after the loop over desired is the store after its front, then the calls for its last plan. */
  lemma MatchCallsSplit(s0: Store, apiId: Id, desired: seq<Plan>)
    requires desired != []
    ensures var remote := PublishedPlansOf(s0.plans, apiId);
      Apply(s0, MatchCalls(apiId, desired, remote))
        == Apply(Apply(s0, MatchCalls(apiId, desired[..|desired| - 1], remote)), CallsFor(apiId, desired[|desired| - 1], remote))
  {
    var remote := PublishedPlansOf(s0.plans, apiId);
    ApplyAppend(s0, MatchCalls(apiId, desired[..|desired| - 1], remote), CallsFor(apiId, desired[|desired| - 1], remote));
  }

  /** After the update and create loop, every desired plan no listed plan names has a new plan of its name. */
  lemma {:induction false} MatchCallsCreates(s0: Store, apiId: Id, desired: seq<Plan>, all: seq<Plan>, d: Plan)
    requires UniquePlanIds(s0.plans)
    requires forall q :: q in desired ==> q in all
    requires d in desired && !HasPlanNamed(PublishedPlansOf(s0.plans, apiId), d.name)
    ensures CreatedNamed(s0, Apply(s0, MatchCalls(apiId, desired, PublishedPlansOf(s0.plans, apiId))), apiId, d.name)
    decreases |desired|
  {
    var front, last := desired[..|desired| - 1], desired[|desired| - 1];
    if d == last {
      MatchCallsCreatesLast(s0, apiId, desired, all);
    } else {
      assert desired == front + [last];
      assert forall q :: q in front ==> q in desired;
      MatchCallsCreates(s0, apiId, front, all, d);
      MatchCallsKeepsCreated(s0, apiId, desired, all, d.name);
    }
  }

  /** The calls for the last desired plan add a new plan of its name when nothing listed had it. */
  lemma MatchCallsCreatesLast(s0: Store, apiId: Id, desired: seq<Plan>, all: seq<Plan>)
    requires UniquePlanIds(s0.plans)
    requires forall q :: q in desired ==> q in all
    requires desired != [] && !HasPlanNamed(PublishedPlansOf(s0.plans, apiId), desired[|desired| - 1].name)
    ensures CreatedNamed(s0, Apply(s0, MatchCalls(apiId, desired, PublishedPlansOf(s0.plans, apiId))), apiId,
                         desired[|desired| - 1].name)
  {
    var remote := PublishedPlansOf(s0.plans, apiId);
    var front := desired[..|desired| - 1];
    assert forall q :: q in front ==> q in desired;
    MatchCallsInv(s0, apiId, front, all);
    MatchCallsSplit(s0, apiId, desired);
    CallsForCreates(s0, Apply(s0, MatchCalls(apiId, front, remote)), apiId, desired[|desired| - 1], all);
  }

  /** A new plan present after the loop over the front of desired is still there after the whole loop. */
  lemma MatchCallsKeepsCreated(s0: Store, apiId: Id, desired: seq<Plan>, all: seq<Plan>, name: string)
    requires UniquePlanIds(s0.plans)
    requires forall q :: q in desired ==> q in all
    requires desired != []
    requires CreatedNamed(s0, Apply(s0, MatchCalls(apiId, desired[..|desired| - 1], PublishedPlansOf(s0.plans, apiId))), apiId, name)
    ensures CreatedNamed(s0, Apply(s0, MatchCalls(apiId, desired, PublishedPlansOf(s0.plans, apiId))), apiId, name)
  {
    var remote := PublishedPlansOf(s0.plans, apiId);
    var front, last := desired[..|desired| - 1], desired[|desired| - 1];
    assert forall q :: q in front ==> q in desired;
    var sf := Apply(s0, MatchCalls(apiId, front, remote));
    MatchCallsInv(s0, apiId, front, all);
    MatchCallsSplit(s0, apiId, desired);
    CallsForInv(s0, sf, apiId, last, all);
    CreatedKept(s0, sf, Apply(sf, CallsFor(apiId, last, remote)), apiId, name);
  }

  // The retirement loop

  /** Whether x is the ID of a listed plan whose name is not desired. */
  predicate RetiredId(desired: seq<Plan>, remote: seq<PlanEntity>, x: Id) {
    exists r :: r in remote && !IsDesiredName(desired, r.name) && r.id == x
  }

  /** The retirement of one listed plan: nothing for a desired name, otherwise its close and delete remove its ID. */
  lemma RetireStepEffect(s: Store, desired: seq<Plan>, r: PlanEntity)
    requires UniquePlanIds(s.plans)
    ensures var s' := Apply(s, RetireStep(desired, r));
      && UniquePlanIds(s'.plans)
      && forall x :: FindPlanById(s'.plans, x)
           == (if !IsDesiredName(desired, r.name) && x == r.id then None else FindPlanById(s.plans, x))
  {
    if !IsDesiredName(desired, r.name) {
      var step := RetireStep(desired, r);
      var closed := Effect(s, ClosePlan(r.api, r.id));
      assert Apply(s, step) == Effect(closed, DeletePlan(r.api, r.id)) by {
        assert step[..1] == [ClosePlan(r.api, r.id)];
        assert step[..1][..0] == [];
        assert Apply(s, step[..1]) == closed;
      }
      ClosePlanEffect(s, r.api, r.id);
      DeletePlanEffect(closed, r.api, r.id);
    }
  }

  /** A plan listed last is retired exactly when its own name is not desired. */
  lemma RetiredIdSnoc(desired: seq<Plan>, front: seq<PlanEntity>, r: PlanEntity, x: Id)
    ensures RetiredId(desired, front + [r], x) == (RetiredId(desired, front, x) || (!IsDesiredName(desired, r.name) && x == r.id))
  {
    if RetiredId(desired, front + [r], x) {
      var q :| q in front + [r] && !IsDesiredName(desired, q.name) && q.id == x;
      if q != r {
        assert q in front;
      }
    }
    if RetiredId(desired, front, x) {
      var q :| q in front && !IsDesiredName(desired, q.name) && q.id == x;
      assert q in front + [r];
    }
    if !IsDesiredName(desired, r.name) && x == r.id {
      assert r in front + [r];
    }
  }

  /** The retirement loop removes exactly the listed plans whose names are not desired and changes nothing else. */
  lemma {:induction false} RetireCallsInv(s: Store, desired: seq<Plan>, remote: seq<PlanEntity>)
    requires UniquePlanIds(s.plans)
    ensures var s' := Apply(s, RetireCalls(desired, remote));
      && UniquePlanIds(s'.plans)
      && forall x :: FindPlanById(s'.plans, x) == (if RetiredId(desired, remote, x) then None else FindPlanById(s.plans, x))
    decreases |remote|
  {
    if remote != [] {
      var front, r := remote[..|remote| - 1], remote[|remote| - 1];
      RetireCallsInv(s, desired, front);
      var mid := Apply(s, RetireCalls(desired, front));
      ApplyAppend(s, RetireCalls(desired, front), RetireStep(desired, r));
      RetireStepEffect(mid, desired, r);
      assert remote == front + [r];
      forall x
        ensures RetiredId(desired, remote, x) == (RetiredId(desired, front, x) || (!IsDesiredName(desired, r.name) && x == r.id))
      {
        RetiredIdSnoc(desired, front, r, x);
      }
    }
  }

  // The end state

  /** After both loops, every published plan of the API carries a desired name. */
  lemma FinalNamesDesired(s0: Store, s1: Store, s2: Store, apiId: Id, desired: seq<Plan>)
    requires UniquePlanIds(s0.plans) && UniquePlanIds(s2.plans) && MatchInv(s0, s1, apiId, desired)
    requires forall x :: (FindPlanById(s2.plans, x)
      == if RetiredId(desired, PublishedPlansOf(s0.plans, apiId), x) then None else FindPlanById(s1.plans, x))
    ensures forall p :: p in s2.plans && p.api == apiId && p.status == Published ==> IsDesiredName(desired, p.name)
  {
    var remote := PublishedPlansOf(s0.plans, apiId);
    forall p | p in s2.plans && p.api == apiId && p.status == Published
      ensures IsDesiredName(desired, p.name)
    {
      FindPlanByIdUnique(s2.plans, p);
      assert FindPlanById(s1.plans, p.id) == Some(p) && !RetiredId(desired, remote, p.id);
      var q := FindPlanById(s0.plans, p.id);
      assert q.Some? ==> q.value in remote && q.value.name == p.name;
      assert q.Some? && !IsDesiredName(desired, p.name) ==> RetiredId(desired, remote, p.id);
    }
  }

  /** After both loops, every desired name is carried by a published plan of the API. */
  lemma FinalNamesCovered(s0: Store, s1: Store, s2: Store, apiId: Id, desired: seq<Plan>)
    requires UniquePlanIds(s0.plans) && MatchInv(s0, s1, apiId, desired)
    requires forall d :: d in desired && !HasPlanNamed(PublishedPlansOf(s0.plans, apiId), d.name) ==>
      CreatedNamed(s0, s1, apiId, d.name)
    requires forall x :: (FindPlanById(s2.plans, x)
      == if RetiredId(desired, PublishedPlansOf(s0.plans, apiId), x) then None else FindPlanById(s1.plans, x))
    ensures forall d :: d in desired ==> HasPlanNamed(PublishedPlansOf(s2.plans, apiId), d.name)
  {
    var remote := PublishedPlansOf(s0.plans, apiId);
    forall d | d in desired
      ensures HasPlanNamed(PublishedPlansOf(s2.plans, apiId), d.name)
    {
      if HasPlanNamed(remote, d.name) {
        var r :| r in remote && r.name == d.name;
        FindPlanByIdUnique(s0.plans, r);
        forall r' | r' in remote && r'.id == r.id
          ensures r' == r
        {
          FindPlanByIdUnique(s0.plans, r');
        }
        assert !RetiredId(desired, remote, r.id);
        var p := FindPlanById(s1.plans, r.id).value;
        assert p in PublishedPlansOf(s2.plans, apiId);
      } else {
        var x :| && FindPlanById(s0.plans, x).None? && FindPlanById(s1.plans, x).Some?
                 && FindPlanById(s1.plans, x).value.api == apiId
                 && FindPlanById(s1.plans, x).value.status == Published
                 && FindPlanById(s1.plans, x).value.name == d.name;
        forall r | r in remote
          ensures r.id != x
        {
          FindPlanByIdUnique(s0.plans, r);
        }
        assert !RetiredId(desired, remote, x);
        assert FindPlanById(s1.plans, x).value in PublishedPlansOf(s2.plans, apiId);
      }
    }
  }

  /**
   * A plan sync that completes on a store with unique plan IDs converges:
   * afterwards the API's published plans carry exactly the desired names,
   * and the plan IDs are still unique.
   */
  lemma UpdateAPIPlansConverges(t: Trace, apiId: Id, desired: seq<Plan>)
    requires UniquePlanIds(t.store.plans)
    ensures var r := UpdateAPIPlansRun(t, apiId, desired);
      r.out.Ok? ==>
        && UniquePlanIds(r.trace.store.plans)
        && forall n :: HasPlanNamed(PublishedPlansOf(r.trace.store.plans, apiId), n) <==> IsDesiredName(desired, n)
  {
    var r := UpdateAPIPlansRun(t, apiId, desired);
    if r.out.Ok? {
      var s0 := t.store;
      var t1 := Issue(t, ListPlans(apiId));
      assert t1.store == s0;
      var remote := PublishedPlansOf(s0.plans, apiId);
      var m, rt := MatchCalls(apiId, desired, remote), RetireCalls(desired, remote);
      IssueAllStore(t1, m + rt);
      ApplyAppend(s0, m, rt);
      MatchCallsInv(s0, apiId, desired, desired);
      var s1 := Apply(s0, m);
      forall d | d in desired && !HasPlanNamed(remote, d.name)
        ensures CreatedNamed(s0, s1, apiId, d.name)
      {
        MatchCallsCreates(s0, apiId, desired, desired, d);
      }
      RetireCallsInv(s1, desired, remote);
      var s2 := Apply(s1, rt);
      assert r.trace.store == s2;
      FinalNamesDesired(s0, s1, s2, apiId, desired);
      FinalNamesCovered(s0, s1, s2, apiId, desired);
    }
  }
}
