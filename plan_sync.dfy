/**
 * UpdateAPIPlans: the synchroniser of an endpoint's access plans. Desired
 * plans are matched against the API's listed plans by plan name: every
 * matching remote plan is updated, a desired plan with no match is
 * created, and a remote plan whose name no desired plan carries is closed
 * and then deleted.
 *
 * The calls the pass issues after listing are a pure function of the
 * desired plans and the listing (PlanWrites); the method issues them one by
 * one and aborts the pass at the first refused one.
 */
module PlanSync {
  import opened Types
  import opened Gateway
  import opened StubHelpers

  /** The create body for a desired plan: published, of type API, validated automatically. */
  function NewPlanFor(apiId: Id, d: Plan): NewPlan {
    NewPlan(apiId, d.description, d.name, d.security, d.securityDefinition, Published, "API", "AUTO")
  }

  /** The update body: the desired texts, with the remote plan's tags, order and validation. */
  function PlanUpdateFor(d: Plan, r: PlanEntity): PlanUpdate {
    PlanUpdate(d.description, d.name, d.securityDefinition, r.tags, r.order, r.validation)
  }

  /** The inner loop over the listing: one update per remote plan carrying d's name. */
  function UpdatesFor(apiId: Id, d: Plan, remote: seq<PlanEntity>): seq<Call>
    decreases |remote|
  {
    if remote == [] then []
    else
      var r := remote[|remote| - 1];
      UpdatesFor(apiId, d, remote[..|remote| - 1])
        + (if r.name == d.name then [UpdatePlan(apiId, r.id, PlanUpdateFor(d, r))] else [])
  }

  /** The calls for one desired plan: its updates, then a create when nothing matched. */
  function CallsFor(apiId: Id, d: Plan, remote: seq<PlanEntity>): seq<Call> {
    UpdatesFor(apiId, d, remote)
      + (if HasPlanNamed(remote, d.name) then [] else [CreatePlan(apiId, NewPlanFor(apiId, d))])
  }

  /** The first loop: the calls for each desired plan, in order. */
  function MatchCalls(apiId: Id, desired: seq<Plan>, remote: seq<PlanEntity>): seq<Call>
    decreases |desired|
  {
    if desired == [] then []
    else MatchCalls(apiId, desired[..|desired| - 1], remote) + CallsFor(apiId, desired[|desired| - 1], remote)
  }

  /** Close then delete a remote plan whose name is not desired; nothing for a desired one. */
  function RetireStep(desired: seq<Plan>, r: PlanEntity): seq<Call> {
    if IsDesiredName(desired, r.name) then [] else [ClosePlan(r.api, r.id), DeletePlan(r.api, r.id)]
  }

  /** The second loop: the retirement of each listed plan, in listing order. */
  function RetireCalls(desired: seq<Plan>, remote: seq<PlanEntity>): seq<Call>
    decreases |remote|
  {
    if remote == [] then []
    else RetireCalls(desired, remote[..|remote| - 1]) + RetireStep(desired, remote[|remote| - 1])
  }

  /** Every write the synchroniser issues after listing, in issue order. */
  function PlanWrites(apiId: Id, desired: seq<Plan>, remote: seq<PlanEntity>): seq<Call> {
    MatchCalls(apiId, desired, remote) + RetireCalls(desired, remote)
  }

  /**
   * One run of UpdateAPIPlans against the collaborators. A refused listing
   * leaves the listing result nil, which the loops dereference: the pass
   * aborts. A refused write aborts the pass too. Otherwise the result is nil.
   */
  function UpdateAPIPlansRun(t: Trace, apiId: Id, desired: seq<Plan>): Run {
    var list := ListPlans(apiId);
    var t1 := Issue(t, list);
    if !Accepted(t, list) then Run(t1, Panic)
    else
      var p := IssueAll(t1, PlanWrites(apiId, desired, PublishedPlansOf(t.store.plans, apiId)));
      Run(p.trace, if p.ok then Ok else Panic)
  }

  // What the call lists contain

  lemma {:induction false} UpdatesForMembers(apiId: Id, d: Plan, remote: seq<PlanEntity>)
    ensures forall c :: c in UpdatesFor(apiId, d, remote) <==>
              exists r :: r in remote && r.name == d.name && c == UpdatePlan(apiId, r.id, PlanUpdateFor(d, r))
    decreases |remote|
  {
    if remote != [] {
      var front, r := remote[..|remote| - 1], remote[|remote| - 1];
      UpdatesForMembers(apiId, d, front);
      assert remote == front + [r];
    }
  }

  lemma {:induction false} MatchCallsMembers(apiId: Id, desired: seq<Plan>, remote: seq<PlanEntity>)
    ensures forall c :: c in MatchCalls(apiId, desired, remote) <==>
              || (exists d, r :: d in desired && r in remote && r.name == d.name
                                 && c == UpdatePlan(apiId, r.id, PlanUpdateFor(d, r)))
              || (exists d :: d in desired && !HasPlanNamed(remote, d.name)
                              && c == CreatePlan(apiId, NewPlanFor(apiId, d)))
    decreases |desired|
  {
    if desired != [] {
      var front, d := desired[..|desired| - 1], desired[|desired| - 1];
      MatchCallsMembers(apiId, front, remote);
      UpdatesForMembers(apiId, d, remote);
      assert desired == front + [d];
    }
  }

  lemma {:induction false} RetireCallsMembers(desired: seq<Plan>, remote: seq<PlanEntity>)
    ensures forall c :: c in RetireCalls(desired, remote) <==>
              exists r :: r in remote && !IsDesiredName(desired, r.name)
                          && (c == ClosePlan(r.api, r.id) || c == DeletePlan(r.api, r.id))
    decreases |remote|
  {
    if remote != [] {
      var front, r := remote[..|remote| - 1], remote[|remote| - 1];
      RetireCallsMembers(desired, front);
      assert remote == front + [r];
    }
  }

  /** Updates and creates only. */
  predicate UpdatesAndCreates(w: seq<Call>) {
    forall k :: 0 <= k < |w| ==> w[k].UpdatePlan? || w[k].CreatePlan?
  }

  /** Closes and deletes only. */
  predicate ClosesAndDeletes(w: seq<Call>) {
    forall k :: 0 <= k < |w| ==> w[k].ClosePlan? || w[k].DeletePlan?
  }

  /** Every close is immediately followed by the delete of the same plan, every delete preceded by its close. */
  predicate RetiredInPairs(w: seq<Call>) {
    && (forall k :: 0 <= k < |w| && w[k].ClosePlan? ==> k + 1 < |w| && w[k + 1] == DeletePlan(w[k].api, w[k].plan))
    && (forall k :: 0 <= k < |w| && w[k].DeletePlan? ==> 0 < k && w[k - 1] == ClosePlan(w[k].api, w[k].plan))
  }

  /** Closes and deletes only, each close immediately followed by the delete of the same plan. */
  predicate ClosedThenDeleted(w: seq<Call>) {
    ClosesAndDeletes(w) && RetiredInPairs(w)
  }

  lemma ClosedThenDeletedAppend(a: seq<Call>, b: seq<Call>)
    requires ClosedThenDeleted(a) && ClosedThenDeleted(b)
    ensures ClosedThenDeleted(a + b)
  {
    var w := a + b;
    forall k | 0 <= k < |w|
      ensures w[k].ClosePlan? || w[k].DeletePlan?
      ensures w[k].ClosePlan? ==> k + 1 < |w| && w[k + 1] == DeletePlan(w[k].api, w[k].plan)
      ensures w[k].DeletePlan? ==> 0 < k && w[k - 1] == ClosePlan(w[k].api, w[k].plan)
    {
      if k < |a| {
        assert w[k] == a[k];
        if k + 1 < |a| {
          assert w[k + 1] == a[k + 1];
        }
        if 0 < k {
          assert w[k - 1] == a[k - 1];
        }
      } else {
        assert w[k] == b[k - |a|];
        if k + 1 < |w| {
          assert w[k + 1] == b[k + 1 - |a|];
        }
        if k - 1 >= |a| {
          assert w[k - 1] == b[k - 1 - |a|];
        }
      }
    }
  }

  /** The retirement list is made of close-then-delete pairs. */
  lemma {:induction false} RetireCallsPairs(desired: seq<Plan>, remote: seq<PlanEntity>)
    ensures ClosedThenDeleted(RetireCalls(desired, remote))
    decreases |remote|
  {
    if remote != [] {
      var front, r := remote[..|remote| - 1], remote[|remote| - 1];
      RetireCallsPairs(desired, front);
      ClosedThenDeletedAppend(RetireCalls(desired, front), RetireStep(desired, r));
    }
  }

  /** The CreatePlan calls of a list, in order. */
  function Creates(calls: seq<Call>): seq<Call>
    decreases |calls|
  {
    if calls == [] then []
    else
      var c := calls[|calls| - 1];
      Creates(calls[..|calls| - 1]) + (if c.CreatePlan? then [c] else [])
  }

  lemma {:induction false} CreatesAppend(a: seq<Call>, b: seq<Call>)
    ensures Creates(a + b) == Creates(a) + Creates(b)
    decreases |b|
  {
    if b == [] {
      assert a + b == a;
    } else {
      assert (a + b)[..|a + b| - 1] == a + b[..|b| - 1];
      CreatesAppend(a, b[..|b| - 1]);
    }
  }

  lemma {:induction false} CreatesNone(calls: seq<Call>)
    requires forall c :: c in calls ==> !c.CreatePlan?
    ensures Creates(calls) == []
    decreases |calls|
  {
    if calls != [] {
      assert calls[|calls| - 1] in calls;
      CreatesNone(calls[..|calls| - 1]);
    }
  }

  /** The creates of a list are calls of the list. */
  lemma {:induction false} CreatesMembers(calls: seq<Call>)
    ensures forall c :: c in Creates(calls) <==> c in calls && c.CreatePlan?
    decreases |calls|
  {
    if calls != [] {
      CreatesMembers(calls[..|calls| - 1]);
      assert calls == calls[..|calls| - 1] + [calls[|calls| - 1]];
    }
  }

  /** The desired plans no listed plan matches by name, in desired order. */
  function Unmatched(desired: seq<Plan>, remote: seq<PlanEntity>): (u: seq<Plan>)
    ensures forall d :: d in u <==> d in desired && !HasPlanNamed(remote, d.name)
    decreases |desired|
  {
    if desired == [] then []
    else
      var d := desired[|desired| - 1];
      assert desired == desired[..|desired| - 1] + [d];
      Unmatched(desired[..|desired| - 1], remote) + (if HasPlanNamed(remote, d.name) then [] else [d])
  }

  /** One create per plan of the list, in order. */
  function CreatesOf(apiId: Id, u: seq<Plan>): (r: seq<Call>)
    ensures |r| == |u|
    decreases |u|
  {
    if u == [] then []
    else CreatesOf(apiId, u[..|u| - 1]) + [CreatePlan(apiId, NewPlanFor(apiId, u[|u| - 1]))]
  }

  lemma CallsForCreates(apiId: Id, d: Plan, remote: seq<PlanEntity>)
    ensures Creates(CallsFor(apiId, d, remote))
            == (if HasPlanNamed(remote, d.name) then [] else [CreatePlan(apiId, NewPlanFor(apiId, d))])
  {
    var create := if HasPlanNamed(remote, d.name) then [] else [CreatePlan(apiId, NewPlanFor(apiId, d))];
    UpdatesForMembers(apiId, d, remote);
    CreatesNone(UpdatesFor(apiId, d, remote));
    CreatesAppend(UpdatesFor(apiId, d, remote), create);
    if create != [] {
      assert create == [] + [create[0]];
    }
  }

  lemma {:induction false} MatchCallsCreates(apiId: Id, desired: seq<Plan>, remote: seq<PlanEntity>)
    ensures Creates(MatchCalls(apiId, desired, remote)) == CreatesOf(apiId, Unmatched(desired, remote))
    decreases |desired|
  {
    if desired != [] {
      var front, d := desired[..|desired| - 1], desired[|desired| - 1];
      var u := Unmatched(front, remote);
      var create := if HasPlanNamed(remote, d.name) then [] else [CreatePlan(apiId, NewPlanFor(apiId, d))];
      MatchCallsCreates(apiId, front, remote);
      CallsForCreates(apiId, d, remote);
      CreatesAppend(MatchCalls(apiId, front, remote), CallsFor(apiId, d, remote));
      assert Creates(MatchCalls(apiId, desired, remote)) == CreatesOf(apiId, u) + create;
      if HasPlanNamed(remote, d.name) {
        assert Unmatched(desired, remote) == u;
      } else {
        assert Unmatched(desired, remote) == u + [d];
        assert (u + [d])[..|u|] == u;
      }
    }
  }

  lemma CallsForKinds(apiId: Id, d: Plan, remote: seq<PlanEntity>)
    ensures forall c :: c in CallsFor(apiId, d, remote) ==> c.UpdatePlan? || c.CreatePlan?
  {
    UpdatesForMembers(apiId, d, remote);
  }

  /** The first loop issues updates and creates only. */
  lemma {:induction false} MatchCallsKinds(apiId: Id, desired: seq<Plan>, remote: seq<PlanEntity>)
    ensures UpdatesAndCreates(MatchCalls(apiId, desired, remote))
    decreases |desired|
  {
    if desired != [] {
      var front, d := desired[..|desired| - 1], desired[|desired| - 1];
      MatchCallsKinds(apiId, front, remote);
      CallsForKinds(apiId, d, remote);
      var m0, calls := MatchCalls(apiId, front, remote), CallsFor(apiId, d, remote);
      var m: seq<Call> := m0 + calls;
      assert MatchCalls(apiId, desired, remote) == m;
      forall k | 0 <= k < |m|
        ensures m[k].UpdatePlan? || m[k].CreatePlan?
      {
        if |m0| <= k {
          var c := calls[k - |m0|];
          assert c in calls;
          assert c.UpdatePlan? || c.CreatePlan?;
          assert m[k] == c;
        } else {
          assert m[k] == m0[k];
        }
      }
    }
  }

  // Properties of the synchroniser's writes

  /**
   * Each desired plan that no listed plan matches by name gets exactly one
   * create, in desired order, and every create is a published API plan
   * with automatic validation carrying the desired plan's texts.
   */
  lemma PlanWritesCreates(apiId: Id, desired: seq<Plan>, remote: seq<PlanEntity>)
    ensures Creates(PlanWrites(apiId, desired, remote)) == CreatesOf(apiId, Unmatched(desired, remote))
    ensures forall c :: c in PlanWrites(apiId, desired, remote) && c.CreatePlan? ==>
              && c.api == apiId && c.newPlan.api == apiId
              && c.newPlan.status == Published && c.newPlan.planType == "API" && c.newPlan.validation == "AUTO"
              && exists d :: d in desired && !HasPlanNamed(remote, d.name)
                             && c.newPlan.name == d.name && c.newPlan.description == d.description
                             && c.newPlan.security == d.security && c.newPlan.securityDefinition == d.securityDefinition
  {
    MatchCallsCreates(apiId, desired, remote);
    MatchCallsMembers(apiId, desired, remote);
    CreatesMembers(PlanWrites(apiId, desired, remote));
    RetireCallsMembers(desired, remote);
    CreatesNone(RetireCalls(desired, remote));
    CreatesAppend(MatchCalls(apiId, desired, remote), RetireCalls(desired, remote));
  }

  /**
   * A listed plan is updated exactly when a desired plan carries its name;
   * the update sends the desired description, name and security definition
   * and keeps the listed plan's tags, order and validation.
   */
  lemma PlanWritesUpdates(apiId: Id, desired: seq<Plan>, remote: seq<PlanEntity>)
    ensures forall c :: c in PlanWrites(apiId, desired, remote) && c.UpdatePlan? <==>
              exists d, r :: d in desired && r in remote && r.name == d.name
                             && c == UpdatePlan(apiId, r.id, PlanUpdate(d.description, d.name, d.securityDefinition,
                                                                        r.tags, r.order, r.validation))
  {
    MatchCallsMembers(apiId, desired, remote);
    RetireCallsMembers(desired, remote);
    forall c: Call | c.UpdatePlan?
      ensures c in PlanWrites(apiId, desired, remote) <==> c in MatchCalls(apiId, desired, remote)
    {
      assert c !in RetireCalls(desired, remote);
    }
  }

  /**
   * A listed plan is retired exactly when its name matches no desired plan;
   * retirement is a close immediately followed by the delete of the same
   * plan, and every create or update comes before every close or delete.
   */
  lemma PlanWritesRetires(apiId: Id, desired: seq<Plan>, remote: seq<PlanEntity>)
    ensures forall r :: r in remote && !IsDesiredName(desired, r.name) ==>
              ClosePlan(r.api, r.id) in PlanWrites(apiId, desired, remote)
              && DeletePlan(r.api, r.id) in PlanWrites(apiId, desired, remote)
    ensures forall c :: c in PlanWrites(apiId, desired, remote) && (c.ClosePlan? || c.DeletePlan?) ==>
              exists r :: r in remote && !IsDesiredName(desired, r.name) && r.api == c.api && r.id == c.plan
  {
    MatchCallsMembers(apiId, desired, remote);
    RetireCallsMembers(desired, remote);
  }

  /** The list is a run of updates and creates followed by a run of closes and deletes. */
  predicate RetirementsLast(w: seq<Call>) {
    exists n :: 0 <= n <= |w| && UpdatesAndCreates(w[..n]) && ClosesAndDeletes(w[n..])
  }

  /**
   * Retirement is a close immediately followed by the delete of the same
   * plan, and every create or update comes before every close or delete.
   */
  lemma PlanWritesOrder(apiId: Id, desired: seq<Plan>, remote: seq<PlanEntity>)
    ensures RetiredInPairs(PlanWrites(apiId, desired, remote))
    ensures RetirementsLast(PlanWrites(apiId, desired, remote))
  {
    var m, rt := MatchCalls(apiId, desired, remote), RetireCalls(desired, remote);
    MatchCallsKinds(apiId, desired, remote);
    RetireCallsPairs(desired, remote);
    var w := m + rt;
    assert PlanWrites(apiId, desired, remote) == w;
    forall k {:trigger w[k]} | 0 <= k < |w|
      ensures w[k].ClosePlan? ==> k + 1 < |w| && w[k + 1] == DeletePlan(w[k].api, w[k].plan)
      ensures w[k].DeletePlan? ==> 0 < k && w[k - 1] == ClosePlan(w[k].api, w[k].plan)
      ensures |m| <= k ==> w[k].ClosePlan? || w[k].DeletePlan?
    {
      if k < |m| {
        assert w[k] == m[k];
      } else {
        assert w[k] == rt[k - |m|];
        if k + 1 < |w| {
          assert w[k + 1] == rt[k + 1 - |m|];
        }
        if k - 1 >= |m| {
          assert w[k - 1] == rt[k - 1 - |m|];
        }
      }
    }
    assert w[..|m|] == m && w[|m|..] == rt;
  }

  // Prefixes of the call lists

  lemma UpdatesForStep(apiId: Id, d: Plan, remote: seq<PlanEntity>, j: nat)
    requires j < |remote|
    ensures UpdatesFor(apiId, d, remote[..j + 1])
            == UpdatesFor(apiId, d, remote[..j])
               + (if remote[j].name == d.name then [UpdatePlan(apiId, remote[j].id, PlanUpdateFor(d, remote[j]))] else [])
    ensures HasPlanNamed(remote[..j + 1], d.name) <==> HasPlanNamed(remote[..j], d.name) || remote[j].name == d.name
  {
    assert remote[..j + 1][..j] == remote[..j];
    assert remote[..j + 1] == remote[..j] + [remote[j]];
  }

  lemma {:induction false} UpdatesForPrefix(apiId: Id, d: Plan, remote: seq<PlanEntity>, j: nat)
    requires j <= |remote|
    ensures UpdatesFor(apiId, d, remote[..j]) <= UpdatesFor(apiId, d, remote)
    decreases |remote|
  {
    if j < |remote| {
      UpdatesForPrefix(apiId, d, remote[..|remote| - 1], j);
      assert remote[..|remote| - 1][..j] == remote[..j];
    } else {
      assert remote[..j] == remote;
    }
  }

  lemma {:induction false} MatchCallsPrefix(apiId: Id, desired: seq<Plan>, remote: seq<PlanEntity>, i: nat)
    requires i <= |desired|
    ensures MatchCalls(apiId, desired[..i], remote) <= MatchCalls(apiId, desired, remote)
    decreases |desired|
  {
    if i < |desired| {
      MatchCallsPrefix(apiId, desired[..|desired| - 1], remote, i);
      assert desired[..|desired| - 1][..i] == desired[..i];
    } else {
      assert desired[..i] == desired;
    }
  }

  lemma {:induction false} RetireCallsPrefix(desired: seq<Plan>, remote: seq<PlanEntity>, k: nat)
    requires k <= |remote|
    ensures RetireCalls(desired, remote[..k]) <= RetireCalls(desired, remote)
    decreases |remote|
  {
    if k < |remote| {
      RetireCallsPrefix(desired, remote[..|remote| - 1], k);
      assert remote[..|remote| - 1][..k] == remote[..k];
    } else {
      assert remote[..k] == remote;
    }
  }

  /** The inner loop of the first pass: update every listed plan carrying d's name. */
  method IssueUpdates(b: Backend, apiId: Id, d: Plan, remote: seq<PlanEntity>) returns (ok: bool, found: bool)
    modifies b
    ensures IssueAll(old(b.Snapshot()), UpdatesFor(apiId, d, remote)) == Progress(b.Snapshot(), ok)
    ensures ok ==> (found <==> HasPlanNamed(remote, d.name))
  {
    ghost var t0 := b.Snapshot();
    found := false;
    var j := 0;
    while j < |remote|
      invariant 0 <= j <= |remote|
      invariant found <==> HasPlanNamed(remote[..j], d.name)
      invariant IssueAll(t0, UpdatesFor(apiId, d, remote[..j])) == Progress(b.Snapshot(), true)
    {
      var r := remote[j];
      UpdatesForStep(apiId, d, remote, j);
      if d.name == r.name {
        found := true;
        ok := IssueNext(b, t0, UpdatesFor(apiId, d, remote[..j]), UpdatePlan(apiId, r.id, PlanUpdateFor(d, r)));
        if !ok {
          UpdatesForPrefix(apiId, d, remote, j + 1);
          IssueAllHalted(t0, UpdatesFor(apiId, d, remote[..j + 1]), UpdatesFor(apiId, d, remote));
          return;
        }
      } else {
        assert UpdatesFor(apiId, d, remote[..j + 1]) == UpdatesFor(apiId, d, remote[..j]);
      }
      j := j + 1;
    }
    assert remote[..j] == remote;
    ok := true;
  }

  /** One iteration of the first loop: the updates for d, then its create when nothing matched. */
  method SyncPlan(b: Backend, apiId: Id, d: Plan, remote: seq<PlanEntity>) returns (ok: bool)
    modifies b
    ensures IssueAll(old(b.Snapshot()), CallsFor(apiId, d, remote)) == Progress(b.Snapshot(), ok)
  {
    ghost var t0 := b.Snapshot();
    var found;
    ok, found := IssueUpdates(b, apiId, d, remote);
    var create := if HasPlanNamed(remote, d.name) then [] else [CreatePlan(apiId, NewPlanFor(apiId, d))];
    IssueAllAppend(t0, UpdatesFor(apiId, d, remote), create);
    if ok && !found {
      ok := IssueNext(b, t0, UpdatesFor(apiId, d, remote), CreatePlan(apiId, NewPlanFor(apiId, d)));
    }
  }

  /** One iteration of the second loop: look the name up among the desired plans, retire if absent. */
  method RetirePlan(b: Backend, desired: seq<Plan>, r: PlanEntity) returns (ok: bool)
    modifies b
    ensures IssueAll(old(b.Snapshot()), RetireStep(desired, r)) == Progress(b.Snapshot(), ok)
  {
    ghost var t0 := b.Snapshot();
    var found := false;
    var m := 0;
    while m < |desired|
      invariant 0 <= m <= |desired|
      invariant found <==> IsDesiredName(desired[..m], r.name)
    {
      assert desired[..m + 1] == desired[..m] + [desired[m]];
      if desired[m].name == r.name {
        found := true;
      }
      m := m + 1;
    }
    assert desired[..m] == desired;
    ok := true;
    if !found {
      var close, delete := ClosePlan(r.api, r.id), DeletePlan(r.api, r.id);
      assert RetireStep(desired, r) == [] + [close] + [delete];
      ok := IssueNext(b, t0, [], close);
      if ok {
        ok := IssueNext(b, t0, [close], delete);
      } else {
        IssueAllHalted(t0, [close], RetireStep(desired, r));
      }
    }
  }

  /** The first loop: for each desired plan, its updates and possibly its create. */
  method IssueMatchCalls(b: Backend, apiId: Id, desired: seq<Plan>, remote: seq<PlanEntity>) returns (ok: bool)
    modifies b
    ensures IssueAll(old(b.Snapshot()), MatchCalls(apiId, desired, remote)) == Progress(b.Snapshot(), ok)
  {
    ghost var t0 := b.Snapshot();
    var i := 0;
    while i < |desired|
      invariant 0 <= i <= |desired|
      invariant IssueAll(t0, MatchCalls(apiId, desired[..i], remote)) == Progress(b.Snapshot(), true)
    {
      assert desired[..i + 1][..i] == desired[..i];
      IssueAllAppend(t0, MatchCalls(apiId, desired[..i], remote), CallsFor(apiId, desired[i], remote));
      ok := SyncPlan(b, apiId, desired[i], remote);
      if !ok {
        MatchCallsPrefix(apiId, desired, remote, i + 1);
        IssueAllHalted(t0, MatchCalls(apiId, desired[..i + 1], remote), MatchCalls(apiId, desired, remote));
        return;
      }
      i := i + 1;
    }
    assert desired[..i] == desired;
    ok := true;
  }

  /** The second loop: retire each listed plan whose name is not desired. */
  method IssueRetireCalls(b: Backend, desired: seq<Plan>, remote: seq<PlanEntity>) returns (ok: bool)
    modifies b
    ensures IssueAll(old(b.Snapshot()), RetireCalls(desired, remote)) == Progress(b.Snapshot(), ok)
  {
    ghost var t0 := b.Snapshot();
    var k := 0;
    while k < |remote|
      invariant 0 <= k <= |remote|
      invariant IssueAll(t0, RetireCalls(desired, remote[..k])) == Progress(b.Snapshot(), true)
    {
      assert remote[..k + 1][..k] == remote[..k];
      IssueAllAppend(t0, RetireCalls(desired, remote[..k]), RetireStep(desired, remote[k]));
      ok := RetirePlan(b, desired, remote[k]);
      if !ok {
        RetireCallsPrefix(desired, remote, k + 1);
        IssueAllHalted(t0, RetireCalls(desired, remote[..k + 1]), RetireCalls(desired, remote));
        return;
      }
      k := k + 1;
    }
    assert remote[..k] == remote;
    ok := true;
  }

  /**
   * The imperative synchroniser over the collaborators: list the API's
   * plans, update or create, then retire.
   */
  method UpdateAPIPlans(b: Backend, apiId: Id, desired: seq<Plan>) returns (out: Outcome)
    modifies b
    ensures b.Snapshot() == UpdateAPIPlansRun(old(b.Snapshot()), apiId, desired).trace
    ensures out == UpdateAPIPlansRun(old(b.Snapshot()), apiId, desired).out
  {
    var ok, reply := b.Invoke(ListPlans(apiId));
    if !ok {
      return Panic;
    }
    var remote := reply.plans;
    ghost var t1 := b.Snapshot();
    IssueAllAppend(t1, MatchCalls(apiId, desired, remote), RetireCalls(desired, remote));
    ok := IssueMatchCalls(b, apiId, desired, remote);
    if !ok {
      return Panic;
    }
    ok := IssueRetireCalls(b, desired, remote);
    out := if ok then Ok else Panic;
  }

  lemma UpdateAPIPlansExtends(t: Trace, apiId: Id, desired: seq<Plan>)
    ensures Extends(t, UpdateAPIPlansRun(t, apiId, desired).trace)
  {
    var t1 := Issue(t, ListPlans(apiId));
    IssueExtends(t, ListPlans(apiId));
    var calls := PlanWrites(apiId, desired, PublishedPlansOf(t.store.plans, apiId));
    IssueAllExtends(t1, calls);
    ExtendsTrans(t, t1, IssueAll(t1, calls).trace);
  }

  /** A sync that completes issued the listing and then every write, in order, and nothing else. */
  lemma UpdateAPIPlansCalls(t: Trace, apiId: Id, desired: seq<Plan>)
    ensures var r := UpdateAPIPlansRun(t, apiId, desired);
      r.out.Ok? ==> Since(t, r.trace) == [ListPlans(apiId)] + PlanWrites(apiId, desired, PublishedPlansOf(t.store.plans, apiId))
  {
    var t1 := Issue(t, ListPlans(apiId));
    IssueExtends(t, ListPlans(apiId));
    var calls := PlanWrites(apiId, desired, PublishedPlansOf(t.store.plans, apiId));
    IssueAllExtends(t1, calls);
    SinceSplit(t, t1, IssueAll(t1, calls).trace);
  }
}
