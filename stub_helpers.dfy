/**
 * The pure helpers of the Gravitee stubs: the string-slice helpers used for
 * finalizers, the exactly-one selection of an API search, the first-match
 * plan lookup, and the business keys used to match subscriptions.
 */
module StubHelpers {
  import opened Types
  import opened Gateway

  /** containsString: whether s occurs in the slice. */
  function ContainsString(slice: seq<string>, s: string): (r: bool)
    ensures r <==> s in slice
  {
    if slice == [] then false
    else if slice[0] == s then true
    else ContainsString(slice[1..], s)
  }

  /** removeString: the slice without any occurrence of s, the rest in order. */
  function RemoveString(slice: seq<string>, s: string): (r: seq<string>)
    ensures s !in r
    ensures forall x :: x in r <==> x in slice && x != s
    ensures multiset(r) == multiset(slice)[s := 0]
  {
    if slice == [] then []
    else
      var last := slice[|slice| - 1];
      assert slice == slice[..|slice| - 1] + [last];
      RemoveString(slice[..|slice| - 1], s) + (if last == s then [] else [last])
  }

  /** Removal works element by element: it distributes over concatenation, so order is kept. */
  lemma {:induction false} RemoveStringAppend(a: seq<string>, b: seq<string>, s: string)
    ensures RemoveString(a + b, s) == RemoveString(a, s) + RemoveString(b, s)
    decreases |b|
  {
    if b == [] {
      assert a + b == a;
    } else {
      var last := b[|b| - 1];
      assert (a + b)[..|a + b| - 1] == a + b[..|b| - 1];
      RemoveStringAppend(a, b[..|b| - 1], s);
    }
  }

  /** Removing an absent string is the identity. */
  lemma {:induction false} RemoveStringAbsent(slice: seq<string>, s: string)
    requires s !in slice
    ensures RemoveString(slice, s) == slice
    decreases |slice|
  {
    if slice != [] {
      RemoveStringAbsent(slice[..|slice| - 1], s);
      assert slice == slice[..|slice| - 1] + [slice[|slice| - 1]];
    }
  }

  /** SearchAPI's selection: a result only when exactly one API matched. */
  function SingleMatch(apis: seq<ApiEntity>): (r: Option<ApiEntity>)
    ensures r.Some? <==> |apis| == 1
    ensures r.Some? ==> r.value in apis
  {
    if |apis| == 1 then Some(apis[0]) else None
  }

  /** p is the first plan of the list carrying the name. */
  predicate IsFirstNamed(plans: seq<PlanEntity>, p: PlanEntity, name: string) {
    exists i :: 0 <= i < |plans| && plans[i] == p && p.name == name
                && forall j :: 0 <= j < i ==> plans[j].name != name
  }

  /** GetPlanByName's loop: the first listed plan with the name. */
  function FirstPlanNamed(plans: seq<PlanEntity>, name: string): (r: Option<PlanEntity>)
    ensures r.None? <==> forall p :: p in plans ==> p.name != name
    ensures r.Some? ==> IsFirstNamed(plans, r.value, name)
  {
    if plans == [] then None
    else if plans[0].name == name then Some(plans[0])
    else
      var r := FirstPlanNamed(plans[1..], name);
      if r.Some? then
        var k :| 0 <= k < |plans[1..]| && plans[1..][k] == r.value && r.value.name == name
                 && forall j :: 0 <= j < k ==> plans[1..][j].name != name;
        assert plans[k + 1] == r.value;
        r
      else
        r
  }

  /** The business key of a subscription: context path and plan name joined by a dash. */
  function SubscriptionKey(contextPath: string, planName: string): string {
    contextPath + "-" + planName
  }

  function DesiredKey(sub: APISubscription): string {
    SubscriptionKey(sub.apiContextPath, sub.apiPlanName)
  }

  /** The key is a plain concatenation: distinct (path, plan) pairs can share it. */
  lemma SubscriptionKeyCollides()
    ensures SubscriptionKey("/a", "b-c") == SubscriptionKey("/a-b", "c")
  {
  }

  /** Position of the first dash in s, |s| when there is none. */
  function FirstDash(s: string): (r: nat)
    ensures r <= |s|
    ensures forall i :: 0 <= i < r ==> s[i] != '-'
    ensures r < |s| ==> s[r] == '-'
  {
    if s == [] then 0
    else if s[0] == '-' then 0
    else 1 + FirstDash(s[1..])
  }

  /** In a key whose context path has no dash, the first dash is the separator. */
  lemma {:induction false} FirstDashOfKey(p: string, q: string)
    requires '-' !in p
    ensures FirstDash(SubscriptionKey(p, q)) == |p|
    decreases |p|
  {
    if p != [] {
      assert SubscriptionKey(p, q)[1..] == SubscriptionKey(p[1..], q);
      FirstDashOfKey(p[1..], q);
    }
  }

  /** Without a dash in the context paths the key does identify the pair. */
  lemma SubscriptionKeyInjective(p1: string, q1: string, p2: string, q2: string)
    requires '-' !in p1 && '-' !in p2
    requires SubscriptionKey(p1, q1) == SubscriptionKey(p2, q2)
    ensures p1 == p2 && q1 == q2
  {
    var k1, k2 := SubscriptionKey(p1, q1), SubscriptionKey(p2, q2);
    FirstDashOfKey(p1, q1);
    FirstDashOfKey(p2, q2);
    assert p1 == k1[..|p1|] == k2[..|p2|] == p2;
    assert q1 == k1[|p1| + 1..] == k2[|p2| + 1..] == q2;
  }

  /** Whether some listed plan has the name (the plan_found flag). */
  predicate HasPlanNamed(plans: seq<PlanEntity>, name: string) {
    exists p :: p in plans && p.name == name
  }

  /** Whether some desired plan has the name. */
  predicate IsDesiredName(desired: seq<Plan>, name: string) {
    exists d :: d in desired && d.name == name
  }

  /** Whether the key is the key of some desired subscription (the sub_found flag). */
  predicate IsDesiredKey(desired: seq<APISubscription>, key: string) {
    exists d :: d in desired && DesiredKey(d) == key
  }

  /** The ID of the last listed subscription on the plan, "" when there is none. */
  function LastSubscriptionOnPlan(subs: seq<SubscriptionEntity>, planId: Id): (r: Id)
    ensures (forall x :: x in subs ==> x.plan != planId) ==> r == ""
    ensures (exists x :: x in subs && x.plan == planId) ==>
              exists i :: 0 <= i < |subs| && subs[i].plan == planId && subs[i].id == r
                          && forall j :: i < j < |subs| ==> subs[j].plan != planId
    decreases |subs|
  {
    if subs == [] then ""
    else if subs[|subs| - 1].plan == planId then subs[|subs| - 1].id
    else
      var r := LastSubscriptionOnPlan(subs[..|subs| - 1], planId);
      assert forall x :: x in subs[..|subs| - 1] ==> x in subs;
      assert (exists x :: x in subs && x.plan == planId) ==> exists x :: x in subs[..|subs| - 1] && x.plan == planId;
      r
  }
}
