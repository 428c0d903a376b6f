/**
 * The APIClient reconciler: one pass over one APIClient object. It
 * registers its finalizer, or, when the object is being deleted, deletes the
 * application in Gravitee before releasing the finalizer; otherwise it
 * either creates the application (empty status ID) or, when the status is
 * stale, updates it, and in both cases records the generation and syncs the
 * application's subscriptions. A pass never asks to be run again.
 *
 * The object is a class whose finalizers and status the pass updates in
 * place. The subscription sync walks a Go map, whose order the program
 * does not fix: the pass is specified for the order the sync used.
 */
module ClientController {
  import opened Types
  import opened Gateway
  import opened StubHelpers
  import opened Deletion
  import opened SubscriptionSync

  const FinalizerName := "apiclient.platform.my.domain/finalizer"

  /** The fields of an APIClient object that a pass reads or writes. */
  datatype Client = Client(
    spec: ClientSpec,
    generation: int,
    deleting: bool,
    finalizers: seq<string>,
    status: Status)

  class APIClient {
    const spec: ClientSpec
    const generation: int
    const deleting: bool
    var finalizers: seq<string>
    var status: Status

    function Value(): Client
      reads this
    {
      Client(spec, generation, deleting, finalizers, status)
    }

    constructor (c: Client)
      ensures Value() == c
    {
      spec, generation, deleting := c.spec, c.generation, c.deleting;
      finalizers, status := c.finalizers, c.status;
    }
  }

  /** A step's final snapshot, object and outcome. */
  datatype Step = Step(trace: Trace, obj: Client, out: Outcome)

  /** A pass's final snapshot, object, outcome and the result handed back to the dispatcher. */
  datatype Pass = Pass(trace: Trace, obj: Client, out: Outcome, result: CtrlResult)

  /** How far a pass got before the subscription sync: finished, or about to sync. */
  datatype Stage = Finished(step: Step) | Syncing(trace: Trace, obj: Client)

  /** The staleness test, the second operand only looked at when the first is false. */
  predicate Stale(status: Status, generation: int, app: Option<ApplicationEntity>) {
    status.updatedGeneration < generation || (app.Some? && status.updatedAt < app.value.updatedAt)
  }

  /** The update body: the spec's name, description, type and client ID, with settings repeating the last two. */
  function UpdateBody(spec: ClientSpec): ApplicationBody {
    ApplicationBody(spec.name, spec.description, spec.appType, spec.clientId, Some(AppSettings(spec.clientId, spec.appType)))
  }

  /** The create body: the spec's name, description, type and client ID, without settings. */
  function CreateBody(spec: ClientSpec): ApplicationBody {
    ApplicationBody(spec.name, spec.description, spec.appType, spec.clientId, None)
  }

  // UpdateCRD

  /** UpdateCRD: record the generation in the status and write the status. */
  function UpdateCRDRun(t: Trace, c: Client): Step {
    var c' := c.(status := c.status.(updatedGeneration := c.generation));
    var w := UpdateStatus(c'.status);
    Step(Issue(t, w), c', if Accepted(t, w) then Ok else Fail(CallFailed(|t.log|)))
  }

  /** UpdateCRD changes only the status's generation, to the object's, and issues exactly one status write. */
  lemma UpdateCRDWrites(t: Trace, c: Client)
    ensures var r := UpdateCRDRun(t, c);
      && r.obj == c.(status := c.status.(updatedGeneration := c.generation))
      && Extends(t, r.trace) && Since(t, r.trace) == [UpdateStatus(r.obj.status)]
      && r.trace.store == t.store
      && (r.out.Ok? <==> |t.log| !in t.faults)
  {
    var w := UpdateStatus(c.status.(updatedGeneration := c.generation));
    IssueExtends(t, w);
    ReadOnlyEffect(t.store, w);
  }

  method UpdateCRD(b: Backend, obj: APIClient) returns (out: Outcome)
    modifies b, obj
    ensures Step(b.Snapshot(), obj.Value(), out) == UpdateCRDRun(old(b.Snapshot()), old(obj.Value()))
  {
    obj.status := obj.status.(updatedGeneration := obj.generation);
    var at := |b.log|;
    var ok, reply := b.Invoke(UpdateStatus(obj.status));
    out := if ok then Ok else Fail(CallFailed(at));
  }

  // The finalizer

  /** Registering the finalizer: when missing, append it and write the object; a refused write is returned. */
  function RegisterRun(t: Trace, c: Client): Step {
    if ContainsString(c.finalizers, FinalizerName) then Step(t, c, Ok)
    else
      var c' := c.(finalizers := c.finalizers + [FinalizerName]);
      var w := UpdateObject(c'.finalizers);
      Step(Issue(t, w), c', if Accepted(t, w) then Ok else Fail(CallFailed(|t.log|)))
  }

  lemma RegisterWrites(t: Trace, c: Client)
    ensures var r := RegisterRun(t, c);
      && Extends(t, r.trace) && r.obj.status == c.status
      && (FinalizerName in c.finalizers ==> r.trace == t && r.obj == c && r.out == Ok)
      && (FinalizerName !in c.finalizers ==>
            && r.obj == c.(finalizers := c.finalizers + [FinalizerName])
            && Since(t, r.trace) == [UpdateObject(r.obj.finalizers)]
            && (r.out.Ok? <==> |t.log| !in t.faults)
            && (!r.out.Ok? ==> r.out == Fail(CallFailed(|t.log|))))
  {
    if FinalizerName !in c.finalizers {
      IssueExtends(t, UpdateObject(c.finalizers + [FinalizerName]));
    } else {
      assert t.log[..|t.log|] == t.log;
    }
  }

  method Register(b: Backend, obj: APIClient) returns (out: Outcome)
    modifies b, obj
    ensures Step(b.Snapshot(), obj.Value(), out) == RegisterRun(old(b.Snapshot()), old(obj.Value()))
  {
    if ContainsString(obj.finalizers, FinalizerName) {
      return Ok;
    }
    obj.finalizers := obj.finalizers + [FinalizerName];
    var at := |b.log|;
    var ok, reply := b.Invoke(UpdateObject(obj.finalizers));
    out := if ok then Ok else Fail(CallFailed(at));
  }

  /**
   * Finalizing a deleted object: when the finalizer is present, delete the
   * application; only if that succeeds, drop the finalizer and write the
   * object. DeleteApplication's error or abort is the step's.
   */
  function FinalizeRun(t: Trace, c: Client): Step {
    if !ContainsString(c.finalizers, FinalizerName) then Step(t, c, Ok)
    else
      var d := DeleteApplicationRun(t, c.status.id);
      if !d.out.Ok? then Step(d.trace, c, d.out)
      else
        var c' := c.(finalizers := RemoveString(c.finalizers, FinalizerName));
        var w := UpdateObject(c'.finalizers);
        Step(Issue(d.trace, w), c', if Accepted(d.trace, w) then Ok else Fail(CallFailed(|d.trace.log|)))
  }

  /** Finalizing issues only DeleteApplication's calls and, after them, the object write. */
  lemma FinalizeCalls(t: Trace, c: Client)
    ensures forall w :: w in Since(t, FinalizeRun(t, c).trace) ==>
      w == ListSubscriptions(c.status.id) || w == Call.DeleteApplication(c.status.id)
      || (w.CloseSubscription? && w.app == c.status.id) || w.UpdateObject?
  {
    if FinalizerName in c.finalizers {
      var d := DeleteApplicationRun(t, c.status.id);
      DeleteApplicationCalls(t, c.status.id);
      if d.out.Ok? {
        var w := UpdateObject(RemoveString(c.finalizers, FinalizerName));
        IssueExtends(d.trace, w);
        SinceSplit(t, d.trace, Issue(d.trace, w));
      }
    } else {
      assert Since(t, t) == [];
    }
  }

  method Finalize(b: Backend, obj: APIClient) returns (out: Outcome)
    modifies b, obj
    ensures Step(b.Snapshot(), obj.Value(), out) == FinalizeRun(old(b.Snapshot()), old(obj.Value()))
  {
    if !ContainsString(obj.finalizers, FinalizerName) {
      return Ok;
    }
    out := Deletion.DeleteApplication(b, obj.status.id);
    if !out.Ok? {
      return;
    }
    obj.finalizers := RemoveString(obj.finalizers, FinalizerName);
    var at := |b.log|;
    var ok, reply := b.Invoke(UpdateObject(obj.finalizers));
    out := if ok then Ok else Fail(CallFailed(at));
  }

  // The branches, up to the subscription sync

  /** The application read by the status ID, None when the read is refused. */
  function ReadApplication(t: Trace, id: Id): Option<ApplicationEntity> {
    if Accepted(t, GetApplication(id)) then Some(FindApplication(t.store.applications, id).value) else None
  }

  /**
   * The update branch: read the application; a failed read leaves it nil,
   * which the staleness test dereferences unless the generation alone
   * decides. When stale, update the application and record the generation
   * (both errors only logged), then sync.
   */
  function UpdatePrelude(t: Trace, c: Client): Stage {
    var g := GetApplication(c.status.id);
    var app := ReadApplication(t, c.status.id);
    var t1 := Issue(t, g);
    if !(c.status.updatedGeneration < c.generation) && app.None? then Finished(Step(t1, c, Panic))
    else if !Stale(c.status, c.generation, app) then Finished(Step(t1, c, Ok))
    else
      var crd := UpdateCRDRun(Issue(t1, UpdateApplication(c.status.id, UpdateBody(c.spec))), c);
      Syncing(crd.trace, crd.obj)
  }

  /**
   * The create branch: create the application; a refused create leaves the
   * answer nil, whose ID is then read: the pass aborts. Otherwise record the
   * new ID and the generation (the write's error only logged), then sync.
   */
  function CreatePrelude(t: Trace, c: Client): Stage {
    var w := CreateApplication(CreateBody(c.spec));
    if !Accepted(t, w) then Finished(Step(Issue(t, w), c, Panic))
    else
      var crd := UpdateCRDRun(Issue(t, w), c.(status := c.status.(id := Answer(t.store, w).application.id)));
      Syncing(crd.trace, crd.obj)
  }

  /** The subscription sync, its error ignored; an abort still ends the pass. */
  function SyncRun(t: Trace, c: Client, order: seq<string>): (r: Step)
    ensures !r.out.Fail? && r.obj == c
  {
    var s := UpdateAPISubscriptionsRun(t, c.status.id, c.spec.subscriptions, order);
    Step(s.trace, c, if s.out.Panic? then Panic else Ok)
  }

  /** A stage carried to its end, syncing when it is about to. */
  function Continue(st: Stage, order: seq<string>): Step {
    match st
    case Finished(s) => s
    case Syncing(t, c) => SyncRun(t, c, order)
  }

  /** Whether an order is the one a stage's sync walks: the keys of the index of the listed subscriptions. */
  ghost predicate OrderFor(order: seq<string>, st: Stage) {
    st.Syncing? ==> Enumerates(order, ExtOf(st.trace, st.obj.status.id).Keys)
  }

  /**
   * A failed read aborts the pass unless the generation alone makes it
   * stale. With the application read and nothing stale, the read is all
   * that happens. A stale pass updates the application with the spec's
   * name, description, type and client ID and settings repeating the last
   * two, then writes the status with the generation recorded and nothing
   * else changed, whatever the update answered, and then syncs.
   */
  lemma UpdatePreludeStaleness(t: Trace, c: Client)
    ensures var app := ReadApplication(t, c.status.id); var st := UpdatePrelude(t, c);
      !(c.status.updatedGeneration < c.generation) && app.None? ==> st.Finished? && st.step.out == Panic
    ensures var app := ReadApplication(t, c.status.id); var st := UpdatePrelude(t, c);
      app.Some? && !Stale(c.status, c.generation, app) ==>
        st == Finished(Step(st.step.trace, c, Ok)) && Since(t, st.step.trace) == [GetApplication(c.status.id)]
    ensures var app := ReadApplication(t, c.status.id); var st := UpdatePrelude(t, c);
      Stale(c.status, c.generation, app) ==>
        && st.Syncing?
        && st.obj == c.(status := c.status.(updatedGeneration := c.generation))
        && Since(t, st.trace) == [GetApplication(c.status.id),
                                  UpdateApplication(c.status.id,
                                                    ApplicationBody(c.spec.name, c.spec.description, c.spec.appType, c.spec.clientId,
                                                                    Some(AppSettings(c.spec.clientId, c.spec.appType)))),
                                  UpdateStatus(st.obj.status)]
  {
    var g := GetApplication(c.status.id);
    var t1 := Issue(t, g);
    IssueExtends(t, g);
    if Stale(c.status, c.generation, ReadApplication(t, c.status.id)) {
      var u := UpdateApplication(c.status.id, UpdateBody(c.spec));
      var t2 := Issue(t1, u);
      IssueExtends(t1, u);
      UpdateCRDWrites(t2, c);
      SinceSplit(t, t1, t2);
      ExtendsTrans(t, t1, t2);
      SinceSplit(t, t2, UpdateCRDRun(t2, c).trace);
    }
  }

  /**
   * An application that no longer exists always aborts the update branch:
   * at the staleness test, or, when the generation alone makes the object
   * stale, at the subscription listing of the sync.
   */
  lemma UpdateBranchMissing(t: Trace, c: Client, order: seq<string>)
    requires FindApplication(t.store.applications, c.status.id).None?
    ensures Continue(UpdatePrelude(t, c), order).out == Panic
  {
    var st := UpdatePrelude(t, c);
    if st.Syncing? {
      UpdatePreludeKeepsApplication(t, c);
      SyncMissingPanics(st.trace, c.status.id, st.obj.spec.subscriptions, order);
    }
  }

  /** A stale update branch leaves the applications and the status ID as they were. */
  lemma UpdatePreludeKeepsApplication(t: Trace, c: Client)
    requires FindApplication(t.store.applications, c.status.id).None?
    ensures var st := UpdatePrelude(t, c);
      st.Syncing? ==> st.trace.store.applications == t.store.applications && st.obj.status.id == c.status.id
  {
  }

  /** The sync for an application that does not exist panics at its listing. */
  lemma SyncMissingPanics(t: Trace, appId: Id, desired: seq<APISubscription>, order: seq<string>)
    requires FindApplication(t.store.applications, appId).None?
    ensures UpdateAPISubscriptionsRun(t, appId, desired, order).out == Panic
  {
    IssueAllFirstRefused(t, ReadCalls(t, appId));
  }

  /** Looking up the ID of an entry appended with an ID no earlier entry has finds that entry. */
  lemma {:induction false} FindApplicationAppended(apps: seq<ApplicationEntity>, a: ApplicationEntity)
    requires forall x :: x in apps ==> x.id != a.id
    ensures FindApplication(apps + [a], a.id) == Some(a)
    decreases |apps|
  {
    if apps != [] {
      assert (apps + [a])[1..] == apps[1..] + [a];
      FindApplicationAppended(apps[1..], a);
    }
  }

  /**
   * A refused create aborts the pass. An accepted one adds an application
   * with an ID no application had, carrying the spec's name, description,
   * type and client ID; the status takes that ID and the generation (and
   * keeps its last-modified time) and is written next; the sync then runs
   * for the new application.
   */
  lemma CreatePreludeRecords(t: Trace, c: Client)
    ensures var st := CreatePrelude(t, c);
      !Accepted(t, CreateApplication(CreateBody(c.spec))) ==> st.Finished? && st.step.out == Panic
    ensures var st := CreatePrelude(t, c);
      Accepted(t, CreateApplication(CreateBody(c.spec))) ==>
        && st.Syncing?
        && st.obj == c.(status := Status(st.obj.status.id, c.status.updatedAt, c.generation))
        && (forall x :: x in t.store.applications ==> x.id != st.obj.status.id)
        && FindApplication(st.trace.store.applications, st.obj.status.id).Some?
        && (var app := FindApplication(st.trace.store.applications, st.obj.status.id).value;
            app.name == c.spec.name && app.description == c.spec.description
            && app.appType == c.spec.appType && app.clientId == c.spec.clientId)
        && Since(t, st.trace) == [CreateApplication(CreateBody(c.spec)), UpdateStatus(st.obj.status)]
  {
    var w := CreateApplication(CreateBody(c.spec));
    var t1 := Issue(t, w);
    IssueExtends(t, w);
    if Accepted(t, w) {
      var app := NewApplication(FreshId(t.store), CreateBody(c.spec), t.store.clock + 1);
      assert t1.store.applications == t.store.applications + [app];
      FindApplicationAppended(t.store.applications, app);
      var c' := c.(status := c.status.(id := app.id));
      UpdateCRDWrites(t1, c');
      SinceSplit(t, t1, UpdateCRDRun(t1, c').trace);
    }
  }

  method UpdateBranch(b: Backend, obj: APIClient) returns (out: Outcome, ghost order: seq<string>)
    modifies b, obj
    ensures OrderFor(order, UpdatePrelude(old(b.Snapshot()), old(obj.Value())))
    ensures Step(b.Snapshot(), obj.Value(), out) == Continue(UpdatePrelude(old(b.Snapshot()), old(obj.Value())), order)
  {
    order := [];
    var ok, reply := b.Invoke(GetApplication(obj.status.id));
    var app := if ok then Some(reply.application) else None;
    if !(obj.status.updatedGeneration < obj.generation) && app.None? {
      return Panic, order;
    }
    if !Stale(obj.status, obj.generation, app) {
      return Ok, order;
    }
    ok, reply := b.Invoke(UpdateApplication(obj.status.id, UpdateBody(obj.spec)));
    var written := UpdateCRD(b, obj);
    var synced;
    synced, order := UpdateAPISubscriptions(b, obj.status.id, obj.spec.subscriptions);
    out := if synced.Panic? then Panic else Ok;
  }

  method CreateBranch(b: Backend, obj: APIClient) returns (out: Outcome, ghost order: seq<string>)
    modifies b, obj
    ensures OrderFor(order, CreatePrelude(old(b.Snapshot()), old(obj.Value())))
    ensures Step(b.Snapshot(), obj.Value(), out) == Continue(CreatePrelude(old(b.Snapshot()), old(obj.Value())), order)
  {
    order := [];
    var ok, reply := b.Invoke(CreateApplication(CreateBody(obj.spec)));
    if !ok {
      return Panic, order;
    }
    obj.status := obj.status.(id := reply.application.id);
    var written := UpdateCRD(b, obj);
    var synced;
    synced, order := UpdateAPISubscriptions(b, obj.status.id, obj.spec.subscriptions);
    out := if synced.Panic? then Panic else Ok;
  }

  // One pass

  /** How far a pass gets before the subscription sync. */
  function ReconcileStage(t: Trace, c: Client): Stage {
    if c.deleting then Finished(FinalizeRun(t, c))
    else
      var r := RegisterRun(t, c);
      if !r.out.Ok? then Finished(r)
      else if r.obj.status.id != "" then UpdatePrelude(r.trace, r.obj)
      else CreatePrelude(r.trace, r.obj)
  }

  /** One reconcile pass, the sync walking the index in the given order; the result never requeues. */
  function ReconcileRun(t: Trace, c: Client, order: seq<string>): Pass {
    var s := Continue(ReconcileStage(t, c), order);
    Pass(s.trace, s.obj, s.out, NoRequeue)
  }

  lemma StageExtends(t: Trace, c: Client, order: seq<string>)
    requires !c.deleting && RegisterRun(t, c).out.Ok?
    ensures Extends(RegisterRun(t, c).trace, Continue(ReconcileStage(t, c), order).trace)
  {
    var r := RegisterRun(t, c);
    var st := ReconcileStage(t, c);
    if r.obj.status.id != "" {
      UpdatePreludeStaleness(r.trace, r.obj);
      if !st.Syncing? {
        IssueExtends(r.trace, GetApplication(r.obj.status.id));
      }
    } else {
      CreatePreludeRecords(r.trace, r.obj);
      if !st.Syncing? {
        IssueExtends(r.trace, CreateApplication(CreateBody(r.obj.spec)));
      }
    }
    if st.Syncing? {
      UpdateAPISubscriptionsExtends(st.trace, st.obj.status.id, st.obj.spec.subscriptions, order);
      ExtendsTrans(r.trace, st.trace, Continue(st, order).trace);
    }
  }

  /**
   * A live object missing the finalizer gets it, and the object write is
   * the first call of the pass; a refused write ends the pass with that
   * error and nothing else issued. A live object keeps the finalizer.
   */
  lemma ReconcileRegistersFirst(t: Trace, c: Client, order: seq<string>)
    requires !c.deleting
    ensures var p := ReconcileRun(t, c, order);
      p.obj.finalizers == (if FinalizerName in c.finalizers then c.finalizers else c.finalizers + [FinalizerName])
    ensures var p := ReconcileRun(t, c, order);
      FinalizerName !in c.finalizers ==>
        && |Since(t, p.trace)| >= 1 && Since(t, p.trace)[0] == UpdateObject(c.finalizers + [FinalizerName])
        && (p.out.Fail? <==> |t.log| in t.faults)
        && (p.out.Fail? ==> |Since(t, p.trace)| == 1)
  {
    var r := RegisterRun(t, c);
    RegisterWrites(t, c);
    if r.out.Ok? {
      StageExtends(t, c, order);
      SinceSplit(t, r.trace, Continue(ReconcileStage(t, c), order).trace);
    }
  }

  /**
   * A pass over a deleted object only lists and closes the application's
   * subscriptions, deletes the application and writes the object. Without
   * the finalizer it does nothing. With it, the finalizer is dropped
   * exactly when DeleteApplication succeeds; otherwise its error (or
   * abort) is the pass's and the object is untouched.
   */
  lemma ReconcileDeletion(t: Trace, c: Client, order: seq<string>)
    requires c.deleting
    ensures var p := ReconcileRun(t, c, order);
      FinalizerName !in c.finalizers ==> p.trace == t && p.obj == c && p.out == Ok
    ensures var p := ReconcileRun(t, c, order); var d := DeleteApplicationRun(t, c.status.id);
      FinalizerName in c.finalizers ==>
        && (p.obj.finalizers == RemoveString(c.finalizers, FinalizerName) <==> d.out.Ok?)
        && (!d.out.Ok? ==> p.out == d.out && p.obj == c)
    ensures forall w :: w in Since(t, ReconcileRun(t, c, order).trace) ==>
      w == ListSubscriptions(c.status.id) || w == Call.DeleteApplication(c.status.id)
      || (w.CloseSubscription? && w.app == c.status.id) || w.UpdateObject?
  {
    FinalizeCalls(t, c);
    if FinalizerName in c.finalizers {
      assert FinalizerName !in RemoveString(c.finalizers, FinalizerName);
    }
  }

  /**
   * No pass is requeued, and a pass returns an error only when the
   * finalizer write was refused or, for a deleted object, the cleanup
   * failed. The status's last-modified time is never changed: each status write carries it back as it was.
   */
  lemma ReconcileOutcome(t: Trace, c: Client, order: seq<string>)
    ensures ReconcileRun(t, c, order).result == NoRequeue
    ensures ReconcileRun(t, c, order).obj.status.updatedAt == c.status.updatedAt
    ensures var p := ReconcileRun(t, c, order);
      !c.deleting ==> (p.out.Fail? <==> FinalizerName !in c.finalizers && |t.log| in t.faults)
  {
    RegisterWrites(t, c);
    var r := RegisterRun(t, c);
    if !c.deleting && r.out.Ok? {
      if r.obj.status.id != "" {
        UpdatePreludeStaleness(r.trace, r.obj);
      } else {
        CreatePreludeRecords(r.trace, r.obj);
      }
    }
  }

  method Reconcile(b: Backend, obj: APIClient) returns (out: Outcome, result: CtrlResult, ghost order: seq<string>)
    modifies b, obj
    ensures OrderFor(order, ReconcileStage(old(b.Snapshot()), old(obj.Value())))
    ensures Pass(b.Snapshot(), obj.Value(), out, result) == ReconcileRun(old(b.Snapshot()), old(obj.Value()), order)
  {
    order := [];
    if obj.deleting {
      out := Finalize(b, obj);
      return out, NoRequeue, order;
    }
    out := Register(b, obj);
    if !out.Ok? {
      return out, NoRequeue, order;
    }
    if obj.status.id != "" {
      out, order := UpdateBranch(b, obj);
    } else {
      out, order := CreateBranch(b, obj);
    }
    result := NoRequeue;
  }
}
