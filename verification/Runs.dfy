/** Whole runs: reconciles interleaved with user edits, deletions, other AWS users and failing
    calls. */
module Runs {
  import opened Types
  import opened ChangeDetection
  import opened Lifecycle
  import opened Phases
  import CloudFront
  import Dns

  datatype Step =
    | Turn(env: Env)
    | Edit(spec: Spec)
    | Submit(name: string, spec: Spec)
    | RequestDeletion
    | Aws(event: CloudFront.Event)
    | DnsWrite(records: map<Dns.Key, Dns.Record>)

  function Requested(cr: Resource): Option<Resource>
  {
    if !cr.finalizer then None
    else if cr.deleting then Some(cr)
    else Some(cr.(deleting := true, generation := cr.generation + 1))
  }

  function Next(w: World, step: Step): World
  {
    match step
    case Turn(e) => Reconcile(w, e).world
    case Edit(spec) => if w.cr.None? then w else w.(cr := Some(StoreSpec(w.cr.value, spec)))
    case Submit(name, spec) =>
      if w.cr.Some? then w else w.(cr := Some(Resource(name, 1, Admit(spec), NEW_STATUS, false, false)))
    case RequestDeletion => if w.cr.None? then w else w.(cr := Requested(w.cr.value))
    case Aws(event) => w.(cloud := CloudFront.Apply(w.cloud, event))
    case DnsWrite(records) => w.(zones := w.zones.(records := records))
  }

  function Run(w: World, steps: seq<Step>): World
  {
    if steps == [] then w else Next(Run(w, steps[..|steps| - 1]), steps[|steps| - 1])
  }

  /** What the reconcile in `e` would do in `w`. */
  function PlanIn(w: World, e: Env): Plan
  {
    if w.cr.None? then Rest(w, Done) else PlanReconcile(w, w.cr.value, e)
  }

  /** `ok` holds of every step of a run, in the world it is taken in. */
  ghost predicate Along(w: World, steps: seq<Step>, ok: (World, Step) -> bool)
  {
    steps == []
    || (Along(w, steps[..|steps| - 1], ok) && ok(Run(w, steps[..|steps| - 1]), steps[|steps| - 1]))
  }

  /** The edit leaves the names, the zone and the TTL of the records alone. */
  predicate KeepsBatch(cr: Resource, spec: Spec)
  {
    var edited := StoreSpec(cr, spec);
    ManagesRecords(cr) && ManagesRecords(edited) && Dns.SameRecords(BatchOf(cr), BatchOf(edited))
  }

  function TenantId(w: World): Option<nat>
  {
    if w.cr.Some? then w.cr.value.status.id else None
  }

  predicate TenantExists(w: World)
  {
    w.cr.Some? && w.cr.value.status.id.Some? && w.cr.value.status.id.value in w.cloud.tenants
  }

  /** Nobody else configures the recorded tenant, though somebody may delete it. Other tenants are
      anybody's. */
  predicate NotRewritten(w: World, events: seq<CloudFront.Event>)
  {
    var d := CloudFront.Disturb(w.cloud, events);
    match TenantId(w)
    case None => true
    case Some(id) =>
      id in d.tenants ==> id in w.cloud.tenants && CloudFront.SameConfig(w.cloud.tenants[id], d.tenants[id])
  }

  /** Nor does anybody delete it. */
  predicate Spared(w: World, events: seq<CloudFront.Event>)
  {
    && NotRewritten(w, events)
    && match TenantId(w)
       case None => true
       case Some(id) => id in w.cloud.tenants ==> id in CloudFront.Disturb(w.cloud, events).tenants
  }

  /** Every call is answered, every check passes and nobody interferes. A published change may still
      be on its way. */
  predicate Smooth(w: World, e: Env)
  {
    && e.getFault.None? && e.createFault.None? && e.updateFault.None? && e.deleteFault.None?
    && e.upsertFault.None? && e.removeFault.None? && !e.writeFails
    && e.accepted && e.dnsClient && e.target.Ok? && e.inSync.Ok?
    && Spared(w, e.between)
  }

  predicate Overwrites(ev: CloudFront.Event, id: Option<nat>)
  {
    ev.Overwrite? && id == Some(ev.id)
  }

  predicate Removes(ev: CloudFront.Event, id: Option<nat>)
  {
    ev.Remove? && id == Some(ev.id)
  }

  /** Tenants of others may come, change and go, and AWS may move any deployment or domain along. */
  lemma {:induction false} OthersSpare(w: World, events: seq<CloudFront.Event>)
    requires Sound(w) && forall ev | ev in events :: !Overwrites(ev, TenantId(w))
    ensures w.cloud.nextId <= CloudFront.Disturb(w.cloud, events).nextId
    ensures NotRewritten(w, events)
    ensures (forall ev | ev in events :: !Removes(ev, TenantId(w))) ==> Spared(w, events)
  {
    if events != [] && TenantId(w).Some? {
      var init, ev := events[..|events| - 1], events[|events| - 1];
      OthersSpare(w, init);
      var m := CloudFront.Disturb(w.cloud, init);
      assert ev in events;
      if ev.Settle? && ev.id in m.tenants {
        assert CloudFront.Names(CloudFront.Settled(m.tenants[ev.id], ev.inProgress, ev.active).domains)
               == CloudFront.Names(m.tenants[ev.id].domains);
      }
    }
  }

  // What every step keeps.

  ghost predicate ResourceOk(cr: Resource, w: World)
  {
    && Admit(cr.spec) == cr.spec
    && cr.status.observedGeneration <= cr.generation
    && (cr.status.id.Some? ==>
          cr.finalizer && cr.status.dnsChange.None? && cr.status.id.value in w.minted)
    && (cr.status.dnsTarget != "" ==> cr.finalizer)
    && (cr.status.dnsChange.Some? ==> cr.status.dnsChange.value < |w.zones.changes|)
  }

  ghost predicate Sound(w: World)
  {
    && CloudFront.Valid(w.cloud)
    && (forall id | id in w.minted :: id < w.cloud.nextId)
    && (w.cr.Some? ==> ResourceOk(w.cr.value, w))
  }

  lemma SoundCreate(w: World, cr: Resource, e: Env)
    requires Sound(w) && w.cr == Some(cr) && cr.finalizer && cr.status.id.None?
    ensures Sound(Commit(w, cr, PlanCreate(w, cr, e), e.writeFails).world)
  {
    hide PlanCreate, CloudFront.Create, BuildInput, BatchOf;
    CreateIsSummary(w, cr, e);
  }

  lemma SoundExisting(w: World, cr: Resource, e: Env)
    requires Sound(w) && w.cr == Some(cr) && cr.finalizer && cr.status.id.Some?
    ensures Sound(Commit(w, cr, PlanExisting(w, cr, e), e.writeFails).world)
  {
    hide PlanExisting, CloudFront.Update, CloudFront.Disturb, BuildInput, SpecMatches, AttachDue, ReadStatus;
    ExistingIsSummary(w, cr, e);
  }

  lemma SoundDelete(w: World, cr: Resource, e: Env)
    requires Sound(w) && w.cr == Some(cr) && cr.deleting
    ensures Sound(Commit(w, cr, PlanDelete(w, cr, e), e.writeFails).world)
  {
    hide PlanDelete, CloudFront.Update, CloudFront.Delete, CloudFront.Disturb, DisableInput, BatchOf;
    DeleteIsSummary(w, cr, e);
  }

  lemma SoundStep(w: World, step: Step)
    requires Sound(w)
    ensures Sound(Next(w, step))
  {
    hide PlanCreate, PlanExisting, PlanDelete;
    match step
    case Turn(e) =>
      if w.cr.Some? {
        var cr := w.cr.value;
        if cr.deleting { SoundDelete(w, cr, e); }
        else if !cr.finalizer {}
        else if cr.status.id.None? { SoundCreate(w, cr, e); }
        else { SoundExisting(w, cr, e); }
      }
    case Aws(event) =>
      assert CloudFront.Disturb(w.cloud, []) == w.cloud;
      assert CloudFront.Disturb(w.cloud, [event]) == CloudFront.Apply(w.cloud, event);
    case _ =>
  }

  lemma {:induction false} SoundRun(w: World, steps: seq<Step>)
    requires Sound(w)
    ensures Sound(Run(w, steps))
  {
    if steps != [] {
      SoundRun(w, steps[..|steps| - 1]);
      SoundStep(Run(w, steps[..|steps| - 1]), steps[|steps| - 1]);
    }
  }
}
