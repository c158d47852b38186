/** No tenant is created and then forgotten. */
module NoLeak {
  import opened Types
  import opened ChangeDetection
  import opened Lifecycle
  import opened Phases
  import opened Runs
  import CloudFront
  import Dns

  predicate Recorded(w: World, id: nat)
  {
    w.cr.Some? && w.cr.value.status.id == Some(id)
  }

  /** Live tenants made for the resource that its status no longer names. */
  ghost function Unrecorded(w: World): set<nat>
  {
    set id | id in w.minted && id in w.cloud.tenants && !Recorded(w, id)
  }

  /** The create call succeeded and the status write after it did not. */
  predicate CreateLost(w: World, step: Step)
  {
    step.Turn? && step.env.writeFails && PlanIn(w, step.env).call == CreateCall(true)
  }

  /** CloudFront denies a tenant that may well exist. */
  predicate FalseNotFound(step: Step)
  {
    step.Turn? && step.env.getFault == Some(NotFound)
  }

  ghost predicate Accounted(w: World, cr: Resource, p: Plan, e: Env)
  {
    var after := Commit(w, cr, p, e.writeFails).world;
    && Unrecorded(after) <= Unrecorded(w) + {w.cloud.nextId}
    && (w.cloud.nextId in Unrecorded(after) <==> p.call == CreateCall(true) && e.writeFails)
  }

  lemma CreateAccounts(w: World, cr: Resource, e: Env)
    requires Sound(w) && w.cr == Some(cr) && cr.status.id.None?
    ensures Accounted(w, cr, PlanCreate(w, cr, e), e)
  {
    hide PlanCreate, BuildInput, BatchOf, Dns.Upsert;
    CreateIsSummary(w, cr, e);
  }

  lemma ExistingAccounts(w: World, cr: Resource, e: Env)
    requires Sound(w) && w.cr == Some(cr) && cr.status.id.Some? && e.getFault != Some(NotFound)
    ensures Accounted(w, cr, PlanExisting(w, cr, e), e)
  {
    hide PlanExisting, CloudFront.Disturb, BuildInput, SpecMatches, AttachDue, ReadStatus, CloudFront.Stored;
    ExistingIsSummary(w, cr, e);
    CloudFront.EtagGuardsConfig(w.cloud, e.between);
  }

  lemma DeleteAccounts(w: World, cr: Resource, e: Env)
    requires Sound(w) && w.cr == Some(cr) && cr.deleting && e.getFault != Some(NotFound)
    ensures Accounted(w, cr, PlanDelete(w, cr, e), e)
  {
    hide PlanDelete, CloudFront.Disturb, DisableInput, BatchOf, Dns.Delete, CloudFront.Stored;
    DeleteIsSummary(w, cr, e);
    CloudFront.EtagGuardsConfig(w.cloud, e.between);
  }

  /** A step loses a tenant exactly when it creates one and cannot record it. */
  lemma StepAccounts(w: World, step: Step)
    requires Sound(w) && !FalseNotFound(step)
    ensures Unrecorded(Next(w, step)) <= Unrecorded(w) + {w.cloud.nextId}
    ensures w.cloud.nextId in Unrecorded(Next(w, step)) <==> CreateLost(w, step)
  {
    hide PlanCreate, PlanExisting, PlanDelete;
    match step
    case Turn(e) =>
      if w.cr.Some? {
        var cr := w.cr.value;
        if cr.deleting { DeleteAccounts(w, cr, e); }
        else if !cr.finalizer {}
        else if cr.status.id.None? { CreateAccounts(w, cr, e); }
        else { ExistingAccounts(w, cr, e); }
      }
    case _ =>
  }

  /** In a run where no created tenant goes unrecorded at once, every live tenant ever made for the
      resource is the one in its status; once the resource is gone, so are they all. */
  lemma {:induction false} NothingLost(w: World, steps: seq<Step>)
    requires Sound(w) && w.minted == {}
    requires Along(w, steps, (v, s) => !FalseNotFound(s) && !CreateLost(v, s))
    ensures forall id | id in Run(w, steps).minted && id in Run(w, steps).cloud.tenants :: Recorded(Run(w, steps), id)
  {
    if steps != [] {
      var init := steps[..|steps| - 1];
      NothingLost(w, init);
      SoundRun(w, init);
      StepAccounts(Run(w, init), steps[|steps| - 1]);
      assert Unrecorded(Run(w, init)) == {};
      assert Unrecorded(Run(w, steps)) == {};
      forall id | id in Run(w, steps).minted && id in Run(w, steps).cloud.tenants
        ensures Recorded(Run(w, steps), id)
      {
        assert id !in Unrecorded(Run(w, steps));
      }
    }
  }

  /** Nobody else removes the tenant `id` in the step. */
  predicate SparesTenant(w: World, step: Step, id: nat)
  {
    match step
    case Turn(e) => id in CloudFront.Disturb(w.cloud, e.between).tenants
    case Aws(event) => id in CloudFront.Apply(w.cloud, event).tenants
    case _ => true
  }

  lemma LostWhileCreating(w: World, cr: Resource, e: Env, id: nat)
    requires Sound(w) && w.cr == Some(cr) && cr.status.id.None?
    requires id in Unrecorded(w) && SparesTenant(w, Turn(e), id)
    ensures id in Unrecorded(Commit(w, cr, PlanCreate(w, cr, e), e.writeFails).world)
  {
    hide PlanCreate, BuildInput, BatchOf, Dns.Upsert, CloudFront.Stored;
    CreateIsSummary(w, cr, e);
  }

  lemma LostWhileExisting(w: World, cr: Resource, e: Env, id: nat)
    requires Sound(w) && w.cr == Some(cr) && cr.status.id.Some?
    requires id in Unrecorded(w) && SparesTenant(w, Turn(e), id)
    ensures id in Unrecorded(Commit(w, cr, PlanExisting(w, cr, e), e.writeFails).world)
  {
    hide PlanExisting, CloudFront.Disturb, BuildInput, SpecMatches, AttachDue, ReadStatus, CloudFront.Stored;
    ExistingIsSummary(w, cr, e);
  }

  lemma LostWhileDeleting(w: World, cr: Resource, e: Env, id: nat)
    requires Sound(w) && w.cr == Some(cr) && cr.deleting
    requires id in Unrecorded(w) && SparesTenant(w, Turn(e), id)
    ensures id in Unrecorded(Commit(w, cr, PlanDelete(w, cr, e), e.writeFails).world)
  {
    hide PlanDelete, CloudFront.Disturb, DisableInput, BatchOf, Dns.Delete, CloudFront.Stored;
    DeleteIsSummary(w, cr, e);
  }

  lemma LostTenantStays(w: World, step: Step, id: nat)
    requires Sound(w) && id in Unrecorded(w) && SparesTenant(w, step, id)
    ensures id in Unrecorded(Next(w, step))
  {
    hide PlanCreate, PlanExisting, PlanDelete, CloudFront.Disturb;
    match step
    case Turn(e) =>
      if w.cr.Some? {
        var cr := w.cr.value;
        if cr.deleting { LostWhileDeleting(w, cr, e, id); }
        else if !cr.finalizer {}
        else if cr.status.id.None? { LostWhileCreating(w, cr, e, id); }
        else { LostWhileExisting(w, cr, e, id); }
      }
    case _ =>
  }

  /** The converse: a tenant that went unrecorded is never recorded again nor removed by the operator,
      past the deletion of the resource too. It stays until somebody else removes it. */
  lemma {:induction false} LostForGood(w: World, steps: seq<Step>, id: nat)
    requires Sound(w) && id in Unrecorded(w)
    requires Along(w, steps, (v, s) => SparesTenant(v, s, id))
    ensures id in Unrecorded(Run(w, steps))
  {
    hide Next, Unrecorded, Sound, SparesTenant;
    if steps != [] {
      var init := steps[..|steps| - 1];
      LostForGood(w, init, id);
      SoundRun(w, init);
      LostTenantStays(Run(w, init), steps[|steps| - 1], id);
    }
  }

  /** The resource goes away only after its tenant. */
  lemma FinalizerLast(w: World, e: Env)
    requires Sound(w) && w.cr.Some? && Reconcile(w, e).world.cr.None?
    requires e.getFault != Some(NotFound)
    ensures w.cr.value.deleting
    ensures w.cr.value.status.id.Some? ==> w.cr.value.status.id.value !in Reconcile(w, e).world.cloud.tenants
  {
    hide PlanCreate, PlanExisting, PlanDelete, CloudFront.Disturb, BatchOf, Dns.Delete, Dns.Upsert,
      BuildInput, SpecMatches;
    var cr := w.cr.value;
    if cr.deleting { DeleteIsSummary(w, cr, e); }
    else if !cr.finalizer {}
    else if cr.status.id.None? { CreateIsSummary(w, cr, e); }
    else { ExistingIsSummary(w, cr, e); }
  }
}
