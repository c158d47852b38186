/** Drift is reported only when somebody else changed AWS. */
module DriftSoundness {
  import opened Types
  import opened Matching
  import opened ChangeDetection
  import opened Lifecycle
  import opened Phases
  import opened Runs
  import CloudFront
  import Dns

  /** Nobody but the operator configures the recorded tenant, and submitted specs have no two
      parameters of one name with different values. Calls and writes may fail, the tenant may be
      deleted, and others may do with theirs as they like. */
  ghost predicate Quiet(w: World, step: Step)
  {
    match step
    case Turn(e) => NotRewritten(w, e.between)
    case Aws(event) => NotRewritten(w, [event])
    case Edit(spec) => ConflictFree(spec.parameters)
    case Submit(_, spec) => ConflictFree(spec.parameters)
    case _ => true
  }

  /** An observed generation means that its spec is what AWS has. */
  ghost predicate Faithful(w: World)
  {
    w.cr.Some? ==>
      var cr := w.cr.value;
      && ConflictFree(cr.spec.parameters)
      && (!cr.deleting && cr.status.id.Some? && cr.status.id.value in w.cloud.tenants
          && cr.status.observedGeneration == cr.generation
          ==> SpecMatches(cr.spec, w.cloud.tenants[cr.status.id.value]))
  }

  lemma FaithfulCreate(w: World, cr: Resource, e: Env)
    requires Sound(w) && Faithful(w) && w.cr == Some(cr) && cr.status.id.None?
    ensures Faithful(Commit(w, cr, PlanCreate(w, cr, e), e.writeFails).world)
    ensures !PlanCreate(w, cr, e).drift
  {
    hide PlanCreate, BuildInput, BatchOf, Dns.Upsert, SpecMatches, CloudFront.Stored;
    CreateIsSummary(w, cr, e);
    SendReadBack(cr.spec, true, w.cloud.nextEtag);
  }

  lemma FaithfulExisting(w: World, cr: Resource, e: Env)
    requires Sound(w) && Faithful(w) && w.cr == Some(cr) && cr.status.id.Some? && !cr.deleting
    requires NotRewritten(w, e.between)
    ensures Faithful(Commit(w, cr, PlanExisting(w, cr, e), e.writeFails).world)
    ensures !PlanExisting(w, cr, e).drift
  {
    hide PlanExisting, BuildInput, SpecMatches, CloudFront.Stored, CloudFront.Disturb, CloudFront.SameConfig,
      AttachDue, ReadStatus;
    ExistingIsSummary(w, cr, e);
    var id, d := cr.status.id.value, CloudFront.Disturb(w.cloud, e.between);
    if id in d.tenants {
      MatchIgnoresProgress(cr.spec, w.cloud.tenants[id], d.tenants[id]);
      SendReadBack(cr.spec, d.tenants[id].enabled, d.nextEtag);
    }
  }

  lemma FaithfulStep(w: World, step: Step)
    requires Sound(w) && Faithful(w) && Quiet(w, step)
    ensures Faithful(Next(w, step))
    ensures step.Turn? ==> !PlanIn(w, step.env).drift
  {
    hide PlanCreate, PlanExisting, PlanDelete, SpecMatches, CloudFront.Update, CloudFront.Delete,
      CloudFront.Disturb, BatchOf;
    match step
    case Turn(e) =>
      if w.cr.Some? {
        var cr := w.cr.value;
        if cr.deleting { DeleteIsSummary(w, cr, e); }
        else if !cr.finalizer {}
        else if cr.status.id.None? { FaithfulCreate(w, cr, e); }
        else { FaithfulExisting(w, cr, e); }
      }
    case Aws(event) => FaithfulAws(w, event);
    case _ =>
  }

  lemma FaithfulAws(w: World, event: CloudFront.Event)
    requires Faithful(w) && NotRewritten(w, [event])
    ensures Faithful(Next(w, Aws(event)))
  {
    hide SpecMatches;
    assert CloudFront.Disturb(w.cloud, []) == w.cloud;
    assert CloudFront.Disturb(w.cloud, [event]) == Next(w, Aws(event)).cloud;
    if TenantId(w).Some? && TenantId(w).value in Next(w, Aws(event)).cloud.tenants {
      var id := TenantId(w).value;
      MatchIgnoresProgress(w.cr.value.spec, w.cloud.tenants[id], Next(w, Aws(event)).cloud.tenants[id]);
    }
  }

  /** No run in which nobody else configures the recorded tenant ever reaches the drift handling, however many
      calls and status writes fail in it. */
  lemma {:induction false} DriftUnreachable(w: World, steps: seq<Step>)
    requires Sound(w) && Faithful(w)
    requires Along(w, steps, (v, s) => Quiet(v, s))
    ensures Faithful(Run(w, steps))
    ensures Along(w, steps, (v: World, s: Step) => s.Turn? ==> !PlanIn(v, s.env).drift)
  {
    if steps != [] {
      var init := steps[..|steps| - 1];
      DriftUnreachable(w, init);
      SoundRun(w, init);
      FaithfulStep(Run(w, init), steps[|steps| - 1]);
    }
  }

  /** With conflicting parameters the first reconcile after a create already sees drift that nobody
      caused, and exactly then. */
  lemma DriftAfterCreate(w: World, cr: Resource, create: Env, next: Env)
    requires Sound(w) && w.cr == Some(cr) && cr.finalizer && !cr.deleting && cr.status.id.None?
    requires PlanIn(w, create).call == CreateCall(true) && !create.writeFails && next.getFault.None?
    ensures PlanIn(Next(w, Turn(create)), next).drift <==> !ConflictFree(cr.spec.parameters)
  {
    hide PlanCreate, PlanExisting, BuildInput, BatchOf, Dns.Upsert, SpecMatches, CloudFront.Stored,
      CloudFront.Disturb, AttachDue, ReadStatus;
    CreateIsSummary(w, cr, create);
    SendReadBack(cr.spec, true, w.cloud.nextEtag);
    var v := Next(w, Turn(create));
    ExistingIsSummary(v, v.cr.value, next);
  }

  /** Whatever others do, a reconcile records a generation as observed only when AWS showed it a
      tenant matching that generation's spec. */
  lemma ObservedIsWitnessed(w: World, cr: Resource, e: Env)
    requires Sound(w) && w.cr == Some(cr) && !cr.deleting && ConflictFree(cr.spec.parameters)
    ensures var after := Reconcile(w, e).world;
      after.cr.Some? &&
      (after.cr.value.status.observedGeneration != cr.status.observedGeneration ==>
         && after.cr.value.status.observedGeneration == cr.generation && after.cr.value.spec == cr.spec
         && after.cr.value.status.id.Some?
         && var id := after.cr.value.status.id.value;
            || (id in w.cloud.tenants && SpecMatches(cr.spec, w.cloud.tenants[id]))
            || (id in after.cloud.tenants && SpecMatches(cr.spec, after.cloud.tenants[id])))
  {
    hide PlanCreate, PlanExisting, BuildInput, BatchOf, Dns.Upsert, SpecMatches, CloudFront.Stored,
      CloudFront.Disturb, AttachDue, ReadStatus;
    if cr.finalizer {
      if cr.status.id.None? {
        CreateIsSummary(w, cr, e);
        SendReadBack(cr.spec, true, w.cloud.nextEtag);
      } else {
        ExistingIsSummary(w, cr, e);
        var id, d := cr.status.id.value, CloudFront.Disturb(w.cloud, e.between);
        if id in d.tenants { SendReadBack(cr.spec, d.tenants[id].enabled, d.nextEtag); }
      }
    }
  }
}
