/** What the operator does about drift is up to the policy, and to the policy alone. */
module DriftPolicies {
  import opened Types
  import opened ChangeDetection
  import opened Lifecycle
  import opened Phases
  import opened Runs
  import opened Scheduling
  import CloudFront
  import Dns

  /** The reconcile reads a tenant that differs from a spec already observed. */
  predicate Drifted(w: World, e: Env)
  {
    w.cr.Some? && TenantExists(w) && e.getFault.None? &&
    var cr := w.cr.value;
    && cr.finalizer && !cr.deleting && cr.status.observedGeneration == cr.generation
    && !SpecMatches(cr.spec, w.cloud.tenants[cr.status.id.value])
  }

  /** CloudFront is called exactly under `Enforce`, whatever comes of the call. The other policies leave
      everything to others and only report: both flag the drift, `Report` in the synced condition too. */
  lemma PolicyDecides(w: World, e: Env)
    requires Drifted(w, e)
    ensures PlanIn(w, e).call.UpdateCall? <==> w.policy.Enforce?
    ensures PlanIn(w, e).call.NoCall? <==> !w.policy.Enforce?
    ensures !w.policy.Enforce? ==>
              var v, cr := Reconcile(w, e).world, w.cr.value;
              && v == w.(cr := v.cr, cloud := CloudFront.Disturb(w.cloud, e.between))
              && if e.writeFails then v.cr == w.cr && Reconcile(w, e).verdict.Fail?
                 else
                   && v.cr.Some? && v.cr.value == cr.(status := v.cr.value.status) && Reconcile(w, e).verdict.Requeue?
                   && var s := v.cr.value.status;
                   && s.driftDetected && s.observedGeneration == cr.status.observedGeneration && s.id == cr.status.id
                   && s.notes == cr.status.notes.(synced := s.notes.synced)
                   && s.notes.synced == if w.policy.Report? then Condition(false, DriftDetected, cr.generation)
                                        else cr.status.notes.synced
  {
    hide CloudFront.Disturb, SpecMatches, PlanSteady, PlanSpecChange, BuildInput, CertCondition;
    if w.policy.Enforce? { EnforceCalls(w, e); }
  }

  lemma EnforceCalls(w: World, e: Env)
    requires Drifted(w, e) && w.policy.Enforce?
    ensures PlanIn(w, e).call.UpdateCall?
  {
    hide CloudFront.Disturb, SpecMatches, PlanSteady, PlanSpecChange, BuildInput, OnAwsError, CloudFront.Update;
  }

  /** An enforcing update that goes through and is recorded puts the spec back and is on record as
      drift. */
  lemma EnforceRestores(w: World, e: Env)
    requires Drifted(w, e) && w.policy.Enforce? && PlanIn(w, e).call == UpdateCall(true) && !e.writeFails
    ensures var v, cr := Reconcile(w, e).world, w.cr.value;
      && v.cr.Some? && v.cr.value.status.driftDetected
      && cr.status.id.value in v.cloud.tenants
      && v.cloud.tenants[cr.status.id.value]
         == CloudFront.Stored(BuildInput(cr.spec), CloudFront.Disturb(w.cloud, e.between).tenants[cr.status.id.value].enabled,
                              CloudFront.Disturb(w.cloud, e.between).nextEtag)
  {
    hide CloudFront.Disturb, SpecMatches, PlanSteady, PlanSpecChange, BuildInput, OnAwsError, CloudFront.Stored;
  }

  // Runs.

  /** Nobody asks for anything new: no edit while a tenant is recorded, no deletion, and no certificate
      that the spec does not name yet. Calls may fail and others may do what they like. */
  predicate Undirected(w: World, step: Step)
  {
    match step
    case Turn(e) =>
      w.cr.Some? && w.cr.value.spec.managedCert.Some? && e.cert.Some? && e.cert.value.state.Issued? && e.cert.value.arn != ""
      ==> HasCert(w.cr.value.spec, e.cert.value.arn)
    case Edit(spec) => TenantId(w).Some? ==> Admit(spec) == w.cr.value.spec
    case RequestDeletion => false
    case _ => true
  }

  /** A recorded tenant is one whose generation was observed. */
  predicate Observed(w: World)
  {
    w.cr.Some? ==>
      && !w.cr.value.deleting
      && (w.cr.value.status.id.Some? ==> w.cr.value.status.observedGeneration == w.cr.value.generation)
  }

  lemma ObservedTurn(w: World, e: Env)
    requires Sound(w) && Observed(w) && Undirected(w, Turn(e)) && !w.policy.Enforce?
    ensures Observed(Reconcile(w, e).world)
    ensures !PlanIn(w, e).call.UpdateCall? && !PlanIn(w, e).call.DeleteCall?
  {
    hide PlanCreate, PlanExisting, CloudFront.Disturb, BuildInput, BatchOf, Dns.Upsert, SpecMatches, ReadStatus, CloudFront.Update;
    if w.cr.Some? && w.cr.value.finalizer {
      var cr := w.cr.value;
      if cr.status.id.None? { CreateIsSummary(w, cr, e); }
      else {
        ExistingIsSummary(w, cr, e);
        if Drifted(w, e) { PolicyDecides(w, e); }
      }
    }
  }

  /** Under the other policies no run in which nobody asks for anything new ever updates a tenant. */
  lemma {:induction false} HandsOff(w: World, steps: seq<Step>)
    requires Sound(w) && Observed(w) && !w.policy.Enforce?
    requires Along(w, steps, (v, s) => Undirected(v, s))
    ensures Observed(Run(w, steps)) && Run(w, steps).policy == w.policy
    ensures Along(w, steps, (v: World, s: Step) => s.Turn? ==> !PlanIn(v, s.env).call.UpdateCall? && !PlanIn(v, s.env).call.DeleteCall?)
  {
    hide PlanReconcile, Observed, Undirected, Sound;
    if steps != [] {
      var init, last := steps[..|steps| - 1], steps[|steps| - 1];
      HandsOff(w, init);
      SoundRun(w, init);
      if last.Turn? { ObservedTurn(Run(w, init), last.env); } else { ObservedStep(Run(w, init), last); }
    }
  }

  lemma ObservedStep(w: World, step: Step)
    requires Observed(w) && Undirected(w, step) && !step.Turn?
    ensures Observed(Next(w, step))
  {
    hide Reconcile;
  }
}
