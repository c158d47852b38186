/** Optimistic concurrency, section 13.1.1 of RFC 9110: a conditional write lands on exactly the
    state that was read, or not at all. */
module NoLostUpdate {
  import opened Types
  import opened ChangeDetection
  import opened Lifecycle
  import opened Phases
  import opened Runs
  import CloudFront
  import Dns

  /** What the reconcile read, and what others had made of it by the time of the write. */
  ghost predicate WroteWhatItRead(w: World, cr: Resource, e: Env, p: Plan)
  {
    var d := CloudFront.Disturb(w.cloud, e.between);
    cr.status.id.Some? &&
    var id := cr.status.id.value;
    && id in w.cloud.tenants && id in d.tenants
    && CloudFront.SameConfig(w.cloud.tenants[id], d.tenants[id])
    && if p.call.UpdateCall? then
         var input := if cr.deleting then DisableInput(cr.spec) else BuildInput(cr.spec);
         && p.cloud.tenants == d.tenants[id := CloudFront.Stored(input, w.cloud.tenants[id].enabled, d.nextEtag)]
         && p.cloud.nextEtag == d.nextEtag + 1
       else
         !w.cloud.tenants[id].enabled && p.cloud == d.(tenants := d.tenants - {id})
  }

  /** Another write got in between the read and the conditional write. */
  predicate Overtaken(w: World, e: Env)
  {
    w.cr.Some? && w.cr.value.status.id.Some? &&
    var id, d := w.cr.value.status.id.value, CloudFront.Disturb(w.cloud, e.between);
    id in w.cloud.tenants && id in d.tenants && d.tenants[id].etag != w.cloud.tenants[id].etag
  }

  /** Every update or delete that succeeds applied to the configuration read in the same reconcile,
      so no delete ever removes an enabled tenant. */
  lemma SuccessfulWritesAreCurrent(w: World, e: Env)
    requires Sound(w) && w.cr.Some?
    requires PlanIn(w, e).call in {UpdateCall(true), DeleteCall(true)}
    ensures WroteWhatItRead(w, w.cr.value, e, PlanIn(w, e))
  {
    hide PlanCreate, PlanExisting, PlanDelete, CloudFront.Disturb, CloudFront.Stored, BuildInput,
      DisableInput, SpecMatches, AttachDue, ReadStatus, BatchOf, Dns.Delete, Dns.Upsert;
    CloudFront.EtagGuardsConfig(w.cloud, e.between);
    var cr := w.cr.value;
    if cr.deleting { DeleteIsSummary(w, cr, e); }
    else if !cr.finalizer {}
    else if cr.status.id.None? { CreateIsSummary(w, cr, e); }
    else { ExistingIsSummary(w, cr, e); }
  }

  /** A reconcile that was overtaken writes nothing to CloudFront: what others left stays, and a
      conflict answered by CloudFront leaves the resource untouched too. */
  lemma ConflictChangesNothing(w: World, e: Env)
    requires Sound(w) && Overtaken(w, e) && e.getFault.None? && e.updateFault.None? && e.deleteFault.None?
    ensures !PlanIn(w, e).call.CreateCall?
    ensures PlanIn(w, e).call !in {UpdateCall(true), DeleteCall(true)}
    ensures PlanIn(w, e).call != NoCall ==>
              Reconcile(w, e).world == w.(cloud := CloudFront.Disturb(w.cloud, e.between), zones := PlanIn(w, e).zones)
  {
    hide PlanDelete, PlanExisting, CloudFront.Disturb;
    var cr := w.cr.value;
    if cr.deleting { DeleteConflict(w, cr, e); }
    else if cr.finalizer { ExistingConflict(w, cr, e); }
  }

  /** Nothing tried, or refused and left at that. */
  predicate HandsOff(p: Plan, cloud: CloudFront.Cloud)
  {
    p.call.NoCall? || (p.call in {UpdateCall(false), DeleteCall(false)} && p.write.NoWrite? && p.cloud == cloud)
  }

  lemma DeleteConflict(w: World, cr: Resource, e: Env)
    requires w.cr == Some(cr) && Overtaken(w, e)
    requires e.getFault.None? && e.updateFault.None? && e.deleteFault.None?
    ensures HandsOff(PlanDelete(w, cr, e), CloudFront.Disturb(w.cloud, e.between))
  {
    hide Release, CloudFront.Disturb, DisableInput, OnAwsError;
  }

  lemma ExistingConflict(w: World, cr: Resource, e: Env)
    requires w.cr == Some(cr) && Overtaken(w, e) && e.getFault.None? && e.updateFault.None?
    ensures HandsOff(PlanExisting(w, cr, e), CloudFront.Disturb(w.cloud, e.between))
  {
    hide PlanSteady, PlanSpecChange, PlanDrift, CloudFront.Disturb, SpecMatches;
    var t := w.cloud.tenants[cr.status.id.value];
    var p := Rest(w, Done).(cloud := CloudFront.Disturb(w.cloud, e.between));
    var read := cr.(status := ReadStatus(cr, t, CertOf(cr, e)));
    SpecChangeConflict(read, t, e, p);
    DriftConflict(w.policy, read, t, e, p.(drift := true));
    if SpecMatches(cr.spec, t) { SteadyIsSummary(cr, t, e, p); }
  }

  predicate Outdated(cr: Resource, t: CloudFront.Tenant, p: Plan)
    requires cr.status.id.Some?
  {
    cr.status.id.value in p.cloud.tenants && p.cloud.tenants[cr.status.id.value].etag != t.etag
  }

  lemma UpdateConflict(cr: Resource, t: CloudFront.Tenant, e: Env, p: Plan)
    requires cr.status.id.Some? && e.updateFault.None? && Outdated(cr, t, p)
    ensures PlanUpdate(cr, t, e, p) == p.(call := UpdateCall(false), verdict := Requeue)
  {
    hide OnAwsError, BuildInput, UpdatedStatus;
  }

  lemma SpecChangeConflict(cr: Resource, t: CloudFront.Tenant, e: Env, p: Plan)
    requires cr.status.id.Some? && Fresh(p) && e.updateFault.None? && Outdated(cr, t, p)
    ensures HandsOff(PlanSpecChange(cr, t, e, p), p.cloud)
  {
    hide Rejected, UpsertFailed, Dns.Upsert, PlanUpdate;
    if !ManagesRecords(cr) {
      UpdateConflict(cr, t, e, p);
    } else if cr.status.dnsTarget != "" || e.target.Ok? {
      var named := if cr.status.dnsTarget == "" then cr.(status := cr.status.(dnsTarget := e.target.value)) else cr;
      UpdateConflict(named, t, e, p.(zones := Dns.Upsert(p.zones, BatchOf(named)), dns := UpsertCall(true)));
    }
  }

  lemma DriftConflict(policy: Policy, cr: Resource, t: CloudFront.Tenant, e: Env, p: Plan)
    requires cr.status.id.Some? && Fresh(p) && e.updateFault.None? && Outdated(cr, t, p)
    ensures HandsOff(PlanDrift(policy, cr, t, e, p), p.cloud)
  {
    hide PlanUpdate;
    UpdateConflict(cr.(status := cr.status.(driftDetected := true)), t, e, p);
  }
}
