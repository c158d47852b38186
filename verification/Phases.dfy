/** What each phase of a reconcile can do, whatever the outside answers. Everything about runs is
    proved from these three summaries. */
module Phases {
  import opened Types
  import opened Matching
  import opened ChangeDetection
  import opened Lifecycle
  import CloudFront
  import Dns

  /** The recorded identity, observed generation and DNS progress stay. */
  ghost predicate Keeps(s: Status, write: Write)
  {
    || write.NoWrite?
    || (write.PutStatus?
        && write.status.id == s.id && write.status.observedGeneration == s.observedGeneration
        && write.status.dnsChange == s.dnsChange && write.status.dnsTarget == s.dnsTarget)
  }

  /** A status write that records the current generation as observed. */
  ghost predicate Observes(cr: Resource, write: Write)
  {
    && write.PutStatus?
    && write.status.id == cr.status.id && write.status.observedGeneration == cr.generation
    && write.status.dnsChange == cr.status.dnsChange
  }

  /** Nothing written yet, to Kubernetes or CloudFront. */
  ghost predicate Fresh(p: Plan)
  {
    p.write.NoWrite? && p.call.NoCall? && !p.dns.RemoveCall?
  }

  // Existing tenants.

  ghost predicate SteadySummary(cr: Resource, t: CloudFront.Tenant, e: Env, p: Plan, q: Plan)
  {
    var cert := CertOf(cr, e);
    && q == p.(write := q.write, verdict := q.verdict)
    && if AttachDue(cr.(status := ReadStatus(cr, t, cert)), cert)
       then q.write == PutSpec(AttachCert(cr.spec, cert.value.arn)) && q.verdict.Done?
       else Observes(cr, q.write) && q.write.status.dnsTarget == cr.status.dnsTarget && q.verdict.Requeue?
  }

  ghost predicate PushSummary(cr: Resource, t: CloudFront.Tenant, p: Plan, q: Plan)
    requires cr.status.id.Some?
  {
    var r := CloudFront.Update(p.cloud, cr.status.id.value, t.etag, BuildInput(cr.spec), None);
    && !q.verdict.Done? && q.drift == p.drift && !q.dns.RemoveCall?
    && (q.call.NoCall? || q.call.UpdateCall?)
    && if q.call == UpdateCall(true) then r.1.Ok? && q.cloud == r.0 && Observes(cr, q.write)
       else
         && q.cloud == p.cloud
         && (q.write.NoWrite?
             || (q.write.PutStatus? && q.write.status.id == cr.status.id
                 && q.write.status.observedGeneration == cr.status.observedGeneration
                 && q.write.status.dnsChange == cr.status.dnsChange))
  }

  ghost predicate ExistingSummary(w: World, cr: Resource, e: Env, q: Plan)
    requires cr.status.id.Some?
  {
    match CloudFront.Get(w.cloud, cr.status.id.value, e.getFault)
    case Err(err) =>
      && q == Rest(w, q.verdict).(write := q.write)
      && !q.verdict.Done?
      && if err.NotFound? then
           q.write.PutStatus? && q.write.status.id.None? && Keeps(cr.status.(id := None), q.write)
         else Keeps(cr.status, q.write)
    case Ok(t) =>
      var p := Rest(w, Done).(cloud := CloudFront.Disturb(w.cloud, e.between));
      if SpecMatches(cr.spec, t) then SteadySummary(cr, t, e, p, q)
      else PushSummary(cr, t, p.(drift := cr.generation == cr.status.observedGeneration), q)
  }

  lemma UpdateSummary(cr: Resource, t: CloudFront.Tenant, e: Env, p: Plan)
    requires cr.status.id.Some? && Fresh(p)
    ensures PushSummary(cr, t, p, PlanUpdate(cr, t, e, p))
    ensures var q := PlanUpdate(cr, t, e, p); q.zones == p.zones && q.dns == p.dns
    ensures e.updateFault.None? && p.cloud.tenants.Keys >= {cr.status.id.value} && p.cloud.tenants[cr.status.id.value].etag == t.etag
            ==> PlanUpdate(cr, t, e, p).call == UpdateCall(true)
  {
    hide OnAwsError;
  }

  lemma SpecChangeSummary(cr: Resource, t: CloudFront.Tenant, e: Env, p: Plan)
    requires cr.status.id.Some? && Fresh(p)
    ensures PushSummary(cr, t, p, PlanSpecChange(cr, t, e, p))
  {
    hide Rejected, UpsertFailed, PlanUpdate, PushSummary;
    if !e.accepted {
      NotesSummary(cr, cr, t, p, Rejected(cr, e, p, ValidationFailed));
    } else if !ManagesRecords(cr) {
      UpdateSummary(cr, t, e, p);
    } else if cr.status.dnsTarget == "" && e.target.Err? {
      NotesSummary(cr, cr, t, p, UpsertFailed(cr, p));
    } else {
      var named := if cr.status.dnsTarget == "" then cr.(status := cr.status.(dnsTarget := e.target.value)) else cr;
      var tried := p.(dns := UpsertCall(false));
      var upserted := p.(zones := Dns.Upsert(p.zones, BatchOf(named)), dns := UpsertCall(true));
      NotesSummary(cr, named, t, p, UpsertFailed(named, p));
      NotesSummary(cr, named, t, tried, UpsertFailed(named, tried));
      UpdateSummary(named, t, e, upserted);
      SummaryIgnoresDns(cr, named, t, p, tried, UpsertFailed(named, tried));
      SummaryIgnoresDns(cr, named, t, p, upserted, PlanUpdate(named, t, e, upserted));
    }
  }

  /** A plan that only reports an error fits the summary. */
  lemma NotesSummary(cr: Resource, named: Resource, t: CloudFront.Tenant, p: Plan, q: Plan)
    requires cr.status.id.Some? && Fresh(p)
    requires named == cr.(status := cr.status.(dnsTarget := named.status.dnsTarget))
    requires OnlyNotes(named.status, p, q)
    ensures PushSummary(cr, t, p, q)
  {
  }

  lemma SummaryIgnoresDns(cr: Resource, named: Resource, t: CloudFront.Tenant, p: Plan, r: Plan, q: Plan)
    requires cr.status.id.Some?
    requires named == cr.(status := cr.status.(dnsTarget := named.status.dnsTarget))
    requires r == p.(zones := r.zones, dns := r.dns)
    requires PushSummary(named, t, r, q) || PushSummary(cr, t, r, q)
    ensures PushSummary(cr, t, p, q)
  {
    hide CloudFront.Update;
  }

  lemma DriftSummary(policy: Policy, cr: Resource, t: CloudFront.Tenant, e: Env, p: Plan)
    requires cr.status.id.Some? && Fresh(p)
    ensures PushSummary(cr, t, p, PlanDrift(policy, cr, t, e, p))
  {
    hide PlanUpdate;
    UpdateSummary(cr.(status := cr.status.(driftDetected := true)), t, e, p);
  }

  /** When AWS matches the spec, no domain AWS reports is missing from the spec. */
  lemma NoOrphans(spec: Spec, t: CloudFront.Tenant)
    requires SpecMatches(spec, t)
    ensures Orphans(t.domains, spec.domains) == []
  {
    FilterKeeps(CloudFront.Names(t.domains), d => d !in spec.domains);
  }

  lemma SteadyIsSummary(cr: Resource, t: CloudFront.Tenant, e: Env, p: Plan)
    requires SpecMatches(cr.spec, t) && Fresh(p)
    ensures SteadySummary(cr, t, e, p, PlanSteady(cr.(status := ReadStatus(cr, t, CertOf(cr, e))), CertOf(cr, e), e, p))
  {
    hide CertCondition, DnsCondition, Dns.Delete, SpecMatches, Orphans;
    NoOrphans(cr.spec, t);
  }

  lemma ExistingIsSummary(w: World, cr: Resource, e: Env)
    requires cr.status.id.Some?
    ensures ExistingSummary(w, cr, e, PlanExisting(w, cr, e))
  {
    hide PlanSpecChange, PlanDrift, PlanSteady, OnTerminalOnly, SpecMatches, SteadySummary, CloudFront.Disturb;
    match CloudFront.Get(w.cloud, cr.status.id.value, e.getFault)
    case Err(_) =>
    case Ok(t) => {
      var read := cr.(status := ReadStatus(cr, t, CertOf(cr, e)));
      var p := Rest(w, Done).(cloud := CloudFront.Disturb(w.cloud, e.between));
      SpecChangeSummary(read, t, e, p);
      DriftSummary(w.policy, read, t, e, p.(drift := true));
      if SpecMatches(cr.spec, t) { SteadyIsSummary(cr, t, e, p); }
    }
  }

  // Creation.

  /** The resource with the target its records are to point at. */
  function Targeted(cr: Resource, target: string): Resource
  {
    cr.(status := cr.status.(dnsTarget := target))
  }

  ghost predicate CreateSummary(w: World, cr: Resource, e: Env, q: Plan)
  {
    var r := CloudFront.Create(w.cloud, BuildInput(cr.spec), None);
    && !q.drift && !q.verdict.Done?
    && if q.call == CreateCall(true) then
         && q == Rest(w, q.verdict).(cloud := r.0, call := q.call, write := q.write)
         && r.1.Ok?
         && q.write.PutStatus? && q.write.status.id == Some(w.cloud.nextId) && q.write.status.dnsChange.None?
         && q.write.status.observedGeneration == cr.generation && q.write.status.dnsTarget == cr.status.dnsTarget
         && (cr.spec.dns.Some? ==> cr.status.dnsChange.Some? && e.inSync == Ok(true))
       else if q.dns == UpsertCall(true) then
         && q.write.PutStatus?
         && var s := q.write.status;
         && ManagesRecords(cr) && cr.status.dnsChange.None? && e.target == Ok(s.dnsTarget)
         && s == cr.status.(dnsChange := Some(|w.zones.changes|), dnsTarget := s.dnsTarget, notes := s.notes)
         && q == Rest(w, q.verdict).(zones := Dns.Upsert(w.zones, BatchOf(Targeted(cr, s.dnsTarget))),
                                     dns := q.dns, write := q.write)
       else
         && q == Rest(w, q.verdict).(call := q.call, dns := q.dns, write := q.write)
         && q.call in {NoCall, CreateCall(false)} && q.dns in {NoDns, UpsertCall(false)}
         && Keeps(cr.status, q.write)
  }

  lemma CreateTenantSummary(w: World, cr: Resource, e: Env)
    requires cr.status.id.None?
    requires cr.spec.dns.Some? ==> cr.status.dnsChange.Some? && e.inSync == Ok(true)
    ensures CreateSummary(w, cr, e, PlanCreateTenant(w, cr, e))
    ensures e.createFault.None? ==> PlanCreateTenant(w, cr, e).call == CreateCall(true)
  {
    hide OnAwsError, CertCondition, BuildInput;
  }

  lemma DnsStepSummary(w: World, cr: Resource, e: Env)
    requires cr.spec.dns.Some?
    ensures match DnsBeforeCreate(w, cr, e)
            case Handled(q) => CreateSummary(w, cr, e, q)
            case Ready(s) => cr.status.dnsChange.Some? && e.inSync == Ok(true)
                             && s == cr.status.(notes := s.notes)
  {
    hide OnDnsError, CloudFront.Create, BuildInput, Dns.Upsert;
  }

  lemma CreateIsSummary(w: World, cr: Resource, e: Env)
    requires cr.status.id.None?
    ensures CreateSummary(w, cr, e, PlanCreate(w, cr, e))
  {
    hide Rejected, DnsBeforeCreate, PlanCreateTenant, CloudFront.Create, BuildInput, Dns.Upsert;
    if e.accepted {
      if cr.spec.dns.None? {
        CreateTenantSummary(w, cr.(status := cr.status.(notes := cr.status.notes.(dns := Note(cr, true, DnsNotConfigured)))), e);
      } else {
        DnsStepSummary(w, cr, e);
        match DnsBeforeCreate(w, cr, e)
        case Handled(_) =>
        case Ready(s) => CreateTenantSummary(w, cr.(status := s), e);
      }
    }
  }

  // Deletion.

  /** Letting the resource go takes removing records first. */
  predicate RemovesRecords(cr: Resource)
  {
    ManagesRecords(cr) && cr.status.dnsTarget != ""
  }

  ghost predicate DeleteSummary(w: World, cr: Resource, e: Env, q: Plan)
  {
    && !q.drift
    && !q.dns.UpsertCall? && (q.zones == w.zones || (RemovesRecords(cr) && q.zones == Dns.Delete(w.zones, BatchOf(cr)).0))
    && (q.write.DropFinalizer? || Keeps(cr.status, q.write))
    && (q.write.DropFinalizer? && RemovesRecords(cr) ==> q.zones == Dns.Delete(w.zones, BatchOf(cr)).0)
    && (q.write.DropFinalizer? && cr.status.id.Some? ==>
          CloudFront.Get(w.cloud, cr.status.id.value, e.getFault) == Err(NotFound) || q.call == DeleteCall(true))
    && match q.call
       case NoCall => q.cloud == w.cloud
       case CreateCall(_) => false
       case UpdateCall(ok) => TouchSummary(w, cr, e, q) && (ok ==> q.write.PutStatus?)
       case DeleteCall(ok) => TouchSummary(w, cr, e, q)
  }

  /** A write in the deletion flow, applied to what others left of CloudFront. */
  ghost predicate TouchSummary(w: World, cr: Resource, e: Env, q: Plan)
    requires q.call.UpdateCall? || q.call.DeleteCall?
  {
    && cr.status.id.Some? && cr.status.id.value in w.cloud.tenants
    && var id, d := cr.status.id.value, CloudFront.Disturb(w.cloud, e.between);
    && var etag := w.cloud.tenants[id].etag;
    && if !q.call.ok then q.cloud == d
       else if q.call.UpdateCall? then
         var r := CloudFront.Update(d, id, etag, DisableInput(cr.spec), None);
         r.1.Ok? && q.cloud == r.0
       else
         !w.cloud.tenants[id].enabled && CloudFront.Delete(d, id, etag, None) == (q.cloud, None)
  }

  lemma ReleaseSummary(cr: Resource, e: Env, p: Plan)
    requires p.write.NoWrite? && p.dns.NoDns?
    ensures var q := Release(cr, e, p);
      && q == p.(zones := q.zones, write := q.write, verdict := q.verdict, dns := q.dns)
      && !q.dns.UpsertCall? && (q.zones == p.zones || (RemovesRecords(cr) && q.zones == Dns.Delete(p.zones, BatchOf(cr)).0))
      && (q.write.NoWrite? || q.write.DropFinalizer?)
      && (q.write.DropFinalizer? && RemovesRecords(cr) ==> q.zones == Dns.Delete(p.zones, BatchOf(cr)).0)
  {
    hide Dns.Delete;
  }

  lemma RemoveSummary(w: World, cr: Resource, e: Env)
    requires cr.status.id.Some? && cr.status.id.value in w.cloud.tenants
    requires !w.cloud.tenants[cr.status.id.value].enabled
    ensures var id := cr.status.id.value;
      DeleteSummary(w, cr, e, PlanRemove(cr, id, w.cloud.tenants[id], e,
                                         Rest(w, Done).(cloud := CloudFront.Disturb(w.cloud, e.between))))
  {
    hide Release, OnTerminalOnly, Dns.Delete, CloudFront.Disturb, BatchOf;
    var id, p := cr.status.id.value, Rest(w, Done).(cloud := CloudFront.Disturb(w.cloud, e.between));
    var cloud := CloudFront.Delete(p.cloud, id, w.cloud.tenants[id].etag, e.deleteFault).0;
    ReleaseSummary(cr, e, p.(cloud := cloud, call := DeleteCall(true)));
  }

  lemma DisableSummary(w: World, cr: Resource, e: Env)
    requires cr.status.id.Some? && cr.status.id.value in w.cloud.tenants
    ensures var id := cr.status.id.value;
      DeleteSummary(w, cr, e, PlanDisable(cr, id, w.cloud.tenants[id], e,
                                          Rest(w, Done).(cloud := CloudFront.Disturb(w.cloud, e.between))))
  {
    hide OnTerminalOnly, Dns.Delete, CloudFront.Disturb, BatchOf, DisableInput;
  }

  lemma DeleteIsSummary(w: World, cr: Resource, e: Env)
    ensures DeleteSummary(w, cr, e, PlanDelete(w, cr, e))
  {
    hide Release, PlanDisable, PlanRemove, OnTerminalOnly, Dns.Delete, CloudFront.Disturb, TouchSummary;
    ReleaseSummary(cr, e, Rest(w, Done));
    if cr.status.id.Some? && cr.status.id.value in w.cloud.tenants {
      DisableSummary(w, cr, e);
      if !w.cloud.tenants[cr.status.id.value].enabled { RemoveSummary(w, cr, e); }
    }
  }
}
