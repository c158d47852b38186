/** What the status conditions tell, outcome by outcome, in terms of what was read and answered. */
module Conditions {
  import opened Types
  import opened Certificates
  import opened ChangeDetection
  import opened Lifecycle
  import opened Phases
  import opened Runs
  import opened Scheduling
  import CloudFront
  import Dns

  /** A live resource whose tenant was read. */
  predicate Reads(w: World, e: Env)
  {
    TenantExists(w) && w.cr.value.finalizer && !w.cr.value.deleting && e.getFault.None?
  }

  function Tenant(w: World): CloudFront.Tenant
    requires TenantExists(w)
  {
    w.cloud.tenants[w.cr.value.status.id.value]
  }

  /** An issued certificate has yet to become active on some domain. */
  predicate Attaching(w: World, e: Env)
    requires TenantExists(w)
  {
    && w.cr.value.spec.managedCert.Some? && e.cert.Some? && e.cert.value.state.Issued? && e.cert.value.arn != ""
    && (Tenant(w).domains == [] || exists d :: d in Tenant(w).domains && !d.active)
  }

  /** The resource after a reconcile, with another status only. */
  ghost predicate Leaves(w: World, e: Env, verdict: Verdict, status: Status)
    requires w.cr.Some?
  {
    var r := Reconcile(w, e);
    r.verdict == verdict && r.world.cr == Some(w.cr.value.(status := status))
  }

  /** The state of a requested certificate. */
  ghost predicate TellsCertificate(n: Condition, cr: Resource, domains: seq<DomainResult>, cert: Option<CertDetails>)
  {
    var active := domains != [] && forall d | d in domains :: d.active;
    && n.generation == cr.generation
    && (n.ok <==> cr.spec.managedCert.None? || (active && (cert.None? || cert.value.state.Issued?)))
    && (n.reason == CertNotConfigured <==> cr.spec.managedCert.None?)
    && (n.reason == CertValidated <==> cr.spec.managedCert.Some? && n.ok)
    && (n.reason == CertAttaching <==> cr.spec.managedCert.Some? && cert.Some? && cert.value.state.Issued? && !active)
    && (n.reason == CertFailed <==> cr.spec.managedCert.Some? && cert.Some? && cert.value.state.Failed?)
    && n.reason in {CertNotConfigured, CertValidated, CertAttaching, CertFailed, CertPending}
  }

  lemma CertificateTold(cr: Resource, domains: seq<DomainResult>, cert: Option<CertDetails>)
    ensures TellsCertificate(CertCondition(cr, domains, cert), cr, domains, cert)
  {
  }

  /** The status of a reconcile that found everything in place. */
  ghost predicate TellsMatch(cr: Resource, t: CloudFront.Tenant, cert: Option<CertDetails>, s: Status)
  {
    && s.observedGeneration == cr.generation && s.id == cr.status.id && s.etag == t.etag && s.inProgress == t.inProgress
    && s.domainResults == t.domains && s.dnsChange == cr.status.dnsChange && s.dnsTarget == cr.status.dnsTarget
    && s.driftDetected == (t.inProgress && cr.status.driftDetected)
    && s.notes.ready == Condition(!t.inProgress, if t.inProgress then Deploying else Deployed, cr.generation)
    && s.notes.synced == Condition(true, InSync, cr.generation)
    && TellsCertificate(s.notes.cert, cr, t.domains, cert)
    && s.notes.dns == (if t.inProgress then cr.status.notes.dns
                       else if cr.spec.dns.None? then Condition(true, DnsNotConfigured, cr.generation)
                       else if cr.status.dnsTarget != "" then Condition(true, DnsReady, cr.generation)
                       else cr.status.notes.dns)
    && (if cr.spec.managedCert.Some? && cert.Some?
        then s.certArn == cert.value.arn && s.certState == cert.value.state
        else s.certArn == cr.status.certArn && s.certState == cr.status.certState)
  }

  /** A tenant that matches: the resource is ready exactly when nothing is being deployed, in sync
      either way, and the generation is observed. */
  lemma MatchingTenant(w: World, e: Env)
    requires Reads(w, e) && SpecMatches(w.cr.value.spec, Tenant(w)) && !Attaching(w, e) && !e.writeFails
    ensures Reconcile(w, e).world.cr.Some? &&
      var s := Reconcile(w, e).world.cr.value.status;
      Leaves(w, e, Requeue, s) && TellsMatch(w.cr.value, Tenant(w), e.cert, s)
  {
    hide SpecMatches, CloudFront.Disturb, PlanDrift, PlanSpecChange, PlanSteady, TellsMatch;
    SteadySettles(w.cr.value, Tenant(w), e, Rest(w, Done).(cloud := CloudFront.Disturb(w.cloud, e.between)));
  }

  lemma SteadySettles(cr: Resource, t: CloudFront.Tenant, e: Env, p: Plan)
    requires SpecMatches(cr.spec, t) && !AttachDue(cr.(status := ReadStatus(cr, t, CertOf(cr, e))), CertOf(cr, e))
    ensures var q := PlanSteady(cr.(status := ReadStatus(cr, t, CertOf(cr, e))), CertOf(cr, e), e, p);
      q.verdict.Requeue? && q.write.PutStatus? && TellsMatch(cr, t, e.cert, q.write.status)
      && q == p.(write := q.write, verdict := q.verdict)
  {
    hide SpecMatches, Orphans, BatchOf, CertCondition, TellsCertificate, Dns.Delete;
    NoOrphans(cr.spec, t);
    var read := cr.(status := ReadStatus(cr, t, CertOf(cr, e)));
    CertificateTold(read, t.domains, CertOf(cr, e));
    SameCertificate(CertCondition(read, t.domains, CertOf(cr, e)), cr, read, t.domains, e);
  }

  lemma SameCertificate(n: Condition, cr: Resource, read: Resource, domains: seq<DomainResult>, e: Env)
    requires read == cr.(status := read.status)
    ensures TellsCertificate(n, read, domains, CertOf(cr, e)) <==> TellsCertificate(n, cr, domains, e.cert)
  {
  }

  // Becoming ready.

  /** Nothing is written that makes the resource ready anew. */
  ghost predicate NotReadied(ready: Condition, q: Plan)
  {
    q.write.PutStatus? ==> q.write.status.notes.ready == ready || !q.write.status.notes.ready.ok
  }

  lemma ErrorsNotReady(cr: Resource, e: Env, p: Plan, err: AwsError)
    requires p.write.NoWrite?
    ensures NotReadied(cr.status.notes.ready, OnAwsError(cr, e, p, err))
    ensures NotReadied(cr.status.notes.ready, OnTerminalOnly(cr, e, p, err))
    ensures NotReadied(cr.status.notes.ready, OnDnsError(cr, p, err))
    ensures NotReadied(cr.status.notes.ready, Rejected(cr, e, p, ValidationFailed))
    ensures NotReadied(cr.status.notes.ready, UpsertFailed(cr, p))
  {
  }

  lemma UpdateNotReady(cr: Resource, t: CloudFront.Tenant, e: Env, p: Plan)
    requires cr.status.id.Some? && p.write.NoWrite?
    ensures NotReadied(cr.status.notes.ready, PlanUpdate(cr, t, e, p))
  {
    hide OnAwsError, CloudFront.Update, BuildInput;
    match CloudFront.Update(p.cloud, cr.status.id.value, t.etag, BuildInput(cr.spec), e.updateFault).1
    case Err(err) => ErrorsNotReady(cr, e, p.(call := UpdateCall(false)), err);
    case Ok(_) =>
  }

  lemma SpecChangeNotReady(cr: Resource, t: CloudFront.Tenant, e: Env, p: Plan)
    requires cr.status.id.Some? && p.write.NoWrite?
    ensures NotReadied(cr.status.notes.ready, PlanSpecChange(cr, t, e, p))
  {
    hide PlanUpdate, Rejected, UpsertFailed, Dns.Upsert, BatchOf;
    ErrorsNotReady(cr, e, p, OtherError);
    UpdateNotReady(cr, t, e, p);
    if ManagesRecords(cr) && (cr.status.dnsTarget != "" || e.target.Ok?) {
      var named := if cr.status.dnsTarget == "" then Targeted(cr, e.target.value) else cr;
      ErrorsNotReady(named, e, p, OtherError);
      ErrorsNotReady(named, e, p.(dns := UpsertCall(false)), OtherError);
      UpdateNotReady(named, t, e, p.(zones := Dns.Upsert(p.zones, BatchOf(named)), dns := UpsertCall(true)));
    }
  }

  lemma DriftNotReady(policy: Policy, cr: Resource, t: CloudFront.Tenant, e: Env, p: Plan)
    requires cr.status.id.Some? && p.write.NoWrite?
    ensures NotReadied(cr.status.notes.ready, PlanDrift(policy, cr, t, e, p))
  {
    hide PlanUpdate;
    UpdateNotReady(cr.(status := cr.status.(driftDetected := true)), t, e, p);
  }

  lemma CreateTenantNotReady(w: World, cr: Resource, e: Env)
    ensures NotReadied(cr.status.notes.ready, PlanCreateTenant(w, cr, e))
  {
    hide OnAwsError, CloudFront.Create, BuildInput, CertCondition;
    match CloudFront.Create(w.cloud, BuildInput(cr.spec), e.createFault).1
    case Err(err) => ErrorsNotReady(cr, e, Rest(w, Done).(call := CreateCall(false)), err);
    case Ok(_) =>
  }

  lemma PublishNotReady(w: World, cr: Resource, e: Env)
    ensures NotReadied(cr.status.notes.ready, PlanPublish(w, cr, e))
  {
    hide OnDnsError, Dns.Upsert, BatchOf;
    if e.target.Err? { ErrorsNotReady(cr, e, Rest(w, Done), e.target.error); }
    else if e.upsertFault.Some? { ErrorsNotReady(cr, e, Rest(w, Done).(dns := UpsertCall(false)), e.upsertFault.value); }
  }

  lemma CreateNotReady(w: World, cr: Resource, e: Env)
    ensures NotReadied(cr.status.notes.ready, PlanCreate(w, cr, e))
  {
    hide OnDnsError, Rejected, PlanCreateTenant, PlanPublish, Uncovered;
    ErrorsNotReady(cr, e, Rest(w, Done), OtherError);
    PublishNotReady(w, cr, e);
    CreateTenantNotReady(w, cr.(status := cr.status.(notes := cr.status.notes.(dns := Note(cr, true, DnsNotConfigured)))), e);
    CreateTenantNotReady(w, cr.(status := cr.status.(notes := cr.status.notes.(dns := Note(cr, true, DnsReady)))), e);
    if e.inSync.Err? { ErrorsNotReady(cr, e, Rest(w, Done), e.inSync.error); }
  }

  lemma DeleteNotReady(w: World, cr: Resource, e: Env)
    ensures NotReadied(cr.status.notes.ready, PlanDelete(w, cr, e))
  {
    hide OnTerminalOnly, CloudFront.Update, CloudFront.Delete, CloudFront.Disturb, DisableInput, Dns.Delete, BatchOf;
    forall p: Plan, err | p.write.NoWrite? ensures NotReadied(cr.status.notes.ready, OnTerminalOnly(cr, e, p, err)) {
      ErrorsNotReady(cr, e, p, err);
    }
  }

  /** A reconcile makes a resource ready only when it read a deployed tenant that matches the spec. */
  lemma ReadyMeansDeployed(w: World, e: Env)
    requires w.cr.Some? && Reconcile(w, e).world.cr.Some?
    requires var n := Reconcile(w, e).world.cr.value.status.notes.ready; n.ok && n != w.cr.value.status.notes.ready
    ensures Reads(w, e) && SpecMatches(w.cr.value.spec, Tenant(w)) && !Tenant(w).inProgress && !Attaching(w, e)
    ensures Reconcile(w, e).world.cr.value.status.notes.ready == Condition(true, Deployed, w.cr.value.generation)
    ensures Reconcile(w, e).world.cr.value.status.observedGeneration == w.cr.value.generation
  {
    hide PlanCreate, PlanDelete, PlanExisting, NotReadied;
    var cr := w.cr.value;
    CreateNotReady(w, cr, e);
    DeleteNotReady(w, cr, e);
    if cr.status.id.Some? { ExistingReady(w, cr, e); }
    NotReadiedMeans(w, cr, e);
  }

  lemma NotReadiedMeans(w: World, cr: Resource, e: Env)
    requires w.cr == Some(cr) && Reconcile(w, e).world.cr.Some?
    ensures NotReadied(cr.status.notes.ready, PlanIn(w, e)) ==>
              var n := Reconcile(w, e).world.cr.value.status.notes.ready; !n.ok || n == cr.status.notes.ready
    ensures PlanIn(w, e).write.PutStatus? && Reconcile(w, e).world.cr != Some(cr)
            ==> Reconcile(w, e).world.cr == Some(cr.(status := PlanIn(w, e).write.status))
  {
    hide PlanReconcile;
  }

  lemma ExistingReady(w: World, cr: Resource, e: Env)
    requires w.cr == Some(cr) && cr.status.id.Some?
    ensures var q := PlanExisting(w, cr, e);
      || NotReadied(cr.status.notes.ready, q)
      || (&& TenantExists(w) && e.getFault.None? && SpecMatches(cr.spec, Tenant(w)) && !Tenant(w).inProgress && !Attaching(w, e)
          && q.write.PutStatus? && q.write.status.notes.ready == Condition(true, Deployed, cr.generation)
          && q.write.status.observedGeneration == cr.generation)
  {
    hide PlanSpecChange, PlanDrift, OnTerminalOnly, SpecMatches, CloudFront.Disturb, Orphans, BatchOf, Dns.Delete, CertCondition, DnsCondition;
    match CloudFront.Get(w.cloud, cr.status.id.value, e.getFault)
    case Err(err) => ErrorsNotReady(cr, e, Rest(w, Done), err);
    case Ok(t) => {
      var read := cr.(status := ReadStatus(cr, t, CertOf(cr, e)));
      var p := Rest(w, Done).(cloud := CloudFront.Disturb(w.cloud, e.between));
      SpecChangeNotReady(read, t, e, p);
      DriftNotReady(w.policy, read, t, e, p.(drift := true));
    }
  }
}
