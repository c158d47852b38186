/** How a reconcile ends and what it leaves in the resource, call by call. */
module Outcomes {
  import opened Types
  import opened Certificates
  import opened ChangeDetection
  import opened Lifecycle
  import opened Phases
  import opened Runs
  import opened Conditions
  import CloudFront
  import Dns

  /** A live resource without a tenant. */
  predicate ToCreate(w: World)
  {
    w.cr.Some? && w.cr.value.finalizer && !w.cr.value.deleting && w.cr.value.status.id.None?
  }

  /** The reconcile ends so and leaves the resource as it was. */
  ghost predicate Untouched(w: World, e: Env, verdict: Verdict)
  {
    Reconcile(w, e).world.cr == w.cr && Reconcile(w, e).verdict == verdict
  }

  /** One status write, refused or not. */
  ghost predicate Writes(w: World, e: Env, verdict: Verdict, status: Status)
    requires w.cr.Some?
  {
    if e.writeFails then Untouched(w, e, Fail) else Leaves(w, e, verdict, status)
  }

  function StatusAfter(w: World, e: Env): Status
    requires w.cr.Some?
  {
    var v := Reconcile(w, e).world;
    if v.cr.Some? then v.cr.value.status else w.cr.value.status
  }

  /** The error goes on record for this generation, once per message, and the reconcile comes back. */
  ghost predicate Reported(w: World, e: Env, reason: Reason, dns: Condition)
    requires w.cr.Some?
  {
    var n, c := w.cr.value.status.notes, Condition(false, reason, w.cr.value.generation);
    if n.ready == c && e.sameMessage then Untouched(w, e, Requeue)
    else
      var s := StatusAfter(w, e);
      Writes(w, e, Requeue, s) && (!e.writeFails ==> s.notes == n.(ready := c, synced := c, dns := dns))
  }

  /** Terminal errors are reported, `soft` ones retried later, all others with an error. */
  ghost predicate Answered(w: World, e: Env, err: AwsError, soft: set<AwsError>, dns: Condition)
    requires w.cr.Some?
  {
    match err
    case Terminal(reason) => Reported(w, e, reason, dns)
    case InvalidArgument => Reported(w, e, InvalidSpec, dns)
    case _ => Untouched(w, e, if err in soft then Requeue else Fail)
  }

  // First and last sight.

  /** A resource is first claimed, and one that was never claimed may go. */
  lemma ClaimsResource(w: World, e: Env)
    requires w.cr.Some? && !w.cr.value.finalizer
    ensures Reconcile(w, e).world == w.(cr := Reconcile(w, e).world.cr)
    ensures w.cr.value.deleting ==> Untouched(w, e, Done)
    ensures !w.cr.value.deleting ==>
              if e.writeFails then Untouched(w, e, Fail)
              else Reconcile(w, e).world.cr == Some(w.cr.value.(finalizer := true)) && Reconcile(w, e).verdict.Requeue?
  {
  }

  // Reading.

  lemma ReadErrors(w: World, e: Env, err: AwsError)
    requires w.cr.Some? && w.cr.value.finalizer && w.cr.value.status.id.Some?
    requires e.getFault == Some(err) && !err.NotFound?
    ensures Answered(w, e, err, {}, w.cr.value.status.notes.dns)
  {
    hide PlanCreate, PlanSpecChange, PlanDrift, PlanSteady, PlanDisable, PlanRemove, Release, CloudFront.Disturb;
  }

  /** A tenant that is gone is created anew: the resource forgets its id and comes back. */
  lemma GoneTenant(w: World, e: Env)
    requires w.cr.Some? && w.cr.value.finalizer && !w.cr.value.deleting && w.cr.value.status.id.Some?
    requires e.getFault == Some(NotFound) || (e.getFault.None? && !TenantExists(w))
    ensures var s := w.cr.value.status;
      Writes(w, e, Requeue, s.(id := None, etag := 0, notes := s.notes.(ready := Condition(false, Creating, w.cr.value.generation))))
  {
  }

  // Updating.

  /** Why the update of the tenant was refused. */
  function Refusal(w: World, e: Env): AwsError
    requires TenantExists(w)
  {
    var d := CloudFront.Disturb(w.cloud, e.between);
    if e.updateFault.Some? then e.updateFault.value
    else if w.cr.value.status.id.value !in d.tenants then NotFound
    else PreconditionFailed
  }

  lemma UpdateAnswers(w: World, cr: Resource, named: Resource, e: Env, p: Plan)
    requires w.cr == Some(cr) && TenantExists(w) && p.cloud == CloudFront.Disturb(w.cloud, e.between) && p.write.NoWrite?
    requires named == cr.(status := named.status) && named.status.id == cr.status.id && named.status.notes == cr.status.notes
    requires named.status.dnsChange == cr.status.dnsChange
    ensures var q := PlanUpdate(named, Tenant(w), e, p);
      && q.call in {UpdateCall(true), UpdateCall(false)}
      && (PlanIn(w, e) == q && q.call == UpdateCall(false) ==>
            Answered(w, e, Refusal(w, e), {Throttling, PreconditionFailed}, cr.status.notes.dns))
      && (PlanIn(w, e) == q && q.call == UpdateCall(true) ==> UpdateRecorded(w, e))
  {
    hide PlanIn, CloudFront.Disturb, BuildInput, PlanReconcile, OnAwsError, Reconcile, Answered, UpdateRecorded, UpdatedStatus;
    var q := PlanUpdate(named, Tenant(w), e, p);
    if PlanIn(w, e) == q {
      ErrorAnswers(w, cr, named, e, p.(call := UpdateCall(false)), Refusal(w, e));
      if q.call == UpdateCall(true) {
        var kept := p.cloud.tenants[cr.status.id.value].enabled;
        assert q.write.status == UpdatedStatus(named, Sent(w, e, kept));
        UpdateGoesOut(w, cr, named, e, q);
      }
    }
  }

  lemma ErrorAnswers(w: World, cr: Resource, named: Resource, e: Env, p: Plan, err: AwsError)
    requires w.cr == Some(cr) && named == cr.(status := named.status) && named.status.notes == cr.status.notes && p.write.NoWrite?
    ensures PlanIn(w, e) == (if err.PreconditionFailed? then p.(verdict := Requeue) else OnAwsError(named, e, p, err))
            ==> Answered(w, e, err, {Throttling, PreconditionFailed}, cr.status.notes.dns)
  {
    hide PlanIn, PlanReconcile;
    ByPlan(w, cr, e);
  }

  /** The tenant an update leaves. */
  function Sent(w: World, e: Env, kept: bool): CloudFront.Tenant
    requires w.cr.Some?
  {
    CloudFront.Stored(BuildInput(w.cr.value.spec), kept, CloudFront.Disturb(w.cloud, e.between).nextEtag)
  }

  lemma UpdateGoesOut(w: World, cr: Resource, named: Resource, e: Env, q: Plan)
    requires w.cr == Some(cr) && TenantExists(w) && named == cr.(status := named.status)
    requires named.status.id == cr.status.id && named.status.notes == cr.status.notes
    requires named.status.dnsChange == cr.status.dnsChange
    requires PlanIn(w, e) == q && q.verdict.Requeue? && q.write.PutStatus?
    requires exists kept :: q.write.status == UpdatedStatus(named, Sent(w, e, kept))
    ensures UpdateRecorded(w, e)
  {
    hide PlanIn, PlanReconcile;
    ByPlan(w, cr, e);
    assert CloudFront.Names(CloudFront.Activated(cr.spec.domains)) == cr.spec.domains;
  }

  lemma ByPlan(w: World, cr: Resource, e: Env)
    requires w.cr == Some(cr)
    ensures Reconcile(w, e) == Commit(w, cr, PlanIn(w, e), e.writeFails)
  {
  }

  /** A successful update: deployment pending, in sync, and the generation observed. */
  ghost predicate UpdateRecorded(w: World, e: Env)
    requires TenantExists(w)
  {
    var cr, s, d := w.cr.value, StatusAfter(w, e), CloudFront.Disturb(w.cloud, e.between);
    Writes(w, e, Requeue, s)
    && (!e.writeFails ==>
          && s.observedGeneration == cr.generation && s.id == cr.status.id && s.dnsChange == cr.status.dnsChange
          && s.etag == d.nextEtag && s.inProgress && CloudFront.Names(s.domainResults) == cr.spec.domains
          && (forall r | r in s.domainResults :: r.active)
          && s.notes == cr.status.notes.(ready := Condition(false, Deploying, cr.generation),
                                         synced := Condition(true, UpdatePending, cr.generation)))
  }

  lemma SpecChangeAnswers(w: World, cr: Resource, e: Env)
    requires w.cr == Some(cr) && Reads(w, e) && !SpecMatches(cr.spec, Tenant(w)) && cr.generation != cr.status.observedGeneration
    ensures PlanIn(w, e).call == UpdateCall(false) ==>
              Answered(w, e, Refusal(w, e), {Throttling, PreconditionFailed}, cr.status.notes.dns)
    ensures PlanIn(w, e).call == UpdateCall(true) ==> UpdateRecorded(w, e)
  {
    hide PlanUpdate, Rejected, UpsertFailed, Dns.Upsert, BatchOf, SpecMatches, CloudFront.Disturb, Refusal, UpdateRecorded, Answered, Reconcile;
    var p := Rest(w, Done).(cloud := CloudFront.Disturb(w.cloud, e.between));
    var read := cr.(status := ReadStatus(cr, Tenant(w), CertOf(cr, e)));
    UpdateAnswers(w, cr, read, e, p);
    if ManagesRecords(cr) && (cr.status.dnsTarget != "" || e.target.Ok?) {
      var named := if cr.status.dnsTarget == "" then Targeted(read, e.target.value) else read;
      UpdateAnswers(w, cr, named, e, p.(zones := Dns.Upsert(p.zones, BatchOf(named)), dns := UpsertCall(true)));
    }
  }

  lemma DriftAnswers(w: World, cr: Resource, e: Env)
    requires w.cr == Some(cr) && Reads(w, e) && !SpecMatches(cr.spec, Tenant(w)) && cr.generation == cr.status.observedGeneration
    ensures PlanIn(w, e).call == UpdateCall(false) ==>
              Answered(w, e, Refusal(w, e), {Throttling, PreconditionFailed}, cr.status.notes.dns)
    ensures PlanIn(w, e).call == UpdateCall(true) ==> UpdateRecorded(w, e)
  {
    hide PlanUpdate, SpecMatches, CloudFront.Disturb, Refusal, UpdateRecorded, Answered, Reconcile;
    var p := Rest(w, Done).(cloud := CloudFront.Disturb(w.cloud, e.between), drift := true);
    var read := cr.(status := ReadStatus(cr, Tenant(w), CertOf(cr, e)));
    UpdateAnswers(w, cr, read.(status := read.status.(driftDetected := true)), e, p);
  }

  /** However a live reconcile came to update the tenant, this is how it ends. */
  lemma UpdatesTenant(w: World, e: Env)
    requires Reads(w, e)
    ensures PlanIn(w, e).call == UpdateCall(false) ==>
              Answered(w, e, Refusal(w, e), {Throttling, PreconditionFailed}, w.cr.value.status.notes.dns)
    ensures PlanIn(w, e).call == UpdateCall(true) ==> UpdateRecorded(w, e)
  {
    hide PlanSpecChange, PlanDrift, SpecMatches, CloudFront.Disturb, Refusal, UpdateRecorded, Answered, Reconcile;
    var cr := w.cr.value;
    if SpecMatches(cr.spec, Tenant(w)) {
      SteadyIsSummary(cr, Tenant(w), e, Rest(w, Done).(cloud := CloudFront.Disturb(w.cloud, e.between)));
    } else if cr.generation != cr.status.observedGeneration {
      SpecChangeAnswers(w, cr, e);
    } else {
      DriftAnswers(w, cr, e);
    }
  }

  /** A spec the checks refuse is reported and goes nowhere. */
  lemma RefusedSpec(w: World, e: Env)
    requires ToCreate(w) || (Reads(w, e) && !SpecMatches(w.cr.value.spec, Tenant(w))
                             && w.cr.value.generation != w.cr.value.status.observedGeneration)
    requires !e.accepted
    ensures Reported(w, e, ValidationFailed, w.cr.value.status.notes.dns)
    ensures PlanIn(w, e).call.NoCall? && PlanIn(w, e).dns.NoDns?
  {
    hide SpecMatches, CloudFront.Disturb;
  }

  /** Without its records an update does not go out. */
  lemma UnpublishedUpdate(w: World, e: Env)
    requires Reads(w, e) && !SpecMatches(w.cr.value.spec, Tenant(w))
    requires w.cr.value.generation != w.cr.value.status.observedGeneration && e.accepted && ManagesRecords(w.cr.value)
    requires (w.cr.value.status.dnsTarget == "" && e.target.Err?) || !e.dnsClient || e.upsertFault.Some?
    ensures PlanIn(w, e).call.NoCall? && PlanIn(w, e).zones == w.zones
    ensures Untouched(w, e, Fail) || Leaves(w, e, Fail, StatusAfter(w, e))
    ensures !e.writeFails ==>
              var n := w.cr.value.status.notes;
              StatusAfter(w, e).notes == n.(dns := Condition(false, DnsFailure, w.cr.value.generation))
  {
    hide SpecMatches, CloudFront.Disturb, PlanUpdate;
  }

  /** An issued certificate that is not active everywhere goes into the spec of a matching tenant, even
      while that is being deployed, and nothing else happens. */
  lemma AttachesCertificate(w: World, e: Env)
    requires Reads(w, e) && SpecMatches(w.cr.value.spec, Tenant(w)) && Attaching(w, e)
    ensures PlanIn(w, e).call.NoCall? && PlanIn(w, e).dns.NoDns?
    ensures e.writeFails ==> Untouched(w, e, Fail)
    ensures !e.writeFails ==>
              var cr, v := w.cr.value, Reconcile(w, e).world;
              && v.cr.Some? && Reconcile(w, e).verdict.Done?
              && v.cr.value == cr.(spec := v.cr.value.spec, generation := v.cr.value.generation)
              && var c := cr.spec.customizations.GetOr(NO_CUSTOMIZATIONS).(certificate := Some(e.cert.value.arn));
              v.cr.value.spec == Admit(cr.spec.(customizations := Some(c)))
  {
    hide SpecMatches, CloudFront.Disturb, PlanDrift, PlanSpecChange, Admit;
  }

  // Creating.

  /** The certificate check stops a first publication. */
  predicate Mismatched(cr: Resource, e: Env)
  {
    cr.spec.managedCert.None? && cr.status.dnsChange.None? && e.sans.Some? && Uncovered(cr.spec.domains, e.sans.value) != []
  }

  lemma RefusedCertificate(w: World, e: Env)
    requires ToCreate(w) && e.accepted && w.cr.value.spec.dns.Some? && Mismatched(w.cr.value, e)
    ensures PlanIn(w, e).call.NoCall? && PlanIn(w, e).dns.NoDns?
    ensures var s := w.cr.value.status;
      Writes(w, e, Requeue, s.(notes := s.notes.(ready := Condition(false, SanMismatch, w.cr.value.generation))))
  {
    hide Uncovered, PlanPublish, PlanCreateTenant;
  }

  /** Terminal DNS errors go on record, throttling is retried later, all others with an error. */
  ghost predicate DnsAnswered(w: World, e: Env, err: AwsError)
    requires w.cr.Some?
  {
    var s, c := w.cr.value.status, Condition(false, DnsFailure, w.cr.value.generation);
    if IsTerminal(err) then Writes(w, e, Requeue, s.(notes := s.notes.(dns := c, ready := c)))
    else Untouched(w, e, if err.DnsThrottling? then Requeue else Fail)
  }

  /** First step: publish the records, remember change and target. Nothing is created yet. */
  lemma PublishesRecords(w: World, e: Env)
    requires ToCreate(w) && e.accepted && w.cr.value.spec.dns.Some? && w.cr.value.status.dnsChange.None?
    requires !Mismatched(w.cr.value, e)
    ensures PlanIn(w, e).call.NoCall?
    ensures e.target.Err? ==> DnsAnswered(w, e, e.target.error)
    ensures e.target.Ok? && (!e.dnsClient || !ManagesRecords(w.cr.value)) ==> Untouched(w, e, Fail)
    ensures e.target.Ok? && e.dnsClient && ManagesRecords(w.cr.value) && e.upsertFault.Some? ==> DnsAnswered(w, e, e.upsertFault.value)
    ensures e.target.Ok? && e.dnsClient && ManagesRecords(w.cr.value) && e.upsertFault.None? ==>
              var cr, s := w.cr.value, w.cr.value.status;
              && Writes(w, e, Requeue, s.(dnsChange := Some(|w.zones.changes|), dnsTarget := e.target.value,
                                          notes := s.notes.(dns := Condition(false, DnsPropagating, cr.generation))))
              && var z := Reconcile(w, e).world.zones;
              && |z.changes| == |w.zones.changes| + 1
              && forall d | d in cr.spec.domains ::
                   var k := Dns.Key(cr.spec.dns.value.hostedZone.value, d);
                   k in z.records && z.records[k] == Dns.Record(e.target.value, cr.spec.dns.value.ttl.GetOr(300))
  {
    hide Uncovered, PlanCreateTenant, OnDnsError, Dns.Upsert;
    if e.target.Err? { DnsErrorAnswers(w, w.cr.value, e, Rest(w, Done), e.target.error); }
    else if e.upsertFault.Some? { DnsErrorAnswers(w, w.cr.value, e, Rest(w, Done).(dns := UpsertCall(false)), e.upsertFault.value); }
    else if ManagesRecords(w.cr.value) { PublishedNames(w.zones, w.cr.value, e.target.value); }
  }

  lemma DnsErrorAnswers(w: World, cr: Resource, e: Env, p: Plan, err: AwsError)
    requires w.cr == Some(cr) && p.write.NoWrite?
    ensures PlanIn(w, e) == OnDnsError(cr, p, err) ==> DnsAnswered(w, e, err)
  {
    hide PlanIn, PlanReconcile;
    ByPlan(w, cr, e);
  }

  lemma PublishedNames(z: Dns.Zones, cr: Resource, target: string)
    requires ManagesRecords(cr)
    ensures var after := Dns.Upsert(z, BatchOf(cr.(status := cr.status.(dnsTarget := target))));
      && |after.changes| == |z.changes| + 1
      && forall d | d in cr.spec.domains ::
           var k := Dns.Key(cr.spec.dns.value.hostedZone.value, d);
           k in after.records && after.records[k] == Dns.Record(target, cr.spec.dns.value.ttl.GetOr(300))
  {
    var b := BatchOf(cr.(status := cr.status.(dnsTarget := target)));
    forall d | d in cr.spec.domains ensures Dns.Key(b.zone, d) in Dns.Keys(b) {}
  }

  /** Second step: wait for the change. */
  lemma PollsChange(w: World, e: Env)
    requires ToCreate(w) && e.accepted && w.cr.value.spec.dns.Some? && w.cr.value.status.dnsChange.Some?
    requires !e.dnsClient || e.inSync != Ok(true)
    ensures PlanIn(w, e).call.NoCall? && PlanIn(w, e).dns.NoDns?
    ensures !e.dnsClient ==> Untouched(w, e, Fail)
    ensures e.dnsClient && e.inSync.Err? ==> DnsAnswered(w, e, e.inSync.error)
    ensures e.dnsClient && e.inSync == Ok(false) ==>
              var s := w.cr.value.status;
              Writes(w, e, Requeue, s.(notes := s.notes.(dns := Condition(false, DnsPropagating, w.cr.value.generation))))
  {
    hide PlanCreateTenant, PlanPublish, OnDnsError, Uncovered;
    if e.inSync.Err? { DnsErrorAnswers(w, w.cr.value, e, Rest(w, Done), e.inSync.error); }
  }

  /** The way is clear for the create call. */
  predicate MayCreate(w: World, e: Env)
  {
    ToCreate(w) && e.accepted
    && (w.cr.value.spec.dns.None? || (w.cr.value.status.dnsChange.Some? && e.dnsClient && e.inSync == Ok(true)))
  }

  function DnsNote(cr: Resource): Condition
  {
    Condition(true, if cr.spec.dns.None? then DnsNotConfigured else DnsReady, cr.generation)
  }

  /** Last step: the create call, which is made exactly then. */
  lemma MakesTenant(w: World, e: Env)
    requires ToCreate(w)
    ensures PlanIn(w, e).call.CreateCall? <==> MayCreate(w, e)
    ensures MayCreate(w, e) && e.createFault.Some? ==> CreateRefused(w, e, e.createFault.value)
    ensures MayCreate(w, e) && e.createFault.None? ==> CreateRecorded(w, e)
  {
    hide PlanCreateTenant, PlanPublish, OnDnsError, Uncovered, Rejected, CreateRefused, CreateRecorded;
    var cr := w.cr.value;
    ByPlan(w, cr, e);
    var c := cr.(status := cr.status.(notes := cr.status.notes.(dns := DnsNote(cr))));
    if e.accepted && cr.spec.dns.Some? && cr.status.dnsChange.None? { PublishCallsNothing(w, cr, e); }
    if MayCreate(w, e) { CreateAnswers(w, cr, c, e); }
  }

  lemma PublishCallsNothing(w: World, cr: Resource, e: Env)
    ensures PlanPublish(w, cr, e).call.NoCall?
  {
    hide Dns.Upsert, BatchOf;
  }

  lemma CreateAnswers(w: World, cr: Resource, c: Resource, e: Env)
    requires w.cr == Some(cr) && c == cr.(status := cr.status.(notes := cr.status.notes.(dns := DnsNote(cr))))
    ensures PlanCreateTenant(w, c, e).call.CreateCall?
    ensures PlanIn(w, e) == PlanCreateTenant(w, c, e) ==>
              if e.createFault.Some? then CreateRefused(w, e, e.createFault.value) else CreateRecorded(w, e)
  {
    hide PlanIn, PlanReconcile, OnAwsError, CreatedStatus, BuildInput, CreateRefused, CreateRecorded;
    if e.createFault.Some? { RefusalAnswers(w, cr, c, e, e.createFault.value); } else { CreationAnswers(w, cr, c, e); }
    OnAwsErrorCalls(c, e, Rest(w, Done).(call := CreateCall(false)));
  }

  lemma OnAwsErrorCalls(c: Resource, e: Env, p: Plan)
    ensures forall err :: OnAwsError(c, e, p, err).call == p.call
  {
    forall err ensures OnAwsError(c, e, p, err).call == p.call { assert OnlyNotes(c.status, p, OnAwsError(c, e, p, err)); }
  }

  lemma RefusalAnswers(w: World, cr: Resource, c: Resource, e: Env, err: AwsError)
    requires w.cr == Some(cr) && c == cr.(status := cr.status.(notes := cr.status.notes.(dns := DnsNote(cr))))
    requires e.createFault == Some(err)
    ensures PlanIn(w, e) == PlanCreateTenant(w, c, e) ==> CreateRefused(w, e, err)
  {
    hide PlanIn, PlanReconcile;
    ByPlan(w, cr, e);
  }

  lemma CreationAnswers(w: World, cr: Resource, c: Resource, e: Env)
    requires w.cr == Some(cr) && c == cr.(status := cr.status.(notes := cr.status.notes.(dns := DnsNote(cr))))
    requires e.createFault.None?
    ensures PlanIn(w, e) == PlanCreateTenant(w, c, e) ==> CreateRecorded(w, e)
  {
    hide PlanIn, PlanReconcile, CertCondition, TellsCertificate;
    ByPlan(w, cr, e);
    var t := CloudFront.Stored(BuildInput(cr.spec), true, w.cloud.nextEtag);
    CertificateTold(c, t.domains, None);
    TellsAlike(CertCondition(c, t.domains, None), c, cr, t.domains);
    assert CloudFront.Names(CloudFront.Activated(cr.spec.domains)) == cr.spec.domains;
  }

  lemma TellsAlike(n: Condition, c: Resource, cr: Resource, domains: seq<DomainResult>)
    requires c == cr.(status := c.status)
    ensures TellsCertificate(n, c, domains, None) <==> TellsCertificate(n, cr, domains, None)
  {
  }

  /** A refused create. CloudFront answers a domain it cannot validate yet like a wrong argument; where
      it is to serve the token itself, that counts as waiting for DNS. */
  ghost predicate CreateRefused(w: World, e: Env, err: AwsError)
    requires w.cr.Some?
  {
    var cr, n := w.cr.value, w.cr.value.status.notes;
    if err.InvalidArgument? && cr.spec.managedCert.Some? && cr.spec.managedCert.value.validationTokenHost == "cloudfront" then
      Writes(w, e, Requeue, cr.status.(notes := n.(ready := Condition(false, DomainValidationPending, cr.generation), dns := DnsNote(cr))))
    else Answered(w, e, err, {Throttling}, DnsNote(cr))
  }

  /** A create that went through. */
  ghost predicate CreateRecorded(w: World, e: Env)
    requires w.cr.Some?
  {
    var cr, s := w.cr.value, StatusAfter(w, e);
    && Writes(w, e, Requeue, s)
    && (!e.writeFails ==>
          && s.id == Some(w.cloud.nextId) && s.etag == w.cloud.nextEtag && s.inProgress
          && s.observedGeneration == cr.generation && s.dnsChange.None? && s.dnsTarget == cr.status.dnsTarget
          && CloudFront.Names(s.domainResults) == cr.spec.domains && (forall r | r in s.domainResults :: r.active)
          && s.notes.ready == Condition(false, Creating, cr.generation)
          && s.notes.synced == Condition(true, InSync, cr.generation)
          && TellsCertificate(s.notes.cert, cr, s.domainResults, None)
          && s.notes.dns == DnsNote(cr))
  }

  // Deleting.

  predicate ToDelete(w: World)
  {
    w.cr.Some? && w.cr.value.finalizer && w.cr.value.deleting
  }

  /** The removal of the records does not go through. */
  predicate Held(w: World, e: Env)
    requires w.cr.Some?
  {
    RemovesRecords(w.cr.value)
    && (!e.dnsClient || e.removeFault.Some? || Dns.Stale(w.zones, BatchOf(w.cr.value)))
  }

  /** The resource goes, unless its records hold it or the write is refused: then it fails and stays. */
  ghost predicate LetsGo(w: World, e: Env)
    requires w.cr.Some?
  {
    if Held(w, e) || e.writeFails then Untouched(w, e, Fail)
    else Reconcile(w, e).world.cr.None? && Reconcile(w, e).verdict.Done?
  }

  lemma ReleaseAnswers(w: World, cr: Resource, e: Env, p: Plan)
    requires w.cr == Some(cr) && ToDelete(w) && p.write.NoWrite? && p.zones == w.zones
    ensures PlanIn(w, e) == Release(cr, e, p) ==> LetsGo(w, e)
  {
    hide PlanIn, PlanReconcile, BatchOf, Dns.Holds;
    ByPlan(w, cr, e);
  }

  lemma LetsResourceGo(w: World, e: Env)
    requires ToDelete(w)
    requires w.cr.value.status.id.None? || e.getFault == Some(NotFound) || (e.getFault.None? && !TenantExists(w))
    ensures PlanIn(w, e).call.NoCall? && LetsGo(w, e)
  {
    hide Release, CloudFront.Disturb, PlanDisable, PlanRemove, LetsGo;
    ReleaseAnswers(w, w.cr.value, e, Rest(w, Done));
    ReleaseSummary(w.cr.value, e, Rest(w, Done));
  }

  /** An enabled tenant is disabled, and that is all for now. */
  lemma DisablesTenant(w: World, e: Env)
    requires ToDelete(w) && TenantExists(w) && e.getFault.None? && Tenant(w).enabled
    ensures PlanIn(w, e).call.UpdateCall? && PlanIn(w, e).dns.NoDns?
    ensures PlanIn(w, e).call == UpdateCall(false) ==> Answered(w, e, Refusal(w, e), {}, w.cr.value.status.notes.dns)
    ensures PlanIn(w, e).call == UpdateCall(true) ==>
              var cr, s := w.cr.value, w.cr.value.status;
              Writes(w, e, Requeue, s.(etag := CloudFront.Disturb(w.cloud, e.between).nextEtag, inProgress := true,
                                       notes := s.notes.(ready := Condition(false, Disabling, cr.generation))))
  {
    hide Release, CloudFront.Disturb, PlanRemove, DisableInput;
  }

  /** A disabled tenant is deleted. A refusal for want of disabling is retried later. */
  lemma RemovesTenant(w: World, e: Env)
    requires ToDelete(w) && TenantExists(w) && e.getFault.None? && !Tenant(w).enabled
    ensures PlanIn(w, e).call.DeleteCall?
    ensures PlanIn(w, e).call == DeleteCall(true) ==> LetsGo(w, e)
    ensures PlanIn(w, e).call == DeleteCall(false) ==>
              var d, id := CloudFront.Disturb(w.cloud, e.between), w.cr.value.status.id.value;
              var err := if e.deleteFault.Some? then e.deleteFault.value
                         else if id !in d.tenants then NotFound
                         else if d.tenants[id].etag != Tenant(w).etag then PreconditionFailed
                         else NotDisabled;
              Answered(w, e, err, {NotDisabled}, w.cr.value.status.notes.dns)
  {
    hide Release, CloudFront.Disturb, PlanDisable, LetsGo;
    var p := Rest(w, Done).(cloud := CloudFront.Disturb(w.cloud, e.between));
    var cloud := CloudFront.Delete(p.cloud, w.cr.value.status.id.value, Tenant(w).etag, e.deleteFault).0;
    ReleaseAnswers(w, w.cr.value, e, p.(cloud := cloud, call := DeleteCall(true)));
    ReleaseSummary(w.cr.value, e, p.(cloud := cloud, call := DeleteCall(true)));
  }

  // Defaults.

  /** The defaults the API server fills in are those the controller would assume: a spec and its
      defaulted form match the same tenants and ask for the same records. */
  lemma DefaultsAgree(cr: Resource, t: CloudFront.Tenant)
    ensures var full := cr.(spec := Admit(cr.spec));
      && (SpecMatches(full.spec, t) <==> SpecMatches(cr.spec, t))
      && (ManagesRecords(full) <==> ManagesRecords(cr))
      && (ManagesRecords(cr) ==> BatchOf(full) == BatchOf(cr))
      && full.spec.enabled.Some? && (full.spec.dns.Some? ==> full.spec.dns.value.ttl.Some?)
      && Admit(full.spec) == full.spec
  {
  }
}
