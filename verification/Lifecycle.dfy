/** One reconcile of a DistributionTenant as a value: what it does to CloudFront and Route53, the
    single Kubernetes write it asks for, and how it ends. */
module Lifecycle {
  import opened Types
  import opened Matching
  import opened Certificates
  import opened ChangeDetection
  import CloudFront
  import Dns

  datatype Policy = Enforce | Report | Suspend

  datatype Verdict = Requeue | Fail | Done

  datatype CloudCall = NoCall | CreateCall(ok: bool) | UpdateCall(ok: bool) | DeleteCall(ok: bool)

  datatype DnsCall = NoDns | UpsertCall(ok: bool) | RemoveCall(ok: bool)

  datatype Write = NoWrite | PutStatus(status: Status) | PutSpec(spec: Spec) | AddFinalizer | DropFinalizer

  datatype Plan = Plan(
    cloud: CloudFront.Cloud,
    zones: Dns.Zones,
    write: Write,
    verdict: Verdict,
    call: CloudCall,
    dns: DnsCall,
    drift: bool)

  /** The three worlds: the resource in the API server, CloudFront and Route53. `minted` is the
      history of the tenant ids created for the resource. */
  datatype World = World(
    cr: Option<Resource>,
    cloud: CloudFront.Cloud,
    zones: Dns.Zones,
    policy: Policy,
    minted: set<nat>)

  /** What the outside answers during one reconcile. A fault replaces the answer of the call it is
      named after; `between` is what other AWS users do between the read of the tenant and the
      write to it. */
  datatype Env = Env(
    getFault: Option<AwsError>,
    createFault: Option<AwsError>,
    updateFault: Option<AwsError>,
    deleteFault: Option<AwsError>,
    between: seq<CloudFront.Event>,
    cert: Option<CertDetails>,          // managed certificate details, if any came back
    accepted: bool,                     // the spec passes validation
    sameMessage: bool,                  // an error message repeats the one already recorded
    sans: Option<seq<string>>,          // certificate names, unless the check is skipped
    target: Result<string>,             // the routing endpoint
    dnsClient: bool,                    // a DNS client can be built
    upsertFault: Option<AwsError>,
    inSync: Result<bool>,               // the polled change has propagated
    removeFault: Option<AwsError>,
    writeFails: bool)                   // the Kubernetes write is refused

  function Note(cr: Resource, ok: bool, reason: Reason): Condition
  {
    Condition(ok, reason, cr.generation)
  }

  /** A plan that touches nothing. */
  function Rest(w: World, verdict: Verdict): Plan
  {
    Plan(w.cloud, w.zones, NoWrite, verdict, NoCall, NoDns, false)
  }

  function WithStatus(p: Plan, status: Status, verdict: Verdict): Plan
  {
    p.(write := PutStatus(status), verdict := verdict)
  }

  /** `q` adds to `p` at most a status write that changes conditions only, and retries. */
  ghost predicate OnlyNotes(status: Status, p: Plan, q: Plan)
  {
    && q == p.(write := q.write, verdict := q.verdict)
    && (q.write == p.write || (q.write.PutStatus? && q.write.status == status.(notes := q.write.status.notes)))
    && !q.verdict.Done?
  }

  // Errors and validation. `p` is what has happened so far.

  function Rejected(cr: Resource, e: Env, p: Plan, reason: Reason): (q: Plan)
    ensures OnlyNotes(cr.status, p, q)
  {
    var note := Note(cr, false, reason);
    if cr.status.notes.ready == note && e.sameMessage then p.(verdict := Requeue)
    else WithStatus(p, cr.status.(notes := cr.status.notes.(ready := note, synced := note)), Requeue)
  }

  function OnAwsError(cr: Resource, e: Env, p: Plan, err: AwsError): (q: Plan)
    ensures OnlyNotes(cr.status, p, q)
  {
    match err
    case Terminal(reason) => Rejected(cr, e, p, reason)
    case InvalidArgument => Rejected(cr, e, p, InvalidSpec)
    case Throttling => p.(verdict := Requeue)
    case _ => p.(verdict := Fail)
  }

  /** Terminal errors are reported, all others retried. */
  function OnTerminalOnly(cr: Resource, e: Env, p: Plan, err: AwsError): (q: Plan)
    ensures OnlyNotes(cr.status, p, q)
  {
    if IsTerminal(err) then OnAwsError(cr, e, p, err) else p.(verdict := Fail)
  }

  function OnDnsError(cr: Resource, p: Plan, err: AwsError): (q: Plan)
    ensures OnlyNotes(cr.status, p, q)
  {
    if IsTerminal(err) then
      var note := Note(cr, false, DnsFailure);
      WithStatus(p, cr.status.(notes := cr.status.notes.(dns := note, ready := note)), Requeue)
    else if err.DnsThrottling? then p.(verdict := Requeue)
    else p.(verdict := Fail)
  }

  // Deletion.

  predicate ManagesRecords(cr: Resource)
  {
    cr.spec.dns.Some? && cr.spec.dns.value.hostedZone.Some?
  }

  /** The CNAME batch of a resource that manages records. */
  function BatchOf(cr: Resource): Dns.Batch
    requires ManagesRecords(cr)
  {
    var dns := cr.spec.dns.value;
    Dns.Batch(dns.hostedZone.value, cr.spec.domains, Dns.Record(cr.status.dnsTarget, dns.ttl.GetOr(DEFAULT_TTL)))
  }

  /** Remove the records, then let the resource go. */
  function Release(cr: Resource, e: Env, p: Plan): Plan
  {
    if !ManagesRecords(cr) || cr.status.dnsTarget == "" then p.(write := DropFinalizer, verdict := Done)
    else if !e.dnsClient then p.(verdict := Fail)
    else if e.removeFault.Some? then p.(dns := RemoveCall(false), verdict := Fail)
    else
      var (zones, err) := Dns.Delete(p.zones, BatchOf(cr));
      if err.Some? then p.(dns := RemoveCall(false), verdict := Fail)
      else p.(zones := zones, dns := RemoveCall(true), write := DropFinalizer, verdict := Done)
  }

  function DisableInput(spec: Spec): CloudFront.TenantInput
  {
    CloudFront.TenantInput(spec.distributionId, spec.domains, Some(false), None, [], None)
  }

  function PlanDelete(w: World, cr: Resource, e: Env): Plan
  {
    if !cr.finalizer then Rest(w, Done)
    else if cr.status.id.None? then Release(cr, e, Rest(w, Done))
    else
      var id := cr.status.id.value;
      match CloudFront.Get(w.cloud, id, e.getFault)
      case Err(NotFound) => Release(cr, e, Rest(w, Done))
      case Err(err) => OnTerminalOnly(cr, e, Rest(w, Done), err)
      case Ok(t) =>
        var p := Rest(w, Done).(cloud := CloudFront.Disturb(w.cloud, e.between));
        if t.enabled then PlanDisable(cr, id, t, e, p) else PlanRemove(cr, id, t, e, p)
  }

  function PlanDisable(cr: Resource, id: nat, t: CloudFront.Tenant, e: Env, p: Plan): Plan
  {
    var (cloud, r) := CloudFront.Update(p.cloud, id, t.etag, DisableInput(cr.spec), e.updateFault);
    match r
    case Err(err) => OnTerminalOnly(cr, e, p.(call := UpdateCall(false)), err)
    case Ok(out) =>
      WithStatus(p.(cloud := cloud, call := UpdateCall(true)),
                 cr.status.(etag := out.etag, inProgress := out.inProgress,
                            notes := cr.status.notes.(ready := Note(cr, false, Disabling))),
                 Requeue)
  }

  function PlanRemove(cr: Resource, id: nat, t: CloudFront.Tenant, e: Env, p: Plan): Plan
  {
    var (cloud, err) := CloudFront.Delete(p.cloud, id, t.etag, e.deleteFault);
    match err
    case Some(NotDisabled) => p.(call := DeleteCall(false), verdict := Requeue)
    case Some(err) => OnTerminalOnly(cr, e, p.(call := DeleteCall(false)), err)
    case None => Release(cr, e, p.(cloud := cloud, call := DeleteCall(true)))
  }

  // Creation, DNS first.

  datatype DnsStep = Handled(plan: Plan) | Ready(status: Status)

  function DnsBeforeCreate(w: World, cr: Resource, e: Env): DnsStep
    requires cr.spec.dns.Some?
  {
    var p := Rest(w, Done);
    if cr.spec.managedCert.None? && cr.status.dnsChange.None? && e.sans.Some?
       && Uncovered(cr.spec.domains, e.sans.value) != [] then
      Handled(WithStatus(p, cr.status.(notes := cr.status.notes.(ready := Note(cr, false, SanMismatch))), Requeue))
    else if cr.status.dnsChange.Some? then
      if !e.dnsClient then Handled(p.(verdict := Fail))
      else match e.inSync
        case Err(err) => Handled(OnDnsError(cr, p, err))
        case Ok(false) => Handled(WithStatus(p, cr.status.(notes := cr.status.notes.(dns := Note(cr, false, DnsPropagating))), Requeue))
        case Ok(true) => Ready(cr.status.(notes := cr.status.notes.(dns := Note(cr, true, DnsReady))))
    else Handled(PlanPublish(w, cr, e))
  }

  /** Publish the records and remember the change. */
  function PlanPublish(w: World, cr: Resource, e: Env): Plan
  {
    var p := Rest(w, Done);
    match e.target
    case Err(err) => OnDnsError(cr, p, err)
    case Ok(target) =>
      if !e.dnsClient || !ManagesRecords(cr) then p.(verdict := Fail)
      else if e.upsertFault.Some? then OnDnsError(cr, p.(dns := UpsertCall(false)), e.upsertFault.value)
      else
        WithStatus(p.(zones := Dns.Upsert(w.zones, BatchOf(cr.(status := cr.status.(dnsTarget := target)))), dns := UpsertCall(true)),
                   cr.status.(dnsChange := Some(|w.zones.changes|), dnsTarget := target,
                              notes := cr.status.notes.(dns := Note(cr, false, DnsPropagating))),
                   Requeue)
  }

  function CreatedStatus(cr: Resource, id: nat, t: CloudFront.Tenant): Status
  {
    cr.status.(id := Some(id), etag := t.etag, inProgress := t.inProgress, observedGeneration := cr.generation,
               dnsChange := None, domainResults := t.domains,
               notes := Notes(Note(cr, false, Creating), Note(cr, true, InSync),
                              CertCondition(cr, t.domains, None), cr.status.notes.dns))
  }

  function PlanCreate(w: World, cr: Resource, e: Env): Plan
  {
    if !e.accepted then Rejected(cr, e, Rest(w, Done), ValidationFailed)
    else if cr.spec.dns.None? then
      PlanCreateTenant(w, cr.(status := cr.status.(notes := cr.status.notes.(dns := Note(cr, true, DnsNotConfigured)))), e)
    else
      match DnsBeforeCreate(w, cr, e)
      case Handled(p) => p
      case Ready(status) => PlanCreateTenant(w, cr.(status := status), e)
  }

  function PlanCreateTenant(w: World, cr: Resource, e: Env): Plan
  {
    var p := Rest(w, Done);
    var (cloud, r) := CloudFront.Create(w.cloud, BuildInput(cr.spec), e.createFault);
    match r
    case Err(err) =>
      var q := p.(call := CreateCall(false));
      if err.InvalidArgument? && cr.spec.managedCert.Some? && cr.spec.managedCert.value.validationTokenHost == "cloudfront"
      then WithStatus(q, cr.status.(notes := cr.status.notes.(ready := Note(cr, false, DomainValidationPending))), Requeue)
      else OnAwsError(cr, e, q, err)
    case Ok(t) =>
      WithStatus(p.(cloud := cloud, call := CreateCall(true)), CreatedStatus(cr, w.cloud.nextId, t), Requeue)
  }

  // Steady state.

  function CertCondition(cr: Resource, results: seq<DomainResult>, cert: Option<CertDetails>): Condition
  {
    if cr.spec.managedCert.None? then Note(cr, true, CertNotConfigured)
    else if cert.None? then
      if AllActive(results) then Note(cr, true, CertValidated) else Note(cr, false, CertPending)
    else
      match cert.value.state
      case Issued => if AllActive(results) then Note(cr, true, CertValidated) else Note(cr, false, CertAttaching)
      case Failed => Note(cr, false, CertFailed)
      case _ => Note(cr, false, CertPending)
  }

  function DnsCondition(cr: Resource): Condition
  {
    if cr.spec.dns.None? then Note(cr, true, DnsNotConfigured)
    else if cr.status.dnsTarget != "" then Note(cr, true, DnsReady)
    else cr.status.notes.dns
  }

  /** Managed certificate details are looked up only for resources that request one. */
  function CertOf(cr: Resource, e: Env): Option<CertDetails>
  {
    if cr.spec.managedCert.Some? then e.cert else None
  }

  /** The status after reading the tenant and its certificate. */
  function ReadStatus(cr: Resource, t: CloudFront.Tenant, cert: Option<CertDetails>): Status
  {
    var status := cr.status.(etag := t.etag, inProgress := t.inProgress, domainResults := t.domains);
    if cert.None? then status else status.(certArn := cert.value.arn, certState := cert.value.state)
  }

  function PlanExisting(w: World, cr: Resource, e: Env): Plan
    requires cr.status.id.Some?
  {
    match CloudFront.Get(w.cloud, cr.status.id.value, e.getFault)
    case Err(NotFound) =>
      WithStatus(Rest(w, Done), cr.status.(id := None, etag := 0,
                                           notes := cr.status.notes.(ready := Note(cr, false, Creating))), Requeue)
    case Err(err) => OnTerminalOnly(cr, e, Rest(w, Done), err)
    case Ok(t) =>
      var cert := CertOf(cr, e);
      var read := cr.(status := ReadStatus(cr, t, cert));
      var p := Rest(w, Done).(cloud := CloudFront.Disturb(w.cloud, e.between));
      match Detect(cr.generation, cr.status.observedGeneration, cr.spec, t)
      case SpecChange => PlanSpecChange(read, t, e, p)
      case Drift => PlanDrift(w.policy, read, t, e, p.(drift := true))
      case NoChange => PlanSteady(read, cert, e, p)
  }

  function PlanSpecChange(cr: Resource, t: CloudFront.Tenant, e: Env, p: Plan): Plan
    requires cr.status.id.Some?
  {
    if !e.accepted then Rejected(cr, e, p, ValidationFailed)
    else if !ManagesRecords(cr) then PlanUpdate(cr, t, e, p)
    else if cr.status.dnsTarget == "" && e.target.Err? then UpsertFailed(cr, p)
    else
      var named := if cr.status.dnsTarget == "" then cr.(status := cr.status.(dnsTarget := e.target.value)) else cr;
      if !e.dnsClient then UpsertFailed(named, p)
      else if e.upsertFault.Some? then UpsertFailed(named, p.(dns := UpsertCall(false)))
      else
        PlanUpdate(named, t, e, p.(zones := Dns.Upsert(p.zones, BatchOf(named)), dns := UpsertCall(true)))
  }

  function UpsertFailed(cr: Resource, p: Plan): (q: Plan)
    ensures OnlyNotes(cr.status, p, q)
  {
    WithStatus(p, cr.status.(notes := cr.status.notes.(dns := Note(cr, false, DnsFailure))), Fail)
  }

  function UpdatedStatus(cr: Resource, t: CloudFront.Tenant): Status
  {
    cr.status.(etag := t.etag, inProgress := t.inProgress, observedGeneration := cr.generation,
               domainResults := t.domains,
               notes := cr.status.notes.(ready := Note(cr, false, Deploying), synced := Note(cr, true, UpdatePending)))
  }

  function PlanUpdate(cr: Resource, t: CloudFront.Tenant, e: Env, p: Plan): Plan
    requires cr.status.id.Some?
  {
    var (cloud, r) := CloudFront.Update(p.cloud, cr.status.id.value, t.etag, BuildInput(cr.spec), e.updateFault);
    match r
    case Err(PreconditionFailed) => p.(call := UpdateCall(false), verdict := Requeue)
    case Err(err) => OnAwsError(cr, e, p.(call := UpdateCall(false)), err)
    case Ok(out) => WithStatus(p.(cloud := cloud, call := UpdateCall(true)), UpdatedStatus(cr, out), Requeue)
  }

  function PlanDrift(policy: Policy, cr: Resource, t: CloudFront.Tenant, e: Env, p: Plan): Plan
    requires cr.status.id.Some?
  {
    var seen := cr.(status := cr.status.(driftDetected := true));
    match policy
    case Enforce => PlanUpdate(seen, t, e, p)
    case Suspend => WithStatus(p, seen.status, Requeue)
    case Report => WithStatus(p, seen.status.(notes := cr.status.notes.(synced := Note(cr, false, DriftDetected))), Requeue)
  }

  /** An issued certificate is waiting to be attached, as the reconcile judges it. */
  predicate AttachDue(cr: Resource, cert: Option<CertDetails>)
  {
    cert.Some? && cert.value.state.Issued? && cert.value.arn != "" && !AllActive(cr.status.domainResults)
  }

  /** Domains AWS reports that the spec no longer has. */
  function Orphans(results: seq<DomainResult>, domains: seq<string>): seq<string>
  {
    Filter(CloudFront.Names(results), d => d !in domains)
  }

  function PlanSteady(cr: Resource, cert: Option<CertDetails>, e: Env, p: Plan): Plan
  {
    if AttachDue(cr, cert) then p.(write := PutSpec(AttachCert(cr.spec, cert.value.arn)), verdict := Done)
    else if cr.status.inProgress then
      WithStatus(p, cr.status.(observedGeneration := cr.generation,
                               notes := Notes(Note(cr, false, Deploying), Note(cr, true, InSync),
                                              CertCondition(cr, cr.status.domainResults, cert), cr.status.notes.dns)), Requeue)
    else
      var status := cr.status.(observedGeneration := cr.generation, driftDetected := false,
                               notes := Notes(Note(cr, true, Deployed), Note(cr, true, InSync),
                                              CertCondition(cr, cr.status.domainResults, cert), DnsCondition(cr)));
      PlanOrphans(cr, status, e, p)
  }

  /** Remove the records of dropped domains, then write the status. */
  function PlanOrphans(cr: Resource, status: Status, e: Env, p: Plan): Plan
  {
    var orphans := Orphans(cr.status.domainResults, cr.spec.domains);
    if !ManagesRecords(cr) || cr.status.dnsTarget == "" || orphans == [] then WithStatus(p, status, Requeue)
    else if !e.dnsClient then WithStatus(p, status, Fail)
    else if e.removeFault.Some? then WithStatus(p.(dns := RemoveCall(false)), status, Fail)
    else
      var (zones, err) := Dns.Delete(p.zones, BatchOf(cr).(names := orphans));
      if err.Some? then WithStatus(p.(dns := RemoveCall(false)), status, Fail)
      else WithStatus(p.(zones := zones, dns := RemoveCall(true)), status, Requeue)
  }

  function PlanReconcile(w: World, cr: Resource, e: Env): Plan
  {
    if cr.deleting then PlanDelete(w, cr, e)
    else if !cr.finalizer then Rest(w, Requeue).(write := AddFinalizer)
    else if cr.status.id.None? then PlanCreate(w, cr, e)
    else PlanExisting(w, cr, e)
  }

  // Committing the one write.

  /** The API server counts a generation exactly when the stored spec changes. */
  function StoreSpec(cr: Resource, spec: Spec): Resource
  {
    if Admit(spec) == cr.spec then cr else cr.(spec := Admit(spec), generation := cr.generation + 1)
  }

  function Written(cr: Resource, write: Write): Option<Resource>
  {
    match write
    case NoWrite => Some(cr)
    case PutStatus(status) => Some(cr.(status := status))
    case PutSpec(spec) => Some(StoreSpec(cr, spec))
    case AddFinalizer => Some(cr.(finalizer := true))
    case DropFinalizer => if cr.deleting then None else Some(cr.(finalizer := false))
  }

  datatype Outcome = Outcome(world: World, verdict: Verdict)

  function Commit(w: World, cr: Resource, p: Plan, writeFails: bool): Outcome
  {
    var minted := if p.call == CreateCall(true) then w.minted + {w.cloud.nextId} else w.minted;
    var after := w.(cloud := p.cloud, zones := p.zones, minted := minted);
    if p.write.NoWrite? then Outcome(after, p.verdict)
    else if writeFails then Outcome(after, Fail)
    else Outcome(after.(cr := Written(cr, p.write)), p.verdict)
  }

  function Reconcile(w: World, e: Env): Outcome
  {
    if w.cr.None? then Outcome(w, Done)
    else Commit(w, w.cr.value, PlanReconcile(w, w.cr.value, e), e.writeFails)
  }
}
