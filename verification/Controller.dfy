/** The DistributionTenant reconciler, step by step: it works on an in-memory copy of the resource,
    calls its clients and writes back at most once. Every method is proved to carry out its plan. */
module Controller {
  import opened Types
  import opened Matching
  import opened Certificates
  import opened ChangeDetection
  import opened Lifecycle
  import CloudFront
  import Dns

  /** Mutating calls attempted so far, by kind. */
  datatype Calls = Calls(cloud: nat, dns: nat, kube: nat)

  class Reconciler {
    const cloud: CloudFront.Client
    const dns: Dns.Client
    const policy: Policy
    var stored: Option<Resource>   // the resource in the API server
    var calls: Calls
    ghost var minted: set<nat>

    ghost function State(): World
      reads this, cloud, dns
    {
      World(stored, cloud.State(), dns.State(), policy, minted)
    }

    constructor (policy: Policy, cloud: CloudFront.Client, dns: Dns.Client)
      ensures this.policy == policy && this.cloud == cloud && this.dns == dns
      ensures stored.None? && calls == Calls(0, 0, 0) && minted == {}
    {
      this.policy, this.cloud, this.dns := policy, cloud, dns;
      stored, calls, minted := None, Calls(0, 0, 0), {};
    }

    /** `p` has been carried out so far in `w`, and no Kubernetes write yet. */
    ghost predicate At(w: World, p: Plan, base: Calls)
      reads this, cloud, dns
    {
      && w.cr.Some? && p.write.NoWrite?
      && State() == w.(cloud := p.cloud, zones := p.zones,
                       minted := if p.call == CreateCall(true) then w.minted + {w.cloud.nextId} else w.minted)
      && calls == Calls(base.cloud + (if p.call.NoCall? then 0 else 1), base.dns + (if p.dns.NoDns? then 0 else 1), base.kube)
    }

    /** `p` is carried out to its end, with verdict `v`. */
    ghost predicate Ended(w: World, p: Plan, base: Calls, e: Env, v: Verdict)
      reads this, cloud, dns
    {
      && w.cr.Some?
      && Outcome(State(), v) == Commit(w, w.cr.value, p, e.writeFails)
      && calls == Calls(base.cloud + (if p.call.NoCall? then 0 else 1), base.dns + (if p.dns.NoDns? then 0 else 1),
                        base.kube + (if p.write.NoWrite? then 0 else 1))
    }

    // The API server.

    /** One write of the status subresource, which leaves spec and metadata alone. */
    method WriteStatus(tenant: Resource, verdict: Verdict, e: Env, ghost w: World, ghost p: Plan, ghost base: Calls)
      returns (v: Verdict)
      requires At(w, p, base)
      modifies this
      ensures Ended(w, WithStatus(p, tenant.status, verdict), base, e, v)
    {
      calls := calls.(kube := calls.kube + 1);
      if e.writeFails { return Fail; }
      stored := Some(stored.value.(status := tenant.status));
      v := verdict;
    }

    /** One write of spec and metadata, which leaves the status alone. */
    method WriteResource(tenant: Resource, e: Env) returns (ok: bool)
      requires stored.Some?
      modifies this
      ensures unchanged(`minted) && calls == old(calls).(kube := old(calls).kube + 1)
      ensures ok == !e.writeFails
      ensures stored == if e.writeFails then old(stored)
                        else if !tenant.finalizer && old(stored).value.deleting then None
                        else Some(StoreSpec(old(stored).value, tenant.spec).(finalizer := tenant.finalizer))
    {
      calls := calls.(kube := calls.kube + 1);
      if e.writeFails { return false; }
      var current := StoreSpec(stored.value, tenant.spec).(finalizer := tenant.finalizer);
      stored := if !current.finalizer && current.deleting then None else Some(current);
      ok := true;
    }

    // Errors.

    method HandleTerminal(tenant: Resource, reason: Reason, e: Env, ghost w: World, ghost p: Plan, ghost base: Calls)
      returns (v: Verdict)
      requires At(w, p, base)
      modifies this
      ensures Ended(w, Rejected(tenant, e, p, reason), base, e, v)
    {
      var note := Note(tenant, false, reason);
      if tenant.status.notes.ready == note && e.sameMessage { return Requeue; }
      var t := tenant;
      t := t.(status := t.status.(notes := t.status.notes.(ready := note)));
      t := t.(status := t.status.(notes := t.status.notes.(synced := note)));
      v := WriteStatus(t, Requeue, e, w, p, base);
    }

    method HandleAwsError(tenant: Resource, err: AwsError, e: Env, ghost w: World, ghost p: Plan, ghost base: Calls)
      returns (v: Verdict)
      requires At(w, p, base)
      modifies this
      ensures Ended(w, OnAwsError(tenant, e, p, err), base, e, v)
    {
      hide Rejected;
      if IsTerminal(err) {
        var reason := if err.InvalidArgument? then InvalidSpec else err.reason;
        v := HandleTerminal(tenant, reason, e, w, p, base);
        return;
      }
      v := if err.Throttling? then Requeue else Fail;
    }

    method HandleTerminalOnly(tenant: Resource, err: AwsError, e: Env, ghost w: World, ghost p: Plan, ghost base: Calls)
      returns (v: Verdict)
      requires At(w, p, base)
      modifies this
      ensures Ended(w, OnTerminalOnly(tenant, e, p, err), base, e, v)
    {
      hide OnAwsError;
      if IsTerminal(err) {
        v := HandleAwsError(tenant, err, e, w, p, base);
        return;
      }
      v := Fail;
    }

    method HandleDnsError(tenant: Resource, err: AwsError, e: Env, ghost w: World, ghost p: Plan, ghost base: Calls)
      returns (v: Verdict)
      requires At(w, p, base)
      modifies this
      ensures Ended(w, OnDnsError(tenant, p, err), base, e, v)
    {
      if IsTerminal(err) {
        var note := Note(tenant, false, DnsFailure);
        var t := tenant.(status := tenant.status.(notes := tenant.status.notes.(dns := note, ready := note)));
        v := WriteStatus(t, Requeue, e, w, p, base);
        return;
      }
      v := if err.DnsThrottling? then Requeue else Fail;
    }

    // Deletion.

    method CleanUpAndRelease(tenant: Resource, e: Env, ghost w: World, ghost p: Plan, ghost base: Calls) returns (v: Verdict)
      requires At(w, p, base) && p.dns.NoDns? && w.cr == Some(tenant) && tenant.deleting && Admit(tenant.spec) == tenant.spec
      modifies this, dns
      ensures Ended(w, Release(tenant, e, p), base, e, v)
    {
      if ManagesRecords(tenant) && tenant.status.dnsTarget != "" {
        if !e.dnsClient { return Fail; }
        calls := calls.(dns := calls.dns + 1);
        if e.removeFault.Some? { return Fail; }
        var err := dns.DeleteRecords(BatchOf(tenant));
        if err.Some? { return Fail; }
      }
      var ok := WriteResource(tenant.(finalizer := false), e);
      v := if ok then Done else Fail;
    }

    method ReconcileDelete(tenant: Resource, e: Env, ghost w: World, ghost base: Calls) returns (v: Verdict)
      requires At(w, Rest(w, Done), base) && w.cr == Some(tenant) && tenant.deleting && Admit(tenant.spec) == tenant.spec
      modifies this, cloud, dns
      ensures Ended(w, PlanDelete(w, tenant, e), base, e, v)
    {
      hide Release, OnTerminalOnly, PlanDisable, PlanRemove;
      if !tenant.finalizer { return Done; }
      if tenant.status.id.None? {
        v := CleanUpAndRelease(tenant, e, w, Rest(w, Done), base);
        return;
      }
      var id := tenant.status.id.value;
      var got := cloud.GetTenant(id, e.getFault);
      if got == Err(NotFound) {
        v := CleanUpAndRelease(tenant, e, w, Rest(w, Done), base);
        return;
      }
      if got.Err? {
        v := HandleTerminalOnly(tenant, got.error, e, w, Rest(w, Done), base);
        return;
      }
      cloud.Interference(e.between);
      ghost var p := Rest(w, Done).(cloud := cloud.State());
      if got.value.enabled {
        v := Disable(tenant, id, got.value, e, w, p, base);
      } else {
        v := Remove(tenant, id, got.value, e, w, p, base);
      }
    }

    method Disable(tenant: Resource, id: nat, t: CloudFront.Tenant, e: Env, ghost w: World, ghost p: Plan, ghost base: Calls)
      returns (v: Verdict)
      requires At(w, p, base) && p.call.NoCall?
      modifies this, cloud
      ensures Ended(w, PlanDisable(tenant, id, t, e, p), base, e, v)
    {
      hide OnTerminalOnly, CloudFront.Update;
      calls := calls.(cloud := calls.cloud + 1);
      var out := cloud.UpdateTenant(id, t.etag, DisableInput(tenant.spec), e.updateFault);
      if out.Err? {
        UpdateErrorChangesNothing(p.cloud, id, t.etag, DisableInput(tenant.spec), e.updateFault);
        v := HandleTerminalOnly(tenant, out.error, e, w, p.(call := UpdateCall(false)), base);
        return;
      }
      var s := tenant.status.(etag := out.value.etag, inProgress := out.value.inProgress);
      s := s.(notes := s.notes.(ready := Note(tenant, false, Disabling)));
      v := WriteStatus(tenant.(status := s), Requeue, e, w, p.(cloud := cloud.State(), call := UpdateCall(true)), base);
    }

    method Remove(tenant: Resource, id: nat, t: CloudFront.Tenant, e: Env, ghost w: World, ghost p: Plan, ghost base: Calls)
      returns (v: Verdict)
      requires At(w, p, base) && p.call.NoCall? && p.dns.NoDns?
      requires w.cr == Some(tenant) && tenant.deleting && Admit(tenant.spec) == tenant.spec
      modifies this, cloud, dns
      ensures Ended(w, PlanRemove(tenant, id, t, e, p), base, e, v)
    {
      hide Release, OnTerminalOnly;
      calls := calls.(cloud := calls.cloud + 1);
      var err := cloud.DeleteTenant(id, t.etag, e.deleteFault);
      if err == Some(NotDisabled) { return Requeue; }
      if err.Some? {
        v := HandleTerminalOnly(tenant, err.value, e, w, p.(call := DeleteCall(false)), base);
        return;
      }
      v := CleanUpAndRelease(tenant, e, w, p.(cloud := cloud.State(), call := DeleteCall(true)), base);
    }

    // Creation.

    method ReconcileCreate(tenant: Resource, e: Env, ghost w: World, ghost base: Calls) returns (v: Verdict)
      requires At(w, Rest(w, Done), base)
      modifies this, cloud, dns
      ensures Ended(w, PlanCreate(w, tenant, e), base, e, v)
    {
      hide Rejected, PlanCreateTenant, DnsBeforeCreate;
      if !e.accepted {
        v := HandleTerminal(tenant, ValidationFailed, e, w, Rest(w, Done), base);
        return;
      }
      var t := tenant;
      if tenant.spec.dns.Some? {
        var handled, status;
        handled, v, status := PrepareDns(tenant, e, w, base);
        if handled { return; }
        t := t.(status := status);
      } else {
        t := t.(status := t.status.(notes := t.status.notes.(dns := Note(t, true, DnsNotConfigured))));
      }
      v := CreateTenant(t, e, w, base);
    }

    method PrepareDns(tenant: Resource, e: Env, ghost w: World, ghost base: Calls)
      returns (handled: bool, v: Verdict, status: Status)
      requires At(w, Rest(w, Done), base) && tenant.spec.dns.Some?
      modifies this, dns
      ensures match DnsBeforeCreate(w, tenant, e)
              case Handled(p) => handled && Ended(w, p, base, e, v)
              case Ready(s) => !handled && status == s && At(w, Rest(w, Done), base)
    {
      hide OnDnsError, PlanPublish;
      ghost var p := Rest(w, Done);
      handled, v, status := true, Fail, tenant.status;
      if tenant.spec.managedCert.None? && tenant.status.dnsChange.None? && e.sans.Some? {
        var rejected := UncoveredDomains(tenant.spec.domains, e.sans.value);
        if |rejected| > 0 {
          status := status.(notes := status.notes.(ready := Note(tenant, false, SanMismatch)));
          v := WriteStatus(tenant.(status := status), Requeue, e, w, p, base);
          return;
        }
      }
      if tenant.status.dnsChange.Some? {
        handled, v, status := PollDns(tenant, e, w, base);
        return;
      }
      v := Publish(tenant, e, w, base);
    }

    method Publish(tenant: Resource, e: Env, ghost w: World, ghost base: Calls) returns (v: Verdict)
      requires At(w, Rest(w, Done), base)
      modifies this, dns
      ensures Ended(w, PlanPublish(w, tenant, e), base, e, v)
    {
      hide OnDnsError, BatchOf;
      ghost var p := Rest(w, Done);
      if e.target.Err? {
        v := HandleDnsError(tenant, e.target.error, e, w, p, base);
        return;
      }
      if !e.dnsClient || !ManagesRecords(tenant) { return Fail; }
      calls := calls.(dns := calls.dns + 1);
      if e.upsertFault.Some? {
        v := HandleDnsError(tenant, e.upsertFault.value, e, w, p.(dns := UpsertCall(false)), base);
        return;
      }
      var s := tenant.status.(dnsTarget := e.target.value);
      var change := dns.UpsertRecords(BatchOf(tenant.(status := s)));
      s := s.(dnsChange := Some(change), notes := s.notes.(dns := Note(tenant, false, DnsPropagating)));
      v := WriteStatus(tenant.(status := s), Requeue, e, w, p.(zones := dns.State(), dns := UpsertCall(true)), base);
    }

    method PollDns(tenant: Resource, e: Env, ghost w: World, ghost base: Calls)
      returns (handled: bool, v: Verdict, status: Status)
      requires At(w, Rest(w, Done), base) && tenant.spec.dns.Some? && tenant.status.dnsChange.Some?
      modifies this
      ensures match DnsBeforeCreate(w, tenant, e)
              case Handled(p) => handled && Ended(w, p, base, e, v)
              case Ready(s) => !handled && status == s && At(w, Rest(w, Done), base)
    {
      hide OnDnsError;
      handled, v, status := true, Fail, tenant.status;
      if !e.dnsClient { return; }
      if e.inSync.Err? {
        v := HandleDnsError(tenant, e.inSync.error, e, w, Rest(w, Done), base);
        return;
      }
      if !e.inSync.value {
        status := status.(notes := status.notes.(dns := Note(tenant, false, DnsPropagating)));
        v := WriteStatus(tenant.(status := status), Requeue, e, w, Rest(w, Done), base);
        return;
      }
      status := status.(notes := status.notes.(dns := Note(tenant, true, DnsReady)));
      handled := false;
    }

    method CreateTenant(tenant: Resource, e: Env, ghost w: World, ghost base: Calls) returns (v: Verdict)
      requires At(w, Rest(w, Done), base)
      modifies this, cloud
      ensures Ended(w, PlanCreateTenant(w, tenant, e), base, e, v)
    {
      hide OnAwsError, CertCondition;
      calls := calls.(cloud := calls.cloud + 1);
      var out, id := cloud.CreateTenant(BuildInput(tenant.spec), e.createFault);
      if out.Err? {
        ghost var q := Rest(w, Done).(call := CreateCall(false));
        if out.error.InvalidArgument? && tenant.spec.managedCert.Some?
           && tenant.spec.managedCert.value.validationTokenHost == "cloudfront" {
          var s := tenant.status.(notes := tenant.status.notes.(ready := Note(tenant, false, DomainValidationPending)));
          v := WriteStatus(tenant.(status := s), Requeue, e, w, q, base);
          return;
        }
        v := HandleAwsError(tenant, out.error, e, w, q, base);
        return;
      }
      minted := minted + {id};
      var t := out.value;
      var s := tenant.status.(id := Some(id), etag := t.etag, inProgress := t.inProgress);
      s := s.(observedGeneration := tenant.generation, dnsChange := None, domainResults := t.domains);
      s := s.(notes := s.notes.(ready := Note(tenant, false, Creating), synced := Note(tenant, true, InSync)));
      s := s.(notes := s.notes.(cert := CertCondition(tenant, t.domains, None)));
      v := WriteStatus(tenant.(status := s), Requeue, e, w,
                       Rest(w, Done).(cloud := cloud.State(), call := CreateCall(true)), base);
    }

    // Steady state.

    method ReconcileExisting(tenant: Resource, e: Env, ghost w: World, ghost base: Calls) returns (v: Verdict)
      requires At(w, Rest(w, Done), base) && tenant.status.id.Some?
      requires w.cr == Some(tenant) && tenant.finalizer && !tenant.deleting
      modifies this, cloud, dns
      ensures Ended(w, PlanExisting(w, tenant, e), base, e, v)
    {
      hide OnTerminalOnly, PlanSpecChange, PlanDrift, PlanSteady, SpecMatches;
      var got := cloud.GetTenant(tenant.status.id.value, e.getFault);
      if got == Err(NotFound) {
        var s := tenant.status.(id := None, etag := 0);
        s := s.(notes := s.notes.(ready := Note(tenant, false, Creating)));
        v := WriteStatus(tenant.(status := s), Requeue, e, w, Rest(w, Done), base);
        return;
      }
      if got.Err? {
        v := HandleTerminalOnly(tenant, got.error, e, w, Rest(w, Done), base);
        return;
      }
      var t := got.value;
      cloud.Interference(e.between);
      ghost var p := Rest(w, Done).(cloud := cloud.State());
      var cert := CertOf(tenant, e);
      var s := tenant.status.(etag := t.etag, inProgress := t.inProgress, domainResults := t.domains);
      if cert.Some? { s := s.(certArn := cert.value.arn, certState := cert.value.state); }
      var read := tenant.(status := s);
      var specChanged := tenant.generation != tenant.status.observedGeneration;
      var matches := SpecMatchesAws(tenant.spec, t);
      if specChanged && !matches {
        v := ApplySpecChange(read, t, e, w, p, base);
      } else if !specChanged && !matches {
        v := HandleDrift(read, t, e, w, p.(drift := true), base);
      } else {
        v := Steady(read, cert, e, w, p, base);
      }
    }

    method ApplySpecChange(tenant: Resource, t: CloudFront.Tenant, e: Env, ghost w: World, ghost p: Plan, ghost base: Calls)
      returns (v: Verdict)
      requires At(w, p, base) && tenant.status.id.Some? && p.call.NoCall? && p.dns.NoDns?
      modifies this, cloud, dns
      ensures Ended(w, PlanSpecChange(tenant, t, e, p), base, e, v)
    {
      hide Rejected, PlanUpdate, UpsertFailed;
      if !e.accepted {
        v := HandleTerminal(tenant, ValidationFailed, e, w, p, base);
        return;
      }
      if !ManagesRecords(tenant) {
        v := PushUpdate(tenant, t, e, w, p, base);
        return;
      }
      var named := tenant;
      if tenant.status.dnsTarget == "" {
        if e.target.Err? {
          v := DnsUpsertFailed(tenant, e, w, p, base);
          return;
        }
        named := named.(status := named.status.(dnsTarget := e.target.value));
      }
      if !e.dnsClient {
        v := DnsUpsertFailed(named, e, w, p, base);
        return;
      }
      calls := calls.(dns := calls.dns + 1);
      if e.upsertFault.Some? {
        v := DnsUpsertFailed(named, e, w, p.(dns := UpsertCall(false)), base);
        return;
      }
      var _ := dns.UpsertRecords(BatchOf(named));
      v := PushUpdate(named, t, e, w, p.(zones := dns.State(), dns := UpsertCall(true)), base);
    }

    method DnsUpsertFailed(tenant: Resource, e: Env, ghost w: World, ghost p: Plan, ghost base: Calls) returns (v: Verdict)
      requires At(w, p, base)
      modifies this
      ensures Ended(w, UpsertFailed(tenant, p), base, e, v)
    {
      var s := tenant.status.(notes := tenant.status.notes.(dns := Note(tenant, false, DnsFailure)));
      v := WriteStatus(tenant.(status := s), Fail, e, w, p, base);
    }

    method PushUpdate(tenant: Resource, t: CloudFront.Tenant, e: Env, ghost w: World, ghost p: Plan, ghost base: Calls)
      returns (v: Verdict)
      requires At(w, p, base) && tenant.status.id.Some? && p.call.NoCall?
      modifies this, cloud
      ensures Ended(w, PlanUpdate(tenant, t, e, p), base, e, v)
    {
      hide OnAwsError, CloudFront.Update, BuildInput;
      var id := tenant.status.id.value;
      calls := calls.(cloud := calls.cloud + 1);
      var out := cloud.UpdateTenant(id, t.etag, BuildInput(tenant.spec), e.updateFault);
      if out.Err? {
        UpdateErrorChangesNothing(p.cloud, id, t.etag, BuildInput(tenant.spec), e.updateFault);
        if out.error.PreconditionFailed? { return Requeue; }
        v := HandleAwsError(tenant, out.error, e, w, p.(call := UpdateCall(false)), base);
        return;
      }
      var s := tenant.status.(etag := out.value.etag, inProgress := out.value.inProgress);
      s := s.(observedGeneration := tenant.generation, domainResults := out.value.domains);
      s := s.(notes := s.notes.(ready := Note(tenant, false, Deploying), synced := Note(tenant, true, UpdatePending)));
      v := WriteStatus(tenant.(status := s), Requeue, e, w, p.(cloud := cloud.State(), call := UpdateCall(true)), base);
    }

    method HandleDrift(tenant: Resource, t: CloudFront.Tenant, e: Env, ghost w: World, ghost p: Plan, ghost base: Calls)
      returns (v: Verdict)
      requires At(w, p, base) && tenant.status.id.Some? && p.call.NoCall?
      modifies this, cloud
      ensures Ended(w, PlanDrift(policy, tenant, t, e, p), base, e, v)
    {
      hide PlanUpdate;
      var seen := tenant.(status := tenant.status.(driftDetected := true));
      match policy
      case Enforce => v := PushUpdate(seen, t, e, w, p, base);
      case Suspend => v := WriteStatus(seen, Requeue, e, w, p, base);
      case Report =>
        seen := seen.(status := seen.status.(notes := seen.status.notes.(synced := Note(tenant, false, DriftDetected))));
        v := WriteStatus(seen, Requeue, e, w, p, base);
    }

    method Steady(tenant: Resource, cert: Option<CertDetails>, e: Env, ghost w: World, ghost p: Plan, ghost base: Calls)
      returns (v: Verdict)
      requires At(w, p, base) && p.dns.NoDns?
      requires w.cr.Some? && w.cr.value == tenant.(status := w.cr.value.status) && tenant.finalizer && !tenant.deleting
      modifies this, dns
      ensures Ended(w, PlanSteady(tenant, cert, e, p), base, e, v)
    {
      hide CertCondition, DnsCondition, PlanOrphans;
      if cert.Some? && cert.value.state.Issued? && cert.value.arn != "" {
        var active := AllDomainsActive(tenant.status.domainResults);
        if !active {
          var ok := WriteResource(tenant.(spec := AttachCert(tenant.spec, cert.value.arn)), e);
          v := if ok then Done else Fail;
          return;
        }
      }
      var s := tenant.status.(observedGeneration := tenant.generation);
      var certCondition := CertCondition(tenant, tenant.status.domainResults, cert);
      if tenant.status.inProgress {
        s := s.(notes := s.notes.(ready := Note(tenant, false, Deploying), synced := Note(tenant, true, InSync),
                                  cert := certCondition));
        v := WriteStatus(tenant.(status := s), Requeue, e, w, p, base);
        return;
      }
      s := s.(driftDetected := false,
              notes := Notes(Note(tenant, true, Deployed), Note(tenant, true, InSync), certCondition, DnsCondition(tenant)));
      v := CleanUpOrphans(tenant, s, e, w, p, base);
    }

    method CleanUpOrphans(tenant: Resource, status: Status, e: Env, ghost w: World, ghost p: Plan, ghost base: Calls)
      returns (v: Verdict)
      requires At(w, p, base) && p.dns.NoDns?
      modifies this, dns
      ensures Ended(w, PlanOrphans(tenant, status, e, p), base, e, v)
    {
      hide Orphans, BatchOf;
      var updated := tenant.(status := status);
      var orphans := OrphanedDomains(tenant.status.domainResults, tenant.spec.domains);
      if !ManagesRecords(tenant) || tenant.status.dnsTarget == "" || orphans == [] {
        v := WriteStatus(updated, Requeue, e, w, p, base);
        return;
      }
      if !e.dnsClient {
        v := WriteStatus(updated, Fail, e, w, p, base);
        return;
      }
      calls := calls.(dns := calls.dns + 1);
      if e.removeFault.Some? {
        v := WriteStatus(updated, Fail, e, w, p.(dns := RemoveCall(false)), base);
        return;
      }
      var err := dns.DeleteRecords(BatchOf(tenant).(names := orphans));
      if err.Some? {
        v := WriteStatus(updated, Fail, e, w, p.(dns := RemoveCall(false)), base);
        return;
      }
      v := WriteStatus(updated, Requeue, e, w, p.(zones := dns.State(), dns := RemoveCall(true)), base);
    }

    /** One reconcile carries out its plan, with at most one Kubernetes write, one CloudFront
        mutation and one Route53 mutation. */
    method Reconcile(e: Env) returns (v: Verdict)
      requires stored.Some? ==> Admit(stored.value.spec) == stored.value.spec
      modifies this, cloud, dns
      ensures Outcome(State(), v) == Lifecycle.Reconcile(old(State()), e)
      ensures calls.kube <= old(calls).kube + 1
      ensures calls.cloud <= old(calls).cloud + 1
      ensures calls.dns <= old(calls).dns + 1
    {
      hide PlanDelete, PlanCreate, PlanExisting;
      if stored.None? { return Done; }
      var tenant := stored.value;
      ghost var w, base := State(), calls;
      if tenant.deleting {
        v := ReconcileDelete(tenant, e, w, base);
        return;
      }
      if !tenant.finalizer {
        var ok := WriteResource(tenant.(finalizer := true), e);
        v := if ok then Requeue else Fail;
        return;
      }
      if tenant.status.id.None? {
        v := ReconcileCreate(tenant, e, w, base);
      } else {
        v := ReconcileExisting(tenant, e, w, base);
      }
    }
  }

  lemma UpdateErrorChangesNothing(c: CloudFront.Cloud, id: nat, ifMatch: nat, input: CloudFront.TenantInput,
                                  fault: Option<AwsError>)
    ensures var r := CloudFront.Update(c, id, ifMatch, input, fault); r.1.Err? ==> r.0 == c
  {
  }

  method AllDomainsActive(results: seq<DomainResult>) returns (r: bool)
    ensures r <==> AllActive(results)
  {
    if |results| == 0 { return false; }
    for i := 0 to |results|
      invariant forall d | d in results[..i] :: d.active
    {
      if !results[i].active { return false; }
    }
    assert results[..|results|] == results;
    return true;
  }

  method OrphanedDomains(results: seq<DomainResult>, domains: seq<string>) returns (orphans: seq<string>)
    ensures orphans == Orphans(results, domains)
  {
    var known := set d | d in domains;
    var names := CloudFront.Names(results);
    orphans := [];
    for i := 0 to |results|
      invariant orphans == Filter(names[..i], d => d !in domains)
    {
      if results[i].domain !in known { orphans := orphans + [results[i].domain]; }
      assert names[..i + 1][..i] == names[..i];
    }
    assert names[..|results|] == names;
  }
}
