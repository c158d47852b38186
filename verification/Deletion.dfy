/** Deleting a resource: disable, delete, remove the records, let go. */
module Deletion {
  import opened Types
  import opened ChangeDetection
  import opened Lifecycle
  import opened Phases
  import opened Runs
  import CloudFront
  import Dns

  predicate Leaving(w: World)
  {
    w.cr.Some? && w.cr.value.deleting && w.cr.value.finalizer
  }

  /** Route53 still has every record the resource would remove, some with another target or TTL. */
  predicate Blocked(w: World)
  {
    && w.cr.Some? && ManagesRecords(w.cr.value) && w.cr.value.status.dnsTarget != ""
    && Dns.Stale(w.zones, BatchOf(w.cr.value))
  }

  /** The resource still asks for the same removal. */
  predicate Unmoved(w: World, after: World)
  {
    && Leaving(w) && Leaving(after) && after.zones == w.zones
    && after.cr.value.spec == w.cr.value.spec && after.cr.value.status.id == w.cr.value.status.id
    && after.cr.value.status.dnsTarget == w.cr.value.status.dnsTarget
  }

  /** The resource is gone, or it waits because of its records alone. The records go together or not
      at all: one that is missing leaves all the others in place. */
  ghost predicate Finished(w: World, after: World)
    requires w.cr.Some?
  {
    var cr := w.cr.value;
    && (cr.status.id.Some? ==> cr.status.id.value !in after.cloud.tenants)
    && (after.cr.None? <==> !Blocked(w))
    && (Blocked(w) ==> Unmoved(w, after))
    && after.zones.records == (if ManagesRecords(cr) && cr.status.dnsTarget != "" && Dns.Holds(w.zones, BatchOf(cr))
                               then w.zones.records - Dns.Keys(BatchOf(cr)) else w.zones.records)
  }

  lemma ReleaseFinishes(w: World, e: Env, p: Plan)
    requires Leaving(w) && Smooth(w, e) && p.write.NoWrite? && p.zones == w.zones
    requires w.cr.value.status.id.Some? ==> w.cr.value.status.id.value !in p.cloud.tenants
    ensures Finished(w, Commit(w, w.cr.value, Release(w.cr.value, e, p), false).world)
  {
    hide BatchOf, Dns.Holds, Dns.Keys;
  }

  /** Once the tenant is disabled or gone, one undisturbed reconcile finishes. */
  lemma LastReconcile(w: World, e: Env)
    requires Leaving(w) && Smooth(w, e)
    requires TenantExists(w) ==> !w.cloud.tenants[w.cr.value.status.id.value].enabled
    ensures Finished(w, Reconcile(w, e).world)
  {
    hide Release, BatchOf, Dns.Holds, CloudFront.Disturb, PlanExisting, PlanCreate, Dns.Stale;
    var cr := w.cr.value;
    if TenantExists(w) {
      var id, d := cr.status.id.value, CloudFront.Disturb(w.cloud, e.between);
      ReleaseFinishes(w, e, Rest(w, Done).(cloud := d.(tenants := d.tenants - {id}), call := DeleteCall(true)));
    } else {
      ReleaseFinishes(w, e, Rest(w, Done));
    }
  }

  /** An enabled tenant is disabled first. It keeps the distribution and the domains of the spec, and
      nothing else the deletion depends on changes. */
  lemma DisableFirst(w: World, e: Env)
    requires Leaving(w) && Smooth(w, e) && TenantExists(w) && w.cloud.tenants[w.cr.value.status.id.value].enabled
    ensures var v, cr := Reconcile(w, e).world, w.cr.value;
      && Unmoved(w, v) && TenantExists(v)
      && var t := v.cloud.tenants[cr.status.id.value];
      && !t.enabled && t.distributionId == cr.spec.distributionId && CloudFront.Names(t.domains) == cr.spec.domains
      && t.parameters == [] && t.customizations.None? && t.connectionGroup == ""
  {
    hide PlanRemove, PlanExisting, PlanCreate, CloudFront.Disturb, OnTerminalOnly;
  }

  /** From any state in deletion two undisturbed reconciles delete the tenant, and they remove the
      resource exactly unless Route53 holds all the records it asks for, some with another target or
      TTL. The records go with it exactly when Route53 holds all of them under the recorded target
      and the TTL of the spec; what that says of published records is the subject of `Records`. */
  lemma DeletionProgress(w: World, e1: Env, e2: Env)
    requires Leaving(w) && Smooth(w, e1) && Smooth(Reconcile(w, e1).world, e2)
    ensures Finished(w, Reconcile(Reconcile(w, e1).world, e2).world)
  {
    hide PlanReconcile, Dns.Holds, Dns.Stale, Dns.Keys;
    var v := Reconcile(w, e1).world;
    if TenantExists(w) && w.cloud.tenants[w.cr.value.status.id.value].enabled {
      DisableFirst(w, e1);
      LastReconcile(v, e2);
    } else {
      LastReconcile(w, e1);
      if Blocked(w) { LastReconcile(v, e2); }
    }
  }

  /** A failure after the AWS delete costs nothing: the next undisturbed reconcile finds no tenant
      and finishes. */
  lemma CrashAfterDelete(w: World, e1: Env, e2: Env)
    requires Sound(w) && Leaving(w) && PlanIn(w, e1).call == DeleteCall(true) && Smooth(Reconcile(w, e1).world, e2)
    ensures var v := Reconcile(w, e1).world;
      v.cr.Some? ==> Leaving(v) && !TenantExists(v) && Finished(v, Reconcile(v, e2).world)
  {
    hide PlanDelete, PlanExisting, PlanCreate, Release, CloudFront.Disturb, BatchOf, Dns.Delete, Dns.Holds,
      Dns.Stale;
    DeleteIsSummary(w, w.cr.value, e1);
    var v := Reconcile(w, e1).world;
    if v.cr.Some? { LastReconcile(v, e2); }
  }

  /** The blocking is real: editing the TTL after the records were published is enough, since a TTL
      change alone never looks like a spec change to AWS. */
  lemma TtlEditBlocks(w: World, cr: Resource, ttl: int)
    requires w.cr == Some(cr) && ManagesRecords(cr) && Admit(cr.spec) == cr.spec
    requires cr.spec.domains != [] && cr.status.dnsTarget != "" && Dns.Holds(w.zones, BatchOf(cr))
    requires ttl != cr.spec.dns.value.ttl.value
    ensures Blocked(Next(w, Edit(cr.spec.(dns := Some(cr.spec.dns.value.(ttl := Some(ttl)))))))
    ensures forall t :: SpecMatches(cr.spec, t)
                        <==> SpecMatches(cr.spec.(dns := Some(cr.spec.dns.value.(ttl := Some(ttl)))), t)
  {
    hide SpecMatches;
    var spec := cr.spec.(dns := Some(cr.spec.dns.value.(ttl := Some(ttl))));
    var v := Next(w, Edit(spec));
    assert v.cr.value.spec == spec;
    var k := Dns.Key(spec.dns.value.hostedZone.value, spec.domains[0]);
    assert Dns.Keys(BatchOf(v.cr.value)) == Dns.Keys(BatchOf(cr));
    assert k in Dns.Keys(BatchOf(cr));
    forall t ensures SpecMatches(cr.spec, t) <==> SpecMatches(spec, t) { MatchIgnoresDns(cr.spec, spec.dns, t); }
  }
}
