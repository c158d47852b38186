/** A live resource is always looked at again, and its records are removed only with it. */
module Scheduling {
  import opened Types
  import opened Matching
  import opened ChangeDetection
  import opened Lifecycle
  import opened Phases
  import opened Runs
  import CloudFront
  import Dns

  predicate HasCert(spec: Spec, arn: string)
  {
    spec.customizations.Some? && spec.customizations.value.certificate == Some(arn)
  }

  /** An issued certificate that the spec already names is attached once more because some domain
      is not active. */
  predicate Reattaches(w: World, e: Env)
  {
    w.cr.Some? && w.cr.value.status.id.Some? && !w.cr.value.deleting && w.cr.value.finalizer
    && e.getFault.None? && !e.writeFails && w.cr.value.status.id.value in w.cloud.tenants &&
    var cr := w.cr.value;
    var t := w.cloud.tenants[cr.status.id.value];
    && SpecMatches(cr.spec, t) && !AllActive(t.domains)
    && cr.spec.managedCert.Some? && e.cert.Some? && e.cert.value.state.Issued? && e.cert.value.arn != ""
    && HasCert(cr.spec, e.cert.value.arn)
  }

  /** A reconcile of a live resource ends with an error, a requeue or a new generation, except
      exactly when it re-attaches a certificate. */
  lemma AlwaysScheduled(w: World, e: Env)
    requires Sound(w) && w.cr.Some? && !w.cr.value.deleting
    ensures var r := Reconcile(w, e);
      r.world.cr.Some?
      && (r.verdict.Done? && r.world.cr.value.generation == w.cr.value.generation <==> Reattaches(w, e))
  {
    hide PlanExisting, PlanCreate, PlanDelete, CloudFront.Disturb, BatchOf, BuildInput, SpecMatches,
      CloudFront.Update, CloudFront.Create, Dns.Upsert;
    var cr := w.cr.value;
    if !cr.finalizer {}
    else if cr.status.id.None? { CreateIsSummary(w, cr, e); }
    else { ExistingIsSummary(w, cr, e); }
  }

  /** A re-attachment changes nothing at all, so it never records the generation as observed, however
      often it is repeated. */
  lemma ReattachingStalls(w: World, e: Env)
    requires Sound(w) && Reattaches(w, e)
    ensures Reconcile(w, e).world == w.(cloud := CloudFront.Disturb(w.cloud, e.between))
  {
    hide PlanExisting, PlanCreate, PlanDelete, CloudFront.Disturb, SpecMatches;
    ExistingIsSummary(w, w.cr.value, e);
  }

  /** The orphan list holds exactly the reported domains the spec no longer has. */
  lemma OrphansAreDropped(results: seq<DomainResult>, domains: seq<string>)
    ensures Subsequence(Orphans(results, domains), CloudFront.Names(results))
    ensures forall d :: multiset(Orphans(results, domains))[d]
                        == if d in domains then 0 else multiset(CloudFront.Names(results))[d]
  {
    FilterKeeps(CloudFront.Names(results), d => d !in domains);
  }

  /** Yet it is always empty where it is used, since the domains it starts from are those of an AWS
      state that matched the spec: no reconcile of a live resource removes a record. */
  lemma RecordsOutliveDomains(w: World, e: Env)
    requires w.cr.Some? && PlanIn(w, e).dns.RemoveCall?
    ensures w.cr.value.deleting
  {
    hide PlanExisting, PlanCreate, PlanDelete, CloudFront.Disturb, BatchOf, BuildInput, SpecMatches;
    var cr := w.cr.value;
    if !cr.deleting && cr.finalizer {
      if cr.status.id.None? { CreateIsSummary(w, cr, e); } else { ExistingIsSummary(w, cr, e); }
    }
  }
}
