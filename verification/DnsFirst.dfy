/** A tenant that manages DNS is created only behind its records. */
module DnsFirst {
  import opened Types
  import opened ChangeDetection
  import opened Lifecycle
  import opened Phases
  import opened Runs
  import CloudFront
  import Dns

  predicate Creates(w: World, step: Step)
  {
    step.Turn? && w.cr.Some? && PlanIn(w, step.env).call == CreateCall(true)
  }

  /** The edit gives up DNS or asks for no new name and, if `exact`, for no other TTL. */
  predicate Narrows(cr: Resource, spec: Spec, exact: bool)
  {
    var edited := StoreSpec(cr, spec);
    edited.spec.dns.None?
    || (ManagesRecords(cr) && ManagesRecords(edited) && Dns.Covers(BatchOf(cr), BatchOf(edited), exact))
  }

  /** While a change is in flight nobody takes away or overwrites what it published, and no edit asks
      for more. Unless `exact`, targets are what counts and TTLs may change. */
  predicate LeavesDnsAlone(w: World, step: Step, exact: bool)
  {
    w.cr.Some? && w.cr.value.status.dnsChange.Some? ==>
      match step
      case DnsWrite(records) =>
        ManagesRecords(w.cr.value) ==> Dns.LeavesInPlace(w.zones, records, BatchOf(w.cr.value), exact)
      case Edit(spec) => Narrows(w.cr.value, spec, exact)
      case _ => true
  }

  /** The recorded change published the records the spec asks for, and they are in place. */
  ghost predicate Published(w: World, exact: bool)
  {
    w.cr.Some? && !w.cr.value.deleting && w.cr.value.status.dnsChange.Some? && w.cr.value.spec.dns.Some? ==>
      var cr := w.cr.value;
      && ManagesRecords(cr)
      && cr.status.dnsChange.value < |w.zones.changes|
      && Dns.Covers(w.zones.changes[cr.status.dnsChange.value], BatchOf(cr), exact)
      && Dns.Serves(w.zones, BatchOf(cr), exact)
  }

  /** In any world: a create with DNS happens only when a change recorded by this resource was
      reported in sync. */
  lemma CreateNeedsInSync(w: World, e: Env)
    requires Sound(w) && Creates(w, Turn(e)) && w.cr.value.spec.dns.Some?
    ensures e.inSync == Ok(true)
    ensures w.cr.value.status.dnsChange.Some? && w.cr.value.status.dnsChange.value < |w.zones.changes|
  {
    hide PlanCreate, PlanExisting, PlanDelete, CloudFront.Disturb, BatchOf, BuildInput, SpecMatches,
      AttachDue, ReadStatus;
    var cr := w.cr.value;
    if cr.deleting { DeleteIsSummary(w, cr, e); }
    else if !cr.finalizer {}
    else if cr.status.id.None? { CreateIsSummary(w, cr, e); }
    else { ExistingIsSummary(w, cr, e); }
  }

  lemma PublishedCreate(w: World, cr: Resource, e: Env, exact: bool)
    requires Sound(w) && Published(w, exact) && w.cr == Some(cr) && !cr.deleting && cr.status.id.None?
    ensures Published(Commit(w, cr, PlanCreate(w, cr, e), e.writeFails).world, exact)
  {
    hide PlanCreate, BuildInput, Dns.Upsert, Dns.Holds, Dns.Serves, CloudFront.Create;
    CreateIsSummary(w, cr, e);
    var q := PlanCreate(w, cr, e);
    if q.dns == UpsertCall(true) {
      var b := BatchOf(Targeted(cr, q.write.status.dnsTarget));
      Dns.UpsertHolds(w.zones, b);
      Dns.ServesExactly(Dns.Upsert(w.zones, b), b, exact);
    }
  }

  lemma PublishedExisting(w: World, cr: Resource, e: Env, exact: bool)
    requires Sound(w) && w.cr == Some(cr) && cr.status.id.Some?
    ensures Published(Commit(w, cr, PlanExisting(w, cr, e), e.writeFails).world, exact)
  {
    hide PlanExisting, BuildInput, SpecMatches, CloudFront.Disturb, CloudFront.Update, AttachDue, ReadStatus,
      BatchOf, Dns.Serves;
    ExistingIsSummary(w, cr, e);
  }

  lemma PublishedStep(w: World, step: Step, exact: bool)
    requires Sound(w) && Published(w, exact) && LeavesDnsAlone(w, step, exact)
    ensures Published(Next(w, step), exact)
  {
    hide PlanCreate, PlanExisting, PlanDelete, Dns.Serves, Dns.Delete, CloudFront.Update, CloudFront.Delete,
      CloudFront.Disturb;
    match step
    case Turn(e) =>
      if w.cr.Some? {
        var cr := w.cr.value;
        if cr.deleting { DeleteIsSummary(w, cr, e); }
        else if !cr.finalizer {}
        else if cr.status.id.None? { PublishedCreate(w, cr, e, exact); }
        else { PublishedExisting(w, cr, e, exact); }
      }
    case DnsWrite(records) => PublishedWrite(w, records, exact);
    case Edit(spec) => PublishedEdit(w, spec, exact);
    case _ =>
  }

  lemma PublishedWrite(w: World, records: map<Dns.Key, Dns.Record>, exact: bool)
    requires Published(w, exact) && LeavesDnsAlone(w, DnsWrite(records), exact)
    ensures Published(Next(w, DnsWrite(records)), exact)
  {
    hide Reconcile, Dns.Serves, Dns.Covers, Dns.LeavesInPlace;
    if w.cr.Some? && ManagesRecords(w.cr.value) && w.cr.value.status.dnsChange.Some? {
      Dns.LeftInPlace(w.zones, records, BatchOf(w.cr.value), exact);
    }
  }

  lemma PublishedEdit(w: World, spec: Spec, exact: bool)
    requires Published(w, exact) && LeavesDnsAlone(w, Edit(spec), exact)
    ensures Published(Next(w, Edit(spec)), exact)
  {
    hide Reconcile, Dns.Serves;
    if w.cr.Some? && !w.cr.value.deleting && w.cr.value.status.dnsChange.Some? {
      var edited := StoreSpec(w.cr.value, spec);
      if edited.spec.dns.Some? {
        Dns.ServesCovered(w.zones, BatchOf(w.cr.value), BatchOf(edited), exact);
      }
    }
  }

  /** Over any run in which what is published is left alone, every create with DNS finds a CNAME to
      the recorded target for every domain of the spec, also when a tenant is created again after
      someone deleted it. If edits and others leave the TTL alone too, the records are exactly those
      the spec asks for. */
  lemma {:induction false} RecordsBeforeTenant(w: World, steps: seq<Step>, exact: bool)
    requires Sound(w) && Published(w, exact)
    requires Along(w, steps, (v, s) => LeavesDnsAlone(v, s, exact))
    ensures Published(Run(w, steps), exact)
    ensures Along(w, steps, (v: World, s: Step) =>
              Creates(v, s) && v.cr.value.spec.dns.Some? ==>
                && ManagesRecords(v.cr.value) && Dns.Serves(v.zones, BatchOf(v.cr.value), exact)
                && (exact ==> Dns.Holds(v.zones, BatchOf(v.cr.value))))
  {
    if steps != [] {
      var init, last := steps[..|steps| - 1], steps[|steps| - 1];
      RecordsBeforeTenant(w, init, exact);
      SoundRun(w, init);
      var v := Run(w, init);
      PublishedStep(v, last, exact);
      if Creates(v, last) && v.cr.value.spec.dns.Some? {
        CreateNeedsInSync(v, last.env);
        CreatorIsLive(v, last.env);
        Dns.ServesExactly(v.zones, BatchOf(v.cr.value), exact);
      }
    }
  }

  lemma CreatorIsLive(w: World, e: Env)
    requires Creates(w, Turn(e))
    ensures !w.cr.value.deleting
  {
    hide PlanDelete, PlanCreate, PlanExisting, CloudFront.Disturb;
    if w.cr.value.deleting { DeleteIsSummary(w, w.cr.value, e); }
  }

  /** The condition is needed: a domain added while a change is in flight is created without a
      record, since the old change still answers in sync. */
  lemma LateDomainHasNoRecord(w: World, cr: Resource, domain: string, e: Env)
    requires w.cr == Some(cr) && cr.finalizer && !cr.deleting && cr.status.id.None? && Admit(cr.spec) == cr.spec
    requires ManagesRecords(cr) && cr.status.dnsChange.Some?
    requires Dns.Key(cr.spec.dns.value.hostedZone.value, domain) !in w.zones.records
    requires e.accepted && e.dnsClient && e.inSync == Ok(true) && e.createFault.None?
    ensures var v := Next(w, Edit(cr.spec.(domains := cr.spec.domains + [domain])));
      Creates(v, Turn(e)) && ManagesRecords(v.cr.value) && !Dns.Holds(v.zones, BatchOf(v.cr.value))
  {
    var spec := cr.spec.(domains := cr.spec.domains + [domain]);
    var v := Next(w, Edit(spec));
    assert |spec.domains| > |cr.spec.domains|;
    assert v.cr.value.spec == spec;
    assert domain in spec.domains;
    assert Dns.Key(spec.dns.value.hostedZone.value, domain) in Dns.Keys(BatchOf(v.cr.value));
    hide PlanCreateTenant;
    var ready := cr.status.(notes := cr.status.notes.(dns := Note(v.cr.value, true, DnsReady)));
    CreateTenantSummary(v, v.cr.value.(status := ready), e);
  }
}
