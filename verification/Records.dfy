/** No record is published and then forgotten: what a resource's reconciles published, what it would
    still remove, and what is left when it is gone. */
module Records {
  import opened Types
  import opened Certificates
  import opened ChangeDetection
  import opened Lifecycle
  import opened Phases
  import opened Runs
  import opened Deletion
  import CloudFront
  import Dns

  /** Names that still hold what some change published there. */
  ghost function Outstanding(z: Dns.Zones): set<Dns.Key>
  {
    set k | k in z.records && exists b :: b in z.changes && k in Dns.Keys(b) && b.record == z.records[k]
  }

  /** Deleting the resource now would remove its batch. */
  predicate Removable(w: World)
  {
    w.cr.Some? && RemovesRecords(w.cr.value) && Dns.Holds(w.zones, BatchOf(w.cr.value))
  }

  function Claimed(w: World): set<Dns.Key>
  {
    if Removable(w) then Dns.Keys(BatchOf(w.cr.value)) else {}
  }

  /** Published records that a deletion would leave behind. */
  ghost function Unclaimed(w: World): set<Dns.Key>
  {
    Outstanding(w.zones) - Claimed(w)
  }

  /** The names the resource asks for, in its zone. */
  function AskedFor(cr: Resource): set<Dns.Key>
  {
    if ManagesRecords(cr) then Dns.Keys(BatchOf(cr)) else {}
  }

  /** Where an upsert in this reconcile points the records. */
  function UpsertTarget(cr: Resource, e: Env): string
  {
    if cr.status.id.Some? && cr.status.dnsTarget != "" then cr.status.dnsTarget
    else if e.target.Ok? then e.target.value
    else ""
  }

  /** The certificate check before a first publication passes or is skipped. */
  predicate PassesCheck(cr: Resource, e: Env)
  {
    cr.spec.managedCert.Some? || e.sans.None? || Uncovered(cr.spec.domains, e.sans.value) == []
  }

  /** The error is already on record for this generation, so it is not written again. */
  predicate OnRecord(cr: Resource, e: Env, reason: Reason)
  {
    cr.status.notes.ready == Note(cr, false, reason) && e.sameMessage
  }

  /** The update of the tenant is refused, and the refusal leads to no status write: the tenant was
      overtaken or is gone, the error is not terminal, or it is on record. */
  predicate RefusedSilently(w: World, cr: Resource, e: Env)
    requires cr.status.id.Some?
  {
    var id, d := cr.status.id.value, CloudFront.Disturb(w.cloud, e.between);
    match e.updateFault
    case None => id in d.tenants && id in w.cloud.tenants ==> d.tenants[id].etag != w.cloud.tenants[id].etag
    case Some(Terminal(reason)) => OnRecord(cr, e, reason)
    case Some(InvalidArgument) => OnRecord(cr, e, InvalidSpec)
    case Some(_) => true
  }

  /** A first publication whose target is not recorded. */
  predicate LostCreating(cr: Resource, e: Env)
  {
    && cr.status.dnsChange.None? && e.target.Ok? && PassesCheck(cr, e)
    && (e.target.value == "" || (e.target.value != cr.status.dnsTarget && e.writeFails))
  }

  /** A publication ahead of an update of a tenant whose resource has no target yet, and gets none. */
  predicate LostUpdating(w: World, cr: Resource, e: Env)
    requires cr.status.id.Some?
  {
    var id := cr.status.id.value;
    && e.getFault.None? && id in w.cloud.tenants && !SpecMatches(cr.spec, w.cloud.tenants[id])
    && cr.generation != cr.status.observedGeneration
    && cr.status.dnsTarget == "" && e.target.Ok?
    && (e.target.value == "" || e.writeFails || RefusedSilently(w, cr, e))
  }

  /** The reconcile will publish records and not leave their target in the status. */
  predicate TargetLost(w: World, e: Env)
  {
    w.cr.Some? &&
    var cr := w.cr.value;
    && !cr.deleting && cr.finalizer && ManagesRecords(cr) && cr.spec.domains != []
    && e.accepted && e.dnsClient && e.upsertFault.None?
    && if cr.status.id.None? then LostCreating(cr, e) else LostUpdating(w, cr, e)
  }

  /** The same, told from what the reconcile did. */
  predicate Forgets(w: World, e: Env)
  {
    w.cr.Some? && PlanIn(w, e).dns == UpsertCall(true) && w.cr.value.spec.domains != [] &&
    var target := UpsertTarget(w.cr.value, e);
    target == "" || (target != w.cr.value.status.dnsTarget && (PlanIn(w, e).write.NoWrite? || e.writeFails))
  }

  // What a live reconcile does to the records.

  ghost predicate DnsSummary(cr: Resource, e: Env, z: Dns.Zones, q: Plan)
  {
    && !q.write.DropFinalizer? && !q.dns.RemoveCall?
    && (q.write.PutSpec? ==> q.write.spec.domains == cr.spec.domains && q.write.spec.dns == cr.spec.dns)
    && if q.dns == UpsertCall(true) then
         && ManagesRecords(cr) && q.zones == Dns.Upsert(z, BatchOf(Targeted(cr, UpsertTarget(cr, e))))
         && (q.write.NoWrite? || (q.write.PutStatus? && q.write.status.dnsTarget == UpsertTarget(cr, e)))
       else
         && q.zones == z
         && (q.write.PutStatus? ==> cr.status.dnsTarget in {"", q.write.status.dnsTarget})
  }

  lemma UpdateKeepsTarget(cr: Resource, t: CloudFront.Tenant, e: Env, p: Plan)
    requires cr.status.id.Some? && Fresh(p)
    ensures var q := PlanUpdate(cr, t, e, p);
      && q.zones == p.zones && q.dns == p.dns
      && (q.write.NoWrite? || (q.write.PutStatus? && q.write.status.dnsTarget == cr.status.dnsTarget))
  {
    hide CloudFront.Update, BuildInput;
  }

  lemma NotesDns(cr: Resource, named: Resource, e: Env, p: Plan, q: Plan)
    requires p.write.NoWrite? && p.dns in {NoDns, UpsertCall(false)} && OnlyNotes(named.status, p, q)
    requires named == Targeted(cr, named.status.dnsTarget) && cr.status.dnsTarget in {"", named.status.dnsTarget}
    ensures DnsSummary(cr, e, p.zones, q)
  {
  }

  lemma PushDns(cr: Resource, named: Resource, t: CloudFront.Tenant, e: Env, p: Plan)
    requires cr.status.id.Some? && Fresh(p) && ManagesRecords(cr) && named == Targeted(cr, UpsertTarget(cr, e))
    ensures DnsSummary(cr, e, p.zones,
                       PlanUpdate(named, t, e, p.(zones := Dns.Upsert(p.zones, BatchOf(named)), dns := UpsertCall(true))))
  {
    hide PlanUpdate, Dns.Upsert, BatchOf, UpsertTarget;
    UpdateKeepsTarget(named, t, e, p.(zones := Dns.Upsert(p.zones, BatchOf(named)), dns := UpsertCall(true)));
  }

  lemma SpecChangeDns(cr: Resource, t: CloudFront.Tenant, e: Env, p: Plan)
    requires cr.status.id.Some? && Fresh(p) && p.dns.NoDns?
    ensures DnsSummary(cr, e, p.zones, PlanSpecChange(cr, t, e, p))
  {
    hide Rejected, UpsertFailed, PlanUpdate, Dns.Upsert, DnsSummary, BatchOf;
    if !e.accepted {
      NotesDns(cr, cr, e, p, Rejected(cr, e, p, ValidationFailed));
    } else if !ManagesRecords(cr) {
      UpdateDns(cr, t, e, p);
    } else if cr.status.dnsTarget == "" && e.target.Err? {
      NotesDns(cr, cr, e, p, UpsertFailed(cr, p));
    } else {
      var named := Targeted(cr, UpsertTarget(cr, e));
      NotesDns(cr, named, e, p, UpsertFailed(named, p));
      NotesDns(cr, named, e, p.(dns := UpsertCall(false)), UpsertFailed(named, p.(dns := UpsertCall(false))));
      PushDns(cr, named, t, e, p);
    }
  }

  lemma UpdateDns(cr: Resource, t: CloudFront.Tenant, e: Env, p: Plan)
    requires cr.status.id.Some? && Fresh(p) && p.dns.NoDns?
    ensures DnsSummary(cr, e, p.zones, PlanUpdate(cr, t, e, p))
  {
    hide PlanUpdate;
    UpdateKeepsTarget(cr, t, e, p);
  }

  lemma DriftDns(policy: Policy, cr: Resource, t: CloudFront.Tenant, e: Env, p: Plan)
    requires cr.status.id.Some? && Fresh(p) && p.dns.NoDns?
    ensures DnsSummary(cr, e, p.zones, PlanDrift(policy, cr, t, e, p))
  {
    hide PlanUpdate;
    UpdateKeepsTarget(cr.(status := cr.status.(driftDetected := true)), t, e, p);
  }

  lemma SteadyDns(cr: Resource, t: CloudFront.Tenant, e: Env, p: Plan)
    requires SpecMatches(cr.spec, t) && Fresh(p) && p.dns.NoDns?
    ensures DnsSummary(cr, e, p.zones, PlanSteady(cr.(status := ReadStatus(cr, t, CertOf(cr, e))), CertOf(cr, e), e, p))
  {
    hide PlanSteady, SpecMatches, AttachDue;
    SteadyIsSummary(cr, t, e, p);
  }

  lemma ExistingDns(w: World, cr: Resource, e: Env)
    requires cr.status.id.Some?
    ensures DnsSummary(cr, e, w.zones, PlanExisting(w, cr, e))
  {
    hide PlanSpecChange, PlanDrift, PlanSteady, SpecMatches, CloudFront.Disturb, Dns.Upsert, OnTerminalOnly;
    match CloudFront.Get(w.cloud, cr.status.id.value, e.getFault)
    case Err(err) => if !err.NotFound? { NotesDns(cr, cr, e, Rest(w, Done), OnTerminalOnly(cr, e, Rest(w, Done), err)); }
    case Ok(t) => {
      var read := cr.(status := ReadStatus(cr, t, CertOf(cr, e)));
      var p := Rest(w, Done).(cloud := CloudFront.Disturb(w.cloud, e.between));
      SpecChangeDns(read, t, e, p);
      DriftDns(w.policy, read, t, e, p.(drift := true));
      if SpecMatches(cr.spec, t) { SteadyDns(cr, t, e, p); }
      ReadingKeepsDns(cr, t, e, p.zones, PlanExisting(w, cr, e));
    }
  }

  lemma ReadingKeepsDns(cr: Resource, t: CloudFront.Tenant, e: Env, z: Dns.Zones, q: Plan)
    ensures DnsSummary(cr.(status := ReadStatus(cr, t, CertOf(cr, e))), e, z, q) <==> DnsSummary(cr, e, z, q)
  {
    hide Dns.Upsert;
  }

  lemma CreateDns(w: World, cr: Resource, e: Env)
    requires cr.status.id.None?
    ensures DnsSummary(cr, e, w.zones, PlanCreate(w, cr, e))
  {
    hide PlanCreate, CloudFront.Create, BuildInput, Dns.Upsert;
    CreateIsSummary(w, cr, e);
  }

  // When a target is lost.

  lemma LostCreatingExactly(w: World, cr: Resource, e: Env)
    requires w.cr == Some(cr) && !cr.deleting && cr.finalizer && cr.status.id.None?
    ensures TargetLost(w, e) <==> Forgets(w, e)
  {
    hide Rejected, OnDnsError, OnAwsError, PlanCreateTenant, Dns.Upsert, BatchOf, Uncovered;
    if cr.spec.dns.None? {
      CreateTenantSummary(w, cr.(status := cr.status.(notes := cr.status.notes.(dns := Note(cr, true, DnsNotConfigured)))), e);
    } else if cr.status.dnsChange.Some? && e.inSync == Ok(true) {
      CreateTenantSummary(w, cr.(status := cr.status.(notes := cr.status.notes.(dns := Note(cr, true, DnsReady)))), e);
    }
  }

  lemma RefusalExactly(w: World, cr: Resource, named: Resource, e: Env, p: Plan)
    requires cr.status.id.Some? && cr.status.id.value in w.cloud.tenants && Fresh(p)
    requires p.cloud == CloudFront.Disturb(w.cloud, e.between)
    requires named == cr.(status := named.status) && named.status.id == cr.status.id
    requires named.status.notes == cr.status.notes
    ensures PlanUpdate(named, w.cloud.tenants[cr.status.id.value], e, p).write.NoWrite? <==> RefusedSilently(w, cr, e)
  {
    hide CloudFront.Disturb, BuildInput;
  }

  lemma LostUpdatingExactly(w: World, cr: Resource, e: Env)
    requires w.cr == Some(cr) && !cr.deleting && cr.finalizer && cr.status.id.Some?
    ensures TargetLost(w, e) <==> Forgets(w, e)
  {
    hide PlanUpdate, PlanDrift, PlanSteady, OnTerminalOnly, Rejected, Dns.Upsert, BatchOf, SpecMatches,
      CloudFront.Disturb, RefusedSilently;
    var id := cr.status.id.value;
    if e.getFault.None? && id in w.cloud.tenants {
      var t := w.cloud.tenants[id];
      var p := Rest(w, Done).(cloud := CloudFront.Disturb(w.cloud, e.between));
      var read := cr.(status := ReadStatus(cr, t, CertOf(cr, e)));
      DriftSummary(w.policy, read, t, e, p.(drift := true));
      DriftDns(w.policy, read, t, e, p.(drift := true));
      DriftPublishesNothing(w.policy, read, t, e, p.(drift := true));
      if SpecMatches(cr.spec, t) { SteadyIsSummary(cr, t, e, p); }
      UpdateKeepsTarget(read, t, e, p);
      if ManagesRecords(cr) && (cr.status.dnsTarget != "" || e.target.Ok?) {
        var named := Targeted(read, UpsertTarget(cr, e));
        var q := p.(zones := Dns.Upsert(p.zones, BatchOf(named)), dns := UpsertCall(true));
        UpdateKeepsTarget(named, t, e, q);
        RefusalExactly(w, cr, named, e, q);
      }
    }
  }

  lemma DriftPublishesNothing(policy: Policy, cr: Resource, t: CloudFront.Tenant, e: Env, p: Plan)
    requires cr.status.id.Some? && Fresh(p) && p.dns.NoDns?
    ensures PlanDrift(policy, cr, t, e, p).dns.NoDns?
  {
    hide PlanUpdate;
    UpdateKeepsTarget(cr.(status := cr.status.(driftDetected := true)), t, e, p);
  }

  /** What a caller can tell beforehand is exactly what happens. */
  lemma TargetLostExactly(w: World, e: Env)
    ensures TargetLost(w, e) <==> Forgets(w, e)
  {
    hide PlanExisting, PlanCreate, PlanDelete, DeleteSummary, LostCreating, LostUpdating;
    if w.cr.Some? {
      var cr := w.cr.value;
      if cr.deleting { NothingPublished(w, cr, e); }
      else if cr.finalizer {
        if cr.status.id.None? { LostCreatingExactly(w, cr, e); } else { LostUpdatingExactly(w, cr, e); }
      }
    }
  }

  // The accounts of one step.

  lemma UpsertAdds(z: Dns.Zones, b: Dns.Batch)
    ensures Outstanding(Dns.Upsert(z, b)) == Outstanding(z) + Dns.Keys(b)
  {
    var after := Dns.Upsert(z, b);
    assert b in after.changes;
    forall k ensures k in Outstanding(after) <==> k in Outstanding(z) + Dns.Keys(b) {
      if k !in Dns.Keys(b) {
        assert forall c :: c in after.changes && k in Dns.Keys(c) <==> c in z.changes && k in Dns.Keys(c);
      }
    }
  }

  lemma DeleteSubtracts(z: Dns.Zones, b: Dns.Batch)
    ensures var after := Dns.Delete(z, b).0;
      if Dns.Holds(z, b) then
        Outstanding(after) == Outstanding(z) - Dns.Keys(b) && (Dns.Holds(after, b) ==> Dns.Keys(b) == {})
      else after == z
  {
  }

  /** A batch under another target is not what the zone holds. */
  lemma OtherTarget(z: Dns.Zones, b: Dns.Batch, target: string)
    requires Dns.Holds(z, b) && b.names != [] && target != b.record.target
    ensures !Dns.Holds(z, b.(record := b.record.(target := target)))
  {
    assert b.names[0] in b.names;
    assert Dns.Key(b.zone, b.names[0]) in Dns.Keys(b);
    assert Dns.Key(b.zone, b.names[0]) in Dns.Keys(b.(record := b.record.(target := target)));
  }

  lemma LiveAccounts(w: World, cr: Resource, e: Env, q: Plan)
    requires w.cr == Some(cr) && q == PlanIn(w, e) && DnsSummary(cr, e, w.zones, q) && Admit(cr.spec) == cr.spec
    ensures var v := Commit(w, cr, q, e.writeFails).world;
      && v.cr.Some?
      && Unclaimed(v) == if Forgets(w, e) then Unclaimed(w) + AskedFor(cr) else Unclaimed(w) - Claimed(v)
  {
    hide PlanIn, BatchOf, Dns.Holds, Dns.Keys, Outstanding, Dns.Upsert, ManagesRecords, UpsertTarget;
    var v := Commit(w, cr, q, e.writeFails).world;
    SameNames(cr, v.cr.value);
    if q.dns == UpsertCall(true) { PublishingAccounts(w, cr, v, UpsertTarget(cr, e)); }
    else { KeepingAccounts(w, cr, v); }
  }

  /** The resource published its batch under `target`. */
  lemma PublishingAccounts(w: World, cr: Resource, v: World, target: string)
    requires w.cr == Some(cr) && ManagesRecords(cr) && v.cr.Some?
    requires cr.spec.domains == v.cr.value.spec.domains && cr.spec.dns == v.cr.value.spec.dns
    requires v.zones == Dns.Upsert(w.zones, BatchOf(Targeted(cr, target)))
    ensures cr.spec.domains != [] && (target == "" || v.cr.value.status.dnsTarget != target)
            ==> Unclaimed(v) == Unclaimed(w) + AskedFor(cr)
    ensures cr.spec.domains == [] || (target != "" && v.cr.value.status.dnsTarget == target)
            ==> Unclaimed(v) == Unclaimed(w) - Claimed(v)
  {
    hide BatchOf, Dns.Holds, Dns.Keys, Outstanding, Dns.Upsert, ManagesRecords;
    var after := v.cr.value;
    SameNames(cr, after);
    SameNames(cr, Targeted(cr, target));
    var b := BatchOf(Targeted(cr, target));
    UpsertAdds(w.zones, b);
    Dns.UpsertHolds(w.zones, b);
    Retargeted(cr, after, target);
    if cr.spec.domains == [] { NoNames(cr); }
    else if after.status.dnsTarget != target { OtherTarget(v.zones, b, after.status.dnsTarget); }
  }

  /** The records stayed, and so did the recorded target unless there was none. */
  lemma KeepingAccounts(w: World, cr: Resource, v: World)
    requires w.cr == Some(cr) && v.cr.Some? && v.zones == w.zones
    requires cr.spec.domains == v.cr.value.spec.domains && cr.spec.dns == v.cr.value.spec.dns
    requires cr.status.dnsTarget in {"", v.cr.value.status.dnsTarget}
    ensures Unclaimed(v) == Unclaimed(w) - Claimed(v)
  {
    hide Dns.Holds, Dns.Keys, Outstanding;
  }

  /** The batch depends on the spec's domains and DNS settings and the recorded target alone. */
  lemma SameNames(a: Resource, b: Resource)
    requires a.spec.domains == b.spec.domains && a.spec.dns == b.spec.dns
    ensures ManagesRecords(a) <==> ManagesRecords(b)
    ensures AskedFor(a) == AskedFor(b)
  {
  }

  lemma Retargeted(a: Resource, b: Resource, target: string)
    requires ManagesRecords(a) && ManagesRecords(b) && a.spec.domains == b.spec.domains && a.spec.dns == b.spec.dns
    ensures BatchOf(Targeted(a, target)).names == a.spec.domains && BatchOf(Targeted(a, target)).record.target == target
    ensures var c := BatchOf(Targeted(a, target));
      BatchOf(b) == c.(record := c.record.(target := b.status.dnsTarget))
  {
  }

  lemma NoNames(cr: Resource)
    requires cr.spec.domains == []
    ensures AskedFor(cr) == {}
  {
  }

  lemma DeletingAccounts(w: World, cr: Resource, e: Env, q: Plan)
    requires w.cr == Some(cr) && cr.deleting && DeleteSummary(w, cr, e, q)
    ensures var v := Commit(w, cr, q, e.writeFails).world;
      && Unclaimed(v) == Unclaimed(w) && Claimed(v) <= Claimed(w)
      && (v.cr.Some? ==> v.cr.value.deleting)
  {
    hide TouchSummary, CloudFront.Get, Dns.Keys, Dns.Holds, Dns.Delete, BatchOf, Outstanding;
    if RemovesRecords(cr) { DeleteSubtracts(w.zones, BatchOf(cr)); }
    var v := Commit(w, cr, q, e.writeFails).world;
    if v.cr.Some? && ManagesRecords(cr) {
      SameNames(cr, v.cr.value);
      Retargeted(cr, v.cr.value, cr.status.dnsTarget);
    }
  }

  /** Every published record is accounted for. A reconcile that loses a target leaves its whole batch
      unclaimed; any other reconcile adds nothing to what is unclaimed, and takes from it exactly what
      the resource can remove afterwards. */
  lemma TurnAccounts(w: World, e: Env)
    requires Sound(w) && w.cr.Some?
    ensures var v := Reconcile(w, e).world;
      Unclaimed(v) == if TargetLost(w, e) then Unclaimed(w) + AskedFor(w.cr.value) else Unclaimed(w) - Claimed(v)
  {
    hide PlanExisting, PlanCreate, PlanDelete, Commit, Unclaimed, Claimed, DnsSummary, DeleteSummary, TargetLost;
    var cr := w.cr.value;
    TargetLostExactly(w, e);
    if cr.deleting {
      NothingPublished(w, cr, e);
      DeletingAccounts(w, cr, e, PlanDelete(w, cr, e));
      Disjoint(w, Reconcile(w, e).world);
    } else {
      LiveDns(w, cr, e);
      LiveAccounts(w, cr, e, PlanIn(w, e));
    }
  }

  lemma LiveDns(w: World, cr: Resource, e: Env)
    requires w.cr == Some(cr) && !cr.deleting
    ensures DnsSummary(cr, e, w.zones, PlanIn(w, e))
  {
    hide PlanExisting, PlanCreate;
    if cr.finalizer {
      if cr.status.id.None? { CreateDns(w, cr, e); } else { ExistingDns(w, cr, e); }
    }
  }

  lemma NothingPublished(w: World, cr: Resource, e: Env)
    requires w.cr == Some(cr) && cr.deleting
    ensures DeleteSummary(w, cr, e, PlanDelete(w, cr, e)) && !Forgets(w, e)
  {
    hide PlanDelete, TouchSummary, Dns.Delete;
    DeleteIsSummary(w, cr, e);
  }

  lemma Disjoint(w: World, v: World)
    requires Unclaimed(v) == Unclaimed(w)
    ensures Unclaimed(v) == Unclaimed(w) - Claimed(v)
  {
    hide Outstanding, Claimed;
  }

  // Runs.

  /** The step loses no target, no edit asks for other records while some can be removed, and others
      neither touch these nor put back what was once published. */
  ghost predicate SparesRecords(w: World, step: Step)
  {
    match step
    case Turn(e) => !TargetLost(w, e)
    case Edit(spec) => Removable(w) ==> KeepsBatch(w.cr.value, spec)
    case DnsWrite(records) =>
      && Outstanding(w.zones.(records := records)) <= Outstanding(w.zones)
      && (Removable(w) ==> Dns.LeavesInPlace(w.zones, records, BatchOf(w.cr.value), true))
    case _ => true
  }

  lemma StepSpares(w: World, step: Step)
    requires Sound(w) && SparesRecords(w, step)
    ensures Unclaimed(Next(w, step)) <= Unclaimed(w)
  {
    hide Reconcile, TargetLost, Outstanding, Dns.Holds, Dns.Keys, BatchOf;
    match step
    case Turn(e) => if w.cr.Some? { TurnAccounts(w, e); } else { NoResource(w, e); }
    case DnsWrite(records) =>
      if Removable(w) { Dns.LeftInPlace(w.zones, records, BatchOf(w.cr.value), true); }
    case Edit(spec) => if Removable(w) { EditKeeps(w, spec); }
    case RequestDeletion => RequestKeeps(w);
    case _ =>
  }

  lemma RequestKeeps(w: World)
    requires Sound(w)
    ensures Claimed(Next(w, RequestDeletion)) == Claimed(w) && Next(w, RequestDeletion).zones == w.zones
  {
    hide Reconcile, Dns.Holds, Dns.Keys;
  }

  lemma NoResource(w: World, e: Env)
    requires w.cr.None?
    ensures Reconcile(w, e).world == w
  {
  }

  lemma EditKeeps(w: World, spec: Spec)
    requires Removable(w) && KeepsBatch(w.cr.value, spec)
    ensures Claimed(Next(w, Edit(spec))) == Claimed(w)
  {
  }

  /** Over any run of such steps nothing new is left unclaimed. In particular, when the resource is
      gone at the end, every record it ever published is gone too, save what was unclaimed before. */
  lemma {:induction false} NothingForgotten(w: World, steps: seq<Step>)
    requires Sound(w) && Along(w, steps, (v, s) => SparesRecords(v, s))
    ensures Unclaimed(Run(w, steps)) <= Unclaimed(w)
    ensures Run(w, steps).cr.None? ==> Outstanding(Run(w, steps).zones) <= Unclaimed(w)
  {
    hide Next, Outstanding, SparesRecords;
    if steps != [] {
      var init := steps[..|steps| - 1];
      NothingForgotten(w, init);
      SoundRun(w, init);
      StepSpares(Run(w, init), steps[|steps| - 1]);
    }
  }

  /** Only reconciles, AWS and repeated requests. */
  predicate Unattended(step: Step)
  {
    step.Turn? || step.Aws? || step.RequestDeletion?
  }

  /** The converse: once a resource is being deleted, no reconcile and no failure changes what is
      unclaimed. What is left when it is gone is exactly that. */
  lemma {:induction false} DeletionLeavesUnclaimed(w: World, steps: seq<Step>)
    requires Sound(w) && (w.cr.Some? ==> w.cr.value.deleting)
    requires Along(w, steps, (v, s) => Unattended(s))
    ensures var v := Run(w, steps);
      && Sound(v) && (v.cr.Some? ==> v.cr.value.deleting)
      && Unclaimed(v) == Unclaimed(w)
      && (v.cr.None? ==> Outstanding(v.zones) == Unclaimed(w))
  {
    hide Next, Outstanding, Sound;
    if steps != [] {
      var init := steps[..|steps| - 1];
      DeletionLeavesUnclaimed(w, init);
      SoundStep(Run(w, init), steps[|steps| - 1]);
      DeletingStep(Run(w, init), steps[|steps| - 1]);
    }
  }

  lemma DeletingStep(w: World, step: Step)
    requires Sound(w) && (w.cr.Some? ==> w.cr.value.deleting) && Unattended(step)
    ensures var v := Next(w, step); (v.cr.Some? ==> v.cr.value.deleting) && Unclaimed(v) == Unclaimed(w)
  {
    hide PlanDelete, Outstanding, Dns.Holds, Dns.Keys, BatchOf, DeleteSummary, Forgets, Commit;
    if step.Turn? {
      if w.cr.Some? {
        NothingPublished(w, w.cr.value, step.env);
        DeletingAccounts(w, w.cr.value, step.env, PlanDelete(w, w.cr.value, step.env));
      } else {
        NoResource(w, step.env);
      }
    }
  }

  // From the last upsert to the end.

  /** The batch of the resource, at the names `keys`, is in place, or a deletion has removed it. */
  ghost predicate Whole(w: World, keys: set<Dns.Key>)
  {
    if w.cr.None? then keys !! w.zones.records.Keys
    else
      var cr := w.cr.value;
      && ManagesRecords(cr) && Dns.Keys(BatchOf(cr)) == keys && (cr.status.dnsTarget != "" || keys == {})
      && (Dns.Holds(w.zones, BatchOf(cr)) || (cr.deleting && keys !! w.zones.records.Keys))
  }

  /** The step loses no target, edits neither names, zone nor TTL, and nobody else writes the names. */
  predicate LeavesBatch(w: World, step: Step, keys: set<Dns.Key>)
  {
    match step
    case Turn(e) => !TargetLost(w, e)
    case Edit(spec) => w.cr.Some? ==> KeepsBatch(w.cr.value, spec)
    case DnsWrite(records) => forall k | k in keys :: Same(k, w.zones.records, records)
    case Submit(_, _) => w.cr.Some?
    case _ => true
  }

  predicate Same(k: Dns.Key, a: map<Dns.Key, Dns.Record>, b: map<Dns.Key, Dns.Record>)
  {
    if k in a then k in b && a[k] == b[k] else k !in b
  }

  lemma WholeLive(w: World, cr: Resource, e: Env, q: Plan, keys: set<Dns.Key>)
    requires w.cr == Some(cr) && !cr.deleting && q == PlanIn(w, e) && DnsSummary(cr, e, w.zones, q) && Admit(cr.spec) == cr.spec
    requires Whole(w, keys) && !Forgets(w, e)
    ensures Whole(Commit(w, cr, q, e.writeFails).world, keys)
  {
    hide PlanIn, BatchOf, Dns.Holds, Dns.Keys, Dns.Upsert, ManagesRecords, UpsertTarget;
    var after := Commit(w, cr, q, e.writeFails).world.cr.value;
    SameNames(cr, after);
    Retargeted(cr, after, cr.status.dnsTarget);
    EmptyHolds(w.zones, BatchOf(cr));
    EmptyHolds(q.zones, BatchOf(after));
    if q.dns == UpsertCall(true) {
      SameNames(cr, Targeted(cr, UpsertTarget(cr, e)));
      Dns.UpsertHolds(w.zones, BatchOf(Targeted(cr, UpsertTarget(cr, e))));
      Retargeted(cr, after, UpsertTarget(cr, e));
    }
  }

  lemma EmptyHolds(z: Dns.Zones, b: Dns.Batch)
    ensures Dns.Keys(b) == {} ==> Dns.Holds(z, b)
    ensures Dns.Keys(b) == {} <==> b.names == []
  {
    if b.names != [] { assert Dns.Key(b.zone, b.names[0]) in Dns.Keys(b); }
  }

  lemma WholeDeleting(w: World, cr: Resource, e: Env, q: Plan, keys: set<Dns.Key>)
    requires w.cr == Some(cr) && cr.deleting && DeleteSummary(w, cr, e, q)
    requires Whole(w, keys)
    ensures Whole(Commit(w, cr, q, e.writeFails).world, keys)
  {
    hide TouchSummary, CloudFront.Get, Dns.Keys, BatchOf, ManagesRecords;
    EmptyHolds(w.zones, BatchOf(cr));
    var v := Commit(w, cr, q, e.writeFails).world;
    if v.cr.Some? {
      SameNames(cr, v.cr.value);
      Retargeted(cr, v.cr.value, cr.status.dnsTarget);
    }
  }

  lemma WholeStep(w: World, step: Step, keys: set<Dns.Key>)
    requires Sound(w) && Whole(w, keys) && LeavesBatch(w, step, keys)
    ensures Whole(Next(w, step), keys)
  {
    hide PlanExisting, PlanCreate, PlanDelete, Commit, DnsSummary, DeleteSummary, Forgets, TargetLost;
    match step
    case Turn(e) =>
      if w.cr.Some? {
        var cr := w.cr.value;
        TargetLostExactly(w, e);
        if cr.deleting {
          NothingPublished(w, cr, e);
          WholeDeleting(w, cr, e, PlanDelete(w, cr, e), keys);
        } else {
          LiveDns(w, cr, e);
          WholeLive(w, cr, e, PlanIn(w, e), keys);
        }
      }
    case Edit(spec) => if w.cr.Some? { Dns.HeldAlike(w.zones, BatchOf(w.cr.value), BatchOf(StoreSpec(w.cr.value, spec))); }
    case DnsWrite(records) => WholeWrite(w, records, keys);
    case RequestDeletion => if w.cr.Some? { EmptyHolds(w.zones, BatchOf(w.cr.value)); }
    case _ =>
  }

  lemma WholeWrite(w: World, records: map<Dns.Key, Dns.Record>, keys: set<Dns.Key>)
    requires Whole(w, keys) && LeavesBatch(w, DnsWrite(records), keys)
    ensures Whole(Next(w, DnsWrite(records)), keys)
  {
    hide Reconcile, BatchOf;
    assert forall k | k in keys :: Same(k, w.zones.records, records);
  }

  lemma {:induction false} WholeRun(w: World, steps: seq<Step>, keys: set<Dns.Key>)
    requires Sound(w) && Whole(w, keys) && Along(w, steps, (v, s) => LeavesBatch(v, s, keys))
    ensures Sound(Run(w, steps)) && Whole(Run(w, steps), keys)
  {
    hide Next, Whole, LeavesBatch, Sound;
    if steps != [] {
      var init := steps[..|steps| - 1];
      WholeRun(w, init, keys);
      SoundStep(Run(w, init), steps[|steps| - 1]);
      WholeStep(Run(w, init), steps[|steps| - 1], keys);
    }
  }

  /** Records go with their resource. Start where its batch is in place under the recorded target, as
      after an upsert that was recorded. Whatever fails and happens since, as long as no target is
      lost, names, zone and TTL are not edited and nobody else writes the names: when deletion has
      been requested, two undisturbed reconciles remove the resource and every record of the batch. */
  lemma GoneWithResource(w: World, steps: seq<Step>, e1: Env, e2: Env)
    requires Sound(w) && Removable(w)
    requires var keys := Dns.Keys(BatchOf(w.cr.value)); Along(w, steps, (v, s) => LeavesBatch(v, s, keys))
    requires var v := Run(w, steps); Leaving(v) && Smooth(v, e1) && Smooth(Reconcile(v, e1).world, e2)
    ensures var last := Reconcile(Reconcile(Run(w, steps), e1).world, e2).world;
      last.cr.None? && forall k | k in Dns.Keys(BatchOf(w.cr.value)) :: k !in last.zones.records
  {
    hide Next, Whole, LeavesBatch, Sound, Smooth, Reconcile, Finished, Blocked;
    var keys := Dns.Keys(BatchOf(w.cr.value));
    StartsWhole(w);
    WholeRun(w, steps, keys);
    var v := Run(w, steps);
    var x := Reconcile(v, e1).world;
    DeletionProgress(v, e1, e2);
    NotBlocked(v, keys);
    NoResourceLeft(v, Reconcile(x, e2).world);
    DeletingTurnKeepsWhole(v, e1, keys);
    DeletingTurnKeepsWhole(x, e2, keys);
    GoneMeansGone(Reconcile(x, e2).world, keys);
  }

  lemma StartsWhole(w: World)
    requires Removable(w)
    ensures Whole(w, Dns.Keys(BatchOf(w.cr.value)))
  {
  }

  lemma NotBlocked(w: World, keys: set<Dns.Key>)
    requires Whole(w, keys) && Leaving(w)
    ensures !Blocked(w)
  {
    EmptyHolds(w.zones, BatchOf(w.cr.value));
    if keys != {} {
      var k :| k in keys;
    }
  }

  lemma NoResourceLeft(w: World, last: World)
    requires w.cr.Some? && Finished(w, last) && !Blocked(w)
    ensures last.cr.None?
  {
  }

  lemma DeletingTurnKeepsWhole(w: World, e: Env, keys: set<Dns.Key>)
    requires Sound(w) && Whole(w, keys) && (w.cr.Some? ==> w.cr.value.deleting)
    ensures var v := Reconcile(w, e).world;
      Sound(v) && Whole(v, keys) && (v.cr.Some? ==> v.cr.value.deleting)
  {
    hide PlanDelete, DeleteSummary, Commit, Whole, Sound, Forgets;
    SoundStep(w, Turn(e));
    if w.cr.Some? {
      NothingPublished(w, w.cr.value, e);
      WholeDeleting(w, w.cr.value, e, PlanDelete(w, w.cr.value, e), keys);
      DeletingAccounts(w, w.cr.value, e, PlanDelete(w, w.cr.value, e));
    }
  }

  lemma GoneMeansGone(w: World, keys: set<Dns.Key>)
    requires Whole(w, keys) && w.cr.None?
    ensures forall k | k in keys :: k !in w.zones.records
  {
  }

  // Where a target is lost.

  /** Records whose target was lost stay. Deletion leaves them all in place, and lets the resource go
      exactly when it has no target recorded at all; under another target it waits for ever. */
  lemma LostTargetLeavesRecords(w: World, e: Env, e1: Env, e2: Env)
    requires Sound(w) && TargetLost(w, e)
    requires var v := Run(w, [Turn(e), RequestDeletion]); Smooth(v, e1) && Smooth(Reconcile(v, e1).world, e2)
    ensures var v := Run(w, [Turn(e), RequestDeletion]);
      var last := Reconcile(Reconcile(v, e1).world, e2).world;
      && AskedFor(w.cr.value) != {} && AskedFor(w.cr.value) <= Outstanding(last.zones)
      && v.cr.Some? && (last.cr.None? <==> v.cr.value.status.dnsTarget == "")
  {
    hide TargetLost, Forgets, Smooth, Reconcile, Finished, Outstanding;
    TargetLostExactly(w, e);
    var v := Next(Next(w, Turn(e)), RequestDeletion);
    RunOfTwo(w, Turn(e), RequestDeletion);
    LostTarget(w, e);
    DeletionProgress(v, e1, e2);
    RunOfTwo(v, Turn(e1), Turn(e2));
    DeletionLeavesUnclaimed(v, [Turn(e1), Turn(e2)]);
    BlockedExactly(v, w.cr.value);
    FinishedExactly(v, Next(Next(v, Turn(e1)), Turn(e2)));
  }

  lemma RunOfOne(w: World, a: Step, ok: (World, Step) -> bool)
    ensures Run(w, [a]) == Next(w, a) && (Along(w, [a], ok) <==> ok(w, a))
  {
    hide Next;
    assert [a][..0] == [];
    assert Run(w, []) == w && Along(w, [], ok);
  }

  lemma RunOfTwo(w: World, a: Step, b: Step)
    ensures Run(w, [a, b]) == Next(Next(w, a), b)
    ensures Along(w, [a, b], (v, s) => Unattended(s)) <==> Unattended(a) && Unattended(b)
  {
    hide Next;
    RunOfOne(w, a, (v, s) => Unattended(s));
    assert [a, b][..1] == [a];
  }

  lemma LostTarget(w: World, e: Env)
    requires Sound(w) && Forgets(w, e)
    ensures w.cr.Some?
    ensures var v := Next(Next(w, Turn(e)), RequestDeletion);
      && Sound(v) && Leaving(v) && AskedFor(v.cr.value) == AskedFor(w.cr.value) != {}
      && AskedFor(w.cr.value) <= Unclaimed(v)
  {
    hide PlanExisting, PlanCreate, PlanDelete, DnsSummary, DeleteSummary, Outstanding, Dns.Holds, TargetLost;
    var cr := w.cr.value;
    SoundStep(w, Turn(e));
    var u := Reconcile(w, e).world;
    SoundStep(u, RequestDeletion);
    RequestKeeps(u);
    TargetLostExactly(w, e);
    TurnAccounts(w, e);
    if cr.deleting { NothingPublished(w, cr, e); } else { LiveDns(w, cr, e); PublisherIsHeld(w, cr, e); }
  }

  lemma PublisherIsHeld(w: World, cr: Resource, e: Env)
    requires w.cr == Some(cr) && Admit(cr.spec) == cr.spec && !cr.deleting
    requires Forgets(w, e) && DnsSummary(cr, e, w.zones, PlanIn(w, e))
    ensures var u := Reconcile(w, e).world;
      && u.cr.Some? && u.cr.value.finalizer
      && AskedFor(u.cr.value) == AskedFor(cr) != {}
  {
    hide PlanExisting, PlanCreate, PlanDelete;
    SameNames(cr, Reconcile(w, e).world.cr.value);
    EmptyHolds(w.zones, BatchOf(cr));
  }

  lemma BlockedExactly(w: World, cr: Resource)
    requires Leaving(w) && AskedFor(w.cr.value) == AskedFor(cr) != {} && AskedFor(cr) <= Unclaimed(w)
    ensures Blocked(w) <==> w.cr.value.status.dnsTarget != ""
  {
  }

  lemma FinishedExactly(w: World, last: World)
    requires w.cr.Some? && Finished(w, last)
    ensures last.cr.None? <==> !Blocked(w)
  {
  }

  /** It happens to an existing tenant: an edit added DNS settings along with something AWS compares,
      the records are published, and the update that should follow is throttled. All that remains of
      the reconcile is in the zone. */
  lemma ThrottledUpdateLosesTarget(w: World, cr: Resource, e: Env)
    requires w.cr == Some(cr) && cr.finalizer && !cr.deleting && cr.status.id.Some?
    requires cr.status.id.value in w.cloud.tenants && !SpecMatches(cr.spec, w.cloud.tenants[cr.status.id.value])
    requires cr.generation != cr.status.observedGeneration
    requires ManagesRecords(cr) && cr.spec.domains != [] && cr.status.dnsTarget == ""
    requires e.getFault.None? && e.accepted && e.target.Ok? && e.dnsClient && e.upsertFault.None?
    requires e.updateFault == Some(Throttling)
    ensures TargetLost(w, e)
    ensures var v := Reconcile(w, e).world;
      v.cr == w.cr && v.zones == Dns.Upsert(w.zones, BatchOf(Targeted(cr, e.target.value)))
  {
    hide SpecMatches, CloudFront.Disturb, PlanSteady, PlanDrift, Dns.Upsert, BuildInput;
  }

  /** It happens to a tenant to be created: the records are published and the status write fails. */
  lemma LostPublication(w: World, cr: Resource, e: Env)
    requires w.cr == Some(cr) && cr.finalizer && !cr.deleting && cr.status.id.None?
    requires ManagesRecords(cr) && cr.spec.domains != [] && cr.status.dnsChange.None? && PassesCheck(cr, e)
    requires e.accepted && e.target.Ok? && e.target.value != cr.status.dnsTarget && e.dnsClient && e.upsertFault.None?
    requires e.writeFails
    ensures TargetLost(w, e)
    ensures var v := Reconcile(w, e).world;
      v.cr == w.cr && v.zones == Dns.Upsert(w.zones, BatchOf(Targeted(cr, e.target.value)))
  {
    hide Dns.Upsert, PlanCreateTenant, Uncovered;
  }

  // What no reconcile ever moves or removes.

  /** No reconcile of a recorded tenant moves a recorded target. */
  lemma TargetStays(w: World, e: Env)
    requires Sound(w) && w.cr.Some? && w.cr.value.status.id.Some? && w.cr.value.status.dnsTarget != ""
    ensures var v := Reconcile(w, e).world;
      v.cr.Some? ==> v.cr.value.status.dnsTarget == w.cr.value.status.dnsTarget
  {
    hide PlanExisting, PlanCreate, PlanDelete, Dns.Upsert, Dns.Delete, TouchSummary, BatchOf;
    if w.cr.value.deleting { DeleteIsSummary(w, w.cr.value, e); } else { LiveDns(w, w.cr.value, e); }
  }

  /** As long as its tenant stays recorded, whatever is edited in between, the connection group that
      the target belongs to included, the records keep pointing where they were first pointed. */
  lemma {:induction false} TargetNeverMoves(w: World, steps: seq<Step>)
    requires Sound(w) && w.cr.Some? && w.cr.value.status.dnsTarget != ""
    requires Along(w, steps, (v: World, s: Step) => TenantId(v).Some?)
    ensures var v := Run(w, steps);
      v.cr.Some? ==> v.cr.value.status.dnsTarget == w.cr.value.status.dnsTarget
  {
    hide Reconcile, Sound;
    if steps != [] {
      var init := steps[..|steps| - 1];
      TargetNeverMoves(w, init);
      SoundRun(w, init);
      if steps[|steps| - 1].Turn? { TargetStays(Run(w, init), steps[|steps| - 1].env); }
    }
  }

  /** Nobody asks for the name, and nobody else writes it. */
  predicate LeavesName(w: World, step: Step, k: Dns.Key)
  {
    match step
    case Edit(_) => Next(w, step).cr.Some? ==> k !in AskedFor(Next(w, step).cr.value)
    case Submit(_, _) => k !in AskedFor(Next(w, step).cr.value)
    case DnsWrite(records) => Same(k, w.zones.records, records)
    case _ => true
  }

  lemma NameLeftAlone(w: World, step: Step, k: Dns.Key)
    requires Sound(w) && LeavesName(w, step, k) && (w.cr.Some? ==> k !in AskedFor(w.cr.value))
    ensures var v := Next(w, step);
      Same(k, w.zones.records, v.zones.records) && (v.cr.Some? ==> k !in AskedFor(v.cr.value))
  {
    hide PlanExisting, PlanCreate, PlanDelete, TargetLost, TouchSummary;
    match step
    case Turn(e) =>
      if w.cr.Some? {
        var cr, v := w.cr.value, Reconcile(w, e).world;
        if cr.deleting { NothingPublished(w, cr, e); }
        else {
          LiveDns(w, cr, e);
          SameNames(cr, Targeted(cr, UpsertTarget(cr, e)));
        }
        if v.cr.Some? { SameNames(cr, v.cr.value); }
      }
    case _ =>
  }

  /** A name that the resource no longer asks for keeps its record for good, past the deletion of the
      resource too, until somebody asks for it again or somebody else writes it. */
  lemma {:induction false} DroppedNameKeepsRecord(w: World, steps: seq<Step>, k: Dns.Key)
    requires Sound(w) && (w.cr.Some? ==> k !in AskedFor(w.cr.value))
    requires Along(w, steps, (v, s) => LeavesName(v, s, k))
    ensures var v := Run(w, steps);
      Same(k, w.zones.records, v.zones.records) && (v.cr.Some? ==> k !in AskedFor(v.cr.value))
  {
    hide Next, AskedFor, Sound, LeavesName;
    if steps != [] {
      var init := steps[..|steps| - 1];
      DroppedNameKeepsRecord(w, init, k);
      SoundRun(w, init);
      NameLeftAlone(Run(w, init), steps[|steps| - 1], k);
    }
  }

  /** It happens with every edit that drops a published domain: whatever the operator does next, up to
      deleting the resource, the record stays. */
  lemma DroppedDomainKeepsRecord(w: World, cr: Resource, domains: seq<string>, domain: string, steps: seq<Step>)
    requires Sound(w) && w.cr == Some(cr) && Removable(w) && domain in cr.spec.domains && domain !in domains
    requires Along(Next(w, Edit(cr.spec.(domains := domains))), steps, (v, s) => Unattended(s))
    ensures var k := Dns.Key(cr.spec.dns.value.hostedZone.value, domain);
      var v := Run(Next(w, Edit(cr.spec.(domains := domains))), steps);
      k in v.zones.records && v.zones.records[k] == BatchOf(cr).record
  {
    hide Reconcile;
    var k, u := Dns.Key(cr.spec.dns.value.hostedZone.value, domain), Next(w, Edit(cr.spec.(domains := domains)));
    assert k in Dns.Keys(BatchOf(cr));
    SoundStep(w, Edit(cr.spec.(domains := domains)));
    DroppedSpec(cr, domains, domain);
    UnattendedLeavesNames(u, steps, k);
    DroppedNameKeepsRecord(u, steps, k);
  }

  lemma DroppedSpec(cr: Resource, domains: seq<string>, domain: string)
    requires ManagesRecords(cr) && Admit(cr.spec) == cr.spec && domain !in domains
    ensures Dns.Key(cr.spec.dns.value.hostedZone.value, domain) !in AskedFor(StoreSpec(cr, cr.spec.(domains := domains)))
  {
    assert StoreSpec(cr, cr.spec.(domains := domains)).spec == cr.spec.(domains := domains);
  }

  lemma {:induction false} UnattendedLeavesNames(w: World, steps: seq<Step>, k: Dns.Key)
    requires Along(w, steps, (v, s) => Unattended(s))
    ensures Along(w, steps, (v, s) => LeavesName(v, s, k))
  {
    hide Next;
    if steps != [] { UnattendedLeavesNames(w, steps[..|steps| - 1], k); }
  }
}
