/** Left alone, the operator settles: at most two CloudFront updates, then the spec is in AWS, observed,
    and there is nothing more to write. The one exception is a stall, delimited exactly. */
module Convergence {
  import opened Types
  import opened Matching
  import opened Certificates
  import opened ChangeDetection
  import opened Lifecycle
  import opened Phases
  import opened Runs
  import opened Scheduling
  import CloudFront
  import Dns

  /** A live resource with a valid spec, under the enforcing drift policy. */
  ghost predicate Live(w: World)
  {
    && Sound(w) && w.policy.Enforce? && w.cr.Some? && !w.cr.value.deleting
    && ConflictFree(w.cr.value.spec.parameters)
    && (w.cr.value.spec.dns.Some? ==> ManagesRecords(w.cr.value))
  }

  /** Undisturbed reconciles that see the same certificate details every time. AWS moves deployments
      and domains along at will, other tenants are anybody's, and so are the zones. */
  predicate Calm(w: World, step: Step, cert: Option<CertDetails>)
  {
    match step
    case Turn(e) =>
      && Smooth(w, e) && e.cert == cert
      && (w.cr.Some? && e.sans.Some? ==> Uncovered(w.cr.value.spec.domains, e.sans.value) == [])
    case Aws(event) => Spared(w, [event])
    case DnsWrite(_) => true
    case _ => false
  }

  predicate InAws(w: World)
  {
    TenantExists(w) && SpecMatches(w.cr.value.spec, w.cloud.tenants[w.cr.value.status.id.value])
  }

  /** AWS has the spec, and the status says so. */
  predicate Converged(w: World)
  {
    InAws(w) && w.cr.value.status.observedGeneration == w.cr.value.generation
  }

  predicate Issued(w: World, cert: Option<CertDetails>)
  {
    w.cr.Some? && w.cr.value.spec.managedCert.Some? && cert.Some? && cert.value.state.Issued? && cert.value.arn != ""
  }

  /** The spec still lacks the issued certificate. */
  predicate Attachable(w: World, cert: Option<CertDetails>)
  {
    Issued(w, cert) && !HasCert(w.cr.value.spec, cert.value.arn)
  }

  /** AWS has the spec, which names the issued certificate, but the status does not say so. */
  predicate Stalled(w: World, cert: Option<CertDetails>)
  {
    InAws(w) && !Converged(w) && Issued(w, cert) && HasCert(w.cr.value.spec, cert.value.arn)
  }

  /** AWS reports every domain of the tenant active. */
  predicate ReadsActive(w: World)
  {
    TenantExists(w) && AllActive(w.cloud.tenants[w.cr.value.status.id.value].domains)
  }

  /** The reconcile polls a published change that has not propagated. */
  predicate Waits(w: World, e: Env)
  {
    w.cr.Some? && w.cr.value.finalizer && w.cr.value.status.id.None?
    && w.cr.value.spec.dns.Some? && w.cr.value.status.dnsChange.Some? && e.inSync == Ok(false)
  }

  /** CloudFront updates still to come. */
  function Debt(w: World, cert: Option<CertDetails>): nat
  {
    (if TenantExists(w) && !InAws(w) then 1 else 0) + (if Attachable(w, cert) then 1 else 0)
  }

  /** Reconciles with an effect still to come, at most. */
  function Rank(w: World, cert: Option<CertDetails>): nat
    requires w.cr.Some?
  {
    var cr := w.cr.value;
    (if cr.finalizer then 0 else 1)
    + (if TenantExists(w) then (if Converged(w) then 0 else 1)
       else (if cr.status.id.Some? then 1 else 0)
            + (if cr.spec.dns.Some? && cr.status.dnsChange.None? then 2 else 1))
    + (if Attachable(w, cert) then 2 else 0)
  }

  predicate Updates(w: World, step: Step)
  {
    step.Turn? && PlanIn(w, step.env).call.UpdateCall?
  }

  /** A reconcile that changes nothing in CloudFront, Route53 or the spec and leaves the resource
      converged or stalled. */
  ghost predicate Idle(w: World, e: Env, cert: Option<CertDetails>)
  {
    var p, v := PlanIn(w, e), Reconcile(w, e).world;
    && p.call.NoCall? && p.dns.NoDns? && p.zones == w.zones && p.cloud == CloudFront.Disturb(w.cloud, e.between)
    && w.cr.Some? && v.cr.Some? && v.cr.value.spec == w.cr.value.spec && v.cr.value.generation == w.cr.value.generation
    && (Converged(v) || Stalled(v, cert))
  }

  ghost predicate Progress(w: World, e: Env, cert: Option<CertDetails>)
  {
    var v := Reconcile(w, e).world;
    && Live(w) && Live(v)
    && Debt(v, cert) + (if Updates(w, Turn(e)) then 1 else 0) == Debt(w, cert)
    && (Rank(v, cert) < Rank(w, cert) || (Rank(v, cert) == Rank(w, cert) && (Idle(w, e, cert) || Waits(w, e))))
    && (Stalled(v, cert) <==> Stalled(w, cert) && !ReadsActive(w))
  }

  // Creation.

  lemma SmoothCreate(w: World, cr: Resource, e: Env)
    requires cr.status.id.None? && Smooth(w, e)
    requires cr.spec.dns.Some? ==> ManagesRecords(cr)
    requires e.sans.Some? ==> Uncovered(cr.spec.domains, e.sans.value) == []
    ensures var q := PlanCreate(w, cr, e);
      if cr.spec.dns.Some? && cr.status.dnsChange.None? then q.dns == UpsertCall(true) && q.call.NoCall?
      else if cr.spec.dns.Some? && e.inSync == Ok(false) then q.dns.NoDns? && q.call.NoCall?
      else q.call == CreateCall(true)
  {
    hide PlanCreateTenant, BatchOf, Dns.Upsert, Uncovered;
    if cr.spec.dns.None? {
      CreateTenantSummary(w, cr.(status := cr.status.(notes := cr.status.notes.(dns := Note(cr, true, DnsNotConfigured)))), e);
    } else if cr.status.dnsChange.Some? && e.inSync.value {
      CreateTenantSummary(w, cr.(status := cr.status.(notes := cr.status.notes.(dns := Note(cr, true, DnsReady)))), e);
    }
  }

  lemma CreateProgress(w: World, cr: Resource, e: Env, cert: Option<CertDetails>)
    requires Live(w) && Calm(w, Turn(e), cert) && w.cr == Some(cr) && cr.finalizer && cr.status.id.None?
    ensures Progress(w, e, cert)
  {
    hide PlanCreate, PlanExisting, PlanDelete, BatchOf, Dns.Upsert, BuildInput, SpecMatches,
      CloudFront.Stored, Sound, Smooth, HasCert, Uncovered, ConflictFree;
    SoundStep(w, Turn(e));
    CreateIsSummary(w, cr, e);
    SmoothCreateTurn(w, cr, e, cert);
    SendReadBack(cr.spec, true, w.cloud.nextEtag);
    SoundSpec(w);
  }

  lemma SmoothCreateTurn(w: World, cr: Resource, e: Env, cert: Option<CertDetails>)
    requires Live(w) && Calm(w, Turn(e), cert) && w.cr == Some(cr) && cr.status.id.None?
    ensures !e.writeFails
    ensures var q := PlanCreate(w, cr, e);
      if cr.spec.dns.Some? && cr.status.dnsChange.None? then q.dns == UpsertCall(true) && q.call.NoCall?
      else if cr.spec.dns.Some? && e.inSync == Ok(false) then q.dns.NoDns? && q.call.NoCall?
      else q.call == CreateCall(true)
  {
    hide PlanCreate, Uncovered;
    SmoothCreate(w, cr, e);
  }

  lemma SoundSpec(w: World)
    requires Sound(w) && w.cr.Some?
    ensures w.cr.value.spec.enabled.Some? && Admit(w.cr.value.spec) == w.cr.value.spec
    ensures w.cr.value.status.observedGeneration <= w.cr.value.generation
    ensures w.cr.value.status.id.Some? ==> w.cr.value.finalizer && w.cr.value.status.dnsChange.None?
  {
  }

  // Steady state.

  lemma SmoothPush(w: World, cr: Resource, e: Env)
    requires w.cr == Some(cr) && Smooth(w, e) && w.policy.Enforce? && cr.status.id.Some? && cr.status.id.value in w.cloud.tenants
    requires !SpecMatches(cr.spec, w.cloud.tenants[cr.status.id.value])
    ensures PlanExisting(w, cr, e).call == UpdateCall(true)
  {
    hide PlanUpdate, PlanSteady, SpecMatches, CloudFront.Disturb, Dns.Upsert, BatchOf, CloudFront.Update,
      BuildInput, PushSummary, OnTerminalOnly;
    var t := w.cloud.tenants[cr.status.id.value];
    var p := Rest(w, Done).(cloud := CloudFront.Disturb(w.cloud, e.between));
    var read := cr.(status := ReadStatus(cr, t, CertOf(cr, e)));
    UpdateSummary(read.(status := read.status.(driftDetected := true)), t, e, p.(drift := true));
    UpdateSummary(read, t, e, p);
    if ManagesRecords(cr) {
      var named := if read.status.dnsTarget == "" then Targeted(read, e.target.value) else read;
      UpdateSummary(named, t, e, p.(zones := Dns.Upsert(p.zones, BatchOf(named)), dns := UpsertCall(true)));
    }
  }

  /** What the proofs below need to know of the tenant while others do what they like with theirs. */
  lemma SparedTenant(w: World, events: seq<CloudFront.Event>)
    requires Live(w) && Spared(w, events) && w.cr.value.status.id.Some?
    ensures var d, id := CloudFront.Disturb(w.cloud, events), w.cr.value.status.id.value;
      && (id in d.tenants <==> TenantExists(w))
      && (TenantExists(w) ==>
            && (SpecMatches(w.cr.value.spec, d.tenants[id]) <==> InAws(w))
            && SpecMatches(w.cr.value.spec,
                           CloudFront.Stored(BuildInput(w.cr.value.spec), d.tenants[id].enabled, d.nextEtag)))
  {
    hide SpecMatches, CloudFront.Disturb, CloudFront.Stored, BuildInput;
    if TenantExists(w) {
      var id, d := w.cr.value.status.id.value, CloudFront.Disturb(w.cloud, events);
      MatchIgnoresProgress(w.cr.value.spec, w.cloud.tenants[id], d.tenants[id]);
      SendReadBack(w.cr.value.spec, d.tenants[id].enabled, d.nextEtag);
    }
  }

  /** A newly attached certificate is a change for AWS, and leaves the rest of the spec alone. */
  lemma AttachChangesAws(spec: Spec, arn: string, t: CloudFront.Tenant)
    requires Admit(spec) == spec
    ensures var a := AttachCert(spec, arn);
      && Admit(a) == a && HasCert(a, arn) && (HasCert(spec, arn) <==> a == spec)
      && a.managedCert == spec.managedCert && a.parameters == spec.parameters && a.dns == spec.dns
      && (SpecMatches(spec, t) && !HasCert(spec, arn) ==> !SpecMatches(a, t))
  {
  }

  lemma MissingProgress(w: World, cr: Resource, e: Env, cert: Option<CertDetails>)
    requires Live(w) && Calm(w, Turn(e), cert) && w.cr == Some(cr) && cr.status.id.Some? && !TenantExists(w)
    ensures Progress(w, e, cert)
  {
    hide PlanExisting, PlanCreate, PlanDelete, CloudFront.Disturb, SpecMatches, Sound, Smooth, HasCert,
      Uncovered, ConflictFree, BatchOf;
    SoundStep(w, Turn(e));
    SoundSpec(w);
    SmoothRead(w, e);
    ExistingIsSummary(w, cr, e);
  }

  lemma SmoothRead(w: World, e: Env)
    requires Smooth(w, e)
    ensures e.getFault.None? && !e.writeFails && Spared(w, e.between)
  {
  }

  lemma PushProgress(w: World, cr: Resource, e: Env, cert: Option<CertDetails>)
    requires Live(w) && Calm(w, Turn(e), cert) && w.cr == Some(cr) && TenantExists(w) && !InAws(w)
    ensures Progress(w, e, cert)
  {
    hide PlanExisting, PlanCreate, PlanDelete, CloudFront.Disturb, SpecMatches, Sound, Smooth, HasCert,
      Uncovered, ConflictFree, BatchOf, CloudFront.Stored, BuildInput;
    SoundStep(w, Turn(e));
    SoundSpec(w);
    SmoothRead(w, e);
    SparedTenant(w, e.between);
    ExistingIsSummary(w, cr, e);
    SmoothPush(w, cr, e);
  }

  lemma SteadyProgress(w: World, cr: Resource, e: Env, cert: Option<CertDetails>)
    requires Live(w) && Calm(w, Turn(e), cert) && w.cr == Some(cr) && InAws(w)
    ensures Progress(w, e, cert)
  {
    hide PlanExisting, PlanCreate, PlanDelete, CloudFront.Disturb, SpecMatches, Sound, Smooth, HasCert,
      Uncovered, ConflictFree, BatchOf, CloudFront.Stored, BuildInput, AttachCert, Admit;
    SoundStep(w, Turn(e));
    SoundSpec(w);
    SmoothRead(w, e);
    SparedTenant(w, e.between);
    ExistingIsSummary(w, cr, e);
    if cert.Some? {
      AttachChangesAws(cr.spec, cert.value.arn, CloudFront.Disturb(w.cloud, e.between).tenants[cr.status.id.value]);
    }
  }

  /** Every calm reconcile pays one update per update still owed and either brings the end nearer or
      is idle. */
  lemma TurnProgress(w: World, e: Env, cert: Option<CertDetails>)
    requires Live(w) && Calm(w, Turn(e), cert)
    ensures Progress(w, e, cert)
  {
    var cr := w.cr.value;
    hide PlanExisting, PlanCreate, PlanDelete, SpecMatches, Smooth, Progress;
    if !cr.finalizer { FinalizerProgress(w, cr, e, cert); }
    else if cr.status.id.None? { CreateProgress(w, cr, e, cert); }
    else if !TenantExists(w) { MissingProgress(w, cr, e, cert); }
    else if !InAws(w) { PushProgress(w, cr, e, cert); }
    else { SteadyProgress(w, cr, e, cert); }
  }

  lemma FinalizerProgress(w: World, cr: Resource, e: Env, cert: Option<CertDetails>)
    requires Live(w) && Calm(w, Turn(e), cert) && w.cr == Some(cr) && !cr.finalizer
    ensures Progress(w, e, cert)
  {
    hide PlanExisting, PlanCreate, PlanDelete, SpecMatches, Sound, Smooth, HasCert, Uncovered, ConflictFree;
    SoundStep(w, Turn(e));
    SoundSpec(w);
    SmoothRead(w, e);
  }

  /** What happens between reconciles changes none of the measures. */
  lemma OthersKeep(w: World, step: Step, cert: Option<CertDetails>)
    requires Live(w) && Calm(w, step, cert) && !step.Turn?
    ensures var v := Next(w, step);
      Live(v) && Debt(v, cert) == Debt(w, cert) && Rank(v, cert) == Rank(w, cert)
      && (Converged(v) <==> Converged(w)) && (Attachable(v, cert) <==> Attachable(w, cert))
      && (Stalled(v, cert) <==> Stalled(w, cert))
  {
    hide SpecMatches, Sound, ConflictFree;
    SoundStep(w, step);
    if step.Aws? {
      assert CloudFront.Disturb(w.cloud, []) == w.cloud;
      assert CloudFront.Disturb(w.cloud, [step.event]) == Next(w, step).cloud;
      if w.cr.value.status.id.Some? { SparedTenant(w, [step.event]); }
    }
  }

  // Calm runs.

  function UpdateCount(w: World, steps: seq<Step>): nat
  {
    if steps == [] then 0
    else
      var init := steps[..|steps| - 1];
      UpdateCount(w, init) + if Updates(Run(w, init), steps[|steps| - 1]) then 1 else 0
  }

  /** Reconciles that are neither idle nor waiting for a change to propagate. */
  ghost function BusyCount(w: World, steps: seq<Step>, cert: Option<CertDetails>): nat
  {
    if steps == [] then 0
    else
      var init, last := steps[..|steps| - 1], steps[|steps| - 1];
      BusyCount(w, init, cert)
      + if last.Turn? && !Idle(Run(w, init), last.env, cert) && !Waits(Run(w, init), last.env) then 1 else 0
  }

  /** Updates are conserved: those made and those owed add up to the same number throughout. */
  lemma {:induction false} CalmRun(w: World, steps: seq<Step>, cert: Option<CertDetails>)
    requires Live(w) && Along(w, steps, (v, s) => Calm(v, s, cert))
    ensures var v := Run(w, steps);
      && Live(v)
      && UpdateCount(w, steps) + Debt(v, cert) == Debt(w, cert)
      && BusyCount(w, steps, cert) + Rank(v, cert) <= Rank(w, cert)
  {
    hide Debt, Rank, Live, Idle, Next, Updates, Waits, Calm;
    if steps != [] {
      var init, last := steps[..|steps| - 1], steps[|steps| - 1];
      CalmRun(w, init, cert);
      CalmStep(Run(w, init), last, cert);
    }
  }

  lemma CalmStep(w: World, step: Step, cert: Option<CertDetails>)
    requires Live(w) && Calm(w, step, cert)
    ensures var v := Next(w, step);
      && Live(v)
      && Debt(v, cert) + (if Updates(w, step) then 1 else 0) == Debt(w, cert)
      && Rank(v, cert) + (if step.Turn? && !Idle(w, step.env, cert) && !Waits(w, step.env) then 1 else 0) <= Rank(w, cert)
      && (Stalled(v, cert) <==> Stalled(w, cert) && (step.Turn? ==> !ReadsActive(w)))
  {
    hide Debt, Rank, Live, Idle, Reconcile, Smooth, Uncovered, Waits, Calm, Stalled, ReadsActive;
    if step.Turn? { TurnProgress(w, step.env, cert); } else { OthersKeep(w, step, cert); }
  }

  /** From any live state a calm run makes at most two CloudFront updates, and all but at most five
      of its reconciles are idle or wait for DNS. */
  lemma Settles(w: World, steps: seq<Step>, cert: Option<CertDetails>)
    requires Live(w) && Along(w, steps, (v, s) => Calm(v, s, cert))
    ensures UpdateCount(w, steps) <= 2
    ensures BusyCount(w, steps, cert) <= 5
  {
    CalmRun(w, steps, cert);
    SoundSpec(w);
  }

  /** A stall never begins in a calm run, and it ends exactly at the first reconcile that reads all
      domains active. */
  lemma {:induction false} StallLaw(w: World, steps: seq<Step>, cert: Option<CertDetails>)
    requires Live(w) && Along(w, steps, (v, s) => Calm(v, s, cert))
    ensures Stalled(Run(w, steps), cert)
            <==> Stalled(w, cert) && Along(w, steps, (v: World, s: Step) => s.Turn? ==> !ReadsActive(v))
  {
    hide Live, Next, Calm, Stalled, ReadsActive;
    if steps != [] {
      var init, last := steps[..|steps| - 1], steps[|steps| - 1];
      StallLaw(w, init, cert);
      CalmRun(w, init, cert);
      CalmStep(Run(w, init), last, cert);
    }
  }

  /** Stalls do happen: while some domain is not active, an edit of DNS settings alone starts one. */
  lemma DnsEditStalls(w: World, dns: Option<DnsConfig>, cert: Option<CertDetails>)
    requires Sound(w) && Converged(w) && Issued(w, cert) && HasCert(w.cr.value.spec, cert.value.arn)
    requires Admit(w.cr.value.spec.(dns := dns)) != w.cr.value.spec
    ensures Stalled(Next(w, Edit(w.cr.value.spec.(dns := dns))), cert)
  {
    hide SpecMatches;
    SoundSpec(w);
    var spec := w.cr.value.spec;
    MatchIgnoresDns(spec, Admit(spec.(dns := dns)).dns, w.cloud.tenants[w.cr.value.status.id.value]);
  }

  /** Reconciles, other than those waiting for DNS, after which the spec is not in AWS and observed. */
  function LateCount(w: World, steps: seq<Step>): nat
  {
    if steps == [] then 0
    else
      var init, last := steps[..|steps| - 1], steps[|steps| - 1];
      LateCount(w, init) + if last.Turn? && !Converged(Run(w, steps)) && !Waits(Run(w, init), last.env) then 1 else 0
  }

  /** From every live state that is not stalled, all but at most five reconciles of a calm run end
      converged or wait for DNS. */
  lemma Converges(w: World, steps: seq<Step>, cert: Option<CertDetails>)
    requires Live(w) && Along(w, steps, (v, s) => Calm(v, s, cert))
    requires !Stalled(w, cert)
    ensures LateCount(w, steps) <= 5
  {
    hide Live, Calm, Stalled;
    LateIsBusy(w, steps, cert);
    Settles(w, steps, cert);
  }

  lemma {:induction false} LateIsBusy(w: World, steps: seq<Step>, cert: Option<CertDetails>)
    requires Live(w) && Along(w, steps, (v, s) => Calm(v, s, cert))
    requires !Stalled(w, cert)
    ensures LateCount(w, steps) <= BusyCount(w, steps, cert)
  {
    hide Live, Next, Calm, Stalled, Converged, Waits;
    if steps != [] {
      var init, last := steps[..|steps| - 1], steps[|steps| - 1];
      LateIsBusy(w, init, cert);
      StallLaw(w, steps, cert);
      if last.Turn? { IdleEnds(Run(w, init), last.env, cert); }
    }
  }

  lemma IdleEnds(w: World, e: Env, cert: Option<CertDetails>)
    ensures Idle(w, e, cert) ==> Converged(Next(w, Turn(e))) || Stalled(Next(w, Turn(e)), cert)
  {
  }

  /** Once converged with no certificate left to attach, the operator never again writes to
      CloudFront or Route53 and stays converged. */
  lemma {:induction false} Quiescence(w: World, steps: seq<Step>, cert: Option<CertDetails>)
    requires Live(w) && Along(w, steps, (v, s) => Calm(v, s, cert))
    requires Converged(w) && !Attachable(w, cert)
    ensures Live(Run(w, steps)) && Converged(Run(w, steps)) && !Attachable(Run(w, steps), cert)
    ensures Along(w, steps, (v: World, s: Step) => s.Turn? ==> Silent(v, s.env))
  {
    hide Converged, Attachable, Live, Idle, Next, Silent, Calm;
    if steps != [] {
      var init, last := steps[..|steps| - 1], steps[|steps| - 1];
      Quiescence(w, init, cert);
      var v := Run(w, init);
      if last.Turn? { SilentTurn(v, last.env, cert); } else { OthersKeep(v, last, cert); }
    }
  }

  /** The reconcile calls neither CloudFront nor Route53 to change anything. */
  predicate Silent(w: World, e: Env)
  {
    PlanIn(w, e).call.NoCall? && PlanIn(w, e).dns.NoDns?
  }

  lemma SilentTurn(w: World, e: Env, cert: Option<CertDetails>)
    requires Live(w) && Calm(w, Turn(e), cert) && Converged(w) && !Attachable(w, cert)
    ensures var v := Next(w, Turn(e)); Live(v) && Converged(v) && !Attachable(v, cert)
    ensures Silent(w, e)
  {
    hide Live, Reconcile, Updates, Smooth, Uncovered, Attachable, SpecMatches;
    TurnProgress(w, e, cert);
    FinalizerOf(w);
  }

  lemma FinalizerOf(w: World)
    requires Live(w) && TenantExists(w)
    ensures w.cr.value.finalizer
  {
  }
}
