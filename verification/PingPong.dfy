/** Two controllers write the same spec: the source syncs it, the lifecycle controller attaches an
    issued certificate to it. They do not fight. */
module PingPong {
  import opened Types
  import opened Matching
  import opened TenantSpecs
  import opened Lifecycle
  import opened Phases
  import opened Runs
  import opened Scheduling
  import CloudFront

  datatype Turn =
    | Sync(desired: Spec)        // with the item's spec as built this time
    | Attach(arn: string)

  /** A sync writes when the comparison fails; an attachment happens for managed requests only. */
  function Take(spec: Spec, turn: Turn): Spec
  {
    match turn
    case Sync(desired) => if SpecEqual(spec, desired) then spec else Admit(Apply(spec, desired))
    case Attach(arn) => if spec.managedCert.Some? then Admit(AttachCert(spec, arn)) else spec
  }

  function Play(spec: Spec, turns: seq<Turn>): Spec
  {
    if turns == [] then spec else Take(Play(spec, turns[..|turns| - 1]), turns[|turns| - 1])
  }

  /** Writes that change the spec. */
  function Writes(spec: Spec, turns: seq<Turn>): nat
  {
    if turns == [] then 0
    else
      var before := Play(spec, turns[..|turns| - 1]);
      Writes(spec, turns[..|turns| - 1]) + if Take(before, turns[|turns| - 1]) == before then 0 else 1
  }

  /** One item, one template, one issued certificate. */
  ghost predicate Fair(src: Source, item: Item, arn: string, turns: seq<Turn>)
  {
    forall t | t in turns :: if t.Sync? then Built(src, item, t.desired) else t.arn == arn
  }

  // The attachments are those of the lifecycle controller.

  /** Whatever the outside answers, a reconcile leaves the spec alone or attaches the certificate it
      was told of. */
  lemma TurnIsAttach(w: World, e: Env)
    requires Sound(w) && w.cr.Some?
    ensures var v, spec := Reconcile(w, e).world, w.cr.value.spec;
      v.cr.Some? && v.cr.value.spec != spec ==>
        e.cert.Some? && e.cert.value.state.Issued? && v.cr.value.spec == Take(spec, Attach(e.cert.value.arn))
  {
    hide PlanExisting, PlanCreate, PlanDelete, CloudFront.Disturb, BatchOf, ReadStatus, Admit, AttachCert;
    var cr := w.cr.value;
    if cr.deleting { DeleteIsSummary(w, cr, e); }
    else if !cr.finalizer {}
    else if cr.status.id.None? { CreateIsSummary(w, cr, e); }
    else { ExistingIsSummary(w, cr, e); }
  }

  // When the fight is bounded.

  /** What is built reads back, or it is always the same list. */
  ghost predicate Bounded(src: Source, item: Item)
  {
    (TtlSet(src, item) && ConflictFreeLists(src, item)) || OneListing(item)
  }

  /** Writes still to come: one if a sync would write, one if the certificate may yet be attached. */
  ghost function Tension(arn: string, spec: Spec, desired: Spec): nat
  {
    (if Take(spec, Sync(desired)) == spec then 0 else 1)
    + (if (spec.managedCert.Some? || desired.managedCert.Some?) && !HasCert(spec, arn) then 1 else 0)
  }

  lemma AttachKeepsEquality(spec: Spec, desired: Spec, arn: string)
    requires Admit(spec) == spec && SpecEqual(spec, desired)
    requires desired.managedCert.Some? ==> CertArn(desired) == ""
    ensures SpecEqual(Take(spec, Attach(arn)), desired)
  {
    hide EntriesMatch, SameLengthIncluded;
    var a := AttachCert(spec, arn);
    assert WebAclOf(a) == WebAclOf(spec) && GeoOf(a) == GeoOf(spec);
    assert Admit(a) == a;
  }

  /** A spec a sync would not change stays so when the certificate is attached. */
  lemma AttachKeepsRest(src: Source, item: Item, spec: Spec, desired: Spec, arn: string)
    requires Admit(spec) == spec && Built(src, item, desired) && Take(spec, Sync(desired)) == spec
    ensures var a := Take(spec, Attach(arn)); Take(a, Sync(desired)) == a
  {
    hide EntriesMatch, SameLengthIncluded, Built, SpecEqual;
    CertificateOrRequest(src, item, desired);
    if SpecEqual(spec, desired) {
      AttachKeepsEquality(spec, desired, arn);
    } else if spec.managedCert.Some? {
      assert Admit(Apply(AttachCert(spec, arn), desired)) == AttachCert(spec, arn);
    }
  }

  /** A sync leaves a spec that no sync of the same item would change, whichever way that one lists
      its maps. */
  lemma SyncRests(src: Source, item: Item, spec: Spec, d: Spec, desired: Spec)
    requires Bounded(src, item) && Admit(spec) == spec && Built(src, item, d) && Built(src, item, desired)
    ensures var next := Take(spec, Sync(d)); Take(next, Sync(desired)) == next
    ensures Take(spec, Sync(d)) != spec ==> Take(spec, Sync(desired)) != spec
  {
    hide EntriesMatch, SameLengthIncluded, SpecEqual, Built, TtlSet, ConflictFreeLists;
    ComparisonIgnoresMapOrder(src, item, spec, d, desired);
    AppliedIsEqual(src, item, spec, d, desired);
    AppliedIsEqual(src, item, spec, desired, desired);
    if OneListing(item) {
      UniqueBuild(src, item, d, desired);
      AppliedTwice(src, item, spec, d);
    }
  }

  lemma AppliedTwice(src: Source, item: Item, spec: Spec, d: Spec)
    requires Built(src, item, d)
    ensures var next := Admit(Apply(spec, d)); Admit(next) == next && Admit(Apply(next, d)) == next
  {
  }

  lemma TensionFalls(src: Source, item: Item, arn: string, spec: Spec, desired: Spec, turn: Turn)
    requires Bounded(src, item) && Admit(spec) == spec && Built(src, item, desired)
    requires if turn.Sync? then Built(src, item, turn.desired) else turn.arn == arn
    ensures var next := Take(spec, turn);
      && Admit(next) == next
      && Tension(arn, next, desired) + (if next == spec then 0 else 1) <= Tension(arn, spec, desired)
  {
    hide Built, SpecEqual, Bounded;
    match turn
    case Sync(d) => {
      SyncRests(src, item, spec, d, desired);
      SyncKeepsCert(src, item, spec, d, desired, arn);
    }
    case Attach(_) => {
      if Take(spec, Sync(desired)) == spec { AttachKeepsRest(src, item, spec, desired, arn); }
      AttachGivesCert(spec, arn);
    }
  }

  lemma SyncKeepsCert(src: Source, item: Item, spec: Spec, d: Spec, desired: Spec, arn: string)
    requires Built(src, item, d) && Built(src, item, desired)
    ensures var next := Admit(Apply(spec, d));
      && Admit(next) == next && next.managedCert == desired.managedCert
      && (desired.managedCert.Some? && HasCert(spec, arn) ==> HasCert(next, arn))
  {
    CertificateOrRequest(src, item, d);
  }

  lemma AttachGivesCert(spec: Spec, arn: string)
    requires Admit(spec) == spec
    ensures var a := AttachCert(spec, arn);
      Admit(a) == a && HasCert(a, arn) && (HasCert(spec, arn) ==> a == spec) && a.managedCert == spec.managedCert
  {
  }

  lemma {:induction false} TensionBoundsWrites(src: Source, item: Item, arn: string, spec: Spec, desired: Spec, turns: seq<Turn>)
    requires Bounded(src, item) && Admit(spec) == spec && Built(src, item, desired) && Fair(src, item, arn, turns)
    ensures Admit(Play(spec, turns)) == Play(spec, turns)
    ensures Writes(spec, turns) + Tension(arn, Play(spec, turns), desired) <= Tension(arn, spec, desired)
  {
    hide Take, Built, Tension, Bounded;
    if turns != [] {
      var init, last := turns[..|turns| - 1], turns[|turns| - 1];
      TensionBoundsWrites(src, item, arn, spec, desired, init);
      assert last in turns;
      TensionFalls(src, item, arn, Play(spec, init), desired, last);
    }
  }

  /** However syncs and attachments interleave and however maps are walked, the spec changes at most
      twice: from every stored spec and in every run, exactly when what is built reads back or no map
      of the item can be listed in two ways. */
  lemma AtMostTwoWrites(src: Source, item: Item, arn: string)
    ensures Bounded(src, item)
            <==> forall spec, turns | Admit(spec) == spec && Fair(src, item, arn, turns) :: Writes(spec, turns) <= 2
  {
    if Bounded(src, item) {
      BuildExists(src, item);
      var desired :| Built(src, item, desired);
      forall spec, turns | Admit(spec) == spec && Fair(src, item, arn, turns) ensures Writes(spec, turns) <= 2 {
        TensionBoundsWrites(src, item, arn, spec, desired, turns);
      }
    } else {
      var a, b := TwoBuilds(src, item);
      var spec := Admit(a);
      AlternationNeverRests(src, item, spec, a, b, 4);
      assert Fair(src, item, arn, Alternate(a, b, 4));
    }
  }

  // When it is not.

  /** The source lists a map now one way, now another, `a` last. */
  function Alternate(a: Spec, b: Spec, n: nat): (turns: seq<Turn>)
    ensures forall t | t in turns :: t == Sync(a) || t == Sync(b)
    decreases n
  {
    if n == 0 then [] else Alternate(b, a, n - 1) + [Sync(a)]
  }

  /** Where what is built does not read back, two listings of one item overwrite each other for ever:
      every sync but perhaps the first changes the spec. */
  lemma {:induction false} AlternationNeverRests(src: Source, item: Item, spec: Spec, a: Spec, b: Spec, n: nat)
    requires Admit(spec) == spec && Built(src, item, a) && Built(src, item, b)
    requires !(TtlSet(src, item) && ConflictFreeLists(src, item))
    requires a.parameters != b.parameters || a.tags != b.tags
    ensures var v := Play(spec, Alternate(a, b, n));
      Admit(v) == v && (n > 0 ==> v.parameters == a.parameters && v.tags == a.tags)
    ensures Writes(spec, Alternate(a, b, n)) >= n - 1
    decreases n
  {
    hide Built, Take, TtlSet, ConflictFreeLists, Admit;
    if n > 0 {
      AlternationNeverRests(src, item, spec, b, a, n - 1);
      var turns := Alternate(a, b, n);
      assert turns[..|turns| - 1] == Alternate(b, a, n - 1) && turns[|turns| - 1] == Sync(a);
      AlwaysRewritten(src, item, Play(spec, Alternate(b, a, n - 1)), a);
    }
  }

  lemma AlwaysRewritten(src: Source, item: Item, spec: Spec, desired: Spec)
    requires Admit(spec) == spec && Built(src, item, desired)
    requires !(TtlSet(src, item) && ConflictFreeLists(src, item))
    ensures var v := Take(spec, Sync(desired));
      Admit(v) == v && v.parameters == desired.parameters && v.tags == desired.tags
  {
    hide Built, EntriesMatch, TtlSet, ConflictFreeLists;
    RestsExactly(src, item, spec, desired);
  }

  /** A sync is followed by agreement precisely when the built TTL is set and the template lists hold
      no conflicts. Otherwise the next sync tries to write again, since the API server fills in the
      TTL or a duplicate key contradicts itself. */
  lemma RestsExactly(src: Source, item: Item, spec: Spec, desired: Spec)
    requires Admit(spec) == spec && Built(src, item, desired)
    ensures SpecEqual(Take(spec, Sync(desired)), desired) <==> TtlSet(src, item) && ConflictFreeLists(src, item)
  {
    AppliedIsEqual(src, item, spec, desired, desired);
    if SpecEqual(spec, desired) {
      MatchedIsConflictFree(spec.parameters, desired.parameters, "");
      MatchedIsConflictFree(spec.tags, desired.tags, None);
    }
  }

  lemma MatchedIsConflictFree<V>(a: seq<Entry<V>>, b: seq<Entry<V>>, zero: V)
    requires EntriesMatch(a, b, zero)
    ensures ConflictFree(b)
  {
  }
}
