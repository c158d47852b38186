/** Syncing the resources of one source with its items: create, update, delete. */
module Sync {
  import opened Types
  import opened Matching
  import opened Lifecycle
  import opened Runs
  import opened TenantSpecs
  import opened PingPong
  import opened Scan

  /** A resource with the metadata a source looks at. */
  datatype Child = Child(origin: Option<string>, owners: set<nat>, resource: Resource)

  datatype Action = CreateIt | UpdateIt | DeleteIt

  datatype Attempt = Attempt(action: Action, name: string)

  /** What the API server fails: writes and reads of these names, the listing, writing the source. */
  datatype Faults = Faults(puts: set<string>, gets: set<string>, listing: bool, source: bool)

  predicate Listed(c: Child, src: Source) { c.origin == Some(src.name) }

  predicate Owned(c: Child, src: Source) { src.uid in c.owners }

  function At(m: map<string, Child>, name: string): Option<Child>
  {
    if name in m then Some(m[name]) else None
  }

  /** Items by name; of two items with one name the later counts. */
  function Wanted(items: seq<Item>): map<string, Item>
  {
    if items == [] then map[] else Wanted(items[..|items| - 1])[items[|items| - 1].name := items[|items| - 1]]
  }

  function WantedAt(items: seq<Item>, name: string): Option<Item>
  {
    if name in Wanted(items) then Some(Wanted(items)[name]) else None
  }

  /** The spec compares equal to the item's, however its maps are listed. */
  ghost predicate Agrees(src: Source, item: Item, spec: Spec)
  {
    forall b | Built(src, item, b) :: SpecEqual(spec, b)
  }

  // The specification, one name at a time.

  ghost function Due(src: Source, item: Option<Item>, before: Option<Child>, readFails: bool): Option<Action>
  {
    if item.Some? then
      if before.Some? && Listed(before.value, src) then
        if !Owned(before.value, src) || Agrees(src, item.value, before.value.resource.spec) then None else Some(UpdateIt)
      else if before.Some? && !readFails && !Owned(before.value, src) then None
      else Some(CreateIt)
    else if before.Some? && Listed(before.value, src) && Owned(before.value, src) then Some(DeleteIt)
    else None
  }

  /** Somebody else's resource has the name. */
  predicate Conflict(src: Source, item: Option<Item>, before: Option<Child>, readFails: bool)
  {
    item.Some? && before.Some? && !Owned(before.value, src) && (Listed(before.value, src) || !readFails)
  }

  function NewChild(src: Source, name: string, spec: Spec): Child
  {
    Child(Some(src.name), {src.uid}, Resource(name, 1, Admit(spec), NEW_STATUS, false, false))
  }

  function Updated(c: Child, spec: Spec): Child
  {
    c.(resource := StoreSpec(c.resource, Apply(c.resource.spec, spec)))
  }

  function Removed(c: Child): Option<Child>
  {
    var r := Requested(c.resource);
    if r.None? then None else Some(c.(resource := r.value))
  }

  /** What a sync makes of one name. */
  ghost predicate Synced(src: Source, name: string, item: Option<Item>, before: Option<Child>, after: Option<Child>, f: Faults)
  {
    match Due(src, item, before, name in f.gets)
    case None => after == before
    case Some(action) =>
      if name in f.puts || (action.CreateIt? && before.Some?) then after == before
      else match action
        case CreateIt => exists spec :: Built(src, item.value, spec) && after == Some(NewChild(src, name, spec))
        case UpdateIt => exists spec :: Built(src, item.value, spec) && after == Some(Updated(before.value, spec))
        case DeleteIt => after == Removed(before.value)
  }

  /** The call for a name is refused, or a foreign resource is in the way. */
  ghost predicate Failing(src: Source, name: string, item: Option<Item>, before: Option<Child>, f: Faults)
  {
    var due := Due(src, item, before, name in f.gets);
    || Conflict(src, item, before, name in f.gets)
    || (due.Some? && (name in f.puts || (due.value.CreateIt? && before.Some?)))
  }

  /** What the rows of the first `n` pages ask for. */
  function Items(answers: seq<Page>, n: nat, c: Mapping): seq<Item>
    requires n <= |answers| && forall i | 0 <= i < n :: answers[i].Page?
  {
    MapRows(AllRows(answers[..n]), c)
  }

  /** What one poll makes of the resources: nothing in a dry run, without a listing or without a
      complete scan, otherwise a sync with the items of that scan. */
  ghost predicate Polled(src: Source, answers: seq<Page>, c: Mapping, dryRun: bool, f: Faults,
                         before: map<string, Child>, after: map<string, Child>)
  {
    && (dryRun || f.listing || (forall n: nat :: !Complete(answers, n)) ==> after == before)
    && (!dryRun && !f.listing ==>
          forall n: nat | Complete(answers, n) :: forall name ::
            Synced(src, name, WantedAt(Items(answers, n, c), name), At(before, name), At(after, name), f))
  }

  class SourceReconciler {
    var children: map<string, Child>
    var finalizer: bool

    constructor (children: map<string, Child>)
      ensures this.children == children && !finalizer
    {
      this.children, finalizer := children, false;
    }

    method SyncExisting(src: Source, name: string, item: Item, dryRun: bool, f: Faults)
      returns (attempt: Option<Action>, failed: bool)
      requires name in children && Listed(children[name], src)
      modifies this
      ensures finalizer == old(finalizer)
      ensures forall n | n != name :: At(children, n) == At(old(children), n)
      ensures attempt == Due(src, Some(item), old(At(children, name)), name in f.gets)
      ensures if dryRun then children == old(children)
              else Synced(src, name, Some(item), old(At(children, name)), At(children, name), f)
      ensures !dryRun ==> (failed <==> Failing(src, name, Some(item), old(At(children, name)), f))
    {
      var spec := BuildTenantSpec(src, item);
      var child := children[name];
      if !Owned(child, src) { return None, true; }
      var equal := TenantSpecEqual(child.resource.spec, spec);
      ghost var agrees := Agrees(src, item, child.resource.spec);
      forall b | Built(src, item, b) ensures SpecEqual(child.resource.spec, b) <==> equal {
        ComparisonIgnoresMapOrder(src, item, child.resource.spec, spec, b);
      }
      assert agrees <==> equal;
      if equal { return None, false; }
      if dryRun { return Some(UpdateIt), false; }
      if name in f.puts { return Some(UpdateIt), true; }
      var applied := ApplyManagedFields(child.resource.spec, spec);
      children := children[name := child.(resource := StoreSpec(child.resource, applied))];
      attempt, failed := Some(UpdateIt), false;
    }

    method SyncNew(src: Source, name: string, item: Item, dryRun: bool, f: Faults)
      returns (attempt: Option<Action>, failed: bool)
      requires name in children ==> !Listed(children[name], src)
      modifies this
      ensures finalizer == old(finalizer)
      ensures forall n | n != name :: At(children, n) == At(old(children), n)
      ensures attempt == Due(src, Some(item), old(At(children, name)), name in f.gets)
      ensures if dryRun then children == old(children)
              else Synced(src, name, Some(item), old(At(children, name)), At(children, name), f)
      ensures !dryRun ==> (failed <==> Failing(src, name, Some(item), old(At(children, name)), f))
    {
      var spec := BuildTenantSpec(src, item);
      if name !in f.gets && name in children {
        if !Owned(children[name], src) { return None, true; }
      }
      if dryRun { return Some(CreateIt), false; }
      if name in f.puts || name in children { return Some(CreateIt), true; }
      children := children[name := NewChild(src, name, spec)];
      attempt, failed := Some(CreateIt), false;
    }

    /** Walk the items, then the listed resources, in any order. The attempts are the pending changes
        of a dry run and the calls of a real one. */
    method SyncTenants(src: Source, items: seq<Item>, dryRun: bool, f: Faults)
      returns (attempts: seq<Attempt>, errors: seq<string>)
      modifies this
      ensures finalizer == old(finalizer)
      ensures dryRun ==> children == old(children)
      ensures !dryRun ==> forall n :: Synced(src, n, WantedAt(items, n), old(At(children, n)), At(children, n), f)
      ensures NoDuplicates(attempts)
      ensures forall n, a :: Attempt(a, n) in attempts
                             <==> Due(src, WantedAt(items, n), old(At(children, n)), n in f.gets) == Some(a)
      ensures !dryRun ==> forall n :: n in errors <==> Failing(src, n, WantedAt(items, n), old(At(children, n)), f)
    {
      hide Due, Synced, Failing, Wanted;
      ghost var was := children;
      var desired := CollectWanted(items);
      var existing := map n | n in children && Listed(children[n], src) :: children[n];
      attempts, errors := [], [];
      var todo := desired.Keys;
      while todo != {}
        invariant todo <= desired.Keys && finalizer == old(finalizer)
        invariant dryRun ==> children == was
        invariant forall n | n !in desired.Keys - todo :: At(children, n) == At(was, n)
        invariant !dryRun ==> forall n | n in desired.Keys - todo ::
                    Synced(src, n, WantedAt(items, n), At(was, n), At(children, n), f)
        invariant Noted(src, items, was, f, attempts, desired.Keys - todo)
        invariant !dryRun ==> Reported(src, items, was, f, errors, desired.Keys - todo)
        decreases todo
      {
        var name :| name in todo;
        assert At(children, name) == At(was, name);
        var attempt, failed;
        if name in existing {
          attempt, failed := SyncExisting(src, name, desired[name], dryRun, f);
        } else {
          attempt, failed := SyncNew(src, name, desired[name], dryRun, f);
        }
        RecordOne(src, items, was, f, attempts, desired.Keys - todo, name);
        if attempt.Some? { attempts := attempts + [Attempt(attempt.value, name)]; }
        if failed { errors := errors + [name]; }
        todo := todo - {name};
        assert desired.Keys - todo == desired.Keys - (todo + {name}) + {name};
      }
      assert desired.Keys - todo == desired.Keys;
      attempts, errors := DeleteVanished(src, items, desired, existing, dryRun, f, was, attempts, errors);
    }

    method DeleteVanished(src: Source, items: seq<Item>, desired: map<string, Item>, existing: map<string, Child>,
                          dryRun: bool, f: Faults, ghost was: map<string, Child>,
                          attempts: seq<Attempt>, errors: seq<string>)
      returns (attempts': seq<Attempt>, errors': seq<string>)
      requires desired == Wanted(items)
      requires existing == map n | n in was && Listed(was[n], src) :: was[n]
      requires dryRun ==> children == was
      requires forall n | n !in desired :: At(children, n) == At(was, n)
      requires !dryRun ==> forall n | n in desired :: Synced(src, n, WantedAt(items, n), At(was, n), At(children, n), f)
      requires Noted(src, items, was, f, attempts, desired.Keys)
      requires !dryRun ==> Reported(src, items, was, f, errors, desired.Keys)
      modifies this
      ensures finalizer == old(finalizer)
      ensures dryRun ==> children == was
      ensures !dryRun ==> forall n :: Synced(src, n, WantedAt(items, n), At(was, n), At(children, n), f)
      ensures NoDuplicates(attempts')
      ensures forall n, a :: Attempt(a, n) in attempts' <==> Due(src, WantedAt(items, n), At(was, n), n in f.gets) == Some(a)
      ensures !dryRun ==> forall n :: n in errors' <==> Failing(src, n, WantedAt(items, n), At(was, n), f)
    {
      hide Due, Synced, Failing, Removed, Wanted;
      attempts', errors' := attempts, errors;
      var todo := existing.Keys;
      ghost var seen := desired.Keys;
      while todo != {}
        invariant todo <= existing.Keys && finalizer == old(finalizer)
        invariant seen == desired.Keys + (existing.Keys - todo)
        invariant dryRun ==> children == was
        invariant forall n | n !in seen :: At(children, n) == At(was, n)
        invariant !dryRun ==> forall n | n in seen :: Synced(src, n, WantedAt(items, n), At(was, n), At(children, n), f)
        invariant Noted(src, items, was, f, attempts', seen)
        invariant !dryRun ==> Reported(src, items, was, f, errors', seen)
        decreases todo
      {
        var name :| name in todo;
        todo := todo - {name};
        if name !in desired {
          RecordOne(src, items, was, f, attempts', seen, name);
          UnwantedName(src, name, At(was, name), f);
          if Owned(existing[name], src) {
            attempts' := attempts' + [Attempt(DeleteIt, name)];
            if !dryRun {
              if name in f.puts {
                errors' := errors' + [name];
              } else {
                var left := Removed(children[name]);
                children := if left.None? then children - {name} else children[name := left.value];
              }
            }
          }
        }
        seen := seen + {name};
      }
      forall n | n !in seen ensures Due(src, WantedAt(items, n), At(was, n), n in f.gets).None? {
        UnwantedName(src, n, At(was, n), f);
      }
      forall n | n !in seen ensures Synced(src, n, WantedAt(items, n), At(was, n), At(children, n), f) {
        UnwantedName(src, n, At(was, n), f);
      }
      forall n | n !in seen ensures !Failing(src, n, WantedAt(items, n), At(was, n), f) {
        UnwantedName(src, n, At(was, n), f);
      }
    }

    /** One poll: scan, list, sync. A delete is attempted only when no row of a complete scan
        declares the tenant. */
    method Poll(src: Source, answers: seq<Page>, c: Mapping, dryRun: bool, f: Faults)
      returns (attempts: seq<Attempt>, errors: seq<string>)
      modifies this
      ensures finalizer == old(finalizer)
      ensures Polled(src, answers, c, dryRun, f, old(children), children)
      ensures f.listing || (forall n: nat :: !Complete(answers, n)) ==> attempts == []
      ensures forall name | Attempt(DeleteIt, name) in attempts ::
                exists n: nat :: Complete(answers, n) && Absent(answers, n, c, name)
    {
      var scanned := ScanTenants(answers, c);
      if scanned.Err? || f.listing { return [], []; }
      ghost var n: nat :| Complete(answers, n);
      attempts, errors := SyncTenants(src, scanned.value, dryRun, f);
      forall name | Attempt(DeleteIt, name) in attempts
        ensures Absent(answers, n, c, name)
      {
        DeletedIsUnwanted(src, scanned.value, name, old(At(children, name)), name in f.gets);
        AbsentExactly(answers, n, c, name);
      }
    }

    /** Deleting the source: first every resource with its label goes, owned or not; only when none is
        left is the source let go. */
    method ReconcileDelete(src: Source, f: Faults) returns (failed: bool)
      modifies this
      ensures old(finalizer) ==>
                (!finalizer <==> !failed && forall n | n in old(children) :: !Listed(old(children)[n], src))
      ensures !old(finalizer) ==> !finalizer && !failed && children == old(children)
      ensures failed ==> f.listing || f.source || f.puts != {}
      ensures forall n | !(n in old(children) && Listed(old(children)[n], src)) :: At(children, n) == old(At(children, n))
      ensures old(finalizer) && !failed ==> forall n | n in old(children) && Listed(old(children)[n], src) ::
                                              At(children, n) == Removed(old(children)[n])
    {
      if !finalizer { return false; }
      if f.listing { return true; }
      var listed := set n | n in children && Listed(children[n], src);
      if listed == {} {
        assert forall n | n in children :: n !in listed;
        finalizer := f.source;
        return f.source;
      }
      ghost var some :| some in listed;
      failed := false;
      var todo := listed;
      while todo != {}
        invariant todo <= listed && finalizer
        invariant forall n | n !in listed - todo :: At(children, n) == old(At(children, n))
        invariant forall n | n in listed - todo :: At(children, n) == Removed(old(children)[n])
        decreases todo
      {
        var name :| name in todo;
        assert At(children, name) == old(At(children, name));
        if name in f.puts { return true; }
        var left := Removed(children[name]);
        children := if left.None? then children - {name} else children[name := left.value];
        todo := todo - {name};
      }
    }

    /** One reconcile of the source. No resource is written before the finalizer is in place, and it
        goes only from a source being deleted that has no labelled resource left. A source that is not
        being deleted polls, and a dry run writes nothing; one that is being deleted deletes, dry run
        or not. */
    method Reconcile(src: Source, deleting: bool, answers: seq<Page>, c: Mapping, dryRun: bool, f: Faults)
      modifies this
      ensures !old(finalizer) ==> children == old(children) && (finalizer <==> !deleting && !f.source)
      ensures old(finalizer) && !finalizer ==>
                deleting && children == old(children) && forall n | n in children :: !Listed(children[n], src)
      ensures old(finalizer) && !deleting ==> Polled(src, answers, c, dryRun, f, old(children), children)
      ensures old(finalizer) && deleting ==>
                && (forall n | !(n in old(children) && Listed(old(children)[n], src)) ::
                      At(children, n) == old(At(children, n)))
                && (!f.listing && !f.source && f.puts == {} ==>
                      forall n | n in old(children) && Listed(old(children)[n], src) ::
                        At(children, n) == Removed(old(children)[n]))
    {
      if deleting {
        var failed := ReconcileDelete(src, f);
        if old(finalizer) && !finalizer {
          assert forall n :: At(children, n) == old(At(children, n));
          SameEverywhere(children, old(children));
        }
      } else if !finalizer {
        finalizer := !f.source;
      } else {
        var attempts, errors := Poll(src, answers, c, dryRun, f);
      }
    }
  }

  lemma SameEverywhere(a: map<string, Child>, b: map<string, Child>)
    requires forall n :: At(a, n) == At(b, n)
    ensures a == b
  {
    forall n ensures n in a <==> n in b {
      assert At(a, n) == At(b, n);
    }
    forall n | n in a ensures a[n] == b[n] {
      assert At(a, n) == At(b, n);
    }
  }

  method CollectWanted(items: seq<Item>) returns (desired: map<string, Item>)
    ensures desired == Wanted(items)
  {
    desired := map[];
    for i := 0 to |items|
      invariant desired == Wanted(items[..i])
    {
      desired := desired[items[i].name := items[i]];
      assert items[..i + 1][..i] == items[..i];
    }
    assert items[..|items|] == items;
  }

  /** The attempts so far are those due for the names seen, once each. */
  ghost predicate Noted(src: Source, items: seq<Item>, was: map<string, Child>, f: Faults,
                           attempts: seq<Attempt>, seen: set<string>)
  {
    && NoDuplicates(attempts)
    && forall n, a :: Attempt(a, n) in attempts
                      <==> n in seen && Due(src, WantedAt(items, n), At(was, n), n in f.gets) == Some(a)
  }

  ghost predicate Reported(src: Source, items: seq<Item>, was: map<string, Child>, f: Faults,
                           errors: seq<string>, seen: set<string>)
  {
    forall n :: n in errors <==> n in seen && Failing(src, n, WantedAt(items, n), At(was, n), f)
  }

  lemma RecordOne(src: Source, items: seq<Item>, was: map<string, Child>, f: Faults,
                  attempts: seq<Attempt>, seen: set<string>, name: string)
    requires Noted(src, items, was, f, attempts, seen) && name !in seen
    ensures var due := Due(src, WantedAt(items, name), At(was, name), name in f.gets);
      Noted(src, items, was, f, attempts + (if due.Some? then [Attempt(due.value, name)] else []), seen + {name})
  {
    hide Due;
  }

  /** A name no item has: its resource goes if it is listed and owned. */
  lemma UnwantedName(src: Source, name: string, before: Option<Child>, f: Faults)
    ensures var goes := before.Some? && Listed(before.value, src) && Owned(before.value, src);
      && Due(src, None, before, name in f.gets) == (if goes then Some(DeleteIt) else None)
      && (Failing(src, name, None, before, f) <==> goes && name in f.puts)
      && forall after :: Synced(src, name, None, before, after, f)
                         <==> after == (if goes && name !in f.puts then Removed(before.value) else before)
  {
  }

  /** The resource is gone, or on its way while it was not before. */
  predicate Vanished(before: Child, after: Option<Child>)
  {
    after.None? || (after.value.resource.deleting && !before.resource.deleting)
  }

  lemma VanishesSynced(src: Source, name: string, item: Option<Item>, before: Child, after: Option<Child>, f: Faults)
    requires Synced(src, name, item, Some(before), after, f)
    ensures Vanished(before, after)
            <==> item.None? && Listed(before, src) && Owned(before, src) && name !in f.puts
                 && !(before.resource.finalizer && before.resource.deleting)
  {
    hide Agrees, Apply, Admit;
  }

  /** No row of the first `n` pages declares the tenant. */
  ghost predicate Absent(answers: seq<Page>, n: nat, c: Mapping, name: string)
    requires Complete(answers, n)
  {
    forall i, row | 0 <= i < n && row in answers[i].rows :: !Declares(row, c, name)
  }

  /** Exactly when a poll deletes a resource: it is this source's by label and owner, the listing and
      the delete go through, it is no dry run, and no row of a complete scan gives its name some domain,
      as a text or as a set. */
  lemma VanishesExactly(src: Source, answers: seq<Page>, c: Mapping, dryRun: bool, f: Faults,
                        before: map<string, Child>, after: map<string, Child>, name: string)
    requires Polled(src, answers, c, dryRun, f, before, after) && name in before
    ensures Vanished(before[name], At(after, name))
            <==> && !dryRun && !f.listing && name !in f.puts
                 && Listed(before[name], src) && Owned(before[name], src)
                 && !(before[name].resource.finalizer && before[name].resource.deleting)
                 && exists n: nat :: Complete(answers, n) && Absent(answers, n, c, name)
  {
    hide Synced, Absent, Items;
    forall n: nat | Complete(answers, n) && !dryRun && !f.listing
      ensures Synced(src, name, WantedAt(Items(answers, n, c), name), Some(before[name]), At(after, name), f)
      ensures WantedAt(Items(answers, n, c), name).None? <==> Absent(answers, n, c, name)
    {
      AbsentExactly(answers, n, c, name);
    }
    forall n: nat | Complete(answers, n) && !dryRun && !f.listing
      ensures Vanished(before[name], At(after, name))
              <==> Absent(answers, n, c, name) && Listed(before[name], src) && Owned(before[name], src)
                   && name !in f.puts && !(before[name].resource.finalizer && before[name].resource.deleting)
    {
      VanishesSynced(src, name, WantedAt(Items(answers, n, c), name), before[name], At(after, name), f);
    }
  }

  lemma AbsentExactly(answers: seq<Page>, n: nat, c: Mapping, name: string)
    requires Complete(answers, n)
    ensures WantedAt(Items(answers, n, c), name).None? <==> Absent(answers, n, c, name)
  {
    WantedIsNamed(Items(answers, n, c), name);
    ItemsAreRows(AllRows(answers[..n]), c, name);
    RowsOfPages(answers[..n]);
    forall row ensures Mappable(row, c) && Text(row, c.name) == Some(name) <==> Declares(row, c, name) {
      MappableExactly(row, c);
    }
  }

  lemma {:induction false} RowsOfPages(pages: seq<Page>)
    requires forall p | p in pages :: p.Page?
    ensures forall row :: row in AllRows(pages) <==> exists i :: 0 <= i < |pages| && row in pages[i].rows
  {
    if pages != [] {
      var init := pages[..|pages| - 1];
      RowsOfPages(init);
      forall row ensures row in AllRows(pages) <==> exists i :: 0 <= i < |pages| && row in pages[i].rows {
        if i :| 0 <= i < |pages| && row in pages[i].rows {
          if i < |init| { assert row in init[i].rows; }
        }
      }
    }
  }

  lemma DeletedIsUnwanted(src: Source, items: seq<Item>, name: string, before: Option<Child>, readFails: bool)
    requires Due(src, WantedAt(items, name), before, readFails) == Some(DeleteIt)
    ensures name !in Wanted(items)
  {
  }

  lemma {:induction false} WantedIsNamed(items: seq<Item>, name: string)
    ensures name in Wanted(items) <==> exists item :: item in items && item.name == name
    ensures name in Wanted(items) ==> Wanted(items)[name] in items && Wanted(items)[name].name == name
  {
    if items != [] {
      WantedIsNamed(items[..|items| - 1], name);
      assert items == items[..|items| - 1] + [items[|items| - 1]];
    }
  }

  /** Of several items with one name the last counts. */
  lemma {:induction false} LastItemCounts(items: seq<Item>, i: nat)
    requires i < |items| && forall j | i < j < |items| :: items[j].name != items[i].name
    ensures WantedAt(items, items[i].name) == Some(items[i])
  {
    var n := |items| - 1;
    if i < n {
      assert items[..n][i] == items[i];
      LastItemCounts(items[..n], i);
    }
  }

  /** A created resource is new under the item's name, with the label and the owner reference of this
      source; an updated one changes its spec, and with it its generation, only. */
  lemma WritesOnlySpecs(src: Source, name: string, item: Item, before: Option<Child>, after: Option<Child>, f: Faults)
    requires Synced(src, name, Some(item), before, after, f) && after != before
    ensures name !in f.puts && after.Some?
    ensures before.None? ==>
              var c, r := after.value, after.value.resource;
              && c.origin == Some(src.name) && c.owners == {src.uid}
              && r.name == name && r.generation == 1 && !r.finalizer && !r.deleting && r.status.id.None?
              && r.status.observedGeneration == 0 && r.status.dnsChange.None? && r.status.dnsTarget == ""
    ensures before.Some? ==>
              var b, r := before.value, after.value.resource;
              && Listed(b, src) && Owned(b, src)
              && after.value == b.(resource := r) && r == b.resource.(spec := r.spec, generation := r.generation)
              && r.generation == b.resource.generation + 1
  {
    hide Agrees, Built, Apply;
  }

  /** A name fails exactly when a resource that is not both labelled and owned is in the way of an item,
      or when there is something to write or delete and the API server refuses it. */
  lemma FailsExactly(src: Source, name: string, item: Option<Item>, before: Option<Child>, f: Faults)
    ensures var ours := before.Some? && Listed(before.value, src) && Owned(before.value, src);
      Failing(src, name, item, before, f) <==>
      || (item.Some? && before.Some? && !ours)
      || (name in f.puts && (if item.None? then ours
                             else before.None? || (ours && !Agrees(src, item.value, before.value.resource.spec))))
  {
    hide Agrees;
  }

  // What a sync achieves.

  /** Building an item is always possible, so agreeing with every build is agreeing with one. */
  lemma AgreesWithOne(src: Source, item: Item, spec: Spec, b: Spec)
    requires Built(src, item, b)
    ensures Agrees(src, item, spec) <==> SpecEqual(spec, b)
  {
    hide Built, SpecEqual;
    forall c | Built(src, item, c) ensures SpecEqual(spec, c) <==> SpecEqual(spec, b) {
      ComparisonIgnoresMapOrder(src, item, spec, c, b);
    }
  }

  /** The stored spec after a create or update agrees with the item exactly when the built TTL is set
      and the template lists hold no conflicts. */
  lemma WrittenAgrees(src: Source, item: Item, current: Spec, b: Spec)
    requires Built(src, item, b)
    ensures Agrees(src, item, Admit(Apply(current, b))) <==> TtlSet(src, item) && ConflictFreeLists(src, item)
  {
    hide Built, SpecEqual;
    AgreesWithOne(src, item, Admit(Apply(current, b)), b);
    AppliedIsEqual(src, item, current, b, b);
  }

  /** What is built for the item reads back as it was written. */
  ghost predicate ReadsBack(src: Source, item: Item)
  {
    TtlSet(src, item) && ConflictFreeLists(src, item)
  }

  /** After a sync in which nothing failed for a wanted name, its resource is listed and owned, and
      the next sync has nothing to do for it exactly when what was built can be read back. */
  lemma WantedIsSynced(src: Source, name: string, item: Item, before: Option<Child>, after: Option<Child>, f: Faults)
    requires Synced(src, name, Some(item), before, after, f) && !Failing(src, name, Some(item), before, f)
    requires before.Some? ==> Admit(before.value.resource.spec) == before.value.resource.spec
    ensures after.Some? && Listed(after.value, src) && Owned(after.value, src)
    ensures Agrees(src, item, after.value.resource.spec) <==> ReadsBack(src, item)
    ensures Due(src, Some(item), after, false) == None <==> ReadsBack(src, item)
  {
    hide Built, SpecEqual, TtlSet, ConflictFreeLists, Agrees;
    var due := Due(src, Some(item), before, name in f.gets);
    if due == Some(CreateIt) {
      var spec :| Built(src, item, spec) && after == Some(NewChild(src, name, spec));
      BareApply(spec);
      WrittenAgrees(src, item, spec.(customizations := None), spec);
    } else if due == Some(UpdateIt) {
      var spec :| Built(src, item, spec) && after == Some(Updated(before.value, spec));
      WrittenAgrees(src, item, before.value.resource.spec, spec);
    } else {
      AgreedReadsBack(src, item, before.value.resource.spec);
    }
  }

  /** The next sync creates or updates the resource. */
  ghost predicate WritesAgain(src: Source, item: Option<Item>, after: Option<Child>)
  {
    Due(src, item, after, false) in {Some(CreateIt), Some(UpdateIt)}
  }

  /** After a sync in which nothing failed, the next one creates and updates nothing exactly when
      everything built for the items can be read back. */
  lemma SecondSyncWritesNothing(src: Source, items: seq<Item>, was: map<string, Child>, now: map<string, Child>, f: Faults)
    requires forall n :: Synced(src, n, WantedAt(items, n), At(was, n), At(now, n), f)
                         && !Failing(src, n, WantedAt(items, n), At(was, n), f)
    requires forall n | n in was :: Admit(was[n].resource.spec) == was[n].resource.spec
    ensures (forall n :: !WritesAgain(src, WantedAt(items, n), At(now, n)))
            <==> forall n | WantedAt(items, n).Some? :: ReadsBack(src, WantedAt(items, n).value)
  {
    hide WritesAgain, ReadsBack, Synced, Failing;
    forall n ensures WritesAgain(src, WantedAt(items, n), At(now, n))
                     <==> WantedAt(items, n).Some? && !ReadsBack(src, WantedAt(items, n).value) {
      WrittenAgain(src, n, WantedAt(items, n), At(was, n), At(now, n), f);
    }
  }

  lemma WrittenAgain(src: Source, name: string, item: Option<Item>, before: Option<Child>, after: Option<Child>, f: Faults)
    requires Synced(src, name, item, before, after, f) && !Failing(src, name, item, before, f)
    requires before.Some? ==> Admit(before.value.resource.spec) == before.value.resource.spec
    ensures WritesAgain(src, item, after) <==> item.Some? && !ReadsBack(src, item.value)
  {
    if item.Some? {
      WantedIsSynced(src, name, item.value, before, after, f);
      NeverDeletesWanted(src, item.value, after);
    }
  }

  lemma NeverDeletesWanted(src: Source, item: Item, before: Option<Child>)
    ensures Due(src, Some(item), before, false) != Some(DeleteIt)
  {
  }

  lemma BareApply(spec: Spec)
    ensures Apply(spec.(customizations := None), spec) == spec
  {
  }

  /** Only what can be read back is ever agreed with. */
  lemma AgreedReadsBack(src: Source, item: Item, spec: Spec)
    requires Agrees(src, item, spec) && Admit(spec) == spec
    ensures ReadsBack(src, item)
  {
    BuildExists(src, item);
    var b :| Built(src, item, b);
    assert SpecEqual(spec, b);
    MatchedIsConflictFree(spec.parameters, b.parameters, "");
    MatchedIsConflictFree(spec.tags, b.tags, None);
  }

  /** For an owned resource a sync is the step that the two-controller analysis takes. */
  lemma SyncIsStep(src: Source, name: string, item: Item, before: Child, after: Option<Child>, f: Faults)
    requires Synced(src, name, Some(item), Some(before), after, f)
    requires Listed(before, src) && Owned(before, src) && name !in f.puts
    ensures after.Some?
    ensures exists b :: Built(src, item, b) && after.value.resource.spec == PingPong.Take(before.resource.spec, PingPong.Sync(b))
  {
    hide Built, SpecEqual, Apply, Admit;
    if Agrees(src, item, before.resource.spec) {
      BuildExists(src, item);
      var b :| Built(src, item, b);
      assert PingPong.Take(before.resource.spec, PingPong.Sync(b)) == before.resource.spec;
    } else {
      var b :| Built(src, item, b) && after == Some(Updated(before, b));
      AgreesWithOne(src, item, before.resource.spec, b);
    }
  }

  /** A vanished item's resource is gone or on its way; what other sources own is never touched. */
  lemma OthersAreSafe(src: Source, name: string, item: Option<Item>, before: Option<Child>, after: Option<Child>, f: Faults)
    requires Synced(src, name, item, before, after, f)
    ensures before.Some? && !Owned(before.value, src) ==> after == before
    ensures item.None? && before.Some? && Listed(before.value, src) && Owned(before.value, src) && name !in f.puts
            ==> after.None? || after.value.resource.deleting
    ensures item.None? && !(before.Some? && Listed(before.value, src) && Owned(before.value, src)) ==> after == before
  {
    hide Agrees, Apply;
  }

  /** The same up to the order of parameters and tags. */
  ghost predicate Reordered(x: Spec, y: Spec)
  {
    && x == y.(parameters := x.parameters, tags := x.tags)
    && multiset(x.parameters) == multiset(y.parameters)
    && multiset(x.tags) == multiset(y.tags)
  }

  /** However maps are walked, two syncs of one name leave the same resource, up to the order of
      parameters and tags. Even the generation is the same wherever what is built reads back; elsewhere
      it may depend on whether a rewritten spec happens to repeat the stored order. */
  lemma OutcomeIgnoresOrder(src: Source, name: string, item: Option<Item>, before: Option<Child>,
                            a: Option<Child>, b: Option<Child>, f: Faults)
    requires Synced(src, name, item, before, a, f) && Synced(src, name, item, before, b, f)
    ensures a.Some? <==> b.Some?
    ensures a.Some? ==>
              && b.value == a.value.(resource := b.value.resource)
              && b.value.resource == a.value.resource.(spec := b.value.resource.spec, generation := b.value.resource.generation)
              && Reordered(a.value.resource.spec, b.value.resource.spec)
    ensures a.Some? && (before.Some? ==> Admit(before.value.resource.spec) == before.value.resource.spec)
            && (item.Some? ==> ReadsBack(src, item.value))
            ==> a.value.resource.generation == b.value.resource.generation
  {
    hide Agrees, Built, Apply, Admit, Reordered, ReadsBack;
    var due := Due(src, item, before, name in f.gets);
    if due == Some(CreateIt) && name !in f.puts && before.None? {
      var s :| Built(src, item.value, s) && a == Some(NewChild(src, name, s));
      var t :| Built(src, item.value, t) && b == Some(NewChild(src, name, t));
      SameBuild(src, item.value, s, t);
      StoredAlike(before, s, t);
    } else if due == Some(UpdateIt) && name !in f.puts {
      var s :| Built(src, item.value, s) && a == Some(Updated(before.value, s));
      var t :| Built(src, item.value, t) && b == Some(Updated(before.value, t));
      SameBuild(src, item.value, s, t);
      StoredAlike(before, s, t);
      if ReadsBack(src, item.value) && Admit(before.value.resource.spec) == before.value.resource.spec {
        UpdateCounts(src, item.value, before.value, s);
        UpdateCounts(src, item.value, before.value, t);
      }
    } else if a.Some? {
      Unordered(a.value.resource.spec);
    }
  }

  /** A due update of something that reads back is a new generation. */
  lemma UpdateCounts(src: Source, item: Item, before: Child, b: Spec)
    requires Built(src, item, b) && ReadsBack(src, item)
    requires Admit(before.resource.spec) == before.resource.spec && !Agrees(src, item, before.resource.spec)
    ensures Updated(before, b).resource.generation == before.resource.generation + 1
  {
    hide Built, SpecEqual, Agrees;
    WrittenAgrees(src, item, before.resource.spec, b);
  }

  lemma Unordered(spec: Spec)
    ensures Reordered(spec, spec)
  {
  }

  lemma StoredAlike(before: Option<Child>, s: Spec, t: Spec)
    requires Reordered(s, t)
    ensures Reordered(Admit(s), Admit(t))
    ensures before.Some? ==> Reordered(Admit(Apply(before.value.resource.spec, s)), Admit(Apply(before.value.resource.spec, t)))
  {
  }

  lemma SameBuild(src: Source, item: Item, s: Spec, t: Spec)
    requires Built(src, item, s) && Built(src, item, t)
    ensures Reordered(s, t)
  {
    if item.parameters.Some? { SamePairs(s.parameters, t.parameters, item.parameters.value); }
    if item.tags.Some? { SamePairs(s.tags, t.tags, TagValues(item.tags.value)); }
  }

  lemma SamePairs<V(!new)>(a: seq<Entry<V>>, b: seq<Entry<V>>, m: map<string, V>)
    requires Enumerates(a, m) && Enumerates(b, m)
    ensures multiset(a) == multiset(b)
  {
    DistinctKeysAreConflictFree(a);
    DistinctKeysAreConflictFree(b);
    forall e ensures multiset(a)[e] == multiset(b)[e] {
      MultiplicityWithoutDuplicates(a, e);
      MultiplicityWithoutDuplicates(b, e);
    }
  }
}
