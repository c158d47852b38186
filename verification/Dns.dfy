/** Route53: CNAME records keyed by zone and name, and the log of change batches. Every batch the
    operator sends carries one target and one TTL. */
module Dns {
  import opened Types

  datatype Key = Key(zone: string, name: string)

  datatype Record = Record(target: string, ttl: int)

  datatype Batch = Batch(zone: string, names: seq<string>, record: Record)

  /** `changes[i]` is the upsert batch answered with change id `i`. */
  datatype Zones = Zones(records: map<Key, Record>, changes: seq<Batch>)

  function Keys(b: Batch): set<Key>
  {
    set n | n in b.names :: Key(b.zone, n)
  }

  function Upsert(z: Zones, b: Batch): Zones
  {
    Zones(z.records + map k | k in Keys(b) :: b.record, z.changes + [b])
  }

  /** Every name of the batch holds the record of the batch. */
  predicate Holds(z: Zones, b: Batch)
  {
    forall k | k in Keys(b) :: k in z.records && z.records[k] == b.record
  }

  /** Every name of the batch exists, but some with another target or TTL. */
  predicate Stale(z: Zones, b: Batch)
  {
    !Holds(z, b) && forall k | k in Keys(b) :: k in z.records
  }

  predicate SameRecords(a: Batch, b: Batch)
  {
    Keys(a) == Keys(b) && a.record == b.record
  }

  /** The same record, or unless `exact` at least the same target. */
  predicate Alike(r: Record, s: Record, exact: bool)
  {
    r.target == s.target && (exact ==> r == s)
  }

  /** Every name of the batch points where the batch says. */
  predicate Serves(z: Zones, b: Batch, exact: bool)
  {
    forall k | k in Keys(b) :: k in z.records && Alike(z.records[k], b.record, exact)
  }

  /** Publishing `a` publishes all that `b` asks for. */
  predicate Covers(a: Batch, b: Batch, exact: bool)
  {
    Keys(b) <= Keys(a) && Alike(a.record, b.record, exact)
  }

  /** Whoever wrote `records` left alone what the names of the batch held. */
  predicate LeavesInPlace(z: Zones, records: map<Key, Record>, b: Batch, exact: bool)
  {
    forall k | k in Keys(b) && k in z.records :: k in records && Alike(records[k], z.records[k], exact)
  }

  lemma UpsertHolds(z: Zones, b: Batch)
    ensures Holds(Upsert(z, b), b) && Upsert(z, b).changes == z.changes + [b]
  {
  }

  lemma HeldAlike(z: Zones, a: Batch, b: Batch)
    requires SameRecords(a, b)
    ensures Holds(z, a) <==> Holds(z, b)
  {
  }

  lemma LeftInPlace(z: Zones, records: map<Key, Record>, b: Batch, exact: bool)
    requires LeavesInPlace(z, records, b, exact)
    ensures Serves(z, b, exact) ==> Serves(z.(records := records), b, exact)
    ensures exact && Holds(z, b) ==> Holds(z.(records := records), b)
  {
  }

  lemma ServesCovered(z: Zones, a: Batch, b: Batch, exact: bool)
    requires Covers(a, b, exact) && Serves(z, a, exact)
    ensures Serves(z, b, exact)
  {
  }

  lemma ServesExactly(z: Zones, b: Batch, exact: bool)
    ensures Holds(z, b) ==> Serves(z, b, exact)
    ensures Serves(z, b, true) ==> Holds(z, b)
  {
  }

  /** A delete batch is atomic and must name exact records. A missing record is answered with
      "not found", which the client reports as success without anything being removed; other
      mismatches are an invalid-input error. */
  function Delete(z: Zones, b: Batch): (Zones, Option<AwsError>)
  {
    if Holds(z, b) then (z.(records := z.records - Keys(b)), None)
    else if Stale(z, b) then (z, Some(Terminal(DnsFailure)))
    else (z, None)
  }

  function Written(records: map<Key, Record>, keys: set<Key>, record: Record): map<Key, Record>
  {
    records + map k | k in keys :: record
  }

  lemma WrittenOneMore(records: map<Key, Record>, keys: set<Key>, key: Key, record: Record)
    ensures Written(records, keys, record)[key := record] == Written(records, keys + {key}, record)
  {
  }

  lemma OneMoreKey(b: Batch, i: nat)
    requires i < |b.names|
    ensures Keys(b.(names := b.names[..i + 1])) == Keys(b.(names := b.names[..i])) + {Key(b.zone, b.names[i])}
  {
  }

  /** The DNS client: records changed in place, batch by batch. */
  class Client {
    var records: map<Key, Record>
    var changes: seq<Batch>

    function State(): Zones
      reads this
    {
      Zones(records, changes)
    }

    constructor (z: Zones)
      ensures State() == z
    {
      records, changes := z.records, z.changes;
    }

    method UpsertRecords(b: Batch) returns (change: nat)
      modifies this
      ensures State() == Upsert(old(State()), b)
      ensures change == |old(changes)|
    {
      change := |changes|;
      changes := changes + [b];
      for i := 0 to |b.names|
        invariant changes == old(changes) + [b]
        invariant records == Written(old(records), Keys(b.(names := b.names[..i])), b.record)
      {
        WrittenOneMore(old(records), Keys(b.(names := b.names[..i])), Key(b.zone, b.names[i]), b.record);
        OneMoreKey(b, i);
        records := records[Key(b.zone, b.names[i]) := b.record];
      }
      assert b.names[..|b.names|] == b.names;
    }

    method DeleteRecords(b: Batch) returns (err: Option<AwsError>)
      modifies this
      ensures (State(), err) == Delete(old(State()), b)
    {
      var missing, differs := false, false;
      for i := 0 to |b.names|
        invariant missing <==> exists n :: n in b.names[..i] && Key(b.zone, n) !in records
        invariant differs <==> exists n :: n in b.names[..i] && Key(b.zone, n) in records && records[Key(b.zone, n)] != b.record
      {
        var k := Key(b.zone, b.names[i]);
        if k !in records {
          missing := true;
        } else if records[k] != b.record {
          differs := true;
        }
        assert forall n :: n in b.names[..i + 1] <==> n in b.names[..i] || n == b.names[i];
      }
      assert b.names[..|b.names|] == b.names;
      if missing { return None; }
      if differs { return Some(Terminal(DnsFailure)); }
      records := records - Keys(b);
      err := None;
    }
  }
}
