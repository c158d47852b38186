/** CloudFront as the operator sees it: tenants by id, each guarded by an ETag that changes on
    every configuration write. Ids and ETags are drawn from counters. */
module CloudFront {
  import opened Types

  datatype Tenant = Tenant(
    distributionId: string,
    etag: nat,
    inProgress: bool,
    enabled: bool,
    connectionGroup: string,
    domains: seq<DomainResult>,
    parameters: seq<Parameter>,
    customizations: Option<Customizations>)

  /** What a create or update call carries. */
  datatype TenantInput = TenantInput(
    distributionId: string,
    domains: seq<string>,
    enabled: Option<bool>,
    connectionGroup: Option<string>,
    parameters: seq<Parameter>,
    customizations: Option<Customizations>)

  datatype Cloud = Cloud(tenants: map<nat, Tenant>, nextId: nat, nextEtag: nat)

  ghost predicate Valid(c: Cloud)
  {
    forall id | id in c.tenants :: id < c.nextId && c.tenants[id].etag < c.nextEtag
  }

  function Activated(domains: seq<string>): seq<DomainResult>
  {
    seq(|domains|, i requires 0 <= i < |domains| => DomainResult(domains[i], true))
  }

  function Names(results: seq<DomainResult>): seq<string>
  {
    seq(|results|, i requires 0 <= i < |results| => results[i].domain)
  }

  /** The tenant a write leaves behind; `enabled` is the value kept when the input has none. */
  function Stored(input: TenantInput, enabled: bool, etag: nat): Tenant
  {
    Tenant(input.distributionId, etag, true, input.enabled.GetOr(enabled), input.connectionGroup.GetOr(""),
           Activated(input.domains), input.parameters, input.customizations)
  }

  function Get(c: Cloud, id: nat, fault: Option<AwsError>): Result<Tenant>
  {
    if fault.Some? then Err(fault.value)
    else if id !in c.tenants then Err(NotFound)
    else Ok(c.tenants[id])
  }

  function Create(c: Cloud, input: TenantInput, fault: Option<AwsError>): (r: (Cloud, Result<Tenant>))
    ensures Valid(c) ==> Valid(r.0)
    ensures c.nextId <= r.0.nextId && (r.1.Ok? ==> c.nextId < r.0.nextId)
  {
    if fault.Some? then (c, Err(fault.value))
    else
      var t := Stored(input, true, c.nextEtag);
      (Cloud(c.tenants[c.nextId := t], c.nextId + 1, c.nextEtag + 1), Ok(t))
  }

  function Update(c: Cloud, id: nat, ifMatch: nat, input: TenantInput, fault: Option<AwsError>): (r: (Cloud, Result<Tenant>))
    ensures Valid(c) ==> Valid(r.0)
    ensures r.0.nextId == c.nextId
  {
    if fault.Some? then (c, Err(fault.value))
    else if id !in c.tenants then (c, Err(NotFound))
    else if c.tenants[id].etag != ifMatch then (c, Err(PreconditionFailed))
    else
      var t := Stored(input, c.tenants[id].enabled, c.nextEtag);
      (c.(tenants := c.tenants[id := t], nextEtag := c.nextEtag + 1), Ok(t))
  }

  function Delete(c: Cloud, id: nat, ifMatch: nat, fault: Option<AwsError>): (r: (Cloud, Option<AwsError>))
    ensures Valid(c) ==> Valid(r.0)
    ensures r.0.nextId == c.nextId
  {
    if fault.Some? then (c, fault)
    else if id !in c.tenants then (c, Some(NotFound))
    else if c.tenants[id].etag != ifMatch then (c, Some(PreconditionFailed))
    else if c.tenants[id].enabled then (c, Some(NotDisabled))
    else (c.(tenants := c.tenants - {id}), None)
  }

  /** The in-memory client: the same four calls, changing the tenant map in place. */
  class Client {
    var tenants: map<nat, Tenant>
    var nextId: nat
    var nextEtag: nat

    function State(): Cloud
      reads this
    {
      Cloud(tenants, nextId, nextEtag)
    }

    constructor (c: Cloud)
      ensures State() == c
    {
      tenants, nextId, nextEtag := c.tenants, c.nextId, c.nextEtag;
    }

    method CreateTenant(input: TenantInput, fault: Option<AwsError>) returns (r: Result<Tenant>, id: nat)
      modifies this
      ensures (State(), r) == Create(old(State()), input, fault)
      ensures id == old(nextId)
    {
      id := nextId;
      if fault.Some? { return Err(fault.value), id; }
      nextId := nextId + 1;
      var enabled := true;
      if input.enabled.Some? { enabled := input.enabled.value; }
      var domains := ActivateAll(input.domains);
      var t := Tenant(input.distributionId, nextEtag, true, enabled, input.connectionGroup.GetOr(""),
                      domains, input.parameters, input.customizations);
      nextEtag := nextEtag + 1;
      tenants := tenants[id := t];
      r := Ok(t);
    }

    method GetTenant(id: nat, fault: Option<AwsError>) returns (r: Result<Tenant>)
      ensures r == Get(State(), id, fault)
    {
      if fault.Some? { return Err(fault.value); }
      if id !in tenants { return Err(NotFound); }
      r := Ok(tenants[id]);
    }

    method UpdateTenant(id: nat, ifMatch: nat, input: TenantInput, fault: Option<AwsError>) returns (r: Result<Tenant>)
      modifies this
      ensures (State(), r) == Update(old(State()), id, ifMatch, input, fault)
    {
      if fault.Some? { return Err(fault.value); }
      if id !in tenants { return Err(NotFound); }
      var t := tenants[id];
      if t.etag != ifMatch { return Err(PreconditionFailed); }
      var domains := ActivateAll(input.domains);
      if input.enabled.Some? { t := t.(enabled := input.enabled.value); }
      t := t.(etag := nextEtag, inProgress := true, distributionId := input.distributionId, domains := domains,
              parameters := input.parameters, customizations := input.customizations,
              connectionGroup := input.connectionGroup.GetOr(""));
      nextEtag := nextEtag + 1;
      tenants := tenants[id := t];
      r := Ok(t);
    }

    method DeleteTenant(id: nat, ifMatch: nat, fault: Option<AwsError>) returns (err: Option<AwsError>)
      modifies this
      ensures (State(), err) == Delete(old(State()), id, ifMatch, fault)
    {
      if fault.Some? { return fault; }
      if id !in tenants { return Some(NotFound); }
      if tenants[id].etag != ifMatch { return Some(PreconditionFailed); }
      if tenants[id].enabled { return Some(NotDisabled); }
      tenants := tenants - {id};
      err := None;
    }

    /** What other AWS users do between two calls. */
    method Interference(events: seq<Event>)
      modifies this
      ensures State() == Disturb(old(State()), events)
    {
      var c := State();
      for i := 0 to |events|
        invariant c == Disturb(old(State()), events[..i])
      {
        c := Apply(c, events[i]);
        assert events[..i + 1][..i] == events[..i];
      }
      assert events[..|events|] == events;
      tenants, nextId, nextEtag := c.tenants, c.nextId, c.nextEtag;
    }
  }

  method ActivateAll(domains: seq<string>) returns (results: seq<DomainResult>)
    ensures results == Activated(domains)
  {
    results := [];
    for i := 0 to |domains|
      invariant results == Activated(domains[..i])
    {
      results := results + [DomainResult(domains[i], true)];
    }
    assert domains[..|domains|] == domains;
  }

  // The world outside the operator.

  /** Something other than this operator changing CloudFront. `Settle` is AWS itself moving a
      deployment or a domain along, which leaves the configuration and the ETag alone. */
  datatype Event =
    | Overwrite(id: nat, tenant: Tenant)
    | Remove(id: nat)
    | Introduce(tenant: Tenant)
    | Settle(id: nat, inProgress: bool, active: seq<bool>)

  function Settled(t: Tenant, inProgress: bool, active: seq<bool>): Tenant
  {
    t.(inProgress := inProgress,
       domains := seq(|t.domains|, i requires 0 <= i < |t.domains| =>
                        DomainResult(t.domains[i].domain, i < |active| && active[i])))
  }

  function Apply(c: Cloud, e: Event): Cloud
  {
    match e
    case Overwrite(id, t) =>
      if id !in c.tenants then c
      else c.(tenants := c.tenants[id := t.(etag := c.nextEtag)], nextEtag := c.nextEtag + 1)
    case Remove(id) => c.(tenants := c.tenants - {id})
    case Introduce(t) =>
      Cloud(c.tenants[c.nextId := t.(etag := c.nextEtag)], c.nextId + 1, c.nextEtag + 1)
    case Settle(id, inProgress, active) =>
      if id !in c.tenants then c
      else c.(tenants := c.tenants[id := Settled(c.tenants[id], inProgress, active)])
  }

  function Disturb(c: Cloud, events: seq<Event>): (d: Cloud)
    ensures Valid(c) ==> Valid(d)
    ensures c.nextId <= d.nextId
  {
    if events == [] then c
    else Apply(Disturb(c, events[..|events| - 1]), events[|events| - 1])
  }

  /** Everything an ETag guards. */
  predicate SameConfig(t: Tenant, u: Tenant)
  {
    && t.etag == u.etag && t.distributionId == u.distributionId && t.enabled == u.enabled
    && t.connectionGroup == u.connectionGroup && Names(t.domains) == Names(u.domains)
    && t.parameters == u.parameters && t.customizations == u.customizations
  }

  /** Whatever others do, a tenant that still carries the ETag read earlier still has the
      configuration read earlier, and an id that was unused stays unused or is new. */
  lemma {:induction false} EtagGuardsConfig(c: Cloud, events: seq<Event>)
    requires Valid(c)
    ensures var d := Disturb(c, events);
      && Valid(d) && c.nextId <= d.nextId && c.nextEtag <= d.nextEtag
      && forall id | id in d.tenants ::
           || (c.nextId <= id && c.nextEtag <= d.tenants[id].etag)
           || (id in c.tenants && (SameConfig(c.tenants[id], d.tenants[id]) || c.nextEtag <= d.tenants[id].etag))
  {
    if events != [] {
      EtagGuardsConfig(c, events[..|events| - 1]);
      match events[|events| - 1]
      case Settle(id, _, _) => {
        var m := Disturb(c, events[..|events| - 1]);
        if id in m.tenants {
          assert Names(Disturb(c, events).tenants[id].domains) == Names(m.tenants[id].domains);
        }
      }
      case _ =>
    }
  }
}
