/** Between the operator's types and those of the AWS SDK, where every field may be absent. */
module Conversions {
  import opened Types
  import opened Matching
  import opened ChangeDetection
  import opened CloudFront

  datatype SdkCertificate = SdkCertificate(arn: Option<string>)

  datatype SdkCustomizations = SdkCustomizations(
    webAcl: Option<WebAcl>, certificate: Option<SdkCertificate>, geo: Option<GeoRestrictions>)

  datatype SdkParameter = SdkParameter(name: Option<string>, value: Option<string>)

  datatype SdkDomain = SdkDomain(domain: Option<string>, active: bool)

  datatype SdkRequest = SdkRequest(
    distributionId: Option<string>,
    domains: seq<Option<string>>,
    enabled: Option<bool>,
    connectionGroup: Option<string>,
    parameters: seq<SdkParameter>,
    customizations: Option<SdkCustomizations>)

  datatype SdkTenant = SdkTenant(
    distributionId: Option<string>,
    enabled: Option<bool>,
    inProgress: bool,
    connectionGroup: Option<string>,
    domains: seq<SdkDomain>,
    parameters: seq<SdkParameter>,
    customizations: Option<SdkCustomizations>)

  // Sending.

  function Sent(c: Customizations): SdkCustomizations
  {
    SdkCustomizations(
      c.webAcl,
      if c.certificate.Some? then Some(SdkCertificate(Some(c.certificate.value))) else None,
      c.geo)
  }

  function Request(input: TenantInput): SdkRequest
  {
    SdkRequest(
      Some(input.distributionId),
      seq(|input.domains|, i requires 0 <= i < |input.domains| => Some(input.domains[i])),
      input.enabled,
      input.connectionGroup,
      seq(|input.parameters|, i requires 0 <= i < |input.parameters| =>
            SdkParameter(Some(input.parameters[i].key), Some(input.parameters[i].value))),
      if input.customizations.Some? then Some(Sent(input.customizations.value)) else None)
  }

  method ToAwsCustomizations(c: Customizations) returns (out: SdkCustomizations)
    ensures out == Sent(c)
  {
    out := SdkCustomizations(None, None, None);
    if c.webAcl.Some? {
      var acl := WebAcl(c.webAcl.value.action, None);
      if c.webAcl.value.arn.Some? { acl := acl.(arn := c.webAcl.value.arn); }
      out := out.(webAcl := Some(acl));
    }
    if c.certificate.Some? { out := out.(certificate := Some(SdkCertificate(Some(c.certificate.value)))); }
    if c.geo.Some? { out := out.(geo := Some(GeoRestrictions(c.geo.value.restrictionType, c.geo.value.locations))); }
  }

  method ToRequest(input: TenantInput) returns (r: SdkRequest)
    ensures r == Request(input)
  {
    var domains: seq<Option<string>> := [];
    for i := 0 to |input.domains|
      invariant domains == seq(i, j requires 0 <= j < i => Some(input.domains[j]))
    {
      domains := domains + [Some(input.domains[i])];
    }
    r := SdkRequest(Some(input.distributionId), domains, input.enabled, None, [], None);
    if input.connectionGroup.Some? { r := r.(connectionGroup := input.connectionGroup); }
    var parameters: seq<SdkParameter> := [];
    for i := 0 to |input.parameters|
      invariant parameters == seq(i, j requires 0 <= j < i =>
                                    SdkParameter(Some(input.parameters[j].key), Some(input.parameters[j].value)))
    {
      parameters := parameters + [SdkParameter(Some(input.parameters[i].key), Some(input.parameters[i].value))];
    }
    r := r.(parameters := parameters);
    if input.customizations.Some? {
      var c := ToAwsCustomizations(input.customizations.value);
      r := r.(customizations := Some(c));
    }
  }

  // Reading back.

  function Received(c: SdkCustomizations): Customizations
  {
    Customizations(c.webAcl, if c.certificate.Some? then Some(c.certificate.value.arn.GetOr("")) else None, c.geo)
  }

  function Output(dt: SdkTenant, etag: nat): Tenant
  {
    Tenant(
      dt.distributionId.GetOr(""), etag, dt.inProgress, dt.enabled.GetOr(false), dt.connectionGroup.GetOr(""),
      seq(|dt.domains|, i requires 0 <= i < |dt.domains| => DomainResult(dt.domains[i].domain.GetOr(""), dt.domains[i].active)),
      seq(|dt.parameters|, i requires 0 <= i < |dt.parameters| =>
            Entry(dt.parameters[i].name.GetOr(""), dt.parameters[i].value.GetOr(""))),
      if dt.customizations.Some? then Some(Received(dt.customizations.value)) else None)
  }

  method FromAwsCustomizations(c: SdkCustomizations) returns (out: Customizations)
    ensures out == Received(c)
  {
    out := Customizations(None, None, None);
    if c.webAcl.Some? { out := out.(webAcl := Some(WebAcl(c.webAcl.value.action, c.webAcl.value.arn))); }
    if c.certificate.Some? { out := out.(certificate := Some(c.certificate.value.arn.GetOr(""))); }
    if c.geo.Some? { out := out.(geo := Some(GeoRestrictions(c.geo.value.restrictionType, c.geo.value.locations))); }
  }

  method ToTenantOutput(dt: SdkTenant, etag: nat) returns (out: Tenant)
    ensures out == Output(dt, etag)
  {
    var domains: seq<DomainResult> := [];
    for i := 0 to |dt.domains|
      invariant domains == seq(i, j requires 0 <= j < i => DomainResult(dt.domains[j].domain.GetOr(""), dt.domains[j].active))
    {
      domains := domains + [DomainResult(dt.domains[i].domain.GetOr(""), dt.domains[i].active)];
    }
    var parameters: seq<Parameter> := [];
    for i := 0 to |dt.parameters|
      invariant parameters == seq(i, j requires 0 <= j < i =>
                                    Entry(dt.parameters[j].name.GetOr(""), dt.parameters[j].value.GetOr("")))
    {
      parameters := parameters + [Entry(dt.parameters[i].name.GetOr(""), dt.parameters[i].value.GetOr(""))];
    }
    out := Tenant(dt.distributionId.GetOr(""), etag, dt.inProgress, dt.enabled.GetOr(false),
                  dt.connectionGroup.GetOr(""), domains, parameters, None);
    if dt.customizations.Some? {
      var c := FromAwsCustomizations(dt.customizations.value);
      out := out.(customizations := Some(c));
    }
  }

  // The round trip.

  /** AWS answers with what it was sent; `kept` is the enabled flag it had before. */
  function Answer(r: SdkRequest, kept: bool): SdkTenant
  {
    SdkTenant(
      r.distributionId, Some(r.enabled.GetOr(kept)), true, r.connectionGroup,
      seq(|r.domains|, i requires 0 <= i < |r.domains| => SdkDomain(r.domains[i], true)),
      r.parameters, r.customizations)
  }

  /** Nothing is lost or moved between the fields on the way to AWS and back: the operator reads the
      tenant its own input describes. */
  lemma ConversionsInvert(input: TenantInput, kept: bool, etag: nat)
    ensures Output(Answer(Request(input), kept), etag) == Stored(input, kept, etag)
  {
    var out, stored := Output(Answer(Request(input), kept), etag), Stored(input, kept, etag);
    assert out.domains == stored.domains;
    assert out.parameters == stored.parameters;
  }

  /** What is sent for a spec compares equal when it is read back exactly when no two parameters
      conflict and, if the spec leaves `enabled` open, AWS keeps the tenant enabled. */
  lemma SentSpecMatches(spec: Spec, kept: bool, etag: nat)
    ensures SpecMatches(spec, Output(Answer(Request(BuildInput(spec)), kept), etag))
            <==> ConflictFree(spec.parameters) && (spec.enabled.Some? || kept)
  {
    ConversionsInvert(BuildInput(spec), kept, etag);
    SendReadBack(spec, kept, etag);
  }
}
