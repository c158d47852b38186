/** The three-way diff: spec against AWS state, with the observed generation telling a spec
    edit from drift. */
module ChangeDetection {
  import opened Types
  import opened Matching
  import opened CloudFront

  datatype Change = NoChange | SpecChange | Drift

  predicate WebAclMatch(spec: Option<WebAcl>, aws: Option<WebAcl>)
  {
    if spec.None? || aws.None? then spec == aws
    else spec.value.action == aws.value.action && spec.value.arn.GetOr("") == aws.value.arn.GetOr("")
  }

  predicate GeoMatch(spec: Option<GeoRestrictions>, aws: Option<GeoRestrictions>)
  {
    if spec.None? || aws.None? then spec == aws
    else
      && spec.value.restrictionType == aws.value.restrictionType
      && SameLengthIncluded(spec.value.locations, aws.value.locations)
  }

  predicate CustomizationsMatch(spec: Option<Customizations>, aws: Option<Customizations>)
  {
    if spec.None? || aws.None? then spec == aws
    else
      && WebAclMatch(spec.value.webAcl, aws.value.webAcl)
      && spec.value.certificate == aws.value.certificate
      && GeoMatch(spec.value.geo, aws.value.geo)
  }

  /** The AWS tenant is what the spec asks for. */
  predicate SpecMatches(spec: Spec, t: Tenant)
  {
    && spec.enabled.GetOr(true) == t.enabled
    && spec.distributionId == t.distributionId
    && (spec.connectionGroup.Some? ==> spec.connectionGroup.value == t.connectionGroup)
    && SameLengthIncluded(spec.domains, Names(t.domains))
    && EntriesMatch(spec.parameters, t.parameters, "")
    && CustomizationsMatch(spec.customizations, t.customizations)
  }

  function Detect(generation: nat, observed: nat, spec: Spec, t: Tenant): Change
  {
    if SpecMatches(spec, t) then NoChange
    else if generation != observed then SpecChange
    else Drift
  }

  method GeoRestrictionsMatch(spec: Option<GeoRestrictions>, aws: Option<GeoRestrictions>) returns (r: bool)
    ensures r <==> GeoMatch(spec, aws)
  {
    if spec.None? != aws.None? { return false; }
    if spec.None? { return true; }
    if spec.value.restrictionType != aws.value.restrictionType { return false; }
    r := StringSliceEqual(spec.value.locations, aws.value.locations);
  }

  method SpecMatchesAws(spec: Spec, t: Tenant) returns (r: bool)
    ensures r <==> SpecMatches(spec, t)
  {
    var enabled := true;
    if spec.enabled.Some? { enabled := spec.enabled.value; }
    if enabled != t.enabled { return false; }
    if spec.distributionId != t.distributionId { return false; }
    if spec.connectionGroup.Some? && spec.connectionGroup.value != t.connectionGroup { return false; }
    var sameDomains := StringSliceEqual(spec.domains, Names(t.domains));
    if !sameDomains { return false; }
    if |spec.parameters| != |t.parameters| { return false; }
    if |spec.parameters| > 0 {
      var sameParameters := EntriesEqual(spec.parameters, t.parameters, "");
      if !sameParameters { return false; }
    }
    if spec.customizations.None? || t.customizations.None? { return spec.customizations == t.customizations; }
    var c, a := spec.customizations.value, t.customizations.value;
    if !WebAclMatch(c.webAcl, a.webAcl) || c.certificate != a.certificate { return false; }
    r := GeoRestrictionsMatch(c.geo, a.geo);
  }

  // Sending a spec and reading it back.

  function BuildInput(spec: Spec): TenantInput
  {
    TenantInput(spec.distributionId, spec.domains, spec.enabled, spec.connectionGroup, spec.parameters, spec.customizations)
  }

  /** The tenant stored from a spec compares equal to that spec exactly when no two parameters
      conflict and, if the spec leaves `enabled` open, AWS keeps it enabled. */
  lemma SendReadBack(spec: Spec, kept: bool, etag: nat)
    ensures SpecMatches(spec, Stored(BuildInput(spec), kept, etag))
            <==> ConflictFree(spec.parameters) && (spec.enabled.Some? || kept)
  {
    SelfMatch(spec.parameters, "");
    assert Names(Activated(spec.domains)) == spec.domains;
  }

  /** Matching depends on the configuration only, so a deployment moving along never looks like
      drift. */
  lemma MatchIgnoresProgress(spec: Spec, t: Tenant, u: Tenant)
    requires SameConfig(t, u)
    ensures SpecMatches(spec, t) <==> SpecMatches(spec, u)
  {
  }

  /** DNS settings are not part of what is compared. */
  lemma MatchIgnoresDns(spec: Spec, dns: Option<DnsConfig>, t: Tenant)
    ensures SpecMatches(spec, t) <==> SpecMatches(spec.(dns := dns), t)
  {
  }

  /** No list of the tenant repeats anything, and no parameter is empty. */
  ghost predicate Tidy(t: Tenant)
  {
    && NoDuplicates(Names(t.domains)) && DistinctKeys(t.parameters)
    && (forall p | p in t.parameters :: p.value != "")
    && (t.customizations.Some? && t.customizations.value.geo.Some? ==>
          NoDuplicates(t.customizations.value.geo.value.locations))
  }

  lemma WebAclMeans(c: Option<WebAcl>, d: Option<WebAcl>)
    ensures WebAclMatch(c, d) <==>
            && (d.Some? <==> c.Some?)
            && (d.Some? ==>
                  && d.value.action == c.value.action
                  && (d.value.arn == c.value.arn || (d.value.arn in {None, Some("")} && c.value.arn in {None, Some("")})))
  {
  }

  lemma GeoMeans(c: Option<GeoRestrictions>, d: Option<GeoRestrictions>)
    requires d.Some? ==> NoDuplicates(d.value.locations)
    ensures GeoMatch(c, d) <==>
            && (d.Some? <==> c.Some?)
            && (d.Some? ==>
                  && d.value.restrictionType == c.value.restrictionType
                  && multiset(d.value.locations) == multiset(c.value.locations))
  {
    if c.Some? && d.Some? { IncludedIsPermutation(c.value.locations, d.value.locations); }
  }

  /** What a match means, field by field: the lists up to order, a web ACL without ARN like one with an
      empty ARN, an open connection group like any. */
  lemma MatchMeans(spec: Spec, t: Tenant)
    requires Tidy(t)
    ensures SpecMatches(spec, t) <==>
            && (t.enabled <==> spec.enabled != Some(false))
            && t.distributionId == spec.distributionId
            && spec.connectionGroup in {None, Some(t.connectionGroup)}
            && multiset(Names(t.domains)) == multiset(spec.domains)
            && multiset(t.parameters) == multiset(spec.parameters)
            && (t.customizations.Some? <==> spec.customizations.Some?)
            && var c, d := spec.customizations.GetOr(NO_CUSTOMIZATIONS), t.customizations.GetOr(NO_CUSTOMIZATIONS);
            && d.certificate == c.certificate
            && (d.webAcl.Some? <==> c.webAcl.Some?)
            && (d.webAcl.Some? ==>
                  && d.webAcl.value.action == c.webAcl.value.action
                  && (d.webAcl.value.arn == c.webAcl.value.arn
                      || (d.webAcl.value.arn in {None, Some("")} && c.webAcl.value.arn in {None, Some("")})))
            && (d.geo.Some? <==> c.geo.Some?)
            && (d.geo.Some? ==>
                  && d.geo.value.restrictionType == c.geo.value.restrictionType
                  && multiset(d.geo.value.locations) == multiset(c.geo.value.locations))
  {
    hide WebAclMatch, GeoMatch, SameLengthIncluded, EntriesMatch;
    IncludedIsPermutation(spec.domains, Names(t.domains));
    EntriesMatchIsPermutation(spec.parameters, t.parameters, "");
    var c, d := spec.customizations.GetOr(NO_CUSTOMIZATIONS), t.customizations.GetOr(NO_CUSTOMIZATIONS);
    WebAclMeans(c.webAcl, d.webAcl);
    GeoMeans(c.geo, d.geo);
  }

  /** Two specs that AWS can be said to have at once agree in everything it is asked for. So an edit of
      any of these fields of a matching spec is seen. */
  lemma EditIsSeen(spec: Spec, edited: Spec, t: Tenant)
    requires Tidy(t) && SpecMatches(spec, t)
    ensures var c, d := spec.customizations.GetOr(NO_CUSTOMIZATIONS), edited.customizations.GetOr(NO_CUSTOMIZATIONS);
      || (spec.enabled == Some(false)) != (edited.enabled == Some(false))
      || spec.distributionId != edited.distributionId
      || (spec.connectionGroup != edited.connectionGroup && spec.connectionGroup.Some? && edited.connectionGroup.Some?)
      || multiset(spec.domains) != multiset(edited.domains)
      || multiset(spec.parameters) != multiset(edited.parameters)
      || spec.customizations.Some? != edited.customizations.Some?
      || c.certificate != d.certificate
      || c.webAcl.Some? != d.webAcl.Some?
      || (c.webAcl.Some? && c.webAcl.value.action != d.webAcl.value.action)
      || (c.webAcl.Some? && c.webAcl.value.arn.GetOr("") != d.webAcl.value.arn.GetOr(""))
      || c.geo.Some? != d.geo.Some?
      || (c.geo.Some? && c.geo.value.restrictionType != d.geo.value.restrictionType)
      || (c.geo.Some? && multiset(c.geo.value.locations) != multiset(d.geo.value.locations))
      ==> !SpecMatches(edited, t)
  {
    hide SpecMatches, Tidy;
    MatchMeans(spec, t);
    MatchMeans(edited, t);
  }

  /** An accepted spec is unchanged by the comparison's tolerance: for duplicate-free lists a match
      is equality up to the order of domains, parameters and locations. */
  lemma MatchIsPermutation(spec: Spec, t: Tenant)
    requires NoDuplicates(Names(t.domains)) && DistinctKeys(t.parameters)
    requires forall p | p in t.parameters :: p.value != ""
    requires SpecMatches(spec, t)
    ensures multiset(spec.domains) == multiset(Names(t.domains))
    ensures multiset(spec.parameters) == multiset(t.parameters)
    ensures spec.customizations.Some? && spec.customizations.value.geo.Some?
            && NoDuplicates(t.customizations.value.geo.value.locations)
            ==> multiset(spec.customizations.value.geo.value.locations)
                == multiset(t.customizations.value.geo.value.locations)
  {
    IncludedIsPermutation(spec.domains, Names(t.domains));
    EntriesMatchIsPermutation(spec.parameters, t.parameters, "");
    if spec.customizations.Some? && spec.customizations.value.geo.Some?
       && NoDuplicates(t.customizations.value.geo.value.locations) {
      IncludedIsPermutation(spec.customizations.value.geo.value.locations,
                            t.customizations.value.geo.value.locations);
    }
  }
}
