/** Desired specs: a source item laid over the template, compared with and applied to what a
    resource already has. */
module TenantSpecs {
  import opened Types
  import opened Matching

  datatype Template = Template(
    enabled: Option<bool>,
    connectionGroup: Option<string>,
    parameters: seq<Parameter>,
    customizations: Option<Customizations>,
    managedCert: Option<ManagedCertRequest>,
    tags: seq<Tag>,
    dns: Option<DnsConfig>)

  datatype Source = Source(name: string, uid: nat, distributionId: string, template: Option<Template>)

  datatype Item = Item(
    name: string,
    domains: seq<string>,
    enabled: Option<bool>,
    connectionGroup: Option<string>,
    certArn: Option<string>,
    validationTokenHost: Option<string>,
    primaryDomain: Option<string>,
    ctLogging: Option<string>,
    dnsProvider: Option<string>,
    hostedZone: Option<string>,
    dnsTtl: Option<int>,
    dnsAssumeRole: Option<string>,
    webAclAction: Option<string>,
    webAclArn: Option<string>,
    geoType: Option<string>,
    geoLocations: Option<seq<string>>,
    parameters: Option<map<string, string>>,
    tags: Option<map<string, string>>)

  function FirstSome<T>(a: Option<T>, b: Option<T>): Option<T>
  {
    if a.Some? then a else b
  }

  const BARE := Template(None, None, [], None, None, [], None)

  function TemplateOf(src: Source): Template
  {
    src.template.GetOr(BARE)
  }

  // The overlay.

  function OverlayManagedCert(t: Template, item: Item): Option<ManagedCertRequest>
  {
    if item.certArn.Some? || t.managedCert.None? then None
    else
      var primary := item.primaryDomain.GetOr(t.managedCert.value.primaryDomain);
      Some(ManagedCertRequest(
             item.validationTokenHost.GetOr(t.managedCert.value.validationTokenHost),
             if primary == "" && item.domains != [] then item.domains[0] else primary,
             FirstSome(item.ctLogging, t.managedCert.value.ctLogging)))
  }

  function OverlayDns(t: Template, item: Item): Option<DnsConfig>
  {
    if t.dns.None? && item.dnsProvider.None? && item.hostedZone.None? && item.dnsTtl.None? && item.dnsAssumeRole.None?
    then None
    else
      var base := t.dns.GetOr(DnsConfig("", None, None, None));
      Some(DnsConfig(item.dnsProvider.GetOr(base.provider), FirstSome(item.hostedZone, base.hostedZone),
                     FirstSome(item.dnsTtl, base.ttl), FirstSome(item.dnsAssumeRole, base.assumeRole)))
  }

  function OverlayWebAcl(base: Option<WebAcl>, item: Item): Option<WebAcl>
  {
    if base.None? && item.webAclAction.None? && item.webAclArn.None? then None
    else
      var b := base.GetOr(WebAcl("", None));
      Some(WebAcl(item.webAclAction.GetOr(b.action), FirstSome(item.webAclArn, b.arn)))
  }

  function OverlayGeo(base: Option<GeoRestrictions>, item: Item): Option<GeoRestrictions>
  {
    if base.None? && item.geoType.None? && item.geoLocations.None? then None
    else
      var b := base.GetOr(GeoRestrictions("", []));
      Some(GeoRestrictions(item.geoType.GetOr(b.restrictionType), item.geoLocations.GetOr(b.locations)))
  }

  /** The template contributes its web ACL and geo restrictions, never its certificate. */
  function OverlayCustomizations(t: Template, item: Item): Option<Customizations>
  {
    var base := t.customizations.GetOr(NO_CUSTOMIZATIONS);
    var c := Customizations(OverlayWebAcl(base.webAcl, item), item.certArn, OverlayGeo(base.geo, item));
    if c == NO_CUSTOMIZATIONS then None else Some(c)
  }

  /** Everything but the parameters and tags an item brings as maps. */
  function Overlay(src: Source, item: Item): Spec
  {
    var t := TemplateOf(src);
    Spec(src.distributionId, item.domains,
         Some(FirstSome(item.enabled, t.enabled).GetOr(true)),
         FirstSome(item.connectionGroup, t.connectionGroup),
         t.parameters, OverlayCustomizations(t, item), OverlayManagedCert(t, item), t.tags, OverlayDns(t, item))
  }

  /** `es` lists the pairs of `m` in some order. */
  ghost predicate Enumerates<V(!new)>(es: seq<Entry<V>>, m: map<string, V>)
  {
    DistinctKeys(es) && forall e :: e in es <==> e.key in m && m[e.key] == e.value
  }

  function TagValues(m: map<string, string>): map<string, Option<string>>
  {
    map k | k in m :: Some(m[k])
  }

  /** `spec` is built from the item, its parameter and tag maps listed in any order. */
  ghost predicate Built(src: Source, item: Item, spec: Spec)
  {
    && spec == Overlay(src, item).(parameters := spec.parameters, tags := spec.tags)
    && (if item.parameters.Some? then Enumerates(spec.parameters, item.parameters.value)
        else spec.parameters == TemplateOf(src).parameters)
    && (if item.tags.Some? then Enumerates(spec.tags, TagValues(item.tags.value))
        else spec.tags == TemplateOf(src).tags)
  }

  method ListEntries<V(!new)>(m: map<string, V>) returns (es: seq<Entry<V>>)
    ensures Enumerates(es, m)
  {
    es := [];
    var todo := m.Keys;
    while todo != {}
      invariant todo <= m.Keys && DistinctKeys(es)
      invariant forall e :: e in es <==> e.key in m.Keys - todo && m[e.key] == e.value
      decreases todo
    {
      var k :| k in todo;
      es := es + [Entry(k, m[k])];
      todo := todo - {k};
    }
  }

  /** The spec is put together field by field, maps in whatever order they are walked. */
  method BuildTenantSpec(src: Source, item: Item) returns (spec: Spec)
    ensures Built(src, item, spec)
  {
    var t := TemplateOf(src);
    spec := Spec(src.distributionId, item.domains, Some(true), None, [], None, None, [], None);
    if item.enabled.Some? { spec := spec.(enabled := item.enabled); }
    else if t.enabled.Some? { spec := spec.(enabled := t.enabled); }
    spec := spec.(connectionGroup := FirstSome(item.connectionGroup, t.connectionGroup));
    spec := BuildCertificate(spec, t, item);
    spec := spec.(dns := OverlayDns(t, item));
    spec := BuildCustomizations(spec, t, item);
    if item.parameters.Some? {
      var es := ListEntries(item.parameters.value);
      spec := spec.(parameters := es);
    } else {
      spec := spec.(parameters := t.parameters);
    }
    if item.tags.Some? {
      var es := ListEntries(TagValues(item.tags.value));
      spec := spec.(tags := es);
    } else {
      spec := spec.(tags := t.tags);
    }
  }

  method BuildCertificate(spec: Spec, t: Template, item: Item) returns (r: Spec)
    requires spec.customizations.None? && spec.managedCert.None?
    ensures r == spec.(managedCert := OverlayManagedCert(t, item),
                       customizations := if item.certArn.Some? then Some(Customizations(None, item.certArn, None)) else None)
  {
    r := spec;
    if item.certArn.Some? {
      r := r.(customizations := Some(Customizations(None, item.certArn, None)));
      return;
    }
    if t.managedCert.None? { return; }
    var m := t.managedCert.value;
    if item.validationTokenHost.Some? { m := m.(validationTokenHost := item.validationTokenHost.value); }
    if item.primaryDomain.Some? { m := m.(primaryDomain := item.primaryDomain.value); }
    if item.ctLogging.Some? { m := m.(ctLogging := item.ctLogging); }
    if m.primaryDomain == "" && |item.domains| > 0 { m := m.(primaryDomain := item.domains[0]); }
    r := r.(managedCert := Some(m));
  }

  method BuildCustomizations(spec: Spec, t: Template, item: Item) returns (r: Spec)
    requires spec.customizations == if item.certArn.Some? then Some(Customizations(None, item.certArn, None)) else None
    ensures r == spec.(customizations := OverlayCustomizations(t, item))
  {
    var webAcl: Option<WebAcl>, geo: Option<GeoRestrictions> := None, None;
    if t.customizations.Some? { webAcl, geo := t.customizations.value.webAcl, t.customizations.value.geo; }
    if item.webAclAction.Some? { webAcl := Some(webAcl.GetOr(WebAcl("", None)).(action := item.webAclAction.value)); }
    if item.webAclArn.Some? { webAcl := Some(webAcl.GetOr(WebAcl("", None)).(arn := item.webAclArn)); }
    if item.geoType.Some? || item.geoLocations.Some? {
      var g := geo.GetOr(GeoRestrictions("", []));
      if item.geoType.Some? { g := g.(restrictionType := item.geoType.value); }
      if item.geoLocations.Some? { g := g.(locations := item.geoLocations.value); }
      geo := Some(g);
    }
    r := spec;
    if webAcl.Some? || geo.Some? {
      var c := r.customizations.GetOr(NO_CUSTOMIZATIONS);
      r := r.(customizations := Some(c.(webAcl := webAcl, geo := geo)));
    }
  }

  // Comparison.

  function WebAclOf(spec: Spec): Option<WebAcl>
  {
    if spec.customizations.Some? then spec.customizations.value.webAcl else None
  }

  function GeoOf(spec: Spec): Option<GeoRestrictions>
  {
    if spec.customizations.Some? then spec.customizations.value.geo else None
  }

  predicate GeoEqual(a: Option<GeoRestrictions>, b: Option<GeoRestrictions>)
  {
    if a.None? || b.None? then a == b
    else a.value.restrictionType == b.value.restrictionType && SameLengthIncluded(a.value.locations, b.value.locations)
  }

  /** A certificate the other controller attached to a managed request does not count. */
  predicate CertEqual(a: Spec, b: Spec)
  {
    (b.managedCert.Some? && CertArn(b) == "" && a.managedCert.Some?) || CertArn(a) == CertArn(b)
  }

  /** Everything that is compared besides parameters and tags. */
  predicate FieldsEqual(a: Spec, b: Spec)
  {
    && a.distributionId == b.distributionId && SameLengthIncluded(a.domains, b.domains)
    && a.enabled == b.enabled && a.connectionGroup == b.connectionGroup && CertEqual(a, b)
    && a.managedCert == b.managedCert && a.dns == b.dns
    && WebAclOf(a) == WebAclOf(b) && GeoEqual(GeoOf(a), GeoOf(b))
  }

  predicate SpecEqual(a: Spec, b: Spec)
  {
    FieldsEqual(a, b) && EntriesMatch(a.parameters, b.parameters, "") && EntriesMatch(a.tags, b.tags, None)
  }

  method TenantSpecEqual(a: Spec, b: Spec) returns (r: bool)
    ensures r <==> SpecEqual(a, b)
  {
    if a.distributionId != b.distributionId { return false; }
    var same := StringSliceEqual(a.domains, b.domains);
    if !same { return false; }
    if a.enabled != b.enabled || a.connectionGroup != b.connectionGroup { return false; }
    if !CertEqual(a, b) || a.managedCert != b.managedCert || a.dns != b.dns { return false; }
    if WebAclOf(a) != WebAclOf(b) { return false; }
    var ga, gb := GeoOf(a), GeoOf(b);
    if ga.None? != gb.None? { return false; }
    if ga.Some? {
      if ga.value.restrictionType != gb.value.restrictionType { return false; }
      same := StringSliceEqual(ga.value.locations, gb.value.locations);
      if !same { return false; }
    }
    same := EntriesEqual(a.parameters, b.parameters, "");
    if !same { return false; }
    r := EntriesEqual(a.tags, b.tags, None);
  }

  // Applying.

  /** The desired spec, except that a certificate attached for a managed request stays. */
  function Apply(current: Spec, desired: Spec): Spec
  {
    if desired.managedCert.Some? && (desired.customizations.None? || desired.customizations.value.certificate.None?)
       && current.customizations.Some? && current.customizations.value.certificate.Some?
    then AttachCert(desired, current.customizations.value.certificate.value)
    else desired
  }

  method ApplyManagedFields(current: Spec, desired: Spec) returns (r: Spec)
    ensures r == Apply(current, desired)
  {
    var attached: Option<string> := None;
    if desired.managedCert.Some? && (desired.customizations.None? || desired.customizations.value.certificate.None?) {
      if current.customizations.Some? { attached := current.customizations.value.certificate; }
    }
    r := desired;
    if attached.Some? {
      if r.customizations.None? { r := r.(customizations := Some(NO_CUSTOMIZATIONS)); }
      r := r.(customizations := Some(r.customizations.value.(certificate := attached)));
    }
  }

  // What map order and domain order can change.

  /** No built spec asks for both an explicit and a managed certificate. */
  lemma CertificateOrRequest(src: Source, item: Item, spec: Spec)
    requires Built(src, item, spec)
    ensures spec.managedCert.Some? && spec.customizations.Some? ==> spec.customizations.value.certificate.None?
    ensures spec.managedCert.Some? ==> CertArn(spec) == ""
  {
  }

  lemma EnumerationsMatch<V(!new)>(a: seq<Entry<V>>, b: seq<Entry<V>>, m: map<string, V>, zero: V)
    requires Enumerates(a, m) && Enumerates(b, m)
    ensures EntriesMatch(a, b, zero) && ConflictFree(a)
  {
    DistinctKeysAreConflictFree(a);
    DistinctKeysAreConflictFree(b);
    ElementsBound(a);
    ElementsBound(b);
    assert Elements(a) == Elements(b);
    forall e | e in b ensures Lookup(a, e.key, zero) == e.value { LookupConflictFree(a, e, zero); }
  }

  /** Template lists without conflicting duplicates; items cannot have any. */
  ghost predicate ConflictFreeLists(src: Source, item: Item)
  {
    && (item.parameters.None? ==> ConflictFree(TemplateOf(src).parameters))
    && (item.tags.None? ==> ConflictFree(TemplateOf(src).tags))
  }

  /** Two builds of one item list the same parameters and tags up to order, and compare equal in
      them exactly when the lists hold no conflicts. */
  lemma BuiltListsMatch(src: Source, item: Item, a: Spec, b: Spec)
    requires Built(src, item, a) && Built(src, item, b)
    ensures EntriesMatch(a.parameters, b.parameters, "") && EntriesMatch(a.tags, b.tags, None)
            <==> ConflictFreeLists(src, item)
  {
    if item.parameters.Some? { EnumerationsMatch(a.parameters, b.parameters, item.parameters.value, ""); }
    else { SelfMatch(a.parameters, ""); }
    if item.tags.Some? { EnumerationsMatch(a.tags, b.tags, TagValues(item.tags.value), None); }
    else { SelfMatch(a.tags, None); }
  }

  /** Comparing against one build of an item is comparing against any. */
  lemma ComparisonIgnoresMapOrder(src: Source, item: Item, current: Spec, a: Spec, b: Spec)
    requires Built(src, item, a) && Built(src, item, b)
    ensures SpecEqual(current, a) <==> SpecEqual(current, b)
  {
    if item.parameters.Some? { SameElements(current.parameters, a.parameters, b.parameters, item.parameters.value, ""); }
    if item.tags.Some? { SameElements(current.tags, a.tags, b.tags, TagValues(item.tags.value), None); }
  }

  lemma SameElements<V(!new)>(current: seq<Entry<V>>, a: seq<Entry<V>>, b: seq<Entry<V>>, m: map<string, V>, zero: V)
    requires Enumerates(a, m) && Enumerates(b, m)
    ensures EntriesMatch(current, a, zero) <==> EntriesMatch(current, b, zero)
  {
    EnumerationsMatch(a, b, m, zero);
    assert forall e :: e in a <==> e in b;
  }

  /** The managed request takes its primary domain from the domain list. */
  predicate PrimaryDefaulted(src: Source, item: Item)
  {
    var t := TemplateOf(src);
    item.certArn.None? && t.managedCert.Some? && item.primaryDomain.GetOr(t.managedCert.value.primaryDomain) == ""
  }

  /** Reordering the domains of an item changes its spec exactly when the primary domain is
      defaulted and another domain comes first. */
  lemma DomainOrder(src: Source, item: Item, domains: seq<string>, a: Spec, b: Spec)
    requires NoDuplicates(item.domains) && multiset(domains) == multiset(item.domains)
    requires ConflictFreeLists(src, item)
    requires Built(src, item, a) && Built(src, item.(domains := domains), b)
    ensures SpecEqual(a, b)
            <==> !(PrimaryDefaulted(src, item) && domains != [] && domains[0] != item.domains[0])
  {
    assert |multiset(domains)| == |domains| && |multiset(item.domains)| == |item.domains|;
    forall d | d in domains ensures d in item.domains { assert d in multiset(domains); }
    assert Built(src, item, b.(domains := item.domains, managedCert := a.managedCert));
    BuiltListsMatch(src, item, a, b.(domains := item.domains, managedCert := a.managedCert));
  }

  // Applying, then comparing.

  predicate TtlSet(src: Source, item: Item)
  {
    var dns := OverlayDns(TemplateOf(src), item);
    dns.Some? ==> dns.value.ttl.Some?
  }

  /** After an applied update has gone through the API server, the next comparison finds nothing to
      do exactly when the built TTL is set and the template lists hold no conflicts. */
  lemma AppliedIsEqual(src: Source, item: Item, current: Spec, desired: Spec, next: Spec)
    requires Built(src, item, desired) && Built(src, item, next)
    ensures SpecEqual(Admit(Apply(current, desired)), next) <==> TtlSet(src, item) && ConflictFreeLists(src, item)
  {
    CertificateOrRequest(src, item, desired);
    BuiltListsMatch(src, item, desired, next);
    var applied := Admit(Apply(current, desired));
    assert applied.parameters == desired.parameters && applied.tags == desired.tags;
    assert WebAclOf(applied) == WebAclOf(next) && GeoOf(applied) == GeoOf(next);
  }

  /** No list of the built spec repeats anything, and no value in it is empty. */
  ghost predicate Tidy(b: Spec)
  {
    && NoDuplicates(b.domains) && DistinctKeys(b.parameters) && DistinctKeys(b.tags)
    && (forall p | p in b.parameters :: p.value != "") && (forall g | g in b.tags :: g.value.Some?)
    && (b.customizations.Some? && b.customizations.value.geo.Some? ==> NoDuplicates(b.customizations.value.geo.value.locations))
  }

  /** The same spec: lists up to order, an empty certificate like none. */
  ghost predicate SameSpec(a: Spec, b: Spec)
  {
    && a.distributionId == b.distributionId && a.enabled == b.enabled && a.connectionGroup == b.connectionGroup
    && a.managedCert == b.managedCert && a.dns == b.dns
    && multiset(a.domains) == multiset(b.domains)
    && multiset(a.parameters) == multiset(b.parameters) && multiset(a.tags) == multiset(b.tags)
    && var c, d := a.customizations.GetOr(NO_CUSTOMIZATIONS), b.customizations.GetOr(NO_CUSTOMIZATIONS);
    && c.certificate.GetOr("") == d.certificate.GetOr("") && c.webAcl == d.webAcl
    && (c.geo.Some? <==> d.geo.Some?)
    && (c.geo.Some? ==>
          && c.geo.value.restrictionType == d.geo.value.restrictionType
          && multiset(c.geo.value.locations) == multiset(d.geo.value.locations))
  }

  /** A sync that skips the write had nothing to write, and only then: the comparison succeeds exactly
      when writing would leave the spec the same. */
  lemma SkipsNothing(src: Source, item: Item, spec: Spec, b: Spec)
    requires Built(src, item, b) && Admit(spec) == spec && Tidy(b) && TtlSet(src, item)
    ensures SpecEqual(spec, b) <==> SameSpec(Admit(Apply(spec, b)), spec)
  {
    hide SpecEqual, SameSpec, Tidy, Built, Apply, Admit;
    CertificateOrRequest(src, item, b);
    BuiltIsAdmitted(src, item, b);
    AppliedIsSame(spec, b);
    EqualIsSame(spec, b);
  }

  lemma BuiltIsAdmitted(src: Source, item: Item, b: Spec)
    requires Built(src, item, b) && TtlSet(src, item)
    ensures Admit(b) == b
  {
  }

  /** What is written is what was built, up to a certificate that stays. */
  lemma AppliedIsSame(spec: Spec, b: Spec)
    requires Admit(b) == b && (b.managedCert.Some? && b.customizations.Some? ==> b.customizations.value.certificate.None?)
    ensures SameSpec(Admit(Apply(spec, b)), spec)
            <==> SameSpec(if b.managedCert.Some? then AttachCert(b, CertArn(spec)) else b, spec)
  {
  }

  lemma EqualIsSame(spec: Spec, b: Spec)
    requires Tidy(b)
    requires b.managedCert.Some? && b.customizations.Some? ==> b.customizations.value.certificate.None?
    ensures SpecEqual(spec, b) <==> SameSpec(if b.managedCert.Some? then AttachCert(b, CertArn(spec)) else b, spec)
  {
    hide SameLengthIncluded, EntriesMatch;
    IncludedIsPermutation(spec.domains, b.domains);
    EntriesMatchIsPermutation(spec.parameters, b.parameters, "");
    EntriesMatchIsPermutation(spec.tags, b.tags, None);
    if spec.customizations.Some? && spec.customizations.value.geo.Some? && b.customizations.Some? && b.customizations.value.geo.Some? {
      IncludedIsPermutation(spec.customizations.value.geo.value.locations, b.customizations.value.geo.value.locations);
    }
  }

  // Precedence: item over template over default.

  /** The item's value where it has one, otherwise the template's. */
  ghost predicate Prefers<T(!new)>(built: Option<T>, item: Option<T>, template: Option<T>)
  {
    (item.Some? ==> built == item) && (item.None? ==> built == template)
  }

  lemma FlagAndGroupPrecedence(src: Source, item: Item, spec: Spec)
    requires Built(src, item, spec)
    ensures spec.distributionId == src.distributionId && spec.domains == item.domains
    ensures match src.template
            case Some(t) =>
              && Prefers(spec.enabled, item.enabled, if t.enabled.Some? then t.enabled else Some(true))
              && Prefers(spec.connectionGroup, item.connectionGroup, t.connectionGroup)
            case None =>
              && Prefers(spec.enabled, item.enabled, Some(true))
              && Prefers(spec.connectionGroup, item.connectionGroup, None)
  {
  }

  lemma DnsPrecedence(src: Source, item: Item, spec: Spec)
    requires Built(src, item, spec)
    ensures var given := src.template.Some? && src.template.value.dns.Some?;
      && (spec.dns.Some? <==>
            given || item.dnsProvider.Some? || item.hostedZone.Some? || item.dnsTtl.Some? || item.dnsAssumeRole.Some?)
      && (spec.dns.Some? && given ==>
            var d, t := spec.dns.value, src.template.value.dns.value;
            && Prefers(Some(d.provider), item.dnsProvider, Some(t.provider))
            && Prefers(d.hostedZone, item.hostedZone, t.hostedZone)
            && Prefers(d.ttl, item.dnsTtl, t.ttl)
            && Prefers(d.assumeRole, item.dnsAssumeRole, t.assumeRole))
      && (spec.dns.Some? && !given ==>
            var d := spec.dns.value;
            && Prefers(Some(d.provider), item.dnsProvider, Some(""))
            && d.hostedZone == item.hostedZone && d.ttl == item.dnsTtl && d.assumeRole == item.dnsAssumeRole)
  {
  }

  lemma WebAclPrecedence(src: Source, item: Item, spec: Spec)
    requires Built(src, item, spec)
    ensures var given := src.template.Some? && src.template.value.customizations.Some?
                         && src.template.value.customizations.value.webAcl.Some?;
      var acl := spec.customizations.GetOr(NO_CUSTOMIZATIONS).webAcl;
      && (acl.Some? <==> given || item.webAclAction.Some? || item.webAclArn.Some?)
      && (acl.Some? && given ==>
            var t := src.template.value.customizations.value.webAcl.value;
            && Prefers(Some(acl.value.action), item.webAclAction, Some(t.action))
            && Prefers(acl.value.arn, item.webAclArn, t.arn))
      && (acl.Some? && !given ==>
            Prefers(Some(acl.value.action), item.webAclAction, Some("")) && acl.value.arn == item.webAclArn)
  {
  }

  lemma GeoPrecedence(src: Source, item: Item, spec: Spec)
    requires Built(src, item, spec)
    ensures var given := src.template.Some? && src.template.value.customizations.Some?
                         && src.template.value.customizations.value.geo.Some?;
      var geo := spec.customizations.GetOr(NO_CUSTOMIZATIONS).geo;
      && (geo.Some? <==> given || item.geoType.Some? || item.geoLocations.Some?)
      && (geo.Some? && given ==>
            var t := src.template.value.customizations.value.geo.value;
            && Prefers(Some(geo.value.restrictionType), item.geoType, Some(t.restrictionType))
            && Prefers(Some(geo.value.locations), item.geoLocations, Some(t.locations)))
      && (geo.Some? && !given ==>
            && Prefers(Some(geo.value.restrictionType), item.geoType, Some(""))
            && Prefers(Some(geo.value.locations), item.geoLocations, Some([])))
  {
  }

  /** An explicit certificate comes from the item alone and switches the managed request off. */
  lemma CertificatePrecedence(src: Source, item: Item, spec: Spec)
    requires Built(src, item, spec)
    ensures spec.customizations.GetOr(NO_CUSTOMIZATIONS).certificate == item.certArn
    ensures var given := src.template.Some? && src.template.value.managedCert.Some?;
      && (spec.managedCert.Some? <==> item.certArn.None? && given)
      && (spec.managedCert.Some? ==>
            var m, t := spec.managedCert.value, src.template.value.managedCert.value;
            && Prefers(Some(m.validationTokenHost), item.validationTokenHost, Some(t.validationTokenHost))
            && Prefers(m.ctLogging, item.ctLogging, t.ctLogging)
            && (item.domains == [] || item.primaryDomain.GetOr(t.primaryDomain) != "" ==>
                  Prefers(Some(m.primaryDomain), item.primaryDomain, Some(t.primaryDomain)))
            && (item.domains != [] && item.primaryDomain.GetOr(t.primaryDomain) == "" ==> m.primaryDomain == item.domains[0]))
  {
  }

  /** The maps of an item replace the template's lists altogether. */
  lemma ListPrecedence(src: Source, item: Item, spec: Spec)
    requires Built(src, item, spec)
    ensures item.parameters.Some? ==>
              DistinctKeys(spec.parameters)
              && forall p :: p in spec.parameters <==> p.key in item.parameters.value && p.value == item.parameters.value[p.key]
    ensures item.parameters.None? ==> spec.parameters == if src.template.Some? then src.template.value.parameters else []
    ensures item.tags.Some? ==>
              DistinctKeys(spec.tags)
              && forall g :: g in spec.tags <==> g.key in item.tags.value && g.value == Some(item.tags.value[g.key])
    ensures item.tags.None? ==> spec.tags == if src.template.Some? then src.template.value.tags else []
  {
  }

  /** An item that sets everything has no use for the template: with another one, or none, the same
      specs are built from it. */
  lemma TemplateIsDefault(src: Source, template: Option<Template>, item: Item, spec: Spec)
    requires item.enabled.Some? && item.connectionGroup.Some? && item.certArn.Some?
    requires item.dnsProvider.Some? && item.hostedZone.Some? && item.dnsTtl.Some? && item.dnsAssumeRole.Some?
    requires item.webAclAction.Some? && item.webAclArn.Some? && item.geoType.Some? && item.geoLocations.Some?
    requires item.parameters.Some? && item.tags.Some?
    ensures Built(src, item, spec) <==> Built(src.(template := template), item, spec)
  {
  }

  // Builds and their listings.

  lemma BuildExists(src: Source, item: Item)
    ensures exists b :: Built(src, item, b)
  {
    var spec := Overlay(src, item);
    if item.parameters.Some? {
      var es := Listing(item.parameters.value);
      spec := spec.(parameters := es);
    }
    if item.tags.Some? {
      var es := Listing(TagValues(item.tags.value));
      spec := spec.(tags := es);
    }
    assert Built(src, item, spec);
  }

  lemma {:induction false} Listing<V(!new)>(m: map<string, V>) returns (es: seq<Entry<V>>)
    ensures Enumerates(es, m)
    decreases m.Keys
  {
    if m == map[] {
      es := [];
    } else {
      var k :| k in m;
      var rest := Listing(m - {k});
      es := rest + [Entry(k, m[k])];
    }
  }

  /** No map of the item can be listed in two ways. */
  predicate OneListing(item: Item)
  {
    (item.parameters.Some? ==> |item.parameters.value| <= 1) && (item.tags.Some? ==> |item.tags.value| <= 1)
  }

  lemma OneWay<V(!new)>(a: seq<Entry<V>>, b: seq<Entry<V>>, m: map<string, V>)
    requires Enumerates(a, m) && Enumerates(b, m) && |m| <= 1
    ensures a == b
  {
    ListingLength(a, m);
    ListingLength(b, m);
    if m == map[] {
      assert forall e :: e !in a && e !in b;
    } else {
      var k :| k in m;
      OnlyKey(m.Keys, k);
      assert Entry(k, m[k]) in a && Entry(k, m[k]) in b;
      assert a == [Entry(k, m[k])] && b == [Entry(k, m[k])];
    }
  }

  lemma OnlyKey(s: set<string>, k: string)
    requires k in s && |s| <= 1
    ensures s == {k}
  {
    SubsetOfSameSize({k}, s);
  }

  lemma RestIsListing<V(!new)>(es: seq<Entry<V>>, m: map<string, V>)
    requires Enumerates(es, m) && es != []
    ensures var last := es[|es| - 1]; last.key in m && Enumerates(es[..|es| - 1], m - {last.key})
  {
    var n := |es| - 1;
    assert es == es[..n] + [es[n]];
    assert es[n] in es;
    assert forall e :: e in es[..n] <==> e in es && e.key != es[n].key;
  }

  /** A listing is as long as the map. */
  lemma {:induction false} ListingLength<V(!new)>(es: seq<Entry<V>>, m: map<string, V>)
    requires Enumerates(es, m)
    ensures |es| == |m|
    decreases |es|
  {
    assert forall k | k in m :: Entry(k, m[k]) in es;
    if es == [] {
      assert m == map[];
    } else {
      hide Enumerates;
      RestIsListing(es, m);
      var key := es[|es| - 1].key;
      ListingLength(es[..|es| - 1], m - {key});
      assert m.Keys == (m - {key}).Keys + {key};
    }
  }

  /** A map with two keys has two listings. */
  lemma TwoListings<V(!new)>(m: map<string, V>) returns (a: seq<Entry<V>>, b: seq<Entry<V>>)
    requires |m| > 1
    ensures Enumerates(a, m) && Enumerates(b, m) && a != b
  {
    a := Listing(m);
    ListingLength(a, m);
    b := [a[1], a[0]] + a[2..];
    assert a == [a[0], a[1]] + a[2..];
    assert forall e :: e in a <==> e in b;
  }

  /** All builds of an item are one spec exactly when no map of it can be listed in two ways. */
  lemma OneBuild(src: Source, item: Item)
    ensures OneListing(item) <==> forall a, b | Built(src, item, a) && Built(src, item, b) :: a == b
  {
    if OneListing(item) {
      forall a, b | Built(src, item, a) && Built(src, item, b) ensures a == b { UniqueBuild(src, item, a, b); }
    } else {
      var a, b := TwoBuilds(src, item);
    }
  }

  lemma UniqueBuild(src: Source, item: Item, a: Spec, b: Spec)
    requires OneListing(item) && Built(src, item, a) && Built(src, item, b)
    ensures a == b
  {
    if item.parameters.Some? { OneWay(a.parameters, b.parameters, item.parameters.value); }
    if item.tags.Some? {
      assert TagValues(item.tags.value).Keys == item.tags.value.Keys;
      OneWay(a.tags, b.tags, TagValues(item.tags.value));
    }
  }

  lemma TwoBuilds(src: Source, item: Item) returns (a: Spec, b: Spec)
    requires !OneListing(item)
    ensures Built(src, item, a) && Built(src, item, b)
    ensures a.parameters != b.parameters || a.tags != b.tags
  {
    BuildExists(src, item);
    a :| Built(src, item, a);
    if item.parameters.Some? && |item.parameters.value| > 1 {
      var x, y := TwoListings(item.parameters.value);
      b := a.(parameters := if a.parameters == x then y else x);
    } else {
      assert TagValues(item.tags.value).Keys == item.tags.value.Keys;
      var x, y := TwoListings(TagValues(item.tags.value));
      b := a.(tags := if a.tags == x then y else x);
    }
  }
}
