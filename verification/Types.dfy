/** The custom resources the operator reconciles, as values. */
module Types {

  datatype Option<+T> = None | Some(value: T) {
    function GetOr(default: T): T { if Some? then value else default }
  }

  datatype Result<+T> = Ok(value: T) | Err(error: AwsError)

  /** AWS errors by the class the controllers distinguish; `reason` is the condition reason
      a terminal error leads to. */
  datatype AwsError =
    | Terminal(reason: Reason)
    | InvalidArgument
    | NotFound
    | NotDisabled
    | PreconditionFailed
    | Throttling
    | DnsThrottling
    | OtherError

  predicate IsTerminal(err: AwsError) { err.Terminal? || err.InvalidArgument? }

  datatype Reason =
    | Unset
    | Deployed | Deploying | Creating | Disabling | InSync | DriftDetected | UpdatePending
    | DomainConflict | AccessDenied | InvalidSpec | AwsFailure
    | CertValidated | CertAttaching | CertPending | CertNotConfigured | CertFailed
    | ValidationFailed | DnsPropagating | DnsReady | DnsFailure | DnsNotConfigured
    | SanMismatch | DomainValidationPending

  /** A keyed value: a template parameter is an `Entry<string>`, a tag an
      `Entry<Option<string>>` (a tag's value may be absent). */
  datatype Entry<+V> = Entry(key: string, value: V)

  type Parameter = Entry<string>
  type Tag = Entry<Option<string>>

  datatype WebAcl = WebAcl(action: string, arn: Option<string>)

  datatype GeoRestrictions = GeoRestrictions(restrictionType: string, locations: seq<string>)

  datatype Customizations = Customizations(
    webAcl: Option<WebAcl>, certificate: Option<string>, geo: Option<GeoRestrictions>)

  const NO_CUSTOMIZATIONS := Customizations(None, None, None)

  datatype ManagedCertRequest = ManagedCertRequest(
    validationTokenHost: string, primaryDomain: string, ctLogging: Option<string>)

  datatype DnsConfig = DnsConfig(
    provider: string, hostedZone: Option<string>, ttl: Option<int>, assumeRole: Option<string>)

  datatype Spec = Spec(
    distributionId: string,
    domains: seq<string>,
    enabled: Option<bool>,
    connectionGroup: Option<string>,
    parameters: seq<Parameter>,
    customizations: Option<Customizations>,
    managedCert: Option<ManagedCertRequest>,
    tags: seq<Tag>,
    dns: Option<DnsConfig>)

  const DEFAULT_TTL := 300

  /** The API server fills in the two defaults of the resource definition on every write. */
  function Admit(spec: Spec): Spec
  {
    spec.(enabled := Some(spec.enabled.GetOr(true)),
          dns := match spec.dns
                 case None => None
                 case Some(d) => Some(d.(ttl := Some(d.ttl.GetOr(DEFAULT_TTL)))))
  }

  /** The certificate ARN of a spec, empty when it has none. */
  function CertArn(spec: Spec): string
  {
    if spec.customizations.Some? then spec.customizations.value.certificate.GetOr("") else ""
  }

  /** Persisting an issued managed certificate into the spec. */
  function AttachCert(spec: Spec, arn: string): Spec
  {
    spec.(customizations :=
            Some(spec.customizations.GetOr(NO_CUSTOMIZATIONS).(certificate := Some(arn))))
  }

  datatype DomainResult = DomainResult(domain: string, active: bool)

  predicate AllActive(results: seq<DomainResult>)
  {
    results != [] && forall r | r in results :: r.active
  }

  datatype CertState = Unknown | Issued | PendingValidation | Failed

  datatype CertDetails = CertDetails(arn: string, state: CertState)

  datatype Condition = Condition(ok: bool, reason: Reason, generation: nat)

  datatype Status = Status(
    observedGeneration: nat,
    id: Option<nat>,
    etag: nat,
    inProgress: bool,
    domainResults: seq<DomainResult>,
    certArn: string,
    certState: CertState,
    driftDetected: bool,
    dnsChange: Option<nat>,
    dnsTarget: string,
    notes: Notes)

  /** The status conditions. */
  datatype Notes = Notes(ready: Condition, synced: Condition, cert: Condition, dns: Condition)

  const UNSET := Condition(false, Unset, 0)

  const NEW_STATUS := Status(0, None, 0, false, [], "", Unknown, false, None, "", Notes(UNSET, UNSET, UNSET, UNSET))

  datatype Resource = Resource(
    name: string, generation: nat, spec: Spec, status: Status, finalizer: bool, deleting: bool)
}
