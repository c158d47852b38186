# The tenant operator, verified

A model of the CloudFront tenant operator's two reconcile loops and of what they rest on, with
proofs about whole runs. One loop takes a `DistributionTenant` resource through its life in
CloudFront and Route53: DNS-first creation, three-way diff, certificate attachment, drift policy,
disable-then-delete. The other keeps a set of such resources in step with the rows of a table.

`dafny verify dfyconfig.toml` checks everything.

## How it is organised

- `Types`, `Matching`, `Certificates`, `ChangeDetection`, `Conversions`: resources, the
  order-insensitive list comparisons, certificate coverage, the diff against AWS, and the way a
  spec takes through the SDK and back.
- `CloudFront`, `Dns`: the outside, each as a specification on values and a client class that
  changes its tenants or records in place. CloudFront follows the in-memory client; Route53 is a
  map keyed by zone and name whose batches are atomic.
- `Lifecycle`: one reconcile as a value. `Env` is everything the outside answers, faults and foreign
  writes between read and write included; the resulting `Plan` holds the effect on CloudFront and
  Route53 and the one Kubernetes write. `Controller` is the same reconcile step by step, a class
  working on its stored resource and clients, proved to end where the plan says.
- `Phases` summarises what a creating, existing and deleting reconcile can do. `Runs` defines runs:
  reconciles interleaved with user edits, deletion requests, other AWS users, foreign DNS writes and
  failing calls.
- `Outcomes`, `Conditions`: how a reconcile ends and what it leaves in the status, call by call.
- `DriftSoundness`, `DriftPolicies`, `NoLeak`, `NoLostUpdate`, `DnsFirst`, `Deletion`, `Records`,
  `Scheduling`, `Convergence`: the theorems about reconciles and runs.
- `TenantSpecs`, `PingPong`, `Scan`, `Sync`: building, comparing and applying desired specs, the two
  controllers writing one spec, the paged scan, and the sync of a set of resources.

## Where the code and its documentation disagree

The model follows the code.

- A comment in `reconcileExisting` (internal/controller/distributiontenant_controller.go:619-620)
  speaks of an InProgress gate in the delete flow. There is none: deletion is attempted as soon as
  the tenant reads as disabled.
- docs/architecture/overview.md:44-46 promises that records of dropped domains are cleaned up in the
  steady state. They never are (`Scheduling.RecordsOutliveDomains`): the clean-up compares the spec
  with domains just read from an AWS state that matched it. A dropped domain keeps its record, past the
  deletion of the resource too (`Records.DroppedDomainKeepsRecord`).
- docs/architecture/drift-detection.md:30 has the `enforce` policy set `Synced=False` for a moment.
  The code writes no such status.
- docs/architecture/drift-detection.md:43 says that `suspend` does not compare the AWS state. It does, and
  flags the difference (`DriftPolicies.PolicyDecides`).
- docs/reference/conditions.md:32 has UpdatePending go with `Synced=False`, and :44 NotConfigured with
  `CertificateReady=False`. The code sets both conditions true (`Outcomes.UpdatesTenant`,
  `Conditions.MatchingTenant`).
- docs/architecture/drift-detection.md:18-20 takes an unchanged generation with a differing AWS state
  for an external change. With two parameters of one name and different values it is seen without one
  (`DriftSoundness.DriftAfterCreate`).
- internal/aws/client.go:80-81 says that deleting records succeeds silently if they do not exist.
  One missing record leaves all others of the batch in place, and records that exist with another TTL
  block the deletion of the resource (`Deletion.DeletionProgress`, `Deletion.TtlEditBlocks`).
- docs/architecture/overview.md:48 has the deletion remove the DNS records. Records published in a
  reconcile that did not get to record their target stay (`Records.LostTargetLeavesRecords`).
- Re-attaching an issued certificate is commented as bumping the generation
  (internal/controller/distributiontenant_controller.go:682-684). When the spec already names the ARN
  it does not, and nothing requeues the resource (`Scheduling.AlwaysScheduled`,
  `Scheduling.ReattachingStalls`).
- `reconcileDelete` of a source says it cleans up owned resources
  (internal/controller/tenantsource_controller.go:364). It deletes by label, owned or not
  (`Sync.SourceReconciler.ReconcileDelete`).
- docs/architecture/overview.md:61 and docs/reference/crd.md:125 say that a dry run mutates no resources.
  `reconcileDelete` of a source never looks at `dryRun`: delete a dry-run source whose label some
  resources carry, with no call failing, and all of these are deleted (`Sync.SourceReconciler.Reconcile`
  with `deleting` and `dryRun`).
- docs/architecture/overview.md:108 has the CNAME records point to the endpoint of the distribution or
  connection group. Once a target is recorded it is kept while the tenant stays recorded, so an edit of
  the connection group does not move the records (`Records.TargetNeverMoves`).

## Model

| member | source | states |
|---|---|---|
| `DriftSoundness.DriftUnreachable` | internal/controller/distributiontenant_controller.go:570-738 | Over every run in which nobody else rewrites the recorded tenant (other tenants are anybody's, and anybody may delete this one) and submitted parameters do not conflict, however many calls and status writes fail, the observed generation keeps meaning that its spec is what AWS has, and no reconcile reaches the drift branch. |
| `Runs.OthersSpare` | internal/aws/mock.go:156-228 | Creating, changing and deleting other tenants, and AWS moving any deployment along, never rewrites or deletes the recorded tenant. |
| `DriftSoundness.ObservedIsWitnessed` | internal/controller/distributiontenant_controller.go:697-711 | Whatever others do in between, a reconcile changes the observed generation only to the current one, and only when AWS, as read or as just written, held a tenant matching that spec. |
| `DriftSoundness.DriftAfterCreate` | internal/controller/change_detection.go:102-114 | The condition on parameters is exact: the first look after a recorded create sees drift nobody caused if and only if two parameters share a name with different values. |
| `DriftPolicies.PolicyDecides` | internal/controller/distributiontenant_controller.go:786-824 | For a tenant read that differs from an observed spec, CloudFront is called if and only if the policy is `enforce`. Otherwise tenants are as others left them, records as they were, and the one status write flags drift and keeps the observed generation; the synced condition turns to DriftDetected under `report` and stays under `suspend`. |
| `DriftPolicies.EnforceRestores` | internal/controller/distributiontenant_controller.go:794-800 | An enforcing update that succeeds and is recorded leaves the tenant the spec describes, with the drift flagged. |
| `DriftPolicies.HandsOff` | internal/controller/distributiontenant_controller.go:786-824 | Under `report` and `suspend`, no run without an edit of a resource with a tenant, a deletion or a new certificate ever updates or deletes a tenant, whatever others do and whatever fails. |
| `ChangeDetection.SendReadBack` | internal/controller/change_detection.go:121-175 | The tenant stored from a spec compares equal to it if and only if its parameters do not conflict and `enabled` is set or AWS keeps the tenant enabled. |
| `ChangeDetection.MatchIsPermutation` | internal/controller/change_detection.go:143-171 | For duplicate-free AWS lists and non-empty parameter values, a match means equal domains, parameters and locations up to order. |
| `ChangeDetection.MatchMeans` | internal/controller/change_detection.go:121-249 | What a match means, field by field and in both directions, for tidy AWS lists: enabled (open reads as true), distribution, connection group where the spec has one, domains, parameters and locations up to order, certificate, restriction type, web ACL action and ARN (absent reads as empty). |
| `ChangeDetection.EditIsSeen` | internal/controller/change_detection.go:121-249 | An edit of any of these fields of a matching spec no longer matches. |
| `ChangeDetection.SpecMatchesAws` | internal/controller/change_detection.go:121-175 | The comparison method decides exactly the match predicate that the three-way diff and all run theorems use. |
| `ChangeDetection.GeoRestrictionsMatch` | internal/controller/change_detection.go:226-249 | Type equal and locations of equal length with one-way inclusion, absence matching only absence. |
| `Conversions.ConversionsInvert` | internal/aws/cloudfront.go:341-464 | Input, SDK request, AWS echo, SDK answer, operator type: the tenant read is the tenant the input describes; no field is lost or moved. |
| `Conversions.SentSpecMatches` | internal/aws/cloudfront.go:391-464 | What is sent for a spec, converted both ways, compares equal on reading back if and only if parameters do not conflict and `enabled` is set or kept. |
| `Conversions.ToAwsCustomizations` | internal/aws/cloudfront.go:341-371 | Builds the SDK customizations branch by branch; `ConversionsInvert` is its inverse law. |
| `Conversions.FromAwsCustomizations` | internal/aws/cloudfront.go:437-464 | Builds the operator's customizations branch by branch, an absent ARN becoming empty. |
| `Conversions.ToRequest` | internal/aws/cloudfront.go:67-99 | The request loops carry every domain and parameter in order. |
| `Conversions.ToTenantOutput` | internal/aws/cloudfront.go:391-434 | The answer loops carry every domain and parameter in order, absent fields reading as zero values. |
| `Matching.IncludedIsPermutation` | internal/controller/tenantsource_controller.go:877-891 | Equal length plus inclusion of the second list in the first is multiset equality when the second list has no duplicates (pigeonhole). |
| `Matching.InclusionExactness` | internal/controller/change_detection.go:143-154 | The side condition is exact: a second list makes the test agree with multiset equality for every first list if and only if it has no duplicates. |
| `Matching.EntriesMatchIsPermutation` | internal/controller/tenantsource_controller.go:777-807 | Comparing parameters or tags is multiset equality when the second list has distinct keys and no value that reads like a missing one. |
| `Matching.EntriesExactness` | internal/controller/tenantsource_controller.go:777-807 | These two conditions are exact: they hold of a second list if and only if the comparison is multiset equality for every first list. |
| `Matching.SelfMatch` | internal/controller/tenantsource_controller.go:777-791 | A keyed list compares equal to itself if and only if no key has two different values. |
| `Matching.StringSliceEqual` | internal/controller/tenantsource_controller.go:877-891 | The set-building loop decides length plus one-way inclusion. |
| `Matching.EntriesEqual` | internal/controller/tenantsource_controller.go:777-807 | The map-building loop decides equality of every second entry with the last value of its key in the first list, a missing key reading as the zero value. |
| `Convergence.Settles` | internal/controller/distributiontenant_controller.go:570-783 | From any live state, with the `enforce` policy and undisturbed reconciles seeing one certificate, a run of any length makes at most two CloudFront updates, and all but at most five of its reconciles poll a pending DNS change or are idle: they change nothing outside and leave the spec in AWS and observed, or the resource stalled. |
| `Convergence.StallLaw` | internal/controller/distributiontenant_controller.go:660-686 | A stall (spec in AWS but not observed, issued ARN already in the spec) never begins in a calm run, and one that is there ends exactly at the first reconcile that reads every domain active. |
| `Convergence.Converges` | internal/controller/distributiontenant_controller.go:570-783 | From every live state that is not stalled, all but at most five reconciles of a calm run, not counting those that poll a pending DNS change, end with the spec in AWS and observed. |
| `Convergence.DnsEditStalls` | internal/controller/distributiontenant_controller.go:665-686 | Stalls happen: with an issued certificate attached, an edit of DNS settings alone puts a converged resource in one. |
| `Convergence.CalmRun` | internal/controller/distributiontenant_controller.go:570-783 | Conservation along calm runs: updates made plus updates owed is constant, and busy reconciles never exceed the fall of the rank. |
| `Convergence.TurnProgress` | internal/controller/distributiontenant_controller.go:570-738 | Every calm reconcile pays one owed update per update it makes, and lowers the rank, is idle, or polls a pending DNS change. |
| `Convergence.Quiescence` | internal/controller/distributiontenant_controller.go:700-738 | Once the spec is in AWS and observed and no certificate is left to attach, every calm run stays so and never calls CloudFront or Route53 to change anything. |
| `NoLeak.StepAccounts` | internal/controller/distributiontenant_controller.go:287-311 | In any step of any kind, at most the tenant being created becomes live but unrecorded, and it does if and only if the create succeeded and the status write after it failed. |
| `NoLeak.NothingLost` | internal/controller/distributiontenant_controller.go:287-311 | In a run without such a step, every live tenant ever created for the resource is the one in its status, so at most one is live, and none once the resource is gone. |
| `NoLeak.LostForGood` | internal/controller/distributiontenant_controller.go:287-311 | The converse: a live unrecorded tenant stays live and unrecorded over every run in which nobody else removes it, past the deletion of the resource too. |
| `NoLeak.FinalizerLast` | internal/controller/distributiontenant_controller.go:122-210 | A reconcile lets the resource go only when it is being deleted and its recorded tenant no longer exists. |
| `NoLostUpdate.SuccessfulWritesAreCurrent` | internal/controller/distributiontenant_controller.go:140-199 | Whatever others wrote in between, an update or delete that succeeds applied to exactly the configuration read in the same reconcile and left exactly the state the spec (or the disabling input) describes; a successful delete never removes an enabled tenant. |
| `NoLostUpdate.ConflictChangesNothing` | internal/controller/distributiontenant_controller.go:745-763 | A reconcile overtaken by another write changes nothing in CloudFront, and if it tried, nothing in the resource either. |
| `CloudFront.EtagGuardsConfig` | internal/aws/mock.go:156-228 | Under any sequence of foreign writes a tenant that still has its ETag still has its configuration, and ids and ETags are never reused. |
| `DnsFirst.CreateNeedsInSync` | internal/controller/distributiontenant_controller.go:331-359 | In any state, a tenant with `spec.dns` is created only in a reconcile in which a change recorded by this resource was answered in sync. |
| `DnsFirst.RecordsBeforeTenant` | internal/controller/distributiontenant_controller.go:266-411 | Over every run in which, while a change is in flight, nobody else takes away or redirects what it published and edits only drop names, drop DNS or change the TTL, each create finds a CNAME to the recorded target for every spec domain, re-creation after external deletion included; if nobody changes TTLs either, the records are exactly those the spec asks for. |
| `DnsFirst.LateDomainHasNoRecord` | internal/controller/distributiontenant_controller.go:329-359 | The condition is needed: adding a domain while a change is in flight creates the tenant with that domain unpublished. |
| `Outcomes.PublishesRecords` | internal/controller/distributiontenant_controller.go:361-410 | The first step of a create with DNS: no call to CloudFront; each domain gets its record with the endpoint and the TTL (300 if open), change and target are remembered in one write, and each failure is answered as a DNS error or returned. |
| `Outcomes.PollsChange` | internal/controller/distributiontenant_controller.go:339-354 | The second step: a pending change is noted and polled again, errors are answered. |
| `Outcomes.RefusedCertificate` | internal/controller/distributiontenant_controller.go:331-335 | Uncovered domains stop the flow before anything is published, recorded in the ready condition alone. |
| `Outcomes.MakesTenant` | internal/controller/distributiontenant_controller.go:266-316 | The last step: the create call is made if and only if the spec is accepted and DNS is absent or in sync; success is recorded with id, ETag, generation and all four conditions; a wrong argument counts as pending DNS where CloudFront serves the validation token. |
| `Deletion.DeletionProgress` | internal/controller/distributiontenant_controller.go:122-255 | From any state with deletion requested and the finalizer present, two fault-free reconciles delete the tenant; they release the resource if and only if Route53 does not hold all the records it asks for, some with another target or TTL; records go if and only if Route53 holds all of them under the recorded target and the TTL of the spec, otherwise none is touched. |
| `Records.GoneWithResource` | internal/controller/distributiontenant_controller.go:122-255 | From any state where the batch is in place under the recorded target, as a recorded upsert leaves it, over any run with any faults in which no target is lost, domains, zone and TTL are not edited and nobody else writes those names: once deletion is requested, two fault-free reconciles remove the resource and every record of the batch. |
| `Records.TurnAccounts` | internal/controller/distributiontenant_controller.go:629-653 | Conservation of published records: a reconcile that will lose a target leaves its whole batch unclaimed; any other takes from the unclaimed records exactly those the resource can remove afterwards and adds none. |
| `Records.TargetLostExactly` | internal/controller/distributiontenant_controller.go:361-410 | When a target is lost, told from the state and the answers beforehand: a first publication whose target is empty, or new while the status write fails; or a publication before an update of a tenant without a recorded target, where the target is empty, the write fails or the update is refused without a status write. Equivalent to records being published and their target not left in the status. |
| `Records.NothingForgotten` | internal/controller/distributiontenant_controller.go:214-255 | In a run in which no target is lost, no edit asks for other records while some can be removed, and others neither disturb these nor put old ones back, no published record becomes unclaimed; a resource gone at the end leaves none but those unclaimed at the start. |
| `Records.DeletionLeavesUnclaimed` | internal/controller/distributiontenant_controller.go:122-255 | The converse: once deletion is requested, whatever fails, the published records left when the resource is gone are exactly those then unclaimed. |
| `Records.LostTargetLeavesRecords` | internal/controller/distributiontenant_controller.go:214-219 | After any lost target all its records survive deletion; two fault-free reconciles release the resource if and only if no target is recorded at all. |
| `Records.ThrottledUpdateLosesTarget` | internal/controller/distributiontenant_controller.go:741-766 | An input that loses a target: an edit adds DNS settings together with something AWS compares, records are published, the update is throttled; the resource is as before and the records are in the zone. |
| `Records.LostPublication` | internal/controller/distributiontenant_controller.go:377-410 | Another one: records published before a create, and the status write fails, with the same outcome. |
| `Records.TargetNeverMoves` | internal/controller/distributiontenant_controller.go:1142-1159 | While its tenant stays recorded, no run moves a recorded target, whatever is edited, the connection group included. |
| `Records.DroppedNameKeepsRecord` | internal/controller/distributiontenant_controller.go:1192-1223 | A name the resource does not ask for keeps its record over every run, past the deletion of the resource too, until somebody asks for it or somebody else writes it. |
| `Records.DroppedDomainKeepsRecord` | internal/controller/distributiontenant_controller.go:717-725 | The input: after an edit drops a published domain, whatever reconciles, failures, foreign AWS writes and deletion follow, its record stays exactly as published. |
| `Deletion.LastReconcile` | internal/controller/distributiontenant_controller.go:184-209 | Once the tenant is disabled or gone, one fault-free reconcile does all of this. |
| `Deletion.DisableFirst` | internal/controller/distributiontenant_controller.go:159-182 | An enabled tenant is disabled in the first reconcile, keeps the distribution and the domains of the spec, and nothing else the deletion depends on moves. |
| `Outcomes.DisablesTenant` | internal/controller/distributiontenant_controller.go:159-182 | Disabling: the call is made and no record touched; success is recorded with its ETag as Disabling, errors are reported or returned. |
| `Outcomes.RemovesTenant` | internal/controller/distributiontenant_controller.go:184-199 | Deleting: the call is made on a disabled tenant; success lets the resource go, a refusal for want of disabling is retried, terminal errors are reported, others returned. |
| `Outcomes.LetsResourceGo` | internal/controller/distributiontenant_controller.go:129-152 | Without a tenant the resource goes, unless the removal of its records or the write is refused; then it fails and stays. |
| `Deletion.CrashAfterDelete` | internal/controller/distributiontenant_controller.go:139-152 | After any failure behind a successful AWS delete, the next fault-free reconcile takes the not-found path and finishes. |
| `Deletion.TtlEditBlocks` | internal/controller/distributiontenant_controller.go:223-249 | The blocking is reachable by editing the TTL alone, which the comparison with AWS can never notice. |
| `Scheduling.AlwaysScheduled` | internal/controller/distributiontenant_controller.go:570-738 | A reconcile of a resource that is not being deleted ends with an error, a requeue or a new generation, except if and only if it re-attaches an ARN the spec already names while some domain is not active. |
| `Scheduling.ReattachingStalls` | internal/controller/distributiontenant_controller.go:665-686 | Such a reconcile changes nothing at all, so it can repeat forever without observing the generation. |
| `Scheduling.OrphansAreDropped` | internal/controller/distributiontenant_controller.go:1210-1223 | The orphan list is exactly the reported domains missing from the spec, in order and with multiplicity. |
| `Scheduling.RecordsOutliveDomains` | internal/controller/distributiontenant_controller.go:717-725 | Yet no reconcile of a resource that is not being deleted ever removes a record, because the list is empty wherever it is used. |
| `Runs.SoundRun` | internal/controller/distributiontenant_controller.go:86-114 | Across every run of reconciles, edits, deletions, foreign writes and faults: ids and ETags stay fresh, a recorded tenant implies the finalizer and no change in flight, observed never passes the generation, stored specs stay defaulted. |
| `Conditions.MatchingTenant` | internal/controller/distributiontenant_controller.go:688-738 | A reconcile that finds a matching tenant and nothing to attach: ready if and only if nothing is being deployed, in sync either way, generation observed, drift flag cleared when deployed, certificate and DNS conditions as the documentation's table has them up to the differences listed above. |
| `Conditions.ReadyMeansDeployed` | internal/controller/distributiontenant_controller.go:700-711 | A reconcile newly makes a resource ready only when it read a deployed tenant matching the spec with no certificate to attach. |
| `Outcomes.AttachesCertificate` | internal/controller/distributiontenant_controller.go:660-686 | An issued certificate not active everywhere goes into the spec, keeping the rest of it, even during a deployment, and nothing else happens. |
| `Outcomes.UpdatesTenant` | internal/controller/distributiontenant_controller.go:741-783 | However a live reconcile came to update: success is recorded as deploying, update pending and observed with the new ETag and domains; terminal errors go on record once per message, throttling and conflicts are retried later, others returned. |
| `Outcomes.UnpublishedUpdate` | internal/controller/distributiontenant_controller.go:635-650 | If the records of an update cannot be published, the update does not go out and the DNS condition says so. |
| `Outcomes.RefusedSpec` | internal/controller/distributiontenant_controller.go:930-1040 | A spec refused by the checks is reported as ValidationFailed and nothing is called. |
| `Outcomes.GoneTenant` | internal/controller/distributiontenant_controller.go:573-588 | A tenant that is gone is forgotten (id and ETag), the resource is Creating and comes back. |
| `Outcomes.ReadErrors` | internal/controller/distributiontenant_controller.go:589-594 | Terminal read errors are reported, all others returned. |
| `Outcomes.ClaimsResource` | internal/controller/distributiontenant_controller.go:96-108 | A resource without the finalizer gets it and nothing else happens; one being deleted is left alone. |
| `Phases.ExistingIsSummary` | internal/controller/distributiontenant_controller.go:570-738 | Everything a reconcile of a recorded tenant can do, for all answers: the case split the run theorems rest on. |
| `Phases.CreateIsSummary` | internal/controller/distributiontenant_controller.go:266-411 | Everything a create reconcile can do: a create behind an in-sync change, one publication of the batch, or neither and the recorded identity kept. |
| `Phases.DeleteIsSummary` | internal/controller/distributiontenant_controller.go:122-210 | Everything a deleting reconcile can do: the finalizer goes only after a not-found or a successful delete; a delete succeeds only on a disabled tenant under the ETag read. |
| `Controller.Reconciler.Reconcile` | internal/controller/distributiontenant_controller.go:86-114 | The stepwise reconciler leaves exactly the three worlds and the verdict of its plan, with at most one Kubernetes write, one CloudFront mutation and one Route53 mutation. |
| `Controller.Reconciler.ReconcileDelete` | internal/controller/distributiontenant_controller.go:122-210 | Refines `PlanDelete`, for which the deletion theorems hold. |
| `Controller.Reconciler.CleanUpAndRelease` | internal/controller/distributiontenant_controller.go:214-255 | Removes the batch of the resource, then the finalizer; a refused removal keeps the finalizer. |
| `Controller.Reconciler.ReconcileCreate` | internal/controller/distributiontenant_controller.go:266-316 | Refines `PlanCreate`. |
| `Controller.Reconciler.CreateTenant` | internal/controller/distributiontenant_controller.go:282-315 | Creates and records id, ETag, generation and domains in one status write, and resets the change in flight. |
| `Controller.Reconciler.PrepareDns` | internal/controller/distributiontenant_controller.go:322-411 | Certificate check, polling or publication; hands over only when the change is in sync. |
| `Controller.Reconciler.Publish` | internal/controller/distributiontenant_controller.go:361-410 | Upserts one record per domain and remembers change id and target in one status write. |
| `Controller.Reconciler.PollDns` | internal/controller/distributiontenant_controller.go:339-359 | Polls the recorded change with its error, pending and in-sync answers. |
| `Controller.Reconciler.HandleDnsError` | internal/controller/distributiontenant_controller.go:529-567 | Terminal, throttled and retryable DNS errors. |
| `Controller.Reconciler.ReconcileExisting` | internal/controller/distributiontenant_controller.go:570-738 | Refines `PlanExisting`, the three-way diff included. |
| `Controller.Reconciler.ApplySpecChange` | internal/controller/distributiontenant_controller.go:629-653 | Validation, DNS upsert, then the update; a failed upsert skips the update. |
| `Controller.Reconciler.PushUpdate` | internal/controller/distributiontenant_controller.go:741-783 | Conditional update under the ETag read; a conflict writes nothing, success records generation, ETag and domains. |
| `Controller.Reconciler.HandleDrift` | internal/controller/distributiontenant_controller.go:786-824 | The three drift policies. |
| `Controller.Reconciler.Steady` | internal/controller/distributiontenant_controller.go:660-738 | Certificate attachment first, then the deploying and deployed status. |
| `Controller.Reconciler.CleanUpOrphans` | internal/controller/distributiontenant_controller.go:1192-1245 | Deletes the orphaned records under the recorded target and TTL. |
| `Controller.Reconciler.HandleAwsError` | internal/controller/distributiontenant_controller.go:887-922 | Terminal errors are reported, throttling is requeued, the rest fails. |
| `Controller.Reconciler.HandleTerminal` | internal/controller/distributiontenant_controller.go:865-883 | Writes the two conditions unless the same message is already recorded for this generation. |
| `Controller.AllDomainsActive` | internal/controller/distributiontenant_controller.go:1108-1118 | True if and only if there is a result and all are active. |
| `Controller.OrphanedDomains` | internal/controller/distributiontenant_controller.go:1210-1219 | The loop computes the orphan list of `OrphansAreDropped`. |
| `CloudFront.Client.CreateTenant` | internal/aws/mock.go:90-135 | In-place create: fresh id and ETag, enabled by default, all domains active. |
| `CloudFront.Client.GetTenant` | internal/aws/mock.go:138-153 | Read, not-found and fault. |
| `CloudFront.Client.UpdateTenant` | internal/aws/mock.go:156-201 | In-place conditional update: refused on a stale ETag, an absent `enabled` keeps the old value, a fresh ETag on success. |
| `CloudFront.Client.DeleteTenant` | internal/aws/mock.go:204-228 | In-place conditional delete: refused on a stale ETag or an enabled tenant, in that order. |
| `Dns.Client.UpsertRecords` | internal/aws/route53.go:59-95 | All records of a batch are in place afterwards, others untouched, and the change is logged under a new id. |
| `Dns.Client.DeleteRecords` | internal/aws/route53.go:115-151 | All or nothing: removed when all match; reported as success without removal when one is missing; an error when all exist and one differs. |
| `Outcomes.DefaultsAgree` | config/crd/bases/cloudfront-tenant-operator.io_distributiontenants.yaml:160-197 | The two defaults of the resource definition are what the controller assumes itself: a spec and its defaulted form match the same tenants and ask for the same records. |
| `Certificates.CoverageIsLabelRule` | internal/controller/distributiontenant_controller.go:508-525 | The string comparison is the label rule of section 6.4.3 of RFC 6125: equal labels, or a leftmost `*` for exactly one non-empty label, ignoring ASCII case. |
| `Certificates.CoverageIgnoresCase` | internal/controller/distributiontenant_controller.go:508-525 | The same on the names as written: labels agree letter by letter up to ASCII case, or the first is `*` for one non-empty label. |
| `Certificates.RejectsExactlyUncovered` | internal/controller/distributiontenant_controller.go:481-488 | The rejected domains are exactly those no name covers, in order and with multiplicity. |
| `Certificates.DomainCovered` | internal/controller/distributiontenant_controller.go:508-525 | The loop decides whether some name covers the domain. |
| `Certificates.UncoveredDomains` | internal/controller/distributiontenant_controller.go:481-486 | The loop collects the rejected domains. |
| `TenantSpecs.BuildTenantSpec` | internal/controller/tenantsource_controller.go:429-471 | The stepwise overlay yields the overlay of item on template, with maps listed in some order. |
| `TenantSpecs.FlagAndGroupPrecedence` | internal/controller/tenantsource_controller.go:442-454 | Enabled flag and connection group: the item's, otherwise the template's, otherwise true and none; distribution and domains are never the template's. |
| `TenantSpecs.DnsPrecedence` | internal/controller/tenantsource_controller.go:519-552 | DNS settings, field by field: the item's, otherwise the template's; there are any if and only if either side has some. |
| `TenantSpecs.WebAclPrecedence` | internal/controller/tenantsource_controller.go:563-583 | Web ACL action and ARN likewise. |
| `TenantSpecs.GeoPrecedence` | internal/controller/tenantsource_controller.go:585-601 | Restriction type and locations likewise. |
| `TenantSpecs.CertificatePrecedence` | internal/controller/tenantsource_controller.go:473-517 | The certificate is the item's alone; a managed request needs the template's and no certificate, its fields being the item's, otherwise the template's, the primary domain defaulting to the first. |
| `TenantSpecs.ListPrecedence` | internal/controller/tenantsource_controller.go:612-644 | An item's parameters and tags replace the template's lists altogether; otherwise these are kept in order. |
| `TenantSpecs.TemplateIsDefault` | internal/controller/tenantsource_controller.go:427-471 | An item that sets everything is built the same with any template or none. |
| `TenantSpecs.BuildCertificate` | internal/controller/tenantsource_controller.go:473-517 | An explicit ARN wins; otherwise the template's request with the item's overrides and the defaulted primary domain. |
| `TenantSpecs.BuildCustomizations` | internal/controller/tenantsource_controller.go:554-610 | Web ACL and geo restrictions overlaid field by field, the certificate left alone. |
| `TenantSpecs.ListEntries` | internal/controller/tenantsource_controller.go:612-644 | Walking a map in any order lists each pair once. |
| `TenantSpecs.TenantSpecEqual` | internal/controller/tenantsource_controller.go:648-683 | Decides the approximate spec equality of the sync theorems. |
| `TenantSpecs.SkipsNothing` | internal/controller/tenantsource_controller.go:258-275 | For tidy built lists and a set TTL, the comparison succeeds if and only if writing would leave every field of the stored spec as it is, lists up to order and an empty certificate like none. |
| `TenantSpecs.ApplyManagedFields` | internal/controller/tenantsource_controller.go:812-829 | The desired spec with an attached certificate kept. |
| `TenantSpecs.CertificateOrRequest` | internal/controller/tenantsource_controller.go:473-517 | No built spec has both an explicit certificate and a managed request. |
| `TenantSpecs.ComparisonIgnoresMapOrder` | internal/controller/tenantsource_controller.go:612-644 | Comparing a stored spec with one build of an item or with any other gives the same answer. |
| `TenantSpecs.BuiltListsMatch` | internal/controller/tenantsource_controller.go:777-807 | Two builds compare equal in parameters and tags if and only if the template lists in use have no conflicts. |
| `TenantSpecs.DomainOrder` | internal/controller/tenantsource_controller.go:510-516 | Permuting a duplicate-free domain list changes the built spec if and only if the primary domain is defaulted and another domain comes first. |
| `TenantSpecs.OneBuild` | internal/controller/tenantsource_controller.go:612-644 | All builds of an item are one spec if and only if its parameter and tag maps have at most one entry each. |
| `TenantSpecs.AppliedIsEqual` | internal/controller/tenantsource_controller.go:648-714 | After apply and the API server's defaults the next comparison is satisfied if and only if the built TTL is set and the template lists have no conflicts. |
| `PingPong.AtMostTwoWrites` | internal/controller/tenantsource_controller.go:697-714 | With a fixed item, template and ARN: every interleaving of syncs and attachments, from every stored spec and with maps walked in any order each time, changes the spec at most twice if and only if the built TTL is set and the template lists have no conflicts, or no map of the item can be listed in two ways. |
| `PingPong.AlternationNeverRests` | internal/controller/tenantsource_controller.go:612-644 | Otherwise the bound fails without limit: alternating two listings of the item, n syncs make at least n - 1 spec-changing writes. |
| `PingPong.TurnIsAttach` | internal/controller/distributiontenant_controller.go:660-686 | Whatever the outside answers, a reconcile of the lifecycle controller leaves the spec alone or takes exactly the attachment step. |
| `Sync.SyncIsStep` | internal/controller/tenantsource_controller.go:247-276 | A sync of an owned resource takes exactly the sync step, for some build of the item. |
| `PingPong.TensionBoundsWrites` | internal/controller/tenantsource_controller.go:812-829 | Under the same condition, writes made plus writes still possible never exceed the writes possible at the start. |
| `PingPong.AttachKeepsEquality` | internal/controller/distributiontenant_controller.go:665-686 | Attaching the issued certificate never makes the source disagree. |
| `PingPong.RestsExactly` | internal/controller/tenantsource_controller.go:648-683 | A single sync is followed by agreement, in the sense of the comparison, if and only if the built TTL is set and the lists have no conflicts. |
| `Sync.SourceReconciler.SyncTenants` | internal/controller/tenantsource_controller.go:197-245 | For every name, a real run leaves what the specification of that name says and reports exactly the failing names; a dry run changes nothing, and its pending changes are, by action and name and once each, the calls a real run from that state attempts. |
| `Sync.SourceReconciler.SyncExisting` | internal/controller/tenantsource_controller.go:247-276 | Foreign resource: error; equal spec: nothing; otherwise one update, nothing else touched. |
| `Sync.SourceReconciler.SyncNew` | internal/controller/tenantsource_controller.go:278-320 | Foreign resource of that name: error; otherwise one create under label and owner; a failed look-up still tries the create. |
| `Sync.SourceReconciler.Poll` | internal/controller/tenantsource_controller.go:99-116 | A dry run, a failed listing or an incomplete scan leaves all resources; otherwise every name ends as the specification says for the items of the complete scan; a delete is attempted only if no row of that scan declares the tenant. |
| `Sync.VanishesExactly` | internal/controller/tenantsource_controller.go:226-242 | Exactly when a poll deletes a resource: it carries this source's label and owner reference, is not already waiting for its finalizer, this is no dry run, listing and delete go through, and no row of a complete scan gives its name a non-empty domain value, as a text or as a set. |
| `Sync.SourceReconciler.ReconcileDelete` | internal/controller/tenantsource_controller.go:365-400 | Deletes every labelled resource, owned or not; the finalizer goes if and only if none is left and the write succeeds; fails only on a refused call. |
| `Sync.SourceReconciler.Reconcile` | internal/controller/tenantsource_controller.go:74-116 | No resource is written before the finalizer is in place, and it goes only from a source being deleted with no labelled resource left; a source not being deleted polls, a dry run writing nothing; one being deleted deletes its labelled resources, dry run or not. |
| `Sync.WantedIsSynced` | internal/controller/tenantsource_controller.go:247-320 | After a sync in which nothing failed for an item, its resource is labelled and owned, and agrees with the item, so that the next sync leaves it alone, if and only if the built TTL is set and the template lists have no conflicts. |
| `Sync.SecondSyncWritesNothing` | internal/controller/tenantsource_controller.go:197-245 | After a sync without failures the next one creates and updates nothing if and only if this holds for every item. |
| `Sync.OthersAreSafe` | internal/controller/tenantsource_controller.go:226-242 | Resources without this source's owner reference stay as they are; owned, labelled resources whose item vanished are gone or being deleted. |
| `Sync.WritesOnlySpecs` | internal/controller/tenantsource_controller.go:278-320 | A created resource is new, under the item's name with this source's label and owner; an updated one changes its spec and generation only. |
| `Sync.FailsExactly` | internal/controller/tenantsource_controller.go:247-320 | A name fails if and only if a resource not both labelled and owned is in the way of an item, or something is to be written or deleted and refused. |
| `Sync.LastItemCounts` | internal/controller/tenantsource_controller.go:206-209 | Of several items with one name the last counts. |
| `Sync.OutcomeIgnoresOrder` | internal/controller/tenantsource_controller.go:612-644 | Two syncs of the same state leave the same resource up to the order of parameters and tags; its generation too is the same where the built TTL is set and the template lists have no conflicts. |
| `Sync.CollectWanted` | internal/controller/tenantsource_controller.go:206-209 | Of several items with one name the last counts. |
| `Scan.ScanTenants` | internal/aws/dynamodb.go:104-137 | A scan succeeds if and only if it reaches a last page without an error, and then yields the mappable rows of all pages in order, for any page split. |
| `Scan.ItemsAreRows` | internal/aws/dynamodb.go:141-156 | An item of a name exists if and only if a mappable row of that name does. |
| `Scan.RowReadsBack` | internal/aws/dynamodb.go:141-303 | Under distinct attribute names the row written for an item reads back as that item if and only if none of its values is empty: every attribute reaches its own field. |
| `Scan.MappableExactly` | internal/aws/dynamodb.go:141-156 | A row names a tenant if and only if its name cell is a non-empty text and its domains cell a non-empty text or set. |
| `Scan.DomainSpellings` | internal/aws/dynamodb.go:217-235 | A single domain as a text and as a one-element set give the same item. |
| `Scan.FlagSpellings` | internal/aws/dynamodb.go:248-260 | The enabled flag as a text, in any case, and as a truth value give the same item; any text but true is false. |
| `Scan.OtherTypesAreAbsent` | internal/aws/dynamodb.go:206-303 | A cell of a type its field does not take, or an empty one, reads as absent. |
| `Scan.OtherEntriesAreIgnored` | internal/aws/dynamodb.go:287-303 | Entries of a map that are no texts are ignored. |

## Left out

- Convergence.Converges: how long Route53 keeps a change pending is not bounded, so reconciles that poll
  a pending change are not counted.
- NoLeak.NothingLost: assumes that CloudFront does not answer "not found" for a tenant that exists, and
  that a call answered with an error changed nothing: a create that AWS applied but whose answer was lost
  is not modelled, and would leave its tenant unrecorded like a lost status write.
- Records.NothingForgotten: likewise takes an upsert answered with an error to have published nothing.
- Conversions.ToRequest: does not carry the name, the tags and the managed certificate request; AWS does
  not return the latter two and the comparison excludes all three.
- Conversions.ToTenantOutput: does not carry id, ARN, name and timestamps, which nothing compares; the id
  is the key of the tenant map.
- Scan.ScanTenants: answers are a finite list; a table that never stops paging is a list without a
  last page, for which the scan yields an error here and does not end in the code.
- Dns.Client.DeleteRecords: which refusal Route53 words as "not found" when some records are missing and
  others differ is taken from the client's classification by message text; Route53 itself is not here.
- Sync.SourceReconciler.Poll: does not model the sync status, its counters and condition, nor the
  back-end look-up and the conditions written after a failed scan.
- Condition messages, events, logs, metrics, timestamps and requeue durations; a condition keeps
  status, reason and generation, a message only whether it repeats the recorded one.
- Pre-flight validation: an accept-or-reject answer of the environment, with the status write it makes.
- Tenant ids, ETags and change ids are drawn from counters; the in-memory client derives an ETag from
  the clock, which the model takes to be fresh.
- The in-memory client hands out pointers to the tenants it stores, so a read there can change under
  the caller; here a read is a value, as over the network.
- A user edit during a reconcile: it makes the API server refuse the reconcile's write, so it appears as
  a refused write followed by an edit.
- Case folding outside ASCII in certificate names, and number parsing in table rows: a number attribute
  holds an integer or none.
- Running without a DNS client factory or without an ACM client; the latter is the environment that
  skips the certificate check. A resource with `spec.dns` but no hosted zone makes the creating code
  dereference nil; the recovered panic is modelled as a failed reconcile.
- Finalizers and owners other than the operator's, garbage collection, stale caches, admission rules
  beyond the two defaults, and owner references across namespaces.
- SDK calls, role assumption, client caching, error code tables, other table back ends: their results
  and failures are inputs of the model.
