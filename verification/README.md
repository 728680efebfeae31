# Bastion provisioning on AWS, modelled in Dafny

This project models the core of the AWS provider's bastion controller in
Gardener. One reconcile pass brings a `Bastion` resource to life in three
steps:

1. It ensures a dedicated security group. The group lets SSH in from the
   CIDRs the Bastion declares and lets SSH out only to the worker security
   group.
2. It ensures a single running EC2 instance named after the bastion.
3. It authorises SSH from the bastion group on the worker security group.

When both of the instance's endpoints are available, the pass publishes the
public endpoint in the Bastion's status. Until then it asks to be requeued
after five seconds.

The project also models the machine-image lookup of the worker controller.
An AMI is taken from the cloud profile first. If the profile does not have
it, the AMI is taken from the image list recorded in the worker's provider
status. The append-if-absent update of that list is modelled as well.

EC2 is modelled as an immutable `State`: security groups in creation order,
instance reservations, the next group identifier, the egress rules EC2
gives a new group (normally allow-all), and the addresses a launched
instance shows. Every step is a pure
function from a `World` to a new `World` and a result. A `World` is the state
plus the trace of API calls issued so far.

Faults are a parameter. `Faults(failing, lagging)` names, by call number
(the length of the trace when the call is issued):

- the calls that fail;
- the lookups that answer "nothing found", which models one form of EC2's
  eventual consistency.

With this, the error paths of the source can be reached and stated, including
its nil dereferences. The convergence lemmas are stated for the fault-free
case `NoFaults`.

Files, one module each:

- `base.dfy` (`Base`): `Option` and `Result`.
- `cidr.dfy` (`Cidr`): addresses as bytes, the host-bit masking that
  normalises a CIDR, the way Go writes an IPv4-mapped network back as IPv4,
  and the IPv4/IPv6 classification.
- `types.dfy` (`BastionTypes`): the controller's options, the Bastion
  resource and the step errors.
- `permissions.dfy` (`Permissions`): IP permissions, rule equality, the
  canonical ingress, egress and worker rules, and the egress rules to revoke.
- `cloud.dfy` (`Cloud`): the EC2 state, the calls, the trace and the faults.
- `security_group.dfy` (`SecurityGroups`): `getSecurityGroup` and
  `ensureSecurityGroup`.
- `instance.dfy` (`Instances`): instance lookup, endpoints, readiness and
  `ensureBastionInstance`.
- `worker_permissions.dfy` (`WorkerAccess`): `ensureWorkerPermissions`.
- `reconcile.dfy` (`Reconciler`): the reconcile pass and its convergence
  lemmas.
- `machine_images.dfy` (`MachineImages`): `findMachineImage` and
  `appendMachineImage`.

Helpers that live in source files outside this model are given concrete
definitions here:

- `ipPermissionsEqual` is `SamePermission`: equal protocol and ports, and the
  same sets of IPv4 blocks, IPv6 blocks and referenced groups. An absent range
  list counts as empty.
- `securityGroupHasPermissions` is `HasPermission`: some rule of the list is
  equal.
- `workerSecurityGroupPermission` is `WorkerPermission`: TCP port 22 from the
  bastion security group.
- `SSHPort` is 22.
- The instance states shutting-down and terminated are the EC2 state codes
  32 and 48.

`net.ParseCIDR` and `base64.StdEncoding` are function parameters. The
machine-image helpers `FindAMIForRegionFromCloudProfile`, `FindMachineImage`
and the provider-status decoder are function parameters too.

## Model

| member | source | states |
|---|---|---|
| Cidr.Network | pkg/controller/bastion/actuator_reconcile.go:202-207 | the normalised CIDR keeps the prefix length and exactly the address bits inside the prefix; all host bits are zero |
| Cidr.NetworkIdempotent | pkg/controller/bastion/actuator_reconcile.go:202-207 | normalising an already normalised CIDR changes nothing |
| Cidr.SameNetworkIffPrefixAgrees | pkg/controller/bastion/actuator_reconcile.go:202-207 | two addresses with the same prefix length normalise to the same CIDR if and only if they agree on every bit inside the prefix |
| Cidr.NetworkText | pkg/controller/bastion/actuator_reconcile.go:202-207 | an IPv4-mapped IPv6 block with a prefix of at least 96 bits is written as a 4-byte network with 96 fewer prefix bits, keeping exactly the address bits inside the prefix; every other block is written as its normalised form |
| Cidr.MappedSpellingMatchesV4 | pkg/controller/bastion/actuator_reconcile.go:202-207 | an IPv4 block and its IPv4-mapped IPv6 spelling with 96 more prefix bits are written as the same network |
| Cidr.Classify | pkg/controller/bastion/actuator_reconcile.go:209-225 | a block is IPv4 exactly when the address as written has a 4-byte form, and otherwise IPv6; its range is the normalised CIDR as text writes it |
| Permissions.SamePermissionIsEquivalence | pkg/controller/bastion/actuator_reconcile.go:162 | rule equality is reflexive, symmetric and transitive |
| Permissions.SamePermissionIgnoresOrder | pkg/controller/bastion/actuator_reconcile.go:162 | rules with the same protocol and ports whose range and group lists hold the same elements, in any order and any number of times, are equal |
| Permissions.SamePermissionIgnoresRepeats | pkg/controller/bastion/actuator_reconcile.go:162 | repeating one of a rule's IPv4 blocks gives an equal rule |
| Permissions.ParseIngress | pkg/controller/bastion/actuator_reconcile.go:194-200 | parsing succeeds if and only if every declared CIDR parses; it yields one classified block per CIDR in order; otherwise the error names the first malformed CIDR |
| Permissions.IngressPermission | pkg/controller/bastion/actuator_reconcile.go:184-229 | the ingress rule exists if and only if every CIDR parses; it is TCP from port 22 to port 22 with no group pairs; each range list is absent rather than empty; a malformed CIDR gives no rule and names the first bad CIDR |
| Permissions.IngressRangesExact | pkg/controller/bastion/actuator_reconcile.go:194-226 | each declared CIDR gives exactly one range, in the list of its family, at the position set by the same-family CIDRs declared before it; the range holds the normalised CIDR; the two lists together hold one range per CIDR |
| Permissions.IngressNormalisesExample | pkg/controller/bastion/actuator_reconcile.go:202-216 | "10.1.2.3/8" yields a rule whose only IPv4 range is 10.0.0.0/8 and whose IPv6 list is absent |
| Permissions.MappedIngressMatchesV4 | pkg/controller/bastion/actuator_reconcile.go:194-226 | declaring an IPv4 CIDR in its IPv4-mapped IPv6 spelling gives the same ingress rule as declaring it plainly |
| Permissions.EgressPermission | pkg/controller/bastion/actuator_reconcile.go:83-92 | the egress rule is TCP from port 22 to port 22, targets only the worker security group and has no address ranges |
| Permissions.ExtraEgress | pkg/controller/bastion/actuator_reconcile.go:160-165 | the rules to revoke are exactly the observed egress rules not equal to the canonical rule, in observed order, each kept as many times as it was observed; the list is empty if and only if every observed rule equals the canonical one |
| Cloud.FindGroup | pkg/controller/bastion/actuator_reconcile.go:429-433 | a lookup yields a group of the asked VPC and name from the state, or nothing if and only if no such group exists |
| Cloud.CreateGroup | pkg/controller/bastion/actuator_reconcile.go:101-123 | creating a group records one create call and fails exactly when that call fails, changing nothing; on success the new group, carrying the backend's default egress, is appended and its id returned; when every id was below the next id, the new id is fresh and every id is still below the next one |
| Cloud.ChangeRules | pkg/controller/bastion/actuator_reconcile.go:130-177 | a rule call records one call; it fails exactly when the call fails or the group id is unknown, and then changes nothing; on success exactly the groups with that id are changed |
| Cloud.ChangeRulesOnFound | pkg/controller/bastion/actuator_reconcile.go:133-176 | with no faults, a rule call on the group a lookup finds succeeds; the lookup then finds that group with the change applied; instances are untouched |
| Cloud.FindGroupGrows | pkg/controller/bastion/actuator_reconcile.go:411-434 | once a lookup finds a group, it keeps finding one with the same identifier and at least its ingress rules as the state grows |
| Cloud.Run | pkg/controller/bastion/actuator_reconcile.go:298-301 | launching records one run call and fails exactly when that call fails, changing nothing; on success exactly one reservation is added, holding one pending instance tagged with the name and showing the backend's launch addresses; groups are untouched |
| SecurityGroups.GetSecurityGroup | pkg/controller/bastion/actuator_reconcile.go:411-434 | the lookup records one describe call; it fails exactly when that call fails, with the list-groups error; otherwise it answers with the first matching group, or nothing while EC2 lags |
| SecurityGroups.EnsureSecurityGroup | pkg/controller/bastion/actuator_reconcile.go:71-180 | the step only extends the trace; a failed lookup or an invalid ingress list ends the step after the one lookup call, with the matching error; any later error belongs to the last call issued, so nothing follows a failed call; success implies valid ingress; groups only grow, no ingress rule is revoked and instances are untouched |
| SecurityGroups.CreateOrAdopt | pkg/controller/bastion/actuator_reconcile.go:101-128 | a failed create happens exactly when no group was found and the create call fails; it ends the step after that call and changes nothing; nothing follows a failed call |
| SecurityGroups.AuthorizeMissing | pkg/controller/bastion/actuator_reconcile.go:130-152 | a failed ingress authorisation happens exactly when the rule is missing and the call fails or the group id is unknown, and it is the last call; a failed egress authorisation happens exactly when the ingress step got through, the egress rule is missing and its call fails; the error names the failed call |
| SecurityGroups.AuthorizeEgressThenPrune | pkg/controller/bastion/actuator_reconcile.go:142-177 | the egress authorisation fails exactly when the rule is missing and the call fails or the id is unknown; it then is the last call; it never reports an ingress error |
| SecurityGroups.PruneEgress | pkg/controller/bastion/actuator_reconcile.go:154-177 | a failed re-read ends the step with the list error; a re-read that finds nothing, also while EC2 lags, is the nil dereference with no revoke; otherwise the rules to revoke come from the re-read group |
| SecurityGroups.RevokeExtra | pkg/controller/bastion/actuator_reconcile.go:167-177 | a revoke call is issued exactly when there are rules to revoke; it fails exactly when issued and the call fails or the id is unknown, and then changes nothing; on success the rules are dropped from the group and its id is returned |
| SecurityGroups.AuthorizeUnless | pkg/controller/bastion/actuator_reconcile.go:130-152 | a rule call is issued exactly when the rule is not present; a present rule leaves the world unchanged |
| SecurityGroups.PruneEgressExact | pkg/controller/bastion/actuator_reconcile.go:154-179 | with no faults, the step re-reads the group and then revokes, in one call, exactly the egress rules that differ from the canonical one; the call is made only when that list is non-empty; afterwards the group holds only the remaining rules and the group id is returned |
| SecurityGroups.PruneLeavesCanonical | pkg/controller/bastion/actuator_reconcile.go:160-177 | after the revocation the canonical egress rule is still present and every remaining egress rule equals it |
| SecurityGroups.AuthorizeMissingConverges | pkg/controller/bastion/actuator_reconcile.go:124-179 | on an existing group with no faults, the step issues, in this order: the missing authorisations, the re-read and the revoke; it ends with both canonical rules present and no other egress rule; the group's id is returned |
| SecurityGroups.EnsureSecurityGroupConverges | pkg/controller/bastion/actuator_reconcile.go:71-180 | with no faults and valid ingress the step succeeds from any state; the group is left with both canonical rules and only canonical egress; the step returns the id of the group the lookup finds |
| SecurityGroups.EnsureSecurityGroupCreates | pkg/controller/bastion/actuator_reconcile.go:101-177 | when the group is absent the calls are exactly: describe, one create, authorise ingress, authorise egress, describe, and a revoke of exactly the new group's default egress rules that differ from the canonical one, issued only when there are any; all are on the new id |
| SecurityGroups.CreatedGroupLosesAllowAll | pkg/controller/bastion/actuator_reconcile.go:154-177 | when EC2 gives a new group the allow-all egress rule, the sixth call of the step revokes exactly that rule on the new id |
| SecurityGroups.NewGroupNotYetVisible | pkg/controller/bastion/actuator_reconcile.go:154-158 | when the re-read after creating a group lags, the step fails with the nil dereference after five calls and revokes nothing |
| SecurityGroups.EnsureSecurityGroupAdopts | pkg/controller/bastion/actuator_reconcile.go:124-177 | an existing group is never recreated; only missing rules are authorised; the revoke carries exactly the other egress rules in observed order |
| SecurityGroups.EnsureSecurityGroupFixedPoint | pkg/controller/bastion/actuator_reconcile.go:124-179 | a converged group is a fixed point: the step issues the two lookups only and changes nothing |
| SecurityGroups.AddIngressKeepsConverged | pkg/controller/bastion/actuator_reconcile.go:375-381 | adding ingress rules to any group, the worker group included, keeps the bastion group converged under the same id |
| Instances.FirstLive | pkg/controller/bastion/actuator_reconcile.go:396-408 | yields the first instance that is neither shutting down nor terminated, or nothing if and only if every instance is in one of those states |
| Instances.FirstMatchingIsFirstLive | pkg/controller/bastion/actuator_reconcile.go:390-409 | the nested scan over reservations and instances finds the same instance as a scan of the flattened list |
| Instances.LookupFindsLiveInstance | pkg/controller/bastion/actuator_reconcile.go:314-320 | scanning the reservations filtered by Name tag finds the first live instance carrying that tag |
| Instances.AddressToIngress | pkg/controller/bastion/actuator_reconcile.go:344-360 | the ingress is absent if and only if both the DNS name and the IP are absent; otherwise it copies whichever is present and leaves the other empty |
| Instances.EndpointsOf | pkg/controller/bastion/actuator_reconcile.go:240-249 | each endpoint is absent exactly when both its addresses are absent; the endpoints are ready if and only if both the private and the public side have a non-empty DNS name or IP |
| Instances.GetInstanceEndpoints | pkg/controller/bastion/actuator_reconcile.go:314-339 | the lookup records one describe call and fails exactly when that call fails; a lagging lookup finds nothing; otherwise it gives the endpoints of the first live instance tagged with the name |
| Instances.EnsureBastionInstance | pkg/controller/bastion/actuator_reconcile.go:251-308 | the calls are one lookup, optionally followed by one launch and, after a successful launch, one more lookup; a launch happens if and only if the first lookup succeeded and showed no live instance; a live instance is reused with no further call; a failed lookup gives the check-instance error; a failed launch gives the run-instance error exactly when it is the last call, and changes nothing; after a launch the answer is whatever the second lookup shows of the launched state; groups are untouched |
| Instances.LaunchRequestShape | pkg/controller/bastion/actuator_reconcile.go:264-294 | every launch asks for exactly one instance named after the bastion, in the bastion security group, with a public IPv4 address, and with one IPv6 address exactly when IPv6 is enabled |
| Instances.FreshInstanceEndpoints | pkg/controller/bastion/actuator_reconcile.go:251-307 | with no live instance and no faults the calls are lookup, launch, lookup; the step returns the endpoints of the launched instance, ready or not, and that instance is then the live one |
| Instances.LaunchedIsLive | pkg/controller/bastion/actuator_reconcile.go:314-320 | in a backend with no live instance carrying the tag, the launched instance is the first live one with that tag |
| Instances.FreshInstanceNotReady | pkg/controller/bastion/actuator_reconcile.go:298-307 | when the launched instance shows no public address yet, the step reports endpoints that are not ready |
| Instances.EnsureBastionInstanceConverges | pkg/controller/bastion/actuator_reconcile.go:251-308 | with no faults the step always ends with a live instance and returns that instance's endpoints |
| WorkerAccess.EnsureWorkerPermissions | pkg/controller/bastion/actuator_reconcile.go:364-385 | the step issues only lookups and ingress authorisations and never revokes; a failed lookup or a missing worker group ends the step after the lookup, with its own error; an authorisation is issued only when the group lacks an equal rule, and only on the configured worker group id; the step succeeds exactly when the rule is present or that call succeeds on a known id, and a failed call changes nothing |
| WorkerAccess.WorkerPermissionsGranted | pkg/controller/bastion/actuator_reconcile.go:373-381 | with no faults, and with the worker group found by name carrying the configured id, the step succeeds and leaves the rule in place |
| WorkerAccess.WorkerPermissionsFixedPoint | pkg/controller/bastion/actuator_reconcile.go:375 | once the worker group holds the rule, the step issues the lookup only |
| WorkerAccess.WorkerMismatchNeverSettles | pkg/controller/bastion/actuator_reconcile.go:365-381 | when the group found by name has a different id from the configured one, the rule lands elsewhere; the group found by name is unchanged, so every pass authorises again |
| Reconciler.Reconcile | pkg/controller/bastion/actuator_reconcile.go:40-68 | the steps run in order, each on the world the previous one left; a failed step ends the pass with that step's error and world, so no later step runs; the instance step gets the group id the first step returned; after the worker step, the pass publishes exactly when the instance step's endpoints are ready, and then writes that instance's public endpoint to the status; a pass never deletes groups, ingress rules or instances and keeps the spec; a requeue is after 5 seconds |
| Reconciler.AfterSecurityGroup | pkg/controller/bastion/actuator_reconcile.go:45-68 | the instance step fails the pass exactly when it fails, with its error and world; otherwise the worker step runs next, its failure fails the pass, and on success the pass publishes exactly when the instance step's endpoints are ready, writing that instance's public endpoint to the status, and otherwise requeues with the Bastion untouched |
| Reconciler.Publish | pkg/controller/bastion/actuator_reconcile.go:54-68 | the status is published if and only if both endpoints are ready, and then it holds the public endpoint; otherwise the Bastion is untouched and the pass requeues after 5 seconds |
| Reconciler.ReconcileStopsEarly | pkg/controller/bastion/actuator_reconcile.go:40-43 | a failed first lookup or an invalid ingress list ends the pass after one call, with that error and the Bastion untouched; no failure of the security group step ever launches an instance |
| Reconciler.FirstPassSettles | pkg/controller/bastion/actuator_reconcile.go:40-68 | with no faults, valid ingress and a consistent worker group, a pass does not fail; it leaves the bastion group converged, the worker rule in place and a live instance; its verdict depends only on that instance's readiness |
| Reconciler.SettledStepsAreLookups | pkg/controller/bastion/actuator_reconcile.go:45-52 | on a settled cloud the instance and worker steps issue one lookup each and change nothing |
| Reconciler.SettledPassIsQuiet | pkg/controller/bastion/actuator_reconcile.go:40-68 | on a settled cloud a whole pass issues four lookups, changes no state and publishes from the live instance |
| Reconciler.PublishIdempotent | pkg/controller/bastion/actuator_reconcile.go:64-67 | publishing the same endpoints twice gives the same Bastion and verdict |
| Reconciler.SecondPassQuiet | pkg/controller/bastion/actuator_reconcile.go:29-69 | reconciliation settles: after a fault-free pass, a second fault-free pass issues only the four lookups, changes no state and reaches the same verdict and Bastion |
| Reconciler.FreshBastionRequeues | pkg/controller/bastion/actuator_reconcile.go:45-62 | a pass that has to launch the instance publishes from the launched instance's endpoints; it requeues after 5 seconds if and only if they are not ready; the launched instance is live for the next pass |
| Reconciler.FreshBastionWaits | pkg/controller/bastion/actuator_reconcile.go:54-62 | when the launched instance shows no public address yet, that pass requeues after 5 seconds and leaves the Bastion untouched |
| MachineImages.NotFound | pkg/controller/worker/machine_images.go:55-61 | the not-found error carries name, version, architecture and region; with no architecture it is the nil dereference |
| MachineImages.FindMachineImage | pkg/controller/worker/machine_images.go:40-62 | an AMI is found if and only if the cloud profile has it or the decoded status lists it; the profile wins; an undecodable status gives the decode error; every other miss is not-found |
| MachineImages.StatusAmiIsRecorded | pkg/controller/worker/machine_images.go:47-58 | when the profile misses, a returned AMI belongs to an image recorded in the status under the asked name and version |
| MachineImages.ProfileIgnoresStatus | pkg/controller/worker/machine_images.go:41-44 | whenever the profile has the image, the provider status, the decoder and the list lookup make no difference |
| MachineImages.AppendMachineImage | pkg/controller/worker/machine_images.go:64-69 | a list that already has the image comes back unchanged; otherwise the image is appended at the end, the length grows by one and earlier entries keep their positions |
| MachineImages.AppendIdempotent | pkg/controller/worker/machine_images.go:64-69 | with a lookup that finds listed images, appending an image with an architecture a second time changes nothing |
| MachineImages.AppendKeepsKeysDistinct | pkg/controller/worker/machine_images.go:64-69 | under the same conditions, appending keeps the list free of two images sharing name, version and architecture |

## Left out

- Creating the AWS client (`getAWSClient`) and computing the options
  (`DetermineOptions`) are left out. `Options` is an input record.
- `util.DetermineError` error classification is left out; errors are tagged
  values.
- The status patch is left out. Its call to `Status().Patch` and that call's
  own error are not modelled: a Published verdict means the status was set.
- Logging, the Kubernetes client and the group description text are not
  modelled.
- `net.ParseCIDR`'s text grammar is a `Parser` parameter. Only the parsed
  address bytes, the prefix length and the host-bit masking are modelled.
- `base64.StdEncoding` of the user data is a parameter. It is used only in
  the launch request.
- EC2's rejection of duplicate rules, duplicate group names or malformed
  requests is not modelled. A rule call on an unknown group id fails, and
  that failure is the only one the model adds of its own.
- Lines 155-161 re-read the group after authorising. If the re-read finds
  nothing, Go dereferences a nil pointer and panics. This is modelled as the
  error `NilSecurityGroupDereference`.
- Lines 55 and 61 of the machine-image file dereference `*arch`. With no
  architecture this panics. It is modelled as the error
  `NilArchitectureDereference`.
- The error after a failed egress authorisation (lines 149-150) says
  "failed to revoke egress". The model names it `AuthorizeEgressFailed`,
  after the call that failed.
- `UpdateMachineImagesStatus` is left out: it is decode and status-write
  plumbing.
- Lagging lookups model only "not found yet". A lookup that answers with a
  stale copy of a group or instance is not modelled.
- Cloud.CreateGroup states that a new id is fresh when every id is below the
  next one. This invariant is not carried through a whole pass.
- The addresses a launched instance shows do not change over time. The move
  from pending to running, and addresses that appear later, are not modelled.
- EC2 merges the rules of a group that share protocol and ports into one
  `IpPermission` when it describes the group. The backend here keeps every
  authorised rule as its own entry, and the presence tests at lines 126 and
  375 run on that unmerged view. So Reconciler.SecondPassQuiet,
  Reconciler.FirstPassSettles and SecurityGroups.EnsureSecurityGroupFixedPoint
  hold for this backend only. On EC2, a bastion group that already holds
  another TCP port 22 ingress rule never shows the canonical rule as equal,
  and every pass authorises again.
- Concurrency between passes is left out. The five-second delay is recorded
  only as the requeue verdict's value.
- MachineImages.AppendIdempotent and MachineImages.AppendKeepsKeysDistinct
  hold only for images with an architecture, and only when the list lookup
  finds every listed image by its own name, version and architecture. The
  lookup helper is not part of this model, so whether it does so for an
  image without an architecture cannot be stated here.
