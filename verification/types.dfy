/** The records the reconciler reads and writes: the resolved options, the
    Bastion resource's spec and status, the endpoint record it publishes, and
    the errors it can end a pass with. */
module BastionTypes {
  import opened Base

  /** Security-group identifiers ("sg-…" in EC2) are modelled as numbers. */
  type GroupId = nat

  /** The resolved per-pass options (`Options` in the bastion package). */
  datatype Options = Options(
    vpcId: string,
    subnetId: string,
    imageId: string,
    instanceType: string,
    instanceName: string,
    bastionSecurityGroupName: string,
    bastionSecurityGroupId: GroupId,
    workerSecurityGroupName: string,
    workerSecurityGroupId: GroupId,
    ipv6: bool)

  /** A `corev1.LoadBalancerIngress`: a hostname and an IP, either possibly empty. */
  datatype LbIngress = LbIngress(hostname: string, ip: string)

  /** The parts of the Bastion spec the reconciler reads: the declared ingress
      CIDRs, in declaration order, and the instance user data. */
  datatype BastionSpec = BastionSpec(ingressCidrs: seq<string>, userData: seq<bv8>)

  datatype BastionStatus = BastionStatus(ingress: Option<LbIngress>)

  datatype Bastion = Bastion(spec: BastionSpec, status: BastionStatus)

  /** Every way a reconcile step can fail, one constructor per message. */
  datatype Error =
    | ListSecurityGroupsFailed        // "failed to list security groups"
    | InvalidIngressCidr(cidr: string) // "invalid ingress rules configured for bastion"
    | CreateSecurityGroupFailed       // "could not create security group"
    | AuthorizeIngressFailed          // "failed to authorize ingress"
    | AuthorizeEgressFailed           // the egress authorisation; its message says "failed to revoke egress"
    | NilSecurityGroupDereference     // the re-read group is absent: the Go code dereferences nil here
    | RevokeEgressFailed              // "failed to revoke egress"
    | CheckInstanceFailed             // "failed to check for EC2 instance"
    | ListInstancesFailed             // "failed to list instances"
    | RunInstanceFailed               // "failed to run instance"
    | FetchWorkerSecurityGroupFailed  // "failed to fetch worker security group"
    | WorkerSecurityGroupNotFound     // "cannot find security group for workers"
    | AuthorizeWorkerIngressFailed    // the EC2 error of the worker authorisation, returned as is
}
