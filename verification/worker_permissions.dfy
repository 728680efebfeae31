/** Authorisation of SSH from the bastion on the worker security group:
    add-only, checked against the group found by name and granted on the
    configured worker group identifier. */
module WorkerAccess {
  import opened Base
  import opened BastionTypes
  import opened Permissions
  import opened Cloud
  import opened SecurityGroups

  /** Calls the worker step may issue. */
  predicate WorkerCall(c: Call)
  {
    c.DescribeSecurityGroups? || c.AuthorizeIngress?
  }

  /** Authorises the worker rule when the worker group lacks it; never
      creates a group and never revokes anything. */
  function EnsureWorkerPermissions(w: World, f: Faults, opt: Options): (r: Effect<()>)
    ensures Extends(w, r.world)
    ensures forall c :: c in r.world.trace[|w.trace|..] ==> WorkerCall(c)
    ensures Grows(w.state, r.world.state) && r.world.state.reservations == w.state.reservations
    ensures Fails(f, w) ==>
              r.result == Failure(FetchWorkerSecurityGroupFailed)
              && r.world == Record(w, DescribeSecurityGroups(opt.vpcId, opt.workerSecurityGroupName))
    ensures !Fails(f, w) && (Lags(f, w) || FindGroup(w.state.groups, opt.vpcId, opt.workerSecurityGroupName).None?) ==>
              r.result == Failure(WorkerSecurityGroupNotFound)
              && r.world == Record(w, DescribeSecurityGroups(opt.vpcId, opt.workerSecurityGroupName))
    ensures !Fails(f, w) && !Lags(f, w) && FindGroup(w.state.groups, opt.vpcId, opt.workerSecurityGroupName).Some? ==>
              var g := FindGroup(w.state.groups, opt.vpcId, opt.workerSecurityGroupName).value;
              && r.world.trace == w.trace + [DescribeSecurityGroups(opt.vpcId, opt.workerSecurityGroupName)]
                                  + (if HasPermission(g.ingress, WorkerPermission(opt)) then []
                                     else [AuthorizeIngress(opt.workerSecurityGroupId, [WorkerPermission(opt)])])
              // the step succeeds unless the backend rejects the authorisation, which is then the step's error
              && (r.result.Success? <==>
                    || HasPermission(g.ingress, WorkerPermission(opt))
                    || (|w.trace| + 1 !in f.failing && HasGroupId(w.state.groups, opt.workerSecurityGroupId)))
              && (r.result.Failure? ==> r.result.error == AuthorizeWorkerIngressFailed && r.world.state == w.state)
  {
    var Effect(w1, found) := GetSecurityGroup(w, f, opt.vpcId, opt.workerSecurityGroupName);
    if found.Failure? then Effect(w1, Failure(FetchWorkerSecurityGroupFailed))
    else if found.value.None? then Effect(w1, Failure(WorkerSecurityGroupNotFound))
    else
      var permission := WorkerPermission(opt);
      if HasPermission(found.value.value.ingress, permission) then Effect(w1, Success(()))
      else
        var (w2, granted) := AuthorizeGroupIngress(w1, f, opt.workerSecurityGroupId, [permission]);
        if granted.Failure? then Effect(w2, Failure(AuthorizeWorkerIngressFailed))
        else Effect(w2, Success(()))
  }

  /** The worker group found by name is the one the configured identifier
      names. */
  predicate WorkerGroupConsistent(s: State, opt: Options)
  {
    var found := FindGroup(s.groups, opt.vpcId, opt.workerSecurityGroupName);
    found.Some? && found.value.id == opt.workerSecurityGroupId
  }

  /** The worker group found by name holds the worker rule. */
  predicate WorkerAuthorized(s: State, opt: Options)
  {
    var found := FindGroup(s.groups, opt.vpcId, opt.workerSecurityGroupName);
    found.Some? && HasPermission(found.value.ingress, WorkerPermission(opt))
  }

  /** Under no faults, with the worker group found by name carrying the
      configured identifier, the step succeeds and leaves the rule in place. */
  lemma WorkerPermissionsGranted(w: World, opt: Options)
    requires WorkerGroupConsistent(w.state, opt)
    ensures var r := EnsureWorkerPermissions(w, NoFaults, opt);
            && r.result.Success?
            && WorkerAuthorized(r.world.state, opt)
            && WorkerGroupConsistent(r.world.state, opt)
            && r.world.state.reservations == w.state.reservations
  {
    var g := FindGroup(w.state.groups, opt.vpcId, opt.workerSecurityGroupName).value;
    var permission := WorkerPermission(opt);
    if !HasPermission(g.ingress, permission) {
      var w1 := Record(w, DescribeSecurityGroups(opt.vpcId, opt.workerSecurityGroupName));
      ChangeRulesOnFound(w1, AuthorizeIngress(g.id, [permission]), AddIngress([permission]),
                         opt.vpcId, opt.workerSecurityGroupName, g);
      AppendedIsPresent(g.ingress, permission);
    }
  }

  /** Once the worker group holds the rule, the step issues the lookup and
      nothing else. */
  lemma WorkerPermissionsFixedPoint(w: World, opt: Options)
    requires WorkerAuthorized(w.state, opt)
    ensures var r := EnsureWorkerPermissions(w, NoFaults, opt);
            r.result.Success? && r.world == Record(w, DescribeSecurityGroups(opt.vpcId, opt.workerSecurityGroupName))
  {
  }

  /** When the group found by name is not the one the configured identifier
      names, the rule lands on the other group, the membership test keeps
      failing, and every later pass authorises it again. */
  lemma WorkerMismatchNeverSettles(w: World, opt: Options)
    requires FindGroup(w.state.groups, opt.vpcId, opt.workerSecurityGroupName).Some?
    requires !HasPermission(FindGroup(w.state.groups, opt.vpcId, opt.workerSecurityGroupName).value.ingress, WorkerPermission(opt))
    requires forall g :: g in w.state.groups && g.vpc == opt.vpcId && g.name == opt.workerSecurityGroupName ==>
                         g.id != opt.workerSecurityGroupId
    ensures var r := EnsureWorkerPermissions(w, NoFaults, opt);
            && r.world.trace == w.trace + [DescribeSecurityGroups(opt.vpcId, opt.workerSecurityGroupName),
                                           AuthorizeIngress(opt.workerSecurityGroupId, [WorkerPermission(opt)])]
            && FindGroup(r.world.state.groups, opt.vpcId, opt.workerSecurityGroupName)
               == FindGroup(w.state.groups, opt.vpcId, opt.workerSecurityGroupName)
  {
    var r := EnsureWorkerPermissions(w, NoFaults, opt);
    var w1 := Record(w, DescribeSecurityGroups(opt.vpcId, opt.workerSecurityGroupName));
    if HasGroupId(w.state.groups, opt.workerSecurityGroupId) {
      FindGroupAfterUpdate(w1.state.groups, opt.workerSecurityGroupId, AddIngress([WorkerPermission(opt)]),
                           opt.vpcId, opt.workerSecurityGroupName);
    }
  }

  /** The step's only possible change: the worker rule added to the group
      the configured identifier names. */
  lemma WorkerStepChange(w: World, f: Faults, opt: Options)
    ensures var r := EnsureWorkerPermissions(w, f, opt);
            || r.world.state == w.state
            || r.world.state == w.state.(groups := UpdateGroups(w.state.groups, opt.workerSecurityGroupId,
                                                               AddIngress([WorkerPermission(opt)])))
  {
  }
}
