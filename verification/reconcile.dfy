/** One reconcile pass of the bastion actuator: security group, instance and
    worker authorisation in that order, then either a requeue while the
    endpoints are not ready or the public endpoint written to the status. */
module Reconciler {
  import opened Base
  import opened BastionTypes
  import opened Permissions
  import opened Cloud
  import opened SecurityGroups
  import opened Instances
  import opened WorkerAccess

  datatype ReconcileStep = SecurityGroupStep | InstanceStep | WorkerPermissionsStep

  /** How a pass ends: the status was written, a retry was asked for after a
      delay, or a step failed. */
  datatype Verdict =
    | Published
    | RequeueAfter(seconds: nat)
    | Failed(step: ReconcileStep, cause: Error)

  datatype Pass = Pass(world: World, bastion: Bastion, verdict: Verdict)

  /** The retry delay while the endpoints are not ready. */
  const RequeueDelaySeconds: nat := 5

  function Reconcile(w: World, f: Faults, parse: Parser, encode: seq<bv8> -> string, bastion: Bastion, opt: Options)
    : (r: Pass)
    ensures Extends(w, r.world)
    // no group, rule of ingress or instance is ever deleted
    ensures Grows(w.state, r.world.state)
    ensures r.bastion.spec == bastion.spec
    // only a pass that finds both endpoints ready writes the status, and it
    // writes a ready public endpoint
    ensures r.verdict != Published ==> r.bastion == bastion
    ensures r.verdict == Published ==> IngressReady(r.bastion.status.ingress)
    ensures r.verdict.RequeueAfter? ==> r.verdict.seconds == RequeueDelaySeconds
    // the steps run in order, and the first step that fails ends the pass
    ensures var sg := EnsureSecurityGroup(w, f, parse, bastion.spec, opt);
            && (r.verdict.Failed? && r.verdict.step == SecurityGroupStep <==> sg.result.Failure?)
            && (sg.result.Failure? ==> r.world == sg.world && r.verdict.cause == sg.result.error)
            && (sg.result.Success? ==>
                  var opt' := opt.(bastionSecurityGroupId := sg.result.value);
                  var instance := EnsureBastionInstance(sg.world, f, encode, bastion.spec, opt');
                  && (r.verdict.Failed? && r.verdict.step == InstanceStep <==> instance.result.Failure?)
                  && (instance.result.Failure? ==> r.world == instance.world && r.verdict.cause == instance.result.error)
                  && (instance.result.Success? ==>
                        var worker := EnsureWorkerPermissions(instance.world, f, opt');
                        && r.world == worker.world
                        && (r.verdict.Failed? <==> worker.result.Failure?)
                        && (worker.result.Failure? ==> r.verdict == Failed(WorkerPermissionsStep, worker.result.error))
                        && (worker.result.Success? ==> (r.verdict == Published <==> Ready(instance.result.value)))
                        // a published pass writes the instance's own public endpoint
                        && (r.verdict == Published ==> r.bastion.status.ingress == instance.result.value.value.public)
                        && (worker.result.Success? ==> r == Publish(worker.world, bastion, instance.result.value))))
  {
    var sg := EnsureSecurityGroup(w, f, parse, bastion.spec, opt);
    if sg.result.Failure? then Pass(sg.world, bastion, Failed(SecurityGroupStep, sg.result.error))
    else
      var p := AfterSecurityGroup(sg.world, f, encode, bastion, opt.(bastionSecurityGroupId := sg.result.value));
      ExtendsTransitive(w, sg.world, p.world);
      GrowsTransitive(w.state, sg.world.state, p.world.state);
      p
  }

  /** The steps after the security group exists, with its id in `opt`. */
  function AfterSecurityGroup(w: World, f: Faults, encode: seq<bv8> -> string, bastion: Bastion, opt: Options)
    : (r: Pass)
    ensures Extends(w, r.world)
    ensures Grows(w.state, r.world.state)
    ensures r.bastion.spec == bastion.spec
    ensures r.verdict != Published ==> r.bastion == bastion
    ensures r.verdict == Published ==> IngressReady(r.bastion.status.ingress)
    ensures r.verdict.RequeueAfter? ==> r.verdict.seconds == RequeueDelaySeconds
    ensures var instance := EnsureBastionInstance(w, f, encode, bastion.spec, opt);
            && (r.verdict.Failed? && r.verdict.step == InstanceStep <==> instance.result.Failure?)
            && (instance.result.Failure? ==> r.world == instance.world && r.verdict.cause == instance.result.error)
            && (instance.result.Success? ==>
                  var worker := EnsureWorkerPermissions(instance.world, f, opt);
                  && r.world == worker.world
                  && (r.verdict.Failed? <==> worker.result.Failure?)
                  && (worker.result.Failure? ==> r.verdict == Failed(WorkerPermissionsStep, worker.result.error))
                  && (worker.result.Success? ==> (r.verdict == Published <==> Ready(instance.result.value)))
                  // a published pass writes the instance's own public endpoint
                  && (r.verdict == Published ==> r.bastion.status.ingress == instance.result.value.value.public)
                  && (worker.result.Success? ==> r == Publish(worker.world, bastion, instance.result.value)))
  {
    var instance := EnsureBastionInstance(w, f, encode, bastion.spec, opt);
    if instance.result.Failure? then Pass(instance.world, bastion, Failed(InstanceStep, instance.result.error))
    else
      var worker := EnsureWorkerPermissions(instance.world, f, opt);
      ExtendsTransitive(w, instance.world, worker.world);
      GrowsTransitive(w.state, instance.world.state, worker.world.state);
      if worker.result.Failure? then Pass(worker.world, bastion, Failed(WorkerPermissionsStep, worker.result.error))
      else Publish(worker.world, bastion, instance.result.value)
  }

  /** The last step: requeue while the endpoints are not ready, otherwise
      write the public endpoint to the status. */
  function Publish(w: World, bastion: Bastion, endpoints: Option<Endpoints>): (r: Pass)
    ensures r.world == w
    ensures r.bastion.spec == bastion.spec
    ensures r.verdict == Published <==> Ready(endpoints)
    ensures r.verdict != Published ==> r.bastion == bastion && r.verdict == RequeueAfter(RequeueDelaySeconds)
    ensures r.verdict == Published ==>
              r.bastion.status.ingress == endpoints.value.public && IngressReady(r.bastion.status.ingress)
  {
    if !Ready(endpoints) then Pass(w, bastion, RequeueAfter(RequeueDelaySeconds))
    else Pass(w, bastion.(status := BastionStatus(endpoints.value.public)), Published)
  }

  /** A failing first lookup or an invalid ingress list ends the pass after
      that one lookup, with the bastion untouched; no failure of the
      security group step ever launches an instance. */
  lemma ReconcileStopsEarly(w: World, f: Faults, parse: Parser, encode: seq<bv8> -> string, bastion: Bastion, opt: Options)
    ensures var r := Reconcile(w, f, parse, encode, bastion, opt);
            var describe := Record(w, DescribeSecurityGroups(opt.vpcId, opt.bastionSecurityGroupName));
            && (Fails(f, w) ==> r == Pass(describe, bastion, Failed(SecurityGroupStep, ListSecurityGroupsFailed)))
            && (!Fails(f, w) && IngressPermission(parse, bastion.spec.ingressCidrs).Failure? ==>
                  r == Pass(describe, bastion,
                            Failed(SecurityGroupStep, InvalidIngressCidr(IngressPermission(parse, bastion.spec.ingressCidrs).error))))
            && (r.verdict.Failed? && r.verdict.step == SecurityGroupStep ==>
                  r.world.state.reservations == w.state.reservations)
  {
  }

  /** Under no faults, with a valid ingress list and a worker group whose
      name and identifier agree, a pass succeeds: the bastion group has
      converged, the worker rule is in place, a live instance exists, and the
      verdict depends only on whether that instance's endpoints are ready. */
  lemma FirstPassSettles(w: World, parse: Parser, encode: seq<bv8> -> string, bastion: Bastion, opt: Options)
    requires IngressPermission(parse, bastion.spec.ingressCidrs).Success?
    requires WorkerGroupConsistent(w.state, opt)
    ensures var r := Reconcile(w, NoFaults, parse, encode, bastion, opt);
            var s := r.world.state;
            var found := FindGroup(s.groups, opt.vpcId, opt.bastionSecurityGroupName);
            && !r.verdict.Failed?
            && Converged(s, opt, IngressPermission(parse, bastion.spec.ingressCidrs).value)
            && WorkerAuthorized(s, opt.(bastionSecurityGroupId := found.value.id))
            && LiveInstance(s, opt.instanceName).Some?
            && r == Publish(r.world, bastion, Some(EndpointsOf(LiveInstance(s, opt.instanceName).value)))
  {
    var ingress := IngressPermission(parse, bastion.spec.ingressCidrs).value;
    var sg := EnsureSecurityGroup(w, NoFaults, parse, bastion.spec, opt);
    EnsureSecurityGroupConverges(w, parse, bastion.spec, opt);
    var id := sg.result.value;
    var opt' := opt.(bastionSecurityGroupId := id);
    FindGroupGrows(w.state.groups, sg.world.state.groups, opt.vpcId, opt.workerSecurityGroupName);
    assert WorkerGroupConsistent(sg.world.state, opt');
    var instance := EnsureBastionInstance(sg.world, NoFaults, encode, bastion.spec, opt');
    EnsureBastionInstanceConverges(sg.world, encode, bastion.spec, opt');
    assert Converged(instance.world.state, opt, ingress);
    assert WorkerGroupConsistent(instance.world.state, opt');
    var worker := EnsureWorkerPermissions(instance.world, NoFaults, opt');
    WorkerPermissionsGranted(instance.world, opt');
    WorkerStepChange(instance.world, NoFaults, opt');
    AddIngressKeepsConverged(instance.world.state, opt, ingress, opt'.workerSecurityGroupId, [WorkerPermission(opt')]);
    assert Converged(worker.world.state, opt, ingress);
    assert FindGroup(worker.world.state.groups, opt.vpcId, opt.bastionSecurityGroupName).value.id == id;
    assert Reconcile(w, NoFaults, parse, encode, bastion, opt) == Publish(worker.world, bastion, instance.result.value);
  }

  /** The steps after the group, on a settled cloud: only the instance and
      worker lookups are issued. */
  lemma SettledStepsAreLookups(w: World, encode: seq<bv8> -> string, bastion: Bastion, opt: Options)
    requires WorkerAuthorized(w.state, opt)
    requires LiveInstance(w.state, opt.instanceName).Some?
    ensures AfterSecurityGroup(w, NoFaults, encode, bastion, opt)
            == Publish(World(w.state, w.trace + [DescribeInstances(opt.instanceName),
                                                 DescribeSecurityGroups(opt.vpcId, opt.workerSecurityGroupName)]),
                       bastion, Some(EndpointsOf(LiveInstance(w.state, opt.instanceName).value)))
  {
    var instance := EnsureBastionInstance(w, NoFaults, encode, bastion.spec, opt);
    assert instance.world == Record(w, DescribeInstances(opt.instanceName));
    WorkerPermissionsFixedPoint(instance.world, opt);
  }

  /** A fault-free pass on a settled cloud issues lookups only. */
  lemma SettledPassIsQuiet(w: World, parse: Parser, encode: seq<bv8> -> string, bastion: Bastion, opt: Options)
    requires IngressPermission(parse, bastion.spec.ingressCidrs).Success?
    requires Converged(w.state, opt, IngressPermission(parse, bastion.spec.ingressCidrs).value)
    requires WorkerAuthorized(w.state, opt.(bastionSecurityGroupId := FindGroup(w.state.groups, opt.vpcId, opt.bastionSecurityGroupName).value.id))
    requires LiveInstance(w.state, opt.instanceName).Some?
    ensures var describeGroup := DescribeSecurityGroups(opt.vpcId, opt.bastionSecurityGroupName);
            var r := Reconcile(w, NoFaults, parse, encode, bastion, opt);
            r == Publish(World(w.state, w.trace + [describeGroup, describeGroup, DescribeInstances(opt.instanceName),
                                                   DescribeSecurityGroups(opt.vpcId, opt.workerSecurityGroupName)]),
                         bastion, Some(EndpointsOf(LiveInstance(w.state, opt.instanceName).value)))
  {
    var describeGroup := DescribeSecurityGroups(opt.vpcId, opt.bastionSecurityGroupName);
    assert w.trace + [describeGroup, describeGroup] + [DescribeInstances(opt.instanceName),
                                                       DescribeSecurityGroups(opt.vpcId, opt.workerSecurityGroupName)]
           == w.trace + [describeGroup, describeGroup, DescribeInstances(opt.instanceName),
                         DescribeSecurityGroups(opt.vpcId, opt.workerSecurityGroupName)];
    var id := FindGroup(w.state.groups, opt.vpcId, opt.bastionSecurityGroupName).value.id;
    EnsureSecurityGroupFixedPoint(w, parse, bastion.spec, opt);
    var w1 := World(w.state, w.trace + [describeGroup, describeGroup]);
    SettledStepsAreLookups(w1, encode, bastion, opt.(bastionSecurityGroupId := id));
    assert Reconcile(w, NoFaults, parse, encode, bastion, opt)
           == AfterSecurityGroup(w1, NoFaults, encode, bastion, opt.(bastionSecurityGroupId := id));
  }

  /** Publishing the same endpoints again changes neither the bastion nor
      the verdict. */
  lemma PublishIdempotent(w: World, w': World, bastion: Bastion, endpoints: Option<Endpoints>)
    ensures var p := Publish(w, bastion, endpoints);
            var q := Publish(w', p.bastion, endpoints);
            q.bastion == p.bastion && q.verdict == p.verdict
  {
  }

  /** Reconciliation settles: after a fault-free pass, a second fault-free
      pass from its outcome issues only the three lookups' calls, changes no
      state, and reaches the same verdict and the same bastion. */
  lemma SecondPassQuiet(w: World, parse: Parser, encode: seq<bv8> -> string, bastion: Bastion, opt: Options)
    requires IngressPermission(parse, bastion.spec.ingressCidrs).Success?
    requires WorkerGroupConsistent(w.state, opt)
    ensures var p1 := Reconcile(w, NoFaults, parse, encode, bastion, opt);
            var p2 := Reconcile(p1.world, NoFaults, parse, encode, p1.bastion, opt);
            var describeGroup := DescribeSecurityGroups(opt.vpcId, opt.bastionSecurityGroupName);
            && !p1.verdict.Failed?
            && p2.verdict == p1.verdict
            && p2.bastion == p1.bastion
            && p2.world.state == p1.world.state
            && p2.world.trace == p1.world.trace + [describeGroup, describeGroup, DescribeInstances(opt.instanceName),
                                                   DescribeSecurityGroups(opt.vpcId, opt.workerSecurityGroupName)]
  {
    var p1 := Reconcile(w, NoFaults, parse, encode, bastion, opt);
    FirstPassSettles(w, parse, encode, bastion, opt);
    var s := p1.world.state;
    var endpoints := Some(EndpointsOf(LiveInstance(s, opt.instanceName).value));
    SettledPassIsQuiet(p1.world, parse, encode, p1.bastion, opt);
    var describeGroup := DescribeSecurityGroups(opt.vpcId, opt.bastionSecurityGroupName);
    PublishIdempotent(p1.world, World(s, p1.world.trace + [describeGroup, describeGroup, DescribeInstances(opt.instanceName),
                                                          DescribeSecurityGroups(opt.vpcId, opt.workerSecurityGroupName)]),
                      bastion, endpoints);
  }

  /** A pass that has to launch the instance answers with what the lookup
      after the launch shows: it publishes only if the launched instance
      already shows both endpoints, and otherwise requeues with the bastion
      untouched; the next lookup will find the launched instance. */
  lemma FreshBastionRequeues(w: World, parse: Parser, encode: seq<bv8> -> string, bastion: Bastion, opt: Options)
    requires IngressPermission(parse, bastion.spec.ingressCidrs).Success?
    requires WorkerGroupConsistent(w.state, opt)
    requires LiveInstance(w.state, opt.instanceName).None?
    ensures var r := Reconcile(w, NoFaults, parse, encode, bastion, opt);
            var launched := Launched(w.state, opt.instanceName);
            && r == Publish(r.world, bastion, Some(EndpointsOf(launched)))
            && (r.verdict == RequeueAfter(RequeueDelaySeconds) <==> !Ready(Some(EndpointsOf(launched))))
            && LiveInstance(r.world.state, opt.instanceName) == Some(launched)
  {
    var sg := EnsureSecurityGroup(w, NoFaults, parse, bastion.spec, opt);
    EnsureSecurityGroupConverges(w, parse, bastion.spec, opt);
    var opt' := opt.(bastionSecurityGroupId := sg.result.value);
    assert LiveInstance(sg.world.state, opt.instanceName).None?;
    FreshInstanceEndpoints(sg.world, encode, bastion.spec, opt');
    var instance := EnsureBastionInstance(sg.world, NoFaults, encode, bastion.spec, opt');
    FindGroupGrows(w.state.groups, sg.world.state.groups, opt.vpcId, opt.workerSecurityGroupName);
    assert WorkerGroupConsistent(instance.world.state, opt');
    WorkerPermissionsGranted(instance.world, opt');
    assert AfterSecurityGroup(sg.world, NoFaults, encode, bastion, opt')
           == Publish(EnsureWorkerPermissions(instance.world, NoFaults, opt').world, bastion, instance.result.value);
  }

  /** In particular, while the launched instance shows no public address the
      pass requeues after five seconds and leaves the bastion as it was. */
  lemma FreshBastionWaits(w: World, parse: Parser, encode: seq<bv8> -> string, bastion: Bastion, opt: Options)
    requires IngressPermission(parse, bastion.spec.ingressCidrs).Success?
    requires WorkerGroupConsistent(w.state, opt)
    requires LiveInstance(w.state, opt.instanceName).None?
    requires w.state.launchAddresses.publicDnsName.None? && w.state.launchAddresses.publicIpAddress.None?
    ensures var r := Reconcile(w, NoFaults, parse, encode, bastion, opt);
            r.verdict == RequeueAfter(RequeueDelaySeconds) && r.bastion == bastion
  {
    FreshBastionRequeues(w, parse, encode, bastion, opt);
  }
}
