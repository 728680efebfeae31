/** Convergence of the bastion instance: look it up by its Name tag, create it
    only when no live instance carries the tag, and report the endpoints the
    backend currently shows; plus the readiness of those endpoints. */
module Instances {
  import opened Base
  import opened BastionTypes
  import opened Cloud

  /** EC2 state codes of instances that count as gone. */
  const InstanceStateShuttingDown := 32
  const InstanceStateTerminated := 48

  /** An instance that is neither shutting down nor terminated. */
  predicate Live(i: Instance)
  {
    i.stateCode != InstanceStateShuttingDown && i.stateCode != InstanceStateTerminated
  }

  /** The first live instance of a list. */
  function FirstLive(xs: seq<Instance>): (r: Option<Instance>)
    ensures r.None? <==> forall k :: 0 <= k < |xs| ==> !Live(xs[k])
    ensures r.Some? ==> exists k :: 0 <= k < |xs| && xs[k] == r.value && Live(xs[k])
                                    && forall j :: 0 <= j < k ==> !Live(xs[j])
    decreases |xs|
  {
    if |xs| == 0 then None
    else if Live(xs[0]) then Some(xs[0])
    else
      var rest := FirstLive(xs[1..]);
      if rest.Some? then
        ghost var k :| 0 <= k < |xs[1..]| && xs[1..][k] == rest.value && Live(xs[1..][k])
                       && forall j :: 0 <= j < k ==> !Live(xs[1..][j]);
        assert xs[k + 1] == rest.value;
        rest
      else rest
  }

  /** The instances of all reservations, reservation by reservation. */
  function Flatten(rs: seq<Reservation>): seq<Instance>
    decreases |rs|
  {
    if |rs| == 0 then [] else rs[0].instances + Flatten(rs[1..])
  }

  /** The first live instance, scanning reservations and then their
      instances in order. */
  function FirstMatchingInstance(rs: seq<Reservation>): Option<Instance>
    decreases |rs|
  {
    if |rs| == 0 then None
    else
      match FirstLive(rs[0].instances)
      case Some(i) => Some(i)
      case None => FirstMatchingInstance(rs[1..])
  }

  /** The first live instance of the backend carrying the Name tag `name`. */
  function LiveInstance(s: State, name: string): Option<Instance>
  {
    FirstLive(Tagged(Flatten(s.reservations), name))
  }

  lemma {:induction false} FirstLiveAppend(a: seq<Instance>, b: seq<Instance>)
    ensures FirstLive(a + b) == if FirstLive(a).Some? then FirstLive(a) else FirstLive(b)
    decreases |a|
  {
    if |a| > 0 {
      FirstLiveAppend(a[1..], b);
      assert (a + b)[1..] == a[1..] + b;
    } else {
      assert a + b == b;
    }
  }

  /** The nested scan finds the first live instance of the flattened list. */
  lemma {:induction false} FirstMatchingIsFirstLive(rs: seq<Reservation>)
    ensures FirstMatchingInstance(rs) == FirstLive(Flatten(rs))
    decreases |rs|
  {
    if |rs| > 0 {
      FirstMatchingIsFirstLive(rs[1..]);
      FirstLiveAppend(rs[0].instances, Flatten(rs[1..]));
    }
  }

  lemma {:induction false} TaggedAppend(a: seq<Instance>, b: seq<Instance>, name: string)
    ensures Tagged(a + b, name) == Tagged(a, name) + Tagged(b, name)
    decreases |a|
  {
    if |a| > 0 {
      TaggedAppend(a[1..], b, name);
      assert (a + b)[1..] == a[1..] + b;
    } else {
      assert a + b == b;
    }
  }

  lemma {:induction false} FlattenTagged(rs: seq<Reservation>, name: string)
    ensures Flatten(TaggedReservations(rs, name)) == Tagged(Flatten(rs), name)
    decreases |rs|
  {
    if |rs| > 0 {
      FlattenTagged(rs[1..], name);
      assert TaggedReservations(rs, name)[1..] == TaggedReservations(rs[1..], name);
      TaggedAppend(rs[0].instances, Flatten(rs[1..]), name);
    }
  }

  lemma {:induction false} FlattenAppend(rs: seq<Reservation>, r: Reservation)
    ensures Flatten(rs + [r]) == Flatten(rs) + r.instances
    decreases |rs|
  {
    if |rs| > 0 {
      FlattenAppend(rs[1..], r);
      assert (rs + [r])[1..] == rs[1..] + [r];
    } else {
      assert [r][1..] == [];
    }
  }

  /** Looking the tag up in the backend and scanning the reply finds the
      backend's first live instance with that tag. */
  lemma LookupFindsLiveInstance(s: State, name: string)
    ensures FirstMatchingInstance(TaggedReservations(s.reservations, name)) == LiveInstance(s, name)
  {
    FirstMatchingIsFirstLive(TaggedReservations(s.reservations, name));
    FlattenTagged(s.reservations, name);
  }

  // --- endpoints -------------------------------------------------------------

  /** The private and public endpoints of an instance; each is absent when the
      instance shows neither a DNS name nor an IP for it. */
  datatype Endpoints = Endpoints(private: Option<LbIngress>, public: Option<LbIngress>)

  /** An optional DNS name and IP as an ingress record, absent when both are. */
  function AddressToIngress(dnsName: Option<string>, ipAddress: Option<string>): (r: Option<LbIngress>)
    ensures r.None? <==> dnsName.None? && ipAddress.None?
    ensures r.Some? ==> r.value.hostname == (if dnsName.Some? then dnsName.value else "")
                        && r.value.ip == (if ipAddress.Some? then ipAddress.value else "")
  {
    if ipAddress.Some? || dnsName.Some? then
      Some(LbIngress(if dnsName.Some? then dnsName.value else "",
                     if ipAddress.Some? then ipAddress.value else ""))
    else None
  }

  /** An ingress record with a non-empty hostname or IP. */
  predicate IngressReady(ingress: Option<LbIngress>)
  {
    ingress.Some? && (ingress.value.hostname != "" || ingress.value.ip != "")
  }

  /** Both the private and the public endpoint are ready. */
  predicate Ready(endpoints: Option<Endpoints>)
  {
    endpoints.Some? && IngressReady(endpoints.value.private) && IngressReady(endpoints.value.public)
  }

  /** A DNS name or IP that is present and not empty. */
  predicate Reachable(dnsName: Option<string>, ipAddress: Option<string>)
  {
    (dnsName.Some? && dnsName.value != "") || (ipAddress.Some? && ipAddress.value != "")
  }

  function EndpointsOf(i: Instance): (e: Endpoints)
    ensures e.private.None? <==> i.privateDnsName.None? && i.privateIpAddress.None?
    ensures e.public.None? <==> i.publicDnsName.None? && i.publicIpAddress.None?
    ensures Ready(Some(e)) <==> Reachable(i.privateDnsName, i.privateIpAddress)
                                && Reachable(i.publicDnsName, i.publicIpAddress)
  {
    Endpoints(AddressToIngress(i.privateDnsName, i.privateIpAddress),
              AddressToIngress(i.publicDnsName, i.publicIpAddress))
  }

  /** Looks the instance up by Name tag and reports its endpoints, or nothing
      when no live instance carries the tag. */
  function GetInstanceEndpoints(w: World, f: Faults, name: string): (r: Effect<Option<Endpoints>>)
    ensures r.world == Record(w, DescribeInstances(name))
    ensures r.result.Failure? <==> Fails(f, w)
    ensures r.result.Failure? ==> r.result.error == ListInstancesFailed
    ensures r.result.Success? && Lags(f, w) ==> r.result.value.None?
    ensures r.result.Success? && !Lags(f, w) ==>
              r.result.value == match LiveInstance(w.state, name)
                                case None => None
                                case Some(i) => Some(EndpointsOf(i))
  {
    var (w', reply) := DescribeTagged(w, f, name);
    match reply
    case Failure(_) => Effect(w', Failure(ListInstancesFailed))
    case Success(rs) =>
      LookupFindsLiveInstance(w.state, name);
      match FirstMatchingInstance(rs)
      case None => Effect(w', Success(None))
      case Some(i) => Effect(w', Success(Some(EndpointsOf(i))))
  }

  /** The launch request for the bastion: one instance, tagged with its name,
      on one interface in the bastion group with a public IPv4 address and,
      when IPv6 is enabled, one primary IPv6 address. */
  function RunRequestFor(encode: seq<bv8> -> string, spec: BastionSpec, opt: Options): RunRequest
  {
    RunRequest(
      imageId := opt.imageId,
      instanceType := opt.instanceType,
      userData := encode(spec.userData),
      minCount := 1,
      maxCount := 1,
      nameTag := opt.instanceName,
      deviceIndex := 0,
      securityGroups := [opt.bastionSecurityGroupId],
      subnetId := opt.subnetId,
      associatePublicIpAddress := true,
      ipv6AddressCount := if opt.ipv6 then Some(1) else None,
      primaryIpv6 := if opt.ipv6 then Some(true) else None)
  }

  /** Ensures the bastion instance exists and returns its current endpoints,
      which may be absent or not ready for a new instance. */
  function EnsureBastionInstance(w: World, f: Faults, encode: seq<bv8> -> string, spec: BastionSpec, opt: Options)
    : (r: Effect<Option<Endpoints>>)
    ensures var describe := DescribeInstances(opt.instanceName);
            var run := RunInstances(RunRequestFor(encode, spec, opt));
            || r.world.trace == w.trace + [describe]
            || r.world.trace == w.trace + [describe, run]
            || r.world.trace == w.trace + [describe, run, describe]
    // an instance is launched exactly when the first lookup succeeded and showed no live instance
    ensures |r.world.trace| > |w.trace| + 1 <==>
              !Fails(f, w) && (Lags(f, w) || LiveInstance(w.state, opt.instanceName).None?)
    // a live instance is reused as it is
    ensures !Fails(f, w) && !Lags(f, w) && LiveInstance(w.state, opt.instanceName).Some? ==>
              && r.world == Record(w, DescribeInstances(opt.instanceName))
              && r.result == Success(Some(EndpointsOf(LiveInstance(w.state, opt.instanceName).value)))
    ensures Fails(f, w) ==> r.result == Failure(CheckInstanceFailed)
    // a failed launch ends the step with its own error and changes nothing
    ensures |r.world.trace| == |w.trace| + 2 <==> r.result == Failure(RunInstanceFailed)
    ensures |r.world.trace| == |w.trace| + 2 ==> r.world.state == w.state
    // after a launch the step answers with whatever the second lookup shows
    ensures |r.world.trace| == |w.trace| + 3 ==>
              var launched := w.state.(reservations := w.state.reservations + [Reservation([Launched(w.state, opt.instanceName)])]);
              && r.world.state == launched
              && r == GetInstanceEndpoints(World(launched, r.world.trace[..|w.trace| + 2]), f, opt.instanceName)
    ensures r.world.state.groups == w.state.groups && Grows(w.state, r.world.state)
    ensures Extends(w, r.world)
  {
    var Effect(w1, found) := GetInstanceEndpoints(w, f, opt.instanceName);
    if found.Failure? then Effect(w1, Failure(CheckInstanceFailed))
    else if found.value.Some? then Effect(w1, found)
    else
      var (w2, ran) := Run(w1, f, RunRequestFor(encode, spec, opt));
      if ran.Failure? then Effect(w2, Failure(RunInstanceFailed))
      else GetInstanceEndpoints(w2, f, opt.instanceName)
  }

  /** Every launch the step issues asks for exactly one instance named after
      the bastion, with a public IPv4 address, and for one IPv6 address
      exactly when IPv6 is enabled. */
  lemma LaunchRequestShape(w: World, f: Faults, encode: seq<bv8> -> string, spec: BastionSpec, opt: Options, c: Call)
    requires c in EnsureBastionInstance(w, f, encode, spec, opt).world.trace[|w.trace|..]
    requires c.RunInstances?
    ensures c.request.minCount == 1 && c.request.maxCount == 1
    ensures c.request.nameTag == opt.instanceName
    ensures c.request.associatePublicIpAddress
    ensures c.request.securityGroups == [opt.bastionSecurityGroupId]
    ensures c.request.ipv6AddressCount == (if opt.ipv6 then Some(1) else None)
  {
  }

  /** Under no faults and with no live instance, exactly one instance is
      launched, and the lookup after the launch finds it: the step returns
      the endpoints of the launched instance, ready or not. */
  lemma FreshInstanceEndpoints(w: World, encode: seq<bv8> -> string, spec: BastionSpec, opt: Options)
    requires LiveInstance(w.state, opt.instanceName).None?
    ensures var r := EnsureBastionInstance(w, NoFaults, encode, spec, opt);
            var describe := DescribeInstances(opt.instanceName);
            var launched := Launched(w.state, opt.instanceName);
            && r.world.trace == w.trace + [describe, RunInstances(RunRequestFor(encode, spec, opt)), describe]
            && r.result == Success(Some(EndpointsOf(launched)))
            && LiveInstance(r.world.state, opt.instanceName) == Some(launched)
  {
    var name := opt.instanceName;
    var w1 := Record(w, DescribeInstances(name));
    var req := RunRequestFor(encode, spec, opt);
    var w2 := Run(w1, NoFaults, req).0;
    var i := Launched(w.state, name);
    LaunchedIsLive(w.state, name);
    assert w2.state == w.state.(reservations := w.state.reservations + [Reservation([i])]);
    assert EnsureBastionInstance(w, NoFaults, encode, spec, opt) == GetInstanceEndpoints(w2, NoFaults, name);
  }

  /** In a backend with no live instance carrying the tag, the instance a
      launch adds is the first live one with that tag. */
  lemma LaunchedIsLive(s: State, name: string)
    requires LiveInstance(s, name).None?
    ensures var i := Launched(s, name);
            LiveInstance(s.(reservations := s.reservations + [Reservation([i])]), name) == Some(i)
  {
    var i := Launched(s, name);
    FlattenAppend(s.reservations, Reservation([i]));
    TaggedAppend(Flatten(s.reservations), [i], name);
    assert Tagged([i], name) == [i] by {
      assert [i][1..] == [];
    }
    FirstLiveAppend(Tagged(Flatten(s.reservations), name), [i]);
  }

  /** A launched instance that shows no public address yet gives endpoints
      that are not ready. */
  lemma FreshInstanceNotReady(w: World, encode: seq<bv8> -> string, spec: BastionSpec, opt: Options)
    requires LiveInstance(w.state, opt.instanceName).None?
    requires w.state.launchAddresses.publicDnsName.None? && w.state.launchAddresses.publicIpAddress.None?
    ensures var r := EnsureBastionInstance(w, NoFaults, encode, spec, opt);
            r.result.Success? && r.result.value.Some? && !Ready(r.result.value)
  {
    FreshInstanceEndpoints(w, encode, spec, opt);
  }

  /** Under no faults the step ends with a live instance carrying the tag and
      returns that instance's endpoints. */
  lemma EnsureBastionInstanceConverges(w: World, encode: seq<bv8> -> string, spec: BastionSpec, opt: Options)
    ensures var r := EnsureBastionInstance(w, NoFaults, encode, spec, opt);
            && LiveInstance(r.world.state, opt.instanceName).Some?
            && r.result == Success(Some(EndpointsOf(LiveInstance(r.world.state, opt.instanceName).value)))
  {
    if LiveInstance(w.state, opt.instanceName).None? {
      FreshInstanceEndpoints(w, encode, spec, opt);
    }
  }
}
