/** The EC2 backend as an immutable state, the calls the reconciler issues
    against it, and what each call does. A pass threads a `World` (the state
    and the calls issued so far) through its steps. Which calls fail and
    which lookups do not yet see recent writes is a `Faults` input, indexed
    by the call's position in the trace. */
module Cloud {
  import opened Base
  import opened Cidr
  import opened BastionTypes
  import opened Permissions

  datatype SecurityGroup = SecurityGroup(
    id: GroupId,
    vpc: string,
    name: string,
    tags: map<string, string>,
    ingress: seq<Permission>,
    egress: seq<Permission>)

  /** An EC2 instance: its tags, its state code and its addresses. */
  datatype Instance = Instance(
    tags: map<string, string>,
    stateCode: int,
    privateDnsName: Option<string>,
    privateIpAddress: Option<string>,
    publicDnsName: Option<string>,
    publicIpAddress: Option<string>)

  datatype Reservation = Reservation(instances: seq<Instance>)

  /** The DNS names and IPs EC2 shows for an instance. */
  datatype Addresses = Addresses(
    privateDnsName: Option<string>,
    privateIpAddress: Option<string>,
    publicDnsName: Option<string>,
    publicIpAddress: Option<string>)

  /** The backend: security groups in creation order, instance reservations,
      and what EC2 decides for the next new resource: the next group
      identifier, the egress rules a new group starts with (EC2's default
      "allow all" rule) and the addresses a new instance shows once launched. */
  datatype State = State(
    groups: seq<SecurityGroup>,
    reservations: seq<Reservation>,
    nextGroupId: GroupId,
    newGroupEgress: seq<Permission>,
    launchAddresses: Addresses)

  /** A group that keeps its identity and every ingress rule it had. */
  predicate GroupKept(before: SecurityGroup, after: SecurityGroup)
  {
    && after.id == before.id && after.vpc == before.vpc && after.name == before.name
    && before.ingress <= after.ingress
  }

  /** `after` is `before` with groups and reservations possibly added, rules
      possibly added and egress rules possibly removed: nothing is deleted
      and no ingress rule is ever revoked. What EC2 gives new groups and new
      instances stays as it was. */
  predicate Grows(before: State, after: State)
  {
    && |before.groups| <= |after.groups|
    && (forall i :: 0 <= i < |before.groups| ==> GroupKept(before.groups[i], after.groups[i]))
    && before.reservations <= after.reservations
    && after.newGroupEgress == before.newGroupEgress
    && after.launchAddresses == before.launchAddresses
  }

  lemma GrowsTransitive(a: State, b: State, c: State)
    requires Grows(a, b) && Grows(b, c)
    ensures Grows(a, c)
  {
    forall i | 0 <= i < |a.groups|
      ensures GroupKept(a.groups[i], c.groups[i])
    {
      assert GroupKept(a.groups[i], b.groups[i]) && GroupKept(b.groups[i], c.groups[i]);
    }
  }

  /** The fields of a `RunInstancesInput` the reconciler sets; the network
      interface fields are those of its only interface. */
  datatype RunRequest = RunRequest(
    imageId: string,
    instanceType: string,
    userData: string,
    minCount: int,
    maxCount: int,
    nameTag: string,
    deviceIndex: int,
    securityGroups: seq<GroupId>,
    subnetId: string,
    associatePublicIpAddress: bool,
    ipv6AddressCount: Option<int>,
    primaryIpv6: Option<bool>)

  datatype Call =
    | DescribeSecurityGroups(vpc: string, name: string)
    | CreateSecurityGroup(vpc: string, name: string, nameTag: string)
    | AuthorizeIngress(group: GroupId, perms: seq<Permission>)
    | AuthorizeEgress(group: GroupId, perms: seq<Permission>)
    | RevokeEgress(group: GroupId, perms: seq<Permission>)
    | DescribeInstances(nameTag: string)
    | RunInstances(request: RunRequest)

  datatype World = World(state: State, trace: seq<Call>)

  /** The world after a reconcile step and the step's value or error. */
  datatype Effect<T> = Effect(world: World, result: Result<T, Error>)

  /** `after` holds every call of `before` and possibly more. */
  predicate Extends(before: World, after: World)
  {
    |before.trace| <= |after.trace| && after.trace[..|before.trace|] == before.trace
  }

  lemma ExtendsTransitive(a: World, b: World, c: World)
    requires Extends(a, b) && Extends(b, c)
    ensures Extends(a, c)
  {
    assert c.trace[..|a.trace|] == c.trace[..|b.trace|][..|a.trace|];
  }

  lemma ExtendsByAppend(before: World, after: World, calls: seq<Call>)
    requires after.trace == before.trace + calls
    ensures Extends(before, after)
  {
    assert after.trace[..|before.trace|] == before.trace;
  }

  /** Call number `k` of a pass fails when `k` is in `failing`; a lookup
      numbered in `lagging` answers as if nothing matched yet. */
  datatype Faults = Faults(failing: set<nat>, lagging: set<nat>)

  const NoFaults := Faults({}, {})

  datatype ApiFault = Unavailable | GroupNotFound

  function Record(w: World, c: Call): World
  {
    World(w.state, w.trace + [c])
  }

  predicate Fails(f: Faults, w: World)
  {
    |w.trace| in f.failing
  }

  predicate Lags(f: Faults, w: World)
  {
    |w.trace| in f.lagging
  }

  /** The first group of `vpc` named `name`. */
  function FindGroup(gs: seq<SecurityGroup>, vpc: string, name: string): (r: Option<SecurityGroup>)
    ensures r.Some? ==> r.value in gs && r.value.vpc == vpc && r.value.name == name
    ensures r.None? <==> forall g :: g in gs ==> !(g.vpc == vpc && g.name == name)
    decreases |gs|
  {
    if |gs| == 0 then None
    else if gs[0].vpc == vpc && gs[0].name == name then Some(gs[0])
    else FindGroup(gs[1..], vpc, name)
  }

  predicate HasGroupId(gs: seq<SecurityGroup>, id: GroupId)
  {
    exists g :: g in gs && g.id == id
  }

  function AppendIngress(g: SecurityGroup, perms: seq<Permission>): SecurityGroup
  {
    g.(ingress := g.ingress + perms)
  }

  function AppendEgress(g: SecurityGroup, perms: seq<Permission>): SecurityGroup
  {
    g.(egress := g.egress + perms)
  }

  /** The egress rules that equal none of `perms`. */
  function Unrevoked(egress: seq<Permission>, perms: seq<Permission>): (r: seq<Permission>)
    ensures forall p :: p in r <==> p in egress && !HasPermission(perms, p)
    decreases |egress|
  {
    if |egress| == 0 then []
    else if HasPermission(perms, egress[0]) then Unrevoked(egress[1..], perms)
    else [egress[0]] + Unrevoked(egress[1..], perms)
  }

  function RemoveEgress(g: SecurityGroup, perms: seq<Permission>): SecurityGroup
  {
    g.(egress := Unrevoked(g.egress, perms))
  }

  /** How a rule call changes one group. */
  datatype RuleChange = AddIngress(perms: seq<Permission>) | AddEgress(perms: seq<Permission>) | DropEgress(perms: seq<Permission>)

  function ApplyChange(g: SecurityGroup, ch: RuleChange): (r: SecurityGroup)
    ensures r.id == g.id && r.vpc == g.vpc && r.name == g.name
  {
    match ch
    case AddIngress(ps) => AppendIngress(g, ps)
    case AddEgress(ps) => AppendEgress(g, ps)
    case DropEgress(ps) => RemoveEgress(g, ps)
  }

  /** Applies a rule change to every group with identifier `id`. */
  function UpdateGroups(gs: seq<SecurityGroup>, id: GroupId, ch: RuleChange): (r: seq<SecurityGroup>)
    ensures |r| == |gs|
    ensures forall i :: 0 <= i < |gs| ==> r[i] == if gs[i].id == id then ApplyChange(gs[i], ch) else gs[i]
  {
    seq(|gs|, i requires 0 <= i < |gs| => if gs[i].id == id then ApplyChange(gs[i], ch) else gs[i])
  }

  /** Rule changes keep the set of group identifiers. */
  lemma UpdateKeepsIds(gs: seq<SecurityGroup>, id: GroupId, ch: RuleChange, x: GroupId)
    ensures HasGroupId(UpdateGroups(gs, id, ch), x) <==> HasGroupId(gs, x)
  {
    var us := UpdateGroups(gs, id, ch);
    if HasGroupId(gs, x) {
      var k :| 0 <= k < |gs| && gs[k].id == x;
      assert us[k] in us;
    }
    if HasGroupId(us, x) {
      var k :| 0 <= k < |us| && us[k].id == x;
      assert gs[k] in gs;
    }
  }

  /** A lookup that found a group still finds one with the same identifier
      and at least its ingress rules once the state has grown. */
  lemma {:induction false} FindGroupGrows(before: seq<SecurityGroup>, after: seq<SecurityGroup>, vpc: string, name: string)
    requires |before| <= |after|
    requires forall i :: 0 <= i < |before| ==> GroupKept(before[i], after[i])
    requires FindGroup(before, vpc, name).Some?
    ensures FindGroup(after, vpc, name).Some?
    ensures GroupKept(FindGroup(before, vpc, name).value, FindGroup(after, vpc, name).value)
    decreases |before|
  {
    assert GroupKept(before[0], after[0]);
    if !(before[0].vpc == vpc && before[0].name == name) {
      FindGroupGrows(before[1..], after[1..], vpc, name);
    }
  }

  /** Updating groups by identifier keeps which group a name lookup finds,
      and updates it when it carries that identifier. */
  lemma {:induction false} FindGroupAfterUpdate(gs: seq<SecurityGroup>, id: GroupId, ch: RuleChange, vpc: string, name: string)
    ensures var before := FindGroup(gs, vpc, name);
            FindGroup(UpdateGroups(gs, id, ch), vpc, name)
            == if before.None? then None
               else if before.value.id == id then Some(ApplyChange(before.value, ch))
               else before
    decreases |gs|
  {
    if |gs| > 0 {
      var updated := UpdateGroups(gs, id, ch);
      FindGroupAfterUpdate(gs[1..], id, ch, vpc, name);
      UpdateGroupsTail(gs, id, ch);
      assert updated[0].vpc == gs[0].vpc && updated[0].name == gs[0].name;
      assert FindGroup(updated, vpc, name)
             == if gs[0].vpc == vpc && gs[0].name == name then Some(updated[0])
                else FindGroup(UpdateGroups(gs[1..], id, ch), vpc, name);
    }
  }

  lemma UpdateGroupsTail(gs: seq<SecurityGroup>, id: GroupId, ch: RuleChange)
    requires |gs| > 0
    ensures UpdateGroups(gs, id, ch)[1..] == UpdateGroups(gs[1..], id, ch)
  {
    var a := UpdateGroups(gs, id, ch)[1..];
    var b := UpdateGroups(gs[1..], id, ch);
    forall i | 0 <= i < |a|
      ensures a[i] == b[i]
    {
      assert gs[1..][i] == gs[i + 1];
    }
  }

  /** A lookup's answer after appending a group: unchanged if an earlier
      group already matched, the new group if it is the first match. */
  lemma {:induction false} FindGroupAfterAppend(gs: seq<SecurityGroup>, g: SecurityGroup, vpc: string, name: string)
    ensures FindGroup(gs + [g], vpc, name)
            == if FindGroup(gs, vpc, name).Some? then FindGroup(gs, vpc, name)
               else if g.vpc == vpc && g.name == name then Some(g)
               else None
    decreases |gs|
  {
    if |gs| > 0 {
      FindGroupAfterAppend(gs[1..], g, vpc, name);
      assert (gs + [g])[1..] == gs[1..] + [g];
    } else {
      assert [g][1..] == [];
    }
  }

  /** The default "allow all" egress rule EC2 adds to every new group. */
  const AllowAllEgress := Permission("-1", None, None, Some([IpPrefix([0, 0, 0, 0], 0)]), None, [])

  // --- the calls -----------------------------------------------------------

  function DescribeGroups(w: World, f: Faults, vpc: string, name: string): (r: (World, Result<seq<SecurityGroup>, ApiFault>))
    ensures r.0 == Record(w, DescribeSecurityGroups(vpc, name))
  {
    var w' := Record(w, DescribeSecurityGroups(vpc, name));
    if Fails(f, w) then (w', Failure(Unavailable))
    else if Lags(f, w) then (w', Success([]))
    else
      match FindGroup(w.state.groups, vpc, name)
      case None => (w', Success([]))
      case Some(g) => (w', Success([g]))
  }

  /** The group a successful create adds: the next identifier, tagged with
      its name, no ingress and the backend's default egress rules. */
  function NewGroup(s: State, vpc: string, name: string): SecurityGroup
  {
    SecurityGroup(s.nextGroupId, vpc, name, map["Name" := name], [], s.newGroupEgress)
  }

  /** Creates a group with the next identifier, tagged with its name. */
  function CreateGroup(w: World, f: Faults, vpc: string, name: string): (r: (World, Result<GroupId, ApiFault>))
    ensures r.0.trace == w.trace + [CreateSecurityGroup(vpc, name, name)]
    ensures Grows(w.state, r.0.state)
    ensures r.1.Failure? <==> Fails(f, w)
    ensures r.1.Failure? ==> r.0.state == w.state
    // a new group is appended, with a new identifier when the old ones were below it
    ensures r.1.Success? ==> && r.1.value == w.state.nextGroupId
                             && r.0.state.groups == w.state.groups + [NewGroup(w.state, vpc, name)]
                             && (IdsBelowNext(w.state) ==> IdsBelowNext(r.0.state) && !HasGroupId(w.state.groups, r.1.value))
  {
    var w' := Record(w, CreateSecurityGroup(vpc, name, name));
    if Fails(f, w) then (w', Failure(Unavailable))
    else
      var id := w.state.nextGroupId;
      (World(w.state.(groups := w.state.groups + [NewGroup(w.state, vpc, name)], nextGroupId := id + 1), w'.trace), Success(id))
  }

  /** Every group identifier is below the next one to be handed out. */
  predicate IdsBelowNext(s: State)
  {
    forall g :: g in s.groups ==> g.id < s.nextGroupId
  }

  /** A rule call on group `id`: fails when no group has that identifier. */
  function ChangeRules(w: World, f: Faults, id: GroupId, call: Call, ch: RuleChange): (r: (World, Result<(), ApiFault>))
    ensures r.0.trace == w.trace + [call]
    ensures r.1.Failure? <==> Fails(f, w) || !HasGroupId(w.state.groups, id)
    ensures r.1.Failure? ==> r.0.state == w.state
    ensures r.1.Success? ==> r.0.state == w.state.(groups := UpdateGroups(w.state.groups, id, ch))
    ensures Grows(w.state, r.0.state) && r.0.state.reservations == w.state.reservations
  {
    var w' := Record(w, call);
    if Fails(f, w) then (w', Failure(Unavailable))
    else if !HasGroupId(w.state.groups, id) then (w', Failure(GroupNotFound))
    else (World(w.state.(groups := UpdateGroups(w.state.groups, id, ch)), w'.trace), Success(()))
  }

  /** Under no faults, a rule call on the group a name lookup finds succeeds
      and the lookup then finds the changed group. */
  lemma ChangeRulesOnFound(w: World, call: Call, ch: RuleChange, vpc: string, name: string, g: SecurityGroup)
    requires FindGroup(w.state.groups, vpc, name) == Some(g)
    ensures var r := ChangeRules(w, NoFaults, g.id, call, ch);
            && r.1.Success?
            && r.0.trace == w.trace + [call]
            && FindGroup(r.0.state.groups, vpc, name) == Some(ApplyChange(g, ch))
            && r.0.state.reservations == w.state.reservations
  {
    assert HasGroupId(w.state.groups, g.id);
    FindGroupAfterUpdate(w.state.groups, g.id, ch, vpc, name);
  }

  function AuthorizeGroupIngress(w: World, f: Faults, id: GroupId, perms: seq<Permission>): (r: (World, Result<(), ApiFault>))
    ensures r.0.trace == w.trace + [AuthorizeIngress(id, perms)]
    ensures Grows(w.state, r.0.state) && r.0.state.reservations == w.state.reservations
  {
    ChangeRules(w, f, id, AuthorizeIngress(id, perms), AddIngress(perms))
  }

  function AuthorizeGroupEgress(w: World, f: Faults, id: GroupId, perms: seq<Permission>): (r: (World, Result<(), ApiFault>))
    ensures r.0.trace == w.trace + [AuthorizeEgress(id, perms)]
    ensures Grows(w.state, r.0.state) && r.0.state.reservations == w.state.reservations
  {
    ChangeRules(w, f, id, AuthorizeEgress(id, perms), AddEgress(perms))
  }

  function RevokeGroupEgress(w: World, f: Faults, id: GroupId, perms: seq<Permission>): (r: (World, Result<(), ApiFault>))
    ensures r.0.trace == w.trace + [RevokeEgress(id, perms)]
    ensures Grows(w.state, r.0.state) && r.0.state.reservations == w.state.reservations
  {
    ChangeRules(w, f, id, RevokeEgress(id, perms), DropEgress(perms))
  }

  /** Whether an instance carries the Name tag `name`. */
  predicate NamedTag(i: Instance, name: string)
  {
    "Name" in i.tags && i.tags["Name"] == name
  }

  /** The instances of one reservation carrying the Name tag, in order. */
  function Tagged(xs: seq<Instance>, name: string): (r: seq<Instance>)
    ensures forall i :: i in r <==> i in xs && NamedTag(i, name)
    decreases |xs|
  {
    if |xs| == 0 then []
    else (if NamedTag(xs[0], name) then [xs[0]] else []) + Tagged(xs[1..], name)
  }

  /** What a lookup by Name tag returns: each reservation restricted to the
      instances carrying the tag. */
  function TaggedReservations(rs: seq<Reservation>, name: string): (r: seq<Reservation>)
    ensures |r| == |rs|
    ensures forall k :: 0 <= k < |rs| ==> r[k] == Reservation(Tagged(rs[k].instances, name))
  {
    seq(|rs|, k requires 0 <= k < |rs| => Reservation(Tagged(rs[k].instances, name)))
  }

  function DescribeTagged(w: World, f: Faults, name: string): (r: (World, Result<seq<Reservation>, ApiFault>))
    ensures r.0 == Record(w, DescribeInstances(name))
  {
    var w' := Record(w, DescribeInstances(name));
    if Fails(f, w) then (w', Failure(Unavailable))
    else if Lags(f, w) then (w', Success([]))
    else (w', Success(TaggedReservations(w.state.reservations, name)))
  }

  /** EC2 state code of a pending instance. */
  const InstanceStatePending := 0

  /** The instance a launch adds: pending, tagged with the requested name,
      showing the addresses the backend gives it. */
  function Launched(s: State, nameTag: string): Instance
  {
    var a := s.launchAddresses;
    Instance(map["Name" := nameTag], InstanceStatePending,
             a.privateDnsName, a.privateIpAddress, a.publicDnsName, a.publicIpAddress)
  }

  /** Launches one instance in a new reservation. */
  function Run(w: World, f: Faults, req: RunRequest): (r: (World, Result<(), ApiFault>))
    ensures r.0.trace == w.trace + [RunInstances(req)]
    ensures Grows(w.state, r.0.state) && r.0.state.groups == w.state.groups
    ensures r.1.Failure? <==> Fails(f, w)
    ensures r.1.Failure? ==> r.0.state == w.state
    ensures r.1.Success? ==>
              r.0.state == w.state.(reservations := w.state.reservations + [Reservation([Launched(w.state, req.nameTag)])])
  {
    var w' := Record(w, RunInstances(req));
    if Fails(f, w) then (w', Failure(Unavailable))
    else (World(w.state.(reservations := w.state.reservations + [Reservation([Launched(w.state, req.nameTag)])]), w'.trace), Success(()))
  }
}
