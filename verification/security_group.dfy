/** Convergence of the bastion's own security group: look it up or create it,
    authorise the canonical ingress and egress rules when they are missing,
    then revoke every other egress rule. */
module SecurityGroups {
  import opened Base
  import opened BastionTypes
  import opened Permissions
  import opened Cloud

  /** Looks a group up by network and name; absent is not an error. */
  function GetSecurityGroup(w: World, f: Faults, vpc: string, name: string): (r: Effect<Option<SecurityGroup>>)
    ensures r.world == Record(w, DescribeSecurityGroups(vpc, name))
    ensures r.result.Failure? <==> Fails(f, w)
    ensures r.result.Failure? ==> r.result.error == ListSecurityGroupsFailed
    ensures r.result.Success? ==>
              r.result.value == if Lags(f, w) then None else FindGroup(w.state.groups, vpc, name)
  {
    var (w', groups) := DescribeGroups(w, f, vpc, name);
    match groups
    case Failure(_) => Effect(w', Failure(ListSecurityGroupsFailed))
    case Success(gs) => if |gs| == 0 then Effect(w', Success(None)) else Effect(w', Success(Some(gs[0])))
  }

  /** The bastion group has converged: it exists, holds the canonical
      ingress rule, and its egress rules are the canonical one and nothing
      else. */
  predicate Converged(s: State, opt: Options, ingress: Permission)
  {
    var egress := EgressPermission(opt.workerSecurityGroupId);
    match FindGroup(s.groups, opt.vpcId, opt.bastionSecurityGroupName)
    case None => false
    case Some(g) =>
      && HasPermission(g.ingress, ingress)
      && HasPermission(g.egress, egress)
      && forall p :: p in g.egress ==> SamePermission(p, egress)
  }

  /** A step that fails with `e` issued `c` as its last call: the call whose
      failure `e` reports, or the lookup after which the step gave up. */
  predicate EndsWith(e: Error, c: Call)
  {
    match e
    case ListSecurityGroupsFailed => c.DescribeSecurityGroups?
    case InvalidIngressCidr(_) => c.DescribeSecurityGroups?
    case NilSecurityGroupDereference => c.DescribeSecurityGroups?
    case CreateSecurityGroupFailed => c.CreateSecurityGroup?
    case AuthorizeIngressFailed => c.AuthorizeIngress?
    case AuthorizeEgressFailed => c.AuthorizeEgress?
    case RevokeEgressFailed => c.RevokeEgress?
    case _ => false
  }

  /** The step failed with an error about its last call: nothing was issued
      after the call that failed. */
  predicate StoppedAtFailure(w: World, r: Effect<GroupId>)
  {
    r.result.Failure? ==> |r.world.trace| > |w.trace| && EndsWith(r.result.error, r.world.trace[|r.world.trace| - 1])
  }

  /** Ensures the bastion security group and returns its identifier. */
  function EnsureSecurityGroup(w: World, f: Faults, parse: Parser, spec: BastionSpec, opt: Options): (r: Effect<GroupId>)
    ensures Extends(w, r.world)
    // a failed lookup ends the step before any other call
    ensures Fails(f, w) ==>
              r.result == Failure(ListSecurityGroupsFailed)
              && r.world == Record(w, DescribeSecurityGroups(opt.vpcId, opt.bastionSecurityGroupName))
    // so does an invalid ingress list, naming the offending CIDR
    ensures !Fails(f, w) && IngressPermission(parse, spec.ingressCidrs).Failure? ==>
              r.result == Failure(InvalidIngressCidr(IngressPermission(parse, spec.ingressCidrs).error))
              && r.world == Record(w, DescribeSecurityGroups(opt.vpcId, opt.bastionSecurityGroupName))
    ensures r.result.Success? ==> IngressPermission(parse, spec.ingressCidrs).Success?
    // any later failure is reported for the call that failed, and no call follows it
    ensures StoppedAtFailure(w, r)
    // groups are never deleted and ingress rules never revoked; instances are untouched
    ensures Grows(w.state, r.world.state) && r.world.state.reservations == w.state.reservations
  {
    var Effect(w1, found) := GetSecurityGroup(w, f, opt.vpcId, opt.bastionSecurityGroupName);
    if found.Failure? then Effect(w1, Failure(found.error))
    else
      match IngressPermission(parse, spec.ingressCidrs)
      case Failure(cidr) => Effect(w1, Failure(InvalidIngressCidr(cidr)))
      case Success(ingress) =>
        var r := CreateOrAdopt(w1, f, opt, found.value, ingress);
        ExtendsByAppend(w, w1, [DescribeSecurityGroups(opt.vpcId, opt.bastionSecurityGroupName)]);
        ExtendsTransitive(w, w1, r.world);
        r
  }

  /** Creates the group when the lookup found none, then authorises the
      missing canonical rules and prunes egress. */
  function CreateOrAdopt(w: World, f: Faults, opt: Options, found: Option<SecurityGroup>, ingress: Permission)
    : (r: Effect<GroupId>)
    ensures Extends(w, r.world)
    ensures StoppedAtFailure(w, r)
    // a failed create ends the step with its own error and changes nothing
    ensures r.result == Failure(CreateSecurityGroupFailed) <==> found.None? && Fails(f, w)
    ensures r.result == Failure(CreateSecurityGroupFailed) ==>
              r.world == Record(w, CreateSecurityGroup(opt.vpcId, opt.bastionSecurityGroupName, opt.bastionSecurityGroupName))
    ensures Grows(w.state, r.world.state) && r.world.state.reservations == w.state.reservations
  {
    var egress := EgressPermission(opt.workerSecurityGroupId);
    match found
    case None =>
      var (w1, created) := CreateGroup(w, f, opt.vpcId, opt.bastionSecurityGroupName);
      if created.Failure? then Effect(w1, Failure(CreateSecurityGroupFailed))
      else
        var r := AuthorizeMissing(w1, f, opt, created.value, ingress, egress, false, false);
        GrowsTransitive(w.state, w1.state, r.world.state);
        ExtendsTransitive(w, w1, r.world);
        r
    case Some(g) =>
      AuthorizeMissing(w, f, opt, g.id, ingress, egress,
                       HasPermission(g.ingress, ingress), HasPermission(g.egress, egress))
  }

  /** Authorises whichever canonical rule is missing, then prunes egress. */
  function AuthorizeMissing(w: World, f: Faults, opt: Options, id: GroupId, ingress: Permission, egress: Permission,
                            hasIngress: bool, hasEgress: bool): (r: Effect<GroupId>)
    ensures Extends(w, r.world)
    ensures StoppedAtFailure(w, r)
    // a rejected ingress authorisation ends the step with its own error and changes nothing
    ensures r.result == Failure(AuthorizeIngressFailed) <==>
              !hasIngress && (Fails(f, w) || !HasGroupId(w.state.groups, id))
    ensures r.result == Failure(AuthorizeIngressFailed) ==> r.world == Record(w, AuthorizeIngress(id, [ingress]))
    // so does a rejected egress authorisation, which comes after the ingress one
    ensures r.result == Failure(AuthorizeEgressFailed) <==>
              && !hasEgress
              && (hasIngress || (!Fails(f, w) && HasGroupId(w.state.groups, id)))
              && ((|w.trace| + if hasIngress then 0 else 1) in f.failing || !HasGroupId(w.state.groups, id))
    ensures r.result == Failure(AuthorizeEgressFailed) ==>
              r.world.trace == w.trace + (if hasIngress then [] else [AuthorizeIngress(id, [ingress])])
                                       + [AuthorizeEgress(id, [egress])]
    ensures Grows(w.state, r.world.state) && r.world.state.reservations == w.state.reservations
  {
    var (w1, authIn) := AuthorizeUnless(w, f, hasIngress, id, AuthorizeIngress(id, [ingress]), AddIngress([ingress]));
    if authIn.Failure? then Effect(w1, Failure(AuthorizeIngressFailed))
    else
      UpdateKeepsIds(w.state.groups, id, AddIngress([ingress]), id);
      var r := AuthorizeEgressThenPrune(w1, f, opt, id, egress, hasEgress);
      ExtendsTransitive(w, w1, r.world);
      GrowsTransitive(w.state, w1.state, r.world.state);
      r
  }

  /** The second half of `AuthorizeMissing`: the egress authorisation, when
      the rule is missing, then the pruning. */
  function AuthorizeEgressThenPrune(w: World, f: Faults, opt: Options, id: GroupId, egress: Permission, hasEgress: bool)
    : (r: Effect<GroupId>)
    ensures Extends(w, r.world)
    ensures StoppedAtFailure(w, r)
    ensures r.result != Failure(AuthorizeIngressFailed)
    ensures r.result == Failure(AuthorizeEgressFailed) <==> !hasEgress && (Fails(f, w) || !HasGroupId(w.state.groups, id))
    ensures r.result == Failure(AuthorizeEgressFailed) ==> r.world == Record(w, AuthorizeEgress(id, [egress]))
    ensures Grows(w.state, r.world.state) && r.world.state.reservations == w.state.reservations
  {
    var (w1, authEg) := AuthorizeUnless(w, f, hasEgress, id, AuthorizeEgress(id, [egress]), AddEgress([egress]));
    if authEg.Failure? then Effect(w1, Failure(AuthorizeEgressFailed))
    else
      var r := PruneEgress(w1, f, opt, id, egress);
      ExtendsTransitive(w, w1, r.world);
      GrowsTransitive(w.state, w1.state, r.world.state);
      r
  }

  /** Issues a rule call unless the rule is already present. */
  function AuthorizeUnless(w: World, f: Faults, present: bool, id: GroupId, call: Call, ch: RuleChange)
    : (r: (World, Result<(), ApiFault>))
    ensures r.0.trace == w.trace + (if present then [] else [call])
    ensures present ==> r == (w, Success(()))
    ensures r.1.Failure? <==> !present && (Fails(f, w) || !HasGroupId(w.state.groups, id))
    ensures r.1.Failure? ==> r.0.state == w.state
    ensures Grows(w.state, r.0.state) && r.0.state.reservations == w.state.reservations
  {
    if present then (w, Success(())) else ChangeRules(w, f, id, call, ch)
  }

  /** Re-reads the group and revokes, in one call, every egress rule that
      differs from the canonical one. */
  function PruneEgress(w: World, f: Faults, opt: Options, id: GroupId, egress: Permission): (r: Effect<GroupId>)
    ensures Extends(w, r.world)
    ensures StoppedAtFailure(w, r)
    ensures var describe := Record(w, DescribeSecurityGroups(opt.vpcId, opt.bastionSecurityGroupName));
            && (Fails(f, w) ==> r == Effect(describe, Failure(ListSecurityGroupsFailed)))
               // a re-read that finds nothing is the source's nil dereference: no revoke follows
            && (!Fails(f, w) && (Lags(f, w) || FindGroup(w.state.groups, opt.vpcId, opt.bastionSecurityGroupName).None?) ==>
                  r == Effect(describe, Failure(NilSecurityGroupDereference)))
            && (!Fails(f, w) && !Lags(f, w) && FindGroup(w.state.groups, opt.vpcId, opt.bastionSecurityGroupName).Some? ==>
                  r == RevokeExtra(describe, f, id,
                                   ExtraEgress(FindGroup(w.state.groups, opt.vpcId, opt.bastionSecurityGroupName).value.egress, egress)))
    ensures Grows(w.state, r.world.state) && r.world.state.reservations == w.state.reservations
  {
    var Effect(w1, reread) := GetSecurityGroup(w, f, opt.vpcId, opt.bastionSecurityGroupName);
    if reread.Failure? then Effect(w1, Failure(reread.error))
    else if reread.value.None? then Effect(w1, Failure(NilSecurityGroupDereference))
    else
      var r := RevokeExtra(w1, f, id, ExtraEgress(reread.value.value.egress, egress));
      ExtendsTransitive(w, w1, r.world);
      r
  }

  /** Revokes the given egress rules in one call, issued only when there are
      any; a rejected revoke is the step's error and changes nothing. */
  function RevokeExtra(w: World, f: Faults, id: GroupId, extra: seq<Permission>): (r: Effect<GroupId>)
    ensures r.world.trace == w.trace + (if |extra| == 0 then [] else [RevokeEgress(id, extra)])
    ensures Extends(w, r.world)
    ensures r.result.Failure? <==> |extra| > 0 && (Fails(f, w) || !HasGroupId(w.state.groups, id))
    ensures r.result.Failure? ==> r.result.error == RevokeEgressFailed && r.world.state == w.state
    ensures r.result.Success? ==> r.result.value == id
    ensures |extra| > 0 && r.result.Success? ==> r.world.state == w.state.(groups := UpdateGroups(w.state.groups, id, DropEgress(extra)))
    ensures |extra| == 0 ==> r.world == w
    ensures Grows(w.state, r.world.state) && r.world.state.reservations == w.state.reservations
  {
    if |extra| == 0 then Effect(w, Success(id))
    else
      var (w1, revoked) := RevokeGroupEgress(w, f, id, extra);
      ExtendsByAppend(w, w1, [RevokeEgress(id, extra)]);
      if revoked.Failure? then Effect(w1, Failure(RevokeEgressFailed))
      else Effect(w1, Success(id))
  }

  // --- convergence properties ------------------------------------------------

  /** With the canonical egress rule present, revoking the other rules keeps
      every rule equal to it, and only those. */
  lemma PruneLeavesCanonical(egress: seq<Permission>, canonical: Permission)
    requires HasPermission(egress, canonical)
    ensures var kept := Unrevoked(egress, ExtraEgress(egress, canonical));
            && HasPermission(kept, canonical)
            && forall p :: p in kept ==> SamePermission(p, canonical)
  {
    var extra := ExtraEgress(egress, canonical);
    var q :| q in egress && SamePermission(q, canonical);
    assert q in Unrevoked(egress, extra);
  }

  /** A rule just appended is present. */
  lemma AppendedIsPresent(perms: seq<Permission>, p: Permission)
    ensures HasPermission(perms + [p], p)
  {
    assert p in perms + [p] && SamePermission(p, p);
  }

  /** Under no faults, authorising a missing rule on a group found by name
      succeeds and the lookup then finds the group with the rule added. */
  lemma AuthorizeUnlessOnFound(w: World, present: bool, call: Call, ch: RuleChange, vpc: string, name: string, g: SecurityGroup)
    requires FindGroup(w.state.groups, vpc, name) == Some(g)
    ensures var r := AuthorizeUnless(w, NoFaults, present, g.id, call, ch);
            && r.1.Success?
            && FindGroup(r.0.state.groups, vpc, name) == Some(if present then g else ApplyChange(g, ch))
            && r.0.state.reservations == w.state.reservations
  {
    if !present {
      ChangeRulesOnFound(w, call, ch, vpc, name, g);
    }
  }

  /** Under no faults, pruning a group found by name revokes exactly the
      re-read egress rules that differ from the canonical one, in one call
      issued only when there are any. */
  lemma PruneEgressExact(w: World, opt: Options, g: SecurityGroup)
    requires FindGroup(w.state.groups, opt.vpcId, opt.bastionSecurityGroupName) == Some(g)
    ensures var egress := EgressPermission(opt.workerSecurityGroupId);
            var extra := ExtraEgress(g.egress, egress);
            var r := PruneEgress(w, NoFaults, opt, g.id, egress);
            && r.result == Success(g.id)
            && r.world.trace == w.trace + [DescribeSecurityGroups(opt.vpcId, opt.bastionSecurityGroupName)]
                                        + (if |extra| == 0 then [] else [RevokeEgress(g.id, extra)])
            && FindGroup(r.world.state.groups, opt.vpcId, opt.bastionSecurityGroupName)
               == Some(if |extra| == 0 then g else RemoveEgress(g, extra))
            && r.world.state.reservations == w.state.reservations
            && (|extra| == 0 ==> r.world.state == w.state)
  {
    var egress := EgressPermission(opt.workerSecurityGroupId);
    var extra := ExtraEgress(g.egress, egress);
    var describe := DescribeSecurityGroups(opt.vpcId, opt.bastionSecurityGroupName);
    var w1 := Record(w, describe);
    var r := PruneEgress(w, NoFaults, opt, g.id, egress);
    assert r == RevokeExtra(w1, NoFaults, g.id, extra);
    assert w1.state == w.state;
    if |extra| > 0 {
      assert g in w1.state.groups && HasGroupId(w1.state.groups, g.id);
      FindGroupAfterUpdate(w1.state.groups, g.id, DropEgress(extra), opt.vpcId, opt.bastionSecurityGroupName);
    }
  }

  /** Under no faults, authorising the missing rules on a group found by name
      and pruning its egress succeeds, issues exactly those calls, and leaves
      the group converged. */
  lemma AuthorizeMissingConverges(w: World, opt: Options, g: SecurityGroup, ingress: Permission,
                                  hasIngress: bool, hasEgress: bool)
    requires FindGroup(w.state.groups, opt.vpcId, opt.bastionSecurityGroupName) == Some(g)
    requires hasIngress ==> HasPermission(g.ingress, ingress)
    requires hasEgress ==> HasPermission(g.egress, EgressPermission(opt.workerSecurityGroupId))
    ensures var egress := EgressPermission(opt.workerSecurityGroupId);
            var extra := ExtraEgress(g.egress + (if hasEgress then [] else [egress]), egress);
            var r := AuthorizeMissing(w, NoFaults, opt, g.id, ingress, egress, hasIngress, hasEgress);
            && r.result == Success(g.id)
            && r.world.trace == w.trace + (if hasIngress then [] else [AuthorizeIngress(g.id, [ingress])])
                                        + (if hasEgress then [] else [AuthorizeEgress(g.id, [egress])])
                                        + [DescribeSecurityGroups(opt.vpcId, opt.bastionSecurityGroupName)]
                                        + (if |extra| == 0 then [] else [RevokeEgress(g.id, extra)])
            && Converged(r.world.state, opt, ingress)
            && FindGroup(r.world.state.groups, opt.vpcId, opt.bastionSecurityGroupName).value.id == g.id
            && r.world.state.reservations == w.state.reservations
  {
    var egress := EgressPermission(opt.workerSecurityGroupId);
    var w2 := AuthorizeBoth(w, opt, g, ingress, hasIngress, hasEgress);
    var g2 := g.(ingress := g.ingress + (if hasIngress then [] else [ingress]),
                 egress := g.egress + (if hasEgress then [] else [egress]));
    PruneEgressExact(w2, opt, g2);
    PruneLeavesCanonical(g2.egress, egress);
  }

  /** The two authorisation calls of `AuthorizeMissing` under no faults, on
      the group a name lookup finds: afterwards the lookup finds that group
      with both canonical rules. */
  lemma AuthorizeBoth(w: World, opt: Options, g: SecurityGroup, ingress: Permission, hasIngress: bool, hasEgress: bool)
    returns (w2: World)
    requires FindGroup(w.state.groups, opt.vpcId, opt.bastionSecurityGroupName) == Some(g)
    requires hasIngress ==> HasPermission(g.ingress, ingress)
    requires hasEgress ==> HasPermission(g.egress, EgressPermission(opt.workerSecurityGroupId))
    ensures var egress := EgressPermission(opt.workerSecurityGroupId);
            var g2 := g.(ingress := g.ingress + (if hasIngress then [] else [ingress]),
                         egress := g.egress + (if hasEgress then [] else [egress]));
            && AuthorizeMissing(w, NoFaults, opt, g.id, ingress, egress, hasIngress, hasEgress)
               == PruneEgress(w2, NoFaults, opt, g.id, egress)
            && w2.trace == w.trace + (if hasIngress then [] else [AuthorizeIngress(g.id, [ingress])])
                                   + (if hasEgress then [] else [AuthorizeEgress(g.id, [egress])])
            && FindGroup(w2.state.groups, opt.vpcId, opt.bastionSecurityGroupName) == Some(g2)
            && HasPermission(g2.ingress, ingress) && HasPermission(g2.egress, egress)
            && w2.state.reservations == w.state.reservations
  {
    var egress := EgressPermission(opt.workerSecurityGroupId);
    var w1 := IngressOnFound(w, opt, g, ingress, egress, hasIngress, hasEgress);
    var g1 := g.(ingress := g.ingress + (if hasIngress then [] else [ingress]));
    assert HasPermission(g1.ingress, ingress) by {
      if !hasIngress { AppendedIsPresent(g.ingress, ingress); }
    }
    w2 := EgressThenPruneOnFound(w1, opt, g1, hasEgress);
    assert HasPermission(g.egress + (if hasEgress then [] else [egress]), egress) by {
      if !hasEgress { AppendedIsPresent(g.egress, egress); }
    }
  }

  /** The ingress half of `AuthorizeBoth`: under no faults the ingress call,
      when the rule is missing, lands on the group found by name, and the
      step goes on to the egress half. */
  lemma IngressOnFound(w: World, opt: Options, g: SecurityGroup, ingress: Permission, egress: Permission,
                       hasIngress: bool, hasEgress: bool) returns (w1: World)
    requires FindGroup(w.state.groups, opt.vpcId, opt.bastionSecurityGroupName) == Some(g)
    ensures && AuthorizeMissing(w, NoFaults, opt, g.id, ingress, egress, hasIngress, hasEgress)
               == AuthorizeEgressThenPrune(w1, NoFaults, opt, g.id, egress, hasEgress)
            && w1.trace == w.trace + (if hasIngress then [] else [AuthorizeIngress(g.id, [ingress])])
            && FindGroup(w1.state.groups, opt.vpcId, opt.bastionSecurityGroupName)
               == Some(g.(ingress := g.ingress + (if hasIngress then [] else [ingress])))
            && w1.state.reservations == w.state.reservations
  {
    var callIn := AuthorizeIngress(g.id, [ingress]);
    w1 := AuthorizeUnless(w, NoFaults, hasIngress, g.id, callIn, AddIngress([ingress])).0;
    AuthorizeUnlessOnFound(w, hasIngress, callIn, AddIngress([ingress]), opt.vpcId, opt.bastionSecurityGroupName, g);
    if hasIngress {
      assert g.ingress + [] == g.ingress;
    }
  }

  /** The egress half of `AuthorizeBoth`: under no faults the egress call,
      when the rule is missing, lands on the group found by name, and the
      step goes on to prune. */
  lemma EgressThenPruneOnFound(w: World, opt: Options, g: SecurityGroup, hasEgress: bool) returns (w2: World)
    requires FindGroup(w.state.groups, opt.vpcId, opt.bastionSecurityGroupName) == Some(g)
    ensures var egress := EgressPermission(opt.workerSecurityGroupId);
            && AuthorizeEgressThenPrune(w, NoFaults, opt, g.id, egress, hasEgress) == PruneEgress(w2, NoFaults, opt, g.id, egress)
            && w2.trace == w.trace + (if hasEgress then [] else [AuthorizeEgress(g.id, [egress])])
            && FindGroup(w2.state.groups, opt.vpcId, opt.bastionSecurityGroupName)
               == Some(g.(egress := g.egress + (if hasEgress then [] else [egress])))
            && w2.state.reservations == w.state.reservations
  {
    var egress := EgressPermission(opt.workerSecurityGroupId);
    var callEg := AuthorizeEgress(g.id, [egress]);
    w2 := AuthorizeUnless(w, NoFaults, hasEgress, g.id, callEg, AddEgress([egress])).0;
    AuthorizeUnlessOnFound(w, hasEgress, callEg, AddEgress([egress]), opt.vpcId, opt.bastionSecurityGroupName, g);
    if hasEgress {
      assert g.egress + [] == g.egress;
    }
  }

  /** Under no faults and with a valid ingress list, the step either creates
      the missing group or adopts the one found, then goes on to authorise. */
  lemma EnsureSecurityGroupDispatch(w: World, parse: Parser, spec: BastionSpec, opt: Options)
    requires IngressPermission(parse, spec.ingressCidrs).Success?
    ensures var ingress := IngressPermission(parse, spec.ingressCidrs).value;
            var egress := EgressPermission(opt.workerSecurityGroupId);
            var w1 := Record(w, DescribeSecurityGroups(opt.vpcId, opt.bastionSecurityGroupName));
            var r := EnsureSecurityGroup(w, NoFaults, parse, spec, opt);
            match FindGroup(w.state.groups, opt.vpcId, opt.bastionSecurityGroupName)
            case None =>
              r == AuthorizeMissing(CreateGroup(w1, NoFaults, opt.vpcId, opt.bastionSecurityGroupName).0, NoFaults,
                                    opt, w.state.nextGroupId, ingress, egress, false, false)
            case Some(g) =>
              r == AuthorizeMissing(w1, NoFaults, opt, g.id, ingress, egress,
                                    HasPermission(g.ingress, ingress), HasPermission(g.egress, egress))
  {
  }

  /** Under no faults and with a valid ingress list, the step succeeds and
      leaves the group converged, whatever the starting state. */
  lemma EnsureSecurityGroupConverges(w: World, parse: Parser, spec: BastionSpec, opt: Options)
    requires IngressPermission(parse, spec.ingressCidrs).Success?
    ensures var r := EnsureSecurityGroup(w, NoFaults, parse, spec, opt);
            && r.result.Success?
            && Converged(r.world.state, opt, IngressPermission(parse, spec.ingressCidrs).value)
            && r.result.value == FindGroup(r.world.state.groups, opt.vpcId, opt.bastionSecurityGroupName).value.id
            && r.world.state.reservations == w.state.reservations
  {
    var vpc, name := opt.vpcId, opt.bastionSecurityGroupName;
    var ingress := IngressPermission(parse, spec.ingressCidrs).value;
    var egress := EgressPermission(opt.workerSecurityGroupId);
    var w1 := Record(w, DescribeSecurityGroups(vpc, name));
    match FindGroup(w.state.groups, vpc, name)
    case None =>
      var w2 := CreateGroup(w1, NoFaults, vpc, name).0;
      var g := NewGroup(w1.state, vpc, name);
      FindGroupAfterAppend(w1.state.groups, g, vpc, name);
      AuthorizeMissingConverges(w2, opt, g, ingress, false, false);
    case Some(g) =>
      AuthorizeMissingConverges(w1, opt, g, ingress,
                                HasPermission(g.ingress, ingress), HasPermission(g.egress, egress));
  }

  /** Under no faults, a missing group is created once and the canonical
      rules are authorised on the new identifier, after which the new
      group's default egress rules that differ from the canonical one are
      revoked. */
  lemma EnsureSecurityGroupCreates(w: World, parse: Parser, spec: BastionSpec, opt: Options)
    requires IngressPermission(parse, spec.ingressCidrs).Success?
    requires FindGroup(w.state.groups, opt.vpcId, opt.bastionSecurityGroupName).None?
    ensures var r := EnsureSecurityGroup(w, NoFaults, parse, spec, opt);
            var id := w.state.nextGroupId;
            var egress := EgressPermission(opt.workerSecurityGroupId);
            var extra := ExtraEgress(w.state.newGroupEgress + [egress], egress);
            var describe := DescribeSecurityGroups(opt.vpcId, opt.bastionSecurityGroupName);
            && r.result == Success(id)
            && r.world.trace
               == w.trace + [describe,
                   CreateSecurityGroup(opt.vpcId, opt.bastionSecurityGroupName, opt.bastionSecurityGroupName),
                   AuthorizeIngress(id, [IngressPermission(parse, spec.ingressCidrs).value]),
                   AuthorizeEgress(id, [egress]),
                   describe]
                  + (if |extra| == 0 then [] else [RevokeEgress(id, extra)])
  {
    var vpc, name := opt.vpcId, opt.bastionSecurityGroupName;
    var ingress := IngressPermission(parse, spec.ingressCidrs).value;
    var egress := EgressPermission(opt.workerSecurityGroupId);
    var w1 := Record(w, DescribeSecurityGroups(vpc, name));
    var w2 := CreateGroup(w1, NoFaults, vpc, name).0;
    var id := w.state.nextGroupId;
    assert w.trace + [DescribeSecurityGroups(vpc, name)] + [CreateSecurityGroup(vpc, name, name)]
                   + [AuthorizeIngress(id, [ingress])] + [AuthorizeEgress(id, [egress])] + [DescribeSecurityGroups(vpc, name)]
           == w.trace + [DescribeSecurityGroups(vpc, name), CreateSecurityGroup(vpc, name, name),
                         AuthorizeIngress(id, [ingress]), AuthorizeEgress(id, [egress]), DescribeSecurityGroups(vpc, name)];
    EnsureSecurityGroupDispatch(w, parse, spec, opt);
    NewGroupAuthorized(w1, opt, ingress);
    var r := EnsureSecurityGroup(w, NoFaults, parse, spec, opt);
    assert r == AuthorizeMissing(w2, NoFaults, opt, id, ingress, egress, false, false);
  }

  /** The calls on a freshly created group: both canonical rules, the
      re-read, and the revocation of the default egress rules. */
  lemma NewGroupAuthorized(w: World, opt: Options, ingress: Permission)
    requires FindGroup(w.state.groups, opt.vpcId, opt.bastionSecurityGroupName).None?
    ensures var vpc, name := opt.vpcId, opt.bastionSecurityGroupName;
            var id := w.state.nextGroupId;
            var egress := EgressPermission(opt.workerSecurityGroupId);
            var extra := ExtraEgress(w.state.newGroupEgress + [egress], egress);
            var w2 := CreateGroup(w, NoFaults, vpc, name).0;
            var r := AuthorizeMissing(w2, NoFaults, opt, id, ingress, egress, false, false);
            && r.result == Success(id)
            && r.world.trace == w2.trace + [AuthorizeIngress(id, [ingress])] + [AuthorizeEgress(id, [egress])]
                                         + [DescribeSecurityGroups(vpc, name)]
                                         + (if |extra| == 0 then [] else [RevokeEgress(id, extra)])
  {
    var vpc, name := opt.vpcId, opt.bastionSecurityGroupName;
    var w2 := CreateGroup(w, NoFaults, vpc, name).0;
    var g := NewGroup(w.state, vpc, name);
    FindGroupAfterAppend(w.state.groups, g, vpc, name);
    assert FindGroup(w2.state.groups, vpc, name) == Some(g);
    AuthorizeMissingConverges(w2, opt, g, ingress, false, false);
  }

  /** The default "allow all" egress rule is the one rule to revoke once the
      canonical rule has been added. */
  lemma DefaultEgressIsExtra(worker: GroupId)
    ensures var egress := EgressPermission(worker);
            ExtraEgress([AllowAllEgress] + [egress], egress) == [AllowAllEgress]
  {
    var egress := EgressPermission(worker);
    assert !SamePermission(AllowAllEgress, egress);
    assert ([AllowAllEgress] + [egress])[1..] == [egress];
    assert [egress][1..] == [];
  }

  /** With EC2's default "allow all" egress rule on new groups, a created
      group's sixth and last call revokes exactly that rule. */
  lemma CreatedGroupLosesAllowAll(w: World, parse: Parser, spec: BastionSpec, opt: Options)
    requires IngressPermission(parse, spec.ingressCidrs).Success?
    requires FindGroup(w.state.groups, opt.vpcId, opt.bastionSecurityGroupName).None?
    requires w.state.newGroupEgress == [AllowAllEgress]
    ensures var r := EnsureSecurityGroup(w, NoFaults, parse, spec, opt);
            && |r.world.trace| == |w.trace| + 6
            && r.world.trace[|w.trace| + 5] == RevokeEgress(w.state.nextGroupId, [AllowAllEgress])
  {
    EnsureSecurityGroupCreates(w, parse, spec, opt);
    DefaultEgressIsExtra(opt.workerSecurityGroupId);
  }

  /** A new group that is not yet visible to the re-read after both
      authorisations ends the step at the source's nil dereference: five
      calls and no revoke. */
  lemma NewGroupNotYetVisible(w: World, parse: Parser, spec: BastionSpec, opt: Options)
    requires IngressPermission(parse, spec.ingressCidrs).Success?
    requires FindGroup(w.state.groups, opt.vpcId, opt.bastionSecurityGroupName).None?
    ensures var f := Faults({}, {|w.trace| + 4});
            var r := EnsureSecurityGroup(w, f, parse, spec, opt);
            var id := w.state.nextGroupId;
            var describe := DescribeSecurityGroups(opt.vpcId, opt.bastionSecurityGroupName);
            && r.result == Failure(NilSecurityGroupDereference)
            && r.world.trace
               == w.trace + [describe,
                   CreateSecurityGroup(opt.vpcId, opt.bastionSecurityGroupName, opt.bastionSecurityGroupName),
                   AuthorizeIngress(id, [IngressPermission(parse, spec.ingressCidrs).value]),
                   AuthorizeEgress(id, [EgressPermission(opt.workerSecurityGroupId)]),
                   describe]
  {
    var f := Faults({}, {|w.trace| + 4});
    var vpc, name := opt.vpcId, opt.bastionSecurityGroupName;
    var ingress := IngressPermission(parse, spec.ingressCidrs).value;
    var egress := EgressPermission(opt.workerSecurityGroupId);
    var id := w.state.nextGroupId;
    assert w.trace + [DescribeSecurityGroups(vpc, name)] + [CreateSecurityGroup(vpc, name, name)]
                   + [AuthorizeIngress(id, [ingress])] + [AuthorizeEgress(id, [egress])] + [DescribeSecurityGroups(vpc, name)]
           == w.trace + [DescribeSecurityGroups(vpc, name), CreateSecurityGroup(vpc, name, name),
                         AuthorizeIngress(id, [ingress]), AuthorizeEgress(id, [egress]), DescribeSecurityGroups(vpc, name)];
    var w1 := Record(w, DescribeSecurityGroups(vpc, name));
    var w2 := CreateGroup(w1, f, vpc, name).0;
    assert HasGroupId(w2.state.groups, id) by {
      assert NewGroup(w1.state, vpc, name) in w2.state.groups;
    }
    var w3 := AuthorizeUnless(w2, f, false, id, AuthorizeIngress(id, [ingress]), AddIngress([ingress])).0;
    UpdateKeepsIds(w2.state.groups, id, AddIngress([ingress]), id);
    var w4 := AuthorizeUnless(w3, f, false, id, AuthorizeEgress(id, [egress]), AddEgress([egress])).0;
    assert |w4.trace| == |w.trace| + 4;
  }

  /** Under no faults, an existing group is never recreated: the missing
      canonical rules are authorised on it and the revoke call carries
      exactly the other egress rules, in observed order. */
  lemma EnsureSecurityGroupAdopts(w: World, parse: Parser, spec: BastionSpec, opt: Options, g: SecurityGroup)
    requires IngressPermission(parse, spec.ingressCidrs).Success?
    requires FindGroup(w.state.groups, opt.vpcId, opt.bastionSecurityGroupName) == Some(g)
    ensures var ingress := IngressPermission(parse, spec.ingressCidrs).value;
            var egress := EgressPermission(opt.workerSecurityGroupId);
            var hasIngress := HasPermission(g.ingress, ingress);
            var hasEgress := HasPermission(g.egress, egress);
            var extra := ExtraEgress(g.egress + (if hasEgress then [] else [egress]), egress);
            var r := EnsureSecurityGroup(w, NoFaults, parse, spec, opt);
            && r.result == Success(g.id)
            && r.world.trace == w.trace + [DescribeSecurityGroups(opt.vpcId, opt.bastionSecurityGroupName)]
                                     + (if hasIngress then [] else [AuthorizeIngress(g.id, [ingress])])
                                     + (if hasEgress then [] else [AuthorizeEgress(g.id, [egress])])
                                     + [DescribeSecurityGroups(opt.vpcId, opt.bastionSecurityGroupName)]
                                     + (if |extra| == 0 then [] else [RevokeEgress(g.id, extra)])
  {
    var ingress := IngressPermission(parse, spec.ingressCidrs).value;
    var egress := EgressPermission(opt.workerSecurityGroupId);
    var w1 := Record(w, DescribeSecurityGroups(opt.vpcId, opt.bastionSecurityGroupName));
    var hasIngress := HasPermission(g.ingress, ingress);
    var hasEgress := HasPermission(g.egress, egress);
    AuthorizeMissingConverges(w1, opt, g, ingress, hasIngress, hasEgress);
  }

  /** A converged group is a fixed point: a further pass issues the two
      lookups and nothing else, and changes nothing. */
  lemma EnsureSecurityGroupFixedPoint(w: World, parse: Parser, spec: BastionSpec, opt: Options)
    requires IngressPermission(parse, spec.ingressCidrs).Success?
    requires Converged(w.state, opt, IngressPermission(parse, spec.ingressCidrs).value)
    ensures var r := EnsureSecurityGroup(w, NoFaults, parse, spec, opt);
            var describe := DescribeSecurityGroups(opt.vpcId, opt.bastionSecurityGroupName);
            && r.result == Success(FindGroup(w.state.groups, opt.vpcId, opt.bastionSecurityGroupName).value.id)
            && r.world == World(w.state, w.trace + [describe, describe])
  {
    var g := FindGroup(w.state.groups, opt.vpcId, opt.bastionSecurityGroupName).value;
    var egress := EgressPermission(opt.workerSecurityGroupId);
    var w1 := Record(w, DescribeSecurityGroups(opt.vpcId, opt.bastionSecurityGroupName));
    PruneEgressExact(w1, opt, g);
  }

  /** Adding ingress rules to any group keeps the bastion group converged. */
  lemma AddIngressKeepsConverged(s: State, opt: Options, ingress: Permission, id: GroupId, perms: seq<Permission>)
    requires Converged(s, opt, ingress)
    ensures var s' := s.(groups := UpdateGroups(s.groups, id, AddIngress(perms)));
            && Converged(s', opt, ingress)
            && FindGroup(s'.groups, opt.vpcId, opt.bastionSecurityGroupName).value.id
               == FindGroup(s.groups, opt.vpcId, opt.bastionSecurityGroupName).value.id
  {
    var g := FindGroup(s.groups, opt.vpcId, opt.bastionSecurityGroupName).value;
    FindGroupAfterUpdate(s.groups, id, AddIngress(perms), opt.vpcId, opt.bastionSecurityGroupName);
    var q :| q in g.ingress && SamePermission(q, ingress);
    assert q in (g.ingress + perms);
  }
}
