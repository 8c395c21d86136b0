// The agreement between the security groups a managed VPC provisions and the groups the resources
// placed in it refer to. The two sides read the Aurora setting under different names.
module SecurityGroups {
  import opened Blueprint
  import opened Ordering
  import opened Sequences
  import opened ConcreteNames
  import opened ReferenceGraph
  import opened SecurityGroupNames
  import Sql = SqlDatabase
  import Cache

  datatype PlacedKind = PlacedCache | PlacedDatabase | OtherTarget

  datatype PlacementEdge = PlacementEdge(target: string, kind: PlacedKind)

  // ---- Deploy configuration ----

  // The per-resource key wins over the global one.
  function Lookup(config: map<string, bool>, prefix: string, name: string, suffix: string): bool {
    if name != "" && prefix + "." + name + "." + suffix in config then config[prefix + "." + name + "." + suffix]
    else if prefix + "." + suffix in config then config[prefix + "." + suffix]
    else false
  }

  function AuroraEnabled(config: map<string, bool>, name: string): bool {
    Lookup(config, "aws.aurora", name, "enabled")
  }

  // A database's own setting wins over the general one, and without either Aurora is off.
  lemma AuroraEnabledExact(config: map<string, bool>, name: string)
    ensures AuroraEnabled(config, name) <==>
            (name != "" && "aws.aurora." + name + ".enabled" in config && config["aws.aurora." + name + ".enabled"]) ||
            (!(name != "" && "aws.aurora." + name + ".enabled" in config) && "aws.aurora.enabled" in config && config["aws.aurora.enabled"])
  {
    assert "aws.aurora" + "." + name + "." + "enabled" == "aws.aurora." + name + ".enabled";
    assert "aws.aurora" + "." + "enabled" == "aws.aurora.enabled";
  }

  // spec.name as authored: a reference cannot be read before deployment.
  datatype SpecName = Unset | LiteralName(text: string) | ReferencedName

  predicate IsSpace(c: char) {
    '\t' <= c <= '\r' || c == ' ' || c == '\U{85}' || c == '\U{A0}' || c == '\U{1680}' || '\U{2000}' <= c <= '\U{200A}'
    || c == '\U{2028}' || c == '\U{2029}' || c == '\U{202F}' || c == '\U{205F}' || c == '\U{3000}'
  }

  // The ends of the ranges of white space, and the characters beyond them.
  lemma SpaceRanges()
    ensures IsSpace('\t') && IsSpace('\n') && IsSpace('\r') && IsSpace(' ') && IsSpace('\U{2000}') && IsSpace('\U{200A}')
    ensures !IsSpace('\U{8}') && !IsSpace('\U{E}') && !IsSpace('\U{1FFF}') && !IsSpace('\U{200B}') && !IsSpace('a')
  {
  }

  predicate Blank(text: string) {
    forall i :: 0 <= i < |text| ==> IsSpace(text[i])
  }

  // The name the database's own emission looks its configuration up by.
  function LogicalName(resource: string, spec: SpecName): string {
    match spec
    case LiteralName(text) => if Blank(text) then resource else text
    case _ => resource
  }

  // The name a linked handler looks it up by.
  function HandlerConfigName(resource: string, spec: SpecName): string {
    match spec
    case LiteralName(text) => if text == "" then resource else text
    case _ => resource
  }

  // ---- What the VPC provisions ----

  // The VPC looks the Aurora setting up by the database's resource name.
  function GroupsFor(config: map<string, bool>): PlacementEdge -> seq<string> {
    (e: PlacementEdge) =>
      match e.kind
      case PlacedCache => [GroupName(e.target, CacheRole)]
      case PlacedDatabase =>
        [GroupName(e.target, DatabaseRole)] + if AuroraEnabled(config, e.target) then [] else [GroupName(e.target, ProxyRole)]
      case OtherTarget => []
  }

  method PlacedSecurityGroupNames(config: map<string, bool>, edges: seq<PlacementEdge>) returns (names: seq<string>)
    ensures names == Sort(FlatMap(edges, GroupsFor(config)), LexLe)
  {
    names := [];
    for i := 0 to |edges|
      invariant names == FlatMap(edges[..i], GroupsFor(config))
    {
      assert edges[..i + 1][..i] == edges[..i];
      match edges[i].kind {
        case PlacedCache =>
          names := names + [GroupName(edges[i].target, CacheRole)];
        case PlacedDatabase =>
          var group := [GroupName(edges[i].target, DatabaseRole)];
          if !AuroraEnabled(config, edges[i].target) {
            group := group + [GroupName(edges[i].target, ProxyRole)];
          }
          names := names + group;
        case OtherTarget =>
      }
    }
    assert edges[..|edges|] == edges;
    names := Sort(names, LexLe);
  }

  // The list does not depend on the order the graph is walked in.
  lemma ProvisionedOrderIndependent(config: map<string, bool>, edges: seq<PlacementEdge>, edges': seq<PlacementEdge>)
    requires multiset(edges) == multiset(edges')
    ensures Sort(FlatMap(edges, GroupsFor(config)), LexLe) == Sort(FlatMap(edges', GroupsFor(config)), LexLe)
  {
    FlatMapPermutes(edges, edges', GroupsFor(config));
    SortStringsCanonical(FlatMap(edges, GroupsFor(config)), FlatMap(edges', GroupsFor(config)));
  }

  ghost predicate Provisioned(config: map<string, bool>, edges: seq<PlacementEdge>, group: string) {
    group in Sort(FlatMap(edges, GroupsFor(config)), LexLe)
  }

  predicate GroupOfKind(config: map<string, bool>, e: PlacementEdge, resource: string, role: GroupRole) {
    e.target == resource &&
    match role
    case CacheRole => e.kind == PlacedCache
    case DatabaseRole => e.kind == PlacedDatabase
    case ProxyRole => e.kind == PlacedDatabase && !AuroraEnabled(config, resource)
  }

  lemma GroupsForExact(config: map<string, bool>, e: PlacementEdge, resource: string, role: GroupRole)
    ensures GroupName(resource, role) in GroupsFor(config)(e) <==> GroupOfKind(config, e, resource, role)
  {
    GroupNamesUnique(resource, role, e.target, CacheRole);
    GroupNamesUnique(resource, role, e.target, DatabaseRole);
    GroupNamesUnique(resource, role, e.target, ProxyRole);
  }

  // A group is provisioned exactly for a resource placed in the VPC that has the role.
  lemma ProvisionedExact(config: map<string, bool>, edges: seq<PlacementEdge>, resource: string, role: GroupRole)
    ensures Provisioned(config, edges, GroupName(resource, role)) <==>
            exists e :: e in edges && GroupOfKind(config, e, resource, role)
  {
    var group := GroupName(resource, role);
    SameMember(FlatMap(edges, GroupsFor(config)), Sort(FlatMap(edges, GroupsFor(config)), LexLe), group);
    FlatMapMember(edges, GroupsFor(config), group);
    forall e ensures group in GroupsFor(config)(e) <==> GroupOfKind(config, e, resource, role) {
      GroupsForExact(config, e, resource, role);
    }
  }

  // ---- What the placed resources refer to ----

  ghost predicate ReadsGroup(e: Emission, vpc: string, resource: string, role: GroupRole) {
    exists n :: Mentions(e, n, ResourceOutput(FlexVpc, vpc, SecurityGroupNamed(resource, role)))
  }

  // The resource that wears the group of a role.
  function Wearer(plan: Sql.Plan, role: GroupRole): Part {
    if role == ProxyRole then RdsProxy else if plan.aurora then RdsCluster else RdsInstance
  }

  // The instance, or on Aurora the cluster, wears the database's group and the proxy its
  // own; nothing else of the database refers to a group.
  lemma DatabaseWears(plan: Sql.Plan, e: Emission, n: Node, resource: string, role: GroupRole)
    requires Sql.IsEmission(plan, e)
    ensures Mentions(e, n, ResourceOutput(FlexVpc, plan.vpc, SecurityGroupNamed(resource, role))) <==>
            resource == plan.name && role != CacheRole && (role == ProxyRole ==> !plan.aurora) &&
            n == ResourceNode(Wearer(plan, role), plan.name)
  {
    var ref := ResourceOutput(FlexVpc, plan.vpc, SecurityGroupNamed(resource, role));
    if Mentions(e, n, ref) && n.ResourceNode? {
      var i :| 0 <= i < |Sql.Built(plan, n.part).uses| && Sql.Built(plan, n.part).uses[i].ref == ref;
      GroupUse(plan, n.part, i);
    }
    if resource == plan.name && role == DatabaseRole {
      assert Sql.Built(plan, Wearer(plan, role)).uses[1].ref == ref;
    }
    if resource == plan.name && role == ProxyRole && !plan.aurora {
      assert Sql.Built(plan, RdsProxy).uses[2].ref == ref;
    }
  }

  lemma DatabaseReads(plan: Sql.Plan, e: Emission, resource: string, role: GroupRole)
    requires Sql.IsEmission(plan, e)
    ensures ReadsGroup(e, plan.vpc, resource, role) <==>
            resource == plan.name && (role == DatabaseRole || (role == ProxyRole && !plan.aurora))
  {
    DatabaseWears(plan, e, ResourceNode(Wearer(plan, role), plan.name), resource, role);
    if ReadsGroup(e, plan.vpc, resource, role) {
      var n :| Mentions(e, n, ResourceOutput(FlexVpc, plan.vpc, SecurityGroupNamed(resource, role)));
      DatabaseWears(plan, e, n, resource, role);
    }
  }

  lemma GroupUse(plan: Sql.Plan, p: Part, i: nat)
    requires Sql.Has(plan, p) && i < |Sql.Built(plan, p).uses|
    ensures var ref := Sql.Built(plan, p).uses[i].ref;
            ref.ResourceOutput? && ref.output.SecurityGroupNamed? ==>
              ref.output.resource == plan.name && ref.output.role != CacheRole &&
              (ref.output.role == ProxyRole ==> !plan.aurora) && p == Wearer(plan, ref.output.role)
  {
  }

  function PlanFor(config: map<string, bool>, name: string, spec: SpecName, vpc: string, readReplicas: bool, iam: bool): Sql.Plan {
    var logical := LogicalName(name, spec);
    Sql.Plan(name, logical, vpc, AuroraEnabled(config, logical), readReplicas, iam)
  }

  // Every group a placed database reads is provisioned, unless only the VPC's lookup finds
  // Aurora enabled: then the database emits a proxy whose group the VPC never made.
  lemma DatabaseGroupsProvisionedIff(
    config: map<string, bool>, edges: seq<PlacementEdge>, spec: SpecName, plan: Sql.Plan, e: Emission)
    requires PlacementEdge(plan.name, PlacedDatabase) in edges
    requires plan == PlanFor(config, plan.name, spec, plan.vpc, plan.readReplicas, plan.iam) && Sql.IsEmission(plan, e)
    ensures (forall resource, role :: ReadsGroup(e, plan.vpc, resource, role) ==> Provisioned(config, edges, GroupName(resource, role)))
              <==> AuroraEnabled(config, LogicalName(plan.name, spec)) || !AuroraEnabled(config, plan.name)
  {
    forall resource, role
      ensures ReadsGroup(e, plan.vpc, resource, role) <==>
              resource == plan.name && (role == DatabaseRole || (role == ProxyRole && !plan.aurora))
      ensures Provisioned(config, edges, GroupName(resource, role)) <==> exists x :: x in edges && GroupOfKind(config, x, resource, role)
    {
      DatabaseReads(plan, e, resource, role);
      ProvisionedExact(config, edges, resource, role);
    }
    assert GroupOfKind(config, PlacementEdge(plan.name, PlacedDatabase), plan.name, DatabaseRole);
    assert !AuroraEnabled(config, plan.name) ==> GroupOfKind(config, PlacementEdge(plan.name, PlacedDatabase), plan.name, ProxyRole);
    if !plan.aurora && AuroraEnabled(config, plan.name) {
      assert ReadsGroup(e, plan.vpc, plan.name, ProxyRole);
      assert !Provisioned(config, edges, GroupName(plan.name, ProxyRole));
    }
  }

  // No group provisioned for the database is left empty, unless only the database's own
  // lookup finds Aurora enabled.
  lemma DatabaseGroupsReadIff(
    config: map<string, bool>, edges: seq<PlacementEdge>, spec: SpecName, plan: Sql.Plan, e: Emission)
    requires PlacementEdge(plan.name, PlacedDatabase) in edges
    requires plan == PlanFor(config, plan.name, spec, plan.vpc, plan.readReplicas, plan.iam) && Sql.IsEmission(plan, e)
    ensures (forall role :: role != CacheRole && Provisioned(config, edges, GroupName(plan.name, role)) ==> ReadsGroup(e, plan.vpc, plan.name, role))
              <==> AuroraEnabled(config, plan.name) || !AuroraEnabled(config, LogicalName(plan.name, spec))
  {
    forall role: GroupRole
      ensures ReadsGroup(e, plan.vpc, plan.name, role) <==> role == DatabaseRole || (role == ProxyRole && !plan.aurora)
      ensures Provisioned(config, edges, GroupName(plan.name, role)) <==> exists x :: x in edges && GroupOfKind(config, x, plan.name, role)
    {
      DatabaseReads(plan, e, plan.name, role);
      ProvisionedExact(config, edges, plan.name, role);
    }
    if plan.aurora && !AuroraEnabled(config, plan.name) {
      assert GroupOfKind(config, PlacementEdge(plan.name, PlacedDatabase), plan.name, ProxyRole);
      assert Provisioned(config, edges, GroupName(plan.name, ProxyRole));
    }
  }

  // A placed cache always finds its group, and reads no other.
  lemma CacheGroupsProvisioned(config: map<string, bool>, edges: seq<PlacementEdge>, plan: Cache.Plan, e: Emission, resource: string, role: GroupRole)
    requires plan.vpc.Some? && PlacementEdge(plan.name, PlacedCache) in edges && Cache.IsEmission(plan, e)
    ensures ReadsGroup(e, plan.vpc.value, resource, role) <==> resource == plan.name && role == CacheRole
    ensures ReadsGroup(e, plan.vpc.value, resource, role) ==> Provisioned(config, edges, GroupName(resource, role))
  {
    var ref := ResourceOutput(FlexVpc, plan.vpc.value, SecurityGroupNamed(resource, role));
    if resource == plan.name && role == CacheRole {
      assert Cache.Built(plan, ReplicationGroup).uses[1].ref == ref;
      assert Mentions(e, ResourceNode(ReplicationGroup, plan.name), ref);
      assert GroupOfKind(config, PlacementEdge(plan.name, PlacedCache), plan.name, CacheRole);
      ProvisionedExact(config, edges, resource, role);
    }
    if ReadsGroup(e, plan.vpc.value, resource, role) {
      var n :| Mentions(e, n, ref);
      if n.ResourceNode? {
        var i :| 0 <= i < |Cache.Built(plan, n.part).uses| && Cache.Built(plan, n.part).uses[i].ref == ref;
      }
    }
  }

  // A concrete blueprint the groups disagree for: Aurora is enabled under the resource's
  // name, but the database has a spec.name of its own and looks it up under that.
  lemma GroupsDisagree()
    ensures var config := map["aws.aurora.orders.enabled" := true];
            AuroraEnabled(config, "orders") && !AuroraEnabled(config, LogicalName("orders", LiteralName("ordersdb")))
  {
    assert !IsSpace("ordersdb"[0]);
    assert "aws.aurora" + "." + "orders" + "." + "enabled" == "aws.aurora.orders.enabled";
    assert |"aws.aurora" + "." + "ordersdb" + "." + "enabled"| != |"aws.aurora.orders.enabled"|;
    assert |"aws.aurora" + "." + "enabled"| != |"aws.aurora.orders.enabled"|;
  }

  // ---- The resource a handler's authentication annotation names ----

  function AuthTarget(config: map<string, bool>, name: string, spec: SpecName): Part {
    if AuroraEnabled(config, HandlerConfigName(name, spec)) then RdsCluster else RdsProxy
  }

  // Handler and database agree on the target when they look the setting up under the same
  // name, which fails only for a name that is blank without being empty.
  lemma AuthTargetEmittedIff(config: map<string, bool>, spec: SpecName, plan: Sql.Plan, e: Emission)
    requires plan == PlanFor(config, plan.name, spec, plan.vpc, plan.readReplicas, plan.iam) && Sql.IsEmission(plan, e)
    ensures AuthTarget(config, plan.name, spec) in e.resources <==>
            AuroraEnabled(config, HandlerConfigName(plan.name, spec)) == AuroraEnabled(config, LogicalName(plan.name, spec))
    ensures AuthTarget(config, plan.name, spec) in e.resources ==> AuthTarget(config, plan.name, spec) == Sql.Target(plan)
    ensures !(spec.LiteralName? && spec.text != "" && Blank(spec.text)) ==> AuthTarget(config, plan.name, spec) in e.resources
  {
  }
}
