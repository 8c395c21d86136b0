// The resources a cache is emitted as, and their place in the blueprint's reference graph
// beside the databases.
module Cache {
  import opened Blueprint
  import opened ConcreteNames
  import opened ReferenceGraph
  import opened SecurityGroupNames
  import Sql = SqlDatabase

  // deferred: clusterMode or authMode is a reference, known only at deploy time.
  datatype CacheResource = CacheResource(
    name: string,
    deferred: bool,
    authMode: string,
    clusterMode: bool,
    vpc: string,
    vpcReferenced: bool,
    vpcPreset: string
  )

  function AuthMode(c: CacheResource): string {
    if c.authMode == "" then "password" else c.authMode
  }

  const PRESETS_WITHOUT_PRIVATE_SUBNETS: set<string> := {"public", "light-public"}

  predicate Blocked(c: CacheResource) {
    c.deferred || (c.vpc != "" && !c.vpcReferenced && c.vpcPreset in PRESETS_WITHOUT_PRIVATE_SUBNETS)
  }

  datatype Plan = Plan(name: string, vpc: Option<string>, clusterMode: bool, iam: bool)

  function PlanOf(c: CacheResource): Plan {
    Plan(c.name, if c.vpc == "" then None else Some(c.vpc), c.clusterMode, AuthMode(c) == "iam")
  }

  function Own(plan: Plan, field: Field, p: Part, output: Output): Use {
    Use(field, ResourceOutput(p, plan.name, output))
  }

  function SubnetGroup(vpc: string): Resource {
    Resource(Plain, [Use(SubnetIds, ResourceOutput(FlexVpc, vpc, PrivateSubnetIds))])
  }

  function PlacementUses(plan: Plan): seq<Use> {
    if plan.vpc.None? then []
    else [Own(plan, SubnetGroupField, CacheSubnetGroup, SubnetGroupName),
          Use(SecurityGroups, ResourceOutput(FlexVpc, plan.vpc.value, SecurityGroupNamed(plan.name, CacheRole)))]
  }

  function AuthUses(plan: Plan): seq<Use> {
    if plan.iam then [Own(plan, UserGroups, CacheUserGroup, UserGroupId)] else []
  }

  predicate Has(plan: Plan, p: Part) {
    match p
    case ReplicationGroup => true
    case CacheSubnetGroup => plan.vpc.Some?
    case CacheAuthSecret => !plan.iam
    case CacheIamUser | CacheUserGroup => plan.iam
    case _ => false
  }

  function FeatureOf(plan: Plan): Feature {
    if plan.clusterMode then Clustered else Plain
  }

  function Built(plan: Plan, p: Part): Resource
    requires Has(plan, p)
  {
    match p
    case ReplicationGroup => Resource(FeatureOf(plan), PlacementUses(plan) + AuthUses(plan))
    case CacheSubnetGroup => SubnetGroup(plan.vpc.value)
    case CacheAuthSecret | CacheIamUser => Resource(Plain, [])
    case CacheUserGroup => Resource(Plain, [Own(plan, Users, CacheIamUser, UserId)])
  }

  function Host(plan: Plan): Reference {
    ResourceOutput(ReplicationGroup, plan.name, if plan.clusterMode then ConfigurationEndPoint else PrimaryEndPoint)
  }

  ghost predicate IsEmission(plan: Plan, e: Emission) {
    e.owner == plan.name &&
    (forall p :: p in e.resources <==> Has(plan, p)) &&
    (forall p :: p in e.resources ==> e.resources[p] == Built(plan, p)) &&
    e.values == map[CacheHost := ReferenceValue(Host(plan))]
  }

  // unplaced: the warning that the cache is linked to no VPC; it is emitted all the same.
  method EmitCache(c: CacheResource) returns (emission: Option<Emission>, unplaced: bool)
    ensures emission.None? <==> Blocked(c)
    ensures emission.None? <==>
              c.deferred || (c.vpc != "" && !c.vpcReferenced && (c.vpcPreset == "public" || c.vpcPreset == "light-public"))
    ensures emission.Some? ==> IsEmission(PlanOf(c), emission.value)
    ensures unplaced <==> !Blocked(c) && c.vpc == ""
  {
    unplaced := false;
    if c.deferred {
      return None, false;
    }
    if c.vpc != "" && !c.vpcReferenced && c.vpcPreset in PRESETS_WITHOUT_PRIVATE_SUBNETS {
      return None, false;
    }
    var plan := PlanOf(c);
    var resources: map<Part, Resource> := map[];
    var uses: seq<Use> := [];
    if c.vpc == "" {
      unplaced := true;
    } else {
      resources := resources[CacheSubnetGroup := SubnetGroup(c.vpc)];
      uses := uses + [Own(plan, SubnetGroupField, CacheSubnetGroup, SubnetGroupName)];
      uses := uses + [Use(SecurityGroups, ResourceOutput(FlexVpc, c.vpc, SecurityGroupNamed(c.name, CacheRole)))];
    }
    assert uses == PlacementUses(plan);
    if !plan.iam {
      resources := resources[CacheAuthSecret := Resource(Plain, [])];
    } else {
      resources := resources[CacheIamUser := Resource(Plain, [])];
      resources := resources[CacheUserGroup := Resource(Plain, [Own(plan, Users, CacheIamUser, UserId)])];
      uses := uses + [Own(plan, UserGroups, CacheUserGroup, UserGroupId)];
    }
    assert uses == PlacementUses(plan) + AuthUses(plan);
    resources := resources[ReplicationGroup := Resource(if c.clusterMode then Clustered else Plain, uses)];
    emission := Some(Emission(c.name, resources, map[CacheHost := ReferenceValue(Host(plan))]));
  }

  lemma UseIsSound(plan: Plan, e: Emission, p: Part, i: nat)
    requires IsEmission(plan, e) && Has(plan, p) && i < |Built(plan, p).uses|
    ensures var ref := Built(plan, p).uses[i].ref;
            Resolves(e, if plan.vpc.Some? then plan.vpc.value else "", ref) && Rank(Destination(ref)) < Rank(ResourceNode(p, plan.name))
  {
  }

  // A cache's references all lead to something emitted, whether or not it is placed, and
  // only ever down the rank.
  lemma CacheClosedAndDescends(plan: Plan, e: Emission)
    requires IsEmission(plan, e)
    ensures Closed(e, if plan.vpc.Some? then plan.vpc.value else "") && Descends(e)
  {
    forall n, ref | Mentions(e, n, ref)
      ensures Resolves(e, if plan.vpc.Some? then plan.vpc.value else "", ref) && Rank(Destination(ref)) < Rank(n)
    {
      if n.ResourceNode? {
        var r := Built(plan, n.part);
        var i :| 0 <= i < |r.uses| && r.uses[i].ref == ref;
        UseIsSound(plan, e, n.part, i);
      }
    }
  }

  // ---- The whole blueprint ----

  // An emission of some database or some cache.
  ghost predicate Hosted(e: Emission) {
    (exists plan :: Sql.IsEmission(plan, e)) || (exists plan :: IsEmission(plan, e))
  }

  // However many databases and caches a blueprint holds, none of their resources and
  // values depends on itself.
  lemma HostedResourcesHaveNoCycle(blueprint: seq<Emission>, path: seq<Node>)
    requires forall e :: e in blueprint ==> Hosted(e)
    requires |path| >= 2 && Path(blueprint, path)
    ensures path[0] != path[|path| - 1]
  {
    forall e | e in blueprint ensures Descends(e) {
      if plan :| Sql.IsEmission(plan, e) {
        Sql.TopologyDescends(plan, e);
      } else {
        var plan :| IsEmission(plan, e);
        CacheClosedAndDescends(plan, e);
      }
    }
    NoCycle(blueprint, path);
  }

  // ---- What each field is for ----

  predicate Fits(plan: Plan, u: Use) {
    match u.field
    case SubnetIds => plan.vpc.Some? && u.ref == ResourceOutput(FlexVpc, plan.vpc.value, PrivateSubnetIds)
    case SecurityGroups => plan.vpc.Some? && u.ref == ResourceOutput(FlexVpc, plan.vpc.value, SecurityGroupNamed(plan.name, CacheRole))
    case SubnetGroupField => u.ref == ResourceOutput(CacheSubnetGroup, plan.name, SubnetGroupName)
    case UserGroups => u.ref == ResourceOutput(CacheUserGroup, plan.name, UserGroupId)
    case Users => u.ref == ResourceOutput(CacheIamUser, plan.name, UserId)
    case _ => false
  }

  function Needs(plan: Plan, p: Part): set<Field> {
    match p
    case CacheSubnetGroup => {SubnetIds}
    case CacheUserGroup => {Users}
    case ReplicationGroup =>
      (if plan.vpc.Some? then {SubnetGroupField, SecurityGroups} else {}) + if plan.iam then {UserGroups} else {}
    case _ => {}
  }

  // Every reference a resource of the cache holds is of the kind its field is for, and every
  // field the resource needs holds one.
  lemma UsesFit(plan: Plan, e: Emission, p: Part)
    requires IsEmission(plan, e) && p in e.resources
    ensures forall i :: 0 <= i < |e.resources[p].uses| ==> Fits(plan, e.resources[p].uses[i])
    ensures forall field :: Sql.HasUse(e.resources[p], field) <==> field in Needs(plan, p)
    ensures p == ReplicationGroup ==> (e.resources[p].feature == Clustered <==> plan.clusterMode)
  {
    forall field | field in Needs(plan, p) ensures Sql.HasUse(Built(plan, p), field) {
      var uses := Built(plan, p).uses;
      assert |uses| > 0 && uses[0].field == field ==> Sql.HasUse(Built(plan, p), field);
      assert |uses| > 1 && uses[1].field == field ==> Sql.HasUse(Built(plan, p), field);
      assert |uses| > 2 && uses[2].field == field ==> Sql.HasUse(Built(plan, p), field);
    }
  }

  // What a cache is emitted as, by the author's own settings: a subnet group when a VPC is
  // linked, an IAM user or else a token secret, and a replication group in the mode asked for.
  lemma EmittedFor(c: CacheResource, e: Emission)
    requires IsEmission(PlanOf(c), e)
    ensures e.owner == c.name
    ensures forall p :: p in e.resources <==>
              || p == ReplicationGroup
              || (p == CacheSubnetGroup && c.vpc != "")
              || (p == CacheAuthSecret && c.authMode != "iam")
              || ((p == CacheIamUser || p == CacheUserGroup) && c.authMode == "iam")
    ensures e.resources[ReplicationGroup].feature == Clustered <==> c.clusterMode
    ensures CacheSubnetGroup in e.resources ==>
              e.resources[CacheSubnetGroup].uses == [Use(SubnetIds, ResourceOutput(FlexVpc, c.vpc, PrivateSubnetIds))]
  {
  }
}
