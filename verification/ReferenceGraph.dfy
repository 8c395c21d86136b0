// The references between emitted resources: what a reference names, what a whole emission
// mentions, and why a ranked emission can always be put in a deployment order.
module ReferenceGraph {
  import opened ConcreteNames
  import opened SecurityGroupNames

  // An output of a concrete resource.
  datatype Output =
    | QueueUrl
    | TopicArn
    | BucketName
    | Arn
    | SecretId
    | MasterSecretArn
    | DbiResourceId
    | ProxyEndpoint
    | EndpointAddress
    | ReadEndpointAddress
    | SubnetGroupName
    | ClusterIdentifier
    | InstanceIdentifier
    | UserId
    | UserGroupId
    | PrimaryEndPoint
    | ConfigurationEndPoint
    | PrivateSubnetIds
    | SecurityGroupNamed(resource: string, role: GroupRole)

  // ${resources.<name of part>.spec.<output>} or ${values.<name of key>}.
  datatype Reference =
    | ResourceOutput(part: Part, owner: string, output: Output)
    | BlueprintValue(key: DerivedKey, owner: string)

  // The spec fields that hold references.
  datatype Field =
    | SubnetIds
    | SubnetGroupField
    | SecurityGroups
    | ClusterField
    | SourceInstance
    | RoleField
    | RegisteredSecrets
    | SecretGrants
    | ConnectGrants
    | EnvironmentHost
    | EnvironmentDatabase
    | EnvironmentCredentials
    | UserGroups
    | Users

  // ManagesMaster: the database service generates and holds the master user's password,
  // which is what gives the resource a master secret. Clustered: a cache in cluster mode,
  // which is reached at a configuration endpoint and has no primary one.
  datatype Feature = Plain | ManagesMaster | Clustered

  datatype Use = Use(field: Field, ref: Reference)

  datatype Resource = Resource(feature: Feature, uses: seq<Use>)

  datatype Derived = LiteralValue(text: string) | ReferenceValue(ref: Reference)

  // What one abstract resource is emitted as.
  datatype Emission = Emission(owner: string, resources: map<Part, Resource>, values: map<DerivedKey, Derived>)

  datatype Node = ResourceNode(part: Part, owner: string) | ValueNode(key: DerivedKey, owner: string)

  function Destination(ref: Reference): Node {
    match ref
    case ResourceOutput(part, owner, _) => ResourceNode(part, owner)
    case BlueprintValue(key, owner) => ValueNode(key, owner)
  }

  // A reference is text, and finds its target by name.
  predicate Names(ref: Reference, n: Node) {
    match ref
    case ResourceOutput(part, owner, _) => n.ResourceNode? && ResourceName(part, owner) == ResourceName(n.part, n.owner)
    case BlueprintValue(key, owner) => n.ValueNode? && ValueName(key, owner) == ValueName(n.key, n.owner)
  }

  // The text is never ambiguous: it names the resource or value it was written for.
  lemma NamesOneNode(ref: Reference, n: Node)
    ensures Names(ref, n) <==> n == Destination(ref)
  {
    match ref
    case ResourceOutput(part, owner, _) =>
      if n.ResourceNode? { ResourceNamesUnique(part, owner, n.part, n.owner); }
    case BlueprintValue(key, owner) =>
      if n.ValueNode? { ValueNamesUnique(key, owner, n.key, n.owner); }
  }

  predicate Emits(e: Emission, n: Node) {
    n.owner == e.owner && if n.ResourceNode? then n.part in e.resources else n.key in e.values
  }

  predicate Holds(r: Resource, ref: Reference) {
    exists i :: 0 <= i < |r.uses| && r.uses[i].ref == ref
  }

  predicate Mentions(e: Emission, n: Node, ref: Reference) {
    Emits(e, n) && if n.ResourceNode? then Holds(e.resources[n.part], ref) else e.values[n.key] == ReferenceValue(ref)
  }

  // What a deployed resource of each type exposes.
  predicate Offers(p: Part, r: Resource, output: Output) {
    match p
    case SqsQueue => output == QueueUrl || output == Arn
    case SnsTopic => output == TopicArn
    case DynamoTable => output == Arn
    case S3Bucket => output == BucketName || output == Arn
    case RdsSubnetGroup => output == SubnetGroupName
    case RdsInstance =>
      output == DbiResourceId || output == EndpointAddress || output == InstanceIdentifier ||
      (output == MasterSecretArn && r.feature == ManagesMaster)
    case RdsReader => output == DbiResourceId || output == EndpointAddress || output == InstanceIdentifier
    case RdsCluster =>
      output == EndpointAddress || output == ReadEndpointAddress || output == ClusterIdentifier ||
      (output == MasterSecretArn && r.feature == ManagesMaster)
    case RdsProxy => output == ProxyEndpoint
    case RdsProxyRole | MaintenanceRunnerRole => output == Arn
    case AppUserSecret | CacheAuthSecret => output == SecretId
    case MaintenanceRunner => output == Arn
    case CacheSubnetGroup => output == SubnetGroupName
    case CacheIamUser => output == UserId
    case CacheUserGroup => output == UserGroupId
    case ReplicationGroup => output == if r.feature == Clustered then ConfigurationEndPoint else PrimaryEndPoint
    case FlexVpc => output == PrivateSubnetIds || output.SecurityGroupNamed?
  }

  // Where a reference may lead: into the emission itself, or to the placement VPC.
  predicate Resolves(e: Emission, vpc: string, ref: Reference) {
    match ref
    case ResourceOutput(part, owner, output) =>
      if part == FlexVpc then owner == vpc && (output == PrivateSubnetIds || output.SecurityGroupNamed?)
      else part in e.resources && owner == e.owner && Offers(part, e.resources[part], output)
    case BlueprintValue(key, owner) =>
      key in e.values && owner == e.owner
  }

  ghost predicate Closed(e: Emission, vpc: string) {
    forall n, ref :: Mentions(e, n, ref) ==> Resolves(e, vpc, ref)
  }

  // Every emission below descends in this rank from a resource to what it mentions.
  function Rank(n: Node): nat {
    match n
    case ResourceNode(part, _) =>
      (match part
       case FlexVpc | SqsQueue | SnsTopic | DynamoTable | S3Bucket | AppUserSecret | CacheAuthSecret | CacheIamUser => 0
       case RdsSubnetGroup | CacheSubnetGroup | CacheUserGroup => 1
       case RdsCluster | ReplicationGroup => 2
       case RdsInstance => 3
       case RdsReader | RdsProxyRole | MaintenanceRunnerRole => 4
       case RdsProxy => 5
       case MaintenanceRunner => 7)
    case ValueNode(_, _) => 6
  }

  ghost predicate Descends(e: Emission) {
    forall n, ref :: Mentions(e, n, ref) ==> Rank(Destination(ref)) < Rank(n)
  }

  // The references of a whole blueprint.
  ghost predicate Refers(blueprint: seq<Emission>, n: Node, m: Node) {
    exists e, ref :: e in blueprint && Mentions(e, n, ref) && Names(ref, m)
  }

  ghost predicate Path(blueprint: seq<Emission>, path: seq<Node>) {
    forall i :: 0 <= i < |path| - 1 ==> Refers(blueprint, path[i], path[i + 1])
  }

  lemma EdgeDescends(blueprint: seq<Emission>, n: Node, m: Node)
    requires forall e :: e in blueprint ==> Descends(e)
    requires Refers(blueprint, n, m)
    ensures Rank(m) < Rank(n)
  {
    var e, ref :| e in blueprint && Mentions(e, n, ref) && Names(ref, m);
    NamesOneNode(ref, m);
  }

  lemma {:induction false} PathDescends(blueprint: seq<Emission>, path: seq<Node>)
    requires forall e :: e in blueprint ==> Descends(e)
    requires |path| >= 2 && Path(blueprint, path)
    ensures Rank(path[|path| - 1]) < Rank(path[0])
  {
    EdgeDescends(blueprint, path[0], path[1]);
    if |path| > 2 {
      PathDescends(blueprint, path[1..]);
    }
  }

  // No resource depends on itself, however long the way round.
  lemma NoCycle(blueprint: seq<Emission>, path: seq<Node>)
    requires forall e :: e in blueprint ==> Descends(e)
    requires |path| >= 2 && Path(blueprint, path)
    ensures path[0] != path[|path| - 1]
  {
    PathDescends(blueprint, path);
  }
}
