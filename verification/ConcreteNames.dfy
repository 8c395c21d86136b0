// The names of the concrete resources and blueprint values emitted for the resources
// handlers connect to.
module ConcreteNames {
  import opened Text

  // A concrete resource emitted for an abstract one.
  datatype Part =
    | SqsQueue | SnsTopic | DynamoTable | S3Bucket
    | FlexVpc
    | RdsSubnetGroup | RdsInstance | RdsCluster | RdsReader | RdsProxy | RdsProxyRole
    | AppUserSecret | MaintenanceRunner | MaintenanceRunnerRole
    | ReplicationGroup | CacheSubnetGroup | CacheAuthSecret | CacheIamUser | CacheUserGroup

  function Suffix(p: Part): string {
    match p
    case SqsQueue => "_sqs_queue"
    case SnsTopic => "_sns_topic"
    case DynamoTable => "_dynamodb_table"
    case S3Bucket => "_s3_bucket"
    case FlexVpc => "_flex_vpc"
    case RdsSubnetGroup => "_rds_subnet_group"
    case RdsInstance => "_rds_instance"
    case RdsCluster => "_rds_cluster"
    case RdsReader => "_rds_reader"
    case RdsProxy => "_rds_proxy"
    case RdsProxyRole => "_rds_proxy_role"
    case AppUserSecret => "_sqldb_app_user_secret"
    case MaintenanceRunner => "_sqldb_maintenance_runner"
    case MaintenanceRunnerRole => "_sqldb_maintenance_runner_role"
    case ReplicationGroup => "_elasticache_rg"
    case CacheSubnetGroup => "_elasticache_subnet_group"
    case CacheAuthSecret => "_cache_auth_secret"
    case CacheIamUser => "_cache_iam_user"
    case CacheUserGroup => "_cache_user_group"
  }

  function ResourceName(p: Part, owner: string): string {
    owner + Suffix(p)
  }

  // A blueprint value derived from the concrete resources.
  datatype DerivedKey = SqlHost | SqlReadHost | SqlDatabaseName | CacheHost

  function Holder(k: DerivedKey): Part {
    if k == CacheHost then ReplicationGroup else RdsInstance
  }

  function ValueSuffix(k: DerivedKey): string {
    match k
    case SqlHost => "_host"
    case SqlReadHost => "_read_host"
    case SqlDatabaseName => "_database_name"
    case CacheHost => "_host"
  }

  // The prefix is the instance even on Aurora, whose host is the cluster's.
  function ValueName(k: DerivedKey, owner: string): string {
    ResourceName(Holder(k), owner) + ValueSuffix(k)
  }

  // The last and the ninth character from the end tell apart all but the subnet groups.
  function Mark(p: Part): (char, char) {
    match p
    case SqsQueue => ('e', 's')
    case SnsTopic => ('c', 's')
    case DynamoTable => ('e', 'o')
    case S3Bucket => ('t', 's')
    case FlexVpc => ('c', '_')
    case RdsSubnetGroup => ('p', 'n')
    case RdsInstance => ('e', '_')
    case RdsCluster => ('r', 's')
    case RdsReader => ('r', 'd')
    case RdsProxy => ('y', 'r')
    case RdsProxyRole => ('e', 'r')
    case AppUserSecret => ('t', 'e')
    case MaintenanceRunner => ('r', 'c')
    case MaintenanceRunnerRole => ('e', 'n')
    case ReplicationGroup => ('g', 'i')
    case CacheSubnetGroup => ('p', 'n')
    case CacheAuthSecret => ('t', 't')
    case CacheIamUser => ('r', '_')
    case CacheUserGroup => ('p', 's')
  }

  function MarkOf(name: string): (char, char)
    requires |name| >= 9
  {
    (name[|name| - 1], name[|name| - 9])
  }

  lemma NameMark(p: Part, owner: string)
    ensures |ResourceName(p, owner)| >= 9 && MarkOf(ResourceName(p, owner)) == Mark(p)
  {
    var s := Suffix(p);
    assert |s| >= 9 && MarkOf(s) == Mark(p);
    var n := owner + s;
    assert n[|n| - 1] == s[|s| - 1] && n[|n| - 9] == s[|s| - 9];
  }

  predicate IsSubnetGroup(p: Part) {
    p == RdsSubnetGroup || p == CacheSubnetGroup
  }

  lemma SubnetGroupMark(p: Part, owner: string)
    requires IsSubnetGroup(p)
    ensures var n := ResourceName(p, owner); |n| >= 14 && n[|n| - 14] == if p == RdsSubnetGroup then 's' else 'e'
  {
    var s := Suffix(p);
    var n := owner + s;
    assert n[|n| - 14] == s[|s| - 14];
  }

  lemma MarksDiffer(p: Part, q: Part)
    requires Mark(p) == Mark(q)
    ensures p == q || (IsSubnetGroup(p) && IsSubnetGroup(q))
  {
  }

  lemma NameTellsPart(p: Part, owner: string, q: Part, other: string)
    requires ResourceName(p, owner) == ResourceName(q, other)
    ensures p == q
  {
    NameMark(p, owner);
    NameMark(q, other);
    MarksDiffer(p, q);
    if p != q {
      SubnetGroupMark(p, owner);
      SubnetGroupMark(q, other);
    }
  }

  // A resource name tells which resource of which owner it is.
  lemma ResourceNamesUnique(p: Part, owner: string, q: Part, other: string)
    ensures ResourceName(p, owner) == ResourceName(q, other) <==> p == q && owner == other
  {
    if ResourceName(p, owner) == ResourceName(q, other) {
      NameTellsPart(p, owner, q, other);
      SuffixCancel(Suffix(p), owner, other);
    }
  }

  lemma ValueNamesUnique(k: DerivedKey, owner: string, m: DerivedKey, other: string)
    ensures ValueName(k, owner) == ValueName(m, other) <==> k == m && owner == other
  {
    if ValueName(k, owner) == ValueName(m, other) {
      NameMark(Holder(k), owner);
      NameMark(Holder(m), other);
      ValueMark(k, owner);
      ValueMark(m, other);
      assert k == m;
      SuffixCancel(ValueSuffix(k), ResourceName(Holder(k), owner), ResourceName(Holder(k), other));
      ResourceNamesUnique(Holder(k), owner, Holder(k), other);
    }
  }

  // The last and the sixth character from the end tell the values apart.
  lemma ValueMark(k: DerivedKey, owner: string)
    ensures var n := ValueName(k, owner);
            |n| > 6 && n[|n| - 1] == (if k == SqlDatabaseName then 'e' else 't')
            && n[|n| - 6] == (match k case SqlReadHost => 'd' case CacheHost => 'g' case _ => 'e')
  {
    var holder, suffix := ResourceName(Holder(k), owner), ValueSuffix(k);
    NameMark(Holder(k), owner);
    assert suffix[|suffix| - 1] == if k == SqlDatabaseName then 'e' else 't';
    var n := holder + suffix;
    if |suffix| == 5 {
      assert n[|n| - 6] == holder[|holder| - 1];
    } else {
      assert n[|n| - 6] == suffix[|suffix| - 6];
    }
  }
}
