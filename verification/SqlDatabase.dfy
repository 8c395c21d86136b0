// The resources a SQL database is emitted as. Which of them exist depends on the engine
// path (Aurora or standalone), the authentication mode and the read replicas; what each
// refers to must exist in every combination.
module SqlDatabase {
  import opened Blueprint
  import opened ConcreteNames
  import opened ReferenceGraph
  import opened SecurityGroupNames

  // deferred: engine, authMode or readReplicas is a reference, known only at deploy time.
  datatype Database = Database(
    name: string,
    logicalName: string,
    deferred: bool,
    authMode: string,
    readReplicas: bool,
    aurora: bool,
    vpc: string,
    vpcReferenced: bool,
    vpcPreset: string
  )

  function AuthMode(db: Database): string {
    if db.authMode == "" then "password" else db.authMode
  }

  const UNSUITABLE_PRESETS: set<string> := {"public", "light-public", "light"}

  predicate Blocked(db: Database) {
    db.deferred || db.vpc == "" || (!db.vpcReferenced && db.vpcPreset in UNSUITABLE_PRESETS)
  }

  // What the builders need to know of a database.
  datatype Plan = Plan(name: string, logicalName: string, vpc: string, aurora: bool, readReplicas: bool, iam: bool)

  function PlanOf(db: Database): Plan {
    Plan(db.name, db.logicalName, db.vpc, db.aurora, db.readReplicas, AuthMode(db) == "iam")
  }

  // ---- The builders ----

  function Own(plan: Plan, field: Field, p: Part, output: Output): Use {
    Use(field, ResourceOutput(p, plan.name, output))
  }

  function OfVpc(plan: Plan, field: Field, output: Output): Use {
    Use(field, ResourceOutput(FlexVpc, plan.vpc, output))
  }

  function SubnetGroup(plan: Plan): Resource {
    Resource(Plain, [OfVpc(plan, SubnetIds, PrivateSubnetIds)])
  }

  function Placement(plan: Plan): seq<Use> {
    [Own(plan, SubnetGroupField, RdsSubnetGroup, SubnetGroupName),
     OfVpc(plan, SecurityGroups, SecurityGroupNamed(plan.name, DatabaseRole))]
  }

  function StandaloneInstance(plan: Plan): Resource {
    Resource(if plan.iam then Plain else ManagesMaster, Placement(plan))
  }

  function AuroraCluster(plan: Plan): Resource {
    Resource(if plan.iam then Plain else ManagesMaster, Placement(plan))
  }

  function AuroraInstance(plan: Plan): Resource {
    Resource(Plain, [Own(plan, ClusterField, RdsCluster, ClusterIdentifier)])
  }

  function ReaderInstance(plan: Plan): Resource {
    Resource(Plain,
             if plan.aurora then [Own(plan, ClusterField, RdsCluster, ClusterIdentifier)]
             else [Own(plan, SourceInstance, RdsInstance, InstanceIdentifier)])
  }

  // The master's secret and the application user's.
  function Secrets(plan: Plan, field: Field, masterHolder: Part): seq<Use> {
    [Own(plan, field, masterHolder, MasterSecretArn), Own(plan, field, AppUserSecret, SecretId)]
  }

  function Proxy(plan: Plan): Resource {
    Resource(Plain,
             [Own(plan, RoleField, RdsProxyRole, Arn),
              OfVpc(plan, SubnetIds, PrivateSubnetIds),
              OfVpc(plan, SecurityGroups, SecurityGroupNamed(plan.name, ProxyRole))]
             + if plan.iam then [] else Secrets(plan, RegisteredSecrets, RdsInstance))
  }

  function RoleFor(plan: Plan, masterHolder: Part): Resource {
    Resource(Plain,
             if plan.iam then [Own(plan, ConnectGrants, RdsInstance, DbiResourceId)]
             else Secrets(plan, SecretGrants, masterHolder))
  }

  function MasterSecretHolder(plan: Plan): Part {
    if plan.aurora then RdsCluster else RdsInstance
  }

  function Runner(plan: Plan): Resource {
    Resource(Plain,
             [Own(plan, RoleField, MaintenanceRunnerRole, Arn),
              Use(EnvironmentHost, BlueprintValue(SqlHost, plan.name)),
              Use(EnvironmentDatabase, BlueprintValue(SqlDatabaseName, plan.name))]
             + if plan.iam then [] else Secrets(plan, EnvironmentCredentials, MasterSecretHolder(plan)))
  }

  // ---- The topology as a table ----

  predicate Has(plan: Plan, p: Part) {
    match p
    case RdsSubnetGroup | RdsInstance | MaintenanceRunner | MaintenanceRunnerRole => true
    case RdsCluster => plan.aurora
    case RdsProxy | RdsProxyRole => !plan.aurora
    case RdsReader => plan.readReplicas
    case AppUserSecret => !plan.iam
    case _ => false
  }

  function Built(plan: Plan, p: Part): Resource
    requires Has(plan, p)
  {
    match p
    case RdsSubnetGroup => SubnetGroup(plan)
    case RdsInstance => if plan.aurora then AuroraInstance(plan) else StandaloneInstance(plan)
    case RdsCluster => AuroraCluster(plan)
    case RdsReader => ReaderInstance(plan)
    case RdsProxy => Proxy(plan)
    case RdsProxyRole => RoleFor(plan, RdsInstance)
    case AppUserSecret => Resource(Plain, [])
    case MaintenanceRunner => Runner(plan)
    case MaintenanceRunnerRole => RoleFor(plan, MasterSecretHolder(plan))
  }

  // What handlers and the runner connect through.
  function Target(plan: Plan): Part {
    if plan.aurora then RdsCluster else RdsProxy
  }

  function HostOutput(plan: Plan): Reference {
    ResourceOutput(Target(plan), plan.name, if plan.aurora then EndpointAddress else ProxyEndpoint)
  }

  function ReadHostOutput(plan: Plan): Reference {
    if plan.aurora then ResourceOutput(RdsCluster, plan.name, ReadEndpointAddress)
    else ResourceOutput(RdsReader, plan.name, EndpointAddress)
  }

  predicate HasValue(plan: Plan, k: DerivedKey) {
    k == SqlHost || k == SqlDatabaseName || (k == SqlReadHost && plan.readReplicas)
  }

  function ValueOf(plan: Plan, k: DerivedKey): Derived
    requires HasValue(plan, k)
  {
    match k
    case SqlHost => ReferenceValue(HostOutput(plan))
    case SqlReadHost => ReferenceValue(ReadHostOutput(plan))
    case SqlDatabaseName => LiteralValue(plan.logicalName)
  }

  // The emission of a database is exactly the table.
  ghost predicate IsEmission(plan: Plan, e: Emission) {
    e.owner == plan.name &&
    (forall p :: p in e.resources <==> Has(plan, p)) &&
    (forall p :: p in e.resources ==> e.resources[p] == Built(plan, p)) &&
    (forall k :: k in e.values <==> HasValue(plan, k)) &&
    (forall k :: k in e.values ==> e.values[k] == ValueOf(plan, k))
  }

  // ---- The emission, step by step ----

  class Emitter {
    const plan: Plan
    var resources: map<Part, Resource>
    var proxyEmitted: bool

    constructor (plan: Plan)
      ensures this.plan == plan && resources == map[] && !proxyEmitted
    {
      this.plan, resources, proxyEmitted := plan, map[], false;
    }

    method AddTopologyResources()
      requires !proxyEmitted
      modifies this
      ensures proxyEmitted == !plan.aurora
      ensures plan.aurora ==>
                resources == old(resources)[RdsCluster := AuroraCluster(plan)][RdsInstance := AuroraInstance(plan)]
      ensures !plan.aurora ==>
                resources == old(resources)[RdsInstance := StandaloneInstance(plan)][RdsProxy := Proxy(plan)][RdsProxyRole := RoleFor(plan, RdsInstance)]
    {
      if plan.aurora {
        resources := resources[RdsCluster := AuroraCluster(plan)];
        resources := resources[RdsInstance := AuroraInstance(plan)];
        return;
      }
      resources := resources[RdsInstance := StandaloneInstance(plan)];
      resources := resources[RdsProxy := Proxy(plan)][RdsProxyRole := RoleFor(plan, RdsInstance)];
      proxyEmitted := true;
    }

    method BuildDatabaseResources()
      requires !proxyEmitted
      modifies this
      ensures proxyEmitted == !plan.aurora
      ensures forall p :: p in resources <==> Has(plan, p) && p != MaintenanceRunner && p != MaintenanceRunnerRole
      ensures forall p :: p in resources ==> resources[p] == Built(plan, p)
    {
      resources := map[RdsSubnetGroup := SubnetGroup(plan)];
      AddTopologyResources();
      if plan.readReplicas {
        resources := resources[RdsReader := ReaderInstance(plan)];
      }
      if !plan.iam {
        resources := resources[AppUserSecret := Resource(Plain, [])];
      }
    }

    method AddMaintenanceRunner()
      modifies this`resources
      ensures resources == old(resources)[MaintenanceRunner := Runner(plan)][MaintenanceRunnerRole := RoleFor(plan, MasterSecretHolder(plan))]
    {
      resources := resources[MaintenanceRunner := Runner(plan)];
      resources := resources[MaintenanceRunnerRole := RoleFor(plan, MasterSecretHolder(plan))];
    }

    // The host follows the proxy flag, not the engine path it was set on.
    method DerivedValues() returns (values: map<DerivedKey, Derived>)
      requires proxyEmitted == !plan.aurora
      ensures forall k :: k in values <==> HasValue(plan, k)
      ensures forall k :: k in values ==> values[k] == ValueOf(plan, k)
    {
      var host := if proxyEmitted then ResourceOutput(RdsProxy, plan.name, ProxyEndpoint)
                  else if plan.aurora then ResourceOutput(RdsCluster, plan.name, EndpointAddress)
                  else ResourceOutput(RdsInstance, plan.name, EndpointAddress);
      values := map[SqlHost := ReferenceValue(host), SqlDatabaseName := LiteralValue(plan.logicalName)];
      if plan.readReplicas {
        values := values[SqlReadHost := ReferenceValue(ReadHostOutput(plan))];
      }
    }
  }

  method EmitSqlDatabase(db: Database) returns (emission: Option<Emission>)
    ensures emission.None? <==> Blocked(db)
    ensures emission.None? <==>
              db.deferred || db.vpc == "" ||
              (!db.vpcReferenced && (db.vpcPreset == "public" || db.vpcPreset == "light-public" || db.vpcPreset == "light"))
    ensures emission.Some? ==> IsEmission(PlanOf(db), emission.value)
  {
    if db.deferred {
      return None;
    }
    if db.vpc != "" && !db.vpcReferenced && db.vpcPreset in UNSUITABLE_PRESETS {
      return None;
    }
    if db.vpc == "" {
      return None;
    }
    var plan := PlanOf(db);
    var emitter := new Emitter(plan);
    emitter.BuildDatabaseResources();
    emitter.AddMaintenanceRunner();
    var values := emitter.DerivedValues();
    emission := Some(Emission(plan.name, emitter.resources, values));
  }

  // ---- Closure and order ----

  // Every reference leads to a resource that is emitted and exposes that output, to an
  // emitted value, or to the placement VPC.
  lemma TopologyClosed(plan: Plan, e: Emission)
    requires IsEmission(plan, e)
    ensures Closed(e, plan.vpc)
  {
    forall n, ref | Mentions(e, n, ref) ensures Resolves(e, plan.vpc, ref) {
      if n.ResourceNode? {
        var r := Built(plan, n.part);
        var i :| 0 <= i < |r.uses| && r.uses[i].ref == ref;
        UseResolves(plan, e, n.part, i);
      }
    }
  }

  lemma UseResolves(plan: Plan, e: Emission, p: Part, i: nat)
    requires IsEmission(plan, e) && Has(plan, p) && i < |Built(plan, p).uses|
    ensures Resolves(e, plan.vpc, Built(plan, p).uses[i].ref)
  {
    if p in {RdsSubnetGroup, RdsInstance, RdsCluster, RdsReader} {
      ServerUseResolves(plan, e, p, i);
    } else {
      AccessUseResolves(plan, e, p, i);
    }
  }

  lemma ServerUseResolves(plan: Plan, e: Emission, p: Part, i: nat)
    requires IsEmission(plan, e) && Has(plan, p) && i < |Built(plan, p).uses|
    requires p in {RdsSubnetGroup, RdsInstance, RdsCluster, RdsReader}
    ensures Resolves(e, plan.vpc, Built(plan, p).uses[i].ref)
  {
  }

  lemma AccessUseResolves(plan: Plan, e: Emission, p: Part, i: nat)
    requires IsEmission(plan, e) && Has(plan, p) && i < |Built(plan, p).uses|
    requires p !in {RdsSubnetGroup, RdsInstance, RdsCluster, RdsReader}
    ensures Resolves(e, plan.vpc, Built(plan, p).uses[i].ref)
  {
  }

  // References only ever lead down the rank, so the emission has a deployment order.
  lemma TopologyDescends(plan: Plan, e: Emission)
    requires IsEmission(plan, e)
    ensures Descends(e)
  {
    forall n, ref | Mentions(e, n, ref) ensures Rank(Destination(ref)) < Rank(n) {
      if n.ResourceNode? {
        var r := Built(plan, n.part);
        var i :| 0 <= i < |r.uses| && r.uses[i].ref == ref;
        UseDescends(plan, n.part, i);
      }
    }
  }

  lemma UseDescends(plan: Plan, p: Part, i: nat)
    requires Has(plan, p) && i < |Built(plan, p).uses|
    ensures Rank(Destination(Built(plan, p).uses[i].ref)) < Rank(ResourceNode(p, plan.name))
  {
  }

  // What a database is emitted as, by the author's own settings.
  lemma EmittedFor(db: Database, e: Emission)
    requires IsEmission(PlanOf(db), e)
    ensures e.owner == db.name
    ensures forall p :: p in e.resources <==>
              || p == RdsSubnetGroup || p == RdsInstance || p == MaintenanceRunner || p == MaintenanceRunnerRole
              || (p == RdsCluster && db.aurora)
              || ((p == RdsProxy || p == RdsProxyRole) && !db.aurora)
              || (p == RdsReader && db.readReplicas)
              || (p == AppUserSecret && db.authMode != "iam")
    ensures forall p :: p in e.resources ==>
              (e.resources[p].feature == ManagesMaster <==> db.authMode != "iam" && p == if db.aurora then RdsCluster else RdsInstance)
    ensures SqlDatabaseName in e.values && e.values[SqlDatabaseName] == LiteralValue(db.logicalName)
    ensures e.resources[RdsSubnetGroup].uses == [Use(SubnetIds, ResourceOutput(FlexVpc, db.vpc, PrivateSubnetIds))]
  {
  }

  // ---- What each field is for ----

  // The kind of thing a field must refer to.
  predicate Fits(plan: Plan, u: Use) {
    match u.field
    case SubnetIds => u.ref == ResourceOutput(FlexVpc, plan.vpc, PrivateSubnetIds)
    case SecurityGroups => u.ref == ResourceOutput(FlexVpc, plan.vpc, SecurityGroupNamed(plan.name, DatabaseRole)) ||
                           u.ref == ResourceOutput(FlexVpc, plan.vpc, SecurityGroupNamed(plan.name, ProxyRole))
    case SubnetGroupField => u.ref == ResourceOutput(RdsSubnetGroup, plan.name, SubnetGroupName)
    case ClusterField => u.ref == ResourceOutput(RdsCluster, plan.name, ClusterIdentifier)
    case SourceInstance => u.ref == ResourceOutput(RdsInstance, plan.name, InstanceIdentifier)
    case RoleField => u.ref == ResourceOutput(RdsProxyRole, plan.name, Arn) || u.ref == ResourceOutput(MaintenanceRunnerRole, plan.name, Arn)
    case ConnectGrants => u.ref == ResourceOutput(RdsInstance, plan.name, DbiResourceId)
    case EnvironmentHost => u.ref == BlueprintValue(SqlHost, plan.name)
    case EnvironmentDatabase => u.ref == BlueprintValue(SqlDatabaseName, plan.name)
    case RegisteredSecrets | SecretGrants | EnvironmentCredentials =>
      !plan.iam && u.ref.ResourceOutput? && u.ref.owner == plan.name &&
      ((u.ref.part == AppUserSecret && u.ref.output == SecretId) || u.ref.output == MasterSecretArn)
    case _ => false
  }

  // The fields each resource needs.
  function Needs(plan: Plan, p: Part): set<Field> {
    match p
    case RdsSubnetGroup => {SubnetIds}
    case RdsCluster => {SubnetGroupField, SecurityGroups}
    case RdsInstance => if plan.aurora then {ClusterField} else {SubnetGroupField, SecurityGroups}
    case RdsReader => if plan.aurora then {ClusterField} else {SourceInstance}
    case RdsProxy => {RoleField, SubnetIds, SecurityGroups} + if plan.iam then {} else {RegisteredSecrets}
    case RdsProxyRole | MaintenanceRunnerRole => if plan.iam then {ConnectGrants} else {SecretGrants}
    case MaintenanceRunner => {RoleField, EnvironmentHost, EnvironmentDatabase} + if plan.iam then {} else {EnvironmentCredentials}
    case _ => {}
  }

  predicate HasUse(r: Resource, field: Field) {
    exists i :: 0 <= i < |r.uses| && r.uses[i].field == field
  }

  // Every reference a resource holds is of the kind its field is for, and every field the
  // resource needs holds one.
  lemma UsesFit(plan: Plan, e: Emission, p: Part)
    requires IsEmission(plan, e) && p in e.resources
    ensures forall i :: 0 <= i < |e.resources[p].uses| ==> Fits(plan, e.resources[p].uses[i])
    ensures forall field :: HasUse(e.resources[p], field) <==> field in Needs(plan, p)
  {
    var uses := Built(plan, p).uses;
    forall i | 0 <= i < |uses| ensures Fits(plan, uses[i]) && uses[i].field in Needs(plan, p) {
      UseFits(plan, p, i);
    }
    forall field | field in Needs(plan, p) ensures HasUse(Built(plan, p), field) {
      NeededIsUsed(plan, p, field);
    }
  }

  lemma UseFits(plan: Plan, p: Part, i: nat)
    requires Has(plan, p) && i < |Built(plan, p).uses|
    ensures Fits(plan, Built(plan, p).uses[i]) && Built(plan, p).uses[i].field in Needs(plan, p)
  {
  }

  lemma NeededIsUsed(plan: Plan, p: Part, field: Field)
    requires Has(plan, p) && field in Needs(plan, p)
    ensures HasUse(Built(plan, p), field)
  {
    var uses := Built(plan, p).uses;
    assert |uses| > 0 && uses[0].field == field ==> HasUse(Built(plan, p), field);
    assert |uses| > 1 && uses[1].field == field ==> HasUse(Built(plan, p), field);
    assert |uses| > 2 && uses[2].field == field ==> HasUse(Built(plan, p), field);
    assert |uses| > 3 && uses[3].field == field ==> HasUse(Built(plan, p), field);
  }

  // The runner is told the writing endpoint handlers link to and the database's own name.
  lemma RunnerConnects(plan: Plan, e: Emission)
    requires IsEmission(plan, e)
    ensures Mentions(e, ResourceNode(MaintenanceRunner, plan.name), BlueprintValue(SqlHost, plan.name))
    ensures SqlHost in e.values && e.values[SqlHost].ReferenceValue? && Destination(e.values[SqlHost].ref) == ResourceNode(Target(plan), plan.name)
    ensures SqlDatabaseName in e.values && e.values[SqlDatabaseName] == LiteralValue(plan.logicalName)
  {
    var uses := Built(plan, MaintenanceRunner).uses;
    assert uses[1].ref == BlueprintValue(SqlHost, plan.name);
  }

  // ---- Credentials ----

  // The references one field holds.
  function FieldOf(r: Resource, field: Field): seq<Reference> {
    UsesOf(r.uses, field)
  }

  function UsesOf(uses: seq<Use>, field: Field): seq<Reference> {
    if uses == [] then []
    else (if uses[0].field == field then [uses[0].ref] else []) + UsesOf(uses[1..], field)
  }

  lemma SecretUses(plan: Plan, field: Field, masterHolder: Part)
    ensures UsesOf(Secrets(plan, field, masterHolder), field) ==
            [ResourceOutput(masterHolder, plan.name, MasterSecretArn), ResourceOutput(AppUserSecret, plan.name, SecretId)]
  {
    var uses := Secrets(plan, field, masterHolder);
    var last := uses[1..];
    assert last[0] == uses[1] && last[1..] == [];
    assert UsesOf(last, field) == [uses[1].ref];
  }

  lemma {:induction false} FieldAfter(before: seq<Use>, after: seq<Use>, field: Field)
    requires forall i :: 0 <= i < |before| ==> before[i].field != field
    ensures UsesOf(before + after, field) == UsesOf(after, field)
  {
    if before == [] {
      assert before + after == after;
    } else {
      assert (before + after)[1..] == before[1..] + after;
      FieldAfter(before[1..], after, field);
    }
  }

  // The one reference a field not shared with others holds.
  lemma FirstUse(uses: seq<Use>, field: Field)
    requires uses != [] && uses[0].field == field
    requires forall i :: 0 < i < |uses| ==> uses[i].field != field
    ensures UsesOf(uses, field) == [uses[0].ref]
  {
    FieldAfter(uses[1..], [], field);
    assert uses[1..] + [] == uses[1..];
  }

  // A resource runs under a role of its own and can read exactly what it is registered with.
  ghost predicate ReadsItsSecrets(plan: Plan, p: Part, secrets: Field) {
    Has(plan, p) &&
    exists role :: Has(plan, role) && FieldOf(Built(plan, p), RoleField) == [ResourceOutput(role, plan.name, Arn)] &&
                   FieldOf(Built(plan, p), secrets) == FieldOf(Built(plan, role), SecretGrants) != []
  }

  lemma ProxyReadsItsSecrets(plan: Plan)
    requires !plan.iam && !plan.aurora
    ensures ReadsItsSecrets(plan, RdsProxy, RegisteredSecrets)
  {
    var uses := Built(plan, RdsProxy).uses;
    FieldAfter(uses[..3], Secrets(plan, RegisteredSecrets, RdsInstance), RegisteredSecrets);
    SecretUses(plan, RegisteredSecrets, RdsInstance);
    assert uses == uses[..3] + Secrets(plan, RegisteredSecrets, RdsInstance);
    FirstUse(uses, RoleField);
    SecretUses(plan, SecretGrants, RdsInstance);
    assert Has(plan, RdsProxyRole);
  }

  lemma RunnerReadsItsSecrets(plan: Plan)
    requires !plan.iam
    ensures ReadsItsSecrets(plan, MaintenanceRunner, EnvironmentCredentials)
  {
    var uses := Built(plan, MaintenanceRunner).uses;
    FieldAfter(uses[..3], Secrets(plan, EnvironmentCredentials, MasterSecretHolder(plan)), EnvironmentCredentials);
    SecretUses(plan, EnvironmentCredentials, MasterSecretHolder(plan));
    assert uses == uses[..3] + Secrets(plan, EnvironmentCredentials, MasterSecretHolder(plan));
    FirstUse(uses, RoleField);
    SecretUses(plan, SecretGrants, MasterSecretHolder(plan));
    assert Has(plan, MaintenanceRunnerRole);
  }

  // Everything registered with the proxy, and everything handed to the runner, can be read
  // by the role it runs under.
  lemma SecretsAreReadable(plan: Plan)
    requires !plan.iam
    ensures !plan.aurora ==> ReadsItsSecrets(plan, RdsProxy, RegisteredSecrets)
    ensures ReadsItsSecrets(plan, MaintenanceRunner, EnvironmentCredentials)
  {
    if !plan.aurora {
      ProxyReadsItsSecrets(plan);
    }
    RunnerReadsItsSecrets(plan);
  }

  predicate Handles(p: Part) {
    p == RdsProxy || p == RdsProxyRole || p == MaintenanceRunner || p == MaintenanceRunnerRole
  }

  // The master credential stays with the proxy and the runner, is the one the database
  // service manages, and does not exist under IAM authentication.
  lemma MasterCredentialConfined(plan: Plan, e: Emission, n: Node, ref: Reference)
    requires IsEmission(plan, e)
    requires Mentions(e, n, ref) && ref.ResourceOutput? && ref.output == MasterSecretArn
    ensures !plan.iam && n.ResourceNode? && Handles(n.part)
    ensures ref == ResourceOutput(MasterSecretHolder(plan), plan.name, MasterSecretArn)
    ensures MasterSecretHolder(plan) in e.resources && e.resources[MasterSecretHolder(plan)].feature == ManagesMaster
  {
    if n.ResourceNode? {
      var r := Built(plan, n.part);
      var i :| 0 <= i < |r.uses| && r.uses[i].ref == ref;
      MasterUse(plan, n.part, i);
    }
  }

  lemma MasterUse(plan: Plan, p: Part, i: nat)
    requires Has(plan, p) && i < |Built(plan, p).uses|
    ensures var ref := Built(plan, p).uses[i].ref;
            ref.ResourceOutput? && ref.output == MasterSecretArn ==>
              !plan.iam && Handles(p) && ref == ResourceOutput(MasterSecretHolder(plan), plan.name, MasterSecretArn)
  {
  }

  // ---- Endpoints ----

  predicate WritesTo(n: Node, output: Output) {
    n.ResourceNode? && ((n.part == RdsProxy && output == ProxyEndpoint) || (n.part == RdsCluster && output == EndpointAddress))
  }

  predicate ReadsFrom(n: Node, output: Output) {
    n.ResourceNode? && ((n.part == RdsCluster && output == ReadEndpointAddress) || (n.part == RdsReader && output == EndpointAddress))
  }

  // The endpoint the application is told of is the writing endpoint of the resource its
  // handlers link to; the read endpoint exists with the replicas and is a reading one.
  lemma HostIsTheLinkTarget(plan: Plan, e: Emission, n: Node)
    requires IsEmission(plan, e)
    ensures Target(plan) in e.resources && SqlHost in e.values && e.values[SqlHost].ReferenceValue?
    ensures Names(e.values[SqlHost].ref, n) <==> n == ResourceNode(Target(plan), plan.name)
    ensures Names(e.values[SqlHost].ref, n) ==> WritesTo(n, e.values[SqlHost].ref.output)
    ensures SqlReadHost in e.values <==> plan.readReplicas
    ensures SqlReadHost in e.values ==>
              e.values[SqlReadHost].ReferenceValue? && ReadsFrom(Destination(e.values[SqlReadHost].ref), e.values[SqlReadHost].ref.output)
  {
    NamesOneNode(e.values[SqlHost].ref, n);
  }

  // ---- Placement ----

  predicate Server(p: Part) {
    p == RdsInstance || p == RdsCluster || p == RdsReader
  }

  lemma MentionRefers(plan: Plan, e: Emission, p: Part, i: nat, target: Part)
    requires IsEmission(plan, e) && Has(plan, p) && i < |Built(plan, p).uses|
    requires Destination(Built(plan, p).uses[i].ref) == ResourceNode(target, plan.name)
    ensures Refers([e], ResourceNode(p, plan.name), ResourceNode(target, plan.name))
  {
    var ref := Built(plan, p).uses[i].ref;
    NamesOneNode(ref, ResourceNode(target, plan.name));
    assert Mentions(e, ResourceNode(p, plan.name), ref);
    assert e in [e];
  }

  // Every server of the database, directly or through the one it belongs to, is placed in
  // the subnets of the database's own subnet group.
  lemma ServersArePlaced(plan: Plan, e: Emission, p: Part) returns (path: seq<Node>)
    requires IsEmission(plan, e) && Has(plan, p) && Server(p)
    ensures |path| >= 2 && Path([e], path)
    ensures path[0] == ResourceNode(p, plan.name) && path[|path| - 1] == ResourceNode(RdsSubnetGroup, plan.name)
  {
    var placed := if plan.aurora then RdsCluster else RdsInstance;
    MentionRefers(plan, e, placed, 0, RdsSubnetGroup);
    path := [ResourceNode(placed, plan.name), ResourceNode(RdsSubnetGroup, plan.name)];
    if p != placed {
      MentionRefers(plan, e, p, 0, placed);
      path := [ResourceNode(p, plan.name)] + path;
    }
  }
}
