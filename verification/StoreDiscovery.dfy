// How a handler finds the resources store: the environment variables naming it, the grant
// to read it and the store itself come from three different phases and must agree.
module StoreDiscovery {
  import opened Blueprint
  import opened Text
  import opened Sequences
  import opened RolePlans
  import opened Store
  import opened StoreLaws

  predicate HasResourceLinks(h: ResolvedHandler) {
    |h.queues| + |h.topics| + |h.datastores| + |h.buckets| + |h.caches| + |h.sqlDatabases| > 0
  }

  function StorePath(appName: string): string {
    "/celerity/" + (if appName == "" then "placeholder-app" else appName) + "/resources"
  }

  // Every application has its own path.
  lemma StorePathTexts(appName: string, other: string)
    ensures StorePath(appName) == "/celerity/" + (if appName != "" then appName else "placeholder-app") + "/resources"
    ensures appName != "" && other != "" ==> (StorePath(appName) == StorePath(other) <==> appName == other)
  {
    SuffixCancel("/resources", "/celerity/" + appName, "/celerity/" + other);
    PrefixCancel("/celerity/", appName, other);
  }

  // The path resolution records on a handler.
  predicate PathResolved(h: ResolvedHandler, appName: string) {
    h.storePath == if HasResourceLinks(h) then StorePath(appName) else ""
  }

  lemma ClaimsIffLinks(h: ResolvedHandler)
    ensures ClaimsOf(h) != [] <==> HasResourceLinks(h)
  {
    assert |ClaimsOf(h)| == |h.queues| + |h.topics| + |h.datastores| + |h.buckets| + |h.caches| + |h.sqlDatabases|;
  }

  lemma SortedHandlerIsPrimary(primaries: seq<Primary>, h: ResolvedHandler)
    requires h in SortedHandlers(primaries)
    ensures HandlerPrimary(h) in primaries
  {
    SameMember(FlatMap(primaries, HandlerOf), SortedHandlers(primaries), h);
    FlatMapMember(primaries, HandlerOf, h);
    var p :| p in primaries && h in HandlerOf(p);
    assert p == HandlerPrimary(h);
  }

  lemma ClaimingHandler(primaries: seq<Primary>) returns (h: ResolvedHandler)
    requires AllClaims(primaries) != []
    ensures HandlerPrimary(h) in primaries && HasResourceLinks(h)
  {
    var handlers, c := SortedHandlers(primaries), AllClaims(primaries)[0];
    FlatMapMember(handlers, ClaimsOf, c);
    h :| h in handlers && c in ClaimsOf(h);
    SortedHandlerIsPrimary(primaries, h);
    ClaimsIffLinks(h);
  }

  lemma StoreEmittedIffLinked(primaries: seq<Primary>)
    ensures StoreOf(primaries) != map[] <==> exists h :: HandlerPrimary(h) in primaries && HasResourceLinks(h)
  {
    if h :| HandlerPrimary(h) in primaries && HasResourceLinks(h) {
      ClaimsIffLinks(h);
      EveryLinkIsStored(primaries, h, ClaimsOf(h)[0]);
      assert Probe(ClaimsOf(h)[0]) in StoreOf(primaries);
    }
    if AllClaims(primaries) != [] {
      var h := ClaimingHandler(primaries);
    }
  }

  lemma StoreReadPolicy(plan: RolePlan, path: string)
    ensures StoreRead(path) in Policies(plan) <==> plan.storePath == path && path != ""
  {
  }

  // The role grants reading a path exactly when the handler has links, and then it is the
  // path of an emitted store that holds every one of them.
  lemma StoreReadAgrees(primaries: seq<Primary>, h: ResolvedHandler, appName: string, path: string)
    requires HandlerPrimary(h) in primaries && PathResolved(h, appName)
    ensures StoreRead(path) in Policies(Plan(h)) <==> HasResourceLinks(h) && path == StorePath(appName)
    ensures StoreRead(path) in Policies(Plan(h)) ==>
              StoreOf(primaries) != map[] && forall c :: c in ClaimsOf(h) ==> Probe(c) in StoreOf(primaries)
  {
    StoreReadPolicy(Plan(h), path);
    StorePathSet(appName);
    if HasResourceLinks(h) {
      forall c | c in ClaimsOf(h) ensures Probe(c) in StoreOf(primaries) {
        EveryLinkIsStored(primaries, h, c);
      }
      StoreEmittedIffLinked(primaries);
    }
  }

  lemma StorePathSet(appName: string)
    ensures StorePath(appName) != ""
  {
    assert |StorePath(appName)| >= 10;
  }

  // ---- Environment variables ----

  datatype ConfigStore = ConfigStore(envNamespace: string, namespace: string, id: string, kind: string)

  // An empty modulePath, routingKey or storePath is left out.
  datatype EnvInput = EnvInput(
    platform: string,
    deployTarget: string,
    handlerId: string,
    handlerType: string,
    modulePath: string,
    routingTag: Option<string>,
    routingKey: string,
    storePath: string,
    userStores: seq<ConfigStore>,
    tracing: bool,
    userEnv: map<string, string>
  )

  const STORE_ID := "CELERITY_CONFIG_RESOURCES_STORE_ID"
  const STORE_KIND := "CELERITY_CONFIG_RESOURCES_STORE_KIND"
  const RESOURCES := "RESOURCES"
  const LOG_FORMAT := "CELERITY_LOG_FORMAT"
  const PARAMETER_STORE := "parameter-store"

  function StoreIdName(ns: string): string {
    "CELERITY_CONFIG_" + ns + "_STORE_ID"
  }

  function StoreKindName(ns: string): string {
    "CELERITY_CONFIG_" + ns + "_STORE_KIND"
  }

  function StoreNamespaceName(ns: string): string {
    "CELERITY_CONFIG_" + ns + "_NAMESPACE"
  }

  lemma StoreIdNames(ns: string)
    ensures StoreIdName(ns) == STORE_ID <==> ns == RESOURCES
    ensures StoreIdName(ns) != STORE_KIND
    ensures StoreKindName(ns) == STORE_KIND <==> ns == RESOURCES
    ensures StoreKindName(ns) != STORE_ID
    ensures StoreNamespaceName(ns) != STORE_ID && StoreNamespaceName(ns) != STORE_KIND
  {
    var prefix := "CELERITY_CONFIG_";
    assert prefix + RESOURCES + "_STORE_ID" == STORE_ID;
    assert prefix + RESOURCES + "_STORE_KIND" == STORE_KIND;
    SuffixCancel("_STORE_ID", prefix + ns, prefix + RESOURCES);
    SuffixCancel("_STORE_KIND", prefix + ns, prefix + RESOURCES);
    PrefixCancel(prefix, ns, RESOURCES);
    var id, kind, name := StoreIdName(ns), StoreKindName(ns), StoreNamespaceName(ns);
    assert id[|id| - 2] == 'I' && STORE_KIND[|STORE_KIND| - 2] == 'N';
    assert kind[|kind| - 2] == 'N' && STORE_ID[|STORE_ID| - 2] == 'I';
    assert name[|name| - 1] == 'E' && STORE_ID[|STORE_ID| - 1] == 'D' && STORE_KIND[|STORE_KIND| - 1] == 'D';
  }

  // The last user store whose variables are those of the resources store.
  function Shadowing(stores: seq<ConfigStore>): Option<ConfigStore> {
    if stores == [] then None
    else
      var n := |stores| - 1;
      if stores[n].envNamespace == RESOURCES then Some(stores[n]) else Shadowing(stores[..n])
  }

  function Absent(text: string): Option<string> {
    if text == "" then None else Some(text)
  }

  // What the author sets one of the two variables to, directly or by naming a store so.
  function OverriddenId(input: EnvInput): Option<string> {
    if STORE_ID in input.userEnv then Some(input.userEnv[STORE_ID])
    else if Shadowing(input.userStores).Some? then Some(Shadowing(input.userStores).value.id)
    else None
  }

  function OverriddenKind(input: EnvInput): Option<string> {
    if STORE_KIND in input.userEnv then Some(input.userEnv[STORE_KIND])
    else if Shadowing(input.userStores).Some? then Some(Shadowing(input.userStores).value.kind)
    else None
  }

  // What the handler ends up reading for each of the two variables.
  function DiscoveredId(input: EnvInput): Option<string> {
    if OverriddenId(input).Some? then OverriddenId(input) else Absent(input.storePath)
  }

  function DiscoveredKind(input: EnvInput): Option<string> {
    if OverriddenKind(input).Some? then OverriddenKind(input)
    else if input.storePath == "" then None
    else Some(PARAMETER_STORE)
  }

  function Read(vars: map<string, string>, name: string): Option<string> {
    if name in vars then Some(vars[name]) else None
  }

  // ---- What is written ----

  function WithOptional(vars: map<string, string>, name: string, value: Option<string>): map<string, string> {
    if value.Some? then vars[name := value.value] else vars
  }

  function FixedVariables(input: EnvInput): map<string, string> {
    var always := map[
      "CELERITY_PLATFORM" := input.platform,
      "CELERITY_DEPLOY_TARGET" := input.deployTarget,
      "CELERITY_HANDLER_ID" := input.handlerId,
      "CELERITY_HANDLER_TYPE" := input.handlerType];
    var withModule := WithOptional(always, "CELERITY_MODULE_PATH", Absent(input.modulePath));
    var withTag := WithOptional(withModule, "CELERITY_HANDLER_TAG", input.routingTag);
    WithOptional(withTag, "CELERITY_ROUTING_KEY", Absent(input.routingKey))
  }

  function WithStore(vars: map<string, string>, storePath: string): map<string, string> {
    if storePath == "" then vars else vars[STORE_ID := storePath][STORE_KIND := PARAMETER_STORE]
  }

  function WithUserStore(vars: map<string, string>, s: ConfigStore): map<string, string> {
    vars[StoreIdName(s.envNamespace) := s.id][StoreKindName(s.envNamespace) := s.kind][StoreNamespaceName(s.envNamespace) := s.namespace]
  }

  function WithUserStores(vars: map<string, string>, stores: seq<ConfigStore>): map<string, string> {
    if stores == [] then vars else WithUserStore(WithUserStores(vars, stores[..|stores| - 1]), stores[|stores| - 1])
  }

  // The user's own variables are applied last and always kept.
  function WithUserVariables(vars: map<string, string>, input: EnvInput): map<string, string> {
    var traced := WithOptional(vars, "CELERITY_TELEMETRY_ENABLED", if input.tracing then Some("true") else None);
    var all := traced + input.userEnv;
    if LOG_FORMAT in input.userEnv then all else all[LOG_FORMAT := "json"]
  }

  function EnvironmentOf(input: EnvInput): map<string, string> {
    WithUserVariables(WithUserStores(WithStore(FixedVariables(input), input.storePath), input.userStores), input)
  }

  method SetFixed(input: EnvInput) returns (vars: map<string, string>)
    ensures vars == FixedVariables(input)
  {
    vars := map[
      "CELERITY_PLATFORM" := input.platform,
      "CELERITY_DEPLOY_TARGET" := input.deployTarget,
      "CELERITY_HANDLER_ID" := input.handlerId,
      "CELERITY_HANDLER_TYPE" := input.handlerType];
    if input.modulePath != "" {
      vars := vars["CELERITY_MODULE_PATH" := input.modulePath];
    }
    if input.routingTag.Some? {
      vars := vars["CELERITY_HANDLER_TAG" := input.routingTag.value];
    }
    if input.routingKey != "" {
      vars := vars["CELERITY_ROUTING_KEY" := input.routingKey];
    }
  }

  method SetUserStores(before: map<string, string>, stores: seq<ConfigStore>) returns (vars: map<string, string>)
    ensures vars == WithUserStores(before, stores)
  {
    vars := before;
    for i := 0 to |stores|
      invariant vars == WithUserStores(before, stores[..i])
    {
      assert stores[..i + 1][..i] == stores[..i];
      var store := stores[i];
      vars := vars[StoreIdName(store.envNamespace) := store.id];
      vars := vars[StoreKindName(store.envNamespace) := store.kind];
      vars := vars[StoreNamespaceName(store.envNamespace) := store.namespace];
    }
    assert stores[..|stores|] == stores;
  }

  method BuildEnvironmentVariables(input: EnvInput) returns (vars: map<string, string>)
    ensures vars == EnvironmentOf(input)
  {
    vars := SetFixed(input);
    if input.storePath != "" {
      vars := vars[STORE_ID := input.storePath];
      vars := vars[STORE_KIND := PARAMETER_STORE];
    }
    vars := SetUserStores(vars, input.userStores);
    if input.tracing {
      vars := vars["CELERITY_TELEMETRY_ENABLED" := "true"];
    }
    vars := vars + input.userEnv;
    if LOG_FORMAT !in input.userEnv {
      vars := vars[LOG_FORMAT := "json"];
    }
  }

  // ---- What is read ----

  predicate Reads(vars: map<string, string>, id: Option<string>, kind: Option<string>) {
    Read(vars, STORE_ID) == id && Read(vars, STORE_KIND) == kind
  }

  predicate Unrelated(name: string) {
    name != STORE_ID && name != STORE_KIND
  }

  lemma FixedNames()
    ensures Unrelated("CELERITY_PLATFORM") && Unrelated("CELERITY_DEPLOY_TARGET") && Unrelated("CELERITY_HANDLER_ID")
    ensures Unrelated("CELERITY_HANDLER_TYPE") && Unrelated("CELERITY_MODULE_PATH") && Unrelated("CELERITY_HANDLER_TAG")
    ensures Unrelated("CELERITY_ROUTING_KEY") && Unrelated("CELERITY_TELEMETRY_ENABLED") && Unrelated(LOG_FORMAT)
  {
    assert |STORE_ID| == 34 && |STORE_KIND| == 36;
  }

  lemma FixedReadNothing(input: EnvInput)
    ensures Reads(FixedVariables(input), None, None)
  {
    FixedNames();
  }

  lemma {:induction false} UserStoresRead(vars: map<string, string>, stores: seq<ConfigStore>, id: Option<string>, kind: Option<string>)
    requires Reads(vars, id, kind)
    ensures var s := Shadowing(stores);
            Reads(WithUserStores(vars, stores), if s.Some? then Some(s.value.id) else id, if s.Some? then Some(s.value.kind) else kind)
  {
    if stores != [] {
      var n := |stores| - 1;
      UserStoresRead(vars, stores[..n], id, kind);
      StoreIdNames(stores[n].envNamespace);
    }
  }

  // What the two variables are read as, wherever the values come from.
  lemma EnvironmentReads(input: EnvInput)
    ensures Reads(EnvironmentOf(input), DiscoveredId(input), DiscoveredKind(input))
  {
    var fixed := FixedVariables(input);
    FixedReadNothing(input);
    FixedNames();
    assert STORE_ID != STORE_KIND by { StoreIdNames(RESOURCES); }
    UserStoresRead(WithStore(fixed, input.storePath), input.userStores, Absent(input.storePath),
                   if input.storePath == "" then None else Some(PARAMETER_STORE));
  }

  // A handler's variables lead to the store, at the path it is emitted under, exactly when
  // it has links, unless the author gives one of the two variables another value: directly,
  // or by a config store whose name becomes the same environment segment.
  lemma HandlerDiscoversTheStoreIff(h: ResolvedHandler, appName: string, input: EnvInput)
    requires PathResolved(h, appName) && input.storePath == h.storePath
    ensures Reads(EnvironmentOf(input),
                  if HasResourceLinks(h) then Some(StorePath(appName)) else None,
                  if HasResourceLinks(h) then Some("parameter-store") else None) <==>
            ((OverriddenId(input).Some? ==> HasResourceLinks(h) && OverriddenId(input).value == StorePath(appName)) &&
             (OverriddenKind(input).Some? ==> HasResourceLinks(h) && OverriddenKind(input).value == "parameter-store"))
  {
    EnvironmentReads(input);
    StorePathSet(appName);
  }

  // The author's variables are all kept, and the log format is always set.
  lemma UserVariablesKept(input: EnvInput, name: string)
    ensures name in input.userEnv ==> name in EnvironmentOf(input) && EnvironmentOf(input)[name] == input.userEnv[name]
    ensures Holds(input, "CELERITY_LOG_FORMAT", Some("json"))
  {
  }

  // ---- The other variables ----

  const CONFIG_PREFIX := "CELERITY_CONFIG_"

  // The author's own value wins; otherwise the variable is as given, None for unset.
  predicate Holds(input: EnvInput, name: string, value: Option<string>) {
    Read(EnvironmentOf(input), name) == if name in input.userEnv then Some(input.userEnv[name]) else value
  }

  lemma StoreNamesPrefixed(ns: string)
    ensures HasPrefix(StoreIdName(ns), CONFIG_PREFIX) && HasPrefix(StoreKindName(ns), CONFIG_PREFIX)
    ensures HasPrefix(StoreNamespaceName(ns), CONFIG_PREFIX)
  {
    PrefixOfConcat(CONFIG_PREFIX, ns + "_STORE_ID");
    PrefixOfConcat(CONFIG_PREFIX, ns + "_STORE_KIND");
    PrefixOfConcat(CONFIG_PREFIX, ns + "_NAMESPACE");
    assert StoreIdName(ns) == CONFIG_PREFIX + (ns + "_STORE_ID");
    assert StoreKindName(ns) == CONFIG_PREFIX + (ns + "_STORE_KIND");
    assert StoreNamespaceName(ns) == CONFIG_PREFIX + (ns + "_NAMESPACE");
  }

  lemma {:induction false} UserStoresKeepOthers(vars: map<string, string>, stores: seq<ConfigStore>, name: string)
    requires !HasPrefix(name, CONFIG_PREFIX)
    ensures Read(WithUserStores(vars, stores), name) == Read(vars, name)
  {
    if stores != [] {
      var n := |stores| - 1;
      UserStoresKeepOthers(vars, stores[..n], name);
      StoreNamesPrefixed(stores[n].envNamespace);
    }
  }

  lemma StoreNamesAreConfig()
    ensures HasPrefix(STORE_ID, CONFIG_PREFIX) && HasPrefix(STORE_KIND, CONFIG_PREFIX)
  {
    StoreNamesPrefixed(RESOURCES);
    StoreIdNames(RESOURCES);
  }

  // A fixed variable is read as written, unless the author sets it.
  lemma FixedHolds(input: EnvInput, name: string)
    requires !HasPrefix(name, CONFIG_PREFIX) && name != "CELERITY_TELEMETRY_ENABLED" && name != LOG_FORMAT
    ensures Holds(input, name, Read(FixedVariables(input), name))
  {
    StoreNamesAreConfig();
    UserStoresKeepOthers(WithStore(FixedVariables(input), input.storePath), input.userStores, name);
  }

  // Not a variable another step writes.
  lemma PlainName(name: string)
    requires |name| >= 10 && name[9] != 'C' && name[9] != 'T' && name[9] != 'L'
    ensures !HasPrefix(name, CONFIG_PREFIX) && name != "CELERITY_TELEMETRY_ENABLED" && name != LOG_FORMAT
  {
    assert CONFIG_PREFIX[9] == 'C';
    assert |name| >= |CONFIG_PREFIX| ==> name[..|CONFIG_PREFIX|][9] == name[9];
  }

  // What a handler is told of itself and of where it runs.
  lemma IdentityHolds(input: EnvInput)
    ensures Holds(input, "CELERITY_PLATFORM", Some(input.platform))
    ensures Holds(input, "CELERITY_DEPLOY_TARGET", Some(input.deployTarget))
    ensures Holds(input, "CELERITY_HANDLER_ID", Some(input.handlerId))
    ensures Holds(input, "CELERITY_HANDLER_TYPE", Some(input.handlerType))
  {
    FixedIdentity(input);
    PlainName("CELERITY_PLATFORM");
    PlainName("CELERITY_DEPLOY_TARGET");
    PlainName("CELERITY_HANDLER_ID");
    PlainName("CELERITY_HANDLER_TYPE");
    FixedHolds(input, "CELERITY_PLATFORM");
    FixedHolds(input, "CELERITY_DEPLOY_TARGET");
    FixedHolds(input, "CELERITY_HANDLER_ID");
    FixedHolds(input, "CELERITY_HANDLER_TYPE");
  }

  lemma FixedIdentity(input: EnvInput)
    ensures Read(FixedVariables(input), "CELERITY_PLATFORM") == Some(input.platform)
    ensures Read(FixedVariables(input), "CELERITY_DEPLOY_TARGET") == Some(input.deployTarget)
    ensures Read(FixedVariables(input), "CELERITY_HANDLER_ID") == Some(input.handlerId)
    ensures Read(FixedVariables(input), "CELERITY_HANDLER_TYPE") == Some(input.handlerType)
  {
    assert |"CELERITY_PLATFORM"| == 17 && |"CELERITY_DEPLOY_TARGET"| == 22 && |"CELERITY_HANDLER_ID"| == 19;
    assert |"CELERITY_HANDLER_TYPE"| == 21 && |"CELERITY_MODULE_PATH"| == 20 && |"CELERITY_HANDLER_TAG"| == 20;
    assert |"CELERITY_ROUTING_KEY"| == 20;
  }

  // What a handler is told only when there is something to tell.
  lemma OptionalHolds(input: EnvInput)
    ensures Holds(input, "CELERITY_MODULE_PATH", if input.modulePath == "" then None else Some(input.modulePath))
    ensures Holds(input, "CELERITY_HANDLER_TAG", input.routingTag)
    ensures Holds(input, "CELERITY_ROUTING_KEY", if input.routingKey == "" then None else Some(input.routingKey))
  {
    FixedOptional(input);
    PlainName("CELERITY_MODULE_PATH");
    PlainName("CELERITY_HANDLER_TAG");
    PlainName("CELERITY_ROUTING_KEY");
    FixedHolds(input, "CELERITY_MODULE_PATH");
    FixedHolds(input, "CELERITY_HANDLER_TAG");
    FixedHolds(input, "CELERITY_ROUTING_KEY");
  }

  lemma FixedOptional(input: EnvInput)
    ensures Read(FixedVariables(input), "CELERITY_MODULE_PATH") == if input.modulePath == "" then None else Some(input.modulePath)
    ensures Read(FixedVariables(input), "CELERITY_HANDLER_TAG") == input.routingTag
    ensures Read(FixedVariables(input), "CELERITY_ROUTING_KEY") == if input.routingKey == "" then None else Some(input.routingKey)
  {
    assert |"CELERITY_PLATFORM"| == 17 && |"CELERITY_DEPLOY_TARGET"| == 22 && |"CELERITY_HANDLER_ID"| == 19;
    assert |"CELERITY_HANDLER_TYPE"| == 21;
    assert "CELERITY_MODULE_PATH"[9] == 'M' && "CELERITY_HANDLER_TAG"[9] == 'H' && "CELERITY_ROUTING_KEY"[9] == 'R';
  }

  lemma TelemetryHolds(input: EnvInput)
    ensures Holds(input, "CELERITY_TELEMETRY_ENABLED", if input.tracing then Some("true") else None)
  {
    var name := "CELERITY_TELEMETRY_ENABLED";
    assert name[9] == 'T' && LOG_FORMAT[9] == 'L' && CONFIG_PREFIX[9] == 'C';
    assert |name| >= |CONFIG_PREFIX| ==> name[..|CONFIG_PREFIX|][9] == name[9];
    StoreNamesAreConfig();
    UserStoresKeepOthers(WithStore(FixedVariables(input), input.storePath), input.userStores, name);
    NoTelemetryFixed(input);
  }

  lemma NoTelemetryFixed(input: EnvInput)
    ensures Read(FixedVariables(input), "CELERITY_TELEMETRY_ENABLED") == None
  {
    assert |"CELERITY_TELEMETRY_ENABLED"| == 26;
  }

  // The names of one store's variables are its own.
  lemma StoreNamesApart(ns: string, other: string)
    ensures StoreIdName(ns) == StoreIdName(other) <==> ns == other
    ensures StoreKindName(ns) == StoreKindName(other) <==> ns == other
    ensures StoreNamespaceName(ns) == StoreNamespaceName(other) <==> ns == other
    ensures StoreIdName(ns) != StoreKindName(other) && StoreIdName(ns) != StoreNamespaceName(other)
    ensures StoreKindName(ns) != StoreNamespaceName(other)
  {
    SuffixCancel("_STORE_ID", CONFIG_PREFIX + ns, CONFIG_PREFIX + other);
    SuffixCancel("_STORE_KIND", CONFIG_PREFIX + ns, CONFIG_PREFIX + other);
    SuffixCancel("_NAMESPACE", CONFIG_PREFIX + ns, CONFIG_PREFIX + other);
    PrefixCancel(CONFIG_PREFIX, ns, other);
    var id, kind, name := StoreIdName(ns), StoreKindName(ns), StoreNamespaceName(ns);
    var kind', name' := StoreKindName(other), StoreNamespaceName(other);
    assert id[|id| - 2] == 'I' && kind'[|kind'| - 2] == 'N' && kind[|kind| - 1] == 'D';
    assert id[|id| - 1] == 'D' && name'[|name'| - 1] == 'E';
  }

  predicate StoreReads(vars: map<string, string>, s: ConfigStore) {
    && Read(vars, "CELERITY_CONFIG_" + s.envNamespace + "_STORE_ID") == Some(s.id)
    && Read(vars, "CELERITY_CONFIG_" + s.envNamespace + "_STORE_KIND") == Some(s.kind)
    && Read(vars, "CELERITY_CONFIG_" + s.envNamespace + "_NAMESPACE") == Some(s.namespace)
  }

  lemma {:induction false} UserStoreReads(vars: map<string, string>, stores: seq<ConfigStore>, i: nat)
    requires i < |stores| && forall j :: i < j < |stores| ==> stores[j].envNamespace != stores[i].envNamespace
    ensures StoreReads(WithUserStores(vars, stores), stores[i])
  {
    var n := |stores| - 1;
    StoreNamesApart(stores[i].envNamespace, stores[n].envNamespace);
    StoreNamesApart(stores[n].envNamespace, stores[i].envNamespace);
    if i < n {
      UserStoreReads(vars, stores[..n], i);
    }
  }

  // A config store the author links is found under its own segment, with its identifier,
  // kind and namespace, unless a later one has the segment or the author sets the variables.
  lemma UserStoreHolds(input: EnvInput, i: nat)
    requires i < |input.userStores|
    requires forall j :: i < j < |input.userStores| ==> input.userStores[j].envNamespace != input.userStores[i].envNamespace
    ensures var s := input.userStores[i];
            && Holds(input, "CELERITY_CONFIG_" + s.envNamespace + "_STORE_ID", Some(s.id))
            && Holds(input, "CELERITY_CONFIG_" + s.envNamespace + "_STORE_KIND", Some(s.kind))
            && Holds(input, "CELERITY_CONFIG_" + s.envNamespace + "_NAMESPACE", Some(s.namespace))
  {
    var s := input.userStores[i];
    var vars := WithUserStores(WithStore(FixedVariables(input), input.storePath), input.userStores);
    UserStoreReads(WithStore(FixedVariables(input), input.storePath), input.userStores, i);
    StoreNamesPrefixed(s.envNamespace);
    ConfigNameHolds(input, StoreIdName(s.envNamespace));
    ConfigNameHolds(input, StoreKindName(s.envNamespace));
    ConfigNameHolds(input, StoreNamespaceName(s.envNamespace));
  }

  lemma ConfigNameHolds(input: EnvInput, name: string)
    requires HasPrefix(name, CONFIG_PREFIX)
    ensures var vars := WithUserStores(WithStore(FixedVariables(input), input.storePath), input.userStores);
            Holds(input, name, Read(vars, name))
  {
    assert CONFIG_PREFIX[9] == 'C' && "CELERITY_TELEMETRY_ENABLED"[9] == 'T' && LOG_FORMAT[9] == 'L';
    assert name[9] == CONFIG_PREFIX[9];
  }
}
