// Lambda layers. One phase emits them, grouped by content hash; another makes each function
// refer to one by name. Both select from the same build manifest.
module Layers {
  import opened Blueprint
  import opened Text
  import opened Ordering
  import opened Sequences

  datatype Artifact = Artifact(hash: string, bucket: string, key: string)

  // dependencies: the handlers built with dependencies of their own. sharedLayer is under
  // the manifest's Lambda section, which may be missing altogether.
  datatype LambdaSection = LambdaSection(sharedLayer: Option<Artifact>)

  datatype Manifest = Manifest(dependencies: map<string, Artifact>, lambda: Option<LambdaSection>)

  datatype Handler = Handler(name: string, handlerName: string, runtime: string)

  datatype Layer = Layer(hash: string, name: string, sourceHandler: string, artifact: Artifact, compatibleRuntimes: seq<string>)

  function TargetRuntime(runtime: string): Option<string> {
    if runtime == "nodejs24.x" then Some("nodejs24.x")
    else if runtime == "python3.13.x" then Some("python3.13")
    else None
  }

  // A handler's own dependencies come first, even with an empty hash.
  function SelectLayer(handlerName: string, m: Manifest): Option<Artifact> {
    if handlerName in m.dependencies then Some(m.dependencies[handlerName])
    else if m.lambda.Some? then m.lambda.value.sharedLayer
    else None
  }

  function SelectedHash(h: Handler, m: Manifest): string {
    var a := SelectLayer(h.handlerName, m);
    if a.Some? then a.value.hash else ""
  }

  predicate Uses(h: Handler, m: Manifest, hash: string) {
    hash != "" && SelectedHash(h, m) == hash
  }

  // ---- Layer names ----

  predicate ReferenceChar(c: char) {
    'a' <= c <= 'z' || 'A' <= c <= 'Z' || '0' <= c <= '9' || c == '_'
  }

  // Letters, digits and the underscore are kept; the characters beside them are not.
  lemma KeptCharacters()
    ensures forall c :: c in {'a', 'b', 'f', 'z', 'A', 'F', 'Z', '0', '5', '9', '_'} ==> ReferenceChar(c)
    ensures forall c :: c in {':', '-', '.', '/', '@', '[', '`', '{', ' '} ==> !ReferenceChar(c)
  {
  }

  function ReferenceSafe(s: string): (r: string)
    ensures |r| == |s|
    ensures forall i :: 0 <= i < |s| ==> r[i] == if ReferenceChar(s[i]) then s[i] else '_'
  {
    if s == "" then "" else ReferenceSafe(s[..|s| - 1]) + [if ReferenceChar(s[|s| - 1]) then s[|s| - 1] else '_']
  }

  function LayerName(hash: string): string {
    "celerityLambdaLayer_" + ReferenceSafe(hash)
  }

  // <algorithm>:<hexadecimal digits>
  predicate ContentHash(hash: string) {
    exists k :: 0 <= k < |hash| && hash[k] == ':' &&
                forall i :: 0 <= i < |hash| && i != k ==> ReferenceChar(hash[i]) && hash[i] != '_'
  }

  // Folding the colon away keeps the names of content hashes apart.
  lemma LayerNamesDiffer(hash: string, other: string)
    requires ContentHash(hash) && ContentHash(other)
    ensures LayerName(hash) == LayerName(other) <==> hash == other
  {
    SameNameIff(hash, other);
    if ReferenceSafe(hash) == ReferenceSafe(other) {
      forall i | 0 <= i < |hash| ensures hash[i] == other[i] {
        assert ReferenceSafe(hash)[i] == ReferenceSafe(other)[i];
      }
    }
  }

  // ---- Collection ----

  datatype Collected = Collected(
    hashes: seq<string>,
    runtimes: map<string, set<string>>,
    artifacts: map<string, Artifact>,
    names: map<string, string>
  )

  function RuntimesUsing(handlers: seq<Handler>, m: Manifest, hash: string): set<string> {
    set h | h in handlers && Uses(h, m, hash) && TargetRuntime(h.runtime).Some? :: TargetRuntime(h.runtime).value
  }

  predicate FirstUsing(handlers: seq<Handler>, m: Manifest, hash: string, k: nat) {
    k < |handlers| && Uses(handlers[k], m, hash) && forall j :: 0 <= j < k ==> !Uses(handlers[j], m, hash)
  }

  // The artifact and the name are those of the first handler using the hash.
  ghost predicate SeededBy(handlers: seq<Handler>, m: Manifest, hash: string, artifact: Artifact, name: string) {
    exists k: nat :: FirstUsing(handlers, m, hash, k) && SelectLayer(handlers[k].handlerName, m) == Some(artifact) && name == handlers[k].name
  }

  ghost predicate HashOk(c: Collected, handlers: seq<Handler>, m: Manifest, hash: string) {
    if hash in c.runtimes then
      && hash in c.artifacts && hash in c.names
      && SeededBy(handlers, m, hash, c.artifacts[hash], c.names[hash])
      && c.runtimes[hash] == RuntimesUsing(handlers, m, hash)
    else forall h :: h in handlers ==> !Uses(h, m, hash)
  }

  ghost predicate CollectedOk(c: Collected, handlers: seq<Handler>, m: Manifest) {
    && (forall hash :: hash in c.hashes <==> hash in c.runtimes)
    && (forall i, j :: 0 <= i < j < |c.hashes| ==> c.hashes[i] != c.hashes[j])
    && (forall hash :: HashOk(c, handlers, m, hash))
  }

  function Add(c: Collected, h: Handler, hash: string, artifact: Artifact): Collected {
    var c' := if hash in c.runtimes then c
              else Collected(c.hashes + [hash], c.runtimes[hash := {}], c.artifacts[hash := artifact], c.names[hash := h.name]);
    if TargetRuntime(h.runtime).Some?
    then c'.(runtimes := c'.runtimes[hash := c'.runtimes[hash] + {TargetRuntime(h.runtime).value}])
    else c'
  }

  lemma SeededLonger(handlers: seq<Handler>, h: Handler, m: Manifest, hash: string, artifact: Artifact, name: string)
    requires SeededBy(handlers, m, hash, artifact, name)
    ensures SeededBy(handlers + [h], m, hash, artifact, name)
  {
    var k: nat :| FirstUsing(handlers, m, hash, k) && SelectLayer(handlers[k].handlerName, m) == Some(artifact) && name == handlers[k].name;
    assert (handlers + [h])[k] == handlers[k];
    assert FirstUsing(handlers + [h], m, hash, k);
  }

  lemma RuntimesLast(handlers: seq<Handler>, h: Handler, m: Manifest, hash: string)
    ensures RuntimesUsing(handlers + [h], m, hash) ==
            RuntimesUsing(handlers, m, hash)
            + if Uses(h, m, hash) && TargetRuntime(h.runtime).Some? then {TargetRuntime(h.runtime).value} else {}
  {
    assert forall k :: k in handlers + [h] <==> k in handlers || k == h;
  }

  lemma NoneUsingNoRuntimes(handlers: seq<Handler>, m: Manifest, hash: string)
    requires forall h :: h in handlers ==> !Uses(h, m, hash)
    ensures RuntimesUsing(handlers, m, hash) == {}
  {
  }

  lemma SkipKeepsHash(c: Collected, handlers: seq<Handler>, h: Handler, m: Manifest, e: string)
    requires HashOk(c, handlers, m, e) && !Uses(h, m, e)
    ensures HashOk(c, handlers + [h], m, e)
  {
    RuntimesLast(handlers, h, m, e);
    if e in c.runtimes {
      SeededLonger(handlers, h, m, e, c.artifacts[e], c.names[e]);
    }
  }

  lemma AddKeepsHash(c: Collected, handlers: seq<Handler>, h: Handler, m: Manifest, artifact: Artifact)
    requires SelectLayer(h.handlerName, m) == Some(artifact) && artifact.hash != ""
    requires HashOk(c, handlers, m, artifact.hash)
    ensures HashOk(Add(c, h, artifact.hash, artifact), handlers + [h], m, artifact.hash)
  {
    var hash := artifact.hash;
    RuntimesLast(handlers, h, m, hash);
    if hash in c.runtimes {
      SeededLonger(handlers, h, m, hash, c.artifacts[hash], c.names[hash]);
    } else {
      NoneUsingNoRuntimes(handlers, m, hash);
      var all := handlers + [h];
      assert all[|handlers|] == h;
      assert forall j :: 0 <= j < |handlers| ==> all[j] == handlers[j] && handlers[j] in handlers;
      assert FirstUsing(all, m, hash, |handlers|);
    }
  }

  // One turn of the collection loop.
  function Next(c: Collected, h: Handler, m: Manifest): Collected {
    var a := SelectLayer(h.handlerName, m);
    if a.None? || a.value.hash == "" then c else Add(c, h, a.value.hash, a.value)
  }

  lemma NextKeepsCollected(c: Collected, handlers: seq<Handler>, h: Handler, m: Manifest)
    requires CollectedOk(c, handlers, m)
    ensures CollectedOk(Next(c, h, m), handlers + [h], m)
  {
    var c' := Next(c, h, m);
    forall e ensures HashOk(c', handlers + [h], m, e) {
      assert HashOk(c, handlers, m, e);
      if e != "" && e == SelectedHash(h, m) {
        AddKeepsHash(c, handlers, h, m, SelectLayer(h.handlerName, m).value);
      } else {
        SkipKeepsHash(c, handlers, h, m, e);
        assert c != c' ==> e != SelectedHash(h, m);
      }
    }
  }

  // The layers of the handlers: one per hash in use.
  ghost predicate LayersOf(layers: seq<Layer>, handlers: seq<Handler>, m: Manifest) {
    && (forall i, j :: 0 <= i < j < |layers| ==> layers[i].hash != layers[j].hash)
    && (forall i :: 0 <= i < |layers| ==> LayerFor(layers[i], handlers, m))
    && (forall h :: h in handlers && SelectedHash(h, m) != "" ==> HasLayer(layers, SelectedHash(h, m)))
  }

  ghost predicate LayerFor(l: Layer, handlers: seq<Handler>, m: Manifest) {
    && l.name == LayerName(l.hash)
    && SeededBy(handlers, m, l.hash, l.artifact, l.sourceHandler)
    && l.compatibleRuntimes == SortedSet(RuntimesUsing(handlers, m, l.hash))
  }

  ghost predicate HasLayer(layers: seq<Layer>, hash: string) {
    exists i :: 0 <= i < |layers| && layers[i].hash == hash
  }

  method CollectLambdaLayers(handlers: seq<Handler>, manifest: Option<Manifest>) returns (layers: seq<Layer>)
    ensures manifest.None? ==> layers == []
    ensures manifest.Some? ==> LayersOf(layers, handlers, manifest.value)
  {
    layers := [];
    if manifest.None? {
      return;
    }
    var m := manifest.value;
    var c := Collected([], map[], map[], map[]);
    for i := 0 to |handlers|
      invariant CollectedOk(c, handlers[..i], m)
    {
      NextKeepsCollected(c, handlers[..i], handlers[i], m);
      assert handlers[..i] + [handlers[i]] == handlers[..i + 1];
      var artifact := SelectLayer(handlers[i].handlerName, m);
      if artifact.None? || artifact.value.hash == "" {
        continue;
      }
      c := RecordHandler(c, handlers[i], artifact.value.hash, artifact.value);
    }
    assert handlers[..|handlers|] == handlers;
    layers := EmitLayers(handlers, m, c);
  }

  // The body of the collection loop.
  method RecordHandler(c: Collected, h: Handler, hash: string, artifact: Artifact) returns (c': Collected)
    ensures c' == Add(c, h, hash, artifact)
  {
    c' := c;
    if hash !in c'.runtimes {
      c' := c'.(runtimes := c'.runtimes[hash := {}]);
      c' := c'.(artifacts := c'.artifacts[hash := artifact]);
      c' := c'.(names := c'.names[hash := h.name]);
      c' := c'.(hashes := c'.hashes + [hash]);
    }
    var runtime := TargetRuntime(h.runtime);
    if runtime.Some? {
      c' := c'.(runtimes := c'.runtimes[hash := c'.runtimes[hash] + {runtime.value}]);
    }
  }

  method EmitLayers(ghost handlers: seq<Handler>, ghost m: Manifest, c: Collected) returns (layers: seq<Layer>)
    requires CollectedOk(c, handlers, m)
    ensures LayersOf(layers, handlers, m)
  {
    layers := [];
    for i := 0 to |c.hashes|
      invariant |layers| == i
      invariant forall j :: 0 <= j < i ==> layers[j].hash == c.hashes[j] && LayerFor(layers[j], handlers, m)
    {
      var hash := c.hashes[i];
      CollectedLayer(c, handlers, m, hash);
      var runtimes := SortedKeys(c.runtimes[hash]);
      layers := layers + [Layer(hash, LayerName(hash), c.names[hash], c.artifacts[hash], runtimes)];
    }
    forall h | h in handlers && SelectedHash(h, m) != "" ensures HasLayer(layers, SelectedHash(h, m)) {
      CollectedHash(c, handlers, m, h);
    }
  }

  lemma CollectedLayer(c: Collected, handlers: seq<Handler>, m: Manifest, hash: string)
    requires CollectedOk(c, handlers, m) && hash in c.hashes
    ensures hash in c.runtimes && hash in c.artifacts && hash in c.names
    ensures LayerFor(Layer(hash, LayerName(hash), c.names[hash], c.artifacts[hash], SortedSet(c.runtimes[hash])), handlers, m)
  {
    assert HashOk(c, handlers, m, hash);
  }

  lemma CollectedHash(c: Collected, handlers: seq<Handler>, m: Manifest, h: Handler)
    requires CollectedOk(c, handlers, m) && h in handlers && SelectedHash(h, m) != ""
    ensures SelectedHash(h, m) in c.hashes
  {
    assert HashOk(c, handlers, m, SelectedHash(h, m));
  }

  // ---- The reference on the function ----

  // Validation has no manifest, and one without a Lambda section wires no layer.
  function LayerReference(h: Handler, manifest: Option<Manifest>, validating: bool): Option<string> {
    if validating || manifest.None? || manifest.value.lambda.None? then None
    else if SelectedHash(h, manifest.value) == "" then None
    else Some(LayerName(SelectedHash(h, manifest.value)))
  }

  // The layer a reference names supports the runtime the function is given.
  predicate Fits(l: Layer, h: Handler, m: Manifest, reference: string) {
    l.name == reference && l.hash == SelectedHash(h, m) &&
    (TargetRuntime(h.runtime).Some? ==> TargetRuntime(h.runtime).value in l.compatibleRuntimes)
  }

  // A function's layer is emitted and supports its runtime, and a layer lists no runtime
  // that no function using it has.
  lemma LayersFitFunctions(layers: seq<Layer>, handlers: seq<Handler>, m: Manifest, h: Handler, validating: bool)
    requires LayersOf(layers, handlers, m) && h in handlers
    ensures var ref := LayerReference(h, Some(m), validating);
            ref.Some? ==> exists i :: 0 <= i < |layers| && Fits(layers[i], h, m, ref.value)
    ensures forall i, runtime :: 0 <= i < |layers| && runtime in layers[i].compatibleRuntimes ==>
              exists k :: k in handlers && Uses(k, m, layers[i].hash) && TargetRuntime(k.runtime) == Some(runtime)
  {
    forall i, runtime | 0 <= i < |layers| && runtime in layers[i].compatibleRuntimes
      ensures exists k :: k in handlers && Uses(k, m, layers[i].hash) && TargetRuntime(k.runtime) == Some(runtime)
    {
      RuntimesOfUsers(layers[i], handlers, m, runtime);
    }
    if SelectedHash(h, m) != "" {
      var i := LayerUsedBy(layers, handlers, m, h);
      LayerFits(layers[i], handlers, m, h);
    }
  }

  lemma RuntimesOfUsers(l: Layer, handlers: seq<Handler>, m: Manifest, runtime: string)
    requires LayerFor(l, handlers, m)
    ensures runtime in l.compatibleRuntimes <==>
            exists k :: k in handlers && Uses(k, m, l.hash) && TargetRuntime(k.runtime) == Some(runtime)
  {
    SortedSetMembers(RuntimesUsing(handlers, m, l.hash));
  }

  lemma LayerFits(l: Layer, handlers: seq<Handler>, m: Manifest, h: Handler)
    requires LayerFor(l, handlers, m) && h in handlers && SelectedHash(h, m) == l.hash != ""
    ensures Fits(l, h, m, LayerName(l.hash))
  {
    if TargetRuntime(h.runtime).Some? {
      assert Uses(h, m, l.hash);
      RuntimesOfUsers(l, handlers, m, TargetRuntime(h.runtime).value);
    }
  }

  // The artifact a handler is built with: its own dependencies, or else the shared layer.
  predicate BuiltWith(h: Handler, m: Manifest, a: Artifact) {
    (h.handlerName in m.dependencies && a == m.dependencies[h.handlerName]) ||
    (h.handlerName !in m.dependencies && m.lambda.Some? && m.lambda.value.sharedLayer == Some(a))
  }

  predicate RunsOn(h: Handler, runtime: string) {
    (h.runtime == "nodejs24.x" && runtime == "nodejs24.x") || (h.runtime == "python3.13.x" && runtime == "python3.13")
  }

  lemma SelectsArtifact(h: Handler, m: Manifest, a: Artifact)
    ensures SelectLayer(h.handlerName, m) == Some(a) <==> BuiltWith(h, m, a)
  {
  }

  lemma RunsOnTarget(h: Handler, runtime: string)
    ensures TargetRuntime(h.runtime) == Some(runtime) <==> RunsOn(h, runtime)
  {
    assert |"nodejs24.x"| != |"python3.13.x"|;
  }

  // A layer holds an artifact some handler is built with, and lists exactly the runtimes of
  // the handlers built with artifacts of its hash.
  lemma LayerExact(layers: seq<Layer>, handlers: seq<Handler>, m: Manifest, i: nat, runtime: string)
    requires LayersOf(layers, handlers, m) && i < |layers|
    ensures exists h :: h in handlers && BuiltWith(h, m, layers[i].artifact) && layers[i].artifact.hash == layers[i].hash != ""
    ensures runtime in layers[i].compatibleRuntimes <==>
            exists h, a :: h in handlers && BuiltWith(h, m, a) && a.hash == layers[i].hash && RunsOn(h, runtime)
  {
    assert LayerFor(layers[i], handlers, m);
    LayerArtifact(layers[i], handlers, m);
    LayerRuntimes(layers[i], handlers, m, runtime);
  }

  lemma LayerArtifact(l: Layer, handlers: seq<Handler>, m: Manifest)
    requires LayerFor(l, handlers, m)
    ensures l.artifact.hash == l.hash != "" && exists h :: h in handlers && BuiltWith(h, m, l.artifact)
  {
    var k: nat :| FirstUsing(handlers, m, l.hash, k) && SelectLayer(handlers[k].handlerName, m) == Some(l.artifact);
    SelectsArtifact(handlers[k], m, l.artifact);
    assert handlers[k] in handlers;
  }

  lemma UsesWhenBuilt(h: Handler, m: Manifest, hash: string)
    ensures Uses(h, m, hash) <==> hash != "" && exists a :: BuiltWith(h, m, a) && a.hash == hash
  {
    forall a ensures SelectLayer(h.handlerName, m) == Some(a) <==> BuiltWith(h, m, a) { SelectsArtifact(h, m, a); }
    if Uses(h, m, hash) {
      assert BuiltWith(h, m, SelectLayer(h.handlerName, m).value);
    }
  }

  lemma LayerRuntimes(l: Layer, handlers: seq<Handler>, m: Manifest, runtime: string)
    requires LayerFor(l, handlers, m) && l.hash != ""
    ensures runtime in l.compatibleRuntimes <==>
            exists h, a :: h in handlers && BuiltWith(h, m, a) && a.hash == l.hash && RunsOn(h, runtime)
  {
    RuntimesOfUsers(l, handlers, m, runtime);
    forall h ensures Uses(h, m, l.hash) <==> exists a :: BuiltWith(h, m, a) && a.hash == l.hash { UsesWhenBuilt(h, m, l.hash); }
    forall h: Handler ensures TargetRuntime(h.runtime) == Some(runtime) <==> RunsOn(h, runtime) { RunsOnTarget(h, runtime); }
  }

  // A function refers to the layer of the artifact its handler is built with, and to none
  // when there is no such artifact, its hash is empty, or nothing is built yet.
  lemma LayerReferenceExact(h: Handler, m: Manifest, validating: bool, reference: string)
    ensures LayerReference(h, Some(m), validating) == Some(reference) <==>
            !validating && m.lambda.Some? && exists a :: BuiltWith(h, m, a) && a.hash != "" && reference == LayerName(a.hash)
    ensures LayerReference(h, None, validating) == None
  {
    forall a ensures SelectLayer(h.handlerName, m) == Some(a) <==> BuiltWith(h, m, a) { SelectsArtifact(h, m, a); }
    if LayerReference(h, Some(m), validating) == Some(reference) {
      assert BuiltWith(h, m, SelectLayer(h.handlerName, m).value);
    }
  }

  // Folding keeps the hashes in use apart.
  ghost predicate FoldingKeepsApart(handlers: seq<Handler>, m: Manifest) {
    forall h, k :: h in handlers && k in handlers && SelectedHash(h, m) != "" && SelectedHash(k, m) != "" &&
                   SelectedHash(h, m) != SelectedHash(k, m) ==>
                     ReferenceSafe(SelectedHash(h, m)) != ReferenceSafe(SelectedHash(k, m))
  }

  // Two layers have one name exactly when their hashes fold to one text.
  lemma SameNameIff(hash: string, other: string)
    ensures LayerName(hash) == LayerName(other) <==> ReferenceSafe(hash) == ReferenceSafe(other)
  {
    PrefixCancel("celerityLambdaLayer_", ReferenceSafe(hash), ReferenceSafe(other));
  }

  ghost predicate NamesDiffer(layers: seq<Layer>) {
    forall i, j :: 0 <= i < j < |layers| ==> layers[i].name != layers[j].name
  }

  lemma LayerUsedBy(layers: seq<Layer>, handlers: seq<Handler>, m: Manifest, h: Handler) returns (i: nat)
    requires LayersOf(layers, handlers, m) && h in handlers && SelectedHash(h, m) != ""
    ensures i < |layers| && layers[i].hash == SelectedHash(h, m) && LayerFor(layers[i], handlers, m)
  {
    assert HasLayer(layers, SelectedHash(h, m));
    i :| 0 <= i < |layers| && layers[i].hash == SelectedHash(h, m);
  }

  // The layers of differently hashed handlers have the names of their hashes, which differ.
  lemma UsedLayersDiffer(layers: seq<Layer>, handlers: seq<Handler>, m: Manifest, h: Handler, k: Handler)
    requires LayersOf(layers, handlers, m) && NamesDiffer(layers) && h in handlers && k in handlers
    requires SelectedHash(h, m) != "" && SelectedHash(k, m) != "" && SelectedHash(h, m) != SelectedHash(k, m)
    ensures LayerName(SelectedHash(h, m)) != LayerName(SelectedHash(k, m))
  {
    var i := LayerUsedBy(layers, handlers, m, h);
    var j := LayerUsedBy(layers, handlers, m, k);
    assert layers[i].name == LayerName(SelectedHash(h, m)) && layers[j].name == LayerName(SelectedHash(k, m));
  }

  lemma NamesStayApart(layers: seq<Layer>, handlers: seq<Handler>, m: Manifest, i: nat, j: nat)
    requires LayersOf(layers, handlers, m) && FoldingKeepsApart(handlers, m) && i < j < |layers|
    ensures layers[i].name != layers[j].name
  {
    assert LayerFor(layers[i], handlers, m) && LayerFor(layers[j], handlers, m);
    var h := LayerHasUser(layers[i], handlers, m);
    var k := LayerHasUser(layers[j], handlers, m);
    SameNameIff(layers[i].hash, layers[j].hash);
  }

  // A reference names one layer only, exactly when no two hashes in use fold to one name.
  lemma LayerNamesUniqueIff(layers: seq<Layer>, handlers: seq<Handler>, m: Manifest)
    requires LayersOf(layers, handlers, m)
    ensures NamesDiffer(layers) <==> FoldingKeepsApart(handlers, m)
  {
    if NamesDiffer(layers) {
      forall h, k | h in handlers && k in handlers && SelectedHash(h, m) != "" && SelectedHash(k, m) != "" && SelectedHash(h, m) != SelectedHash(k, m)
        ensures ReferenceSafe(SelectedHash(h, m)) != ReferenceSafe(SelectedHash(k, m))
      {
        UsedLayersDiffer(layers, handlers, m, h, k);
        SameNameIff(SelectedHash(h, m), SelectedHash(k, m));
      }
    }
    if FoldingKeepsApart(handlers, m) {
      forall i, j | 0 <= i < j < |layers| ensures layers[i].name != layers[j].name {
        NamesStayApart(layers, handlers, m, i, j);
      }
    }
  }

  lemma LayerHasUser(l: Layer, handlers: seq<Handler>, m: Manifest) returns (h: Handler)
    requires LayerFor(l, handlers, m)
    ensures h in handlers && Uses(h, m, l.hash)
  {
    var k: nat :| FirstUsing(handlers, m, l.hash, k);
    h := handlers[k];
  }

  lemma RuntimesOrderIndependent(handlers: seq<Handler>, handlers': seq<Handler>, m: Manifest, hash: string)
    requires multiset(handlers) == multiset(handlers')
    ensures RuntimesUsing(handlers, m, hash) == RuntimesUsing(handlers', m, hash)
  {
    SameMembers(handlers, handlers');
  }

  predicate SameLayer(l: Layer, l': Layer) {
    l.hash == l'.hash && l.name == l'.name && l.compatibleRuntimes == l'.compatibleRuntimes
  }

  // The handlers arrive in map order, which does not show in the layers' names or runtimes.
  lemma LayersOrderIndependent(layers: seq<Layer>, handlers: seq<Handler>, layers': seq<Layer>, handlers': seq<Handler>, m: Manifest, i: nat)
    requires LayersOf(layers, handlers, m) && LayersOf(layers', handlers', m)
    requires multiset(handlers) == multiset(handlers') && i < |layers|
    ensures exists j :: 0 <= j < |layers'| && SameLayer(layers[i], layers'[j])
  {
    assert LayerFor(layers[i], handlers, m);
    var h := LayerHasUser(layers[i], handlers, m);
    SameMember(handlers, handlers', h);
    assert HasLayer(layers', layers[i].hash);
    var j :| 0 <= j < |layers'| && layers'[j].hash == layers[i].hash;
    assert LayerFor(layers'[j], handlers', m);
    RuntimesOrderIndependent(handlers, handlers', m, layers[i].hash);
    assert SameLayer(layers[i], layers'[j]);
  }
}
