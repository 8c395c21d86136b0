// The mappings of an API onto its custom domain. A hybrid API maps both its protocols onto
// one domain, which cannot hold two mappings at one key.
module DomainMappings {
  import opened Text
  import opened Sequences

  datatype Protocol = Http | WebSocket

  function ProtocolText(p: Protocol): string {
    match p
    case Http => "http"
    case WebSocket => "websocket"
  }

  // An entry of domain.basePaths: one path for every protocol, one for a named protocol, or
  // text with a substitution, which is read as neither.
  datatype BasePath = Plain(path: string) | ForProtocol(protocol: string, path: string) | Substituted

  datatype Mapping = Mapping(protocol: Protocol, index: nat, key: string)

  // ---- Keys ----

  function TrimLeft(s: string): string {
    if s != "" && s[0] == '/' then TrimLeft(s[1..]) else s
  }

  function TrimRight(s: string): string {
    if s != "" && s[|s| - 1] == '/' then TrimRight(s[..|s| - 1]) else s
  }

  function MappingKey(path: string): string {
    TrimRight(TrimLeft(path))
  }

  predicate Slashes(s: string) {
    forall i :: 0 <= i < |s| ==> s[i] == '/'
  }

  predicate Trimmed(s: string) {
    s != "" ==> s[0] != '/' && s[|s| - 1] != '/'
  }

  lemma {:induction false} TrimLeftSplit(s: string) returns (before: string)
    ensures Slashes(before) && s == before + TrimLeft(s)
    ensures TrimLeft(s) != "" ==> TrimLeft(s)[0] != '/'
  {
    if s != "" && s[0] == '/' {
      var rest := TrimLeftSplit(s[1..]);
      before := ['/'] + rest;
    } else {
      before := "";
    }
  }

  lemma {:induction false} TrimRightSplit(s: string) returns (after: string)
    ensures Slashes(after) && s == TrimRight(s) + after
    ensures TrimRight(s) != "" ==> TrimRight(s)[|TrimRight(s)| - 1] != '/'
  {
    if s != "" && s[|s| - 1] == '/' {
      var rest := TrimRightSplit(s[..|s| - 1]);
      after := rest + ['/'];
    } else {
      after := "";
    }
  }

  // The key of a path is the path without the slashes around it, and nothing else.
  lemma MappingKeyExact(path: string) returns (before: string, after: string)
    ensures path == before + MappingKey(path) + after
    ensures Slashes(before) && Slashes(after) && Trimmed(MappingKey(path))
  {
    before := TrimLeftSplit(path);
    after := TrimRightSplit(TrimLeft(path));
    var key := MappingKey(path);
    assert key != "" ==> key[0] == TrimLeft(path)[0];
  }

  function KeyFor(p: Protocol): BasePath -> seq<string> {
    (b: BasePath) =>
      match b
      case Plain(path) => [MappingKey(path)]
      case ForProtocol(protocol, path) => if protocol == ProtocolText(p) then [MappingKey(path)] else []
      case Substituted => []
  }

  // With no path of its own a protocol is mapped at the root.
  function KeysFor(paths: seq<BasePath>, p: Protocol): seq<string> {
    if FlatMap(paths, KeyFor(p)) == [] then [""] else FlatMap(paths, KeyFor(p))
  }

  method MappingKeysForProtocol(paths: seq<BasePath>, p: Protocol) returns (keys: seq<string>)
    ensures keys == KeysFor(paths, p)
  {
    if |paths| == 0 {
      return [""];
    }
    keys := [];
    for i := 0 to |paths|
      invariant keys == FlatMap(paths[..i], KeyFor(p))
    {
      assert paths[..i + 1][..i] == paths[..i];
      match paths[i] {
        case Plain(path) => keys := keys + [MappingKey(path)];
        case ForProtocol(protocol, path) =>
          if protocol == ProtocolText(p) {
            keys := keys + [MappingKey(path)];
          }
        case Substituted =>
      }
    }
    assert paths[..|paths|] == paths;
    if |keys| == 0 {
      return [""];
    }
  }

  ghost predicate Collide(a: seq<string>, b: seq<string>) {
    exists k :: k in a && k in b
  }

  method KeysCollide(a: seq<string>, b: seq<string>) returns (collide: bool)
    ensures collide <==> Collide(a, b)
  {
    var keys: set<string> := {};
    for i := 0 to |a|
      invariant forall k :: k in keys <==> k in a[..i]
    {
      keys := keys + {a[i]};
    }
    assert a[..|a|] == a;
    for j := 0 to |b|
      invariant forall k :: k in b[..j] ==> k !in a
    {
      if b[j] in keys {
        return true;
      }
    }
    assert b[..|b|] == b;
    collide := false;
  }

  // ---- Mappings ----

  function MappingsFor(keys: seq<string>, p: Protocol): (r: seq<Mapping>)
    ensures |r| == |keys|
    ensures forall i :: 0 <= i < |keys| ==> r[i] == Mapping(p, i, keys[i])
  {
    seq(|keys|, i requires 0 <= i < |keys| => Mapping(p, i, keys[i]))
  }

  predicate Serves(hasHttp: bool, hasWebSocket: bool, p: Protocol) {
    if p == Http then hasHttp else hasWebSocket
  }

  function MappingsOf(hasHttp: bool, hasWebSocket: bool, paths: seq<BasePath>): seq<Mapping> {
    (if hasHttp then MappingsFor(KeysFor(paths, Http), Http) else []) +
    (if hasWebSocket then MappingsFor(KeysFor(paths, WebSocket), WebSocket) else [])
  }

  // The paths the check refuses.
  ghost predicate Refused(hasHttp: bool, hasWebSocket: bool, paths: seq<BasePath>) {
    hasHttp && hasWebSocket && Collide(KeysFor(paths, Http), KeysFor(paths, WebSocket))
  }

  method EmitApiMappings(hasHttp: bool, hasWebSocket: bool, paths: seq<BasePath>) returns (mappings: seq<Mapping>, collision: bool)
    ensures collision <==> Refused(hasHttp, hasWebSocket, paths)
    ensures mappings == if collision then [] else MappingsOf(hasHttp, hasWebSocket, paths)
  {
    if hasHttp && hasWebSocket {
      var httpKeys := MappingKeysForProtocol(paths, Http);
      var webSocketKeys := MappingKeysForProtocol(paths, WebSocket);
      collision := KeysCollide(httpKeys, webSocketKeys);
      if collision {
        return [], true;
      }
    }
    mappings, collision := [], false;
    if hasHttp {
      var more := MapProtocol(paths, Http);
      mappings := mappings + more;
    }
    if hasWebSocket {
      var more := MapProtocol(paths, WebSocket);
      mappings := mappings + more;
    }
  }

  method MapProtocol(paths: seq<BasePath>, p: Protocol) returns (mappings: seq<Mapping>)
    ensures mappings == MappingsFor(KeysFor(paths, p), p)
  {
    var keys := MappingKeysForProtocol(paths, p);
    mappings := [];
    for i := 0 to |keys|
      invariant mappings == MappingsFor(keys[..i], p)
    {
      mappings := mappings + [Mapping(p, i, keys[i])];
    }
    assert keys[..|keys|] == keys;
  }

  // ---- What the domain ends up with ----

  ghost predicate Distinct(keys: seq<string>) {
    forall i, j :: 0 <= i < j < |keys| ==> keys[i] != keys[j]
  }

  ghost predicate OneMappingPerKey(mappings: seq<Mapping>) {
    forall i, j :: 0 <= i < j < |mappings| ==> mappings[i].key != mappings[j].key
  }

  ghost predicate ShareNoKey(a: seq<Mapping>, b: seq<Mapping>) {
    forall i, j :: 0 <= i < |a| && 0 <= j < |b| ==> a[i].key != b[j].key
  }

  lemma OneMappingPerKeyConcat(a: seq<Mapping>, b: seq<Mapping>)
    requires ShareNoKey(a, b)
    ensures OneMappingPerKey(a + b) <==> OneMappingPerKey(a) && OneMappingPerKey(b)
  {
    var all := a + b;
    if OneMappingPerKey(all) {
      forall i, j | 0 <= i < j < |a| ensures a[i].key != a[j].key {
        assert all[i].key != all[j].key;
      }
      forall i, j | 0 <= i < j < |b| ensures b[i].key != b[j].key {
        assert all[|a| + i].key != all[|a| + j].key;
      }
    }
  }

  lemma OneMappingPerKeyOf(keys: seq<string>, p: Protocol)
    ensures OneMappingPerKey(MappingsFor(keys, p)) <==> Distinct(keys)
  {
    var m := MappingsFor(keys, p);
    if OneMappingPerKey(m) {
      forall i, j | 0 <= i < j < |keys| ensures keys[i] != keys[j] {
        assert m[i].key != m[j].key;
      }
    }
  }

  lemma OneMappingPerKeyWhenKeysDiffer(hasHttp: bool, hasWebSocket: bool, paths: seq<BasePath>)
    requires !Refused(hasHttp, hasWebSocket, paths)
    ensures OneMappingPerKey(MappingsOf(hasHttp, hasWebSocket, paths)) <==>
            (hasHttp ==> Distinct(KeysFor(paths, Http))) && (hasWebSocket ==> Distinct(KeysFor(paths, WebSocket)))
  {
    var httpKeys, webSocketKeys := KeysFor(paths, Http), KeysFor(paths, WebSocket);
    var h := if hasHttp then MappingsFor(httpKeys, Http) else [];
    var w := if hasWebSocket then MappingsFor(webSocketKeys, WebSocket) else [];
    forall i, j | 0 <= i < |h| && 0 <= j < |w| ensures h[i].key != w[j].key {
      assert h[i].key in httpKeys && w[j].key in webSocketKeys;
    }
    OneMappingPerKeyConcat(h, w);
    OneMappingPerKeyOf(httpKeys, Http);
    OneMappingPerKeyOf(webSocketKeys, WebSocket);
  }

  // ---- Over the author's paths ----

  predicate AppliesTo(b: BasePath, p: Protocol) {
    match b
    case Plain(_) => true
    case ForProtocol(protocol, _) => protocol == ProtocolText(p)
    case Substituted => false
  }

  // The path at an index is written for the protocol, and is the key but for slashes around it.
  predicate Asks(paths: seq<BasePath>, i: nat, p: Protocol, key: string) {
    i < |paths| && AppliesTo(paths[i], p) && MappingKey(paths[i].path) == key
  }

  // Two paths written for the protocol differ at most in the slashes around them.
  ghost predicate SamePathTwice(paths: seq<BasePath>, p: Protocol) {
    exists i: nat, j: nat, key :: i < j && Asks(paths, i, p, key) && Asks(paths, j, p, key)
  }

  lemma KeyForExact(b: BasePath, p: Protocol)
    ensures KeyFor(p)(b) == if AppliesTo(b, p) then [MappingKey(b.path)] else []
  {
  }

  lemma KeyAsked(paths: seq<BasePath>, p: Protocol, key: string)
    ensures key in FlatMap(paths, KeyFor(p)) <==> exists i: nat :: Asks(paths, i, p, key)
  {
    FlatMapMember(paths, KeyFor(p), key);
    if b :| b in paths && key in KeyFor(p)(b) {
      var i := IndexOf(paths, b);
      assert Asks(paths, i, p, key);
    }
    if i: nat :| Asks(paths, i, p, key) {
      assert paths[i] in paths && key in KeyFor(p)(paths[i]);
    }
  }

  lemma DistinctLast(keys: seq<string>, key: string)
    ensures Distinct(keys + [key]) <==> Distinct(keys) && key !in keys
  {
    var all := keys + [key];
    if Distinct(all) {
      forall i, j | 0 <= i < j < |keys| ensures keys[i] != keys[j] {
        assert all[i] != all[j];
      }
      forall i | 0 <= i < |keys| ensures keys[i] != key {
        assert all[i] != all[|keys|];
      }
    }
  }

  lemma SamePathTwiceLast(paths: seq<BasePath>, p: Protocol)
    requires paths != []
    ensures var n := |paths| - 1;
            SamePathTwice(paths, p) <==>
            SamePathTwice(paths[..n], p) ||
            (AppliesTo(paths[n], p) && exists i: nat :: Asks(paths[..n], i, p, MappingKey(paths[n].path)))
  {
    var n := |paths| - 1;
    forall i: nat, key ensures Asks(paths[..n], i, p, key) <==> i < n && Asks(paths, i, p, key) {
    }
    if i: nat, j: nat, key :| i < j && Asks(paths, i, p, key) && Asks(paths, j, p, key) {
      assert Asks(paths[..n], i, p, key);
      assert j < n ==> Asks(paths[..n], j, p, key);
    }
    if i: nat, j: nat, key :| i < j && Asks(paths[..n], i, p, key) && Asks(paths[..n], j, p, key) {
      assert Asks(paths, i, p, key) && Asks(paths, j, p, key);
    }
    if AppliesTo(paths[n], p) {
      var key := MappingKey(paths[n].path);
      assert Asks(paths, n, p, key);
      if i: nat :| Asks(paths[..n], i, p, key) {
        assert Asks(paths, i, p, key);
      }
    }
  }

  lemma {:induction false} DistinctIffNoPathTwice(paths: seq<BasePath>, p: Protocol)
    ensures Distinct(FlatMap(paths, KeyFor(p))) <==> !SamePathTwice(paths, p)
  {
    if paths != [] {
      var n := |paths| - 1;
      DistinctIffNoPathTwice(paths[..n], p);
      SamePathTwiceLast(paths, p);
      KeyForExact(paths[n], p);
      var before := FlatMap(paths[..n], KeyFor(p));
      if AppliesTo(paths[n], p) {
        KeyAsked(paths[..n], p, MappingKey(paths[n].path));
        DistinctLast(before, MappingKey(paths[n].path));
      } else {
        assert before + [] == before;
      }
    }
  }

  // The check keeps the protocols apart, but not the paths of one protocol: the domain is
  // given one mapping per key exactly when the check refuses the paths, or no served
  // protocol has two paths that differ at most in the slashes around them.
  lemma OneMappingPerKeyIff(hasHttp: bool, hasWebSocket: bool, paths: seq<BasePath>)
    ensures OneMappingPerKey(if Refused(hasHttp, hasWebSocket, paths) then [] else MappingsOf(hasHttp, hasWebSocket, paths)) <==>
            Refused(hasHttp, hasWebSocket, paths) || forall p :: Serves(hasHttp, hasWebSocket, p) ==> !SamePathTwice(paths, p)
  {
    if !Refused(hasHttp, hasWebSocket, paths) {
      OneMappingPerKeyWhenKeysDiffer(hasHttp, hasWebSocket, paths);
      forall p: Protocol ensures Distinct(KeysFor(paths, p)) <==> !SamePathTwice(paths, p) {
        DistinctIffNoPathTwice(paths, p);
        assert Distinct([""]);
      }
      assert Serves(hasHttp, hasWebSocket, Http) == hasHttp && Serves(hasHttp, hasWebSocket, WebSocket) == hasWebSocket;
    }
  }

  // One protocol, one path written twice: the check passes it and the domain gets two
  // mappings at one key.
  lemma SlashesHideADuplicate()
    ensures var paths := [Plain("/v1"), Plain("v1/")];
            !Refused(true, false, paths) && !OneMappingPerKey(MappingsOf(true, false, paths))
  {
    var paths := [Plain("/v1"), Plain("v1/")];
    assert "/v1"[1..] == "v1" && "v1/"[..2] == "v1";
    assert MappingKey("v1/") == TrimRight("v1/") == TrimRight("v1") == "v1" == MappingKey("/v1");
    assert Asks(paths, 0, Http, "v1") && Asks(paths, 1, Http, "v1");
    OneMappingPerKeyIff(true, false, paths);
    assert Serves(true, false, Http);
  }

  // The check refuses a hybrid API exactly when some key is asked for by both protocols, a
  // protocol with no path of its own asking for the root.
  lemma RefusedIff(paths: seq<BasePath>)
    ensures Refused(true, true, paths) <==> exists key :: AsksOrDefaults(paths, Http, key) && AsksOrDefaults(paths, WebSocket, key)
  {
    forall p: Protocol, key ensures key in KeysFor(paths, p) <==> AsksOrDefaults(paths, p, key) {
      KeyAsked(paths, p, key);
      if FlatMap(paths, KeyFor(p)) != [] {
        KeyAsked(paths, p, FlatMap(paths, KeyFor(p))[0]);
        var i: nat :| Asks(paths, i, p, FlatMap(paths, KeyFor(p))[0]);
        assert AppliesTo(paths[i], p);
      } else {
        forall i: nat | i < |paths| ensures !AppliesTo(paths[i], p) {
          var asked := if AppliesTo(paths[i], p) then MappingKey(paths[i].path) else "";
          KeyAsked(paths, p, asked);
          assert AppliesTo(paths[i], p) ==> Asks(paths, i, p, asked);
        }
      }
    }
  }

  ghost predicate AsksOrDefaults(paths: seq<BasePath>, p: Protocol, key: string) {
    (exists i: nat :: Asks(paths, i, p, key)) || (key == "" && forall i :: 0 <= i < |paths| ==> !AppliesTo(paths[i], p))
  }

  // A path written without a protocol is mapped for both, so a hybrid API with one is always
  // refused.
  lemma PlainPathCollides(paths: seq<BasePath>, path: string)
    requires Plain(path) in paths
    ensures Refused(true, true, paths)
  {
    var i := IndexOf(paths, Plain(path));
    assert Asks(paths, i, Http, MappingKey(path)) && Asks(paths, i, WebSocket, MappingKey(path));
    assert AsksOrDefaults(paths, Http, MappingKey(path)) && AsksOrDefaults(paths, WebSocket, MappingKey(path));
    RefusedIff(paths);
  }

  // ---- Names ----

  function MappingName(api: string, p: Protocol, index: nat): string {
    api + "_" + ProtocolText(p) + "_api_mapping" + ['_'] + Decimal(index)
  }

  // The names say which protocol a mapping serves.
  lemma MappingNameTexts(api: string, index: nat)
    ensures MappingName(api, Http, index) == api + "_http_api_mapping_" + Decimal(index)
    ensures MappingName(api, WebSocket, index) == api + "_websocket_api_mapping_" + Decimal(index)
  {
    MappingNameText(api, Http, index, "_http_api_mapping_");
    MappingNameText(api, WebSocket, index, "_websocket_api_mapping_");
  }

  lemma MappingNameText(api: string, p: Protocol, index: nat, text: string)
    requires text == "_" + ProtocolText(p) + "_api_mapping" + ['_']
    ensures MappingName(api, p, index) == api + text + Decimal(index)
  {
  }

  lemma DecimalHasNoUnderscore(n: nat)
    ensures '_' !in Decimal(n)
  {
    assert '_' !in DIGITS;
  }

  // No two mappings, of one API or of two, share a resource name.
  lemma MappingNamesUnique(api: string, p: Protocol, index: nat, other: string, q: Protocol, otherIndex: nat)
    ensures MappingName(api, p, index) == MappingName(other, q, otherIndex) <==> api == other && p == q && index == otherIndex
  {
    if MappingName(api, p, index) == MappingName(other, q, otherIndex) {
      var a, b := api + "_" + ProtocolText(p), other + "_" + ProtocolText(q);
      DecimalHasNoUnderscore(index);
      DecimalHasNoUnderscore(otherIndex);
      LastSplitUnique(a + "_api_mapping", Decimal(index), b + "_api_mapping", Decimal(otherIndex), '_');
      DecimalInjective(index, otherIndex);
      SuffixCancel("_api_mapping", a, b);
      assert a[|a| - 1] == ProtocolText(p)[|ProtocolText(p)| - 1] && b[|b| - 1] == ProtocolText(q)[|ProtocolText(q)| - 1];
      assert p == q;
      SuffixCancel(ProtocolText(p), api + "_", other + "_");
      SuffixCancel("_", api, other);
    }
  }
}
