// The labels of an emitted function. A handler absorbs its consumers and the placement
// labels it inherits, so links that selected any of those must select the function, and
// nothing else may.
module Absorption {
  import opened Blueprint
  import opened Text

  const API_TARGET := "celerity.internal.api.target"
  const GUARD_TARGET := "celerity.internal.api.guard.target"
  const POLL_PREFIX := "celerity.consumer.topicPoll."

  function PollKey(consumerName: string): string {
    POLL_PREFIX + consumerName
  }

  // Keys the transformer reserves for wiring it adds itself.
  predicate Internal(key: string) {
    key == API_TARGET || key == GUARD_TARGET || HasPrefix(key, POLL_PREFIX)
  }

  function EventSourceName(source: EventSource): string {
    match source
    case Http => "http"
    case WebSocket => "websocket"
    case ConsumerEvents => "consumer"
    case ScheduleEvents => "schedule"
    case Custom => "custom"
  }

  function TargetValue(apiName: string, part: string): string {
    apiName + "::" + part
  }

  // The first consumer to carry a label decides its value.
  function UnionLabels(consumers: seq<Consumer>): LabelMap {
    if consumers == [] then map[]
    else consumers[|consumers| - 1].labels + UnionLabels(consumers[..|consumers| - 1])
  }

  // The handler's labels win over its consumers', the inherited placement's over both.
  function AuthorLabels(h: ResolvedHandler): LabelMap {
    UnionLabels(h.consumers) + h.labels + h.inheritedLabels
  }

  predicate ImplementsGuard(h: ResolvedHandler) {
    h.api.Some? && h.customGuard != ""
  }

  // An HTTP or WebSocket handler linked to an API serves a route of that API.
  predicate Routed(h: ResolvedHandler) {
    h.api.Some? && (h.eventSource == Http || h.eventSource == WebSocket)
  }

  function WithGuardLabel(h: ResolvedHandler, labels: LabelMap): LabelMap {
    if ImplementsGuard(h) then labels[GUARD_TARGET := TargetValue(h.api.value, h.customGuard)] else labels
  }

  function WithPollLabels(bindings: seq<ConsumerBinding>, labels: LabelMap): LabelMap {
    if bindings == [] then labels
    else
      var rest := WithPollLabels(bindings[..|bindings| - 1], labels);
      var last := bindings[|bindings| - 1];
      if last.kind == TopicSource then rest[PollKey(last.consumer.name) := "true"] else rest
  }

  lemma NextPollLabels(labels: LabelMap, bindings: seq<ConsumerBinding>, i: nat)
    requires i < |bindings|
    ensures WithPollLabels(bindings[..i + 1], labels) == WithPollLabels([bindings[i]], WithPollLabels(bindings[..i], labels))
  {
    assert bindings[..i + 1][..i] == bindings[..i] && [bindings[i]][..0] == [];
  }

  function WithApiLabel(h: ResolvedHandler, labels: LabelMap): LabelMap {
    if Routed(h) then labels[API_TARGET := TargetValue(h.api.value, EventSourceName(h.eventSource))] else labels
  }

  function EmittedLabels(h: ResolvedHandler): LabelMap {
    WithApiLabel(h, WithPollLabels(h.bindings, WithGuardLabel(h, AuthorLabels(h))))
  }

  // ---- Collecting the consumers' labels ----

  // A label the function cannot carry for this consumer, because an earlier one differs.
  datatype Conflict = Conflict(consumer: nat, key: string)

  predicate Drops(consumers: seq<Consumer>, c: Conflict) {
    c.consumer < |consumers| && c.key in consumers[c.consumer].labels &&
    var earlier := UnionLabels(consumers[..c.consumer]);
    c.key in earlier && earlier[c.key] != consumers[c.consumer].labels[c.key]
  }

  // A consumer's label map is visited in no particular order.
  method ConsumerLabelUnion(consumers: seq<Consumer>) returns (labels: LabelMap, conflicts: seq<Conflict>)
    ensures labels == UnionLabels(consumers)
    ensures forall c :: c in conflicts <==> Drops(consumers, c)
  {
    labels, conflicts := map[], [];
    for i := 0 to |consumers|
      invariant labels == UnionLabels(consumers[..i])
      invariant forall c :: c in conflicts <==> c.consumer < i && Drops(consumers, c)
    {
      var own := consumers[i].labels;
      ghost var earlier := labels;
      ghost var before := conflicts;
      var remaining := own.Keys;
      while remaining != {}
        invariant remaining <= own.Keys
        invariant labels.Keys == earlier.Keys + (own.Keys - remaining)
        invariant forall key :: key in labels ==> labels[key] == if key in earlier then earlier[key] else own[key]
        invariant forall c :: c in conflicts <==>
            c in before || (c.consumer == i && c.key !in remaining && Drops(consumers, c))
      {
        var key :| key in remaining;
        remaining := remaining - {key};
        if key in labels && labels[key] != own[key] {
          conflicts := conflicts + [Conflict(i, key)];
        } else {
          labels := labels[key := own[key]];
        }
      }
      assert consumers[..i + 1][..i] == consumers[..i];
      assert labels == own + earlier;
    }
    assert consumers[..|consumers|] == consumers;
  }

  lemma {:induction false} UnionHasFirst(consumers: seq<Consumer>, key: string)
    ensures key in UnionLabels(consumers) <==> exists i :: 0 <= i < |consumers| && key in consumers[i].labels
    ensures key in UnionLabels(consumers) ==>
              exists i :: 0 <= i < |consumers| && key in consumers[i].labels
                && UnionLabels(consumers)[key] == consumers[i].labels[key]
                && forall j :: 0 <= j < i ==> key !in consumers[j].labels
  {
    if consumers != [] {
      var n := |consumers| - 1;
      UnionHasFirst(consumers[..n], key);
      if key in UnionLabels(consumers[..n]) {
        var i :| 0 <= i < n && key in consumers[..n][i].labels
          && UnionLabels(consumers[..n])[key] == consumers[..n][i].labels[key]
          && forall j :: 0 <= j < i ==> key !in consumers[..n][j].labels;
        assert key in consumers[i].labels && UnionLabels(consumers)[key] == consumers[i].labels[key];
        assert forall j :: 0 <= j < i ==> consumers[..n][j] == consumers[j];
      } else {
        assert forall j :: 0 <= j < n ==> consumers[..n][j] == consumers[j];
        if key in consumers[n].labels {
          assert UnionLabels(consumers)[key] == consumers[n].labels[key];
        }
      }
    }
  }

  predicate Disagree(a: LabelMap, b: LabelMap, key: string) {
    key in a && key in b && a[key] != b[key]
  }

  // A conflict is reported exactly when two consumers disagree on a label.
  lemma ConflictReportedIffDisagreement(consumers: seq<Consumer>)
    ensures (exists c :: Drops(consumers, c)) <==>
            exists i, j, key :: 0 <= i < j < |consumers| && Disagree(consumers[i].labels, consumers[j].labels, key)
  {
    forall c | Drops(consumers, c)
      ensures exists i :: 0 <= i < c.consumer && Disagree(consumers[i].labels, consumers[c.consumer].labels, c.key)
    {
      UnionHasFirst(consumers[..c.consumer], c.key);
      var i :| 0 <= i < c.consumer && c.key in consumers[..c.consumer][i].labels
        && UnionLabels(consumers[..c.consumer])[c.key] == consumers[..c.consumer][i].labels[c.key];
      assert Disagree(consumers[i].labels, consumers[c.consumer].labels, c.key);
    }
    forall i, j, key | 0 <= i < j < |consumers| && Disagree(consumers[i].labels, consumers[j].labels, key)
      ensures exists c :: Drops(consumers, c)
    {
      var c := DisagreementDrops(consumers, i, j, key);
    }
  }

  // The union holds the first carrier's value; one of two that disagree is not the first,
  // and loses its own.
  lemma DisagreementDrops(consumers: seq<Consumer>, i: nat, j: nat, key: string) returns (c: Conflict)
    requires i < j < |consumers| && Disagree(consumers[i].labels, consumers[j].labels, key)
    ensures Drops(consumers, c)
  {
    var first := FirstCarrier(consumers, j, i, key);
    if UnionLabels(consumers[..j])[key] != consumers[j].labels[key] {
      c := Conflict(j, key);
    } else {
      FirstCarrierDecides(consumers, i, first, key);
      c := Conflict(i, key);
    }
  }

  predicate IsFirstCarrier(consumers: seq<Consumer>, first: nat, key: string) {
    first < |consumers| && key in consumers[first].labels && forall m :: 0 <= m < first ==> key !in consumers[m].labels
  }

  lemma FirstCarrier(consumers: seq<Consumer>, n: nat, i: nat, key: string) returns (first: nat)
    requires i < n <= |consumers| && key in consumers[i].labels
    ensures first <= i && IsFirstCarrier(consumers, first, key)
    ensures key in UnionLabels(consumers[..n]) && UnionLabels(consumers[..n])[key] == consumers[first].labels[key]
  {
    UnionHasFirst(consumers[..n], key);
    assert key in consumers[..n][i].labels;
    first :| 0 <= first < n && key in consumers[..n][first].labels
      && UnionLabels(consumers[..n])[key] == consumers[..n][first].labels[key]
      && forall m :: 0 <= m < first ==> key !in consumers[..n][m].labels;
    assert forall m :: 0 <= m < n ==> consumers[..n][m] == consumers[m];
  }

  lemma FirstCarrierDecides(consumers: seq<Consumer>, n: nat, first: nat, key: string)
    requires n <= |consumers| && first < n && IsFirstCarrier(consumers, first, key)
    ensures key in UnionLabels(consumers[..n]) && UnionLabels(consumers[..n])[key] == consumers[first].labels[key]
  {
    var again := FirstCarrier(consumers, n, first, key);
  }

  // ---- Which selectors match the emitted function ----

  function LabelSources(h: ResolvedHandler): seq<LabelMap> {
    seq(|h.consumers|, i requires 0 <= i < |h.consumers| => h.consumers[i].labels) + [h.labels, h.inheritedLabels]
  }

  predicate AuthorSelector(selector: LabelMap) {
    forall key :: key in selector ==> !Internal(key)
  }

  ghost predicate SelectsSource(selector: LabelMap, h: ResolvedHandler) {
    exists i :: 0 <= i < |LabelSources(h)| && Selects(selector, LabelSources(h)[i])
  }

  // The sources give every author label they share one value.
  ghost predicate SourcesAgree(h: ResolvedHandler) {
    forall i, j, key :: 0 <= i < j < |LabelSources(h)| && !Internal(key) ==>
      !Disagree(LabelSources(h)[i], LabelSources(h)[j], key)
  }

  ghost predicate PreservesLinks(h: ResolvedHandler) {
    forall selector :: AuthorSelector(selector) ==>
      (Selects(selector, EmittedLabels(h)) <==> SelectsSource(selector, h))
  }

  lemma InternalKeysDiffer()
    ensures API_TARGET != GUARD_TARGET
    ensures !HasPrefix(API_TARGET, POLL_PREFIX) && !HasPrefix(GUARD_TARGET, POLL_PREFIX)
  {
    assert API_TARGET[9] == 'i' && GUARD_TARGET[9] == 'i' && POLL_PREFIX[9] == 'c';
    assert |API_TARGET| != |GUARD_TARGET|;
  }

  lemma {:induction false} PollLabelsKeepOthers(bindings: seq<ConsumerBinding>, labels: LabelMap, key: string)
    requires !HasPrefix(key, POLL_PREFIX)
    ensures key in WithPollLabels(bindings, labels) <==> key in labels
    ensures key in labels ==> WithPollLabels(bindings, labels)[key] == labels[key]
  {
    if bindings != [] {
      var n := |bindings| - 1;
      PollLabelsKeepOthers(bindings[..n], labels, key);
      PrefixOfConcat(POLL_PREFIX, bindings[n].consumer.name);
    }
  }

  lemma EmittedAuthorLabel(h: ResolvedHandler, key: string)
    requires !Internal(key)
    ensures key in EmittedLabels(h) <==> key in AuthorLabels(h)
    ensures key in AuthorLabels(h) ==> EmittedLabels(h)[key] == AuthorLabels(h)[key]
  {
    PollLabelsKeepOthers(h.bindings, WithGuardLabel(h, AuthorLabels(h)), key);
  }

  // An author label on the function has the value one of the sources gave it.
  lemma AuthorLabelHasSource(h: ResolvedHandler, key: string)
    ensures key in AuthorLabels(h) <==> exists i :: 0 <= i < |LabelSources(h)| && key in LabelSources(h)[i]
    ensures key in AuthorLabels(h) ==>
              exists i :: 0 <= i < |LabelSources(h)| && key in LabelSources(h)[i]
                && AuthorLabels(h)[key] == LabelSources(h)[i][key]
  {
    var n := |h.consumers|;
    var sources := LabelSources(h);
    assert sources[n] == h.labels && sources[n + 1] == h.inheritedLabels;
    UnionHasFirst(h.consumers, key);
    if key in UnionLabels(h.consumers) {
      var i :| 0 <= i < n && key in h.consumers[i].labels
        && UnionLabels(h.consumers)[key] == h.consumers[i].labels[key];
      assert sources[i] == h.consumers[i].labels;
    }
    if exists i :: 0 <= i < |sources| && key in sources[i] {
      var i :| 0 <= i < |sources| && key in sources[i];
      if i < n {
        assert sources[i] == h.consumers[i].labels;
      }
    }
  }

  // Absorbing keeps every author link and adds none exactly when the absorbed sources
  // agree on the labels they share.
  lemma AbsorptionPreservesLinks(h: ResolvedHandler)
    ensures PreservesLinks(h) <==> SourcesAgree(h)
  {
    var sources := LabelSources(h);
    if SourcesAgree(h) {
      forall selector | AuthorSelector(selector)
        ensures Selects(selector, EmittedLabels(h)) <==> SelectsSource(selector, h)
      {
        AgreeingSourcesSelect(h, selector);
      }
    }
    if PreservesLinks(h) {
      forall i, j, key | 0 <= i < j < |sources| && !Internal(key)
        ensures !Disagree(sources[i], sources[j], key)
      {
        if Disagree(sources[i], sources[j], key) {
          DisagreementBreaksLinks(h, i, j, key);
        }
      }
    }
  }

  // Two sources with different values for a label cannot both keep their links.
  lemma DisagreementBreaksLinks(h: ResolvedHandler, i: nat, j: nat, key: string)
    requires i < |LabelSources(h)| && j < |LabelSources(h)| && !Internal(key)
    requires Disagree(LabelSources(h)[i], LabelSources(h)[j], key)
    ensures !PreservesLinks(h)
  {
    var sources := LabelSources(h);
    var a, b := map[key := sources[i][key]], map[key := sources[j][key]];
    assert Selects(a, sources[i]) && Selects(b, sources[j]);
    assert AuthorSelector(a) && AuthorSelector(b);
    assert SelectsSource(a, h) && SelectsSource(b, h);
    assert !(Selects(a, EmittedLabels(h)) && Selects(b, EmittedLabels(h)));
  }

  // Where the sources agree, the emitted label is that of any source that has it.
  lemma EmittedLabelIsEachSources(h: ResolvedHandler, i: nat, key: string)
    requires SourcesAgree(h) && i < |LabelSources(h)| && !Internal(key) && key in LabelSources(h)[i]
    ensures key in EmittedLabels(h) && EmittedLabels(h)[key] == LabelSources(h)[i][key]
  {
    var sources := LabelSources(h);
    EmittedAuthorLabel(h, key);
    AuthorLabelHasSource(h, key);
    var j :| 0 <= j < |sources| && key in sources[j] && AuthorLabels(h)[key] == sources[j][key];
    assert !Disagree(sources[i], sources[j], key) && !Disagree(sources[j], sources[i], key);
  }

  lemma EmittedLabelHasSource(h: ResolvedHandler, key: string) returns (i: nat)
    requires !Internal(key) && key in EmittedLabels(h)
    ensures i < |LabelSources(h)| && key in LabelSources(h)[i] && EmittedLabels(h)[key] == LabelSources(h)[i][key]
  {
    var sources := LabelSources(h);
    EmittedAuthorLabel(h, key);
    AuthorLabelHasSource(h, key);
    i :| 0 <= i < |sources| && key in sources[i] && AuthorLabels(h)[key] == sources[i][key];
  }

  lemma AgreeingSourcesSelect(h: ResolvedHandler, selector: LabelMap)
    requires SourcesAgree(h) && AuthorSelector(selector)
    ensures Selects(selector, EmittedLabels(h)) <==> SelectsSource(selector, h)
  {
    var sources := LabelSources(h);
    if Selects(selector, EmittedLabels(h)) {
      var key :| key in selector && key in EmittedLabels(h) && EmittedLabels(h)[key] == selector[key];
      var i := EmittedLabelHasSource(h, key);
      assert Selects(selector, sources[i]);
    }
    if SelectsSource(selector, h) {
      var i :| 0 <= i < |sources| && Selects(selector, sources[i]);
      var key :| key in selector && key in sources[i] && sources[i][key] == selector[key];
      EmittedLabelIsEachSources(h, i, key);
    }
  }

  // The placement labels are carried onto the function, so the selector of the VPC they
  // came from selects it, whatever the other sources say.
  lemma InheritedPlacementEffective(h: ResolvedHandler, vpcSelector: LabelMap, key: string)
    requires forall k :: k in h.inheritedLabels ==> k in vpcSelector && vpcSelector[k] == h.inheritedLabels[k]
    requires key in h.inheritedLabels && !Internal(key)
    ensures Selects(vpcSelector, EmittedLabels(h))
  {
    EmittedAuthorLabel(h, key);
  }

  // ---- APIs and guards ----

  // A nil or label-less selector is passed through, so such an API attaches no handler.
  function ApiSelector(authorSelector: Option<LabelMap>, apiName: string, protocol: EventSource): Option<LabelMap> {
    if authorSelector.None? then None
    else Some(map[API_TARGET := TargetValue(apiName, EventSourceName(protocol))])
  }

  lemma TargetValueInjective(api: string, protocol: EventSource, api': string, protocol': EventSource)
    ensures TargetValue(api, EventSourceName(protocol)) == TargetValue(api', EventSourceName(protocol')) <==>
            api == api' && protocol == protocol'
  {
    var p, p' := EventSourceName(protocol), EventSourceName(protocol');
    assert TargetValue(api, p) == (api + ":") + [':'] + p && TargetValue(api', p') == (api' + ":") + [':'] + p';
    if TargetValue(api, p) == TargetValue(api', p') {
      LastSplitUnique(api + ":", p, api' + ":", p', ':');
      SuffixCancel(":", api, api');
      assert |p| == |p'| && p[0] == p'[0];
    }
  }

  // The concrete API of a protocol selects a function exactly when its handler serves that
  // API over that protocol, or serves no route and its author wrote the reserved label.
  lemma HybridApiExact(h: ResolvedHandler, selector: LabelMap, api: string, protocol: EventSource)
    requires protocol == Http || protocol == WebSocket
    ensures Selects(ApiSelector(Some(selector), api, protocol).value, EmittedLabels(h)) <==>
            if Routed(h) then h.api == Some(api) && h.eventSource == protocol
            else Selects(ApiSelector(Some(selector), api, protocol).value, AuthorLabels(h))
  {
    InternalKeysDiffer();
    PollLabelsKeepOthers(h.bindings, WithGuardLabel(h, AuthorLabels(h)), API_TARGET);
    var target := ApiSelector(Some(selector), api, protocol).value;
    assert API_TARGET in target && forall key :: key in target ==> key == API_TARGET;
    if Routed(h) {
      TargetValueInjective(h.api.value, h.eventSource, api, protocol);
    }
  }

  lemma HybridApiSelectsItsRoutes(h: ResolvedHandler, selector: LabelMap, api: string, protocol: EventSource)
    requires protocol == Http || protocol == WebSocket
    requires forall i :: 0 <= i < |LabelSources(h)| ==> API_TARGET !in LabelSources(h)[i]
    ensures Selects(ApiSelector(Some(selector), api, protocol).value, EmittedLabels(h)) <==>
            h.api == Some(api) && h.eventSource == protocol
  {
    HybridApiExact(h, selector, api, protocol);
    AuthorLabelHasSource(h, API_TARGET);
  }

  function AuthorizerSelector(apiName: string, guard: string): LabelMap {
    map[GUARD_TARGET := TargetValue(apiName, guard)]
  }

  // A custom authorizer selects exactly the function of the handler that implements its
  // guard for its API. Resource names hold no colon.
  lemma AuthorizerSelectsItsGuard(h: ResolvedHandler, api: string, guard: string)
    requires guard != "" && ':' !in api && (h.api.Some? ==> ':' !in h.api.value)
    requires forall i :: 0 <= i < |LabelSources(h)| ==> GUARD_TARGET !in LabelSources(h)[i]
    ensures Selects(AuthorizerSelector(api, guard), EmittedLabels(h)) <==>
            h.api == Some(api) && h.customGuard == guard
  {
    InternalKeysDiffer();
    AuthorLabelHasSource(h, GUARD_TARGET);
    PollLabelsKeepOthers(h.bindings, WithGuardLabel(h, AuthorLabels(h)), GUARD_TARGET);
    var target := AuthorizerSelector(api, guard);
    assert GUARD_TARGET in target && forall key :: key in target ==> key == GUARD_TARGET;
    if ImplementsGuard(h) {
      var a, g := h.api.value, h.customGuard;
      assert TargetValue(a, g) == a + [':'] + (":" + g) && TargetValue(api, guard) == api + [':'] + (":" + guard);
      if TargetValue(a, g) == TargetValue(api, guard) {
        FirstSplitUnique(a, ":" + g, api, ":" + guard, ':');
        PrefixCancel(":", g, guard);
      }
    }
  }

  // The labels the transformer adds itself: the API a routed handler serves and by which
  // protocol, the guard it implements, and one for each topic consumer it polls for.
  lemma ReservedLabels(h: ResolvedHandler, key: string, value: string)
    requires key == "celerity.internal.api.target" || key == "celerity.internal.api.guard.target"
    requires !(key in AuthorLabels(h))
    ensures key in EmittedLabels(h) && EmittedLabels(h)[key] == value <==>
            h.api.Some? &&
            ((key == "celerity.internal.api.target" && h.eventSource == Http && value == h.api.value + "::http") ||
             (key == "celerity.internal.api.target" && h.eventSource == WebSocket && value == h.api.value + "::websocket") ||
             (key == "celerity.internal.api.guard.target" && h.customGuard != "" && value == h.api.value + "::" + h.customGuard))
  {
    InternalKeysDiffer();
    PollLabelsKeepOthers(h.bindings, WithGuardLabel(h, AuthorLabels(h)), key);
    assert "::http" == "::" + "http" && "::websocket" == "::" + "websocket";
  }

  lemma {:induction false} PolledConsumersLabelled(bindings: seq<ConsumerBinding>, labels: LabelMap, b: ConsumerBinding)
    requires b in bindings && b.kind == TopicSource
    ensures var key := "celerity.consumer.topicPoll." + b.consumer.name;
            key in WithPollLabels(bindings, labels) && WithPollLabels(bindings, labels)[key] == "true"
  {
    var n := |bindings| - 1;
    if bindings[n] != b {
      assert b in bindings[..n];
      PolledConsumersLabelled(bindings[..n], labels, b);
    }
  }
}
