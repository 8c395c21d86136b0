// The metadata of the function being emitted, filled in step by step.
module FunctionMetadata {
  import opened Blueprint
  import opened Absorption
  import opened Triggers
  import opened Sequences

  class Metadata {
    var labels: LabelMap
    var annotations: Annotations

    constructor ()
      ensures labels == map[] && annotations == map[]
    {
      labels, annotations := map[], map[];
    }

    method SetLabel(key: string, value: string)
      modifies this`labels
      ensures labels == old(labels)[key := value]
    {
      labels := labels[key := value];
    }

    method ApplyLambdaLabels(h: ResolvedHandler) returns (conflicts: seq<Conflict>)
      modifies this`labels
      ensures labels == WithGuardLabel(h, AuthorLabels(h))
      ensures forall c :: c in conflicts <==> Drops(h.consumers, c)
    {
      var union;
      union, conflicts := ConsumerLabelUnion(h.consumers);
      labels := union + h.labels;
      labels := labels + h.inheritedLabels;
      if ImplementsGuard(h) {
        SetLabel(GUARD_TARGET, TargetValue(h.api.value, h.customGuard));
      }
    }

    method StampPolledSettings(f: Family, c: Consumer)
      modifies this`annotations
      ensures annotations == StampPolled(old(annotations), f, c)
    {
      if c.batchSize.Some? {
        annotations := annotations[BatchSize(f) := Itoa(c.batchSize.value)];
      }
      if c.partialFailures {
        annotations := annotations[ReportFailures(f) := "true"];
      }
    }

    method StampBucketBinding(b: ConsumerBinding, base: nat) returns (stamped: nat, unsupported: seq<string>)
      requires b.kind == BucketSource
      modifies this`annotations
      ensures annotations == StampEvents(old(annotations), BindingEvents(b), base)
      ensures stamped == |BindingEvents(b)|
      ensures unsupported == UnmappedEvents(b.consumer.bucketEvents)
    {
      var events;
      events, unsupported := BucketEvents(b.consumer.bucketEvents);
      assert events[..0] == [];
      for offset := 0 to |events|
        invariant annotations == StampEvents(old(annotations), events[..offset], base)
      {
        assert events[..offset + 1][..offset] == events[..offset];
        annotations := annotations[BucketEvent(base + offset) := events[offset]];
      }
      assert events[..|events|] == events;
      stamped := |events|;
    }

    method StampConsumerBinding(b: ConsumerBinding, base: nat) returns (stamped: nat, unsupported: seq<string>)
      modifies this
      ensures annotations == StampBinding(old(annotations), b, base)
      ensures labels == WithPollLabels([b], old(labels))
      ensures stamped == |BindingEvents(b)| && unsupported == BindingUnmapped(b)
    {
      stamped, unsupported := 0, [];
      match b.kind {
        case QueueSource =>
          StampPolledSettings(SqsFamily, b.consumer);
        case DatastoreSource =>
          annotations := annotations[StreamStart := StartingPosition(b.consumer)];
          StampPolledSettings(StreamFamily, b.consumer);
        case BucketSource =>
          stamped, unsupported := StampBucketBinding(b, base);
        case TopicSource =>
          StampPolledSettings(SqsFamily, b.consumer);
          SetLabel(PollKey(b.consumer.name), "true");
        case ExternalSource =>
        case UnknownSource =>
      }
    }

    method StampTriggerAnnotations(h: ResolvedHandler) returns (warnings: TriggerWarnings, unsupported: seq<string>)
      modifies this
      ensures annotations == StampAll(WithPlacement(old(annotations), h), h.bindings)
      ensures labels == WithPollLabels(h.bindings, old(labels))
      ensures warnings.sqs <==> SettingsConflict(h.bindings, SqsFamily)
      ensures warnings.streams <==> SettingsConflict(h.bindings, StreamFamily)
      ensures warnings.buckets <==> BucketsDiverge(h.bindings)
      ensures unsupported == FlatMap(h.bindings, BindingUnmapped)
    {
      StampPlacement(h);
      unsupported := StampBindings(h.bindings);
      warnings := PerFunctionTriggerConflicts(h.bindings);
    }

    method StampPlacement(h: ResolvedHandler)
      modifies this`annotations
      ensures annotations == WithPlacement(old(annotations), h)
    {
      if h.vpc.Some? {
        annotations := annotations[SubnetTier := h.vpcSubnetType];
        if h.vpcEgress != "" {
          annotations := annotations[Egress := h.vpcEgress];
        }
      }
    }

    // The S3 index runs across all bindings.
    method StampBindings(bindings: seq<ConsumerBinding>) returns (unsupported: seq<string>)
      modifies this
      ensures annotations == StampAll(old(annotations), bindings)
      ensures labels == WithPollLabels(bindings, old(labels))
      ensures unsupported == FlatMap(bindings, BindingUnmapped)
    {
      var base := 0;
      unsupported := [];
      for i := 0 to |bindings|
        invariant annotations == StampAll(old(annotations), bindings[..i])
        invariant labels == WithPollLabels(bindings[..i], old(labels))
        invariant base == |AllEvents(bindings[..i])|
        invariant unsupported == FlatMap(bindings[..i], BindingUnmapped)
      {
        NextBinding(old(annotations), bindings, i);
        NextPollLabels(old(labels), bindings, i);
        var stamped, unmapped := StampConsumerBinding(bindings[i], base);
        base := base + stamped;
        unsupported := unsupported + unmapped;
      }
      assert bindings[..|bindings|] == bindings;
    }

    method StampApiTarget(h: ResolvedHandler)
      modifies this`labels
      ensures labels == WithApiLabel(h, old(labels))
    {
      if h.eventSource != Http && h.eventSource != WebSocket {
        return;
      }
      if h.api.None? {
        return;
      }
      SetLabel(API_TARGET, TargetValue(h.api.value, EventSourceName(h.eventSource)));
    }
  }

  // The S3 names of a bucket consumer's events, and the events that have none.
  method BucketEvents(names: seq<string>) returns (events: seq<string>, unsupported: seq<string>)
    ensures events == MappedEvents(names) && unsupported == UnmappedEvents(names)
  {
    events, unsupported := [], [];
    for i := 0 to |names|
      invariant events == MappedEvents(names[..i])
      invariant unsupported == UnmappedEvents(names[..i])
    {
      NextEvent(names, i);
      var event := S3Event(names[i]);
      if event.Some? {
        events := events + [event.value];
      } else {
        unsupported := unsupported + [names[i]];
      }
    }
    assert names[..|names|] == names;
  }

  // The emitter's order: labels, then triggers, then the API route.
  method EmitFunctionMetadata(h: ResolvedHandler) returns (m: Metadata, conflicts: seq<Conflict>, w: TriggerWarnings, unsupported: seq<string>)
    ensures fresh(m)
    ensures m.labels == EmittedLabels(h)
    ensures m.annotations == StampAll(WithPlacement(map[], h), h.bindings)
    ensures forall c :: c in conflicts <==> Drops(h.consumers, c)
    ensures w.sqs <==> SettingsConflict(h.bindings, SqsFamily)
    ensures w.streams <==> SettingsConflict(h.bindings, StreamFamily)
    ensures w.buckets <==> BucketsDiverge(h.bindings)
    ensures unsupported == FlatMap(h.bindings, BindingUnmapped)
  {
    m := new Metadata();
    conflicts := m.ApplyLambdaLabels(h);
    w, unsupported := m.StampTriggerAnnotations(h);
    m.StampApiTarget(h);
  }
}
