// The event-source annotations a function gets from the consumers it absorbs. SQS and
// DynamoDB settings are one value per function; S3 events form one indexed list.
module Triggers {
  import opened Blueprint
  import opened Text
  import opened Ordering
  import opened Sequences

  // The event sources that share one set of per-function settings.
  datatype Family = SqsFamily | StreamFamily | BucketFamily | NoFamily

  datatype AnnotationKey =
    | BatchSize(family: Family)
    | ReportFailures(family: Family)
    | StreamStart
    | BucketEvent(index: nat)
    | SubnetTier
    | Egress

  // The trigger annotations of a function, keyed by what they set. KeyTextInjective shows
  // that the annotation texts keep the keys apart.
  type Annotations = map<AnnotationKey, string>

  function KeyText(key: AnnotationKey): string {
    match key
    case BatchSize(f) => if f == SqsFamily then "aws.sqs.lambda.batchSize" else "aws.dynamodb.lambda.stream.batchSize"
    case ReportFailures(f) =>
      if f == SqsFamily then "aws.sqs.lambda.reportBatchItemFailures"
      else "aws.dynamodb.lambda.stream.reportBatchItemFailures"
    case StreamStart => "aws.dynamodb.lambda.stream.startingPosition"
    case BucketEvent(i) => "aws.s3.lambda.event." + Decimal(i)
    case SubnetTier => "aws.flexvpc.lambda.subnetType"
    case Egress => "aws.flexvpc.lambda.egress"
  }

  function FamilyOf(b: ConsumerBinding): Family {
    match b.kind
    case QueueSource => SqsFamily
    case TopicSource => SqsFamily
    case DatastoreSource => StreamFamily
    case BucketSource => BucketFamily
    case ExternalSource => NoFamily
    case UnknownSource => NoFamily
  }

  predicate Polled(f: Family) {
    f == SqsFamily || f == StreamFamily
  }

  predicate Stampable(key: AnnotationKey) {
    match key
    case BatchSize(f) => Polled(f)
    case ReportFailures(f) => Polled(f)
    case StreamStart => true
    case BucketEvent(_) => true
    case SubnetTier => true
    case Egress => true
  }

  lemma KeyTextInjective(k: AnnotationKey, m: AnnotationKey)
    requires Stampable(k) && Stampable(m)
    ensures KeyText(k) == KeyText(m) <==> k == m
  {
    if KeyText(k) == KeyText(m) && k != m {
      if k.BucketEvent? && m.BucketEvent? {
        PrefixCancel("aws.s3.lambda.event.", Decimal(k.index), Decimal(m.index));
        DecimalInjective(k.index, m.index);
      } else {
        KeyTextShape(k);
        KeyTextShape(m);
      }
    }
  }

  // The annotations the provider's links read, and the index that follows the last of them.
  lemma KeyTexts(index: nat)
    ensures KeyText(BatchSize(SqsFamily)) == "aws.sqs.lambda.batchSize"
    ensures KeyText(ReportFailures(SqsFamily)) == "aws.sqs.lambda.reportBatchItemFailures"
    ensures KeyText(BatchSize(StreamFamily)) == "aws.dynamodb.lambda.stream.batchSize"
    ensures KeyText(ReportFailures(StreamFamily)) == "aws.dynamodb.lambda.stream.reportBatchItemFailures"
    ensures KeyText(StreamStart) == "aws.dynamodb.lambda.stream.startingPosition"
    ensures KeyText(BucketEvent(index)) == "aws.s3.lambda.event." + Decimal(index)
    ensures KeyText(SubnetTier) == "aws.flexvpc.lambda.subnetType"
    ensures KeyText(Egress) == "aws.flexvpc.lambda.egress"
  {
  }

  // The service segment and the setting's first letter tell the keys apart.
  lemma KeyTextShape(key: AnnotationKey)
    requires Stampable(key)
    ensures |KeyText(key)| > 20
    ensures match key {
              case BatchSize(f) => if f == SqsFamily then KeyText(key)[5] == 'q' && KeyText(key)[15] == 'b'
                else |KeyText(key)| > 27 && KeyText(key)[5] == 'y' && KeyText(key)[27] == 'b'
              case ReportFailures(f) => if f == SqsFamily then KeyText(key)[5] == 'q' && KeyText(key)[15] == 'r'
                else |KeyText(key)| > 27 && KeyText(key)[5] == 'y' && KeyText(key)[27] == 'r'
              case StreamStart => |KeyText(key)| > 27 && KeyText(key)[5] == 'y' && KeyText(key)[27] == 's'
              case BucketEvent(_) => KeyText(key)[5] == '3'
              case SubnetTier => KeyText(key)[5] == 'l' && KeyText(key)[19] == 's'
              case Egress => KeyText(key)[5] == 'l' && KeyText(key)[19] == 'e'
            }
  {
  }

  function Itoa(n: int): string {
    if n < 0 then "-" + Decimal(-n) else Decimal(n)
  }

  lemma ItoaInjective(m: int, n: int)
    ensures Itoa(m) == Itoa(n) <==> m == n
  {
    DecimalInjective(if m < 0 then -m else m, if n < 0 then -n else n);
    if m < 0 {
      PrefixCancel("-", Decimal(-m), if n < 0 then Decimal(-n) else "");
    }
    assert Itoa(m)[0] == '-' <==> m < 0;
    assert Itoa(n)[0] == '-' <==> n < 0;
  }

  predicate Digits(s: string) {
    forall i :: 0 <= i < |s| ==> s[i] in DIGITS
  }

  // The text spells the integer in decimal.
  predicate Spells(s: string, n: int) {
    if n < 0 then s != "" && s[0] == '-' && Digits(s[1..]) && DecimalValue(s[1..]) == -n
    else s != "" && Digits(s) && DecimalValue(s) == n
  }

  lemma ItoaSpells(n: int)
    ensures Spells(Itoa(n), n)
  {
    DecimalRoundTrip(if n < 0 then -n else n);
    if n < 0 {
      assert Itoa(n)[1..] == Decimal(-n);
    }
  }

  lemma SpellsOne(s: string, m: int, n: int)
    requires Spells(s, m) && Spells(s, n)
    ensures m == n
  {
    assert '-' !in DIGITS;
  }

  function StartingPosition(c: Consumer): string {
    if c.startFromBeginning then "TRIM_HORIZON" else "LATEST"
  }

  function S3Event(name: string): Option<string> {
    if name == "created" then Some("s3:ObjectCreated:*")
    else if name == "deleted" then Some("s3:ObjectRemoved:*")
    else None
  }

  // The events with an S3 equivalent; the others are reported and skipped.
  function MappedEvents(names: seq<string>): (events: seq<string>)
    ensures SeparatorFree(events, ',')
  {
    if names == [] then []
    else
      var rest := MappedEvents(names[..|names| - 1]);
      var event := S3Event(names[|names| - 1]);
      if event.None? then rest else rest + [event.value]
  }

  function UnmappedEvents(names: seq<string>): seq<string> {
    if names == [] then []
    else
      var rest, name := UnmappedEvents(names[..|names| - 1]), names[|names| - 1];
      if S3Event(name).None? then rest + [name] else rest
  }

  lemma NextEvent(names: seq<string>, i: nat)
    requires i < |names|
    ensures MappedEvents(names[..i + 1]) ==
            MappedEvents(names[..i]) + if S3Event(names[i]).None? then [] else [S3Event(names[i]).value]
    ensures UnmappedEvents(names[..i + 1]) == UnmappedEvents(names[..i]) + if S3Event(names[i]).None? then [names[i]] else []
  {
    assert names[..i + 1][..i] == names[..i];
  }

  // The S3 notification an event of a bucket consumer stands for.
  predicate Notifies(name: string, event: string) {
    (name == "created" && event == "s3:ObjectCreated:*") || (name == "deleted" && event == "s3:ObjectRemoved:*")
  }

  lemma EventNotifies(name: string, event: string)
    ensures S3Event(name) == Some(event) <==> Notifies(name, event)
    ensures S3Event(name).Some? <==> Mappable(name)
  {
    assert "created"[0] != "deleted"[0];
  }

  // The events are those of the names that have one, in the order of the names: at gives the
  // place of each.
  ghost predicate EventsInOrder(names: seq<string>, events: seq<string>, at: seq<nat>) {
    && |at| == |events|
    && (forall i :: 0 <= i < |at| ==> at[i] < |names| && Notifies(names[at[i]], events[i]))
    && (forall i, j :: 0 <= i < j < |at| ==> at[i] < at[j])
    && (forall k :: 0 <= k < |names| && Mappable(names[k]) ==> k in at)
  }

  predicate Mappable(name: string) {
    name == "created" || name == "deleted"
  }

  lemma OneMoreName(names: seq<string>, n: nat, events: seq<string>, at: seq<nat>, event: Option<string>)
    requires |names| == n + 1 && EventsInOrder(names[..n], events, at)
    requires if event.Some? then Notifies(names[n], event.value) else !Mappable(names[n])
    ensures EventsInOrder(names, WithEvent(events, event), if event.Some? then at + [n] else at)
  {
    if event.Some? {
      OneMoreEvent(names, n, events, at, event.value);
    } else {
      PlacesIn(names, n, at);
    }
  }

  lemma PlacesIn(names: seq<string>, n: nat, at: seq<nat>)
    requires n <= |names| && forall k :: 0 <= k < n && Mappable(names[..n][k]) ==> k in at
    ensures forall k :: 0 <= k < n && Mappable(names[k]) ==> k in at
  {
    forall k | 0 <= k < n && Mappable(names[k]) ensures k in at {
      assert names[..n][k] == names[k];
    }
  }

  lemma OneMoreEvent(names: seq<string>, n: nat, events: seq<string>, at: seq<nat>, event: string)
    requires |names| == n + 1 && EventsInOrder(names[..n], events, at) && Notifies(names[n], event)
    ensures EventsInOrder(names, events + [event], at + [n])
  {
    PlacesIn(names, n, at);
    assert forall i :: 0 <= i < |at| ==> names[at[i]] == names[..n][at[i]];
  }

  lemma {:induction false} MappedInOrder(names: seq<string>) returns (at: seq<nat>)
    ensures EventsInOrder(names, MappedEvents(names), at)
  {
    at := [];
    if names != [] {
      var n := |names| - 1;
      var before := MappedInOrder(names[..n]);
      var event := S3Event(names[n]);
      EventNotifies(names[n], if event.Some? then event.value else "");
      OneMoreName(names, n, MappedEvents(names[..n]), before, event);
      LastEvent(names);
      at := if event.None? then before else before + [n];
    }
  }

  lemma {:induction false} EventCount(names: seq<string>, name: string, event: string)
    requires forall n :: S3Event(n) == Some(event) <==> n == name
    ensures multiset(MappedEvents(names))[event] == multiset(names)[name]
  {
    if names != [] {
      var n := |names| - 1;
      EventCount(names[..n], name, event);
      LastEvent(names);
      CountOneMore(MappedEvents(names[..n]), S3Event(names[n]), event);
      LastName(names, name);
    }
  }

  lemma LastName(names: seq<string>, name: string)
    requires names != []
    ensures var n := |names| - 1; multiset(names)[name] == multiset(names[..n])[name] + if names[n] == name then 1 else 0
  {
    assert names == names[..|names| - 1] + [names[|names| - 1]];
  }

  function WithEvent(events: seq<string>, event: Option<string>): seq<string> {
    if event.Some? then events + [event.value] else events
  }

  lemma LastEvent(names: seq<string>)
    requires names != []
    ensures var n := |names| - 1; MappedEvents(names) == WithEvent(MappedEvents(names[..n]), S3Event(names[n]))
  {
  }

  lemma CountOneMore(events: seq<string>, event: Option<string>, e: string)
    ensures multiset(WithEvent(events, event))[e] == multiset(events)[e] + if event == Some(e) then 1 else 0
  {
  }

  lemma {:induction false} NoSuchEvent(names: seq<string>, event: string)
    requires forall n :: S3Event(n) != Some(event)
    ensures multiset(MappedEvents(names))[event] == 0
  {
    if names != [] {
      NoSuchEvent(names[..|names| - 1], event);
      LastEvent(names);
      CountOneMore(MappedEvents(names[..|names| - 1]), S3Event(names[|names| - 1]), event);
    }
  }

  // The events stamped for a bucket consumer: an object-created notification for each
  // "created" it lists, an object-removed one for each "deleted", and nothing else.
  lemma MappedExact(names: seq<string>, event: string)
    ensures multiset(MappedEvents(names))[event] ==
            if event == "s3:ObjectCreated:*" then multiset(names)["created"]
            else if event == "s3:ObjectRemoved:*" then multiset(names)["deleted"]
            else 0
  {
    forall n ensures S3Event(n) == Some(event) <==> Notifies(n, event) { EventNotifies(n, event); }
    if event == "s3:ObjectCreated:*" {
      assert event != "s3:ObjectRemoved:*" by { assert event[9] == 'C'; }
      EventCount(names, "created", event);
    } else if event == "s3:ObjectRemoved:*" {
      EventCount(names, "deleted", event);
    } else {
      NoSuchEvent(names, event);
    }
  }

  // An event is reported as often as it was listed, exactly when it is neither.
  lemma {:induction false} UnmappedExact(names: seq<string>, name: string)
    ensures multiset(UnmappedEvents(names))[name] == if name == "created" || name == "deleted" then 0 else multiset(names)[name]
  {
    if names != [] {
      var n := |names| - 1;
      UnmappedExact(names[..n], name);
      EventNotifies(names[n], "");
      assert names == names[..n] + [names[n]];
    }
  }

  predicate StampedFrom(r: Annotations, events: seq<string>, base: nat) {
    forall i :: 0 <= i < |events| ==> Lookup(r, BucketEvent(base + i)) == Some(events[i])
  }

  // What a function's annotations hold for one of its bucket consumers: its notifications in
  // its order, at the indices after those of the consumers before it.
  lemma ConsumerEventsStamped(a: Annotations, bindings: seq<ConsumerBinding>, j: nat) returns (events: seq<string>, at: seq<nat>)
    requires j < |bindings| && bindings[j].kind == BucketSource
    ensures EventsInOrder(bindings[j].consumer.bucketEvents, events, at)
    ensures StampedFrom(StampAll(a, bindings), events, |AllEvents(bindings[..j])|)
  {
    events := BindingEvents(bindings[j]);
    at := MappedInOrder(bindings[j].consumer.bucketEvents);
    BindingEventsAt(a, bindings, j);
  }

  lemma BindingEventsAt(a: Annotations, bindings: seq<ConsumerBinding>, j: nat)
    requires j < |bindings|
    ensures StampedFrom(StampAll(a, bindings), BindingEvents(bindings[j]), |AllEvents(bindings[..j])|)
  {
    var base, events, all := |AllEvents(bindings[..j])|, BindingEvents(bindings[j]), AllEvents(bindings);
    EventsOfOne(bindings, j);
    forall i | 0 <= i < |events| ensures Lookup(StampAll(a, bindings), BucketEvent(base + i)) == Some(events[i]) {
      EventIndicesContiguous(a, bindings, base + i);
      assert all[base + i] == events[i];
    }
  }

  lemma EventsOfOne(bindings: seq<ConsumerBinding>, j: nat)
    requires j < |bindings|
    ensures var base, events, all := |AllEvents(bindings[..j])|, BindingEvents(bindings[j]), AllEvents(bindings);
            base + |events| <= |all| && forall i :: 0 <= i < |events| ==> all[base + i] == events[i]
  {
    AroundIndex(bindings, j);
    FlatMapBetween(bindings[..j], bindings[j], bindings[j + 1..], BindingEvents);
  }

  function BindingUnmapped(b: ConsumerBinding): seq<string> {
    if b.kind == BucketSource then UnmappedEvents(b.consumer.bucketEvents) else []
  }

  // How often the bucket consumers list an event.
  function TimesListed(bindings: seq<ConsumerBinding>, name: string): nat {
    if bindings == [] then 0
    else
      var b := bindings[|bindings| - 1];
      TimesListed(bindings[..|bindings| - 1], name) + if b.kind == BucketSource then multiset(b.consumer.bucketEvents)[name] else 0
  }

  // A function's events that S3 has no name for are all reported, and only those.
  lemma {:induction false} UnsupportedExact(bindings: seq<ConsumerBinding>, name: string)
    ensures multiset(FlatMap(bindings, BindingUnmapped))[name] ==
            if name == "created" || name == "deleted" then 0 else TimesListed(bindings, name)
  {
    if bindings != [] {
      var n := |bindings| - 1;
      UnsupportedExact(bindings[..n], name);
      UnmappedExact(bindings[n].consumer.bucketEvents, name);
    }
  }

  function BindingEvents(b: ConsumerBinding): seq<string> {
    if b.kind == BucketSource then MappedEvents(b.consumer.bucketEvents) else []
  }

  function AllEvents(bindings: seq<ConsumerBinding>): seq<string> {
    FlatMap(bindings, BindingEvents)
  }

  function Lookup(a: Annotations, key: AnnotationKey): Option<string> {
    if key in a then Some(a[key]) else None
  }

  function StampEvents(a: Annotations, events: seq<string>, base: nat): Annotations {
    if events == [] then a
    else
      var n := |events| - 1;
      StampEvents(a, events[..n], base)[BucketEvent(base + n) := events[n]]
  }

  function StampPolled(a: Annotations, f: Family, c: Consumer): Annotations {
    var batched := if c.batchSize.Some? then a[BatchSize(f) := Itoa(c.batchSize.value)] else a;
    if c.partialFailures then batched[ReportFailures(f) := "true"] else batched
  }

  function StampBinding(a: Annotations, b: ConsumerBinding, base: nat): Annotations {
    match FamilyOf(b)
    case SqsFamily => StampPolled(a, SqsFamily, b.consumer)
    case StreamFamily => StampPolled(a[StreamStart := StartingPosition(b.consumer)], StreamFamily, b.consumer)
    case BucketFamily => StampEvents(a, BindingEvents(b), base)
    case NoFamily => a
  }

  function StampAll(a: Annotations, bindings: seq<ConsumerBinding>): Annotations {
    if bindings == [] then a
    else
      var n := |bindings| - 1;
      StampBinding(StampAll(a, bindings[..n]), bindings[n], |AllEvents(bindings[..n])|)
  }

  lemma NextBinding(a: Annotations, bindings: seq<ConsumerBinding>, i: nat)
    requires i < |bindings|
    ensures StampAll(a, bindings[..i + 1]) == StampBinding(StampAll(a, bindings[..i]), bindings[i], |AllEvents(bindings[..i])|)
    ensures AllEvents(bindings[..i + 1]) == AllEvents(bindings[..i]) + BindingEvents(bindings[i])
    ensures FlatMap(bindings[..i + 1], BindingUnmapped) == FlatMap(bindings[..i], BindingUnmapped) + BindingUnmapped(bindings[i])
  {
    assert bindings[..i + 1][..i] == bindings[..i];
  }

  // An egress the author left unset is absent rather than empty.
  function WithPlacement(a: Annotations, h: ResolvedHandler): Annotations {
    if h.vpc.None? then a
    else
      var placed := a[SubnetTier := h.vpcSubnetType];
      if h.vpcEgress == "" then placed else placed[Egress := h.vpcEgress]
  }

  // ---- S3 events ----

  // After stamping, the event at an index is the stamped one inside the range and the old
  // one outside it.
  predicate EventsAt(r: Annotations, a: Annotations, events: seq<string>, base: nat, i: nat) {
    Lookup(r, BucketEvent(i)) == if base <= i < base + |events| then Some(events[i - base]) else Lookup(a, BucketEvent(i))
  }

  lemma {:induction false} StampedEvents(a: Annotations, events: seq<string>, base: nat, i: nat)
    ensures EventsAt(StampEvents(a, events, base), a, events, base, i)
  {
    if events != [] {
      StampedEvents(a, events[..|events| - 1], base, i);
    }
  }

  lemma {:induction false} StampedEventsKeepSettings(a: Annotations, events: seq<string>, base: nat, key: AnnotationKey)
    requires !key.BucketEvent?
    ensures Lookup(StampEvents(a, events, base), key) == Lookup(a, key)
  {
    if events != [] {
      StampedEventsKeepSettings(a, events[..|events| - 1], base, key);
    }
  }

  lemma BindingEventsStamped(a: Annotations, b: ConsumerBinding, base: nat, i: nat)
    ensures EventsAt(StampBinding(a, b, base), a, BindingEvents(b), base, i)
  {
    StampedEvents(a, BindingEvents(b), base, i);
  }

  // The indices are contiguous from zero and spell the bindings' events in order, so no
  // binding overwrites another's.
  lemma {:induction false} EventIndicesContiguous(a: Annotations, bindings: seq<ConsumerBinding>, i: nat)
    ensures EventsAt(StampAll(a, bindings), a, AllEvents(bindings), 0, i)
  {
    if bindings != [] {
      var n := |bindings| - 1;
      EventIndicesContiguous(a, bindings[..n], i);
      BindingEventsStamped(StampAll(a, bindings[..n]), bindings[n], |AllEvents(bindings[..n])|, i);
    }
  }

  // ---- Per-function settings ----

  // The last binding of the family that sets a batch size decides it.
  function LastBatch(bindings: seq<ConsumerBinding>, f: Family): Option<int> {
    if bindings == [] then None
    else
      var last := bindings[|bindings| - 1];
      if FamilyOf(last) == f && last.consumer.batchSize.Some? then last.consumer.batchSize
      else LastBatch(bindings[..|bindings| - 1], f)
  }

  function LastStart(bindings: seq<ConsumerBinding>): Option<string> {
    if bindings == [] then None
    else
      var last := bindings[|bindings| - 1];
      if FamilyOf(last) == StreamFamily then Some(StartingPosition(last.consumer))
      else LastStart(bindings[..|bindings| - 1])
  }

  predicate AnyPartial(bindings: seq<ConsumerBinding>, f: Family) {
    exists b :: b in bindings && FamilyOf(b) == f && b.consumer.partialFailures
  }

  predicate Unstamped(a: Annotations) {
    forall key :: key in a ==> key.SubnetTier? || key.Egress?
  }

  predicate SettingsAre(r: Annotations, f: Family, batch: Option<int>, partial: bool, start: Option<string>) {
    && Lookup(r, BatchSize(f)) == (if batch.None? then None else Some(Itoa(batch.value)))
    && Lookup(r, ReportFailures(f)) == (if partial then Some("true") else None)
    && Lookup(r, StreamStart) == start
  }

  lemma BindingSettingsStamped(a: Annotations, b: ConsumerBinding, base: nat, f: Family, batch: Option<int>,
                               partial: bool, start: Option<string>)
    requires Polled(f) && SettingsAre(a, f, batch, partial, start)
    ensures SettingsAre(StampBinding(a, b, base), f,
                        if FamilyOf(b) == f && b.consumer.batchSize.Some? then b.consumer.batchSize else batch,
                        partial || (FamilyOf(b) == f && b.consumer.partialFailures),
                        if FamilyOf(b) == StreamFamily then Some(StartingPosition(b.consumer)) else start)
  {
    StampedEventsKeepSettings(a, BindingEvents(b), base, BatchSize(f));
    StampedEventsKeepSettings(a, BindingEvents(b), base, ReportFailures(f));
    StampedEventsKeepSettings(a, BindingEvents(b), base, StreamStart);
  }

  lemma LastBindingSettings(bindings: seq<ConsumerBinding>, f: Family)
    requires bindings != []
    ensures var n := |bindings| - 1;
            AnyPartial(bindings, f) <==>
            AnyPartial(bindings[..n], f) || (FamilyOf(bindings[n]) == f && bindings[n].consumer.partialFailures)
  {
    assert bindings == bindings[..|bindings| - 1] + [bindings[|bindings| - 1]];
  }

  lemma {:induction false} StampedSettings(a: Annotations, bindings: seq<ConsumerBinding>, f: Family)
    requires Unstamped(a) && Polled(f)
    ensures SettingsAre(StampAll(a, bindings), f, LastBatch(bindings, f), AnyPartial(bindings, f), LastStart(bindings))
  {
    if bindings != [] {
      var n := |bindings| - 1;
      StampedSettings(a, bindings[..n], f);
      BindingSettingsStamped(StampAll(a, bindings[..n]), bindings[n], |AllEvents(bindings[..n])|, f,
                             LastBatch(bindings[..n], f), AnyPartial(bindings[..n], f), LastStart(bindings[..n]));
      LastBindingSettings(bindings, f);
    }
  }

  // Two consumers of a family ask for settings one function cannot both have.
  predicate SettingsClash(f: Family, c: Consumer, d: Consumer) {
    || (c.batchSize.Some? && d.batchSize.Some? && c.batchSize != d.batchSize)
    || c.partialFailures != d.partialFailures
    || (f == StreamFamily && c.startFromBeginning != d.startFromBeginning)
  }

  predicate SettingsConflict(bindings: seq<ConsumerBinding>, f: Family) {
    exists b, d :: b in bindings && d in bindings && FamilyOf(b) == f && FamilyOf(d) == f
      && SettingsClash(f, b.consumer, d.consumer)
  }

  // The function does what a consumer of the family asked for.
  // The function's settings are the ones the consumer declares.
  predicate Honoured(r: Annotations, f: Family, c: Consumer) {
    && (c.batchSize.Some? ==> Lookup(r, BatchSize(f)).Some? && Spells(Lookup(r, BatchSize(f)).value, c.batchSize.value))
    && (Lookup(r, ReportFailures(f)) == if c.partialFailures then Some("true") else None)
    && (f == StreamFamily ==> Lookup(r, StreamStart) == Some(if c.startFromBeginning then "TRIM_HORIZON" else "LATEST"))
  }

  // Queues and topic queues are polled with the SQS settings, datastore streams with the
  // stream settings.
  predicate PolledWith(b: ConsumerBinding, f: Family) {
    (f == SqsFamily && (b.kind == QueueSource || b.kind == TopicSource)) || (f == StreamFamily && b.kind == DatastoreSource)
  }

  lemma PolledWithFamily(f: Family)
    requires Polled(f)
    ensures forall b :: PolledWith(b, f) <==> FamilyOf(b) == f
  {
  }

  lemma {:induction false} LastBatchIsSomeMembers(bindings: seq<ConsumerBinding>, f: Family)
    ensures LastBatch(bindings, f).Some? ==>
              exists b :: b in bindings && FamilyOf(b) == f && b.consumer.batchSize == LastBatch(bindings, f)
    ensures LastBatch(bindings, f).None? ==>
              forall b :: b in bindings && FamilyOf(b) == f ==> b.consumer.batchSize.None?
    ensures LastStart(bindings).Some? ==>
              exists b :: b in bindings && FamilyOf(b) == StreamFamily && Some(StartingPosition(b.consumer)) == LastStart(bindings)
    ensures LastStart(bindings).None? ==> forall b :: b in bindings ==> FamilyOf(b) != StreamFamily
  {
    if bindings != [] {
      var n := |bindings| - 1;
      LastBatchIsSomeMembers(bindings[..n], f);
      assert bindings == bindings[..n] + [bindings[n]];
      assert bindings[n] in bindings;
    }
  }

  // Every consumer of a family gets the settings it declared exactly when no conflict is
  // reported for the family.
  lemma SettingsHonouredIffUnwarned(a: Annotations, bindings: seq<ConsumerBinding>, f: Family)
    requires Unstamped(a) && Polled(f)
    ensures (forall b :: b in bindings && PolledWith(b, f) ==> Honoured(StampAll(a, bindings), f, b.consumer)) <==>
            !SettingsConflict(bindings, f)
    ensures SettingsConflict(bindings, f) <==>
            exists b, d :: b in bindings && d in bindings && PolledWith(b, f) && PolledWith(d, f) && SettingsClash(f, b.consumer, d.consumer)
  {
    StampedSettings(a, bindings, f);
    LastBatchIsSomeMembers(bindings, f);
    PolledWithFamily(f);
    var r := StampAll(a, bindings);
    if forall b :: b in bindings && FamilyOf(b) == f ==> Honoured(r, f, b.consumer) {
      forall b, d | b in bindings && d in bindings && FamilyOf(b) == f && FamilyOf(d) == f
        ensures !SettingsClash(f, b.consumer, d.consumer)
      {
        assert Honoured(r, f, b.consumer) && Honoured(r, f, d.consumer);
        BothHonoured(r, f, b.consumer, d.consumer);
      }
    }
    if !SettingsConflict(bindings, f) {
      forall b | b in bindings && FamilyOf(b) == f ensures Honoured(r, f, b.consumer) {
        assert forall d :: d in bindings && FamilyOf(d) == f ==> !SettingsClash(f, b.consumer, d.consumer);
        if b.consumer.batchSize.Some? {
          ItoaSpells(b.consumer.batchSize.value);
        }
      }
    }
  }

  lemma BothHonoured(r: Annotations, f: Family, c: Consumer, d: Consumer)
    requires Honoured(r, f, c) && Honoured(r, f, d)
    ensures !SettingsClash(f, c, d)
  {
    if c.batchSize.Some? && d.batchSize.Some? {
      SpellsOne(Lookup(r, BatchSize(f)).value, c.batchSize.value, d.batchSize.value);
    }
    assert "TRIM_HORIZON"[0] != "LATEST"[0];
  }

  // Without a conflict the order of the bindings does not show in the family's settings.
  lemma SettingsOrderIndependent(a: Annotations, bindings: seq<ConsumerBinding>, other: seq<ConsumerBinding>, f: Family)
    requires Unstamped(a) && Polled(f)
    requires multiset(bindings) == multiset(other) && !SettingsConflict(bindings, f)
    ensures var r, r' := StampAll(a, bindings), StampAll(a, other);
            && Lookup(r, BatchSize(f)) == Lookup(r', BatchSize(f))
            && Lookup(r, ReportFailures(f)) == Lookup(r', ReportFailures(f))
            && (f == StreamFamily ==> Lookup(r, StreamStart) == Lookup(r', StreamStart))
  {
    SameMembers(bindings, other);
    StampedSettings(a, bindings, f);
    StampedSettings(a, other, f);
    LastBatchIsSomeMembers(bindings, f);
    LastBatchIsSomeMembers(other, f);
    assert forall b, d :: b in bindings && d in bindings && FamilyOf(b) == f && FamilyOf(d) == f ==>
      !SettingsClash(f, b.consumer, d.consumer);
  }

  // ---- Bucket events ----

  predicate BucketsDiverge(bindings: seq<ConsumerBinding>) {
    exists b, d :: b in bindings && d in bindings && b.kind == BucketSource && d.kind == BucketSource
      && multiset(BindingEvents(b)) != multiset(BindingEvents(d))
  }

  // Consumers list different events when one lists "created" or "deleted" more often.
  lemma DivergeWhenListed(bindings: seq<ConsumerBinding>)
    ensures BucketsDiverge(bindings) <==>
            exists b, d :: b in bindings && d in bindings && b.kind == BucketSource && d.kind == BucketSource &&
              (multiset(b.consumer.bucketEvents)["created"] != multiset(d.consumer.bucketEvents)["created"] ||
               multiset(b.consumer.bucketEvents)["deleted"] != multiset(d.consumer.bucketEvents)["deleted"])
  {
    forall b, d | b in bindings && d in bindings && b.kind == BucketSource && d.kind == BucketSource
      ensures multiset(BindingEvents(b)) == multiset(BindingEvents(d)) <==>
              multiset(b.consumer.bucketEvents)["created"] == multiset(d.consumer.bucketEvents)["created"] &&
              multiset(b.consumer.bucketEvents)["deleted"] == multiset(d.consumer.bucketEvents)["deleted"]
    {
      SameEventsIff(b.consumer.bucketEvents, d.consumer.bucketEvents);
    }
  }

  lemma SameEventsIff(a: seq<string>, b: seq<string>)
    ensures multiset(MappedEvents(a)) == multiset(MappedEvents(b)) <==>
            multiset(a)["created"] == multiset(b)["created"] && multiset(a)["deleted"] == multiset(b)["deleted"]
  {
    var created, removed := "s3:ObjectCreated:*", "s3:ObjectRemoved:*";
    OnlyTheseEvents(a, created, removed, "created", "deleted");
    OnlyTheseEvents(b, created, removed, "created", "deleted");
    SameTwoCounts(multiset(MappedEvents(a)), multiset(MappedEvents(b)), created, removed);
  }

  ghost predicate Only(m: multiset<string>, x: string, y: string) {
    x != y && forall e :: e != x && e != y ==> m[e] == 0
  }

  lemma OnlyTheseEvents(names: seq<string>, x: string, y: string, first: string, second: string)
    requires x == "s3:ObjectCreated:*" && y == "s3:ObjectRemoved:*" && first == "created" && second == "deleted"
    ensures var m := multiset(MappedEvents(names));
            Only(m, x, y) && m[x] == multiset(names)[first] && m[y] == multiset(names)[second]
  {
    assert x[9] != y[9];
    MappedExact(names, x);
    MappedExact(names, y);
    forall e | e != x && e != y ensures multiset(MappedEvents(names))[e] == 0 {
      MappedExact(names, e);
    }
  }

  lemma SameTwoCounts(a: multiset<string>, b: multiset<string>, x: string, y: string)
    requires Only(a, x, y) && Only(b, x, y)
    ensures a == b <==> a[x] == b[x] && a[y] == b[y]
  {
    if a[x] == b[x] && a[y] == b[y] {
      forall e ensures a[e] == b[e] { }
    }
  }

  // ---- Placement ----

  lemma BindingKeepsPlacement(a: Annotations, b: ConsumerBinding, base: nat, key: AnnotationKey)
    requires key == SubnetTier || key == Egress
    ensures Lookup(StampBinding(a, b, base), key) == Lookup(a, key)
  {
    StampedEventsKeepSettings(a, BindingEvents(b), base, key);
  }

  lemma {:induction false} StampedPlacement(a: Annotations, bindings: seq<ConsumerBinding>, key: AnnotationKey)
    requires key == SubnetTier || key == Egress
    ensures Lookup(StampAll(a, bindings), key) == Lookup(a, key)
  {
    if bindings != [] {
      var n := |bindings| - 1;
      StampedPlacement(a, bindings[..n], key);
      BindingKeepsPlacement(StampAll(a, bindings[..n]), bindings[n], |AllEvents(bindings[..n])|, key);
    }
  }

  // A function in a VPC is told its subnet type, and the reach only when the author chose
  // one; a function outside any VPC is told neither.
  lemma PlacementStamped(h: ResolvedHandler)
    ensures var r := StampAll(WithPlacement(map[], h), h.bindings);
            && Lookup(r, SubnetTier) == (if h.vpc.Some? then Some(h.vpcSubnetType) else None)
            && Lookup(r, Egress) == (if h.vpc.Some? && h.vpcEgress != "" then Some(h.vpcEgress) else None)
  {
    StampedPlacement(WithPlacement(map[], h), h.bindings, SubnetTier);
    StampedPlacement(WithPlacement(map[], h), h.bindings, Egress);
  }

  // Each bucket triggers on the function's whole list, which is its own consumer's event
  // set when no divergence is reported.
  lemma UndivergedEventsAreEachConsumers(bindings: seq<ConsumerBinding>, b: ConsumerBinding, event: string)
    requires !BucketsDiverge(bindings) && b in bindings && b.kind == BucketSource
    ensures event in AllEvents(bindings) <==> event in BindingEvents(b)
  {
    FlatMapMember(bindings, BindingEvents, event);
    if event in AllEvents(bindings) {
      var d :| d in bindings && event in BindingEvents(d);
      SameMembers(BindingEvents(b), BindingEvents(d));
    }
  }

  // Reordering the bindings only permutes the S3 event list.
  lemma EventsOrderIndependent(bindings: seq<ConsumerBinding>, other: seq<ConsumerBinding>)
    requires multiset(bindings) == multiset(other)
    ensures multiset(AllEvents(bindings)) == multiset(AllEvents(other))
  {
    FlatMapPermutes(bindings, other, BindingEvents);
  }

  // ---- Conflict detection ----

  function OfFamily(bindings: seq<ConsumerBinding>, f: Family): (r: seq<ConsumerBinding>)
    ensures forall b :: b in r <==> b in bindings && FamilyOf(b) == f
  {
    if bindings == [] then []
    else
      var n := |bindings| - 1;
      assert bindings == bindings[..n] + [bindings[n]];
      if FamilyOf(bindings[n]) == f then OfFamily(bindings[..n], f) + [bindings[n]] else OfFamily(bindings[..n], f)
  }

  // Two or more distinct batch sizes are set, or some consumers report partial failures
  // and others do not.
  predicate BatchesDiffer(bindings: seq<ConsumerBinding>) {
    exists b, d :: b in bindings && d in bindings
      && b.consumer.batchSize.Some? && d.consumer.batchSize.Some? && b.consumer.batchSize != d.consumer.batchSize
  }

  predicate PartialsDiffer(bindings: seq<ConsumerBinding>) {
    exists b, d :: b in bindings && d in bindings && b.consumer.partialFailures && !d.consumer.partialFailures
  }

  predicate StartsDiffer(bindings: seq<ConsumerBinding>) {
    exists b, d :: b in bindings && d in bindings && b.consumer.startFromBeginning && !d.consumer.startFromBeginning
  }

  method BatchOrFailuresConflict(bindings: seq<ConsumerBinding>) returns (conflict: bool)
    ensures conflict <==> BatchesDiffer(bindings) || PartialsDiffer(bindings)
  {
    if |bindings| < 2 {
      assert forall b, d :: b in bindings && d in bindings ==> b == d;
      return false;
    }
    var batchSizes: set<int> := {};
    var seenPartial, seenWhole := false, false;
    for i := 0 to |bindings|
      invariant forall j :: 0 <= j < i && bindings[j].consumer.batchSize.Some? ==> bindings[j].consumer.batchSize.value in batchSizes
      invariant forall n :: n in batchSizes ==> exists j :: 0 <= j < i && bindings[j].consumer.batchSize == Some(n)
      invariant seenPartial <==> exists j :: 0 <= j < i && bindings[j].consumer.partialFailures
      invariant seenWhole <==> exists j :: 0 <= j < i && !bindings[j].consumer.partialFailures
    {
      var c := bindings[i].consumer;
      if c.batchSize.Some? {
        batchSizes := batchSizes + {c.batchSize.value};
      }
      if c.partialFailures {
        seenPartial := true;
      } else {
        seenWhole := true;
      }
    }
    BatchSizesSeen(bindings, batchSizes);
    conflict := |batchSizes| >= 2 || (seenPartial && seenWhole);
  }

  lemma BatchSizesSeen(bindings: seq<ConsumerBinding>, sizes: set<int>)
    requires forall j :: 0 <= j < |bindings| && bindings[j].consumer.batchSize.Some? ==> bindings[j].consumer.batchSize.value in sizes
    requires forall n :: n in sizes ==> exists j :: 0 <= j < |bindings| && bindings[j].consumer.batchSize == Some(n)
    ensures |sizes| >= 2 <==> BatchesDiffer(bindings)
  {
    SetHasTwo(sizes);
    if |sizes| >= 2 {
      var x, y := PickTwo(sizes);
      var j :| 0 <= j < |bindings| && bindings[j].consumer.batchSize == Some(x);
      var k :| 0 <= k < |bindings| && bindings[k].consumer.batchSize == Some(y);
      var b, d := bindings[j], bindings[k];
      assert b in bindings && d in bindings && b.consumer.batchSize != d.consumer.batchSize;
    }
    if BatchesDiffer(bindings) {
      var b, d :| b in bindings && d in bindings && b.consumer.batchSize.Some? && d.consumer.batchSize.Some?
        && b.consumer.batchSize != d.consumer.batchSize;
      assert b.consumer.batchSize.value in sizes && d.consumer.batchSize.value in sizes;
    }
  }

  method StartingPositionConflict(bindings: seq<ConsumerBinding>) returns (conflict: bool)
    ensures conflict <==> StartsDiffer(bindings)
  {
    var positions: set<string> := {};
    for i := 0 to |bindings|
      invariant IsImage(positions, bindings[..i], BindingStart)
    {
      positions := positions + {BindingStart(bindings[i])};
    }
    assert bindings[..|bindings|] == bindings;
    ImageHasTwo(positions, bindings, BindingStart);
    conflict := |positions| >= 2;
    StartsDistinct();
  }

  function BindingStart(b: ConsumerBinding): string {
    StartingPosition(b.consumer)
  }

  lemma StartsDistinct()
    ensures forall c, d :: StartingPosition(c) == StartingPosition(d) <==> c.startFromBeginning == d.startFromBeginning
  {
    assert "TRIM_HORIZON"[0] != "LATEST"[0];
  }

  // Event lists are compared through their sorted, comma-joined text.
  function EventText(b: ConsumerBinding): string {
    Join(Sort(BindingEvents(b), LexLe), ',')
  }

  lemma SortedSeparatorFree(events: seq<string>)
    requires SeparatorFree(events, ',')
    ensures SeparatorFree(Sort(events, LexLe), ',')
  {
    var sorted := Sort(events, LexLe);
    SameMembers(sorted, events);
    forall i | 0 <= i < |sorted| ensures sorted[i] != "" && ',' !in sorted[i] {
      assert sorted[i] in sorted;
    }
  }

  lemma EventTextExact(b: ConsumerBinding, d: ConsumerBinding)
    ensures EventText(b) == EventText(d) <==> multiset(BindingEvents(b)) == multiset(BindingEvents(d))
  {
    var p, q := BindingEvents(b), BindingEvents(d);
    SortStringsCanonical(p, q);
    SortedSeparatorFree(p);
    SortedSeparatorFree(q);
    if EventText(b) == EventText(d) {
      JoinInjective(Sort(p, LexLe), Sort(q, LexLe), ',');
    }
  }

  method BucketEventSetsDiverge(bindings: seq<ConsumerBinding>) returns (diverge: bool)
    requires forall b :: b in bindings ==> b.kind == BucketSource
    ensures diverge <==> BucketsDiverge(bindings)
  {
    var sets: set<string> := {};
    for i := 0 to |bindings|
      invariant IsImage(sets, bindings[..i], EventText)
    {
      ImageExtends(sets, bindings, i, EventText);
      sets := sets + {EventText(bindings[i])};
    }
    assert bindings[..|bindings|] == bindings;
    ImageHasTwo(sets, bindings, EventText);
    TextsDivergeIffBucketsDo(bindings);
    diverge := |sets| >= 2;
  }

  lemma TextsDivergeIffBucketsDo(bindings: seq<ConsumerBinding>)
    requires forall b :: b in bindings ==> b.kind == BucketSource
    ensures Differ(bindings, EventText) <==> BucketsDiverge(bindings)
  {
    forall b, d ensures EventText(b) == EventText(d) <==> multiset(BindingEvents(b)) == multiset(BindingEvents(d)) {
      EventTextExact(b, d);
    }
  }

  lemma ConflictMeans(bindings: seq<ConsumerBinding>, f: Family)
    ensures SettingsConflict(bindings, f) <==>
            var own := OfFamily(bindings, f);
            BatchesDiffer(own) || PartialsDiffer(own) || (f == StreamFamily && StartsDiffer(own))
  {
    var own := OfFamily(bindings, f);
    if SettingsConflict(bindings, f) {
      var b, d :| b in bindings && d in bindings && FamilyOf(b) == f && FamilyOf(d) == f
        && SettingsClash(f, b.consumer, d.consumer);
      assert b in own && d in own;
    }
  }

  datatype TriggerWarnings = TriggerWarnings(sqs: bool, streams: bool, buckets: bool)

  // One warning per family whose consumers cannot all have what they declared.
  method PerFunctionTriggerConflicts(bindings: seq<ConsumerBinding>) returns (w: TriggerWarnings)
    ensures w.sqs <==> SettingsConflict(bindings, SqsFamily)
    ensures w.streams <==> SettingsConflict(bindings, StreamFamily)
    ensures w.buckets <==> BucketsDiverge(bindings)
  {
    var sqs, streams, buckets := [], [], [];
    for i := 0 to |bindings|
      invariant sqs == OfFamily(bindings[..i], SqsFamily)
      invariant streams == OfFamily(bindings[..i], StreamFamily)
      invariant buckets == OfFamily(bindings[..i], BucketFamily)
    {
      assert bindings[..i + 1][..i] == bindings[..i];
      match bindings[i].kind {
        case QueueSource => sqs := sqs + [bindings[i]];
        case TopicSource => sqs := sqs + [bindings[i]];
        case DatastoreSource => streams := streams + [bindings[i]];
        case BucketSource => buckets := buckets + [bindings[i]];
        case ExternalSource =>
        case UnknownSource =>
      }
    }
    assert bindings[..|bindings|] == bindings;
    var sqsConflict := BatchOrFailuresConflict(sqs);
    var streamConflict := BatchOrFailuresConflict(streams);
    var startConflict := StartingPositionConflict(streams);
    var diverge := BucketEventSetsDiverge(buckets);
    ConflictMeans(bindings, SqsFamily);
    ConflictMeans(bindings, StreamFamily);
    w := TriggerWarnings(sqsConflict, streamConflict || startConflict, diverge);
  }
}
