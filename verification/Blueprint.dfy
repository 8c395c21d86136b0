// The entities the transformer passes between its phases, reduced to the parts the
// other modules read.
module Blueprint {

  datatype Option<+T> = None | Some(value: T)

  type LabelMap = map<string, string>

  // A link selector matches a resource carrying any one of the selector's labels.
  predicate Selects(selector: LabelMap, labels: LabelMap) {
    exists key :: key in selector && key in labels && labels[key] == selector[key]
  }

  // A deploy-time reference: ${resources.<resource>.<path>} or ${values.<key>}.
  datatype Ref =
    | ResourceRef(resource: string, path: string)
    | ValueRef(key: string)

  datatype Value =
    | Literal(text: string)
    | Reference(ref: Ref)

  // A resource a handler links to, with the spec fields the emitters read. An empty
  // string stands for a field the author left unset.
  datatype Linked = Linked(
    name: string,
    specName: string,
    engine: string,
    authMode: string,
    clusterMode: bool,
    readReplicas: bool
  )

  datatype SourceKind =
    | QueueSource
    | DatastoreSource
    | BucketSource
    | TopicSource
    | ExternalSource
    | UnknownSource

  // One entry of a consumer's externalEvents.
  datatype ExternalEvent = ExternalEvent(
    sourceType: string,
    dbStreamId: Option<string>,
    dataStreamId: Option<string>
  )

  // A consumer's sourceId: literal text, or a substitution naming resources.
  datatype SourceId =
    | LiteralId(text: string)
    | SubstitutionId(text: string, resources: seq<string>)

  datatype Consumer = Consumer(
    name: string,
    labels: LabelMap,
    annotations: map<string, string>,
    batchSize: Option<int>,
    partialFailures: bool,
    startFromBeginning: bool,
    bucketEvents: seq<string>,
    deadLetterQueue: bool,
    sourceId: Option<SourceId>,
    externalEvents: Option<map<string, ExternalEvent>>
  )

  // An external stream to poll. arn is the canonical text of the stream's ARN.
  datatype ExternalStream = ExternalStream(key: string, sourceType: string, arn: string)

  datatype ConsumerBinding = ConsumerBinding(
    consumer: Consumer,
    kind: SourceKind,
    source: string,
    topicArn: Option<SourceId>,
    streams: seq<ExternalStream>,
    externalSqs: Option<string>,
    ambiguous: bool
  )

  datatype EventSource = Http | WebSocket | ConsumerEvents | ScheduleEvents | Custom

  datatype ResolvedHandler = ResolvedHandler(
    name: string,
    handlerName: string,
    labels: LabelMap,
    customGuard: string,
    queues: seq<Linked>,
    topics: seq<Linked>,
    datastores: seq<Linked>,
    buckets: seq<Linked>,
    caches: seq<Linked>,
    configs: seq<Linked>,
    sqlDatabases: seq<Linked>,
    consumers: seq<Consumer>,
    bindings: seq<ConsumerBinding>,
    schedules: seq<string>,
    api: Option<string>,
    vpc: Option<string>,
    vpcSubnetType: string,
    vpcEgress: string,
    inheritedLabels: LabelMap,
    eventSource: EventSource,
    tracing: bool,
    storePath: string,
    runtime: string
  )

  // Resource names are unique in a blueprint.
  ghost predicate UniqueNames(handlers: seq<ResolvedHandler>) {
    forall i, j :: 0 <= i < j < |handlers| ==> handlers[i].name != handlers[j].name
  }
}
