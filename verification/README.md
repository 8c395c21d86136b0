# Verification of the Celerity transformer

The transformer turns an abstract Celerity blueprint (handlers, consumers, queues, topics, APIs, databases, caches and
the links between them) into a concrete AWS blueprint. This project models the parts of it where one phase relies on
another, or on an order it does not control, and proves what the rest of the system depends on.

- **Absorption.** A handler takes its consumers, schedules, API and inherited VPC placement into one function. Links
  re-form by label, where a selector matches a resource carrying any one of its labels. `SelectorKeys`, `Absorption`,
  `Triggers`, `FunctionMetadata` and `Placement` say when that keeps every link and every consumer's settings.
- **Shared parents.** Execution roles are grouped by plan fingerprint (`RolePlans`, `Roles`, `Grants`), layers by content
  hash (`Layers`), topic fan-outs by consumer (`Consumers`, `Fanout`), and one resources store is filled over all handlers
  (`Store`, `StoreLaws`, `StoreWrites`, `StoreLinkOrder`, `StoreClosure`, `StoreDiscovery`). What one phase refers to,
  another must emit.
- **The queue-to-topic forwarder.** An at-least-once protocol with batches, per-topic outcomes, lost replies, crashes and
  redelivery (`Forwarder`), the inline handler as a refinement of it (`ForwarderRefinement`), FIFO order in failure-free
  runs (`ForwarderOrder`), those runs as runs of the protocol (`FifoRefinement`) and its wiring (`ForwarderBuild`).
- **Structured emitters.** Database and cache topologies and their reference graph (`ConcreteNames`, `ReferenceGraph`,
  `SqlDatabase`, `SqlLabels`, `Cache`), the security groups VPC and residents must agree on (`SecurityGroupNames`,
  `SecurityGroups`), the hand-assembled secret and an independent JSON reader (`SecretBlob`, `Json`), the table's key schemas
  (`Datastore`) and an API's domain mappings (`DomainMappings`).

Code that loops or updates state is a method or a class, proved against a function or a predicate; the laws are lemmas
about those. `Blueprint` holds the entities, `Text`, `Sequences` and `Ordering` the facts about strings, lists and sorting.

`dafny verify dfyconfig.toml` checks the whole project.

## Assumptions

- A resource's name is unique in its blueprint; a blueprint lists each link once.
- The truncated hash of a role plan is a function `Hash`; results that need it to tell plans apart say so with
  `CollisionFree`, and `RolesFitIffCollisionFree` shows that nothing less would do.
- Sorting with an unstable sort is any sorted permutation where the comparison leaves ties, and the sorted list otherwise.
  Strings compare by code point, as UTF-8 bytes do.
- The queue hands out a message again unless it is deleted, a FIFO queue gives a group to one invocation at a time and in
  order, and a topic's answer to a publish may be lost after the topic took the message.
- The blueprint framework rewrites a reference to an abstract resource and leaves concrete names alone. A function that
  decides whether a name is a topic, the environment a substitution resolves in and the deploy configuration are parameters.
- A VPC that provisions security groups is a managed one; a referenced VPC brings its own.
- The external streams' ARN text is taken as resolved, and a number in a config value as the text the JSON encoder writes for it.

## What the code does not do

Some claims of the code's own comments, or ones a reader would expect, are false of it. For each of these the project proves
the exact condition under which it holds, and shows an input that breaks it.

- Only the maintenance target carries its label (resources/sqldatabase/sqldatabase_maintenance_runner.go:113-116): the mark
  is written into a label map several resources share. `OnlyTargetMarkedIff`, `AuroraInstanceIsMarked`.
- VPC and database agree on security groups (shared/vpc_security_groups.go:21-24): they read the Aurora setting under
  different names. `DatabaseGroupsProvisionedIff`, `DatabaseGroupsReadIff`, `GroupsDisagree`.
- The first claim on a configuration key wins (transformer/resources_store.go:136-140): a single value's key can be a
  composite key. `StoreIsFirstWinsIffNoClash`, `ClashLosesTheGroup`.
- Sorting the handlers makes the store deterministic (same lines): of two links in one list of a handler, the first listed
  takes a shared key. `StoreIgnoresLinkOrderIff`, `FirstListedLinkIsStored`.
- The store refers only to what is emitted: it does not ask whether a linked database or cache was refused, which raises an
  error but leaves the references. `StoreClosedIff`, `RefusedDatabaseDangles`.
- Each external source a handler consumes is polled: mapping names of two consumers can meet, and the later mapping replaces
  the earlier while the role grants both. `EachHasItsMappingIff`, `GrantsWhatIsPolledIff`, `MeetingNamesLoseASource`.
- The secret blob keeps every value (resources/config/config_aws_serverless_emit.go:210-212): the text of a value with a
  substitution is not escaped, its literal parts included. `BlobReadBackIff`, `QuoteIsNotReadBack`.
- A consumer's linked source does not depend on graph order (resources/handler/handler_consumer_binding.go:161-165): it does when
  annotations name sources of two kinds. `SelectionOrderIndependentIff`, `TwoNamedSourcesFollowOrder`.
- A shared role's source annotation is stable: it names whichever handler came first. `SourceAnnotationStableIff`,
  `SourceAnnotationFollowsOrder`.
- A custom domain never gets two mappings at one key: duplicates within a protocol pass. `OneMappingPerKeyIff`,
  `SlashesHideADuplicate`.

Apart from these, the comment at resources/sqldatabase/sqldatabase_aws_serverless_emit.go:625-627 says a target group is
emitted with the proxy; the code emits the proxy and its role only, and so does the model.

## Model

| member | source | states |
|---|---|---|
| SelectorKeys.LabelsFromSelectorKeys | resources/queue/queue_resolve.go:95-109 | The loop computes the label map of a list of selector keys; config_resolve.go:71-85 holds the same loop and is modelled by the same method. |
| SelectorKeys.SelectorLabels | resources/handler/handler_vpc_inherit.go:154-169 | The third parser, written differently, computes the same function of the keys. |
| SelectorKeys.PrintedKeyParses | resources/queue/queue_resolve.go:95-109 | A printed `label::key:value` parses to exactly its key and value if and only if the key is non-empty and colon-free; the value is arbitrary. |
| SelectorKeys.ParsedKeyPrints | resources/queue/queue_resolve.go:95-109 | Whatever parses is the printed form of what it parses to, so no other text is taken for a selector key. |
| SelectorKeys.SelectorKeysParseBack | resources/queue/queue_resolve.go:95-109 | Parsing the printed keys of a label map, in any order and with repetitions, gives back that map if and only if every key is printable. |
| Absorption.ConsumerLabelUnion | resources/handler/handler_consumer_binding.go:398-436 | The label union keeps the first consumer's value and reports exactly the labels it drops, in whatever order a label map is visited. |
| Absorption.UnionHasFirst | resources/handler/handler_consumer_binding.go:398-436 | The union holds a key exactly when some consumer does, with the value of the first one. |
| Absorption.ConflictReportedIffDisagreement | resources/handler/handler_consumer_binding.go:398-436 | A conflict is reported if and only if two consumers disagree on a label. |
| Absorption.AbsorptionPreservesLinks | resources/handler/handler_aws_triggers.go:89-108 | For every selector without internal keys, the function is matched exactly when the handler, an absorbed consumer or the inherited placement is; this holds if and only if those sources agree on the labels they share. |
| Absorption.DisagreementBreaksLinks | resources/handler/handler_aws_triggers.go:89-108 | Two sources with different values for one label give a selector that loses its match. |
| Absorption.AgreeingSourcesSelect | resources/handler/handler_aws_triggers.go:89-108 | With agreeing sources, both directions of the matching hold for each selector. |
| Absorption.InheritedPlacementEffective | resources/handler/handler_aws_triggers.go:94-99 | Inherited placement labels survive every other source, so the VPC's selector matches the function. |
| Absorption.ReservedLabels | resources/handler/handler_api_annotations.go:24-75 | The labels the transformer adds itself: the API and protocol of a routed handler, and the guard it implements. |
| Absorption.PolledConsumersLabelled | resources/handler/handler_aws_triggers.go:390-412 | A function carries one poll label for each topic consumer it absorbs. |
| Absorption.TargetValueInjective | resources/handler/handler_api_annotations.go:65-67 | The `name::protocol` label value splits back into its API and protocol, even when the name holds colons. |
| Absorption.HybridApiExact | resources/api/api_aws_serverless_emit.go:150-166 | The concrete API of a protocol selects a function exactly when its handler serves that API over that protocol, or serves no route and its author wrote the reserved label. |
| Absorption.HybridApiSelectsItsRoutes | resources/api/api_aws_serverless_emit.go:150-166 | When no author label uses the reserved key, the selection is exactly the API's routes of that protocol. |
| Absorption.AuthorizerSelectsItsGuard | resources/api/api_aws_serverless_emit.go:520-537 | A custom authorizer selects exactly the function implementing its guard for its API. |
| Triggers.KeyTextInjective | resources/handler/handler_aws_triggers.go:322-388 | The annotation keys written as text keep queue, stream and indexed bucket settings apart. |
| Triggers.KeyTexts | resources/handler/handler_aws_triggers.go:322-388 | The annotation names the provider's links read. |
| Triggers.EventIndicesContiguous | resources/handler/handler_aws_triggers.go:377-388 | The S3 events are stamped at contiguous indices from 0 in binding order, and no binding overwrites another's. |
| Triggers.SettingsHonouredIffUnwarned | resources/handler/handler_aws_triggers.go:164-227 | Every queue, topic or datastore consumer gets the batch size, failure reporting and starting position it declared, as text, if and only if no conflict is reported for its family, and one is exactly when two of them declare different settings. |
| Triggers.SettingsOrderIndependent | resources/handler/handler_aws_triggers.go:131-156 | Without a conflict, stamping the bindings in any order gives the same settings. |
| Triggers.UndivergedEventsAreEachConsumers | resources/handler/handler_aws_triggers.go:229-240 | Without a divergence warning the function's event set is each bucket consumer's own. |
| Triggers.EventsOrderIndependent | resources/handler/handler_aws_triggers.go:377-388 | Reordering the bindings only permutes the stamped events. |
| Triggers.BatchOrFailuresConflict | resources/handler/handler_aws_triggers.go:198-216 | The loop answers whether two distinct batch sizes are set or partial-failure settings are mixed. |
| Triggers.StartingPositionConflict | resources/handler/handler_aws_triggers.go:218-227 | The loop answers whether two starting positions differ. |
| Triggers.EventTextExact | resources/handler/handler_aws_triggers.go:229-240 | Comparing sorted, comma-joined event lists compares the lists as multisets: the joining loses nothing. |
| Triggers.BucketEventSetsDiverge | resources/handler/handler_aws_triggers.go:229-240 | The loop answers whether two bucket consumers have different event multisets. |
| Triggers.ConflictMeans | resources/handler/handler_aws_triggers.go:164-227 | A family's conflict holds if and only if some pair of its consumers cannot both be served. |
| Triggers.PerFunctionTriggerConflicts | resources/handler/handler_aws_triggers.go:164-194 | The three warnings are raised exactly for the families in conflict and for diverging buckets. |
| FunctionMetadata.Metadata.ApplyLambdaLabels | resources/handler/handler_aws_triggers.go:89-108 | The labels after the step, and exactly the dropped labels as conflicts. |
| FunctionMetadata.Metadata.StampPolledSettings | resources/handler/handler_aws_triggers.go:350-372 | The settings a queue or datastore binding stamps, over those already there. |
| FunctionMetadata.Metadata.StampConsumerBinding | resources/handler/handler_aws_triggers.go:322-348 | The whole new state for one binding of any kind, and how far the event index moves. |
| FunctionMetadata.Metadata.StampBucketBinding | resources/handler/handler_aws_triggers.go:377-388 | Stamps the mapped events from the running index, counts them, and reports exactly the unmapped events, in order. |
| FunctionMetadata.BucketEvents | resources/handler/handler_aws_triggers.go:421-439 | The loop over a bucket consumer's events gives the S3 names of the mapped ones and the list of the others. |
| Triggers.MappedExact | resources/handler/handler_aws_triggers.go:421-454 | A bucket consumer's events hold `s3:ObjectCreated:*` as often as it lists created, `s3:ObjectRemoved:*` as often as it lists deleted, and nothing else. |
| Triggers.ConsumerEventsStamped | resources/handler/handler_aws_triggers.go:377-388 | The function's annotations hold each bucket consumer's events, in the order it lists them, from the index after those of the consumers before it. |
| Triggers.UnmappedExact | resources/handler/handler_aws_triggers.go:421-454 | An event is reported as often as it is listed, exactly when it is neither created nor deleted. |
| Triggers.UnsupportedExact | resources/handler/handler_aws_triggers.go:377-388 | Over a function's bindings, the events reported are those its bucket consumers list that are neither created nor deleted, as often. |
| Triggers.DivergeWhenListed | resources/handler/handler_aws_triggers.go:229-240 | Consumers are said to diverge exactly when two list created or deleted differently often. |
| Triggers.PlacementStamped | resources/handler/handler_aws_triggers.go:131-141 | A function in a VPC is told its subnet type, and the reach only when the author chose one. |
| FunctionMetadata.Metadata.StampTriggerAnnotations | resources/handler/handler_aws_triggers.go:131-156 | The whole new state of annotations and labels for any binding list, with the warnings and the unmapped events of every bucket binding. |
| FunctionMetadata.Metadata.StampApiTarget | resources/handler/handler_api_annotations.go:89-107 | The API target label for a routed handler, and nothing for any other. |
| FunctionMetadata.EmitFunctionMetadata | resources/handler/handler_aws_serverless_emit.go:30-253 | The emitter's steps in order leave exactly the labels and annotations the laws above are about. |
| Placement.ConflictingPlacements | resources/handler/handler_vpc_inherit.go:171-193 | The seen-set loop answers whether two placements name different VPCs. |
| Placement.Target.CollectPlacements | resources/handler/handler_vpc_inherit.go:79-101 | The nested loops collect one placement per VPC link into a component. |
| Placement.PlacementsExact | resources/handler/handler_vpc_inherit.go:79-101 | A component is placed by each VPC link to it, with its own subnet type and reach and the labels of the link, and by nothing else. |
| Placement.SortPlacements | resources/handler/handler_vpc_inherit.go:96-101 | Sorted by component, a permutation, and nothing promised among equals. |
| Placement.Target.ResolveInherited | resources/handler/handler_vpc_inherit.go:51-77 | An error exactly when there is no direct VPC and the components conflict; otherwise the fields of a least placement are assigned, or none. |
| Placement.PlacementDeterministic | resources/handler/handler_vpc_inherit.go:79-101 | Neither the order of components nor of edges shows in the conflict or, with one VPC per component, in the chosen placement. |
| Placement.ConflictNeedsTwoVpcs | resources/handler/handler_vpc_inherit.go:171-193 | The error arises if and only if two links into the handler's components come from different VPCs. |
| Placement.InheritedVpcSelectsFunction | resources/handler/handler_vpc_inherit.go:103-119 | A printed selector key of the VPC's link parses into a label that makes the VPC's selector match the emitted function. |
| Grants.QueueUrlConverts | resources/handler/handler_aws_triggers.go:1209-1229 | Every well-formed queue URL converts to the ARN of the same region, account and queue. |
| Grants.ConvertedTextIsQueueUrl | resources/handler/handler_aws_triggers.go:1209-1229 | Only such URLs convert. |
| Grants.ResourceArnIdempotent | resources/handler/handler_aws_triggers.go:1201-1207 | Normalising an external queue twice is normalising it once. |
| Grants.ExternalRoleSources | resources/handler/handler_aws_triggers.go:1139-1169 | The loops and the sort compute the role's sources as a function of the bindings. |
| Grants.SourcesInOrder | resources/handler/handler_aws_triggers.go:1139-1169 | The sources come by service, DynamoDB before Kinesis before SQS, and then by ARN. |
| Grants.EmitEventSourceMappings | resources/handler/handler_aws_triggers.go:579-605 | The emitted map exactly: the declared sources of the external bindings in order, the last one written under a name staying. |
| Grants.EmitExternalSources | resources/handler/handler_aws_triggers.go:831-852 | One binding's mappings, its streams and then its queue, added to those before it. |
| Grants.WrittenExact | resources/handler/handler_aws_triggers.go:831-852 | The map holds a name exactly when some source is declared under it, with the source declared last. |
| Grants.EachHasItsMappingIff | resources/handler/handler_aws_triggers.go:579-605 | Every declared source has its own mapping under its own name if and only if no two declarations use one name for different sources. |
| Grants.MappingNamesMeetIff | resources/handler/handler_aws_triggers.go:1095-1101 | Two stream mapping names are one exactly when consumer and key join to one text, which for keys without underscores means the same consumer and key; an SQS mapping is named as a stream of key `sqs`. |
| Grants.PolledIffLast | resources/handler/handler_aws_triggers.go:579-605 | A source is polled exactly when some declaration of it is the last of its name. |
| Grants.SameNameLosesAStream | resources/handler/handler_aws_triggers.go:831-852 | Of two streams of one handler whose mapping names are one, the first is granted and never polled. |
| Grants.MeetingNamesLoseASource | resources/handler/handler_aws_triggers.go:1095-1101 | Such an input: consumer `orders` with key `eu_west` beside consumer `orders_eu` with key `west`. |
| Grants.ExternalSourcesPolicy | shared/awslambda/iam_planner.go:97-132 | The loop with its seen-map computes the policy's statements. |
| Grants.ScopedStatementExact | shared/awslambda/iam_planner.go:97-132 | An ARN-scoped read statement is in the policy exactly when its source is, with a non-empty ARN. |
| Grants.ListStreamsExactlyOnce | shared/awslambda/iam_planner.go:97-132 | A service's list action appears once if some source needs it and not otherwise. |
| Grants.PollersAreGranted | resources/handler/handler_aws_triggers.go:579-605 | Every emitted mapping with a non-empty ARN has its scoped statement in the policy of its bindings. |
| Grants.GrantedIffDeclared | shared/awslambda/iam_planner.go:97-132 | A scoped statement is in a role's policy exactly when some binding declares its source, with a non-empty ARN. |
| Grants.GrantsWhatIsPolledIff | shared/awslambda/iam_planner.go:97-132 | The policy grants exactly what the emitted mappings poll if and only if every declared source keeps a name that no later declaration takes. |
| Grants.NoClashKeepsNames | resources/handler/handler_aws_triggers.go:1095-1101 | Without two sources under one name every source keeps one, so grants and polling agree. |
| RolePlans.BuildRolePlan | resources/handler/handler_resolve.go:135-177 | The step-by-step plan is the specified one. |
| RolePlans.AddTyped | resources/handler/handler_resolve.go:137-141 | The closure appends the typed text of every link of a kind. |
| RolePlans.LinkTextInjective | resources/handler/handler_resolve.go:135-177 | The `type::name` text of a link keeps type and name apart. |
| RolePlans.PlanLinksExact | resources/handler/handler_resolve.go:135-177 | The plan holds `type::name` as often as the handler's list of that type has a resource of that name, for each of the ten types, and nothing else. |
| RolePlans.PlansEqualIffSamePermissions | shared/awslambda/role_plan.go:65-69 | Two plans are equal if and only if the handlers have links to the same names as often, type by type, and the same tracing, subnet type, store path and external sources, whatever the edge order. |
| RolePlans.InlinePolicies | shared/awslambda/iam_planner.go:49-64 | The inline policies of a plan, in order. |
| RolePlans.PoliciesExact | shared/awslambda/iam_planner.go:49-132 | Tracing is allowed exactly when the handler traces, reading a store path exactly when it is the plan's, each action on an ARN exactly when a source of the plan with that ARN needs the action to be polled, and listing streams exactly when a source of the service is in the plan. |
| Roles.CollectIamRoles | resources/handler/handler_aws_serverless_shared_parents.go:52-105 | One role per fingerprint, seeded from the first handler with it and annotated with all of them. |
| Roles.RecordHandler | resources/handler/handler_aws_serverless_shared_parents.go:62-71 | One turn of the grouping loop over the four maps. |
| Roles.EmitRoles | resources/handler/handler_aws_serverless_shared_parents.go:73-104 | The roles written from the maps, with sorted sharers. |
| Roles.RoleReferenceResolves | resources/handler/handler_aws_serverless_emit.go:123-135 | A function's role reference names exactly one emitted role. |
| Roles.RolesFitIffCollisionFree | resources/handler/handler_aws_serverless_shared_parents.go:52-105 | Every function runs under a role with exactly its own plan if and only if no two different plans of the blueprint hash alike. |
| Roles.SharedByPartitions | resources/handler/handler_aws_serverless_shared_parents.go:81-87 | The sharedBy lists hold every handler once, under its own role, sorted, and nothing else. |
| Roles.RolesOrderIndependent | resources/handler/handler_aws_serverless_shared_parents.go:52-105 | Permuting the handlers changes no role's name, permissions or sharers. |
| Roles.SourceAnnotationStableIff | resources/handler/handler_aws_serverless_shared_parents.go:65-80 | A role's source annotation is the same for every order of the handlers if and only if exactly one handler shares the role. |
| Roles.SourceAnnotationFollowsOrder | resources/handler/handler_aws_serverless_shared_parents.go:65-80 | The failing input: two handlers with one plan, swapped, name different sources. |
| Roles.CollectHandlerRoles | resources/handler/handler_aws_serverless_shared_parents.go:52-105 | The roles of resolved handlers, by their memoised plans. |
| Roles.SharedRoleIffSamePermissions | resources/handler/handler_resolve.go:122-177 | Two handlers share a role if and only if they need the same permissions. |
| Roles.GrantsMatchPollers | resources/handler/handler_aws_triggers.go:579-605 | Through the policies of its possibly shared role a handler may do to a source everything that polling its emitted mappings needs, and nothing else if and only if each of its declared sources keeps a name. |
| Consumers.SelectLinkedSource | resources/handler/handler_consumer_binding.go:166-206 | The selection among linked sources: the only one, the first named by an annotation, or the alphabetically first, marked ambiguous. |
| Consumers.SelectExact | resources/handler/handler_consumer_binding.go:166-206 | The choice is one of the links; one the annotation of its kind names when there is such a one; and otherwise, among several, an alphabetically first one, reported as ambiguous. |
| Consumers.SelectionOrderIndependentIff | resources/handler/handler_consumer_binding.go:166-206 | With several sources the choice is independent of edge order if and only if the annotations name at most one of them; otherwise two orders choose differently. |
| Consumers.TwoNamedSourcesFollowOrder | resources/handler/handler_consumer_binding.go:166-206 | The failing input: annotations that name a queue and a bucket, where the link listed first is chosen. |
| Consumers.ClassifyExternalEvents | resources/handler/handler_consumer_binding.go:324-383 | The streams of the external events in sorted key order. |
| Consumers.ClassifyConsumerSource | resources/handler/handler_consumer_binding.go:132-149 | The classification cascade: linked source, sourceId, external events, unknown. |
| Consumers.ClassifyIgnoresGraphOrder | resources/handler/handler_consumer_binding.go:132-159 | Reordering the link graph does not change the binding, when at most one source is named. |
| Consumers.ClassifiedIsWellFormed | resources/handler/handler_consumer_binding.go:132-149 | A binding carries external sources only when its kind says so, only streams a role can be granted, and a topic exactly when it is a topic binding. |
| Consumers.LinkedClassified | resources/handler/handler_consumer_binding.go:132-159 | A consumer reads from a queue, datastore or bucket exactly when one is linked to it, and then from such a one. |
| Consumers.SourceIdRead | resources/handler/handler_consumer_binding.go:208-322 | A sourceId is a topic by its prefix, an external queue by one of two others, and otherwise not read. |
| Consumers.SubstitutionRead | resources/handler/handler_consumer_binding.go:208-322 | A substituted sourceId is a topic exactly when it refers to one, and is kept as it is. |
| Consumers.StreamsExact | resources/handler/handler_consumer_binding.go:324-383 | Each external event with an identifier of its own type gives one stream with that identifier, and no other event does. |
| Fanout.CollectTopicFanouts | resources/handler/handler_aws_triggers.go:613-669 | The nested loops emit the families of each topic consumer's first binding. |
| Fanout.CollectHandlerFanouts | resources/handler/handler_aws_triggers.go:617-633 | The inner loop over one handler's bindings, with the seen-set carried through. |
| Fanout.CollectBinding | resources/handler/handler_aws_triggers.go:619-632 | One binding: skipped when not a topic's or already seen, otherwise its family is added. |
| Fanout.OneFamilyPerConsumer | resources/handler/handler_aws_triggers.go:642-669 | However many handlers absorb a topic consumer, each key of its family is emitted exactly once, the dead-letter queue only when enabled. |
| Fanout.FamilyExact | resources/handler/handler_aws_triggers.go:642-725 | A family is a queue selecting the functions that poll for the consumer, with the author's receive limit when the dead-letter queue is on, the subscription delivering to that queue, and, only when on, the dead-letter queue the queue selects. |
| Fanout.NoFamilyWithoutConsumer | resources/handler/handler_aws_triggers.go:613-636 | A consumer no handler absorbs has no family. |
| Fanout.ClassifiedBindingsAreConsistent | resources/handler/handler_consumer_binding.go:117-149 | Every handler absorbing a consumer binds it the same way, because classification reads only the consumer and the graph. |
| Fanout.TopicFanoutContributions | resources/handler/handler_aws_triggers.go:807-824 | The contributions of a handler, by subscription key. |
| Fanout.ContributionsMergeCleanly | resources/handler/handler_aws_triggers.go:807-824 | Each contribution finds exactly one parent, and handlers contributing to one parent give it the same topic. |
| Fanout.SubscriberIsEmittedQueue | resources/handler/handler_aws_triggers.go:1109-1131 | The rewritten subscriberId and the subscription's endpoint name an emitted queue whose selector matches every absorbing function. |
| FifoRefinement.StepRefines | resources/queue/queue_forwarder_aws_serverless.go:54-87 | Every step of the failure-free FIFO machine is a step of the forwarder protocol, between the states it stands for. |
| FifoRefinement.FifoRunIsProtocolRun | resources/queue/queue_forwarder_aws_serverless.go:54-87 | Every failure-free FIFO run is a run of the protocol. |
| FifoRefinement.FifoDeletedOnlyWhenDelivered | resources/queue/queue_forwarder_aws_serverless.go:54-87 | In such a run a message has left the queue only after every target topic accepted it. |
| FifoRefinement.ServingFollows | resources/queue/queue_forwarder_aws_serverless.go:54-87 | What the protocol lets the handler do to a batch, the FIFO machine does too, to the same state. |
| FifoRefinement.HandlerRunsFifoMachine | resources/queue/queue_forwarder_aws_serverless.go:54-87 | When every publish of a batch is accepted, the inline handler's run is a run of the FIFO machine that ends with the handler's own logs: nothing reported, and on each topic one publication carrying each record, in batch order. |
| FifoRefinement.TopicsPublishGroupsInOrder | resources/queue/queue_forwarder_aws_serverless.go:54-87 | In every failure-free FIFO run the publications of a group on a topic carry the bodies of the first messages sent to the group, in the order they were sent, and of all of them once the queue is drained. |
| Forwarder.StepKeepsValid | resources/queue/queue_forwarder_aws_serverless.go:54-87 | Every step of the protocol (send, receive, publish accepted, rejected or with its reply lost, settle, complete, crash) keeps the invariant and only adds to the logs. |
| Forwarder.DeletedOnlyWhenDelivered | resources/queue/queue_forwarder_aws_serverless.go:54-87 | In every state of every run a record has left the queue only after every target topic took a publication with the record's own body and group, and its id to deduplicate by when it has a group. |
| Forwarder.PublishedWasSent | resources/queue/queue_forwarder_aws_serverless.go:54-87 | In every state of every run each publication on a topic carries the body, group and id of a message that was sent. |
| Forwarder.NothingIsLost | resources/queue/queue_forwarder_aws_serverless.go:54-87 | From the moment it is queued, a record is in the queue or delivered everywhere. |
| Forwarder.RetriesExactlyTheFailed | resources/queue/queue_forwarder_aws_serverless.go:61-86 | When a batch completes, a record stays queued if and only if one of its own publishes failed. |
| Forwarder.CompletionTouchesOnlyItsBatch | resources/queue/queue_forwarder_aws_serverless.go:61-86 | Completing a batch changes no record outside it and no other invocation. |
| Forwarder.PublishRecord | resources/queue/queue_forwarder_aws_serverless.go:63-83 | One record is published to every topic; it fails exactly when some publish is rejected. |
| Forwarder.HandleBatch | resources/queue/queue_forwarder_aws_serverless.go:54-87 | The failures reported and the logs of the inline loop, and by field: each topic's log grows by one publication for each record it took, in batch order, with the record's body and group and, with a group, its id to deduplicate by. |
| Forwarder.LogsGrow | resources/queue/queue_forwarder_aws_serverless.go:54-87 | The same of the loop's specification, for every combination of outcomes. |
| ForwarderRefinement.HandlerRefinesProtocol | resources/queue/queue_forwarder_aws_serverless.go:54-87 | Receiving a batch and running the handler is a sequence of enabled protocol steps ending in the handler's own logs and failures. |
| ForwarderRefinement.HandlerBatchIsSafe | resources/queue/queue_forwarder_aws_serverless.go:54-87 | So the state after the handler's batch keeps the invariant, and each record is retried exactly when its own publish was rejected. |
| ForwarderOrder.StepKeepsValid | resources/queue/queue_forwarder_aws_serverless.go:54-87 | Each failure-free step on a FIFO queue keeps every group's messages in order on every topic. |
| ForwarderOrder.TopicsReceiveGroupsInOrder | resources/queue/queue_forwarder_aws_serverless.go:54-87 | In every failure-free run each topic's log of a group is a prefix of what was sent to the group, and all of it once the queue is drained. |
| ForwarderBuild.OutboundEdges | resources/queue/queue_resolve.go:70-91 | The forwarding edges and whether the queue is consumed. |
| ForwarderBuild.ForwardsExact | resources/queue/queue_resolve.go:70-91 | A queue forwards to each topic it is linked to, under the labels of the link, and to nothing else. |
| ForwarderBuild.QueueSelectorKeepsMatches | resources/queue/queue_forwarder_aws_serverless.go:210-220 | Adding the forward label to the queue's selector adds exactly the forwarder, if and only if the author's selector does not use that label with another value. |
| ForwarderBuild.QueueTriggersOnlyItsForwarder | resources/queue/queue_forwarder_aws_serverless.go:93-95 | A queue selects its own forwarder and no other queue's. |
| ForwarderBuild.BuildTopicForwarder | resources/queue/queue_forwarder_aws_serverless.go:112-182 | The loop over sorted topics assigns the environment annotations and the union selector. |
| ForwarderBuild.HandlerDiscoversItsTopics | resources/queue/queue_forwarder_aws_serverless.go:54-59 | The handler, reading its environment by prefix, finds exactly its target topics, whatever order the links inject them in. |
| ForwarderBuild.ForwarderSelectsItsTopics | resources/queue/queue_forwarder_aws_serverless.go:112-182 | The union selector matches every target topic whose edge carries a label. |
| ForwarderBuild.ForwarderSelectsExactly | resources/queue/queue_forwarder_aws_serverless.go:112-182 | The union selector matches a topic if and only if the topic carries a label of one of the edges in it. |
| ForwarderBuild.EmitTopicForwarder | resources/queue/queue_aws_serverless_emit.go:143-181 | The four outcomes of forwarder emission, each with its exact condition. |
| ForwarderBuild.ResolveAndEmit | resources/queue/queue_aws_serverless_emit.go:143-181 | A forwarder is never emitted for a queue that has a consumer. |
| ConcreteNames.ResourceNamesUnique | resources/sqldatabase/sqldatabase_aws_serverless_emit.go:940-962 | Two concrete names are equal exactly when resource kind and owner are, whatever suffixes the owners' names end in. |
| ConcreteNames.ValueNamesUnique | resources/sqldatabase/sqldatabase_aws_serverless_emit.go:405-415 | The same for derived values, though one suffix ends another. |
| ReferenceGraph.NamesOneNode | resources/sqldatabase/sqldatabase_aws_serverless_emit.go:839-849 | The text of a reference names exactly the resource or value it was written for. |
| ReferenceGraph.NoCycle | resources/sqldatabase/sqldatabase_aws_serverless_emit.go:249-318 | Where references descend in rank, no path of a whole blueprint returns to its start. |
| SqlDatabase.Emitter.AddTopologyResources | resources/sqldatabase/sqldatabase_aws_serverless_emit.go:289-318 | The resources added on either engine path and the proxy flag. |
| SqlDatabase.Emitter.BuildDatabaseResources | resources/sqldatabase/sqldatabase_aws_serverless_emit.go:249-282 | The whole resource map before the runner, for each combination of options. |
| SqlDatabase.Emitter.AddMaintenanceRunner | resources/sqldatabase/sqldatabase_aws_serverless_emit.go:324-339 | Adds the runner and its role and leaves the rest. |
| SqlDatabase.Emitter.DerivedValues | resources/sqldatabase/sqldatabase_aws_serverless_emit.go:362-401 | The derived values, chosen by the proxy flag and the engine path. |
| SqlDatabase.EmitSqlDatabase | resources/sqldatabase/sqldatabase_aws_serverless_emit.go:99-203 | Nothing is emitted exactly for a deferred structure, an unsuitable preset or no VPC; otherwise exactly the topology's table. |
| SqlDatabase.TopologyClosed | resources/sqldatabase/sqldatabase_aws_serverless_emit.go:432-807 | For every combination, each reference leads to an emitted resource that exposes that output, an emitted value, or the placement VPC. |
| SqlDatabase.TopologyDescends | resources/sqldatabase/sqldatabase_aws_serverless_emit.go:432-807 | Every reference leads to a lower rank. |
| SqlDatabase.EmittedFor | resources/sqldatabase/sqldatabase_aws_serverless_emit.go:249-401 | The resources emitted for each choice of engine path, replicas and authentication, by the author's own settings. |
| SqlDatabase.UsesFit | resources/sqldatabase/sqldatabase_aws_serverless_emit.go:432-807 | Every reference is of the kind its field is for, and every field a resource needs holds one. |
| SqlDatabase.RunnerConnects | resources/sqldatabase/sqldatabase_maintenance_runner.go:105-160 | The runner is told the writing endpoint and the database's own name. |
| SqlDatabase.SecretsAreReadable | resources/sqldatabase/sqldatabase_maintenance_runner_role.go:62-107 | Everything registered with the proxy or handed to the runner can be read by the role that resource runs under, and nothing more is granted. |
| SqlDatabase.MasterCredentialConfined | resources/sqldatabase/sqldatabase_maintenance_runner.go:251-308 | The master credential is referenced only by proxy, runner and their roles, is the one the service manages, and does not exist under IAM. |
| SqlDatabase.HostIsTheLinkTarget | resources/sqldatabase/sqldatabase_aws_serverless_emit.go:362-401 | The host value is the writing endpoint of the resource handlers link to; the read host exists with the replicas and is a reading endpoint. |
| SqlDatabase.ServersArePlaced | resources/sqldatabase/sqldatabase_aws_serverless_emit.go:494-623 | Every instance, cluster and reader reaches the database's own subnet group, directly or through the server it belongs to. |
| SqlLabels.LabelsWith | resources/sqldatabase/sqldatabase_aws_serverless_emit.go:913-921 | A fresh copy plus one label; the input is untouched. |
| SqlLabels.MarkMaintenanceTarget | resources/sqldatabase/sqldatabase_maintenance_runner.go:196-204 | Writes into the resource's own label object, or into a new one if it has none. |
| SqlLabels.BuildMetadata | resources/sqldatabase/sqldatabase_aws_serverless_emit.go:494-717 | The label object of each resource: the author's own, a fresh copy, or none. |
| SqlLabels.LabelResources | resources/sqldatabase/sqldatabase_aws_serverless_emit.go:324-351 | After marking, exactly which resources carry the label, with the author's own map written through. |
| SqlLabels.LabelsBuiltExact | resources/sqldatabase/sqldatabase_aws_serverless_emit.go:913-921 | Before the mark the runner carries its VPC's labels only, the servers, the proxy and the secret the author's, and a standalone instance also the proxy's target. |
| SqlLabels.OnlyTargetMarkedIff | resources/sqldatabase/sqldatabase_maintenance_runner.go:196-204 | Only the maintenance target carries the label if and only if the author wrote no labels, or the path is standalone without replicas (and no copied map carries it already). |
| SqlLabels.AuroraInstanceIsMarked | resources/sqldatabase/sqldatabase_maintenance_runner.go:196-204 | The failing input: an Aurora database whose author wrote one label, whose instance is marked beside the cluster. |
| Cache.EmitCache | resources/cache/cache_aws_serverless_emit.go:102-201 | Nothing exactly for a deferred structure or an unsuitable preset, a warning exactly without a VPC, otherwise exactly the table. |
| Cache.CacheClosedAndDescends | resources/cache/cache_aws_serverless_emit.go:296-456 | A cache's references all resolve, placed or not and in either authentication and cluster mode, and descend in rank. |
| Cache.EmittedFor | resources/cache/cache_aws_serverless_emit.go:102-201 | The resources emitted for a cache by the author's own settings. |
| Cache.UsesFit | resources/cache/cache_aws_serverless_emit.go:296-456 | Every reference is of the kind its field is for, and every field a resource needs holds one. |
| Cache.HostedResourcesHaveNoCycle | resources/cache/cache_aws_serverless_emit.go:296-406 | No path through the resources and values of any number of databases and caches returns to its start. |
| SecurityGroupNames.GroupNamesUnique | shared/vpc_security_groups.go:29-31 | Distinct resource and role pairs never share a group name, whatever hyphens the names hold. |
| SecurityGroups.PlacedSecurityGroupNames | resources/vpc/vpc_resolve.go:56-91 | The loop and sort compute the sorted list of groups. |
| SecurityGroups.ProvisionedOrderIndependent | resources/vpc/vpc_resolve.go:51-91 | The list does not depend on graph order. |
| SecurityGroups.ProvisionedExact | resources/vpc/vpc_resolve.go:56-91 | A group is provisioned exactly for a placed resource that has the role. |
| SecurityGroups.DatabaseWears | resources/sqldatabase/sqldatabase_aws_serverless_emit.go:432-490 | The instance or cluster refers to the database group, the proxy to the proxy group, and nothing else to any. |
| SecurityGroups.DatabaseGroupsProvisionedIff | resources/vpc/vpc_resolve.go:93-104 | Every group a placed database reads is provisioned if and only if Aurora is enabled under the database's logical name or not enabled under its resource name. |
| SecurityGroups.DatabaseGroupsReadIff | resources/vpc/vpc_resolve.go:79-85 | No provisioned group is left unread if and only if Aurora is enabled under the resource name or not under the logical name. |
| SecurityGroups.AuroraEnabledExact | shared/aws/deployconfig.go:17-34 | A database's own setting wins over the general one, and without either Aurora is off. |
| SecurityGroups.CacheGroupsProvisioned | resources/cache/cache_aws_serverless_emit.go:318-363 | A placed cache always finds its own group and reads no other. |
| SecurityGroups.GroupsDisagree | resources/sqldatabase/sqldatabase_aws_serverless_emit.go:205-232 | A concrete configuration for which the two lookups disagree. |
| SecurityGroups.AuthTargetEmittedIff | resources/sqldatabase/sqldatabase_aws_serverless_emit.go:881-903 | The resource a handler's authentication annotation names is emitted if and only if handler and database look the setting up alike, which fails only for a name that is blank without being empty. |
| SecretBlob.BuildSecretString | resources/config/config_aws_serverless_emit.go:213-258 | The assembled parts, whatever order the map yields its keys in. |
| SecretBlob.PushMember | resources/config/config_aws_serverless_emit.go:231-248 | The parts of one entry, a substituted value quoted and spliced in. |
| SecretBlob.UnsafeIsNotReadBack | resources/config/config_aws_serverless_emit.go:236-240 | A spliced text with a quote, backslash or control character is never read back as itself, whatever follows it. |
| SecretBlob.BlobReadBackIff | resources/config/config_aws_serverless_emit.go:213-258 | Reading the deployed blob as JSON gives back every entry in key order if and only if every spliced text is free of quotes, backslashes and control characters; literal values need no condition. |
| SecretBlob.QuoteIsNotReadBack | resources/config/config_aws_serverless_emit.go:236-240 | The failing input: one value with quotes beside its substitution is not read back, whatever the substitution resolves to. |
| SecretBlob.IntegersAreEncodable | resources/config/config_aws_serverless_emit.go:242-247 | What is written for an integer is a JSON number. |
| Store.CompositeUnique | transformer/resources_store.go:172-198 | A composite key splits uniquely at its last underscore, so groups of distinct bases never share a key. |
| Store.StoreEntries.AddHandlerStoreEntries | transformer/resources_store.go:141-170 | The map after one handler: its claims applied in order to the map before. |
| Store.StoreEntries.AddSingles | transformer/resources_store.go:154-166 | The single-value links of one kind, skipping keys already present. |
| Store.StoreEntries.AddCacheStoreEntries | transformer/resources_store.go:272-325 | The loop over a handler's caches. |
| Store.StoreEntries.AddSqlDatabaseStoreEntries | transformer/resources_store.go:209-258 | The loop over a handler's databases. |
| Store.HandlersOf | transformer/resources_store.go:125-134 | The handlers among the primaries, sorted by name. |
| Store.StoreEntries.AddCache | transformer/resources_store.go:272-325 | A cache's group is written whole, or not at all when its host key is present. |
| Store.StoreEntries.AddSqlDatabase | transformer/resources_store.go:209-258 | The same for a database's group. |
| Store.CollectResourcesStore | transformer/resources_store.go:63-95 | The store, or none when it would be empty. |
| StoreLaws.StoreIsFirstWinsIffNoClash | transformer/resources_store.go:136-170 | The store holds exactly the values of the first claim on each key, groups whole and nothing else, if and only if no single value's key is a composite key of a group. |
| StoreLaws.ClashLosesTheGroup | transformer/resources_store.go:272-280 | A queue whose key is a cache's host key takes that key and every other value of the cache is lost. |
| StoreLaws.StoreOrderIndependent | transformer/resources_store.go:122-134 | Permuting the primaries does not change the store. |
| StoreLinkOrder.StoreIgnoresLinkOrderIff | transformer/resources_store.go:136-170 | Whatever order each handler lists its links in, the store is the same, if and only if no list has two claims with different values on one key that the claims of the lists before it leave free, single values whose key an opening group has aside; the condition reads the claims alone, clash or no clash. |
| StoreLinkOrder.SettledIffEarlierListsDecide | transformer/resources_store.go:136-170 | Without a key clash the condition is one on the links alone: two of one list claim one key with different values only where an earlier list has claimed it. |
| StoreLinkOrder.FirstListedLinkIsStored | transformer/resources_store.go:154-166 | The failing input: two queues under one key, of which the first listed is stored. |
| StoreLinkOrder.ListExact | transformer/resources_store.go:154-170 | What a list of agreeing claims leaves under each key: a value of a claim whose key was free, or what was there. |
| StoreWrites.WrittenStays | transformer/resources_store.go:154-325 | A group that was written is in the finished store whole, and a single value is unless a group took its key. |
| StoreWrites.StoredIsWritten | transformer/resources_store.go:154-325 | Every entry of the store is one that a written claim provides. |
| StoreWrites.WrittenIffLands | transformer/resources_store.go:154-325 | Which claims are written, told from the claims alone: a group when no earlier claim has its host key, a single value when no earlier single value and no earlier such group has its key. |
| StoreWrites.KeyInStoreIff | transformer/resources_store.go:154-325 | A key is in the store exactly when a single value or an opening group claims it. |
| StoreWrites.GroupTakesIff | transformer/resources_store.go:209-325 | A key holds a value of a group exactly when an opening group has it. |
| StoreWrites.WrittenIffFirst | transformer/resources_store.go:136-170 | Without a key clash the claims written are the first on their keys. |
| StoreLaws.EveryLinkIsStored | transformer/resources_store.go:136-170 | Every linked resource of every handler has its key in the store. |
| StoreLaws.LinksClaimed | transformer/resources_store.go:141-170 | Each link is claimed under its spec.name or else its own name: a queue by its URL, a topic and a table by their ARNs, a bucket by its name, a cache and a database by their hosts. |
| StoreLaws.SqlEntriesAreEmitted | transformer/resources_store.go:219-256 | Every reference written for an emitted database resolves within its emission. |
| StoreLaws.SqlGroupConnects | resources/sqldatabase/sqldatabase_store_contract.go:16-68 | Followed through the emission, the group gives the writing endpoint handlers link to, the database's name, the author's engine or else postgres, 3306 for mysql and 5432 otherwise, a reading endpoint exactly when one exists and the application's secret exactly when one exists. |
| StoreLaws.CacheEntriesAreEmitted | transformer/resources_store.go:282-323 | Every reference written for an emitted cache resolves within its emission. |
| StoreClosure.StoreClosedIff | transformer/resources_store.go:63-95 | Every reference of the whole store leads to something emitted if and only if every claim that finds its key free, and is not a single value whose key an opening group has, is on an emitted queue, topic, table or bucket, or on a database or cache that was not refused; the condition reads the claims alone, clash or no clash. |
| StoreClosure.StandsIffRemains | transformer/resources_store.go:136-325 | The claims whose entries the finished store holds are those, told from the claims alone. |
| StoreClosure.StoreClosedIffFirstsAvailable | transformer/resources_store.go:63-95 | Without a key clash these are the links that come first on their keys. |
| StoreClosure.RefusedDatabaseDangles | resources/sqldatabase/sqldatabase_aws_serverless_emit.go:190-192 | The failing input: a handler linked to a database without a VPC, for which nothing is emitted. |
| StoreLaws.CacheCredentialsWrittenIff | transformer/resources_store.go:299-323 | A cache's token secret is written exactly when emitted, if and only if the mode is password or iam. |
| StoreLaws.CacheGroupConnects | transformer/resources_store.go:282-323 | Followed through the emission, a cache's group gives the endpoint its replication group has, port 6379, TLS, the mode the group is in, and the credentials of the authentication mode. |
| StoreDiscovery.StoreEmittedIffLinked | transformer/resources_store.go:73-79 | The store is emitted if and only if some handler has a backing link. |
| StoreDiscovery.StoreReadAgrees | shared/awslambda/iam_planner.go:57-62 | A handler's role grants reading a path exactly when the handler has links and the path is the store's, and then the store holds all of them. |
| StoreDiscovery.StorePathTexts | shared/metadata.go:33-39 | The path is the application name between fixed parts; two applications have two paths. |
| StoreDiscovery.BuildEnvironmentVariables | shared/awslambda/env.go:92-154 | The whole environment as a function of the input. |
| StoreDiscovery.SetFixed | shared/awslambda/env.go:92-117 | The variables every handler gets. |
| StoreDiscovery.EnvironmentReads | shared/awslambda/env.go:92-154 | What a handler reads for the two store variables: the author's own value, else that of the last user store with the store's segment, else the store's. |
| StoreDiscovery.UserVariablesKept | shared/awslambda/env.go:144-151 | Every variable the author sets keeps its value, and the log format is json unless the author sets it. |
| StoreDiscovery.IdentityHolds | shared/awslambda/env.go:92-97 | The platform, target, handler and handler type are under their own names unless the author sets them. |
| StoreDiscovery.OptionalHolds | shared/awslambda/env.go:103-117 | The module path, routing tag and routing key are set exactly when there is one. |
| StoreDiscovery.TelemetryHolds | shared/awslambda/env.go:140-142 | Telemetry is on exactly when the handler traces, unless the author sets it. |
| StoreDiscovery.UserStoreHolds | shared/awslambda/env.go:133-138 | A linked config store is found under its own segment with its identifier, kind and namespace. |
| StoreDiscovery.SetUserStores | shared/awslambda/env.go:133-138 | The loop over user stores computes the variables after them. |
| StoreDiscovery.UserStoresRead | shared/awslambda/env.go:133-138 | The last user store with the store's segment decides what the two variables read, and the others leave them alone. |
| StoreDiscovery.StoreIdNames | shared/awslambda/env.go:67-90 | A user store's variables are those of the resources store exactly when its segment is the same. |
| StoreDiscovery.HandlerDiscoversTheStoreIff | shared/awslambda/env.go:124-138 | A handler discovers the store's path and kind exactly when it has links, if and only if the author does not give either variable another value, directly or by a store name that becomes the same segment. |
| Datastore.OrderedSet.Add | resources/datastore/datastore_aws_serverless_emit.go:347-365 | Appends a non-empty name not yet present. |
| Datastore.BuildGlobalSecondaryIndexes | resources/datastore/datastore_aws_serverless_emit.go:126-174 | The indexes built, the ones skipped, and the attribute set after them. |
| Datastore.BuildIndexSchema | resources/datastore/datastore_aws_serverless_emit.go:158-163 | The inner loop over an index's fields: its key schema and the attribute set after it. |
| Datastore.BuildTableSchema | resources/datastore/datastore_aws_serverless_emit.go:58-71 | The table's own key schema and the first attribute names. |
| Datastore.EmitTable | resources/datastore/datastore_aws_serverless_emit.go:28-82 | Nothing exactly for keys that are references; otherwise the table's key schema, indexes and attribute definitions. |
| Datastore.AttributesExact | resources/datastore/datastore_aws_serverless_emit.go:58-82 | The attribute definitions declare every non-empty name used in a key schema, once, in first-use order, and no other. |
| Datastore.KeySchemasExact | resources/datastore/datastore_aws_serverless_emit.go:58-71 | The table and each index of one or two fields have a hash key and an optional range key, in the author's order. |
| Datastore.SkippedContributeNothing | resources/datastore/datastore_aws_serverless_emit.go:142-156 | A skipped index leaves no trace in the table, and each gives one error. |
| Layers.LayerNamesDiffer | resources/handler/handler_aws_serverless_shared_parents.go:171-192 | Folding the colon away keeps the names of content hashes apart. |
| Layers.CollectLambdaLayers | resources/handler/handler_aws_serverless_shared_parents.go:107-151 | One layer per hash in use, with the first user's artifact and the sorted runtimes of all users. |
| Layers.RecordHandler | resources/handler/handler_aws_serverless_shared_parents.go:129-137 | One turn of the collection loop. |
| Layers.EmitLayers | resources/handler/handler_aws_serverless_shared_parents.go:140-150 | The layers written from the maps, with sorted runtimes. |
| Layers.LayersFitFunctions | resources/handler/handler_aws_serverless_emit.go:424-457 | A function's layer reference names an emitted layer that lists the function's runtime, and each listed runtime is used by some handler selecting the layer. |
| Layers.LayerExact | resources/handler/handler_aws_serverless_shared_parents.go:107-151 | A layer holds an artifact some handler is built with, its own dependencies or else the shared layer, and lists exactly the runtimes of the handlers built with its hash. |
| Layers.LayerReferenceExact | resources/handler/handler_aws_serverless_emit.go:424-457 | A function refers to the layer of the artifact its handler is built with, and to none when there is none or its hash is empty. |
| Layers.LayerNamesUniqueIff | resources/handler/handler_aws_serverless_shared_parents.go:176-192 | A reference names one layer only if and only if no two hashes in use fold to one name. |
| Layers.LayersOrderIndependent | resources/handler/handler_aws_serverless_shared_parents.go:107-151 | Handler order does not show in the layers' names or runtimes. |
| DomainMappings.MappingKeyExact | resources/api/api_aws_serverless_emit.go:997-999 | A mapping key is the path without the slashes around it. |
| DomainMappings.MappingKeysForProtocol | resources/api/api_aws_serverless_emit.go:703-724 | The keys of a protocol, the root key when it has none. |
| DomainMappings.KeysCollide | resources/api/api_aws_serverless_emit.go:645-656 | The set loop answers whether the key lists meet. |
| DomainMappings.EmitApiMappings | resources/api/api_aws_serverless_emit.go:589-641 | An error and no mapping exactly when both protocols are served and share a key; otherwise one mapping per key and protocol. |
| DomainMappings.OneMappingPerKeyIff | resources/api/api_aws_serverless_emit.go:589-641 | The domain has one mapping per key if and only if the check refuses the paths or no served protocol has two paths that trim to one key, which the check does not look for. |
| DomainMappings.DistinctIffNoPathTwice | resources/api/api_aws_serverless_emit.go:703-724 | A protocol's keys are distinct exactly when no two of the author's entries that apply to it trim to one key. |
| DomainMappings.SlashesHideADuplicate | resources/api/api_aws_serverless_emit.go:589-641 | The failing input: `/v1` and `v1/` with one protocol served pass the check and give two mappings at one key. |
| DomainMappings.RefusedIff | resources/api/api_aws_serverless_emit.go:645-656 | A hybrid API is refused exactly when both protocols ask for some key, a protocol without a path asking for the root. |
| DomainMappings.PlainPathCollides | resources/api/api_aws_serverless_emit.go:703-724 | A base path written without a protocol makes a hybrid API collide. |
| DomainMappings.MappingNamesUnique | resources/api/api_aws_serverless_emit.go:1035-1037 | No two mappings, of one API or two, share a resource name. |
| DomainMappings.MappingNameTexts | resources/api/api_aws_serverless_emit.go:1035-1037 | A mapping's name says which protocol it serves. |

## Left out

- The plugin server, SDK configuration, S3 client and manifest loading, which are I/O and foreign libraries.
- Schemas, link descriptions, diagnostic wording and source ranges; a diagnostic is kept as the fact that it is raised.
- SHA-256 and the JSON encoding inside the fingerprint, for which `Hash` stands.
- The blueprint framework: substitution parsing, property maps and the merge of contributions into parents.
- Pass-through emitters (bucket, plain topic, consumer, schedule, handler configuration), tags, CORS, scaling and other spec
  fields that hold no reference: they would add only easy members.
- The spec fields of schedule rules and event source mappings beyond source, ARN and grant.
- Nested objects and lists as config values: the reader and the encoder cover strings, numbers, booleans and substituted text.
- The split of a partly plaintext config into two parameter maps.
- Inheritance of spec and environment fields, event source and routing derivation: the model starts from their results.
- The derivation of a function's module path for the environment, which is a parameter.
- The link selectors of the proxy and of the cache's authentication secret.
- Uniqueness of the authorizer names; event source mapping names are compared within one handler, not across the handlers
  that absorb one consumer.
- Order of a FIFO group under publish failures: a record whose publish fails is published again after the later records of
  its group in the batch, so a topic can receive it after them.
- A label whose map is nil inside a present label object; the source would fail on it, and the model has no such value.
