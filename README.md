# AWS SDK and Coral span attributes, modelled in Dafny

This project models the attribute-extraction core of an OpenTelemetry Java
agent distribution. It covers three groups of classes.

- **AWS SDK 2.2 field mapping.**
  - `AwsSdkRequestType` declares, per AWS service, which request and response fields become which span attributes.
  - `FieldMapper` walks each mapping's field path on the SDK object.
  - `Serializer` turns the value found into text. Collections become `[a,b]` and maps become their key set. Bedrock runtime bodies are read as JSON for the `gen_ai.*` attributes.
  - `AwsExperimentalAttributes` holds the attribute keys.
- **AWS SDK 1.11 extractors.**
  - `RequestAccess` is the reflective accessor cache: one profile per class, and getters that turn every failure into null.
  - `AwsSdkExperimentalAttributesExtractor` records the `aws.*` attributes.
  - `BedrockAttributesExtractor` builds three registries and dispatches on the service name.
  - `AwsAttributeMap` and `AwsResourceType` classify Bedrock agent requests and responses.
  - Three operation classes record agent, knowledge base and data source ids.
  - Three runtime decoders (Claude, Llama, Titan) read the request and response bodies.
- **Coral.**
  - `CoralAttributesGetter` provides the operation name and its header fallback.
  - `CoralServerAttributesExtractor` records the server span attributes and the status code.
  - `CoralSpanStatusExtractor` decides error statuses.
  - The server and client advice classes start, make current and end spans around a job.

Pure logic is modelled as datatypes, functions and lemmas. Objects that the
source updates in place are classes with `modifies` clauses, each method proved
against a specification function:

- `AttributesBuilder`, `Span` and `FieldMapper`;
- the accessor cache and the two v1.11 extractors, which keep the latest service name and model family in fields;
- `ByteBuffer`;
- the span-status builder;
- the instrumenter with its current context;
- the advice locals and the job metrics.

The source's loops are kept as loops:

- the mapping loop of `FieldMapper`;
- the bulk `get` of `ByteBuffer`.

Things outside the model are parameters rather than code:

- the JSON parsers of the decoders;
- the accessors the method-handle factory finds;
- `Float.toString`;
- the instrumenter's `shouldStart` decision.

The model follows the code in the places below, including where the code does not do what its structure suggests (for example, an "after" advice that ends only the span its "before" advice started, or runtime decoders that record nothing for a malformed body):

- The server "after" advice (`CoralServerInstrumentation.java:92-117`) ends whatever context is current.
  - It carries no flag from the "before" advice, so a request whose span was not started still ends the context around it.
  - Calling it twice ends that context twice.
  - The scope opened by the "before" advice is never closed, so admitted requests nest.
- The `scope == null` branch of that advice cannot be taken.
- The `methodExit` at lines 120-135 lies outside any advice class, so it never runs.
- The v1.11 runtime decoders do not catch parse failures. A malformed body ends the hook with the parser's exception instead of degrading to "no attribute".
- The experimental extractor names the Bedrock system `aws_bedrock` (`AwsSdkExperimentalAttributesExtractor.java:79`). `BedrockAttributesExtractor` names it `AWS Bedrock` (line 161).
- `AwsAttributeMap`'s response table lists six result classes. The operation classes, and therefore `BedrockAttributesExtractor`'s registry, list all of them. A `GetAgentResult` records an agent id through one extractor and not through the other.
- `AwsAttributeMap` classifies `CreateDataSourceRequest` and `ListDataSourcesRequest` as knowledge base requests, as the knowledge base operation lists them.

## Model

Source paths are relative to the repository root.

| member | source | states |
|---|---|---|
| AwsExperimentalAttributesV2.KeysDistinct | instrumentation/aws-sdk/aws-sdk-2.2/library/src/main/java/io/opentelemetry/instrumentation/awssdk/v2_2/AwsExperimentalAttributes.java:13-38 | The aws.* and gen_ai.* key constants are pairwise different attribute names. |
| AwsExperimentalAttributesV2.GenAiAttributeIsExactlyTheGenAiKeys | instrumentation/aws-sdk/aws-sdk-2.2/library/src/main/java/io/opentelemetry/instrumentation/awssdk/v2_2/AwsExperimentalAttributes.java:42-51 | isGenAiAttribute holds exactly for the eight gen_ai constants, which are eight different keys. |
| AwsExperimentalAttributesV2.AwsKeysAreNotGenAi | instrumentation/aws-sdk/aws-sdk-2.2/library/src/main/java/io/opentelemetry/instrumentation/awssdk/v2_2/AwsExperimentalAttributes.java:42-51 | No aws.* key is classified as a gen_ai attribute. |
| AwsSdkRequestType.OfDirectionMembers | instrumentation/aws-sdk/aws-sdk-2.2/library/src/main/java/io/opentelemetry/instrumentation/awssdk/v2_2/AwsSdkRequestType.java:73-75 | A direction group holds exactly the mappings of that direction. |
| AwsSdkRequestType.GroupingIsAPartition | instrumentation/aws-sdk/aws-sdk-2.2/library/src/main/java/io/opentelemetry/instrumentation/awssdk/v2_2/AwsSdkRequestType.java:73-75 | Grouping by type loses and invents no mapping; the two group sizes add up to the number declared. |
| AwsSdkRequestType.FieldsAreTheDirectionGroup | instrumentation/aws-sdk/aws-sdk-2.2/library/src/main/java/io/opentelemetry/instrumentation/awssdk/v2_2/AwsSdkRequestType.java:77-79 | fields(type) returns exactly the declared mappings of that direction, and the two directions cover the constant. |
| AwsSdkRequestType.SnsTargetsOneAttribute | instrumentation/aws-sdk/aws-sdk-2.2/library/src/main/java/io/opentelemetry/instrumentation/awssdk/v2_2/AwsSdkRequestType.java:39-44 | SNS maps TargetArn, then TopicArn, to messaging.destination.name, and reads no response field. |
| AwsSdkRequestType.SecretsManagerIsResponseOnly | instrumentation/aws-sdk/aws-sdk-2.2/library/src/main/java/io/opentelemetry/instrumentation/awssdk/v2_2/AwsSdkRequestType.java:45 | Secrets Manager reads only the response's ARN. |
| AwsSdkRequestType.AgentIdBothDirections | instrumentation/aws-sdk/aws-sdk-2.2/library/src/main/java/io/opentelemetry/instrumentation/awssdk/v2_2/AwsSdkRequestType.java:51-53 | Agent operations read agentId on the request and on the response into the same key. |
| AwsSdkRequestType.RuntimeMappings | instrumentation/aws-sdk/aws-sdk-2.2/library/src/main/java/io/opentelemetry/instrumentation/awssdk/v2_2/AwsSdkRequestType.java:56-63 | The runtime reads modelId and three body-derived keys on the request, and three body-derived keys on the response, in that order. |
| AwsSdkRequestType.AllPathsAreSingleFields | instrumentation/aws-sdk/aws-sdk-2.2/library/src/main/java/io/opentelemetry/instrumentation/awssdk/v2_2/AwsSdkRequestType.java:31-67 | Every declared field name is dot-free, so its path is the single field it names. |
| AwsSdkRequestType.RoutingAgreesWithGenAiKeys | instrumentation/aws-sdk/aws-sdk-2.2/library/src/main/java/io/opentelemetry/instrumentation/awssdk/v2_2/FieldMapper.java:78 | For every declared attribute, the mapper's "contains gen_ai" test agrees with isGenAiAttribute. |
| AwsSdkRequestType.GenAiKeysContainMarker | instrumentation/aws-sdk/aws-sdk-2.2/library/src/main/java/io/opentelemetry/instrumentation/awssdk/v2_2/AwsExperimentalAttributes.java:42-51 | Every gen_ai key contains "gen_ai". |
| Serializer.SerializeValue | instrumentation/aws-sdk/aws-sdk-2.2/library/src/main/java/io/opentelemetry/instrumentation/awssdk/v2_2/Serializer.java:27-72 | Serializing overflows the stack exactly when the value reaches SdkBytes; a non-empty collection or map result is bracketed. |
| Serializer.Bracket | instrumentation/aws-sdk/aws-sdk-2.2/library/src/main/java/io/opentelemetry/instrumentation/awssdk/v2_2/Serializer.java:69-72 | An empty join gives null; otherwise the join is wrapped in "[" and "]"; a failing element propagates. |
| Serializer.ElementTexts | instrumentation/aws-sdk/aws-sdk-2.2/library/src/main/java/io/opentelemetry/instrumentation/awssdk/v2_2/Serializer.java:70 | One text per element; it fails exactly when some element reaches SdkBytes. |
| Serializer.Serialize | instrumentation/aws-sdk/aws-sdk-2.2/library/src/main/java/io/opentelemetry/instrumentation/awssdk/v2_2/Serializer.java:27-47 | A null target gives null; serializing fails exactly when a non-null target reaches SdkBytes. |
| Serializer.MapIsItsKeySet | instrumentation/aws-sdk/aws-sdk-2.2/library/src/main/java/io/opentelemetry/instrumentation/awssdk/v2_2/Serializer.java:39-41 | A map serializes as the collection of its keys. |
| Serializer.MapValuesAreIgnored | instrumentation/aws-sdk/aws-sdk-2.2/library/src/main/java/io/opentelemetry/instrumentation/awssdk/v2_2/Serializer.java:39-41 | Two maps with the same keys in the same order serialize alike, whatever their values. |
| Serializer.CollectionRoundTrip | instrumentation/aws-sdk/aws-sdk-2.2/library/src/main/java/io/opentelemetry/instrumentation/awssdk/v2_2/Serializer.java:69-72 | For plain texts without commas, splitting the bracketed result's inside on "," gives the texts back; an empty collection gives null. |
| Serializer.ToString | instrumentation/aws-sdk/aws-sdk-2.2/library/src/main/java/io/opentelemetry/instrumentation/awssdk/v2_2/Serializer.java:46 | Collections print as "[...]" and maps as "{...}". |
| Serializer.StringAt | instrumentation/aws-sdk/aws-sdk-2.2/library/src/main/java/io/opentelemetry/instrumentation/awssdk/v2_2/Serializer.java:109 | It succeeds exactly when getString does, with the string read. |
| Serializer.IntAt | instrumentation/aws-sdk/aws-sdk-2.2/library/src/main/java/io/opentelemetry/instrumentation/awssdk/v2_2/Serializer.java:121 | It succeeds exactly when getInt does, with the int's decimal text. |
| Serializer.FloatAt | instrumentation/aws-sdk/aws-sdk-2.2/library/src/main/java/io/opentelemetry/instrumentation/awssdk/v2_2/Serializer.java:152-162 | It succeeds exactly when getFloat does, with Float.toString of the float read. getFloat accepts a number, or a text Float.parseFloat reads: trimmed, with NaN, Infinity, a type suffix or a hexadecimal literal allowed. |
| Serializer.ObjectAt | instrumentation/aws-sdk/aws-sdk-2.2/library/src/main/java/io/opentelemetry/instrumentation/awssdk/v2_2/Serializer.java:125 | The cast succeeds exactly when the key holds a JSON object. |
| Serializer.FirstResult | instrumentation/aws-sdk/aws-sdk-2.2/library/src/main/java/io/opentelemetry/instrumentation/awssdk/v2_2/Serializer.java:111 | It succeeds exactly when results is a non-empty array whose first element is an object. |
| Serializer.SerializeNamed | instrumentation/aws-sdk/aws-sdk-2.2/library/src/main/java/io/opentelemetry/instrumentation/awssdk/v2_2/Serializer.java:75-105 | A null target gives null and a non-SdkBytes value gives its toString. SdkBytes whose body is not JSON, or whose attribute is unknown, gives null. Number texts in the body are read as Integer.parseInt and Float.parseFloat read them. |
| Serializer.FinishReasonPrecedence | instrumentation/aws-sdk/aws-sdk-2.2/library/src/main/java/io/opentelemetry/instrumentation/awssdk/v2_2/Serializer.java:107-117 | The finish reason depends only on the first present key of stop_reason and results; it is null when neither is present. |
| Serializer.FinishReasonSource | instrumentation/aws-sdk/aws-sdk-2.2/library/src/main/java/io/opentelemetry/instrumentation/awssdk/v2_2/Serializer.java:107-117 | A finish reason is a top-level stop_reason text, or else completionReason of the first result. |
| Serializer.InputTokensPrecedence | instrumentation/aws-sdk/aws-sdk-2.2/library/src/main/java/io/opentelemetry/instrumentation/awssdk/v2_2/Serializer.java:119-131 | Input tokens depend only on the first present key of prompt_token_count, inputTextTokenCount, usage; null when none is. |
| Serializer.OutputTokensPrecedence | instrumentation/aws-sdk/aws-sdk-2.2/library/src/main/java/io/opentelemetry/instrumentation/awssdk/v2_2/Serializer.java:133-150 | Output tokens depend only on the first present key of generation_token_count, results, inputTextTokenCount, usage. |
| Serializer.MaxTokensPrecedence | instrumentation/aws-sdk/aws-sdk-2.2/library/src/main/java/io/opentelemetry/instrumentation/awssdk/v2_2/Serializer.java:176-188 | Max tokens depend only on the first present key of max_tokens, max_gen_len, textGenerationConfig. |
| Serializer.SamplingPrecedence | instrumentation/aws-sdk/aws-sdk-2.2/library/src/main/java/io/opentelemetry/instrumentation/awssdk/v2_2/Serializer.java:152-174 | top_p and temperature come from their top-level key when present, else from textGenerationConfig, else null. |
| Serializer.TokenReadersGiveIntText | instrumentation/aws-sdk/aws-sdk-2.2/library/src/main/java/io/opentelemetry/instrumentation/awssdk/v2_2/Serializer.java:119-188 | The three token readers only produce the decimal text of a Java int. |
| Serializer.TokenCountsParseBack | instrumentation/aws-sdk/aws-sdk-2.2/library/src/main/java/io/opentelemetry/instrumentation/awssdk/v2_2/Serializer.java:88-98 | A token count the two-argument serializer writes parses back to an int whose text it is. |
| FieldMapper.Span.SetAttribute | instrumentation/aws-sdk/aws-sdk-2.2/library/src/main/java/io/opentelemetry/instrumentation/awssdk/v2_2/FieldMapper.java:88 | The key now holds the value and nothing else changes. |
| FieldMapper.Next | instrumentation/aws-sdk/aws-sdk-2.2/library/src/main/java/io/opentelemetry/instrumentation/awssdk/v2_2/FieldMapper.java:93-101 | A throwing accessor gives null; otherwise the accessor's result. |
| FieldMapper.FieldMapper.MapField | instrumentation/aws-sdk/aws-sdk-2.2/library/src/main/java/io/opentelemetry/instrumentation/awssdk/v2_2/FieldMapper.java:67-91 | The span's attributes become those of the mapping specification, or stay unchanged when it throws. |
| FieldMapper.FieldMapper.MapFields | instrumentation/aws-sdk/aws-sdk-2.2/library/src/main/java/io/opentelemetry/instrumentation/awssdk/v2_2/FieldMapper.java:53-58 | The loop over a list of mappings ends in the state, and with the fault, of applying them in order up to the first failure. |
| FieldMapper.FieldMapper.MapToAttributes | instrumentation/aws-sdk/aws-sdk-2.2/library/src/main/java/io/opentelemetry/instrumentation/awssdk/v2_2/FieldMapper.java:48-65 | The request's own mappings are applied, then its type's, for one direction. |
| FieldMapper.FieldMapper.MapRequest | instrumentation/aws-sdk/aws-sdk-2.2/library/src/main/java/io/opentelemetry/instrumentation/awssdk/v2_2/FieldMapper.java:31-38 | The request-direction plan is applied, read from the SDK request. |
| FieldMapper.FieldMapper.MapResponse | instrumentation/aws-sdk/aws-sdk-2.2/library/src/main/java/io/opentelemetry/instrumentation/awssdk/v2_2/FieldMapper.java:40-46 | The response-direction plan is applied, read from the SDK response. |
| FieldMapper.ApplyAllAppend | instrumentation/aws-sdk/aws-sdk-2.2/library/src/main/java/io/opentelemetry/instrumentation/awssdk/v2_2/FieldMapper.java:53-64 | Running two lists is running the first, then the second unless the first failed. |
| FieldMapper.NullStopsTraversal | instrumentation/aws-sdk/aws-sdk-2.2/library/src/main/java/io/opentelemetry/instrumentation/awssdk/v2_2/FieldMapper.java:72-74 | Once the walk reaches null it stays null. |
| FieldMapper.NullTargetWritesNothing | instrumentation/aws-sdk/aws-sdk-2.2/library/src/main/java/io/opentelemetry/instrumentation/awssdk/v2_2/FieldMapper.java:77 | A path resolving to null writes nothing. |
| FieldMapper.ApplyWritesOnlyItsAttribute | instrumentation/aws-sdk/aws-sdk-2.2/library/src/main/java/io/opentelemetry/instrumentation/awssdk/v2_2/FieldMapper.java:77-90 | A mapping writes at most its own attribute, with the serializer's non-empty text, plus gen_ai.system for a gen_ai attribute; every other key is kept. |
| FieldMapper.ApplyWritesNonEmptyText | instrumentation/aws-sdk/aws-sdk-2.2/library/src/main/java/io/opentelemetry/instrumentation/awssdk/v2_2/FieldMapper.java:85-89 | A non-empty text is always written under the attribute; an empty or null text leaves the attribute as it was. |
| FieldMapper.GenAiMarksSystem | instrumentation/aws-sdk/aws-sdk-2.2/library/src/main/java/io/opentelemetry/instrumentation/awssdk/v2_2/FieldMapper.java:78-80 | A gen_ai mapping with a non-empty path never aborts, and a non-null target sets gen_ai.system to "AWS Bedrock" even when its own text is empty. |
| FieldMapper.ApplyFailsOnlyOnBytes | instrumentation/aws-sdk/aws-sdk-2.2/library/src/main/java/io/opentelemetry/instrumentation/awssdk/v2_2/FieldMapper.java:70-83 | A mapping aborts exactly when its path is empty, or when a non-gen_ai attribute resolves to a value reaching SdkBytes. |
| FieldMapper.PlanHasOnlyItsDirection | instrumentation/aws-sdk/aws-sdk-2.2/library/src/main/java/io/opentelemetry/instrumentation/awssdk/v2_2/FieldMapper.java:53-64 | A phase applies exactly the mappings of its direction, from the request and from its type. |
| FieldMapper.TableMappingReadsOneField | instrumentation/aws-sdk/aws-sdk-2.2/library/src/main/java/io/opentelemetry/instrumentation/awssdk/v2_2/FieldMapper.java:70-74 | A declared mapping reads exactly the one field its value names. |
| FieldMapper.RunStopsAtFirstFault | instrumentation/aws-sdk/aws-sdk-2.2/library/src/main/java/io/opentelemetry/instrumentation/awssdk/v2_2/FieldMapper.java:53-64 | A run fails exactly when some mapping throws after all earlier ones succeeded. |
| AwsExperimentalAttributesV1.KeysDistinct | instrumentation/aws-sdk/aws-sdk-1.11/library/src/main/java/io/opentelemetry/instrumentation/awssdk/v1_11/AwsExperimentalAttributes.java:13-32 | Every key an extractor writes is a different attribute name. |
| Attributes.PutText | instrumentation/aws-sdk/aws-sdk-1.11/library/src/main/java/io/opentelemetry/instrumentation/awssdk/v1_11/AwsSdkExperimentalAttributesExtractor.java:131-140 | A null value leaves the attributes as they were; otherwise the key holds the text and no other key changes. |
| Attributes.AttributesBuilder.Put | instrumentation/aws-sdk/aws-sdk-1.11/library/src/main/java/io/opentelemetry/instrumentation/awssdk/v1_11/AwsSdkExperimentalAttributesExtractor.java:44-45 | The builder's attributes become PutText of the old ones. |
| Attributes.AttributesBuilder.PutLong | instrumentation/aws-sdk/aws-sdk-1.11/library/src/main/java/io/opentelemetry/instrumentation/awssdk/v1_11/BedrockAttributesExtractor.java:232 | An int is recorded as a long under the key. |
| Attributes.AttributesBuilder.PutDouble | instrumentation/aws-sdk/aws-sdk-1.11/library/src/main/java/io/opentelemetry/instrumentation/awssdk/v1_11/BedrockRuntimeClaudeModel.java:50 | A double is recorded under the key. |
| RequestAccess.Probe | instrumentation/aws-sdk/aws-sdk-1.11/library/src/main/java/io/opentelemetry/instrumentation/awssdk/v1_11/RequestAccess.java:189-220 | An accessor is in the profile exactly when the class has a public method of its probed name with its exact return type. |
| RequestAccess.InvokeOrNull | instrumentation/aws-sdk/aws-sdk-1.11/library/src/main/java/io/opentelemetry/instrumentation/awssdk/v1_11/RequestAccess.java:158-167 | An absent accessor or a throwing call gives null; otherwise the value returned. |
| RequestAccess.Invoke | instrumentation/aws-sdk/aws-sdk-1.11/library/src/main/java/io/opentelemetry/instrumentation/awssdk/v1_11/RequestAccess.java:25-28 | A getter gives a text exactly when the accessor is present and its call returns one; the text is the one returned. |
| RequestAccess.Get | instrumentation/aws-sdk/aws-sdk-1.11/library/src/main/java/io/opentelemetry/instrumentation/awssdk/v1_11/RequestAccess.java:113-155 | A getter on a null object throws NullPointerException exactly when it has no null guard; the five guarded getters give null. |
| RequestAccess.BodyOf | instrumentation/aws-sdk/aws-sdk-1.11/library/src/main/java/io/opentelemetry/instrumentation/awssdk/v1_11/RequestAccess.java:91-98 | getBody gives a buffer exactly when the accessor is present and its call returns one. |
| RequestAccess.RequestAccessCache.Lookup | instrumentation/aws-sdk/aws-sdk-1.11/library/src/main/java/io/opentelemetry/instrumentation/awssdk/v1_11/RequestAccess.java:16-22 | It returns the class's probe, stores it on first use, never changes a stored profile, and keeps every stored profile equal to its probe. |
| RequestAccess.RequestAccessCache.GetText | instrumentation/aws-sdk/aws-sdk-1.11/library/src/main/java/io/opentelemetry/instrumentation/awssdk/v1_11/RequestAccess.java:25-155 | It returns Get(obj, a), and only the object's class is added to the cache. |
| RequestAccess.RequestAccessCache.GetBody | instrumentation/aws-sdk/aws-sdk-1.11/library/src/main/java/io/opentelemetry/instrumentation/awssdk/v1_11/RequestAccess.java:91-98 | A null object throws; otherwise it returns BodyOf(obj), every failure caught as null. |
| RequestAccess.RenamedAccessors | instrumentation/aws-sdk/aws-sdk-1.11/library/src/main/java/io/opentelemetry/instrumentation/awssdk/v1_11/RequestAccess.java:190-208 | Exactly three accessors probe a name other than "get" plus their own: the secret ARN, the event mapping UUID and the consumer name. |
| RequestAccess.MethodNamesDistinct | instrumentation/aws-sdk/aws-sdk-1.11/library/src/main/java/io/opentelemetry/instrumentation/awssdk/v1_11/RequestAccess.java:190-208 | No two accessors probe the same method name. |
| RequestAccess.ProbeNeedsExactSignature | instrumentation/aws-sdk/aws-sdk-1.11/library/src/main/java/io/opentelemetry/instrumentation/awssdk/v1_11/RequestAccess.java:212-220 | A method of the right name with the wrong return type does not make an accessor; methods of other names never matter. |
| RequestAccess.GettersNeverThrowOnObjects | instrumentation/aws-sdk/aws-sdk-1.11/library/src/main/java/io/opentelemetry/instrumentation/awssdk/v1_11/RequestAccess.java:158-167 | On a non-null object every getter completes normally, and a text implies the accessor is present. |
| ByteBuffers.ByteBuffer.Remaining | instrumentation/aws-sdk/aws-sdk-1.11/library/src/main/java/io/opentelemetry/instrumentation/awssdk/v1_11/BedrockRuntimeClaudeModel.java:37 | remaining() is the distance from the position to the limit. |
| ByteBuffers.ByteBuffer.AsReadOnlyBuffer | instrumentation/aws-sdk/aws-sdk-1.11/library/src/main/java/io/opentelemetry/instrumentation/awssdk/v1_11/BedrockRuntimeClaudeModel.java:36 | A new read-only buffer over the same array, with the same position and limit. |
| ByteBuffers.ByteBuffer.Get | instrumentation/aws-sdk/aws-sdk-1.11/library/src/main/java/io/opentelemetry/instrumentation/awssdk/v1_11/BedrockRuntimeClaudeModel.java:38 | The destination receives the bytes from the position on, and the position advances past them. |
| ByteBuffers.ReadRemaining | instrumentation/aws-sdk/aws-sdk-1.11/library/src/main/java/io/opentelemetry/instrumentation/awssdk/v1_11/BedrockRuntimeClaudeModel.java:35-39 | Reading through a read-only view yields exactly the body's unread bytes. |
| AwsResourceType.KindsPairKeysWithGetters | instrumentation/aws-sdk/aws-sdk-1.11/library/src/main/java/io/opentelemetry/instrumentation/awssdk/v1_11/AwsResourceType.java:15-37 | Each kind pairs its own id key with its own getter, and different kinds share neither. |
| BedrockAgentOperations.OperationFor | instrumentation/aws-sdk/aws-sdk-1.11/library/src/main/java/io/opentelemetry/instrumentation/awssdk/v1_11/BedrockAgentOperation.java:20-25 | The operation returned records the ids of the given kind. |
| BedrockAgentOperations.RequestNamesDistinct | instrumentation/aws-sdk/aws-sdk-1.11/library/src/main/java/io/opentelemetry/instrumentation/awssdk/v1_11/BedrockAgentOperation.java:38-60 | No request class name is listed twice, within or across the three operations. |
| BedrockAgentOperations.ResponseNamesDistinct | instrumentation/aws-sdk/aws-sdk-1.11/library/src/main/java/io/opentelemetry/instrumentation/awssdk/v1_11/BedrockAgentOperation.java:62-84 | No response class name is listed twice, within or across the three operations. |
| BedrockAgentOperations.AgentNames | instrumentation/aws-sdk/aws-sdk-1.11/library/src/main/java/io/opentelemetry/instrumentation/awssdk/v1_11/BedrockAgentOperation.java:38-84 | The agent operation lists 18 distinct requests, and its results mirror them in order. |
| BedrockAgentOperations.DataSourceNames | instrumentation/aws-sdk/aws-sdk-1.11/library/src/main/java/io/opentelemetry/instrumentation/awssdk/v1_11/BedrockDataSourceOperation.java:37-45 | The data source operation lists Delete, Get and UpdateDataSourceRequest, mirrored by its results. |
| BedrockAgentOperations.KnowledgeBaseNames | instrumentation/aws-sdk/aws-sdk-1.11/library/src/main/java/io/opentelemetry/instrumentation/awssdk/v1_11/BedrockKnowledgeBaseOperation.java:35-54 | The knowledge base operation lists 8 distinct requests, two of them data source requests, and one result. |
| BedrockAgentOperations.Recorded | instrumentation/aws-sdk/aws-sdk-1.11/library/src/main/java/io/opentelemetry/instrumentation/awssdk/v1_11/BedrockAgentOperation.java:21-36 | Only the kind's id key may change; it is set exactly when the getter yields an id, and then to that id. |
| BedrockAgentOperations.Record | instrumentation/aws-sdk/aws-sdk-1.11/library/src/main/java/io/opentelemetry/instrumentation/awssdk/v1_11/BedrockKnowledgeBaseOperation.java:20-33 | onStart and onEnd leave the attributes of Recorded, adding only the object's class to the cache. |
| AwsAttributeMap.GetRequestType | instrumentation/aws-sdk/aws-sdk-1.11/library/src/main/java/io/opentelemetry/instrumentation/awssdk/v1_11/AwsAttributeMap.java:60-62 | A name has a kind exactly when the static block puts it. |
| AwsAttributeMap.GetResponseType | instrumentation/aws-sdk/aws-sdk-1.11/library/src/main/java/io/opentelemetry/instrumentation/awssdk/v1_11/AwsAttributeMap.java:64-66 | A name has a kind exactly when the static block puts it. |
| AwsAttributeMap.RequestPutsFollowOperations | instrumentation/aws-sdk/aws-sdk-1.11/library/src/main/java/io/opentelemetry/instrumentation/awssdk/v1_11/AwsAttributeMap.java:21-51 | The request puts are the agent, data source and knowledge base operations' lists, each tagged with its kind. |
| AwsAttributeMap.RequestTypeIsTheListingOperation | instrumentation/aws-sdk/aws-sdk-1.11/library/src/main/java/io/opentelemetry/instrumentation/awssdk/v1_11/AwsAttributeMap.java:21-62 | A request name has kind t exactly when the operation of kind t lists it. |
| AwsAttributeMap.ResponseKeysDistinct | instrumentation/aws-sdk/aws-sdk-1.11/library/src/main/java/io/opentelemetry/instrumentation/awssdk/v1_11/AwsAttributeMap.java:52-57 | No response name is put twice. |
| AwsAttributeMap.ResponseTypeWithinListingOperation | instrumentation/aws-sdk/aws-sdk-1.11/library/src/main/java/io/opentelemetry/instrumentation/awssdk/v1_11/AwsAttributeMap.java:52-66 | Every response name with a kind is listed by the operation of that kind. |
| AwsAttributeMap.ResponseTableIsPartial | instrumentation/aws-sdk/aws-sdk-1.11/library/src/main/java/io/opentelemetry/instrumentation/awssdk/v1_11/AwsAttributeMap.java:52-57 | GetAgentResult is listed by the agent operation yet has no kind in the table. |
| AwsAttributeMap.DataSourceListingsAreKnowledgeBaseRequests | instrumentation/aws-sdk/aws-sdk-1.11/library/src/main/java/io/opentelemetry/instrumentation/awssdk/v1_11/AwsAttributeMap.java:44-50 | CreateDataSourceRequest and ListDataSourcesRequest have the knowledge base kind. |
| Collectors.ToMap | instrumentation/aws-sdk/aws-sdk-1.11/library/src/main/java/io/opentelemetry/instrumentation/awssdk/v1_11/BedrockAttributesExtractor.java:78 | toMap succeeds exactly when no key repeats (IllegalStateException otherwise), mapping every key to its own value. |
| Collectors.PutAll | instrumentation/aws-sdk/aws-sdk-1.11/library/src/main/java/io/opentelemetry/instrumentation/awssdk/v1_11/AwsAttributeMap.java:17-58 | Every key put is mapped; without repeats each is mapped to its own value. |
| Collectors.ToMapTagged | instrumentation/aws-sdk/aws-sdk-1.11/library/src/main/java/io/opentelemetry/instrumentation/awssdk/v1_11/BedrockAttributesExtractor.java:56-78 | Building from three disjoint tagged lists succeeds and maps each name to its own list's value. |
| AwsCalls.ServiceOf | instrumentation/aws-sdk/aws-sdk-1.11/library/src/main/java/io/opentelemetry/instrumentation/awssdk/v1_11/AwsSdkExperimentalAttributesExtractor.java:56-86 | The switch takes each Bedrock branch exactly for that service name. |
| AwsCalls.LastSegment | instrumentation/aws-sdk/aws-sdk-1.11/library/src/main/java/io/opentelemetry/instrumentation/awssdk/v1_11/BedrockAttributesExtractor.java:128-136 | For any class name, it is the text after the last dot; only an unsplittable name fails. |
| AwsCalls.FoldCaseIdempotent | instrumentation/aws-sdk/aws-sdk-1.11/library/src/main/java/io/opentelemetry/instrumentation/awssdk/v1_11/BedrockAttributesExtractor.java:228 | A folded name folds to itself, so the all-lower-case spelling of a header name is one of its spellings. |
| AwsCalls.HeaderGet | instrumentation/aws-sdk/aws-sdk-1.11/library/src/main/java/io/opentelemetry/instrumentation/awssdk/v1_11/BedrockAttributesExtractor.java:229-236 | containsKey and get on the SDK's header map find a header exactly when some name equals the asked one up to letter case, and then give that header's value. |
| AwsCalls.HeaderGetIgnoresCase | instrumentation/aws-sdk/aws-sdk-1.11/library/src/main/java/io/opentelemetry/instrumentation/awssdk/v1_11/BedrockAttributesExtractor.java:229-236 | Two names that differ only in letter case find the same header. |
| ExperimentalExtraction.AwsSdkExperimentalAttributesExtractor.OnStart | instrumentation/aws-sdk/aws-sdk-1.11/library/src/main/java/io/opentelemetry/instrumentation/awssdk/v1_11/AwsSdkExperimentalAttributesExtractor.java:43-87 | Attributes and exception are those of the start specification; the service name is stored exactly when the endpoint was read. |
| ExperimentalExtraction.AwsSdkExperimentalAttributesExtractor.OnEnd | instrumentation/aws-sdk/aws-sdk-1.11/library/src/main/java/io/opentelemetry/instrumentation/awssdk/v1_11/AwsSdkExperimentalAttributesExtractor.java:90-129 | Attributes and exception are those of the end specification, using the service name of the latest start. |
| ExperimentalExtraction.AwsSdkExperimentalAttributesExtractor.Set | instrumentation/aws-sdk/aws-sdk-1.11/library/src/main/java/io/opentelemetry/instrumentation/awssdk/v1_11/AwsSdkExperimentalAttributesExtractor.java:131-140 | setAttribute: the getter's value is put under the key, and nothing changes when it is null. |
| ExperimentalExtraction.AwsSdkExperimentalAttributesExtractor.SetResourceNames | instrumentation/aws-sdk/aws-sdk-1.11/library/src/main/java/io/opentelemetry/instrumentation/awssdk/v1_11/AwsSdkExperimentalAttributesExtractor.java:50-54 | The five resource-name getters of onStart, each written as setAttribute writes it, in source order. |
| ExperimentalExtraction.AwsSdkExperimentalAttributesExtractor.SetBedrockIds | instrumentation/aws-sdk/aws-sdk-1.11/library/src/main/java/io/opentelemetry/instrumentation/awssdk/v1_11/AwsSdkExperimentalAttributesExtractor.java:56-86 | The service switch of onStart writes exactly what the start specification gives for that service. |
| ExperimentalExtraction.AwsSdkExperimentalAttributesExtractor.SetResourceId | instrumentation/aws-sdk/aws-sdk-1.11/library/src/main/java/io/opentelemetry/instrumentation/awssdk/v1_11/AwsSdkExperimentalAttributesExtractor.java:61-68 | Nothing is written for an unclassified call. A classified one has the id its kind's getter yields put under its kind's key. The same step serves onEnd at lines 113-117. |
| ExperimentalExtraction.AwsSdkExperimentalAttributesExtractor.SetModel | instrumentation/aws-sdk/aws-sdk-1.11/library/src/main/java/io/opentelemetry/instrumentation/awssdk/v1_11/AwsSdkExperimentalAttributesExtractor.java:75-83 | Only an InvokeModelRequest writes the system "aws_bedrock" and the model id. Every other runtime request writes nothing. |
| ExperimentalExtraction.BedrockKeysAvoidCallKeys | instrumentation/aws-sdk/aws-sdk-1.11/library/src/main/java/io/opentelemetry/instrumentation/awssdk/v1_11/AwsSdkExperimentalAttributesExtractor.java:61-68 | A resource id never overwrites aws.agent, aws.endpoint or aws.requestId. |
| ExperimentalExtraction.StartWritesKeepComponent | instrumentation/aws-sdk/aws-sdk-1.11/library/src/main/java/io/opentelemetry/instrumentation/awssdk/v1_11/AwsSdkExperimentalAttributesExtractor.java:50-86 | Neither the resource names nor the service switch touch aws.agent. |
| ExperimentalExtraction.StartFaultsAreNullDereferences | instrumentation/aws-sdk/aws-sdk-1.11/library/src/main/java/io/opentelemetry/instrumentation/awssdk/v1_11/AwsSdkExperimentalAttributesExtractor.java:43-87 | onStart throws NullPointerException exactly for a null endpoint, original request or service name; aws.agent is always "java-aws-sdk". |
| ExperimentalExtraction.AgentRequestRecordsItsResourceId | instrumentation/aws-sdk/aws-sdk-1.11/library/src/main/java/io/opentelemetry/instrumentation/awssdk/v1_11/AwsSdkExperimentalAttributesExtractor.java:60-69 | On the agent service, a request an operation of kind t lists gets t's id recorded under t's key. |
| ExperimentalExtraction.UnlistedAgentRequestRecordsNoId | instrumentation/aws-sdk/aws-sdk-1.11/library/src/main/java/io/opentelemetry/instrumentation/awssdk/v1_11/AwsSdkExperimentalAttributesExtractor.java:60-69 | On the agent service, an unlisted request records only the call and resource attributes. |
| ExperimentalExtraction.InvokeModelSystemName | instrumentation/aws-sdk/aws-sdk-1.11/library/src/main/java/io/opentelemetry/instrumentation/awssdk/v1_11/AwsSdkExperimentalAttributesExtractor.java:75-83 | InvokeModel records system "aws_bedrock" and, when present, the model id, without throwing. |
| ExperimentalExtraction.EndRecordsRequestId | instrumentation/aws-sdk/aws-sdk-1.11/library/src/main/java/io/opentelemetry/instrumentation/awssdk/v1_11/AwsSdkExperimentalAttributesExtractor.java:96-107 | A non-null request id is always recorded; onEnd throws only when a response object meets a null service name. |
| ExperimentalExtraction.AgentResponseIds | instrumentation/aws-sdk/aws-sdk-1.11/library/src/main/java/io/opentelemetry/instrumentation/awssdk/v1_11/AwsSdkExperimentalAttributesExtractor.java:111-118 | A response id is recorded only for a class the table classifies, which its operation lists; GetAgentResult records none. |
| BedrockRuntimeModels.ReadTree | instrumentation/aws-sdk/aws-sdk-1.11/library/src/main/java/io/opentelemetry/instrumentation/awssdk/v1_11/BedrockRuntimeClaudeModel.java:40 | It fails with JsonProcessingException exactly when the parser rejects the bytes. |
| BedrockRuntimeModels.NewJsonObject | instrumentation/aws-sdk/aws-sdk-1.11/library/src/main/java/io/opentelemetry/instrumentation/awssdk/v1_11/BedrockRuntimeLlamaModel.java:37 | It succeeds exactly for a top-level JSON object; otherwise JSONException. |
| BedrockRuntimeModels.Payload | instrumentation/aws-sdk/aws-sdk-1.11/library/src/main/java/io/opentelemetry/instrumentation/awssdk/v1_11/BedrockRuntimeLlamaModel.java:31-36 | A null object or body throws NullPointerException; otherwise it is the body's unread bytes. |
| BedrockRuntimeModels.ReadPayload | instrumentation/aws-sdk/aws-sdk-1.11/library/src/main/java/io/opentelemetry/instrumentation/awssdk/v1_11/BedrockRuntimeLlamaModel.java:31-36 | Reading the body yields Payload. |
| BedrockRuntimeModels.ClaudeOnStart | instrumentation/aws-sdk/aws-sdk-1.11/library/src/main/java/io/opentelemetry/instrumentation/awssdk/v1_11/BedrockRuntimeClaudeModel.java:31-56 | Attributes and exception are Claude's start specification on the body bytes. |
| BedrockRuntimeModels.ClaudeOnEnd | instrumentation/aws-sdk/aws-sdk-1.11/library/src/main/java/io/opentelemetry/instrumentation/awssdk/v1_11/BedrockRuntimeClaudeModel.java:59-77 | Attributes and exception are Claude's end specification on the body bytes. |
| BedrockRuntimeModels.LlamaOnStart | instrumentation/aws-sdk/aws-sdk-1.11/library/src/main/java/io/opentelemetry/instrumentation/awssdk/v1_11/BedrockRuntimeLlamaModel.java:27-50 | Attributes and exception are Llama's start specification, earlier puts kept on a failing read. getInt and getDouble accept exactly the texts Integer.parseInt and Double.parseDouble accept. |
| BedrockRuntimeModels.LlamaOnEnd | instrumentation/aws-sdk/aws-sdk-1.11/library/src/main/java/io/opentelemetry/instrumentation/awssdk/v1_11/BedrockRuntimeLlamaModel.java:54-71 | Attributes and exception are Llama's end specification. |
| BedrockRuntimeModels.TitanOnStart | instrumentation/aws-sdk/aws-sdk-1.11/library/src/main/java/io/opentelemetry/instrumentation/awssdk/v1_11/BedrockRuntimeTitanModel.java:31-56 | Attributes and exception are Titan's start specification. A text field is read as Jackson reads it: asInt through parseAsInt, asDouble through Double.parseDouble. |
| BedrockRuntimeModels.TitanOnEnd | instrumentation/aws-sdk/aws-sdk-1.11/library/src/main/java/io/opentelemetry/instrumentation/awssdk/v1_11/BedrockRuntimeTitanModel.java:59-82 | Attributes and exception are Titan's end specification. |
| BedrockRuntimeModels.OnStart | instrumentation/aws-sdk/aws-sdk-1.11/library/src/main/java/io/opentelemetry/instrumentation/awssdk/v1_11/BedrockAttributesExtractor.java:170-173 | The virtual call behaves as the family's start specification. |
| BedrockRuntimeModels.OnEnd | instrumentation/aws-sdk/aws-sdk-1.11/library/src/main/java/io/opentelemetry/instrumentation/awssdk/v1_11/BedrockAttributesExtractor.java:244-247 | The virtual call behaves as the family's end specification. |
| BedrockRuntimeModels.RuntimeKeysDistinct | instrumentation/aws-sdk/aws-sdk-1.11/library/src/main/java/io/opentelemetry/instrumentation/awssdk/v1_11/BedrockRuntimeClaudeModel.java:43-75 | The three sampling keys and the finish reason key are four different attributes. |
| BedrockRuntimeModels.StartWritesOnlySamplingKeys | instrumentation/aws-sdk/aws-sdk-1.11/library/src/main/java/io/opentelemetry/instrumentation/awssdk/v1_11/BedrockRuntimeTitanModel.java:31-56 | A start hook changes only the sampling keys, however it ends. |
| BedrockRuntimeModels.EndWritesOnlyFinishReason | instrumentation/aws-sdk/aws-sdk-1.11/library/src/main/java/io/opentelemetry/instrumentation/awssdk/v1_11/BedrockRuntimeTitanModel.java:59-82 | An end hook changes only the finish reason key, however it ends. |
| BedrockRuntimeModels.JacksonDecodersFailOnlyBeforeRecording | instrumentation/aws-sdk/aws-sdk-1.11/library/src/main/java/io/opentelemetry/instrumentation/awssdk/v1_11/BedrockRuntimeClaudeModel.java:31-77 | Claude and Titan throw exactly when the body is missing or not JSON, and then have recorded nothing. |
| BedrockRuntimeModels.HookFaults | instrumentation/aws-sdk/aws-sdk-1.11/library/src/main/java/io/opentelemetry/instrumentation/awssdk/v1_11/BedrockRuntimeLlamaModel.java:27-71 | A hook's exception is a null body, malformed text or an org.json read failure. |
| BedrockRuntimeModels.LlamaFaultsAreJsonFormat | instrumentation/aws-sdk/aws-sdk-1.11/library/src/main/java/io/opentelemetry/instrumentation/awssdk/v1_11/BedrockRuntimeLlamaModel.java:38-70 | Every exception Llama raises after parsing is JSONException. |
| BedrockRuntimeModels.ClaudeMaxTokensPrecedence | instrumentation/aws-sdk/aws-sdk-1.11/library/src/main/java/io/opentelemetry/instrumentation/awssdk/v1_11/BedrockRuntimeClaudeModel.java:41-47 | max_tokens_to_sample when it is an int, else max_tokens when that is, else nothing. |
| BedrockRuntimeModels.ClaudeSamplingNeedsFraction | instrumentation/aws-sdk/aws-sdk-1.11/library/src/main/java/io/opentelemetry/instrumentation/awssdk/v1_11/BedrockRuntimeClaudeModel.java:48-55 | temperature and top_p are recorded only when they are double nodes. |
| BedrockRuntimeModels.ClaudeFinishReason | instrumentation/aws-sdk/aws-sdk-1.11/library/src/main/java/io/opentelemetry/instrumentation/awssdk/v1_11/BedrockRuntimeClaudeModel.java:73-76 | The finish reason is stop_reason when it is textual, and nothing otherwise. |
| BedrockRuntimeModels.LlamaStartCompletesIffReadable | instrumentation/aws-sdk/aws-sdk-1.11/library/src/main/java/io/opentelemetry/instrumentation/awssdk/v1_11/BedrockRuntimeLlamaModel.java:38-49 | The start hook completes exactly when every present field is readable, and then has recorded each. Readable means what Integer.parseInt and Double.parseDouble accept. |
| BedrockRuntimeModels.LlamaKeepsEarlierPuts | instrumentation/aws-sdk/aws-sdk-1.11/library/src/main/java/io/opentelemetry/instrumentation/awssdk/v1_11/BedrockRuntimeLlamaModel.java:38-45 | An unreadable temperature throws after max_gen_len was recorded, which stays recorded. |
| BedrockRuntimeModels.LlamaFinishReason | instrumentation/aws-sdk/aws-sdk-1.11/library/src/main/java/io/opentelemetry/instrumentation/awssdk/v1_11/BedrockRuntimeLlamaModel.java:66-70 | A stop_reason getString cannot read ends the hook with JSONException. |
| BedrockRuntimeModels.TitanNeedsConfigObject | instrumentation/aws-sdk/aws-sdk-1.11/library/src/main/java/io/opentelemetry/instrumentation/awssdk/v1_11/BedrockRuntimeTitanModel.java:41-55 | Without an object textGenerationConfig, nothing is recorded. |
| BedrockRuntimeModels.TitanRecordsPresentFields | instrumentation/aws-sdk/aws-sdk-1.11/library/src/main/java/io/opentelemetry/instrumentation/awssdk/v1_11/BedrockRuntimeTitanModel.java:41-55 | Every sampling field of the config object is recorded, read leniently. A text goes through parseAsInt (trimmed, "+" dropped, non-digit text cast from the double) or through Double.parseDouble with 0.0 as the fallback. |
| BedrockRuntimeModels.TitanFinishReasonFromFirstResult | instrumentation/aws-sdk/aws-sdk-1.11/library/src/main/java/io/opentelemetry/instrumentation/awssdk/v1_11/BedrockRuntimeTitanModel.java:73-81 | The finish reason comes from the first result alone. |
| BedrockExtraction.Lookup | instrumentation/aws-sdk/aws-sdk-1.11/library/src/main/java/io/opentelemetry/instrumentation/awssdk/v1_11/BedrockAttributesExtractor.java:135-137 | A name is found exactly when the registry holds it. |
| BedrockExtraction.RequestRegistryClassifies | instrumentation/aws-sdk/aws-sdk-1.11/library/src/main/java/io/opentelemetry/instrumentation/awssdk/v1_11/BedrockAttributesExtractor.java:56-78 | The request registry builds and maps exactly each operation's request names to it. |
| BedrockExtraction.ResponseRegistryClassifies | instrumentation/aws-sdk/aws-sdk-1.11/library/src/main/java/io/opentelemetry/instrumentation/awssdk/v1_11/BedrockAttributesExtractor.java:80-103 | The response registry builds and maps exactly each operation's response names to it. |
| BedrockExtraction.ModelRegistryClassifies | instrumentation/aws-sdk/aws-sdk-1.11/library/src/main/java/io/opentelemetry/instrumentation/awssdk/v1_11/BedrockAttributesExtractor.java:105-121 | The model registry builds and maps each family's names to its decoder. |
| BedrockExtraction.RequestRegistryAgreesWithAttributeMap | instrumentation/aws-sdk/aws-sdk-1.11/library/src/main/java/io/opentelemetry/instrumentation/awssdk/v1_11/BedrockAttributesExtractor.java:56-78 | The request registry and the experimental extractor's request table classify every name alike. |
| BedrockExtraction.ResponseRegistryExtendsAttributeMap | instrumentation/aws-sdk/aws-sdk-1.11/library/src/main/java/io/opentelemetry/instrumentation/awssdk/v1_11/BedrockAttributesExtractor.java:80-103 | The response registry agrees with the table where it classifies, and also holds GetAgentResult. |
| BedrockExtraction.FamilyIsTextBeforeFirstDash | instrumentation/aws-sdk/aws-sdk-1.11/library/src/main/java/io/opentelemetry/instrumentation/awssdk/v1_11/BedrockAttributesExtractor.java:165 | The family of "prefix-rest" is the prefix. |
| BedrockExtraction.ClaudeIdsReachClaude | instrumentation/aws-sdk/aws-sdk-1.11/library/src/main/java/io/opentelemetry/instrumentation/awssdk/v1_11/BedrockAttributesExtractor.java:165-167 | A Claude model id reaches the Claude decoder. |
| BedrockExtraction.UnlistedFamiliesReachNoDecoder | instrumentation/aws-sdk/aws-sdk-1.11/library/src/main/java/io/opentelemetry/instrumentation/awssdk/v1_11/BedrockAttributesExtractor.java:166-168 | A family no decoder lists reaches no decoder. |
| BedrockExtraction.RuntimeStartOnlyForInvokeModel | instrumentation/aws-sdk/aws-sdk-1.11/library/src/main/java/io/opentelemetry/instrumentation/awssdk/v1_11/BedrockAttributesExtractor.java:156-160 | A runtime call other than InvokeModel records nothing and keeps the stored family. |
| BedrockExtraction.InvokeModelStoresFamily | instrumentation/aws-sdk/aws-sdk-1.11/library/src/main/java/io/opentelemetry/instrumentation/awssdk/v1_11/BedrockAttributesExtractor.java:161-165 | InvokeModel records the system and the id, and stores the family before any decoder runs. |
| BedrockExtraction.InvokeModelWithoutIdFails | instrumentation/aws-sdk/aws-sdk-1.11/library/src/main/java/io/opentelemetry/instrumentation/awssdk/v1_11/BedrockAttributesExtractor.java:161-165 | Without a model id it throws NullPointerException after recording the system. |
| BedrockExtraction.EndWithoutResponseObjectDoesNothing | instrumentation/aws-sdk/aws-sdk-1.11/library/src/main/java/io/opentelemetry/instrumentation/awssdk/v1_11/BedrockAttributesExtractor.java:195-197 | Without a response object the end hook does nothing. |
| BedrockExtraction.TokenCountsRoundTrip | instrumentation/aws-sdk/aws-sdk-1.11/library/src/main/java/io/opentelemetry/instrumentation/awssdk/v1_11/BedrockAttributesExtractor.java:229-238 | Token count headers holding an int's decimal text are recorded as those numbers, input before output, under any spelling of their names that differs only in letter case. |
| BedrockExtraction.LowerCaseTokenHeadersRead | instrumentation/aws-sdk/aws-sdk-1.11/library/src/main/java/io/opentelemetry/instrumentation/awssdk/v1_11/BedrockAttributesExtractor.java:228-238 | Headers that arrive under the all-lower-case names are found by containsKey and get and recorded. |
| BedrockExtraction.RecordTokenCounts | instrumentation/aws-sdk/aws-sdk-1.11/library/src/main/java/io/opentelemetry/instrumentation/awssdk/v1_11/BedrockAttributesExtractor.java:229-238 | The input count, then the output count, each put as a long when its header is present. A count that does not parse stops with NumberFormatException and nothing more is recorded. |
| BedrockExtraction.MalformedInputTokenCountFails | instrumentation/aws-sdk/aws-sdk-1.11/library/src/main/java/io/opentelemetry/instrumentation/awssdk/v1_11/BedrockAttributesExtractor.java:229-233 | An input count that is not an int throws NumberFormatException before anything is recorded, whatever the letter case of its header name. |
| BedrockExtraction.BedrockAttributesExtractor.OnStart | instrumentation/aws-sdk/aws-sdk-1.11/library/src/main/java/io/opentelemetry/instrumentation/awssdk/v1_11/BedrockAttributesExtractor.java:125-186 | The service name is stored first; attributes, exception and model family follow the start specification. |
| BedrockExtraction.BedrockAttributesExtractor.StartRuntime | instrumentation/aws-sdk/aws-sdk-1.11/library/src/main/java/io/opentelemetry/instrumentation/awssdk/v1_11/BedrockAttributesExtractor.java:156-181 | The InvokeModel branch follows its specification. |
| BedrockExtraction.BedrockAttributesExtractor.OnEnd | instrumentation/aws-sdk/aws-sdk-1.11/library/src/main/java/io/opentelemetry/instrumentation/awssdk/v1_11/BedrockAttributesExtractor.java:189-262 | The end specification, read with the latest start's service name and family. In the runtime branch, token headers are found whatever their letter case. |
| BedrockExtraction.BedrockAttributesExtractor.EndRuntime | instrumentation/aws-sdk/aws-sdk-1.11/library/src/main/java/io/opentelemetry/instrumentation/awssdk/v1_11/BedrockAttributesExtractor.java:225-255 | The runtime branch of onEnd follows its specification. The token headers are looked up ignoring letter case, as the SDK's header map does. |
| BedrockExtraction.SetText | instrumentation/aws-sdk/aws-sdk-1.11/library/src/main/java/io/opentelemetry/instrumentation/awssdk/v1_11/BedrockAttributesExtractor.java:264-273 | The getter's value is put under the key, or nothing when it is null. |
| CoralAttributesGetter.ToUpper | instrumentation/amazon-coral/coral-1.1/javaagent/src/main/java/io/opentelemetry/javaagent/instrumentation/coral/CoralAttributesGetter.java:31 | Lower-case ASCII letters become upper case; every other character is unchanged. |
| CoralAttributesGetter.GetMethodName | instrumentation/amazon-coral/coral-1.1/javaagent/src/main/java/io/opentelemetry/javaagent/instrumentation/coral/CoralAttributesGetter.java:24-35 | The operation name wins when present; a missing headers attribute then throws NullPointerException. |
| CoralAttributesGetter.HeaderFallback | instrumentation/amazon-coral/coral-1.1/javaagent/src/main/java/io/opentelemetry/javaagent/instrumentation/coral/CoralAttributesGetter.java:27-33 | The header yields a name exactly when it holds text, capitalized; an empty or absent header yields null. |
| CoralAttributesGetter.CapitalizeIdempotent | instrumentation/amazon-coral/coral-1.1/javaagent/src/main/java/io/opentelemetry/javaagent/instrumentation/coral/CoralAttributesGetter.java:31 | Capitalizing twice changes nothing more. |
| CoralAttributesGetter.HeaderNameAgreesWithOperationName | instrumentation/amazon-coral/coral-1.1/javaagent/src/main/java/io/opentelemetry/javaagent/instrumentation/coral/CoralAttributesGetter.java:24-35 | A header-derived name starts with no lower-case letter and is returned unchanged when set as the operation name. |
| CoralServerAttributes.OnStart | instrumentation/amazon-coral/coral-1.1/javaagent/src/main/java/io/opentelemetry/javaagent/instrumentation/coral/CoralServerAttributesExtractor.java:41-62 | Attributes and exception are those of the start specification. |
| CoralServerAttributes.OnEnd | instrumentation/amazon-coral/coral-1.1/javaagent/src/main/java/io/opentelemetry/javaagent/instrumentation/coral/CoralServerAttributesExtractor.java:64-75 | Attributes and exception are those of the end specification. |
| CoralServerAttributes.StartKeysDistinct | instrumentation/amazon-coral/coral-1.1/javaagent/src/main/java/io/opentelemetry/javaagent/instrumentation/coral/CoralServerAttributesExtractor.java:45-61 | The twelve start keys are distinct, and none is the status key. |
| CoralServerAttributes.ServerStartRecordsEachAttribute | instrumentation/amazon-coral/coral-1.1/javaagent/src/main/java/io/opentelemetry/javaagent/instrumentation/coral/CoralServerAttributesExtractor.java:41-62 | onStart completes exactly when the method name is readable; each key then holds its attribute or keeps its value, and no other key changes. |
| CoralServerAttributes.StartWritesFollowTable | instrumentation/amazon-coral/coral-1.1/javaagent/src/main/java/io/opentelemetry/javaagent/instrumentation/coral/CoralServerAttributesExtractor.java:47-61 | The chain of writes is internalSet of each key/value pair in turn. |
| CoralServerAttributes.AddressAndMethodUnderTwoKeys | instrumentation/amazon-coral/coral-1.1/javaagent/src/main/java/io/opentelemetry/javaagent/instrumentation/coral/CoralServerAttributesExtractor.java:47-61 | The host is written under server.address and http.url; the method name under code.function and rpc.method. |
| CoralServerAttributes.ServerStartFailsAfterNamespace | instrumentation/amazon-coral/coral-1.1/javaagent/src/main/java/io/opentelemetry/javaagent/instrumentation/coral/CoralServerAttributesExtractor.java:43-47 | When the method name throws, only the code namespace has been written. |
| CoralServerAttributes.ServerEndRecordsStatus | instrumentation/amazon-coral/coral-1.1/javaagent/src/main/java/io/opentelemetry/javaagent/instrumentation/coral/CoralServerAttributesExtractor.java:71-74 | onEnd records the status widened to a long and nothing else; a null response throws. |
| CoralServerAttributes.PutEachHolds | instrumentation/amazon-coral/coral-1.1/javaagent/src/main/java/io/opentelemetry/javaagent/instrumentation/coral/CoralServerAttributesExtractor.java:47-61 | After puts to distinct keys, each key holds its own pair's value. |
| CoralServerAttributes.PutEachSkips | instrumentation/amazon-coral/coral-1.1/javaagent/src/main/java/io/opentelemetry/javaagent/instrumentation/coral/CoralServerAttributesExtractor.java:47-61 | A key no pair names keeps its value. |
| CoralSpanStatus.IsErrorByStatusClass | instrumentation/amazon-coral/coral-client-1.1/javaagent/src/main/java/io/opentelemetry/javaagent/instrumentation/coralclient/CoralSpanStatusExtractor.java:49-54 | isError holds exactly when the hundreds digit is not 1-4. |
| CoralSpanStatus.IsErrorBoundaries | instrumentation/amazon-coral/coral-client-1.1/javaagent/src/main/java/io/opentelemetry/javaagent/instrumentation/coralclient/CoralSpanStatusExtractor.java:49-54 | 99 and 500 are errors; 100 and 499 are not. |
| CoralSpanStatus.SpanStatusBuilder.SetStatus | instrumentation/amazon-coral/coral-client-1.1/javaagent/src/main/java/io/opentelemetry/javaagent/instrumentation/coralclient/CoralSpanStatusExtractor.java:41 | The status becomes the code given. |
| CoralSpanStatus.Extract | instrumentation/amazon-coral/coral-client-1.1/javaagent/src/main/java/io/opentelemetry/javaagent/instrumentation/coralclient/CoralSpanStatusExtractor.java:34-47 | An error reply sets ERROR without delegating; anything else is delegated once, status untouched. |
| CoralSpanStatus.DelegatedCalls | instrumentation/amazon-coral/coral-client-1.1/javaagent/src/main/java/io/opentelemetry/javaagent/instrumentation/coralclient/CoralSpanStatusExtractor.java:37-46 | A null response, a missing status and every 1xx-4xx status are delegated, and nothing else is. |
| CoralContext.Instrumenter.Start | instrumentation/amazon-coral/coral-1.1/javaagent/src/main/java/io/opentelemetry/javaagent/instrumentation/coral/CoralServerInstrumentation.java:83 | A new context under the parent is started and logged. |
| CoralContext.Instrumenter.MakeCurrent | instrumentation/amazon-coral/coral-1.1/javaagent/src/main/java/io/opentelemetry/javaagent/instrumentation/coral/CoralServerInstrumentation.java:84 | The context becomes current, and the scope restores the previous one. |
| CoralContext.Instrumenter.Close | instrumentation/amazon-coral/coral-client-1.1/javaagent/src/main/java/io/opentelemetry/javaagent/instrumentation/coralclient/CoralClientRpcInstrumentation.java:83 | The scope's saved context becomes current again. |
| CoralContext.Instrumenter.End | instrumentation/amazon-coral/coral-client-1.1/javaagent/src/main/java/io/opentelemetry/javaagent/instrumentation/coralclient/CoralClientRpcInstrumentation.java:84 | The context is appended to the ended log. |
| CoralServerHooks.BeforeExit | instrumentation/amazon-coral/coral-1.1/javaagent/src/main/java/io/opentelemetry/javaagent/instrumentation/coral/CoralServerInstrumentation.java:65-86 | Tracing state after the before-exit advice, given the instrumenter's decision. |
| CoralServerHooks.AfterEnter | instrumentation/amazon-coral/coral-1.1/javaagent/src/main/java/io/opentelemetry/javaagent/instrumentation/coral/CoralServerInstrumentation.java:92-117 | The current context is made current again and ended. |
| CoralServerHooks.ServerRound | instrumentation/amazon-coral/coral-1.1/javaagent/src/main/java/io/opentelemetry/javaagent/instrumentation/coral/CoralServerInstrumentation.java:65-117 | Without an operation name nothing happens. Otherwise exactly one context is ended, and a span is started exactly when admitted. An admitted span is a child of the prior context; it is the one ended, yet it stays current. A request not admitted ends the prior context. |
| CoralServerHooks.SuppressedRequestEndsOuterContext | instrumentation/amazon-coral/coral-1.1/javaagent/src/main/java/io/opentelemetry/javaagent/instrumentation/coral/CoralServerInstrumentation.java:80-112 | A request not admitted still ends the context around it. |
| CoralServerHooks.AfterHookTwiceEndsTwice | instrumentation/amazon-coral/coral-1.1/javaagent/src/main/java/io/opentelemetry/javaagent/instrumentation/coral/CoralServerInstrumentation.java:92-117 | Running the after advice twice ends the same context twice. |
| CoralServerHooks.AdmittedSpansNest | instrumentation/amazon-coral/coral-1.1/javaagent/src/main/java/io/opentelemetry/javaagent/instrumentation/coral/CoralServerInstrumentation.java:83-84 | Over a run of requests, the context depth and the started count both grow by the number admitted. |
| CoralClientHooks.JobMetrics.AddProperty | instrumentation/amazon-coral/coral-client-1.1/javaagent/src/main/java/io/opentelemetry/javaagent/instrumentation/coralclient/CoralClientRpcInstrumentation.java:88 | The property is appended to the job's metrics. |
| CoralClientHooks.EnterSpec | instrumentation/amazon-coral/coral-client-1.1/javaagent/src/main/java/io/opentelemetry/javaagent/instrumentation/coralclient/CoralClientRpcInstrumentation.java:44-63 | Enter keeps the context and scope slots paired. |
| CoralClientHooks.MethodEnter | instrumentation/amazon-coral/coral-client-1.1/javaagent/src/main/java/io/opentelemetry/javaagent/instrumentation/coralclient/CoralClientRpcInstrumentation.java:44-63 | Tracing state and slots after enter are those of EnterSpec. |
| CoralClientHooks.MethodExit | instrumentation/amazon-coral/coral-client-1.1/javaagent/src/main/java/io/opentelemetry/javaagent/instrumentation/coralclient/CoralClientRpcInstrumentation.java:65-89 | Tracing state and recorded trace id after exit are those of ExitSpec. |
| CoralClientHooks.ClientRoundEndsItsOwnSpan | instrumentation/amazon-coral/coral-client-1.1/javaagent/src/main/java/io/opentelemetry/javaagent/instrumentation/coralclient/CoralClientRpcInstrumentation.java:44-89 | An invocation ends exactly the span it started and restores the prior context. It records the trace id, or changes nothing when no span started. |
| CoralClientHooks.ExitWithoutStartEndsNothing | instrumentation/amazon-coral/coral-client-1.1/javaagent/src/main/java/io/opentelemetry/javaagent/instrumentation/coralclient/CoralClientRpcInstrumentation.java:77-79 | An exit whose enter started nothing ends and records nothing. |
| CoralClientHooks.LostOperationNameLeavesSpanOpen | instrumentation/amazon-coral/coral-client-1.1/javaagent/src/main/java/io/opentelemetry/javaagent/instrumentation/coralclient/CoralClientRpcInstrumentation.java:71-75 | If the operation name disappears before exit, the started span is never ended and stays current. |
| CoralClientHooks.ClientRoundsBalance | instrumentation/amazon-coral/coral-client-1.1/javaagent/src/main/java/io/opentelemetry/javaagent/instrumentation/coralclient/CoralClientRpcInstrumentation.java:44-89 | Over any run, the current context comes back and the ended spans are exactly the started ones, in order. |
| Json.Get | instrumentation/aws-sdk/aws-sdk-2.2/library/src/main/java/io/opentelemetry/instrumentation/awssdk/v2_2/Serializer.java:125 | get succeeds exactly when the key is present, even with a JSON null value, and gives that value. A missing key throws. |
| Json.GetString | instrumentation/aws-sdk/aws-sdk-2.2/library/src/main/java/io/opentelemetry/instrumentation/awssdk/v2_2/Serializer.java:107-116 | Succeeds exactly on a present JSON string and gives its text. Any other value and a missing key throw. |
| Json.GetInt | instrumentation/aws-sdk/aws-sdk-1.11/library/src/main/java/io/opentelemetry/instrumentation/awssdk/v1_11/BedrockRuntimeLlamaModel.java:39 | A number gives the int Double.intValue gives it, which saturates; an integer literal out of the int range wraps around as Number.intValue does. A text succeeds exactly when Integer.parseInt reads it. Null, booleans, arrays, objects and a missing key throw. |
| Json.GetDouble | instrumentation/aws-sdk/aws-sdk-1.11/library/src/main/java/io/opentelemetry/instrumentation/awssdk/v1_11/BedrockRuntimeLlamaModel.java:43-48 | Succeeds exactly on a number, or on a text Double.parseDouble reads, and then gives that reading. Every failure is a JSONException. |
| Json.GetFloat | instrumentation/aws-sdk/aws-sdk-2.2/library/src/main/java/io/opentelemetry/instrumentation/awssdk/v2_2/Serializer.java:152-172 | Succeeds exactly on a number, or on a text Float.parseFloat reads, and then gives that reading. Every failure is a JSONException. |
| Json.GetArray | instrumentation/aws-sdk/aws-sdk-2.2/library/src/main/java/io/opentelemetry/instrumentation/awssdk/v2_2/Serializer.java:111 | Succeeds exactly on a JSON array and gives its elements. |
| Json.First | instrumentation/aws-sdk/aws-sdk-2.2/library/src/main/java/io/opentelemetry/instrumentation/awssdk/v2_2/Serializer.java:111 | get(0) succeeds exactly on a non-empty array and gives its first element. |
| Json.AsObject | instrumentation/aws-sdk/aws-sdk-2.2/library/src/main/java/io/opentelemetry/instrumentation/awssdk/v2_2/Serializer.java:111 | The cast succeeds exactly on an object. Anything else throws ClassCastException. |
| Json.Field | instrumentation/aws-sdk/aws-sdk-1.11/library/src/main/java/io/opentelemetry/instrumentation/awssdk/v1_11/BedrockRuntimeTitanModel.java:41 | get(name) is non-null exactly on an object holding the field, and gives its value. |
| Json.AsInt | instrumentation/aws-sdk/aws-sdk-1.11/library/src/main/java/io/opentelemetry/instrumentation/awssdk/v1_11/BedrockRuntimeClaudeModel.java:41-46 | Always an int. A node isInt accepts gives its own value, a number with a fraction or exponent gives its intValue, a text gives parseAsInt of it, and null, arrays and objects give 0. |
| Json.ParseAsInt | instrumentation/aws-sdk/aws-sdk-1.11/library/src/main/java/io/opentelemetry/instrumentation/awssdk/v1_11/BedrockRuntimeTitanModel.java:44 | Always an int, and 0 for a blank text. The lemmas below fix the digit, fraction and overflow cases. |
| Json.ParseAsIntReadsIntText | instrumentation/aws-sdk/aws-sdk-1.11/library/src/main/java/io/opentelemetry/instrumentation/awssdk/v1_11/BedrockRuntimeTitanModel.java:44 | Where Integer.parseInt reads a text, asInt gives the same int. |
| Json.FractionTextNarrows | instrumentation/aws-sdk/aws-sdk-1.11/library/src/main/java/io/opentelemetry/instrumentation/awssdk/v1_11/BedrockRuntimeTitanModel.java:44 | A text of digits, a point and digits gives its whole part, held to the int range. |
| Json.LongDigitTextIsZero | instrumentation/aws-sdk/aws-sdk-1.11/library/src/main/java/io/opentelemetry/instrumentation/awssdk/v1_11/BedrockRuntimeTitanModel.java:44 | An all-digit text beyond the int range gives 0. Integer.parseInt fails on it, and it is not retried as a double. |
| Json.AsDouble | instrumentation/aws-sdk/aws-sdk-1.11/library/src/main/java/io/opentelemetry/instrumentation/awssdk/v1_11/BedrockRuntimeTitanModel.java:48-53 | A number gives its value. A text gives its Double.parseDouble reading when there is one, and 0.0 otherwise. Null, arrays and objects give 0.0. |
| Json.JacksonReadsIgnorePadding | instrumentation/aws-sdk/aws-sdk-1.11/library/src/main/java/io/opentelemetry/instrumentation/awssdk/v1_11/BedrockRuntimeTitanModel.java:44-53 | Blanks around a text change neither asInt nor asDouble. |
| Json.AsText | instrumentation/aws-sdk/aws-sdk-1.11/library/src/main/java/io/opentelemetry/instrumentation/awssdk/v1_11/BedrockRuntimeClaudeModel.java:74 | A string node gives its own text. Arrays and objects give "". |
| Json.LibrariesAgreeOnNumberText | instrumentation/aws-sdk/aws-sdk-1.11/library/src/main/java/io/opentelemetry/instrumentation/awssdk/v1_11/BedrockRuntimeLlamaModel.java:39-48 | Where org.json's getInt or getDouble reads a text, Jackson's asInt or asDouble reads it to the same value. |
| Json.SignedNaNReads | instrumentation/aws-sdk/aws-sdk-1.11/library/src/main/java/io/opentelemetry/instrumentation/awssdk/v1_11/BedrockRuntimeLlamaModel.java:43 | Double.parseDouble reads "-NaN" as NaN. |
| Json.InfinityReads | instrumentation/aws-sdk/aws-sdk-1.11/library/src/main/java/io/opentelemetry/instrumentation/awssdk/v1_11/BedrockRuntimeLlamaModel.java:43 | Double.parseDouble reads "-Infinity" as negative infinity. |
| Json.SuffixReads | instrumentation/aws-sdk/aws-sdk-1.11/library/src/main/java/io/opentelemetry/instrumentation/awssdk/v1_11/BedrockRuntimeLlamaModel.java:43 | Double.parseDouble reads "1f" as 1, accepting the type suffix. |
| Json.MalformedRejected | instrumentation/aws-sdk/aws-sdk-1.11/library/src/main/java/io/opentelemetry/instrumentation/awssdk/v1_11/BedrockRuntimeLlamaModel.java:43 | Double.parseDouble rejects "1e", "." and "1ff". |
| JavaText.Wrap32 | instrumentation/aws-sdk/aws-sdk-2.2/library/src/main/java/io/opentelemetry/instrumentation/awssdk/v2_2/Serializer.java:121 | intValue of a number: a 32-bit int congruent to it modulo 2^32, and unchanged when already in range. |
| JavaText.IntToString | instrumentation/aws-sdk/aws-sdk-2.2/library/src/main/java/io/opentelemetry/instrumentation/awssdk/v2_2/Serializer.java:121 | String.valueOf(int) is non-empty. It starts with "-" exactly for a negative int and is all digits otherwise. |
| JavaText.ParseInt | instrumentation/aws-sdk/aws-sdk-1.11/library/src/main/java/io/opentelemetry/instrumentation/awssdk/v1_11/BedrockAttributesExtractor.java:230-236 | Integer.parseInt gives only 32-bit ints. The empty text and every other failure throw NumberFormatException. |
| JavaText.IntTextRoundTrip | instrumentation/aws-sdk/aws-sdk-1.11/library/src/main/java/io/opentelemetry/instrumentation/awssdk/v1_11/BedrockAttributesExtractor.java:229-238 | Integer.parseInt reads String.valueOf(n) back as n for every int. |
| JavaText.FirstPiece | instrumentation/aws-sdk/aws-sdk-1.11/library/src/main/java/io/opentelemetry/instrumentation/awssdk/v1_11/BedrockAttributesExtractor.java:165 | split("-")[0] throws exactly for a non-empty text of separators only. Otherwise it gives the text before the first separator. |
| JavaText.LastPiece | instrumentation/aws-sdk/aws-sdk-1.11/library/src/main/java/io/opentelemetry/instrumentation/awssdk/v1_11/BedrockAttributesExtractor.java:128-136 | The last element of the split is a suffix of the text with no separator in it. Unless it is the whole text, a separator comes just before it. |
| JavaText.LastPieceIsSuffix | instrumentation/aws-sdk/aws-sdk-1.11/library/src/main/java/io/opentelemetry/instrumentation/awssdk/v1_11/BedrockAttributesExtractor.java:128-136 | The last piece of a separator split is the suffix after the last separator. |
| JavaText.SplitJoin | instrumentation/aws-sdk/aws-sdk-2.2/library/src/main/java/io/opentelemetry/instrumentation/awssdk/v2_2/Serializer.java:70 | Splitting a join on a character no part holds gives the parts back, when the last part is not empty. |
| JavaNumbers.Trim | instrumentation/aws-sdk/aws-sdk-1.11/library/src/main/java/io/opentelemetry/instrumentation/awssdk/v1_11/BedrockRuntimeLlamaModel.java:43 | String.trim is no longer than the text and has no blank at either end. It is the text itself when neither end is blank, and empty exactly for an all-blank text. |
| JavaNumbers.TrimIgnoresPadding | instrumentation/aws-sdk/aws-sdk-1.11/library/src/main/java/io/opentelemetry/instrumentation/awssdk/v1_11/BedrockRuntimeLlamaModel.java:43 | Trimming ignores blanks added around a text. |
| JavaNumbers.ParseFloatingIgnoresPadding | instrumentation/aws-sdk/aws-sdk-1.11/library/src/main/java/io/opentelemetry/instrumentation/awssdk/v1_11/BedrockRuntimeLlamaModel.java:43 | Double.parseDouble reads a padded text as the text itself. |
| JavaNumbers.DigitsRead | instrumentation/aws-sdk/aws-sdk-1.11/library/src/main/java/io/opentelemetry/instrumentation/awssdk/v1_11/BedrockRuntimeLlamaModel.java:43 | A run of digits reads as those digits with exponent 0. |
| JavaNumbers.DecimalFractionReads | instrumentation/aws-sdk/aws-sdk-1.11/library/src/main/java/io/opentelemetry/instrumentation/awssdk/v1_11/BedrockRuntimeLlamaModel.java:43 | A decimal with a point reads as the digits on both sides, scaled down by the number of digits after the point. |
| JavaNumbers.HexWithPoint | instrumentation/aws-sdk/aws-sdk-1.11/library/src/main/java/io/opentelemetry/instrumentation/awssdk/v1_11/BedrockRuntimeLlamaModel.java:43 | A hexadecimal literal with a point and a binary exponent reads as both digit runs, its exponent lowered by four per digit after the point. |
| JavaNumbers.DecimalValue | instrumentation/aws-sdk/aws-sdk-1.11/library/src/main/java/io/opentelemetry/instrumentation/awssdk/v1_11/BedrockRuntimeTitanModel.java:44 | Decimal digits read in base 10 have the value Integer.parseInt gives them. |
| JavaNumbers.Clamp | instrumentation/aws-sdk/aws-sdk-1.11/library/src/main/java/io/opentelemetry/instrumentation/awssdk/v1_11/BedrockRuntimeTitanModel.java:44 | The cast's range: an int is kept, and a value beyond either bound gives that bound. |
| JavaNumbers.NarrowToInt | instrumentation/aws-sdk/aws-sdk-1.11/library/src/main/java/io/opentelemetry/instrumentation/awssdk/v1_11/BedrockRuntimeTitanModel.java:44 | The (int) cast always gives an int. NaN gives 0 and an infinity gives the bound on its side. |
| JavaNumbers.DigitsNarrow | instrumentation/aws-sdk/aws-sdk-1.11/library/src/main/java/io/opentelemetry/instrumentation/awssdk/v1_11/BedrockRuntimeTitanModel.java:44 | The cast of digits read with exponent 0 is their signed value, held to the int range. |
| JavaNumbers.FractionNarrows | instrumentation/aws-sdk/aws-sdk-1.11/library/src/main/java/io/opentelemetry/instrumentation/awssdk/v1_11/BedrockRuntimeTitanModel.java:44 | The cast of a decimal with a point is its whole part, held to the int range. |
| JavaNumbers.IntTextReadsAsFloating | instrumentation/aws-sdk/aws-sdk-1.11/library/src/main/java/io/opentelemetry/instrumentation/awssdk/v1_11/BedrockRuntimeTitanModel.java:44 | Every text Integer.parseInt reads is a finite decimal for Double.parseDouble, and the cast gives back the same int. |

## Left out

- Console output: every `System.out.println` in the hooks and the mapper is left out.
- Java reflection:
  - The reflective lookup and invocation are parameters. This covers `MethodHandleFactory`, `getValueForField`, the accessor calls of `RequestAccess`, and the JSON marshaller of an `SdkPojo`.
  - `FieldMapping.java`, `AwsSdkRequest.java` and `MethodHandleFactory.java` are not part of this model. A field path is the mapping's value split at dots, and a request carries its type and its own mappings.
- JSON and numbers:
  - The JSON text parsers are parameters from bytes to a parsed document. UTF-8 decoding is inside them.
  - `Float.toString` is a parameter.
  - A number text is read to the literal it denotes: sign, digits, base and exponent. It is not rounded to the nearest double or float, and floating-point arithmetic is not modelled.
- JavaNumbers.NarrowToInt: the `(int)` cast truncates the exact value of the literal rather than the double it rounds to. A literal such as `2147483646.99999999999` rounds to the double 2147483647.0, so Java casts it to 2147483647 where the model gives 2147483646.
- Json.ParseAsInt: a text that is not a plain run of digits goes through NarrowToInt and carries the same approximation.
- JavaText.ParseInt: only ASCII digits are read. Integer.parseInt also accepts the other Unicode decimal digits.
- The `InstantiationException`/`IllegalStateException` wrapping around the reflective construction of operation and model classes is left out. These classes all have public no-argument constructors.
- Concurrency:
  - Threads, and the sharing of the extractors' `serviceName` and `modelName` fields between concurrent calls, are left out. The model runs calls one after another.
  - `ClassValue`'s thread-safety is left out.
- Tracing SDK:
  - Span ids, trace ids and the instrumenter's `shouldStart` decision are stand-ins. Trace-id text, sampling and export are left out.
  - Byte Buddy weaving and the `suppress = Throwable.class` handling are left out.
- CoralSpanStatus.Extract: the default span-status extractor it delegates to is counted, not applied. Its own decision belongs to the tracing SDK.
- CoralAttributesGetter.ToUpper: `Character.toUpperCase` is modelled on ASCII letters only. Other characters are returned unchanged.
- CoralAttributesGetter.GetMethodName: the header lookup is an exact-key map lookup. Case-insensitive HTTP header matching is not modelled.
- AwsCalls.FoldCase: the SDK header names are compared up to case on ASCII letters only. CASE_INSENSITIVE_ORDER also folds the other Unicode letters.
- CoralServerAttributes.OnEnd: the reply of a non-null response is taken to be present. A job without a reply is not modelled.
- The other `CoralAttributesGetter` getters (lines 37-83) each read one request attribute. They are the fields of the job's request and carry no logic of their own.
- The Coral classes not named above are not part of this model: the HTTP and RPC server variants, the client header setter, the span name extractor and the suppression extractor.
- Semantic-convention key strings are taken from the OpenTelemetry semantic conventions.
- The Bedrock keys of the 1.11 instrumentation are not declared in its key class.
  - The id keys are spelled as the 1.11 Bedrock client tests expect them: `aws.bedrock.agent.id`, `aws.bedrock.knowledge_base.id`, `aws.bedrock.data_source.id` and `aws.bedrock.guardrail.id`.
  - Only the `gen_ai.*` keys are borrowed from the SDK 2.2 key class.
- Integer width:
  - The int status code and token counts are checked to be 32-bit values where they are parsed or read.
  - Unbounded Dafny integers stand for Java longs, whose overflow cannot occur on these values.
