# Exceptionless client: the event plugin pipeline

This project models the event plugin pipeline of the Exceptionless .NET client.
The model follows the behaviour that the client's plugin tests
(`Source/Tests/Plugins/PluginTests.cs`) pin down, and proves that behaviour in Dafny.

The pipeline has these parts:

- **The plugin registry of an `ExceptionlessConfiguration`.** It holds
  registrations under distinct keys and enumerates them in ascending priority.
  A plugin registered by type is constructed lazily, on first use, and is
  disposed when it is removed. Adding the same type twice leaves one
  registration.
- **`EventPluginManager.Run`.** It runs the registrations in order on an
  `EventPluginContext` and stops after the first plugin that sets `Cancel`.
- **The built-in plugins:**
  - configuration defaults (default tags and data, honouring data exclusions);
  - the user-agent bot filter (wildcard patterns such as `*Bot*`);
  - the aggregate-exception handler (unwraps one inner exception, or submits
    every inner exception and cancels);
  - the two error plugins;
  - the environment-user identity plugin;
  - environment info;
  - the session check (cancels session events without a user identity);
  - reference ids.
- **The error extraction policy.** This is how an exception becomes an error
  record:
  - its `Data` entries are copied, except the standard property names and the
    configured exclusions;
  - its other public properties are projected under snake_case names into one
    extra-properties entry;
  - its `Data` dictionary is marked with `@exceptionless` when the
    dictionary's key type admits a string key;
  - a second run on a marked exception is cancelled.
- **Submission.** A configured client queues each event that is not
  cancelled. `ProcessQueue` hands the queue to the submission client.

The project is laid out as follows:

- The pure rules are functions with their lemmas: `Wildcard`, `Models`,
  `Exceptions`, `Registry`, `Pipeline` and `Rules`.
- The objects the client mutates are classes in `Client`:
  - `ExceptionlessConfiguration` holds the registry and settings;
  - `EventPluginContext` holds the event, the cancel flag and the exception;
  - `ExceptionlessClient` holds the exceptions' `Data` dictionaries, the
    reference-id source and the event queue.

  Each state-changing method is proved equal to the pure function that
  specifies it.
- `RegistryFacts`, `PipelineFacts` and `ErrorFacts` prove what the tests
  promise about those functions.
- `Scenarios` replays each test on fresh objects and states its assertions as
  postconditions.

## Model

| member | source | states |
|---|---|---|
| Wildcard.Contains | Source/Tests/Plugins/PluginTests.cs:66 | true exactly when the pattern text occurs at some position of the value |
| Wildcard.InfixMatchIff | Source/Tests/Plugins/PluginTests.cs:66 | `*text*` matches a value iff the lower-cased text occurs in the lower-cased value |
| Wildcard.PrefixMatchIff | Source/Tests/Plugins/PluginTests.cs:56 | `text*` matches a value iff the lower-cased value starts with the lower-cased text |
| Wildcard.ExactMatchIff | Source/Tests/Plugins/PluginTests.cs:201 | a pattern without `*` matches a value iff both are equal ignoring case |
| Wildcard.MatchIgnoresCase | Source/Tests/Plugins/PluginTests.cs:66 | matching is insensitive to the case of the value |
| Wildcard.MorePatternsMatchMore | Source/Tests/Plugins/PluginTests.cs:56-59 | adding exclusion patterns never un-excludes a value |
| Models.NewEvent | Source/Tests/Plugins/PluginTests.cs:26 | a new event has the given type, no message, no tags, no data and no reference id |
| Models.SetUserIdentity | Source/Tests/Plugins/PluginTests.cs:356 | an identity with identity and name both empty removes the user; any other identity is what `GetUserIdentity` returns; type, message, tags, reference id and every other entry are kept |
| Models.GetUserIdentity | Source/Tests/Plugins/PluginTests.cs:346-347 | a user is read exactly when a user payload is stored under the user key |
| Models.AddRequestInfo | Source/Tests/Plugins/PluginTests.cs:74 | the request info read back is the one added; the data keys are the old ones plus the request key; type, message, tags, reference id and every other entry are kept |
| Exceptions.MarkProcessed | Source/Tests/Plugins/PluginTests.cs:207 | a dictionary ends up marked iff it was already marked or its key type admits a string key; null stays null; the other entries are unchanged |
| Exceptions.CopyData | Source/Tests/Plugins/PluginTests.cs:215-243 | exactly the entries with a non-empty key that no exclusion matches and a non-null value are copied, with their values |
| Exceptions.CopyIgnoresMarker | Source/Tests/Plugins/PluginTests.cs:196-197 | the `@exceptionless` marker is never copied into error data |
| Exceptions.SnakeCaseOnlyAddsUnderscores | Source/Tests/Plugins/PluginTests.cs:267 | the snake_case name, with underscores dropped, is the lower-cased name with underscores dropped |
| Exceptions.ExtraFields | Source/Tests/Plugins/PluginTests.cs:245-280 | every projected field comes from a non-excluded, non-null property under its snake_case name, and every such property is projected |
| Exceptions.MarkInTable | Source/Tests/Plugins/PluginTests.cs:207 | marks only the given exception's dictionary; every other exception's dictionary is unchanged |
| Exceptions.ErrorData | Source/Tests/Plugins/PluginTests.cs:215-243 | the root error data is the copied entries plus one extra-properties entry when some property projects; its size is the sum of the two |
| Exceptions.ToErrorRecord | Source/Tests/Plugins/PluginTests.cs:149-150 | the record keeps the exception's type name and message and carries its error data; it has an inner record iff the exception has inner exceptions, and that record keeps the first inner exception's type name and message |
| Registry.Find | Source/Tests/Plugins/PluginTests.cs:426-427 | finds a registration under the key, or reports that no registration has it |
| Registry.FindUnique | Source/Tests/Plugins/PluginTests.cs:426-427 | with distinct keys the registration found under a member's key is that member |
| Registry.RemoveKey | Source/Tests/Plugins/PluginTests.cs:426-427 | removes exactly the registrations under the key |
| Registry.Insert | Source/Tests/Plugins/PluginTests.cs:460-465 | inserting adds exactly one copy of the registration |
| Registry.InsertSorted | Source/Tests/Plugins/PluginTests.cs:467-473 | inserting keeps the registrations in ascending priority |
| Registry.Add | Source/Tests/Plugins/PluginTests.cs:460-473 | the result is sorted with distinct keys; it holds the new registration and every old one under another key |
| Registry.AddTwiceIsOnce | Source/Tests/Plugins/PluginTests.cs:418-419 | registering the same registration twice is the same as registering it once |
| Registry.RemoveInserted | Source/Tests/Plugins/PluginTests.cs:392-393 | removing the key of a freshly inserted registration restores the list |
| Registry.StrictOrderDetermined | Source/Tests/Plugins/PluginTests.cs:467-473 | two lists in strictly ascending priority with the same members are equal |
| Registry.AddPlugin | Source/Tests/Plugins/PluginTests.cs:418-419 | adds the registration, replaces the one under its key and forgets that key's instance; the counters are unchanged |
| Registry.RemovePlugin | Source/Tests/Plugins/PluginTests.cs:426-432 | drops the key's registration and instance; disposal is counted only for a constructed counting plugin; an unknown key changes nothing |
| Registry.RemoveHead | Source/Tests/Plugins/PluginTests.cs:310-311 | removing the first registration leaves the rest and counts a disposal exactly when it is a constructed counting plugin |
| Registry.Materialize | Source/Tests/Plugins/PluginTests.cs:396-399 | an instance is constructed on first use unless its constructor throws; construction is counted once per instance |
| Registry.AddThenRemoveIsInert | Source/Tests/Plugins/PluginTests.cs:386-394 | adding a type and removing it again constructs and disposes nothing and leaves the other registrations |
| Registry.RemoveTwiceIsOnce | Source/Tests/Plugins/PluginTests.cs:426-427 | a second removal of the same key changes nothing |
| Pipeline.ErrorStep | Source/Tests/Plugins/PluginTests.cs:130-160 | no exception: no change; a marked exception: cancel only; otherwise the event becomes an error event carrying the record under the plugin's key, the exception is marked, and tags, message, reference id and every other entry are kept |
| Pipeline.RunTyped | Source/Tests/Plugins/PluginTests.cs:85-128 | a plugin never un-cancels, never grows the context's exception and only appends to the queue |
| Pipeline.Step | Source/Tests/Plugins/PluginTests.cs:421-423 | runs one registration after constructing it on demand; one that cannot be constructed leaves the state untouched; a cancel is kept and the registrations never change |
| Pipeline.RunPlugins | Source/Tests/Plugins/PluginTests.cs:307-320 | running a list keeps the registrations, keeps a cancel and only appends to the queue |
| Pipeline.Submit | Source/Tests/Plugins/PluginTests.cs:111-128 | a submission only appends to the queue and keeps the registrations |
| Pipeline.SubmitAll | Source/Tests/Plugins/PluginTests.cs:111-128 | submitting several exceptions only appends to the queue |
| Rules.ApplyDefaults | Source/Tests/Plugins/PluginTests.cs:23-61 | adds every default tag; copies each default entry whose key no exclusion matches; keeps every existing entry; adds nothing else |
| Rules.DefaultsIdempotent | Source/Tests/Plugins/PluginTests.cs:38-42 | applying the defaults twice is the same as once |
| Rules.TagsOnlyDefaults | Source/Tests/Plugins/PluginTests.cs:32-35 | with no default data only the default tags are added |
| Rules.OneDefaultEntry | Source/Tests/Plugins/PluginTests.cs:48-53 | one non-excluded default entry missing from the event is added and nothing else |
| Rules.NothingNewFromDefaults | Source/Tests/Plugins/PluginTests.cs:56-60 | when every default key is present or excluded the event data is unchanged |
| Rules.IgnorePatternExcludesIgnored | Source/Tests/Plugins/PluginTests.cs:56-57 | `Ignore*` excludes `Ignored` and not `Message` |
| Rules.BotPatternIff | Source/Tests/Plugins/PluginTests.cs:66 | an event is a bot request under `*Bot*` iff its user agent contains "bot" ignoring case |
| Rules.NoRequestIsNoBot | Source/Tests/Plugins/PluginTests.cs:69-72 | an event without request info is never a bot request |
| Rules.BingContainsBot | Source/Tests/Plugins/PluginTests.cs:79 | the Bing user agent holds "bot" at position 29 |
| Rules.SafariLacksBot | Source/Tests/Plugins/PluginTests.cs:74 | the Safari user agent contains "bot" nowhere |
| Rules.BotPatternOnKnownAgents | Source/Tests/Plugins/PluginTests.cs:74-82 | `*Bot*` matches the Bing agent and not the Safari agent |
| Rules.KnownAgentsAsRequests | Source/Tests/Plugins/PluginTests.cs:74-82 | an event carrying the Bing agent is a bot request and one carrying the Safari agent is not |
| Rules.SessionCancelIff | Source/Tests/Plugins/PluginTests.cs:365-384 | an event with identity `identity` is cancelled iff its type is a session type and the identity is null or empty |
| Rules.WithEnvironmentUser | Source/Tests/Plugins/PluginTests.cs:338-363 | an existing user is never overwritten and an empty machine user attaches nothing; otherwise the machine user becomes the identity; type, message, tags, reference id and every other entry are kept |
| Rules.WithEnvironmentInfo | Source/Tests/Plugins/PluginTests.cs:296-305 | adds exactly the environment-info key; keeps every other entry, the type, message, tags and reference id |
| Rules.EnvironmentInfoOnNewEvent | Source/Tests/Plugins/PluginTests.cs:303 | a new event gets exactly one data entry |
| Rules.WithReferenceId | Source/Tests/Plugins/PluginTests.cs:322-336 | an error event without a reference id gets a generated one and nothing else changes; any other event is unchanged |
| Rules.ApplyInline | Source/Tests/Plugins/PluginTests.cs:313-314 | the cancel plugin sets cancel, the tag plugin adds its tag, the version plugin sets the version entry; each changes nothing else |
| PipelineFacts.CancelIsFinal | Source/Tests/Plugins/PluginTests.cs:307-320 | with an inline cancel plugin at position k, running the whole list equals running up to and including it, and the result is cancelled |
| PipelineFacts.CancelStopsRun | Source/Tests/Plugins/PluginTests.cs:307-320 | once any plugin leaves an uncancelled context cancelled, no later plugin runs: the whole run equals the run over the prefix that ended cancelled |
| PipelineFacts.CancelSkipsLaterPlugins | Source/Tests/Plugins/PluginTests.cs:313-319 | cancel at priority 1 then add-tag at priority 2: cancelled, no tag |
| PipelineFacts.DefaultsPluginStep | Source/Tests/Plugins/PluginTests.cs:28-29 | the defaults plugin applies the configured defaults and changes nothing else |
| PipelineFacts.BotFilterStep | Source/Tests/Plugins/PluginTests.cs:67-82 | the bot filter cancels exactly bot requests and changes nothing else |
| PipelineFacts.SessionCheckStep | Source/Tests/Plugins/PluginTests.cs:377-383 | the session plugin cancels exactly sessions without identity and changes nothing else |
| PipelineFacts.AggregatePluginIgnoresOthers | Source/Tests/Plugins/PluginTests.cs:93-96 | a context without an aggregate exception is left untouched |
| PipelineFacts.AggregateWithOneInnerUnwraps | Source/Tests/Plugins/PluginTests.cs:98-102 | an aggregate with one inner exception is replaced by that inner exception |
| PipelineFacts.AggregateUnconfiguredKeepsFirst | Source/Tests/Plugins/PluginTests.cs:104-108 | on an unconfigured client an aggregate of several becomes its first inner exception, not cancelled |
| PipelineFacts.CalmRun | Source/Tests/Plugins/PluginTests.cs:111-128 | the harmless plugins run on an unmarked, uncancelled error event: the run is not cancelled, leaves an error event, touches no other exception's dictionary and queues nothing |
| PipelineFacts.PlainExceptionIsQueued | Source/Tests/Plugins/PluginTests.cs:111-128 | on a configured client a plain, unmarked exception queues exactly one error event and touches no other exception's dictionary |
| PipelineFacts.PlainExceptionsAreQueued | Source/Tests/Plugins/PluginTests.cs:111-128 | submitting n plain, unmarked exceptions with distinct ids queues exactly n events |
| PipelineFacts.AggregateFansOut | Source/Tests/Plugins/PluginTests.cs:111-128 | on a configured client an aggregate of n plain exceptions is cancelled and queues n events |
| PipelineFacts.ReferenceIdOnlyWhenEnabled | Source/Tests/Plugins/PluginTests.cs:322-336 | with no plugins an error event gets no reference id; with the reference-id plugin it gets one |
| PipelineFacts.CounterStep | Source/Tests/Plugins/PluginTests.cs:440-446 | running the counting registration constructs it only if it was not constructed, adds one run and disposes nothing |
| PipelineFacts.CounterPluginLifecycle | Source/Tests/Plugins/PluginTests.cs:408-433 | add twice, run twice, remove twice: one construction, two runs, one disposal, nothing left |
| RegistryFacts.OrderedIsDetermined | Source/Tests/Plugins/PluginTests.cs:467-473 | a sorted keyed list with the same members as a strictly ascending list is that list |
| RegistryFacts.AddedInTestOrder | Source/Tests/Plugins/PluginTests.cs:460-465 | six distinct-key registrations in strictly ascending priority, added in the test's order, come out in priority order |
| RegistryFacts.PriorityTestKeysDistinct | Source/Tests/Plugins/PluginTests.cs:460-465 | the six registrations of the priority test have distinct keys |
| RegistryFacts.PriorityOrderOfTest | Source/Tests/Plugins/PluginTests.cs:453-474 | for any default priority below 1 the enumeration is: unannotated, version, version2, version3, priority 11, environment info |
| RegistryFacts.CancelTestOrder | Source/Tests/Plugins/PluginTests.cs:313-314 | the cancel plugin is enumerated before the add-tag plugin |
| ErrorFacts.ExactListIff | Source/Tests/Plugins/PluginTests.cs:201 | a list of plain names excludes exactly the values equal to one of them ignoring case |
| ErrorFacts.NotExcluded | Source/Tests/Plugins/PluginTests.cs:201 | a value that differs from every plain name is not excluded |
| ErrorFacts.DuplicateIsCancelled | Source/Tests/Plugins/PluginTests.cs:130-160 | the first run on a markable exception is not cancelled and adds an error; the second run is cancelled and adds no data |
| ErrorFacts.UnmarkableIsProcessedAgain | Source/Tests/Plugins/PluginTests.cs:167-173 | an exception whose dictionary cannot be marked is processed again, not cancelled, on a second run |
| ErrorFacts.NothingProjected | Source/Tests/Plugins/PluginTests.cs:199-201 | with `SetsDataProperty` excluded and both text properties null, no property is projected |
| ErrorFacts.DictionaryKinds | Source/Tests/Plugins/PluginTests.cs:162-213 | a one-entry or null dictionary: not cancelled; marked iff its key type admits a string key; the error holds 1 entry (0 for null) |
| ErrorFacts.TestKeyIsCopied | Source/Tests/Plugins/PluginTests.cs:174-182 | the key `test` of the string-keyed rows is copied |
| ErrorFacts.FourEntriesCopied | Source/Tests/Plugins/PluginTests.cs:225-230 | all four entries of the int/string/GUID/bool-keyed dictionary are copied, none under the extra-properties key |
| ErrorFacts.RandomValueProjected | Source/Tests/Plugins/PluginTests.cs:224 | with `RandomValue` set some property is projected |
| ErrorFacts.CopiesIntoRootError | Source/Tests/Plugins/PluginTests.cs:215-243 | the root error holds five entries: four copies and the extra properties |
| ErrorFacts.SnakeOfTwoWords | Source/Tests/Plugins/PluginTests.cs:267 | a two-word capitalised name becomes both words lower-cased and joined by `_` |
| ErrorFacts.SnakeCaseOfIgnoredProperty | Source/Tests/Plugins/PluginTests.cs:267 | `IgnoredProperty` becomes `ignored_property` |
| ErrorFacts.SnakeCaseOfRandomValue | Source/Tests/Plugins/PluginTests.cs:267 | `RandomValue` becomes `random_value` |
| ErrorFacts.IgnorePatternOnTestProperties | Source/Tests/Plugins/PluginTests.cs:269 | with `Ignore*` added, `IgnoredProperty` is excluded and `RandomValue` is not |
| ErrorFacts.ExtraFieldsCons | Source/Tests/Plugins/PluginTests.cs:267 | projection goes property by property, in declaration order |
| ErrorFacts.ExtraPropertiesInOrder | Source/Tests/Plugins/PluginTests.cs:267 | the extra properties are `ignored_property` then `random_value` |
| ErrorFacts.ExtraPropertiesHonourIgnorePattern | Source/Tests/Plugins/PluginTests.cs:269-278 | with `Ignore*` excluded only `random_value` remains |
| ErrorFacts.IgnoredPropertiesLeaveRecord | Source/Tests/Plugins/PluginTests.cs:245-280 | both runs of the test leave an error whose extra-properties entry has the expected fields |
| Client.DefaultKeysDistinct | Source/Tests/Plugins/PluginTests.cs:310-311 | the default registrations have distinct keys |
| Client.DefaultPrefixGrows | Source/Tests/Plugins/PluginTests.cs:310-311 | registering the next default plugin after the first i ones yields the first i + 1 |
| Client.ExceptionlessConfiguration.constructor | Source/Tests/Plugins/PluginTests.cs:410 | a new configuration holds exactly the default registrations, none constructed, zero counters, no settings |
| Client.ExceptionlessConfiguration.AddPlugin | Source/Tests/Plugins/PluginTests.cs:313-314 | the registry becomes `Registry.AddPlugin` of the old registry; the settings are unchanged |
| Client.ExceptionlessConfiguration.AddPluginType | Source/Tests/Plugins/PluginTests.cs:418-419 | registers the type under its full name at its declared priority |
| Client.ExceptionlessConfiguration.RemovePlugin | Source/Tests/Plugins/PluginTests.cs:311 | the registry becomes `Registry.RemovePlugin` of the old one |
| Client.ExceptionlessConfiguration.RemovePluginType | Source/Tests/Plugins/PluginTests.cs:426-427 | removes the registration keyed by the type's full name |
| Client.ExceptionlessConfiguration.RemoveAllPlugins | Source/Tests/Plugins/PluginTests.cs:310-311 | removing every enumerated key empties the registry and drops every instance; one disposal is counted per constructed counting plugin; construction and run counters are unchanged |
| Client.ExceptionlessConfiguration.UseReferenceIds | Source/Tests/Plugins/PluginTests.cs:332 | registers the reference-id plugin |
| Client.ExceptionlessConfiguration.AddDataExclusions | Source/Tests/Plugins/PluginTests.cs:56 | appends the patterns to the data exclusions, nothing else changes |
| Client.ExceptionlessConfiguration.AddUserAgentBotPatterns | Source/Tests/Plugins/PluginTests.cs:66 | appends the patterns to the bot patterns, nothing else changes |
| Client.ExceptionlessConfiguration.AddDefaultTag | Source/Tests/Plugins/PluginTests.cs:32 | adds the tag to the default tags, nothing else changes |
| Client.ExceptionlessConfiguration.AddDefaultData | Source/Tests/Plugins/PluginTests.cs:37 | adds the entry to the default data, nothing else changes |
| Client.ExceptionlessConfiguration.Resolve | Source/Tests/Plugins/PluginTests.cs:423 | resolving a registration's plugin is `Registry.Materialize` |
| Client.EventPluginContext.constructor | Source/Tests/Plugins/PluginTests.cs:26 | a new context holds the event, not cancelled, no exception |
| Client.EventPluginContext.SetException | Source/Tests/Plugins/PluginTests.cs:94 | stores the exception and changes nothing else |
| Client.ExceptionlessClient.constructor | Source/Tests/Plugins/PluginTests.cs:25 | a new client owns a fresh default configuration, no exception data, an empty queue and nothing delivered |
| Client.ExceptionlessClient.SetData | Source/Tests/Plugins/PluginTests.cs:199 | sets the exception's `Data` dictionary, nothing else changes |
| Client.ExceptionlessClient.RunErrorPlugin | Source/Tests/Plugins/PluginTests.cs:146 | the new state is `Pipeline.ErrorStep` of the old one |
| Client.ExceptionlessClient.RunPlugin | Source/Tests/Plugins/PluginTests.cs:29 | the new state is `Pipeline.RunTyped` of the old one |
| Client.ExceptionlessClient.SubmitInners | Source/Tests/Plugins/PluginTests.cs:122-124 | the new world is `Pipeline.SubmitAll` of the inner exceptions |
| Client.ExceptionlessClient.RunRegistration | Source/Tests/Plugins/PluginTests.cs:422-423 | the result is `Pipeline.Step` of the old state |
| Client.ExceptionlessClient.Run | Source/Tests/Plugins/PluginTests.cs:317 | the new state is `Pipeline.RunPlugins` over the registrations |
| Client.ExceptionlessClient.SubmitException | Source/Tests/Plugins/PluginTests.cs:111-128 | the new world is `Pipeline.Submit` of the exception |
| Client.ExceptionlessClient.ProcessQueue | Source/Tests/Plugins/PluginTests.cs:126 | the queue is handed over in order and emptied |
| Scenarios.VerifyPriority | Source/Tests/Plugins/PluginTests.cs:453-474 | the six plugins come out as unannotated, version, version2, version3, priority 11, environment info |
| Scenarios.CanCancel | Source/Tests/Plugins/PluginTests.cs:307-320 | the run is cancelled and the event has no tag |
| Scenarios.LazyLoadAndRemovePlugin | Source/Tests/Plugins/PluginTests.cs:386-394 | add then remove of the throwing plugin leaves no registration and constructs nothing |
| Scenarios.RunEveryPlugin | Source/Tests/Plugins/PluginTests.cs:422-423 | one pass over the single counting registration constructs it at most once and counts one run |
| Scenarios.CanDisposePlugin | Source/Tests/Plugins/PluginTests.cs:408-433 | the counters end at one construction, two runs and one disposal |
| Scenarios.ShouldUseReferenceIds | Source/Tests/Plugins/PluginTests.cs:322-336 | no reference id before `UseReferenceIds`, one after |
| Scenarios.RunDefaults | Source/Tests/Plugins/PluginTests.cs:29 | the defaults plugin leaves `ApplyDefaults` of the event, cancel unchanged |
| Scenarios.RunBotFilter | Source/Tests/Plugins/PluginTests.cs:71 | the bot filter cancels iff the event is a bot request |
| Scenarios.NoDuplicatesEvents | Source/Tests/Plugins/PluginTests.cs:23-43 | the events of the no-duplicates test, step by step |
| Scenarios.RunDefaultsTwice | Source/Tests/Plugins/PluginTests.cs:38-42 | both loop iterations see one tag and one data entry |
| Scenarios.RunDefaultsPlainThenTagged | Source/Tests/Plugins/PluginTests.cs:28-35 | no defaults: no tag and no data; after adding the default tag: one tag and no data |
| Scenarios.ConfigurationDefaultsNoDuplicates | Source/Tests/Plugins/PluginTests.cs:23-43 | tag and data counts (0,0), (1,0), (1,1), (1,1) |
| Scenarios.ConfigurationDefaultsIgnoredProperties | Source/Tests/Plugins/PluginTests.cs:45-61 | both runs leave exactly `Message` = "Test" |
| Scenarios.IgnoreUserAgentDiscardBot | Source/Tests/Plugins/PluginTests.cs:63-83 | no request and Safari are not cancelled; Bing is |
| Scenarios.EnvironmentInfoShouldAddSessionStart | Source/Tests/Plugins/PluginTests.cs:296-305 | exactly one data entry, the environment info |
| Scenarios.PrivateInformationWillSetIdentity | Source/Tests/Plugins/PluginTests.cs:338-348 | the identity becomes the machine user name |
| Scenarios.PrivateInformationWillNotUpdateIdentity | Source/Tests/Plugins/PluginTests.cs:350-363 | the user stays identity null, name "Blake" |
| Scenarios.CancelSessionsWithNoUser | Source/Tests/Plugins/PluginTests.cs:365-384 | cancelled iff session type and null or empty identity (all ten rows) |
| Scenarios.DefaultsAreHarmless | Source/Tests/Plugins/PluginTests.cs:114 | the default registrations are type registrations without the simple error plugin and with the error plugin at most once |
| Scenarios.RunAggregatePlugin | Source/Tests/Plugins/PluginTests.cs:95 | the aggregate plugin's run is `Pipeline.RunTyped` on a new context |
| Scenarios.HandleAggregateSingleInnerException | Source/Tests/Plugins/PluginTests.cs:85-109 | three runs not cancelled; both aggregates leave exception "one" |
| Scenarios.NewHarmlessClient | Source/Tests/Plugins/PluginTests.cs:113-115 | a fresh configured client whose registrations are harmless, with empty settings and queues |
| Scenarios.HandleAggregateMultipleInnerException | Source/Tests/Plugins/PluginTests.cs:111-128 | the run is cancelled and `ProcessQueue` delivers 2 events |
| Scenarios.RunErrorPluginOn | Source/Tests/Plugins/PluginTests.cs:143-146 | an error plugin's run is `Pipeline.ErrorStep` on a new context |
| Scenarios.ErrorPluginDiscardDuplicates | Source/Tests/Plugins/PluginTests.cs:130-160 | first run: not cancelled, error; second run: cancelled, no error |
| Scenarios.ErrorPluginCanProcessDifferentExceptionDataDictionaryTypes | Source/Tests/Plugins/PluginTests.cs:162-213 | not cancelled; an error is present; marked iff the key type admits strings; 1 entry, or 0 for a null dictionary |
| Scenarios.ErrorPluginCopyExceptionDataToRootErrorData | Source/Tests/Plugins/PluginTests.cs:215-243 | not cancelled; an error is present with 5 data entries |
| Scenarios.ExtraPropertiesAfterRun | Source/Tests/Plugins/PluginTests.cs:258-267 | one run leaves the expected extra properties for the current exclusions |
| Scenarios.ErrorPluginIgnoredProperties | Source/Tests/Plugins/PluginTests.cs:245-280 | the extra properties are both fields, then only `random_value` after `Ignore*` |

## Left out

- `EnvironmentInfo_CanRunInParallel` (PluginTests.cs:282-294): the model has no concurrency. The single-run outcome is `Scenarios.EnvironmentInfoShouldAddSessionStart`.
- `ViewPriority` (PluginTests.cs:476-481) only writes text to the test output.
- JSON serialisation of the extra-properties entry is left out. The entry is the ordered field list that the JSON text encodes.
- Dependency resolution, the submission client's transport and the API key are left out. A client is either configured (it submits) or not.
- `Environment.UserName`, `Guid.NewGuid()` and the environment-info payload are parameters (`machineUser`, `guid`, `environment`). A generated reference id is a serial number.
- Rules.WithEnvironmentUser: an empty machine user leaves the event unchanged. How the plugin looks up the user name is not part of this model, and the tests only run it with a non-empty name.
- Plugins the tests do not exercise are not modelled: duplicate checking, submission method, request info and the other built-ins.
- Plugin priorities:
  - The built-in plugins' priority values are not in the test file. `Registry.PriorityOf` picks values that keep the orders the tests rely on.
  - An unannotated plugin's priority is a parameter below 1 (`DefaultPriority` is 0).
  - The order among equal priorities is not fixed.
- The `CounterTestPlugin` counters are fields of the configuration, not static bytes. Their 8-bit wrap-around is not modelled because the tests stay far below 255.
- The two-plugin `foreach` in the error tests is a `plugin` parameter that must be `ErrorPlugin` or `SimpleErrorPlugin`.
- The test data at PluginTests.cs:162-185 is covered by one general statement, not by 18 rows. That statement covers any null or one-entry dictionary whose key no exclusion matches. Each non-string key type gives one copied entry, keyed by the key's text, as the test rows at lines 166-173 expect.
- Only the root exception's `Data` dictionary is marked. Inner exceptions' dictionaries are neither marked nor copied into the root error.
- Client.ExceptionlessClient: each client keeps its own table of the exceptions' `Data` dictionaries, so the `@exceptionless` marker is per client. In the Exceptionless library the dictionary, and so the marker, belongs to the exception object itself. An exception processed through one client is therefore processed afresh by another client in the model, whereas the library cancels it.
- `Client.ExceptionlessConfiguration.AddDefaultData` requires a new key, because the dictionary `Add` of the source throws on a duplicate key.
- Case folding is ASCII only (`Wildcard.Lower`), which suffices for every literal in the tests.
- A plugin constructor that throws is modelled only for `ThrowIfInitializedTestPlugin`. The registration is skipped and the run goes on.
