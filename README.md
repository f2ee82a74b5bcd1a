# Azure Cosmos DB instrumentation: a verified model

This project models the New Relic weaving instrumentation for the Azure Cosmos DB Java client (versions 4.0 to 4.x). Every woven call site does the same four things:

- it fills an attribute `HashMap` with the `Utils` helpers;
- it chooses a datastore descriptor: product `CosmosDB`, a collection and an operation;
- it creates a `CompletionRunnable` that holds the segment name, the descriptor, the transaction and (where the site calls `setAttributes`) the map;
- it hooks the runnable, and usually an `ErrorConsumer` bound to it, onto the reactive result it returns.

The model has these parts:

- **Agent** (`NewRelicApi`). The agent is a class whose calls append to a ghost event log: `Start`, `ReportExternal`, `AddAttrs`, `End` and `NoticeError`. A segment's id is the number of segments started before it.
- **Span lifecycle** (`SpanLifecycle`, `Instrumentation`).
  - `SpanLifecycle` describes `accept`, `run` and `ErrorConsumer.accept` as pure functions on the runnable's fields and the agent log.
  - `Instrumentation` holds the imperative classes `CompletionRunnable` and `ErrorConsumer`, each method proved equal to its function.
  - The invariant `Inv` says: every segment is started once, ended at most once, reported at most once and attributed at most once; the segment the runnable holds is open.
- **Hooks** (`Signals`).
  - A Reactor result is modelled as the hooks registered on it, in registration order (`doOnSubscribe`, `doOnCancel`, `doOnTerminate`, `doOnComplete`, `doOnError`), plus the signals it emits.
  - `Deliver` and `Replay` give what a signal sequence does to the runnable and the log. `TracedPublisher` is the imperative form, proved against them.
  - The five wirings used by the call sites are `Wiring` values.
- **Links and parsing** (`CosmosUtils`).
  - `getIDFromLink` is modelled with Java `String.split("/")` semantics, including the dropping of trailing empty strings.
  - `init` and `parseSQL` act on the static fields `parser` and `initialized`. The database service and its statement parser are oracles passed as parameters.
- **Attribute helpers** (`Utils`). `addAttribute` and the entity helpers are methods on a mutable `AttributeMap`. Each is proved equal to `PutAll` over the entries it writes; `LastFor` (the last admissible write of a key wins) is the reference reading.
- **Call sites** (`Interceptor` and one module per woven class and version).
  - Each woven method is a function returning either the exception it throws or an `Instrumented` value. That value holds the segment name, the descriptor, the helper calls in source order, whether `setAttributes` is called, and the wiring.
  - `Interceptor.Instrument` performs it imperatively: it fills a fresh map, builds the runnable, calls `setAttributes` where the site does, creates the error consumer where the wiring has one, and builds the publisher.
  - Operation and segment labels that do not match their method are reproduced as written.

The central property is `Signals.SiteLifecycle`. For every wiring, a subscribe followed by one terminal signal starts a segment exactly when the runnable has a non-empty name and a transaction. That segment is ended exactly once, except when 4.x `readItem` is cancelled, where it stays open. The error is noticed once wherever an error hook is registered. `Interceptor.WiringEvents` gives the exact log for each wiring and signal.

## Model

| member | source | states |
|---|---|---|
| JavaLang.Deref | azure-cosmsosdb-4.x/src/main/java/com/newrelic/instrumentation/azure/cosmos/CosmosUtils.java:37 | dereferencing a null reference throws `NullPointerException`; a non-null one yields its value |
| JavaLang.SimpleClassName | azure-cosmosdb-4.0/src/main/java/com/azure/cosmos/CosmosAsyncContainer.java:129 | `item.getClass().getSimpleName()` throws on a null item and otherwise is the simple name of its class |
| NewRelicApi.Count | azure-cosmsosdb-4.x/src/main/java/com/newrelic/instrumentation/azure/cosmos/CompletionRunnable.java:29-52 | the number of log events matching a pattern, at most the log's length; its extremes are stated by `CountExtremes` |
| NewRelicApi.CountExtremes | azure-cosmsosdb-4.x/src/main/java/com/newrelic/instrumentation/azure/cosmos/CompletionRunnable.java:29-52 | the count is zero exactly when no event matches and the log's length exactly when every event matches |
| NewRelicApi.CountAppend | azure-cosmsosdb-4.x/src/main/java/com/newrelic/instrumentation/azure/cosmos/CompletionRunnable.java:29-52 | counts of agent calls add up over concatenated logs |
| NewRelicApi.Agent.constructor | azure-cosmsosdb-4.x/src/main/java/com/newrelic/instrumentation/azure/cosmos/CompletionRunnable.java:49 | a fresh agent has an empty log and has handed out no segment |
| NewRelicApi.Agent.StartSegment | azure-cosmsosdb-4.x/src/main/java/com/newrelic/instrumentation/azure/cosmos/CompletionRunnable.java:49 | `startSegment` returns the next segment id and logs exactly one `Start` of that id, name and transaction |
| NewRelicApi.Agent.ReportAsExternal | azure-cosmsosdb-4.x/src/main/java/com/newrelic/instrumentation/azure/cosmos/CompletionRunnable.java:33 | `reportAsExternal` logs exactly one report of the descriptor and starts nothing |
| NewRelicApi.Agent.AddCustomAttributes | azure-cosmsosdb-4.x/src/main/java/com/newrelic/instrumentation/azure/cosmos/CompletionRunnable.java:36 | `addCustomAttributes` logs exactly the given map for the segment |
| NewRelicApi.Agent.EndSegment | azure-cosmsosdb-4.x/src/main/java/com/newrelic/instrumentation/azure/cosmos/CompletionRunnable.java:38 | `end` logs exactly one end of the segment |
| NewRelicApi.Agent.NoticeError | azure-cosmosdb-4.28/src/main/java/com/newrelic/instrumentation/azure/cosmos428/ErrorConsumer.java:19 | `noticeError` logs exactly one notice of the throwable |
| SpanLifecycle.FreshInv | azure-cosmsosdb-4.x/src/main/java/com/newrelic/instrumentation/azure/cosmos/CompletionRunnable.java:22-26 | a freshly constructed runnable (no segment) on a well-formed log satisfies the invariant |
| SpanLifecycle.AcceptSpec | azure-cosmsosdb-4.x/src/main/java/com/newrelic/instrumentation/azure/cosmos/CompletionRunnable.java:46-52 | `accept` starts a segment exactly when the name is non-null and non-empty and the transaction is non-null, storing the new id; otherwise nothing changes |
| SpanLifecycle.RunSpec | azure-cosmsosdb-4.x/src/main/java/com/newrelic/instrumentation/azure/cosmos/CompletionRunnable.java:29-42 | with no segment `run` changes nothing; with one it reports the descriptor if non-null, then the attributes if non-null, then ends the segment, and nulls the field |
| SpanLifecycle.CloseLogCount | azure-cosmsosdb-4.x/src/main/java/com/newrelic/instrumentation/azure/cosmos/CompletionRunnable.java:32-38 | the calls `run` makes on an open segment add, kind by kind, a fixed count to the log |
| SpanLifecycle.CloseLogEnds | azure-cosmsosdb-4.x/src/main/java/com/newrelic/instrumentation/azure/cosmos/CompletionRunnable.java:38 | closing a segment ends that segment exactly once |
| SpanLifecycle.RunCounts | azure-cosmsosdb-4.x/src/main/java/com/newrelic/instrumentation/azure/cosmos/CompletionRunnable.java:31-39 | `run` on an open segment adds exactly one end, of that segment, and starts nothing |
| SpanLifecycle.RunReportCounts | azure-cosmsosdb-4.x/src/main/java/com/newrelic/instrumentation/azure/cosmos/CompletionRunnable.java:32-37 | `run` reports the segment once exactly when there is a descriptor, and attributes it once exactly when there is a map |
| SpanLifecycle.RunKeepsStartsAndNotices | azure-cosmsosdb-4.x/src/main/java/com/newrelic/instrumentation/azure/cosmos/CompletionRunnable.java:29-42 | `run` never starts a segment and never notices an error |
| SpanLifecycle.RunIdempotent | azure-cosmsosdb-4.x/src/main/java/com/newrelic/instrumentation/azure/cosmos/CompletionRunnable.java:39 | after `run` the field is null, and a second `run` is a no-op |
| SpanLifecycle.RunTimesIsRun | azure-cosmsosdb-4.x/src/main/java/com/newrelic/instrumentation/azure/cosmos/CompletionRunnable.java:29-42 | any positive number of `run` calls in a row acts as one |
| SpanLifecycle.AcceptThenRuns | azure-cosmsosdb-4.x/src/main/java/com/newrelic/instrumentation/azure/cosmos/CompletionRunnable.java:29-52 | `accept` followed by any number of `run` calls starts and ends exactly one segment when a name and a transaction are present, none otherwise |
| SpanLifecycle.AcceptKeepsInv | azure-cosmsosdb-4.x/src/main/java/com/newrelic/instrumentation/azure/cosmos/CompletionRunnable.java:46-52 | `accept` keeps the invariant: the segment it starts has a fresh id and is open |
| SpanLifecycle.StartCounts | azure-cosmsosdb-4.x/src/main/java/com/newrelic/instrumentation/azure/cosmos/CompletionRunnable.java:49 | a start adds one to the count of its own segment and leaves the ends, reports and attributes of every segment as they were |
| SpanLifecycle.StartingKeepsLogInv | azure-cosmsosdb-4.x/src/main/java/com/newrelic/instrumentation/azure/cosmos/CompletionRunnable.java:49 | starting the next segment keeps the log well formed and leaves that segment open |
| SpanLifecycle.RunKeepsInv | azure-cosmsosdb-4.x/src/main/java/com/newrelic/instrumentation/azure/cosmos/CompletionRunnable.java:29-42 | `run` keeps the invariant: it ends only the open segment it holds, once |
| SpanLifecycle.CloseLogCountPerId | azure-cosmsosdb-4.x/src/main/java/com/newrelic/instrumentation/azure/cosmos/CompletionRunnable.java:32-39 | `run` ends only its own segment, reports and attributes only it, at most once each, and starts nothing |
| SpanLifecycle.EndingKeepsLogInv | azure-cosmsosdb-4.x/src/main/java/com/newrelic/instrumentation/azure/cosmos/CompletionRunnable.java:37-39 | ending an open segment with at most one report and one attribute set keeps the log well formed and closes it |
| SpanLifecycle.ErrorAcceptKeepsInv | azure-cosmosdb-4.28/src/main/java/com/newrelic/instrumentation/azure/cosmos428/ErrorConsumer.java:18-23 | the error consumer keeps the invariant |
| SpanLifecycle.ApplyKeepsInv | azure-cosmsosdb-4.x/src/main/java/com/newrelic/instrumentation/azure/cosmos/CompletionRunnable.java:29-52 | every hook invocation (`accept`, `run`, error consumer) keeps the invariant |
| SpanLifecycle.ApplyAllKeepsInv | azure-cosmsosdb-4.x/src/main/java/com/newrelic/instrumentation/azure/cosmos/CompletionRunnable.java:29-52 | any sequence of hook invocations keeps the invariant, so every segment is ended at most once and reported at most once |
| SpanLifecycle.RunAvoids | azure-cosmsosdb-4.x/src/main/java/com/newrelic/instrumentation/azure/cosmos/CompletionRunnable.java:31-39 | `run` never ends a segment other than the one the runnable holds |
| SpanLifecycle.ApplyAvoids | azure-cosmsosdb-4.x/src/main/java/com/newrelic/instrumentation/azure/cosmos/CompletionRunnable.java:29-52 | no hook invocation ends a started segment that the runnable does not hold, and none makes the runnable hold it again |
| SpanLifecycle.LeakIsPermanent | azure-cosmsosdb-4.x/src/main/java/com/newrelic/instrumentation/azure/cosmos/CompletionRunnable.java:49 | a started segment the runnable has let go of is never ended by any later sequence of hook invocations |
| SpanLifecycle.SecondAcceptKeepsFirstOpen | azure-cosmsosdb-4.x/src/main/java/com/newrelic/instrumentation/azure/cosmos/CompletionRunnable.java:49 | a second `accept` without a `run` in between overwrites the field with a new segment and leaves the first one open |
| SpanLifecycle.SecondAcceptLeaks | azure-cosmsosdb-4.x/src/main/java/com/newrelic/instrumentation/azure/cosmos/CompletionRunnable.java:49 | after a second `accept`, the first segment is never ended, whatever hooks run afterwards |
| SpanLifecycle.ErrorAcceptCounts | azure-cosmosdb-4.28/src/main/java/com/newrelic/instrumentation/azure/cosmos428/ErrorConsumer.java:18-23 | the error consumer notices the error once, ends the segment the runnable holds (if any), starts nothing and nulls the field |
| SpanLifecycle.ErrorTwice | azure-cosmosdb-4.28/src/main/java/com/newrelic/instrumentation/azure/cosmos428/ErrorConsumer.java:18-23 | two error deliveries notice the error twice but end the segment at most once |
| Instrumentation.CompletionRunnable.constructor | azure-cosmsosdb-4.x/src/main/java/com/newrelic/instrumentation/azure/cosmos/CompletionRunnable.java:22-26 | the constructor stores name, descriptor and transaction, with no segment and no attributes |
| Instrumentation.CompletionRunnable.SetAttributes | azure-cosmsosdb-4.x/src/main/java/com/newrelic/instrumentation/azure/cosmos/CompletionRunnable.java:18-20 | `setAttributes` replaces any previous map and changes no other field |
| Instrumentation.CompletionRunnable.Accept | azure-cosmsosdb-4.x/src/main/java/com/newrelic/instrumentation/azure/cosmos/CompletionRunnable.java:46-52 | the imperative `accept` does to the fields and the agent log exactly what `SpanLifecycle.Accept` describes |
| Instrumentation.CompletionRunnable.Run | azure-cosmsosdb-4.x/src/main/java/com/newrelic/instrumentation/azure/cosmos/CompletionRunnable.java:29-42 | the imperative `run` does exactly what `SpanLifecycle.Run` describes |
| Instrumentation.ErrorConsumer.constructor | azure-cosmosdb-4.28/src/main/java/com/newrelic/instrumentation/azure/cosmos428/ErrorConsumer.java:13-15 | the constructor stores the given runnable unchanged, null included |
| Instrumentation.ErrorConsumer.Accept | azure-cosmosdb-4.28/src/main/java/com/newrelic/instrumentation/azure/cosmos428/ErrorConsumer.java:18-23 | `accept(t)` notices the error and then runs the bound runnable; with a null runnable it only notices the error |
| Signals.ErrorSteps | azure-cosmosdb-4.28/src/main/java/com/newrelic/instrumentation/azure/cosmos428/ErrorConsumer.java:18-23 | the number of error-consumer calls in a step sequence, at most its length; its extremes are stated by `ErrorStepsExtremes` |
| Signals.ErrorStepsExtremes | azure-cosmosdb-4.28/src/main/java/com/newrelic/instrumentation/azure/cosmos428/ErrorConsumer.java:18-23 | the count is zero exactly when no step is an error delivery, and the sequence's length exactly when every step is |
| Signals.StepsAppend | azure-cosmsosdb-4.x/src/main/java/com/azure/cosmos/implementation/RxDocumentClientImpl.java:45 | hooks registered one after another react to a signal in registration order |
| Signals.ApplyAllAppend | azure-cosmsosdb-4.x/src/main/java/com/newrelic/instrumentation/azure/cosmos/CompletionRunnable.java:29-52 | hook invocations compose: running a then b is running b on the result of a |
| Signals.ReplaySnoc | azure-cosmsosdb-4.x/src/main/java/com/azure/cosmos/implementation/RxDocumentClientImpl.java:45 | a signal sequence is delivered one signal after another |
| Signals.TraceSnoc | azure-cosmsosdb-4.x/src/main/java/com/azure/cosmos/implementation/RxDocumentClientImpl.java:45 | the invocations of a signal sequence are those of its prefix followed by those of its last signal |
| Signals.SubscribeSteps | azure-cosmsosdb-4.x/src/main/java/com/azure/cosmos/implementation/RxDocumentClientImpl.java:45 | the subscribe signal calls `accept` once per subscribe hook and nothing else |
| Signals.TerminalSteps | azure-cosmsosdb-4.x/src/main/java/com/azure/cosmos/implementation/RxDocumentClientImpl.java:45 | a terminal signal never calls `accept`; an error reaches the error consumer once per error hook, other signals never reach it |
| Signals.ClosingStep | azure-cosmsosdb-4.x/src/main/java/com/newrelic/instrumentation/azure/cosmos/CompletionRunnable.java:29-42 | one `run` or error-consumer call ends the held segment if any, notices the error it carries, and nulls the field |
| Signals.ClosingSteps | azure-cosmsosdb-4.x/src/main/java/com/newrelic/instrumentation/azure/cosmos/CompletionRunnable.java:29-42 | any number of closing calls end the held segment exactly once, notice each error, and start nothing |
| Signals.ReplayKeepsInv | azure-cosmsosdb-4.x/src/main/java/com/azure/cosmos/implementation/RxDocumentClientImpl.java:45 | every signal sequence through any hook chain keeps the invariant: each segment ended and reported at most once |
| Signals.TraceWithoutSubscribe | azure-cosmsosdb-4.x/src/main/java/com/azure/cosmos/implementation/RxDocumentClientImpl.java:45 | signals none of which is a subscribe never call `accept` |
| Signals.NeverSubscribedStartsNothing | azure-cosmsosdb-4.x/src/main/java/com/newrelic/instrumentation/azure/cosmos/CompletionRunnable.java:29-31 | a result that is never subscribed starts no segment and, with no segment held, ends none |
| Signals.StepsEmptyIff | azure-cosmsosdb-4.x/src/main/java/com/azure/cosmos/CosmosAsyncContainer.java:40 | a terminal signal invokes nothing exactly when no registered hook reacts to it |
| Signals.SubscribeThenOther | azure-cosmsosdb-4.x/src/main/java/com/azure/cosmos/implementation/RxDocumentClientImpl.java:45 | on a chain with one subscribe hook, subscribe then a signal is `accept` followed by that signal's invocations |
| Signals.SubscribeThenTerminal | azure-cosmsosdb-4.x/src/main/java/com/azure/cosmos/implementation/RxDocumentClientImpl.java:45 | subscribe then one terminal signal starts a segment exactly when the runnable opens one, ends it exactly when some hook reacts, and notices an error once per error hook |
| Signals.AcceptCounts | azure-cosmsosdb-4.x/src/main/java/com/newrelic/instrumentation/azure/cosmos/CompletionRunnable.java:46-52 | `accept` adds one start exactly when it opens a segment, and no end or notice |
| Signals.Hooks | azure-cosmosdb-4.0/src/main/java/com/azure/cosmos/CosmosAsyncDatabase.java:33 | every wiring registers the subscribe hook first; an error and a cancel hook exactly except on 4.x `readItem`; a complete hook exactly on the feed wiring, a terminate hook on every other |
| Signals.WiringFacts | azure-cosmsosdb-4.x/src/main/java/com/azure/cosmos/CosmosAsyncContainer.java:40 | every wiring closes on every terminal signal except 4.x readItem on cancel; one subscribe hook; one error hook except on 4.x readItem |
| Signals.WiringCloses | azure-cosmsosdb-4.x/src/main/java/com/azure/cosmos/CosmosAsyncContainer.java:40 | a wiring's hooks react to a terminal signal exactly unless it is 4.x readItem's wiring and the signal is a cancel |
| Signals.HookCounts | azure-cosmosdb-4.0/src/main/java/com/azure/cosmos/CosmosAsyncClient.java:30 | every wiring has exactly one subscribe hook, and one error hook except 4.x readItem's, which has none |
| Signals.SiteLifecycle | azure-cosmosdb-4.0/src/main/java/com/azure/cosmos/CosmosAsyncDatabase.java:33 | for every wiring, subscribe then one terminal signal starts at most one segment and ends it exactly once (open only on a cancelled 4.x readItem), notices an error once where an error hook exists, and ends no segment twice |
| Signals.TracedPublisher.constructor | azure-cosmsosdb-4.x/src/main/java/com/azure/cosmos/implementation/RxDocumentClientImpl.java:45 | the publisher keeps the hooks in registration order, the runnable and the error consumer bound to it |
| Signals.TracedPublisher.Receive | azure-cosmsosdb-4.x/src/main/java/com/azure/cosmos/implementation/RxDocumentClientImpl.java:45 | one signal runs the reacting hooks in registration order, with the effect `Deliver` describes |
| Signals.TracedPublisher.ReceiveAll | azure-cosmsosdb-4.x/src/main/java/com/azure/cosmos/implementation/RxDocumentClientImpl.java:45 | a signal sequence has the effect `Replay` describes |
| CosmosUtils.Pieces | azure-cosmsosdb-4.x/src/main/java/com/newrelic/instrumentation/azure/cosmos/CosmosUtils.java:37 | splitting on slashes yields at least one piece |
| CosmosUtils.DropTrailingEmpty | azure-cosmsosdb-4.x/src/main/java/com/newrelic/instrumentation/azure/cosmos/CosmosUtils.java:37 | dropping trailing empty pieces never lengthens the list |
| CosmosUtils.GetIdFromLink | azure-cosmsosdb-4.x/src/main/java/com/newrelic/instrumentation/azure/cosmos/CosmosUtils.java:36-42 | a null link throws `NullPointerException`; a non-empty link of slashes only throws `ArrayIndexOutOfBoundsException`; otherwise the result is what follows the last slash once trailing slashes are dropped |
| CosmosUtils.PiecesLast | azure-cosmsosdb-4.x/src/main/java/com/newrelic/instrumentation/azure/cosmos/CosmosUtils.java:37 | the last piece is what follows the last slash, and no piece contains a slash |
| CosmosUtils.JoinPieces | azure-cosmsosdb-4.x/src/main/java/com/newrelic/instrumentation/azure/cosmos/CosmosUtils.java:37 | joining the pieces back with slashes gives the original link |
| CosmosUtils.DropPieces | azure-cosmsosdb-4.x/src/main/java/com/newrelic/instrumentation/azure/cosmos/CosmosUtils.java:37 | dropping the trailing empty pieces equals splitting the link with its trailing slashes removed |
| CosmosUtils.TrimEmptyIff | azure-cosmsosdb-4.x/src/main/java/com/newrelic/instrumentation/azure/cosmos/CosmosUtils.java:37-41 | the trimmed link is empty exactly when the link is slashes only; a link without a slash is its own id |
| CosmosUtils.JavaSplitLast | azure-cosmsosdb-4.x/src/main/java/com/newrelic/instrumentation/azure/cosmos/CosmosUtils.java:37-41 | `split("/")` is empty exactly for a non-empty all-slash link; otherwise its last element is the text after the last slash of the trimmed link |
| CosmosUtils.IdShape | azure-cosmsosdb-4.x/src/main/java/com/newrelic/instrumentation/azure/cosmos/CosmosUtils.java:36-42 | a returned id contains no slash, and the link is a prefix ending in a slash (or nothing), then the id, then slashes only |
| CosmosUtils.ShapeOfLastSegment | azure-cosmsosdb-4.x/src/main/java/com/newrelic/instrumentation/azure/cosmos/CosmosUtils.java:36-42 | for every link, the text after the last slash of the trimmed link is slash-free and sits between a prefix ending in a slash (or nothing) and trailing slashes |
| CosmosUtils.SplitAround | azure-cosmsosdb-4.x/src/main/java/com/newrelic/instrumentation/azure/cosmos/CosmosUtils.java:36-42 | every link is a prefix ending in a slash (or empty), then the id, then trailing slashes |
| CosmosUtils.ExampleFullLink | azure-cosmsosdb-4.x/src/main/java/com/newrelic/instrumentation/azure/cosmos/CosmosUtils.java:36-42 | `dbs/mydb/colls/items` gives `items` |
| CosmosUtils.ExampleTrailingSlash | azure-cosmsosdb-4.x/src/main/java/com/newrelic/instrumentation/azure/cosmos/CosmosUtils.java:37 | `dbs/mydb/` gives `mydb` |
| CosmosUtils.ExampleEmptyAndSlashes | azure-cosmsosdb-4.x/src/main/java/com/newrelic/instrumentation/azure/cosmos/CosmosUtils.java:37-41 | the empty link gives the empty id; `///` throws `ArrayIndexOutOfBoundsException` |
| CosmosUtils.InitSpecFacts | azure-cosmsosdb-4.x/src/main/java/com/newrelic/instrumentation/azure/cosmos/CosmosUtils.java:15-21 | `init` sets the flag exactly when the service exists, takes the service's parser then, and never clears the flag |
| CosmosUtils.RetriesWhileServiceMissing | azure-cosmsosdb-4.x/src/main/java/com/newrelic/instrumentation/azure/cosmos/CosmosUtils.java:23-34 | while uninitialised and without a service, every `parseSQL` returns null and leaves the state unchanged, so the next call tries `init` again |
| CosmosUtils.ServiceAppears | azure-cosmsosdb-4.x/src/main/java/com/newrelic/instrumentation/azure/cosmos/CosmosUtils.java:23-31 | the first call that sees a service initialises the statics and returns that parser's result |
| CosmosUtils.InitializedIsSticky | azure-cosmsosdb-4.x/src/main/java/com/newrelic/instrumentation/azure/cosmos/CosmosUtils.java:28-31 | once initialised, every call returns the stored parser's result, whatever the service, and the state never changes |
| CosmosUtils.Statics.constructor | azure-cosmsosdb-4.x/src/main/java/com/newrelic/instrumentation/azure/cosmos/CosmosUtils.java:11-13 | class loading leaves no parser and the flag false |
| CosmosUtils.Statics.Init | azure-cosmsosdb-4.x/src/main/java/com/newrelic/instrumentation/azure/cosmos/CosmosUtils.java:15-21 | the imperative `init` updates the statics as `InitSpec` describes |
| CosmosUtils.Statics.ParseSql | azure-cosmsosdb-4.x/src/main/java/com/newrelic/instrumentation/azure/cosmos/CosmosUtils.java:23-34 | the imperative `parseSQL` returns and updates as `ParseSqlSpec` describes |
| Utils.PutAllSpec | azure-cosmosdb-4.28/src/main/java/com/newrelic/instrumentation/azure/cosmos428/Utils.java:37-41 | successive `addAttribute` calls leave a key present exactly when it was or some call wrote it, with the last written value |
| Utils.SameLastSamePut | azure-cosmosdb-4.28/src/main/java/com/newrelic/instrumentation/azure/cosmos428/Utils.java:37-41 | two call sequences with the same last value per key build the same map |
| Utils.PutAllIdempotent | azure-cosmosdb-4.28/src/main/java/com/newrelic/instrumentation/azure/cosmos428/Utils.java:37-98 | applying any helper's calls twice gives the same map as applying them once |
| Utils.WithAttributeSpec | azure-cosmosdb-4.28/src/main/java/com/newrelic/instrumentation/azure/cosmos428/Utils.java:37-41 | `addAttribute` writes the entry exactly when the key is non-null and non-empty and the value non-null, overwriting that key only; otherwise the map is unchanged |
| Utils.PartitionKeySpec | azure-cosmosdb-4.28/src/main/java/com/newrelic/instrumentation/azure/cosmos428/Utils.java:43-47 | `addPartitionKey(null)` adds nothing; a key adds exactly `PartitionKey` with its text |
| Utils.LastForInKeys | azure-cosmosdb-4.28/src/main/java/com/newrelic/instrumentation/azure/cosmos428/Utils.java:37-41 | a key has a last value exactly when some admissible call names it |
| Utils.EntityHelperSpec | azure-cosmosdb-4.28/src/main/java/com/newrelic/instrumentation/azure/cosmos428/Utils.java:49-88 | an entity helper leaves the map unchanged for a null entity and touches only its own keys, writing exactly those with non-null values |
| Utils.HelperKeys | azure-cosmosdb-4.28/src/main/java/com/newrelic/instrumentation/azure/cosmos428/Utils.java:49-98 | the named keys of each helper: three per entity, four for an offer |
| Utils.OfferIdWrittenOnce | azure-cosmosdb-4.28/src/main/java/com/newrelic/instrumentation/azure/cosmos428/Utils.java:90-98 | `addOffer` writes `Offer-Id` twice with the same value, which gives the map of writing it once |
| Utils.AttributeMap.constructor | azure-cosmosdb-4.0/src/main/java/com/azure/cosmos/CosmosAsyncContainer.java:60 | `new HashMap` is empty |
| Utils.AddAttribute | azure-cosmosdb-4.28/src/main/java/com/newrelic/instrumentation/azure/cosmos428/Utils.java:37-41 | the in-place `addAttribute` leaves a null map alone and otherwise performs `WithAttribute` |
| Utils.AddThree | azure-cosmosdb-4.28/src/main/java/com/newrelic/instrumentation/azure/cosmos428/Utils.java:49-88 | three `addAttribute` calls in a row perform `PutAll` of the three entries |
| Utils.AddPartitionKey | azure-cosmosdb-4.28/src/main/java/com/newrelic/instrumentation/azure/cosmos428/Utils.java:43-47 | the in-place `addPartitionKey` performs its entries |
| Utils.AddDocumentCollection | azure-cosmosdb-4.28/src/main/java/com/newrelic/instrumentation/azure/cosmos428/Utils.java:49-55 | the in-place `addDocumentCollection` performs its entries |
| Utils.AddDatabase | azure-cosmosdb-4.28/src/main/java/com/newrelic/instrumentation/azure/cosmos428/Utils.java:57-64 | the in-place `addDatabase` performs its entries |
| Utils.AddStoredProcedure | azure-cosmosdb-4.28/src/main/java/com/newrelic/instrumentation/azure/cosmos428/Utils.java:66-72 | the in-place `addStoredProcedure` performs its entries |
| Utils.AddUser | azure-cosmosdb-4.28/src/main/java/com/newrelic/instrumentation/azure/cosmos428/Utils.java:74-80 | the in-place `addUser` performs its entries |
| Utils.AddDocument | azure-cosmosdb-4.28/src/main/java/com/newrelic/instrumentation/azure/cosmos428/Utils.java:82-88 | the in-place `addDocument` performs its entries |
| Utils.AddOffer | azure-cosmosdb-4.28/src/main/java/com/newrelic/instrumentation/azure/cosmos428/Utils.java:90-98 | the in-place `addOffer` performs its five calls, `Offer-Id` twice |
| Interceptor.QueryDescriptor | azure-cosmsosdb-4.x/src/main/java/com/azure/cosmos/implementation/RxDocumentClientImpl.java:211-215 | a query descriptor exists exactly when the parser returns a statement; it names `CosmosDB`, the statement's model and operation, and the raw query text (identity converter) as slow query |
| Interceptor.QueryParams | azure-cosmsosdb-4.x/src/main/java/com/azure/cosmos/implementation/RxDocumentClientImpl.java:211-215 | a query site throws exactly when `parseSQL` throws, and otherwise builds `QueryDescriptor` of its result |
| Interceptor.IdOrElse | azure-cosmosdb-4.0/src/main/java/com/azure/cosmos/CosmosAsyncContainer.java:34-37 | `getId()` is used when non-null and non-empty, the fallback otherwise |
| Interceptor.LinkSite | azure-cosmsosdb-4.x/src/main/java/com/azure/cosmos/implementation/RxDocumentClientImpl.java:118 | a site named by a link throws exactly where `getIDFromLink` does, and otherwise uses the link's id as collection |
| Interceptor.FilledSnoc | azure-cosmsosdb-4.x/src/main/java/com/azure/cosmos/implementation/RxDocumentClientImpl.java:460-462 | one more helper call applies its entries to the map built so far |
| Interceptor.FilledSpec | azure-cosmosdb-4.28/src/main/java/com/newrelic/instrumentation/azure/cosmos428/Utils.java:37-41 | the filled map holds a key exactly when some helper call wrote it, with the last written value |
| Interceptor.FilledKey | azure-cosmosdb-4.28/src/main/java/com/newrelic/instrumentation/azure/cosmos428/Utils.java:37-41 | `FilledSpec` at a single key |
| Interceptor.UnwrittenKey | azure-cosmosdb-4.28/src/main/java/com/newrelic/instrumentation/azure/cosmos428/Utils.java:37-41 | a key that no helper call names has no value |
| Interceptor.FilledAt | azure-cosmosdb-4.28/src/main/java/com/newrelic/instrumentation/azure/cosmos428/Utils.java:39 | a value written under a key that no later call names is the one the map keeps |
| Interceptor.FilledPut | azure-cosmosdb-4.28/src/main/java/com/newrelic/instrumentation/azure/cosmos428/Utils.java:37-41 | one more `addAttribute` on the filled map sets its key if the value is non-null and changes nothing otherwise |
| Interceptor.FilledPartitionKey | azure-cosmosdb-4.28/src/main/java/com/newrelic/instrumentation/azure/cosmos428/Utils.java:43-47 | one more `addPartitionKey` on the filled map sets `PartitionKey` if the key is non-null |
| Interceptor.Perform | azure-cosmosdb-4.28/src/main/java/com/newrelic/instrumentation/azure/cosmos428/Utils.java:37-98 | one helper call on the site's map applies that helper's entries |
| Interceptor.Fill | azure-cosmsosdb-4.x/src/main/java/com/azure/cosmos/implementation/RxDocumentClientImpl.java:457-463 | a fresh map followed by the site's helper calls, the `readMany` loop included, holds `Filled` of the calls |
| Interceptor.Instrument | azure-cosmsosdb-4.x/src/main/java/com/azure/cosmos/implementation/RxDocumentClientImpl.java:30-46 | the runnable holds the site's name, descriptor and transaction, the filled map exactly where `setAttributes` is called, no segment; the publisher carries the wiring's hooks and an error consumer bound to the runnable where the wiring has an error hook |
| Interceptor.WithoutSubscribe | azure-cosmsosdb-4.x/src/main/java/com/azure/cosmos/implementation/RxDocumentClientImpl.java:45 | the subscribe hook, registered first, ignores terminal signals |
| Interceptor.WiringStepsSpec | azure-cosmsosdb-4.x/src/main/java/com/azure/cosmos/implementation/RxDocumentClientImpl.java:45 | the invocations each wiring makes for each terminal signal (e.g. `run` twice then the error consumer on the double-terminate wiring) |
| Interceptor.TwiceSteps | azure-cosmosdb-4.0/src/main/java/com/azure/cosmos/CosmosAsyncDatabase.java:33 | on the double-terminate wiring, an error runs `run` twice and then the error consumer |
| Interceptor.QuietSteps | azure-cosmsosdb-4.x/src/main/java/com/newrelic/instrumentation/azure/cosmos/CompletionRunnable.java:31 | with no segment held, a terminal signal only adds the notices |
| Interceptor.OpenedSteps | azure-cosmsosdb-4.x/src/main/java/com/newrelic/instrumentation/azure/cosmos/CompletionRunnable.java:29-42 | after `accept` opened a segment, the first closing call closes it and later `run` calls do nothing, per wiring |
| Interceptor.WiringEvents | azure-cosmsosdb-4.x/src/main/java/com/azure/cosmos/implementation/RxDocumentClientImpl.java:45 | subscribe then one terminal signal produces exactly `ExpectedLog` for every wiring, and leaves the runnable without a segment except on a cancelled 4.x readItem |
| Interceptor.ErrorClosesThenNotices | azure-cosmsosdb-4.x/src/main/java/com/azure/cosmos/implementation/RxDocumentClientImpl.java:45 | where terminate precedes the error hook, an error closes the span (start, report, attributes, end) and then notices the error |
| Interceptor.ErrorNoticesThenCloses | azure-cosmsosdb-4.x/src/main/java/com/azure/cosmos/implementation/RxDocumentClientImpl.java:221 | on the query wiring an error is noticed before the error consumer's `run` closes the span |
| RxDocumentClient4x.QuerySite | azure-cosmsosdb-4.x/src/main/java/com/azure/cosmos/implementation/RxDocumentClientImpl.java:289-309 | a query site throws on a null spec or a throwing parser; otherwise it records `Query`, uses the query descriptor and the complete wiring |
| RxDocumentClient4x.CreateCollection | azure-cosmsosdb-4.x/src/main/java/com/azure/cosmos/implementation/RxDocumentClientImpl.java:30-46 | throws on a null collection; the collection is its id; attributes attached; terminate wiring |
| RxDocumentClient4x.CreateDatabase | azure-cosmsosdb-4.x/src/main/java/com/azure/cosmos/implementation/RxDocumentClientImpl.java:48-60 | throws on a null database; the collection is its id |
| RxDocumentClient4x.CreateDocument | azure-cosmsosdb-4.x/src/main/java/com/azure/cosmos/implementation/RxDocumentClientImpl.java:62-78 | throws on a null document; the collection is its simple class name; the segment is named `createDatabase` |
| RxDocumentClient4x.CreateStoredProcedure | azure-cosmsosdb-4.x/src/main/java/com/azure/cosmos/implementation/RxDocumentClientImpl.java:80-95 | throws on a null stored procedure; the collection is its id |
| RxDocumentClient4x.CreateUser | azure-cosmsosdb-4.x/src/main/java/com/azure/cosmos/implementation/RxDocumentClientImpl.java:97-111 | throws where `getIDFromLink` does; the collection is the database link's id |
| RxDocumentClient4x.DeleteCollection | azure-cosmsosdb-4.x/src/main/java/com/azure/cosmos/implementation/RxDocumentClientImpl.java:113-127 | the collection is the link's id; operation and segment are those of `deleteAllDocumentsByPartitionKey` |
| RxDocumentClient4x.DeleteDatabase | azure-cosmsosdb-4.x/src/main/java/com/azure/cosmos/implementation/RxDocumentClientImpl.java:129-143 | throws where `getIDFromLink` does; the collection is the link's id |
| RxDocumentClient4x.DeleteDocument | azure-cosmsosdb-4.x/src/main/java/com/azure/cosmos/implementation/RxDocumentClientImpl.java:145-158 | throws where `getIDFromLink` does; the collection is the link's id |
| RxDocumentClient4x.DeleteStoredProcedure | azure-cosmsosdb-4.x/src/main/java/com/azure/cosmos/implementation/RxDocumentClientImpl.java:160-173 | throws where `getIDFromLink` does; the collection is the link's id |
| RxDocumentClient4x.DeleteUser | azure-cosmsosdb-4.x/src/main/java/com/azure/cosmos/implementation/RxDocumentClientImpl.java:175-188 | never throws; the collection is empty |
| RxDocumentClient4x.ExecuteStoredProcedure | azure-cosmsosdb-4.x/src/main/java/com/azure/cosmos/implementation/RxDocumentClientImpl.java:190-203 | throws where `getIDFromLink` does; the collection is the link's id |
| RxDocumentClient4x.QueryCollectionsSpec | azure-cosmsosdb-4.x/src/main/java/com/azure/cosmos/implementation/RxDocumentClientImpl.java:205-222 | the query descriptor; the attributes are built but never attached |
| RxDocumentClient4x.QueryCollectionsText | azure-cosmsosdb-4.x/src/main/java/com/azure/cosmos/implementation/RxDocumentClientImpl.java:224-243 | a null query string is parsed, not thrown on; the query descriptor; attached; complete wiring |
| RxDocumentClient4x.QueryConflicts | azure-cosmsosdb-4.x/src/main/java/com/azure/cosmos/implementation/RxDocumentClientImpl.java:245-266 | throws on a null spec or a throwing parser; the query descriptor otherwise |
| RxDocumentClient4x.QueryDatabases | azure-cosmsosdb-4.x/src/main/java/com/azure/cosmos/implementation/RxDocumentClientImpl.java:268-287 | throws on a null spec or a throwing parser; the query descriptor otherwise |
| RxDocumentClient4x.QueryDocuments | azure-cosmsosdb-4.x/src/main/java/com/azure/cosmos/implementation/RxDocumentClientImpl.java:289-309 | throws on a null spec or a throwing parser; the query descriptor otherwise |
| RxDocumentClient4x.QueryOffers | azure-cosmsosdb-4.x/src/main/java/com/azure/cosmos/implementation/RxDocumentClientImpl.java:311-330 | throws on a null spec or a throwing parser; the query descriptor otherwise |
| RxDocumentClient4x.QueryStoredProcedures | azure-cosmsosdb-4.x/src/main/java/com/azure/cosmos/implementation/RxDocumentClientImpl.java:332-352 | throws on a null spec or a throwing parser; the query descriptor otherwise |
| RxDocumentClient4x.QueryUsers | azure-cosmsosdb-4.x/src/main/java/com/azure/cosmos/implementation/RxDocumentClientImpl.java:354-374 | throws on a null spec or a throwing parser; the query descriptor otherwise |
| RxDocumentClient4x.ReadCollection | azure-cosmsosdb-4.x/src/main/java/com/azure/cosmos/implementation/RxDocumentClientImpl.java:376-389 | throws where `getIDFromLink` does; the collection is the link's id; hooks subscribe, cancel, terminate, error |
| RxDocumentClient4x.ReadCollections | azure-cosmsosdb-4.x/src/main/java/com/azure/cosmos/implementation/RxDocumentClientImpl.java:392-406 | the collection is the link's id; the feed uses the complete wiring |
| RxDocumentClient4x.ReadDatabase | azure-cosmsosdb-4.x/src/main/java/com/azure/cosmos/implementation/RxDocumentClientImpl.java:408-421 | throws where `getIDFromLink` does; the collection is the link's id |
| RxDocumentClient4x.ReadDatabases | azure-cosmsosdb-4.x/src/main/java/com/azure/cosmos/implementation/RxDocumentClientImpl.java:423-435 | never throws; the collection is empty |
| RxDocumentClient4x.ReadDocuments | azure-cosmsosdb-4.x/src/main/java/com/azure/cosmos/implementation/RxDocumentClientImpl.java:437-449 | the collection is the link's id; only the operation is recorded |
| RxDocumentClient4x.ReadMany | azure-cosmsosdb-4.x/src/main/java/com/azure/cosmos/implementation/RxDocumentClientImpl.java:451-474 | throws on a null list, a null pair, a null partition key, a null class or a failing link; otherwise records the operation, the link, one write per pair, then the class |
| RxDocumentClient4x.PairWrites | azure-cosmsosdb-4.x/src/main/java/com/azure/cosmos/implementation/RxDocumentClientImpl.java:460-462 | the loop throws exactly when some pair or its partition key is null; otherwise one `PartitionKey-<id>` write per pair, in order |
| RxDocumentClient4x.PairEntries | azure-cosmsosdb-4.x/src/main/java/com/azure/cosmos/implementation/RxDocumentClientImpl.java:460-462 | the loop leaves under each `PartitionKey-<id>` the key of the last pair with that id |
| RxDocumentClient4x.ReadManyLastFor | azure-cosmsosdb-4.x/src/main/java/com/azure/cosmos/implementation/RxDocumentClientImpl.java:457-463 | the writes around the loop never touch a `PartitionKey-<id>` key |
| RxDocumentClient4x.ReadManyPartitionKeys | azure-cosmsosdb-4.x/src/main/java/com/azure/cosmos/implementation/RxDocumentClientImpl.java:460-462 | the `readMany` map holds `PartitionKey-<id>` exactly for the ids of the list, with the key of the last pair with that id |
| RxDocumentClient4x.ReadManyDuplicateAndNullIds | azure-cosmsosdb-4.x/src/main/java/com/azure/cosmos/implementation/RxDocumentClientImpl.java:460-462 | a later duplicate id overwrites the earlier one, and a null id is recorded as `PartitionKey-null` |
| RxDocumentClient4x.ReadOffer | azure-cosmsosdb-4.x/src/main/java/com/azure/cosmos/implementation/RxDocumentClientImpl.java:476-489 | throws where `getIDFromLink` does; the collection is the link's id |
| RxDocumentClient4x.ReadOffers | azure-cosmsosdb-4.x/src/main/java/com/azure/cosmos/implementation/RxDocumentClientImpl.java:491-500 | never throws; empty collection; no attributes at all; complete wiring |
| RxDocumentClient4x.ReadStoredProcedure | azure-cosmsosdb-4.x/src/main/java/com/azure/cosmos/implementation/RxDocumentClientImpl.java:502-515 | throws where `getIDFromLink` does; the collection is the link's id; the segment name holds a tab |
| RxDocumentClient4x.ReadStoredProcedures | azure-cosmsosdb-4.x/src/main/java/com/azure/cosmos/implementation/RxDocumentClientImpl.java:517-530 | throws where `getIDFromLink` does; the collection is the link's id |
| RxDocumentClient4x.ReadUser | azure-cosmsosdb-4.x/src/main/java/com/azure/cosmos/implementation/RxDocumentClientImpl.java:532-545 | never throws; the collection is empty |
| RxDocumentClient4x.ReadUsers | azure-cosmsosdb-4.x/src/main/java/com/azure/cosmos/implementation/RxDocumentClientImpl.java:547-560 | the collection is the link's id; the segment is `readStoredreadUsersProcedures` |
| RxDocumentClient4x.ReplaceCollection | azure-cosmsosdb-4.x/src/main/java/com/azure/cosmos/implementation/RxDocumentClientImpl.java:562-575 | throws on a null collection; the collection is its id |
| RxDocumentClient4x.ReplaceDocument | azure-cosmsosdb-4.x/src/main/java/com/azure/cosmos/implementation/RxDocumentClientImpl.java:577-590 | throws on a null document; the collection is its id |
| RxDocumentClient4x.ReplaceDocumentByLink | azure-cosmsosdb-4.x/src/main/java/com/azure/cosmos/implementation/RxDocumentClientImpl.java:592-605 | throws on a null document or a failing link; the collection is the link's id; the map is never attached |
| RxDocumentClient4x.ReplaceOffer | azure-cosmsosdb-4.x/src/main/java/com/azure/cosmos/implementation/RxDocumentClientImpl.java:607-621 | throws on a null offer; the collection is its id |
| RxDocumentClient4x.ReplaceStoredProcedure | azure-cosmsosdb-4.x/src/main/java/com/azure/cosmos/implementation/RxDocumentClientImpl.java:623-637 | throws on a null stored procedure; the collection is its id |
| RxDocumentClient4x.ReplaceUser | azure-cosmsosdb-4.x/src/main/java/com/azure/cosmos/implementation/RxDocumentClientImpl.java:639-652 | never throws; the collection is empty |
| RxDocumentClient4x.UpsertDocument | azure-cosmsosdb-4.x/src/main/java/com/azure/cosmos/implementation/RxDocumentClientImpl.java:654-670 | throws on a null document or a failing link; the collection is the link's id |
| RxDocumentClient4x.UpsertStoredProcedure | azure-cosmsosdb-4.x/src/main/java/com/azure/cosmos/implementation/RxDocumentClientImpl.java:672-688 | throws where `getIDFromLink` does; the collection is the link's id |
| RxDocumentClient4x.UpsertUser | azure-cosmsosdb-4.x/src/main/java/com/azure/cosmos/implementation/RxDocumentClientImpl.java:690-705 | never throws; the collection is empty |
| RxDocumentClient4x.RecordsOperation | azure-cosmsosdb-4.x/src/main/java/com/azure/cosmos/implementation/RxDocumentClientImpl.java:177 | an `Operation` written first and never rewritten is the one the map holds |
| RxDocumentClient4x.DeleteUserRecordsDeleteStoredProcedure | azure-cosmsosdb-4.x/src/main/java/com/azure/cosmos/implementation/RxDocumentClientImpl.java:177 | `deleteUser` records the operation `DeleteStoredProcedure` |
| RxDocumentClient4x.ReadsRecordReadMany | azure-cosmsosdb-4.x/src/main/java/com/azure/cosmos/implementation/RxDocumentClientImpl.java:478 | `readOffer` and `readStoredProcedure` record the operation `ReadMany` |
| RxDocumentClient4x.UpsertUserRecordsUpsertStoredProcedure | azure-cosmsosdb-4.x/src/main/java/com/azure/cosmos/implementation/RxDocumentClientImpl.java:692 | `upsertUser` records the operation `UpsertStoredProcedure` |
| RxDocumentClient4x.DeleteDocumentFails | azure-cosmsosdb-4.x/src/main/java/com/azure/cosmos/implementation/RxDocumentClientImpl.java:145-158 | a failing `deleteDocument` logs start, report, attributes, end, then the notice: run twice, ended once |
| RxDocumentClient4x.QueryFails | azure-cosmsosdb-4.x/src/main/java/com/azure/cosmos/implementation/RxDocumentClientImpl.java:289-309 | a failing query logs start, then the notice, then report, attributes and end: only the error consumer closes it |
| RxDocumentClient4x.QueryWithParser | azure-cosmsosdb-4.x/src/main/java/com/azure/cosmos/implementation/RxDocumentClientImpl.java:296-300 | with initialised statics, the descriptor exists exactly when the parser recognises the text, and carries its model, operation and the raw text |
| RxDocumentClient4x.QueryWithoutService | azure-cosmsosdb-4.x/src/main/java/com/azure/cosmos/implementation/RxDocumentClientImpl.java:296-300 | before initialisation and without a service the query still gets a span, with no descriptor |
| RxDocumentClient4x.QueryWithNullParser | azure-cosmsosdb-4.x/src/main/java/com/newrelic/instrumentation/azure/cosmos/CosmosUtils.java:18-29 | a service whose parser is null makes `parseSQL`, and so the query site, throw |
| RxDocumentClient40.CreateCollection | azure-cosmosdb-4.0/src/main/java/com/azure/cosmos/implementation/RxDocumentClientImpl.java:28-39 | throws on a null collection; the collection is its id; attached; terminate-before-cancel wiring |
| RxDocumentClient40.CreateDatabase | azure-cosmosdb-4.0/src/main/java/com/azure/cosmos/implementation/RxDocumentClientImpl.java:41-49 | throws on a null database; the collection is its id; no attributes |
| RxDocumentClient40.DeleteCollection | azure-cosmosdb-4.0/src/main/java/com/azure/cosmos/implementation/RxDocumentClientImpl.java:51-62 | throws where `getIDFromLink` does; the collection is the link's id |
| RxDocumentClient40.DeleteDatabase | azure-cosmosdb-4.0/src/main/java/com/azure/cosmos/implementation/RxDocumentClientImpl.java:64-72 | the collection is the link's id; no attributes |
| RxDocumentClient40.ExecuteStoredProcedure | azure-cosmosdb-4.0/src/main/java/com/azure/cosmos/implementation/RxDocumentClientImpl.java:74-82 | the collection is the link's id; no attributes |
| RxDocumentClient40.CreateQuery | azure-cosmosdb-4.0/src/main/java/com/azure/cosmos/implementation/RxDocumentClientImpl.java:84-98 | throws on a null spec or a throwing parser; the query descriptor; no attributes; complete wiring |
| RxDocumentClient40.ReadMany | azure-cosmosdb-4.0/src/main/java/com/azure/cosmos/implementation/RxDocumentClientImpl.java:100-112 | throws on a null class or a failing link; the collection is the link's id |
| RxDocumentClient40.CreateCollectionAttributes | azure-cosmosdb-4.0/src/main/java/com/azure/cosmos/implementation/RxDocumentClientImpl.java:31-37 | `createCollection` attaches `DatabaseLink` and nothing else |
| RxDocumentClient40.DeleteCollectionAttributes | azure-cosmosdb-4.0/src/main/java/com/azure/cosmos/implementation/RxDocumentClientImpl.java:54-58 | `deleteCollection` records its link under `ConnectionLink` |
| RxDocumentClient40.ReadManyAttributes | azure-cosmosdb-4.0/src/main/java/com/azure/cosmos/implementation/RxDocumentClientImpl.java:103-108 | `readMany` attaches the link and the fully qualified class name under `ItemType` |
| RxDocumentClient419.ReadAllDocuments | azure-cosmosdb-4.19/src/main/java/com/azure/cosmos/implementation/RxDocumentClientImpl.java:25-44 | throws where `getIDFromLink` does; the collection is the link's id; cancel-before-terminate wiring |
| RxDocumentClient419.DeleteAllDocumentsByPartitionKey | azure-cosmosdb-4.19/src/main/java/com/azure/cosmos/implementation/RxDocumentClientImpl.java:46-60 | throws where `getIDFromLink` does; the collection is the link's id; terminate-before-cancel wiring; its map in `DeleteAllDocumentsByPartitionKeyAttributes` |
| RxDocumentClient419.DeleteAllDocumentsByPartitionKeyAttributes | azure-cosmosdb-4.19/src/main/java/com/azure/cosmos/implementation/RxDocumentClientImpl.java:46-60 | attaches Operation `deleteAllDocumentsByPartitionKey`, the link and the partition key when non-null, nothing else |
| RxDocumentClient419.ReadAllDocumentsAttributes | azure-cosmosdb-4.19/src/main/java/com/azure/cosmos/implementation/RxDocumentClientImpl.java:31-33 | attaches `Operation=readAllDocuments`, the link and the partition key if any |
| RxDocumentClient427.ReadAllDocuments | azure-cosmosdb-4.27/src/main/java/com/azure/cosmos/implementation/RxDocumentClientImpl.java:25-44 | throws where `getIDFromLink` does; the collection is the link's id |
| RxDocumentClient427.DeleteAllDocumentsByPartitionKey | azure-cosmosdb-4.27/src/main/java/com/azure/cosmos/implementation/RxDocumentClientImpl.java:46-60 | throws where `getIDFromLink` does; the collection is the link's id; terminate-before-cancel wiring; its map in `DeleteAllDocumentsByPartitionKeyAttributes` |
| RxDocumentClient427.DeleteAllDocumentsByPartitionKeyAttributes | azure-cosmosdb-4.27/src/main/java/com/azure/cosmos/implementation/RxDocumentClientImpl.java:46-60 | attaches the mislabelled Operation `CreateCollection`, the link and the partition key when non-null, nothing else |
| RxDocumentClient427.DeleteDocument | azure-cosmosdb-4.27/src/main/java/com/azure/cosmos/implementation/RxDocumentClientImpl.java:62-75 | throws where `getIDFromLink` does; the collection is the document link's id; its map in `DeleteDocumentAttributes` |
| RxDocumentClient427.DeleteDocumentAttributes | azure-cosmosdb-4.27/src/main/java/com/azure/cosmos/implementation/RxDocumentClientImpl.java:62-75 | attaches exactly the mislabelled Operation `CreateCollection` and the document link |
| RxDocumentClient427.ReadAllDocumentsAttributes | azure-cosmosdb-4.27/src/main/java/com/azure/cosmos/implementation/RxDocumentClientImpl.java:31-33 | attaches `Operation=CreateCollection`, the link and the partition key if any |
| RxDocumentClient428.ReadAllDocuments | azure-cosmosdb-4.28/src/main/java/com/azure/cosmos/implementation/RxDocumentClientImpl.java:25-42 | throws on a null class or a failing link; the collection is the link's id |
| RxDocumentClient428.DeleteAllDocumentsByPartitionKey | azure-cosmosdb-4.28/src/main/java/com/azure/cosmos/implementation/RxDocumentClientImpl.java:44-58 | throws where `getIDFromLink` does; the collection is the link's id; terminate-before-cancel wiring; its map in `DeleteAllDocumentsByPartitionKeyAttributes` |
| RxDocumentClient428.DeleteAllDocumentsByPartitionKeyAttributes | azure-cosmosdb-4.28/src/main/java/com/azure/cosmos/implementation/RxDocumentClientImpl.java:44-58 | attaches the mislabelled Operation `CreateCollection`, the link and the partition key when non-null, nothing else |
| RxDocumentClient428.DeleteDocument | azure-cosmosdb-4.28/src/main/java/com/azure/cosmos/implementation/RxDocumentClientImpl.java:60-73 | throws where `getIDFromLink` does; the collection is the document link's id |
| RxDocumentClient428.ReadAllDocumentsAttributes | azure-cosmosdb-4.28/src/main/java/com/azure/cosmos/implementation/RxDocumentClientImpl.java:32-35 | attaches `Operation=readAllDocuments`, the link, the partition key if any, and the class's fully qualified name under `CollectionType` |
| RxDocumentClient428.DeleteDocumentAttributes | azure-cosmosdb-4.28/src/main/java/com/azure/cosmos/implementation/RxDocumentClientImpl.java:63-67 | `deleteDocument` records `Operation=CreateCollection` and its link |
| CosmosAsyncContainer40.ItemCollection | azure-cosmosdb-4.0/src/main/java/com/azure/cosmos/CosmosAsyncContainer.java:34-37 | the collection is `getId()` when non-null and non-empty, else the class's simple name, else empty |
| CosmosAsyncContainer40.CreateItem | azure-cosmosdb-4.0/src/main/java/com/azure/cosmos/CosmosAsyncContainer.java:32-43 | never throws; collection by the fallback; no attributes; segment `CosmosAsyncContainer/createItem`; hooks subscribe, terminate, cancel, error |
| CosmosAsyncContainer40.Delete | azure-cosmosdb-4.0/src/main/java/com/azure/cosmos/CosmosAsyncContainer.java:45-56 | throws where `getIDFromLink` does; the collection is the link's id; no attributes; segment `CosmosAsyncContainer/delete`; hooks subscribe, terminate, cancel, error |
| CosmosAsyncContainer40.DeleteItem | azure-cosmosdb-4.0/src/main/java/com/azure/cosmos/CosmosAsyncContainer.java:58-76 | throws where `getIDFromLink` does; the collection is the link's id; segment `CosmosAsyncContainer/deleteItem`; hooks subscribe, terminate, cancel, error |
| CosmosAsyncContainer40.Read | azure-cosmosdb-4.0/src/main/java/com/azure/cosmos/CosmosAsyncContainer.java:78-89 | throws where `getIDFromLink` does; the collection is the link's id; no attributes; segment `CosmosAsyncContainer/read`; hooks subscribe, terminate, cancel, error |
| CosmosAsyncContainer40.ReadItem | azure-cosmosdb-4.0/src/main/java/com/azure/cosmos/CosmosAsyncContainer.java:93-110 | throws on a null item type; collection by the fallback; segment `CosmosAsyncContainer/readItem`; hooks subscribe, terminate, cancel, error |
| CosmosAsyncContainer40.Replace | azure-cosmosdb-4.0/src/main/java/com/azure/cosmos/CosmosAsyncContainer.java:112-123 | throws where `getIDFromLink` does; the collection is the link's id; no attributes; segment `CosmosAsyncContainer/replace`; hooks subscribe, terminate, cancel, error |
| CosmosAsyncContainer40.ReplaceItem | azure-cosmosdb-4.0/src/main/java/com/azure/cosmos/CosmosAsyncContainer.java:125-142 | throws on a null item; collection by the fallback; segment `CosmosAsyncContainer/replaceItem`; hooks subscribe, terminate, cancel, error |
| CosmosAsyncContainer40.UpsertItem | azure-cosmosdb-4.0/src/main/java/com/azure/cosmos/CosmosAsyncContainer.java:144-159 | throws on a null item; collection by the fallback; segment `CosmosAsyncContainer/upsertItem`; hooks subscribe, terminate, cancel, error |
| CosmosAsyncContainer40.PartitionKeyTwice | azure-cosmosdb-4.0/src/main/java/com/azure/cosmos/CosmosAsyncContainer.java:60-63 | adding the partition key twice around the item id gives one `PartitionKey` entry |
| CosmosAsyncContainer40.DeleteItemAttributes | azure-cosmosdb-4.0/src/main/java/com/azure/cosmos/CosmosAsyncContainer.java:60-73 | `deleteItem` attaches `ItemID` when non-null and at most one `PartitionKey` |
| CosmosAsyncContainer40.ItemWrites | azure-cosmosdb-4.0/src/main/java/com/azure/cosmos/CosmosAsyncContainer.java:94-97 | the partition key, item id and item type writes give `PartitionKey` and `ItemID` when non-null and always `ItemType`, nothing else |
| CosmosAsyncContainer40.ReadItemAttributes | azure-cosmosdb-4.0/src/main/java/com/azure/cosmos/CosmosAsyncContainer.java:94-97 | `readItem` attaches that map with the item type's simple name |
| CosmosAsyncContainer40.ReplaceItemAttributes | azure-cosmosdb-4.0/src/main/java/com/azure/cosmos/CosmosAsyncContainer.java:126-129 | `replaceItem` attaches that map with the item's simple class name |
| CosmosAsyncContainer40.UpsertItemAttributes | azure-cosmosdb-4.0/src/main/java/com/azure/cosmos/CosmosAsyncContainer.java:145-146 | `upsertItem` attaches only `ItemType`, the item's simple class name |
| CosmosAsyncContainer40.ItemFallbackNeverEmpty | azure-cosmosdb-4.0/src/main/java/com/azure/cosmos/CosmosAsyncContainer.java:100-103 | where the item sites succeed, the fallback is always the class name: the empty name is reached only by `createItem` with a null item |
| CosmosAsyncContainer44.DeleteItem | azure-cosmosdb-4.4/src/main/java/com/azure/cosmos/CosmosAsyncContainer.java:24-36 | the collection is the link's id; segment `CosmosAsyncContainer/deleteItem`; no attributes; terminate-before-cancel wiring |
| CosmosAsyncContainer4x.ReadItem | azure-cosmsosdb-4.x/src/main/java/com/azure/cosmos/CosmosAsyncContainer.java:25-41 | throws on a null item type; collection by the fallback; segment `CosmosAsyncContainer/readItem`; only subscribe and terminate hooks; its map in `ReadItemAttributes` |
| CosmosAsyncContainer4x.ReadItemAttributes | azure-cosmsosdb-4.x/src/main/java/com/azure/cosmos/CosmosAsyncContainer.java:26-29 | attaches `PartitionKey` and `ItemID` when non-null and the item type's simple name under `ItemType`, nothing else |
| CosmosAsyncDatabase40.CreateContainerIfNotExists | azure-cosmosdb-4.0/src/main/java/com/azure/cosmos/CosmosAsyncDatabase.java:24-34 | throws on null properties; the collection is their id; the container's segment `CosmosAsyncContainer/createContainerIfNotExists`; no attributes; terminate registered twice |
| CosmosAsyncDatabase40.CreateContainerIfNotExistsInternal | azure-cosmosdb-4.0/src/main/java/com/azure/cosmos/CosmosAsyncDatabase.java:36-47 | the same descriptor, container segment name and wiring as the public variant |
| CosmosAsyncClient40.CreateDatabaseIfNotExistsInternal | azure-cosmosdb-4.0/src/main/java/com/azure/cosmos/CosmosAsyncClient.java:21-31 | throws on a null database; the collection is its id; reported as `createContainerIfNotExists` under the container's segment; no attributes; terminate twice |

## Left out

- Reactor itself is not modelled. A result is the list of hooks registered on it plus the signals it emits, delivered one at a time. Concurrent signals and the unsynchronised `segment` field are out of scope.
- `Weaver.callOriginal()`, `@Weave` and `@Trace` rewrite classes and are not modelled. The original result is opaque. Whether the original call runs before a site throws is not modelled either; the site's exception is what the caller sees.
- The agent API calls and `NewRelic.getAgent().getTransaction()` are appends to a ghost log. The transaction is an optional parameter of each call.
- `DefaultDatabaseStatementParser` and `ServiceFactory.getDatabaseService()` are foreign code. They are oracles: a parser function and an optional service passed to each call.
- The parser cast in `init` cannot fail in the model. It is not modelled as a `ClassCastException`.
- `CosmosDBVendor` and the converter's `toObfuscatedQueryString` only delegate to agent code. `toRawQueryString` is the identity. It appears only inside `Interceptor.QueryDescriptor`, whose contract states that the raw text becomes the slow query.
- Attribute values are kept as the strings the agent reports. Java's `Object` values, and `toString()` of a partition key, are their text.
- Entity fields (ids, links, etags) are optional strings, and a payload object is known only by its class names.
- Instrumentation.CompletionRunnable.SetAttributes: stores the map's value, not a reference to it. No site changes the map after the call.
- The per-version copies of `Utils`, `ErrorConsumer`, `CompletionRunnable` and `AzureUtils` are not part of this model. Every version uses the 4.28 `Utils`, the 4.28 `ErrorConsumer` and the 4.x `CompletionRunnable`.
- CosmosUtils.GetIdFromLink: a caller might expect the empty link to fail; the code returns the empty id, and only a non-empty link made only of slashes throws.
- CosmosUtils.Statics.ParseSql: a caller might expect a missing database service to disable parsing for good; the code tries `init` again on every call while no service exists.
- CosmosAsyncContainer40.ReadItem, CosmosAsyncContainer40.ReplaceItem, CosmosAsyncContainer40.UpsertItem and CosmosAsyncContainer4x.ReadItem: these call `getSimpleName()` on the item or its type before the null check. A null therefore throws, and the empty-name fallback is unreachable. The sites are modelled as written.
- CosmosAsyncContainer44.DeleteItem: does not take the `item` argument, because the source never reads it.
- The `readMany` loop in 4.x is a sequence of helper calls. `Interceptor.Fill` performs it on the map imperatively, and `RxDocumentClient4x.PairWrites` is its value form.
- A failing site returns its exception in place of the hooked result. The model does not say how the exception propagates further.
- 4.x `readStoredProcedure`'s segment name contains a tab character, and `readUsers`'s segment is `readStoredreadUsersProcedures`. Both are reproduced as written, as are the other mislabelled operations.
