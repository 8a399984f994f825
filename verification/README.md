# Hadrian gateway: verified model

A Dafny model of the parts of the Hadrian AI gateway whose correctness is hardest to see, with
proofs about every input, every run and every reachable state. `dafny verify dfyconfig.toml` checks
all of it.

| files | part of the system |
|---|---|
| `Basics`, `JsonValues` | shared datatypes and JSON values |
| `SchemaShape`, `SchemaPieces`, `ResolverRuns`, `Resolver`, `ResolverTheorems`, `ResolverMeaning`, `ResolvedShapes`, `ResolverRanks`, `ResolverLoops` | the memoising OpenAPI schema resolver |
| `Conformance`, `SchemaReading`, `Comparer`, `GateTheorems`, `DiffTheorems`, `ViolationTheorems`, `GateSettled`, `ComparisonLaws`, `Reports`, `OperationReading`, `Checker` | the schema comparison and the conformance gate of CI |
| `UsageBuffer`, `UsageWorker`, `UsageSink` | the usage-log buffer, its worker, the database sink with its dead-letter queue, and composite sinks |
| `Toml`, `TomlDocument`, `Wizard`, `WizardTheorems`, `WizardRoundTrip` | the configuration wizard's printer and a TOML reader |
| `Codec`, `CodecMeaning`, `ResponseItems`, `ResponseNames`, `ResponseTheorems`, `ResponseInput`, `ResponseReplay`, `SearchFilters`, `Usage`, `Echo` | values of the Responses API: untagged unions, search filters, usage totals, strip and echo |
| `Bootstrap`, `ModelsCache` | startup of several instances over one database; the static models cache |

How the parts are modelled:

* **Resolver.** `OpenAPIResolver` is a class with the mutable cache of the script. It has two references.
  `RunSchema` is the script as a function of cache and schema with a bound on its depth; `Gives` says that
  some depth is enough. `Plain` is a recursive resolver without a cache. A `Ranking` gives each
  reference a level such that an `allOf` only meets references of a lower level; specifications that
  have one are `Stratified`: exactly those without a cycle of references through an `allOf`
  (`StratifiedExactly`). The methods terminate on every stratified specification and return what
  `RunSchema` gives from the cache they started with. On an `Acyclic` one, that is, one without any cycle
  of references (`AcyclicExactly`), every call returns what `Plain` returns, for every cache that
  earlier calls can have left. `busy` holds the references in progress, the only ones whose raw
  schema is in the cache.
* **Gate.** `Diffs` and `Violations` describe the comparison; the methods of `Comparer` and the class
  `ConformanceChecker` collect them in loops over the two caching resolvers. `Reports` says what a run
  is: a list of visits, each of which resolves the bodies of one operation from the caches that the one
  before it left. What a run sees is determined by the specifications, the operations and the caches it
  starts from, and the report is clean exactly when every operation conforms, position by position
  (`GateOpenFrom`). What the run reads in the specifications and what it reports is spelled out on the
  keys of the JSON in `SchemaReading` and `OperationReading`. All that holds with and without cycles;
  without them, the caches do not matter and the gate is a property of the two specifications alone
  (`GateOpen`).
* **Usage buffer.** A step system with any number of pushers, one worker with a program counter and
  a shutdown request, plus ghost logs of what was accepted, flushed, stored, dead-lettered and lost.
  The class `UsageLogBuffer` performs steps of this system: a `Schedule` says what others do before each
  step of the worker, and every method keeps the object in the state of the protocol after its steps so far.
* **Wizard.** `GenerateConfig` pushes line after line to a growing string. The reader parses TOML
  lines, gathers tables and refuses documents with repeated tables, repeated keys or a key where a
  table is needed. `Interpret` extracts the settings again.
* **Responses API.** The declarations of the items are data (`Shape`); `Encode` and `Decode` follow a
  declaration as the derived serde code does, including first-match decoding of untagged enums, the
  array form of structs and the object form of unit variants. The round trip is proved once for all
  sound declarations and then applied.

Where the code and its comments differ, the code is followed: the worker flushes once per sleep, not
on reaching `max_size` (`src/usage_buffer.rs:83-86` against 196-227).

Some properties that one might expect do not hold as they stand; each has a lemma with an input and,
but for termination on cycles through an `allOf`, an exact condition.

* A `MessageItem` is never read from an object, but it is read from the array form (`MessageItemExact`,
  `MessageItemFromArray`).
* An output message without content and with one of the four roles does not survive being sent back as
  input (`MessageAsInput`); neither does an output function call with an id (`CallAsInput`). All other
  output items do (`OutputAsInput`, `ReasoningAsInput`).
* A resolved schema can keep references that were copied raw beside a `$ref` or an `allOf`
  (`RawSiblingNotSettled`); it is settled exactly when those siblings are (`RefSettledExactly`,
  `AllOfSettledExactly`).
* A resolved union can hold `_union_variants` although none of its own variants is pinned, when its first variant
  is a union itself (`InnerVariantsKept`); `UnionMeaning` says when.
* The script can run forever on a cycle that passes through an `allOf` (`NeverEnds`), but need not
  (`EndsAllTheSame`): the absence of such cycles is sufficient for termination, not necessary.
* The wizard prints regions, projects, budgets, the secret and the provider names without escaping, so not every
  configuration survives (`RawStrays`); `RoundTrip` says which do.
* A tree of composite sinks can report another error than the flat composite of its leaves
  (`FlatteningErrorDiffers`); `FlatteningExactly` says when.
* The first turn decides between a missing and a false BYOK mark (`OrderSeen`); `AnyOrderExact` says when the
  order of turns matters.

## Model

| member | source | states |
|---|---|---|
| `Resolver.OpenAPIResolver.ResolveRef` | scripts/openapi-conformance.py:236-260 | from any cache left by earlier calls: terminates on every stratified specification and gives what the script gives from that cache; on an acyclic one never reads a raw pre-seeded entry and returns the uncached resolution |
| `Resolver.OpenAPIResolver.ResolveTarget` | scripts/openapi-conformance.py:241-260 | pre-seeding, resolving and overwriting leave the cache consistent and give the uncached result |
| `Resolver.OpenAPIResolver.ResolveSchema` | scripts/openapi-conformance.py:262-351 | terminates on every stratified specification under (level, references not cached, size), with the result and the cache of the script; cache transparency: equals `Plain` for every acyclic specification and every reachable cache |
| `Resolver.OpenAPIResolver.ResolveAllOf` | scripts/openapi-conformance.py:288-300 | parts merged left to right through the cache equal the uncached merge |
| `Resolver.OpenAPIResolver.MergeParts` | scripts/openapi-conformance.py:294-296 | the loop over the parts equals the recursive merge |
| `Resolver.OpenAPIResolver.MergePart` | scripts/openapi-conformance.py:353-366 | one part merged with its properties re-resolved through the cache |
| `Resolver.OpenAPIResolver.ResolveOptions` | scripts/openapi-conformance.py:307-316 | all options resolved in order, as without a cache |
| `Resolver.OpenAPIResolver.ResolveNested` | scripts/openapi-conformance.py:339-351 | properties, items and additionalProperties resolved in place |
| `Resolver.OpenAPIResolver.ResolveAll` | scripts/openapi-conformance.py:262-351 | any sequence of calls on one resolver gives, call by call, the uncached results |
| `ResolverRuns.GivesOne` | scripts/openapi-conformance.py:236-366 | what a call gives from a cache is unique, whatever depth it needs |
| `ResolverTheorems.PlainSettled` | scripts/openapi-conformance.py:262-351 | with annotation-only siblings no `$ref`, `allOf`, `oneOf` or `anyOf` is left in any position the resolver visits, nor in any variant of a union |
| `ResolverTheorems.SettledFixed` | scripts/openapi-conformance.py:262-351 | resolving a settled schema changes nothing |
| `ResolverTheorems.PlainIdempotent` | scripts/openapi-conformance.py:262-351 | resolving twice is resolving once |
| `ResolverTheorems.PartMerged` | scripts/openapi-conformance.py:355-358 | the second resolution of a part's properties inside a merge has nothing left to do |
| `ResolverTheorems.RefSettledExactly` | scripts/openapi-conformance.py:277-284 | over a specification with annotation-only siblings, a resolved reference is settled iff the keys beside the `$ref` are |
| `ResolverTheorems.AllOfSettledExactly` | scripts/openapi-conformance.py:286-300 | the same for an `allOf` with annotated parts |
| `ResolverTheorems.RawSiblingNotSettled` | scripts/openapi-conformance.py:281-283 | a schema beside `$ref` is copied raw, so a sibling that is no annotation stays unresolved |
| `GateSettled.ComparedSettled` | scripts/openapi-conformance.py:691-910 | every pair of schemas that the comparison of two resolved bodies reaches has nothing left to resolve |
| `ResolverMeaning.RankFree` | scripts/openapi-conformance.py:262-351 | the uncached result does not depend on the ranking used to define it |
| `ResolverMeaning.ReferenceMeaning` | scripts/openapi-conformance.py:277-284 | a key beside `$ref` overrides the referenced schema; every other key comes from it |
| `ResolverMeaning.LastPartWins` | scripts/openapi-conformance.py:294-296 | in an `allOf` the last part that has a property decides it |
| `ResolverMeaning.RequiredIsUnion` | scripts/openapi-conformance.py:359-362 | a merge requires exactly the names that its start or some part requires |
| `ResolverMeaning.VariantMapMeaning` | scripts/openapi-conformance.py:317-321 | for every literal the variant map holds the last variant pinned to it |
| `ResolvedShapes.UnionMeaning` | scripts/openapi-conformance.py:302-337 | what a resolved `oneOf` or `anyOf` holds under every key: the null type without a non-null option; else the first variant, nullable, and when some variant is pinned to a literal, `_union_variants` holds for every literal the last variant pinned to it, and no other |
| `ResolvedShapes.PinnedExactly` | scripts/openapi-conformance.py:207-225 | a variant is pinned to a literal iff its `properties.type` has it as `const`, or else as the only `enum` value |
| `ResolvedShapes.OptionsMeaning` | scripts/openapi-conformance.py:308-309 | `oneOf` is used when it is there and not empty, and otherwise `anyOf` |
| `ResolvedShapes.OptionsInOrder` | scripts/openapi-conformance.py:310-316 | the options are resolved in order, those of type null left out |
| `ResolvedShapes.InnerVariantsKept` | scripts/openapi-conformance.py:332-337 | a union whose only variant is a union shows the inner `_union_variants` though it has no pinned variant itself |
| `ResolvedShapes.AllOfMeaning` | scripts/openapi-conformance.py:286-300 | what a resolved `allOf` holds under every key: siblings as they are, `type` and `description` of the last part that has them (`object` by default), properties and required names of the parts, and nothing else |
| `ResolvedShapes.NestedMeaning` | scripts/openapi-conformance.py:339-351 | any other schema keeps all keys; its properties, items and dict-valued additionalProperties are resolved in place |
| `ResolvedShapes.PathTarget` | scripts/openapi-conformance.py:241-252 | a reference of three parts denotes what the document holds under these keys |
| `ResolverMeaning.AllOfFreeStratified` | scripts/openapi-conformance.py:249-260 | every specification without `allOf` is stratified whatever its cycles, so resolution terminates on it |
| `ResolverMeaning.AllOfCycleNotStratified` | scripts/openapi-conformance.py:353-358 | a cycle that passes through an `allOf` leaves no ranking |
| `ResolverMeaning.CycleNotAcyclic` | scripts/openapi-conformance.py:253-257 | no specification with a reference cycle has a strict ranking |
| `ResolverRanks.StratifiedExactly` | scripts/openapi-conformance.py:249-260 | a specification has a ranking iff its references are closed and sound and no cycle of them passes through an `allOf` |
| `ResolverRanks.AcyclicExactly` | scripts/openapi-conformance.py:253-257 | it has a strict ranking iff its references are closed and sound and form no cycle at all |
| `ResolverLoops.NeverEnds` | scripts/openapi-conformance.py:353-358 | with A = allOf[B] and B.properties.x = A no depth is enough to resolve A |
| `ResolverLoops.LoopingSpec` | scripts/openapi-conformance.py:241-247 | such a specification exists |
| `ResolverLoops.EndsAllTheSame` | scripts/openapi-conformance.py:286-300 | A = allOf[A] has no ranking either, but the script returns the merge base |
| `Comparer.CompareSchemas` | scripts/openapi-conformance.py:691-820 | the two lists collected are exactly the differences and violations of the descent |
| `Comparer.CompareMissing` | scripts/openapi-conformance.py:710-733 | OpenAI-only fields: all differences, and a violation for each undocumented one |
| `Comparer.CompareExtensions` | scripts/openapi-conformance.py:734-756 | Hadrian-only fields: all differences, and a violation for each unmarked one |
| `Comparer.CompareCommon` | scripts/openapi-conformance.py:757-820 | common fields: type and required differences, then the nested comparison |
| `Comparer.CompareUnionItems` | scripts/openapi-conformance.py:822-910 | array variants matched by discriminator; Hadrian-only variants are differences but no violations |
| `Comparer.CompareVariant` | scripts/openapi-conformance.py:859-910 | one variant: documented absence, or the descent into both |
| `GateTheorems.ViolationsExact` | scripts/openapi-conformance.py:691-910 | violations are empty iff at every position reached by parallel descent each OpenAI-only field or variant is documented and each Hadrian-only field is marked |
| `GateTheorems.OneLevel` | scripts/openapi-conformance.py:691-820 | violations are empty iff this position is in order and those of all its children are empty |
| `ViolationTheorems.FaultsExact` | scripts/openapi-conformance.py:691-910 | a violation is reported iff some position reached is at fault for exactly it: an undocumented OpenAI-only field or variant, or a Hadrian-only field without the marker, spelled out on the JSON keys |
| `DiffTheorems.DiffsExact` | scripts/openapi-conformance.py:691-910 | a difference is reported iff it is due at some position reached: a field or variant on one side only, two type strings that do not go together, or a field that only OpenAI requires, spelled out on the JSON keys |
| `DiffTheorems.NoDiffsExactly` | scripts/openapi-conformance.py:691-910 | there is no difference iff at every position reached both sides have the same fields and variants, compatible types, and Hadrian requires what OpenAI requires |
| `SchemaReading.DescendExactly` | scripts/openapi-conformance.py:789-820 | the descent goes into common fields that are objects on both sides and into common variants of arrays |
| `SchemaReading.MarkedExactly` | scripts/openapi-conformance.py:744-747 | a field is marked iff its description holds the extension marker somewhere |
| `SchemaReading.VariantKeyMeaning` | scripts/openapi-conformance.py:846-862 | a variant is documented under the way to it, without the endpoint and the body |
| `SchemaReading.CompatibleExactly` | scripts/openapi-conformance.py:946-962 | which type strings do not count as a mismatch |
| `SchemaReading.NamedType` | scripts/openapi-conformance.py:926-938 | the type string of a named type: items of arrays, values of maps, any other name itself |
| `SchemaReading.NullableType` | scripts/openapi-conformance.py:919-925 | a nullable type in list form reads like the type itself |
| `SchemaReading.UnnamedType` | scripts/openapi-conformance.py:939-944 | without a type: enumerations, the last part of a reference, or unknown |
| `ComparisonLaws.SelfNoDiffs` | scripts/openapi-conformance.py:691-910 | a schema compared with itself has no difference at any depth |
| `ComparisonLaws.NoDiffsNoViolations` | scripts/openapi-conformance.py:691-910 | without differences there are no violations |
| `ComparisonLaws.DocumentOne` | scripts/openapi-conformance.py:722-733 | one more documented key removes exactly the undocumented-missing violations with that key, and keeps the order of the others |
| `Checker.ConformanceChecker.CompareEndpoint` | scripts/openapi-conformance.py:597-689 | request, response and parameter differences and violations of an endpoint follow from the pairs that the two resolvers give for its bodies, the request from the caches on entry and the response from those the request left; without cycles these are the uncached pairs |
| `Checker.ConformanceChecker.CheckOperation` | scripts/openapi-conformance.py:506-530 | an operation that Hadrian lacks is one violation and leaves the caches alone; otherwise it is compared by what the resolvers give from the caches on entry, with or without cycles |
| `Checker.ConformanceChecker.CheckPath` | scripts/openapi-conformance.py:500-536 | the operations of a path are booked in order, each resolved from the caches that the one before it left |
| `Checker.ConformanceChecker.CheckConformance` | scripts/openapi-conformance.py:466-536 | the whole report books exactly the operations in scope, each resolved from the caches that the one before it left, starting with those on entry; checked = conformant + listed; violations are empty iff the gate is open from the caches on entry, cycles or not, and without cycles iff it is open by the two specifications alone |
| `Checker.ConformanceChecker.Record` | scripts/openapi-conformance.py:506-536 | a checked operation is counted as conformant or listed, never both |
| `OperationReading.RequestExactly` | scripts/openapi-conformance.py:610-611 | the request body compared is `requestBody.content["application/json"].schema`, or nothing |
| `OperationReading.ResponseExactly` | scripts/openapi-conformance.py:627-628 | the response body compared is `responses["200"].content["application/json"].schema`, or nothing |
| `OperationReading.RequestSeen` | scripts/openapi-conformance.py:613-615 | request bodies that both sides have are compared as the resolvers give them from the caches of the visit |
| `OperationReading.ResponseSeen` | scripts/openapi-conformance.py:630-632 | and response bodies from the caches that the request left |
| `OperationReading.ParamExactly` | scripts/openapi-conformance.py:644-645 | the parameters compared are the last query parameter of each name |
| `OperationReading.HadrianPathExactly` | scripts/openapi-conformance.py:491-494 | the Hadrian path is the mapped one, or else the path behind `/api/v1` |
| `OperationReading.VerbsExactly` | scripts/openapi-conformance.py:498-524 | the five methods, and their names in violations |
| `OperationReading.InScopeExactly` | scripts/openapi-conformance.py:482-489 | a path is checked iff it is in scope and contains the filter |
| `OperationReading.OutOfScopeExactly` | scripts/openapi-conformance.py:482-485 | exactly the paths out of scope are listed as such |
| `OperationReading.OpFaultsExact` | scripts/openapi-conformance.py:506-530 | the violations of an operation: the missing endpoint, or exactly those that its request, its response and its query parameters are at fault for |
| `OperationReading.ListedExactly` | scripts/openapi-conformance.py:532-536 | an operation counts as conformant iff Hadrian declares it, its bodies look the same at every position reached, and the query parameters have the same names |
| `OperationReading.BookedCounts` | scripts/openapi-conformance.py:506-536 | the report counts every visit as checked, and as conformant those not listed |
| `OperationReading.BookedLists` | scripts/openapi-conformance.py:506-536 | it lists exactly the others |
| `Reports.GateExact` | scripts/openapi-conformance.py:466-536 | no violations iff every operation exists and its bodies, at every position reached, and its query parameters conform, by whatever the resolvers gave: also for cyclic specifications |
| `Reports.RunDetermined` | scripts/openapi-conformance.py:466-536 | what a run sees, operation by operation, and the caches it leaves are determined by the two specifications, the operations and the caches it starts from, cycles or not |
| `Reports.ReportDetermined` | scripts/openapi-conformance.py:466-536 | so is its report |
| `Reports.GateDetermined` | scripts/openapi-conformance.py:466-536 | so is the verdict of the gate: one run that conforms from given caches means that all do |
| `Reports.PlainGateExact` | scripts/openapi-conformance.py:466-536 | without cycles the gate is a property of the two specifications alone |
| `Reports.AllOpsMember` | scripts/openapi-conformance.py:480-504 | the operations checked are exactly those in scope that the OpenAI specification has |
| `Reports.BookedFound` | scripts/openapi-conformance.py:506-536 | the report's violations are those of its visits, in order |
| `Reports.DocumentReport` | scripts/openapi-conformance.py:647-657 | a run with a new documented key, from the same caches, removes the violations with that key from the whole report and no others, with or without cycles |
| `UsageBuffer.Conservation` | src/usage_buffer.rs:152-227 | in every interleaving accepted = flushed ++ batch ++ channel, attempts = accepted + dropped, the channel holds at most `max_pending_entries` (a million if that is 0), and the bus saw what was flushed |
| `UsageBuffer.DroppedOnlyWhenFull` | src/usage_buffer.rs:152-173 | a step drops an entry iff it is a push to a full channel |
| `UsageBuffer.Accounting` | src/usage_buffer.rs:256-300 | accepted entries, as a multiset, are those stored, dead-lettered, lost or still pending |
| `UsageBuffer.LossExact` | src/usage_sink.rs:93-146 | a run loses nothing iff every flush is inserted or its entries all reach a dead-letter queue |
| `UsageBuffer.ShutdownComplete` | src/usage_buffer.rs:196-227 | once the worker has exited, everything accepted before `shutdown()` was flushed, once and in order |
| `UsageBuffer.FinalDrainSeals` | src/usage_buffer.rs:243-253 | the sink has got exactly what was accepted when the final drain saw an empty channel |
| `UsageBuffer.WorkerExits` | src/usage_buffer.rs:196-227 | after a shutdown request and the last push the worker exits within a number of steps given by channel and batch |
| `UsageBuffer.WorkerNotBefore` | src/usage_buffer.rs:196-227 | and not in fewer steps |
| `UsageBuffer.Backlog` | src/usage_buffer.rs:193-240 | the next backlog is max(0, backlog + accepted - max_size), in every run |
| `UsageBuffer.PacedNeverDrops` | src/usage_buffer.rs:152-173 | with at most max_size pushes per period and max_size within the capacity no run drops an entry |
| `UsageWorker.UsageLogBuffer.constructor` | src/usage_buffer.rs:107-125 | a new buffer is the initial state of the protocol |
| `UsageWorker.UsageLogBuffer.PushEntry` | src/usage_buffer.rs:152-173 | a push appends to the channel or counts a drop, and is one step |
| `UsageWorker.UsageLogBuffer.Shutdown` | src/usage_buffer.rs:250-253 | sets the flag, one step |
| `UsageWorker.UsageLogBuffer.DrainEntries` | src/usage_buffer.rs:232-240 | takes the oldest entries until the batch is full or the channel empty, whatever others push between two receives; a run of the protocol |
| `UsageWorker.UsageLogBuffer.DrainAll` | src/usage_buffer.rs:243-247 | takes entries until the channel is empty, whatever others push between two receives; a run of the protocol |
| `UsageWorker.UsageLogBuffer.FlushBatch` | src/usage_buffer.rs:256-300 | publishes the batch in order, writes it, and clears it whatever the sink answers |
| `UsageWorker.UsageLogBuffer.Round` | src/usage_buffer.rs:196-227 | one round of the worker, with pushes and shutdown requests between any two of its steps, is a run of the protocol; it exits iff it finds the flag set |
| `UsageWorker.UsageLogBuffer.StartWorker` | src/usage_buffer.rs:185-228 | the whole worker under every schedule of pushes with a shutdown request: it exits, has handed to the sink and published, once and in order, at least everything accepted before the request, and every entry handed over is stored, dead-lettered or lost |
| `UsageWorker.EveryRun` | src/usage_buffer.rs:185-228 | every run of the protocol follows some schedule of the others' turns |
| `UsageSink.DatabaseSink.WriteBatch` | src/usage_sink.rs:93-146 | a batch is inserted whole and the rows that the database counts as added are reported, or its entries go one by one to the dead-letter queue or are lost |
| `UsageSink.DivideLast` | src/usage_sink.rs:93-146 | a batch is stored whole or not at all; each entry of a failed batch is dead-lettered iff there is a queue that takes it, and lost otherwise, in order |
| `UsageSink.SplitConserves` | src/usage_sink.rs:93-146 | every entry is stored, dead-lettered or lost, exactly once |
| `UsageSink.NothingLost` | src/usage_sink.rs:107-146 | nothing of a batch is lost iff it is empty, the insert succeeds, or a queue takes every entry |
| `UsageSink.WriteComposite` | src/usage_sink.rs:543-570 | the loop over the sinks gives the outcome of the composite |
| `UsageSink.WriteMeaning` | src/usage_sink.rs:543-570 | a tree of composites writes each leaf once from left to right and succeeds with the best count iff it is positive |
| `UsageSink.BestIsLargest` | src/usage_sink.rs:548-566 | the best count is the largest that some leaf of the tree reports |
| `UsageSink.Flattening` | src/usage_sink.rs:543-570 | a tree behaves like the flat composite of its leaves in writes, success and count |
| `UsageSink.FlatteningErrorDiffers` | src/usage_sink.rs:543-570 | the error may differ: an input |
| `UsageSink.FlatteningExactly` | src/usage_sink.rs:543-570 | tree and flat composite agree entirely iff something is written, or the last report comes from a failing leaf, or the last failing leaf reports what a silent composite would |
| `Wizard.EscapeOnce` | src/wizard.rs:1150-1153 | the two replace passes, in that order, escape each character once |
| `Wizard.ConfigTypes` | src/wizard.rs:123-131 | the configuration type of every kind of provider |
| `Toml.ReadEscaped` | src/wizard.rs:1150-1153 | an escaped string reads back as itself iff it holds no control character other than tab |
| `Toml.ReadRaw` | src/wizard.rs:1135-1141 | a string printed without escaping reads back as itself iff it needs none |
| `Toml.LineReads` | src/wizard.rs:954-1148 | every printable line reads back as what it says |
| `TomlDocument.DocumentReads` | src/wizard.rs:954-1148 | a text that writes given tables is read as those tables iff TOML allows them; otherwise it is refused |
| `TomlDocument.EntryRefused` | src/wizard.rs:1150-1153 | an escaped string with a control character makes the whole text unreadable |
| `TomlDocument.RawStrays` | src/wizard.rs:1135-1141 | a string printed without escaping that needs it, line breaks included, makes the whole text unreadable or is read as another string |
| `Wizard.GenerateConfig` | src/wizard.rs:954-1148 | the string grown by all branches and the loop over providers is the text of the line list `Whole` |
| `Wizard.Output.PushText` | src/wizard.rs:993-1002 | a quoted string is pushed with the wizard's own escaping |
| `Wizard.Output.PushProviders` | src/wizard.rs:1111-1146 | the default provider and one table per provider, in order |
| `WizardTheorems.WholeWrites` | src/wizard.rs:954-1148 | read as TOML, the lines write exactly the expected tables; a bad escaped text makes the file unreadable, a bad raw string makes it unreadable or is read as another string |
| `WizardRoundTrip.DocumentValid` | src/wizard.rs:1111-1146 | the tables are a valid document iff the provider names are distinct and none is `default_provider` |
| `WizardRoundTrip.DocumentMeaning` | src/wizard.rs:954-1148 | the tables say the database, cache, authentication, limits, default provider and ordered providers of the configuration |
| `WizardRoundTrip.StrayFile` | src/wizard.rs:1060-1141 | a file that goes astray in a raw string does not say what the wizard was told, whatever follows the string |
| `WizardRoundTrip.NamesReadBare` | src/wizard.rs:1111-1119 | nor does any file give back a provider name that is no bare key |
| `WizardRoundTrip.RoundTrip` | src/wizard.rs:954-1153 | for every configuration whose identity-provider settings hold no line break: reading the printed text gives it back iff no escaped text has a control character, no raw value needs escaping, and the provider names are different bare keys other than `default_provider`; with bare names and clean raw values the text is refused in all other cases |
| `WizardRoundTrip.GenerateThenRead` | src/wizard.rs:954-1153 | the same for the text that `GenerateConfig` returns |
| `Codec.RoundTrip` | src/api_types/responses.rs:1351-1368 | every value of a declaration with distinct names and alternatives that can be told apart decodes back to itself |
| `Codec.ApartRejects` | src/api_types/responses.rs:1351-1368 | a struct with a mandatory tag refuses every encoding with another tag |
| `CodecMeaning.OnWire` | src/api_types/responses.rs:1351-1368 | every member is written under its name, unless it may be left out and has the value it has when missing |
| `CodecMeaning.UnknownIgnored` | src/api_types/responses.rs:1351-1368 | keys that no member has do not change what is read |
| `CodecMeaning.TakesFirst` | src/api_types/responses.rs:1320-1368 | an untagged enum takes exactly the first alternative that decodes |
| `ResponseNames.NamesMatter` | src/api_types/responses.rs:380-1318 | an item without one of its needed keys is refused; keys neither needed nor allowed are ignored |
| `ResponseNames.MessageNames` | src/api_types/responses.rs:380-660 | the needed and the allowed keys of messages and reasoning |
| `ResponseNames.CallNames` | src/api_types/responses.rs:671-720 | those of function calls |
| `ResponseNames.SearchNames` | src/api_types/responses.rs:753-850 | those of searches |
| `ResponseNames.ShellNames` | src/api_types/responses.rs:930-955 | those of shell calls |
| `ResponseNames.ShellOutputNames` | src/api_types/responses.rs:984-1018 | those of shell outputs |
| `ResponseNames.McpNames` | src/api_types/responses.rs:1108-1235 | those of MCP items |
| `ResponseNames.OtherNames` | src/api_types/responses.rs:1066-1318 | those of tool searches, compaction and images |
| `ResponseTheorems.OutputItemRoundTrip` | src/api_types/responses.rs:1351-1368 | every `ResponsesOutputItem`, of all fourteen variants, decodes back to the same item |
| `ResponseTheorems.DistinctTagsSound` | src/api_types/responses.rs:1351-1368 | structs with different mandatory tags can be told apart in any order |
| `ResponseInput.MessageAsInput` | src/api_types/responses.rs:1320-1342 | an output message decoded as an input item is itself iff it has content or a role outside the four; otherwise it becomes an easy message without id, status and phase; whatever alternatives follow |
| `ResponseInput.MessageItemExact` | src/api_types/responses.rs:1320-1342 | a JSON value is read as a message item iff it is an array in the form of one: no object ever is |
| `ResponseInput.MessageItemFromArray` | src/api_types/responses.rs:628-636 | an array that is read as a message item |
| `ResponseInput.EasyFirst` | src/api_types/responses.rs:620-636 | every object that would do as a message item is an easy message |
| `ResponseReplay.OutputAsInput` | src/api_types/responses.rs:1320-1368 | the eleven output variants other than messages, reasoning and function calls are read back as what they were |
| `ResponseReplay.ReasoningAsInput` | src/api_types/responses.rs:1320-1342 | so is reasoning |
| `ResponseReplay.CallAsInput` | src/api_types/responses.rs:1320-1342 | every typed output function call: read as itself iff it has no id; with one, it is read as a function tool call with the same contents |
| `SearchFilters.RoundTrip` | src/api_types/responses.rs:1540-1573 | every filter, of any depth, decodes back to itself |
| `SearchFilters.OnWire` | src/api_types/responses.rs:1518-1573 | the keys and names of both kinds of filter |
| `SearchFilters.Exclusive` | src/api_types/responses.rs:1569-1573 | no JSON value is both a comparison and a compound filter |
| `Usage.Accumulator.Accumulate` | src/api_types/responses.rs:2959-2990 | one call adds counters with wrap-around, adds present costs, and makes a BYOK mark stick |
| `Usage.Accumulator.AccumulateAll` | src/services/server_tools/runner.rs:815-825 | the turns accumulated one after the other give their left fold |
| `Usage.CostIsSum` | src/api_types/responses.rs:2965-2969 | the cost of a response is the sum of the costs of its turns, and missing iff no turn has one |
| `Usage.DetailsAreSums` | src/api_types/responses.rs:2973-2980 | the input and output costs are the sums over the turns with details, and missing iff no turn has details |
| `Usage.UpstreamIsSum` | src/api_types/responses.rs:2981-2989 | so is the upstream cost |
| `Usage.CountersAreSums` | src/api_types/responses.rs:2959-2964 | every counter is the sum over the turns, wrapped to 64 bits |
| `Usage.FoldMark` | src/api_types/responses.rs:2970-2972 | a response is marked BYOK iff some turn is, and otherwise as its first turn |
| `Usage.Bracketing` | src/api_types/responses.rs:2959-2990 | every bracketing of a list of turns gives the same total |
| `Usage.SameStart` | src/api_types/responses.rs:2959-2990 | every order of the turns after the first gives exactly the same total |
| `Usage.AnyOrder` | src/api_types/responses.rs:2959-2990 | every order of all turns, the first included, gives the same total up to a missing against a false BYOK mark |
| `Usage.AnyOrderExact` | src/services/server_tools/runner.rs:815-825 | two orders give equal totals iff some turn is marked BYOK or both start with the same mark |
| `Usage.OrderSeen` | src/api_types/responses.rs:2970-2972 | an exchange of the first two turns that changes the total |
| `Usage.NeverOverflows` | src/api_types/responses.rs:2959-2965 | if the grand totals of non-negative counters fit 64 bits, no addition on the way overflows |
| `Usage.CoherentKept` | src/api_types/responses.rs:2959-2965 | total = input + output, cached <= input and reasoning <= output are kept |
| `Echo.CreateResponsesPayload.StripGatewayFields` | src/api_types/responses.rs:3185-3200 | `store` is false; background, models, provider, plugins, sovereignty, skills and the task budget are gone; `include` keeps exactly its specified values, or is gone when none is left; every other field is as it was |
| `Echo.Retain` | src/api_types/responses.rs:3194-3199 | one pass keeps exactly the values that are not the Hadrian extension |
| `Echo.KeptSpecified` | src/api_types/responses.rs:3194-3199 | the extension is gone, every other value is there as often as before |
| `Echo.KeptInOrder` | src/api_types/responses.rs:3194-3199 | and in the same order |
| `Echo.StripTwice` | src/api_types/responses.rs:3185-3200 | stripping is idempotent |
| `Echo.EchoedTools` | src/api_types/responses.rs:3206-3244 | tools, tool choice and parallel calls as echoed, with their defaults |
| `Echo.EchoedSampling` | src/api_types/responses.rs:3245-3257 | temperature, top_p, store and background, with their defaults |
| `Echo.EchoedFormats` | src/api_types/responses.rs:3258-3293 | truncation, text, service tier and penalties, with their defaults |
| `Echo.EchoedTexts` | src/api_types/responses.rs:3294-3321 | instructions and identifiers, null when missing |
| `Echo.EchoedRest` | src/api_types/responses.rs:3322-3357 | limits, metadata and reasoning |
| `Echo.ToolMeaning` | src/api_types/responses.rs:3209-3228 | a function tool shows `strict` and `description`, null when missing; nothing else of any tool changes |
| `Echo.KnownMeaning` | src/api_types/responses.rs:3258-3285 | an unknown truncation or service tier shows as the default |
| `Echo.EchoAfterStrip` | src/api_types/responses.rs:3203-3357 | echoing after stripping is echoing before it with store and background false |
| `Echo.EchoSparesReserved` | src/api_types/responses.rs:3203-3357 | the echo has none of the keys that describe the response itself |
| `Echo.BuildStreamingResponse` | src/api_types/responses.rs:3132-3155 | the base object with the echoed fields inserted one by one |
| `Echo.BaseMeaning` | src/api_types/responses.rs:3132-3155 | the fields of a streaming event itself |
| `Echo.StreamingMeaning` | src/api_types/responses.rs:3132-3155 | the event shows its own fields as built and exactly the echo beside them |
| `Echo.ToJsonWithEcho` | src/api_types/responses.rs:3105-3126 | the loop over the echo skips only a reasoning that the response has itself |
| `Echo.ResponseMeaning` | src/api_types/responses.rs:3105-3126 | what a response shows under each key after the merge |
| `Bootstrap.RaceSafe` | src/app.rs:1411-1470 | in every interleaving there is at most one default user and organisation, "conflict but not found" never happens, and every identifier obtained is that of the one row |
| `Bootstrap.FinishersAgree` | src/app.rs:1411-1470 | without other database errors all finishing instances have the same identifiers, of the only rows |
| `Bootstrap.SameAcrossRestarts` | src/app.rs:1411-1470 | an existing default user and an existing default organisation keep their identifiers through any later run |
| `Bootstrap.MembershipOnce` | src/app.rs:1472-1495 | the membership is present, once, however many instances added it |
| `ModelsCache.Cache.Warm` | src/app.rs:2211-2249 | retain, then insert the successful answers |
| `ModelsCache.Cache.WarmAll` | src/app.rs:2211-2249 | after any rounds the cache holds the latest successful answer of each provider |
| `ModelsCache.RoundsMeaning` | src/app.rs:2211-2249 | each entry is the provider's answer from the latest round in which its fetch succeeded |
| `ModelsCache.FromEmpty` | src/app.rs:2211-2249 | from an empty cache: only configured providers, and never-successful ones absent |

## Left out

- A description of the results on cyclic specifications that does not mention the cache: they depend on the order of earlier calls; they are what `RunSchema` gives from the cache of the call.
- Which specifications with a cycle through an `allOf` the script still ends on: there are such that it never ends on and such that it does; the class is only used on stratified ones.
- Python exceptions on malformed specifications (a `$ref` that is not a string, an `allOf` that is not a list of schemas): `Sound` asks for the shapes the script relies on.
- The order of a merged `required` list: Python builds it from a set; the model keeps the order of arrival and the theorem is about membership.
- The order in which common fields (a Python set) and union variants (sorted) are compared; the model goes in the order of the schema.
- Scope tables, path patterns and `str()` of a JSON value are parameters (`Policy`); messages, descriptions, the types shown for parameters, the list of Hadrian-only endpoints and report formatting are not modelled.
- The channel, the database and the dead-letter queue are given by contract: a linearisable bounded FIFO, an all-or-nothing batch insert, and a per-entry outcome chosen by the environment; the `u64` drop counter is unbounded here.
- UsageSink.DatabaseSink.WriteBatch: rows that the database ignores because they are there already count as stored; only the reported number tells them apart.
- `OtlpSink`, metrics, tracing and the event bus beyond the sequence of published entries.
- Wizard prompts, `validate_config` and the session-secret generator (the secret is a parameter); identity-provider settings are printed as comments and cannot be read back; provider types are recovered up to their configuration type; budgets are the text their decimal prints as.
- The TOML reader covers comments, bare keys, one-line basic strings, non-negative integers, booleans and arrays of strings, which is all the wizard prints; other forms are refused. One of them can be opened by a raw value that starts with two quotes: a multi-line string.
- WizardRoundTrip.RoundTrip: identity-provider settings with a line break, which end their comment; whether the configuration is then given back depends on what the rest of the setting says as TOML.
- Objects with repeated keys, numbers beyond a finite real, and the difference between 1 and 1.0 are not modelled in `Codec`; maps keep the order of their entries.
- Responses items other than the declarations in `ResponseItems`, and tool definitions, which pass through as JSON.
- `usize` is taken as 64 bits wide.
- The map of `echo_fields_json` is modelled as a value, not by its single insertions; JSON maps keep insertion order, where the program sorts keys.
- Floating-point rounding of costs: reals are exact.
- User and organisation attributes other than their unique key, and deletions, in the startup protocol.
- The rest of `src/app.rs`, the other API types, the user interface and the documentation site: wiring, declarations and network code that would only add easy members.
