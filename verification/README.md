# Contract registry, drift detection and delivery: a verified model

The system watches JSON APIs. It registers every new shape of a payload as a numbered schema version, classifies
each version against its predecessor, infers schemas from response bodies and diffs them, tells subscribed consumers
about drift through a durable outbox, and keeps what could not be delivered as dead letters. A gateway in front
accepts signed webhooks once per idempotency key.

The project models these parts and proves what they keep, for all inputs and for every interleaving of their steps:

| files | part |
|---|---|
| `Registry`, `RegistryInvariant`, `RegistryCommit`, `RegistryTheorems`, `RegistryDatabase`, `RegistryAnswers` | the versioned registry as a concurrent protocol: SQL statements as atomic steps of open transactions, READ COMMITTED reads, the advisory lock, commits and aborts; its refinement of a sequential ledger; the tables updated in place; what the answers name |
| `Classifier`, `CompatibilityChain`, `PayloadKinds`, `VerdictTable`, `HandWrittenSchemas`, `FlattenLossless` | canonical schemas, flattening, compatibility verdicts read off payloads and off a table, and how verdicts compose along a chain of versions, for canonical and for hand-written schemas |
| `StructuralString`, `StructuralReading`, `StructuralUniqueness`, `StructuralDescription`, `StructuralCollisions` | the printer behind the contract fingerprint, what its text says, reading its text back from either end, and which keys make two shapes collide |
| `SchemaInference`, `DocumentSights`, `InferenceMeaning`, `InferenceSummary`, `InferenceKeyOrder`, `InferenceItemOrder`, `InferenceArrayOrder`, `InferenceDeepOrder` | schema inference over a map of accumulators, what every node says of the document, its summary form, and exactly which orders it does not depend on |
| `JsonTexts`, `Normalizer`, `NormalizedMeaning` | the grammar of JSON texts, serialization and its reading back, and the size cap of stored bodies |
| `SchemaDiff`, `DiffContents`, `ChangeSeverity`, `OpenApiDiff`, `OpenApiLines` | path-wise diffs of inferred schemas, what each holds, and what their severities say and hide; two breaking-change decisions on OpenAPI documents |
| `Outbox`, `OutboxInvariant`, `OutboxWork`, `OutboxTheorems`, `OutboxDelivery`, `OutboxOutcomes` | the outbox worker with crashes between any two of its statements, retries, backoff and dead letters; every outcome of a row |
| `DriftEvents` | publishing with retries, dead-letter rows of drift events, overlapping replays |
| `Gateway` | the idempotency protocol across an await |
| `Sorting`, `Collections`, `Decimals`, `Paths`, `JsonValues`, `Options` | Python's orders and sorts, sets and permutations, decimal text, path strings, JSON values |

Protocols are state machines: a `World`, a `Step` for each move, and `Run` for a list of moves, so a theorem about
`Run` speaks of every schedule. Code that loops over or updates state is a method, proved equal to the function the
theorems are about. History kept only to state properties (`log`, `order`, `posts`, `done`, `published`, ..) is
marked as such where it is declared.

Where code and comments differ, the model follows the code:

- `normalize` says it returns a best-effort partial value when a body is too large. For objects, arrays and strings
  it never does: `Normalizer.NormalizeExact` shows that only a bare number can come back shortened.
- `diff_and_classify` calls two enums that overlap, or have nothing in common, SAFE. `HandWrittenSchemas.SafeChainVerdict`
  says for chains of any length when their SAFE steps still add up to a SAFE change.

Some properties one would expect hold only under a condition. Each comes with its exact condition, for all inputs, and
with an instance or a family for which it fails:

| property | holds exactly when | fails for |
|---|---|---|
| the gauge of webhook dead letters is their number | `OutboxTheorems.GaugeExact`, `OutboxTheorems.CrashGaugeExact`, `OutboxTheorems.LettersAtStake` | `OutboxTheorems.CrashLeavesGaugeHigh` |
| SAFE steps between hand-written schemas make a SAFE change | `HandWrittenSchemas.SafeNodesCompose`, `HandWrittenSchemas.SafeChainVerdict` | `HandWrittenSchemas.EnumStepsDoNotCompose` |
| the schema hash ignores the order of items that are scalars or flat objects | `InferenceArrayOrder.ArrayOrderExact`, `InferenceArrayOrder.MemberOrderExact` | `InferenceArrayOrder.MixedItemsDependOnOrder` |
| the structural string tells any two shapes apart | `StructuralCollisions.InjectiveIffHarmless` | `StructuralCollisions.SemicolonCollides` and the three lemmas after it |
| an empty diff of payloads with clean keys means equal schemas | `FlattenLossless.DiffEmptyIffSameTrace` | `FlattenLossless.EmptyObjectLost` |
| the two OpenAPI scripts agree | `OpenApiDiff.VerdictsAgreeIff` | `OpenApiDiff.MaskedExample` |
| non-breaking OpenAPI changes compose | `OpenApiDiff.NonBreakingComposes` | a property that loses its type in the middle |
| a severity tells the worst a change does to a consumer | `ChangeSeverity.SeverityMeaning`, `ChangeSeverity.SeverityHides` | `ChangeSeverity.HiddenGain` |
| the gauge of drift dead letters is the number of pending ones | `DriftEvents.GaugeExact` | `DriftEvents.OverlapCountsTwice`, `DriftEvents.OverlapCountsFailure` |
| a replayed drift event stays REPLAYED | `DriftEvents.ReplayedIsPermanent` | `DriftEvents.OverlapUndoes` |
| an idempotency key is forwarded successfully at most once | `Gateway.SuccessesExact`, and no more often than `Gateway.SuccessesBounded` allows | `Gateway.OverlapForwardsTwice` |

`dafny verify dfyconfig.toml` checks the whole project.

## Model

| member | source | states |
|---|---|---|
| RegistryTheorems.RegistrySafety | app/runtime/registry.py:103-216 | in every interleaving with aborts: per endpoint the versions are exactly 1..n, fingerprints never repeat, each row points to the version one lower, exactly version n is current; no insert ever meets a UNIQUE violation, committed or pending |
| RegistryTheorems.RegistryRefinesLedger | app/runtime/registry.py:103-216 | every concurrent run is serial in commit order: each committed caller is told what a sequential registry would say, and each row holds the payload, fingerprint and verdict of its place in that registry's list |
| RegistryTheorems.OneInsertPerFingerprint | app/runtime/registry.py:122-216 | exactly the first committed call with a fingerprint is told `inserted`; all calls with it are told the same version; the ledger is the list of inserted payloads in commit order |
| RegistryTheorems.StoredIsOwnDiff | app/runtime/service.py:180-227 | every stored version above 1 carries the classification of its own diff against the row its `previous_version_id` names |
| RegistryTheorems.StoredChainBound | app/runtime/service.py:180-227 | for payloads without a key `type`: the diff of any two stored versions ranks no worse than the worst verdict stored after the first up to the second; if all are SAFE, every flattened path of the older schema is unchanged in the newer |
| RegistryTheorems.Placement | app/runtime/registry.py:168-191 | in a serial log a fingerprint is known exactly when some call brought it, and its place fixes the version every such call is told |
| RegistryTheorems.NoDeadlock | app/runtime/registry.py:21-151 | in every reachable state with open transactions one of them waits neither for the lock nor for another's endpoint row |
| RegistryAnswers.AnswersMean | app/runtime/registry.py:103-216 | in every run each committed answer names a row of its endpoint with the fingerprint of its payload and the version told; an inserted row holds the call's canonical schema and the verdict told; version 1 and known fingerprints are told SAFE |
| RegistryAnswers.InsertedVerdict | app/runtime/service.py:127-227 | in every run of payloads with clean keys, an inserted version above 1 is told SAFE iff every value of the payload inserted before it meets one of its kind, RISKY iff otherwise only integers met floats, else BREAKING; kinds are read off the two payloads |
| RegistryCommit.StepKeeps | app/runtime/registry.py:103-216 | every begin, statement, commit and abort keeps the invariant of tables, history, locks, snapshots and pending writes |
| RegistryCommit.RunInv | app/runtime/registry.py:103-216 | the invariant holds after any list of moves of any transactions |
| RegistryCommit.WriterLedger | app/runtime/registry.py:174-216 | committing an insert appends its payload to the endpoint's ledger with the sequential answer and leaves all other endpoints alone |
| RegistryCommit.ReaderReplies | app/runtime/registry.py:122-146 | a transaction that found its fingerprint, however long ago, still holds the sequential answer when it commits |
| RegistryCommit.GrownTables | app/runtime/registry.py:177-203 | clearing the old flag and adding the new row keeps numbering, predecessor links and the single current row |
| RegistryInvariant.InsertNeverRejected | migrations/003_event_driven_registry.sql:22-23 | under the lock and after the second lookup no committed row and no other open transaction clashes with the row to insert |
| RegistryInvariant.CurrentIsNewest | app/runtime/registry.py:73-100 | the flagged row read under the lock is the newest version of the endpoint, and none is read exactly when there is none |
| RegistryInvariant.FoundAnswers | app/runtime/registry.py:122-146 | the fingerprint lookup returns a committed version with that fingerprint, or there is none anywhere in the table |
| RegistryDatabase.Database.InsertEndpoint | app/runtime/registry.py:21-70 | inserting, finding or waiting for the endpoint row is the protocol's first step |
| RegistryDatabase.Database.SelectByFingerprint | app/runtime/registry.py:122-136 | the scan of the table is the lookup of the protocol |
| RegistryDatabase.Database.GetCurrentSchema | app/runtime/registry.py:73-100 | the scan for the highest flagged version is the read of the protocol |
| RegistryDatabase.Database.Lock | app/runtime/registry.py:148-151 | taking the advisory lock, or waiting while it is held |
| RegistryDatabase.Database.InsertVersion | app/runtime/registry.py:174-216 | numbering, linking and inserting the row, or its rejection |
| RegistryDatabase.Database.UpdateClassification | app/runtime/service.py:194-227 | diff against the prior schema, summary, and update of the stored classification |
| RegistryDatabase.Database.CommitTransaction | app/main.py:122-122 | the writes of the transaction reach the tables and its lock is released |
| RegistryDatabase.Database.Rollback | app/runtime/registry.py:103-216 | an abandoned transaction leaves the tables as they were and releases its lock |
| RegistryDatabase.Database.UpsertSchemaVersion | app/runtime/registry.py:103-216 | the statements in sequence, from the start or from where the call had to wait, are a run of the protocol that ends returned, at the read of the prior schema, or waiting |
| RegistryDatabase.Database.Proceed | app/runtime/service.py:127-227 | a call that gets through, however often it had to wait and whatever others did meanwhile, answers what the sequential registry says for the log committed by then |
| RegistryDatabase.Database.TrackContract | app/runtime/service.py:127-227 | a new call keeps the invariant, and gets the sequential answer or stands waiting for another open transaction |
| RegistryDatabase.ReturnedIsReply | app/runtime/registry.py:103-216 | whatever has committed meanwhile, a transaction ready to commit holds the sequential answer |
| Classifier.FlattenSchema | app/runtime/classifier.py:36-52 | the dictionary filled by recursive loops is the flattening function |
| Classifier.DiffSchemas | app/runtime/classifier.py:102-123 | the list appended path by path is the diff function |
| CompatibilityChain.DiffPathsItems | app/runtime/classifier.py:102-123 | the diff holds exactly the paths whose nodes differ, each with its own item |
| CompatibilityChain.SummaryWithin | app/runtime/classifier.py:126-130 | the summary ranks within r exactly when every differing path does |
| CompatibilityChain.CanonicalizeIsCanonical | app/runtime/canonical.py:8-23 | payloads without a key `type` become schemas whose leaves are fixed by their type name; which kind each name stands for is `PayloadKinds.SurfaceMeaning` |
| CompatibilityChain.RankMeaning | app/runtime/classifier.py:55-99 | among such schemas a rank bound below RISKY means no old path was lost or changed, RISKY that integers may have widened, BREAKING nothing |
| CompatibilityChain.VerdictMeaning | app/runtime/classifier.py:55-130 | the verdict is SAFE iff every old path is unchanged, RISKY iff otherwise only integers widened to numbers, else BREAKING; nothing else arises |
| CompatibilityChain.VerdictsCompose | app/runtime/classifier.py:55-130 | if a to b and b to c stay within a rank, so does a to c |
| CompatibilityChain.ChainBound | app/runtime/classifier.py:102-130 | along a chain of any length the direct verdict ranks no worse than the worst single step |
| CompatibilityChain.SafeChainOnlyGrows | app/runtime/classifier.py:102-130 | a chain of SAFE steps keeps every path unchanged from first to last |
| PayloadKinds.SurfaceMeaning | app/runtime/canonical.py:8-23 | for payloads with clean keys, found by walking the payload: a path has a node iff a value stands there, and its `type` is `integer` iff that is an Int, `number` iff a Float, `boolean`, `string`, `null` and `array` likewise, `nullable` iff null |
| PayloadKinds.VerdictOnPayloads | app/runtime/classifier.py:55-130 | the verdict between two such payloads: SAFE iff every value of the old one meets one of its kind at its path, RISKY iff otherwise only Ints met Floats, else BREAKING |
| VerdictTable.FlatIsTyped | app/runtime/classifier.py:36-52 | whatever the schema, each flattened node is one found by walking to its path: the object with a `type` entry itself, the array marker, or the marker of anything else |
| VerdictTable.TypedIsFlat | app/runtime/classifier.py:36-52 | and every path at which such a node is found is in the flattening |
| VerdictTable.DiffFollowsTable | app/runtime/classifier.py:55-123 | for any two schemas: one entry for exactly the paths whose nodes differ, with type and `nullable` of each side read from the entries of that side's node, and verdict and reason from a table over these entries |
| VerdictTable.TruthyMeans | app/runtime/classifier.py:30-33 | eight JSON values count as false, and no other |
| VerdictTable.SummaryIsWorst | app/runtime/classifier.py:126-130 | the summary is the first of BREAKING, RISKY, FORWARD_COMPATIBLE and BACKWARD_COMPATIBLE that some entry has, else SAFE |
| HandWrittenSchemas.ReverseVerdicts | app/runtime/classifier.py:64-99 | for any two nodes: when the verdict is BREAKING; SAFE is symmetric; undoing a lesser change is BREAKING |
| HandWrittenSchemas.SafeNodesCompose | app/runtime/classifier.py:64-99 | two SAFE steps make a SAFE one exactly when the ends state no opposite `nullable` and have no enum strictly inside the other, and a BREAKING one exactly when they tighten |
| HandWrittenSchemas.BridgedNodesCompose | app/runtime/classifier.py:64-99 | so they compose if the middle node states `nullable` and repeats the enum of an end that has one, or an end has none |
| HandWrittenSchemas.SafeChainVerdict | app/runtime/classifier.py:55-130 | in a chain of SAFE steps of any length, whatever the schemas, the direct verdict of two members is SAFE exactly when no shared path opposes and no path that came is required |
| HandWrittenSchemas.SafeChainBreaks | app/runtime/classifier.py:55-130 | and BREAKING exactly when some shared path tightens |
| HandWrittenSchemas.BridgedChainIsSafe | app/runtime/classifier.py:55-130 | a chain whose members in between bridge every path, and that ends without newly required paths, is SAFE from first to last |
| HandWrittenSchemas.EnumStepsDoNotCompose | app/runtime/classifier.py:87-99 | an instance: two SAFE steps between enums that end in a BREAKING difference |
| FlattenLossless.FlatTellsTrace | app/runtime/classifier.py:36-52 | schemas with equal flattenings are equal but for members and items that hold no leaf and no array |
| FlattenLossless.TraceFixesFlat | app/runtime/classifier.py:36-52 | and schemas equal in that sense have equal flattenings, from every prefix |
| FlattenLossless.DiffEmptyIffSameTrace | app/runtime/classifier.py:102-123 | for payloads with clean keys the diff is empty exactly when the canonical schemas are equal in that sense |
| FlattenLossless.DiffEmptyIffEqual | app/runtime/classifier.py:102-123 | without empty objects the diff is empty exactly when the canonical schemas are equal |
| FlattenLossless.EmptyObjectLost | app/runtime/classifier.py:36-46 | an empty object leaves no path, so its removal is not reported |
| StructuralString.ExtractArray | app/core/parser.py:32-50 | the loop over a local set and list yields the sorted type names followed by the sorted nested texts |
| StructuralString.ObjectText | app/core/parser.py:54-63 | a nested object prints its members once each, in key order, as key, colon and text of the value |
| StructuralDescription.ScalarTexts | app/core/parser.py:7-18 | null, booleans, ints, floats and strings print as `null`, `bool`, `int`, `float` and `string` |
| StructuralDescription.TextDescribes | app/core/parser.py:29-63 | every printed text describes the shape of its value: the names of the five kinds, keys once each in order with the text of their member, per array its kinds in order and then its nested texts in order |
| StructuralDescription.StringDescribes | app/core/parser.py:84-91 | the structural string describes the payload's shape member by member, each ended by a semicolon; anything but an object has none |
| StructuralReading.TextsApart | app/core/parser.py:54-63 | if all keys can be read from one end, two printed values are never confused there, whatever surrounds them |
| StructuralReading.GlueReadsBack | app/core/parser.py:57-62 | the joined parts of an object or array are found again from the joined text, from the front or from the end |
| StructuralReading.TerminatedReadsBack | app/core/parser.py:87-91 | so are the parts of the root |
| StructuralUniqueness.TextFixesShape | app/core/parser.py:29-63 | values that print alike have equal shapes, if all keys can be read from one end: objects by key, arrays by their set of scalar kinds and multiset of nested shapes |
| StructuralUniqueness.ShapeFixesText | app/core/parser.py:29-63 | values of equal shape print alike, whatever their keys |
| StructuralUniqueness.UniqueReadability | app/core/parser.py:84-91 | while all keys can be read from one end, two payloads have the same structural string exactly when they have the same shape; what the string says of it is `StructuralDescription.StringDescribes` |
| StructuralCollisions.InjectiveIffHarmless | app/core/parser.py:84-91 | for every set of delimiters allowed in keys: the string tells all shapes apart exactly when the set lacks `:` and `}`, or `:` `;` and `,`, or `;` and `{` |
| StructuralCollisions.SemicolonCollides | app/core/parser.py:87-91 | with `:` and `;` a key can spell out any two members of equal texts |
| StructuralCollisions.BraceCollides | app/core/parser.py:54-63 | with `:` and `{` a key can open an object that another closes |
| StructuralCollisions.ClosingCollides | app/core/parser.py:54-63 | with `}` and `;` a key can close the empty object before it |
| StructuralCollisions.CommaCollides | app/core/parser.py:54-63 | with both braces and `,` a key can spell out two items |
| SchemaInference.Inferrer.EnsureNode | backend/app/core/schema_infer.py:160-163 | a new path gets a fresh accumulator, a known one keeps its own whatever the type |
| SchemaInference.Inferrer.EmitScalar | backend/app/core/schema_infer.py:135-157 | the field updates for one scalar are the observation of the model |
| SchemaInference.Inferrer.EmitValue | backend/app/core/schema_infer.py:126-157 | emitting a value is the run of its events |
| SchemaInference.Inferrer.CountKeys | backend/app/core/schema_infer.py:95-98 | the counts of the loop are how many items hold each key |
| SchemaInference.Inferrer.EmitRows | backend/app/core/schema_infer.py:99-101 | the members of all items are filed under the one item path |
| SchemaInference.Inferrer.MarkOptionalKeys | backend/app/core/schema_infer.py:102-106 | keys not in every item lose `required` |
| SchemaInference.Inferrer.EmitItems | backend/app/core/schema_infer.py:109-114 | mixed items are emitted in order and their non-null types collected |
| SchemaInference.Inferrer.WalkArray | backend/app/core/schema_infer.py:85-120 | the three array cases are the run of the array's events |
| SchemaInference.Inferrer.Walk | backend/app/core/schema_infer.py:75-123 | the recursive walk is the run of the value's events |
| SchemaInference.Infer | backend/app/core/schema_infer.py:68-72 | the inferred list is the finalized run of all events, sorted by path; what its nodes mean is `InferenceMeaning.EveryNodeMeans` |
| DocumentSights.DocumentTold | backend/app/core/schema_infer.py:75-163 | at every path the walk records exactly what is seen there by looking through the document: its values in order, its arrays as their item types are settled, and whether some row lacks the key |
| InferenceMeaning.EveryNodeMeans | backend/app/core/schema_infer.py:40-178 | for every document and node: the type names the kinds of the values seen at its path, behind a first object or array any scalar makes it `mixed`; nullable iff a null is seen; required iff no row lacks the key; the item type is `unknown` for an empty array, `object` for objects only, else by the kinds of the items; the enum lists 1 to 10 strings; the example is the first scalar, cut at 200 |
| InferenceMeaning.EveryPathHasNode | backend/app/core/schema_infer.py:68-72 | there is a node for a path exactly when something stands there |
| InferenceMeaning.NodesAscend | backend/app/core/schema_infer.py:72-72 | nodes stand in ascending order of their paths, no path twice |
| InferenceMeaning.ScalarTypes | backend/app/core/schema_infer.py:40-51 | where only scalars stand: `integer` iff some Int and nothing but Ints and nulls, `number`, `boolean` and `string` likewise, `null` iff only nulls, else `mixed` |
| SchemaInference.RunAt | backend/app/core/schema_infer.py:75-163 | what a run leaves at a path depends only on the operations filed under that path |
| InferenceSummary.FoldIsSummary | backend/app/core/schema_infer.py:126-157 | step-by-step observation of scalars equals a summary of the values seen |
| InferenceSummary.ScalarPathSummary | backend/app/core/schema_infer.py:126-178 | the final node of a fresh path: joined type, nullable iff a null was seen, enum values the sorted distinct strings iff 1 to 10, example the first non-null value, cut |
| InferenceSummary.SummaryTypeMeaning | backend/app/core/schema_infer.py:135-146 | the type is `null` iff only nulls were seen, and a single type iff all other values have it |
| InferenceKeyOrder.WalkReordered | backend/app/core/schema_infer.py:75-123 | reordering object keys at any depth leaves the operations of every path, and their order, as they were |
| InferenceKeyOrder.KeyOrderIrrelevant | backend/app/core/schema_infer.py:68-157 | for clean keys the inferred list, examples included, is the same for every reordering of keys |
| InferenceKeyOrder.SortingKeysIrrelevant | backend/app/core/normalizer.py:29-34 | so inference on the key-sorted body equals inference on the body |
| InferenceItemOrder.ObservationsCommute | backend/app/core/schema_infer.py:126-157 | two scalar observations commute up to the example |
| InferenceItemOrder.PermutedSame | backend/app/core/schema_infer.py:126-157 | any permutation of scalar observations leaves the same structure |
| InferenceArrayOrder.ItemsHere | backend/app/core/schema_infer.py:109-163 | at their own path, items act as their scalars do, but for an object that comes first on a new path |
| InferenceArrayOrder.ArrayOrderExact | backend/app/core/schema_infer.py:84-163 | for scalars and flat objects, at any place of any run: every order of the items leaves the same structure exactly when they are all scalars, all objects or show two scalar types, or their path was known, as at the root |
| InferenceArrayOrder.MemberOrderExact | backend/app/core/canonical.py:12-25 | so the hash of a document holding such an array ignores the order for exactly these arrays |
| InferenceArrayOrder.RootOrderIrrelevant | backend/app/core/canonical.py:12-25 | and an array that is the document can be permuted freely |
| InferenceDeepOrder.KindredCommute | backend/app/core/schema_infer.py:75-163 | values that mix no kinds at any path they share, at any depth, may be emitted at one path in either order |
| InferenceDeepOrder.KindredArray | backend/app/core/schema_infer.py:84-120 | so items of that sort may be walked in any order, wherever their array sits |
| InferenceDeepOrder.ItemOrderIrrelevant | backend/app/core/canonical.py:12-25 | permuting order-free or kindred arrays anywhere, at any depth of a document, gives the same input to `stable_schema_hash` |
| InferenceItemOrder.HashOrderIndependent | backend/app/core/canonical.py:16-25 | the hash input does not depend on the order of the node list |
| InferenceItemOrder.RequiredIffEverywhere | backend/app/core/schema_infer.py:92-107 | on a path visited once a field of an array of objects is required iff every item has it |
| InferenceItemOrder.HashFixesProjections | backend/app/core/canonical.py:12-25 | equal hash inputs have the same paths and the same projection at each |
| InferenceItemOrder.HashInputMeans | backend/app/core/canonical.py:12-25 | with one node per path, two lists have equal hash inputs exactly when each node of one is in the other, apart from examples |
| InferenceArrayOrder.MixedItemsDependOnOrder | backend/app/core/schema_infer.py:109-163 | an instance: under any key, `[1, {}]` and `[{}, 1]` give different hash inputs |
| JsonValues.SortKeysReorders | backend/app/core/normalizer.py:29-34 | sorting keys gives the same JSON value with only its keys reordered |
| JsonValues.ByKeyPermutes | backend/app/core/normalizer.py:31-31 | the sorted items of a dictionary are a permutation of its items |
| Sorting.SortListEqual | app/core/parser.py:49-49 | sorting forgets the order of a list of strings and nothing else |
| Sorting.LeMeans | app/core/parser.py:45-49 | the order of all sorts: a prefix first, otherwise the smaller code point at the first difference |
| JsonTexts.TreeClosed | backend/app/core/normalizer.py:22-22 | every text the grammar derives is nonempty and closes all its brackets and quotes, never going below its start |
| JsonTexts.NoJsonPrefix | backend/app/core/normalizer.py:20-25 | a bracketed or quoted text has no proper prefix that is a JSON text |
| JsonTexts.PlainTextIsWord | backend/app/core/normalizer.py:22-22 | a text without brackets, quotes and spaces is a JSON text exactly when it is one word or number |
| Normalizer.SerializedIsJson | backend/app/core/normalizer.py:17-17 | what is serialized can be read |
| Normalizer.StringsReadBack | backend/app/core/normalizer.py:17-17 | every string is read back from its ASCII escapes, surrogate pairs included, character for character |
| Normalizer.NoPrefixIsJson | backend/app/core/normalizer.py:18-25 | no proper prefix of a serialized object, array or string is a JSON text |
| Normalizer.ConstantPrefix | backend/app/core/normalizer.py:18-25 | nor of `null`, `true` or `false` |
| Normalizer.NumberPrefix | backend/app/core/normalizer.py:18-25 | a cut number is read exactly when what is left is a number text |
| Normalizer.CutIntegers | backend/app/core/normalizer.py:18-25 | a cut integer is a number text unless nothing or only its sign is left |
| Normalizer.NormalizeExact | backend/app/core/normalizer.py:9-26 | for every body and cap, zero and negative ones included: whole, shortened number, or marker with the full size, and when each |
| Normalizer.ContainersNeverPartial | backend/app/core/normalizer.py:15-26 | objects and arrays come back whole or as exactly the marker |
| NormalizedMeaning.CharacterTexts | backend/app/core/normalizer.py:17-17 | how each character is written: seven short escapes, other printable ASCII as it is, one or two `\uxxxx` in lower case for all else |
| NormalizedMeaning.SerializedDenotes | backend/app/core/normalizer.py:17-17 | every serialized text denotes its value: literals, decimal integers, floats as given, escaped strings, items and members in order |
| NormalizedMeaning.SortedInKeyOrder | backend/app/core/normalizer.py:29-34 | after sorting every object at any depth has its keys in ascending order |
| NormalizedMeaning.NormalizeMeans | backend/app/core/normalizer.py:9-26 | with no limit or limit 0 the cap is 262144; a text that fits comes back whole; otherwise only a number may come back shortened, a negative limit cutting from the end |
| SchemaDiff.DiffLists | backend/app/core/schema_diff.py:93-157 | the three loops over one growing list compute the diff and never raise |
| SchemaDiff.DiffIsPathwise | backend/app/core/schema_diff.py:93-157 | no change type is unknown; the diff holds exactly the differing paths, each with its own diff and severity; what each holds is `DiffContents.DiffsTold` |
| DiffContents.IndexedLast | backend/app/core/schema_diff.py:94-95 | the node of a path is the last one listed with it |
| DiffContents.DiffsTold | backend/app/core/schema_diff.py:66-157 | every diff, from the nodes of its path: old and new type are given iff the path is in the old and new list, examples iff it is in both, the change type by type, nullability and listed values, and gained and lost are exactly the values only the new or only the old enum lists |
| DiffContents.DiffsInOrder | backend/app/core/schema_diff.py:93-157 | lost paths come first, then new ones, then changed ones, each by code point |
| SchemaDiff.OneDiffPerPath | backend/app/core/schema_diff.py:93-157 | at most one diff per path |
| SchemaDiff.EmptyDiffMeans | backend/app/core/schema_diff.py:66-157 | the diff is empty exactly when path sets and all compared fields agree |
| SchemaDiff.SwapDuality | backend/app/core/schema_diff.py:66-157 | swapped arguments give the same paths with dual change types, old and new sides and gained and lost values exchanged; twice is the identity |
| SchemaDiff.SameHashNoDiff | backend/app/core/canonical.py:12-25 | schemas with the same hash input have no diff |
| SchemaDiff.ItemOrderNoDiff | backend/app/core/schema_diff.py:93-157 | permuting such arrays at any depth never raises a diff |
| SchemaDiff.KeyOrderNoDiff | backend/app/core/schema_diff.py:93-157 | nor does reordering object keys |
| ChangeSeverity.SeverityMeaning | backend/app/core/schema_diff.py:66-157 | a path is breaking iff it is lost or its type, or item type, is one an old consumer does not know, unless that is hidden; risky iff fractions, nulls or new listed values may come, unless hidden; safe iff it is new or meets fewer values, unless hidden; and what hides what |
| ChangeSeverity.SeverityHides | backend/app/core/schema_diff.py:66-90 | for any two nodes, exactly when a change that breaks or risks is called safe, when one that breaks is called risky, and when one that risks is not reported |
| ChangeSeverity.HiddenGain | backend/app/core/schema_diff.py:73-74 | an instance on documents, for any key and values: nulls that go hide a value that comes |
| OpenApiDiff.DiffDocumentsFirst | scripts/openapi_diff.py:67-91 | the aggregated lists decide as the first verdict function, exceptions included |
| OpenApiDiff.DiffDocumentsSecond | scripts/contract_review_agent.py:37-84 | the nested loops build both lists, text by text, and decide by the first |
| OpenApiLines.ReportMeans | scripts/contract_review_agent.py:37-84 | a line is in either list exactly when the two documents give rise to it: each wording with its schema, field and types |
| OpenApiDiff.NothingUnreported | scripts/contract_review_agent.py:37-84 | both lists are empty exactly when the documents agree in everything compared |
| OpenApiDiff.SecondMeans | scripts/contract_review_agent.py:37-84 | breaking iff a schema, a field or a type is lost or a field is newly required |
| OpenApiDiff.FirstMeans | scripts/openapi_diff.py:24-91 | raises iff a shared schema is not an object; otherwise breaking iff something is lost or a newly required field does not say `no longer` |
| OpenApiDiff.ReportVisible | scripts/openapi_diff.py:62-64 | the text test on the required list finds exactly those fields |
| OpenApiDiff.VerdictsAgreeIff | scripts/openapi_diff.py:24-91 | the two decisions agree exactly when the change is not made of newly required fields that all say `no longer` |
| OpenApiDiff.PlainDocumentsAgree | scripts/openapi_diff.py:24-91 | so they agree on all documents of object schemas without such field names |
| OpenApiDiff.MaskedExample | scripts/openapi_diff.py:62-64 | one such field and only the second script reports a break |
| OpenApiDiff.NonBreakingComposes | scripts/contract_review_agent.py:37-84 | two non-breaking steps compose exactly when no property loses its type in the middle and returns with another |
| OpenApiDiff.TypedStepsCompose | scripts/contract_review_agent.py:37-84 | with a type on every property in the middle they always compose |
| OutboxTheorems.OutboxSafety | app/workers/outbox_worker.py:22-155 | with crashes anywhere: PENDING has attempts left, POSTs never exceed the maximum, at most one succeeds, DELIVERED has a recorded success, a row is terminal after its last allowed processing, total backoff is bounded, and rows left DELIVERING are at most the crashes plus one |
| OutboxTheorems.NothingUndone | app/workers/outbox_worker.py:94-148 | DELIVERED and FAILED rows never change again, attempts and dead letters are never lost and no count falls |
| OutboxTheorems.DeadLettersAgree | app/workers/outbox_worker.py:113-135 | a row that failed with its attempts used has a dead letter with at least that count; without crashes the gauge is the number of dead letters |
| OutboxTheorems.GaugeExact | app/runtime/webhook.py:53-56 | in every run with crashes and restarts anywhere, with the worker idle: gauge plus letters present at the last restart is letters plus letters lost since, so it is right exactly when the two corrections are equal |
| OutboxTheorems.CrashGaugeExact | app/runtime/webhook.py:53-56 | what any crash in any run leaves: after a restart the gauge is right exactly when there are no letters; the first crash leaves it right exactly when no new letter was pending |
| OutboxTheorems.LettersAtStake | app/workers/outbox_worker.py:113-135 | a new letter is pending exactly between the upsert of an exhausted row without a letter and its commit |
| OutboxTheorems.CrashLeavesGaugeHigh | app/runtime/webhook.py:53-56 | an instance: a crash before the commit leaves a counted dead letter that does not exist |
| OutboxTheorems.FetchTakesOldest | app/workers/outbox_worker.py:25-40 | a poll takes only due pending rows and leaves one out only for a full batch of older ones |
| OutboxOutcomes.EnqueuedIsDue | app/runtime/service.py:65-94 | in any run and at any time, an enqueued row is new, pending and due at once |
| OutboxOutcomes.EnqueuedIsFetched | app/workers/outbox_worker.py:22-40 | so however late, the next poll of an idle worker fetches it or fifty older rows |
| OutboxOutcomes.ProcessedComesTo | app/workers/outbox_worker.py:42-149 | a fetched row left to the worker: dropped without a subscription, delivered on success, else one failure further: exhausted with a dead letter, or pending again after the wait for that failure; one POST and its result logged iff the subscription is active; the gauge up iff the letter is new; no other row changes |
| OutboxOutcomes.BackoffWaits | app/workers/outbox_worker.py:18-19 | the waits are 2, 4, 8, 16, 32 and then always 60 seconds |
| OutboxOutcomes.ReplayLogsOneAttempt | app/runtime/webhook.py:239-306 | replaying a dead letter of an active subscription logs what one delivery of one attempt logs and changes nothing else; without letter or subscription nothing changes |
| OutboxTheorems.BackoffRange | app/workers/outbox_worker.py:18-19 | delays lie between 2 and 60 seconds |
| OutboxTheorems.BackoffGrows | app/workers/outbox_worker.py:18-19 | delays never shrink |
| OutboxTheorems.TotalBackoff | app/workers/outbox_worker.py:18-19 | the scheduled total is at most 2^max - 2, exactly that up to six attempts and less beyond |
| OutboxTheorems.DefaultBackoff | app/runtime/service.py:69-77 | 30 seconds for the default of five attempts |
| OutboxWork.StepKeeps | app/workers/outbox_worker.py:22-155 | enqueues, polls, every statement of the worker, replays and crashes keep the accounts of every row |
| OutboxWork.RunInv | app/workers/outbox_worker.py:22-170 | the accounts hold after any list of moves |
| OutboxDelivery.AttemptsNumbered | app/runtime/webhook.py:80-142 | the log of one delivery numbers its attempts 1 to k, where k is the first success or the limit |
| OutboxDelivery.ItemRuns | app/workers/outbox_worker.py:43-149 | left alone, the step machine processes a row as the straight-through code does |
| OutboxDelivery.BatchProgress | app/workers/outbox_worker.py:42-149 | every fetched row ends one attempt further with its next retry scheduled, or terminal; no other row is touched |
| OutboxDelivery.BatchRuns | app/workers/outbox_worker.py:42-149 | a batch is a crash-free run of the worker's steps |
| OutboxDelivery.Store.Enqueue | app/runtime/service.py:65-124 | one pending row per affected subscription, due at once, five attempts |
| OutboxDelivery.Store.UpsertDlq | app/runtime/webhook.py:15-57 | one letter per event and consumer, its count never lowered, the gauge raised only for a new one |
| OutboxDelivery.Store.DeliverWithRetry | app/runtime/webhook.py:60-144 | result, attempt log, dead letter and gauge of the retry loop, for any limit |
| OutboxDelivery.Store.FetchDue | app/workers/outbox_worker.py:25-40 | the scan is the fetch of the model |
| OutboxDelivery.Store.Settle | app/workers/outbox_worker.py:94-148 | the final update, and the dead letter when the attempts are used up |
| OutboxDelivery.Store.Process | app/workers/outbox_worker.py:43-149 | the loop body is the processing function |
| OutboxDelivery.Store.PollOnce | app/workers/outbox_worker.py:22-155 | a whole poll is the processing of the fetched batch |
| DriftEvents.PublishWithRetry | app/runtime/events.py:21-35 | the loop is the publish function |
| DriftEvents.PublishOutcome | app/runtime/events.py:21-35 | the first call that got through, or an error after exactly `retries` failed calls, or nothing when none is allowed |
| DriftEvents.PublishedOrBuried | app/runtime/events.py:38-59 | a completed task was published within `retries` calls or has a row, exactly when a call was allowed or the row was there |
| DriftEvents.LettersCounted | app/runtime/drift_event_dlq.py:37-221 | in every run, however replays overlap: rows exist for exactly the failed events, counts are the failures, replayed rows were published |
| DriftEvents.GaugeExact | app/runtime/drift_event_dlq.py:154-239 | in every run the gauge differs from the number of pending rows by exactly three counts of stray steps; with no replay between update and second read it is right iff undone rows and extra decrements are as many as missed ones |
| DriftEvents.LettersAgree | app/runtime/drift_event_dlq.py:154-239 | so while replays of a row do not overlap there are none: the gauge is the pending rows and the replays about to count theirs, and nothing is undone |
| DriftEvents.StepOnward | app/runtime/drift_event_dlq.py:201-218 | a step takes a row out of REPLAYED exactly when it is the failing update of a row already replayed, a status the UPDATE does not ask for |
| DriftEvents.ReplayedIsPermanent | app/runtime/drift_event_dlq.py:154-221 | in a run REPLAYED is for ever exactly when no such step occurs |
| DriftEvents.RowsStay | app/runtime/drift_event_dlq.py:37-221 | rows are never lost and no count falls, in any run |
| DriftEvents.OverlapUndoes | app/runtime/drift_event_dlq.py:201-218 | from every state with a replay publishing on a pending row, a second one can take the row back from REPLAYED |
| DriftEvents.OverlapCountsTwice | app/runtime/drift_event_dlq.py:219-221 | or lower the gauge twice after two successes |
| DriftEvents.OverlapCountsFailure | app/runtime/drift_event_dlq.py:219-221 | or after a failure and a success, though neither update found the row replayed |
| DriftEvents.StepKeeps | app/runtime/drift_event_dlq.py:37-239 | every task and every step of any replay keeps the counts, and moves the gauge against the pending rows by one exactly at a stray step |
| DriftEvents.LetterStore.RecordEventFailure | app/runtime/drift_event_dlq.py:37-79 | a first failure opens a pending row, a later one counts up and keeps the status |
| DriftEvents.LetterStore.RunTask | app/runtime/events.py:38-59 | publish with retries, then the dead letter of a failure |
| DriftEvents.LetterStore.BeginReplay | app/runtime/drift_event_dlq.py:161-165 | the first read: an answer at once for a missing or replayed row, or the replay under way |
| DriftEvents.LetterStore.UpdateReplayed | app/runtime/drift_event_dlq.py:184-218 | the update after the publish, whatever the row's status by then |
| DriftEvents.LetterStore.FinishReplay | app/runtime/drift_event_dlq.py:219-239 | the second read, the gauge, and the answer |
| DriftEvents.LetterStore.ReplayEventDlq | app/runtime/drift_event_dlq.py:154-239 | a whole call with nothing in between never goes astray, even beside other open replays of its row, and answers what the row then says |
| Gateway.GoIffValid | gateway/src/server.ts:80-120 | a request is forwarded exactly when it has a signature that matches, a new key and an object payload |
| Gateway.RefusalMeans | gateway/src/server.ts:80-118 | MissingSignature iff no signature header yields a value; MissingKey iff one does but no key header; Duplicate iff the key is stored; InvalidSignature iff it is new and the signature does not match; BadPayload iff all that passes and the body is no object |
| Gateway.StoredKeysAreEarned | gateway/src/server.ts:99-126 | in every interleaving a key is stored exactly when a signed object payload with it was forwarded successfully |
| Gateway.RecordedIsFinal | gateway/src/idempotency.ts:4-10 | once a key is stored it stays, and no request checked later is forwarded with it |
| Gateway.SuccessesExact | gateway/src/server.ts:99-126 | in every run a key was forwarded successfully once if it is stored, and once more for each success that found it stored; so at most once iff there was none |
| Gateway.SuccessesBounded | gateway/src/server.ts:99-126 | in every run successes of a key and forwards of it under way are at most one more than the requests forwarded while another with the key was |
| Gateway.ForwardedAtMostOnce | gateway/src/server.ts:99-126 | so if no request is forwarded while another with the key is, the key is forwarded successfully at most once |
| Gateway.OverlapForwardsTwice | gateway/src/server.ts:99-126 | from every state with a forward of a new key under way, a second valid request can be forwarded successfully as well |
| Gateway.FailureIsRetryable | gateway/src/server.ts:127-138 | a failed forward stores nothing and the same key is forwarded again |
| Gateway.InMemoryStore.Receive | gateway/src/server.ts:80-122 | the handler up to its await: each reply given exactly when its own condition on headers, stored keys, signature and body holds, or the forward under way |
| Gateway.InMemoryStore.Finish | gateway/src/server.ts:120-138 | the handler after its await: the key stored and 202, or nothing stored and 502 |

## Left out

- Registry endpoints are identified by their namespace, service, method and route; the generated endpoint id and display name are not carried, and rows are never deleted.
- Row ids are consecutive numbers, used up by aborted inserts too; their being unguessable is not modelled.
- SHA-1 and SHA-256 are uninterpreted functions: schemas with one fingerprint share a version, and lock ids may collide. So is Python's `str` of an object or array in the place of a type name.
- JSONB may return object keys in another order; the stored schema is read back as written, since flattening gives a map.
- Python's `True == 1 == 1.0` is not modelled: JSON values are equal only with equal kinds.
- The legacy fingerprint tables written after the registry commit, document snapshots, metrics and latency histograms are left out; only the two dead-letter gauges are kept.
- RegistryDatabase.Database.TrackContract: stops before the commit and before the outbox rows and the event of the new version are written; selecting the affected subscriptions is not modelled.
- InferenceKeyOrder.KeyOrderIrrelevant: stated for keys that are not empty and hold no `.` or `[`; with others two members can share a path.
- FlattenLossless.DiffEmptyIffSameTrace: stated for keys that are not empty, hold no `.` or `[` and are not `type`, since paths are joined strings and `type` marks a leaf.
- StructuralUniqueness.UniqueReadability: the digest of the string is not modelled; lone surrogates in keys cannot be written as Dafny characters.
- InferenceArrayOrder.ArrayOrderExact: exact for items that are scalars or objects of scalars; for deeper items `InferenceDeepOrder.KindredArray` is sufficient only, and arrays of objects in the items of an array only if they are equal.
- HandWrittenSchemas.SafeChainVerdict: an enum that lists an object or an array, which is not hashable in Python, is compared like any other.
- Normalizer.NormalizeExact: recursion limits, the digit limit of Python integers and lone surrogates are not modelled; floats carry their `repr` text, and a shortened number is given by its text.
- SchemaDiff.DiffLists: the wording of messages is left out; the sorted enum values they list are kept.
- OpenApiDiff.DiffDocumentsSecond: extracting the schemas from a document, and `properties` or `required` of another JSON type than object and list, are not modelled.
- Outbox worker: one worker, no inline delivery. The row locks of the poll end at its first commit, so exclusivity between workers is not claimed. Database errors other than a lost transaction are not modelled, nor is the deletion of a subscription with its rows.
- Outbox payloads carry their event id, as the enqueue writes it; the generated id for a payload without one is left out.
- OutboxDelivery.Store.Enqueue: the affected subscriptions are given, and the enqueued rows carry no payload; inline delivery is left out.
- OutboxDelivery.Store.DeliverWithRetry: the retry loop runs without crashes; the crash model covers the worker's use of it with one attempt.
- DriftEvents.LetterStore.UpdateReplayed: an update that fails after its publish got through counts as a failed replay; building the event from a stored payload, the replay artifact, and a failed commit of a new row are left out.
- HMAC, header parsing by the web framework, HTTP clients, the clock, the message bus and the runtime behind the gateway are oracles giving success, failure or time.
- Contract review by language models, the monitor, the fetcher, changelogs, the document store, routers, the user interface and the benchmark and simulator scripts are not part of this model.
