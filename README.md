# CrateDB shard update requests, join tasks and `regexp_matches`, modelled in Dafny

This project models five pieces of CrateDB:

- **The batched shard write request.** This is `ShardRequest` with its abstract `Item`, and `ShardUpdateRequest` with its `Item` and `Builder`.
  - The model covers building a request, adding and iterating items, and item and request equality.
  - It also covers the hand-written wire codec, both the `writeTo` methods and the `StreamInput` constructors.
- **The task of a join phase** (`JoinTask`). It takes its identity from the phase, hands out its left or right page receiver, and reports completion through a single-assignment result cell that `kill` fails.
- **`RegexMatcher`.** It covers:
  - the flag-string parser and the global flag;
  - the detector for PCRE-only pattern features;
  - how successive `find()` results are shaped into "every match" or "first match only";
  - `replace`.
- **The `regexp_matches` table function** (`MatchesFunction`). It covers null propagation, the choice between the matcher built at compile time and one built per evaluation, and the iterator that hands out one row per match.

## How the model is built

**Streams.** A stream is a sequence of typed tokens (`streams.dfy`): long, int, boolean, vInt, string, bytes, symbol, session settings and the replication header.
- A reader that meets a token of another kind fails with `UnexpectedToken` at that position. This is how a disagreement between a writer and a reader shows up.
- The Java writers and stream constructors are methods on the `StreamOutput` and `StreamInput` classes. Each is proved to append, or to consume, exactly what a pure encoder or decoder function says.
- The round-trip lemmas are stated about those functions.

**Item codecs.** Every item codec is modelled twice, selected by `ItemWire`:
- `AsWritten` is the code as it stands.
- `Aligned` is a reader and writer that agree with each other (see Findings).

**Mutable state.** Objects whose fields the Java code updates are Dafny classes: `Item`, `ShardUpdateRequest`, the result future, `RegexMatcher` with its cached matcher, and the row iterator with its reused row and column array. Everything else is a datatype.

**Opaque values.** These are one token each, because their serializers are not part of this model:
- the `ReplicationRequest` fields (shard id, index, timeout);
- `Symbol`s;
- `SessionSettings`;
- `BytesReference`. Its token always carries bytes: `writeBytesReference` writes `null` as an empty reference, and `readBytesReference` never returns `null`.

**`java.util.regex`.** It is an oracle. A compiled `Pattern` is known only by:
- the list of successive matches `find()` reports for a term, each with its whole match and groups;
- its `replaceAll` and `replaceFirst` results.

`Pattern.compile` is a `Compiler` parameter, which may reject a regex.

**Flag masks.** The `int` mask that `parseFlags` builds is a set of `PatternFlag`s. Each `Pattern` constant it uses is a distinct single bit (`OneFlagPerLetter`), so `flags | C` is set union.

**Java `assert`s** are preconditions:
- `getBucketReceiver` requires an input id below 2.
- The request constructor requires non-null update columns.
- `compile` requires more than one argument and a literal third argument.
- `evaluate` requires two or three arguments.

## Model

| member | source | states |
|---|---|---|
| ShardItems.Item.constructor | sql/src/main/java/io/crate/execution/dml/upsert/ShardUpdateRequest.java:168-187 | the base defaults hold: version `MATCH_ANY`, seqNo `UNASSIGNED_SEQ_NO`, primaryTerm `UNASSIGNED_PRIMARY_TERM`, location -1, no source; each of version, seqNo and primaryTerm is overridden exactly when its argument is non-null; `retryOnConflict()` holds iff neither a version other than `MATCH_ANY` nor a seqNo other than `UNASSIGNED_SEQ_NO` was given |
| ShardItems.Item.SetVersion | sql/src/main/java/io/crate/execution/dml/ShardRequest.java:195-197 | the item's value changes in its version and in nothing else |
| ShardItems.Item.SetLocation | sql/src/main/java/io/crate/execution/dml/ShardRequest.java:199-201 | the item's value changes in its location and in nothing else |
| ShardItems.Item.SetSeqNo | sql/src/main/java/io/crate/execution/dml/ShardRequest.java:211-213 | the item's value changes in its seqNo and in nothing else |
| ShardItems.Item.SetPrimaryTerm | sql/src/main/java/io/crate/execution/dml/ShardRequest.java:219-221 | the item's value changes in its primaryTerm and in nothing else |
| ShardItems.Item.SetSource | sql/src/main/java/io/crate/execution/dml/ShardRequest.java:223-225 | the item's value changes in its source and in nothing else |
| ShardItems.Item.WriteTo | sql/src/main/java/io/crate/execution/dml/upsert/ShardUpdateRequest.java:226-251 | appends exactly the item encoding: the six base fields (ShardRequest.java:236-243), the update assignments behind a presence flag, the source behind a presence flag, and always a return-values count with its symbols |
| ShardItems.Item.Decoded | sql/src/main/java/io/crate/execution/dml/upsert/ShardUpdateRequest.java:203-224 | the item the stream constructor builds holds exactly the fields read |
| ShardItems.ReadItemFields | sql/src/main/java/io/crate/execution/dml/ShardRequest.java:171-177 | reads id, version, location, seqNo, primaryTerm and source in that order, failing as the decoder says when a token is missing or of another kind |
| ShardItems.ReadAssignments | sql/src/main/java/io/crate/execution/dml/upsert/ShardUpdateRequest.java:205-211 | reads the update assignments behind their presence flag; a negative count fails |
| ShardItems.ReadSource | sql/src/main/java/io/crate/execution/dml/upsert/ShardUpdateRequest.java:212-214 | reads the source when its flag is set and otherwise keeps the one the base constructor read |
| ShardItems.ReadItem | sql/src/main/java/io/crate/execution/dml/ShardRequest.java:171-185 | the stream constructor as written: its result is exactly the decoder's, with a fresh item and a fresh return-values array, and it fails exactly when the decoder fails |
| ShardItems.FieldsRoundTrip | sql/src/main/java/io/crate/execution/dml/ShardRequest.java:171-177 | the six base fields written by `Item.writeTo` read back unchanged and consume six tokens, except that a `null` source comes back as an empty reference |
| ShardItems.AssignmentsRoundTrip | sql/src/main/java/io/crate/execution/dml/upsert/ShardUpdateRequest.java:205-211 | update assignments read back exactly, `null` as `null` and an empty array as an empty array |
| ShardItems.SourceRoundTrip | sql/src/main/java/io/crate/execution/dml/upsert/ShardUpdateRequest.java:212-214 | a source behind a set presence flag reads back exactly; a cleared flag leaves the source the base constructor read in place |
| ShardItems.ItemRoundTripFailsAsWritten | sql/src/main/java/io/crate/execution/dml/ShardRequest.java:178-184 | as written, in the token model, decoding any encoded item fails at its seventh token, where the reader wants the return-values count and finds the update-assignments flag |
| ShardItems.ItemLayout | sql/src/main/java/io/crate/execution/dml/upsert/ShardUpdateRequest.java:226-251 | where each part of an aligned item encoding sits, and its length |
| ShardItems.DecodeItemAligned | sql/src/main/java/io/crate/execution/dml/upsert/ShardUpdateRequest.java:203-224 | what the aligned decoder returns given what each of its parts reads |
| ShardItems.ItemRoundTrip | sql/src/main/java/io/crate/execution/dml/upsert/ShardUpdateRequest.java:203-251 | with reader and writer aligned, every item field survives; a `null` source comes back as an empty reference, which `equals` tells apart from `null`; return values survive only for readers on or after 4.2.0, with empty as `null` |
| ShardItems.ItemEqualsIsArrayIdentity | sql/src/main/java/io/crate/execution/dml/ShardRequest.java:245-257 | two items with equal content are `equals` exactly when they share the same return-values array, or both have none |
| CountedArrays.SymbolsRoundTrip | sql/src/main/java/io/crate/execution/dml/upsert/ShardUpdateRequest.java:98-104 | n symbols written one after the other read back as the same n symbols |
| CountedArrays.StringsRoundTrip | sql/src/main/java/io/crate/execution/dml/upsert/ShardUpdateRequest.java:86-92 | n strings written one after the other read back as the same n strings |
| CountedArrays.SymbolArrayRoundTrip | sql/src/main/java/io/crate/execution/dml/upsert/ShardUpdateRequest.java:127-134 | a nullable symbol array reads back as written, except that an empty array comes back `null`; `null` and empty are written identically |
| CountedArrays.StringArrayRoundTrip | sql/src/main/java/io/crate/execution/dml/upsert/ShardUpdateRequest.java:110-117 | the same for the update column names |
| CountedArrays.WriteSymbolArray | sql/src/main/java/io/crate/execution/dml/upsert/ShardUpdateRequest.java:127-134 | appends exactly the count-prefixed encoding, count 0 for `null` |
| CountedArrays.WriteStringArray | sql/src/main/java/io/crate/execution/dml/upsert/ShardUpdateRequest.java:110-117 | appends exactly the count-prefixed encoding, count 0 for `null` |
| CountedArrays.ReadSymbolArray | sql/src/main/java/io/crate/execution/dml/upsert/ShardUpdateRequest.java:98-104 | the loop fills a fresh array with exactly the decoded symbols in stream order; a count that is not positive leaves it `null` |
| CountedArrays.ReadStringArray | sql/src/main/java/io/crate/execution/dml/upsert/ShardUpdateRequest.java:86-92 | the same for the update column names |
| ShardRequests.ShardUpdateRequest.constructor | sql/src/main/java/io/crate/execution/dml/upsert/ShardUpdateRequest.java:58-69 | the new request holds the shard, the index name, the job id and the base `continueOnError`, with no items (ShardRequest.java:60-66); it holds the given settings, update columns and return values; the subclass's own `continueOnError` stays false; the item list starts with no modifications |
| ShardRequests.ShardUpdateRequest.Add | sql/src/main/java/io/crate/execution/dml/ShardRequest.java:68-71 | the item list grows by exactly the given item at its end; the item's location becomes `location` and nothing else about it changes, its return-values array included, so its `equals` facts survive; earlier items keep their values; the list's modification count goes up by one |
| ShardRequests.ShardUpdateRequest.Iterator | sql/src/main/java/io/crate/execution/dml/ShardRequest.java:86-89 | a fresh iterator over the request's live item list, at the first item, remembering the list's modification count |
| ShardRequests.ItemIterator.Next | sql/src/main/java/io/crate/execution/dml/ShardRequest.java:86-89 | fail-fast: once the list has been added to since the iterator was made, `ConcurrentModification` without moving; otherwise the items in insertion order, then `NoSuchElement` without moving |
| ShardRequests.ItemIterator.Remove | sql/src/main/java/io/crate/execution/dml/ShardRequest.java:88 | removal is always refused (`UnsupportedOperation`) |
| ShardRequests.ShardUpdateRequest.SetTimeout | sql/src/main/java/io/crate/execution/dml/upsert/ShardUpdateRequest.java:287 | only the timeout of the replication header changes; the item list is untouched |
| ShardRequests.ShardUpdateRequest.WriteTo | sql/src/main/java/io/crate/execution/dml/upsert/ShardUpdateRequest.java:107-135 | appends exactly the request encoding: the base header (ShardRequest.java:108-114), the update columns, the subclass flag, the settings, the item count, each item and the return values |
| ShardRequests.ShardUpdateRequest.Decoded | sql/src/main/java/io/crate/execution/dml/upsert/ShardUpdateRequest.java:84-105 | the request the stream constructor builds has exactly the value assembled from the fields it read |
| ShardRequests.WriteHeader | sql/src/main/java/io/crate/execution/dml/ShardRequest.java:108-114 | appends the replication header, the most and then the least significant half of the job id, and the base flag |
| ShardRequests.WriteCounts | sql/src/main/java/io/crate/execution/dml/upsert/ShardUpdateRequest.java:119-123 | appends the subclass flag, the settings and the item count |
| ShardRequests.WriteItems | sql/src/main/java/io/crate/execution/dml/upsert/ShardUpdateRequest.java:124-126 | appends the encodings of all items, in list order |
| ShardRequests.ReadHeader | sql/src/main/java/io/crate/execution/dml/ShardRequest.java:95-99 | reads the header fields in the order written, or fails as the decoder does |
| ShardRequests.ReadPrefix | sql/src/main/java/io/crate/execution/dml/upsert/ShardUpdateRequest.java:84-95 | reads everything before the items exactly as the decoder does |
| ShardRequests.ReadNextItem | sql/src/main/java/io/crate/execution/dml/ShardRequest.java:103-105 | one round of the `readItems` loop extends the decoded prefix by one fresh item, or yields the failure of the whole list |
| ShardRequests.ReadItems | sql/src/main/java/io/crate/execution/dml/ShardRequest.java:101-106 | on success, exactly `size` fresh items, in stream order, equal to the decoded list; or it fails as the decoder does |
| Streams.DecodeManyLength | sql/src/main/java/io/crate/execution/dml/ShardRequest.java:101-106 | reading `n` values one after the other, when it succeeds, yields exactly `n` values |
| ShardRequests.ReadRequest | sql/src/main/java/io/crate/execution/dml/upsert/ShardUpdateRequest.java:84-105 | the stream constructor as written builds exactly the decoded request, or fails exactly when the decoder fails |
| ShardRequests.HeaderRoundTrip | sql/src/main/java/io/crate/execution/dml/ShardRequest.java:95-114 | the header, the job id and the base `continueOnError` read back unchanged and consume four tokens |
| ShardRequests.MiddleRoundTrip | sql/src/main/java/io/crate/execution/dml/upsert/ShardUpdateRequest.java:93-96 | the subclass flag, the settings and the item count read back in the order written |
| ShardRequests.PrefixRoundTrip | sql/src/main/java/io/crate/execution/dml/upsert/ShardUpdateRequest.java:84-95 | all fields before the items read back, empty update columns as `null` |
| ShardRequests.PrefixReadsBack | sql/src/main/java/io/crate/execution/dml/upsert/ShardUpdateRequest.java:84-96 | in an encoded request, the prefix and the item count read back |
| ShardRequests.RequestRoundTripWith | sql/src/main/java/io/crate/execution/dml/upsert/ShardUpdateRequest.java:84-135 | for any item codec whose reader gets its items back, the whole request reads back: header, job id, both flags, settings, items in order; empty update columns and return values come back `null` |
| ShardRequests.RequestItemsFailWith | sql/src/main/java/io/crate/execution/dml/upsert/ShardUpdateRequest.java:96-97 | for an item codec that fails on its items, the request fails at the same offset into them |
| ShardRequests.DeliveredItems | sql/src/main/java/io/crate/execution/dml/upsert/ShardUpdateRequest.java:215-223 | item by item, what a reader of a given version gets back |
| ShardRequests.ItemsRoundTrip | sql/src/main/java/io/crate/execution/dml/ShardRequest.java:101-106 | with aligned item codecs, reading n items gives back the n items written, in order, each as `Delivered` |
| ShardRequests.ItemsDelivered | sql/src/main/java/io/crate/execution/dml/ShardRequest.java:101-106 | the aligned codec, or an empty item list on any codec, reads its items back wherever they were written |
| ShardRequests.ItemsFailAsWritten | sql/src/main/java/io/crate/execution/dml/ShardRequest.java:178-184 | as written, in the token model, reading a non-empty item list fails at the seventh token of the first item |
| ShardRequests.RequestRoundTrip | sql/src/main/java/io/crate/execution/dml/upsert/ShardUpdateRequest.java:84-135 | a request with aligned item codecs, or with no items, reads back as `DeliveredRequest` |
| ShardRequests.RequestWithItemsFailsAsWritten | sql/src/main/java/io/crate/execution/dml/ShardRequest.java:178-184 | as written, in the token model, no request that carries an item can be decoded; decoding fails at the seventh token of its first item |
| ShardRequests.ValuesOf | sql/src/main/java/io/crate/execution/dml/ShardRequest.java:73-75 | the values of the items, one per item, in order |
| ShardRequests.RequestEqualsIsEquivalence | sql/src/main/java/io/crate/execution/dml/upsert/ShardUpdateRequest.java:142-150 | `equals` compares both flags, the job id, the items and the return values (ShardRequest.java:116-129) plus the update columns; it is reflexive, symmetric and transitive |
| ShardRequests.Builder.NewRequest | sql/src/main/java/io/crate/execution/dml/upsert/ShardUpdateRequest.java:279-288 | a fresh request with no items, carrying the builder's settings, update columns, return values, job id, base `continueOnError` and timeout; the subclass flag stays false |
| ShardRequests.BuiltRequestRoundTrip | sql/src/main/java/io/crate/execution/dml/upsert/ShardUpdateRequest.java:45 | a request fresh from the builder decodes; the base flag carries the builder's `continueOnError` while the subclass flag, the one written and compared, reads back false |
| JoinTasks.SettledStaysSettled | sql/src/main/java/io/crate/execution/jobs/JoinTask.java:89-92 | a completed result cell ignores every later completion attempt |
| JoinTasks.FirstCompletionWins | sql/src/main/java/io/crate/execution/jobs/JoinTask.java:89-92 | of several attempts on a pending cell, the first decides the outcome |
| JoinTasks.CompletionOf | sql/src/main/java/io/crate/execution/jobs/JoinTask.java:84-87 | the derived stage is pending, done or failed exactly when the result is; it succeeds with `CompletionState(0)` and fails with the same cause |
| JoinTasks.CompletionAttempts | sql/src/main/java/io/crate/execution/jobs/JoinTask.java:86 | each attempt on the result becomes the corresponding attempt on the derived stage |
| JoinTasks.CompletionFollowsResult | sql/src/main/java/io/crate/execution/jobs/JoinTask.java:84-87 | through any sequence of completion attempts, the derived stage stays the image of the result |
| JoinTasks.ResultFuture.Complete | sql/src/main/java/io/crate/execution/jobs/JoinTask.java:40 | completes a pending cell with the value and reports whether it did; a completed cell is left alone |
| JoinTasks.ResultFuture.CompleteExceptionally | sql/src/main/java/io/crate/execution/jobs/JoinTask.java:91 | fails a pending cell with the cause and reports whether it did; a completed cell is left alone |
| JoinTasks.JoinTask.constructor | sql/src/main/java/io/crate/execution/jobs/JoinTask.java:42-50 | `id()` and `name()` are the phase's; both receivers may be absent; the task shares the result cell it was given |
| JoinTasks.JoinTask.Start | sql/src/main/java/io/crate/execution/jobs/JoinTask.java:52-54 | changes nothing |
| JoinTasks.JoinTask.GetBucketReceiver | sql/src/main/java/io/crate/execution/jobs/JoinTask.java:66-73 | input 0 gets the left receiver; 1 and every negative byte get the right; 2 and above violate the precondition |
| JoinTasks.JoinTask.Kill | sql/src/main/java/io/crate/execution/jobs/JoinTask.java:89-92 | a pending result cell fails with the cause, and the completion future then fails with it too; a completed cell is unchanged |
| RegexMatching.ParseFlags | server/src/main/java/io/crate/expression/scalar/regex/RegexMatcher.java:104-142 | the loop ORs in each letter's flag and stops at the first unknown letter; `null` gives no flags |
| RegexMatching.FlagMaskFails | server/src/main/java/io/crate/expression/scalar/regex/RegexMatcher.java:132-137 | parsing fails exactly when some letter is not one of `iuUsmxd`, space or `g`, and it reports the first such letter |
| RegexMatching.OneFlagPerLetter | server/src/main/java/io/crate/expression/scalar/regex/RegexMatcher.java:111-131 | each of `iuUsmxd` sets exactly its own flag; distinct flags have distinct letters and distinct single-bit values |
| RegexMatching.FlagMaskHasFlag | server/src/main/java/io/crate/expression/scalar/regex/RegexMatcher.java:109-139 | a parsed mask holds a flag exactly when the string contains that flag's letter, so space and `g` add nothing |
| RegexMatching.FlagsIgnoreOrderAndRepetition | server/src/main/java/io/crate/expression/scalar/regex/RegexMatcher.java:109-141 | two flag strings with the same letters, in any order and repeated any number of times, parse alike |
| RegexMatching.IndexOf | server/src/main/java/io/crate/expression/scalar/regex/RegexMatcher.java:148 | `indexOf`: -1 exactly when the character is absent, otherwise its first position |
| RegexMatching.IsGlobal | server/src/main/java/io/crate/expression/scalar/regex/RegexMatcher.java:144-149 | holds exactly when a flag string is given and contains `g` |
| RegexMatching.PcreScanMeaning | server/src/main/java/io/crate/expression/scalar/regex/RegexMatcher.java:158 | the scan for a backslash escape finds one exactly when some backslash is followed by one of `dDsSwWbBAGZz` |
| RegexMatching.IsPcrePattern | server/src/main/java/io/crate/expression/scalar/regex/RegexMatcher.java:152-176 | holds exactly when the pattern has no line terminator, and either a backslash followed by one of `dDsSwWbBAGZz` or a start of `(?X)` with X in `idmsuxU` |
| RegexMatching.GroupsOf | server/src/main/java/io/crate/expression/scalar/regex/RegexMatcher.java:68-85 | a match without groups gives its whole match; otherwise it gives groups 1..n in order |
| RegexMatching.RowsOf | server/src/main/java/io/crate/expression/scalar/regex/RegexMatcher.java:52-55 | one row per match, in order |
| RegexMatching.RowsOfSnoc | server/src/main/java/io/crate/expression/scalar/regex/RegexMatcher.java:52-55 | one more match adds its row at the end |
| RegexMatching.GlobalExtendsFirst | server/src/test/java/io/crate/expression/tablefunctions/MatchesFunctionTest.java:64-88 | with and without `g`, a term matches alike; without `g` the result is the first row of the global result |
| RegexMatching.RegexMatcher.constructor | server/src/main/java/io/crate/expression/scalar/regex/RegexMatcher.java:39-42 | holds the pattern and the global flag, with no matcher yet |
| RegexMatching.RegexMatcher.InitMatcher | server/src/main/java/io/crate/expression/scalar/regex/RegexMatcher.java:96-102 | a new or reset matcher on the term, with nothing found yet |
| RegexMatching.RegexMatcher.Groups | server/src/main/java/io/crate/expression/scalar/regex/RegexMatcher.java:68-85 | the row of the next match, advancing the matcher, or `null` with the matcher unchanged once none is left |
| RegexMatching.RegexMatcher.Match | server/src/main/java/io/crate/expression/scalar/regex/RegexMatcher.java:48-66 | with `g`, every match's row in order; without it, the first match's row; `null` when nothing matches; the result depends on the term alone, not on earlier calls |
| RegexMatching.RegexMatcher.Replace | server/src/main/java/io/crate/expression/scalar/regex/RegexMatcher.java:87-94 | `replaceAll` with the global flag and `replaceFirst` without it, on a freshly reset matcher |
| RegexMatching.NewRegexMatcher | server/src/main/java/io/crate/expression/scalar/regex/RegexMatcher.java:39-42 | fails on an unknown flag letter, then on a regex the compiler rejects; otherwise builds a fresh matcher with the compiled pattern and `isGlobal(flags)` |
| MatchesFunctions.PrecompiledAgreesWithOnTheFly | server/src/main/java/io/crate/expression/tablefunctions/MatchesFunction.java:146-157 | when the arguments are the literals `compile` saw, the precompiled matcher gives the rows a matcher built during evaluation gives |
| MatchesFunctions.MatchesFunction.constructor | server/src/main/java/io/crate/expression/tablefunctions/MatchesFunction.java:81-85 | holds the given matcher, if any |
| MatchesFunctions.MatchesFunction.Compile | server/src/main/java/io/crate/expression/tablefunctions/MatchesFunction.java:112-135 | a literal non-null pattern gives a fresh function holding a fresh matcher for that pattern and the literal flags, or the matcher's error; a null literal or a non-literal pattern gives this same function |
| MatchesFunctions.MatchesFunction.Evaluate | server/src/main/java/io/crate/expression/tablefunctions/MatchesFunction.java:137-178 | null when the value or the pattern is null, or when nothing matches; otherwise a fresh iterable over the match rows of the precompiled matcher, or of one built from the pattern and the flags argument |
| MatchesFunctions.RowIterable.Iterator | server/src/main/java/io/crate/expression/tablefunctions/MatchesFunction.java:158-162 | every iterator starts over at the first row |
| MatchesFunctions.RowIterator.constructor | server/src/main/java/io/crate/expression/tablefunctions/MatchesFunction.java:160-162 | a one-column row over a fresh column array, at index 0 |
| MatchesFunctions.RowIterator.Next | server/src/main/java/io/crate/expression/tablefunctions/MatchesFunction.java:169-176 | hands out the same row object each time, with its single column overwritten by the next group list; after the last, `NoSuchElement` with nothing changed |

## Left out

- `hashCode`, `toString`, the function's registration, signatures and return type, the accessors that only return a field, and the package-private no-argument constructor are not modelled.
- What the opaque serializers write is not modelled. The `ReplicationRequest` fields, `Symbols.toStream`, `SessionSettings` and `BytesReference` are one token each.
- The code of `writeBytesReference` and `readBytesReference` is not part of this model. The model takes the behaviour of Elasticsearch's `StreamOutput` and `StreamInput`: `null` is written as length 0 and read back as an empty reference. This is why `FieldsRoundTrip` and `ItemRoundTrip` return a `null` source as empty.
- Stream bytes and variable-length integer encoding are not modelled. The stream is a sequence of typed tokens.
- A token of the wrong kind is a decode failure only in the token model. On the real byte stream the reader would misread the bytes instead, for example a boolean byte as a vInt count, and fail later or not at all. So the as-written lemmas say where reader and writer first disagree, not which exception the program throws.
- The regular-expression semantics of `java.util.regex` are not modelled. `Pattern.compile`, `find`, `group`, `replaceAll` and `replaceFirst` are an oracle, given as parameters.
- `PatternSyntaxException` is a `PatternSyntax` error carrying the regex, without the message Java builds.
- The `IllegalStateException` catch in `groups()` is not modelled. An oracle match always has a whole match, so that branch cannot be taken.
- `RegexMatching.ParseFlags` returns a set of flags rather than an `int`. The numeric value of each flag is given by `FlagValue`, and `OneFlagPerLetter` shows that the values are distinct single bits.
- `CompletableFuture` threading is not modelled: no race between `kill` and normal completion, no listeners, and no wrapping of a failure in `CompletionException` by `thenApply`.
  - The result cell is sequential and single-assignment.
  - The join algorithm behind `completionListenable` and the page protocol of `PageBucketReceiver` are not part of this model.
- Java `assert`s are preconditions. With assertions disabled, a Java caller could pass an input id of 2 or more, or too few arguments. The model does not cover that case.
- Per-item write execution is not part of this model: continue-on-error, retries and return-value projection.
- The value of the ES constants `MATCH_ANY` (-3), `UNASSIGNED_SEQ_NO` (-2) and `UNASSIGNED_PRIMARY_TERM` (0) comes from Elasticsearch. Their defining files are not part of this model.

## Findings

| source | as written | input that shows it | evidently intended | confidence | as-written member | corrected member |
|---|---|---|---|---|---|---|
| sql/src/main/java/io/crate/execution/dml/ShardRequest.java:178-184 | The base item stream constructor reads a return-values count after `source`. The base `writeTo` (lines 236-243) never writes it: `ShardUpdateRequest.Item.writeTo` writes the update-assignments presence flag there. In addition, the subclass writes the return-values count for every peer (ShardUpdateRequest.java:243-250) but reads it only from peers on or after 4.2.0 (ShardUpdateRequest.java:215-223). | A request with one item that has update assignments, e.g. id `"1"` with one assignment, on any stream version. The writer puts the presence byte 1 where line 178 reads the return-values count, so the reader takes a count of 1 and reads the assignment count and what follows as a symbol. Or any request with an item read on or after 4.2.0: the item reads one count more than was written (ShardUpdateRequest.java:216), that count is the request's return-values count, and the final `readVInt` (ShardUpdateRequest.java:98) runs past the end. In the token model both show as a decode failure at the item's seventh token. | The item's return values are written once, after the source, only to peers on or after 4.2.0, and read back at that same place. Every field of a request with items then round-trips. | high (not executed) | ShardItems.ItemRoundTripFailsAsWritten, ShardRequests.RequestWithItemsFailsAsWritten | ShardItems.ItemRoundTrip, ShardRequests.RequestRoundTrip |
