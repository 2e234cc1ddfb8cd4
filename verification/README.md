# A verified model of fckdb

fckdb is a search engine whose only truth is an object store: one mutable manifest per namespace, advanced by
conditional PUT (`If-Match`, section 13.1.1 of RFC 9110; create-only, section 13.1.2), and immutable objects
that the manifest names. This project models its hard core and proves, for all inputs, all runs or all
reachable states, what the design promises — or, where a promise fails, exactly when it holds.

`dafny verify dfyconfig.toml` checks everything.

## What is modelled

**The protocol** (`Protocol`, `Safety`, `Runs`, `Collection`, `Overlap`, `Typing`, `Reads`, `Truncation`,
`Durability`). A state is the clock, the objects, the manifest and its version token, a remembered manifest
per handle, one phase per actor, and history that no actor reads (every object ever PUT, every manifest ever
published, the committed batches in order, the committed compactions). An event is one request to the store or
one local decision of one writer, reader, compactor or collector; a run is any list of events, in any
interleaving, with crashes and lost replies. A conditional PUT and its reply are two events, between which
others may do anything, so a reply can be late as well as lost. An event that is not possible changes nothing.
What is assumed of the store: a conditional PUT is atomic, object names and version tokens are never used
twice.

The central invariant is that the manifest, materialized (segments, then WAL), is the replay of every batch
ever committed, in commit order. It holds over *guarded* runs: a compaction that commits after another
compaction overtook it must have started from a shard list that is `[]` or names a segment (`Anchored`).
`Overlap.StaleCheckIsExact` shows that this hypothesis is exact and cannot be dropped. `Durability` says what
that means to a caller: an acknowledged document is read back, with its own vector and attributes, until
another record is about it, provided its records fit their encoding (`Framing.ObjectIsExact`).

**The code that drives it** (`Namespaces`, `Maintenance`, `Indexing`, `GroupCommit`, `Settings`).
`commit_records`, `compact`, `gc` and the committer loop are imperative methods of, or over, a `Namespace`
object that makes requests to a shared `Bucket` object, between which others may do anything. Each is proved
to be a run of the protocol, whatever the others do, so each inherits the theorems about runs. Any request may
fail, before it takes effect or after, and the call then ends with an error as in the source; the retry loops
and the 100-attempt bound are those of the source too.

**The query engine** (`Filters`, `AttrIndex`, `AttrLimits`, `Planner`, `Segments`, `Sorting`, `Ranking`,
`Tails`, `Layout`, `Search`, `Pages`, `Ivf`, `Fanout`, `Conditions`, `Metrics`, `Lloyd`). Each index path is
proved against a plain scan of the live set: `evaluate` against `matches`, postings plus tail against direct
scores, the prefiltered and the probed path against the whole segment, the shard fan-out and merge against one
ranking of everything. `Layout` proves for every reachable state that the shards hold what the fan-out
assumes, and `Fanout` puts the paths together: a ranked query over any reachable state, whatever index each
shard has, answers from the replay of the log, fails exactly when its vector has the wrong dimension or a
shard lacks what it needs, and is exact whenever no shard's path can miss anything. What an answer is, is told
without the code's own comparisons: `Ranking.BestIsThePage` by scores and ids, `Conditions` by what each
comparison asks of a value, `Metrics` and `Lloyd` by what scores and clusters are for.

**Text, sparse and aggregate engines** (`Fts`, `Relevance`, `Levenshtein`, `Sparse`, `Sums`, `Groups`,
`Aggregates`, `Figures`, `Totals`). Posting-list scoring against direct scoring, phrase search against a
window scan, the two-row edit distance against the least number of edits, streamed aggregation against the
aggregate of the whole set. `Relevance` and `Figures` tell the scores and the aggregates by counting
documents.

**Schema inference and bytes** (`Values`, `Records`, `Schemas`, `Readings`, `Codec`, `Framing`). Coercion and
absorption, with the typing invariant over runs in `Typing`; record, id and value codecs and object framing as
round trips. The protocol's objects hold records, not bytes: `Framing.ObjectIsExact` says for which records an
object gives back what was written to it; a batch with any other is acknowledged all the same and does not
come back.

Stored 64-bit floats are their bit patterns, ordered by the total order of the source; scores, sums and
coordinates are exact reals. The tokenizer, the regex and glob engines, UUID and datetime parsing, the
logarithm, the square root, the shard hash, UTF-8 and map iteration order are parameters about which nothing
is assumed beyond that text and its encoding determine each other, that the logarithm is positive above one —
increasing, where a theorem says so — and that a square root squares to its number. BM25's parameters are taken in their
usual range, k1 at least 0 and b between 0 and 1.

## Where a promise fails

Each is proved in the member named: the exact condition where there is one, or a run or input that shows the
failure.

| what | member |
|---|---|
| Compaction's stale check compares shard lists, and a list of empty shards can come back: the loser resurrects deleted documents | `Overlap.EmptyBaseIsUnsafe`, `Overlap.StaleCheckIsExact` |
| The grace period must exceed the longest PUT-to-CAS delay of writers *and* compactions, plus the collector's load-to-clock delay; the comment on `gc` names one commit only | `Collection.GraceIsExact` |
| An eventual read cut by the scan cap is promised to be a view of an earlier moment. It is, whatever the log, exactly if it reads no WAL entry or is cut no earlier than the log length its segments were folded from, which no manifest tells; otherwise it can show a live set the namespace never had | `Truncation.CutsAreMomentsExactly`, `Truncation.ReadersCanTell`, `Truncation.CutReadIsTorn` |
| A call answered an error can be in the log: the conditional PUT went through and its reply was lost | `GroupCommit.ErrorIsLogged`, `GroupCommit.ReplyTells` |
| Documents without a vector are accepted until the first one with, and then block every indexing compaction of their shard | `Indexing.RefusedExactly`, `Indexing.MixedStops` |
| A late reply — to a manifest load, or to a handle's own won CAS — can hide the handle's own acknowledged write; nothing else does | `Reads.OnlyLateRepliesHide`, `Reads.LateLoadHidesOwnWrite`, `Reads.LateFoldHidesOwnWrite` |
| However long the grace period, a reader that still holds an older manifest can find its objects deleted | `Reads.OldManifestsLoseObjects` |
| One configuration is applied per group commit: a request answered Ok can have its settings dropped, where the comment says that conflicting ones are rejected | `GroupCommit.OkSettings`, `GroupCommit.OkDropsSettings` |
| Coercing a list operand is meant to keep it comparable element by element. Over uuids, datetimes and floats the elements become texts, which no stored value equals: In matches nothing and NotIn everything | `Conditions.MembershipIsExact`, `Conditions.MembershipIsLost` |
| The attribute index claims exactness, or a superset, for comparisons it answers wrongly | `AttrLimits.FaithfulIsExact`, `AttrLimits.UnfaithfulIsDishonest`, `AttrIndex.LookupIsBlind` |
| The prefiltered path misses a document that only the tail patches into the match set | `Tails.PrefilterIsExact`, `Search.SelectionMissesPatch` |
| Compacting before the first write leaves one shard whatever the schema says later; a vector query survives, aggregation does not | `Totals.EarlyCompaction`, `Totals.AggregationMissesDocuments`, `Totals.OneShardReaches` |
| A text or sparse query fails as a whole if one resident shard lacks the index, as every empty shard does | `Fanout.QueryNamespace`, `Fanout.EmptyShardIsSilent` |
| Grouped by a sparse attribute, documents with different vectors share one row | `Groups.RowsTellKeysApart`, `Aggregates.SparseKeysMerge` |
| A one-token phrase query tokenizes its token again | `Fts.OneTokenPhrase` |
| The index's fuzzy search asks for any token at one budget, the filter for all at a budget each | `Fts.FuzzyAgreement`, `Fts.FuzzyDisagreesOn`, `Fts.FilterAgreement` |
| Counts and lengths are cast unchecked, those of attributes and their names to 16 bits, framed lengths to 32 | `Codec.RecordIsExact`, `Framing.FramingIsExact`, `Framing.ObjectIsExact` |

## Model

| member | source | states |
|---|---|---|
| `Values.CompareIsTotal` | src/value.rs:170-198 | Within one declared type that has an order, any two values compare, only a value itself compares equal, and swapping the operands flips the answer |
| `Values.CompareIsTransitive` | src/value.rs:170-198 | "Less" is transitive over every ordered type, arrays included, so sorted entries and pages are well defined |
| `Values.CompareMeans` | src/value.rs:170-198 | For any two values, of one type or two: which is smaller — null before everything, false before true, numbers by size whatever their width, floats in the total order of IEEE 754, text and arrays in dictionary order — and when they do not compare |
| `Values.CoerceSettles` | src/value.rs:133-163 | A coerced value fits the type asked for, coercing it again changes nothing, and only null coerces to null |
| `Values.CoerceIsReading` | src/value.rs:133-163 | Coercion gives a value if and only if it is of the type asked for and reads the given one: the same number, the same numbers one by one, the host's float or text for it; nothing else, and an error exactly if there is none |
| `Values.CoerceRefuses` | src/value.rs:143-155 | Numbers are refused exactly where they do not fit: above 2^63 - 1 for integers and datetimes, below zero for unsigned ones |
| `Records.ReplayAt` | src/store.rs:1909-1931 | Documents never interact: the live set after any records, at one id, is the history of that id alone |
| `Records.ReplayTwice` | src/store.rs:1909-1931 | Applying any list of records twice is applying it once, patches of absent documents and null removals included |
| `Records.ReplayOverlap` | src/store.rs:1344-1348 | WAL entries both folded into a segment and kept behind it are harmless: replaying them again, and then what came later, gives the same live set |
| `Records.UndecidedIsOnePatch` | src/store.rs:1915-1929 | Records that neither upsert nor delete a document amount to one net patch of it |
| `Records.DecidedForgets` | src/store.rs:1909-1914 | Once a list of records upserts or deletes an id, what was there before it no longer matters |
| `Records.LiveIsLastDecision` | src/store.rs:1909-1931 | After any records a document is live exactly if the last of them that upserts or deletes it upserts it, with that upsert's vector |
| `Records.AttributeIsLastWord` | src/store.rs:1915-1929 | After any records a live document has under each key what the last record that says so gives it, a null patch leaving the key absent |
| `Records.IdLessMeans` | src/doc.rs:20-26 | Ids order by kind, then numbers by size and the others in dictionary order |
| `Records.BucketsMaterialize` | src/store.rs:1357-1361 | Splitting a live set into hash buckets of upserts and reading all buckets back restores it |
| `Records.ShardPartReplays` | src/store.rs:1042-1054 | Applying a shard's slice of the tail to the shard's part gives that shard's part of the whole tail applied to the whole set |
| `Records.LiveSet.Mutate` | src/store.rs:1909-1931 | The in-place update of the live map computes the specification's apply, attribute by attribute |
| `Records.LiveSet.MutateAll` | src/store.rs:824-830 | Applying records one by one in place is their replay |
| `Schemas.DeclareGrows` | src/doc.rs:299-400 | Declaring configuration only adds to a schema, and the shard count moves only while the namespace holds no data |
| `Schemas.AbsorbAttrsTypes` | src/doc.rs:273-297 | Absorbed attributes all have the types the resulting schema declares, and no earlier declaration changes |
| `Schemas.AbsorbTypes` | src/doc.rs:219-297 | A batch that is absorbed comes out with as many records, each typed by the resulting schema, which only grows |
| `Schemas.PrepareTypes` | src/store.rs:741-755 | What a writer is about to PUT is typed by the schema it is about to publish, and that schema extends its base's |
| `Schemas.PrepareSane` | src/doc.rs:361-380 | Every schema that a write publishes has a shard count in the allowed range |
| `Schemas.ReplayTyped` | src/store.rs:1909-1931 | Typed records applied to a typed live set, patches included, leave it typed |
| `Readings.CoerceIdIsReading` | src/doc.rs:53-64 | An id is coerced to the one id of the declared type that it reads as, or refused if there is none |
| `Readings.AbsorbReads` | src/doc.rs:219-297 | An absorbed batch is the given one, record by record: the same mutations with the same vectors and attribute names, each id and value read |
| `Readings.PrepareReads` | src/store.rs:741-755 | What a writer is about to PUT is the batch it was given, read: nothing lost, added or changed |
| `Readings.OneReading` | src/doc.rs:219-297 | A record reads as at most one record of a schema's types, so being read and being typed leave no choice of what is stored |
| `Readings.AbsorbRecordAccepts` | src/doc.rs:239-297 | A record is refused exactly if its id or a declared attribute cannot be read, or its vector is missing, of another dimension or not finite |
| `Readings.AbsorbAccepts` | src/doc.rs:219-237 | A batch is refused exactly at its first record that is not acceptable under what the records before it declared |
| `Readings.DeclareAccepts` | src/doc.rs:299-400 | Settings are refused exactly if one would change that is fixed: a type, text or embedding setting ever, the metric once there is data, the shard count once set or once there is data |
| `Readings.FiniteFields` | src/doc.rs:266-269 | A 32-bit float is finite unless its exponent is the greatest |
| `Settings.AbsorbDeclares` | src/doc.rs:273-297 | Absorbing a batch declares each unknown attribute with the type of its first value that is not null, and changes no other setting |
| `Settings.GrantedExactly` | src/doc.rs:299-400 | For every base and batch, the published schema has what a request asks for if and only if the base, the one configuration applied and the batch's first values say the same |
| `Settings.EmptyAsksNothing` | src/store.rs:1950-1957 | A configuration counts as empty exactly if every schema already says what it asks for |
| `Schemas.Draft.TakeId` | src/doc.rs:239-250 | The in-place absorption of an id: the first id fixes the id type, later ones are coerced to it or refused with the same error |
| `Schemas.Draft.TakeVector` | src/doc.rs:252-271 | The in-place absorption of a vector refuses exactly what is not finite or not of the declared dimension |
| `Schemas.Draft.TakeAttrs` | src/doc.rs:273-297 | The in-place absorption of attributes refines its specification, error for error |
| `Schemas.Draft.TakeAll` | src/doc.rs:219-237 | The in-place absorption of a batch refines its specification and stops at the first record that does not fit |
| `Schemas.Draft.TakeRecord` | src/doc.rs:221-234 | The in-place absorption of one record coerces its id first, then checks its vector, then its attributes, and fails with the same error as the specification |
| `Safety.StepKeeps` | src/store.rs:728-808 | Every step of any actor — writer, reader, compactor, collector, a crash or a lost reply — keeps the protocol invariant |
| `Safety.RunKeeps` | src/store.rs:728-808 | The invariant holds along every guarded run |
| `Safety.LiveSetIsTheLog` | src/store.rs:813-830 | In every state of every guarded run the manifest materializes to the replay of all committed batches in commit order, and every manifest ever published to the prefix it counts |
| `Safety.BackedMeansPrefix` | src/store.rs:813-830 | A manifest whose bookkeeping holds materializes to exactly the first `nextSeq` commits, from objects that all exist |
| `Safety.RetainedWal` | src/store.rs:1388-1389 | Removing the WAL entries a compaction consumed leaves exactly those that arrived after its base was loaded |
| `Safety.FoldedLive` | src/store.rs:1344-1348 | A segment that already contains part of the WAL kept behind it still replays to the whole log |
| `Safety.AnchoredOnce` | src/store.rs:1380-1387 | A shard list that names a segment belongs to one compaction only and never returns |
| `Safety.WonWriterCas` | src/store.rs:771-794 | A writer whose CAS succeeds, with or without its reply, appends its batch to the log and leaves the invariant intact |
| `Safety.WonCompactCas` | src/store.rs:1388-1413 | A compaction whose CAS succeeds, from a base not overtaken or anchored, leaves the live set equal to the log |
| `Safety.KeepsCasReply` | src/store.rs:771-802 | A reply to a CAS, prompt, late or lost, changes only what the caller knows and remembers, and keeps the invariant |
| `Protocol.ReferencedIsNamed` | src/store.rs:289-312 | What a manifest keeps alive is what it names, as a WAL entry, a segment or an index object, no more and no less |
| `Runs.StepLater` | src/store.rs:728-808 | No step, guarded or not, rewrites the log, a stored object, a published manifest or a finished call |
| `Runs.AckedIsDurable` | src/store.rs:728-808 | An acknowledged write is in the log at the number it was told, prepared from its own call on some published base and published with the schema it was prepared under, and stays there through every later run |
| `Runs.CommitsAtMostOnce` | src/store.rs:728-808 | A call commits at most once, however often it retries; if it committed, its outcome is that number or a lost reply, never a failure |
| `Runs.SequenceNumbersIncrease` | src/store.rs:758-793 | A call that had not committed when another was acknowledged gets a strictly larger sequence number |
| `Runs.NotBegunNotCommitted` | src/store.rs:728-808 | A call that has not begun has not committed, so a call that begins after another was acknowledged gets the larger number |
| `Runs.LostRaceChangesNothing` | src/store.rs:795-807 | A lost CAS changes no object, no manifest, no log and no live set; learning of it, the caller forgets its snapshot and starts its next attempt, or after the hundredth fails as contended |
| `Runs.LostFoldChangesNothing` | src/store.rs:1380-1435 | A compaction's lost CAS changes nothing but its own state: it checks for staleness again, or after its hundredth attempt gives up |
| `Runs.RunNoneBack` | src/store.rs:728-808 | Along every run an object once PUT stays as it is until it is deleted, and never comes back |
| `Durability.AckedMeansWritten` | src/store.rs:728-808 | An acknowledged call's commit holds the caller's records, all of them in order, each the same mutation read as the published schema declares |
| `Durability.AckedIsReadBack` | src/store.rs:728-830 | A document upserted by an acknowledged call is what every later manifest holds under its id, with the caller's vector and attributes, until another record is about that id |
| `Durability.StoredIsLastWord` | src/store.rs:1915-1929 | In every reachable state each attribute of each live document is what the last record of the log that says so gives it |
| `Durability.WalSizesAreTrue` | src/store.rs:758-765 | Every WAL entry of the manifest names a stored object and gives its true size and number of records |
| `Durability.DataFixesSettings` | src/doc.rs:361-400 | Once a namespace holds data, no step of any actor changes its metric or its shard count |
| `Collection.DeleteKept` | src/store.rs:1668-1715 | One deletion by the collector removes nothing that the manifest names, for whatever purpose, and nothing that an actor can still commit |
| `Collection.StepKept` | src/store.rs:291-312 | With a grace period above the two delays, every step keeps every WAL object, segment and index object of the manifest, and every still committable object, in the store |
| `Collection.LongGraceIsSafe` | src/store.rs:1668-1715 | With such a grace period, after any run of any actors every WAL entry, every segment and every index object of the manifest is in the store |
| `Collection.ShortGraceLosesData` | src/store.rs:1668-1715 | With any shorter grace period a concrete run deletes an object that the manifest names |
| `Collection.GraceIsExact` | src/store.rs:1668-1715 | Collection is safe if and only if the grace period exceeds the longest PUT-to-CAS delay plus the collector's load-to-clock delay |
| `Collection.StoreServesTheTruth` | src/store.rs:813-830 | With such a grace period, what is still in the store materializes to the replay of every committed batch |
| `Overlap.AnchoredBaseIsSafe` | src/store.rs:1380-1387 | A compaction from `[]` or a base naming a segment commits the true live set in every guarded run, overtaken or not |
| `Overlap.EmptyBaseIsUnsafe` | src/store.rs:1446-1448 | From a base of any number of empty shards there is a run in which an overtaken compaction commits a live set other than the log's |
| `Overlap.StaleCheckIsExact` | src/store.rs:1380-1387 | Among the bases that name a segment, are `[]` or are empty shards, the equality check is sound exactly for the first two |
| `Typing.StepTyped` | src/store.rs:735-769 | Every step keeps stored batches typed by the manifest's schema and schemas growing |
| `Typing.StoredDataIsTyped` | src/doc.rs:219-297 | In every guarded run each committed record and each live document has the declared id type, dimension and attribute types, and the shard list fits the schema's or an earlier count |
| `Typing.LiveDataFits` | src/doc.rs:219-297 | In every reachable state every live document has the declared id type, the declared dimension if it has a vector, finite numbers in it, and values of the declared types |
| `Typing.DeclarationsAreFinal` | src/doc.rs:239-297 | Whatever happens later, re-absorption after a lost CAS included, no declared id type, dimension, attribute type, shard count, text or embedding setting changes or goes away |
| `Typing.ShardsAreDeclared` | src/doc.rs:382-385 | In every reachable state the manifest has no shards, one, or exactly as many as the schema declares |
| `Reads.WalPrefixWithin` | src/store.rs:320-329 | Returns the longest prefix of the WAL whose bytes fit the cap, and says truncated exactly when the whole does not |
| `Reads.PrefixIsTheSum` | src/store.rs:320-329 | What is compared with the cap is the sum of the entries' sizes |
| `Reads.ReadsAreHonest` | src/store.rs:912-937 | A strong read, and any read reported consistent, is the replay of the whole log; an eventual read within the cap is an earlier commit; only a strong read over the cap is refused |
| `Reads.OnlyLateRepliesHide` | src/store.rs:472-511 | A step hides a committed write from a handle's next eventual read exactly when it is a late reply: a load of an older manifest, or a won CAS, that is remembered after that commit |
| `Reads.LateLoadHidesOwnWrite` | src/store.rs:472-497 | There is a run in which a handle no longer sees a write it was itself acknowledged |
| `Reads.LateFoldHidesOwnWrite` | src/store.rs:1396-1413 | There is a run in which the late reply to a compaction's own CAS hides from the handle a write it was acknowledged since |
| `Reads.OldManifestsLoseObjects` | src/store.rs:1668-1715 | For every grace period there is a run in which a handle remembers a manifest that names a deleted object |
| `Truncation.RunFolds` | src/store.rs:1344-1353 | Along every guarded run the segments of each compaction hold exactly the commits up to its second load, and each published manifest carries one compaction's segments |
| `Truncation.LateCutsAreCommits` | src/store.rs:320-329 | For every manifest ever published, a read cut after n WAL entries shows the commit it stops at whenever it stops no earlier than what its segments were folded from, and that commit at n = 0 |
| `Truncation.CutsAreCommitsExactlyFrom` | src/store.rs:320-329 | Over all logs, segments folded up to one commit and cut at another show the commit of the cut itself if and only if the cut is not the earlier one |
| `Truncation.CutsAreMomentsExactly` | src/store.rs:315-329 | Over all logs, a read cut by the scan cap shows the live set of some earlier moment if and only if it reads no WAL entry or stops no earlier than its segments do |
| `Truncation.ReadersCanTell` | src/store.rs:315-329 | A manifest does not say where its segments end, so what holds for every such end is only that a read of none of the WAL or of all of it shows an earlier moment |
| `Truncation.CutReadIsTorn` | src/store.rs:912-937 | There is a run and a scan cap for which an eventual read answers a live set that the namespace never had |
| `Namespaces.Namespace.FindBase` | src/store.rs:736-739 | The first attempt starts from the remembered manifest if there is one, every other from a fresh load, as one protocol step; a load that fails ends the call |
| `Namespaces.Namespace.PrepareBatch` | src/store.rs:741-755 | Declaring and absorbing on a draft gives what the specification of a prepared call says, or its error |
| `Namespaces.Namespace.StoreBatch` | src/store.rs:741-760 | Preparing and then PUTting the WAL object before anything names it is the protocol's PUT step; a batch that does not fit PUTs nothing, and a PUT that fails ends the call with or without its object |
| `Namespaces.Namespace.TryCommit` | src/store.rs:762-785 | The conditional PUT is the protocol's CAS step, won exactly when the manifest is still the base |
| `Namespaces.Namespace.Learn` | src/store.rs:786-802 | Remembering or forgetting the snapshot after the reply, whatever others did since, is the protocol's reply step |
| `Namespaces.Namespace.Miss` | src/store.rs:801 | A conditional PUT that was decided and whose reply is lost ends the call with an error, as the protocol's lost reply |
| `Namespaces.Namespace.OneAttempt` | src/store.rs:735-803 | One round of the retry loop, whichever of its requests fails, ends the call with an answer that tells of the store, or leaves it due for another round within the bound |
| `Namespaces.Namespace.CommitRecords` | src/store.rs:728-808 | The whole call, whatever others do between its requests and whichever of them fail, is a run of the protocol; over a good run Ok means logged at that number and nowhere else, a refusal or contention never logged, and a failed request, which some fault explains, logged at most once |
| `Namespaces.AnswerTells` | src/store.rs:771-807 | In every good state, what a finished call was told and the log agree in this sense |
| `Maintenance.LoadBase` | src/store.rs:1331-1345 | Loading a base and finding nothing to do is the protocol's first compaction step |
| `Maintenance.ReadLive` | src/store.rs:1344-1353 | Reading every record by a second, later load is the protocol's read step, and fails only when an object is missing |
| `Maintenance.BuildShard` | src/store.rs:1440-1587 | Writing the next shard is the protocol's PUT step: no object for an empty bucket, otherwise a segment and its index objects; it fails exactly when a PUT does or the index is refused for vectors of different lengths, and then the segment stays |
| `Maintenance.BuildShards` | src/store.rs:1355-1376 | The loop over shards builds as many as the base's schema says, as a run; it is refused only if some shard cannot be indexed, and succeeds only if all can |
| `Maintenance.CheckStale` | src/store.rs:1380-1387 | The reload gives up exactly when the protocol does: the shard list is no longer the base's |
| `Maintenance.CommitFold` | src/store.rs:1388-1413 | Publishing the fold with the unconsumed WAL is the protocol's compaction CAS, won exactly when the manifest is still the one reloaded |
| `Maintenance.LearnFold` | src/store.rs:1396-1413 | Remembering the published fold, whatever others did since, is the protocol's reply step |
| `Maintenance.FoldRound` | src/store.rs:1388-1427 | The conditional PUT of a round, won, lost or failed, with its reply late or lost |
| `Maintenance.CommitJob` | src/store.rs:1380-1433 | The commit loop ends in an outcome that the store agrees with, retrying only when writers won, at most 100 times, or in the error of a request that failed |
| `Maintenance.Compact` | src/store.rs:1327-1434 | The whole compaction, whichever of its requests fail, is a run of the protocol whose answer the store agrees with, and from a good state over a guarded run the live set is still the log's |
| `Maintenance.Collect` | src/store.rs:1668-1715 | The whole collection, whichever of its requests fail, is a run of the protocol, deletes no WAL object, segment or index object that the manifest named when it began, leaves the live set the log's, and, if it reports success, leaves nothing that was then unnamed and past its grace |
| `Maintenance.Sweep` | src/store.rs:1701-1707 | The deletion loop: of what was overdue when the collection began nothing is left unless a request failed, and nothing but what was listed is deleted |
| `Indexing.RefusedExactly` | src/index.rs:85-92 | In every reachable state an indexing compaction that has read its documents is bound to be refused if and only if some shard of them holds one without a vector beside one with |
| `Indexing.MixedStops` | src/doc.rs:252-257 | A run of two writes, the first without a vector, after which an indexing compaction is refused |
| `Maintenance.CommitRound` | src/store.rs:1380-1428 | One round of the compaction's commit loop, whichever request fails, ends it with an outcome the store agrees with, or leaves it due for another round because only a writer won |
| `GroupCommit.Drain` | src/store.rs:1993-2004 | A batch is a non-empty run of consecutive requests, at most 1024, below 8 MiB until its last, and ends only at a limit or where the queue is empty |
| `GroupCommit.BytesAreTheSum` | src/store.rs:1993-2004 | The size of a batch is the sum of its records' sizes |
| `GroupCommit.FirstAsks` | src/store.rs:2011-2016 | A batch's settings are those of one of its requests, and are empty only if every request's are |
| `GroupCommit.BatchSettings` | src/store.rs:2007-2016 | For every base, each request of a batch has its settings in the published schema if and only if they follow from the base, the first non-empty settings of the batch and the types of its records |
| `GroupCommit.LogHasNext` | src/store.rs:2018-2026 | Serving one more batch keeps every batch answered Ok in the log at its number, no refused or contended batch in it, and all that are in it in submission order |
| `GroupCommit.Serve` | src/store.rs:1993-2027 | For every arrival sequence and every choice of failing requests the loop splits the requests into consecutive batches and gives every waiter its batch's single answer; the log holds, in submission order, all batches answered Ok, at their numbers, and of the others only batches with a failed request, at most once each |
| `GroupCommit.WriteAll` | src/store.rs:2075-2087 | Ok exactly when every reply is Ok, with the last number; otherwise the first failure |
| `GroupCommit.ReplyTells` | src/store.rs:2033-2045 | A waiter told Ok has its request in the log at that number and nowhere else; one told of a refusal or contention has it not in the log; one told of a failed request has it there at most once |
| `GroupCommit.LoggedInOrder` | src/store.rs:2018-2026 | Whatever the replies were, requests in the log stand there in submission order, and share a number only within one batch |
| `GroupCommit.WrittenInOrder` | src/store.rs:2051-2088 | If all of a caller's requests are answered Ok, each of its records is in the log, in the order submitted, however other callers' requests came between |
| `GroupCommit.ErrorIsLogged` | src/store.rs:801 | A run in which the reply to a won conditional PUT is lost: the call can only be answered an error, and its batch is in the log |
| `GroupCommit.OkSettings` | src/store.rs:2007-2026 | Of every request that `Serve` answers Ok: its settings are in the schema its batch's commit published if and only if they follow from what that commit started from |
| `GroupCommit.OkDropsSettings` | src/store.rs:2007-2016 | A run in which two first writes ride one batch, both are answered Ok, and the shard count the second asked for is not in the published schema |
| `Sorting.OneArrangement` | src/doc.rs:1179-1187 | A set has one ascending arrangement under a strict order |
| `Sorting.SortIgnoresArrival` | src/doc.rs:1162-1188 | Sorting distinct elements gives the same list in whatever order a map yields them |
| `Sorting.TopOfPart` | src/store.rs:1847-1854 | Any part of a list that still holds its best k has the same best k |
| `Sorting.MergedTop` | src/store.rs:1069-1082 | Truncating each of several disjoint lists to its best k and merging gives the best k of all of them |
| `Sorting.SortNeverDescends` | src/aggregate.rs:133 | Sorting a list with repeats by a strict order leaves nothing below what stands before it |
| `Sorting.OneTop` | src/doc.rs:1181-1187 | Only one list is in order, of the right length, and better than all it leaves out; sorting and truncating gives it |
| `Levenshtein.DistanceIsFewestEdits` | src/fts.rs:622-643 | The recurrence is at most `max` exactly when some list of at most `max` single-character edits turns one string into the other |
| `Levenshtein.LengthGap` | src/fts.rs:624-626 | The distance is at least the difference of lengths, so the first early exit is sound |
| `Levenshtein.RowsStayAbove` | src/fts.rs:631-639 | Once a whole row exceeds the bound every later row does, so the second early exit is sound |
| `Levenshtein.FillRow` | src/fts.rs:630-636 | From a row of the distance matrix the inner loop computes the next one in place, and a lower bound of its cells |
| `Levenshtein.LevenshteinWithin` | src/fts.rs:622-643 | True exactly when at most `max` single-character edits turn one string into the other |
| `Levenshtein.PaddedIsFarther` | src/fts.rs:622-643 | For any two distinct words the longer, padded, is at its padding's distance from itself and farther from the other |
| `Filters.CoercionSettles` | src/doc.rs:716-763 | After coercion no comparison of a declared attribute, at any depth, carries an operand the engine does not expect |
| `Conditions.EqualMeans` | src/value.rs:200-209 | Two values are equal if they are the same, not sparse vectors, or the same number in two widths or beside a float |
| `Conditions.RangesMean` | src/doc.rs:885-892 | The four ranges mean smaller, greater, or equal, and are never met by or against null, nor by values that do not compare |
| `Conditions.NegationsAre` | src/doc.rs:880-897 | Each negated comparison is met exactly by the values its plain form is not met by |
| `Conditions.MembershipMeans` | src/doc.rs:893-896 | In and, on text and unsigned arrays, Contains ask for an element alike |
| `Conditions.OverlapMeans` | src/doc.rs:926-929 | ContainsAny asks for two elements alike, one of each side |
| `Conditions.SubstringMeans` | src/doc.rs:913-924 | On anything else Contains asks for the operand's text inside the value's |
| `Conditions.FullTextMeans` | src/doc.rs:785-809 | Over tokens: every token, or not every token; never met by an operand without tokens |
| `Conditions.SequenceMeans` | src/doc.rs:785-809 | The operand's tokens in one stretch of the text's |
| `Conditions.FuzzyMeans` | src/doc.rs:785-809 | Every token of the operand is within one edit of some token of the text, or is one of them if it has at most five characters |
| `Conditions.JoinOne` | src/fts.rs:657-663 | The text of an array is its words, one space between any two |
| `Conditions.CoercedEqual` | src/doc.rs:716-763 | An equality with a coerced operand is met by exactly the stored value that the operand reads as |
| `Conditions.CoercedComparison` | src/doc.rs:716-763 | A scalar operand becomes the value of the attribute's type, or for the list operators of its elements' type, that it reads as; patterns and text stay |
| `Conditions.CoercedParts` | src/doc.rs:718-724 | Every part of a connective is coerced on its own, in place |
| `Conditions.ElementTypes` | src/doc.rs:813-821 | An array's elements are of its element type, and everything else is its own element |
| `Conditions.MembershipIsExact` | src/doc.rs:824-876 | A coerced list is met by exactly the stored values its elements read as if and only if the attribute holds text or integers, or the list is empty |
| `Conditions.MembershipIsLost` | src/doc.rs:824-876 | The text of a datetime finds the document alone, and does not find it in a list |
| `AttrIndex.FileAll` | src/attrindex.rs:53-76 | Every distinct element of the column gets one slot with exactly the documents that hold it |
| `AttrIndex.Build` | src/attrindex.rs:48-84 | The index has its entries in ascending order, each distinct value once with exactly its documents, and knows whether any value is an array |
| `AttrIndex.SearchFinds` | src/attrindex.rs:189-194 | Over entries and a needle of one ordered type the binary search finds the needle exactly when it is there |
| `AttrIndex.LookupIsExact` | src/attrindex.rs:189-194 | A lookup of a needle of the element type returns exactly the documents that hold it |
| `AttrIndex.LookupIsBlind` | src/attrindex.rs:189-194 | A needle that compares with no entry is nevertheless "found": the lookup returns some document |
| `AttrIndex.GatherAt` | src/attrindex.rs:118-127 | Testing every distinct value once selects exactly the documents with an element that passes |
| `AttrIndex.RangeHonest` | src/attrindex.rs:114-127 | Range comparisons are answered by a superset of the scan's documents, and exactly where exactness is claimed |
| `AttrIndex.FaithfulIsHonest` | src/attrindex.rs:98-187 | For every faithful comparison `select` gives nothing, or a superset of the scan's documents, and exactly them where it claims so |
| `AttrIndex.SelectAnswers` | src/attrindex.rs:98-187 | What an index answers at all, and when it says exactly: the plain forms, equality only over single values, ranges over arrays as a superset only |
| `AttrIndex.File` | src/attrindex.rs:64-75 | Filing one part adds its document to the part's slot and to no other, opening the slot if it is new |
| `AttrLimits.UnfaithfulIsDishonest` | src/attrindex.rs:98-187 | For every coerced comparison outside the faithful ones there is a stored column over which `select` loses a document or claims a wrong one exactly |
| `AttrLimits.FaithfulIsExact` | src/attrindex.rs:98-187 | A coerced comparison is answered honestly over every stored column if and only if it is faithful |
| `AttrLimits.NullListDishonest` | src/attrindex.rs:129-138 | `In` and `ContainsAny` with a null operand lose the documents that lack the attribute |
| `AttrLimits.ContainsDishonest` | src/attrindex.rs:139-143 | `Contains` on `[]int`, or with an operand of another type, disagrees with the scan |
| `AttrLimits.PatternDishonest` | src/attrindex.rs:152-169 | Glob and regex over `[]string` claim exactness for documents that the scan refuses |
| `AttrLimits.AboveDishonest` | src/attrindex.rs:114-127 | A lower bound on array attributes misses every array at least as great |
| `AttrLimits.BelowDishonest` | src/attrindex.rs:114-127 | An upper bound on array attributes misses the empty array |
| `AttrLimits.EqDishonest` | src/attrindex.rs:105-113 | Equality with an operand of another type, or on sparse vectors, returns a document that the scan refuses |
| `AttrLimits.ListDishonest` | src/attrindex.rs:129-138 | `In` over arrays, and a list with an element of another type or null, are answered wrongly over some column |
| `Planner.EvaluateAnd` | src/attrindex.rs:255-276 | The accumulator loop over a conjunction, dropping unanswerable operands, computes the intersection of the rest and loses exactness with the first drop |
| `Planner.EvaluateOr` | src/attrindex.rs:278-289 | The accumulator loop over a disjunction computes the union, or nothing if any operand is unanswerable |
| `Planner.EvaluateFilter` | src/attrindex.rs:247-303 | The recursion with its early exits computes the specification's evaluation of any nested filter |
| `Planner.EvaluateIsHonest` | src/attrindex.rs:247-303 | For every nested filter of faithful comparisons the evaluation is nothing, or a superset of what the scan accepts, and exactly it when it claims so, through And, Or and Not |
| `Planner.ExactnessCarries` | src/attrindex.rs:247-303 | A negation is answered exactly if its inner filter is, a connective if and only if every part is |
| `Planner.FromIndexes` | src/store.rs:1274-1302 | When every shard answers exactly the ids are those the scan accepts, shard after shard |
| `Planner.IdsMatching` | src/store.rs:1269-1317 | By its index path or its scan path the answer is the first `cap` ids, ascending, of the live documents that match, with an honest "more remain" |
| `Planner.Resolve` | src/store.rs:1285-1290 | Resolving exact ordinals gives the ids of the accepted documents in order |
| `Ranking.BestOfHits` | src/doc.rs:1162-1188 | Any list of exactly the hits of a live set, in any order, sorts and truncates to the same ranking |
| `Ranking.BestIsThePage` | src/doc.rs:1181-1187 | The answer is the one list that shows accepted documents with their own scores and attributes, highest score first and equal scores by id, min(k, matches) of them, with none left off that scores higher, or as high with a smaller id |
| `Ranking.RankLive` | src/doc.rs:1162-1188 | Ranking a live map in whatever order it yields its documents gives that page |
| `Ranking.ShardsPartition` | src/store.rs:1042-1054 | A shard's segment plus its slice of the tail is exactly its part of the global live set |
| `Ranking.MergedIsGlobal` | src/store.rs:1069-1082 | If a live set is cut into pieces and each piece is answered exactly, merging the truncated answers gives the exact answer of the whole |
| `Ranking.ShardedIsGlobal` | src/store.rs:1035-1085 | A sharded ranked query whose shards are each exact equals the unsharded one |
| `Tails.UntouchedIsStored` | src/store.rs:1875-1887 | A segment document the tail does not mention is live as stored |
| `Tails.RankOverlay` | src/store.rs:1101-1165 | Ranking by postings with an unindexed tail equals scoring every live document's current value: none twice, none deleted, none by stale postings |
| `Tails.PrefilterIsSound` | src/store.rs:1184-1204 | Every hit of the prefiltered path is a live document that matches, with its current attributes and score |
| `Tails.PrefilterIsExact` | src/store.rs:1184-1204 | The prefiltered path equals the exact filtered top-k for every k if and only if no unselected document that only the tail patches comes to match |
| `Tails.SelectedOrDecidedIsEnough` | src/store.rs:1184-1204 | That is so if the index selects every matching segment document and every tail-touched one is selected, upserted or deleted |
| `Tails.RankPrefiltered` | src/store.rs:1170-1206 | The loop over selected ordinals with the tail applied ranks the selected part of the segment after the tail |
| `Layout.StepLaid` | src/store.rs:1355-1361 | Every step keeps each shard of every published manifest, and of every running job, the hash bucket of one live set |
| `Layout.RunLaid` | src/store.rs:1355-1361 | So along every guarded run |
| `Layout.ShardsArePieces` | src/store.rs:1035-1054 | The shards of a published manifest, as the query splits them, are the parts of what its segments hold together |
| `Layout.RankFacts` | src/store.rs:1035-1054 | In every reachable state the fan-out's assumptions hold, and segments plus WAL replay to the log |
| `Layout.PlacedByHash` | src/store.rs:1354-1365 | In every reachable state a shard's segment holds upserts in ascending id order and, with several shards, only ids whose hash leaves the shard's number |
| `Search.RankText` | src/store.rs:1133-1165 | A text query over postings with an unindexed tail equals scoring each live document's text against the fixed corpus statistics |
| `Search.RankSparse` | src/store.rs:1101-1130 | A sparse query over postings with an unindexed tail equals the dot product with each live document's current vector |
| `Search.SelectionAnswers` | src/store.rs:1170-1206 | With the selection the planner computes, the prefiltered answer is the exact one if and only if the tail patches no unselected document into the match set, which holds when each tail-touched document is selected or decided |
| `Search.SelectionMissesPatch` | src/store.rs:1170-1206 | One document, the index built over it and a tail of one patch: the selection is exact for the segment, and the page is empty where the filter accepts the document |
| `Fanout.ShardHits` | src/store.rs:1088-1259 | One shard's answer by whichever path its index allows: it fails exactly when the index it needs is missing or of another dimension, returns only live, matching, current documents, and is exact unless the prefilter is outdated or clusters are left unprobed |
| `Fanout.SelectedOrDecidedSees` | src/store.rs:1170-1206 | A filter of faithful comparisons over stored attribute indexes misses nothing in its shard if each tail-touched segment document was selected, or is upserted or deleted by the tail |
| `Fanout.QueryShards` | src/store.rs:1035-1085 | The fan-out and merge: the query fails exactly when one shard does; every hit is a document of the whole with its current score and attributes, highest score first, ties by id; and the page is the exact one whenever no shard's path can miss anything |
| `Fanout.ResidentFacts` | src/store.rs:1035-1054 | In every reachable state the resident shards hold distinct documents and are the pieces of the segments' live set, with one empty shard for a namespace never compacted |
| `Fanout.QueryNamespace` | src/store.rs:899-909 | In every reachable state a text, sparse or vector query, each shard by its own index, answers from the replay of every committed batch, highest score first, ties by id; fails exactly when its vector has the wrong dimension or a shard lacks what it needs; and is the exact page whenever no shard's path can miss anything |
| `Fanout.FormMeans` | src/store.rs:1035-1085 | A vector query is answered as asked; a text or sparse one keeps only what scores, a sparse one by the dot product |
| `Fanout.TextScoreMeans` | src/store.rs:1132-1165 | A text query scores by BM25 with the parameters stored in the shard's own index, over the documents and tokens of that index |
| `Fanout.PrefilterMeans` | src/store.rs:94-121 | The selection is scanned instead of the probed clusters never above 8192 candidates, and otherwise exactly if probing reads as many documents or is expected to leave less than four pages of matches |
| `Fanout.EmptyShardIsSilent` | src/store.rs:1102-1140 | An empty shard has no index, so every text or sparse query over a namespace with one, or never compacted, fails |
| `Pages.OrderIsStrict` | src/doc.rs:1111-1158 | Ordering by an attribute of one declared type, missing values last in both directions, ties by id, is a strict order on the rows |
| `Pages.OrderedPage` | src/doc.rs:1126-1158 | The page shows accepted documents as they are, those without the attribute last, the others smallest or greatest value first and equal ones by id, min(k, matches) of them, with none left off that comes before one on it |
| `Fts.Build` | src/fts.rs:322-361 | The index holds, for every term that occurs, exactly the documents with it in order and every position, and each document's length |
| `Fts.TermScorePositive` | src/fts.rs:430-456 | A term adds a positive score to exactly the texts that contain it, however common the term |
| `Fts.ScorePositive` | src/fts.rs:430-456 | A text's direct score is never negative, and positive exactly when it shares a query term |
| `Fts.PostingIsTermScore` | src/fts.rs:391-425 | What a posting adds to its document is what scoring the document's text adds for that term, though the two callers treat an empty average differently |
| `Relevance.OneTermScore` | src/fts.rs:425-459 | The score of any text for one term satisfies BM25's formula, from how many documents hold the term, how often it occurs and how long the text is beside the average; zero without it |
| `Relevance.ScoreIsSum` | src/fts.rs:443-459 | A query scores the sum of its distinct terms, each once however often it is typed |
| `Relevance.RarerScoresHigher` | src/fts.rs:406-415 | Of two terms that occur equally often in equally long texts, the rarer one scores higher |
| `Relevance.MoreScoresHigher` | src/fts.rs:406-415 | Of two equally long texts, the one with more occurrences of a term scores higher, unless k1 is zero |
| `Fts.Accumulate` | src/fts.rs:398-416 | The accumulator holds exactly the documents that share a term, each with the sum of its terms' direct scores |
| `Fts.Score` | src/fts.rs:391-425 | The result lists exactly the documents that share a query term, each once, each with its direct score, which is positive; repeated query terms count once |
| `Fts.AllTokens` | src/fts.rs:459-480 | Intersecting posting lists gives exactly the documents that contain every token, and nothing for no tokens |
| `Fts.PhraseStarts` | src/fts.rs:498-514 | Carrying starts from token to token finds one at the end exactly when the tokens occur as a contiguous window |
| `Fts.TokenSequence` | src/fts.rs:485-516 | For two or more tokens, exactly the documents whose tokens contain the query's as a window; for one, what `all_tokens` says of the token tokenized again |
| `Fts.OneTokenPhrase` | src/fts.rs:490-492 | A one-token phrase agrees with the window on every text if and only if its token tokenizes to copies of itself |
| `Fts.Fuzzy` | src/fts.rs:523-534 | Exactly the documents with a token within the edit budget of some query token |
| `Fts.FuzzyAgreement` | src/fts.rs:523-534 | For one budget, the index's any-token answer equals the filter's all-token answer on every document if and only if the query's tokens are all the same |
| `Fts.FuzzyDisagreesOn` | src/fts.rs:523-534 | For any two distinct tokens, the longer one padded by the budget is a document on which the two disagree |
| `Fts.FilterAgreement` | src/doc.rs:805-808 | With the filter's own budget for each token, the two agree on every document if and only if the tokens are all the same and the index is given that token's budget |
| `Fts.FileDocument` | src/fts.rs:335-338 | The positions collected for a token are all of its positions in the document, ascending |
| `Fts.AppendDocument` | src/fts.rs:339-341 | Whatever order the map yields a document's tokens in, the postings afterwards are those of the longer corpus |
| `Fts.AddTerm` | src/fts.rs:403-416 | One term adds its direct score to every document that contains it, and touches no other |
| `Fts.FuzzyToken` | src/fts.rs:526-532 | The scan of the dictionary finds exactly the documents with a token within the budget |
| `Sparse.DotIsSymmetric` | src/sparse.rs:145-150 | The dot product over shared dimensions does not depend on the order of its operands |
| `Sparse.DotAddsProducts` | src/sparse.rs:145-153 | The dot product is zero with an empty vector, and each weight adds its product with the other vector's weight there |
| `Sparse.Dot` | src/sparse.rs:145-150 | Walking the shorter vector computes it |
| `Sparse.Build` | src/sparse.rs:32-54 | Each dimension lists exactly the documents with a nonzero weight in it, with that weight |
| `Sparse.Score` | src/sparse.rs:77-91 | Exactly the documents with a nonzero dot product, each once, each with that product |
| `Sparse.AppendVector` | src/sparse.rs:37-46 | One document is filed under exactly its nonzero dimensions |
| `Sparse.AddDimension` | src/sparse.rs:79-87 | One query dimension adds its product to every document that has it, and touches no other |
| `Sparse.AddList` | src/sparse.rs:79-87 | Every entry of a list adds its product to its own document |
| `Sparse.Nonzero` | src/sparse.rs:88-90 | Only nonzero sums survive, each once, whatever order the map yields them in |
| `Groups.DedupBy` | src/aggregate.rs:134 | Over an ascending list, merging neighbours that compare equal leaves each distinct value once |
| `Groups.ValuesOf` | src/aggregate.rs:122-138 | Sorting an array's elements and merging equal neighbours gives its distinct elements, once each, and null for none |
| `Groups.ExtendAll` | src/aggregate.rs:301-312 | One more key extends every combination by every value, each once |
| `Groups.ExpandKeys` | src/aggregate.rs:296-314 | The cartesian loop yields each group of a document exactly once |
| `Groups.KeysOrderIsTotal` | src/aggregate.rs:410-428 | On keys of given types the group map's order is antisymmetric and calls equal exactly the keys that differ at most in which sparse vector they hold |
| `Groups.KeysAreOrdered` | src/aggregate.rs:410-428 | On the keys of documents whose grouped attributes have one type each, the map's order is a total order of the classes of keys it can tell apart |
| `Groups.ClassesOnce` | src/aggregate.rs:224-238 | The combinations of one document reach each of its rows once |
| `Groups.RowsTellKeysApart` | src/aggregate.rs:410-428 | Different keys have different rows if and only if documents that no other key tells apart hold the same sparse vectors under the grouped attributes |
| `Aggregates.AccumulateHolds` | src/aggregate.rs:316-369 | If the running state stands for a set of documents, it stands for one more after one more: count, exact sum, integrality, minimum and maximum |
| `Aggregates.FinalizeMeans` | src/aggregate.rs:371-397 | A state standing for a set finishes to the aggregate of that set: integral sums whole, an average of nothing null, extremes stored values that nothing exceeds |
| `Aggregates.OneMeaning` | src/aggregate.rs:371-397 | A set of documents has one aggregate, so no feeding order can change an answer |
| `Figures.SumGrows` | src/aggregate.rs:325-343 | A sum starts from zero, and each document adds its own integer, instant or float, once |
| `Figures.AverageTimesCount` | src/aggregate.rs:385-391 | An average times the number of documents that have a value is their sum; without any it is null |
| `Figures.CountIs` | src/aggregate.rs:316-325 | A count of an attribute is the number of documents that have a value there |
| `Figures.ExtremesBound` | src/aggregate.rs:344-366 | A minimum is some document's value that no document's is smaller than, a maximum one smaller than no document's; of nothing, null |
| `Figures.RefusedIs` | src/aggregate.rs:325-337 | A document is refused exactly if a sum or an average is asked of an attribute where it holds something that is not a number |
| `Figures.RowHolds` | src/aggregate.rs:224-238 | A row is about exactly the documents with its key's value under each grouped attribute or, exploded, with that element |
| `Aggregates.FeedGroups` | src/aggregate.rs:224-238 | One document goes into each of its rows once and into no other, or the query fails exactly when an aggregate refuses it |
| `Aggregates.Aggregator.Feed` | src/aggregate.rs:224-238 | Fails exactly when an aggregate refuses the document; otherwise the state stands for the documents fed so far and this one |
| `Aggregates.Aggregator.Finish` | src/aggregate.rs:240-278 | Every value is the aggregate of all documents fed, or of those of one row, with one row for every class of keys that has a document, named by the key of one of them |
| `Aggregates.RowCountsAddUp` | src/aggregate.rs:240-278 | Grouped by plain attributes, the counts of the rows add up to the number of documents, merged rows included |
| `Aggregates.ExplodedCounts` | src/aggregate.rs:122-138 | Grouped by ForEachUnique, the row of an element counts exactly the documents that list it, once each, and no row is missing |
| `Aggregates.SparseKeysMerge` | src/aggregate.rs:410-428 | Two documents with different sparse vectors under the grouped attribute are counted in one row |
| `Aggregates.FeedAll` | src/store.rs:985-987 | Feeding the accepted documents of one materialized map in any order feeds exactly those |
| `Aggregates.AggregateShards` | src/store.rs:964-992 | Feeding shard after shard gives the aggregates and groups of all matching documents that the loop reaches, or fails, exactly when an aggregate refuses one of them |
| `Aggregates.FedIsWhole` | src/store.rs:976-984 | With as many shards as the schema says, or none yet, the loop reaches every live document |
| `Aggregates.OneShardUndercounts` | src/store.rs:976-984 | With one resident shard the loop reaches every live document, as it is now, if and only if the tail's records for the schema's other shards change nothing |
| `Aggregates.AccumulateAll` | src/aggregate.rs:233-235 | All running states of a group take the document, or the query fails exactly when one aggregate refuses it |
| `Totals.TypedIsAskable` | src/aggregate.rs:344-366 | Minima and maxima over declared attributes other than sparse vectors can be asked of whatever a typed namespace stores |
| `Totals.TypedIsGroupable` | src/aggregate.rs:410-428 | Whatever a typed namespace stores has one type under each grouped attribute |
| `Totals.AggregateNamespace` | src/store.rs:961-993 | In every reachable state whose shard count is the schema's, an aggregation equals the aggregate of the matching documents of the whole log, or fails, exactly when an aggregate refuses one of them |
| `Totals.EarlyCompaction` | src/store.rs:1331-1361 | Compacting an empty namespace before its first write leaves a single, empty shard |
| `Totals.AggregationMissesDocuments` | src/store.rs:976-984 | After that, a first write that asks for more shards reaches a state where the aggregation loop sees no document though one is live |
| `Totals.OneShardReaches` | src/store.rs:976-984 | In every reachable state with one resident shard, aggregation reaches exactly the replay of the log if and only if the tail's records for other shards change nothing |
| `Ivf.FindNearest` | src/index.rs:154-165 | The scan finds the first of the closest centroids |
| `Ivf.StrideAt` | src/index.rs:125-130 | The evenly strided starting points are documents' own vectors, without running past the end |
| `Ivf.KMeans` | src/index.rs:119-152 | The rounds of assigning and averaging in place compute the mean-or-stay iteration from the strided start, for a clamped number of centroids |
| `Ivf.MovedIsMean` | src/index.rs:131-150 | A round moves each centroid to the mean, coordinate by coordinate, of the vectors it attracts; one that attracts none stays |
| `Lloyd.RoundImproves` | src/index.rs:131-150 | Under the squared distance a round never makes the documents farther from their nearest centroids |
| `Lloyd.RoundsImprove` | src/index.rs:131-150 | However many rounds are run, no later one is worse than an earlier one or than the start |
| `Metrics.DistanceInvertsScore` | src/doc.rs:414-439 | For each metric the order by distance is exactly the inverse of the order by score, whichever way round the two vectors are given |
| `Metrics.DotPicks` | src/doc.rs:606-608 | Beside a vector with a single one the dot product is the coordinate there |
| `Metrics.DotIsBounded` | src/doc.rs:606-618 | The inequality of Cauchy and Schwarz, which bounds cosine similarity |
| `Metrics.CosineIsBounded` | src/doc.rs:615-618 | Cosine similarity is between minus one and one, one for a vector beside itself, and zero for one without length |
| `Metrics.CosineIgnoresScale` | src/doc.rs:615-618 | Scaling a vector does not change its cosine similarity |
| `Metrics.CosineTimesLengths` | src/doc.rs:615-618 | Cosine similarity times the two lengths is the dot product |
| `Metrics.OwnVectorScoresHighest` | src/doc.rs:417-425 | By distance or by angle nothing scores higher for a query than its own vector, by distance nothing else as high; by dot product the score grows with the length |
| `Ivf.StillNearest` | src/index.rs:102-112 | Dropping other centroids does not change which one is nearest, ties included |
| `Ivf.OneClusterEach` | src/index.rs:97-112 | Every document stands in exactly one cluster, that of its nearest remaining centroid |
| `Ivf.Build` | src/index.rs:85-114 | Refuses exactly an empty or ragged input; otherwise clusters are non-empty, aligned with their centroids, and each holds exactly the documents nearest to it |
| `Ivf.UnevenIsRefused` | src/index.rs:89-92 | What `Build` refuses, besides no documents, is documents whose vectors differ in length |
| `Ivf.Probe` | src/index.rs:168-179 | Returns min(max(nprobe, 1), clusters) distinct clusters, nearest first, none farther than one left out |
| `Ivf.GatheredIsChosen` | src/store.rs:1233-1243 | Materializing the probed clusters gives the segment restricted to their documents |
| `Ivf.AllProbedIsExact` | src/store.rs:1233-1256 | Probing every cluster gives the brute-force answer, for any tail |
| `Ivf.OwnVectorIsSeen` | src/index.rs:168-179 | A document's own vector reaches its cluster at any nprobe when its nearest centroid is unique |
| `Ivf.RankProbed` | src/store.rs:1233-1256 | A clustered query ranks the probed documents after the tail, and everything when all clusters are probed |
| `Ivf.Gather` | src/index.rs:133-141 | The sums and counts of one round are those of the vectors each centroid attracts |
| `Ivf.Assign` | src/index.rs:97-100 | Every document goes to the group of its nearest centroid, in input order |
| `Codec.LeRoundTrip` | src/value.rs:232-293 | A little-endian field of n bytes reads back the number modulo its range |
| `Codec.LeBytes` | src/value.rs:232-293 | The least significant byte comes first |
| `Codec.TwosComplement` | src/value.rs:245-248 | A signed number is stored as the unsigned one equal to it modulo 2^64 |
| `Codec.TagsTellKinds` | src/value.rs:232-293 | The first byte of an encoded value tells its kind and nothing else |
| `Codec.KnownBytes` | src/value.rs:232-293 | Some encoded values, byte by byte: the kinds as the format numbers them, numbers in eight bytes, lengths in four |
| `Codec.KnownIds` | src/doc.rs:66-80 | Some encoded records and ids, byte by byte |
| `Codec.RecordKinds` | src/doc.rs:523-546 | The first byte of an encoded record is 0, 1 or 2, for an upsert, a delete or a patch |
| `Codec.ValueReads` | src/value.rs:232-348 | Every value whose counts and lengths fit is read back, and exactly its bytes are consumed |
| `Codec.IdReads` | src/doc.rs:66-97 | Every id is read back, and exactly its bytes are consumed |
| `Codec.RecordReads` | src/doc.rs:523-598 | Decoding inverts encoding on every record that fits, whatever bytes follow |
| `Codec.RecordFits` | src/doc.rs:548-598 | Whatever bytes decode to a record decode to one that fits its length fields |
| `Codec.RecordIsExact` | src/doc.rs:523-598 | A record is read back, whatever follows it, if and only if its counts and lengths fit the 16- and 32-bit fields they are cast to |
| `Codec.RecordExtends` | src/doc.rs:548-598 | A decoding that succeeds on some bytes succeeds alike on any longer ones, leaving the rest |
| `Codec.PrefixIsRejected` | src/doc.rs:548-598 | Every strict prefix of an encoded record is rejected |
| `Framing.Frame` | src/store.rs:126-134 | The buffer loop concatenates every entry behind its 32-bit length |
| `Framing.Unframe` | src/store.rs:141-161 | The cursor loop accepts exactly well-framed blobs, refusing a truncated header or body |
| `Framing.FramingIsExact` | src/store.rs:126-161 | Unframing inverts framing if and only if every entry is shorter than 2^32 bytes |
| `Framing.ObjectIsExact` | src/store.rs:126-161 | An object gives back the records written to it, in order, if and only if every record fits its length fields and its frame |
| `Framing.ObjectRoundTrip` | src/store.rs:126-161 | Writing records to an object and reading it back gives the same records exactly when each can be stored |

## Left out

- The HTTP server, the cache, the wire and compatibility layers, embedding, cost accounting and the drivers (src/server.rs, src/cache.rs, src/wire.rs, src/compat.rs, src/embed.rs, src/ops.rs, src/main.rs). A read from the cache is taken to be a read from the store.
- `destroy`, `branch`, `warm`, `verify_cas`, `metadata` and `open_store`: orchestration of requests. No namespace is destroyed during a run.
- `commit_batch` and `append`: they skip the schema, and the server does not use them.
- Manifest timestamps and byte counters (`stamp`, `unindexed_bytes` and the like), apart from the WAL sizes the read cap needs.
- A request takes effect, if it does, before its caller is told of an error: a conditional PUT still under way when its caller has given up is not modelled. The model's `Unknown` and `Dead` calls are those the source ends with an error of the store; neither looks whether the write went through.
- A failed PUT of a shard leaves its segment or nothing, a failed read of the second load is taken to fail at the load, and the first failure of a compaction ends it at once; the source's shards are written concurrently and the others' objects, which nothing will name, are finished first.
- A query that carries several of vector, text and sparse at once: the model's query is one of them.
- Two deadlines are parameters: the longest time from an actor's first PUT to its CAS, and from the collector's load to its clock reading. Nothing in the source enforces either; an actor that exceeds the first does not commit in the model.
- A manifest load and its remembering are one step for writers, compactors and the collector; a separate reader actor takes them in two steps, which is where the late load of `Reads` comes from. The reply to a won or lost writer's CAS, and to a won compaction's, is a step of its own; a lost compaction CAS, which remembers nothing, is one step with its reply.
- A shard's segment and its index objects are PUT at one instant, and shards one after another; the source issues the index objects, and the shards, concurrently.
- The collector's listing is folded into its deletions: each checks that its object exists and is old enough.
- `Layout`, `Fanout` and `Totals` read the objects ever PUT, which `Collection.StoreServesTheTruth` identifies with the objects in the store under a sufficient grace period.
- Liveness: whether a CAS is won within 100 attempts under contention. Claims about latency, recall or cost.
- Float rounding and overflow in scores, sums, means and distances; a count or sum that outgrows 64 bits; the final conversion of a sum to a float.
- NaN attribute values, which `AttrIndex::build` merges by their printed form; the model files floats by bit pattern.
- Tokenizer, stemmer, stop words, regex and glob compilation, UUID and datetime parsing, UTF-8, the logarithm and the shard hash: parameters. Case folding is inside them.
- The order of score lists before ranking, of terms inside an index and of rows inside a grouped result: sequences in the source, sets or maps in the model wherever no answer depends on it. Which of several keys that share a row names it depends on feeding order; the model says that it is one of them.
- The codecs of the attribute, text, sparse and centroid indexes: the same little-endian idiom as the record codec, without a further difficulty.
- `should_prefilter` divides floats; `Fanout.ShouldPrefilter` divides reals. Whichever path it chooses, what is proved of the answer holds.
- The query's JSON forms, attribute projection beyond carrying it along, and the flattening of aggregation groups.
- Documents without a vector and an index of dimension zero in the clustered path.
- `all_tokens`, `token_sequence` and `fuzzy` of the text index have no caller in the server at this commit; they are modelled as written.
- Planner.IdsMatching: asks that every comparison be faithful, because `AttrLimits.FaithfulIsExact` shows that the index cannot be trusted with any other.
- Fanout.QueryNamespace: takes the decoded index objects as given and asks that they describe the shards' documents; that building them gives such objects is `Fts.Build`, `Sparse.Build`, `AttrIndex.Build` and `Ivf.Build`, but the protocol's objects do not hold their bytes.
- Aggregates.Aggregator.Feed: asks that each grouped attribute have one type in all documents, which `Totals.TypedIsGroupable` proves of every typed namespace; over mixed types the source's key order is not transitive.
- Safety.LiveSetIsTheLog: is stated over guarded runs only, because `Overlap.StaleCheckIsExact` gives the runs in which it fails.
- Totals.AggregateNamespace: asks that the manifest have no shards or as many as the schema says, because `Totals.AggregationMissesDocuments` reaches a state where it has fewer and the answer is wrong; `Totals.OneShardReaches` is the exact condition with one shard.
