# FVOCI: a model of the archive, import, export, calendar and key-rotation cores

FVOCI is a workspace server for documents and tasks. Most of it is SQL and
request handling; this project models the parts that are algorithms, and proves
what they promise:

- **Native archives.** A captured project graph may be restored only if the
  validator accepts it. The validator is a row of loops (a three-colour search,
  ancestor walks, a closure, a path comparison, set collections); each is a
  method here, proved to accept exactly the graphs that a declarative statement
  describes. Restoring rewrites the author; the rewriting is proved to keep what
  was accepted acceptable.
- **Retained history.** The contiguous receipted tail, and the two length-framed
  hash preimages, proved uniquely decodable.
- **ZIP export.** A streaming zip32 writer, proved against an independent
  central-directory reader over every successful sequence of calls.
- **Import.** The CSV automaton, the Notion hierarchy, and the claim / compensate
  / retry protocol of the import worker as a state machine in which workers
  crash, answers get lost and leases expire.
- **Key rotation.** Re-sealing every stored secret under the active key while
  other writers keep committing and database calls fail.
- **Calendar.** iCalendar folding and escaping, and the binary time-zone reader.

Reading order: `Options`, `Bytes`, `Text`, `Utf8`, `Uuids`, `Sequences` and `Json`
hold shared vocabulary; every other file is one topic and stands on those.

## How the model is made

- Loops of the source are methods with loops; objects that the source updates in
  place are classes (`ZipStream`, `Hasher`, `Database`, `Store`); expression-style
  code is functions. Functions named in a method's `ensures` have their own
  meaning proved in lemmas beside it.
- Identities are 128-bit numbers with the printed and the accepted spellings of
  a UUID; JSON is a datatype; text is a sequence of characters, with its UTF-8
  octets where octets matter.
- SHA-256, AES-GCM, base64url and the JSON serialiser are values with stated
  laws, which `CipherWitness` shows to be consistent. That a ciphertext opens under
  one context only is an idealisation of a 16-octet tag; it is a separate
  hypothesis, and only statements about other contexts use it. The RFC 3339
  reader, calendar-date printing, Notion titles and the product's scalar field
  rules are parameters.
- The ZIP reader is a definition of its own, written from sections 4.3.7, 4.3.9,
  4.3.12 and 4.3.16 of PKWARE APPNOTE.TXT; the CRC is computed bit by bit.
- Integers are unbounded; where the source casts or bounds (zip32 fields, 64-bit
  sequence numbers, TZif sizes) the bound is written out and proved.
- The validator's refusals are one `false` (or one `None`), except where a caller
  distinguishes them (`ZipStream`, `CheckViewQuery`, `PurgedRefs`, rotation).

Four things the proofs show that a reader of the source might not expect:

- *The import worker's object write is not fenced.* Every row write is guarded by
  the lease, and every live row is named by the durable references in every
  reachable state. The object put is not. Usually that is harmless: purging a
  document journals the keys of its attachments, and the reclaim of journaled keys
  removes a late object. But a put that starts after the reclaim has acted on its
  key can leave an object that nothing leads to. A successor's clean-up
  (`ImportProtocol.StalePutLeaks`) or the sweep (`SweptPutLeaks`) gets there. That
  the job's references still list the key does not help: nobody reads those of an
  ended job, and a sweep with a failed row purge skips its objects. `PutIsExact`
  says that a put is harmless, over every run that may follow, exactly when its
  attachment row stands or its key is in the journal and no reclaim has begun on
  it; `EveryPutIsExact` says so for every reachable state. While the worker holds
  the lease and no user removes the document, its put meets that condition
  (`HolderPutIsSafe`).
- *A failed import can leave a document standing with no failing purge.* The worker
  undoes what it knows it created. If the commit of a new row succeeds and only its
  answer is lost, the worker undoes the rest and closes the job, and nobody reads
  the references again. `ImportOutcome.GiveUpIsExact` says that, as long as no purge
  fails, this is the only way; `LostAnswerLeavesRow` is such a run.
- *Undoing an import can fail with no failing call.* The database refuses to remove
  a document while another hangs below it. `Compensation.Store.Compensate` states
  the exact condition (every row below a named document is itself named, later);
  Notion imports meet it (`Notion.NewestFirstIsSafe`), a user's own document below
  an imported one breaks it (`Compensation.ForeignChildBlocks`).
- *Document parents need no cycle check.* Comparing each stored path with the
  parent's path plus the own label already makes paths grow along every edge, so
  an accepted graph is a forest.

## Model

| member | source | states |
|---|---|---|
| `Dependencies.ValidateDependencies` | src/native_archive.rs:1582-1624 | accepts exactly when the edges are well shaped (known, distinct tasks, no duplicate edge) and the directed graph has no cycle |
| `Dependencies.BuildEdges` | src/native_archive.rs:1584-1597 | succeeds exactly for well-shaped edges; the adjacency map then holds those edges and no others |
| `Dependencies.Explore` | src/native_archive.rs:1600-1622 | one start of the search: it fails only on a cycle, and otherwise leaves the start and all earlier nodes finished, every finished node pointing only at nodes finished before it |
| `Dependencies.Iterate` | src/native_archive.rs:1606-1621 | one turn of the loop keeps grey nodes equal to the stack path and finished nodes in finishing order, and moves a termination measure |
| `Dependencies.TakeSuccessor` | src/native_archive.rs:1607-1617 | a grey successor means a cycle; otherwise the search invariants survive a finished or a new successor |
| `Dependencies.GreyClosesCycle` | src/native_archive.rs:1608-1611 | a successor on the current path closes a cycle of the edge list |
| `Dependencies.FinishedMeansAcyclic` | src/native_archive.rs:1582-1624 | when every node is finished, no closed walk exists |
| `Comments.ParentFirstOrder` | src/native_archive.rs:2210-2240 | succeeds exactly when ids are unique and every parent chain ends at a top-level comment; the result is the recursive preorder, a permutation, parents before replies |
| `Comments.Traverse` | src/native_archive.rs:2224-2235 | the explicit stack visits exactly the recursive preorder |
| `Comments.IndexReplies` | src/native_archive.rs:2216-2223 | the index holds each comment's replies, reversed so that popping restores archive order |
| `Comments.CompleteMeansRooted` | src/native_archive.rs:2236-2239 | the final length test holds exactly when every parent chain reaches the top level |
| `Comments.PreorderHasNoDepthLimit` | src/native_archive.rs:2210-2240 | the preorder's depth parameter cuts nothing off |
| `Comments.ChildrenAre` | src/native_archive.rs:2216-2223 | the children of a parent are exactly its replies, in archive order, each once |
| `Ancestors.WalkEnds` | src/native_archive.rs:546-558 | one task's walk succeeds exactly when its parents form a finite chain of known tasks; it stops on cycles and on missing parents |
| `Ancestors.TaskParentsEnd` | src/native_archive.rs:545-558 | all walks succeed exactly when every task has such a chain |
| `Ancestors.ChainsMeanNoCycle` | src/native_archive.rs:545-558 | after acceptance no task is its own ancestor |
| `Ancestors.CloseUp` | src/native_archive.rs:1905-1918 | one upward walk that stops at visited nodes keeps the closure upward closed and only ever adds members of the true closure |
| `Ancestors.WikiClosureHolds` | src/native_archive.rs:1895-1921 | accepts exactly when the wiki documents are the upward closure of the backing and origin documents, cyclic parents included |
| `Ancestors.ClosureIsExact` | src/native_archive.rs:1895-1921 | stopping early at visited nodes loses nothing |
| `Documents.ValidateDocuments` | src/native_archive.rs:395-528 | accepts exactly the forests: unique ids, one top-level project document which is the root, every path the joined labels of its ancestor line of at most 20, lines staying inside the project or inside the wiki |
| `Documents.SingleRoot` | src/native_archive.rs:443-455 | exactly one project document has no parent, and it is the recorded root |
| `Documents.LineageExists` | src/native_archive.rs:505-520 | path equality alone gives every document a finite ancestor line whose labels are its path |
| `Documents.LineageUnique` | src/native_archive.rs:505-520 | a document has one ancestor line |
| `Documents.PlacedIsOk` | src/native_archive.rs:490-528 | conversely, a document placed by its ancestor line passes the source's per-document tests |
| `Documents.OneTree` | src/native_archive.rs:434-455 | project documents all descend from the root, wiki documents never do, and no document is its own ancestor |
| `TaskTime.ValidateTaskTime` | src/native_archive.rs:1626-1810 | accepts exactly the sound lists of entries, runs, segments, reservations, commands and audits; what is sound is stated apart from the tests the loops make |
| `TaskTime.CheckEntries` | src/native_archive.rs:1631-1662 | entries of the actor, open or with a length of whole seconds, unique ids, at most one open; the id map is exact |
| `TaskTime.CheckRuns` | src/native_archive.rs:1663-1685 | sound runs, unique ids, at most one unfinished |
| `TaskTime.CheckSegments` | src/native_archive.rs:1686-1711 | sound segments, unique ids, one open segment a run, one segment an entry |
| `TaskTime.CheckLegacy` | src/native_archive.rs:1712-1722 | reservations name distinct open entries of their task |
| `TaskTime.CheckCommands` | src/native_archive.rs:1729-1739 | command receipts of the actor, unique request ids, known runs |
| `TaskTime.CheckAudits` | src/native_archive.rs:1740-1808 | audits with unique ids whose typed references stay inside the selected records and the audit's task |
| `TaskTime.TestEntry` | src/native_archive.rs:1634-1657 | the milliseconds and seconds tests accept a closed entry exactly when it lasts its whole seconds, rounded down, and at least one; an open one exactly without a length |
| `TaskTime.TestRun` | src/native_archive.rs:1665-1682 | one of three states, stopped exactly with a stop time, which is not before the start |
| `TaskTime.TestSegment` | src/native_archive.rs:1690-1706 | of its run's task and user, not ending before it starts, linked to an entry of its task only when it ended |
| `TaskTime.TestSide` | src/native_archive.rs:1772-1804 | an audit value's references are absent, or spell a record of its kind, a run and the entry column, each in the audit's task |
| `TaskTime.TestAudit` | src/native_archive.rs:1745-1805 | the audit's own columns and both its values are acceptable |
| `TaskTime.TimesAreConsistent` | src/native_archive.rs:1631-1711 | after acceptance every closed entry's seconds are its span divided by a second, and no run or segment ends before it starts |
| `TaskTime.AtMostOneActive` | src/native_archive.rs:1723-1728 | unfinished runs plus reservations are at most one |
| `TaskTime.OneOpenSegment` | src/native_archive.rs:1689-1711 | a segment belongs to exactly one run, of its own task, and a run has at most one open segment |
| `TaskTime.SegmentEntriesInjective` | src/native_archive.rs:1702-1706 | no entry comes from two segments, from another task or from an open segment |
| `TaskTime.AuditedRecordInTask` | src/native_archive.rs:1772-1796 | a record an audit names lies in the audit's task |
| `Purged.Admit` | src/native_archive.rs:2342-2368 | collects exactly the named non-live ids, or refuses because there are more than the limit |
| `Purged.PurgedRefs` | src/native_archive.rs:2327-2380 | the two collected sets are what is named and not live, within the limits and apart; each refusal has its reason |
| `Purged.CountIs` | src/native_archive.rs:2248-2280 | the counted references are exactly the places in the history that can hold one, whatever they hold |
| `Purged.HistoryRefsNamed` | src/native_archive.rs:2246-2262 | the collected history references are exactly the well-formed ids on either side of label and milestone changes |
| `Purged.ViewRefsNamed` | src/native_archive.rs:2298-2317 | the collected filters are exactly those of the views that parse |
| `Purged.ListOk` | src/native_archive.rs:636-643 | strictly ascending and apart from live rows and the other list |
| `Purged.CheckLists` | src/native_archive.rs:633-667 | accepts exactly the lists that satisfy the rules, when the references can be collected |
| `Purged.ListsAreExact` | src/native_archive.rs:624-675 | in an accepted archive a list holds exactly the non-live ids that history or views name: none missing, none padded |
| `Purged.ListsAreDetermined` | src/native_archive.rs:624-675 | two accepted archives that agree on everything else have the same lists |
| `Purged.CollectedIsListed` | src/native_archive.rs:649-667 | what the collector returns for an accepted archive is what its lists hold |
| `Activity.MapActivityChanges` | src/native_archive.rs:2490-2513 | the nested in-place loops compute the mapped changes |
| `Activity.CheckChanges` | src/native_archive.rs:2392-2485 | one pass accepts exactly the portable changes: objects of exactly a recorded field and its two sides, distinct fields, each side of the field's shape |
| `Activity.SideIs` | src/native_archive.rs:2446-2483 | the match accepts, for each of the fourteen fields, exactly the stored shape: a line, a flag, a preset word, one reference in scope or distinct references in scope |
| `Activity.SupportedIs` | src/native_archive.rs:2392-2485 | the length limit refuses nothing that the other rules accept |
| `Activity.MappedChangesSupported` | src/native_archive.rs:2392-2513 | supported changes stay supported against the destination actor |
| `Activity.MappedOnlyAssignees` | src/native_archive.rs:2490-2513 | only ids of assignee references change |
| `Activity.MappedChangesBack` | src/native_archive.rs:2490-2513 | mapping back gives the original with the actor's ids in their printed spelling, and so the original up to UUID spelling |
| `Activity.RespelledChanges` | src/native_archive.rs:2490-2513 | naming the actor anew changes the spelling of identities and nothing else |
| `Reactions.MapCommentReactions` | src/native_archive.rs:2187-2201 | the in-place loops compute the mapped reactions |
| `Reactions.SupportedIs` | src/native_archive.rs:2171-2183 | accepted exactly when every list under a product reaction is empty or the actor in an accepted spelling |
| `Reactions.MappedSupported` | src/native_archive.rs:2171-2201 | supported reactions stay supported for the destination actor |
| `Reactions.MappedOnlyActor` | src/native_archive.rs:2187-2201 | the same emoji with the same number of entries; only entries of the source actor change |
| `Reactions.MappedBack` | src/native_archive.rs:2187-2201 | mapping back gives the original with the actor in its printed spelling, and so the original up to UUID spelling |
| `Reactions.RespelledReactions` | src/native_archive.rs:2187-2201 | naming the actor anew changes the spelling of identities and nothing else |
| `Views.CheckViewQuery` | src/native_archive.rs:1424-1518 | no refusal exactly for acceptable queries, which is stated apart from the tests; the first failing custom filter decides the refusal |
| `Views.CheckCustomIs` | src/native_archive.rs:1470-1501 | for each field type exactly its values are accepted; a refusal is for something outside exactly when the field is unknown or a well-spelled option or person is not in scope |
| `Views.CheckSortIs` | src/native_archive.rs:1502-1509 | ordering by a field is accepted exactly for a known field of a scalar type |
| `Views.MapViewQuery` | src/native_archive.rs:1524-1546 | the in-place edit of a clone computes the mapped query |
| `Views.MappedQueryAcceptable` | src/native_archive.rs:1424-1546 | an acceptable query stays acceptable against the destination actor |
| `Views.MappedQueryKeepsRest` | src/native_archive.rs:1524-1546 | only the assignee and people values naming the actor change |
| `Views.MappedQueryBack` | src/native_archive.rs:1524-1546 | mapping back gives the original with the actor's values in their printed spelling, and so the original up to UUID spelling |
| `Views.RespelledQuery` | src/native_archive.rs:1524-1546 | naming the actor anew changes the spelling of people values and nothing else |
| `Uuids.ParseToString` | src/native_archive.rs:2494-2508 | the printed spelling of an identity is read back as it |
| `Uuids.ParseIs` | src/native_archive.rs:2494-2508 | a text is read as an identity exactly when it is one of its four spellings, in either letter case |
| `History.CheckCanonicalHistory` | src/native_history.rs:197-237 | accepts exactly when the tail is numbered cutoff+1 to tail_seq, every row has its exact receipt, and the receipts are in range with distinct operations |
| `History.TailOpsAreDistinct` | src/native_history.rs:197-237 | acceptance makes the tail's operation ids pairwise distinct |
| `History.OneReceiptPerRow` | src/native_history.rs:197-237 | every row of an accepted tail has one receipt of its operation, with its number, length and hash |
| `History.ReceiptsDeterminePayloads` | src/native_history.rs:197-237 | under a collision-free hash the receipts determine every operation's payload |
| `History.ValidateState` | src/native_archive.rs:799-867 | one state's timestamps, numbers, entry names, payloads and receipts: accepted exactly when they agree |
| `History.ValidateStates` | src/native_archive.rs:797-867 | the loop over all states: accepted exactly when each is sound, for a known document or task, and no target has two; the expected entry names are exactly those the states account for |
| `History.EntriesAreDistinct` | src/native_archive.rs:797-867 | no two snapshots and updates of accepted states share an archive entry |
| `History.DecimalIs` | src/native_archive.rs:821-826 | update entries are named by their number in decimal, without a leading zero |
| `History.ArchivedStateIsCanonical` | src/native_archive.rs:797-867 | every such state is restored to a history the canonical check accepts |
| `Framing.UnframeOfStream` | src/native_history.rs:165-168 | length frames are read back exactly |
| `Framing.BindingIsDecodable` | src/native_history.rs:159-191 | the capture binding's octets determine the capture although its lists carry no counts |
| `Framing.BindingInjective` | src/native_history.rs:159-191 | equal binding preimages come from equal captures |
| `Framing.ContentIsDecodable` | src/native_history.rs:259-333 | the content digest's octets determine everything it covers, optional fields included |
| `Framing.ContentInjective` | src/native_history.rs:259-333 | with an injective serialiser equal digest preimages come from equal contents |
| `Framing.PreimagesAreSeparate` | src/native_history.rs:159-333 | no binding preimage is a digest preimage |
| `Framing.FeedBinding` | src/native_history.rs:159-191 | feeding the hasher field by field produces exactly the framed stream |
| `Framing.FeedContent` | src/native_history.rs:259-333 | the same for the content digest |
| `Crc.UpdateConcat` | src/export_zip.rs:192-199 | the CRC of two chunks in turn is the CRC of their concatenation |
| `Crc.CheckValue` | src/export_zip.rs:29-33 | the nine digits have the published check value of CRC-32 |
| `ZipNames.EntryNameIsNormal` | src/export_zip.rs:38-50 | every entry name is normal and exactly the normal names are left alone |
| `ZipNames.EntryNameIdempotent` | src/export_zip.rs:38-50 | normalising twice is normalising once |
| `ZipNames.BackslashIsSlash` | src/export_zip.rs:39 | a backslash separates segments like a slash |
| `ZipNames.NulIsAbsent` | src/export_zip.rs:39 | a NUL character is as good as absent |
| `ZipNames.EntryNameOfParts` | src/export_zip.rs:40-50 | segments joined by slashes become those other than empty, `.` and `..`, in order, and `file` when none is left |
| `ZipNames.EntryNameOf` | src/export_zip.rs:38-50 | these rules decide every name |
| `ZipNames.SafeNameIsSafe` | src/export_zip.rs:53-63 | a safe name is one trimmed normal segment and its own safe name |
| `ZipNames.SafeNameIs` | src/export_zip.rs:53-63 | the safe name is the segment after the last slash, trimmed, or `file` where that names nothing |
| `ZipNames.LastPartIs` | src/export_zip.rs:55 | the last segment is what stands after the last slash |
| `Zip.ZipStream.BeginEntry` | src/export_zip.rs:118-151 | exact error conditions, nothing changed on error; on success exactly the local header is put out and the entry is open |
| `Zip.ZipStream.WholeEntry` | src/export_zip.rs:153-190 | exact error conditions; on success exactly the local header with CRC and sizes and the data are put out and the entry recorded |
| `Zip.ZipStream.EntryData` | src/export_zip.rs:192-199 | exact error conditions; on success the chunk belongs to the open entry |
| `Zip.ZipStream.EndEntry` | src/export_zip.rs:201-219 | exact error conditions; never fails after clean data; puts out exactly the data descriptor of all chunks and records the entry |
| `Zip.ZipStream.Finish` | src/export_zip.rs:221-259 | exact error conditions; a reader of the bytes gets the written entries, and the local records tile the archive up to the directory |
| `Zip.ArchiveIsRead` | src/export_zip.rs:221-259 | any records followed by their directory and end record are read back in order, every field lossless |
| `Zip.EntryIsRead` | src/export_zip.rs:118-219 | a record the directory describes is read back: local header and data descriptor agree with the directory, the CRC with the data |
| `Zip.TilesMeansAdjacent` | src/export_zip.rs:118-219 | the first record starts at 0 and each ends where the next begins |
| `Zip.WriteArchive` | src/export_zip.rs:113-259 | a run of calls and a finish succeeds exactly when the calls nest and zip32 can hold the result; reading the bytes then gives the run's entries with normalised names and all data, and the records tile the archive |
| `Csv.ParseCsv` | src/import_job.rs:1072-1115 | the loop computes the automaton's rows without blank ones |
| `Csv.PrintedTableIsReadBack` | src/import_job.rs:1072-1115 | a table printed with any cells or parts of cells quoted and the others bare, any line break, with or without a last one and a byte order mark, is read back up to 10,000 rows without blank ones |
| `Csv.UnclosedQuoteEnds` | src/import_job.rs:1080-1091 | a quote that is never closed takes the rest of the text into its cell |
| `Csv.RetainIs` | src/import_job.rs:1114 | exactly the rows with a character that is not white space are kept, in order |
| `Notion.ParseNotionExport` | src/import_job.rs:1121-1175 | a name ending in `.htm` or `.html` is refused; otherwise the pages are the `.md` entries sorted by depth, the databases the `.csv` entries and the assets the rest, by name in either letter case, each in archive order, with its parent, title and data |
| `Notion.KindIs` | src/import_job.rs:1158-1169 | `.md` is a page, `.csv` a database, everything else an asset, in either letter case |
| `Notion.ExportIsLanded` | src/import_job.rs:1140-1175 | every entry lands once, by its name, in archive order, as a page, database or asset with the right stem, data and nearest enclosing page |
| `Notion.LandsOnce` | src/import_job.rs:1144-1170 | every entry lands in exactly one of pages, databases and assets, once, in archive order |
| `Notion.OwnerOf` | src/import_job.rs:1133-1142 | the outward walk finds the nearest enclosing page |
| `Notion.OwnerIsNearest` | src/import_job.rs:1128-1142 | the owner's folder encloses the path and no page's enclosing folder is longer; no owner means no page's folder encloses it |
| `Notion.FoldersAre` | src/import_job.rs:1128-1132 | the folder map leads to the last page of that folder |
| `Notion.EnclosingIsShallower` | src/import_job.rs:1128-1173 | a page whose folder encloses a path has strictly fewer path parts |
| `Notion.SortIsStable` | src/import_job.rs:1171-1173 | the sort is by depth, keeps all pages and the archive order within a depth |
| `Notion.StableSortUnique` | src/import_job.rs:1171-1173 | any stable sort by depth gives this very list |
| `Notion.ParentIsShallower` | src/import_job.rs:1121-1175 | a page's parent is a listed page, the nearest one, strictly shallower |
| `Notion.SortedParentsFirst` | src/import_job.rs:1171-1173 | after the sort every parent stands before its children |
| `Notion.PublishPages` | src/import_job.rs:720-745 | each document gets the document of its page's parent, created earlier |
| `Notion.LookupHits` | src/import_job.rs:727-730 | the parent lookup never misses |
| `Notion.ImportNotionPages` | src/import_job.rs:709-746 | parse, sort and publish together keep parents first for every export |
| `Notion.NewestFirstIsSafe` | src/import_job.rs:1209-1223 | whatever part of an import still stands, with its published parents and no other document below it, newest-first removal meets every child before its parent |
| `Notion.UndoNotionImport` | src/import_job.rs:1209-1223 | so an undisturbed import is undone completely when no call fails |
| `Notion.PlaceAsset` | src/import_job.rs:746-758 | an asset goes to its owner's document, a loose one to the first; it is dropped only without pages |
| `Notion.AssetOwnerIsListed` | src/import_job.rs:1163-1169 | an asset's owner is one of the published pages |
| `ImportProtocol.NextInv` | src/import_job.rs:255-400 | every action of workers, users, reclaim and sweep, crashes and expiries included, keeps the protocol invariant |
| `ImportProtocol.FilesStep` | migrations/postgres/060/07_attachments.sql:179-200 | an attachment row belongs to a live row; a key whose row goes enters the clean-up journal at once |
| `ImportProtocol.StaleStep` | src/db/import_jobs.rs:425 | whatever a worker without the token does, the job's invariant stands |
| `ImportProtocol.LiveRowsAreNamed` | src/db/import_jobs.rs:559-610 | after any run every live imported row is named by the durable references |
| `ImportProtocol.ClearedOnlyWhenGone` | src/import_job.rs:300-336 | references are dropped only by a reset or by a release after a completely undone transient failure, and only when no row they name is live |
| `ImportProtocol.ClearedObjectsAreJournaled` | src/import_job.rs:300-336 | an object whose reference is dropped has no attachment row; if every put was safe and it is still live, an untouched journal entry leads to it |
| `ImportProtocol.ClearedWithLiveObject` | src/import_job.rs:300-336 | a concrete run that drops the reference of a live object: the put falls between the purge of its key and the reset |
| `ImportProtocol.RetriesAreBounded` | src/import_job.rs:310-336 | a job is claimed at most twice, and a released one can be claimed again |
| `ImportProtocol.AttemptsCountClaims` | src/db/import_jobs.rs:361-426 | the attempt counter is the number of claims |
| `ImportProtocol.CompletedIsKept` | src/db/import_jobs.rs:635-683 | nothing a completed import created is ever undone by a late worker, a reclaim or the sweep |
| `ImportProtocol.SafeRunHoldsObjects` | src/import_job.rs:786-846 | while every object put is safe, every live object has its attachment row or a journal entry that no reclaim has acted on |
| `ImportProtocol.PutKeepsObjects` | src/import_job.rs:817-823 | a put keeps every live object held exactly when it is safe |
| `ImportProtocol.EveryPutIsExact` | src/import_job.rs:817-823 | the exact condition holds at every put of every run from the initial state |
| `ImportProtocol.KeptForGood` | src/db/attachments.rs:1893-1998 | an object that is held, with no put of it under way, is held in every later state in which it is live |
| `ImportProtocol.MarkNeedsRow` | src/import_job.rs:829-846 | after a put a worker goes on exactly when it holds the lease and the attachment row stands |
| `ImportProtocol.PutIsExact` | src/import_job.rs:817-823 | some run after a put abandons its object exactly when, at the put, neither an attachment row nor a journal entry untouched by a reclaim holds the object; references alone never make a put harmless |
| `ImportProtocol.HolderPutIsSafe` | src/import_job.rs:786-823 | over any run from the reservation on, the put of the worker that still has the token is safe unless a user removes the document or the attachment |
| `ImportProtocol.OthersKeepObjects` | src/db/attachments.rs:1893-1998 | every other action, reclaiming, giving up and sweeping included, keeps for every live object an attachment row or an untouched journal entry |
| `ImportProtocol.UnsafePutCanLeak` | src/import_job.rs:817-823 | after any unsafe put some run, perhaps with a crash or a failing purge, abandons the object, whatever the references say |
| `ImportProtocol.StalePutLeaks` | src/import_job.rs:786-846 | a concrete run that loses an object: document, reserved key, expiry, clean-up by the successor, reclaim, and only then the put, whose finaliser is refused; the job still completes |
| `ImportProtocol.SweptPutLeaks` | src/db/import_jobs.rs:728-765 | a concrete run without a successor: sweep, reclaim, then the put; the failed job's references still list the object and nothing leads to it |
| `ImportProtocol.AbandonedStays` | src/import_job.rs:786-846 | after any further run such an object is still there, and no row, journal entry, running job or unfinished sweep leads to it |
| `ImportOutcome.CompensatedIsGone` | src/import_job.rs:300-336 | after any run, when a worker gives up or releases the job with no failed purge, nothing it created is there any more, whatever the failure was |
| `ImportOutcome.GiveUpIsExact` | src/import_job.rs:300-366 | of a job given up after its own work was undone without a failed purge (and not after a failed clean-up of an earlier attempt), a row is left exactly when the answer to its creation got lost, users' removals aside |
| `ImportOutcome.LostAnswerLeavesRow` | src/import_job.rs:300-366 | a concrete run: the create commits, its answer is lost, the job fails and the document stands |
| `ImportOutcome.CompletedIsWhole` | src/import_job.rs:268-289 | a completed import's rows are exactly those its last worker created, users' removals aside, and its references name them |
| `ImportOutcome.JobEnds` | src/db/import_jobs.rs:635-765 | a job ends once, completed or failed by the lease holder or failed by the sweep after the lease ran out |
| `ImportOutcome.HolderRetries` | src/import_job.rs:310-336 | after a compensation the job is released exactly for a transient failure or an incomplete clean-up on the first claim, and given up otherwise |
| `ImportOutcome.OnlyReportedIsRetried` | src/import_job.rs:310-336 | a job is released only after a failure reported as transient or a failed clean-up, never after a lost answer, a database error or a vanished row |
| `ImportOutcome.SweptIsGone` | src/import_job.rs:1242-1285 | a sweep without a failed purge leaves no row of the import, whatever late workers do |
| `ImportOutcome.ObjectsGoLast` | src/import_job.rs:1186-1235 | over every run, no clean-up, compensation or sweep removes the object of an attachment row that stands |
| `ImportOutcome.RetryStarts` | src/import_job.rs:310-336 | after a release the next worker starts at once exactly when everything was undone after a transient failure, and otherwise cleans up first |
| `ImportOutcome.LeftoversAreCounted` | src/import_job.rs:1186-1235 | a compensation goes on after a failed purge: when it is over, no more rows are left than purges failed |
| `ImportOutcome.NeverStuck` | src/import_job.rs:1186-1235 | a compensation is over exactly when nothing is left that it may purge |
| `ImportOutcome.OneWayOn` | src/import_job.rs:300-400 | a compensating worker has exactly one way on: another purge, a reset after a clean clean-up, an undo after a failed one, or the end of the attempt |
| `ImportOutcome.LeaseFences` | src/db/import_jobs.rs:425 | a worker without a running lease changes nothing in the job's row and makes no document, task or attachment row; told so, it stops and undoes nothing |
| `Compensation.Store.PurgeDocument` | src/db/import_jobs.rs:805-851 | a document goes together with its attachment rows unless the call fails or a row below it stands (the foreign key of migrations/postgres/060/06_documents.sql:35-37); a missing one is no failure |
| `Compensation.Store.PurgeTask` | src/db/import_jobs.rs:859-925 | the children are detached, so nothing but a failing call keeps a task |
| `Compensation.Store.PurgeTasks` | src/import_job.rs:1194-1208 | removed, skipped and failed tasks add up, exactly the removed tasks' keys are collected, and exactly their children lose their parent |
| `Compensation.Store.PurgeDocuments` | src/import_job.rs:1209-1223 | the loop goes on after a failure; whatever fails, every removed document went after all rows below it; without failing calls it succeeds exactly when those rows are listed, and later |
| `Compensation.NextRemovable` | src/import_job.rs:1209-1223 | while nothing has failed, the next document can go, or is gone, exactly when the rows below it are listed after it |
| `Compensation.ForeignChildBlocks` | src/db/import_jobs.rs:831-836 | a row that a user hung below an imported document keeps it from being undone |
| `Compensation.OrderMatters` | src/import_job.rs:1209-1223 | parent and child go in creation order reversed, and not in the other order |
| `Compensation.Store.Compensate` | src/import_job.rs:1186-1235 | touches only what is named; no document goes before a row below it; objects wait for every row; no failure means everything named is gone; without failing calls it succeeds exactly when every row below a named document is named after it |
| `Compensation.Store.CompensateTwice` | src/import_job.rs:1186-1235 | compensation is idempotent: once it went through, the second pass finds every row gone and changes nothing |
| `SecretBox.CapturesIs` | src/secret_box.rs:21-23 | the greedy match returns the groups exactly when the expression matches, and they are unique |
| `SecretBox.KeyIdIsCaptured` | src/secret_maintenance.rs:83-91 | `key_id` is the expression's first group |
| `SecretBox.OpenUsesKeyId` | src/secret_box.rs:68-90 | `open` depends on the keyring only through the key `key_id` names; a missing key is that one |
| `SecretBox.SealOpens` | src/secret_box.rs:48-90 | a sealed value names the active key and opens to the plaintext under its context |
| `SecretBox.OneContext` | src/secret_box.rs:37-39 | with an ideally binding cipher a value opens under no other context |
| `CipherWitness.LawsHaveAModel` | src/secret_box.rs:48-90 | one cipher and coder satisfy every law the model asks for |
| `Rotation.PlaintextSurvives` | src/secret_maintenance.rs:308-360 | over any run and any interleaving, a row that no other writer changes opens to the same value throughout |
| `Rotation.CurrentStays` | src/secret_maintenance.rs:308-360 | over any interleaving, a row under the active key stays so unless another writer stores it under another |
| `Rotation.SealReseals` | src/secret_maintenance.rs:325-353 | re-sealing what was opened keeps the value |
| `Rotation.ResealsEverywhere` | src/secret_maintenance.rs:325-353 | with an ideally binding cipher old and new value agree under every other context too |
| `Rotation.Database.Interleave` | src/secret_maintenance.rs:214-218 | other writers' commits apply except to rows this transaction has locked |
| `Rotation.Database.List` | src/secret_maintenance.rs:94-176 | the first hundred rows after the cursor in id order, none skipped |
| `Rotation.SelectPage` | src/secret_maintenance.rs:94-176 | the page is ascending, inside the class, after the cursor, and complete up to its last row |
| `Rotation.Database.Replace` | src/secret_maintenance.rs:179-212 | compare-and-set: replaces exactly when the stored value is still the one read |
| `Rotation.Database.Commit` | src/secret_maintenance.rs:354-356 | a batch becomes visible at once or not at all, also when the answer is lost, and only re-seals; after an acknowledged commit every written row is under the active key, whatever others did meanwhile |
| `Rotation.Database.AuditSealed` | src/secret_maintenance.rs:363-380 | writes nothing; undisturbed, counts exactly the values that do not open |
| `Rotation.Database.RotateRow` | src/secret_maintenance.rs:325-353 | a row is replaced exactly when it is not under the active key yet; otherwise nothing is written; a changed or unopenable row ends the run |
| `Rotation.Database.RotateBatch` | src/secret_maintenance.rs:319-357 | beside other writers, every row up to the last one listed is under the active key unless one of them put it under another; undisturbed, exactly those rows are, with the counts |
| `Rotation.Database.Rotate` | src/secret_maintenance.rs:308-360 | a failed preflight writes nothing; beside any other writers, success means that a row is not under the active key only if one of them stored it so during the run, and every old row they spare is under the active key and opens to its old value; undisturbed, changed + unchanged is the row count, and it succeeds exactly when everything opens |
| `Rotation.SettledEnds` | src/secret_maintenance.rs:308-360 | once the cursor has passed every class: the rows others spare are present, under the active key, with their old plaintext |
| `Rotation.RotatedIsStable` | src/secret_maintenance.rs:301-360 | rotating rotated rows changes nothing |
| `Rotation.Database.RotateTwice` | src/secret_maintenance.rs:301-360 | a second run reports no change |
| `Ics.UnescapeOfEscape` | src/ics.rs:17-24 | reading an escaped value gives it without carriage returns; it holds no raw line break |
| `Ics.EscapeFirst` | src/ics.rs:17-24 | the five replacement passes escape each character once |
| `Ics.CutPoint` | src/ics.rs:65-75 | the cut is the last character boundary within the budget; the fallback for no boundary is dead |
| `Ics.FoldLine` | src/ics.rs:56-84 | the folded octets are the line cut into pieces of whole characters within 75 octets, each cut as late as the budget allows |
| `Ics.RenderIcs` | src/ics.rs:209-239 | every physical line fits 75 octets, unfolding gives exactly the content lines, and a reader of those finds exactly the dated tasks |
| `Ics.EventsAreRead` | src/ics.rs:209-239 | an independent reader finds one event a dated task, in order, with its identity, its first day, the day after its last day, and its title without carriage returns |
| `Ics.EventDays` | src/ics.rs:30-54 | the first day is start, due date or due day, the last is due date, due day or start, whichever is there first |
| `Ics.BodyUnfolds` | src/ics.rs:209-239 | any body of folded lines unfolds to those lines |
| `Ics.BodyFits` | src/ics.rs:209-239 | every physical line of such a body is whole characters in at most 75 octets |
| `Tzif.LayoutOf` | src/ics.rs:120-147 | a located data block lies inside the file and all sizes fit 64 bits |
| `Tzif.ParseTzifOffset` | src/ics.rs:120-167 | every index is inside the input, for every input; the result is the located block's offset |
| `Tzif.FindOffset` | src/ics.rs:148-166 | the loop finds the type in force after the last transition at or before the instant |
| `Tzif.EncodedFileIsRead` | src/ics.rs:120-194 | for any version 1 or 2+ file with ascending transitions the result is the offset of the last transition at or before the instant, or of type 0 before the first |

## Left out

- Per-field rules of the archive validator (titles, names, dates, sort keys, document and task numbers, MIME types, body schema) and its size limits: each is one branch.
- The parts of the archive validator for workflows, milestones, labels, attachments, collections, document tags, Zotero records and personal-input receipts: membership tests over the same id sets.
- Which refusal (`Invalid`, `Unsupported`, `Limit`) the graph loops return; acceptance is exact, the error kind is not distinguished.
- Dependencies.ValidateDependencies: the order in which start nodes are tried is any order, where the source iterates a sorted map; acceptance does not depend on it.
- Purged.CheckLists: `binary_search` in the other list is membership, which it is whenever the other list passes its own test of the same check.
- TaskTime.ValidateTaskTime: leap seconds in `DateTime` subtraction are not modelled; instants are nanoseconds.
- Views.CheckViewQuery: queries arrive parsed; the JSON parser and printer of view configurations are not part of this model.
- Notion.HasSuffix: works on characters; the source compares the last octets after a character-boundary test, which agree because the suffixes are ASCII.
- Notion title cleaning, MIME sniffing, task columns and member matching: local string functions.
- ImportProtocol.UnsafePutCanLeak: the machine has one job row, purges rows in any order, and any purge may succeed or fail, where the database refuses a document with a row below it (the order and the refusal are in `Compensation`). Safety over all runs covers the real order; the run this lemma builds may need a crash or one failing purge.
- ImportProtocol.PutIsExact: the put is one action; a purge aborts an upload under way, so a put that a purge falls into counts as refused. Preview keys, upload sessions and the retry delay of the journal are left out.
- The SQLite-family backend, the native-archive import runner, the synchronous markdown import and deferred events.
- Rotation.Database.Rotate: the context of a value is a function of its row's identity columns, which no writer of the product changes.
- Rotation: the audit report's per-key counts and the password-pepper inventory; a sealing failure of the cipher itself.
- Ics: date arithmetic and printing, and the choice of the zone file, are parameters; CalDAV answers are left out.
