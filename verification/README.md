# agent-discover in Dafny

agent-discover is an MCP gateway. It installs other MCP servers, indexes their tools, ranks them for a query,
proxies calls to them over pooled connections, and quarantines a server whose tools change after they were accepted.
This project models that behaviour and proves what it is meant to guarantee.

| module | what it models |
|---|---|
| `EditDistance`, `Repair` | the bounded edit distance and the typo repair built on it |
| `Ranking`, `Vocabulary`, `RankerCache`, `Search` | the scores of a query, the ranker's snapshot and its cache, search over the ranking |
| `ToolIndex`, `Catalog` | the stored tools of a server: the diffing save, removal, the generation counter; installs, saves and uninstalls side by side |
| `ToolHash`, `Pins`, `HashSet` | canonical JSON and tool hashes, pinned tools and drift, the digest an approval names |
| `Lifecycle` | install, index, pin, quarantine, approve, enable, disable, uninstall, and the tools-changed listeners |
| `Pool`, `Elicitations` | the connection pool, its counters and the questions queued for the pane |
| `McpServer` | questions an upstream asks in the middle of a call, parked between downstream rounds |
| `Registry` | the mirror of the MCP Registry and its retried sync |
| `SecretStore`, `Masking`, `AuditLog` | secrets in a keychain with a size limit, masking of recorded arguments, retention and paging of the log |
| `Common`, `JsText`, `Json` | option and result types, JavaScript strings, JSON values |

## How it is modelled

A class of the program is a class here: its fields are the tables and maps that its methods update. Each method is
proved against functions on values, and the guarantees are lemmas about these functions. JavaScript strings are
sequences of UTF-16 code units, numbers of the ranker are reals, a foreign failure is a `Result` or an outcome.

`Lifecycle`, `Catalog`, `Pool` and `McpServer` are concurrent. There a step is the code between two awaits; `May` says when a step
can happen, `Step` what it does, and the theorems hold for every run of steps, that is for every interleaving. What an
upstream, the clock or a client does is a free choice of a step. The methods of the classes `ServerLifecycle`,
`ConnectionPool` and `ParkedCalls` are these stretches of code; each is proved to do exactly its step.

`Lifecycle` looks at servers by name, with their pins and listeners; `Catalog` looks at the tables under them, where a
save and an uninstall hold on to the id they have read. `Lifecycle.Commit` takes what `ToolIndex.Commit` has stored: rows with distinct names, and
an empty diff only if the name-to-hash map stayed as it was (`ToolIndex.EmptyDiffKeepsHashes`). Server ids are never
reused and pins go with their server (`src/storage/database.ts:175-176`, `src/storage/database.ts:399-403`), so pins are
filed under the server itself.

## Where the code differs from what it says

Named with each point are a lemma at an input that shows it and the lemma or contract that says exactly when it happens;
where only one of the two is named, it is the latter.

- `editDistance` answers max + 1 for an empty `b` and a short non-empty `a` (`src/domain/ranker.ts:119`):
  `EditDistance.BoundedIsDistance`.
- `repair` can take a word just outside its tolerance, because the search starts at max + 1 with frequency 0
  (`src/domain/ranker.ts:194-195`): `Repair.RepairsToLoneLongWord`, exactly `Repair.Repair`.
- The comment at `src/domain/tool-index.ts:117` calls a changed definition dirty; a changed title or output schema alone
  is not in the hash and is not stored: `ToolHash.TitleIsNotHashed`, `ToolIndex.NewTitlesAreNotStored`. What counts is
  exactly what `ToolHash.HashIsDefinition` compares.
- A member called `__proto__` is not hashed (`src/domain/tool-hash.ts:17`): `ToolHash.ProtoMemberIsNotHashed`, exactly
  `ToolHash.CanonicalIsComplete`.
- The search table is meant to have one row per tool row. A save reads the stored rows, waits for the vectors, and then
  updates by id (`src/domain/tool-index.ts:100-173`); if the server is uninstalled while it waits
  (`src/domain/lifecycle.ts:252-260`), the updates find no row but their search rows are inserted all the same, for good.
  `Catalog.UninstallDuringSave`, exactly `Catalog.OrphansExactlyIfStranded`. Such a row can take a place in a search:
  `Search.StrangerTakesAPlace`, exactly `Search.OverfetchIsEnoughExactly`.
- A transport that closes before its `open` has gone on is pooled all the same, since nobody listens for that yet
  (`src/domain/pool.ts:271-296`): `Pool.DeadClientIsPooled`, exactly `Pool.PooledIsNotClosed`.
- Two uninstalls of one name: the slower one removes the server installed in between, and its tools go by cascade without
  a new generation, so the ranker keeps a stale snapshot (`src/domain/lifecycle.ts:253-257`,
  `src/storage/database.ts:197`): `Catalog.SecondUninstallTakesAnother`, `RankerCache.SecondUninstallStales`, exactly
  `Catalog.StepMovesGeneration` and `RankerCache.CoherentExactlyInUnstaledRuns`.
- A tool named like an inherited property (`constructor`, `toString`) that is not pinned makes `drift` throw
  (`src/domain/trust/pins.ts:124-126`), and `__proto__` is never pinned (`src/domain/trust/pins.ts:102`). The throw ends
  the index before the verdict is stored (`src/domain/lifecycle.ts:214-215`): an enabled server goes on showing tools
  nobody accepted, and the listeners are not told. `Lifecycle.ThrowingIndexGoesUnnoticed`; exactly
  `Lifecycle.PinnedThroughoutExactlySafeRuns` and, for the listeners, `Lifecycle.FailedIndexIsHeard`.
- Between the commit of an index and the storing of its verdict an enabled server shows tools nobody accepted
  (`src/domain/lifecycle.ts:212-215`): `Lifecycle.WindowShowsUnconsented`. An approval that succeeds in that gap leaves the
  server quarantined without drift: `Lifecycle.UntimelyApproval`, exactly `Lifecycle.ExactThroughoutExactlyTimelyRuns`.
- An enable that overtakes the uninstall of a disabled server is never announced as gone
  (`src/domain/lifecycle.ts:253-259`): `Lifecycle.OvertakenUninstall`, exactly `Lifecycle.UninstallIsHeard`.
- A server installed again under a name with a running open, or with a connection that a `connect` during the uninstall
  has left, is served by the old configuration (`src/domain/pool.ts:251-297`, `src/domain/lifecycle.ts:252-260`):
  `Pool.ReinstallKeepsOldConfig`, `Pool.LeftoverConnectionIsKept`, exactly `Pool.UpToDateExactlyInCleanRuns`.
- A question pushed by a client that is no longer pooled is routed by the connection pooled under its name
  (`src/domain/pool.ts:412`): `Pool.LatePushReachesTheSuccessor`, exactly `Pool.PushOfAnotherClient`.
- A question queued when the result of its call is ready is dropped (`src/mcp/server.ts:209-213`), and one pushed after a
  timeout stays queued for good (`src/mcp/server.ts:227-231`): `McpServer.ResultDropsQueuedQuestion`,
  `McpServer.TimeoutStrandsTheNextQuestion`, exactly `McpServer.EveryQuestionIsAnsweredOrLeftBehind`.
- Hashes glued by a newline, or one empty hash, have the digest of other hashes (`src/domain/trust/pins.ts:42`):
  `HashSet.GluedHashesDigestAlike`, `HashSet.EmptyEchoDigestsAsNone`, exactly `HashSet.DigestMatchesExactly`.
- When a sync reaches its page limit the cursor is stored although pages remain (`src/domain/registry.ts:171-172`); the
  contract of `Registry.RegistryMirror.DoSync` says exactly when.
- A short secret that begins with the marker of a head entry is not read back, unless what follows reads as 0
  (`src/domain/trust/secret-store.ts:82-106`): `SecretStore.ReadBackExactly`.
- Masking leaves a secret in some text, and is not idempotent, exactly for secrets that begin or end with a star or hold
  the mask (`src/domain/trust/audit.ts:60`): `Masking.StarredSecretGrowsMask`, exactly `Masking.RemovedExactlyIfFirm` and
  `Masking.IdempotentExactlyIfFirm`. A secret such as `p*ss` is removed for good.

## Model

| member | source | states |
|---|---|---|
| `EditDistance.EditDistance` | src/domain/ranker.ts:113-131 | the in-place table with both early exits returns exactly the bounded distance, for all strings and all bounds |
| `EditDistance.BoundedIsDistance` | src/domain/ranker.ts:113-131 | the bounded distance equals the distance whenever that is within the bound, if and only if `b` is not empty, `a` is empty or `a` is longer than the bound; a distance above the bound always gives a value above it |
| `EditDistance.DistanceIsCheapestScript` | src/domain/ranker.ts:112-125 | the recurrence is the least cost of keep, replace, delete, insert and adjacent-transpose scripts that turn `a` into `b` |
| `EditDistance.NoCheaperScript` | src/domain/ranker.ts:121-125 | no edit script between two prefixes costs less than the recurrence says |
| `EditDistance.CheapestScript` | src/domain/ranker.ts:121-125 | some edit script costs exactly what the recurrence says |
| `EditDistance.AtLeastLengthGap` | src/domain/ranker.ts:114 | the distance is at least the difference in length, so the length exit is sound |
| `EditDistance.RowStaysAbove` | src/domain/ranker.ts:119-128 | when all columns of a row but the first exceed the bound, so do those of the next row, although a transposition reaches back two rows and the first column is not looked at |
| `EditDistance.RowAboveIsFinal` | src/domain/ranker.ts:128 | a row above the bound puts the final distance above it |
| `EditDistance.FillCell` | src/domain/ranker.ts:121-125 | one cell becomes the recurrence value and no other cell changes |
| `EditDistance.FillRow` | src/domain/ranker.ts:119-127 | a row becomes the recurrence values; its minimum is above the bound exactly when every column but the first is |
| `Repair.Repair` | src/domain/ranker.ts:190-206 | the answer is the term or an eligible word; with a word in reach it is one of least distance and, of those, greatest document frequency, whatever the iteration order; it is within the tolerance if and only if the term is left alone, a word is in reach, or no word just outside can be taken |
| `Repair.LongWordIsJustOutside` | src/domain/ranker.ts:194-199 | every eligible word longer than the tolerance allows has the bounded distance tolerance + 1, so it ties with the initial best |
| `Repair.RepairsToLoneLongWord` | src/domain/ranker.ts:190-206 | a vocabulary of one such word makes it the answer although it is outside the tolerance |
| `Repair.WhatIsRepaired` | src/domain/ranker.ts:191-197 | terms under four units, known or with a digit are left alone; candidates have three units or more and the same first one; terms of seven units or more may be two edits away, others one |
| `Ranking.Rank` | src/domain/ranker.ts:159-187 | a ranking of the final scores exists, and the answer is the first `limit` of it, whatever order the maps are iterated in |
| `Ranking.RankingIsUnique` | src/domain/ranker.ts:183-186 | two lists of all scores by score descending, then id ascending, are equal |
| `Ranking.ThereIsOneRanking` | src/domain/ranker.ts:183-186 | every set of scores has exactly one such list |
| `Ranking.SortHits` | src/domain/ranker.ts:183-184 | lists every score once, better score first, lower id first on a tie |
| `Ranking.RankingHasDistinctIds` | src/domain/ranker.ts:172-186 | no id occurs twice in a ranking |
| `Ranking.FinalIsUnit` | src/domain/ranker.ts:159-182 | every final score lies in 0..1 |
| `Ranking.Lexical` | src/domain/ranker.ts:209-220 | each BM25 row gets a score strictly between 0 and 1, and only those rows do |
| `Ranking.SaturationKeepsOrder` | src/domain/ranker.ts:218 | a better BM25 score stays strictly better after saturation |
| `Ranking.MinMax` | src/domain/ranker.ts:244-249 | finds the least and the greatest cosine |
| `Ranking.Dense` | src/domain/ranker.ts:243-252 | scores exactly the cosines above the least one, by their place between least and greatest |
| `Ranking.RescalingIsFaithful` | src/domain/ranker.ts:243-252 | dense scores lie in 0..1, 1 belongs exactly to the greatest cosine, and the order of the cosines is kept both ways |
| `Ranking.RescalingIsUnit` | src/domain/ranker.ts:250-252 | all dense scores lie in 0..1 |
| `Ranking.Fuse` | src/domain/ranker.ts:171-174 | the scores are the weighted sums over the tools of either side; without a dense side they are the lexical ones |
| `Ranking.FusedIsUnit` | src/domain/ranker.ts:171-174 | fusing two sets of scores in 0..1 with a weight in 0..1 stays in 0..1 |
| `Ranking.Named` | src/domain/ranker.ts:258-261 | the named servers are those with a name term in the query |
| `Ranking.BestOfServers` | src/domain/ranker.ts:262-266 | every server with a scored tool gets a score that one of its tools reaches and none exceeds |
| `Ranking.TopOf` | src/domain/ranker.ts:267 | finds the best of the servers' best scores |
| `Ranking.Route` | src/domain/ranker.ts:256-274 | every score is scaled by the factor of its server, with the true best of the server and of all; search rows without a tool row count as one server that is never named |
| `Ranking.FactorIsFraction` | src/domain/ranker.ts:270-271 | the factor lies in 0..1, and is 1 for the top server when it is not passed over by name |
| `Ranking.RoutingOnlyDamps` | src/domain/ranker.ts:268-273 | routing never raises a score and keeps it in 0..1 |
| `Ranking.RoutingKeepsServerOrder` | src/domain/ranker.ts:268-273 | routing never reorders two tools of one server |
| `Ranking.TopServerIsUntouched` | src/domain/ranker.ts:267-273 | with no server named, the scores of the server that has the best tool stay as they are |
| `Ranking.RoutingTakesTheBest` | src/domain/ranker.ts:262-273 | the factor of a tool depends on the best score of its server, the best of all, and whether only other servers are named |
| `Ranking.DampedIs` | src/domain/ranker.ts:270-272 | a score is multiplied by one less the boost times how far the server is behind, and by one less the mention weight if only others are named |
| `Ranking.Prime` | src/domain/ranker.ts:178-182 | the usage prior is applied to every score once, as `PriorIsExact` says |
| `Ranking.PriorIsExact` | src/domain/ranker.ts:179-181 | without calls a score stays; with calls it is raised by the weighted logarithm of the calls, by the cap, or to 1, whichever is least |
| `Ranking.MoreUsedComesFirst` | src/domain/ranker.ts:178-186 | of two tools with equal scores before the prior, the one with the larger prior comes first in the ranking, whatever the ids, while the other's is below the cap and its score below 1 |
| `Ranking.PriorIsCapped` | src/domain/ranker.ts:181 | the prior never lowers a score, adds at most its cap and stays in 0..1 |
| `Ranking.PriorFollowsCalls` | src/domain/ranker.ts:181 | of two equal scores the one with more calls does not end lower |
| `Vocabulary.Build` | src/domain/ranker.ts:304-323 | the counting loops yield, for rows in any order, the vocabulary of the set of documents: documents holding the term plus its uses in server names |
| `Vocabulary.VocabularyIsUnique` | src/domain/ranker.ts:304-323 | that vocabulary is determined by the set of documents |
| `Vocabulary.VocabularyOfIs` | src/domain/ranker.ts:304-323 | every set of documents has such a vocabulary, with no term that counts nothing |
| `Vocabulary.CountDocs` | src/domain/ranker.ts:307-311 | after the document loop a term counts the documents that hold it |
| `Vocabulary.CountNames` | src/domain/ranker.ts:321-323 | the server loop adds every use of a term in a server name, servers in any order |
| `Vocabulary.UsesWith` | src/domain/ranker.ts:321-323 | the number of uses does not depend on which server is taken first |
| `Vocabulary.IndexDocs` | src/domain/ranker.ts:307-315 | the term index holds exactly the servers with a document that has the term |
| `Vocabulary.BuildServerTerms` | src/domain/ranker.ts:317-329 | each server gets exactly its distinctive name terms, servers without any are left out |
| `Vocabulary.WhichTermsAreDistinctive` | src/domain/ranker.ts:319-329 | a term of a server's name counts if and only if at most one other server, or at most a tenth of all, has a document with it; servers without such terms are left out |
| `RankerCache.HybridRanker.Load` | src/domain/ranker.ts:277-348 | from a coherent cache, the snapshot handed out equals one rebuilt from the tables, with the vocabulary and server terms of the present search rows, and the cache stays coherent |
| `RankerCache.WhatASnapshotHolds` | src/domain/ranker.ts:278-346 | the rebuilt snapshot has exactly the search rows that have a tool row, the call counts of the tools, and the vectors of the model asked for |
| `RankerCache.LoadIsRebuild` | src/domain/ranker.ts:277-348 | after any run of installs, saves, uninstalls and loads in which no uninstall takes tools away behind a current snapshot, a load answers what a rebuild gives |
| `RankerCache.CoherentExactlyUnlessStaled` | src/domain/ranker.ts:288-292 | a step keeps every cached snapshot of the present generation equal to a rebuild if and only if it is no uninstall that takes the tools of another server while such a snapshot is cached |
| `RankerCache.CoherentExactlyInUnstaledRuns` | src/domain/ranker.ts:288-292 | so it is throughout a run if and only if no step of it is such an uninstall |
| `RankerCache.StaledLoadIsWrong` | src/domain/ranker.ts:288-292 | after such an uninstall the next load for the same model answers with other documents than the tables hold |
| `RankerCache.SecondUninstallStales` | src/domain/lifecycle.ts:252-260 | two uninstalls of one name, a new server and a load between them, lead there |
| `RankerCache.RunKeepsCoherence` | src/domain/ranker.ts:288-292 | over any run without such an uninstall, a cached snapshot of the present generation agrees with the tables |
| `Catalog.StepMovesGeneration` | src/domain/tool-index.ts:175-196 | no step lowers the generation, and one changes tools or search rows without raising it if and only if it is an uninstall that takes the tools of another server |
| `Catalog.WhatRaisesTheGeneration` | src/domain/tool-index.ts:175-196 | the generation is raised, by one, exactly by a save that has something to write or delete and by the removal of tools that were read |
| `Catalog.RunMovesGeneration` | src/domain/tool-index.ts:175-196 | any run without such an uninstall that alters rows, search rows or vectors strictly raises the generation |
| `Catalog.SecondUninstallTakesAnother` | src/domain/lifecycle.ts:252-260 | two uninstalls of one name: the slower one removes the server installed in between, whose tools go by cascade |
| `Catalog.StepKeepsInOrder` | src/domain/tool-index.ts:98-188 | in every interleaving of installs, saves that wait for their vectors and uninstalls that wait for their connection: ids are unique, every tool row has its search row, tools belong to installed servers, and what a waiting save has read is still so or gone for good |
| `Catalog.StepLeavesBehind` | src/domain/tool-index.ts:127-177 | every step keeps the tables sound and adds to the search rows without a tool row exactly those of the captured rows of a save whose server is gone and whose dirty tools all had a row |
| `Catalog.OrphansExactlyIfStranded` | src/domain/tool-index.ts:98-188 | after any run every search row has its tool row if and only if no step ended a save with something to write, whose server was gone and whose dirty tools all had a row |
| `Catalog.OrphansStay` | src/domain/tool-index.ts:147-173 | a search row without a tool row stays through every run |
| `Catalog.UninstallDuringSave` | src/domain/tool-index.ts:98-177 | a server is uninstalled while a save of it waits with a changed tool: a search row is left, and no tool at all |
| `Search.OverfetchIsEnough` | src/domain/tool-index.ts:268-291 | fetching the limit plus the number of hidden tools, filtering and cutting gives exactly the first `limit` of the whole ranking without hidden tools |
| `Search.CountBoundsHidden` | src/domain/tool-index.ts:271-274 | the hidden tools of any ranking are at most the quarantined tools and the ranked ids that are no tool's |
| `Search.OverfetchIsEnoughExactly` | src/domain/tool-index.ts:268-291 | searches give the first `limit` of the ranking without hidden tools, whatever the limit, if and only if no more hidden hits than were counted are ahead of the last visible one |
| `Search.StrangerTakesAPlace` | src/domain/tool-index.ts:268-291 | a search row without a tool row, ranked first, takes the only place |
| `Search.SearchIsSafe` | src/domain/tool-index.ts:276-290 | whatever the count was, nothing hidden is returned, in ranking order, at most `limit` |
| `ToolIndex.SaveIsExact` | src/domain/tool-index.ts:98-179 | if nothing comes between its read and its transaction, for distinct names of an installed server a save succeeds, keeps the tables sound, leaves the set of search rows without a tool row as it was, and changes at every key exactly what the report says; other servers keep their rows |
| `ToolIndex.SaveStoresTheDefinitions` | src/domain/tool-index.ts:112-174 | after a save the row of a reported tool is the old one if its hash was stored with a vector of the model (if there is one); else it holds title, description, schemas and annotations as reported and the vector given for its hash, and its search row is built from these |
| `ToolIndex.StaleSave` | src/domain/tool-index.ts:123-177 | a save whose server was removed while it waited succeeds if and only if every dirty tool had a row; then it changes no tool row and leaves a search row for each of them |
| `ToolIndex.SaveFromIsSound` | src/domain/tool-index.ts:98-179 | whatever came between, a save keeps the tables sound and other servers' rows, and never gives an id that was used to a new row |
| `ToolIndex.SaveReports` | src/domain/tool-index.ts:118-174 | after a save the stored name-to-hash map of the server is the reported one |
| `ToolIndex.SaveKeepsIds` | src/domain/tool-index.ts:147-169 | a name that stays keeps its row id, a new one gets an id never used |
| `ToolIndex.EmptyDiffKeepsHashes` | src/domain/tool-index.ts:125-176 | the diff is empty if and only if the name-to-hash map stays as it was |
| `ToolIndex.CleanSaveChangesNothing` | src/domain/tool-index.ts:118-176 | with nothing dirty and nothing missing a save leaves every table as it was |
| `ToolIndex.RetitledIsAsDirty` | src/domain/tool-index.ts:118-122 | new titles and output schemas make no tool dirty |
| `ToolIndex.NewTitlesAreNotStored` | src/domain/tool-index.ts:118-122 | a save that differs from what is stored only in titles and output schemas changes no table |
| `ToolIndex.CountsAddUp` | src/domain/tool-index.ts:175 | added, changed and unchanged add up to the number of tools reported |
| `ToolIndex.DirtyToolsAre` | src/domain/tool-index.ts:118-122 | dirty are exactly the reported tools without a row of the same hash, or without a vector of the present model |
| `ToolIndex.DirtyToolsSuffice` | src/domain/tool-index.ts:118-169 | looking at the dirty tools only misses no added or changed name |
| `ToolIndex.WriteAllWrites` | src/domain/tool-index.ts:134-174 | writing the dirty tools one after the other leaves the last definition of each name, its search row, and everything else untouched |
| `ToolIndex.WriteAllSucceeds` | src/domain/tool-index.ts:160-167 | distinct names of an installed server never violate the unique key |
| `ToolIndex.WriteAllFails` | src/domain/tool-index.ts:127-177 | a failing insert fails the whole transaction |
| `ToolIndex.WriteIsSound` | src/domain/tool-index.ts:137-173 | a write that finds its row, or inserts one, keeps ids unique, each row with its search row, and the search rows without a tool row as they were |
| `ToolIndex.StaleUpdate` | src/domain/tool-index.ts:147-173 | an update that finds no row leaves nothing but its search row |
| `ToolIndex.DeleteAllIsSound` | src/domain/tool-doc.ts:21-23 | deleting rows takes their search rows along and leaves no other search row behind |
| `ToolIndex.ToolIndex.DeleteMissing` | src/domain/tool-index.ts:128-133 | deletes exactly the rows stored under the ids that were read, and lists each name once |
| `ToolIndex.ToolIndex.WriteDirty` | src/domain/tool-index.ts:134-174 | the write loop does what the fold says and collects the added and changed names |
| `ToolIndex.ToolIndex.Begin` | src/domain/tool-index.ts:98-123 | reads the stored rows of the server, from which the dirty tools follow |
| `ToolIndex.ToolIndex.Commit` | src/domain/tool-index.ts:127-178 | over rows read before the vectors were computed: a save stores the folded tables, bumps the generation exactly when it had something to write, its diff is exact, and it leaves search rows behind exactly if its server is gone; a failed one changes nothing |
| `ToolIndex.ToolIndex.Remove` | src/domain/tool-index.ts:182-188 | removes every row of the server, and bumps the generation exactly when there was one |
| `ToolHash.CanonicalIsComplete` | src/domain/tool-hash.ts:12-22 | two values with distinct keys have equal canonical forms if and only if they are equal up to key order at every depth |
| `ToolHash.CanonicalKeepsMeaning` | src/domain/tool-hash.ts:12-22 | a value and its canonical form are equal up to key order |
| `ToolHash.CanonicalIsIdempotent` | src/domain/tool-hash.ts:12-22 | canonicalising twice is canonicalising once |
| `ToolHash.SortByKeySorts` | src/domain/tool-hash.ts:16 | sorting the keys keeps the members and orders them |
| `ToolHash.SortedIsUnique` | src/domain/tool-hash.ts:16 | there is one sorted order of given members with distinct keys |
| `ToolHash.HashIsDefinition` | src/domain/tool-hash.ts:24-39 | equal hashes mean the same name, description, schema and annotations up to key order, and conversely |
| `ToolHash.ProtoMemberIsNotHashed` | src/domain/tool-hash.ts:12-22 | a member called `__proto__` at the end of an input schema does not change the hash, whatever it holds |
| `ToolHash.TitleIsNotHashed` | src/domain/tool-hash.ts:24-39 | title and output schema do not change the hash |
| `Pins.PinStore.Pin` | src/domain/trust/pins.ts:99-114 | pinning stores exactly the name-to-hash map of the given tools for that server and no other |
| `Pins.PinStore.Drift` | src/domain/trust/pins.ts:117-130 | reports the added, changed and removed names exactly, nothing for an unpinned server, and fails exactly for an unpinned tool named like an inherited property |
| `Pins.NoDriftMeansPinned` | src/domain/trust/pins.ts:35-37 | there is no drift if and only if the pins are the name-to-hash map of the current tools |
| `Pins.PinnedRowsDoNotDrift` | src/domain/trust/pins.ts:99-130 | tools just pinned do not drift |
| `Pins.NoneInheritedNoneTrips` | src/domain/trust/pins.ts:124-126 | without a tool named like an inherited property no comparison fails |
| `Pins.TrippingIsDrift` | src/domain/trust/pins.ts:117-130 | rows whose comparison fails are not the pinned ones |
| `Pins.ProtoTrips` | src/domain/trust/pins.ts:99-130 | a tool called `__proto__` makes every comparison fail, even right after pinning |
| `Pins.NoDriftMeansSameDefinitions` | src/domain/trust/pins.ts:117-130 | there is no drift if and only if the current definitions are the pinned ones up to key order |
| `HashSet.DigestIsOfTheSet` | src/domain/trust/pins.ts:40-44 | two lists of one-line hashes have the same digest if and only if they hold the same hashes equally often |
| `HashSet.DigestMatchesExactly` | src/domain/trust/pins.ts:40-44 | whatever is echoed, its digest is that of the current one-line hashes if and only if the lines of what it echoes, sorted entry by entry, are the current hashes in order |
| `HashSet.EmptyEchoDigestsAsNone` | src/domain/trust/pins.ts:40-44 | one empty hash digests like no hash |
| `HashSet.GluedHashesDigestAlike` | src/domain/trust/pins.ts:40-44 | two hashes glued by a newline digest like the two apart |
| `HashSet.SortSorts` | src/domain/trust/pins.ts:42 | sorting keeps the hashes and orders them |
| `HashSet.SortedIsUnique` | src/domain/trust/pins.ts:42 | there is one sorted order of given hashes |
| `HashSet.JoinedIsInjective` | src/domain/trust/pins.ts:42 | single lines joined by newlines can be told apart again |
| `Lifecycle.OnlyConsentedToolsAreReachable` | src/domain/lifecycle.ts:200-220 | in every interleaving of safe steps, outside the window between commit and stored verdict, an indexed server that is not quarantined has exactly its pinned tools, and every tool it exposes or lets be called was consented to under that hash |
| `Lifecycle.PinnedExactlyIfSafe` | src/domain/lifecycle.ts:209-303 | a step leaves its server with the pinned tools, unless quarantined or in the window, if and only if it is safe: no comparison fails for a server out of quarantine, and no approval at rest is of a tool called `__proto__` |
| `Lifecycle.PinnedThroughoutExactlySafeRuns` | src/domain/lifecycle.ts:200-303 | every server keeps to its pinned tools in every world of a run if and only if every step of it is safe |
| `Lifecycle.ThrowingIndexGoesUnnoticed` | src/domain/lifecycle.ts:212-219 | a comparison that fails for an enabled server ends the index with a tool on show that nobody accepted and that the listeners never heard of |
| `Lifecycle.ConsentIsGiven` | src/domain/trust/index.ts:73-132 | consent arises only from the first index of an unpinned server, or from an approval that echoes the digest of the current hashes; then the hash of the tool is among the lines echoed (row hashes being one line each) |
| `Lifecycle.ApprovalEchoesTheHashes` | src/domain/trust/index.ts:124-132 | for a quarantined server whose row hashes are one line each, an approval lifts the quarantine if and only if the lines echoed, sorted entry by entry, are these hashes in order; for one-line echoes, if and only if they are these hashes, each as often; a refused one changes nothing |
| `Lifecycle.StepKeepsSound` | src/domain/lifecycle.ts:209-303 | every step of every operation, failing comparisons included, keeps this of every server: pins are consented to, indexed servers are pinned, only indexed ones are enabled or judged, a verdict of no drift means the pinned tools |
| `Lifecycle.RunKeepsSound` | src/domain/lifecycle.ts:200-303 | so does every run |
| `Lifecycle.WindowShowsUnconsented` | src/domain/lifecycle.ts:212-215 | inside the window a changed tool of an enabled server is exposed although nobody accepted it |
| `Lifecycle.QuarantinedMeansDrifted` | src/domain/lifecycle.ts:209-303 | between indexes a server is quarantined if and only if the drift report of its tools against its pins is not empty, for runs of safe and timely steps: no approval that succeeds falls between a verdict of drift and its storing |
| `Lifecycle.ExactExactlyIfTimely` | src/domain/lifecycle.ts:214-303 | a step leaves quarantine flag and verdict equal to drift if and only if it is safe and timely |
| `Lifecycle.ExactThroughoutExactlyTimelyRuns` | src/domain/lifecycle.ts:200-303 | flags and verdicts equal drift in every world of a run if and only if every step of it is safe and timely |
| `Lifecycle.UntimelyApproval` | src/domain/lifecycle.ts:297-303 | an approval in that gap leaves the server quarantined without drift |
| `Lifecycle.ListenersKnowTheExposure` | src/domain/lifecycle.ts:137-146 | in every run of heeded steps, whenever no index is about to fire them, what the listeners could read at their last firing is exactly what is exposed |
| `Lifecycle.PlainRunIsHeeded` | src/domain/lifecycle.ts:137-303 | a run is heeded if no comparison fails for an enabled server whose index has changed something, and no uninstall that read a server as disabled ends while tools of it are on show or about to be announced |
| `Lifecycle.ExposureChangeIsAnnounced` | src/domain/lifecycle.ts:137-146 | a run of heeded steps that changes what a server exposes fires the listeners, the last time with the new exposure in place |
| `Lifecycle.UpToDateExactlyIfHeeded` | src/domain/lifecycle.ts:209-291 | what the listeners were last shown of a server stays its rows of now, or those before a commit since, if and only if the step is heeded: a comparison fails only if they have fired since the commit or the commit changed nothing exposed, and an uninstall that read disabled takes away only rows that were not on show |
| `Lifecycle.ShownIsExposed` | src/domain/lifecycle.ts:137-146 | unless an index is about to fire them, the listeners were last shown what is exposed |
| `Lifecycle.FailedIndexIsHeard` | src/domain/lifecycle.ts:212-219 | when the comparison right after a commit fails, the listeners stay up to date if and only if the commit changed nothing that is exposed |
| `Lifecycle.UpToDateExactlyInHeededRuns` | src/domain/lifecycle.ts:200-303 | the listeners are up to date in every world of a run if and only if every step of it is heeded |
| `Lifecycle.RepetitionIsSilent` | src/domain/lifecycle.ts:222-242 | enabling or disabling a second time fires nothing; disabling changes nothing, and neither does enabling once the first index is over |
| `Lifecycle.WhatEnables` | src/domain/lifecycle.ts:222-242 | a server is enabled after a step exactly if the step switches it on, or it was and is not disabled |
| `Lifecycle.WhatQuarantines` | src/domain/lifecycle.ts:280-303 | the flag is what the index found at its end, and goes exactly with an approval that echoes the hashes |
| `Lifecycle.WhatIsStored` | src/domain/lifecycle.ts:209-214 | the rows of a server are those of its last commit, and it counts as indexed once a comparison was made |
| `Lifecycle.WhichServersThereAre` | src/domain/lifecycle.ts:166-259 | a server is there from its install to the end of any uninstall of its name, and starts disabled and without tools |
| `Lifecycle.WhatIsPinned` | src/domain/trust/index.ts:73-132 | pins are set exactly by the comparison of a server that has none and by an approval, to the name-to-hash map of the rows, and go with the server |
| `Lifecycle.WhatAnIndexDoes` | src/domain/lifecycle.ts:200-219 | an index starts or is joined, probes, commits, compares and ends, in this order, one at a time |
| `Lifecycle.WhoWaits` | src/domain/lifecycle.ts:222-232 | enables wait exactly for servers not indexed, and go on or fail once |
| `Lifecycle.WhoLeaves` | src/domain/lifecycle.ts:252-259 | uninstalls wait with what they read and end once |
| `Lifecycle.WhatFires` | src/domain/lifecycle.ts:137-291 | the listeners fire exactly when an enabled server ends an index with a change or a new flag, leaves quarantine or is removed, and when a server is switched |
| `Lifecycle.WhatIsExposed` | src/domain/lifecycle.ts:137-146 | what is on show are the tools of enabled servers out of quarantine, each under its hash |
| `Lifecycle.UninstallIsHeard` | src/domain/lifecycle.ts:252-260 | the listeners hear of an uninstall if and only if it read the server as enabled, or no tool was on show; while an index is to announce a commit, the rows before the commit are those on show |
| `Lifecycle.OvertakenUninstall` | src/domain/lifecycle.ts:252-260 | an enable that overtakes the uninstall of a disabled server leaves the listeners with its tools |
| `Lifecycle.SecondUninstallTakesTheSuccessor` | src/domain/lifecycle.ts:252-260 | two uninstalls of one name: the slower one removes the server that was installed in between |
| `Lifecycle.ServerLifecycle.Changed` | src/domain/lifecycle.ts:137-146 | fires the listeners exactly when asked to, with the exposure in place |
| `Lifecycle.ServerLifecycle.SetQuarantined` | src/domain/lifecycle.ts:280-291 | stores the flag, and fires only if it differs and the server is enabled |
| `Lifecycle.ServerLifecycle.Install` | src/domain/lifecycle.ts:166-171 | a new name gets a disabled, unindexed row; a known one is refused and nothing changes |
| `Lifecycle.ServerLifecycle.Reindex` | src/domain/lifecycle.ts:200-207 | starts an index or joins the running one, so that one runs per server |
| `Lifecycle.ServerLifecycle.AfterIndex` | src/domain/trust/index.ts:73-85 | pins a server that was never pinned; its verdict is drift from the pins, and it fails exactly for an unpinned tool named like an inherited property |
| `Lifecycle.ServerLifecycle.MarkIndexedAndJudge` | src/domain/lifecycle.ts:213-214 | marks the server indexed and holds the verdict; if the hook fails, the index is over and the flag stays |
| `Lifecycle.ServerLifecycle.FinishIndex` | src/domain/lifecycle.ts:215-219 | stores the verdict and ends the index; for an enabled server it fires if the flag changes or the diff was not empty |
| `Lifecycle.ServerLifecycle.Enable` | src/domain/lifecycle.ts:222-232 | refuses exactly quarantined servers, waits for the first index of an unindexed one, else leaves the server enabled |
| `Lifecycle.ServerLifecycle.ResumeEnable` | src/domain/lifecycle.ts:225-230 | after the wait, decides by the flag read before it |
| `Lifecycle.ServerLifecycle.Disable` | src/domain/lifecycle.ts:234-242 | leaves the server disabled and fires only if it was not |
| `Lifecycle.ServerLifecycle.Approve` | src/domain/lifecycle.ts:297-303 | succeeds exactly for the hashes of the current rows, as `ApprovalEchoesTheHashes` says; then the server is pinned to its current tools and not quarantined |
| `Lifecycle.ServerLifecycle.StartUninstall` | src/domain/lifecycle.ts:252-254 | reads whether the server is enabled, and waits |
| `Lifecycle.ServerLifecycle.FinishUninstall` | src/domain/lifecycle.ts:255-259 | removes whatever server has the name, with its pins, and announces what was read before the wait; if there is none it fails |
| `Pool.OneOpenPerName` | src/domain/pool.ts:201-213 | in every interleaving at most one unfinished open exists per name, and nothing is pooled under its name, so a finishing open never overwrites a connection |
| `Pool.NoClientLeaks` | src/domain/pool.ts:256-298 | every client a handshake gave is pooled or closed, unless its open is just about to decide |
| `Pool.PooledIsNotClosed` | src/domain/pool.ts:291-296 | in every run a pooled client is not closed, except exactly one whose transport closed while its open still held it |
| `Pool.DeadClientIsPooled` | src/domain/pool.ts:271-296 | that exception: a transport that closes before its open goes on is pooled all the same |
| `Pool.ClosedTransportIsUnpooled` | src/domain/pool.ts:293-295 | when a transport closes, no name maps to its client any more and every other name maps where it did |
| `Pool.WhatUnpools` | src/domain/pool.ts:214-296 | what was pooled is unpooled exactly by a disconnect, a new configuration, the sweep or the probe that opened it when unused, or the end of its own transport |
| `Pool.WhatIsPooled` | src/domain/pool.ts:271-297 | something is pooled exactly by an open that goes on with no disconnect since it began: its client, on a fresh object with what it read |
| `Pool.WhatCloses` | src/domain/pool.ts:227-295 | a client is closed exactly by its transport, by a disconnect, or by its open when that is overtaken |
| `Pool.WhatClosesEarly` | src/domain/pool.ts:244-295 | a client is closed early exactly if its transport closes while an open holds it |
| `Pool.WhichCallsRun` | src/domain/pool.ts:448-496 | a call runs on the connection pooled at its start until its end |
| `Pool.ReconfiguredOpenStartsOver` | src/domain/pool.ts:251-276 | a configuration set while an open shakes hands: its client is closed, and it starts over with the new one |
| `Pool.WhatMovesGenerations` | src/domain/pool.ts:227-228 | the generation of a name counts its disconnects |
| `Pool.WhatIsConfigured` | src/domain/pool.ts:251-252 | what an open reads is the last configuration installed or set |
| `Pool.WhatStartsAnOpen` | src/domain/pool.ts:201-213 | a new open begins exactly for a name neither pooled nor being opened: refused, or with the generation and configuration of now |
| `Pool.WhatAnOpenDoes` | src/domain/pool.ts:244-298 | an open retries a failed handshake once, goes on with its client, starts over with the configuration of now if overtaken, and is unlisted at its end |
| `Pool.PooledIsCurrent` | src/domain/pool.ts:251-297 | in every interleaving of clean steps, a pooled connection of an installed server carries its present configuration and generation |
| `Pool.UpToDateExactlyIfClean` | src/domain/pool.ts:251-297 | a step leaves everything pooled, or about to be, with the present configuration if and only if it is clean: no install under a name for which a connection, or a live open, with another configuration is left |
| `Pool.UpToDateExactlyInCleanRuns` | src/domain/pool.ts:201-299 | so it is in every pool of a run if and only if every step of it is clean |
| `Pool.LeftoverConnectionIsKept` | src/domain/lifecycle.ts:252-260 | a server installed over a connection left behind keeps it with the old configuration, when every open is long over |
| `Pool.ReinstallKeepsOldConfig` | src/domain/pool.ts:251-297 | a server installed again while an older open runs gets a connection with the old configuration |
| `Pool.CountersAreExact` | src/domain/pool.ts:448-497 | inflight is the number of calls running on the connection object, and its elicitors are those of these calls, also after it left the pool |
| `Pool.SweepSparesCalls` | src/domain/pool.ts:536-542 | the idle sweep and a finished probe never close or unpool a connection with a call running |
| `Pool.PushReachesItsCall` | src/domain/pool.ts:404-419 | a pushed question is routed to a call if and only if that call is the only one on the pooled connection and can answer |
| `Pool.PushOfAnotherClient` | src/domain/pool.ts:404-419 | a routed question reaches a call of the client that pushed it if and only if that client is the pooled one |
| `Pool.LatePushReachesTheSuccessor` | src/domain/pool.ts:404-419 | a client that is no longer pooled pushes a question, and it reaches a call on its successor |
| `Pool.StepKeepsProtocol` | src/domain/pool.ts:201-299 | every step keeps opens, pending entries, pooled connections and connection objects matched |
| `Pool.StepAccounts` | src/domain/pool.ts:227-298 | every step accounts for every client |
| `Pool.StaysCurrent` | src/domain/pool.ts:227-299 | every clean step keeps pooled connections current |
| `Pool.StaysReadTogether` | src/domain/pool.ts:251-276 | every clean step keeps this: an open whose generation is the present one holds the present configuration |
| `Pool.StepKeepsCounted` | src/domain/pool.ts:457-496 | every step keeps the counters of every connection object exact |
| `Pool.ConnectionPool.Connect` | src/domain/pool.ts:201-213 | reuses the pooled connection, joins the pending open or starts one |
| `Pool.ConnectionPool.GoOn` | src/domain/pool.ts:271-298 | keeps the client under a new connection object if the generation still matches, else closes it |
| `Pool.ConnectionPool.Disconnect` | src/domain/pool.ts:227-237 | bumps the generation and unpools and closes the connection, if any, touching no other |
| `Pool.ConnectionPool.StartCall` | src/domain/pool.ts:457-460 | counts the call on whatever connection is pooled now; without one nothing changes |
| `Pool.ConnectionPool.EndCall` | src/domain/pool.ts:490-496 | gives back exactly what the call took, on its own connection object |
| `Pool.ConnectionPool.SweepIdle` | src/domain/pool.ts:536-542 | disconnects exactly the stale connections no call uses, as a run of sweep steps |
| `McpServer.QuestionsReachRoundsInOrder` | src/mcp/server.ts:200-240 | in every run, the questions handed out, the one held, the one dropped and those queued are, in this order, all questions pushed: 0, 1, 2 ... |
| `McpServer.QuestionsAreAnsweredOnce` | src/mcp/server.ts:225-283 | every question handed out has exactly one answer, or none while it is parked, and only the last one can be parked |
| `McpServer.EveryQuestionIsAnsweredOrLeftBehind` | src/mcp/server.ts:200-283 | in every reachable state, a question pushed is answered, or can still be by some continuation, if and only if it was not dropped and is not queued on a call whose result is ready or whose timer ran out |
| `McpServer.AbandonedByTimeout` | src/mcp/server.ts:225-231 | while the result has not won, no round waits and nothing is parked if and only if some answer of the call came from the timer |
| `McpServer.NothingMoreHappens` | src/mcp/server.ts:209-240 | a call whose timer ran out, or whose result has won, hands out and answers nothing in any continuation |
| `McpServer.TimeoutStrandsTheNextQuestion` | src/mcp/server.ts:143-231 | a question pushed after a timeout stays queued and can never be answered |
| `McpServer.NeverWaitingAndParked` | src/mcp/server.ts:200-283 | nothing of a call is parked while a round waits on it, and at most one thing ever is |
| `McpServer.SpentIdsChangeNothing` | src/mcp/server.ts:227-270 | an id that is not parked answers nothing, by reply or by timeout |
| `McpServer.SpentIdsStaySpent` | src/mcp/server.ts:226-231 | an id once used up is never parked again, over any run |
| `McpServer.ResultDropsQueuedQuestion` | src/mcp/server.ts:209-213 | a question queued when the result is ready is taken and dropped |
| `McpServer.WhatDropsAQuestion` | src/mcp/server.ts:209-240 | a step drops a question if and only if a round starts on a call with its result ready and questions queued, or a question is pushed to the race the result has won |
| `McpServer.StepKeepsSound` | src/mcp/server.ts:200-283 | every step keeps order, answers and parked entries consistent |
| `McpServer.QuestionQueue.Push` | src/mcp/server.ts:83-88 | hands the item to whoever waits, else keeps it behind the older ones |
| `McpServer.QuestionQueue.Next` | src/mcp/server.ts:89-92 | gives the oldest item or waits; what was pushed is what was got followed by what is queued |
| `McpServer.ParkedCalls.Relay` | src/mcp/server.ts:209-212 | races the result against the next question, which is taken at once |
| `McpServer.ParkedCalls.EndRound` | src/mcp/server.ts:213-240 | ends the round with the result, or parks the question under the new id |
| `McpServer.ParkedCalls.ForwardAnswer` | src/mcp/server.ts:264-282 | refuses unknown ids and ids of other tools without a change, else answers the question and starts the next round |
| `McpServer.ParkedCalls.Expire` | src/mcp/server.ts:227-229 | a timeout cancels the question exactly when it is still parked |
| `Elicitations.EachIsResolvedOnce` | src/domain/pool.ts:548-586 | over any run every queued question waits or was resolved, and none is resolved twice |
| `Elicitations.SecondAnswerIsIgnored` | src/domain/pool.ts:563-586 | a second response, or the timer after a response, changes nothing |
| `Elicitations.ResponseIsDelivered` | src/domain/pool.ts:575-586 | a response settles a waiting question, and no other, with the action given, and with the content given exactly if that is an acceptance |
| `Elicitations.TimeoutCancels` | src/domain/pool.ts:563-566 | the timer settles it as cancelled |
| `Elicitations.ElicitationQueue.QueueElicitation` | src/domain/pool.ts:548-569 | gives out an id that never waited nor was resolved |
| `Elicitations.ElicitationQueue.RespondElicitation` | src/domain/pool.ts:575-586 | answers exactly known ids, and only an acceptance carries content |
| `Registry.ReplayIsHarmless` | src/domain/registry.ts:162-167 | applying P, then P again, then Q gives the same rows as P then Q, for every mirror |
| `Registry.InterruptedAttemptsAreHarmless` | src/domain/registry.ts:144-175 | any number of attempts, each cut short anywhere, before a complete one leave the rows of the complete one |
| `Registry.FailedSyncThenSync` | src/domain/registry.ts:144-175 | a sync that failed after some pages followed by a complete one gives the rows of the complete one |
| `Registry.StoredVersionIsKept` | src/domain/registry.ts:187-192 | entries that are said not to be the latest never change the version of a stored row, and no row is dropped |
| `Registry.EntryIsStored` | src/domain/registry.ts:180-217 | an entry said not to be the latest is passed over if another version is stored; any other well-formed one makes the row hold exactly its version, timestamp and JSON, and touches no other row |
| `Registry.RowIsOfItsLastEntry` | src/domain/registry.ts:162-217 | after a run a name has the version of its last entry not said to be old (or of its first, if all are and none was stored), and holds the last entry of that version |
| `Registry.StoredRowIsOfItsVersion` | src/domain/registry.ts:162-217 | if only old entries of a stored name come, the row holds the last one of its own version, or stays |
| `Registry.NewestIsMaximum` | src/domain/registry.ts:151-165 | the cursor never moves back, is at least every timestamp seen and is the old one or one of them |
| `Registry.RegistryMirror.StorePage` | src/domain/registry.ts:162-167 | stores a page as the fold of its entries and carries the newest timestamp on |
| `Registry.RegistryMirror.DoSync` | src/domain/registry.ts:144-175 | a complete sync stores every page, then the cursor; pages are left unread if and only if every one of the first MAX_PAGES has a successor; a failed request leaves the pages before it stored and the cursor where it was |
| `SecretStore.SplitValue` | src/domain/trust/secret-store.ts:61-71 | the parts join to the value, have 1 to 1280 units, and split no surrogate pair of well-formed UTF-16 |
| `SecretStore.KeyringSecretBackend.Set` | src/domain/trust/secret-store.ts:100-106 | the secrets become the old ones with this one set, in exactly the head and its chunks of every account, unless the value is short and begins with the marker of a head; it is read back exactly as `ReadBackExactly` says, and other accounts always keep theirs |
| `SecretStore.KeyringSecretBackend.Get` | src/domain/trust/secret-store.ts:88-99 | reads the stored secret, or nothing if there is none, and is `Read` of the keychain |
| `SecretStore.KeyringSecretBackend.Delete` | src/domain/trust/secret-store.ts:107-111 | removes the secret with its head and chunks; other accounts keep theirs |
| `SecretStore.SetStores` | src/domain/trust/secret-store.ts:100-106 | a longer value before leaves no orphan chunk: the keychain stays exactly heads and chunks, for every value that does not look like a head |
| `SecretStore.ReadBackExactly` | src/domain/trust/secret-store.ts:82-106 | any value is read back after it was set if and only if it is long, does not begin with the marker of a head, or has something behind it that reads as 0, whatever JavaScript makes of texts that are no counts |
| `SecretStore.DeleteRemoves` | src/domain/trust/secret-store.ts:107-111 | after a delete nothing of the account is left |
| `SecretStore.EntryNamesDiffer` | src/domain/trust/secret-store.ts:76-81 | chunk entries of different accounts or numbers never share a name |
| `SecretStore.EntriesAreNamed` | src/domain/trust/secret-store.ts:56-81 | chunks are filed under the account, a number sign and their number; a head is NUL, `chunks:` and the count |
| `SecretStore.NumberOfDecimal` | src/domain/trust/secret-store.ts:82-84 | the count written into a head entry is read back |
| `Masking.NoSecretSurvives` | src/domain/trust/audit.ts:56-73 | no string anywhere in the masked value contains a given secret of at least four units that is firm: its first and last unit are not stars and it has no mask inside |
| `Masking.SecretIsGone` | src/domain/trust/audit.ts:58-61 | replacing the secrets one after the other leaves no firm one in the text |
| `Masking.RemovedExactlyIfFirm` | src/domain/trust/audit.ts:58-61 | masking removes a secret of at least four units from every text, alone or among any other secrets, if and only if it is firm |
| `Masking.ShapeIsKept` | src/domain/trust/audit.ts:63-72 | arrays, keys and their order stay; whole members become the mask exactly under secret-looking keys |
| `Masking.HarmlessIsKept` | src/domain/trust/audit.ts:56-73 | a value without listed secrets and secret-looking keys is recorded as it is |
| `Masking.OneSecretIsMasked` | src/domain/trust/audit.ts:58-61 | a text with one secret once in it has eight stars in its place, and the rest as it was |
| `Masking.MaskTwiceIsMaskOnce` | src/domain/trust/audit.ts:56-73 | masking a masked value changes nothing, for secrets that are equal to the mask or hold a firm secret of the list |
| `Masking.HolderIsGone` | src/domain/trust/audit.ts:58-61 | a secret that holds a firm one of the list is in no masked text |
| `Masking.FirmPartSettles` | src/domain/trust/audit.ts:58-61 | so masking for `*abcd` and `abcd` is idempotent, although the first is not firm |
| `Masking.IdempotentExactlyIfFirm` | src/domain/trust/audit.ts:58-61 | for one secret other than the mask, masking every text twice is masking it once if and only if the secret is firm |
| `Masking.StarredSecretGrowsMask` | src/domain/trust/audit.ts:60 | masking the mask for a secret of four stars doubles it |
| `Masking.MaskString` | src/domain/trust/audit.ts:59-61 | the loop over the secrets computes the sequential replacement |
| `AuditLog.AuditLog.Append` | src/domain/trust/audit.ts:83-97 | adds one row with a new id, as the step of the log says; the rows stay a newest end of the history, and after the first prune never exceed maxRows + 99 |
| `AuditLog.AuditLog.Prune` | src/domain/trust/audit.ts:99-104 | keeps exactly the newest maxRows rows |
| `AuditLog.AuditLog.List` | src/domain/trust/audit.ts:106-147 | returns the page as `PageIsOfFitting` says, and the number of all rows that fit the filters, whatever the page |
| `AuditLog.PageIsNewest` | src/domain/trust/audit.ts:119-133 | a page is exactly the newest matching rows of the table, newest first |
| `AuditLog.PageIsOfFitting` | src/domain/trust/audit.ts:106-133 | a page holds rows that fit server, action and tool as far as they are given, older than asked for, newest first, and misses such a row only if it is full of newer ones |
| `AuditLog.PageSizeIsClamped` | src/domain/trust/audit.ts:133 | a page has the limit asked for, 100 by default, never less than 1 or more than 1000 |
| `AuditLog.WhatAStepKeeps` | src/domain/trust/audit.ts:83-104 | a prune leaves the newest `maxRows` rows if that is positive, and every hundredth append prunes |
| `AuditLog.WalkMissesNothing` | src/domain/trust/audit.ts:106-147 | a finished walk over windows of a history that only move up has every matching row of its first window that is still in its last |
| `AuditLog.LiveWalkMissesNothing` | src/domain/trust/audit.ts:83-147 | over any run of appends and prunes between its pages, a walk that comes to an empty page has listed every matching row that the log held at the first page and holds still, and no row twice, newest first |
| `AuditLog.LiveWalkIsWalk` | src/domain/trust/audit.ts:83-147 | a walk over a log in use is a walk over windows of its final history |
| `AuditLog.WindowsEvolve` | src/domain/trust/audit.ts:83-104 | appends and prunes only move these windows up |
| `AuditLog.WalkIsDescending` | src/domain/trust/audit.ts:119-133 | a walk sees every row at most once, in descending order |
| `AuditLog.WalkRowsBelong` | src/domain/trust/audit.ts:106-133 | a walk sees only matching rows older than asked for |
| `AuditLog.AboveIsSuffix` | src/domain/trust/audit.ts:99-104 | deleting by id keeps a contiguous newest end |

## Left out

- SQLite, FTS5 and WAL: tables are maps and sequences, transactions are single steps, BM25 is any positive score per row.
- SHA-256 is a constructor, hence injective; random ids are fresh numbers.
- Floating point: the ranker computes over reals, `log1p` is any non-negative monotone function, and the rounding of scores in `search` is not modelled.
- Splitting of identifiers, stop words, diacritics and stemming: the words of a document and of a server name are any functions of them (`Words`), and `buildDocument` is any function of the stored fields.
- The MCP SDK, HTTP, child processes, OAuth, embeddings and telemetry: outcomes of steps.
- Back-off after failed handshakes and cached protocol eras: an open can be refused, and a handshake retried once, at will.
- The lock files and processes of `shim.ts` and `daemon.ts`, the installation plan, configuration, guard and token code.
- The plugin pane, widgets, markdown and benchmark code.
- The AES-GCM file backend of the secret store, and a keychain that fails in the middle of an operation.
- In `Lifecycle`, a name that left while an index or an enable of it ran is not installed again until these have ended (`departed`).
- `update` and the setting of secrets in `ServerLifecycle`: they change configurations, which is `Reconfigure` in `Pool`; the exposed names and hashes stay.
- Hygiene flags and audit rows written by the trust hooks.
- Sign-in rounds and progress notifications of `McpServer`; an abort is a result that arrives.
- Counters never overflow, ids never run out, and numbers are read back at any size.
- ToolIndex.ToolIndex.Commit: takes the vectors as given, and rows read earlier that are the present ones unless the server is gone; `Catalog.StepKeepsInOrder` shows that this is always so.
- ToolIndex.SaveIsExact: requires distinct names, since a repeated new name violates the unique key and rolls the save back (`ToolIndex.WriteAllFails` and `ToolIndex.ToolIndex.Commit` have that case), and an installed server (`ToolIndex.StaleSave` has the other case).
- ToolIndex.WriteIsSound: requires the row to be there that is to be updated; `ToolIndex.StaleUpdate` has the other case.
- Catalog.RunMovesGeneration: requires that no uninstall takes the tools of another server, exactly what it takes at each step by `Catalog.StepMovesGeneration`.
- RankerCache.LoadIsRebuild: requires that no step stales the cache, exactly what coherence takes by `RankerCache.CoherentExactlyInUnstaledRuns`.
- RankerCache.RunKeepsCoherence: requires the same.
- Search.OverfetchIsEnough: requires a sufficient count; `Search.OverfetchIsEnoughExactly` has the exact one.
- Pins.PinStore.Pin: keeps the name-to-hash map; the definition texts stored beside the hashes, which only describe a change, are dropped.
- Pins.PinStore.Drift: reports a changed tool by its name; the description of the change is dropped.
- Lifecycle.OnlyConsentedToolsAreReachable: requires safe steps, which `Lifecycle.PinnedThroughoutExactlySafeRuns` shows to be exactly what it takes.
- Lifecycle.QuarantinedMeansDrifted: requires safe and timely steps, exactly what it takes by `Lifecycle.ExactThroughoutExactlyTimelyRuns`.
- Lifecycle.ListenersKnowTheExposure: requires heeded steps, exactly what it takes to stay up to date by `Lifecycle.UpToDateExactlyInHeededRuns`; the exposure is server, tool name and hash, without titles and descriptions.
- Lifecycle.ExposureChangeIsAnnounced: requires heeded steps, as above.
- Pool.PooledIsCurrent: requires clean steps, exactly what it takes by `Pool.UpToDateExactlyInCleanRuns`.
- Pool.StaysCurrent: requires a clean step, see `Pool.UpToDateExactlyIfClean`.
- Pool.StaysReadTogether: requires a clean step, see `Pool.UpToDateExactlyIfClean`.
- Pool.SweepSparesCalls: a call counts as running from the moment it is counted, not while it waits for the connection.
- Masking.NoSecretSurvives: requires a firm secret, exactly what it takes by `Masking.RemovedExactlyIfFirm`.
- Masking.SecretIsGone: requires a firm secret, exactly what it takes by `Masking.RemovedExactlyIfFirm`.
- Masking.MaskTwiceIsMaskOnce: requires secrets that are the mask or hold a firm secret of the list; for lists of several secrets this is sufficient, for one secret it is exact by `Masking.IdempotentExactlyIfFirm`.
- HashSet.DigestIsOfTheSet: requires one-line hashes on both sides; `HashSet.DigestMatchesExactly` takes any echo.
- SecretStore.KeyringSecretBackend.Set: requires accounts none of which is another one followed by `#` and a number; after a value that looks like a head the keychain is not claimed to be in order.
- SecretStore.SetStores: requires a value that does not look like a head, see `SecretStore.ReadBackExactly`.
- SecretStore.KeyringSecretBackend.Get: head entries not written by this program are outside a sound keychain; `SecretStore.ReadBackExactly` covers the one just set.
- McpServer.QuestionsReachRoundsInOrder: calls are records in a map; their queues are values, and `QuestionQueue` is the closure on its own.
