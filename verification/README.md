# focal-point, verified

This project is a Dafny model of the focal-point ledger node with machine-checked proofs about it.
The node keeps a tree of *counts* (blocks), each a header and a list of *considerations* (transfers of one unit).
The first consideration of a count is its *counterpoint* (the reward, spendable 100 counts later).
Verify everything with `dafny verify dfyconfig.toml`.

## How the model is laid out

| file | what it models |
|---|---|
| `Considerations.dfy` | considerations, counts, IDs, the series, maturity and expiry rules |
| `Balances.dfy`, `Chain.dfy`, `History.dfy`, `Replay.dfy` | the specification: replaying a chain from genesis, the five tables it implies, and how they move |
| `Ledger.dfy` | the on-disk ledger and its balance cache, as classes that write batches |
| `Queue.dfy` | the consideration queue: a map, a list and a lazily filled cache |
| `Work.dfy`, `MedianTime.dfy`, `Tree.dfy` | proof of work, preference, median time, the tree of stored headers |
| `ChainSelection.dfy` | the state between events, the checks on a count, and storing it |
| `Acceptance.dfy` | making a stored count the tip, and the second try on the old tip when that fails |
| `Runs.dfy` | processing one count as one step, and whole runs of steps |
| `Following.dfy`, `Losses.dfy` | the queue through one such step, and after a loss |
| `Processor.dfy` | the processor itself, in the source's form, proved to take exactly those steps |
| `Idle.dfy` | runs that mix counts and considerations, and what the queue is worth between them |
| `Scenario.dfy` | one run, from genesis on, at whose inputs rollback, branch types and the queue go wrong |
| `Renderer.dfy` | assembling the next count from the queue, and its running hash list |
| `HeaderText.dfy`, `HeaderReader.dfy`, `HeaderHasher.dfy` | the JSON of a header as written, a reader of JSON that knows nothing of it, and the buffer in which it is patched |
| `Sums.dfy`, `Graph.dfy`, `Rank.dfy`, `Indexer.dfy` | the graph of keys, the descent check, one rank pass, and the indexer that follows the tip |
| `Notices.dfy` | the tip changes a run announces, and that the indexer's graph follows them |
| `Flow.dfy` | where the weight a consideration adds comes from and goes |
| `Descent.dfy` | when a whole count keeps that graph free of cycles |
| `Retarget.dfy`, `Targets.dfy` | the two target rules, and the branches of a run |
| `Bytes.dfy`, `RangeQuery.dfy`, `KeyHistory.dfy` | big-endian numbers, the per-key history index, scans and paging, and what they say of the chain |
| `Locator.dfy` | finding the last count two peers share |

Three layers carry the ledger results. `Chain.Sound` says what a chain must satisfy and `Chain.Represents` what the
tables of a chain are. `LedgerDisk` methods are proved to keep its tables equal to those of a ghost chain. `Processor`
methods are proved to change (stored counts, chain, branch types) exactly as `Runs.Step` does and the queue exactly as
`Following.QStep` does, from every consistent state. The theorems about every reachable state are proved of `Step` and
`Run`; a run may lose counts, and is followed further when it does. What the checks, the hash text, the targets, the median and
the ranks are for is stated beside them without their own definitions: as literal bounds, numbers read back, and sums.

Assumptions, all explicit in the types or preconditions: an ID is a collision-free digest (a consideration's digest
leaves out its signature; header hashing, signatures and the hash list are functions in `World`); storage is reliable;
the clock, random numbers and the descent check are parameters, the descent check fixed during one event; an event's ID
is the hash of its header, and the genesis ID names the genesis count.

## Where the code does not keep its promise

* **Rollback.** After a failed reorganisation the code tries once more with the old tip, under today's descent check and
  preference. The chain is as it was if and only if the old tip is still the tip or beats the count where the new branch
  stopped, and the check still admits every disconnected count (`RollbackIff`). Where the tip was the best known count
  this leaves only the check (`BestStraysIff`), and the tip stays the best exactly as long as no event strays
  (`StepKeepsInv`, `ReachableTipIsBest`). `LostRun` gives the input: the last of 101 counts holds A→B and B→A, which both
  pass on the graph before it; the graph then has both edges, a longer branch fails, and the 101st count is not admitted again.
* **Branch types.** After such a loss a stored count may extend a better, known count that is not on the chain. If the
  path to it goes on from the tip, connects a few counts and then fails, the old tip stays on the chain and is called
  SIDE. That is the only way a count of the chain gets that type (`FlagsIff`, `StepFlagsIff`); `LostRun` goes on to do it.
  `MainIsAncestry` names the exception.
* **Queue solvency.** `Add` and `reprocessQueue` apply a consideration before the descent check and do not undo it when
  the check rejects. Adding keeps a solvent queue solvent if and only if that branch is not taken (`AddSolventIff`); so
  does a rebuild under a check that is an order (`OrderedSolventIff`), which it is on an acyclic graph (`AcyclicIsOrder`).
  Over whole runs of counts and considerations without strays: in every state in which nothing was rejected late since
  the last rebuild the queue is solvent (`SolventUnlessLate`), and in no other if the checks lie within one order
  (`SolventIffNotLate`). `LateRejection` shows the leak: A→B is rejected late, and B→C is then queued although B holds nothing.
* **Settled queue.** Considerations keep the queue settled (`ConsiderKeepsSettled`), and so does every count that does
  not stray (`AlwaysSettled`). An event that strays edits the queue without rebuilding it; the queue is then settled if
  and only if what it moved under the old cache offsets (`StepSettledIff`, `SettledAfter`). Where the counts were lost to
  a branch without transfers, that is: no cached key was paid a counterpoint that matured in them, their transfers net to
  nothing for every other key, and what is now queued is covered and current (`LossKeepsSettledIff`). In `LostRun` the
  queue ends with two transfers that the shorter chain cannot pay.
* **Maturity.** `IsMature` holds up to the height `matures`, not from it; the code and its comment agree at that one
  height only (`MaturityAsDocumented`).
* **Balance at the tip.** On a pruned ledger `GetPublicKeyImbalanceAt` gives the balance if and only if the forgotten
  counts net to nothing for the key.
* **Descent.** Every consideration of a count is checked against the graph as it was before the count, and ties between
  the nodes of a place are not checked at all. A count keeps the graph below the root acyclic if and only if every tie,
  in its turn, has distinct ends and a target that does not reach its source (`CountKeepsAcyclicIff`); with no places
  named, if and only if every transfer does (`TransfersKeepAcyclicIff`), which implies that the check admits the count
  (`PassingIsAdmitted`) but for more than one transfer is not implied by it (`PairClosesCycle`). A key naming a place
  with the nodes L, a, a ties a to itself (`RepeatedNodeFails`); keys naming L/a/b and L/b/a tie both ways
  (`OppositeTiesFail`).
* **Rank.** A pass keeps the total at 1 if and only if no ranking sits on a negative outbound total (or alpha is 0);
  a graph that follows the ledger has none (`FollowedIsNonNegative`).
* **Padding.** `pad44` panics on exactly the names `Graph.Paddable` excludes: 43 characters without a `/` (utils.go:142-156).
  A key reaches it when its text before the `=` is a full plus code with no `/`, for example `8FVC9G8F+`, 33 times `2`,
  then `4` (`PlusCodePanics`): the place check passes, and that text is a node of its own (indexer.go:173-199).
  `Indexer.Readable` excludes it.

## Model

| member | source | states |
|---|---|---|
| Considerations.SeriesGrace | translation.go:136-145 | the series given to a new consideration stays acceptable for the next 908 counts, a counterpoint's at its own height |
| Considerations.SeriesSeparates | processor.go:341-355 | one consideration cannot have an acceptable series at two heights 2016 or more apart |
| Considerations.IDIgnoresOnlySignature | translation.go:49-58 | two considerations have the same ID exactly when they differ in the signature at most |
| Considerations.MaturityAsDocumented | translation.go:95-101 | code and comment of IsMature agree exactly at the height named |
| Considerations.ExpiresAfter | translation.go:103-109 | a consideration can be included up to the height at which it expires, and never after |
| Considerations.MaxInterpolates | processor.go:507-523 | the limit on considerations starts at 10000, doubles every 105000 counts and is linear between, rounded down |
| Balances.UnmoveMove | imbalance_cache.go:66-99 | undoing a move gives back the same table, absent rows included |
| Balances.MoveAllPositive | imbalance_cache.go:29-63 | a covered sequence of moves never makes a balance zero-stored or negative |
| Balances.CoveredMonotone | imbalance_cache.go:29-63 | more funds never make a covered sequence of transfers uncovered |
| Balances.MoveTotal | imbalance_cache.go:29-63 | a transfer conserves the sum of all balances; a counterpoint adds one |
| Chain.DistinctIDs | processor.go:473-492 | the size of the ID set equals the number of considerations only if all IDs differ |
| Chain.SoundNoReplay | ledger_disk.go:148-160 | no ID is confirmed twice on a sound chain, although the pruned index knows 2016 counts only |
| Chain.BalancesPositive | ledger_disk.go:203-212 | on every sound chain all stored balances are positive |
| Chain.RepresentsUnique | ledger_disk.go:124-292 | a chain determines every table but the branch types |
| Replay.ConnectRepresents | ledger_disk.go:236-292 | the batch of a connect, pruning included, turns the tables of a chain into those of the longer chain |
| Replay.DisconnectRepresents | ledger_disk.go:375-441 | the batch of a disconnect, restored indices included, turns them into those of the shorter chain |
| Replay.DisconnectUndoesConnect | ledger_disk.go:295-441 | disconnecting what was just connected restores tip, heights, both indices and balances, pruning on or off |
| History.Supply | inspector/main.go:296-307 | the balances of a chain add up to one per count that is at least 100 deep |
| History.BalanceIsHistory | inspector/main.go:308-319 | a replayed balance is received minus sent plus matured counterpoints |
| History.SumRowsIsUpto | ledger_disk.go:850-898 | summing the indexed rows of a key in any order gives that history, as far as it is indexed |
| Chain.IndexedWindow | ledger_disk.go:262-283 | with pruning the indices hold exactly what the last 2016 counts confirmed, each at its place; without pruning, everything |
| Ledger.ImbalanceCache.Apply | imbalance_cache.go:29-63 | moves one unit in the cached view if and only if the sender has one, else changes nothing |
| Ledger.ImbalanceCache.Undo | imbalance_cache.go:66-99 | is the inverse of Apply where the recipient has a unit to give back |
| Ledger.ImbalanceCache.ApplyCount | ledger_disk.go:148-233 | passes exactly when no ID is indexed, every sender can pay in turn and the descent check admits all |
| Ledger.ImbalanceCache.UndoCount | ledger_disk.go:319-373 | backing out a count restores the balances before it; no undo meets a balance of zero |
| Ledger.LedgerDisk.ConnectCount | ledger_disk.go:124-292 | succeeds exactly for a count that extends the chain and is admitted; then the tables are those of the longer chain, else nothing changes |
| Ledger.LedgerDisk.DisconnectCount | ledger_disk.go:295-441 | succeeds exactly for the tip; then the tables are those of the chain without it and its branch type is SIDE |
| Ledger.LedgerDisk.PruneIndices | ledger_disk.go:444-492 | removes just the index rows of the count at a height |
| Ledger.LedgerDisk.RestoreIndices | ledger_disk.go:495-547 | puts just those rows back |
| Ledger.LedgerDisk.Imbalance | ledger_disk.go:807-828 | the sum of all stored balances is the scheduled supply |
| Ledger.LedgerDisk.GetPublicKeyImbalanceAt | ledger_disk.go:833-900 | the indexed history up to a height, maturity judged at the tip; at the tip it is the balance exactly when the pruned part nets to zero |
| Queue.SiftAccounts | translation_queue_memory.go:111-153 | after a rebuild the cache is ledger plus kept plus leaked entries, and every kept entry is current |
| Queue.SiftIs | translation_queue_memory.go:111-153 | a rebuild keeps, in order, just the entries that are current, payable in their turn and admitted; what else it applies leaks |
| Queue.AddSolventIff | translation_queue_memory.go:41-54 | from a solvent queue, Add leaves it solvent exactly unless a new, payable consideration is then rejected by the descent check |
| Queue.LeaksIff | translation_queue_memory.go:136-149 | a rebuild leaks exactly when it meets a current, payable entry that the check rejects |
| Queue.RebuildSolventIff | translation_queue_memory.go:111-153 | after a rebuild under any check: solvent exactly when the late rejections net to nothing and what is kept is covered |
| Queue.OrderNeverCancels | translation_queue_memory.go:136-149 | under a check that is an order, late rejections never net to nothing |
| Queue.OrderedSolventIff | translation_queue_memory.go:111-153 | under such a check, a rebuild leaves the queue solvent exactly when it rejects nothing late |
| Queue.ConsiderationQueueMemory.Add | translation_queue_memory.go:32-59 | adds exactly new, payable, admitted considerations at the back; one that is rejected late is applied to the cache all the same |
| Queue.AddKeepsSettled | translation_queue_memory.go:32-59 | adding what could be in the next count keeps a settled queue settled, late rejections included |
| Queue.AccountsSolventIff | translation_queue_memory.go:32-59 | a queue whose cache accounts for it is solvent exactly when what leaked nets to nothing and its entries are covered |
| Queue.LeakedSolventIff | translation_queue_memory.go:32-59 | if some order rejects all that leaked, exactly when nothing leaked |
| Queue.ConsiderationQueueMemory.AddBatch | translation_queue_memory.go:63-82 | a disconnected count's transfers go to the front in order, each once |
| Queue.ConsiderationQueueMemory.RemoveBatch | translation_queue_memory.go:87-108 | confirmed entries leave; after the last connect of an event the queue is rebuilt from the rest |
| Queue.ConsiderationQueueMemory.ReprocessQueue | translation_queue_memory.go:111-153 | the in-place rebuild keeps exactly what one pass in order over a fresh cache keeps |
| Queue.ConsiderationQueueMemory.Get | translation_queue_memory.go:156-174 | the first entries, or all |
| Queue.ConsiderationQueueMemory.ExistsSigned | translation_queue_memory.go:185-193 | true exactly if an entry has this ID and this signature |
| MedianTime.MedianNeverGoesBack | processor.go:743-760 | a timestamp above the median never lowers the next median, in windows shorter than eleven too |
| MedianTime.RankOf | processor.go:756-759 | in sorted order an entry is at least m exactly when not too many entries are below m |
| MedianTime.MedianIsMiddle | processor.go:743-760 | at most half of the last eleven timestamps are below the median, and more than half are not above it |
| MedianTime.BelowCounts | processor.go:756-759 | counting entries below a number gives the size of the set of their indices |
| Work.WorkAntitone | stage.go:144-154 | a harder target stands for at least as much work, every usable target for some |
| Work.WorkIsGreatest | stage.go:144-154 | the work of a target is the greatest q with q*(target+1) at most 2^256 |
| Work.PreferenceIs | stage.go:185-215 | more work, then the earlier time stored, then the lesser hash |
| Tree.WorkGrows | stage.go:157-163 | point work grows strictly along every path of stored counts |
| Tree.MedianMonotone | processor.go:566-573 | along every stored path the median a count had to exceed never decreases |
| Tree.BetterIsStrictTotalOrder | stage.go:185-215 | Compare is a strict total order on stored counts |
| Tree.BetterThanAncestors | stage.go:185-215 | a count beats each of its ancestors |
| ChainSelection.StoreKeepsStructure | processor.go:600-603 | storing a checked count keeps the tree, the checks of all stored counts and all other paths |
| Acceptance.ContinueKeepsStructure | processor.go:783-855 | whether or not the new path connects, the chain is sound and the ancestry of a known tip |
| Acceptance.BackFromBranch | processor.go:902-919 | if the old tip beats where the new branch stopped, its branch comes back as far as the check admits it, and no further |
| Acceptance.StaysOnBranch | processor.go:776-781 | if it does not, the chain stays where the new branch stopped |
| Acceptance.RollbackIff | processor.go:609-627 | from any state, a failed event leaves the chain as it was exactly when the old tip is the tip or beats it and the disconnected counts are still admitted |
| Acceptance.RejectionStrays | processor.go:609-627 | a reorganisation strays when one count of the new branch does not connect and one of the old is no longer admitted |
| Acceptance.FlagsIff | processor.go:776-781 | a count of the chain comes to be called SIDE exactly when the new branch goes on from the tip, connects and then fails; it is the old tip |
| Acceptance.BestStraysIff | processor.go:609-627 | where the tip is the best known count, a failure strays exactly when a disconnected count is no longer admitted, and flags nothing |
| Acceptance.AcceptKeepsBestIff | processor.go:776-781 | after accepting a count the tip is the best known count exactly when the event does not stray |
| Runs.ExtendsTip | processor.go:605-627 | a count on top of the tip that connects becomes the tip, and changes nothing else |
| Runs.StepKeepsInv | processor.go:358-402 | every event keeps tree, chain and branch types consistent, and the best tip best exactly when it does not stray |
| Runs.StepFlagsIff | processor.go:358-402 | processing a count calls a count of the chain SIDE exactly when it overtakes |
| Runs.ReachableTipIsBest | processor.go:358-402 | in every state a run without strays reaches, the tip beats every other MAIN or SIDE count, and no count of the chain is called SIDE |
| Runs.ReachableLedger | processor.go:358-402 | in every reachable state, after losses too: the chain is the tip's ancestry, no ID twice, no debts, scheduled supply, balance equals history |
| Runs.StoredIsChecked | processor.go:405-505 | whatever a run stores hashes to at most its target, commits to its list and its length, is not from the future, and repeats no ID |
| Runs.StoredIsFormed | processor.go:266-338 | every stored consideration has 32-byte keys, a memo of 150 bytes at most and, but for the counterpoint, a verified 64-byte signature |
| Runs.StoredFitsParent | processor.go:526-573 | whatever a run stores above genesis is one above its stored parent, adds its work, and comes after the median |
| Runs.ConfirmedInTime | processor.go:575-598 | a transfer the chain confirms is mature, not expired and of an acceptable series at its height; genesis confirms none |
| Runs.CounterpointSeries | processor.go:341-355 | a counterpoint of the chain has the series of its height |
| Following.QueueCases | processor.go:858-899 | what an event leaves in the queue: rebuilt from edited entries, edited under the old cache, or untouched |
| Following.StaleAccountsIff | translation_queue_memory.go:63-108 | a cache that was not rebuilt still accounts for the queue exactly when what moved offsets |
| Following.SettledIff | translation_queue_memory.go:63-108 | accepting a count leaves a settled queue settled exactly under the condition on the event |
| Following.StepSettledIff | processor.go:358-402 | so does processing a count |
| Following.SolventIff | translation_queue_memory.go:63-153 | under a check that is an order, an event leaves a solvent queue solvent exactly when its rebuild rejects nothing late, or what it moved offsets |
| Following.ConsiderKeepsSettled | processor.go:187-263 | processing a consideration leaves a settled queue settled |
| Following.FreshIsQueued | processor.go:187-263 | a transfer made out for the next count, signed, payable and admitted, is queued at the back and leaves the queue solvent |
| Losses.LossOffsetsIff | translation_queue_memory.go:63-82 | after a loss the old cache accounts for the queue exactly when no cached key loses a matured counterpoint, the lost transfers net to nothing for other keys, and the entries are covered |
| Losses.LossKeepsSettledIff | processor.go:605-627 | an event that loses counts to a branch without transfers keeps the queue settled exactly then, if the entries are current |
| Idle.AlwaysSettled | processor.go:84-122 | in every state of a run of counts and considerations without strays the queue is settled |
| Idle.LeakedIff | processor.go:84-122 | something leaked exactly when an input since the last rebuild was rejected late |
| Idle.SolventUnlessLate | processor.go:84-122 | in every state of such a run with no late rejection since the last rebuild, the queue is solvent |
| Idle.SolventIffNotLate | processor.go:84-122 | and in no other, if the run's descent checks lie within one order |
| Idle.Run | processor.go:84-122 | the processor that takes the inputs in turn holds exactly the state and the queue of that run |
| Scenario.LostRun | processor.go:605-627 | a run from genesis with signed inputs and the graph's own check that loses its last count, unsettles the queue, and then calls its tip SIDE |
| Scenario.LateRejection | translation_queue_memory.go:41-54 | on that chain, a payment rejected late lets in one that nobody can pay |
| Processor.Processor.FindFork | processor.go:789-831 | both walks end at the deepest common ancestor, listing just what to leave and what to connect, in order |
| Processor.Processor.ConnectCount | processor.go:880-899 | ledger and queue after a connect, success and failure |
| Processor.Processor.DisconnectCount | processor.go:858-877 | ledger and queue after a disconnect |
| Processor.Processor.SwitchBranch | processor.go:783-855 | the chain ends at the first count of the new path that does not connect, or at its tip |
| Processor.Processor.AcceptCountContinue | processor.go:763-855 | one call, for a new count or the old tip, adopts the path as far as it connects; the queue follows |
| Processor.Processor.ExtendPoint | processor.go:605-627 | the call and, on failure, the second call for the old tip, from every consistent state |
| Processor.Processor.ComputeMedianTimestamp | processor.go:743-760 | walking back at most eleven headers finds the middle one of the last eleven timestamps of the branch |
| Processor.Processor.CheckConsiderations | processor.go:575-598 | passes exactly if every consideration may be included, although queued signatures are not verified again |
| Processor.Processor.CheckAgainstParent | processor.go:526-598 | passes exactly if the count fits its parent |
| Processor.Processor.MainIsAncestry | processor.go:783-855 | between events, after losses too, height index, both indices and balances are those of replaying the tip's ancestry, and MAIN counts are that ancestry without the counts flagged SIDE |
| Processor.Processor.AcceptCount | processor.go:526-627 | from every consistent state: takes exactly the step, with an error exactly when it fails; the queue follows |
| Processor.Processor.ProcessCount | processor.go:358-402 | from every consistent state, processing a count is one step of chain and queue, with an error exactly when the step fails |
| Processor.Processor.SettledAfter | processor.go:358-402 | after it the queue is settled exactly under the condition on the event |
| Processor.Processor.ProcessConsideration | processor.go:187-263 | queues exactly the acceptable, payable, admitted considerations; a settled queue stays settled |
| Processor.QueuedIsVerified | processor.go:587-597 | an entry with the same ID and signature is the same consideration, so its verification stands |
| Processor.NeverConfirmed | processor.go:205-211 | a consideration with a current series that the pruned index does not list was never confirmed |
| Renderer.NextCountConnects | renderer.go:252-279 | any prefix of a settled and solvent queue behind a fresh counterpoint connects exactly when the descent check admits it |
| Renderer.NextCountExtends | renderer.go:252-279 | such a count passes every check of the ledger on its balances, IDs, series and place |
| Renderer.RenderedCountIsNext | renderer.go:252-279 | with its proof of work such a count passes every check of the processor and becomes the tip |
| Renderer.IdleCountIsNext | renderer.go:252-279 | so it is in every state of a run without strays in which nothing was rejected late since the last rebuild |
| Renderer.CreateNextCount | renderer.go:252-279 | the rendered count names the tip, height, target, work and the front of the queue |
| Renderer.CounterpointPasses | renderer.go:252-279 | the rendered counterpoint passes every check on a counterpoint at its height |
| Renderer.RenderedCount.AddConsideration | stage.go:83-98 | the root updated from the running hash is the root of the whole new list |
| Renderer.RootCommits | stage.go:101-141 | without hash collisions the root determines the IDs of the list, in order |
| HeaderHasher.CountHeaderHasher.Update | stage_header_hasher.go:148-282 | after any changes of the four fields the buffer holds the full JSON, from which each of the eight names reads back the field of the header, and the hash is that of the buffer; no write leaves it |
| HeaderReader.SerializeReads | stage.go:166-172 | the JSON is an object in which each of the eight names stands for the number in that field |
| HeaderReader.HexReads | stage_header_hasher.go:85-115 | 64 hex digits stand for the number they were written for |
| HeaderReader.DecReads | stage_header_hasher.go:116-145 | so do the decimal digits |
| HeaderHasher.CountHeaderHasher.InitBuffer | stage_header_hasher.go:78-145 | fills the buffer with the full JSON and records where each field is |
| HeaderHasher.CountHeaderHasher.UpdateTime | stage_header_hasher.go:168-201 | the bytes up to the nonce are right, later bytes are untouched, and the shift is the change in length |
| HeaderHasher.CountHeaderHasher.UpdateNonce | stage_header_hasher.go:203-228 | likewise up to the count, also where the nonce cancels the shift of the time |
| HeaderHasher.CountHeaderHasher.UpdateCount | stage_header_hasher.go:230-251 | likewise to the end |
| HeaderText.Fits | stage_header_hasher.go:62-75 | no header in range is longer than the buffer |
| HeaderText.SerializeInjective | stage.go:166-172 | two headers with the same JSON are the same header |
| Graph.PaddableIff | utils.go:136-156 | the code asks for a negative number of zeros exactly for the names that are not paddable |
| Graph.PlusCodePanics | utils.go:136-156 | a plus code of 43 characters is such a name |
| Graph.PadsApart | utils.go:136-156 | two short names without a slash are padded to different keys |
| Graph.LinkedSays | tranxlation_graph.go:82-123 | Link adds the weight to one edge and to its source's outbound total and changes nothing else said of any name |
| Graph.WithWeightBalances | tranxlation_graph.go:106-122 | outbound stays the sum of the weights of the outgoing edges |
| Graph.Graph.Link | tranxlation_graph.go:82-123 | the maps after a link, for new and known names and edges |
| Graph.Graph.SetImbalance | tranxlation_graph.go:60-78 | the maps after a change of imbalance, and the value returned |
| Graph.Graph.Dfs | tranxlation_graph.go:213-233 | finds only real paths; if it fails, what it marked is closed under steps |
| Graph.Graph.IsParentDescendant | tranxlation_graph.go:197-211 | true exactly if both keys are indexed, neither is the root and a path avoiding the root exists, for every iteration order |
| Graph.AcyclicIff | tranxlation_graph.go:196-233 | a new edge closes a cycle exactly when its target reached its source |
| Graph.LinkKeepsAcyclicIff | tranxlation_graph.go:196-233 | linking two non-root keys keeps the graph below the root acyclic exactly when the check passed |
| Graph.TieKeepsAcyclicIff | tranxlation_graph.go:82-123 | linking any two names keeps the graph below the root acyclic exactly when one is the root, or they differ and the target does not reach the source |
| Graph.PairClosesCycle | ledger_disk.go:203-220 | two opposite transfers checked against the same graph both pass and close a cycle |
| Descent.AcyclicIff | indexer.go:232-369 | any list of changes leaves the graph acyclic exactly when it was and every tie passes in its turn |
| Descent.CountKeepsAcyclicIff | indexer.go:232-369 | so does a whole count, with the places its keys name |
| Descent.TransfersKeepAcyclicIff | indexer.go:262-287 | if no key names a place: exactly when each transfer passes on the graph that those before it leave |
| Descent.PassingIsAdmitted | ledger_disk.go:203-220 | then the ledger's check admits them all |
| Descent.SingleTransferIff | ledger_disk.go:203-220 | for a count with one transfer the check admits it exactly when the graph stays acyclic |
| Descent.AcyclicIsOrder | tranxlation_graph.go:196-233 | on an acyclic graph the check is transitive and antisymmetric |
| Descent.OppositeTiesFail | indexer.go:318-335 | two opposite ties leave a cycle, whatever the graph was and whatever comes between them |
| Descent.RepeatedNodeFails | indexer.go:318-335 | a key that names one node of a place twice in a row leaves a cycle |
| Rank.Pass | tranxlation_graph.go:256-284 | after one pass every node has what the others bring it plus its even part |
| Rank.SharesAddUp | tranxlation_graph.go:246-255 | normalized weights of a node with positive outbound total add up to 1 |
| Rank.NextMass | tranxlation_graph.go:256-284 | a pass from total 1 loses just alpha times the ranking of nodes with negative outbound total |
| Rank.RankKeepsMassIff | tranxlation_graph.go:256-284 | hence the total stays 1 exactly when that is zero |
| Rank.RankGraph | tranxlation_graph.go:241-292 | all nodes start alike, and in every pass each gets what its sources hand over in proportion to their edges, and an even part; the total is 1 when no outbound total is negative |
| Indexer.IndexUndo | indexer.go:232-369 | indexing a count and taking it out restores every weight, outbound total and imbalance |
| Indexer.ApplyAllSays | indexer.go:232-369 | every weight, outbound total and imbalance moves by the signed sum of the changes |
| Flow.ConsiderationNet | indexer.go:276-369 | the sender passes on one unit; the recipient keeps it or, if its key names a place, passes all of it on to the root, and every name between passes on what it is given |
| Indexer.Indexer.IndexConsiderations | indexer.go:232-369 | the loop makes exactly the listed changes, with one sign for connecting and the other for disconnecting |
| Indexer.FollowsAll | indexer.go:158-170 | after any series of tip changes the graph says what the counts of the resulting chain add up to |
| Notices.RunLeads | processor.go:858-899 | the tip changes a run announces only ever disconnect the tip, and lead to the chain of the run |
| Notices.RunIsFollowed | indexer.go:158-170 | so the graph built from them stands for that chain, after losses too |
| Indexer.ImbalanceIsBalance | indexer.go:250-254 | a non-root key's graph imbalance is its ledger balance plus its immature counterpoints |
| Indexer.FollowedIsNonNegative | indexer.go:372-374 | a graph that follows the ledger has no negative outbound total |
| Indexer.RootIsNodeZero | utils.go:128-133 | the first count indexed makes the sender of all counterpoints node 0 |
| Retarget.ComputeTargetBitcoin | processor.go:638-693 | the previous target, or at an interval's end the scaled one |
| Retarget.OriginalRuleBounds | processor.go:666-692 | one step moves the target by a factor of four at most and never above the initial target |
| Retarget.OriginalRuleScales | processor.go:666-692 | between its bounds the target scales with the time of the interval; exactly two weeks keep it |
| Retarget.SlowerIsEasier | processor.go:666-692 | a slower interval never makes the target harder |
| Retarget.ComputeTargetBitcoinCash | processor.go:696-740 | the target for the expected work of the last 144 counts; it never divides by zero |
| Retarget.ExpectedWorkBounds | processor.go:709-722 | the expected work is between a 288th and a 72nd of the window's work, and positive |
| Retarget.ExpectedWorkIs | processor.go:709-722 | the expected work is the window's work per ten minutes of the time the window took, within half and twice that |
| Retarget.LaterIsEasier | processor.go:709-739 | for equal work, a window that took longer never expects more work and never gives a harder target |
| Retarget.RetargetIsOptimal | processor.go:724-739 | for work up to 2^255 the rule gives the easiest target, up to the initial one, that stands for the work |
| Retarget.RevisedTargetIsOptimal | processor.go:696-740 | so on every branch whose point work fits in 32 bytes |
| Retarget.BranchStaysUsable | processor.go:559-564 | a count with the demanded target keeps the branch usable by both rules exactly when the target is not zero |
| Retarget.ComputeTarget | processor.go:630-636 | the rule for the height, always defined on a usable branch |
| Retarget.WhichRule | processor.go:630-664 | up to height 28861 the target changes only every 2016 counts, from the count 2016 below the last; then the revised rule holds |
| Retarget.TargetIsDefined | processor.go:630-740 | on a usable branch the rule for its height never divides by zero and gives at most the initial target |
| Targets.RunKeepsUsable | processor.go:559-564 | in every run whose events carry the demanded target, every stored count has the target its branch demands, and every branch sums its work |
| Targets.NextTarget | processor.go:630-636 | so the next target is defined on every stored branch, and at most the initial one |
| Bytes.SetBigInt | stage.go:242-252 | the bytes become the number, zero-padded |
| Bytes.GetBigInt | stage.go:255-257 | reads the number whose bytes these are |
| Bytes.LessIsNumeric | ledger_disk.go:969-992 | big-endian bytes of one width compare as the numbers do |
| RangeQuery.DecodeEncode | ledger_disk.go:969-1012 | decoding an encoded key gives back owner, height and index |
| RangeQuery.KeyOrder | ledger_disk.go:969-992 | byte order of one owner's keys is (height, index) order |
| RangeQuery.RangeIsScan | ledger_disk.go:681-699 | the wanted rows are one block of the table, between the two keys |
| RangeQuery.RangeForward | ledger_disk.go:681-740 | a forward scan returns exactly the inclusive range in order, up to the limit, or the first missing height |
| RangeQuery.RangeReverse | ledger_disk.go:743-803 | a reverse scan returns it backward |
| RangeQuery.ResumeAfter | agent/main.go:457-466 | resuming one index past a page's last place gives just what the page left out |
| RangeQuery.AllPages | agent/main.go:457-478 | the pages together are the whole range, without gaps or repeats |
| KeyHistory.RangeIsHistory | ledger_disk.go:681-740 | a scan meets exactly the indexed considerations of the chain that involve the key, between the two places |
| KeyHistory.NoHeightIsMissing | ledger_disk.go:681-740 | on the tables of a chain a page always comes, and names the counts of the chain |
| Locator.HeightsDecrease | peer.go:1049-1070 | the listed heights strictly decrease and stay above genesis |
| Locator.ListedGaps | peer.go:1049-1070 | eleven steps of one, then each twice the one before, until the next would reach genesis |
| Locator.LocatorFinds | peer.go:1049-1070 | logarithmically many entries; the hit is the highest listed shared height and no farther below the fork than the fork is below the start |
| Locator.Peer.SendFindCommonAncestor | peer.go:1027-1084 | the list for the tip, or for a stored start, on or off the main chain |
| Locator.Peer.OnFindCommonAncestor | peer.go:1087-1136 | hits exactly on main-chain counts, and answers with the contiguous run that follows |
| Locator.InventoryIs | peer.go:1112-1125 | the run that follows is in chain order and 500 counts long, unless the chain ends before |
| Locator.Peer.FindCommonAncestor | peer.go:559-576 | stops at the first listed count that hits |
| Locator.ChainsShare | peer.go:1087-1136 | two chains always share exactly the counts up to some height |
| Locator.SyncFinds | peer.go:559-576 | asking from the tip, the answer is that hit for the two chains |
| Locator.SyncFindsUnflagged | peer.go:1087-1106 | if the other side has flagged counts, which it does not answer for, the hit is the highest listed count that both share and is not flagged |
| Locator.ConsistentServes | peer.go:1087-1106 | the ledger an idle processor keeps has what both sides rely on |

## Left out

* Network, TLS, DNS, UI, key management, signatures, hashing and compression: foreign code or plumbing.
* LevelDB, JSON parsing and file storage: a batch is one atomic assignment; missing rows that the code reports as errors are proved not to occur.
* Goroutines, channels and locks: events are processed one at a time, as the processor does; of the notifications only which tip changes are announced is modelled.
* The descent check inside the ledger theorems is an arbitrary predicate, because another goroutine updates the graph; `Graph` and `Indexer` treat the graph itself.
- Processor.Processor.CheckAgainstParent: takes the expected target from the event, as the rule reads a side branch's 144-back ancestor off the main chain; `Retarget` and `Targets` treat the rules on a branch.
- Renderer.CreateNextCount: takes the expected target as a parameter for the same reason.
- Retarget.ComputeTargetBitcoinCash: takes the 144-back ancestor from the branch, where the source looks it up on the main chain; the two are the same for a branch that leaves the main chain above it.
- Ledger.LedgerDisk.ConnectCount: requires the height, the earlier checks and the stored count that the source method does not look at; `Processor.Processor.ConnectCount` proves them at the only calls.
- Ledger.LedgerDisk.DisconnectCount: the genesis count and counts that are not stored are excluded; `Processor.Processor.DisconnectAll` shows that no call asks for them.
- Ledger.LedgerDisk.GetPublicKeyImbalanceAt: heights below the tip are only described, as the code judges maturity at the tip.
- Ledger.ImbalanceCache.Undo: requires the balance whose absence makes the code panic; `UndoCount` shows it is always there.
- Bytes.SetBigInt: requires a number of at most 32 bytes; the code panics on longer ones.
- Queue.ConsiderationQueueMemory: the linked list is a sequence of elements with serial numbers for addresses; its pointers are not modelled.
- Indexer.Indexer.IndexConsiderations: requires `Readable`, which excludes the keys on which padding panics (see Padding above); pseudonyms, ratings and times it keeps in memory are not modelled, nor are locale parsing, calendar and DiminishingOrders, which are functions of the model; edge heights and times are not restored by a disconnect.
- Rank.RankGraph: the number of passes is a parameter; convergence and floating-point rounding are not treated.
- Graph.Graph: the wrap of node numbers at 2^32 is not modelled.
- HeaderHasher.CountHeaderHasher.Update: negative field values are excluded, as the buffer has no room for a sign; the disabled GPU path is left out.
* The UTF-8 check of memos and the empty checkpoint table always pass in the model; of `computeMaxConsiderationsPerCount` only a lower bound is proved.
* Count and download queues, peer storage and address management would add easy members only.
