# manifestus, modelled and proved

manifestus is a crash-proof keyed store. Values hang off a copy-on-write 32-way trie that lives in the log it indexes
(the tract); every commit is one generation-numbered entry in a ring of slots (the spine); both lie on a mirror of block
devices. This project models the engine in Dafny and proves what it promises over every run, every cut of the power and
every device content.

`dafny verify dfyconfig.toml` checks everything.

## What is proved

* **Power cuts.** A drive keeps what was flushed and, of the writes in flight, any subset, whole or torn
  (`Devices`). `Vaults.Vault` takes the protocol's steps in place; each method says that every moment of the drive's
  history since its start, cut there, restores a generation of the log, none older than the newest at the start
  (`Progress`). `Outages.Play` composes this over any run of commands, refused ones included, and
  `Outages.CutAndReopen` opens whatever the cut left: the map read is exactly that of the newest generation whose entry
  landed, and that is what one of the commands may commit over a map possible when it began; with none refused, the
  edits of the run's first commands and what the next one may commit of its own (`DoneExplains`).
* **The state between calls** (`Sessions.Good`). Cursors in order, clean space free of the head's blocks, the live set
  equal to what the head references, the index and its delta balanced against it, staged blocks off the head, the last
  generations behind the fence. `EditKeeps`, `BeatKeeps`, `CommitKeeps`, `GrowKeeps`, `StageReapKeeps`, `OpenKeeps` and
  the rest keep it through every kind of step; `FenceProtects` and `TwoCursors` say what it gives.
* **The last K generations.** A generation stays whole until the plow passes a budget of its window, fence or no fence
  (`IntactAppended`), and is always kept out of reach of the budgets, across grows and crossings too. So while the plow is
  not past a fence in force the last K read back and no cursor the fence allows lands on any of them (`FenceProtects`).
  `RunProtects` and `CutProtects` say it of any run that starts with the fence in force and never waives it, at every cut
  too. Commits, deletes, reaps and grows never waive. The one exception is a generation whose own commit overran it
  (`Overrun`); from nothing uncommitted only a batch of several operations can do that.
* **The trie.** `Trie` is the index as a value with the laws of its edits, `Hamts.Hamt` the arena edited in place, proved
  to denote them. A reap window (`ReapWindow`) changes no lookup and leaves nothing live behind; moved blocks find their
  parents by their own address.
* **Head search.** The branching bisect agrees with looking at every slot, whatever slots are unreadable, and an open finds
  the ring from its first slots (`Load`).
* **Fence and heartbeats.** The ladder ends, and after K heartbeats the fence is the head's own budget.
* **Batches.** The committed map is the fold of the operations, whatever rollbacks, rescues, grows and replays it took;
  `ReplayExact` says for which batches every generation on the way is a prefix of that fold. A refused batch leaves the
  saved map and the current one each on the way to it.
* **Walks, repair, resync.** The work-list walk ends on any device and finds what the recursive one does; a repairing open
  keeps exactly the keys all of whose blocks are sound, and cut short it can be begun again with the same ones
  (`CutAndRepair`); a resync brings the loser to the winner's ring and live blocks, and a second one copies nothing.

## How it is modelled

A seal is a collision-free hash, so a document stands for its own hash and a committed pointer (hash, position) is the
document together with its position: a `Tree` placed `At(lba)`. Following it means comparing what the device holds there
with that document. Decoding of sealed blocks is injective, and what `doc_of` and `decode` check of fields stays in
(`Hamts.DocFits`, `Rings.Geometry`). Ring size, tract length, window, furrow capacity and cache size are parameters;
K is 4. Keys are their 52 routing chunks; `Keys` relates these to the 32 bytes.

Classes are the source's structs with their fields: `Device`, `Mirror`, `LiveSet`, `Tract`, `Hamt`, `Ring`, `Vault`,
`Visited`. Ghost fields record what no code reads: a drive's history, the log of generations, where the plow stood when
the pending edits began (`since`), how often a commit overran its own generation and how often the fence was waived
(`strayed`, `waived`), and the oldest generation of the log not given up, now and when the plow was last put back
(`floor`, `taken`). An error satisfying `Down` means a device did not take a write: the session is
over and the drive is opened again.

| file | source |
|---|---|
| `Blocks`, `Keys` | keys, documents, blocks, errors; `chunk` and `route_with_chunk` |
| `Runs`, `Trie`, `Media`, `Arenas`, `Placing`, `Moves`, `Patching`, `Windows`, `Hamts` | `src/hamt.rs` |
| `Walks`, `Repairs` | the walks of `src/hamt.rs` |
| `Devices`, `Mirrors` | `src/mirror.rs` over a block device |
| `Tracts` | `src/tract.rs`, `LiveSet` of `src/vault.rs` |
| `Rings`, `Generations` | `src/ring.rs` and what a device restores |
| `Sessions`, `Barriers`, `Batches`, `Vaults`, `Interrupts`, `Salvages`, `Replicas` | `src/vault.rs` |
| `Outages` | whole runs |

## What the code does not promise

* **Prefixes after a replay.** A full replay starts over from a generation that already holds some of the operations, and
  may give up again: what it commits on the way need not be a prefix of the batch's fold. `Batches.ReplayExact` is the exact
  condition, on the operations alone: any three partial passes must leave every key as some prefix does (`Replayable`).
  `Batches.ReplayNotPrefix` is a batch of four that fails it, with the two passes; giving each key one outcome suffices
  (`ConsistentReplays`) and is not needed (`TwiceReplays`). `Vault.ApplyBatch` states its generations with that condition.
* **Clean space.** A reap inside a batch's ladder can take a window past appends of the same batch, which the live set does
  not know. `Sessions.CommitSpace` is the exact condition: the clean space a commit leaves is clean of its own root if and
  only if the part of the window past `since` holds no block the pending edits added and did not remove.
  `Barriers.CrossingBreaks` is a state, with its window and its commit, in which it does; from there only the append's lap
  guard keeps those blocks. Such a generation is told from its entry alone (`Generations.Overrun`), and is the only one the
  fence does not keep. The committed head stands throughout.
* **K generations.** The fence is in force only once K generations exist, and a rescue waives it. Then an append past a
  budget can overwrite an older generation: `Barriers.UnfencedLoses` is a state and the appends that do.
  `Sessions.AfterAppend` says which generations such appends give up, and no others are.
* **Rings whose first slots are gone.** An open looks for the ring's size in the first sixteen slots. Over a ring of more
  slots, with none of those readable but slot 0, a cut of the append that comes round to it leaves no ring to be found
  (`Generations.LastFoundTorn`); one more readable slot among them is enough, now and for good (`Lasting`).
* **Deletes after a refusal.** A refused delete stays pending. Deleting the key again then answers that it was absent and
  commits nothing, so the delete is durable only with the next commit that is accepted; `Delete` and `Play` say so.
* **Sizes.** A repair checks a furrow's owner and index, not how many bytes all of them carry. `Repairs.MendedShort` is a
  leaf it keeps whose value no read returns; `SafeMap` says so for each key (`Short`).
* **The eager walk** records furrows only where something sealed lies, the open's walk by position
  (`Walks.EagerWalk.Visit`, and `Walks.WalksDiffer` for an index on which they differ); over a healthy index they agree.
* **Resync.** Two devices that show the same head in the same slot and are of one size are taken for equal, whatever their
  live blocks: `Replicas.MissedRot` is such a pair, and `Replicas.VerifiedReplicate` states when they end in sync.

## Model

| member | source | states |
|---|---|---|
| `Runs.CheckRuns` | src/hamt.rs:1334-1355 | a run list is accepted exactly when every run lies in the tract and the total does not pass it, and the total returned is the number of furrows named; anything else is Corrupt |
| `Runs.ExpandRuns` | src/hamt.rs:1358-1373 | succeeds exactly when the runs pass the check and name as many furrows as the size needs; the result lists every furrow's position in order |
| `Runs.CompressRuns` | src/hamt.rs:1376-1385 | the runs expand to exactly the positions given, none is empty, and there are no more of them than places where a position does not follow its predecessor |
| `Runs.RoundTrip` | src/hamt.rs:1358-1385 | compressing an in-tract position list of the right count and expanding it with every check gives the list back |
| `Runs.FreshAppendBreaks` | src/tract.rs:130-137 | positions of one append are consecutive but for at most one wrap, so they compress to at most two runs |
| `Runs.ShardJoins` | src/hamt.rs:304-325 | a value cut into furrow payloads has as many as its size needs, each within a furrow's capacity, and joining them gives the value |
| `Keys.ChunkBit` | src/hamt.rs:32-39 | each bit of a chunk is the key's bit at five times the depth plus its place; past bit 255 it reads zero |
| `Keys.KeysDiverge` | src/hamt.rs:28-31 | two distinct 256-bit keys differ in some chunk below depth 52 |
| `Keys.RouteBit` | src/hamt.rs:77-90 | setting a chunk sets exactly the five bits of the key it covers, those the key has, and no other |
| `Keys.RouteChunk` | src/hamt.rs:77-90 | the route carries the slot at its depth if and only if that depth can hold it (at depth 51 only the top bit exists), and every other chunk is as it was |
| `Keys.KeyOfInjective` | src/hamt.rs:28-39 | keys as chunk sequences decide the bytes, so nothing is lost by routing on chunks |
| `Keys.KeyOfOnto` | src/hamt.rs:28-39 | a chunk sequence is some key's if and only if its last chunk is a multiple of sixteen |
| `Keys.RouteKey` | src/hamt.rs:77-90 | on chunks the byte-level setter replaces exactly one chunk: the setter the walk threads its routes with |
| `Keys.ThreadedKey` | src/hamt.rs:735-741 | a route threaded chunk by chunk from zero reads back every chunk of the path |
| `Trie.FindIsMembership` | src/hamt.rs:202-265 | in a self-addressing trie the routed search for a key finds a leaf if and only if that leaf hangs anywhere in it |
| `Trie.SplitSeparates` | src/hamt.rs:390-404 | a split over two distinct keys ends within the key; under it each key finds its own leaf and no other key finds anything |
| `Trie.SplitPos` | src/hamt.rs:390-404 | the split's chain references the two leaves' blocks and nothing else, each once |
| `Trie.InsertMaps` | src/hamt.rs:335-388 | an insert keeps the trie self-addressing, its key finds the new leaf and every other key what it found before |
| `Trie.InsertPos` | src/hamt.rs:335-388 | an insert frees exactly the nodes on its path and the old leaf of its key with its furrows, and references exactly the rest and the new leaf |
| `Trie.RemoveMaps` | src/hamt.rs:448-501 | unlinking a key's leaf removes that key and changes no other lookup |
| `Trie.RemovePos` | src/hamt.rs:411-501 | a delete frees exactly the path's nodes, the leaf and its furrows |
| `Trie.GraftFind` | src/hamt.rs:461-501 | a copy-on-write edit answers below the end of its path as what was put there does |
| `Trie.GraftKeeps` | src/hamt.rs:461-501 | keys that leave the edited path before its end are answered as before |
| `Trie.GraftPos` | src/hamt.rs:461-501 | an edit's positions are the old ones less the superseded path and what hung at its end, plus what was put there; no position gets two roles |
| `Media.ContentInsert` | src/hamt.rs:270-333 | on a device, inserting a leaf makes the map the old one with that key set to the leaf's value |
| `Media.ContentRemove` | src/hamt.rs:411-445 | on a device, removing a leaf makes the map the old one without that key |
| `Media.ContentKept` | src/tract.rs:106-138 | writes that miss every referenced position leave the map as it was: an earlier root keeps denoting its map |
| `Arenas.Framed` | src/hamt.rs:138-172 | a slot of the arena sees only the entries it owns, so edits elsewhere leave what it denotes |
| `Arenas.Link` | src/hamt.rs:461-501 | linking what a recursive edit returned into its parent entry edits exactly that child of the denoted trie and keeps the arena a tree |
| `Arenas.NewFork` | src/hamt.rs:390-404 | a new entry with two pointers denotes a fresh node with exactly those two children |
| `Devices.ImageBetween` | src/mirror.rs:27-50 | whatever a power cut leaves of a batch, each position holds the block before, the block written, or a torn one, and only positions of the batch can differ |
| `Devices.WriteOne` | src/mirror.rs:420-433 | success means the block is flushed and read back equal; one retry, then a device error; no other position changes at any moment |
| `Devices.RunsOf` | src/mirror.rs:52-62 | the cuts are exactly where a position does not follow its predecessor, from the first block to the end |
| `Mirrors.StableSort` | src/mirror.rs:187-205 | ascending by position, and the last block of each position stays the last |
| `Mirrors.Dedup` | src/mirror.rs:187-205 | one block a position remains, the last one staged there |
| `Mirrors.WriteEach` | src/mirror.rs:27-50 | success leaves the device exactly overwritten with the batch and flushed; every moment meanwhile shows only writes of that batch |
| `Mirrors.Search` | src/mirror.rs:161-185 | the binary search of the cache says whether a position is there, and where or where it belongs |
| `Mirrors.Mirror.StageOne` | src/mirror.rs:141-153 | what reads show becomes the block array with that position set, nothing written yet, the cache still true |
| `Mirrors.Mirror.ReserveStaged` | src/mirror.rs:134-140 | reserving room for a batch changes nothing that is read or will be written |
| `Mirrors.Mirror.Read` | src/mirror.rs:319-333 | returns the block array's block at that position, staged or on the device, or an out-of-bounds error |
| `Mirrors.Mirror.ReadCached` | src/mirror.rs:161-185 | the same answer as an uncached read; cache entries stay equal to the device and the cache within its size |
| `Mirrors.Mirror.ReadRun` | src/mirror.rs:335-351 | returns exactly the array's blocks of the run |
| `Mirrors.Mirror.ReadMany` | src/mirror.rs:353-367 | returns each position's block of the array, or an error when one is out of bounds |
| `Mirrors.Mirror.Drain` | src/mirror.rs:187-205 | success leaves each device still in the mirror with the newest staging of every position, and reads unchanged; every moment meanwhile shows only staged blocks |
| `Mirrors.Mirror.WriteBatchNow` | src/mirror.rs:234-287 | the primary must take the batch; a secondary that does not leaves the mirror |
| `Mirrors.Mirror.WriteVerifiedBatch` | src/mirror.rs:229-287 | staged blocks land first and the batch after them; each device still present ends with both |
| `Mirrors.Mirror.WriteVerified` | src/mirror.rs:207-227 | everything staged lands before the block does, so a cut sees a partial drain or a partial write of that one position, never both |
| `Mirrors.Mirror.Grow` | src/mirror.rs:289-317 | what was staged lands first; then the block array is the old one and zeros up to the length asked for, on every device still present |
| `Mirrors.Mirror.Flush` | src/mirror.rs:369-379 | success leaves nothing staged and the media equal to what is read |
| `Tracts.LiveSet.Apply` | src/vault.rs:34-46 | additions before removals: the live positions become the old ones plus those added, less those removed, and the seals kept stay true |
| `Tracts.LiveSet.Load` | src/vault.rs:510-517 | a set loaded from a walk holds exactly the blocks and positions it found |
| `Tracts.AddAllKeys` | src/vault.rs:34-46 | adding true references keeps seals true, a position added twice included |
| `Tracts.RemoveAllKeys` | src/vault.rs:34-46 | removing true references removes exactly their positions |
| `Tracts.LapsApart` | src/tract.rs:81-94 | cursor ranges that together span at most one lap share no position |
| `Tracts.FullLap` | src/tract.rs:81-94 | one whole lap covers every position |
| `Tracts.Tract.Append` | src/tract.rs:106-138 | refused, with no side effect, exactly when space, fence or a live position in the way forbids; else the documents lie at consecutive positions from the plow, wrapping at most once, off every live block and within the fence |
| `Tracts.Tract.Guard` | src/tract.rs:106-128 | the guards refuse exactly when clean space is short, the fence is passed or a live block would be overwritten |
| `Placing.PlacedFinds` | src/hamt.rs:604-623 | giving dirty nodes a place changes no lookup |
| `Placing.FlushedThen` | src/hamt.rs:584-623 | consecutive flush attempts add up: between the cursors exactly the nodes no longer dirty were appended, each once |
| `Placing.FlushedNode` | src/hamt.rs:604-623 | a node whose children are committed takes the block at the plow and nothing else moves |
| `Moves.RoleOf` | src/hamt.rs:1096-1137 | the document sealed at a referenced position says whether it is a node, a leaf or which furrow of whose leaf |
| `Moves.NodeStop` | src/hamt.rs:1172-1220 | descending by a node's own route and depth ends at that node |
| `Moves.MoveNode` | src/hamt.rs:1096-1146 | moving a referenced node and repointing it by its own address changes that pointer only and no lookup |
| `Moves.MoveBlock` | src/hamt.rs:1096-1146 | moving any referenced node or leaf: the repair descent meets exactly its pointer, the map stays, the freed positions are the old block and the path |
| `Moves.ReplaceLeaf` | src/hamt.rs:1149-1168 | swapping a leaf for another of the same key and value changes no value of the map |
| `Patching.SortByIndex` | src/hamt.rs:1032-1038 | a group of moved furrows in order of index, none lost or repeated |
| `Patching.Patch` | src/hamt.rs:1040-1049 | refused if and only if an index is beyond the list; else each moved entry has its new place and the rest is kept |
| `Patching.RebuiltLeaf` | src/hamt.rs:1039-1062 | the leaf rebuilt over copied furrows is held by the device and denotes the same value |
| `Windows.SortedGathers` | src/hamt.rs:1014-1021 | sorting a survivor adds exactly its position to what the window has gathered |
| `Windows.SurveyStep` | src/hamt.rs:1007-1022 | past one more cursor, every live block not yet retired is gathered and nothing else is |
| `Hamts.ReadDoc` | src/hamt.rs:1443-1482 | a zeroed target is None, an unsealed one Corrupt, another's Seal; a document returned is the one asked for and its positions fit the tract |
| `Hamts.Hamt.FindLeaf` | src/hamt.rs:503-548 | whatever the device holds, a leaf found is the one the routed search of the index has; over a readable path the answer is exactly that search |
| `Hamts.Hamt.Lookup` | src/hamt.rs:202-265 | over a sound, held index: exactly the map's value at the key, or absent; furrows are verified by owner, order and total size |
| `Hamts.Hamt.ReadFurrows` | src/hamt.rs:1582-1627 | succeeds exactly when the size could fit, each furrow is the key's of its index, and the payloads total the size; then they are the value |
| `Hamts.Hamt.Put` | src/hamt.rs:270-287 | Ok sets exactly that key; refused, index, delta and map are as before; appends stay off live blocks and within the fence; the delta accounts for every block added and freed |
| `Hamts.Hamt.PutInner` | src/hamt.rs:288-333 | the same without the delta's truncation on refusal |
| `Hamts.Hamt.InsertChild` | src/hamt.rs:335-388 | over a readable path the arena denotes the inserted trie and the delta gains exactly what it superseded |
| `Hamts.Hamt.Split` | src/hamt.rs:390-404 | the arena chain denotes the split of the two leaves |
| `Hamts.Hamt.Delete` | src/hamt.rs:411-445 | says whether the key was there and removes exactly that key; nothing on the device changes; the delta gains leaf, furrows and path |
| `Hamts.Hamt.Prune` | src/hamt.rs:448-459 | unlinks the pointer hunted along the route when it is there, and only copies the path when it is not; refused, the index is as before |
| `Hamts.Hamt.PruneChild` | src/hamt.rs:461-501 | over a readable path: the denoted subtree with that pointer gone, the delta grown by exactly the superseded nodes |
| `Hamts.Hamt.RemoveLeafBlocks` | src/hamt.rs:549-582 | the delta gains exactly the leaf's block and each of its furrows |
| `Hamts.Hamt.Flush` | src/hamt.rs:584-602 | writes each dirty node once, children first; the map is unchanged; refused midway, what was written stays written and a retry writes only what is still dirty; on success the index is one committed root |
| `Hamts.Hamt.FlushNode` | src/hamt.rs:604-623 | the same of one subtree, step by step |
| `Hamts.Hamt.Repoint` | src/hamt.rs:1172-1220 | says whether the pointer was met, and if so changes only that one |
| `Hamts.Hamt.RepairReloc` | src/hamt.rs:1096-1146 | a relocated block that is referenced is repointed; one that cannot be found is refused instead of orphaned |
| `Hamts.Hamt.MoveSurvivor` | src/hamt.rs:1073-1087 | a survivor copied to the plow and repointed: no lookup changes, the original is retired, the state stays balanced |
| `Hamts.Hamt.MoveFurrows` | src/hamt.rs:1024-1071 | the window's furrows of one owner move together and its leaf is rebuilt once: no value changes, the originals and the old leaf are retired |
| `Hamts.Hamt.RebuildLeaf` | src/hamt.rs:1040-1062 | the patched leaf takes its place and the map is unchanged |
| `Hamts.Hamt.Survey` | src/hamt.rs:998-1022 | classifies the window: everything live in it and not already retired is gathered, lone leaves, leaves, nodes and furrows by owner |
| `Hamts.Hamt.ReapWindow` | src/hamt.rs:985-1091 | no lookup changes for any key; on success the reap stands past the window and every live position of the window is retired by the delta, and for a window that does not pass the start of the pending edits none is referenced by the index; refused, the reap is where it was |
| `Hamts.PutLaw` | src/hamt.rs:270-333 | the value-level law of a put: the map with the key set, positions accounted for |
| `Hamts.DeleteLaw` | src/hamt.rs:411-445 | the value-level law of a delete: the map without the key, positions accounted for |
| `Hamts.FlushLaw` | src/hamt.rs:584-623 | the value-level law of a flush: same map, sound, held, balanced |
| `Hamts.SurvivorLaw` | src/hamt.rs:1073-1087 | moving one survivor keeps the balance of index, delta and live set |
| `Hamts.RebuildLaw` | src/hamt.rs:1031-1063 | rebuilding one owner's leaf keeps the balance of index, delta and live set |
| `Hamts.WindowRetired` | src/hamt.rs:985-1091 | with every gathered block moved, no live position of the window is left that the delta does not retire |
| `Hamts.PoisedStep` | src/hamt.rs:270-623 | guarded appends and an accounted edit keep the pending state: sound, each position one role, on the device, references equal to live plus added less removed |
| `Rings.AncestorGen` | src/ring.rs:107-203 | each ancestor along the hash chain has the next lower number and passes the same geometry checks |
| `Rings.NewestSplit` | src/ring.rs:474-490 | the newest of two halves is the newest of the whole |
| `Rings.DropLeft` | src/ring.rs:451-466 | when the middle is newer than the anchor, nothing before the middle is the newest |
| `Rings.DropRight` | src/ring.rs:451-466 | when it is older or empty, nothing from the middle on is |
| `Rings.HeadIsNewest` | src/ring.rs:416-419 | with its own slot readable, the head is the newest of all slots, whatever others are unreadable |
| `Rings.RingNext` | src/ring.rs:337-368 | writing the next entry over its slot makes the ring hold the generations up to it |
| `Rings.RingTorn` | src/ring.rs:337-368 | a torn write of the next entry leaves a ring whose newest is still the head |
| `Rings.RingGenesis` | src/ring.rs:520-543 | generation 0 over a zeroed ring |
| `Rings.FenceFrom` | src/vault.rs:1228-1233 | absent below K budgets; else at or below every budget of the window and equal to one of them |
| `Rings.FenceGuards` | src/vault.rs:1228-1233 | in force, the fence lies at or below the budget of each of the last K generations, an unreadable slot counting as none |
| `Rings.FenceOfEqual` | src/vault.rs:1228-1233 | a window full of one budget makes the fence that budget |
| `Rings.FenceStays` | src/vault.rs:1229-1231 | once in force the fence stays in force |
| `Rings.Ring.Search` | src/ring.rs:427-472 | for any number of laps and any subset of unreadable slots the branching bisect returns the maximum valid generation, as looking at every slot does |
| `Rings.Ring.HeadSearch` | src/ring.rs:416-419 | open finds the newest generation; the head itself when its slot reads |
| `Rings.Ring.Append` | src/ring.rs:337-368 | refused unless number and parent follow the head; else everything staged lands before the slot's one block does, and the ring's head is the entry |
| `Rings.Ring.RecentFences` | src/ring.rs:385-413 | one budget for each generation of the window, from the head K back, zero where the slot is not that generation's |
| `Walks.ReachedIsPos` | src/hamt.rs:701-755 | over a healthy index the walk's blocks are exactly those the index references |
| `Walks.Visited.Reach` | src/hamt.rs:94-117 | marks a position, refusing exactly a second arrival |
| `Walks.Walk.Step` | src/hamt.rs:784-833 | a step leaves found plus still to find as it was, marks at least one new position or is refused, and keeps a healthy walk healthy |
| `Walks.Walk.Run` | src/vault.rs:469-496 | ends on any device contents, cyclic or shared included; when nothing is refused it has found exactly what the recursive definition reaches, however it was split into steps; over a healthy index it refuses nothing and finds no stale pointer |
| `Walks.EagerWalk.Visit` | src/hamt.rs:701-755 | the recursive walk ends because each arrival marks a new position, and when nothing is refused it records what the batched walk finds less unsealed furrows |
| `Walks.WalksAgree` | src/hamt.rs:701-833 | over a healthy index both walks find exactly the referenced blocks |
| `Walks.WalksDiffer` | src/hamt.rs:701-833 | over a value whose furrow is no longer sealed the open's walk finds the furrow's position and the recursive one does not |
| `Walks.StartSane` | src/hamt.rs:775-783 | a walk started at a whole root will find exactly what that root references |
| `Generations.SpinedNext` | src/ring.rs:337-368 | a ring that no cut of a later append can hide stays one with the next entry |
| `Generations.SpinedTorn` | src/ring.rs:337-368 | and with its next slot torn: it still ends at its head and can still be found, whatever other slots are unreadable |
| `Generations.LastFoundTorn` | src/ring.rs:307-319 | why one of the first slots must last: with the newest entry in the last slot and none of the first readable but slot 0, a cut of the next append leaves no entry where an open looks for the size |
| `Generations.StandsKept` | src/tract.rs:106-138 | a generation whose blocks are not written over keeps reading as its map |
| `Generations.DrainImage` | src/mirror.rs:187-226 | a cut during a drain, with any subset of the staged blocks landed or torn, restores the head and keeps every generation of its window, as long as they were staged off their blocks |
| `Generations.SpineImage` | src/ring.rs:337-368 | a cut during the entry's write restores the head, or the new generation once its block landed whole, and the window behind either |
| `Generations.AppendHistory` | src/vault.rs:921-925 | every moment of an entry's write, drain included, restores the head or the next generation, each with its window, and nothing else |
| `Generations.GrowHistory` | src/vault.rs:808-835 | every moment of a grow's device extension restores the head with its window |
| `Generations.LinkedAncestor` | src/ring.rs:385-413 | the log's generations are the entries' own hash chain |
| `Generations.FenceWithin` | src/vault.rs:1228-1233 | the fence is at or below the least budget since any generation of the window |
| `Generations.WindowProtects` | src/vault.rs:1228-1233 | on the device itself, whichever generation is newest: each of the last K not given up, unless its own commit overran it, reads back as committed, and every cursor the newest one's fence allows misses all of its blocks |
| `Generations.Bootstrap` | src/ring.rs:307-319 | the ring's size is what the first of the first slots that holds an entry says |
| `Generations.BootstrapFinds` | src/ring.rs:307-319 | over a ring that no cut can hide the size found is its own, whatever slots are unreadable |
| `Generations.FindableSays` | src/ring.rs:307-319 | whatever slots are unreadable, when the first entry met among the first slots is the ring's own the size found is the ring's |
| `Sessions.FenceProtects` | src/vault.rs:1228-1233 | in every state between calls with the plow not past a fence in force: each of the last K generations since the plow was last put back, unless its own commit overran it, reads back as committed, and no cursor the fence still allows lands on a block of any of them, across changes of the tract's length |
| `Sessions.TwoCursors` | src/vault.rs:1237-1246 | in every state between calls: reap <= plow <= reap + len, clean space holds no block of the committed head unless its commit overran it, and every entry of the chain passes decode's geometry checks |
| `Sessions.GoodDrains` | src/mirror.rs:187-226 | in every state between calls the devices already restore the head with its window, and nothing staged lies on any of it |
| `Sessions.EditKeeps` | src/tract.rs:106-138 | guarded appends and an edit of the index keep every invariant of the vault's state |
| `Sessions.BeatKeeps` | src/vault.rs:1142-1164 | a heartbeat keeps every invariant and changes neither root, map nor cursors |
| `Sessions.CommitSpace` | src/vault.rs:901-904 | when the held-back reap takes effect, clean space is clean of the root being committed if and only if the window turns no block clean that the pending edits appended and still reference |
| `Sessions.CommitOverruns` | src/vault.rs:901-904 | over a head that did not overrun itself, the clean space an entry grants holds a block of its own root if and only if its window crosses |
| `Sessions.CommitKeeps` | src/vault.rs:878-935 | a commit keeps every invariant, the committed map is the pending one, nothing of the window is given up, whether or not its own window crosses, and every cut of the write keeps it |
| `Sessions.WindowNext` | src/vault.rs:921-930 | one more generation, by commit or heartbeat, keeps every generation of the window readable and guards all of the log from its own plow on |
| `Sessions.IntactAppended` | src/tract.rs:116-120 | appends, fenced or not, leave every generation of the window intact whose budgets the plow has not passed |
| `Sessions.FenceSpares` | src/tract.rs:116-120 | under a fence in force that is all of them: guarded appends give up nothing |
| `Barriers.RollbackKeeps` | src/vault.rs:674-695 | dropping pending edits for the head keeps every invariant |
| `Barriers.WaiveKeeps` | src/vault.rs:1046-1052 | waiving or recomputing the fence keeps every invariant |
| `Barriers.StageReapKeeps` | src/vault.rs:1130-1139 | holding back a reaped window's cursor keeps every invariant |
| `Barriers.ExtendKeeps` | src/vault.rs:808-835 | longer devices keep every invariant |
| `Barriers.RealignLaw` | src/vault.rs:843-851 | the realigned plow is the least cursor at or above the old one whose position in the new tract is the old length |
| `Barriers.RealignLeast` | src/vault.rs:843-851 | no smaller cursor at or above the old plow would do |
| `Barriers.NewSpace` | src/vault.rs:843-851 | after the realignment clean space covers none of the old tract's positions |
| `Barriers.GuardedGrown` | src/vault.rs:845-851 | every generation of the log stays out of reach of the budgets although the tract's length changed under it, and the grow's own commit does not overrun it |
| `Barriers.GrowKeeps` | src/vault.rs:808-853 | a grow's commit keeps every invariant, with the map unchanged, nothing given up and clean space clean |
| `Barriers.OpenKeeps` | src/vault.rs:426-461 | a vault opened on a device that restores a generation satisfies every invariant, with the window the device keeps behind it |
| `Barriers.GenesisRestores` | src/vault.rs:206-232 | generation 0 in a zeroed ring restores the empty map |
| `Barriers.LevelNext` | src/vault.rs:881-900 | each heartbeat puts one more of the head's own budget into the window |
| `Barriers.LevelFence` | src/vault.rs:881-900 | after K heartbeats the fence equals the committed head's own budget |
| `Barriers.CrossingBreaks` | src/vault.rs:1097-1139 | a good state of a vault of 64 blocks after one put: a window of one block, within the bounds a reap keeps, swallows the put's leaf, and after the commit clean space holds the committed root's only block, so only an append's lap guard protects it |
| `Barriers.UnfencedLoses` | src/tract.rs:106-138 | a good state with too few generations for a fence, one key put and deleted in a vault of 64 blocks, and a lap of appends that every check allows: the generation that held the key, two back, no longer reads back |
| `Barriers.DeriveReap` | src/vault.rs:1237-1246 | the reap derived from a live set laid below the plow is the largest whose clean space holds no live position |
| `Batches.ReplayLaw` | src/vault.rs:736-752 | applying the whole batch over a map some part of it already reached gives the fold over the map before |
| `Batches.ReplayExact` | src/vault.rs:736-755 | whatever map it starts from and however often it is given up and begun again, a batch commits only prefixes of its fold if and only if any three partial passes leave every key as some prefix does: a condition on the operations alone |
| `Batches.ConsistentReplays` | src/vault.rs:736-755 | a batch that gives no key two outcomes meets that condition |
| `Batches.TwiceReplays` | src/vault.rs:736-755 | it is not needed: one key set twice meets the condition too |
| `Batches.ReplayNotPrefix` | src/vault.rs:717-755 | four operations, three of them committed before the batch is given up and one by its replay before the next makes room: the map committed is no prefix of the fold, so the condition fails |
| `Batches.FurtherOnTheWay` | src/vault.rs:717-755 | what a batch may have committed, carried further by a pass given up again, is still what it may commit |
| `Batches.EndOfTheWay` | src/vault.rs:736-755 | from any map a batch may have committed, the whole of it ends where it would have from the start |
| `Vaults.LiveOf` | src/vault.rs:499-517 | the live set walked from a committed root holds exactly the blocks the root references |
| `Vaults.Vault.FlushIndex` | src/vault.rs:881-889 | the vault's flush: map and device history unchanged, refused only for space or a binding fence |
| `Vaults.Vault.AppendEntry` | src/vault.rs:905-930 | every cut while an entry is written restores the head or the entry's generation, and the window behind either; the fence is recomputed from the ring |
| `Vaults.Vault.Record` | src/vault.rs:905-930 | one more generation logged: nothing of the window is given up, a fence in force stays in force, and a commit that overran itself is counted |
| `Vaults.Vault.AppendHeartbeat` | src/vault.rs:1142-1164 | one more generation with the head's own root, geometry and cursors; map and saved map unchanged |
| `Vaults.Vault.FlushLadder` | src/vault.rs:881-900 | the heartbeat ladder ends, changes neither map nor saved map, and over a ring of at least K slots is never refused by the fence when the tract's reap and length are the head's |
| `Vaults.Vault.ApplyDelta` | src/vault.rs:887-904 | the delta moves into the live set and the staged reap takes effect, only after the flush |
| `Vaults.Vault.CommitRoot` | src/vault.rs:890-930 | the flushed root becomes the head's; the live set equals the blocks it references; nothing is left pending; a window within the pending edits' start crosses nothing |
| `Vaults.Vault.Commit` | src/vault.rs:878-935 | Ok: the saved map is the current one, the live set is exactly what the committed root references, at least one generation more; refused: map, saved map and staged reap as before; what is committed meanwhile is one of the two maps; every cut restores a generation with its window; the fence refuses it only when the tract is not at the head's cursors; the fence is never waived |
| `Vaults.Vault.ReloadHead` | src/vault.rs:674-695 | the index is the committed head's again and nothing is pending |
| `Vaults.Vault.RollbackToHead` | src/vault.rs:674-695 | never over uncommitted work: that is landed first or the tract is reported full, the current map unchanged either way |
| `Vaults.Vault.ReapStaged` | src/vault.rs:1130-1139 | the window's survivors are moved with no lookup changed, and the reap stays where it was until the retiring commit |
| `Vaults.Vault.ReapInto` | src/vault.rs:1130-1139 | every live position of the window is retired by the pending delta |
| `Vaults.Vault.FitWindow` | src/vault.rs:1097-1110 | the window fits the cap, what is occupied, and clean space less the reserve |
| `Vaults.Vault.ReapOneWindow` | src/vault.rs:1092-1126 | true means a window was retired and everything pending committed; the map is unchanged whatever happens short of a device failure; over nothing uncommitted no window crosses |
| `Vaults.Vault.MaybeReap` | src/vault.rs:968-975 | the reap after a commit changes no lookup |
| `Vaults.Vault.Grow` | src/vault.rs:808-853 | a shorter or equal length changes nothing; else the tract has the new length, pending edits are dropped for the committed map, the reap trails the plow by the old length, no window is crossed; cuts between device and entry restore the head with its window |
| `Vaults.Vault.WaiveFence` | src/vault.rs:1046-1052 | without a fence both maps still stand; the waiver is counted |
| `Vaults.Vault.Rescue` | src/vault.rs:999-1054 | every generation on the way holds the saved or the current map; with nothing uncommitted the map is unchanged and no window crosses; on success the fence is the ring's own again |
| `Vaults.Vault.PutTry` | src/vault.rs:610-615 | one put into the pending index; refused, the map is as before |
| `Vaults.Vault.DeleteTry` | src/vault.rs:770-784 | one delete from the pending index; never refused |
| `Vaults.Vault.PutRound` | src/vault.rs:609-645 | one round of the put ladder: landed, or room made with the current map unchanged |
| `Vaults.Vault.PutNoCommit` | src/vault.rs:604-652 | the ladder ends; Ok sets exactly that key in the current map, a refusal leaves it; what is committed on the way is the saved or the current map; over nothing uncommitted no window crosses |
| `Vaults.Vault.GrowInLadder` | src/vault.rs:664-669 | grows only when nothing is uncommitted, else says the tract is full |
| `Vaults.Vault.HoldsCommitted` | src/vault.rs:579-596 | true only if the saved map and the current one both have that value at that key, so the skipped put would change neither |
| `Vaults.Vault.CommittedLeaf` | src/vault.rs:579-596 | a leaf block the live set holds is the committed leaf of its key, whatever is pending |
| `Vaults.Vault.ApplyItems` | src/vault.rs:759-788 | the current map becomes the fold of the items, or that of a proper prefix when one is refused; every generation committed on the way holds the saved map or a proper prefix of the fold; with at most one item over nothing uncommitted no window crosses |
| `Vaults.Vault.RescueFromHead` | src/vault.rs:698-714 | the provisional index is dropped for the committed map, which stays saved |
| `Vaults.Vault.ApplyBatch` | src/vault.rs:717-755 | from any state, Ok: the current map is the in-order fold of the operations over the current map before or the saved one, and over a vault with nothing uncommitted that fold is committed, whatever commits, rollbacks, rescues, grows and replays happened; refused or not, every generation on the way, the saved map and the current one are each what a batch given up and begun again may leave, and over a clean vault the generations are prefixes of the fold when nothing was replayed or the batch is replayable |
| `Vaults.Vault.Put` | src/vault.rs:598-602 | durable on return: the saved map has exactly that key set; whatever the outcome, over nothing uncommitted the generations on the way, the saved map and the current one hold the map before or after; over nothing uncommitted no window crosses |
| `Vaults.Vault.Delete` | src/vault.rs:791-803 | durable on return: says whether the key was there, the saved map lacks exactly that key; absent, nothing is committed; refused, the current map lacks it and the saved one is as before or lacks it too; generations on the way hold the map before or after; the fence is never waived |
| `Vaults.Vault.Get` | src/vault.rs:572-577 | exactly the current map's value at the key |
| `Vaults.Open` | src/vault.rs:158-204 | on a device whose ring no cut can hide the vault opened reads as exactly its newest generation's map, with the window the log keeps behind it; a wedged head is rescued or grown with that map unchanged; cuts during the open lose nothing |
| `Vaults.OpenOrFormat` | src/vault.rs:167-204 | the whole ladder: a ring found is opened; without one a single sealed block anywhere on either device means refusal, and nothing is written; only drives with none are formatted, to the empty map |
| `Vaults.Load` | src/vault.rs:426-522 | any ring that can be found, whatever slots are unreadable behind its newest one: size from the file, head by the search, live set, reap and fence, and an index that reads as exactly the map committed |
| `Vaults.Resume` | src/vault.rs:426-517 | the newest generation as a vault: every invariant holds, nothing is pending, and the window of earlier sessions is kept on |
| `Vaults.OpenTract` | src/vault.rs:499-522 | the live set is what the root references, the reap is derived from it with clean space clean, the fence is the ring's |
| `Vaults.Reopen` | src/vault.rs:158-204 | whatever a cut left, the vault opened reads as the newest generation whose entry landed, and keeps the window behind it |
| `Vaults.NewestStands` | src/ring.rs:416-472 | a device loads only the newest generation its ring holds |
| `Vaults.Format` | src/vault.rs:206-247 | a fresh vault over any device longer than its ring: empty map, every invariant |
| `Repairs.AimedMeets` | src/hamt.rs:461-501 | the prune's descent along a reported route reaches the lost pointer and ends there |
| `Repairs.PruneLaw` | src/hamt.rs:448-501 | pruning one lost pointer removes it from what is lost, loses no other leaf, and frees only the superseded path |
| `Repairs.PruneAims` | src/vault.rs:502-509 | after one prune the other reported routes still lead to their pointers |
| `Repairs.NothingLost` | src/hamt.rs:836-852 | with nothing lost every pointer reads, every furrow is its leaf's own, and every leaf is spared |
| `Repairs.MendedHeld` | src/hamt.rs:936-980 | a mended index is held by the device, so a strict walk refuses nothing of it |
| `Repairs.MendedShort` | src/hamt.rs:936-980 | furrows that are sound one by one but carry too few bytes pass a repair, and a read of their key is then refused: no walk looks at sizes |
| `Repairs.SparedIsSafe` | src/hamt.rs:853-934 | a key's leaf is spared if and only if every block on its path, its leaf and each of its furrows is sound |
| `Repairs.MendedMap` | src/hamt.rs:836-980 | an index holding exactly the spared leaves denotes every key all of whose blocks were sound, each as it read before |
| `Repairs.HealthyMap` | src/hamt.rs:836-852 | over a healthy index nothing is lost and the map is the index's own |
| `Repairs.RepairWalk.Visit` | src/hamt.rs:853-934 | it ends by what it has marked, on any tree; over an index a commit wrote, whatever its blocks are now: every topmost lost pointer is reported exactly once with a route that leads to it, and exactly the sound blocks are collected |
| `Repairs.RepairWalk.CheckFurrows` | src/hamt.rs:936-980 | a leaf with any furrow missing, foreign or misplaced is reported whole; else leaf and furrows are collected |
| `Salvages.PruneAll` | src/vault.rs:502-509 | every reported pointer is unlinked and no prune disturbs another's route |
| `Salvages.RepairIndex` | src/vault.rs:405-417 | the report names exactly the lost pointers; the index left is sound and mended and denotes exactly the keys all of whose blocks were sound; the live set and the derived reap match it; with nothing lost the index is the root's |
| `Salvages.RepairCommit` | src/vault.rs:528-541 | the repaired index committed over a waived fence: the new generation stands with that map in a ring that ends at it; every cut meanwhile leaves the damaged head with the same keys safe, or the repaired generation |
| `Salvages.OpenRepairing` | src/vault.rs:352-382 | over any ring that can be found: reports exactly what was lost and leaves a ring that ends at a generation with every key all of whose blocks were sound, each as it read before; over a ring that no cut can hide, every cut meanwhile leaves the damaged head to be repaired once more, with the same keys safe, or the repaired generation |
| `Salvages.RepairThenOpen` | src/vault.rs:352-382 | the strict open accepts the repaired device and reads exactly those keys, each as before |
| `Salvages.CutAndRepair` | src/vault.rs:352-382 | a repair cut anywhere and begun again: what opens reads as every key whose blocks were sound when the first repair began |
| `Interrupts.SafeMapKept` | src/vault.rs:528-541 | whatever subset of the repaired index's blocks has landed, whole or torn, the damaged index tells the same keys safe, with the same values: no lost one comes back and no safe one is lost |
| `Interrupts.MendHistory` | src/mirror.rs:187-226 | every moment of a repair's write, drain and entry, cut there, leaves the damaged head repairable to the same map or the repaired generation whole |
| `Replicas.BestGen` | src/vault.rs:1313-1329 | the scan finds the newest entry of the ring and its slot |
| `Replicas.CopyBatch` | src/vault.rs:1439-1455 | success leaves the device exactly overwritten with the batch |
| `Replicas.CopySpine` | src/vault.rs:1360-1369 | the ring ends equal, nothing past it changes, and as many blocks are written as slots differed |
| `Replicas.CopyTract` | src/vault.rs:1404-1436 | every live block sealed at the winner is copied, nothing else changes, and as many are written as differed |
| `Replicas.ReplicateInto` | src/vault.rs:1331-1437 | over a winner whose ring can be found and whose head is intact the loser ends with the same ring and the same bytes wherever the winner's head reaches, loads the same generation, and is otherwise untouched |
| `Replicas.VerifiedReplicate` | src/vault.rs:1287-1310 | unless the two already agree on head and size, both load the higher generation afterwards with equal ring and live blocks; the winner is not written; the highest generation is never lowered; they end in sync if and only if they began in sync or with different heads; in sync, nothing is copied |
| `Replicas.MissedRot` | src/vault.rs:1287-1310 | two devices with one put committed on both, the leaf since gone bad on the second: their heads agree, so a resync leaves the second without the generation its ring shows |
| `Replicas.Twice` | src/vault.rs:1287-1310 | a second pass copies nothing, whatever the first did |
| `Outages.Act` | src/vault.rs:598-853 | any command from any state: every cut meanwhile restores a generation of the log none older than the newest at its start; each generation, the saved map and the current one hold what the command may leave of its edits, refused or not; accepted over nothing pending, what is saved is the map with its edits; only puts, batches and rescues waive the fence, and only in a batch of several operations can a window cross |
| `Outages.Play` | src/vault.rs:598-935 | any run of commands, refused ones included: cut at any device write it restores a generation it committed, with its window; each generation holds what the running command may commit over a map possible when it began, also when a device fails; a command accepted with nothing left uncommitted has all of its edits in what is saved; with none refused over a clean vault what is saved in the end is every edit of the run in order |
| `Outages.DonePossible` | src/vault.rs:598-803 | over a clean vault with every command accepted only one map is possible after each: the edits so far in order |
| `Outages.DoneExplains` | src/vault.rs:598-803 | so each generation of such a run holds the edits of its first commands and what the next may commit of its own |
| `Outages.RunProtects` | src/vault.rs:1228-1246 | over any run that starts with the fence in force and never waives it: the last K generations, back to where the window began, read back as committed and no cursor the fence still allows lands on a block of any of them, except one whose own commit overran it; unless the head's did, clean space holds none of its blocks |
| `Outages.StraightRun` | src/vault.rs:901-904 | a run in which the count of overruns has not gone up has no such generation |
| `Outages.CutProtects` | src/vault.rs:1228-1233 | and at every cut of such a run: behind the newest generation the cut restores the same holds on the drive itself |
| `Outages.CutAndReopen` | src/vault.rs:158-204 | power cut at any device write of a run, any subset of the writes in flight landed or torn, and the drive opened again: the map read back is exactly that of the newest generation whose entry landed, none durable at the start is lost, and it is what one of the run's commands may commit over a map possible when it began; the new session keeps the window on |

## Left out

* File I/O, locking and preallocation (`src/host.rs`), rendering (`src/inspect.rs`), events, statistics, the command-line
  tools: nothing hard.
* The block encoding and the hash function: external; a document stands for its seal, so collisions and malformed encodings
  under a valid seal are not modelled.
* 64-bit width: cursors, generations and positions are unbounded, so `decode`'s overflow check of plow plus tract, and the
  other overflow guards, are not modelled.
* The migrating spine: the root ring, residences and `migrate_ring`.
* `ZeroIsErase` deletes: zeroing furrows and leaf before the commit gives up crash atomicity for that key by design.
* Legacy per-position leaves and their upgrade in the reap.
* Lazy opens between their steps: the walk is modelled step by step (`Walks.Walk.Step`), the vault only once it is settled.
* Read errors of a device, other than a position past its end; writes to two devices are taken one after the other.
* The bit packing of `Visited`: one boolean a position.
* `walk_keys` and `live_keys`: the walk again, collecting keys.
* `reclaim_ahead`: sizing around the same capped reap.
* `grow_preserving`: a repair whose commit finds no room reports a full tract here instead of growing once and retrying.
* The wedge probe after a repair, and its second commit: ordinary vault steps once the repaired generation stands.
* Interrupted replication, and mirrors opened diverged.
- Vaults.Vault.PutNoCommit: a device error inside the fenced arm's commit ends the ladder here; the source tries again.
- Vaults.Vault.Rescue: does not say when a rescue finds room.
- Hamts.Hamt.Lookup: over an index that is not held, only that what it returns was verified, not which error it gives.
- Replicas.VerifiedReplicate: for a winner whose ring can be found and whose head is intact; what a resync does with a
  damaged winner is not claimed.
- Vaults.Open: the session after it is claimed over a ring that no cut of a later append can hide (`Generations.Spined`: any
  slots may be unreadable, as long as one of the first sixteen lasts and none of them holds another ring's entry);
  `Vaults.Load` says what is read of any ring that can be found, `LastFoundTorn` why more cannot be said of cuts, and
  `OpenOrFormat` adds the devices on which no ring is found. Which error a damaged committed index gives is not claimed.
- Salvages.RepairThenOpen: over such a ring too; `OpenRepairing` is over any that can be found.
- Sessions.FenceProtects: generations given up before the last open or grow are left out; the cursors, put back there, no
  longer tell them.
- Repairs.RepairWalk.Visit: what it reports is claimed for an index a commit wrote; for any other tree only that it ends.
