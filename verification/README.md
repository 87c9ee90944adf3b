# MemExchange, modelled in Dafny

MemExchange is a memcached whose tenants trade pages of memory, locally and over RDMA. This project models the shared
data structures of that program and the protocols that run over them, and proves what they keep in every run. Source
paths and lines below are those of the C program.

How it is modelled:

- Memory with pointers is a map from addresses to records, with 0 as NULL. Each structure is a class whose methods do
  the writes of the C code, next to a ghost value (a tree shape, a chain, a queue, a map) that the invariant ties to it.
- What runs concurrently is a state machine. A step is what happens under one hold of a lock, or one atomic access. The
  theorems speak about every run.
- Time, hashes, score comparisons, socket results, allocation results and the outcome of a try-lock are parameters.

The parts:

- `HashChains`, `Assoc`, `ItemLocks`: the hash table that is migrated bucket by bucket, refined to one map over whole
  runs, and why one item lock is enough for moving a bucket.
- `LruLinks`, `LruQueues`, `CrawlRuns`: the doubly linked LRU queues and the crawler that walks through them, link by
  link, while items come, go and move.
- `CacheState`, `ItemFlow`, `ItemCache`: reference counts, linking, reading, replacing and bumping items, and where each
  step takes an item. `PullFlow`: what a pull does to every item and every queue. `LinkedPull`: the pull on the linked
  queues, with crawlers in them.
- `SlabChunks`, `PageMover`, `PageSweep`: the allocator and the page mover against busy workers. `FreeList`,
  `FreeListRuns`: the freelist threaded through the chunks, in any such run.
  `PageTable`, `PageRelease`: the table of pages, the choice of the one to give away, and its way out.
- `ShadowShapes`, `ShadowEdits`, `ShadowRemoval`, `ShadowHeights`, `ShadowFixup`, `ShadowTree`: the search tree of evicted
  keys, pointer write by pointer write, with its rank walk and its rebalancing on stale heights. `ShadowLife`: pins,
  queues and the freeing of shadow items. `ShadowOrder`: the order of the queues and which record goes.
- `Bipbuffer`, `BumpBuffers`, `LogWriter`: the two-region ring and its two clients.
- `StoreRuns`: the store commands and compare-and-swap over whole runs. `DecimalText`, `StoreValues`: numbers in values,
  and the values over whole runs.
- `Reply`, `ReplySending`, `Datagrams`: building a reply from buffers and sending it in parts, over TCP and UDP.
- `Tracker`, `TrackerMail`: the handshake that trades a page, and its messages over whole runs. `Admission`,
  `AdmissionRuns`, `AdmissionSamples`: the limits on remote reads, and what their average is made of.
- `Addresses`, `Basics`: shared vocabulary.

What the code does that its comments or names do not say, each with the exact condition proved:

- A rotation of the shadow tree makes right weights wrong, so an insert keeps them right if and only if it does not
  rotate, which the heights stored before it decide. Three items arriving in order already rotate, and the oldest then
  counts four newer ones.
- A removal keeps right weights right if and only if it leaves the tree in which the left subtree of the removed node
  hangs below its successor; the heights stored before it give the tree it leaves. Without a rotation that means that the
  node had at most one child or its successor was its right child, and a rotation can also make weights right. Of four
  items 4, 2, 6, 5 the removal of 4 rotates nothing and leaves 5 counting too few newer ones.
- A pull that rescues the only item of a WARM queue leaves it there, but with a crawler before it the same pull meets it
  again and may send it to COLD.
- A crawl with a limit of n looks at n - 1 items.
- `do_item_get` counts an item as expired at its expiry time, `lru_pull_tail` only after it.
- `do_add_delta` keeps its reference if and only if the value is empty. As long as readers give back no more than they
  take, the page mover can then never move that item.
- UDP headers are built again after the first datagram has gone. With only one datagram a header then goes behind the
  last buffer, and outside the array if and only if the buffers fill it.
- The datagrams of a reply have distinct numbers if and only if there are no more than 65536.
- A class may get more pages than `hits` has entries. The arrays cover all pages after one more if and only if there
  were fewer than 4000.
- `bipbuf_poll` answers a poll of more than its first region holds and leaves the buffer out of order. It stays in order
  if and only if the poll is no longer than that region, which is what every caller asks for.
- An incr or decr that replaces an item also renumbers the replaced item. A reader still holding that one prints the old
  value with the new id. A printed id is the one the reader found if and only if no such replacement came in between.
- A page is released from free memory by giving away page 0 of class 1 without looking at its owner. It is the class's
  own page if and only if the class had none or its first page is not borrowed; a second release of a class with an own
  and a borrowed page takes the borrowed one.
- A late rejection frees a tracker from waiting for another offer. A step keeps every tracker waiting exactly while its
  one offer is open if and only if it is not such an answer, and after one two offers can be open.

## Model

| member | source | states |
|---|---|---|
| `Assoc.HashTable.constructor` | src/assoc.c:63-76 | A fresh table shows the empty map. |
| `Assoc.HashTable.Walk` | src/assoc.c:92-103 | Walking a chain splits it at the key: nothing before the stop has the key, and the walk ends without an item only if the whole chain lacks it. |
| `Assoc.HashTable.Bucket` | src/assoc.c:82-88 | The bucket chosen from `expanding` and `expand_bucket` is the head of the chain the key's hash routes to. |
| `Assoc.HashTable.HashitemBefore` | src/assoc.c:111-127 | The item found is the map's item for the key, and the predecessor returned is the one before it on its chain. |
| `Assoc.HashTable.Find` | src/assoc.c:78-106 | At every moment of a migration, find answers what the plain map answers. |
| `Assoc.HashTable.Insert` | src/assoc.c:160-184 | The map gains exactly the key, only the routed chain changes, and expansion is asked for exactly when the map outgrows one and a half times the table. |
| `Assoc.HashTable.Delete` | src/assoc.c:186-206 | The map loses exactly the key, only the routed chain changes, and the failure branch is taken exactly when the key was absent. |
| `Assoc.HashTable.Expand` | src/assoc.c:130-149 | Doubling the table changes no content; when memory is short nothing changes. |
| `Assoc.HashTable.MigrateBucket` | src/assoc.c:226-250 | Moving one bucket keeps the map and every chain but the old bucket and the two new buckets it splits into, and advances the phase. |
| `Assoc.HashTable.Run` | src/assoc.c:78-260 | Every run of finds, inserts, deletes, expansions and bucket moves gives the answers and the final content of a run on one plain map. |
| `Assoc.HashTable.Perform` | src/assoc.c:78-260 | Each single operation is one step of the plain map. |
| `Assoc.InsertShows` | src/assoc.c:160-184 | After an insert every item is on exactly one chain, the routed one, and `hash_items` is the size of the map. |
| `Assoc.DeleteShows` | src/assoc.c:186-206 | The same after the unlink of a found item. |
| `Assoc.ExpandShows` | src/assoc.c:130-149 | The same after the primary table became the old one: all keys route to the old buckets. |
| `Assoc.MoveStep` | src/assoc.c:231-236 | One relinked item leaves every chain well formed while the bucket is in transit, and the bucket gets shorter. |
| `Assoc.MoveTouches` | src/assoc.c:231-236 | A relinked item only ever goes to one of the two buckets its old bucket splits into. |
| `Assoc.MoveEnds` | src/assoc.c:238-250 | With the bucket empty, advancing `expand_bucket` (or ending the expansion) leaves every item on the chain its hash now routes to. |
| `Assoc.AdvanceRoutes` | src/assoc.c:240-242 | Advancing re-routes exactly the keys of the bucket just moved. |
| `HashChains.PushFront` | src/assoc.c:165-173 | Linking at the head of one chain keeps all other chains and files the item under its key. |
| `HashChains.CutOut` | src/assoc.c:189-201 | Cutting one item out of its chain removes exactly its key and keeps the rest of the structure. |
| `HashChains.MoveFront` | src/assoc.c:231-236 | Moving the head of one chain to the front of another keeps the map. |
| `HashChains.WalkAnswers` | src/assoc.c:92-103 | The walk of the routed chain answers as the map does. |
| `ItemLocks.LocksStayCoarse` | src/thread.c:699-722 | In every run of phases from a start that initialisation accepts, the lock table stays smaller than the table being split. |
| `ItemLocks.OneLockExcludesAll` | src/assoc.c:226-236 | The one item lock of `expand_bucket` guards every key of the old bucket and of both new buckets. |
| `ItemLocks.AdvanceNeedsNoOtherLock` | src/assoc.c:240-250 | A key is re-routed by the advance if and only if it lives in the moved bucket, hence under that lock. |
| `ItemLocks.Stripe` | src/thread.c:92-110 | The stripe of a hash value is an index into the lock table. |
| `LruLinks.PushHeadHolds` | src/items.c:373-389 | Head, tail and both link directions describe the queue with the item in front. |
| `LruLinks.PushTailHolds` | src/items.c:1544-1563 | The same with the item behind. |
| `LruLinks.UnlinkHolds` | src/items.c:404-425 | The same with the item cut out, wherever it was. |
| `LruLinks.CrawlUpHolds` | src/items.c:1606-1636 | The in-place swap of the crawler with the item before it leaves a proper doubly linked list with just the two exchanged. |
| `LruLinks.CrawlPopHolds` | src/items.c:1595-1604 | At the head the crawler is taken off the front. |
| `LruQueues.LinkKeeps` | src/items.c:373-389 | All 256 queues stay proper lists of items of their own class with exact counts and byte totals. |
| `LruQueues.UnlinkKeeps` | src/items.c:404-425 | The same for removal; removing a crawler changes neither count nor bytes nor the real items. |
| `LruQueues.ReclassKeeps` | src/items.c:519-525 | An item in no queue may change its class without disturbing any queue. |
| `LruQueues.CrawlKeeps` | src/items.c:1606-1636 | A crawler step keeps the sequence of real items and all counters. |
| `LruQueues.Queues.LinkQ` | src/items.c:373-389 | The item becomes the head of the queue its class names; counters follow. |
| `LruQueues.Queues.UnlinkQ` | src/items.c:404-425 | The item leaves exactly its queue. |
| `LruQueues.Queues.MoveTo` | src/items.c:512-539 | A bump or a pull moves an item from its queue to the head of another and nothing else moves. |
| `LruQueues.Queues.LinkTailQ` | src/items.c:1544-1563 | A crawler joins at the tail without counting as an item. |
| `LruQueues.Queues.CrawlStep` | src/crawler.c:350-359 | One turn yields the item before the crawler, swaps the two, and removes the crawler at the head or when `remaining` runs out. |
| `LruQueues.Queues.CrawlAll` | src/crawler.c:319-359 | On a queue that is left alone a whole crawl visits the items once each from tail to head, ends, and leaves the queue as it was; a limit of n visits n - 1 items. |
| `CrawlRuns.OrderStays` | src/crawler.c:319-400 | Whatever is linked, unlinked and crawled in between, items left alone keep their order in the queue. |
| `CrawlRuns.VisitsEach` | src/crawler.c:319-400 | Items left alone are visited in their order from the tail to the head, each once; all of them, if the crawl gets to the head. |
| `CrawlRuns.ExactlyOnce` | src/crawler.c:319-400 | An item in the queue at the start and left alone is visited exactly once if the head is reached. |
| `CrawlRuns.OncePerLink` | src/crawler.c:319-400 | Between two visits to the same item it was linked anew. |
| `CrawlRuns.NoReturn` | src/crawler.c:319-400 | An item the crawler has passed is not visited again unless it is linked anew. |
| `CrawlRuns.VisitsBounded` | src/crawler.c:350-359 | A limit of n allows n - 1 visits however the queue changes; without a limit only the head ends the crawl. |
| `CrawlRuns.TurnsBounded` | src/crawler.c:350-359 | While a crawl goes on, its turns and the items still ahead are together no more than the items ahead at the start and those linked since. |
| `CrawlRuns.ReachesHead` | src/crawler.c:350-359 | A crawl without a limit has reached the head once it has had more turns than there were items ahead and arrivals. |
| `CrawlRuns.Crawling.constructor` | src/crawler.c:486-506 | The crawler joins at the tail and has visited nothing. |
| `CrawlRuns.Crawling.TakeTurn` | src/crawler.c:350-359 | A turn on the linked queues is a turn of the crawl those theorems speak about. |
| `CrawlRuns.Crawling.LinkItem` | src/items.c:373-389 | An item linked during a crawl joins ahead of the crawler, or another queue. |
| `CrawlRuns.Crawling.UnlinkItem` | src/crawler.c:173-198 | An item unlinked during a crawl, by the crawler's module or by others, leaves the queue and nothing else changes. |
| `CrawlRuns.Crawling.MoveItem` | src/items.c:512-539 | A move during a crawl is a leaving, a joining or both. |
| `CacheState.LinkKeeps` | src/items.c:433-453 | Linking keeps: reference count = linked bit + holders + pending bumps, and linked = indexed = in the queue of its class. |
| `CacheState.UnlinkKeeps` | src/items.c:455-468 | Unlinking keeps it, and frees nothing that somebody holds. |
| `CacheState.HoldKeeps` | src/items.c:863-866 | Taking a reference keeps it. |
| `CacheState.DropKeeps` | src/items.c:486-494 | Dropping a reference keeps it. |
| `CacheState.FreedExactly` | src/items.c:486-494 | A drop frees exactly when it takes the last reference of an unlinked item with no pending bump. |
| `CacheState.RelocateKeeps` | src/items.c:512-539 | Moving an item to the head of another queue keeps it. |
| `ItemCache.UpdateKeeps` | src/items.c:498-539 | Both update functions keep the invariant in all their branches; where they take the item is UpdateFlow. |
| `ItemCache.UpdateFlow` | src/items.c:498-539 | do_item_update, on the fields: an active item of COLD goes to the head of WARM of its class, loses the mark and gets the present time; without segments a linked item that is due goes to the head of its own queue; otherwise only the time of a due linked item changes; no other item, key, entry or reference does. |
| `ItemCache.LinkFlow` | src/items.c:433-453 | do_item_link, on the fields: linked, the present time, one reference more, head of the queue of its class, found under its key; nothing else changes. |
| `ItemCache.UnlinkFlow` | src/items.c:455-468 | do_item_unlink, on the fields: out of index and queue with one reference less, freed if that was the last; nothing else changes, and nothing at all for an item not linked. |
| `ItemCache.MarkFlow` | src/items.c:927-951 | A hit, on the fields: FETCHED on the first, ACTIVE on the second unless the item is in COLD and there is no room for a bump entry; an entry with its reference is left exactly for the second hit of an item in COLD with room; nothing else changes but the time of a due item and, without segments, its place. |
| `ItemCache.BumpKeeps` | src/items.c:1186-1210 | A bump entry owns one reference, or none if there was no room. |
| `ItemCache.ServeKeeps` | src/items.c:1234-1239 | Serving the oldest entry gives its reference back. |
| `ItemCache.ServeFlow` | src/items.c:1234-1239 | Serving the oldest entry is exactly the update of its item, with the entry and its reference gone and the item freed if that was the last. |
| `ItemCache.ServedToWarm` | src/items.c:1215-1248 | A waiting entry of an item that is active in COLD takes it to WARM without the mark, wherever in the buffer it is and whatever else is served. |
| `ItemCache.Cache.ItemLink` | src/items.c:433-453 | The key now finds the item, which is linked at the head of its queue with the present time; nothing else changes. |
| `ItemCache.Cache.ItemUnlink` | src/items.c:455-468 | The item leaves index and queue with one reference less; other items are untouched. |
| `ItemCache.Cache.ItemRemove` | src/items.c:486-494 | The item is freed if and only if this was the last reference to an unlinked item. |
| `ItemCache.Cache.ItemReplace` | src/items.c:541-548 | The key switches from the old to the new item, by an unlink and a link that change nothing else, and nothing is freed under a holder. |
| `ItemCache.Cache.ItemGet` | src/items.c:863-964 | A live item comes with one more reference and its hit marks; a flushed or expired one is unlinked and not handed out. |
| `ItemCache.Cache.MarkHit` | src/items.c:927-951 | FETCHED, then ACTIVE, then an update or an asynchronous bump, with ACTIVE withdrawn when the bump is refused, all on the fields. |
| `ItemCache.Cache.MaintainerBumps` | src/items.c:1215-1248 | With reads by workers after every entry, exactly the entries that were there at the look are served, each once and oldest first, each serving being the update of its item; what arrives meanwhile stays for the next look; and with nobody in between every entry of an active COLD item has taken it to WARM. |
| `ItemCache.Cache.ServeOne` | src/items.c:1234-1239 | One entry served, on the fields of its item. |
| `ItemCache.PulledKeeps` | src/items.c:979-1151 | From any state the specified pull keeps the invariant; keys vanish only because their items were expired or flushed, or as one eviction from COLD when eviction is on; and the result counts them. |
| `ItemCache.JudgeFlow` | src/items.c:1054-1133 | Exactly when an item goes to WARM, sinks to COLD, is evicted or stays, by its segment, its ACTIVE mark, the bytes of its queue against the share, its age, and what the caller asked for. |
| `ItemCache.Cache.Settle` | src/items.c:1134-1148 | The item is moved to the head of the queue named without the ACTIVE mark, evicted, or left as it is, its other fields and references and all other items unchanged; the pull's reference is returned. |
| `ItemCache.Cache.MoveInactive` | src/items.c:1071-1133 | The item gets the class named, loses the ACTIVE mark and is the head of that queue; nothing else about it or about any other item changes. |
| `ItemCache.StopFlow` | src/items.c:1134-1148 | The same for every verdict, on the fields. |
| `ItemCache.ReclaimFlow` | src/items.c:1033-1048 | A dead item met by a pull is unlinked with one reference less and nothing else changes. |
| `ItemCache.RefreshFlow` | src/items.c:1061-1067 | An active WARM item met by a pull loses the mark and, if due, is at the head of its queue with the present time; nothing else changes. |
| `ItemCache.ExpiryGap` | src/items.c:914-917 | The pull's notion of a dead item implies that of do_item_get, and they differ exactly for an unflushed item at its expiry time. |
| `ItemCache.ActKeeps` | src/items.c:433-548 | Every step of workers, puller and maintainer keeps the reference-count and membership invariant. |
| `ItemCache.RunKeeps` | src/items.c:433-1248 | So does every run. |
| `ItemCache.ActFrees` | src/items.c:486-494 | In any step an item vanishes exactly when `item_free` is called on it, and then it is in no index, queue, bump buffer or hand. |
| `PullFlow.PassOne` | src/items.c:998-1067 | With the last m items of the queue passed, each spared, dropped or rescued as it deserves from the state before the pull, so it is with the next one. |
| `PullFlow.WalksOn` | src/items.c:998-1009 | The walk goes to the item before; past the head it comes back to the first item it rescued, if something still stood before that one. |
| `PullFlow.TurnOfLast` | src/items.c:1054-1133 | The item that settles a pull is neither locked nor dead nor active in WARM when its turn comes, and it is judged with the bytes then in the queue. |
| `PullFlow.PulledTale` | src/items.c:979-1151 | From any moment of a pull on, what is left of it ends as told. |
| `PullFlow.PullTold` | src/items.c:979-1151 | Every pull, from the state before it alone: it looks at the last five items, or those behind a blocking crawler; locked ones stay, dead ones go, active WARM ones are rescued, to the head if due; the first other one, or the first rescued one met again, settles it and is moved without its mark, evicted or left; every other item is the same in every field, every queue is in the order that comes of it, and the result counts the dropped, moved and evicted. |
| `PullFlow.DeadTail` | src/items.c:983-1048 | Dead unlocked items at the tail, up to five, are gone after one pull; with five of them the queue is cut before them and nothing else is done. |
| `PullFlow.PullMoves` | src/items.c:1068-1148 | An item in another queue than before the pull is at its head, not active, in the same class, with the same references, key, size, expiry and FETCHED mark, and out of its old queue. |
| `LinkedPull.LinkedCache.PullTail` | src/items.c:979-1151 | On the linked queues, with crawlers among the items and `sizes_bytes` read from the array: the links stay proper and show the queues of the cache; every item and every queue is afterwards as told in PullTold; a moved item is at the head of its new queue without its mark and otherwise the same; the pull gives back every reference it takes; and keys vanish only as said above. |
| `LinkedPull.LinkedCache.ItemAlloc` | src/items.c:286-340 | Memory that is no item and no crawler becomes an item, unlinked, without marks and with one reference, its creator's; no other item and no queue notices. |
| `LinkedPull.LinkedCache.ItemLink` | src/items.c:433-453 | Linking on the linked queues and in the cache leaves the two showing the same queues. |
| `LinkedPull.LinkedCache.ItemUnlink` | src/items.c:455-468 | So does unlinking. |
| `LinkedPull.LinkedCache.Step` | src/items.c:998-1009 | A crawler is passed without using up a try, or ends the pull with 0 when it blocks; an item is a turn of the specified pull. |
| `LinkedPull.LinkedCache.Reclaim` | src/items.c:1033-1048 | The unlink of a dead item from its linked queue is the specified one. |
| `LinkedPull.LinkedCache.Refresh` | src/items.c:1061-1067 | An active WARM item loses its mark and, if due, goes to the head of its linked queue. |
| `LinkedPull.LinkedCache.Conclude` | src/items.c:1068-1148 | The move or the eviction of the item that ends the pull, on the linked queues and, field by field, in the cache. |
| `LinkedPull.UnlinkShows` | src/items.c:455-468 | Taking an item out of a linked queue and out of the cache leaves the two showing the same queues. |
| `LinkedPull.RelocateShows` | src/items.c:512-539 | So does moving it to the head of another. |
| `LinkedPull.MetAgain` | src/items.c:1000-1067 | The only item of a WARM queue, active and due, is rescued to the head, and the pull ends there; but if a crawler stood before it, the same pull meets it again and sends it to COLD if the queue is over its share. |
| `SlabChunks.OneChunk` | src/slabs.c:336-478 | Class consistency (freelist, `sl_curr`, `requested`, counts, index, queues) is local: a step that touches one chunk need only re-establish that chunk. |
| `SlabChunks.AllocKeeps` | src/slabs.c:336-398 | Allocation takes a free chunk and keeps `sl_curr` and `requested` exact. |
| `SlabChunks.FreeKeeps` | src/slabs.c:452-478 | So does freeing. |
| `SlabChunks.GrowKeeps` | src/slabs.c:242-252 | So does a new page. |
| `SlabChunks.CutKeeps` | src/slabs.c:923-932 | So does cutting a chunk out of the middle of the freelist. |
| `FreeList.ChunkList.Put` | src/slabs.c:463-472 | The pointer writes put the chunk first on a proper doubly linked list, and the count follows. |
| `FreeList.ChunkList.Take` | src/slabs.c:359-370 | They take the first chunk off, or nothing exactly if the list is empty. |
| `FreeList.ChunkList.CutFree` | src/slabs.c:923-932 | They take the chunk out from wherever it is on the list and leave a proper list of the others. |
| `FreeListRuns.Follow` | src/slabs.c:336-478 | Every event of workers and mover does to the threaded list what it does to the sequence of free chunks. |
| `FreeListRuns.FollowRun` | src/slabs.c:955-1175 | So does every interleaving, and once the mover is done no chunk of the page is on the list. |
| `PageMover.AllocStep` | src/slabs.c:336-398 | A worker's allocation never disturbs the mover or a cleared chunk. |
| `PageMover.ExamineKeeps` | src/slabs.c:969-1072 | The mover's look at a chunk keeps the invariant in every branch. |
| `PageMover.PullKeeps` | src/slabs.c:888-919 | The search for a chunk outside the page keeps the class consistent, clears chunks of the page in passing and changes nothing live. |
| `PageMover.RescueKeeps` | src/slabs.c:1074-1101 | Copy, replace and wipe keep it, with `requested` one item ahead until it is settled. |
| `PageMover.RescueStep` | src/slabs.c:1074-1101 | The rescue as a step of the whole system keeps the invariant. |
| `PageMover.EvictStep` | src/slabs.c:1118-1121 | So does the unlink of an item that cannot be saved. |
| `PageMover.GiveBackStep` | src/slabs.c:1122-1125 | So does freeing it into the page's own freelist. |
| `PageMover.SettleStep` | src/slabs.c:1128-1166 | So does settling `requested`, advancing, restarting or finishing. |
| `PageMover.StepKeeps` | src/slabs.c:955-1175 | Every step of workers and mover keeps the invariant. |
| `PageMover.RunKeeps` | src/slabs.c:955-1175 | So does every interleaving. |
| `PageMover.PageIsClear` | src/slabs.c:955-1175 | When `done` is set after any interleaving, every chunk of the page is cleared, off the freelist, index and queues, unreferenced and not about to be freed; `sl_curr` is the freelist length and `requested` the bytes of live chunks. |
| `PageMover.RunsSamePage` | src/slabs.c:857-865 | The page under the mover is the same page throughout, while other chunks are added. |
| `PageMover.PullFinds` | src/slabs.c:894-918 | With one turn per chunk of the page, the search fails if and only if every free chunk lies in the page. |
| `PageSweep.EvictsOnlyIfNoRoom` | src/slabs.c:1054-1071 | An idle linked item is given up if and only if it is expired or flushed or no free chunk lies outside the page. |
| `PageSweep.MoverKeepsValues` | src/slabs.c:955-1175 | No mover step changes the value, the size or the FETCHED mark of the item any client finds, except that an item given up disappears. |
| `PageSweep.WorkerFlow` | src/slabs.c:336-478 | What workers do shows as it should: a linked item as it was written into its chunk, a hit as the FETCHED mark, an unlink as its absence, and nothing else. |
| `PageSweep.QuietRun` | src/slabs.c:1155-1166 | With quiet workers every look uses up a bounded budget. |
| `PageSweep.TwoPassesSuffice` | src/slabs.c:1155-1166 | With quiet workers the mover looks at no chunk more than twice. |
| `PageSweep.MoverNeverStuck` | src/slabs.c:955-1175 | Until it is done the mover always has a step to take, whatever the workers do. |
| `PageSweep.QuietMoverFinishes` | src/slabs.c:1155-1166 | With quiet workers a run of the mover has at most eight steps per chunk, and one that cannot go on is done. |
| `PageSweep.Rebalancer.constructor` | src/slabs.c:857-869 | A started mover satisfies the invariant. |
| `PageSweep.Rebalancer.SlabsAlloc` | src/slabs.c:359-370 | The head of the freelist, or nothing exactly when the freelist is empty. |
| `PageSweep.Rebalancer.RebalanceAlloc` | src/slabs.c:888-919 | The loop computes the specified search. |
| `PageSweep.Rebalancer.MoveOne` | src/slabs.c:969-1072 | The branches of the mover are the specified step and keep the invariant. |
| `PageTable.SlabClass.Append` | src/slabs.c:327-329 | A page joins at the end, without hits, and all other entries and the release in progress stay; the four arrays still cover all pages if and only if there were fewer than 4000, the fixed length of `hits`. |
| `PageTable.SlabClass.GrowSlabList` | src/slabs.c:227-240 | There is room for a page and every entry is where it was. |
| `PageTable.SlabClass.ChooseFirst` | src/slabs.c:1978-1990 | The free-memory path picks page 0 of class 1, which is its own if and only if the class had no page or its first page is not borrowed; without any page there is nothing to pick; and the arrays cover all pages afterwards if and only if no page joined or there were fewer than 4000. |
| `PageTable.SlabClass.Start` | src/slabs.c:857-858 | The mover starts on the chosen page. |
| `PageTable.SlabClass.Finish` | src/slabs.c:1217-1244 | The page given out is the chosen one whatever joined meanwhile, borrowed only if it was when chosen; all four arrays lose exactly its entry and stay aligned; and no hits are left where there is no page. |
| `PageTable.SlabClass.CloseUp` | src/slabs.c:1220-1244 | The loop moves every entry behind the gap down by one in all four arrays and clears the one left over. |
| `PageTable.ChooseVictim` | src/slabs.c:1938-1957 | On the hits and conn arrays of all classes: free space exactly when memory is free and some class is large; else the first page with the fewest hits among all eligible own pages, or nothing if there is none. |
| `PageTable.ScanClass` | src/slabs.c:1940-1954 | The inner loop keeps the best page so far and stops early only at a coldest one. |
| `PageRelease.QuietStep` | src/slabs.c:336-478 | Without a mover a worker's step keeps the class consistent. |
| `PageRelease.PagedClass.NewPage` | src/slabs.c:318-329 | A new page of the class's own is cut into free chunks at its address and joins the table, also while the mover works; with 4000 pages already there it outgrows `hits`. |
| `PageRelease.PagedClass.Borrow` | src/slabs.c:1286-1296 | A borrowed page joins the table only, with the same limit. |
| `PageRelease.PagedClass.Begin` | src/slabs.c:854-868 | The mover starts on exactly the chunks of the chosen page. |
| `PageRelease.PagedClass.End` | src/slabs.c:1212-1244 | When the mover is done the page goes out with every chunk of it detached, and the table loses its entry. |
| `PageRelease.PagedClass.Perform` | src/slabs.c:955-1175 | Any run of new pages, borrowed pages, reads and steps of workers and mover gives the state of that run on values, and leaves the release in progress and the earlier pages what they were. |
| `PageRelease.PagedClass.Carry` | src/slabs.c:816-1244 | From choice to finish, with any such run before the mover starts and while it works: the page published is the chosen one, the class's own, clear of items, and the table loses only its entry. |
| `PageRelease.PagedClass.Conclude` | src/slabs.c:1212-1244 | The finish publishes the page if the mover is done with it, and otherwise nothing has happened yet. |
| `PageRelease.PagedClass.ReleaseFirst` | src/slabs.c:1978-1990 | The release of free memory publishes page 0, and the mover has a page of the class's own if and only if the class had none or its first is not borrowed. The new page is one too many for `hits` if and only if there were 4000. |
| `PageRelease.Release` | src/slabs.c:1938-2014 | A page that goes out by its hits was the coldest of all pages that may go when it was chosen, is not borrowed, and leaves cleared. |
| `PageRelease.BorrowedGoes` | src/slabs.c:1978-1990 | After an own page has gone the same way, the next release of free memory chooses a borrowed page. |
| `ShadowShapes.CompareNodes` | src/shadows.c:118-132 | The comparison is the lexicographic order on (sec, usec, item). |
| `ShadowShapes.RotationKeepsOrder` | src/shadows.c:55-109 | Rotations keep the in-order sequence. |
| `ShadowShapes.RotationsBreakWeights` | src/shadows.c:55-109 | If all weights were right before a rotation they are wrong after it. |
| `ShadowEdits.LeftRotation` | src/shadows.c:55-81 | The pointer writes of a left rotation give the rotated tree with consistent parents. |
| `ShadowEdits.RightRotation` | src/shadows.c:83-109 | The same for a right rotation. |
| `ShadowEdits.InsertionPoint` | src/shadows.c:134-160 | Attaching at the hole found by the descent inserts exactly the new node in order and keeps right weights right. |
| `ShadowRemoval.SpliceOne` | src/shadows.c:279-290 | Removing a node with at most one child removes exactly it. |
| `ShadowRemoval.SpliceOneWeights` | src/shadows.c:279-290 | After `fix_weights` that removal leaves right weights. |
| `ShadowRemoval.SpliceTwo` | src/shadows.c:291-304 | Removing a node with two children removes exactly it, near or far successor. |
| `ShadowRemoval.SpliceTwoWeights` | src/shadows.c:291-304 | After `fix_weights` it leaves right weights if and only if the successor was the right child. |
| `ShadowRemoval.NewerAfter` | src/shadows.c:339-350 | The nodes behind a node in order are exactly those more recent than it. |
| `ShadowRemoval.TransplantRep` | src/shadows.c:198-209 | Replacing the subtree at a node by any subtree that shares no node with the path leaves a proper tree around it, with stamps and weights as they were. |
| `ShadowHeights.ClimbTurn` | src/shadows.c:164-170 | One turn of the insert's climb refreshes the parent from the node below and its sibling, and sees the grandparent out of balance exactly when two stored heights are two apart. |
| `ShadowHeights.LeftTurn` | src/shadows.c:79-80 | A left rotation computes two heights from the heights below them and changes no other. |
| `ShadowHeights.RightTurn` | src/shadows.c:107-108 | So does a right rotation. |
| `ShadowHeights.CalmerRight` | src/shadows.c:254-256 | A right rotation by delete_fixup repairs a stale height or lowers the taller side. |
| `ShadowHeights.CalmerLeft` | src/shadows.c:263-265 | So does a left rotation. |
| `ShadowHeights.CalmerLeftRight` | src/shadows.c:258-261 | So does the left-right double rotation. |
| `ShadowHeights.CalmerRightLeft` | src/shadows.c:267-270 | So does the right-left double rotation. |
| `ShadowHeights.RemovalSeen` | src/shadows.c:277-305 | What takes a removed node's place tilts the climb exactly if the heights stored before the removal say so. |
| `ShadowHeights.RankPlug` | src/shadows.c:339-350 | Adding up weights on the way up from a node gives the same as looking it up from the top. |
| `ShadowHeights.OneShape` | src/shadows.c:339-350 | For nodes in a given order and given weights there is at most one tree in which the weights are right. |
| `ShadowFixup.BentCalmer` | src/shadows.c:218-271 | The rotation chosen at an unbalanced node, with the heights it stores, repairs a stale height or lowers the taller side. |
| `ShadowFixup.LeveledSame` | src/shadows.c:211-275 | The tree that the climb leaves depends on stored heights only. |
| `ShadowFixup.OneTurn` | src/shadows.c:254-265 | A single rotation of an unbalanced node stores just the heights that the definition of that tree uses. |
| `ShadowFixup.LeftRightTurns` | src/shadows.c:258-261 | So does a double rotation from the left. |
| `ShadowFixup.RightLeftTurns` | src/shadows.c:267-270 | And from the right. |
| `ShadowFixup.RemovedSeen` | src/shadows.c:277-305 | After the node is spliced out the climb leaves the tree that the heights stored before the removal give. |
| `ShadowFixup.HungVacated` | src/shadows.c:277-305 | The tree with the left subtree below the successor has the order of the tree that splicing makes, and is that tree if and only if there was at most one child or the successor was the right child. |
| `ShadowFixup.RightAfter` | src/shadows.c:330-337 | Whatever rotates, the weights that `fix_weights` prepared are right in that tree and in no other. |
| `ShadowFixup.RotationHeals` | src/shadows.c:211-275 | With a successor further down and heights that tilt, the rotation leaves just that tree: it makes the weights right. |
| `ShadowTree.SearchTree.LeftRotate` | src/shadows.c:55-81 | The tree stays a sorted tree and is rotated at that node; the whole memory afterwards is given: links of three nodes and two heights computed anew. |
| `ShadowTree.SearchTree.RightRotate` | src/shadows.c:83-109 | The mirror image. |
| `ShadowTree.SearchTree.Descend` | src/shadows.c:136-150 | The descent ends at the hole the comparisons lead to, which fits, and has raised exactly the weights of the nodes left of it on the way. |
| `ShadowTree.SearchTree.InsertTreeNode` | src/shadows.c:134-196 | The in-order sequence gains exactly the new node. The heights stored before the call decide whether and where the climb rotates, and give the tree and every field of every node afterwards. Right weights stay right if and only if it does not rotate. |
| `ShadowTree.SearchTree.RebalanceAfterInsert` | src/shadows.c:162-195 | The climb rotates if and only if, going up, a refreshed height and the stored height beside it are two apart; order and nodes stay. |
| `ShadowTree.SearchTree.RotateGrandparent` | src/shadows.c:170-191 | All four rotation cases give the straightened tree, keep order and nodes and break right weights. |
| `ShadowTree.SearchTree.Minimum` | src/shadows.c:48-53 | The leftmost node of the subtree. |
| `ShadowTree.SearchTree.SpliceOut` | src/shadows.c:277-305 | In all three cases exactly the node leaves, the subtree without it stands in its place, and no height or weight changes; weights prepared by `fix_weights` are right afterwards if and only if it had at most one child or its right child had no left child. |
| `ShadowTree.SearchTree.DeleteFixup` | src/shadows.c:211-275 | With whatever stale heights the climb ends; order, nodes and weights stay; the heights stored before the call decide whether it rotates and give the tree it leaves. |
| `ShadowTree.SearchTree.RotateUnbalanced` | src/shadows.c:218-272 | Even with stale heights no rotation reads a missing child, order stays, and a stale height is repaired or the taller side gets lower. |
| `ShadowTree.SearchTree.FixWeights` | src/shadows.c:330-337 | Right weights become the weights of the tree without the node. |
| `ShadowTree.SearchTree.DeleteTreeNode` | src/shadows.c:277-305 | Exactly the node leaves; the heights stored before decide whether anything rotates and which tree is left. |
| `ShadowTree.SearchTree.ReuseDistance` | src/shadows.c:339-350 | The walk up returns the rank that the stored weights give from the top down; with right weights that is the number of nodes more recent than the given one. |
| `ShadowTree.SearchTree.Remove` | src/shadows.c:484-490 | Eviction removes exactly the node from the sorted sequence. The heights stored before it decide whether the fix-up rotates, never for a leaf, and give the tree that is left. Right weights stay right if and only if that tree is the one in which the removed node's left subtree hangs below its successor; without a rotation that is so exactly when it had at most one child or its right child had no left child. |
| `ShadowTree.GrowByThree` | src/shadows.c:134-196 | Three items arriving in order rotate, and the oldest then reports a reuse distance of 4 although two items are newer. |
| `ShadowTree.RemoveSpoils` | src/shadows.c:277-350 | Of the items 4, 2, 6, 5 the item 4 is removed without a rotation, and 5 then reports a reuse distance of 0 although one item is newer. |
| `ShadowLife.EvictKeeps` | src/shadows.c:463-498 | Eviction keeps the invariant and frees at once exactly when nobody pins the item. |
| `ShadowLife.UnpinKeeps` | src/shadows.c:500-511 | A release keeps it and frees exactly the dead item whose last pin this was. |
| `ShadowLife.DropKeeps` | src/shadows.c:490-511 | The common end of both: freed exactly when dead and unpinned. |
| `ShadowLife.EnterKeeps` | src/items.c:1104-1110 | A key evicted from the cache has no shadow yet, and its new shadow fits in. |
| `ShadowLife.PullKeeps` | src/items.c:1104-1116 | The eviction with its overflow trim keeps the queue within its maximum; which record goes is PullFlow's. |
| `ShadowLife.StartKeeps` | src/memcached.c:2895-2896 | A store that pins a shadow keeps the invariant. |
| `ShadowLife.StoreEvictKeeps` | src/memcached.c:2897-2905 | After the store's eviction its key has no shadow, whoever evicted it. |
| `ShadowLife.StoreReleaseKeeps` | src/memcached.c:2907-2908 | The store's release keeps it. |
| `ShadowLife.LinkKeeps` | src/memcached.c:2910-2911 | Linking then meets no shadow of the key. |
| `ShadowLife.TouchKeeps` | src/shadows.c:529-577 | A lookup keeps the invariant; where it takes the record is QueueFlow's. |
| `ShadowLife.StepKeeps` | src/shadows.c:378-527 | Every step of stores, pulls and lookups keeps the invariant. |
| `ShadowLife.RunKeeps` | src/shadows.c:378-527 | So does every run. |
| `ShadowLife.ShadowSafety` | src/shadows.c:414-527 | In every reachable state no key is both cached and shadowed, every queue is counted and within its maximum, nothing is freed twice, and what is freed is not pinned, indexed or queued. |
| `ShadowOrder.PullFlow` | src/shadows.c:414-446 | After a pull the queue is the new record followed by the old queue, cut from the end to the maximum; the record cut off is dead and out of the index, or gone if nobody pins it; all others are as they were. |
| `ShadowOrder.EvictFlow` | src/shadows.c:463-498 | The same detail for an eviction. |
| `ShadowOrder.QueueFlow` | src/shadows.c:378-577 | What each event does to each queue: a pull puts the new record in front and cuts, a lookup moves a live record to the front, an eviction takes one out, and nothing else moves. |
| `ShadowOrder.PhaseFlow` | src/memcached.c:2895-2911 | Where a store is after each event: pinning the shadow of its key if there is one, past the eviction, ready to link, done; and which pins lookups have. |
| `ShadowOrder.QueuesByRecency` | src/shadows.c:378-577 | After every run from the start each queue lists exactly the live records of its class, by their last entry or lookup, the newest first. |
| `ShadowOrder.OldestGoes` | src/shadows.c:433-443 | So over every run the record pushed out of its class is the one, of all live ones, that was not seen for longest. |
| `ShadowOrder.CachedKeys` | src/memcached.c:2895-2911 | Over every run a key is in the cache if and only if nothing evicted or unlinked it since it was last linked. |
| `ShadowOrder.ShadowTable.EvictLocked` | src/shadows.c:463-498 | The record leaves its queue, the index and the tree and is dead, or gone if nobody pins it; every other record is the same and in its place; a dead one is left alone. |
| `ShadowOrder.ShadowTable.PullIntoShadow` | src/items.c:1104-1116 | The new record is at the head of its queue and found under its key; a full queue loses its last record and no other; every other record, key and queue is unchanged; the new record meets no older one for its key. |
| `Bipbuffer.PushAppends` | src/bipbuffer.c:91-107 | A push that fits appends the bytes at the writing position to A ++ B and keeps the regions apart and in bounds. |
| `Bipbuffer.WriteIsOutside` | src/bipbuffer.c:77-89 | The bytes a request hands out belong to neither region. |
| `Bipbuffer.PollDrops` | src/bipbuffer.c:151-180 | A poll takes exactly the first bytes of A ++ B. |
| `Bipbuffer.EmptyIffNothing` | src/bipbuffer.c:63-66 | A is empty if and only if the whole queue is. |
| `Bipbuffer.ReservationHolds` | src/bipbuffer.c:70-128 | After a request for n bytes a push and an offer of n bytes together both fit, even if the push switches regions. |
| `Bipbuffer.SwitchGains` | src/bipbuffer.c:70-74 | Writing switches to B exactly when that leaves more room. |
| `Bipbuffer.RoomIsLarger` | src/bipbuffer.c:70-107 | Exactly how much room there is after every push and poll: the larger of the two gaps, once writing is not already before region A. |
| `Bipbuffer.FirstInFirstOut` | src/bipbuffer.c:23-180 | Over any run of offers, requests written and pushed, and polls, what was accepted is what came out followed by what is inside. |
| `Bipbuffer.Buffer.constructor` | src/bipbuffer.c:42-56 | A new buffer is an empty queue. |
| `Bipbuffer.Buffer.Request` | src/bipbuffer.c:77-89 | Room is handed out exactly when it is there, at the writing position, in bounds. |
| `Bipbuffer.Buffer.Write` | src/items.c:1190-1193 | Writing there changes only those bytes, neither the queue nor what a peek shows. |
| `Bipbuffer.Buffer.Push` | src/bipbuffer.c:91-107 | The queue grows by exactly the bytes written, and the peeked bytes stay where they are. |
| `Bipbuffer.Buffer.Offer` | src/bipbuffer.c:109-128 | The queue grows by exactly the data or not at all, and the peeked bytes stay where they are. |
| `Bipbuffer.Buffer.IsEmpty` | src/bipbuffer.c:63-66 | Empty means an empty queue. |
| `Bipbuffer.Buffer.PeekAll` | src/bipbuffer.c:142-149 | A non-empty prefix of the queue, or nothing exactly when it is empty. |
| `Bipbuffer.Buffer.Poll` | src/bipbuffer.c:151-180 | Of any length: nothing comes out of an empty queue or past the end of the buffer; a poll within region A takes exactly the polled prefix, and the buffer stays in order if and only if the poll is no longer than that. |
| `Bipbuffer.PolledInOrder` | src/bipbuffer.c:151-180 | A poll leaves the regions in order if and only if it is no longer than region A. |
| `Bipbuffer.PollTooLong` | src/bipbuffer.c:151-180 | After three bytes a poll of four is answered and leaves them out of order. |
| `Bipbuffer.Exchange` | src/bipbuffer.c:23-180 | The same of the buffer itself: a new one under any run gives out and keeps exactly the bytes it took, in order, and is at the end in the state of that run. |
| `Bipbuffer.Perform` | src/bipbuffer.c:77-180 | Each call on the buffer is the step of the run, and what it takes and gives is what the step takes and gives. |
| `BumpBuffers.EntryRoundTrip` | src/items.c:91-94 | The bytes of an entry decode to the entry, whatever is in the padding. |
| `BumpBuffers.BumpKeeps` | src/items.c:1186-1210 | A new entry does not disturb a drain in progress. |
| `BumpBuffers.ServeKeeps` | src/items.c:1233-1240 | The entry in memory is the oldest accepted one not yet served, and the countdown stays whole. |
| `BumpBuffers.FinishKeeps` | src/items.c:1242-1244 | Polling what was peeked removes exactly the served entries. |
| `BumpBuffers.ServedInOrder` | src/items.c:1215-1248 | At any moment the served entries are a prefix of the accepted ones. |
| `BumpBuffers.BumpBuffer.Bump` | src/items.c:1186-1210 | An entry is accepted whole or dropped and counted; after a good request the push never fails; what a peek has shown stays in place. |
| `BumpBuffers.BumpBuffer.Peek` | src/items.c:1223-1231 | A drain starts exactly when something is unserved. |
| `BumpBuffers.BumpBuffer.Serve` | src/items.c:1233-1240 | Each turn serves the next accepted entry. |
| `BumpBuffers.BumpBuffer.Finish` | src/items.c:1242-1244 | What was served is gone from the buffer. |
| `BumpBuffers.BumpBuffer.DrainAll` | src/items.c:1215-1248 | With any entries arriving during the drain, the countdown reaches zero exactly and the entries served are the ones the peek showed, each once, in order. |
| `BumpBuffers.BumpBuffer.DrainTwice` | src/items.c:1215-1248 | Two drains without arrivals serve everything that was accepted. |
| `LogWriter.Watcher.Reserve` | src/logger.c:246-252 | The loop ends with room for the line and the note, or marked as failed; only flushed bytes leave the queue, and none if there was room. |
| `LogWriter.Watcher.WriteEntry` | src/logger.c:233-276 | The line, after a note if lines were skipped, joins the queue, or the line is counted as skipped; nothing in between. |
| `LogWriter.Watcher.FillRoom` | src/logger.c:261-274 | The push of the note and the offer of the line cannot fail. |
| `StoreRuns.StoreMeaning` | src/memcached.c:2803-2931 | When each store command succeeds, what value it leaves, which refusal it gives, and that a refusal changes nothing. |
| `StoreRuns.StoreKeeps` | src/memcached.c:2803-2931 | Store commands keep ids distinct and below the counter, and a changed key gets a new id. |
| `StoreRuns.DeltaKeeps` | src/memcached.c:3833-3938 | So do incr and decr, in place or replacing. |
| `StoreRuns.LinkKeeps` | src/items.c:433-453 | Linking gives an id that no item had before. |
| `StoreRuns.StepKeeps` | src/memcached.c:2803-2931 | Every step, rescue and delete included, keeps the ids sound. |
| `StoreRuns.HeldExactly` | src/memcached.c:3833-3938 | Over every run the references to an item are those at the start, plus those readers took, less those given back, plus one for every incr or decr that met it empty. |
| `StoreRuns.LeakedIff` | src/memcached.c:3842-3851 | When the readers of a run from an empty server have given back what they took, an item still has a holder if and only if an incr or decr met it empty. |
| `StoreRuns.LeakLasts` | src/memcached.c:3842-3851 | A reference that nobody gives back outlasts every run, and the page mover never finds the item idle. |
| `StoreRuns.EmptyValueLeaks` | src/memcached.c:3842-3851 | It happens: after a set of an empty value and an incr no reader has a reference, and whatever run follows in which readers give back no more than they take, the item cannot be moved. |
| `StoreRuns.RunKeeps` | src/memcached.c:2803-2931 | So does every run. |
| `StoreRuns.NeverAgain` | src/items.c:107-113 | An id given out that is not the key's now will never be the key's again. |
| `StoreRuns.NoABA` | src/memcached.c:2818-2836 | A key has the same id at both ends of a run if and only if its item and value never changed in between. |
| `StoreRuns.CasAcceptsIffUntouched` | src/memcached.c:2818-2836 | A cas with an id the key had earlier is accepted if and only if nothing replaced, changed or removed the item since. |
| `StoreRuns.PrintedId` | src/memcached.c:3431-3434 | A reader that holds an item prints the value it found, and prints the id it found if and only if no incr or decr replaced the item meanwhile. |
| `StoreRuns.ReadThenCas` | src/memcached.c:3431-3434 | Under that condition a cas with the printed id is accepted only if the value is still the printed one. |
| `StoreRuns.ReplacedWhileRead` | src/memcached.c:3902-3921 | Without it there is a run from the empty server in which a cas based on an outdated value is accepted. |
| `StoreRuns.Server.DoStoreItem` | src/memcached.c:2803-2931 | The branches of the function are the specified step and reply. The key then has the value sent, or the old one with it behind or before, under a new id, exactly when the command is to succeed; no other key changes; a refusal changes nothing. The reference it takes is given back on every return. |
| `StoreRuns.Server.DoAddDelta` | src/memcached.c:3833-3938 | It answers Ok exactly when there is an item with a number, the id is right and there is room. The value then reads as the number plus the amount modulo 2^64, or less the amount but not below zero, whether it was written in place or replaced, and no other key changes; otherwise no value does. The reference it takes is given back on every return but one, and kept if and only if the value is empty. |
| `StoreRuns.StoreFlow` | src/memcached.c:2803-2931 | What a store command leaves under every key, by command, without the functions that compute it. |
| `StoreRuns.DeltaFlow` | src/memcached.c:3862-3921 | What an incr or decr leaves under every key, read back as a number, and what it answers. |
| `DecimalText.ReadBack` | src/memcached.c:3885-3900 | The text written for a number reads as that number, with any number of blanks behind it. |
| `DecimalText.DecimalNumber` | src/memcached.c:3885-3886 | It is all digits and their value is the number. |
| `StoreValues.ValueFlow` | src/memcached.c:2803-2931 | Only a store command, an incr or decr or an unlink changes a value, and only under its own key; reads, drops, new ids and rescues by the page mover change none. |
| `StoreValues.IncrementsAddUp` | src/memcached.c:3833-3938 | Over every run in which only increments that read what is there touch a key, its number grows by exactly their sum modulo 2^64, whatever else comes between them and however each is carried out. |
| `Reply.MovedKeeps` | src/memcached.c:951-958 | Re-pointing every window after the array moved keeps the reply. |
| `Reply.PutKeeps` | src/memcached.c:1007-1013 | One more buffer in the last window extends the reply by exactly its bytes. |
| `Reply.NewMsgKeeps` | src/memcached.c:271-311 | A new message adds nothing to the reply. |
| `Reply.NewDatagramKeeps` | src/memcached.c:302-308 | A new datagram adds its 8 header bytes and nothing to the reply. |
| `Reply.LastFull` | src/memcached.c:989-1005 | A new message or datagram is begun only when the one before has as many buffers as the system takes or, for a datagram, 1400 bytes. |
| `Reply.Builder.EnsureIovSpace` | src/memcached.c:938-962 | There is room for a buffer, every window starts at the sum of the earlier window lengths in the current array, and the reply is unchanged. |
| `Reply.Builder.PointWindows` | src/memcached.c:955-958 | The loop gives every window the sum of the lengths before it. |
| `Reply.Builder.AddMsghdr` | src/memcached.c:271-311 | A message with room is started, only when the last one is full, and the reply is unchanged. |
| `Reply.Builder.AddIov` | src/memcached.c:975-1037 | The reply grows by exactly the buffer; messages keep to the system limit and datagrams to 1400 bytes, and all messages but the last are full. |
| `Reply.Builder.AddSplit` | src/memcached.c:982-1017 | A buffer is split over as many datagrams as it takes, without loss. |
| `ReplySending.EatEats` | src/memcached.c:4775-4788 | The loop over a partly sent window drops exactly the bytes sent. |
| `ReplySending.SentKeeps` | src/memcached.c:4775-4788 | Sent bytes and bytes to send always make up the same reply. |
| `ReplySending.DatagramsSayText` | src/memcached.c:982-1017 | Every datagram is an 8-byte header and its piece of the reply, within 1400 bytes. |
| `ReplySending.Sender.Consume` | src/memcached.c:4775-4788 | The writes are the specified loop. |
| `ReplySending.Sender.Transmit` | src/memcached.c:4757-4813 | Whatever sendmsg takes, it is the first bytes of the message offered, and sent and unsent bytes make up the same reply; complete means nothing is left; the other results follow sendmsg's. |
| `ReplySending.Sender.SendAll` | src/memcached.c:4757-4813 | Over every schedule of partial and blocked sends the bytes sent are a prefix of the reply, and the whole reply on completion. |
| `ReplySending.Compose` | src/memcached.c:975-1037 | A reply put together from any buffers says those buffers one after the other. |
| `ReplySending.SendReply` | src/memcached.c:4757-4813 | Over TCP, from the first buffer to the last write: the bytes on the wire are a prefix of the buffers given, and all of them on completion. |
| `Datagrams.BuildHeaders` | src/memcached.c:1056-1096 | Every datagram gets its header, and no piece of the reply changes. |
| `Datagrams.HeaderReads` | src/memcached.c:1081-1093 | A client reads off a header the request id, the number and the count, each modulo 65536, and two zero bytes; the piece follows. |
| `Datagrams.PiecesSayText` | src/memcached.c:982-1017 | The pieces behind the headers make up the reply. |
| `Datagrams.SendNext` | src/memcached.c:4757-4813 | A datagram goes out whole and its bytes are the ones sent, or the send blocks and nothing is sent. |
| `Datagrams.BuildAgain` | src/memcached.c:5188-5194 | Headers are built again as long as the first datagram is the current one, also after it has gone; nothing that is still to be sent changes. A header is written outside the array if and only if the only datagram has gone and its buffers fill the array. |
| `Datagrams.Emit` | src/memcached.c:5188-5230 | Under any schedule of sends and blocks the bytes sent are those of the first datagrams in order, and of all of them on completion; when a header goes outside the array is exact. |
| `Datagrams.SendUdpReply` | src/memcached.c:5188-5230 | Over UDP, from the first buffer to the last datagram: the bytes sent are datagrams of a header and a piece; each reads as its request, its number and the count; the pieces of all datagrams make up the buffers given; none is longer than 1400 bytes, and all but the last are just as long unless they have as many buffers as the system takes; all of them are sent on completion. A header is written outside the array if and only if one datagram was sent and `iovused` is the size of the array. |
| `Datagrams.NumbersApart` | src/memcached.c:1086-1089 | The datagrams of a reply can be told apart by their numbers if and only if there are no more than 65536. |
| `Datagrams.Reassembles` | src/memcached.c:1056-1096 | In that case a client that gets them in any order, any of them more than once, puts the reply together. |
| `Datagrams.ReassemblesAmongOthers` | src/memcached.c:1056-1096 | Also among datagrams of other requests: a client that keeps those with its request id, and takes the count from any of them, has the reply, with fewer than 65536. |
| `Tracker.StepKeeps` | src/start_tracker.c:215-362 | Digits are accept counts modulo ten, and messages carry the digit of their round. |
| `Tracker.SameDigitTenApart` | src/start_tracker.c:291-302 | Two accepts of a tracker have the same digit if and only if they are a multiple of ten accepts apart. |
| `Tracker.ReleaseBetweenAccepts` | src/shm_malloc.c:376-405 | Between two accepts of a tracker its spare lock was released. |
| `Tracker.DigitTest` | src/start_tracker.c:291-294 | An offer passes the digit test if and only if its round lags a multiple of ten accepts. |
| `Tracker.OneAcceptPerRound` | src/start_tracker.c:291-302 | A second accept in one round needs an offer at least ten accepts old. |
| `Tracker.OfferStep` | src/start_tracker.c:358-362 | A step keeps at most one open offer per tracker, waiting exactly while one is open, if and only if it is not an answer to another offer than the open one. |
| `Tracker.OneOpenOffer` | src/start_tracker.c:215-362 | In a run without such late answers no tracker has two open offers. |
| `Tracker.TwoOpenOffers` | src/start_tracker.c:358-362 | With one it happens, in a run from the initial state. |
| `Tracker.Process.LockSpareRegion` | src/shm_malloc.c:376-392 | The lock is obtained exactly when it was free. |
| `Tracker.Process.LockMinScore` | src/shm_malloc.c:608-626 | Without a candidate the answer is 1 and nothing is locked; otherwise the lock is obtained exactly when it was free. |
| `Tracker.Process.RecvMsg` | src/start_tracker.c:215-362 | For every message, on the fields: an offer is answered with x exactly when the digit is current, the scores agree and the spare lock was free, which is then taken and the digit raised, and with r otherwise; a request with an offer that repeats its digit, or not at all; x with p and by becoming client; p with p unless client; r not at all; and which locks and waits that changes. |
| `Tracker.Process.SendRequest` | src/start_tracker.c:387-391 | A request carries the present digit, and its sender stops being client. |
| `Tracker.Process.CheckTimeout` | src/start_tracker.c:398-402 | A wait that is too long ends and frees the candidate; nothing changes otherwise. |
| `Tracker.RecvFlow` | src/start_tracker.c:215-362 | The same answers and changes for the tracker of the state machine. |
| `TrackerMail.PostedExactly` | src/start_tracker.c:215-391 | What every step puts on the network, for every message: x exactly for an accept and to the maker of that offer, r exactly for an offer delivered and not accepted, s for an offer made, p for an x or for a p to one who is not client, H by a request. |
| `TrackerMail.MailStep` | src/start_tracker.c:215-391 | Every step keeps what messages tell: an s is one offer not yet delivered, x and p are about an offer between the two that was accepted, r about one that was refused. |
| `TrackerMail.RunMail` | src/start_tracker.c:215-391 | So does every run. |
| `TrackerMail.AsManyAsAccepts` | src/start_tracker.c:299-302 | Over every run the x ever sent for an offer are as many as its accepts. |
| `TrackerMail.AcceptedOnce` | src/start_tracker.c:289-302 | Over every run an offer is accepted at most once, and only by the tracker it was made to. |
| `TrackerMail.ClientForOwnOffer` | src/start_tracker.c:340-342 | From a network without messages, a tracker becomes client only by an x about an offer of its own that the sender of the x accepted. |
| `TrackerMail.PortsForAccepted` | src/start_tracker.c:314-357 | And a p, first or in reply, goes only between the two of an accepted offer. |
| `Admission.SmoothedBetween` | src/rdma_util.c:399-403 | The average stays between its old value and the sample, so within 0..1000000, and no product exceeds 64 bits. |
| `Admission.FiveTimeoutsOverload` | src/rdma_util.c:405-411 | Five straight timeouts reach the overload threshold from any value; from zero four do not. |
| `Admission.DecayRecovers` | src/rdma_util.c:420-433 | 149 or more decay steps bring any value to the recovery threshold; from the top 148 do not. |
| `AdmissionRuns.StepKeeps` | src/rdma_util.c:449-460 | At every atomic step the counter is the holders plus the overshoots, holders are at most 256, and no update of the average is lost. |
| `AdmissionRuns.RunKeeps` | src/rdma_util.c:462-562 | So after every run. |
| `AdmissionRuns.SlotSafety` | src/rdma_util.c:449-460 | At most 256 threads hold a slot in every reachable state, and the counter is zero when all are outside. |
| `AdmissionRuns.GivesBackOnce` | src/rdma_util.c:532-561 | On every path through each of the three exits, and whatever the others do, a thread lowers the counter as often as it raised it, but for the slot it holds, and raises it at most once per call. |
| `AdmissionRuns.LatchHolds` | src/rdma_util.c:467-492 | While the average stays strictly between the two thresholds, and no thread is about to act on one from outside, no run changes the overload latch. |
| `AdmissionRuns.LatchTurns` | src/rdma_util.c:467-492 | One look at the average changes the latch if and only if it is set and the average is at or below the lower threshold, or clear and the average at or above the upper one; the thread goes on to reserve if and only if it may probe or the latch is then open. |
| `AdmissionRuns.Gate.ReserveSlot` | src/rdma_util.c:449-456 | A slot is had if and only if the counter was below 256, and an overshoot is taken back. |
| `AdmissionRuns.Gate.PushSample` | src/rdma_util.c:405-411 | However often others get in between, the sample is smoothed into the value in place at the swap that goes through, so no update is lost. |
| `AdmissionRuns.Gate.GetRemoteItem` | src/rdma_util.c:462-562 | A slot is had if and only if fewer than 256 were taken and the call may probe or the average allows it: at most 50000 with the latch set, below 200000 with it clear; the latch is then as the average says. Each of the exits gives back the slot if one was had and raises and lowers the counter equally; an item comes back if and only if a slot was had, the read posted and answered in time; and the average takes in one sample, 0 or 1000000 by the result, with a weight of one twentieth, if a slot was had. |
| `AdmissionSamples.SampledOnce` | src/rdma_util.c:532-561 | Over every interleaving the updates in the average and those threads still owe are those there were and one for each read that ended and each decay that was due. |
| `AdmissionSamples.EveryOutcomeCounts` | src/rdma_util.c:462-562 | When all threads are outside, the average is made of exactly one timeout for every read that was late or could not be posted, one success for every read that arrived, and one decay for every call that performed it. |

## Left out

- MaintainerBumps: the entries are one sequence and the reads between them are whole calls; the buffer they come from is in BumpBuffers.
- CrawlAll: speaks of a queue that nobody changes; the crawl of a queue in use is in CrawlRuns.
- Carry: what the mover does to a page that is not the class's own is not modelled, and a run may stop before the mover is done.
- ChooseFirst: the branch that only signals free memory to the tracker is left out.
- ReleaseFirst: a release whose new page outgrows `hits` is followed only up to there.
- AddIov: assumes that growing an array succeeds; the code goes on after a failed `add_msghdr`.
- Transmit: takes the result of sendmsg as a parameter of at most the bytes offered.
- StoreMeaning: values only; flags, expiry times and the line ending are not modelled.
- DoStoreItem: the path on which copying into the combined item of an append or prepend fails, which only chunked items have, with its second removal of that item.
- DoAddDelta: the number that strtoull reads from the old text, with its leading blanks and signs, is a parameter; the new text is read back.
- RecvMsg: messages of type B, the scores and the port numbers are left out, and the wait for the min-score lock is over when the step happens.
- BuildAgain: says when a header is written outside the array, not what that does to other memory.
- Finish: `page_id` bookkeeping inside the pages is not modelled.
- Touch: the tree and the queue move of a shadow lookup are one step, and the tree is in ShadowTree.
- Weights, heights, reference counts and ids are unbounded integers; their wrap-around is not modelled.
- Chunked items, `tail_repair_time`, remote temporary items and the class 0 page pool.
- Eviction into the shadow index, tree and queue is one step.
- Page moves between two local classes and the receiving side of a page transfer.
- The floating-point scores; only which page is chosen and how a comparison came out matter here.
- The hash index appears as a map in CacheState and SlabChunks; its pointers are proved in Assoc. Reads and stores are not repeated on the linked queues; the pull is, in LinkedPull.
- `bipbuf_peek`, which nothing calls.
- src/shadow_assoc.c (the same algorithm as src/assoc.c) and src/rdma_assoc.c.
- Sockets, libevent, RDMA verbs, shared-memory set-up, statistics, log formatting and command parsing.
- src/cache.c, src/stats.c, src/itoa_ljust.c, src/util.c and the hash functions: self-contained and easier.
- The failure of build_udp_headers to get memory.
