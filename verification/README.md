# A verified model of kdbus

kdbus is a message bus inside the Linux kernel. This project models the parts of it that carry
state invariants and proves them with Dafny 4.11. `dafny verify dfyconfig.toml` checks everything.

| file | models |
|---|---|
| `NodeLifecycle.dfy` | the life of a node (node.c) as interleaved steps of any number of threads: the biased counter, references, linking and overlapping deactivations |
| `NodeDeactivate.dfy` | the deactivation loop run alone, as an imperative method |
| `Pool.dfy` | the slice allocator of a receiver's buffer (pool.c) |
| `Queue.dfy` | the message queue with its priority tree (queue.c) |
| `Quota.dfy` | the per-user quota and its fairness (connection.c) |
| `Connection.dfy` | queue entries, receiving and takeover: pool, quota and queue kept in agreement (queue.c, connection.c) |
| `Names.dfy` | the name registry and the announcements it makes (names.c, notify.c) |
| `Reply.dfy` | reply trackers (reply.c, connection.c) |
| `Delivery.dfy` | what becomes of replies and notices on their way to a requester (connection.c, notify.c) |
| `Policy.dfy` | the policy database and the check of names (policy.c, names.c) |
| `Users.dfy` | the uid table and the recycling of small ids (domain.c) |
| `Accounts.dfy` | a domain with all its connections, over runs (domain.c, queue.c) |
| `Items.dfy` | item streams on 64-bit addresses (item.h, item.c) |
| `Message.dfy` | the two scans of a message and the layout of its slice (message.c, queue.c) |
| `Common.dfy` | declarations shared by the others |

Conventions of the model:

- A critical section of the source is one atomic step. In node.c, where nearly every access is a
  single atomic operation, a step is one such operation or one section under the parent's lock.
- Red-black trees are the sequences of their nodes in tree order. A search narrows a window of that
  sequence around a pivot that may be any element of it, so that every shape balancing may produce
  is covered. Hash tables are maps or sets, visited in any order.
- Objects that the source tells apart by address carry an identity that is not reused.
- The outcome of an allocation, of a copy from user space, of a policy decision, of the clock and of
  the checks on files is a parameter or an arbitrary choice.
- Integers are unbounded, with the width written out where the source depends on it: the quota
  counters, the file descriptor count, the sums of addresses and sizes in item streams, and the sums
  of vector sizes.

Where the code and its own documentation disagree the model follows the code:

- node.c says that a node which was never linked may be freed without being deactivated, and warns
  when it is (node.c:433-465). `NodeLifecycle.NoUseAfterFree` says what holds: a freed node is drained, or
  was never linked.
- `kdbus_policy_set` means to mark names that end in ".*" as wildcards. Its test looks one character
  too early (policy.c:403-419): `Policy.WildcardTestNeverFires` shows that it fires on no valid name.
  The database is therefore modelled for any value of the flag, as a given part of an item.
- `kdbus_queue_entry_unlink` takes any entry that has peers of its priority for the one in the tree
  (queue.c:152-169). For an entry that never was in a tree, whose node is still zeroed, replacing that
  node makes the successor of the entry the root of a tree with no other node, and copies the colour
  red to it. The next insertion of another priority then takes the root for a node with a parent.
  `Queue.MsgQueue.Unlink` models this: the tree remains intact exactly if the entry is the oldest of its
  priority. Both ways of receiving and every drain in order respect it; `Queue.DrainKeepsIndex` says
  exactly when a takeover filtered by name does, and `Queue.FilteredDrainBreaks` gives two messages for
  which it does not.
- A connection can wait for a name it owns. Releasing the name then only takes the connection out of
  the queue (names.c:137-138); `Names.Heir` and the lemmas about it include this case.
- `kdbus_name_release_all` dereferences the activator link of an activator (names.c:447-449) and is
  reached when `kdbus_conn_connect` gives up on a connection it had added (connection.c:432-461).
  `Names.Registry.Connect` shows that the link is there exactly if the connection is no activator or got
  its name, which a caller can tell beforehand: the announcement and the policy succeed, a new name finds
  memory, and an existing one has no activator yet. `Names.SecondActivator` is an input for which the
  link is missing.
- The documentation promises a message to a requester whose request times out or whose peer dies
  (doc/kdbus.message.xml:877-889). The source ignores when that message cannot be queued (notify.c:221),
  and closes the window of a request before it queues the reply (connection.c:1118-1152).
  `Reply.NoSilentEnd` says that no window is closed without reply or notice; `Delivery.SilentExactly` says
  that an asynchronous requester then hears nothing exactly if its connection refuses that message: it is
  not active, does not take the descriptors, or `Connection.WhyNot` gives a reason.
  `Delivery.RequestVanishes` is such a case: 256 notifications are queued already.

## Model

| member | source | states |
|---|---|---|
| `NodeLifecycle.LocalStep` | node.c:562-684 | each atomic operation of deactivate keeps the node it works on consistent and is one that every other thread, and every child, can tolerate |
| `NodeLifecycle.KeepStep` | node.c:291-714 | every operation of every thread (init, link, ref, unref, activate, acquire, release, deactivate) keeps the invariant of all nodes, edges and calls in flight |
| `NodeLifecycle.RunKeepsInv` | node.c:291-714 | the invariant holds after every interleaving of any length |
| `NodeLifecycle.ReleaseCallback` | node.c:588-683 | in every reachable state a release callback has run at most once, never while an active reference is held, and when it is entered the callbacks of all children have finished |
| `NodeLifecycle.DeactivateReturned` | node.c:562-684 | when deactivate returns, the node is drained and the callback of every node of its subtree ran exactly once |
| `NodeLifecycle.ActivationReference` | node.c:533-683 | the reference taken by activate is dropped at most once, only when drained, and in a settled node exactly if it was activated; a drained node is settled unless its releaser is still at work on it |
| `NodeLifecycle.NoUseAfterFree` | node.c:321-465 | no call in flight works on a freed node or a node with a freed parent, linked nodes and nodes with active references are alive, and a freed node is drained or was never linked |
| `NodeLifecycle.DeactivatedForGood` | node.c:482-506 | once deactivated a node is never active again and gains no active reference in any step |
| `NodeLifecycle.LinkInserts` | node.c:357-389 | for every reachable state in which a link call is about to insert: if no linked child of that parent has the name, the node becomes linked under it with that name, the parent gains exactly one reference for it, and no other node changes; otherwise no node changes at all |
| `NodeLifecycle.LinkHoldsParent` | node.c:354-394 | a link call starts exactly on an active parent, holds an active reference to it until its end, and then gives that back |
| `NodeLifecycle.Links` | node.c:321-398 | a link whose parent is active and whose name is free succeeds, with the resulting state of every node |
| `NodeLifecycle.OperationEffects` | node.c:405-714 | what ref, unref, activate, acquire and release do to the counter and the references of their node; nothing else changes |
| `NodeLifecycle.OperationsPossible` | node.c:405-714 | when they are possible: an active reference is to be had exactly on an active node, activation exactly on a new one, deactivation by whoever holds a reference |
| `NodeLifecycle.DescendsToFirst` | node.c:608-616 | a call at a node with children enters a child, and only the first one |
| `NodeLifecycle.BlockedOnly` | node.c:588-683 | in every reachable state, a running deactivate call has a next step unless active references to its current node are held, or another call is releasing that node and has a next step itself |
| `NodeLifecycle.Enters` | node.c:588-616 | a call marks its node and then enters the first child, which it pins |
| `NodeLifecycle.ReleasesLeaf` | node.c:588-663 | a call that nothing holds up releases a node without children: one callback, unlinked, drained, and the activation reference dropped exactly if there is one |
| `NodeLifecycle.FamilyReachable` | node.c:382-385 | a reachable state with an active parent and an active linked child |
| `NodeLifecycle.FamilyReleased` | node.c:562-684 | a run that deactivates both and returns |
| `NodeDeactivate.Hierarchy.Deactivate` | node.c:562-684 | run alone, the loop terminates, calls the callbacks of exactly the subtree in post-order, so that each comes after those of the children in the order of the child tree and tells whether its node was active, drains it, and changes nothing else; a drained node is left as it is |
| `NodeDeactivate.OrderIs` | node.c:562-684 | the post-order of a subtree puts children before their parent and siblings in the order of the child tree |
| `Pool.CanonicalUnique` | pool.c:276-320 | a layout without adjacent free slices is determined by its allocated ranges: free slices are the maximal gaps |
| `Pool.AllocReleaseRestores` | pool.c:202-353 | allocating a slice and releasing it gives back the same layout, for every best-fit position |
| `Pool.CarveLayout` | pool.c:239-266 | splitting a free slice keeps the tiling in multiples of 8 bytes and the reference rules |
| `Pool.CoalesceLayout` | pool.c:286-320 | merging with both neighbours keeps the tiling and leaves no adjacent free slices |
| `Pool.CoalesceHeld` | pool.c:276-320 | releasing a slice removes it and no other from the slices in use |
| `Pool.FindFit` | pool.c:215-232 | the descent finds a smallest sufficient size in any shape of the tree, or there is none |
| `Pool.AddFree` | pool.c:121-141 | insertion keeps the free tree sorted by size and adds exactly the slice |
| `Pool.AddBusy` | pool.c:144-166 | insertion at the one place that keeps the busy tree sorted by offset |
| `Pool.FindBusy` | pool.c:168-187 | finds an offset exactly if it is allocated |
| `Pool.MergeFree` | pool.c:288-319 | free tree and list after a release are those of the merged layout |
| `Pool.Pool.Alloc` | pool.c:202-274 | takes a best-fitting free slice, fails for space exactly if none fits and for memory exactly if one has to be split and that fails, changes nothing on failure, and accounts the aligned size |
| `Pool.Pool.Reclaim` | pool.c:276-320 | returns a slice to the pool exactly when neither kernel nor user refers to it |
| `Pool.Pool.SliceRelease` | pool.c:334-353 | drops the kernel's reference and the account of the slice; no underflow |
| `Pool.Pool.ReleaseOffset` | pool.c:366-386 | succeeds exactly for the dummy offset and for published slices |
| `Pool.Pool.Publish` | pool.c:421-434 | user space gets a reference to the slice; the rest of the pool stays |
| `Queue.MsgQueue.Peek` | queue.c:62-85 | by priority the oldest entry of the smallest value, and nothing exactly if none is within the bound; else the head; always an entry that may be unlinked |
| `Queue.MsgQueue.Link` | queue.c:87-131 | the FIFO list grows at its tail, and tree and cached entry remain its index by priority |
| `Queue.MsgQueue.Unlink` | queue.c:133-170 | the entry leaves the list; the tree remains an index fit for the next insertion if and only if the entry was the oldest of its priority, and otherwise is a single red root |
| `Queue.OldestStays` | queue.c:119-169 | an entry that is in the tree stays there until it leaves the queue |
| `Queue.HeadIsOldest` | queue.c:76-79 | the head of the list is the tree-resident entry of its priority |
| `Queue.OldestIsFirst` | queue.c:119-169 | the tree-resident entry of a priority is the one that stands before all others of it |
| `Queue.DrainKeepsIndex` | connection.c:1379-1398 | a walk that moves the entries of one name unlinks only entries in the tree, and so keeps the index, if and only if no staying entry precedes a moving one of its priority; an unfiltered walk always does |
| `Queue.FilteredDrainBreaks` | connection.c:1380-1392 | two messages of one priority for which a filtered walk does not |
| `Queue.MoversAre` | connection.c:1380-1383 | without a filter every message moves, with one exactly those sent to that name |
| `Quota.QuotaInc` | connection.c:633-716 | accepts a message exactly if the account array can hold its sender, the incoming half is not exceeded, and the sender stays within a third of what the others leave of it, within 32 bits, 256 messages and 16 descriptors; the reason of every refusal; all other users are left alone |
| `Quota.QuotaDec` | connection.c:730-748 | gives back the charge, with a warning exactly if the account does not cover it; then the counters that would underflow stay as they are |
| `Quota.IncFair` | connection.c:684-716 | an accepted message keeps the fair order of users, its sender moving to the end |
| `Quota.DecFair` | connection.c:730-748 | giving bytes back keeps the order fair |
| `Quota.FairnessBound` | connection.c:640-661 | with k users in fair order, 3^k times the unused part of the incoming half is at least 2^k times that half; it is never full |
| `Connection.LedgerAdd` | queue.c:267-283 | a charged entry keeps quota, entries and the pool's account equal, and the quota fair |
| `Connection.LedgerSub` | queue.c:431-438 | so does an entry that is given back |
| `Connection.LedgerCovers` | connection.c:730-748 | the account of a sender covers each of its live entries, so no warning about an underflow fires |
| `Connection.IncomingHalfNeverFull` | connection.c:640-661 | in every consistent state of a connection (2/3)^k of the incoming half is free, for the k users that occupy it |
| `Connection.StoredExactly` | connection.c:684-716 | a message can be stored exactly if its sender stays within a third of what the others leave of the incoming half, within 32 bits, 256 messages and 16 descriptors, a free slice is large enough, and allocations and the copy succeed |
| `Connection.Conn.EntryNew` | queue.c:184-412 | a new entry is charged and backed by a best-fitting slice exactly if quota, limits, pool, allocations and copy permit it; otherwise quota, pool layout and entries are as before, with the first of these that did not |
| `Connection.Conn.EntryFree` | queue.c:421-446 | the entry leaves queue, quota and pool, whose accounts keep agreeing, and no slice at another offset changes; the priority tree remains intact if and only if the entry was not queued or was the oldest of its priority |
| `Connection.Conn.EntryEnqueue` | queue.c:599-609 | the entry joins the tail of the queue |
| `Connection.Conn.EntryInsert` | connection.c:773-901 | a message is queued exactly if the connection is active, takes its descriptors and nothing stands against storing it; otherwise no trace of it is left |
| `Connection.Conn.Recv` | connection.c:2092-2168 | which message is received, peeked or dropped, every error exactly when it occurs, that a received message stays published in the pool after its entry is freed, and that the slices of all other messages stay |
| `Connection.Conn.Free` | connection.c:2189-2215 | user space may return exactly what was published; the slice goes back to the pool unless a queued message still needs it, and no other slice changes |
| `Connection.EntryMove` | queue.c:629-678 | the entry leaves the source and joins the tail of the destination exactly if that can store it; otherwise neither side changes, with the reason |
| `Connection.MoveMessages` | connection.c:1379-1398 | whenever the walk keeps the index, a message stays exactly if there is a filter and it was sent to another name; every other one ends, in order, at the tail of the destination or is freed and counted as lost, the latter exactly if the destination did not take it when its turn came; with a filter nothing of another name arrives; none is in both; both connections keep all their invariants |
| `Connection.WhyLost` | connection.c:1384-1397 | for every message of a takeover, the attempt that decided its fate and the reason |
| `Connection.ArrivedFrom` | connection.c:1384-1397 | nothing arrives that was not queued at the source, under the same name and with the same contents |
| `Connection.SliceRestored` | queue.c:674-677 | the slice taken and released on the failure path leaves the pool's layout as it was |
| `Names.RegistryAgrees` | names.c:45-145 | replaying the announcements gives the owners; name lists, waiting queues and activator links agree from both sides; a name flagged as activator's is owned by its activator with nobody waiting |
| `Names.PassedSound` | names.c:134-145 | a change of owner keeps all of that |
| `Names.EscortSound` | names.c:338-341 | so does a name that passes to or from its activator, together with the takeover of messages |
| `Names.CreatedSound` | names.c:300-321 | so does a new name, also one of an activator |
| `Names.ReleasedSound` | names.c:374-401 | so does releasing a name |
| `Names.ReleasedHeir` | names.c:374-401 | a released name goes to the first waiter, else to the activator, else to nobody; no other name changes |
| `Names.ReleasedMeans` | names.c:374-401 | the same in the fields of the registry, with what is announced and which messages move |
| `Names.Registry.Acquire` | names.c:280-372 | every error exactly when it occurs; a free name is taken, an activator of an owned name waits aside, others take it from an activator with all of its messages or from an owner that allows it, who then queues up if it asked to, or queue up themselves; what is announced; a failed request changes nothing |
| `Names.AcquiredMeans` | names.c:280-372 | what a successful request does, in the fields of the registry |
| `Names.Registry.Release` | names.c:403-431 | the owner releases, and the name goes to whoever waits longest, else to the activator, else it is gone; a waiter gives up its first place, before which no other place of its own stands, and those behind move up; anybody else gets an error |
| `Names.Registry.ReleaseUnlocked` | names.c:374-401 | the registry stays consistent and becomes the one after the release |
| `Names.Registry.ReplaceOwner` | names.c:134-145 | announces and changes the owner, unless the connection owns the name already |
| `Names.Registry.ReleaseAll` | names.c:438-465 | terminates; the connection owns, awaits and activates nothing; each of its names goes to the first other waiter, else to its activator, else to nobody; other owners and waiters keep their names and places |
| `Names.OthersKeep` | names.c:438-465 | other owners keep their names and all others their places |
| `Names.WaiterInherits` | names.c:438-465 | a name of the leaving connection goes to whoever waits longest besides it |
| `Names.ActivatorInherits` | names.c:438-465 | if nobody else waits, it goes to an activator other than the connection, and is gone exactly if there is none |
| `Names.Registry.Connect` | connection.c:432-461 | whether a connection succeeds, and that kdbus_name_release_all is safe afterwards if and only if the connection is no activator or succeeded |
| `Names.SecondActivator` | connection.c:441-461 | a consistent registry and a request for which it is not safe |
| `Names.ReleasedLists` | names.c:452-459 | a connection that waits for nothing loses the name it releases, which is why the loop ends |
| `Names.FindWaiter` | names.c:419-425 | finds the place of the connection before which it has no other, or there is none |
| `Reply.NoSilentEnd` | connection.c:544-575 | an opened window is open, or was closed by a reply of the expected replier that passed through it, a timeout or death notice of its own asked for after it was opened, the requester's own disconnect, or the end of a blocking call |
| `Reply.OneReply` | connection.c:1118-1130 | over every run at most one reply passes for each request |
| `Reply.PassedOnce` | connection.c:1118-1130 | each reply that passed did so through a window for its cookie that expected its sender, and that is closed ever since |
| `Reply.ClosedForGood` | reply.c:130-136 | a window that was closed is not open in any later state of a run |
| `Reply.LiveBound` | reply.c:42-85 | a requester never has more than 128 trackers, however attempts to create them interleave |
| `Reply.AttemptedSound` | reply.c:42-46 | raising the counter before comparing it keeps the count |
| `Reply.ClosedSound` | reply.c:130-136 | closing a window takes it off its list and records how it ended, which nothing recorded before |
| `Reply.Bus.Reply` | connection.c:1118-1130 | a reply passes exactly if the destination has an open window with that cookie which expects the sender; it closes the first such window and nothing else changes |
| `Reply.Bus.Find` | reply.c:171-186 | finds the first tracker of the list with the cookie and, if one is given, the replier, or there is none |
| `Reply.Bus.Resume` | connection.c:1177-1194 | an interrupted call resumes the first window with its cookie if that is marked as interrupted, and nothing changes otherwise |
| `Reply.Bus.Interrupt` | connection.c:991-1005 | an interrupted call marks its window and leaves it open |
| `Reply.Bus.Attempt` | reply.c:42-46 | admits exactly while fewer than 128 are counted |
| `Reply.Bus.Undo` | reply.c:67-71 | a failed attempt lowers the counter again |
| `Reply.Bus.Create` | reply.c:48-64 | an admitted attempt becomes a tracker held by its caller |
| `Reply.Bus.Insert` | connection.c:870-901 | opens the window when the message is queued |
| `Reply.Bus.Unlink` | reply.c:130-136 | takes a linked tracker off its list, and frees it if nobody holds it; nothing happens to one that is not linked |
| `Reply.Bus.Unref` | reply.c:106-111 | drops a reference, and frees the tracker with the last one |
| `Reply.Bus.Scan` | reply.c:201-259 | a window of the connection stays exactly if somebody blocks on it without interruption or its deadline is yet to come; each asynchronous one that goes has its timeout notice among those added; a further scan is due exactly if a window is left for it, at the earliest of their deadlines; all other windows of all connections are untouched |
| `Reply.Bus.Drop` | connection.c:2112-2134 | dropping a message closes its window, if that is still open, with one death notice unless somebody blocks on it; all other windows stay |
| `Reply.Bus.EndWait` | connection.c:1007-1021 | a caller that no longer waits closes its window, without a notice; all other windows stay |
| `Reply.Bus.Disconnect` | connection.c:543-577 | the windows of others stay open exactly unless they wait for the connection, in which case each has a death notice unless somebody blocks on it; its own windows are closed; queued requests get one more notice each; all other windows stay as they are |
| `Reply.Bus.Retarget` | connection.c:1360-1376 | an open window of a third party that waits for the predecessor, for that name if there is a filter, waits for the heir from then on, so that the reply of the heir passes; no other window changes its replier, and nothing else of any |
| `Delivery.SilentExactly` | notify.c:200-237 | for a closed window nobody blocks on, whose requester is connected: it heard of the end if and only if one of the messages about it could be queued, which without a second death notice is the reply or notice that closed it |
| `Delivery.VanishesExactly` | connection.c:1118-1152 | after every run of windows closing and messages being queued or refused, a request vanished exactly if everything about it was refused |
| `Delivery.OwnIsThere` | connection.c:1118-1152 | every such window has a reply or notice of its own that is addressed to its requester |
| `Delivery.FullAccount` | connection.c:706-707 | a connection with 256 notifications is consistent and refuses every further one |
| `Delivery.RequestVanishes` | notify.c:216-223 | a request that times out at such a connection, and of which nobody ever hears |
| `Delivery.Requester.Hand` | notify.c:216-223 | a reply or notice joins the tail of the requester's queue exactly if it could be made, the connection is active, takes its descriptors and can store it, which is recorded |
| `Policy.PolicyDb.Set` | policy.c:353-489 | a transaction: the entries of other owners stay and each name item gets its entry, or nothing changes; a clash is reported exactly if two name items, or one and an entry of somebody else, have the same name and kind; keys stay unique |
| `Policy.Parse` | policy.c:371-438 | one entry for each name item, latest first, with the accesses between that item and the next name item, in order, and no others; or the reason the items are refused, which is an item that is not acceptable, too many names, or memory |
| `Policy.ParsedListed` | policy.c:371-438 | the entries by position in the items |
| `Policy.ParsedIff` | policy.c:371-438 | the items are refused exactly for an invalid name, a wildcard where none is allowed, or an access that is invalid or before the first name |
| `Policy.ClashesIff` | policy.c:449-465 | a clash is one between two name items, or between one and an entry of another owner |
| `Policy.NextClash` | policy.c:452-465 | checking entry by entry against the table finds a clash exactly if there is one among them or with others |
| `Policy.PolicyDb.TakeOwner` | policy.c:246-258 | removes exactly the entries of an owner |
| `Policy.GoverningIs` | policy.c:95-121 | the entry that governs a name is unique |
| `Policy.PolicyDb.Lookup` | policy.c:95-121 | finds it: the exact name first, then a wildcard exactly one element shorter |
| `Policy.PolicyDb.Query` | policy.c:167-215 | the maximum of the accesses of the governing entry that apply to the user, one of the groups or everybody, or none |
| `Policy.SetThenQuery` | policy.c:167-215 | after a successful set, the answer for a governed name is the highest access among the items between its name item and the next one that apply to the caller |
| `Policy.NameIsValid` | names.c:161-198 | accepts exactly names of up to 255 characters and two or more elements, each of them a non-empty identifier that does not start with a digit, or a final star if wildcards are allowed |
| `Policy.ValidIsWellFormed` | names.c:148-198 | the check of single characters comes to those rules for elements |
| `Policy.WildcardTestNeverFires` | policy.c:403-419 | the wildcard test accepts exactly names with one character after ".*", hence no valid one |
| `Policy.WildcardNamesExist` | policy.c:403-419 | a valid name that ends in a star and that the test does not recognise |
| `Users.CleanedSound` | domain.c:255-270 | the cleanup of a dying user takes no slot from another, and its id is charged at no connection when it is recycled |
| `Users.FreshSound` | domain.c:219-242 | a new user, also in the place of a dying one, keeps uid slots and ids consistent |
| `Users.UsersDistinct` | domain.c:189-253 | users never share an id or a uid |
| `Users.FreeIdsUncharged` | queue.c:283 | an id not in use is charged nowhere |
| `Users.FreeIdsEmpty` | connection.c:670-682 | an id not in use has an empty account in the quota array of every connection whose entries are charged messages |
| `Users.RecordedWith` | queue.c:267-283 | a new entry whose message was charged leaves the entries of its connection charged messages |
| `Users.RecordedWithout` | queue.c:431-438 | so does an entry that is freed with its charge |
| `Users.RecordedMoved` | queue.c:629-678 | a takeover keeps the entries of all connections charged messages |
| `Users.UserTable.Lookup` | domain.c:189-253 | a user is shared exactly if one with that uid is held by somebody, a dying one is replaced, a new one gets the smallest free id, and no live user loses uid or id, also on failure; a new user finds an empty account in every quota array |
| `Users.UserTable.SmallestId` | domain.c:232-238 | the smallest id from 1 on that is free |
| `Users.UserTable.Cleanup` | domain.c:255-270 | frees slot and id of a dying user only |
| `Users.UserTable.Dequeue` | queue.c:431-438 | a freed message gives back its charge together with its reference to the user |
| `Users.UserTable.Rehome` | queue.c:651-671 | a message taken over is charged to the same user, at another connection |
| `Accounts.KeepAct` | queue.c:267-438 | every operation of the user table and of the connections keeps the books of all connections sound and their entries charged messages |
| `Accounts.UserEffects` | domain.c:189-270 | what the acts on users do to table, ids and references |
| `Accounts.MessageEffects` | queue.c:267-438 | what the acts on messages do to charges, references and connections |
| `Accounts.RecycledClean` | domain.c:232-240 | after every run, an id that is not in use has an empty account in the quota array of every connection |
| `Items.Validate` | item.c:249-267 | accepts exactly the buffers that decompose into items, in spite of sums that wrap |
| `Items.ValidMeansInside` | item.h:37-41 | the comparisons of addresses mean that the item lies inside the buffer |
| `Items.DecomposedIsStream` | item.h:24-45 | the walk's decomposition is the one and only |
| `Items.StreamUnique` | item.h:31-35 | a buffer decomposes in at most one way |
| `Items.Walk` | item.h:31-35 | an unchecked walk over an accepted buffer ends and visits the same items |
| `Items.VerdictIsLocal` | item.c:249-267 | padding behind the buffer has no influence |
| `Items.ItemSet` | item.c:325-339 | writes header, data and cleared padding, and nothing else |
| `Items.WrittenWords` | item.c:325-339 | a written item is size, type, data and zeros, with the first byte of a word the least |
| `Items.WriteItems` | queue.c:321-367 | items written one after the other |
| `Items.WrittenReadsBack` | item.c:325-339 | walking what was written returns types and payloads |
| `Message.Count` | message.c:228-246 | the entries the second scan will need |
| `Message.RoomFor` | message.c:248-260 | the arrays have room for every item the second scan meets |
| `Message.ScanItem` | message.c:170-445 | which items are refused, with a cause for every error code, and what an accepted one adds |
| `Message.Scan` | message.c:211-484 | accepts exactly the messages of at most 128 items of which none is refused and which fit the header, so that every accepted memfd is sealed and no accepted broadcast carries descriptors, and then arrays and running sizes hold the payload and its description; otherwise there is a cause for the error code: an allocation, the first refused item, the item that is one too many, or the header |
| `Message.AcceptedIff` | message.c:262-445 | the checks item by item accept exactly the messages whose vectors are readable and sum up to at most 2 MB, with at most 16 memfds, all sealed and within 64 bits, with at most one array of at most 16 usable descriptors and none in a broadcast, at most one valid name and at most one matching filter |
| `Message.PassesIff` | message.c:211-484 | which messages pass, in terms of their items and header |
| `Message.CheckHead` | message.c:459-484 | the final checks: who is addressed, and what goes with broadcasts and signals |
| `Message.DescribedNames` | message.c:270-307 | every piece of payload is described in order, and every offset names the sender's bytes |
| `Message.AlignmentKept` | message.c:291-336 | padding keeps each piece at the alignment it would have if all pieces before it were in the slice |
| `Message.LayoutDisjoint` | queue.c:216-265 | header, items, descriptors, metadata and payload are consecutive ranges of the slice |
| `Message.RecordsSize` | queue.c:219-237 | the space counted is the space the items take |
| `Message.RecordDelivers` | queue.c:340-350 | the delivered item names exactly the sender's bytes in the slice |
| `Message.Build` | queue.c:286-399 | what is copied where |
| `Message.Send` | queue.c:293-405 | from sent items to the receiver's slice: readable items, exact offsets |

## Left out

- Files, mounts, ioctl dispatch, module setup (fs.c, main.c, handle.c, endpoint.c, bus.c): plumbing over kernel interfaces.
- Metadata and credentials (metadata.c): the prepared size of the metadata is a parameter, and its export into the slice is not modelled.
- Matches and broadcast (match.c, bus.c): a filter, which would only add easy members.
- Installing file descriptors and memfds into a received message (queue.c:448-597), and the offsets remembered for that (`memfd_offset`).
- The checks of `kdbus_msg_scan_items` on names, files and filters enter with their verdict; which of several descriptors is at fault is not modelled.
- `kdbus_item_validate` beyond the size of an item: its verdict is a parameter of `Items.Validate`.
- Blocking, wake-ups, signals and real time: a wait is a guarded step and time an input. Progress under a fair scheduler is not claimed, apart from the loops proved to terminate and from what `NodeLifecycle.BlockedOnly` says a deactivating call waits for.
- Pool sizes are unbounded: the wrap-around of aligning a size near 2^64 is not modelled.
- Failure to allocate a notification about names and connections, after which listeners miss it (names.c and notify.c ignore it); for timeouts and deaths it is part of `Delivery`.
- Unaccounted slices, which the owner of a pool allocates for its own commands, appear in `Pool.Pool.Alloc` but not in `Connection.Conn`.
- The counter of owned names (`name_count`) and its limit (names.c:510-513).
- NodeLifecycle.KeepStep: assumes fewer active references than the bias, that a node is linked by its creator before anybody deactivates it, and that references are dropped by those who hold them.
- NodeLifecycle.NoUseAfterFree: that the last reference to a linked or activated node is not dropped before the node is drained is an assumption on callers of unref, which the source warns about (node.c:433-465).
- NodeDeactivate.Hierarchy.Deactivate: other threads are absent; with them, the guarantees are those of `NodeLifecycle`.
- Connection.MoveMessages: a filtered takeover is covered only when it keeps the index, the condition of `Queue.DrainKeepsIndex`; what the source does with a damaged tree is not modelled beyond `Queue.MsgQueue.Unlink`.
- Queue.MsgQueue.Unlink: an entry that is not in the tree, but was in that of another queue before a takeover, is excluded; its node still holds pointers into the other tree.
- Names.Registry.ReleaseAll: requires the activator link of an activator; `Names.Registry.Connect` says when it is there.
- Reply.NoSilentEnd: says that a reply passed or a notice was asked for; whether the requester gets it is in `Delivery`.
- Reply.Bus.Reply: ends with the check; the reference taken to wake up a blocked caller is not modelled.
- Delivery.SilentExactly: replies that somebody blocks on are handed over directly and are not part of it.
- Policy.NameIsValid: letters are those of ASCII, as the comment in the source has it; the character table of the kernel, which may accept more, is not part of this model.
- Policy.Parse: the order of checks within one item is not part of its contract, and no access to the wildcard test is modelled besides `Policy.WildcardTestNeverFires`.
