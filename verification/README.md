# A verified model of the file-transfer system

The system moves files between nodes. On each node a Postgres database holds the jobs and drives them with
one procedure, `run_jobs`; four C processes (processor_s and sender, receiver and processor_r) carry
messages between the database and the network through slots in shared memory, guarded by semaphores.
This project models that behaviour in Dafny and proves what it guarantees. `dafny verify dfyconfig.toml`
checks everything.

## How the model is built

- **Messages and files.** `Text`, `Message` and `Chunks` follow the byte layout of `create_message`, the
  parsers' fixed offsets, the cutting of a file into chunks and the drafted reassembly query. MD5 is any
  function with 32-byte results. `Framing` is the receive loop over a socket.
- **The job table.** `Tables` is the database of one node as a value. `RunJobs.Pass` is one call of
  `run_jobs`; `None` stands for a statement that fails, which undoes the whole call. `Databases.Database` holds the
  same tables as mutable fields and executes the statements one by one in source order, the completion query
  as loops over the join; its method `Pass` is proved to do exactly what `RunJobs.Pass` says. Random uuids, the
  clock, serial numbers and MD5 are parameters (`Env`).
  `StateGraph`, `JobRuns` and `JobProperties` are about one pass, one step and whole runs. `PassTable` says row by row
  what a pass does, `Addressing` whom the messages it makes are for, `Connections` which connections it asks for.
- **Slots.** `Partition.Block` is a shared block of bytes with its bitmap; `Channels` is the same thing as a
  bounded map. Its methods are proved to be steps of such a channel.
- **The sending side.** `Pipeline` is the state machine of processor_s and sender: two blocks, two locks, two
  semaphores, two program counters and the tables. `PipelineInv` has the invariant, `PipelineProperties` what it means,
  `PipelineRuns` the results on whole runs. `NodeRuns` puts real passes and all other job steps in between.
  `Addresses` says which addresses the two programs can reach, `Reports` what the database holds of what the sender
  reports, `Rounds` what their rounds do not skip.
- **The receiving side.** `Receiving`, `ReceivingInv` and `ReceivingRuns` do the same for receiver and processor_r;
  `Received` says what becomes of what arrives, `ReceivingRounds` what the rounds do not skip.
- **The hash table.** `HashSpec` is the table as a value, down to the bytes of recycled keys; `HashTables` is
  the pointer code: an array of chain heads, `next` links, a free list.
- **Two nodes.** `Handshake` and `HandshakeRuns` run real passes on both sides of a network that loses,
  repeats, reorders and corrupts messages. A corrupt message is one that fails the hash check. A consensus message is sent
  only to a system that sysinfo joins with its row. `ConsensusEffects` says what the handshake writes, to whom, and
  whom it tells, `Delivery` what becomes of a message that arrives. `Transfers` follows a file through that network. `TwoNodes` puts the right node's receiver and processor_r between the wire and its
  tables, so that what the receiver is told is what the handshake has recorded. `NodeInNet` puts the left node's
  processor_s and sender into the network, so that its data messages are those the sender sends. `Blocking` says when a
  pass succeeds, and which rows stop every pass.
- **Witnesses.** `Witnesses` has runs from fresh nodes into the situations that the code does not get out of.

## What turned out differently from the documentation or the intention

- README.md:27 of the repository says that a job dies when one of its chunks fails. The code leaves the job
  in S-2W or S-3W for ever (`DeadChildBlocks`), and any file that makes two chunks can get there in five steps
  (`FailedChunkBlocks`).
- The reassembly guard counts rows, but the query collapses equal rows. A ready file is whole if and only if no
  chunk has arrived twice (`ReadyIsWhole`); a chunk delivered repeatedly can satisfy the guard without the file being
  complete (`RepeatedChunkDefeatsGuard`). What the query makes of any rows is `AssembleExact`.
- `hput` copies a key without its terminator, so a recycled node can keep the tail of a longer old key.
  `PutExact` gives the exact condition, `StaleTail` an input.
- The retry loops of the receiver hold the lock while they sleep, so a retry never succeeds (`RetryIsFutile`).
- A pass succeeds if and only if its draws can be made and three things hold (`PassExact`): no row that reads as an info
  message has an unreadable count beside a completed row of the same parent; at most one request has arrived, from an
  address below 2^31, since the statement reads it as an INTEGER (build_schema.sql:380); and there is a request, or at
  most one reply, or nothing left to fill in. Where one of the first two fails, every later pass of the node fails too
  (`BlockedForGood`).
- Each of these can happen. Two orders for one peer that has not answered are enough (`TwoOrdersBlock`). So is one
  request from an address from 2^31 on (`HighAddressBlocks`), and so is one damaged message, since the completion
  query also reads rows whose hash check failed (`DamagedMessageBlocks`).
- The receiver looks sizes up under its own socket address (receiver.c:230), printed as a signed number, not under the
  peer's. So it takes messages from a peer if and only if the two addresses are the same and below 2^31, and then of
  exactly the agreed length (`SizesMatchExactly`, `SharedAddressTakes`). In the shipped configuration all nodes share
  one host.
- processor_s passes addresses on through `atoi` and `int` fields. A connection to an address from 2^31 on is reported
  under a negative number, so that it never counts as connected and its jobs stay in S-4 (`FetchedBelow`,
  `NeverHandedOver`).
- Data messages trim the names they carry (build_schema.sql:567), consensus messages do not (344-362). A node whose padded
  name ends in a blank takes the handshake of its peer, but treats its data as another system's (`TrimmedExact`,
  `DeliveredIsIdentified`).
- `set_all_bits` and `unset_all_bits` know the types 1, 2 and 3 only, while `get_subblock` takes any other type
  for the whole block; start-up clears only half of the data block (`StartUp`).

## Assumptions

System names have at most five characters and are padded to five; capacities exceed 172, and for two nodes they are at
most 131072, the size of the message buffers; each system name has one row in sysinfo (for two nodes this is proved,
see `ConfigFollows`); addresses are those of IPv4, any number below 2^32; ports, capacities and counts fit an INTEGER;
a file has at most 10^8 chunks and at most 2^30 bytes; a database call succeeds or fails atomically; a send succeeds
or fails.

## Model

| member | source | states |
|---|---|---|
| Text.FieldRoundTrip | db/build_schema.sql:378-380 | a number padded into a field of w bytes reads back as an INTEGER, or a BIGINT, if and only if it has at most w digits and is one; a number that fits the field and is no INTEGER makes the cast fail |
| Text.NegativeRoundTrip | db/build_schema.sql:378-380 | a padded negative number reads back if and only if it fits the field with its sign and the type |
| Text.LPadBTrim | db/build_schema.sql:567 | trimming a padded name and padding it again gives the same name |
| Message.Layout | db/build_schema.sql:89-131 | every field `create_message` writes is found at the parsers' offset: uuid, type, source, destination, priority, time, subheader and body; the result carries its own hash, is exactly as long as the capacity unless the contents alone are longer, and has blanks behind the contents |
| Message.ConsensusRoundTrip | db/build_schema.sql:344-362 | for any address a type 4 or 5 message is exactly 147 bytes, passes the hash check, and its names, capacity and port read back; its address reads back as a BIGINT always, as an INTEGER if and only if it is below 2^31 |
| Chunks.ChunkRoundTrip | db/build_schema.sql:562-570 | a chunk message is exactly as long as the capacity, and names, priority, index, parent, length and data read back |
| Chunks.InfoRoundTrip | db/build_schema.sql:574-598 | the info message is exactly as long as the capacity, and names, priority, parent, size and count read back |
| Chunks.SingleRoundTrip | db/build_schema.sql:517-540 | a single message is exactly as long as the capacity, its names and priority read back, and its body starts with the file |
| Chunks.AssembleExact | db/build_schema.sql:669-709 | for any received rows without damaged or foreign chunks of the file, reassembly gives exactly the file if and only if every chunk is among the rows |
| Chunks.ReadyExact | db/build_schema.sql:690-699 | of the messages of a transfer only the info message satisfies the guard, exactly when as many chunk rows of its file are there as the transfer has chunks |
| Chunks.ReadyIsWhole | db/build_schema.sql:690-699 | of the deliveries without foreign chunks that satisfy the guard, exactly those in which no chunk arrived twice reassemble to the file |
| Chunks.FileRoundTrip | db/build_schema.sql:543-598 | the chunks and the info message of a file, delivered in any order among other messages, satisfy the guard and reassemble to exactly the file |
| Chunks.RepeatedChunkDefeatsGuard | db/build_schema.sql:690-699 | inputs on which the guard fails its purpose: for every transfer of two or more chunks, one chunk repeated satisfies the guard and does not give the file |
| Framing.ReceiveEvent | receiver.c:240-268 | for sizes that fit the buffer, however the kernel splits the reads, the loop terminates and emits the consecutive blocks of the bytes it read |
| Framing.FlattenBlocks | receiver.c:256-265 | the emitted blocks are a prefix of the stream, and less than one block is dropped |
| Framing.BlocksOfMessages | db/build_schema.sql:119-125 | the concatenation of padded messages comes back as the same list of messages |
| Framing.EventsLossless | receiver.c:242-243 | a stream spread over several readable events arrives unharmed if and only if every event ends on a message boundary |
| Framing.StreamToFile | receiver.c:240-268 | the messages of a file, sent as one stream and cut by the receive loop, reassemble to exactly the file |
| StateGraph.PassDrains | db/build_schema.sql:277-658 | after a pass no row is in N-1, N-2 or N-3 and no consensus message in N-4, S-2 and S-3 remain only for unknown destinations, and every old row kept its contents and followed a path of the documented graph |
| PassTable.PassRowExact | db/build_schema.sql:282-617 | a table for every row of a successful pass: a damaged message is dead, one for this node is identified with its type, one for another node becomes a job for that node, an order is admitted once its destination is known, and a job whose file and capacity are known waits in S-2W if and only if the file is longer than the capacity less 172, otherwise in S-3W; all other rows stay, but for completed parents |
| PassTable.LocalMeansSelf | db/build_schema.sql:295-303 | in every state of every run a message counts as one for this node if and only if it names this node |
| Addressing.PassPieces | db/build_schema.sql:517-598 | every row in S-4 that a successful pass adds, of type 1, 2 or 3, has the source, destination and priority of its parent job, and so has its message, padded, which also tells the row's uuid, type and time |
| Addressing.ChildAddressed | db/build_schema.sql:517-598 | in every state of every run each child and its message name the source and the destination of their job |
| Addressing.OrderedForDest | include/user_program.h:32 | whatever a user orders for a system, every message ever made for it names that system, if the name does not end in a blank |
| Addressing.PrioritySet | include/user_program.h:47 | a new priority holds for the job and all its messages, and for no other row |
| Addressing.SentEnds | include/initial_sender.h:31-44 | a consensus message leaves S-5 only when its own sending ends, completed if it was sent, dead if not |
| Connections.PassConnects | db/build_schema.sql:620-654 | after a successful pass every system with a job in S-4 has a connection, new ones not connected and no others; a new request to open is there if and only if a system with that address and port has a job in S-4 and is not connected, one to close if and only if the address is connected with that descriptor and a system there has no unfinished job; old rows stay |
| JobRuns.PassInv | db/build_schema.sql:488-617 | a pass keeps the child inventory and gives each row either no children or its complete set |
| JobProperties.StepInv | db/build_schema.sql:277-658 | passes, hand-overs, reports, arrivals, orders and imports keep the inventory, and only passes create children |
| JobProperties.CompletionExact | db/build_schema.sql:319-342 | a pass completes a job that waits for its children if and only if all of them are completed |
| JobProperties.CompleteIff | db/build_schema.sql:319-331 | the counting query selects a parent with its full set if and only if all children are completed |
| JobProperties.RunInv | db/build_schema.sql:277-658 | the inventory holds in every state of every run from a fresh node |
| JobProperties.ChildrenOnce | db/build_schema.sql:488-617 | in any run a job's children change at most once, by a pass, from none to the set that carries its file, cut at the capacity that sysinfo has for its destination |
| JobProperties.DeadChildBlocks | db/build_schema.sql:319-342 | a parent with a dead child, whether it waits in S-2W or in S-3W, stays there for the rest of any run |
| Witnesses.FailedChunkBlocks | db/build_schema.sql:319-331 | from a fresh node, any file of two chunks gets in five steps to a parent in S-2W with a dead child, and stays there in every continuation |
| JobProperties.ChildrenCarryFile | db/build_schema.sql:543-598 | the children of a waiting job, delivered in any order, reassemble to the file the job names |
| Databases.TriageInOrder | db/build_schema.sql:282-316 | the first five statements in sequence are one function of each row |
| Databases.ClassifiedInOrder | db/build_schema.sql:488-514 | the two classifying statements in sequence are one function of each row |
| Databases.Database.CheckArrivals | db/build_schema.sql:282-342 | the checking and completing statements do what the pass specifies, or fail when it does |
| Databases.CountJoin | db/build_schema.sql:322-329 | joining row by row and counting gives each group the number of equal info rows times the number of completed rows below the same parent |
| Databases.SelectComplete | db/build_schema.sql:322-331 | the completion query, executed row by row, selects exactly the parents the pass completes, and fails exactly when it meets an unreadable count |
| Databases.Database.SplitFiles | db/build_schema.sql:488-617 | the splitting statements in sequence do what the pass specifies, or fail; whom the rows they insert are for is `Addressing.PassPieces` |
| Databases.Database.Pass | db/build_schema.sql:277-660 | the whole procedure ends with the specified tables, or leaves every table as it was |
| HashSpec.PutExact | hashtable.c:34-68 | a put is an append to its key's queue and touches no other queue if and only if the recycled node has no stale byte there |
| HashSpec.GetExact | hashtable.c:71-92 | a get returns the first value of the key's queue, or -2 |
| HashSpec.DelExact | hashtable.c:95-129 | a delete removes the first value of the key's queue and touches no other queue |
| HashSpec.StaleTail | hashtable.c:60 | an input on which a key just put is not found |
| HashSpec.RunRefines | hashtable.c:34-129 | over every sequence of operations without a stale put the table answers like a map from keys to queues with limited room |
| HashSpec.SameLengthClean | hashtable.c:60 | keys of one length are never stale |
| HashSpec.SameLengthRefines | hashtable.c:34-129 | a new table whose keys have one length answers every sequence of operations like queues with limited room |
| HashSpec.NoDeleteClean | receiver.c:201-207 | without deletes, as in the receiver, no put is stale |
| HashSpec.NoDeleteRefines | receiver.c:201-238 | a new table that never deletes, as the receiver's, answers every sequence of operations like queues with limited room |
| HashTables.RoundCongruent | hashtable.c:27 | one round of the hash that wraps at every operation agrees with the exact polynomial modulo 2^32 |
| HashTables.HashTable.GetHash | hashtable.c:21-31 | the bucket is in range for every key, and is the polynomial modulo the word and the table size |
| HashTables.HashTable.constructor | hashtable.c:132-167 | a new table: all chains empty, all nodes in one free list of the given length |
| HashTables.HashTable.AllocatePool | hashtable.c:145-163 | the linking loop builds an acyclic list of distinct blank nodes |
| HashTables.HashTable.Locate | hashtable.c:78-88 | the chain walk terminates at the first node with the key, or at the end |
| HashTables.HashTable.Put | hashtable.c:34-68 | the pointer code does what `HashSpec.Put` says and keeps chains and pool acyclic, disjoint and complete |
| HashTables.HashTable.Get | hashtable.c:71-92 | the pointer code returns what `HashSpec.Get` says |
| HashTables.HashTable.Del | hashtable.c:95-129 | the pointer code does what `HashSpec.Del` says and keeps chains and pool acyclic, disjoint and complete |
| HashTables.TakeKeeps | hashtable.c:53-65 | moving the first spare node to the end of a chain keeps all lists disjoint, acyclic and together complete |
| HashTables.GiveKeeps | hashtable.c:115-126 | moving a chain node to the head of the pool keeps all lists disjoint, acyclic and together complete |
| Channels.NeverGrantedTwice | partition.c:6-44 | over any run, a slot is granted again only after it has been drained |
| Channels.DrainedIsStored | partition.c:6-44 | every drained message is the one last stored in its slot, untouched since |
| Channels.Conservation | partition.c:6-44 | what was stored is what was drained plus what is in the slots |
| Partition.FlipBit | partition.c:40 | flipping bit j of a byte flips exactly bit j |
| Partition.FlippedExact | partition.c:34-44 | toggling changes the set of full slots by exactly that slot |
| Partition.Block.GetSubblock | partition.c:6-29 | the result is the least slot of the region in the given state, or -1 if and only if there is none |
| Partition.Block.ToggleBit | partition.c:34-44 | exactly the one bit changes and no slot byte does |
| Partition.Block.SetAllBits | partition.c:47-55 | exactly the bits of the region are set, for types 1, 2 and 3 only |
| Partition.Block.UnsetAllBits | partition.c:58-66 | exactly the bits of the region are cleared, for types 1, 2 and 3 only |
| Partition.Block.WriteSlot | receiver.c:297-300 | exactly the bytes of one slot change, to the message and zeros |
| Partition.Block.Send | receiver.c:285-315 | a producer call is one first-fit store or a drop, whatever its number of attempts |
| Partition.Block.Offer | processor_s.c:312-333 | a slot filled from the database is published if and only if a slot was free and the fetch succeeded |
| Partition.Block.Take | sender.c:94-113 | a consumer call drains the first full slot of its region, and its message is what the slot held |
| Partition.Block.Consume | processor_r.c:76-126 | the message is tried up to three times, up to the first success, and its slot is cleared in any case |
| Partition.StartUp | processor_s.c:496-498 | start-up empties the comms block; it empties the data block if and only if the second half was empty |
| PipelineInv.StepInv | processor_s.c:311-405 | every step of processor, sender, database or notification keeps locks, directions, hand-overs and wake-ups in order |
| PipelineInv.LocksKept | processor_s.c:317-331 | each lock is held by exactly the process inside its critical section |
| PipelineInv.TokensKept | processor_s.c:43-131 | every hand-over of a job or request is in one place, and only while its row says so |
| PipelineInv.CoveredKept | sender.c:167-204 | the full slots of both blocks stay covered by the semaphore, a post about to happen and the current round |
| PipelineProperties.OneHandOver | processor_s.c:312-388 | a job is in at most one of: a data slot, the sender's hands, a status slot; and only in S-4W |
| PipelineProperties.NoLostWakeUp | sender.c:167-204 | when a program waits, its semaphore covers its full input slots, but for one whose post is the other's next step |
| PipelineProperties.AsleepMeansEmpty | processor_s.c:391-405 | when both programs sleep, no slot of either block is full |
| PipelineProperties.NeverStuck | sender.c:156-225 | unless both sleep, one of the two programs can take a step |
| PipelineProperties.OwnStatus | include/processor_s.h:42-46 | a job leaves S-4W only by its own status, to C or D as the status says |
| PipelineProperties.StatusFindsJob | include/processor_s.h:42-46 | a stored status always finds its job in S-4W, which the statement does not check |
| PipelineProperties.FetchedFromS4 | include/processor_s.h:52-56 | a job enters S-4W only by a fetch from S-4, which carries the row's data |
| PipelineProperties.CommitThenPublish | processor_s.c:325-328 | a committed fetch is always published next, and nothing else is ever published |
| Reports.ConnStep | processor_s.c:146-165 | after a stored report the row of that address has exactly the reported descriptor, and is connected if and only if the descriptor is not negative; no other row changes, and no other step changes any |
| Reports.ConnsAreReports | include/processor_s.h:34-38 | in every state of every run each connection is as the last report stored for its address says, and not connected before the first |
| Reports.FetchUsesReport | processor_s.c:43-131 | a job is handed over with its data and the descriptor that was last reported for an address of its destination, none having been reported since |
| Reports.ReportOrigin | sender.c:73-153 | every stored report tells what became of a request the sender carried out, after the database had handed exactly that request over |
| Reports.RequestAnswered | include/processor_s.h:67-76 | a request disappears only after a report with its number has been stored, and the connection reported about is then as reported |
| Reports.AnswerDeletes | include/processor_s.h:67-76 | a deletion removes exactly the requests with the number in the report |
| Reports.ClearedIsHandled | processor_s.c:172-223 | a status leaves its slot only after it has been stored, or after exactly three failed attempts |
| Reports.FetchMostUrgent | include/processor_s.h:52-56 | a fetched job is in S-4 with a live connection, and no other such job has a higher priority |
| Rounds.RoundEnds | processor_s.c:311-405 | the processor leaves a critical section only when it has found nothing, a statement has failed, or the slot has been cleared or announced |
| Rounds.NothingForgotten | sender.c:73-225 | what the sender has taken stays in its hands, whole, until it has carried it out and its report is in a slot or has found none free |
| PipelineProperties.ChannelSteps | processor_s.c:337-388 | every step of the two programs is one first-fit step of each block as a channel |
| PipelineRuns.DrainedFromOther | sender.c:73-153 | in any run, every comms message a program takes out was last put into its slot by the other program, and the slot was untouched since |
| PipelineRuns.NothingLost | processor_s.c:337-388 | at any moment of any run, what was put into each block is what was taken out and what is there |
| PipelineRuns.FetchedOnce | processor_s.c:43-131 | in any run a job is handed to the sender at most once |
| PipelineRuns.MarkedOnce | processor_s.c:226-308 | in any run a connection request is handed to the sender at most once |
| PipelineRuns.CompletedMeansSent | sender.c:202-223 | a job that leaves S-4W was fetched from S-4 earlier, and since then the sender tried to send exactly its data, with the outcome recorded |
| Addresses.FetchedBelow | processor_s.c:250 | in any run a job is fetched only for a system of its destination whose address is a signed 32-bit number |
| Addresses.NeverHandedOver | processor_s.c:133-170 | while all systems of a job's destination have addresses from 2^31 on, the job is never handed to the sender |
| NodeRuns.JobStepQuiet | db/build_schema.sql:277-658 | passes and all other job steps leave S-4W rows, requests and connections alone, and number new requests afresh |
| NodeRuns.EventIsJobStep | include/processor_s.h:42-56 | every step of the two programs is one of the job steps, although the status statements check no state |
| NodeRuns.NodeRunIsBoth | processor_s.c:391-405 | a run of the whole node is a run of the two programs and a run of the job table at once |
| NodeRuns.CompletedFileWasSent | db/build_schema.sql:319-331 | when a file job is completed, the sender has before successfully sent each of its children, with exactly the data of its row, and the children carry exactly the file |
| ReceivingInv.StepInv | receiver.c:285-370 | every step of receiver, processor, database or notification keeps locks, directions and wake-ups in order |
| ReceivingInv.NoLostWakeUp | processor_r.c:212-224 | when the processor waits, its semaphore covers every full slot meant for it; when it sleeps, none is left |
| ReceivingInv.RetryIsFutile | receiver.c:307-312 | no retry under the lock ever finds a free slot |
| ReceivingInv.ChannelSteps | processor_r.c:129-209 | every step is one first-fit step of each block as a channel |
| ReceivingRuns.DrainedFromOther | receiver.c:319-370 | in any run, every comms message a program takes out was last put into its slot by the other program, and the slot was untouched since |
| ReceivingRuns.NothingLost | processor_r.c:76-209 | at any moment of any run, what was put into each block is what was taken out and what is there |
| ReceivingRuns.RowsAreReceived | processor_r.c:76-126 | the stored rows are among the messages the receiver put into the block, none more often than it was put there |
| Received.TakenAreRows | processor_r.c:76-126 | at any moment of any run the messages taken out of the block, and the one in hand, are exactly the stored rows and those given up |
| Received.GivenUpAfterThree | processor_r.c:97-121 | a message is given up only after three failed attempts to store it |
| Received.MsgTriedSince | processor_r.c:129-157 | a change of a connection leaves its slot only after it has been stored, or after three failed attempts |
| Received.GivenIsReceived | receiver.c:285-315 | what is put into the block is what was last read from a socket, with its descriptor |
| Received.ConnsFromEvents | include/processor_r.h:29-47 | in any run each connection has the address of the first change stored for its descriptor, and the status of the last |
| ReceivingRounds.TakenIsPut | receiver.c:201-207 | a size the receiver has taken it puts into its table before it serves anyone |
| ReceivingRounds.GivenOrDropped | receiver.c:285-370 | the receiver leaves a critical section only when its message is in a slot and announced, or after three attempts that found no room |
| ReceivingRounds.RoundEnds | processor_r.c:76-209 | the processor leaves a critical section only when it has found nothing, a statement has failed, or the slot has been cleared or filled, and a round has all its parts |
| ReceivingRuns.LookupExact | receiver.c:230-232 | a lookup under the own address, printed as a signed 32-bit number, finds what was told for an address if and only if the two are the same |
| ReceivingRuns.SizeAgreement | receiver.c:201-238 | if all notices for the receiver's own address name one capacity, every message taken has exactly that length, however often it is told and whatever collides |
| ReceivingRuns.TakesExactly | receiver.c:201-238 | a receiver that is told the capacity of one address takes a message only if that address is its own, and then of exactly that length |
| ReceivingRuns.TakesOnceTold | receiver.c:201-238 | once told a size for its own address, the table gives that size for the rest of the run |
| Handshake.PassHonest | db/build_schema.sql:344-485 | a pass keeps what a node knows, says and tells its receiver true to the agreement of the two nodes, and what it says addressed to the other node |
| Handshake.AcceptRequestExact | db/build_schema.sql:374-408 | the upsert succeeds if and only if at most one request is pending, from an address below 2^31, and if one is, it records exactly the smaller capacity and the sender's port, and adds exactly one notice of that capacity |
| Handshake.AcceptReplyExact | db/build_schema.sql:458-479 | the update succeeds if and only if there is at most one known reply or nothing to fill in, and a reply leaves every known system with exactly the smaller capacity and its port |
| Handshake.ConsensusExact | db/build_schema.sql:344-485 | all consensus statements together succeed if and only if their uuids can be drawn, at most one request is pending, from an address below 2^31, and, when none is, at most one known reply or nothing left to fill in |
| ConsensusEffects.PassWrites | db/build_schema.sql:344-449 | the rows in S-5 that a successful pass adds are exactly a request for each waiting order and each system of its destination that has not answered, and a reply for each request that has arrived, with the smaller capacity; row and message name both nodes |
| ConsensusEffects.WritesReachPeer | include/initial_sender.h:31-37 | each of these rows is joined by sysinfo with exactly the endpoint of the peer, whose name its message has as destination |
| ConsensusEffects.PassAgrees | db/build_schema.sql:177-196 | a successful pass records the agreement in exactly one row of sysinfo and adds exactly one notice of it if a request or a usable reply has arrived, and changes neither if not |
| ConsensusEffects.RequestTells | db/build_schema.sql:177-196 | whatever the tables, a request sets the row of the system that made it and no other, no address comes twice, and exactly one notice of what that row now says is added, unless that is 0 |
| ConsensusEffects.ReplyTells | db/build_schema.sql:177-196 | every row that a reply fills in adds exactly one notice of its address, and nothing else adds any |
| Blocking.SplitExact | db/build_schema.sql:488-617 | the splitting statements together succeed if and only if no capacity divides by zero and the uuids of all rows they insert can be drawn |
| Blocking.PassExact | db/build_schema.sql:277-660 | a pass of an honest node succeeds if and only if the counts it reads are numbers, at most one request has arrived, from an address below 2^31, the replies can be used, and its draws can be made |
| Blocking.NetPassExact | db/build_schema.sql:277-660 | the same in every state of every run of two nodes, on either side |
| Blocking.FailsExactly | db/build_schema.sql:277-660 | when the draws can be made, a pass fails if and only if two requests, an unreadable request or an unreadable count is there, or two replies before any request |
| HandshakeRuns.PassRecordsRequest | db/build_schema.sql:374-408 | a pass that succeeds with a request of the peer among its rows ends with the agreement recorded |
| HandshakeRuns.PassRecordsReply | db/build_schema.sql:458-479 | a pass that succeeds with a reply of a known peer among its rows ends with the agreement recorded |
| Handshake.ChunkHonest | db/build_schema.sql:562-570 | a chunk made at the agreed capacity is exactly that long |
| HandshakeRuns.NetStepOk | db/build_schema1.sql:348-489 | every step of either node under loss, repetition, reordering and corruption keeps the agreement sound |
| HandshakeRuns.NetRunOk | db/build_schema.sql:344-479 | in every state of every run each side has recorded nothing or exactly the agreement |
| HandshakeRuns.SameCapacity | db/build_schema.sql:344-479 | once both sides have recorded a capacity it is the same, the smaller of the two |
| HandshakeRuns.AgreedForGood | db/build_schema.sql:402-408 | a recorded agreement never changes in the rest of any run |
| HandshakeRuns.ConfigFollows | db/build_schema.sql:53-58 | two nodes keep sysinfo in the order that the job-table results assume |
| HandshakeRuns.EachIsJobRun | db/build_schema.sql:277-658 | each of the two nodes of a two-node run is a run of the job table, without assumptions on sysinfo |
| HandshakeRuns.MirroredRun | db/build_schema1.sql:348-489 | a two-node run seen from the other side is one again, so what holds of the left node holds of the right |
| HandshakeRuns.SizesMatch | db/build_schema.sql:177-196 | every data message on the wire is as long as every size its receiver is told for the sender |
| Delivery.DeliveredIsIdentified | db/build_schema.sql:282-316 | the first pass that succeeds takes every undamaged message of the peer: a consensus message is done with, and a data message is identified if and only if this node's name survives trimming |
| TwoNodes.JointIsBoth | processor_r.c:76-209 | a run of two nodes with the receiving side in between is a run of the network and a run of the receiving side at once |
| TwoNodes.AgreementIsTold | db/build_schema.sql:177-196 | whenever the right node holds an agreement, in any state of any run, its notice is in the table or has been fetched for the receiver |
| TwoNodes.SizesMatchExactly | receiver.c:201-238 | in any run the receiver takes a message from the peer only if the two nodes' addresses are the same and below 2^31, and then of exactly the agreed length, which fits its buffer |
| TwoNodes.SharedAddressTakes | receiver.c:201-238 | if the addresses are the same and below 2^31, from the first size told on the receiver takes messages of exactly the agreed length |
| TwoNodes.TakesWholeMessages | receiver.c:201-268 | what the receiver takes as one message is as long as every data message the peer has sent |
| Transfers.ChunkIsChild | db/build_schema.sql:543-570 | what a node identifies as a chunk of the peer's job is the data of a child of that job |
| Transfers.TransferExact | db/build_schema.sql:669-709 | in every state of every run of two nodes, under loss, repetition, reordering and corruption, the identified rows reassemble to the peer's file if and only if all its chunks are among them |
| TwoNodes.StoredFileExact | processor_r.c:129-209 | the same with the receiving side in between |
| NodeInNet.LinkIsBoth | sender.c:202-215 | a run of the network with the left node's processor and sender in it is a run of the network, where data messages are what the sender sends, and a run of that node |
| NodeInNet.CompletedFileWasSaid | db/build_schema.sql:319-342 | when a file job is completed, the data of each of its children has been given to the network before, and the children carry exactly the file |
| Witnesses.TwoOrdersBlock | db/build_schema.sql:344-394 | any two nodes that know each other without agreement get in seven steps, with two orders and one pass, to a peer on which no pass can succeed |
| Witnesses.HighAddressBlocks | db/build_schema.sql:374-380 | any node with an address from 2^31 on gets in five steps to a peer on which no pass can succeed |
| Witnesses.DamagedMessageBlocks | db/build_schema.sql:319-331 | any damaged message that reads as an info message without a count, once it arrives beside a completed row, leaves a node on which no pass can succeed |
| Blocking.BlockedForGood | db/build_schema.sql:319-394 | from the moment a node holds two requests, one it cannot read, or an unreadable count beside a completed row, they stay, and no pass of any run succeeds |

## Left out

- Framing.ReceiveEvent: sizes above 131072 bytes, which the code does not refuse and which would overrun its buffer, are not modelled.
- Sockets, epoll, libpq, configuration, semaphore and shared-memory calls: a call succeeds or fails, a send succeeds or fails.
- user_program.c, notif.c, launcher.c, job_launcher.c, storelog.c and shared_memory.c: a notification is an arbitrary post, an order an arbitrary insert.
- The send and read loops of sender.c, initial_sender.c and initial_receiver.c: they pass the full size on every retry, so no partial transfer is modelled.
- Type 1 messages carry no length, so no inverse is claimed for them beyond their leading bytes.
- A partial message at the end of a readable event is dropped by the code (receiver.c:242-243); `Framing.EventsLossless` says when that loses nothing.
- Reassembly is a draft in comments: its query is modelled, its large-object calls are not, nor is the empty file it would create when nothing is ready.
- SQL evaluates casts lazily in some plans; here every cast a statement mentions for a joined row is evaluated. Hexadecimal and underscore integer literals are not read as numbers.
- SQL compares `encode(.., 'escape')` of a field, which rewrites a backslash, a zero byte and bytes above 127; the model compares the raw bytes.
- CHAR(10) comparison ignores trailing blanks; names are modelled as the five bytes they are padded to.
- Forwarding of S-1 jobs to third systems and handshakes with more than one unresolved peer.
- Crash and restart: runs start from zeroed segments.
- Liveness: a message dropped at a full half, or after three failed stores, leaves its row in S-4W or its request waiting, and nothing is claimed about it.
- The order of rows the queries with LIMIT 1 return, beyond the highest priority for jobs.
- `&(*temp)->next` is modelled by the pair of the previous and the current node; a failing `calloc` and the unreachable result -1 of the hash are not modelled, and keys have fewer than 20 characters, as the node's field demands.
- What the receiver writes over a comms slot it has just drained (receiver.c:333): the slot is free by then.
- `sender.c:105` copies sizeof(send_message) bytes, 131120 with padding, out of a slot of 131118: it also reads the two bytes behind the slot. The model takes the slot alone.
- `atoi` of a number above 2^31-1 is taken to wrap around, and the text of a negative address to fit the eleven bytes of `ipaddress` in processor_s.c:137, which it overruns by its terminator.
- Signed overflow in the hash is taken to wrap around, as compilers for the target do.
