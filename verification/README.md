# A verified model of the codec driver's talk with its microcontroller

The driver and the codec's microcontroller exchange *mails* over two rings in shared memory. This project models
that exchange from the word copies up to the life of an encoder channel, and proves what the layers promise, each
for all inputs, all states or all runs.

| file | what it models |
|---|---|
| `MachineWords.dfy` | C's fixed-width integers, and a byte buffer seen as 32-bit words |
| `Mails.dfy`, `McuUtils.dfy` | the mail object and its builder; the two word-copy loops |
| `RingWords.dfy`, `Mailboxes.dfy` | circular stores and loads, frames, and the mailbox as a bounded FIFO |
| `RingProtocol.dfy` | one producer and one consumer on the same ring, one memory access at a time |
| `MailQueues.dfy`, `Users.dfy`, `Groups.dfy` | linked-list queues behind gates, users, the user table, the interrupt pass |
| `Dispatch.dfy`, `DeliveryRuns.dfy` | the same pass as a function on values, and the order of mails over whole histories |
| `MailOwnership.dfy` | every mail object from its allocation to its release, handler and operations interleaved |
| `Tallies.dfy` | counting what nested sequences hold |
| `DmaKernel.dfy`, `BufferPools.dfy`, `BufferRuns.dfy` | reference-counted buffers, the buffer pool, and whole histories of both |
| `PushedBuffers.dfy` | the mails that lend a pool to the microcontroller |
| `ChannelLife.dfy` | creation with checkpoints, destruction and release of a channel, and every sequence of such calls |
| `ChannelRuns.dfy`, `ChannelWitnesses.dfy` | what goes wrong over whole histories of a channel and of a slot, exactly when, and concrete cases |
| `UserOps.dfy`, `EncoderUsers.dfy`, `EncoderPictures.dfy`, `DecoderUsers.dfy` | the same operations step by step on the user object |
| `Devices.dfy` | the operations of one user seen from the whole table, and opening and closing the device |
| `DestroyLocks.dfy`, `DestroyStalls.dfy` | the eight locks and four gates of a user as a protocol of threads and destroyers, and when one of these is stuck |

Where the source changes state, a class changes the same fields with the same branches and loops, and its contract
ties the new state to a function on values: `Mailbox.Write` to `Put`, `Group.ReadMails` to `HandleAll`,
`CreateUnderLock` to `Create`, and so on. Operations return a ghost log of the mails they made, sent, took and freed. The theorems are about those functions and about runs of them. Where the
outside decides (an allocation, a send, a signal, a timeout, a descriptor number, mails that arrive during a sleep),
the outcome is a parameter, so that every theorem holds for every outcome.

## Where the obvious claim fails

The code is kept as it is; each of these has a lemma that says exactly when.

- **Trailing bytes.** The word copies drop the last `size % 4` bytes. A mail comes out as it went in exactly when those
  bytes are zero (`DeliveryFidelity`); whole words always survive.
- **A channel that only looks created.** After a failed buffer allocation the user keeps its channel and no checkpoint,
  which is how a fully created channel looks, until the clean-up that the call owes has destroyed it; if that fails, for
  good. `CreateConsistent` says that this is the only way there, `FullyCreatedHistory` what the two kinds of history
  look like, and `LooksCreated` shows one.
- **A clean-up that comes late.** The call gives its lock back before it cleans up. The clean-up closes the channel of its
  own call exactly when it works and no destruction worked in between (`CleanUpClosesOwn`); otherwise it may close the
  complete channel of another call (`CleanUpHitsAnother`).
- **A table freed twice.** When the handle table cannot be allocated the pool keeps the address of a freed table. From
  opening to release a table is freed twice exactly when that happened to some creation (`FreedTwiceExactly`,
  `TableFreedTwice`).
- **One slot too many.** The test of a reconstructed picture's slot lets the number of buffers itself pass, and no other
  slot without a handle (`OneSlotTooMany`, `SlotPastTheTable`).
- **An answer to another request.** A creation adopts the oldest answer in the queue, and the firmware knows a user only
  by its slot. Over all the users of a slot, a creation gets the answer to its own request exactly when as many answers
  were drained or orphaned as creations gave up waiting (`OwnAnswerExactly`). The late answer may belong to an earlier
  creation (`LateAnswerAdopted`) or to a user that has left (`AnswerToTheOneBefore`, `HeirIsServedWrong`).
- **A descriptor closed too early.** Handing out a descriptor keeps every reference owned exactly if, at its second step,
  the descriptor still names the buffer (`HandOutExactly`, `StepAccounted`, `RunAccounted`, `BufferLost`).
- **A status mail for nobody.** A channel mail that carries the id for "no channel" is delivered to the first user
  that has none (`ReceiverOwnsChannel`, `BadChannelMailReachesIdleUser`).
- **A pool too large to push.** A pool whose mail does not fit an empty ring can never be pushed, and one whose mail
  exceeds the 16-bit size field is described only in part (`PushableExactly`, `TooManyBuffers`, `PoolMailDescribes`).
- **Two destroyers.** With one destroyer at a time per user a destruction always gets through (`DestroyerCanFinish`). With
  any number of them, one can get through without help from outside exactly if it has not to wait for an answer that is
  not there, nor for a lock whose holder sleeps behind a gate that stays shut (`StalledExactly`). A second destroyer,
  interrupted at its first lock, brings about the latter (`TwoDestroyersStall`).

## Assumptions

- Memory accesses of the two processors are sequentially consistent. A ring has one producer and one consumer; its size
  is a multiple of 4 between 8 and 65536 bytes (the driver uses 0x7F8), because the local tail is a 16-bit field.
- Allocations of mails, list nodes and headers succeed; those of buffer tables, buffers and handles may fail. No kernel
  allocation is as large as a table of 0x1000_0000 pointers.
- Mails from the microcontroller are long enough for the words by which they are routed and read (`Routable`,
  `IsAnswer`, `IsAnnouncement`).
- The firmware answers the creation requests that come from one slot once each and in their order (`OwnAnswerExactly`).
- A release drains and unbinds in one step as far as delivery is concerned, and starts when no other call of its user is
  in progress.
- The methods of `UserOps.dfy`, `EncoderUsers.dfy`, `EncoderPictures.dfy` and `DecoderUsers.dfy` are each one call run by
  itself, and the array of locks says which ones that call holds. What other calls do meanwhile enters as arriving
  mails and as outcomes; calls side by side are the subject of `DestroyLocks.dfy`, `MailOwnership.dfy` and
  `ChannelRuns.dfy`.

## Model

| member | source | states |
|---|---|---|
| `MachineWords.BytesOfWordsOf` | common/mcu_utils.c:20-40 | storing a buffer as words and loading them back gives its first size/4*4 bytes |
| `MachineWords.WordCopiedIdentity` | common/mcu_utils.c:26-38 | the word copy is the identity exactly on buffers whose last size%4 bytes are zero, and a second trip changes nothing more |
| `McuUtils.MemcpyToIo32` | common/mcu_utils.c:20-29 | the loop stores exactly the whole words of the buffer at the destination and touches no other word |
| `McuUtils.MemcpyFromIo32` | common/mcu_utils.c:31-40 | the loop loads exactly the whole words and leaves every other byte, among them the last size%4, alone |
| `Mails.DeliveryFidelity` | common/mcu_utils.c:26-38 | a mail survives a ring unchanged exactly when the bytes after its last whole word are zero; every whole word survives; a second trip changes nothing |
| `Mails.MailBuffer.constructor` | common/al_mail.c:25-39 | kind and size are cut to 16 bits while the storage keeps the size asked for |
| `Mails.MailBuffer.Write` | common/al_mail.c:42-47 | what was written before is followed by the new content and the offset moves by its length |
| `Mails.MailBuffer.WriteWord` | common/al_mail.c:49-53 | a word is appended low byte first |
| `Mails.CreateClassicMail` | common/al_codec_mails.c:57-69 | the built mail is the id followed by the payload, filling the storage exactly, and shows as much of it as its 16-bit size admits |
| `Mails.CreateEmptyMail` | common/al_codec_mails.c:49-55 | the built mail is the id alone |
| `RingWords.LoadAfterStore` | common/al_mailbox.c:112-142 | a circular store followed by a circular load at the same index returns the stored words |
| `RingWords.StoreOutsideWindow` | common/al_mailbox.c:112-125 | a circular store leaves every word outside its span as it was |
| `RingWords.HeaderRoundTrip` | common/al_mailbox.c:83-99 | kind and size read from a header are those written into it, and the header is one word with the size below the kind |
| `RingWords.OpenStoredFrame` | common/al_mailbox.c:144-185 | a stored frame decodes to the delivered mail whatever the ring held in the padding before |
| `RingWords.ParseSpan` | common/al_mailbox.c:31-34 | the pending mails account for every used word, and there is none exactly when no word is used |
| `RingWords.ParseAppend` | common/al_mailbox.c:159-164 | a frame put behind whole frames is decoded last and disturbs none of the earlier ones |
| `Mailboxes.Mailbox.constructor` | common/al_mailbox.c:72-80 | a new mailbox is valid and empty |
| `Mailboxes.Mailbox.WriteUntilWrap` | common/al_mailbox.c:44-55 | the first piece fills the ring to its end with the first words and leaves the others; the rest is handed back |
| `Mailboxes.Mailbox.WriteData` | common/al_mailbox.c:112-125 | the one- or two-piece copy is one circular store at the local tail, which moves on by whole words |
| `Mailboxes.Mailbox.ReadUntilWrap` | common/al_mailbox.c:58-70 | the first piece is the ring's words up to its end |
| `Mailboxes.Mailbox.ReadData` | common/al_mailbox.c:127-142 | the one- or two-piece copy is one circular load at the head, which moves on by whole words; the ring's words stay |
| `Mailboxes.AdvanceWraps` | common/al_mailbox.c:123-138 | the rounded-up modular update lands on the same word whether or not the copy was split |
| `Mailboxes.RoomForFrame` | common/al_mailbox.c:27-35 | the space test on the unrounded size leaves one word free after the rounded frame, and refuses exactly the frames that would leave none |
| `Mailboxes.Mailbox.UsedIsSpan` | common/al_mailbox.c:31-34 | in every valid state at most size-4 bytes are used, all of them by whole frames, and head equals tail exactly when no mail is pending |
| `Mailboxes.FrameStored` | common/al_mailbox.c:159-164 | storing a frame behind the pending words makes exactly its delivered mail pending after the others |
| `Mailboxes.FrontMail` | common/al_mailbox.c:170-185 | loading a header and the body it announces gives the oldest mail, and moving past both leaves exactly the other mails |
| `Mailboxes.Mailbox.Write` | common/al_mailbox.c:144-167 | succeeds exactly when body size + 8 fits the free bytes, then appends exactly this mail; otherwise changes neither the ring's words nor the tail |
| `Mailboxes.Mailbox.Read` | common/al_mailbox.c:170-185 | returns the oldest mail and removes exactly that one |
| `Mailboxes.Mailbox.IsEmpty` | common/mcu_interface.c:95-107 | equal registers mean that no mail is pending, and the other way round |
| `RingProtocol.StoreWordKeeps` | common/mcu_utils.c:26-27 | a word stored by the producer overwrites no unread word, wherever the consumer stands |
| `RingProtocol.TestSpaceInv` | common/al_mailbox.c:149-157 | a test made with a head that has moved meanwhile errs on the safe side only |
| `RingProtocol.PublishTailInv` | common/al_mailbox.c:161-164 | publishing the tail makes exactly the stored mail readable |
| `RingProtocol.PublishHeaderInv` | common/al_mailbox.c:127-142 | the first move of the head gives back the header word only |
| `RingProtocol.PublishBodyInv` | common/al_mailbox.c:177-184 | the second move of the head gives back exactly the body, which was read unharmed |
| `RingProtocol.StepInv` | common/al_mailbox.c:127-185 | every step of either side keeps the invariant, whatever the other side is doing |
| `RingProtocol.EveryInterleaving` | common/mcu_interface.c:68-107 | every state of every interleaving of one producer and one consumer satisfies the invariant |
| `RingProtocol.ReadsPrefixOfWrites` | common/mcu_interface.c:68-107 | at any moment of any interleaving the mails read are a prefix of the mails written, and all of them exactly when nothing is left in the ring |
| `RingProtocol.BodyNeverPassesTail` | common/al_mailbox.c:170-185 | between header and body the whole announced body lies before the tail, and kind and size are those of the next mail sent |
| `RingProtocol.UnreadIsFifo` | common/al_mailbox.c:101-142 | unread words leave at the front by the consumer and come in at the back by the producer, never otherwise |
| `RingProtocol.RefusalIsExact` | common/al_mailbox.c:152-157 | a mail is refused exactly when it does not fit beside what was unread when the head was sampled |
| `RingProtocol.UndisturbedWrite` | common/al_mailbox.c:144-167 | the small steps of a write while the consumer rests make up one write of the bounded FIFO |
| `RingProtocol.UndisturbedRead` | common/al_mailbox.c:170-185 | a consumer that found a mail can finish alone and gets the oldest one |
| `MailQueues.MailQueue.constructor` | common/al_queue.c:21-27 | a new queue is empty and its gate closed |
| `MailQueues.MailQueue.Acyclic` | common/al_list.c:42-46 | no node comes twice in the list and only the last ends it |
| `MailQueues.MailQueue.Push` | common/al_list.c:32-48 | the contents gain the mail at the end, the old nodes stay in place and the head pointer that walked is back where it was |
| `MailQueues.MailQueue.WalkToLast` | common/al_list.c:42-43 | the walk with the list's own head ends on the last node and never on null |
| `MailQueues.MailQueue.Pop` | common/al_list.c:50-64 | takes the oldest mail, or nothing exactly from an empty queue |
| `MailQueues.MailQueue.PopTimeout` | common/al_queue.c:35-67 | a mail that is there wins over timeout and signal; without one the error tells an interruption from the rest |
| `MailQueues.MailQueue.Drain` | common/al_user.c:102-110 | ends with an empty queue after freeing every mail once, oldest first |
| `Users.User.constructor` | common/al_user.c:114-131 | a new user has its number, no channel, no checkpoint, seven empty queues behind closed gates, two pools without table or buffer, and eight free locks |
| `Users.User.Deliver` | common/al_user.c:72-78 | the mail goes to the end of the queue of its kind, and no other queue changes |
| `Users.User.RemoveResidualMessages` | common/al_user.c:96-112 | every gate ends open and every queue empty, and exactly the mails that waited have been freed, queue by queue in order |
| `Dispatch.SlotOfChanIsLowest` | common/al_group.c:103-116 | the scan finds the lowest slot that holds the channel id, or that none does |
| `Dispatch.ChannelMailTarget` | common/al_group.c:176-180 | every mail but the answers to a creation, to the initialisation and to a start-code search goes to a slot exactly if it is the lowest with the channel id in its first word, which is the only one when ids are distinct; to none exactly if none has it |
| `Dispatch.UserMailTarget` | common/al_group.c:82-175 | an answer to a creation, to the initialisation or to a start-code search goes exactly to the taken slot whose number it names, in the second word for a creation and the first otherwise |
| `Dispatch.ReceiverOwnsChannel` | common/al_group.c:98-101 | who gets any other mail holds the channel id in it, and is without a channel exactly when that id stands for no channel |
| `Dispatch.BadChannelMailReachesIdleUser` | common/al_group.c:163-180 | a concrete mail for no channel is delivered to a user that has none |
| `Dispatch.OrphanCostsOneDestroy` | common/al_group.c:119-214 | an unclaimed mail is freed and costs at most one command, a quiet destroy of the channel in its own first word, sent exactly when the kind asks for it and the ring has room |
| `Dispatch.HandleFrees` | common/al_group.c:197-214 | a trace is freed; a delivered mail is not, and nothing is made; an unclaimed mail is freed once, after the one quiet destroy that its kind may call for, which is made, sent if it fits, and freed once |
| `Dispatch.PassDeliversShares` | common/al_group.c:197-230 | one pass appends to each queue exactly its share of the batch in batch order, whatever orphans lie between |
| `DeliveryRuns.PassConserves` | common/al_group.c:197-230 | what waits and what was freed after a pass is, mail for mail, what waited and was freed before, the batch and the requests the pass made: none lost, none delivered and freed as well |
| `DeliveryRuns.StepLedger` | common/al_group.c:160-214 | one event adds to a queue's stream exactly what it brings in for that queue |
| `DeliveryRuns.OrderedDelivery` | common/al_group.c:160-230 | over every history that leaves a user's slot and channel alone, what it popped, what waits and what the ring holds for it is the arriving stream filtered to that user and kind, in order |
| `MailOwnership.StepPlaces` | common/al_user.c:57-112 | a step makes at most one mail object, in one place, and moves every other at most from one place to another |
| `MailOwnership.StepBelongs` | common/al_group.c:184-214 | what waits in a user's queue or is in the hand of its operation stays that user's, and what the handler holds is nobody's, through every step |
| `MailOwnership.EveryMailInOnePlace` | common/al_user.c:57-112 | over every run of the handler and any number of operations, users coming and going, each mail object, known by number, is in one queue, in one hand or freed, and that once |
| `MailOwnership.OncePlacedMeans` | common/al_group.c:197-214 | no mail object is freed twice, and one that is freed is nowhere else |
| `MailOwnership.UnfreedIsWithOwner` | al5e/enc_user.c:245-348 | a mail that is not freed is with its user, who still is in a slot, or with the handler |
| `MailOwnership.ReleasedUserOwnsNothing` | common/al_codec.c:303-334 | once a user has been released, every mail that it ever made or was given, over sends, refusals, answers and interrupted waits, has been freed exactly once |
| `MailOwnership.NothingLeaks` | common/al_codec.c:303-334 | when all users are released and the handler waits, every mail object ever made has been freed exactly once |
| `MailOwnership.UndisturbedHandling` | common/al_group.c:197-221 | the handler's small steps on one mail, undisturbed, are the routing function of which a pass is made, and free exactly the objects that function frees |
| `MailOwnership.UndisturbedPost` | common/al_user.c:57-69 | an operation's small steps on one request, undisturbed, put it into the ring if it fits and free it either way |
| `MailOwnership.UndisturbedTake` | al5e/enc_user.c:259-264 | an operation's small steps on one answer, undisturbed, take the oldest of the queue and free it |
| `Groups.Group.constructor` | common/al_group.c:26-34 | a new table is valid and has only free slots |
| `Groups.Group.RetrieveUser` | common/al_group.c:160-182 | finds the user whose number the mail names, for the answers to a creation, to the initialisation and to a start-code search, and otherwise one that holds the channel id, or nobody exactly when there is none |
| `Groups.Group.UserFromUid` | common/al_group.c:82-95 | numbers outside the table name nobody; the others name the user in that slot |
| `Groups.Group.UserFromChanUid` | common/al_group.c:103-116 | finds the user in the lowest slot with that channel id |
| `Groups.Group.CheckAndSend` | common/al_user.c:57-69 | the mail enters the command ring exactly when it fits, is freed once either way, and nothing else changes |
| `Groups.Group.DestroyOrphanChannel` | common/al_group.c:119-140 | sends one quiet destroy if there is room, frees it either way, and touches neither users nor the incoming ring |
| `Groups.Group.TryToDeliver` | common/al_group.c:184-195 | delivers into exactly one queue of the target's user; nothing of any user but lists can change, and of those only that one does |
| `Groups.Group.HandleMail` | common/al_group.c:197-214 | the whole device changes as the routing function says, and nothing of any user but its lists; a delivered mail is not freed, nothing is made for it, and no mail is lost |
| `Groups.Group.ReadMails` | common/al_group.c:223-230 | one pass consumes exactly the first min(pending, 100) mails and the rest stay in order, even though orphans write to the other ring meanwhile; it loses no mail, and of the users only lists change |
| `Groups.Group.Open` | common/al_group.c:42-69 | takes the lowest free slot for a new user of that number, in the state of a new user, or changes nothing exactly when the table is full |
| `Groups.Group.Leave` | common/al_codec.c:328-329 | empties the user's slot after freeing all that waited in its queues, in order, and leaves the other users alone |
| `DmaKernel.MadeAccounted` | common/al_buffers_pool.c:46-54 | a buffer made and wrapped is new and has its maker for only owner |
| `DmaKernel.DroppedAccounted` | common/al_buffers_pool.c:49-53 | a buffer whose wrapping failed leaves nothing behind but its release |
| `DmaKernel.PutAccounted` | common/al_buffers_pool.c:74-75 | giving a reference back takes one owner away, and frees the buffer with the last |
| `DmaKernel.GetAccounted` | common/al_buffers_pool.c:88 | a reference taken through a descriptor has one owner more |
| `DmaKernel.CloseAccounted` | common/al_dmabuf.c:179-196 | closing a descriptor takes exactly its own reference away |
| `DmaKernel.OwnersDetermineCounts` | common/al_buffers_pool.c:59-61 | with the same owners the same buffers are live with the same counts, whatever was made and undone in between |
| `DmaKernel.HandOutExactly` | common/al_buffers_pool.c:104-111 | handing out a descriptor keeps every reference owned exactly when nobody closes it between its two steps; otherwise the pool's own reference is lost, and the buffer with it if it was the last |
| `BufferPools.BufferPool.Allocate` | common/al_buffers_pool.c:30-67 | all or nothing: on success the count asked for, under new and distinct handles; on failure at any point the same live buffers and counts as before and no handle; a missing handle table leaves a freed table's address |
| `BufferPools.BufferPool.Fill` | common/al_buffers_pool.c:45-55 | the loop succeeds exactly when every allocation and every wrap does, and owns what it made either way |
| `BufferPools.BufferPool.Free` | common/al_buffers_pool.c:70-82 | every handle of the pool is given back once and nobody else's; an empty pool frees nothing, except a table that was freed before |
| `BufferPools.BufferPool.GetId` | common/al_buffers_pool.c:85-101 | returns the slot whose buffer the descriptor names, or -1 exactly when it names none of the pool, and changes no count |
| `BufferPools.BufferPool.ReserveFd` | common/al_buffers_pool.c:104-111 | when nobody comes between its two steps: opens one descriptor on the buffer of that slot and adds one reference, or changes nothing |
| `BufferPools.DescriptorLeadsBack` | common/al_buffers_pool.c:85-111 | a descriptor opened on a slot leads back to that slot and to no other |
| `BufferRuns.StepAccounted` | common/al_buffers_pool.c:30-111 | every action on pools, descriptors and borrowed references leaves each reference with one owner, but for the second step of a hand-out, which does so exactly if its descriptor still names the buffer |
| `BufferRuns.ReferenceStep` | common/al_buffers_pool.c:106-109 | that second step, with any number of closes and openings since the first |
| `BufferRuns.RunAccounted` | common/al_buffers_pool.c:70-111 | over every history in which no hand-out finds its descriptor closed, each handle's count is the number of pools, calls and descriptors that hold it |
| `BufferRuns.FirstClosedEarly` | common/al_buffers_pool.c:104-111 | and the first hand-out that does find it closed ends that |
| `BufferRuns.FreedExactlyWhenUnowned` | common/al_buffers_pool.c:70-111 | after every such history a buffer has been freed exactly once if nobody holds it, and never otherwise |
| `BufferRuns.BufferLost` | common/al_buffers_pool.c:104-111 | a concrete history in which a buffer is freed while its pool still has the handle |
| `PushedBuffers.CreateMailFromBufpool` | al5e/enc_user.c:51-72 | the loop fills the storage to the last byte with the channel and three words per buffer; the mail shows as much as its 16-bit size admits |
| `PushedBuffers.PoolMailDescribes` | al5e/enc_user.c:57-69 | the mail tells channel, addresses, translated addresses and sizes of all buffers exactly when its size fits 16 bits |
| `PushedBuffers.PoolSurvivesTheWire` | common/al_mailbox.c:144-185 | behind whatever waits in the ring, an accepted pool mail comes out describing the whole pool |
| `PushedBuffers.PushableExactly` | common/al_mailbox.c:27-35 | some state of the ring accepts the pool's mail exactly when the mail, cut to its 16-bit size, fits the empty ring |
| `PushedBuffers.TooManyBuffers` | include/al_codec.h:56 | at the ring's real size no pool of 170 to 5460 buffers can ever be pushed |
| `ChannelLife.AnswerRoundTrip` | al5e/enc_feedbacks.h:23-39 | the driver reads from an answer the channel, counts and sizes that the firmware put into its structure, and the answer survives the ring |
| `ChannelLife.DestroyConsistent` | common/al_user.c:140-191 | a destruction ends with no channel and empty pools exactly when no lock is interrupted, the send works and the answer comes; otherwise nothing changes |
| `ChannelLife.PushConsistent` | al5e/enc_user.c:187-205 | a resumed call sends only the pushes that are missing, in order, and completes exactly when those sends work |
| `ChannelLife.FinishConsistent` | al5e/enc_user.c:177-212 | from a new channel under the lock: complete exactly if both pools and both sends work; left looking complete, with a clean-up owed, exactly if a pool cannot be had |
| `ChannelLife.CreateConsistent` | al5e/enc_user.c:151-218 | when the lock is given back no step was repeated or skipped; a half-made channel that looks complete arises only in a call whose pools cannot be had, and that call then owes a clean-up |
| `ChannelLife.CreateFails` | al5e/enc_user.c:114-217 | which error a creation ends with, exactly when: interrupted, already created, a mail that did not go out, no answer or no channel in it, or a pool of the size asked for that cannot be had |
| `ChannelLife.CreateAloneConsistent` | al5e/enc_user.c:209-213 | when nobody comes between a call and its clean-up, such a channel remains exactly if the clean-up fails, and the error stays that of the creation |
| `ChannelLife.ResumeNeverAllocates` | al5e/enc_user.c:155-185 | a resumed call, whose feedback is all zeros, allocates nothing, keeps both pools and takes no answer |
| `ChannelLife.EveryRunInOrder` | al5e/enc_user.c:151-218 | over every sequence of creations and destructions the events of each channel come in the only allowed order and once, and the user's fields say where they stand |
| `ChannelLife.CheckpointInEveryRun` | al5e/enc_user.c:155-212 | at every call boundary the checkpoint is none or one of the two pushes, and a user without channel has neither checkpoint nor buffers |
| `ChannelLife.PhaseTells` | al5e/enc_user.c:168-205 | what the order of events amounts to: the last events before each stage, spelled out |
| `ChannelLife.FullyCreatedHistory` | al5e/enc_user.c:146-149 | a channel that looks fully created got answer, two pools and two pushes in this order and with nothing between, or was left behind by a failed allocation |
| `ChannelLife.ReleaseEmptiesPools` | common/al_codec.c:309-327 | after any sequence of calls a release leaves both pools empty, whether or not the channel could be destroyed |
| `ChannelLife.RetrySucceeds` | common/al_codec.c:313-318 | the retries succeed exactly if one of the 10000 tries goes through, closing the channel once, and otherwise change nothing |
| `ChannelRuns.RunTaints` | common/al_buffers_pool.c:63-82 | over every run a pool keeps a freed table's address, or a table was freed twice, exactly when some creation adopted a channel and could not get a pool's handle table |
| `ChannelRuns.FreedTwiceExactly` | common/al_codec.c:309-327 | from opening to release, a table of the user is freed twice exactly when some creation adopted a channel and could not get a pool's handle table, whatever comes later |
| `ChannelRuns.CleanUpClosesOwn` | al5e/enc_user.c:209-213 | with any calls between a failed creation and its clean-up: it closes its own channel exactly if it works and no destruction worked in between, and another call's channel exactly if it works, one did, and a channel is there |
| `ChannelRuns.RunInStep` | al5e/enc_user.c:120-133 | over every history of a slot and all the users that sit in it, the queue holds exactly the answers that came and are not gone, and it lags behind the requests by those given up on less the answers nobody read |
| `ChannelRuns.OwnAnswerExactly` | al5e/enc_user.c:126-139 | over every history of a slot, with users leaving and coming and answers drained or orphaned, a creation gets the answer to its own request exactly when as many answers went unread as requests were given up on, by whichever users |
| `ChannelRuns.OwnAnswerOfFirstUser` | al5e/enc_user.c:126-139 | for the first user of a slot that is: exactly when none of its creations gave up waiting |
| `ChannelWitnesses.LooksCreated` | al5e/enc_user.c:209-213 | a concrete history: no memory, a refused clean-up, and a channel without buffers that looks fully created |
| `ChannelWitnesses.TableFreedTwice` | common/al_buffers_pool.c:63-64 | a concrete creation and clean-up that free a table twice |
| `ChannelWitnesses.CleanUpHitsAnother` | al5e/enc_user.c:211-212 | a concrete history in which a clean-up closes the complete channel of a later call |
| `ChannelWitnesses.LateAnswerAdopted` | al5e/enc_user.c:126-136 | a concrete history in which a creation takes the late answer to the one before it |
| `ChannelWitnesses.AnswerToTheOneBefore` | common/al_group.c:160-170 | a concrete history in which the late answer to a user that has left waits for the next user of the slot, which never gave up on anything |
| `ChannelWitnesses.HeirIsServedWrong` | al5e/enc_user.c:126-136 | and that user's first creation gets the channel of the one before |
| `ChannelWitnesses.AnswerDelivered` | common/al_group.c:160-214 | the pass over the whole device does deliver that answer to the new user |
| `UserOps.LockAll` | common/al_user.c:150-158 | the call ends up with all locks or, interrupted at any of them, with none |
| `UserOps.QueuesUnlock` | common/al_user.c:80-86 | exactly the four gates are opened and no mail moves |
| `UserOps.QueuesLock` | common/al_user.c:88-94 | exactly the four gates are closed and no mail moves |
| `UserOps.CheckAndSend` | common/al_user.c:57-69 | the request is freed once whether or not it went out |
| `UserOps.AskToDestroy` | common/al_user.c:160-179 | the request and the answer that was taken, if any, are freed once on every exit |
| `UserOps.DestroyLocked` | common/al_user.c:160-182 | with all locks held the user changes as the life-cycle function says, and every mail the call made or took is freed once |
| `UserOps.DestroyChannel` | common/al_user.c:140-191 | on every exit the call holds no lock and no mail and the gates are closed again; with a channel and all locks it makes one request, of four bytes, quiet exactly if asked to be, that names the channel, and its error says which step failed; channel, checkpoint and pools change as the life-cycle function says, and every reference is accounted for |
| `UserOps.DestroyAgain` | common/al_codec.c:313-318 | the loop ends as the retry function says, sends only quiet requests for this channel and takes no mail from any queue |
| `UserOps.ReleaseChannel` | common/al_codec.c:309-327 | channel and pools end as the release function says, whether or not a try worked, and every request is a quiet one for this channel |
| `EncoderUsers.RecBufferSizePads` | al5e/enc_user.c:80-81 | the size of a reference buffer becomes the next larger multiple of the page size, except where 32 bits overflow |
| `EncoderUsers.StatusRoundTrip` | al5e/enc_user.c:31-40 | the status that an application gets holds the options, cores, parameter and error that the firmware put into its answer |
| `EncoderUsers.TryToCreateChannel` | al5e/enc_user.c:114-144 | adopts the oldest answer of the queue after a successful send, tells its status words, and frees request and answer once on every exit |
| `EncoderUsers.AllocateChannelBuffers` | al5e/enc_user.c:74-94 | both pools of the feedback with as many buffers and of the sizes asked for, or the failure of the first that cannot be had, the other pool being left as it was made; every reference is accounted for |
| `EncoderUsers.PushMailDescribes` | al5e/enc_user.c:96-112 | a push is one mail of its kind that describes the whole pool of that kind, if the pool fits the 16-bit size field; no other event is a mail |
| `EncoderUsers.PushBuffers` | al5e/enc_user.c:187-205 | sends exactly the mails of the pushes that succeed, built from the user's own pools, and frees every mail it built |
| `EncoderUsers.CreateUnderLock` | al5e/enc_user.c:155-217 | between its locks a creation changes the user as the life-cycle function says and keeps the invariant of all runs; channel, number and size of the buffers are those of the answer it took, a resumed call leaves the pools alone, what it sent is its request, which names the user, and its pushes, which describe its pools, and it keeps no lock and no mail |
| `EncoderUsers.CreateChannel` | al5e/enc_user.c:151-218 | the same with the clean-up, when nobody comes between the two: pools made are those asked for, and pools pushed are described by what was sent |
| `EncoderPictures.GetUserRecBuffer` | al5e/enc_user.c:301-306 | a slot of the pool opens one descriptor on its buffer; exactly the slot equal to the count reads behind the table |
| `EncoderPictures.OneSlotTooMany` | al5e/enc_user.c:303 | the slots that pass the test without having a handle are exactly the one that is the number of buffers |
| `EncoderPictures.SlotPastTheTable` | al5e/enc_user.c:303 | a concrete announcement that does it |
| `EncoderPictures.GetRec` | al5e/enc_user.c:308-348 | the oldest announcement is taken whether or not its slot is good; it determines the result, the error and the new descriptor; one request was made, for the channel, request and announcement are freed once, and no lock stays held |
| `EncoderPictures.PictureRoundTrip` | al5e/enc_user.c:301-342 | a fetch reads slot, structure and order count where the firmware put them, and opens a descriptor on the buffer of that slot |
| `EncoderPictures.ReleaseRec` | al5e/enc_user.c:350-379 | a mail is sent exactly for a descriptor of a buffer of the reference pool; it names the channel and the slot of that very buffer, is freed once, and no count changes |
| `EncoderPictures.FetchedIsReturned` | al5e/enc_user.c:308-379 | a picture that was fetched and is given back by its descriptor goes back under the slot that was announced |
| `EncoderPictures.WaitForStatus` | al5e/enc_user.c:245-269 | takes the oldest status, if the lock was free, the channel exists and one came, and frees it once; no lock stays held |
| `DecoderUsers.CreateDecoderChannel` | al5d/dec_user.c:55-96 | a channel is there afterwards exactly if the call succeeded or there was one before; it is the one in the oldest answer; the error says which step failed; the request names the user, request and answer are freed once, and no lock stays held |
| `DecoderUsers.StatusRoundTrip` | al5d/dec_user.c:29-38 | the status that an application gets holds the cores and the error that the firmware put into its answer |
| `DecoderUsers.WaitForStartCode` | al5d/dec_user.c:184-203 | takes the oldest result whether or not a channel exists, if the lock was free, and frees it once; no lock stays held |
| `DecoderUsers.BareStaysBare` | common/al_user.c:134-190 | a decoder's user never has a buffer or a checkpoint, through every destruction and release, and loses its channel exactly if one try goes through |
| `Devices.OpenDevice` | common/al_codec.c:275-299 | a user that could be opened is at the start of its life in the lowest free slot, so that every operation can begin with it |
| `Devices.Create` | al5e/enc_user.c:151-218 | after a creation the whole table is in order and only this user has changed; its pools are those that the answer asked for, or as before if it had a channel |
| `Devices.DestroyFor` | common/al_user.c:140-191 | after a destruction the whole table is in order and only this user has changed; at most one request was made, loud or quiet as asked for |
| `Devices.StatusFor` | al5e/enc_user.c:245-269 | after a wait for a status the whole table is in order and only this user has changed |
| `Devices.Pass` | common/al_group.c:223-230 | a pass between two calls gives each queue of a user its share in order, and leaves channel, checkpoint, pools, gates and locks as they were |
| `Devices.CloseDevice` | common/al_codec.c:303-334 | afterwards the slot is free, the user holds no reference, each mail that waited was freed once, and a table was freed twice exactly as the release function says |
| `Devices.Session` | common/al_codec.c:275-334 | open, pass, create, pass, destroy and close, with any failures on the way, leave the table in order, its slots taken and free as before, and no reference without an owner |
| `DestroyLocks.MoveOwned` | al5e/enc_user.c:221-379 | no step of an operation takes or gives a lock but its own |
| `DestroyLocks.StrideOwned` | common/al_user.c:140-191 | no step of a destroyer takes a lock that is held or gives back one that is not its own |
| `DestroyLocks.EveryRunOwned` | common/al_user.c:150-186 | over every run of any number of operations and destroyers every lock has at most one holder |
| `DestroyLocks.WaitsAscend` | common/al_user.c:150-158 | a destroyer that waits for another waits for one that is further on, so that no circle of destroyers can form |
| `DestroyLocks.HeldExactly` | common/al_user.c:152-186 | a destroyer back at rest holds nothing, and one that backs out holds exactly what it took and has not given back |
| `DestroyLocks.SoleStep` | common/al_user.c:80-94 | with one destroyer at work the gates are open from its last opening to its first closing |
| `DestroyLocks.SoleRun` | common/al_user.c:140-191 | over every run in which a destroyer begins only when all rest, whoever they are, at most one is at work and the gates follow it |
| `DestroyLocks.QuietIsSole` | common/al_user.c:114-131 | which holds from a state in which nobody is at work |
| `DestroyLocks.HolderCanMove` | common/al_queue.c:30-33 | whoever holds the lock that a sole destroyer waits for can make its next move without any mail |
| `DestroyLocks.HolderStaysEnabled` | common/al_queue.c:96-106 | and no step of anybody else can take that move away |
| `DestroyLocks.DestroyerCanFinish` | common/al_user.c:140-191 | from every state a sole destroyer can get back to rest in a bounded number of steps without signal, timeout or mail other than its own answer |
| `DestroyStalls.BlockedForGood` | common/al_user.c:146-189 | a destroyer that waits for an answer that is not there, or for a lock in the hand of an operation behind a gate that stays shut, never comes to rest, whatever any number of operations and destroyers do, unless a signal, mail or new destruction comes |
| `DestroyStalls.FreeCanFinish` | common/al_user.c:140-191 | every other destroyer has a bounded way back to rest without anything from outside |
| `DestroyStalls.StalledExactly` | common/al_user.c:140-191 | in every state of every run of any number of operations and destroyers, a destroyer can get through from inside exactly if it is not so blocked |
| `DestroyStalls.SoleIsFree` | common/al_user.c:80-94 | with one destroyer at a time only a missing answer to itself blocks it |
| `DestroyStalls.TwoDestroyersStall` | common/al_user.c:146-189 | a reachable state in which, after a second destroyer was interrupted, the first is blocked and neither it nor the holder it waits for can move |

## Left out

- ChannelLife.DestroyConsistent: `answered` does not tell to which destruction an answer in the queue belongs, nor are queues tied to channels: a late answer to a destruction, or a status of the channel before, is handed to whoever waits next.
- Mailboxes.Mailbox.Read: takes a non-empty ring as given, as the interrupt pass does; reading an empty ring is not modelled.
- RingProtocol.StepInv: each side is one sequence of steps, as the spin locks make it; weak memory ordering is not modelled.
- BufferPools.BufferPool.ReserveFd: opening the descriptor and taking its reference are one step; closes and openings between the two are in `BufferRuns.dfy`.
- BufferRuns.RunAccounted: on one pool one hand-out is in progress at a time, and none while the pool is freed, as the locks make it.
- EncoderPictures.GetUserRecBuffer: what a read of the handle behind the table gives is not modelled, only that it happens.
- EncoderUsers.TryToCreateChannel: the channel parameters are bytes without structure.
- EncoderUsers.CreateChannel: sends succeed or fail by parameter, because the command ring is shared with every other user and with the firmware, which act between two sends of one call; that a mail enters the ring exactly when it fits is `Mailbox.Write` and `Group.CheckAndSend`.
- Devices.Create: the mails that the call sent are in its log, not in the table's command ring, for the same reason.
- DestroyLocks.DestroyerCanFinish: says that a way through always exists and that nobody can block a holder; fairness of the kernel's locks is not modelled.
- The destruction's second look at the channel, which the code does not take after it has the locks, is not modelled for two destroyers that both get all locks in turn.
- The decoder's decode and search requests and status copies, the encoder's parameter and encode mails: straight-line copies that add no harder property.
- Copies of mails (`al5_mail_create_copy`): one more use of the builder.
- Traces and log messages: a trace mail is only freed.
- Firmware load, reset, boot handshake, cache-offset registers, interrupt registers: register writes without an invariant.
- Character devices, ioctl switches, probe and remove: plumbing around the kernel.
- Scatter-gather lists and the dma-buf operations behind a handle: calls into the kernel; only their reference counts are modelled.
- The L2 prefetch queries: not part of this model.
- Opening the device: the allocation of the user and its file data; binding a slot is modelled.
