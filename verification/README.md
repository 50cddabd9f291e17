# A verified model of vncproxy's cores

vncproxy listens for VNC clients, picks a destination by the password a client proves to know, and
ties the client's socket to the destination's. This project models the parts that carry the weight,
and proves what they are for.

* **DES** (`Bits`, `Fips46`, `Fips46Laws`, `D3Des`, `D3DesRefinesFips`, `D3DesKeys`, `D3DesCorrect`,
  `D3DesWide`, `D3DesAnyTables`, `D3DesKnown`). `Fips46.dfy` is the textbook cipher of FIPS PUB 46-3,
  written from its tables and definitions on sequences of bits. `D3Des.dfy` is `d3des.c` on 32-bit
  words, with the key register as an array. The main theorem, `D3DesCorrect.EngineRefinesFips`, says
  the two agree for every key and block, once the bits of each key byte are reversed (VNC's twist).
  Inversion, complementation, independence of the eighth bits and of the width of `unsigned long`
  follow or stand beside it; inversion also holds for any contents of the SP tables. A known answer
  and the shape of the selection functions guard the tables.
* **The byte queue** (`Marshal`, `Serial`). `Marshal.dfy` keeps the list of chunks with their
  storage, read and write indices, and proves every operation against one sequence of bytes. The
  invariant is that no chunk is fully read, every chunk but the last is full, and no two chunks
  share storage, within a queue and across two queues. `Serial.dfy` is the `<<` / `>>` layer.
* **The epoll manager** (`Polling`, `PollingSafety`, `PollingRuns`, `PollingOrderly`, `PollingLoss`,
  `PollingPeers`, `PollingModes`, `PollThread`). A step relation: the atomic steps are the critical sections, the
  kernel calls and the reference counting, in any interleaving of any number of threads; a failed
  `verify` or `assert` ends the run. `PollThread.dfy` has the class, whose methods take exactly their
  steps of the relation.
* **The data path** (`Batch`, `EndPoint`, `Cleanup`, `Relay`, `RelayProgress`, `RelayDrops`,
  `RelayFrank`, `EndPointSteps`). `EndPoint.dfy` runs the handlers over the real queues, one at a
  time; `Batch.dfy` says on values what a batch calls and what each call does. `Relay.dfy` is a step
  relation of two tied endpoints, their sockets, locks, poll threads and the
  edge-triggered ready list; `EndPointSteps.dfy` shows that the handlers take its steps.
* **The worker pool** (`ThreadPool`, `ThreadPoolRuns`) and **authentication** (`VncAuth`).
  `Common.dfy` has two small definitions several modules need.

## What is asked of the surroundings

* Clients of the poll manager: `fd()` and `poll_mode()` are constant; one pollable is made per open
  descriptor, whose number is reused only after `close()`; references are copied and released by
  those who hold them; `add(p)` is called while p's descriptor is open, which is not closed before
  it returns; `remove(p)` starts after `add(p)` returned; `update_mode(p)` is called only while p is
  not deleted. `Polling.Enabled` writes this down.
* Clients that tie two pollables, for what is said of a peer: the last client reference to one goes
  only after the other's descriptor is closed, as `shutdown` does it (vncproxy.cc:94-111); for a
  follower, also that it is removed only after the leader's descriptor is closed, and added before
  it is let go of. `PollingPeers.InOrder` and `PollingPeers.LeaderFirst` write this down.
* The kernel under edge triggering: an event is put on the ready list when input arrives, when a
  full socket gets room while EPOLLOUT is asked for, and when EPOLL_CTL_ADD or EPOLL_CTL_MOD asks
  for what is so already; `epoll_wait` reports what is listed and still so, perhaps more.
  `RelayFrank` is about a kernel that reports all that is so of a listed socket, and nothing of
  others. In `Relay`, a `write` that moves nothing means the socket has no room, a `read` that moves
  nothing means there is no more input: a call cut short by a signal, or failing for good, is not
  told apart. The queues and handlers assume no such thing; what they do on a descriptor that moves
  bytes whenever it can is stated beside it (`prompt` in `Marshal.dfy`).
* The host is little-endian. A `double` is its 64-bit object representation.
* `rand()`, the rows of the forwarding table, and what `read` and `write` return are parameters or
  arbitrary.

## What turned out false

* `shutdown` closes the descriptor before it removes the endpoint (vncproxy.cc:95-96). If another
  thread is handed the same number in between, its `add` finds the number still in `mode_` and the
  `verify` at polling.cc:215 ends the process: `PollingOrderly.ClosingFirstFails` and
  `ClosingFirstHappens`. `PollingRuns.WhenStepsFail` says exactly when any step fails, and
  `PollingOrderly.OrderlyRunsSucceed` that nothing fails when removal comes first.
* `tie_fd` adds both endpoints before they are `ready()` (vncproxy.cc:162-166), so an event
  dispatched in between is dropped. A dropped EPOLLIN event leaves input unread with no event under
  way (`RelayDrops.EarlyInputIsLost`); a dropped EPOLLOUT event leaves WRITE in the mode, so later
  bytes cause no EPOLL_CTL_MOD and wait with room in the socket (`RelayDrops.EarlyEventLosesWakeup`).
  Exactly those drops lose a wakeup that leave input unread with no new EPOLLIN event listed, or room
  unused with no new EPOLLOUT event listed (`RelayDrops.WakefulExactly`). Of these, the input drops
  are made good once the mode changes; a run stays clear of a stall, with everything quiet and bytes
  undelivered, exactly if it has no such drop of output (`RelayDrops.StallsExactly`). That is so for
  a kernel only known to report what is listed and still so. One that reports all that is so of a
  listed socket, as Linux does, makes up for such a drop while an EPOLLIN event is listed, and a run
  stays clear of a stall exactly if none happens with nothing listed at all
  (`RelayFrank.FrankStallsExactly`); `RelayFrank.ListedInputHelps` has a run of each kind.
* A pollable removed again while it still waits in `pending_remove_` loses one reference for good,
  because the set holds it once. `PollingLoss.AReferenceIsLost` is a run that does so. Adding it
  again right after its removal does not lead there, since EPOLL_CTL_ADD then fails
  (`PollingRuns.WhenStepsFail`); it takes an older pollable on the same descriptor, whose drain
  clears the registration in between. Only pollables added again while pending are affected
  (`PollingRuns.ReferencesConserved`), so a tie, whose ends are added once, is deleted once
  (`PollingRuns.TiesAreDeletedOnce`).
* A handler also uses the peer of its endpoint. While another thread is inside `shutdown`, the poll
  thread may have drained the leader and be about to handle the follower when `shutdown` gives up
  the leader's last reference: `PollingPeers.PeerDiesUnderHandler`. In every run in the order of
  `shutdown`, the peer of a pollable in the batch is deleted exactly if that happened since the last
  `epoll_wait` (`PollingPeers.WhenPeersDie`), which never returns a pollable with its peer deleted
  (`PollingPeers.WaitFindsPeer`); out of that order it does (`PollingPeers.OutOfOrderIsReturnedDead`).
  A follower never dies under its leader's handler (`PollingPeers.FollowersOutlive`).
* Two error events for the ends of one tie in one batch shut it down twice, and each end gives up a
  reference each time. An end has two once it is registered, its creator's and the poll thread's, so
  the second event deletes it while `pending_remove_` still lists it. This happens exactly if two
  events of the batch have errors for ends that are `ready()` (`EndPoints.Dispatch`,
  `Batches.ErrorsCounted`).

## Model

| member | source | states |
|---|---|---|
| D3DesCorrect.EngineRefinesFips | d3des.c:74-406 | for every key and block, the bytes `rfbDes` produces after `rfbDesKey` are FIPS 46-3 enciphering (EN0) or deciphering (DE1) under the sixty-four bits k whose bit i is bit 7 - i % 8, from the left, of key byte i / 8 |
| D3DesCorrect.DecipheringInverts | d3des.c:86-90 | for every key, deciphering undoes enciphering and enciphering undoes deciphering, on every block of bytes |
| D3DesCorrect.ComplementationOfBytes | d3des.c:81-127 | the complemented block under the complemented key gives the complemented result |
| D3DesCorrect.KeyRegisterHoldsSchedule | d3des.c:74-130 | the cooked register holds the standard's sixteen round keys, in order for EN0 and reversed for DE1 |
| D3DesCorrect.DoubleRoundsAreRounds | d3des.c:359-384 | n passes of the loop, on halves held one bit to the left, are 2n rounds of the standard |
| D3DesCorrect.DesWordsIsCipher | d3des.c:333-406 | desfunc with any schedule in cooked form is the standard's cipher with that schedule |
| D3DesCorrect.VncKeyIsMirrored | d3des.c:46-47 | the key bits the engine takes are those of each byte from the right |
| D3DesCorrect.ByteIsItsBits | d3des.c:161-173 | a byte is the number its eight bits write, most significant first |
| D3DesCorrect.HighBitsIgnored | d3des.c:59-63 | keys that agree in the low seven bits of each byte give the same register |
| D3DesCorrect.ScrunchIsWords | d3des.c:161-173 | scrunch reads the eight bytes, most significant bit first, as two words |
| D3DesCorrect.UnscrunWords | d3des.c:175-187 | unscrun writes the bits of the two words back in that order |
| D3DesRefinesFips.OpeningLeft | d3des.c:339-357 | the opening ladder is the initial permutation with the left half rotated by one |
| D3DesRefinesFips.OpeningRight | d3des.c:339-357 | and its right half likewise |
| D3DesRefinesFips.ClosingLeft | d3des.c:386-404 | the closing ladder with its swapped store is the final permutation of rotated halves, left word |
| D3DesRefinesFips.ClosingRight | d3des.c:386-404 | and the right word |
| D3DesRefinesFips.FvalIsCipherFunction | d3des.c:359-384 | the eight table entries or-ed together are the cipher function P(S(E(R) xor K)), rotated like the half |
| D3DesRefinesFips.OddFieldBits | d3des.c:360-361 | the rotated half xor the first cooked word has the inputs of selection functions 1, 3, 5 and 7 as its fields |
| D3DesRefinesFips.EvenFieldBits | d3des.c:366 | the half xor the second cooked word has those of 2, 4, 6 and 8 |
| D3DesRefinesFips.Sp1Merged | d3des.c:189-205 | SP1 is selection function 1 followed by P, rotated by one, at every index |
| D3DesRefinesFips.Sp2Merged | d3des.c:207-223 | the same for SP2 |
| D3DesRefinesFips.Sp3Merged | d3des.c:225-241 | the same for SP3 |
| D3DesRefinesFips.Sp4Merged | d3des.c:243-259 | the same for SP4 |
| D3DesRefinesFips.Sp5Merged | d3des.c:261-277 | the same for SP5 |
| D3DesRefinesFips.Sp6Merged | d3des.c:279-295 | the same for SP6 |
| D3DesRefinesFips.Sp7Merged | d3des.c:297-313 | the same for SP7 |
| D3DesRefinesFips.Sp8Merged | d3des.c:315-331 | the same for SP8 |
| D3DesKeySchedule.Pc1Agrees | d3des.c:59-63 | the pc1 table is the standard's permuted choice 1 |
| D3DesKeySchedule.Pc2Agrees | d3des.c:68-72 | the pc2 table is the standard's permuted choice 2 |
| D3DesKeySchedule.SelectedIsPc1 | d3des.c:81-85 | the first loop computes permuted choice 1 of the mirrored key |
| D3DesKeySchedule.TotalRotation | d3des.c:65-66 | totrot is the running sum of the standard's left shifts |
| D3DesKeySchedule.CdByTotal | d3des.c:91-100 | iterating the standard's shifts is one rotation by the total |
| D3DesKeySchedule.RotatedIsCd | d3des.c:91-100 | so the index arithmetic of round i yields C and D of that round |
| D3DesKeySchedule.RawIsTwentyFour | d3des.c:101-104 | the bigbyte loop packs 24 selected bits into a word |
| D3DesKeySchedule.CookTwentyFours | d3des.c:110-127 | cookey regroups a round's two words into its eight six-bit fields, losing none |
| D3Des.Engine.DesKey | d3des.c:74-108 | the loops over local arrays leave the key register the specification says |
| D3Des.SelectKeyBits | d3des.c:81-85 | the loop fills pc1m with the selected bits |
| D3Des.RotateHalves | d3des.c:91-100 | the two loops fill pcr with both halves rotated by totrot[i] |
| D3Des.PackKeys | d3des.c:101-104 | the loop ors the chosen bits into the pair of words and leaves the others alone |
| D3Des.Engine.Cookey | d3des.c:110-130 | the register becomes the cooked form of the raw words |
| D3Des.Engine.UseKey | d3des.c:141-148 | the register is loaded word by word |
| D3Des.Engine.CPKey | d3des.c:132-139 | the register is copied out and kept |
| D3Des.Engine.Des | d3des.c:150-159 | eight bytes become their image under the register, also when the blocks overlap; other bytes stay |
| D3Des.Engine.Desfunc | d3des.c:333-406 | the loop of eight double rounds between the ladders overwrites the block with the cipher's words |
| D3Des.ScrunchInto | d3des.c:161-173 | four bytes to a word, most significant first |
| D3Des.UnscrunInto | d3des.c:175-187 | the words back into eight bytes in place |
| D3DesWide.WidthIndependence | d3des.c:150-187 | with 64-bit words and junk above bit 31, the eight output bytes are those of the 32-bit run, for every block and register |
| D3DesWide.OpeningAgrees | d3des.c:339-357 | the wide opening ladder leaves no junk |
| D3DesWide.RoundsAgree | d3des.c:359-384 | the rounds agree in their low words whatever the register's high words hold |
| D3DesWide.ClosingAgrees | d3des.c:386-404 | the junk of the unmasked shifts stays above bit 31 |
| D3DesAnyTables.ReversedRegisterInverts | d3des.c:333-406 | for any contents of the SP tables, desfunc under the pairwise reversed register undoes desfunc |
| D3DesAnyTables.DecipherRegisterIsReversed | d3des.c:86-90 | the DE1 register is the EN0 register with its sixteen pairs reversed |
| D3DesAnyTables.LaddersInvert | d3des.c:339-404 | each ladder is the inverse of the other on exchanged halves |
| Fips46Laws.DecipherInvertsEncipher | d3des.c:57 | in the standard the code cites, deciphering inverts enciphering both ways |
| Fips46Laws.Complementation | d3des.c:57 | the standard's complementation property |
| Fips46Laws.ScheduleIgnoresEighthBits | d3des.c:57 | the standard's key schedule ignores the eighth bit of every byte |
| Fips46Laws.RowsArePermutations | d3des.c:189-331 | every row of the eight selection functions, from which the SP tables come, holds each of the sixteen numbers once |
| D3DesKnown.ZeroKeyAnswer | d3des.c:333-406 | the zero block under the zero key becomes 8ca64de9 c1b123a7, the known answer |
| D3DesKnown.ZeroBytes | d3des.c:333-406 | and so it does in the engine |
| Marshalling.Chunk.constructor | marshal.h:35-39 | an empty chunk of at least the minimum size |
| Marshalling.Chunk.Copy | marshal.h:44-49 | a chunk holding a copy of a buffer |
| Marshalling.Chunk.SetBookmark | marshal.h:66-78 | reserves the next byte |
| Marshalling.Chunk.Write | marshal.h:80-94 | appends what fits |
| Marshalling.Chunk.Read | marshal.h:96-109 | takes what is there, up to n, and advances |
| Marshalling.Chunk.Peek | marshal.h:111-120 | copies without advancing |
| Marshalling.Chunk.WriteToFd | marshal.h:122-135 | hands the content to one write and drops what it took; the call is recorded with what it moved |
| Marshalling.Chunk.ReadFromFd | marshal.h:137-151 | fills the free space from one read; the call is recorded with what it moved |
| Marshalling.Chunk.ReadFromChunk | marshal.h:153-177 | moves as many bytes as both chunks and n allow |
| Marshalling.Marshal.constructor | marshal.h:224-226 | an empty queue |
| Marshalling.Marshal.FromString | marshal.h:227-230 | a queue that starts with the bytes of a string |
| Marshalling.Marshal.Write | marshal.cc:47-66 | appends all n bytes, counts them, and keeps the invariant |
| Marshalling.Marshal.Read | marshal.cc:68-91 | removes and returns exactly the first min(n, size) bytes, across chunks |
| Marshalling.Marshal.Peek | marshal.cc:93-116 | returns that prefix and leaves the queue as it is |
| Marshalling.Marshal.WriteToFd | marshal.cc:118-138 | sends a prefix in order; content is left only if the last write of this call was refused, and a descriptor with room for k bytes that takes what it can gets the first k, or all |
| Marshalling.Marshal.ReadFromFd | marshal.cc:196-214 | appends the bytes the reads delivered, in order, and stops only after a read of this call that moved none; a descriptor that yields what it has is left empty |
| Marshalling.Marshal.Dump | marshal.cc:140-148 | the whole content |
| Marshalling.Marshal.ReadFromMarshal | marshal.cc:150-194 | moves exactly min(n, size of m) bytes from the front of m to the back of this, whether chunks are handed over or copied; both stay well formed and share nothing |
| Marshalling.Marshal.MoveSome | marshal.cc:155-188 | one turn of that loop moves a prefix, and either m loses a chunk or at least one byte moves, or m was empty |
| Marshalling.Marshal.TransferHead | marshal.cc:161-170 | handing over the head chunk moves just its bytes |
| Marshalling.Marshal.ContentSizeGt | marshal.cc:216-227 | stops early, and answers whether the size exceeds any given integer |
| Marshalling.Marshal.ContentSize | marshal.cc:229-235 | the number of bytes |
| Marshalling.Marshal.Empty | marshal.h:262-264 | whether there are none |
| Marshalling.Marshal.SetBookmark | marshal.cc:19-37 | reserves bytes behind the content, across chunks if need be, and remembers where each is |
| Marshalling.Marshal.WriteBookmark | marshal.cc:39-45 | replaces exactly the reserved bytes, wherever they are stored, and nothing else |
| Marshalling.WriteFramed | marshal.cc:19-66 | bookmark, any series of writes, write_bookmark: the content is the old content, the header, the payload, and the counter gives the payload's length |
| Marshalling.Marshal.WriteMarked | marshal.cc:47-66 | a write moves no reserved byte |
| Marshalling.Marshal.GetWriteCounterAndReset | marshal.h:239-243 | the bytes written since the last call |
| Serializing.RoundTrip | marshal.h:283-397 | for every nested value, parsing its encoding followed by any bytes gives the value back and leaves those bytes |
| Serializing.RoundTripAll | marshal.h:303-321 | the same for the elements of a vector or list |
| Serializing.RoundTripEntries | marshal.h:323-331 | the same for a map, whose entries arrive in key order |
| Serializing.AssignAtEnd | marshal.h:385-397 | storing a key beyond all others appends the entry |
| Serializing.AssignIsUpdate | marshal.h:394 | storing under any key of an ordered map keeps it sorted, maps the key to the value and leaves every other key's value alone; an equivalent key already there stays |
| Serializing.WireOrder32 | marshal.h:283-286 | the four bytes of a number write it, the lowest first |
| Serializing.WireOrder64 | marshal.h:288-296 | the eight bytes write the low half and 2^32 times the high half |
| Serializing.StringOnWire | marshal.h:298-301 | a string goes out as its length and its bytes |
| Serializing.ElementOnWire | marshal.h:303-321 | a vector or list goes out as its length and its elements, each behind those before it |
| Serializing.EntryOnWire | marshal.h:323-331 | a map goes out as its size and its entries in order, key before value |
| Serializing.Put | marshal.h:283-331 | the statements of << append exactly the encoding to the queue |
| Serializing.PutAll | marshal.h:303-321 | the container loop appends the elements' encodings |
| Serializing.PutEntries | marshal.h:323-331 | the map loop appends key and value of each entry |
| Serializing.Get | marshal.h:333-397 | the statements of >> agree with the parser on value, bytes left and abort, however the bytes are split into chunks |
| Serializing.GetAll | marshal.h:358-383 | the container loop agrees with the parser |
| Serializing.GetEntries | marshal.h:385-397 | the map loop agrees with the parser |
| Serializing.PutThenGet | marshal.h:283-397 | writing a value and then other bytes to a real queue, and reading off what was there and the value, returns both and leaves the other bytes |
| PollingRuns.ReferencesConserved | polling.cc:205-277 | after every run, the count is what clients hold plus one for each add under way, table, remove under way and drain list the pollable is in, plus the references lost; none is lost by a pollable never added again while pending, as one added once is |
| PollingRuns.TiesAreDeletedOnce | vncproxy.cc:94-113 | two pollables added once each, removed, drained and let go by their clients, are each deleted once and drained once, whatever the order of close and remove |
| PollingRuns.DrainedBeforeDeleted | polling.cc:154-194 | at every point of a run, a pollable added once over the whole run that is deleted by then was drained exactly once by then |
| PollingRuns.OnlyReaddedAreLost | polling.cc:258-277 | no run loses a reference to a pollable that is not added again while pending |
| PollingRuns.OnceIsNotAgain | polling.cc:205-221 | a pollable added once is never added again while pending |
| PollingRuns.AddInOne | polling.cc:205-256 | the steps of an undisturbed add() from a calm state run, and come to one reference, one entry in each table and one registration |
| PollingRuns.RemoveInOne | polling.cc:258-277 | the steps of an undisturbed remove() run, and move the pollable to pending_remove_ |
| PollingLoss.AReferenceIsLost | polling.cc:160-191 | a run from the start, failing no verify, at whose end one reference of a pollable belongs to nobody |
| PollingPeers.WhenPeersDie | vncproxy.cc:94-113 | in every run that gives up the last client reference to q only after p is closed, while p is in the batch its peer q is deleted if and only if, since the last epoll_wait, a client gave up the last reference to q with the poll thread holding none |
| PollingPeers.WaitFindsPeer | vncproxy.cc:94-113 | with the peer let go of only after the end is closed, epoll_wait never returns an end whose peer is deleted |
| PollingPeers.FollowersOutlive | vncproxy.cc:94-113 | in every run in which the leader is closed before its follower is removed, and the follower is added before it is let go of, the follower is alive while its leader is in the batch |
| PollingPeers.PeerDiesUnderHandler | vncproxy.cc:94-113 | a run, in the order of shutdown, in which a follower is about to be handled and its leader has just been deleted by a shutdown on another thread |
| PollingPeers.OutOfOrderIsReturnedDead | vncproxy.cc:62-73 | with the peer let go of before the end is closed, a run whose epoll_wait returns an end with its peer deleted |
| PollingRuns.ReclamationIsDeferred | polling.cc:135-194 | after every run, each pollable in the batch, poll_set_, pending_remove_, the drain list or a call under way has a count of at least one |
| PollingRuns.DeletedOnce | utils.h:102-118 | a pollable is deleted at most once, exactly when its count is zero, and, unless added again while pending, only after every registration was drained |
| PollingRuns.DeletedInTheEnd | polling.cc:154-194 | when everybody let go of it, it is deleted if and only if no reference was lost, and so if it was not added again while pending |
| PollingRuns.KernelAgreesWithMode | polling.cc:213-253 | mode_ has just the descriptors of poll_set_, no two members share one, and the kernel's registration of a reader is the one mode_ records |
| PollingModes.ModeIsLastAsked | polling.cc:205-356 | after every run that did not fail, mode_ has for each member of poll_set_ the mode the last add() or update_mode() of it asked for, and the kernel watches for output exactly if that mode has WRITE |
| PollingModes.StepInForce | polling.cc:205-356 | every step keeps the mode in force the one last asked for |
| PollingRuns.DrainSparesTheRegistered | polling.cc:160-191 | draining never unregisters a member of poll_set_, and leaves no event to come for the pollable it releases |
| PollingRuns.WhenStepsFail | polling.cc:205-290 | in every reachable state, the exact condition under which a verify or assert fails |
| PollingRuns.Ledger | polling.cc:205-277 | over any run, what the tables hold plus drains and losses is what they held plus registrations, and deletions match counts reaching zero |
| PollingRuns.StepCoherent | polling.cc:94-356 | every step that does not fail keeps all table invariants |
| PollingRuns.StepDead | utils.h:102-118 | a step kills a pollable only by the release that reaches zero, and never revives one |
| PollingRuns.StepKnown | polling.cc:154-277 | the poll thread's holdings of a pollable change by registrations, drains and losses only |
| PollingSafety.AddBalance | polling.cc:205-221 | each part of add() moves one reference and drops none |
| PollingSafety.ChangeBalance | polling.cc:258-277 | remove() passes the set's reference on, unless the pollable is pending already |
| PollingSafety.LoopBalance | polling.cc:154-194 | the loop passes references from pending_remove_ to the list and releases each once |
| PollingSafety.WorldBalance | utils.h:102-118 | clients' copies and releases keep the balance |
| PollingSafety.AddWatched | polling.cc:205-256 | after each part of add(), the kernel hands back only pollables the thread holds |
| PollingSafety.ChangeWatched | polling.cc:258-356 | the same for remove() and update_mode() |
| PollingSafety.LoopWatched | polling.cc:124-194 | the same for the loop, and the batch holds only such pollables |
| PollingSafety.WorldWatched | polling.cc:160-191 | the same when descriptors are opened, closed and reused |
| PollingSafety.AddAgreed | polling.cc:245-253 | add() leaves mask and mode in agreement |
| PollingSafety.ChangeAgreed | polling.cc:279-356 | so do update_mode(), which calls epoll_ctl only for a changed mode, and remove() |
| PollingOrderly.OrderlyRunsSucceed | polling.cc:205-356 | with removal before close and no re-adding of a pollable still known, no run fails, none loses a reference, and each pollable is in one place at most |
| PollingOrderly.ClosingFirstFails | vncproxy.cc:94-96 | from every state with a registered descriptor, closing it first and reusing the number ends in a failed verify |
| PollingOrderly.ClosingFirstHappens | vncproxy.cc:94-96 | a concrete run from the start that does so |
| PollThreads.RefCounted.constructor | utils.h:97-100 | a new object has one reference |
| PollThreads.RefCounted.RefCopy | utils.h:102-107 | one reference more |
| PollThreads.RefCounted.Release | utils.h:109-118 | the count goes down by one, deletion happens at zero, and the verify holds for a positive count |
| PollThreads.PollThread.Make | utils.h:97-100 | a new object enters the table with one reference, its client's, and the history gains that step |
| PollThreads.PollThread.Copy | utils.h:102-107 | a client's ref_copy is its step |
| PollThreads.PollThread.Release | utils.h:109-118 | a client's release is its step, fails no verify, and deletes the object exactly if the protocol says so |
| PollThreads.PollThread.Open | vncproxy.cc:196-206 | a new descriptor changes none of the tables |
| PollThreads.PollThread.Close | vncproxy.cc:94-95 | closing a descriptor takes it from the epoll instance and from none of the tables |
| PollThreads.PollThread.Enlist | polling.cc:211-221 | add()'s critical section is one step; it fails exactly if the pollable is a member or its number is taken, and otherwise adds both entries |
| PollThreads.PollThread.Add | polling.cc:205-256 | the fields after add() are the state after its three steps: one member, its mode, and a registration for input, and output if the mode has WRITE; or the process ended at the step that failed, and when that is |
| PollThreads.PollThread.Remove | polling.cc:258-277 | the fields after remove() are the state after its steps: out of both tables and pending if found, and nothing changed if not |
| PollThreads.PollThread.UpdateMode | polling.cc:279-356 | the fields after update_mode() are the state after its step: the mode asked for in mode_ and, if it is another than before, in the kernel; nothing for a stranger; and exactly when it fails |
| PollThreads.PollThread.TakePending | polling.cc:155-158 | the drain's first critical section lists each pending pollable once and clears the set, as one step |
| PollThreads.PollThread.Drain | polling.cc:154-194 | the drain loop takes a forget and a release step for each pending pollable, once; the kernel drops exactly those of their descriptors that are not registered again, and no verify can fail |
| Relaying.NoLostWakeup | vncproxy.cc:62-88 | if no event is dropped while it matters, and so if none is dispatched before ready(), then with the handlers at rest unsent bytes have WRITE in the mode and their event under way unless the socket is full, and unread input has its event under way |
| Relaying.DeliveryIsAPrefix | vncproxy.cc:62-88 | in every run, bytes sent then bytes buffered are the bytes received from the other side, so what is delivered is a prefix of what arrived |
| Relaying.QuietMeansDelivered | vncproxy.cc:62-88 | when nothing is left to dispatch and both sockets have room, all that arrived was sent, unless an EPOLLOUT event was dropped while it mattered |
| Relaying.NoDropsNoHarm | vncproxy.cc:132-134 | being ready() before the first dispatch is enough for both of these |
| RelayDrops.WakefulExactly | vncproxy.cc:62-78 | every state of a run has its wakeups under way if and only if no dropped EPOLLIN event left input unread with no new EPOLLIN event listed, and no dropped EPOLLOUT event left room unused with no new EPOLLOUT event listed |
| RelayDrops.StallsExactly | vncproxy.cc:75-78 | with a kernel only known to report what is listed and still so, no state of a run can go on to a stall, everything quiet and something undelivered, if and only if no dropped EPOLLOUT event left room unused with no new EPOLLOUT event listed |
| RelayDrops.LostOutputMayStall | vncproxy.cc:156-167 | with that kernel, after every such drop, in any reachable state, there is a run to a stall with both endpoints ready() |
| RelayDrops.NeverStalls | vncproxy.cc:62-88 | from a state with its output awaited no run without such drops stalls |
| RelayDrops.EarlyInputIsLost | vncproxy.cc:62-65 | a concrete run in which an EPOLLIN event before ready() leaves input unread and no event under way |
| RelayDrops.EarlyEventLosesWakeup | vncproxy.cc:156-167 | a concrete run in which an EPOLLOUT event before ready() leaves bytes behind with nothing to wake anybody |
| RelayFrank.FrankStallsExactly | vncproxy.cc:75-78 | with a kernel that reports all that is so of a listed socket, no state of a run can go on to a stall if and only if no dropped EPOLLOUT event left room unused with nothing at all listed |
| RelayFrank.LostAllMayStall | vncproxy.cc:156-167 | with that kernel, after every such drop, in any reachable state, there is a run to a stall |
| RelayFrank.NeverStallsFrankly | vncproxy.cc:62-88 | from a state with something listed for every end with room and WRITE in its mode, no run of that kernel without such drops stalls |
| RelayFrank.StepListsOutput | polling.cc:294-351 | with that kernel a step leaves room and WRITE in the mode with no event of any kind under way exactly if it drops an EPOLLOUT event with nothing listed |
| RelayFrank.ListedInputHelps | vncproxy.cc:156-167 | a run of tie_fd whose dropped EPOLLOUT event nothing makes up for, and one in which an arrival does with that kernel and not with the other |
| RelayProgress.EveryScheduleDelivers | vncproxy.cc:62-88 | after every run that dropped no EPOLLOUT event with room in the socket and no new one listed, with both endpoints running, every schedule of handlers and poll threads, whatever epoll_wait reports of the sockets on its list, is bounded by the work left, and where it can go no further everything that arrived was delivered |
| RelayProgress.StepWorks | vncproxy.cc:62-88 | every step of a handler, and every return of epoll_wait for a listed socket, whatever it reports, lowers the work left |
| RelayProgress.NextIsEnabled | vncproxy.cc:62-88 | while anything is undelivered and both sockets have room, some such step can be taken: the locks and the mode never stand in the way |
| RelayProgress.SchedulesEnd | vncproxy.cc:62-88 | a schedule keeps the invariants, and its length is paid for by the work it does |
| RelayProgress.DeliveryCompletes | vncproxy.cc:62-88 | in particular, after every such run some schedule delivers everything, also with epoll_wait reporting all that is so |
| EndPointSteps.ReadInSteps | vncproxy.cc:62-73 | a call of handle_read over the real queue takes BeginRead, what it read and EndRead, always on a socket that yields what it has, and on any if its last read found no more input |
| EndPointSteps.WriteInSteps | vncproxy.cc:75-88 | a call of handle_write takes BeginWrite, what it sent, a refused write exactly if bytes are left, and EndWrite, if bytes go only into a socket with room, as they do on one that takes what it has room for |
| EndPointSteps.ReadInOne | vncproxy.cc:62-73 | the steps of one read come to all input moved to the peer and WRITE in its mode |
| EndPointSteps.WriteInOne | vncproxy.cc:75-88 | the steps of one write come to what was sent and the mode by what is left |
| Relaying.StepInterested | polling.cc:294-351 | no step leaves unsent bytes without WRITE in the mode or somebody about to put it there |
| Relaying.StepAwaitsOutput | polling.cc:294-351 | a step leaves WRITE in the mode and room in the socket without an event under way exactly if it drops the last EPOLLOUT event |
| Relaying.StepAwaitsInput | marshal.cc:196-214 | a step leaves unread input without an event under way exactly if it drops the last EPOLLIN event |
| Relaying.StepRecovers | polling.cc:294-351 | unread input always has an event under way, or WRITE in the mode, whose removal brings one |
| EndPoints.EndPoint.HandleRead | vncproxy.cc:62-73 | the socket is read until a read of this call moves nothing, a prompt one until it is empty; the bytes go to the back of the peer's queue, WRITE is asked for only if there were any, and the stream stays whole |
| EndPoints.EndPoint.HandleWrite | vncproxy.cc:75-88 | a prefix of the queue is sent, a prompt socket getting all it has room for; WRITE stays in the mode exactly if bytes are left, which takes a write refused in this call, and the stream stays whole |
| EndPoints.Dispatch | polling.cc:135-150 | a batch is dispatched as the trail of its handlers' calls, each with its effect on both ends; so both directions stay whole, every socket with an input event runs dry, what the queue of an end with an output event held is sent unless a write was refused, the last output event leaves its queue empty or its socket full, and errors shut the tie down, each end giving up one reference for each error event of an end that is ready() |
| Batches.TrailHandles | polling.cc:135-150 | these consequences, for every sequence of events and whatever the sockets move |
| Batches.OutputStands | polling.cc:142-144 | what the queue of an end held at any output event of the batch has been sent in the end, unless a write was refused since that event |
| Batches.InputRunsDry | polling.cc:139-141 | after an input event anywhere in the batch, the socket's last read found nothing, and a prompt socket is empty |
| Batches.CallsAre | polling.cc:135-150 | a handler is called if and only if some event of the batch asks for it |
| Batches.ClosingsAreErrors | polling.cc:146-149 | the calls that shut the tie down are the error events of ends that are ready() |
| Batches.ErrorsCounted | polling.cc:146-149 | the references each end gives up in a batch, counted event by event, are more than one exactly if two of its events have errors for ends that are ready() |
| EndPoints.Handle | polling.cc:139-149 | one event's handlers: input, then output, then error, each with its effect on both ends, and nobody else's mode changes |
| EndPoints.TieFd | vncproxy.cc:156-167 | two fresh open endpoints, tied, with empty queues, registered for READ and WRITE, enabled, with two references each, and one entry in the registry under the key the leader remembers |
| EndPoints.PollMgr.Add | polling.cc:205-219 | the endpoint is registered for READ and WRITE and gains a reference |
| EndPoints.EndPoint.constructor | vncproxy.cc:42-45 | an endpoint with an empty queue, one reference, no peer, not ready |
| EndPoints.EndPoint.Ready | vncproxy.cc:132-134 | events are handled from now on |
| EndPoints.EndPoint.Tie | vncproxy.cc:51-60 | each is the other's peer, one leads, and the registry gains its entry |
| EndPoints.EndPoint.Shutdown | vncproxy.cc:94-113 | a leader closes and removes both ends, each gives up one reference, and one registry entry goes |
| EndPoints.EndPoint.HandleError | vncproxy.cc:115-126 | whichever end fails, the whole tie is shut down through its leader; nothing happens before ready() |
| TieCleanup.Cleanup | vncproxy.cc:136-149 | both ends of every tie under a key no longer valid are closed, off the poll manager and one reference poorer; the other ties are as they were; the registry is the others, in their order |
| TieCleanup.WithoutFirstOutlier | vncproxy.cc:101-106 | erasing the first invalid entry keeps the valid ones and the other invalid ones |
| TieCleanup.CollectOutliers | vncproxy.cc:137-144 | the loop collects exactly the entries under invalid keys, in order |
| EndPoints.TieLeaders.Erase | vncproxy.cc:100-107 | the loop drops the endpoint's own entry among those with an equal key |
| ThreadPoolRuns.DueJobsAreKeptInOrder | utils.cc:22-65 | at every moment, also during destruction, the jobs ahead of a queue's NULL are finished, running or queued, in submission order |
| ThreadPoolRuns.JobsAreKeptInOrder | utils.cc:46-65 | until the destructor starts, in every interleaving each queue's jobs are finished, running or queued, in submission order |
| ThreadPoolRuns.JoinedMeansDone | utils.cc:35-44 | when the joins are through, each worker has run just the jobs ahead of its NULL, once and in order |
| ThreadPoolRuns.NoJobIsLeftBehind | utils.cc:35-44 | every job submitted before the destructor started is among them |
| ThreadPoolRuns.LateJobsAreDropped | utils.cc:46-65 | all jobs ran if and only if none was pushed behind the NULL |
| ThreadPoolRuns.WorkersNeverStall | utils.cc:56-65 | during the joins no worker that has not exited is stuck |
| ThreadPoolRuns.StepSound | utils.cc:22-65 | every step keeps each lane in order and the NULLs where the destructor put them |
| ThreadPools.Queue.Push | utils.h:142-147 | appends |
| ThreadPools.Queue.Pop | utils.h:149-158 | removes the front |
| ThreadPools.ThreadPool.constructor | utils.cc:22-33 | n empty queues, no two the same |
| ThreadPools.ThreadPool.RunAsync | utils.cc:46-54 | the job goes to the back of one queue |
| ThreadPools.ThreadPool.RunThread | utils.cc:56-65 | the loop runs and deletes the jobs ahead of the NULL, in order, consumes the NULL, and touches nothing behind it |
| ThreadPools.ThreadPool.Destroy | utils.cc:35-44 | every worker ends with all jobs that were due |
| VncAuth.Choose | vncproxy.cc:292-320 | over the rows of the query, the first row with the right answer is chosen, and none if there is none |
| VncAuth.Callback | vncproxy.cc:292-320 | a row is taken exactly if nothing was matched yet and its answer is the response |
| VncAuth.AnswerIsFips | vncproxy.cc:299-309 | a response is right if and only if each half is FIPS 46-3 of that half of the challenge under the sixty-four bits k that hold each character's bits from the right, and zeros behind the last character |
| VncAuth.Padded | vncproxy.cc:301-302 | eight bytes: the key, and zeros behind it |
| VncAuth.AnswerDeciphers | vncproxy.cc:299-309 | equivalently, the key deciphers the response to the challenge |
| VncAuth.HighBitsDoNotDistinguish | vncproxy.cc:299-309 | keys that differ only in the characters' high bits have the same answer |

## Left out

- Sockets, address lookup, `connect_to`, `bind_on`, `main`, signals, logging, SQLite, the RFB handshake around the authentication, the kqueue branch, `Counter`, `NoCopy`, the insides of mutexes and condition variables: plumbing, or duplicates of what is modelled.
- `stop_flag_`, the end of a poll thread and its release of what is left in `poll_set_`: references still pending then are not released by the code.
- `PollMgr`'s choice of a thread by `fd % n_`: the model is one `PollThread` with the descriptors that go to it.
- A tie shut down twice or by two threads at once, and a shutdown racing `tie_fd`: the code does not order these. `Relay.dfy` covers a tie until its shutdown begins.
- D3Des.Engine.Desfunc: the ladders and the half-round are functions its loop calls, not statements on the two halves; their bodies follow the statements one by one.
- The validation sets at the end of d3des.c (lines 408-440): they are for keys read from the left of each byte, which `rfbDesKey` does not do, and for longer keys.
- D3DesWide.WidthIndependence: the 64-bit engine is a function of the register, without the arrays of the 32-bit one.
- Marshalling.Marshal.Write: a write of no bytes is allowed only where the code's assert allows it; sizes and counters do not overflow.
- Marshalling.Marshal.ReadFromMarshal: the two queues are distinct; reading from a queue into itself is excluded.
- Marshalling.Marshal.WriteBookmark: none of the reserved bytes has been read or moved to another queue.
- Serializing.Put: containers have fewer than 2^31 elements and every byte count fits an `int`.
- Serializing.Get: a length too large to allocate is not told apart from one that fits; the abort it may cause is the allocator's.
- EndPoints.EndPoint.HandleRead: handlers run one after the other here; their interleavings are in `Relay.dfy`, whose ready list and locks `EndPointSteps.dfy` takes as given.
- EndPoints.PollMgr.UpdateMode: keeps `mode_` only; what it does to the kernel's registration is in `PollThread.dfy` and `Relay.dfy`.
- EndPoints.Dispatch: what handlers do with an end that a second error event of the batch has deleted; the counts say when that is, and up to then the contract holds of the code.
- ThreadPools.ThreadPool.RunThread: a worker that finds its queue empty would wait; the method is called with the NULL in the queue, and waiting is in `ThreadPoolRuns.dfy`.
- ThreadPools.ThreadPool.Destroy: each worker runs when it is joined; all interleavings are in `ThreadPoolRuns.dfy`.
- VncAuth.Callback: keys have at most eight bytes; the code copies a longer one past its buffer.
