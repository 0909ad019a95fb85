# Verified models of the repository's protocols and algorithms

The repository is a collection of C programs about processes, threads and networking on Linux. This
project models those whose correctness is a matter of argument rather than of reading: protocols in which
any number of processes share memory, semaphores or a message queue, and two array algorithms. It proves
what every run of them keeps.

`dafny verify dfyconfig.toml` checks everything.

## How the models are built

- **A protocol** is a datatype `State`, one total function for each kind of process that executes its next
  statement, and `Exec`, which runs an arbitrary schedule of statements of arbitrary processes. A statement
  that would block leaves the state as it is. A theorem about `Exec(s0, schedule)` is a theorem about every
  reachable state under every interleaving. Constants of the programs (ring size, number of clients, size
  of a block, side of the square) are parameters.
- **The program** is a class beside it with the fields that the C code updates in place (arrays, indices,
  counters, semaphores) and one method for each statement or branch. Each method promises exactly the step
  function's effect on the old state and keeps the invariant.
- **History** fields (the order of writes, relay logs, counts of losses) say what happened; no step's
  choice depends on them.
- `hide F;` in a proof only keeps the verifier from unfolding `F` there.

| file | program |
|---|---|
| Spooler.dfy | 40_semaphore/sph_chats/sample_explained: clients and a print spooler around a ring of buffers with three semaphores; the spooler reads without the mutex |
| Handshake.dfy | 40_semaphore/sph_sv_cl: clients pass messages through one segment with multi-operation `semop` calls |
| Chat.dfy, Registration.dfy, Farewells.dfy, Impostor.dfy, ChatLiveness.dfy, Chatroom.dfy | 39_message_queue/mq_chats/task1.c and 40_semaphore/sph_chats/task2.c: the same chat over a System V queue and over slots in shared memory |
| Transports.dfy, SharedMailbox.dfy | what carries its messages: the queue and the slots, as whole calls and as interleaved statements of concurrent calls |
| SlotChat.dfy, SlotRuns.dfy, ChatOrder.dfy | the chat over the slots: the first empty slot in, the first one of the type out; who agrees on the order of the posts |
| ProducerConsumer.dfy | 44_high-load_server/producer_consumer/task4.c: request queue, services, reply queue, two replies for each request |
| ServicePool.dfy, IdleBlocks.dfy | 44_high-load_server/multyproc_pool/arc/task3.c: a pool of services that grows and shrinks by blocks |
| Shops.dfy, ShopRuns.dfy | 35_pthread_mutex/pthread_shops: buyers and a loader with `trylock` doors and a lock-free stop test |
| Checksum.dfy | 44_high-load_server/multyproc_pool/arc/sample_raw_udp_checksum: the Internet checksum, against RFC 1071 |
| Spiral.dfy | 11_arrays/ex04.c: the spiral fill of a square |
| Runs.dfy, Arithmetic.dfy, Counting.dfy, Filtering.dfy, Numerals.dfy, Marking.dfy | runs under a schedule, division, sums over processes, one type of message in a queue, decimal numbers, what a service does to a request |

## What turned out to be false, and when exactly it is true

- Two folds are not always enough for `csum`: they are for every buffer of a length if and only if the
  length is at most 131076 bytes (`Checksum.CorrectUpToLength`, with a failing buffer of every greater length).
- The spooler does not print in write order from every start: it never removes its semaphores, and a count of
  free slots left over from an earlier start lets clients claim slots before the ring is sized. Every run is
  in order, and every run can print all that is typed, if and only if nothing is left over or all lines fit into
  the ring (`Spooler.OrderKeptExactlyWithRoom`, `Spooler.AllCanBePrintedExactlyWithRoom`).
- The message types of the service pool do not stay apart for any number of clients. With at least one client,
  all runs with at most r refused connect replies route every message right if and only if n + R(n) <= 32766,
  where n is the number of clients plus r and R(n) is n rounded up to whole blocks
  (`ServicePool.RoutedExactlyWhenFitting`); for the program's block of 10 that is n <= 16380. A refused reply
  counts because the service that it announces stays busy for ever, so that without a bound on refusals two
  clients are enough (`ServicePool.RequestTakenForAnswer`).
- The handshake completes if and only if the clients' messages add up to what the server expects
  (`Handshake.CompletesExactlyWhenQuotasMatch`), and no client's `semop` fails if and only if they do not exceed it
  (`Handshake.SemopsSucceedExactlyWithinQuota`).
- The chat does not keep an order for everybody over shared memory: all clients agree in every run if and only if
  the messages go through the queue, or there is at most one slot, or there are at most two clients or two ids
  (`ChatOrder.AgreeExactly`, with a run in `ChatOrder.OrderMayDiffer`).
- The chat does not answer every registration: no request is ever dropped if and only if there are no clients, or
  nothing is refused and there is an id for every client (`Registration.NobodyTurnedAwayExactly`); over the slots
  if and only if there is an id for every client or no slot (`SlotRuns.NobodyTurnedAwayOverSlots`).
- A leave does not end only the client that leaves: it is told in the last poster's name, and a notice of a leave in
  the server's name ends its reader. With two clients and two ids nobody is sent away before the server stops, in any
  run whose leftover buffers do not hold the server's name, if and only if no client bears it
  (`Impostor.NobodyEndedEarlyExactly`, with a run in `Impostor.ImpostorEndsOthers`).
- A write into the shared mailbox does not always take effect: no run with at most w writes loses a writer if and
  only if there are at least w slots (`SharedMailbox.LostExactlyBeyondSize`), and a writer that is lost stays so
  with the mutex, so that no other call takes effect any more (`SharedMailbox.LostForGood`).
- A close undoes a connect if and only if the pool did not end in an idle block (`ServicePool.CloseUndoesConnect`):
  only one block goes for each close. In no run does the pool end so if and only if there are no more clients than
  a block has services (`IdleBlocks.IdleBlockGoesExactly`).
- In the producer-consumer program not every request is answered: a client waits for ever if and only if a send
  for it failed (`ProducerConsumer.WaitsForEverIffSendFailed`, with a run in `ProducerConsumer.OneRefusalIsEnough`).
- The test for USHRT_MAX on the `char` id in task4.c:637 never succeeds (`ProducerConsumer.ReplyIdMatches`).

## Model

| member | source | states |
|---|---|---|
| `Spooler.PrintsTheWriteOrder` | 40_semaphore/sph_chats/sample_explained/client.c:114-156 | If no free slots are left over from an earlier start or all lines fit into the ring: for any number of clients, any ring size from 1 and any interleaving, the output is a prefix of the lines in write order, whole, and at most one ring behind. |
| `Spooler.OrderKeptExactlyWithRoom` | 40_semaphore/sph_chats/sample_explained/spooler.c:93-101 | From any start, whatever the semaphores still count: every run prints in write order if and only if no free slots are left over or all lines fit into the ring. |
| `Spooler.LeftoverTearsOutput` | 40_semaphore/sph_chats/sample_explained/spooler.c:93-101 | In every other case a run: a client claims a slot before the ring is sized, the ring fills, one more write begins in the oldest unprinted slot, and the spooler prints that slot torn. |
| `Spooler.RefinesFifo` | 40_semaphore/sph_chats/sample_explained/client.c:126-152 | From a start with room, every step of every run is, on the abstract state, a put at the back of an unbounded queue, a get from its front, or invisible. |
| `Spooler.SlotsConserved` | 40_semaphore/sph_chats/sample_explained/spooler.c:91-117 | Once the ring is open, free + claimed + announced + in print is at least the ring size and at most that plus the leftover count, so equal to it after a fresh start; before that the mutex is closed and nothing is written. |
| `Spooler.IndicesFollowCounts` | 40_semaphore/sph_chats/sample_explained/spooler.c:144-146 | Both indices are the counts of completed writes and prints modulo the ring size whenever their owner is not between the two. |
| `Spooler.WritesDisturbNobody` | 40_semaphore/sph_chats/sample_explained/client.c:130-147 | Writers exclude each other from any start; with room a write leaves every unprinted line untouched, in particular the slot that the spooler reads without the mutex. |
| `Spooler.ClientLinesInOrder` | 40_semaphore/sph_chats/sample_explained/client.c:114-137 | What a process typed so far and still will is its input; its k-th written text is its k-th line without the newline at the end, if there is one; from a start with room so is the k-th text of it in the output. |
| `Spooler.StopsOnlyWhenAllIsPrinted` | 40_semaphore/sph_chats/sample_explained/spooler.c:133-152 | No deadlock: a reachable state in which no process can step is exactly one with no input left and as many slots printed as lines written; then the text of every line of every input is written, in order, and from a start with room the output is all these texts, whole and in order. |
| `Spooler.EveryRunCanFinish` | 40_semaphore/sph_chats/sample_explained/spooler.c:133-152 | Every run can be continued to such a state: from any start the texts of all input lines are written and as many slots printed, from a start with room all of them are printed. |
| `Spooler.AllCanBePrintedExactlyWithRoom` | 40_semaphore/sph_chats/sample_explained/spooler.c:133-152 | Every run can be continued until everybody is through and the output is the text of every input line, whole and in order, if and only if the start has room. |
| `Spooler.PrintShowsChange` | 40_semaphore/sph_chats/sample_explained/spooler.c:138 | From any state, whatever the clients do between the two halves of a print: the slot comes out as it was if it is the same at the end, and torn otherwise. |
| `Spooler.StepsPerLine` | 40_semaphore/sph_chats/sample_explained/spooler.c:126-153 | Every schedule contains at most 13 steps that do not block for each line that will ever be typed, besides the start-up. |
| `Spooler.WriterOwnsSlot` | 40_semaphore/sph_chats/sample_explained/client.c:126-137 | With room, a client inside the write finds `buffer_index` on a slot of the ring that holds no unprinted line. |
| `Spooler.ClientInv` | 40_semaphore/sph_chats/sample_explained/client.c:114-156 | Each client statement keeps the counting invariant over all program counters. |
| `Spooler.SpoolerInv` | 40_semaphore/sph_chats/sample_explained/spooler.c:91-153 | So does each start-up statement and each loop statement of the spooler. |
| `Spooler.CellIsMod` | 40_semaphore/sph_chats/sample_explained/client.c:139-142 | An index that is incremented and wrapped k times is k modulo the ring size. |
| `Spooler.System.ReadLine` | 40_semaphore/sph_chats/sample_explained/client.c:114-119 | `fgets`: takes the next line, or ends the loop; new state stated in full, invariant kept. |
| `Spooler.System.ClaimSlot` | 40_semaphore/sph_chats/sample_explained/client.c:126-128 | P on the free slots: takes one, or blocks at zero; new state stated in full, invariant kept. |
| `Spooler.System.Lock` | 40_semaphore/sph_chats/sample_explained/client.c:132-134 | P on the mutex; new state stated in full, invariant kept. |
| `Spooler.System.BeginWrite` | 40_semaphore/sph_chats/sample_explained/client.c:137 | first half of the `sprintf`: in bounds, tears only its own slot; new state stated in full, invariant kept. |
| `Spooler.System.FinishWrite` | 40_semaphore/sph_chats/sample_explained/client.c:137 | second half of the `sprintf`: the line is whole and joins the write order; new state stated in full, invariant kept. |
| `Spooler.System.AdvanceIndex` | 40_semaphore/sph_chats/sample_explained/client.c:139-142 | the index moves on and wraps; new state stated in full, invariant kept. |
| `Spooler.System.Unlock` | 40_semaphore/sph_chats/sample_explained/client.c:145-147 | V on the mutex; new state stated in full, invariant kept. |
| `Spooler.System.Announce` | 40_semaphore/sph_chats/sample_explained/client.c:150-152 | V on the strings to print; new state stated in full, invariant kept. |
| `Spooler.System.ResetIndices` | 40_semaphore/sph_chats/sample_explained/spooler.c:91 | Both indices zero; new state stated in full, invariant kept. |
| `Spooler.System.SizeRing` | 40_semaphore/sph_chats/sample_explained/spooler.c:99-101 | Free slots set to the ring size; new state stated in full, invariant kept. |
| `Spooler.System.ResetSignal` | 40_semaphore/sph_chats/sample_explained/spooler.c:109-111 | Strings to print set to zero; new state stated in full, invariant kept. |
| `Spooler.System.OpenMutex` | 40_semaphore/sph_chats/sample_explained/spooler.c:115-117 | Mutex set to one; new state stated in full, invariant kept. |
| `Spooler.System.AwaitString` | 40_semaphore/sph_chats/sample_explained/spooler.c:133-135 | P on the strings to print; new state stated in full, invariant kept. |
| `Spooler.System.BeginPrint` | 40_semaphore/sph_chats/sample_explained/spooler.c:138 | First half of the print: the index is in bounds; new state stated in full, invariant kept. |
| `Spooler.System.FinishPrint` | 40_semaphore/sph_chats/sample_explained/spooler.c:138 | Second half: what is printed is torn if the slot changed meanwhile; new state stated in full, invariant kept. |
| `Spooler.System.AdvancePrintIndex` | 40_semaphore/sph_chats/sample_explained/spooler.c:144-146 | The print index moves on and wraps; new state stated in full, invariant kept. |
| `Spooler.System.ReleaseSlot` | 40_semaphore/sph_chats/sample_explained/spooler.c:150-152 | V on the free slots; new state stated in full, invariant kept. |
| `Handshake.SegmentExclusive` | 40_semaphore/sph_sv_cl/sph_client.c:64-102 | sem0 + sem1 <= 1, at most one process touches the segment, and the server's no-wait decrement never fails. |
| `Handshake.ReadExactlyOnce` | 40_semaphore/sph_sv_cl/sph_server.c:88-118 | The server's log is the write log up to one pending message, whole; no write starts while a message is unread. |
| `Handshake.WritesAreSigned` | 40_semaphore/sph_sv_cl/sph_client.c:86 | In every run the writes of a client are exactly its messages 0, 1, 2 and so on, in that order, as many as it wrote, and nobody writes in another's name. |
| `Handshake.EachMessageOnce` | 40_semaphore/sph_sv_cl/sph_server.c:88-118 | The server reads no message twice and none that no client wrote, and each message of each client when the run is complete. |
| `Handshake.WritesTear` | 40_semaphore/sph_sv_cl/sph_client.c:86 | In every run the segment is torn while a client writes. |
| `Handshake.ReadShowsChange` | 40_semaphore/sph_sv_cl/sph_server.c:105 | From any state, whatever the clients do between the two halves of a read: the server logs what it read if the segment is the same at the end, and torn otherwise. |
| `Handshake.CompletesExactlyWhenQuotasMatch` | 40_semaphore/sph_sv_cl/sph_server.c:88-120 | A run that can go no further has delivered everything and finished everybody if and only if the clients' messages add up to what the server expects. |
| `Handshake.EveryRunCanComplete` | 40_semaphore/sph_sv_cl/sph_server.c:88-120 | Every run can be continued to an end, which is complete if and only if the quotas match. |
| `Handshake.MismatchedQuotas` | 40_semaphore/sph_sv_cl/sph_server.c:88-120 | Stuck with the server waiting if and only if the clients send too few; otherwise exactly the expected number is read. |
| `Handshake.NoSemopFailsUnlessOversubscribed` | 40_semaphore/sph_sv_cl/sph_client.c:80-101 | No client's `semop` ever fails when the clients send no more than expected; when the set is removed, all are through their loops. |
| `Handshake.SemopsSucceedExactlyWithinQuota` | 40_semaphore/sph_sv_cl/sph_client.c:80-101 | In no run does any client's `semop` fail if and only if the clients have no more messages than the server expects. |
| `Handshake.OversubscribedFails` | 40_semaphore/sph_sv_cl/sph_server.c:118-120 | With more, a run: the server reads what it expects and removes the set, and a client with one more message fails. |
| `Handshake.RunsAreFinite` | 40_semaphore/sph_sv_cl/sph_client.c:64-102 | A measure bounds the steps that do not block, for every schedule. |
| `Handshake.ClientInv` | 40_semaphore/sph_sv_cl/sph_client.c:64-102 | Each client statement keeps the invariant. |
| `Handshake.ServerInv` | 40_semaphore/sph_sv_cl/sph_server.c:88-120 | Each server statement keeps the invariant. |
| `Handshake.System.AcquireSegment` | 40_semaphore/sph_sv_cl/sph_client.c:68-84 | The atomic triple wait-for-zero, wait-for-zero, increment; fails on a removed set; new state stated in full, invariant kept. |
| `Handshake.System.StartWrite` | 40_semaphore/sph_sv_cl/sph_client.c:86 | First half of the write; new state stated in full, invariant kept. |
| `Handshake.System.FinishWrite` | 40_semaphore/sph_sv_cl/sph_client.c:86 | Second half of the write; new state stated in full, invariant kept. |
| `Handshake.System.PublishMessage` | 40_semaphore/sph_sv_cl/sph_client.c:90-101 | The atomic pair that hands the segment over; new state stated in full, invariant kept. |
| `Handshake.System.TakeMessage` | 40_semaphore/sph_sv_cl/sph_server.c:88-102 | The atomic pair that takes a message, or the removal after the last one; new state stated in full, invariant kept. |
| `Handshake.System.StartRead` | 40_semaphore/sph_sv_cl/sph_server.c:105 | First half of the read; new state stated in full, invariant kept. |
| `Handshake.System.FinishRead` | 40_semaphore/sph_sv_cl/sph_server.c:105 | Second half of the read: torn if the segment changed meanwhile; new state stated in full, invariant kept. |
| `Handshake.System.ReleaseSegment` | 40_semaphore/sph_sv_cl/sph_server.c:108-116 | The no-wait decrement: it always succeeds; new state stated in full, invariant kept. |
| `Chat.SameOrderForAll` | 39_message_queue/mq_chats/task1.c:291-305 | Two clients of the queue chat that both display two posts display them in the same order, under any interleaving, with failing sends and reused ids. |
| `Chat.ShownFollowsLog` | 39_message_queue/mq_chats/task1.c:423-433 | What a client displays is a subsequence of the server's relay log, names and texts included. |
| `Chat.LogInSendingOrder` | 39_message_queue/mq_chats/task1.c:291-300 | Through the queue, the relay log is a prefix of the posts in sending order, and each sender's own posts in it are a prefix of what it sent. |
| `ChatOrder.AgreeExactly` | 40_semaphore/sph_chats/task2.c:149-236 | All clients agree on the order of the posts in every run if and only if the messages go through the queue, or there is at most one slot, or there are at most two clients or two ids; a write takes the first empty slot and a read the first one of its type. |
| `ChatOrder.OrderMayDiffer` | 40_semaphore/sph_chats/task2.c:209-236 | With three clients, three ids and two slots or more, a run over the slots, never with more than two messages under way, in which two clients display the two posts of a third one in opposite orders. |
| `ChatOrder.OneSlotAgrees` | 40_semaphore/sph_chats/task2.c:149-156 | With one slot all clients agree in every run, because the chat then behaves as through the queue. |
| `ChatOrder.FewAgree` | 40_semaphore/sph_chats/task2.c:419-436 | With at most two clients or two ids, on a transport that refuses nothing, every post is displayed at most once, so that all agree in every run. |
| `SlotChat.RefinesChat` | 40_semaphore/sph_chats/task2.c:149-242 | Every run over the slots is a run of the chat, with a bag of messages under way that is what the slots hold: what is proved of the chat's runs holds over the slots. |
| `SlotChat.FullSlotsFreeze` | 40_semaphore/sph_chats/task2.c:149-176 | Whoever is about to send while all slots are full never gets any further, whatever happens next, and from then on nobody sends or receives anything. |
| `SlotRuns.NobodyTurnedAwayOverSlots` | 40_semaphore/sph_chats/task2.c:358-400 | Over the slots no run drops a request for an id if and only if there is an id for every client, or no slot at all. |
| `SlotRuns.RegisterAll` | 40_semaphore/sph_chats/task2.c:360-400 | With a single slot, or through the queue, as many clients as there are ids can register one after the other. |
| `ChatLiveness.RelayedCanBeDisplayed` | 39_message_queue/mq_chats/task1.c:296-305 | A run through the queue in which no copy was refused, nobody was sent away and the holders of the ids stay can be continued until every relayed post is displayed as often as it has recipients, once for each of them. |
| `ChatLiveness.StopEndsClients` | 39_message_queue/mq_chats/task1.c:345-360 | Once the server has stopped and none of its last notices was refused, every run can be continued until a client that is still there is ended by its notice. |
| `Farewells.ServerCanStop` | 39_message_queue/mq_chats/task1.c:225-360 | Every run can be continued until the server has stopped. |
| `Farewells.EachHolderToldOnce` | 39_message_queue/mq_chats/task1.c:264-360 | A whole loop over the ids sends, or is refused, exactly one message for each holder to be told and nothing for anybody else, whatever the clients do meanwhile: who joined, the post, who left in the name in the server's buffer, or that the server stops; each with its exact contents. |
| `Farewells.LeaveIsTold` | 39_message_queue/mq_chats/task1.c:318-326 | A leave that the server takes after a post is told to every id still taken, in the poster's name, with the name of a client that has left. |
| `Farewells.ReleaseFreesLeaver` | 39_message_queue/mq_chats/task1.c:311-316 | A leave frees the id of a client that has left, and no other. |
| `Farewells.LeaversHaveLeft` | 39_message_queue/mq_chats/task1.c:311-326 | In every run leave messages, and the leaves that the server tells, name clients that have left; while a post is relayed the server's buffer holds its sender's name. |
| `Farewells.SentAwayOnlyAtTheEnd` | 39_message_queue/mq_chats/task1.c:423-445 | In every run in which neither a client nor a leftover buffer bears the server's name, nobody is sent away, and no message that would is under way, before the server stops. |
| `Farewells.InterruptEndsClient` | 39_message_queue/mq_chats/task1.c:381-503 | An interrupted client is gone after at most four turns and, with an id, has sent its leave message. |
| `Farewells.QuitEndsClient` | 39_message_queue/mq_chats/task1.c:470-503 | So is one that quits, after two turns. |
| `Impostor.NobodyEndedEarlyExactly` | 39_message_queue/mq_chats/task1.c:318-326 | With two clients, two ids and something that carries a message: in no run without the server's name in a leftover buffer is anybody sent away before the server stops, if and only if no client bears its name. |
| `Impostor.ImpostorEndsOthers` | 39_message_queue/mq_chats/task1.c:318-326 | Otherwise a run: the impostor and another client register, the impostor posts and leaves, and the notice of it ends the other one. |
| `Chat.ExactlyOneCopy` | 40_semaphore/sph_chats/task2.c:419-436 | For each taken id other than the sender's a relayed post yields exactly one copy (under way, taken once, or refused), and none for anybody else; a lossless transport refuses none. |
| `Chat.IdConserved` | 40_semaphore/sph_chats/task2.c:360-405 | Each client id is in exactly one place: free, in the server's hands, in one ID_SET or OUT message, held by one client, or lost in a refused message; shared memory loses none. |
| `Chat.IdsNeverShared` | 40_semaphore/sph_chats/task2.c:556-560 | No two clients present hold the same id, and a held id is never free. |
| `Registration.AskingIsAnswered` | 39_message_queue/mq_chats/task1.c:389-418 | In every run the clients that asked for an id and have none are as many as the requests and ids under way and the requests that were dropped. |
| `Registration.TurnedAwayForGood` | 39_message_queue/mq_chats/task1.c:391-402 | A dropped request is dropped for good: in every continuation at least as many clients have asked and have no id, exactly as many once nothing is under way. |
| `Registration.NobodyTurnedAwayExactly` | 39_message_queue/mq_chats/task1.c:241-286 | In no run is a request dropped if and only if there are no clients, or the transport refuses nothing and there is an id for every client. |
| `Registration.PoolRunsOut` | 39_message_queue/mq_chats/task1.c:244-247 | With more clients than ids a run in which the last request finds the pool full. |
| `Registration.ApprovalRefused` | 39_message_queue/mq_chats/task1.c:260-262 | With a transport that may refuse, a run in which the approval is refused: the request is dropped and the id lost. |
| `Registration.IdsAreCounted` | 39_message_queue/mq_chats/task1.c:244-315 | In every run the taken ids are as many as are held, under way, in the server's hands or lost. |
| `Chat.ServerInv` | 39_message_queue/mq_chats/task1.c:225-341 | Each statement of the server keeps all invariants. |
| `Chat.ClientInv` | 39_message_queue/mq_chats/task1.c:381-503 | Each statement of a client keeps all invariants. |
| `Chat.ServerPlaces` | 39_message_queue/mq_chats/task1.c:244-324 | A server statement moves an id but never duplicates it or drops it. |
| `Chat.ClientPlaces` | 39_message_queue/mq_chats/task1.c:404-415 | So does a client statement. |
| `Chat.ServerAccounted` | 39_message_queue/mq_chats/task1.c:296-305 | The relay loop accounts for every recipient as it goes. |
| `Chat.ServerChannel` | 39_message_queue/mq_chats/task1.c:296-305 | Received copies followed by queued ones stay at ascending places of the log for each id. |
| `Numerals.AtoiDecimal` | 39_message_queue/mq_chats/task1.c:256-257 | `atoi` of the decimal text of an id gives the id back. |
| `Chatroom.Room.ReadCommand` | 39_message_queue/mq_chats/task1.c:229-234 | The quit command; new state stated in full, invariant kept. |
| `Chatroom.Room.ReceiveRegistration` | 39_message_queue/mq_chats/task1.c:239-241 | Takes a registration request, if there is one; new state stated in full, invariant kept. |
| `Chatroom.Room.AssignId` | 40_semaphore/sph_chats/task2.c:367-376 | The search loop finds the first free id and takes it; new state stated in full, invariant kept. |
| `Chatroom.Room.SendApproval` | 39_message_queue/mq_chats/task1.c:256-262 | Sends the id; without success nobody is told; new state stated in full, invariant kept. |
| `Chatroom.Room.AnnounceNext` | 39_message_queue/mq_chats/task1.c:268-277 | One round of the loop that tells the other ids; new state stated in full, invariant kept. |
| `Chatroom.Room.ReceivePost` | 39_message_queue/mq_chats/task1.c:291-293 | Takes a post, if there is one; new state stated in full, invariant kept. |
| `Chatroom.Room.RelayNext` | 40_semaphore/sph_chats/task2.c:424-436 | One round of the relay loop; new state stated in full, invariant kept. |
| `Chatroom.Room.ReceiveLeave` | 40_semaphore/sph_chats/task2.c:444-446 | Takes a leave message, if there is one; new state stated in full, invariant kept. |
| `Chatroom.Room.ReleaseId` | 40_semaphore/sph_chats/task2.c:449 | Frees the id; new state stated in full, invariant kept. |
| `Chatroom.Room.FarewellNext` | 40_semaphore/sph_chats/task2.c:452-458 | One round of the loop that tells who left; new state stated in full, invariant kept. |
| `Chatroom.Room.ClosingNext` | 40_semaphore/sph_chats/task2.c:472-478 | One round of the closing loop; new state stated in full, invariant kept. |
| `Chatroom.Room.ClientEntry` | 39_message_queue/mq_chats/task1.c:389-418 | Asks for an id once and looks for it; new state stated in full, invariant kept. |
| `Chatroom.Room.ClientDrain` | 39_message_queue/mq_chats/task1.c:423-463 | One round of the read loop; new state stated in full, invariant kept. |
| `Chatroom.Room.ClientInput` | 39_message_queue/mq_chats/task1.c:477-499 | Sends a typed line; new state stated in full, invariant kept. |
| `Chatroom.Room.ClientLeaves` | 39_message_queue/mq_chats/task1.c:503 | Gives the id back; new state stated in full, invariant kept. |
| `Transports.Mailbox.WriteMessage` | 40_semaphore/sph_chats/task2.c:128-180 | One whole call: adds exactly one message, in the first empty slot, and changes no other; if and only if all slots are full the writer is lost with the mutex and nothing else changes. |
| `Transports.Mailbox.ReadMessage` | 40_semaphore/sph_chats/task2.c:183-247 | Removes exactly one message of the asked type, from the first such slot, or reports an error exactly when there is none. |
| `Transports.Mailbox.FindEmpty` | 40_semaphore/sph_chats/task2.c:151-156 | The search loop finds the first empty slot, or none. |
| `Transports.Mailbox.FindUnread` | 40_semaphore/sph_chats/task2.c:209-236 | The search loop finds the first unread message of the type. |
| `Transports.Mailbox.constructor` | 40_semaphore/sph_chats/task2.c:310-333 | All slots start empty and the mutex opens last. |
| `Transports.EmptySlot` | 40_semaphore/sph_chats/task2.c:216-235 | Emptying a slot takes exactly its message out of the bag. |
| `SharedMailbox.RefinesAtomicMailbox` | 40_semaphore/sph_chats/task2.c:128-247 | With any number of processes and any interleaving of the statements of their calls, every step is invisible or one process's step on a bag in which calls take effect at once: one message in, one of the asked type out, or an error because there is none. |
| `SharedMailbox.CallsExclude` | 40_semaphore/sph_chats/task2.c:144-176 | At most one process is between taking the mutex and giving it back. |
| `SharedMailbox.LostExactlyBeyondSize` | 40_semaphore/sph_chats/task2.c:149-156 | No run with at most w writes loses a writer if and only if there are at least w slots. |
| `SharedMailbox.OneWriteTooMany` | 40_semaphore/sph_chats/task2.c:149-156 | A run with one write more than there are slots that loses a writer. |
| `SharedMailbox.LoadAtMostWrites` | 40_semaphore/sph_chats/task2.c:149-180 | In every run the full slots and the unfinished writes are together at most the writes that have begun. |
| `SharedMailbox.LostForGood` | 40_semaphore/sph_chats/task2.c:144-177 | A lost writer found all slots full, and in every continuation it is still lost, the mutex is closed, no slot changes, and everybody else is outside or waits; whoever waited still does. |
| `SharedMailbox.CallsTakeFirstSlot` | 40_semaphore/sph_chats/task2.c:149-169 | In every run, under any interleaving, a call that ends its copy fills the first empty slot or empties the first one of its type, and one that ends its search found none. |
| `SharedMailbox.CallAlone` | 40_semaphore/sph_chats/task2.c:144-177 | A call that nobody disturbs fills or empties the first slot that fits; with none a reader goes away empty-handed and a writer is lost. |
| `SharedMailbox.HalfWritten` | 40_semaphore/sph_chats/task2.c:158-169 | In every run a slot that is being written is not marked yet and lacks its text. |
| `SharedMailbox.ReadShowsChange` | 40_semaphore/sph_chats/task2.c:215-232 | From any state, whatever the others do between the two halves of a read: the message is taken as it was if it is the same at the end, and garbled otherwise. |
| `SharedMailbox.StepInv` | 40_semaphore/sph_chats/task2.c:203-242 | Each statement of a call keeps what the process inside relies on. |
| `SharedMailbox.System.Call` | 40_semaphore/sph_chats/task2.c:128 | A process begins a call; new state stated in full, invariant kept. |
| `SharedMailbox.System.Lock` | 40_semaphore/sph_chats/task2.c:144-146 | `semop` -1; new state stated in full, invariant kept. |
| `SharedMailbox.System.Search` | 40_semaphore/sph_chats/task2.c:151-168 | One round of a search loop and the first half of the copy; new state stated in full, invariant kept. |
| `SharedMailbox.System.Copy` | 40_semaphore/sph_chats/task2.c:169 | The second half of the copy, with the mark; new state stated in full, invariant kept. |
| `SharedMailbox.System.Unlock` | 40_semaphore/sph_chats/task2.c:175-177 | `semop` +1; new state stated in full, invariant kept. |
| `Transports.Queue.SendMessage` | 39_message_queue/mq_chats/task1.c:93-108 | Appends the message, or reports that the queue refused it. |
| `Transports.Queue.ReceiveMessage` | 39_message_queue/mq_chats/task1.c:120-138 | Takes the first message of the type, or reports an error exactly when there is none. |
| `ProducerConsumer.WaitCountsReplies` | 44_high-load_server/producer_consumer/task4.c:588-640 | In every run the wait counter equals the replies still to come of both kinds, over socket, both queues, services, server and socket buffer, plus those that a failed send made impossible; two are counted for each request. |
| `ProducerConsumer.NoStaleReplies` | 44_high-load_server/producer_consumer/task4.c:588-640 | When a client may send again, nothing of an earlier request is left anywhere, whatever failed before. |
| `ProducerConsumer.WaitsInVainIffLost` | 44_high-load_server/producer_consumer/task4.c:480-534 | Once nothing of a client is under way it still waits if and only if a send for it failed in the run. |
| `ProducerConsumer.WaitsForEverIffSendFailed` | 44_high-load_server/producer_consumer/task4.c:480-534 | With at least one service: a client waits in every continuation of a run if and only if a send for it has failed; otherwise some continuation serves it. |
| `ProducerConsumer.OneRefusalIsEnough` | 44_high-load_server/producer_consumer/task4.c:486-512 | The run: one request, refused by the request queue; nothing is under way and the client waits for two replies. |
| `ProducerConsumer.CanBeServed` | 44_high-load_server/producer_consumer/task4.c:474-539 | From every reachable state, a client that lost nothing reaches a state in which it waits for nothing. |
| `ProducerConsumer.LostInFailedSends` | 44_high-load_server/producer_consumer/task4.c:486-534 | Replies to a client are lost exactly in failed sends for it. |
| `ProducerConsumer.NothingLostWithoutFailures` | 44_high-load_server/producer_consumer/task4.c:480-534 | Without failing sends no reply becomes impossible. |
| `ProducerConsumer.CountsExactlyTheReplies` | 44_high-load_server/producer_consumer/task4.c:328-354 | A client counts a packet exactly if it is a reply, not its own echo, and the reply carries the current message, as sent or as a service made it. The processed reply is the request with a Z as its first character. |
| `ProducerConsumer.ReplyIdMatches` | 44_high-load_server/producer_consumer/task4.c:494 | For every signed-char id the server's 16-bit id + 1 is the one the client waits for, across both wraparounds, and differs from the request's own id. |
| `ProducerConsumer.IdCountsRequests` | 44_high-load_server/producer_consumer/task4.c:634-640 | In every run the id of a client is the number of its requests that were answered twice, in a signed char. |
| `ProducerConsumer.RequestsAreNumbered` | 44_high-load_server/producer_consumer/task4.c:600-640 | In every run: a client that is free to send and is not told to quit sends the typed text under the number of its earlier requests as id, sees its own packet if its raw socket shows it, and waits for two replies; one that waits or has quit sends nothing; `q` and `quit` stop it. |
| `ProducerConsumer.SameIdEvery256` | 44_high-load_server/producer_consumer/task4.c:638-640 | Two requests carry the same id if and only if their numbers differ by a multiple of 256; two in a row never do. |
| `ProducerConsumer.ServerInv` | 44_high-load_server/producer_consumer/task4.c:474-539 | Each statement of the server keeps the accounts and the ids. |
| `ProducerConsumer.ServiceInv` | 44_high-load_server/producer_consumer/task4.c:382-408 | Each statement of a service keeps them. |
| `ProducerConsumer.ClientInv` | 44_high-load_server/producer_consumer/task4.c:586-645 | Each turn of a client keeps them. |
| `ProducerConsumer.System.ReceiveDatagram` | 44_high-load_server/producer_consumer/task4.c:477-480 | The server takes a datagram, if there is one; new state stated in full, invariant kept. |
| `ProducerConsumer.System.QueueRequest` | 44_high-load_server/producer_consumer/task4.c:486-489 | Puts it in the request queue, or drops it; new state stated in full, invariant kept. |
| `ProducerConsumer.System.SendPlainReply` | 44_high-load_server/producer_consumer/task4.c:494 | Sends the plain reply; new state stated in full, invariant kept. |
| `ProducerConsumer.System.ReceiveProcessed` | 44_high-load_server/producer_consumer/task4.c:516-518 | Takes a processed message, if there is one; new state stated in full, invariant kept. |
| `ProducerConsumer.System.SendProcessedReply` | 44_high-load_server/producer_consumer/task4.c:524 | Sends the processed reply; new state stated in full, invariant kept. |
| `ProducerConsumer.System.ServiceTurn` | 44_high-load_server/producer_consumer/task4.c:384-397 | A service takes the oldest request or sends its outcome; new state stated in full, invariant kept. |
| `ProducerConsumer.System.ClientSends` | 44_high-load_server/producer_consumer/task4.c:588-621 | A client that waits for nothing sends or stops; new state stated in full, invariant kept. |
| `ProducerConsumer.System.ClientReceives` | 44_high-load_server/producer_consumer/task4.c:624-640 | A waiting client counts a matching packet down and moves its id on at zero; new state stated in full, invariant kept. |
| `ProducerConsumer.System.SendReply` | 44_high-load_server/producer_consumer/task4.c:300-325 | The reply, or the loss of it. |
| `ServicePool.PoolFitsDemand` | 44_high-load_server/multyproc_pool/arc/task3.c:396-454 | The pool is always made of whole blocks, at least one, and never larger than the most services ever busy at once, rounded up to blocks, so at most max(block, peak busy + block - 1). |
| `ServicePool.ClientsOwnTheirServices` | 44_high-load_server/multyproc_pool/arc/task3.c:521-571 | Connected clients hold distinct busy services with ids below the pool size. |
| `ServicePool.CloseKeepsBusy` | 44_high-load_server/multyproc_pool/arc/task3.c:529-571 | A close, shrinking or not, removes no busy service. |
| `ServicePool.CloseUndoesConnect` | 44_high-load_server/multyproc_pool/arc/task3.c:396-571 | A close right after the connect restores the pool if and only if the pool did not end in an idle block. |
| `IdleBlocks.IdleBlockGoesExactly` | 44_high-load_server/multyproc_pool/arc/task3.c:396-571 | In no run does the pool end in an idle block beyond the first if and only if there are no more clients than a block has services. |
| `IdleBlocks.IdleBlockStays` | 44_high-load_server/multyproc_pool/arc/task3.c:539-571 | With one client more, a run: three blocks fill, the second is given back, then the third, and the second stays. |
| `ServicePool.ConnectCounts` | 44_high-load_server/multyproc_pool/arc/task3.c:403-454 | A connect makes exactly one more service busy, and the pool grows only when all were busy. |
| `ServicePool.CloseCounts` | 44_high-load_server/multyproc_pool/arc/task3.c:526-571 | A close makes exactly one service free and keeps whole blocks. |
| `ServicePool.SeparateExactlyUpTo16383` | 44_high-load_server/multyproc_pool/arc/task3.c:323-329 | Request types and answer types are disjoint if and only if there are at most 16383 services; the pair that collides first. |
| `ServicePool.MessagesGoWhereTheyBelong` | 44_high-load_server/multyproc_pool/arc/task3.c:489-497 | While peak busy and largest pool add up to at most 32766, in particular up to 16383 services, a service receives only unprocessed requests to itself and the server takes only a service's own processed answer for its answer. An answer is its request with a Z as its first character. |
| `ServicePool.AnswersKeepTheOrder` | 44_high-load_server/multyproc_pool/arc/task3.c:489-497 | Within that bound the answers of each service come in the order of the requests, each at most once, even when threads are cancelled and replaced. |
| `ServicePool.AskedAsSent` | 44_high-load_server/multyproc_pool/arc/task3.c:489-492 | In every run the requests put in the queue are those that connected clients sent to their own services and the queue did not refuse, in sending order, with the typed texts. |
| `ServicePool.RequestsConserved` | 44_high-load_server/multyproc_pool/arc/task3.c:396-571 | In every run the requests put in the queue are as many as are still in it or in a service's hands, as answers were taken, and as were lost in refused answers and with cancelled services. |
| `ServicePool.RequestTakenForAnswer` | 44_high-load_server/multyproc_pool/arc/task3.c:489-497 | For every block size and two clients or more: a run, with 16382 refused connect replies, in which the server takes a request for an answer. |
| `ServicePool.FewClientsKeepApart` | 44_high-load_server/multyproc_pool/arc/task3.c:396-454 | If the clients and the refused connect replies of a schedule, rounded up to blocks and not, add up to at most 32766, the run routes every message right and keeps the order of the answers. |
| `ServicePool.RoutedExactlyWhenFitting` | 44_high-load_server/multyproc_pool/arc/task3.c:323-497 | With at least one client: all runs with at most so many refused connect replies route every message right if and only if clients and refusals fit in that sense. |
| `ServicePool.AnswerTakenForRequest` | 44_high-load_server/multyproc_pool/arc/task3.c:323-329 | Whenever they do not fit, a run in which a service receives the answer of another one as a request. |
| `ServicePool.FitsUpTo16380` | 44_high-load_server/multyproc_pool/arc/task3.c:41 | With the block of 10, they fit if and only if clients and refusals together are at most 16380. |
| `ServicePool.BusyAtMost` | 44_high-load_server/multyproc_pool/arc/task3.c:453-485 | Never are more services busy than there are clients and refused connect replies. |
| `ServicePool.StepKeepsPool` | 44_high-load_server/multyproc_pool/arc/task3.c:388-576 | Every datagram and every thread turn keeps the pool invariant. |
| `ServicePool.StepKeepsTraffic` | 44_high-load_server/multyproc_pool/arc/task3.c:487-514 | Every datagram and every thread turn keeps the traffic invariant within the bound. |
| `ServicePool.System.FindAvailable` | 44_high-load_server/multyproc_pool/arc/task3.c:402-408 | The search loop finds the free service with the smallest id. |
| `ServicePool.System.Grow` | 44_high-load_server/multyproc_pool/arc/task3.c:411-437 | The enlarged array keeps the old services and adds a free block. |
| `ServicePool.System.Assign` | 44_high-load_server/multyproc_pool/arc/task3.c:402-454 | The array after a connect, and the id handed out. |
| `ServicePool.System.LastBlockIsFree` | 44_high-load_server/multyproc_pool/arc/task3.c:529-536 | The loop tells whether the last block is idle. |
| `ServicePool.System.Release` | 44_high-load_server/multyproc_pool/arc/task3.c:526-571 | The array after a close, with the block dropped exactly when it is idle and not the only one. |
| `ServicePool.System.ConnectClient` | 44_high-load_server/multyproc_pool/arc/task3.c:396-486 | The whole connect branch. |
| `ServicePool.System.Forward` | 44_high-load_server/multyproc_pool/arc/task3.c:487-494 | The first half of the data branch. |
| `ServicePool.System.Receive` | 44_high-load_server/multyproc_pool/arc/task3.c:167-188 | `msgrcv`: the first message of the type, or none. |
| `ServicePool.System.TakeAnswer` | 44_high-load_server/multyproc_pool/arc/task3.c:497-502 | The second half of the data branch. |
| `ServicePool.System.CloseClient` | 44_high-load_server/multyproc_pool/arc/task3.c:521-574 | The whole close branch. |
| `ServicePool.System.TakeRequest` | 44_high-load_server/multyproc_pool/arc/task3.c:323 | A service takes the first request of its type. |
| `ServicePool.System.SendAnswer` | 44_high-load_server/multyproc_pool/arc/task3.c:327-329 | A service marks the request and sends it back under its answer type. |
| `Shops.GoodsConserved` | 35_pthread_mutex/pthread_shops/pthread_shops.c:27-66 | Stock plus bags is the initial stock plus the deliveries, with every read and write its own step, up to amounts that still sit on a shelf behind a door that their buyer holds. |
| `Shops.OnePersonPerShop` | 35_pthread_mutex/pthread_shops/pthread_shops.c:32-41 | At most one buyer or the loader is in a shop. |
| `Shops.LoaderStopsOnlyWhenAllSatisfied` | 35_pthread_mutex/pthread_shops/pthread_shops.c:71-83 | When the lock-free scan lets the loader return, every buyer is home with all it needs, and the goods delivered cover it. |
| `Shops.AtLeast25Deliveries` | 35_pthread_mutex/pthread_shops/pthread_shops.c:90-91 | With 5 shops, 3 buyers, a need of 10000 and loads of 1000, that takes at least 25 deliveries. |
| `Shops.SatisfiedScanStops` | 35_pthread_mutex/pthread_shops/pthread_shops.c:60-83 | Once all flags are set, the loader stops from wherever it is after at most 5 turns a shop and two scans of its own, whatever runs in between; on its last scan after exactly the turns that are left. |
| `ShopRuns.BuysWhatItSees` | 35_pthread_mutex/pthread_shops/pthread_shops.c:34-44 | In every run, from the look of a buyer at a shelf: with goods on it they are exactly what its bag has gained after its second turn, the shelf is empty after its third and it is out after its fourth; from an empty shelf it goes at once; whatever the others do meanwhile. |
| `ShopRuns.EverybodyServedExactly` | 35_pthread_mutex/pthread_shops/pthread_shops.c:20-83 | Every run can be continued until every buyer is home with all it needs and the loader has stopped, if and only if a delivery brings something, or nobody needs anything, or there are no buyers. |
| `ShopRuns.DoorsInTurn` | 35_pthread_mutex/pthread_shops/pthread_shops.c:26-52 | In every run the door that a buyer tries after k others is that of shop k modulo the number of shops. |
| `Shops.StepInv` | 35_pthread_mutex/pthread_shops/pthread_shops.c:27-84 | Every statement of every thread keeps doors, goods and flags. |
| `Shops.Street.constructor` | 35_pthread_mutex/pthread_shops/pthread_shops.c:90-91 | The initial stock. |
| `Shops.Street.TryToEnter` | 35_pthread_mutex/pthread_shops/pthread_shops.c:32 | `trylock` by a buyer; new state stated in full, invariant kept. |
| `Shops.Street.LookAtShelf` | 35_pthread_mutex/pthread_shops/pthread_shops.c:34 | The test of the shelf; new state stated in full, invariant kept. |
| `Shops.Street.TakeGoods` | 35_pthread_mutex/pthread_shops/pthread_shops.c:36 | The goods go into the bag; new state stated in full, invariant kept. |
| `Shops.Street.ClearShelf` | 35_pthread_mutex/pthread_shops/pthread_shops.c:38 | The shelf is set to zero; new state stated in full, invariant kept. |
| `Shops.Street.LeaveShop` | 35_pthread_mutex/pthread_shops/pthread_shops.c:41 | The unlock; new state stated in full, invariant kept. |
| `Shops.Street.GoHomeOrOn` | 35_pthread_mutex/pthread_shops/pthread_shops.c:44-49 | The need test and the flag; new state stated in full, invariant kept. |
| `Shops.Street.TryToDeliver` | 35_pthread_mutex/pthread_shops/pthread_shops.c:63 | `trylock` by the loader; new state stated in full, invariant kept. |
| `Shops.Street.ReadLoad` | 35_pthread_mutex/pthread_shops/pthread_shops.c:65 | The load is read; new state stated in full, invariant kept. |
| `Shops.Street.WriteLoad` | 35_pthread_mutex/pthread_shops/pthread_shops.c:65 | The load is written; new state stated in full, invariant kept. |
| `Shops.Street.UnlockDoor` | 35_pthread_mutex/pthread_shops/pthread_shops.c:66 | The unlock; new state stated in full, invariant kept. |
| `Shops.Street.GoOn` | 35_pthread_mutex/pthread_shops/pthread_shops.c:60-71 | The next shop, or the scan; new state stated in full, invariant kept. |
| `Shops.Street.ScanFlag` | 35_pthread_mutex/pthread_shops/pthread_shops.c:73-83 | One flag, or the decision; new state stated in full, invariant kept. |
| `Checksum.CorrectUpToLength` | 44_high-load_server/multyproc_pool/arc/sample_raw_udp_checksum/raw_udp.c:33-48 | `csum` is the RFC 1071 checksum of every buffer of a length if and only if the length is at most 131076 bytes. |
| `Checksum.FoldExact` | 44_high-load_server/multyproc_pool/arc/sample_raw_udp_checksum/raw_udp.c:44-46 | The two folds lose no carry if and only if the second one produces none. |
| `Checksum.FoldBound` | 44_high-load_server/multyproc_pool/arc/sample_raw_udp_checksum/raw_udp.c:44-46 | The smallest sum that folds wrong is 2^32 + 65535. |
| `Checksum.OnesSumIsResidue` | 44_high-load_server/multyproc_pool/arc/sample_raw_udp_checksum/raw_udp.c:33-48 | End-around-carry addition of section 1 of RFC 1071 is addition first and one reduction modulo 65535 after. |
| `Checksum.CsumIsRfc1071` | 44_high-load_server/multyproc_pool/arc/sample_raw_udp_checksum/raw_udp.c:33-48 | Up to that length, with an odd last byte padded, `csum` is the complement of the ones'-complement sum. |
| `Checksum.InsertedChecksumVerifies` | 44_high-load_server/multyproc_pool/arc/sample_raw_udp_checksum/raw_udp.c:98-124 | Storing `csum` in a zero field at an even offset makes `csum` of the whole buffer zero. |
| `Checksum.ChecksOut` | 44_high-load_server/multyproc_pool/arc/sample_raw_udp_checksum/raw_udp.c:33-48 | A buffer checks out if and only if its words add up to a positive multiple of 65535. |
| `Checksum.WordErrorDetected` | 44_high-load_server/multyproc_pool/arc/sample_raw_udp_checksum/raw_udp.c:33-48 | In a buffer that checks out, a changed aligned word goes unnoticed exactly between the two ones'-complement zeros, and only if something else in the buffer is not zero. |
| `Checksum.WordOrderIrrelevant` | 44_high-load_server/multyproc_pool/arc/sample_raw_udp_checksum/raw_udp.c:34-37 | Section 2(A) of RFC 1071: permuting the words changes nothing, at any length. |
| `Checksum.ByteOrderIndependent` | 44_high-load_server/multyproc_pool/arc/sample_raw_udp_checksum/raw_udp.c:33-48 | Section 2(B) of RFC 1071: swapping the bytes of every word swaps the bytes of the result. |
| `Checksum.ComputeCsum` | 44_high-load_server/multyproc_pool/arc/sample_raw_udp_checksum/raw_udp.c:27-49 | The loop, the odd byte, the folds and the truncation compute `Csum`; a negative count reads nothing. |
| `Checksum.InsertChecksum` | 44_high-load_server/multyproc_pool/arc/sample_raw_udp_checksum/raw_udp.c:98-103 | Zero the field, sum, store: only the field changes, it holds the RFC 1071 checksum, and the buffer then checks out. |
| `Spiral.Fill` | 11_arrays/ex04.c:15-45 | For every side from 1 the loops put in each cell its spiral number. |
| `Spiral.ValueInjective` | 11_arrays/ex04.c:15-45 | No number is put in two cells. |
| `Spiral.ValueInRange` | 11_arrays/ex04.c:15-45 | All numbers lie in 0 .. T*T-1. |
| `Spiral.CellOfValue` | 11_arrays/ex04.c:15-45 | Every number of 0 .. T*T-1 is put in a cell: with the two above, a bijection. |
| `Spiral.ConsecutiveAdjacent` | 11_arrays/ex04.c:17-42 | Consecutive numbers lie in orthogonally adjacent cells. |
| `Spiral.ValueOfCellOf` | 11_arrays/ex04.c:15-45 | The cell reached by that many steps from the corner is the inverse of the numbering. |
| `Spiral.Put` | 11_arrays/ex04.c:19-41 | A repeated write of a corner or of the centre stores the number already there. |
| `Spiral.FillTopAndRight` | 11_arrays/ex04.c:17-29 | The first two loops of a ring, with what they leave in `cnt`. |
| `Spiral.FillBottomAndLeft` | 11_arrays/ex04.c:31-42 | The last two loops, the four overlapping corners and the one-cell centre. |
| `Spiral.RingFilled` | 11_arrays/ex04.c:15-43 | Where the next ring begins, and that the innermost ring completes T*T numbers. |
| `Spiral.BaseBelowSquare` | 11_arrays/ex04.c:15 | Ring d starts at 4*d*(T-d): the cells inside it are those of a square of side T-2d. |

## Left out

Things that the programs do and the models do not:

- Sockets, `select`, `gets`, `fgets` buffers, printing, sleeps, signals, key creation and option parsing: what the user types, whether a send succeeds, when an interrupt arrives and what an uninitialised buffer holds are parameters of the steps.
- Failures of system calls other than refused sends: semaphores and shared memory are obtained, threads start and are cancelled.
- Spooler: clients that are in the middle of a line when the spooler starts; the increment of an index and its wrap are one step, since nobody reads an index in between; lines that begin with a NUL character; strings longer than a buffer.
- Chat: a client that leaves before it has an id sends no message (the programs would index the pool at -1); what clients do after the server closed; the `r` command of task1.c:488, which sends nothing, counts as no input.
- Transports.Mailbox.WriteMessage: with no empty slot task2.c:156 goes on with an uninitialised address; this writer is modelled as lost with the mutex, and not what it overwrites.
- Transports.Mailbox: its methods are whole calls; that concurrent calls behave like whole ones is what SharedMailbox.RefinesAtomicMailbox proves.
- Chatroom.Room: keeps its messages in a sequence of its own for either transport; that the slots give the same runs is SlotChat.RefinesChat, on values.
- ChatLiveness.RelayedCanBeDisplayed: says that the copies can be displayed, not that they are under an unfair scheduler; a copy behind a farewell in the server's name, which ends its reader, is not promised.
- ProducerConsumer: the server reacts only to datagrams that it received (task4.c:480 tests the type alone); every client has its own address, and its raw socket shows it at most its own packets besides the replies; datagrams from one sender to one receiver keep their order and are lost only when a send fails.
- ServicePool: connect, data and close are sibling branches and the enlarged array has the new size, which is what task3.c intends (a brace is missing near line 508, and line 416 asks for the old size); the address of its slot in the old array that a running service keeps; a client closes once and with its own id; pools of more than 32766 services, where answer types are no longer positive.
- ServicePool.AnswersKeepTheOrder: does not say that an answer belongs to the latest request, because late answers stay in the queue and are taken for the next one.
- ServicePool.PoolFitsDemand: does not say that an idle last block is always dropped, because one block goes for each close; IdleBlocks.IdleBlockGoesExactly says when one can be left.
- ShopRuns.EverybodyServedExactly: says that buyers can be satisfied, not that they are, because `trylock` may lose for ever under an unfair scheduler; `int` overflow of a bag.
- Checksum: the header fields that raw_udp.c fills in (its IP checksum covers more than the header, and a UDP checksum of zero is not sent as all ones); that line 124 sums a copy of the header and stores into the original; machines with a 32-bit `long` or big-endian words.
- The queue limits of the kernel, except that a send may be refused at any time.
- 40_semaphore/sph_chats/sample, 50_RAW_sockets_ethernet_headers and 44_high-load_server/multyproc_pool/task3.c: further copies of code modelled here.
- The phone lists, process and thread lists, the process tree, the file manager, calculators and echo servers of the other directories: they have no protocol between processes and no algorithm beyond a list walk or one call, and several are unfinished.
