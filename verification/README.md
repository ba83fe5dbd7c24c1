# Hares and Bears: a verified model

Processes, each a hare or a bear, want to party on a meadow of capacity `S`. They agree without a
coordinator: a request carries a Lamport timestamp, every process keeps its own copy of the request
queue, and the process that heads its own copy, once everybody has replied to it, picks a group of
weight exactly `S` with at least one hare and announces it. The announcement takes the whole group
out of every queue.

The project models that protocol from the bytes on the wire up to whole runs, and proves what it
guarantees.

## How it is laid out

| file | content |
|---|---|
| `types.dfy` | tickets and their order, messages, events, actions, configuration |
| `clock.dfy` | the Lamport clock |
| `queue.dfy` | the ordered set with its index; its refinement of a plain map |
| `policy.dfy` | the choice of a party, against all subsets of the candidates |
| `wire.dfy` | printer and parser of messages |
| `wire_layout.dfy` | every message byte by byte, and what becomes of every message printed and parsed |
| `node.dfy` | one process: a transition function, and the class that updates its fields in place, proved equal to it |
| `event_laws.dfy` | what each event does to a process, field by field, and that this is exactly the transition function |
| `process.dfy` | local event source, execution of actions, event loop, history of a process |
| `party.dfy` | the rules of the meadow, independent of the policy |
| `trace.dfy` | the local invariant: the state of a process as a fold of its history |
| `network.dfy` | the system: processes, FIFO channels, steps, runs, the global invariant |
| `turns.dfy` | the event loop of one process, seen as steps of the system |
| `histories.dfy` | reading facts off one history |
| `ordering.dfy` | theorems about all runs |
| `exact.dfy` | every field of a process, every stamp and every party id, read off the history, in all runs |
| `leaders.dfy` | runs with one request per process: leadership |
| `disjoint.dfy` | when parties are disjoint; what a quiet network looks like |
| `carriage.dfy` | what processes send each other survives the wire |
| `progress.dfy` | two moments of one run; no overtaking |
| `repeated.dfy` | processes that ask again and again, with causal delivery and fair starts |
| `fair.dfy` | processes that ask again and again, over bare FIFO channels: one party for each ticket, exactly |
| `causal.dfy` | what one step does to causal delivery, at first hand and along chains |
| `termination.dfy` | how long a run can be, and how deliveries alone bring it to rest |
| `board.dfy` | concrete runs of up to four hares, played on a board |
| `late_request.dfy` | such a run in which one process ends up in two parties |
| `waiting.dfy` | such a run after which two processes wait in vain |
| `late_removal.dfy` | such a run in which a party start removes a newer request |
| `stale_reply.dfy` | such a run, with causal delivery, in which one ticket is served twice |

A class that the program updates in place is a class here, and its methods are proved to leave
exactly the state, and to return exactly the actions, of a specification function. The theorems are
about those functions. What the functions do is stated once more without them, in `event_laws.dfy`: a
list of laws on clock, state, queue, party, pending ticket, tracker, counter and actions that leaves no
choice (`EventLaws.HandledExactly`). The system is a transition relation over the same functions
(`Network.Next`); `Turns.TurnIsRun` shows that a turn of the event loop is a sequence of its steps.

A history records everything a process took in and did. `Traces.HandleKeeps` shows that one event
keeps process state and history coherent, `Network.RunsKeepInv` lifts this to all runs, and most
theorems are read off histories: a fact about the end of a run also speaks of everything before.

## What is assumed

* Every theorem about runs: at least two processes, hares weigh 1, bears at least 2
  (`Types.Supported`), and channels that are reliable and FIFO per ordered pair.
* *Reachable* alone: all runs, however often a process asks.
* *OneShot*: every process asks at most once.
* *RequestFirst*: nobody handles another's party start that names a third process before it has
  handled a request of that process.
* *Fair starts*: every reply counted for a party answers the request that the party is started on.
  The program does not look at the ticket a reply answers
  (`src/algorithm/lamport_queue_algorithm.cpp:112-119`), and without this assumption a ticket can be
  served twice: `StaleReply.StaleRepliesServeTwice`. Where no reply comes in while a newer request is
  pending, starts are fair (`Repeated.UnstaleStarts`).
* *Orderly*: any number of requests, causal delivery, fair starts. Causal delivery here
  concerns what a sender had itself sent or received; causal delivery along chains implies it
  (`Causality.ChainIsCausal`).
* *Fair*: any number of requests over bare FIFO channels, fair starts, and every party start removes
  only requests that the party serves. Runs with one request each and orderly runs are fair. FIFO
  channels alone do not give the last part: `LateRemoval.NewerRequestIsRemoved`.

## Where the code falls short of its description

* The repository's README promises conflict-free access over FIFO channels. Over FIFO channels a
  late request can follow a party start that already took its owner, go into a queue, and put its
  owner into a second party. `LateRequest.FifoAloneIsNotEnough` is such a run, with three hares and
  one request each; `Disjointness.DisjointExactly` says exactly when parties are disjoint. The open
  remark in `src/algorithm/lamport_queue_algorithm.cpp:95-102` is about the same request.
* The same late request can keep a process waiting in vain: it stays in a queue, ahead of the oldest
  process still to be served, which then never heads its own queue although a party could be made.
  `WaitingInVain.OldestWaitsInVain` is such a run; `Disjointness.OldestHeadsExactly` says exactly when
  it happens, with one request each.
* Once processes ask again, over FIFO channels, `Fairness.ServedOnceExactly` says exactly when, in fair
  runs, every ticket is served by one party: the condition is about each leader's own history.
* Not even causal delivery, along chains of messages, makes up for starts that are not fair. A process
  taken into a party while replies are still on their way to it counts them for its next request, and
  leads without having heard of an older one. `StaleReply.StaleRepliesServeTwice` is such a run, with
  four hares and parties of three. It is not a fair run, so the condition above does not apply to it;
  what rules it out is `Repeated.ServedOnce`, in one direction. There is no converse to look for in a
  leader's history: whether an unfair start does harm depends on another leader, of whom the first
  has not heard.
* The message holds a 64-bit party id and the wire a 32-bit one. A message survives printing and
  parsing exactly when its party id fits and it lists at most a million participants
  (`Wire.RoundTripExactly`); a wider id comes back as a different message
  (`Wire.WidePartyIdIsLost`); `WireLayout.PartyStartComesBack` says what comes back of any party start.

## Model

| member | source | states |
|---|---|---|
| Clock.LamportClock.Tick | src/clock/lamport_clock.cpp:8-10 | the clock advances by one and the new value is returned |
| Clock.LamportClock.OnReceive | src/clock/lamport_clock.cpp:12-14 | afterwards the clock is ahead of its own past and of the sender's stamp |
| Queue.RequestQueue.Insert | src/queue/request_queue.cpp:4-16 | ordered set and index stay one-to-one; an older ticket of the process is replaced |
| Queue.RequestQueue.Remove | src/queue/request_queue.cpp:18-23 | exactly the ticket of the process goes, from set and index; an absent process is no error |
| Queue.RequestQueue.RemoveGroup | src/queue/request_queue.cpp:25-29 | all tickets of the group go, nothing else changes |
| Queue.RequestQueue.GetFirstPid | src/queue/request_queue.cpp:31-35 | fails exactly on the empty queue; otherwise the owner of the ticket before all others |
| Queue.RequestQueue.Snapshot | src/queue/request_queue.cpp:37-44 | strictly sorted, and exactly the indexed tickets |
| Queue.InsertContents | src/queue/request_queue.cpp:4-16 | contents after an insertion: the new ticket and the others' tickets, one per process |
| Queue.InsertionIsFresh | src/queue/request_queue.cpp:12-15 | with the older ticket of the process gone, an insertion never finds a duplicate, and the set grows by one |
| Queue.RemoveAllContents | src/queue/request_queue.cpp:25-29 | contents after a group removal, whatever order or repetition the group has |
| Queue.QueueRefinesMap | include/mhb/queue/request_queue.hpp:21-22 | after any sequence of operations the set holds exactly the tickets of a plain map from process to latest ticket, in strict order, its head the minimum |
| Policy.LamportPolicy.Split | src/policy/lamport_policy/lamport_policy.cpp:30-43 | everyone but the leader by species, in order; other weights are passed over |
| Policy.LamportPolicy.CountBears | src/policy/lamport_policy/lamport_policy.cpp:50-69 | the countdown finds the largest feasible number of bears and fails only if no number is feasible |
| Policy.LamportPolicy.Gather | src/policy/lamport_policy/lamport_policy.cpp:71-101 | leader, bears, then hares up to the number needed, nobody twice |
| Policy.LamportPolicy.TryFormGroup | src/policy/lamport_policy/lamport_policy.cpp:13-114 | refines the selection function for any candidates and weights; the group is emptied on refusal |
| Policy.SelectionExact | src/policy/lamport_policy/lamport_policy.cpp:50-101 | succeeds exactly when some number of bears can be topped up with hares, and takes the largest such number |
| Policy.FailsExactly | src/policy/lamport_policy/lamport_policy.cpp:13-114 | refuses if and only if no subset of the candidates with the first one has weight exactly `S` and a hare |
| Policy.FoundIsGroup | src/policy/lamport_policy/lamport_policy.cpp:71-113 | the group found starts with the leader, repeats nobody, weighs exactly `S` and includes a hare |
| Policy.FoundHasMostBears | src/policy/lamport_policy/lamport_policy.cpp:50-69 | no valid subset with the same leader has more bears |
| Policy.FoundIsEarliest | src/policy/lamport_policy/lamport_policy.cpp:85-101 | within a species, whoever is chosen, earlier candidates are chosen too |
| Policy.FoundAnyway | src/policy/lamport_policy/lamport_policy.cpp:13-114 | whatever the candidates, repeated ones and other weights included: only candidates are chosen, nobody twice, the first one leads, and only if a hare weighs one |
| Policy.StrangersDoNotMatter | src/policy/lamport_policy/lamport_policy.cpp:30-43 | candidates that weigh neither as hares nor as bears change nothing, unless one of them leads |
| Wire.Serialize | src/wire/wire_protocol.cpp:14-45 | prints exactly the specified bytes, which parse back whenever the wire can carry the message |
| Wire.Deserialize | src/wire/wire_protocol.cpp:47-95 | refines the parser on any bytes; what it yields is a message whose encoding starts the input |
| Wire.ByteWriter.U | include/mhb/wire/byte_io.hpp:20-28 | appends the low bytes of the value, least significant first |
| Wire.ByteWriter.PutByte | include/mhb/wire/byte_io.hpp:30-30 | appends one byte |
| Wire.ByteReader.GetByte | include/mhb/wire/byte_io.hpp:61-65 | takes one byte, or fails at the end and takes nothing |
| Wire.ByteReader.U | include/mhb/wire/byte_io.hpp:67-79 | reads a little-endian integer of the given width, or fails without moving |
| Wire.GetPartyStart | src/wire/wire_protocol.cpp:70-91 | the participant loop refines the recursive parser, including the cap on the head count and truncated lists |
| Wire.EncodeAt | include/mhb/wire/byte_io.hpp:25-27 | the shift-and-mask byte at each position is the byte of the recursive encoding |
| Wire.DecodeEncode | include/mhb/wire/byte_io.hpp:20-28 | integers that fit their width survive a round trip |
| Wire.EncodeDecode | include/mhb/wire/byte_io.hpp:67-79 | every byte string is the encoding of the integer it decodes to |
| Wire.FormatIsExact | src/wire/wire_protocol.cpp:14-95 | parsing yields a given message if and only if its encoding is a prefix of the input |
| Wire.ParsedIsInRange | src/wire/wire_protocol.cpp:47-95 | whatever bytes arrive, a parsed message fits the field types and the wire |
| Wire.RoundTripExactly | src/wire/wire_protocol.cpp:14-95 | a message survives the round trip if and only if its party id fits 32 bits and it lists at most a million participants |
| Wire.EncodingIsInjective | src/wire/wire_protocol.cpp:14-45 | different messages have different encodings |
| Wire.ProperPrefixIsRejected | src/wire/wire_protocol.cpp:47-95 | no proper prefix of an encoding parses |
| Wire.WidePartyIdIsLost | src/wire/wire_protocol.cpp:34-34 | a party id beyond 32 bits comes back reduced |
| WireLayout.RequestLayout | src/wire/wire_protocol.cpp:20-23 | a byte string is the encoding of a request if and only if it has 13 bytes: 1, process id in 4, timestamp in 8, least significant byte first |
| WireLayout.ReplyLayout | src/wire/wire_protocol.cpp:24-29 | and of a reply if and only if it has 25: 2, the sender's ticket, the ticket answered |
| WireLayout.PartyStartLayout | src/wire/wire_protocol.cpp:30-41 | and of a party start if and only if it has 21 and 4 for each participant: 3, the leader's ticket, id and head count modulo 2^32 in 4 each, the participants in order |
| WireLayout.FirstByteDecides | src/wire/wire_protocol.cpp:7-11 | nothing parses without a first byte of 1, 2 or 3, and that byte says which kind of message it is |
| WireLayout.PartyStartComesBack | src/wire/wire_protocol.cpp:30-91 | any party start, printed and parsed: refused if its head count modulo 2^32 is over 1,000,000, otherwise the id modulo 2^32 and as many participants as that count |
| WireLayout.RoundTripInNumbers | src/wire/wire_protocol.cpp:14-95 | the round trip holds if and only if a party start has an id below 0x1_0000_0000 and at most 1,000,000 participants |
| WireLayout.CrowdIsRefused | src/wire/wire_protocol.cpp:80-80 | the encoding of 1,000,001 participants does not parse |
| LamportAlgorithm.LamportQueueAlgorithm.constructor | src/algorithm/lamport_queue_algorithm.cpp:11-15 | a fresh process is idle, with an empty queue and an empty reply tracker |
| LamportAlgorithm.LamportQueueAlgorithm.AllRepliesReceived | src/algorithm/lamport_queue_algorithm.cpp:26-29 | true exactly when no slot of the tracker is clear |
| LamportAlgorithm.LamportQueueAlgorithm.AmLeader | src/algorithm/lamport_queue_algorithm.cpp:21-24 | true exactly when the process heads its own queue |
| LamportAlgorithm.LamportQueueAlgorithm.CreatePartyId | include/mhb/algorithm/lamport_algo/lamport_queue_algorithm.hpp:55-59 | counter plus clock, both in 32 bits |
| LamportAlgorithm.LamportQueueAlgorithm.TryBuildParty | src/algorithm/lamport_queue_algorithm.cpp:188-201 | the policy's answer for the weighted queue in order |
| LamportAlgorithm.LamportQueueAlgorithm.GoToParty | src/algorithm/lamport_queue_algorithm.cpp:35-43 | the whole state on entering a party, and its one notification |
| LamportAlgorithm.LamportQueueAlgorithm.StartParty | src/algorithm/lamport_queue_algorithm.cpp:64-80 | one tick, the party entered before it is announced, ticket and id taken at the new time |
| LamportAlgorithm.LamportQueueAlgorithm.Recompute | src/algorithm/lamport_queue_algorithm.cpp:45-82 | refines the specified recomputation and appends its actions |
| LamportAlgorithm.LamportQueueAlgorithm.OnRequest | src/algorithm/lamport_queue_algorithm.cpp:90-109 | state and actions on a request: the reply comes before anything the recomputation does |
| LamportAlgorithm.LamportQueueAlgorithm.OnReply | src/algorithm/lamport_queue_algorithm.cpp:112-121 | state and actions on a reply; not waiting, it only moves the clock |
| LamportAlgorithm.LamportQueueAlgorithm.OnPartyStart | src/algorithm/lamport_queue_algorithm.cpp:123-145 | state and actions on a party start, for participants and bystanders |
| LamportAlgorithm.LamportQueueAlgorithm.OnLocal | src/algorithm/lamport_queue_algorithm.cpp:147-168 | state and actions on a want or a release |
| LamportAlgorithm.LamportQueueAlgorithm.HandleEvent | src/algorithm/lamport_queue_algorithm.cpp:170-186 | the in-place handlers refine the transition function on every event |
| EventLaws.HandledExactly | src/algorithm/lamport_queue_algorithm.cpp:90-186 | in any state and on any event, state and actions follow if and only if they obey the laws: who is queued, when the replies are complete, when a party is started, and each field and action |
| EventLaws.ClockLaw | src/algorithm/lamport_queue_algorithm.cpp:45-82 | on every event the clock becomes the later of itself and the stamp received, plus one; plus one if the replies become complete; plus one if a party is announced; nothing else |
| EventLaws.InvitedEnters | src/algorithm/lamport_queue_algorithm.cpp:129-142 | whoever a party start names enters that party and says so, whatever it was doing |
| LocalSource.LocalThread.Poll | include/mhb/local/local_thread.hpp:18-30 | at most one event: a want when armed and not in a party, a release only in a party |
| LocalSource.LocalThread.OnNotify | include/mhb/local/local_thread.hpp:32-39 | remembers the notification; leaving a party arms the next want |
| EventLoop.Runtime.Broadcast | src/transport/mpi_transport.cpp:31-40 | one copy to everyone except the sender |
| EventLoop.Runtime.Execute | src/runtime/runtime.cpp:44-57 | each kind of action reaches exactly its destination |
| EventLoop.Runtime.DrainActions | src/runtime/runtime.cpp:38-42 | executing actions one by one equals the closed form on channels and local source |
| EventLoop.Runtime.RunOnce | src/runtime/runtime.cpp:20-28 | one turn of the loop: the batch in order, then the local source |
| Process.RepliesToPeers | src/algorithm/lamport_queue_algorithm.cpp:105-106 | the only directed message goes back to where the event came from |
| Turns.TurnIsRun | src/runtime/runtime.cpp:17-32 | one turn at one process, with any batch its channels allow, is a run of the system in which nobody else acts |
| Turns.BatchIsDeliveries | src/transport/mpi_transport.cpp:42-63 | handling a polled batch equals as many single deliveries, in any interleaving of the senders |
| Turns.TurnInOrder | src/runtime/runtime.cpp:20-28 | a turn handles every message received, once and in order, and only then at most one local event, decided by the flags as they are by then |
| Parties.HeadIsOldest | src/core/ticket.cpp:4-9 | the head of a queue is the owner of the request with the smallest timestamp, and of the smallest process id among equal timestamps |
| Parties.ValidInHeads | include/mhb/core/config.hpp:36-48 | a group is valid if and only if it has a hare, and its hares, numbered below `numHares`, and the weight of its bears add up to the capacity |
| Parties.SumIsWeight | src/algorithm/lamport_queue_algorithm.cpp:188-195 | the policy's weight over the queue is the group's weight over the processes |
| Parties.BuiltPartyIsValid | src/algorithm/lamport_queue_algorithm.cpp:188-201 | what the head of a queue builds obeys the rules of the meadow and comes from that queue |
| Parties.NoPartyMeansNoGroup | src/algorithm/lamport_queue_algorithm.cpp:196-198 | when it builds nothing, no valid group with it exists in its queue |
| Queue.RemoveAllTwice | src/algorithm/lamport_queue_algorithm.cpp:127-141 | removing the group before and again on entering the party is harmless |
| Traces.RecomputeKeeps | src/algorithm/lamport_queue_algorithm.cpp:45-82 | after recomputing there is nothing left to recompute, and every action was justified |
| Traces.HandleKeeps | src/algorithm/lamport_queue_algorithm.cpp:90-186 | any event at any process keeps state, history and local source coherent |
| Network.RunsKeepInv | src/runtime/runtime.cpp:17-57 | in every run every process satisfies the local invariant, and what was sent on a channel is what was received and then what is under way |
| Histories.QueueContent | src/queue/request_queue.cpp:4-29 | a ticket is queued exactly when it was inserted and since neither replaced nor named in a party |
| Histories.SendsIncrease | src/algorithm/lamport_queue_algorithm.cpp:64-107 | everything a process ever sends to a peer carries strictly increasing timestamps |
| Ordering.FifoOrder | src/transport/mpi_transport.cpp:25-40 | what a peer sent before a received message was received before it |
| Ordering.ChannelStampsIncrease | src/clock/lamport_clock.cpp:8-18 | timestamps increase along each channel, also when one event emits a reply and then a party start, and exceed all already received from it |
| Ordering.TimestampsRespectCausality | src/clock/lamport_clock.cpp:8-18 | along any causal chain of messages timestamps increase |
| Ordering.TicketsAreDistinct | src/core/ticket.cpp:4-9 | no two requests of a run carry the same ticket |
| Ordering.MatchingReply | src/algorithm/lamport_queue_algorithm.cpp:90-119 | when a reply to a ticket is handled, every request its sender ever issues with a smaller ticket has been handled |
| Ordering.RequestsAreConserved | src/algorithm/lamport_queue_algorithm.cpp:90-119 | per pair: requests issued are those under way, those whose replies are under way, and those answered |
| Ordering.NobodyIsStuckWaiting | src/algorithm/lamport_queue_algorithm.cpp:45-52 | for whoever waits, every peer is marked, or the request is on its way, or the reply is |
| Ordering.EveryPartyIsValid | src/algorithm/lamport_queue_algorithm.cpp:54-80 | every party start ever sent names distinct processes, its sender first, of weight exactly `S` with a hare |
| Ordering.ChannelPartiesAreValid | src/algorithm/lamport_queue_algorithm.cpp:54-80 | every message in a channel, party starts included, is well formed |
| Ordering.LeaderIsNeverMissing | src/algorithm/lamport_queue_algorithm.cpp:60-63 | the branch that skips a party without its leader is never taken |
| Ordering.NoMissedParty | src/algorithm/lamport_queue_algorithm.cpp:45-82 | between events, whoever is queued and heads its own queue has no valid group in it |
| Ordering.Composition | include/mhb/local/local_thread.hpp:18-60 | wants reach the process only when idle, releases only in a party; pending ticket, own queue entry and reply tracker follow the state exactly |
| Ordering.ClocksAreBounded | src/clock/lamport_clock.cpp:8-14 | after k steps no clock exceeds 3k, so 64 bits do not wrap in runs below 2^64 / 3 steps |
| Exactness.RunsAreExact | src/algorithm/lamport_queue_algorithm.cpp:90-186 | in every run the clock, the party, the party counter and being in a party are what the history says, and every entry is stamped and followed as it should be |
| Exactness.PartyIsExact | src/algorithm/lamport_queue_algorithm.cpp:35-43 | all runs: a process is in a given party if and only if the last party start naming it, its own or another's, is that party and no release has come since |
| Exactness.InvitationsAreTaken | src/algorithm/lamport_queue_algorithm.cpp:104-168 | all runs: every party start received by a process it names, every release and every request is followed at once by its notification, or its reply |
| Exactness.ClocksAreExact | src/clock/lamport_clock.cpp:8-14 | all runs: the clock, and the stamp of every message sent, is the number of ticks the history gives, each received stamp counted in |
| Exactness.PartyIdsAreExact | include/mhb/algorithm/lamport_algo/lamport_queue_algorithm.hpp:55-59 | all runs: the id of a party is the leader's number times the offset, plus the parties it started before, plus the stamp of this one, modulo 2^32 |
| Carriage.RunsAreCarried | src/wire/wire_protocol.cpp:14-95 | with at most a million processes and no clock wrapped, every message under way in any run parses back from its encoding |
| Leaders.ReplicaContent | src/algorithm/lamport_queue_algorithm.cpp:104-143 | one-shot: at any point of its history a queue holds exactly the tickets put in and not seen named since |
| Leaders.LeadershipIsEarned | src/algorithm/lamport_queue_algorithm.cpp:45-65 | one-shot: a leader has handled every older request ever issued in the run, later steps included, and since then a party naming its owner |
| Leaders.LeadersAreNotNamed | src/algorithm/lamport_queue_algorithm.cpp:123-142 | one-shot: nobody who starts a party is ever named in another one, by descent on tickets |
| Leaders.LeadersAreOrdered | src/algorithm/lamport_queue_algorithm.cpp:123-143 | one-shot: of two leaders, the one with the larger ticket had handled the other's party start before its own |
| Leaders.LeadersAreComparable | src/core/ticket.cpp:4-9 | any two leaders have comparable tickets, so that order is total |
| Leaders.LeadsOnce | src/algorithm/lamport_queue_algorithm.cpp:35-43 | one-shot: nobody leads twice |
| Disjointness.DisjointExactly | src/algorithm/lamport_queue_algorithm.cpp:95-104 | one-shot: no process is in two parties if and only if no leader picks on a request that came after a party naming its owner |
| Disjointness.RequestFirstIsFresh | src/algorithm/lamport_queue_algorithm.cpp:123-142 | one-shot, requests before party starts: parties are disjoint |
| Disjointness.NamedProcessIsWaiting | src/algorithm/lamport_queue_algorithm.cpp:129-132 | one-shot, requests before party starts: a party start finds the process it names waiting or queued, so "already in party" is never reached |
| Disjointness.UnservedIsEverywhere | src/algorithm/lamport_queue_algorithm.cpp:104-107 | one-shot: on a quiet network every unserved ticket is in every queue |
| Disjointness.ExtraTicketsAreLate | src/algorithm/lamport_queue_algorithm.cpp:95-104 | one-shot: any other ticket in a quiet queue came after a party naming its owner |
| Disjointness.QuietRequesterIsQueued | src/algorithm/lamport_queue_algorithm.cpp:45-52 | one-shot: on a quiet network every unserved requester has all its replies |
| Disjointness.QuietQueues | src/algorithm/lamport_queue_algorithm.cpp:104-143 | one-shot, requests before party starts: quiet queues hold exactly the unserved tickets |
| Disjointness.AgreedQueues | src/algorithm/lamport_queue_algorithm.cpp:45-82 | replicas with the same tickets are equal, headed by the oldest, and hold no valid party with its owner |
| Disjointness.QuietProgress | src/algorithm/lamport_queue_algorithm.cpp:45-145 | one-shot, requests before party starts: when nothing is under way all replicas agree, unserved requesters are queued, the oldest heads all queues, and no valid party of them contains it |
| Disjointness.OldestHeadsExactly | src/algorithm/lamport_queue_algorithm.cpp:95-104 | one-shot: on a quiet network the owner of the oldest unserved ticket heads its own queue, and then misses no party of unserved processes, if and only if no older ticket is in it that came after a party naming its owner |
| LateRequest.FifoAloneIsNotEnough | README.md:43-47 | FIFO channels and one request each do not make parties disjoint: a reachable state in which one process is in two |
| WaitingInVain.OldestWaitsInVain | src/algorithm/lamport_queue_algorithm.cpp:95-104 | FIFO channels, one request each, nothing under way: the oldest unserved process and another are a valid party, and yet it does not head its own queue |
| LateRemoval.NewerRequestIsRemoved | src/algorithm/lamport_queue_algorithm.cpp:127-127 | FIFO channels: a party start removes a request, newer than the one the party serves, from the queue of a bystander |
| Progress.TracesGrow | src/runtime/runtime.cpp:17-57 | an earlier history is a prefix of a later one |
| Progress.NobodyGetsAhead | src/algorithm/lamport_queue_algorithm.cpp:45-52 | all runs: once queued on a request that every reply counted did answer, a process never sees a new ticket ahead of it |
| Progress.NoOvertaking | src/algorithm/lamport_queue_algorithm.cpp:45-52 | all runs: this holds for the first request of a process |
| Progress.NoOvertakingUnstale | src/algorithm/lamport_queue_algorithm.cpp:112-119 | and for any request, if no stale reply has come in by then |
| Causality.CausalKept | src/transport/mpi_transport.cpp:42-63 | a step keeps causal delivery if the message taken overtakes nothing its sender knew |
| Causality.ChainKept | src/transport/mpi_transport.cpp:42-63 | a step keeps causal delivery along chains if the message taken overtakes nothing that happened before it |
| Causality.ChainIsCausal | src/transport/mpi_transport.cpp:25-40 | causal delivery along chains includes causal delivery at first hand |
| Termination.RunsAreBounded | src/algorithm/lamport_queue_algorithm.cpp:90-168 | all runs: at most 4N - 2 steps for every want, so only asking for ever keeps a run going |
| Termination.WantsAreRequests | src/algorithm/lamport_queue_algorithm.cpp:147-159 | all runs: the wants are the requests issued |
| Termination.OneShotRunsEnd | src/algorithm/lamport_queue_algorithm.cpp:90-168 | one-shot runs have at most 4N^2 - 2N steps: wants, deliveries and releases |
| Termination.NetworkDrains | src/algorithm/lamport_queue_algorithm.cpp:90-145 | all runs: from any point, deliveries alone lead to a quiet network; going by stamps, they keep one-shot, request-first, causal (at first hand or along chains) and unstale runs such |
| Termination.ReplicasConverge | src/algorithm/lamport_queue_algorithm.cpp:90-145 | one-shot, requests before party starts: from any point, deliveries alone bring all replicas to exactly the unserved tickets |
| Termination.OrderlyReplicasConverge | src/algorithm/lamport_queue_algorithm.cpp:90-145 | the same for processes that ask again, if no stale reply has come or is coming |
| Repeated.RequestBeforeParty | src/algorithm/lamport_queue_algorithm.cpp:95-104 | causal delivery: everyone handles a request before the party that serves it |
| Repeated.ServedInBetween | src/algorithm/lamport_queue_algorithm.cpp:147-159 | orderly runs: whoever asks again has, since its last request, seen a party that serves it |
| Repeated.ServedOnce | src/algorithm/lamport_queue_algorithm.cpp:123-142 | orderly runs: no ticket is served by two parties |
| Repeated.PartiesInOrder | src/algorithm/lamport_queue_algorithm.cpp:123-143 | orderly runs: of two parties, the leader with the larger ticket had handled the other one before starting its own |
| Repeated.OlderIsServed | src/algorithm/lamport_queue_algorithm.cpp:45-65 | orderly runs: a leader has handled every older request ever issued and, after it, a party serving it |
| Repeated.TouchedMeansServed | src/queue/request_queue.cpp:4-29 | orderly runs: a ticket is first removed or replaced only at, or after, a party that serves it |
| Repeated.RemovalIsExact | src/algorithm/lamport_queue_algorithm.cpp:127-127 | orderly runs: removal by process identifier only hits the ticket the party serves, never a newer one |
| Repeated.PendingIsServed | src/algorithm/lamport_queue_algorithm.cpp:35-43 | orderly runs: entering a party clears the very request it serves |
| Repeated.ArrivalFindsPending | src/algorithm/lamport_queue_algorithm.cpp:129-132 | orderly runs: an arriving party start finds its participant waiting or queued on the request served |
| Repeated.QuietTickets | src/algorithm/lamport_queue_algorithm.cpp:104-143 | orderly runs: on a quiet network every queue holds exactly the tickets no party serves |
| Repeated.OrderlyProgress | src/algorithm/lamport_queue_algorithm.cpp:45-145 | orderly runs: the progress statement of quiet networks, ticket by ticket |
| Repeated.CausalIsRequestFirst | src/algorithm/lamport_queue_algorithm.cpp:95-104 | causal delivery implies requests before party starts |
| Repeated.TwoProcessesAreCausal | src/transport/mpi_transport.cpp:25-40 | between two processes FIFO channels are enough for causal delivery |
| Repeated.UnstaleStarts | src/algorithm/lamport_queue_algorithm.cpp:112-119 | where no reply comes in while a newer request is pending, every start is fair |
| Repeated.OneShotIsNeverStale | src/algorithm/lamport_queue_algorithm.cpp:112-119 | with one request each no reply is stale |
| Fairness.SeenInOrder | src/algorithm/lamport_queue_algorithm.cpp:123-143 | fair runs: of two parties, the leader with the larger ticket had handled the other one before starting its own |
| Fairness.OnlyOwnParty | src/algorithm/lamport_queue_algorithm.cpp:54-80 | fair runs: the ticket a party is started on is served by no other party |
| Fairness.EarnedFairly | src/algorithm/lamport_queue_algorithm.cpp:45-65 | fair runs: a leader has handled every older request ever issued, and after it a party serving it or a newer request of the same process |
| Fairness.ServedOnceExactly | src/algorithm/lamport_queue_algorithm.cpp:123-142 | fair runs: every ticket is served by one party if and only if no leader ever picks a process on a request that came after a party naming it, started since that request was issued; each leader can tell from its own history |
| Fairness.OneShotIsFair | src/algorithm/lamport_queue_algorithm.cpp:112-127 | one request each makes a run fair |
| Fairness.OrderlyIsFair | src/algorithm/lamport_queue_algorithm.cpp:112-127 | causal delivery with fair starts makes a run fair, without late picks, and serves every ticket once |
| StaleReply.StaleRepliesServeTwice | src/algorithm/lamport_queue_algorithm.cpp:112-119 | a reachable state, causally delivered along all chains, in which one ticket is served by two parties, because replies to older requests were counted |

## Left out

- MPI calls, probing, blocking sends and payload buffers; a channel is a sequence of messages. The
  transport skips what does not parse; by `Carriage.RunsAreCarried` no peer sends such a thing.
- Elapsed time and randomness: the coin and the expiry of a party are parameters of a poll.
- The endless loop and the stop flag of the runtime: `RunOnce` is one turn, and a run is any
  finite sequence of steps.
- Logging, string building and `Log` actions, which have no effect on the protocol.
- Command-line options, start-up, and fields that are never read.
- Crashes, message loss, changing membership and starvation-freedom, which the program excludes.
- Array and reserve operations of the byte classes, which the wire protocol does not use.
- Iterators of the ordered set: the index holds the ticket itself, and the set is a strictly sorted
  sequence.
- Bit operations of the byte classes: shifts are powers of 256, and `|=` of disjoint bytes is
  addition.
- 64-bit overflow of clocks: timestamps are unbounded, with `Ordering.ClocksAreBounded` as the bound.
- 32-bit overflow inside the policy, whose sums stay below the capacity and the number of processes.
- A single process: the local want does not recompute, so alone it waits for ever.
- Disjointness.DisjointExactly: is about one request per process; `Fairness.ServedOnceExactly` is its
  counterpart for any number of requests, in fair runs. Runs that are not fair are not characterised:
  two leaders may then pick the same process with neither having heard of the other.
- Leaders.LeadershipIsEarned: one request per process; `Fairness.EarnedFairly` and
  `Repeated.OlderIsServed` are its counterparts.
- Leaders.LeadersAreOrdered: one request per process; `Fairness.SeenInOrder` is its counterpart.
- Disjointness.QuietProgress: one request per process; `Repeated.OrderlyProgress` is its counterpart
  for any number, and `Disjointness.OldestHeadsExactly` does without requests ahead of party starts.
