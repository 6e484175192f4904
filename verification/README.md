# Verification of the room mesh, the encrypted link, transfers, throttling and room codes

A Dafny model of the logic in `core/src`, with proofs. `dafny verify dfyconfig.toml` checks all of it.

| files | what they cover |
|---|---|
| `MeshNode`, `MeshModel` | the state one node guards with its lock, as an object with one method per critical section; and the whole room as a transition system of nodes, links with two FIFO queues each, and outstanding threads |
| `MeshSafety`, `MeshSteady`, `MeshWeave`, `MeshTheorems`, `MeshFull`, `MeshProgress`, `MeshRedial`, `MeshLedger`, `MeshAdmission`, `MeshFarewell`, `MeshThreads`, `MeshDuties` | what every run keeps; what is announced as long as nobody leaves and no join link breaks; what runs without departures and failures keep for every pair of members; when the mesh is full; that a room settles; how a repeated call loses a live link; what every roster and map holds, by the steps that led there; whom a node lets in; who is told of a departure; which calls are made and repeated; that nobody waits who need not |
| `Teardown` | attach, disconnect and leave racing at one node |
| `Bytes`, `Codec` | bytes, words and big-endian numbers; framing over short reads and writes |
| `SecureLink`, `SecureProgress` | many senders, one reader and two mutexes at each end of an encrypted link, both directions at once: what every run keeps, and that it never gets stuck |
| `TransferTable`, `TransferSections`, `Transfer`, `TransferSafety`, `TransferTheorems`, `TransferAnswers`, `TransferExamples`, `TransferReceiver` | the transfer maps, and that their sections are those of the protocol; the two-party protocol of one transfer with every failure; what becomes of an answer; the receiver alone on a link that loses, repeats and reorders |
| `RateLimiter` | the pruned sliding window against a full log |
| `Base32`, `DialText`, `RoomCode`, `RoomCodeForm`, `AcceptedCodes`, `Protocol` | room codes and what they look like, address texts, which codes a host accepts, chunk frames and transfer ids |

## How to read it

The code that changes things in place is a class or a method with a loop, tied by its contract to a
function: the node's critical sections, the stream loops, the transfer maps, the limiter, the base32
loops. The protocols are transition systems over records; one action is one critical section or one
send, as the locking rules at the top of `core/src/mesh.rs` justify, and a receive is one action with
the first section of its handler, because a link has one reader. A run is a list of states and the
actions between them; theorems are about every state of every run. Records named history are read by no
guard.

Some promises hold only under a condition. There the code is modelled as it is, the exact condition is
proved, and an example run shows that it is needed:

- A full mesh needs approvals that do not overlap: `approve` reads the list of peers (line 819) and
  attaches the newcomer last (line 849), so two newcomers approved meanwhile never hear of each other
  (`MeshFull.FullMeshIff`, `MeshProgress.OverlapBreaksMesh`). The module comment of `core/src/mesh.rs`
  promises that every pair builds a direct link, without that condition.
- No link is leaked as long as each step minds its own map entry. `attach_peer` overwrites by id, and the
  check that a caller is not linked yet is a section of its own; `peer_gone` removes by id, and after Bye
  the old reader is still running (`Teardown.NoLeakIff`, `Teardown.SecondCallOverwrites`,
  `Teardown.ReattachedLinkLost`). In a room this takes a link failure and a repeated call
  (`MeshRedial.RetryOverwrites`); without departures and failures no attach overwrites
  (`MeshTheorems.NeverOverwrites`).
- An accepted transfer is left open for good exactly when the last step that should have ended it, be it
  the sender's abort or its departure, fell between the two sections of `respond_offer`, or was the
  receiver's own `leave`, which cancels nothing (`TransferTheorems.LeftOpenIff`, with a run of each kind in
  `TransferExamples`).
- After a success of the sender with nothing lost the two sides agree exactly when the file sent is still
  the one that was hashed and the receiver's disk never failed (`TransferTheorems.SuccessAgreesIff`,
  `TransferExamples.ChangedFile`).
- The receiver's byte budget holds as long as the 64-bit count does not wrap
  (`TransferTable.StoredSaneIff`), which for all runs means room for one chunk below 2^64
  (`TransferReceiver.BudgetIff`), and the chunk numbers tell the chunks
  apart unless they wrap with room left for the first chunk (`TransferReceiver.AlwaysAPrefixIff`).
- Room codes round-trip unless the port is 0 (`RoomCode.LanRoundTrip`), and a code that decodes to the host
  is accepted by it exactly when it is written as the host prints it, formatting and case aside: no
  substituted letter, no extra character, zero fill bits (`AcceptedCodes.AcceptedIff`).
- A transfer id's text is the printed form of its id exactly when it is lower case
  (`Protocol.PrintedIffLowerCase`).

Assumptions: the cipher is ideal, as CipherState in section 5.1 of the Noise Protocol Framework with the
message sizes of its section 3: a ciphertext opens under counter n only if the far end sealed it as its
n-th message. SHA-256 is any function of the bytes fed. JSON is any encoding that parses back. Peer ids
are distinct per node, transfer ids are unique, and nodes follow the protocol.

## Model

| member | source | states |
|---|---|---|
| `MeshNode.Node.BeginJoin` | core/src/mesh.rs:354-379 | a node already in a room is refused unchanged; otherwise it becomes a running joiner with empty maps and the request counter kept |
| `MeshNode.Node.AcceptWelcome` | core/src/mesh.rs:433-440 | the Welcome sets the room and adds the host and every listed member to the roster, and touches nothing else |
| `MeshNode.Node.AttachPeer` | core/src/mesh.rs:758-775 | the flag is read under the lock: a stopped node changes nothing and tells the caller to close; a running one gets both the roster and the map entry |
| `MeshNode.Node.PeerGone` | core/src/mesh.rs:943-953 | removes the entry by id and says whether there was one; only a host that removed one also forgets the id |
| `MeshNode.Node.AdmitsHello` | core/src/mesh.rs:645-674 | passes exactly for a host, its own room, a code that has not expired, and an id that is neither its own nor on the roster |
| `MeshNode.Node.Park` | core/src/mesh.rs:677-692 | the request gets a number never used before and is stored under it with its link |
| `MeshNode.Node.TakeRequest` | core/src/mesh.rs:795-800 | one caller gets a parked request, and it is gone afterwards |
| `MeshNode.Node.Leave` | core/src/mesh.rs:1029-1032 | clears the flag and says whether it was set; the maps wait for the drain |
| `MeshNode.Node.DrainAll` | core/src/mesh.rs:1035-1042 | returns every registered link and, for `leave`, every link of an unanswered request, and empties the maps in one section; `shutdown_internal` (line 1057) keeps the requests |
| `MeshSafety.InitSafe` | core/src/mesh.rs:303-336 | a fresh room satisfies the global invariant |
| `MeshSafety.StepSafe` | core/src/mesh.rs:421-956 | each of the 36 kinds of step (sections, sends, receives, timeouts, departures, cuts) keeps the global invariant over all nodes, links, queues and threads |
| `MeshSafety.RunSafe` | core/src/mesh.rs:421-956 | so every state of every run satisfies it, whatever fails, leaves or overlaps |
| `MeshTheorems.StepHistory` | core/src/mesh.rs:795-850 | the history says what happened: only an accepting `approve` accepts, only a Welcome or Rejected for a request answers it, lists are only added |
| `MeshTheorems.AcceptedMeansApproved` | core/src/mesh.rs:795-800 | an id counts as accepted if and only if some earlier step of the run was an `approve` accepting it |
| `MeshTheorems.ApprovedOnly` | core/src/mesh.rs:629-850 | in every reachable state every id in any map or roster is the host or was accepted before, and a node not accepted holds nothing |
| `MeshTheorems.AnswersGrow` | core/src/mesh.rs:795-846 | answers are never taken back |
| `MeshTheorems.AnsweredOnce` | core/src/mesh.rs:795-846 | no two steps of a run answer the same request, be it by Welcome or by Rejected |
| `MeshTheorems.NumberTaken` | core/src/mesh.rs:677-692 | requests arrive at the host only, and each takes the number the next one no longer gets |
| `MeshTheorems.RequestsUnique` | core/src/mesh.rs:677-692 | no two steps of a run give a request the same number, whether the first is still open, answered or gone |
| `MeshTheorems.OpenRequests` | core/src/mesh.rs:677-692 | two requests being decided never share a number, nor is it the number of an answered one |
| `MeshTheorems.OneDialler` | core/src/mesh.rs:819-849 | no two mesh links ever run in opposite directions between the same two nodes |
| `MeshTheorems.Acyclic` | core/src/mesh.rs:819-849 | every mesh call goes to a member whose list was read earlier, so who dials whom has no cycle, under overlapping approvals too |
| `MeshTheorems.ListsStay` | core/src/mesh.rs:819-820 | the list read for a newcomer never changes |
| `MeshTheorems.WelcomeList` | core/src/mesh.rs:841-846 | a Welcome on the wire carries the list that was read for its newcomer |
| `MeshTheorems.ListedOneWay` | core/src/mesh.rs:819-846 | no two members are ever each listed in the other's Welcome, whenever in a run the two are sent |
| `MeshTheorems.NeverOverwrites` | core/src/mesh.rs:758-775 | without departures and failures no attach finds an entry under the id it attaches |
| `MeshAdmission.ParkedWasAdmissible` | core/src/mesh.rs:645-692 | in every run, every request put before the operator came with a Hello taken earlier on that link: at the host, for the host's room, before the code expired, from an id that was neither the host's nor on its roster |
| `MeshAdmission.HelloDecided` | core/src/mesh.rs:645-674 | and any other Hello is turned away: Rejected is queued unless the link is cut, and the link is closed |
| `MeshAdmission.AckedWasKnown` | core/src/mesh.rs:718-750 | every answered mesh call was for this room, and its caller was then seen on the roster, and after that seen not to be linked, in three earlier steps |
| `MeshAdmission.WrongRoomTurned` | core/src/mesh.rs:707-716 | a mesh call for another room is turned away |
| `MeshAdmission.UnknownTurned` | core/src/mesh.rs:718-737 | and so is one whose caller is still not on the roster when the grace period ends |
| `MeshAdmission.LinkedTurned` | core/src/mesh.rs:739-742 | and one whose caller is linked already |
| `MeshAdmission.TurnedForGood` | core/src/mesh.rs:629-756 | whoever was turned away stays so: the answering thread never gets further on that link |
| `MeshAdmission.DeclinedStaysOut` | core/src/mesh.rs:795-817 | a declined request is told so or its link breaks, and its sender is never accepted, on that or any other request |
| `MeshAdmission.WelcomeSaid` | core/src/mesh.rs:838-843 | the Welcome queued carries the host's room, the host's id and the list that was read |
| `MeshAdmission.AnnouncementSaid` | core/src/mesh.rs:823-832 | the announcement queued to a member carries the newcomer's id |
| `MeshAdmission.EverybodyAnnounced` | core/src/mesh.rs:819-836 | and nobody is entered before the newcomer has been announced on every link the host held when it read the list |
| `MeshLedger.RosterIff` | core/src/mesh.rs:421-956 | whatever fails, leaves or overlaps: an id is on a node's roster if and only if some step put it there (an announcement or Welcome read, an approval, an attach) and none since took it off (PeerLeft read, the host's own loss of it, a teardown) |
| `MeshLedger.EntryIff` | core/src/mesh.rs:758-956 | and a node holds a link under an id if and only if that link was the last one attached under it, and the id has not been lost nor the node emptied since |
| `MeshThreads.DialsIff` | core/src/mesh.rs:456-502 | a call is outstanding if and only if it is the first try to somebody listed, made when the link to the host was attached, or the second or third after a failure, and no thread has taken it up since; a stopped node makes none |
| `MeshThreads.StoppedIsDrained` | core/src/mesh.rs:391-475 | whoever leaves, cannot connect or is turned down is drained, sooner or later |
| `MeshFarewell.CutStaysSilent` | core/src/mesh.rs:629-1046 | once a link is closed or broken, what can still be read from it was on its way by then |
| `MeshFarewell.LosingLists` | core/src/mesh.rs:943-966 | when the host loses a member, its reader goes on to list the members left |
| `MeshFarewell.EverybodyTold` | core/src/mesh.rs:959-966 | and from then on PeerLeft for it is owed, queued or read on the link of each of them, unless that link is cut |
| `MeshFarewell.StaysForgotten` | core/src/mesh.rs:914-949 | a member that has read PeerLeft, and the host that lost the link itself, do not have the id on their rosters until something puts it there again |
| `MeshFarewell.LeaveSaysBye` | core/src/mesh.rs:1029-1046 | every link a leaving node held is sent Bye and closed, or is about to be |
| `MeshFarewell.DrainRefuses` | core/src/mesh.rs:1035-1049 | and the links of unanswered requests are closed |
| `MeshDuties.ThreadGoesOn` | core/src/mesh.rs:421-956 | in every reachable state, whatever has failed and whoever has left, each thread can take a step of its own unless it is over, its request is before the operator, or it waits for a message on a link that is up |
| `MeshDuties.DutiesGoOn` | core/src/mesh.rs:480-1046 | and what is owed can be sent, a stopped node drained, a call made if the member called is up and else given up, a join failed; the operator can always answer a request, and leave |
| `MeshWeave.NeverHappens` | core/src/mesh.rs:444-534 | without departures, link failures and expired grace, none of the failure branches of the protocol can be taken |
| `MeshWeave.StepWeave` | core/src/mesh.rs:421-920 | every calm step keeps the invariant that ties the stages of every pair of members to the links, queues and threads between them |
| `MeshWeave.RunWeave` | core/src/mesh.rs:421-920 | so every state of every calm run satisfies it |
| `MeshTheorems.CallAnnounced` | core/src/mesh.rs:718-737 | in calm states, for a call in any stage, the callee's join link is up and carries or has delivered the announcement of the caller |
| `MeshSteady.StepFirm` | core/src/mesh.rs:421-956 | while nobody leaves and no join link breaks, every step keeps what the approvals have promised: a listed member has been told of the newcomer, is being told, or the newcomer does not know of it yet; expired grace, failed dials, retries and broken mesh links change nothing about it |
| `MeshSteady.RunFirm` | core/src/mesh.rs:421-956 | so every state of every such run keeps it |
| `MeshSteady.AnnouncedBeforeCall` | core/src/mesh.rs:819-843 | in every run without departures and broken join links, whatever else fails and however approvals overlap: for every call made and every call or retry about to be made, the member called has the caller on its roster or the host's PeerJoined for it is queued |
| `MeshTheorems.ExactlyOneStage` | core/src/mesh.rs:432-534 | a newcomer and each member on its list are at every moment in exactly one of five stages: list not acted on, dial, call, accepted call, one link held by both |
| `MeshFull.SettledFull` | core/src/mesh.rs:795-850 | in a settled room the mesh is full exactly when of every two members one was listed to the other |
| `MeshFull.NoOverlapListed` | core/src/mesh.rs:819-849 | if no list is read while another approval is between its read and its attach, of every two members one is listed to the other |
| `MeshFull.EveryPairOneStage` | core/src/mesh.rs:795-850 | then every two admitted members are at every moment in exactly one stage, and exactly one of them is to call the other |
| `MeshFull.OverlapUnlisted` | core/src/mesh.rs:819-849 | two approvals that overlap leave two members unlisted to each other for good |
| `MeshFull.FullMeshIff` | core/src/mesh.rs:795-850 | once nothing is left in flight, each node's map holds exactly all other members if and only if no two approvals overlapped |
| `MeshProgress.NeverStuck` | core/src/mesh.rs:718-737 | a calm room that has not settled can always take a step of its own: no held call waits forever |
| `MeshProgress.StepWork` | core/src/mesh.rs:421-920 | every step the nodes take by themselves lowers a measure of the work left |
| `MeshProgress.SettlesSoon` | core/src/mesh.rs:421-920 | so once nobody joins and the operator is idle there are at most that many more steps |
| `MeshProgress.RoomSettles` | core/src/mesh.rs:421-920 | every calm run extends, by the nodes' own steps, to a settled room |
| `MeshProgress.OverlapBreaksMesh` | core/src/mesh.rs:819-849 | a run with two overlapping approvals that settles without a full mesh |
| `MeshRedial.CheckedBefore` | core/src/mesh.rs:718-743 | a mesh call past the roster check in a calm run has passed it at some step |
| `MeshRedial.RetryOverwrites` | core/src/mesh.rs:480-534 | a run of the whole room in which a call is answered, its link fails, the caller tries again, the second attach overwrites the entry of the first, and the reader of the broken link then takes the entry of the live one |
| `Teardown.OwnStepTidy` | core/src/mesh.rs:758-1046 | a step that overwrites no entry and takes no entry but its own keeps every link accounted for |
| `Teardown.OtherStepLeaks` | core/src/mesh.rs:943-956 | any other step loses a link at once |
| `Teardown.NoLeakIff` | core/src/mesh.rs:758-1046 | a run of attach, disconnect and leave in any interleaving leaks no link if and only if each step minds its own entry |
| `Teardown.AttachedOnceNoLeak` | core/src/mesh.rs:753-773 | when no id is attached twice, every link given to `attach_peer` is always in the map, held by a thread that will close it, or closed |
| `Teardown.DisconnectReportedOnce` | core/src/mesh.rs:764-977 | reports about a peer are a prefix of Connected, Disconnected; Disconnected if and only if its reader rather than `leave` took the entry; PeerLeft to each remaining peer at most once |
| `Teardown.ToldExactly` | core/src/mesh.rs:959-977 | by the time a host has reported Disconnected it has sent PeerLeft to exactly the links that were in its map when it listed them, once each; a joiner sends none |
| `Teardown.ByeGoesOn` | core/src/mesh.rs:885-956 | a reader that met the end of its link stops for good; one that read Bye goes on reading |
| `Teardown.ThreadGoesOn` | core/src/mesh.rs:758-1046 | a thread that is not reading or over can always take its next step, a leaving node drain its map, and what it drained be closed |
| `Teardown.DrainedStaysEmpty` | core/src/mesh.rs:1029-1046 | after the drain the map stays empty, whatever attaches later |
| `Teardown.SecondCallOverwrites` | core/src/mesh.rs:718-775 | two calls of one caller both past the check of line 739 before either attaches: the second overwrites the entry of the first, which is lost |
| `Teardown.ReattachedLinkLost` | core/src/mesh.rs:885-956 | a run where an id attached twice loses the second link, because Bye leaves the first reader running |
| `Bytes.NumberRoundTrip` | core/src/codec.rs:58-69 | a number that fits survives `to_be_bytes` and `from_be_bytes` |
| `Bytes.ToFromBytes` | core/src/codec.rs:66-69 | and any bytes are the big-endian form of the number they denote |
| `Bytes.FourBytes` | core/src/codec.rs:66-69 | four bytes are the number they spell, the most significant first |
| `Codec.Stream.Read` | core/src/transport/mod.rs:81-82 | one read: a positive part of what is to come, an interruption, or once nothing is left zero or an error, as the stream ends or breaks |
| `Codec.Stream.Write` | core/src/transport/mod.rs:83-83 | one write: a positive part of the data, an interruption, or zero or an error once the other end takes no more |
| `Codec.Stream.ReadExact` | core/src/codec.rs:15-31 | succeeds if and only if enough bytes are to come, with exactly those bytes, under any short reads and interruptions |
| `Codec.Stream.WriteAll` | core/src/codec.rs:33-49 | succeeds if and only if the other end takes everything; otherwise exactly what it took is on the wire, in order |
| `Codec.Stream.WriteFrame` | core/src/codec.rs:51-64 | a payload over 65535 bytes is refused before a byte is written; otherwise the frame, or what the other end took of it, is on the wire |
| `Codec.Stream.ReadFrame` | core/src/codec.rs:66-79 | returns, and leaves behind, exactly what parsing the bytes to come says, with the error the end of the stream gives |
| `Codec.FrameLooks` | core/src/codec.rs:51-64 | a frame is the payload behind two zero bytes and the two of its length |
| `Codec.ParsesExactly` | core/src/codec.rs:66-79 | what any bytes parse to, by the number the first four spell: a frame, a length of 65536 or more, or too few bytes |
| `Codec.FrameParses` | core/src/codec.rs:51-79 | parsing undoes framing whatever follows |
| `Codec.CutFrameFails` | core/src/codec.rs:51-79 | a frame that is not all there is never mistaken for a shorter one |
| `Codec.WholeIsMaximal` | core/src/codec.rs:51-79 | `Whole` counts the frames that are complete: those fit and the next does not |
| `Codec.CutStream` | core/src/codec.rs:51-79 | a stream cut at any byte returns exactly the payloads whose frames are complete, then an error |
| `Codec.StreamRoundTrip` | core/src/codec.rs:51-79 | any list of payloads written and read back is that list |
| `Codec.ReadAllSound` | core/src/codec.rs:66-79 | from any bytes at all, the payloads returned are framed at their front: nothing is invented |
| `SecureLink.CounterOrderIsByteOrder` | core/src/crypto.rs:70-71 | cutting the wire into frames gives the ciphertexts of messages 0, 1, 2, ... in counter order, up to the frame being written |
| `SecureLink.NothingLost` | core/src/crypto.rs:161-198 | while no write failed the reader never refuses a frame, and once it has taken every byte of finished frames it has returned every payload |
| `SecureLink.RefusedOnlyPastTear` | core/src/crypto.rs:161-198 | after a failed write a frame may be refused, but not before everything sent ahead of the failure has been returned |
| `SecureLink.NeverEncryptsWhileWriting` | core/src/crypto.rs:70-74 | one thread at most is past the gate, the cipher mutex is never held during a socket write, and no frame is too large to write |
| `SecureLink.ReaderNeverStarves` | core/src/crypto.rs:72-74 | a reader with work can step, or the mutex it waits for is held by a sender whose very next step releases it, whatever the wire does |
| `SecureProgress.AllDelivered` | core/src/crypto.rs:161-198 | while no write has failed and no reader has given up, every run with at most 2^64 - 1 messages in all, sent and waiting, goes on without failures to where every `send` has returned and each reader has returned exactly what was encrypted, the waiting payloads included |
| `SecureProgress.Completes` | core/src/crypto.rs:161-198 | and every run goes on, by steps of the threads already inside, to a link at rest |
| `SecureProgress.NeverStuck` | core/src/crypto.rs:70-74 | as long as a thread is inside `send` or a reader has bytes or a frame, some thread can step without a failure: the two mutexes never deadlock |
| `SecureProgress.StepWork` | core/src/crypto.rs:161-198 | every step but a new call lowers a measure of the work left, in both directions together |
| `SecureProgress.RunsDry` | core/src/crypto.rs:161-198 | so once nobody calls `send` there are at most that many more steps |
| `SecureLink.DeliveredInOrder` | core/src/crypto.rs:68-73 | in every reachable state what `recv` has returned is a prefix of the payloads in the order they were encrypted, even after failed writes (from the cipher alone; that nothing is refused or missing is `NothingLost`) |
| `SecureLink.SendLocks` | core/src/crypto.rs:161-181 | gate and cipher mutex are held by whoever is past them and nobody else, after every step of a sender |
| `SecureLink.SendOrdered` | core/src/crypto.rs:161-181 | every step of a sender keeps the wire equal to the frames of the encryption log in counter order, less the unwritten tail |
| `SecureLink.PullReceived` | core/src/crypto.rs:183-198 | every short read keeps what the reader holds in step with the frames sent; a bad length is only met past a failed write |
| `SecureLink.OpenReceived` | core/src/crypto.rs:183-198 | opening a frame returns the next payload of the log, and fails only past a failed write |
| `SecureLink.StepInv` | core/src/crypto.rs:161-198 | all of it at once, for both directions and both ends sharing one cipher mutex each |
| `SecureLink.RunInv` | core/src/crypto.rs:161-198 | so it holds in every state of every run |
| `SecureLink.OnWireIsFrames` | core/src/crypto.rs:161-180 | the byte form of the log is the list of its ciphertexts, framed |
| `SecureLink.SecureLink.Send` | core/src/crypto.rs:161-181 | refused as too long exactly when the ciphertext does not fit into 65535 bytes; otherwise, with fewer than 2^64 - 1 messages sent before and room for the frame, it succeeds; a refusal changes nothing, and else the counter moves on and the frame, or what the stream took of it, is on the wire |
| `SecureLink.CounterLasts` | core/src/crypto.rs:170-179 | in every run a thread that encrypts goes on to write the frame of the next message exactly when fewer than 2^64 - 1 messages were encrypted before it |
| `SecureLink.SecureLink.Recv` | core/src/crypto.rs:183-198 | the next frame opened under the receive counter, which moves on only for a frame that opens |
| `SecureLink.SendIsPath` | core/src/crypto.rs:161-181 | what `send` does, refused, out of counters, complete in any pieces or failing after any of them, is what a path of the machine does, with the locks free again |
| `TransferTable.Transfers.Register` | core/src/files.rs:166-173 | both outgoing maps get the id in one section |
| `TransferTable.Transfers.FinishOut` | core/src/files.rs:293-298 | both lose it in one section |
| `TransferTable.Transfers.Answer` | core/src/files.rs:398-413 | an answer reaches the channel of a waiting thread, and nothing else changes |
| `TransferTable.Transfers.AddOffer` | core/src/files.rs:370-390 | the offer is stored under its id |
| `TransferTable.Transfers.TakeOffer` | core/src/files.rs:309-315 | each offer is handed out once |
| `TransferTable.Transfers.Activate` | core/src/files.rs:336-356 | the entry starts empty, with what was offered |
| `TransferTable.Transfers.HandleChunk` | core/src/files.rs:444-472 | a chunk for no entry or from another peer is ignored; otherwise the entry becomes what `TakeChunk` says, or stays for removal |
| `TransferTable.Transfers.TakeActive` | core/src/files.rs:474-511 | the entry is handed out once |
| `TransferTable.Transfers.AbortIncoming` | core/src/files.rs:419-428 | offer and entry are gone; whether there was an entry is returned |
| `TransferTable.Transfers.CancelWith` | core/src/files.rs:550-586 | nothing names the peer any more, each entry removed is reported once, each outgoing transfer to it is told once, everything else is as it was, and the outgoing maps still agree |
| `TransferSections.Begins` | core/src/files.rs:166-172 | what the table of the sending node holds under an id follows the sender of the protocol: registering |
| `TransferSections.Finishes` | core/src/files.rs:293-298 | finishing |
| `TransferSections.HearsUp` | core/src/files.rs:398-438 | an answer, or an abort for a transfer that is not incoming |
| `TransferSections.LosesReceiver` | core/src/files.rs:571-586 | the receiver departs: `cancel_transfers_with` is `CancelOut` |
| `TransferSections.HearsDown` | core/src/files.rs:368-514 | and what the receiving node holds follows the receiver: an offer, a chunk, Done, an abort, with the verdicts agreeing |
| `TransferSections.Drops` | core/src/files.rs:474-480 | removing the entry of a rejected chunk |
| `TransferSections.Responds` | core/src/files.rs:309-315 | taking the offer |
| `TransferSections.Inserts` | core/src/files.rs:336-356 | making the entry |
| `TransferSections.LosesSender` | core/src/files.rs:550-570 | the sender departs: `cancel_transfers_with` is `CancelIn`, and reports an entry exactly when there was one |
| `TransferTable.StoredSaneIff` | core/src/files.rs:454-466 | a stored chunk keeps count, hash and file in step if and only if the 64-bit byte count does not wrap |
| `TransferSafety.SenderStep` | core/src/files.rs:158-291 | every step of the sending thread keeps its two maps in agreement and reports at most once |
| `TransferSafety.SingleLink` | core/src/files.rs:368-442 | whatever arrives or is cancelled, the transfer is in one place of the receiver at most |
| `TransferSafety.OpenedLink` | core/src/files.rs:336-413 | nothing is accepted before the receiver has its entry |
| `TransferSafety.FlowSend` | core/src/files.rs:230-261 | sending a chunk keeps written ++ in flight ++ unsent equal to the file and the numbers consecutive modulo 2^32 |
| `TransferSafety.FlowChunk` | core/src/files.rs:448-472 | taking one does too; only the disk or a file grown beyond the offer stands in the way |
| `TransferTheorems.StepShape` | core/src/files.rs:158-596 | every step of either side, of the link, and every failure keeps the bookkeeping, for any sizes |
| `TransferTheorems.StepSafe` | core/src/files.rs:158-596 | and the conservation of the bytes |
| `TransferTheorems.RunShape` | core/src/files.rs:158-596 | so the bookkeeping holds in every state of every run |
| `TransferTheorems.RunSafe` | core/src/files.rs:158-596 | and the conservation too |
| `TransferTheorems.Conservation` | core/src/files.rs:230-277 | while a transfer is open: written ++ in flight ++ unsent is the file, `got` the length written, `next_seq` the chunks taken modulo 2^32, for every pattern of short reads; after a loss still a prefix |
| `TransferTheorems.DoneMeansWhole` | core/src/files.rs:505-514 | taking the sender's Done with the transfer open means the whole content is on disk; it is reported ok exactly when length and digest are those offered |
| `TransferTheorems.OnlyTheDiskFails` | core/src/files.rs:454-466 | a chunk is stored unless the disk fails or the file read has grown beyond the offer, which no chunk of an unchanged file does |
| `TransferTheorems.NoUnawaitedChunk` | core/src/files.rs:336-359 | a chunk or Done in flight means the receiver has the transfer open or has ended it |
| `TransferTheorems.Bookkeeping` | core/src/files.rs:166-306 | `waiters` and `out_peer` agree, each side reports the end at most once, and the receiver holds the transfer in one place only |
| `TransferTheorems.RunFate` | core/src/files.rs:444-547 | what the receiver reports is tied to the disk, to what was offered and to the file on disk, in every state of every run |
| `TransferTheorems.SuccessAgreesIff` | core/src/files.rs:146-547 | after a success of the sender with nothing lost the receiver reports success if and only if the file sent is the one hashed and its disk never failed, and then it has the file |
| `TransferExamples.ChangedFile` | core/src/files.rs:146-547 | a file emptied after hashing: the sender reports success, the receiver failure, with nothing lost and no disk failure |
| `TransferTheorems.MissedMeans` | core/src/files.rs:311-340 | the flag of the next rows says that the last step of the run that should have ended the transfer at the receiver overlooked it |
| `TransferTheorems.RunGap` | core/src/files.rs:309-438 | what an overlooked end leaves behind, in every state of every run, whatever fails and whoever leaves |
| `TransferTheorems.LeftOpenIff` | core/src/files.rs:309-596 | once the receiver has cancelled or left, or nothing was lost and all has arrived, an accepted transfer is still open if and only if the last step that should have ended it came while the offer was being accepted, or was the receiver's own `leave` |
| `TransferExamples.AbortInTheGap` | core/src/files.rs:311-340 | the sender aborts between the two sections of `respond_offer`: the receiver waits for a sender that is over, and only a departure ends it |
| `TransferExamples.DepartureInTheGap` | core/src/files.rs:317-340 | the sender departs there: the cancellation finds nothing, and afterwards nothing can end the transfer |
| `TransferExamples.LeaveWhileOpen` | core/src/mesh.rs:1029-1055 | the receiver leaves with the transfer open: `leave` drains the peers, so no reader cancels |
| `TransferAnswers.OnlyAsAnswered` | core/src/files.rs:309-359 | nothing is accepted and no file written unless the recipient said yes, and nothing declined unless they said no |
| `TransferAnswers.NoIsReported` | core/src/files.rs:317-334 | whoever declines is told that the transfer failed, whether or not the sender is still there |
| `TransferAnswers.DeclineReaches` | core/src/files.rs:318-325 | after the receiver has declined, as long as nothing is lost: the Decline is on its way or unread while the sender waits, and otherwise the sender has failed or is about to |
| `TransferAnswers.DeclinedSaid` | core/src/files.rs:318-325 | and with nothing lost a receiver in the declining branch has sent that Decline |
| `TransferAnswers.DeclinedFails` | core/src/files.rs:185-201 | so with nothing lost, on its way or unread, a declined offer is a failed transfer on both sides, and without a timeout the sender is through |
| `TransferAnswers.ComesFrom` | core/src/files.rs:185-228 | with nothing lost a Decline comes from a receiver that declined, and a sender stops waiting without an Accept only after a Decline or a timeout |
| `TransferAnswers.AcceptReaches` | core/src/files.rs:185-228 | after an Accept, with nothing lost, the waiting sender will read it, or has read it and opened the file, or had timed out |
| `TransferAnswers.EndsAtOnce` | core/src/files.rs:180-291 | an offer or chunk that cannot be sent, a Decline read or an abort attempted ends the sending at once as a failure, the announced end of the file as a success, and that is what is reported |
| `TransferAnswers.GivingUpAborts` | core/src/files.rs:203-250 | whoever gives up waiting, cannot open the file or cannot read on has tried to send an abort before it fails |
| `TransferAnswers.DropTells` | core/src/files.rs:474-484 | a receiver whose entry a rejected chunk has ended goes on to send an abort |
| `TransferAnswers.StopReaches` | core/src/files.rs:474-484 | a receiver that has given a transfer up has its abort on its way or heard |
| `TransferAnswers.DepartureReleases` | core/src/files.rs:571-586 | a registered sender that still waits after its recipient departed has a Decline to read |
| `TransferAnswers.RunRegistered` | core/src/files.rs:166-173 | a sender that waits is registered unless its recipient departed, and one that has finished is not |
| `TransferAnswers.OneAtATime` | core/src/files.rs:185-228 | nobody times out with an answer unread, and a reader takes a message only when it is through with the one before it |
| `TransferAnswers.SenderHasStep` | core/src/files.rs:158-306 | a sender that is neither over nor waiting for an answer has a step to take, and while the link is up one that sends what it has to send |
| `TransferAnswers.ReceiverHasStep` | core/src/files.rs:309-514 | an offer, an answer under way, a reader in the middle of something and a message that has arrived can always be dealt with |
| `TransferExamples.SentWhole` | core/src/files.rs:146-291 | any unchanged file whose size is a 64-bit number can be sent, however it is read in pieces of 1 to 32768 bytes: both sides report success and the file on disk is the one sent |
| `TransferReceiver.AlwaysAPrefix` | core/src/files.rs:444-472 | under any loss, repetition and reordering of at most 2^32 non-empty chunks, the first of which does not fit again once all are taken, the file is exactly the first chunks taken, within the budget, and the hash has been fed just that |
| `TransferReceiver.AlwaysAPrefixIff` | core/src/files.rs:454-466 | and that last condition, needed for exactly 2^32 chunks only, is exact |
| `TransferReceiver.FirstTakenAgain` | core/src/files.rs:454-466 | when it fails, the first chunk repeated after the last is taken again |
| `TransferReceiver.BudgetIff` | core/src/files.rs:459-465 | under every sequence of arrivals of chunks of at most a given size the file stays within the offered size, if and only if the offer leaves room for one such chunk below 2^64 |
| `TransferReceiver.BudgetOverrun` | core/src/files.rs:459-465 | without that room an offer can be filled byte by byte and a last chunk is taken too, with the count wrapped |
| `TransferReceiver.NextIndex` | core/src/files.rs:454-466 | a chunk that fits is the next one, although numbers repeat modulo 2^32 |
| `TransferReceiver.ReportsExactly` | core/src/files.rs:505-514 | success is reported exactly when length and digest match; for an offer of these chunks, exactly when the whole file is on disk |
| `RateLimiter.RateLimiter.TryAllow` | core/src/ratelimit.rs:35-48 | the object prunes both lists, refuses or records, as `Allow` says; when that lets an attempt through is `AllowedIff` |
| `RateLimiter.RateLimiter.SweepAll` | core/src/ratelimit.rs:51-56 | and what `Sweep` says |
| `RateLimiter.RateLimiter.Retain` | core/src/ratelimit.rs:38-40 | `retain` keeps the instants less than the window old, in order |
| `RateLimiter.AllowRefines` | core/src/ratelimit.rs:35-48 | one call answers as the log does, and the pruned lists go on agreeing with it at every later instant |
| `RateLimiter.SweepRefines` | core/src/ratelimit.rs:51-56 | sweeping removes only sources that can never count again |
| `RateLimiter.AnswersLikeTheLog` | core/src/ratelimit.rs:35-56 | under a clock that never runs backwards every sequence of calls is answered exactly as by a limiter that keeps every admitted attempt |
| `RateLimiter.AllowedIff` | core/src/ratelimit.rs:35-48 | an attempt is let through if and only if fewer than `per_source` attempts of its source and fewer than `global` in all were let through less than the window ago, counted over the calls of the run |
| `RateLimiter.QuietRoomAllows` | core/src/ratelimit.rs:35-48 | so whoever comes when nobody was let through for a whole window is let through |
| `RateLimiter.MemoryBounded` | core/src/ratelimit.rs:35-48 | neither list outgrows its budget, however many attempts are made |
| `RateLimiter.SweptExactly` | core/src/ratelimit.rs:51-56 | after a sweep the sources on record are exactly those with an attempt let through less than the window ago |
| `RateLimiter.SweepsInvisible` | core/src/ratelimit.rs:51-56 | two sequences with the same `allow` calls get the same answers, wherever either of them sweeps |
| `RateLimiter.GlobalIsUnionOfSources` | core/src/ratelimit.rs:14-15 | at every instant from the last call on, the live part of the global list is, as a multiset, the union of the live parts of the per-source lists |
| `RateLimiter.BudgetHolds` | core/src/ratelimit.rs:5-8 | in every interval of the window's length, wherever it starts, at most `per_source` attempts of a source and `global` overall are let through |
| `Base32.Encode` | core/src/roomcode.rs:21-37 | the loop with the 32-bit accumulator computes the bit packing |
| `Base32.Decode` | core/src/roomcode.rs:54-71 | the parsing loop computes the unpacking, with both error cases |
| `Base32.ShiftIn` | core/src/roomcode.rs:26-27 | shifting in a byte or a symbol keeps the low bits right, whatever falls off the top of the word |
| `Base32.Emit` | core/src/roomcode.rs:28-31 | taking a group out leaves the other bits right |
| `Base32.SymbolOfLetter` | core/src/roomcode.rs:39-52 | every letter of the alphabet is read as the symbol it prints |
| `Base32.BitForBit` | core/src/roomcode.rs:21-37 | bit k of the text is bit k of the data, most significant first, and the fill is zero |
| `Base32.OctetsOfSymbols` | core/src/roomcode.rs:21-71 | packing and unpacking gives the bytes back: the fill bits are never a byte |
| `Base32.RoundTrip` | core/src/roomcode.rs:21-71 | for byte strings of every length n: decoding undoes encoding, the text has ceil(8n/5) characters, and n bytes come out before truncation |
| `Base32.FoldInvariant` | core/src/roomcode.rs:39-46 | only the folded characters matter |
| `DialText.SocketRoundTrip` | core/src/roomcode.rs:107-149 | every IPv4 address and port survives being printed and parsed |
| `DialText.DialRoundTrip` | core/src/transport/bluetooth_stub.rs:18-41 | every 48-bit address and 32-bit channel survives `format_addr` and `parse_dial` |
| `DialText.AddrRoundTrip` | core/src/transport/bluetooth_stub.rs:18-30 | twelve hex digits give the address back |
| `RoomCode.Encode` | core/src/roomcode.rs:104-136 | computes `Encoded`, with its error cases |
| `RoomCode.Decode` | core/src/roomcode.rs:139-166 | computes `Decoded`, with its error cases |
| `RoomCode.JoinAddress` | core/src/roomcode.rs:153-156 | the 64-bit loop puts six bytes together without losing any |
| `RoomCode.NormalizePretty` | core/src/roomcode.rs:74-100 | tag and dashes come off again |
| `RoomCode.FormattingIgnored` | core/src/roomcode.rs:74-90 | `decode` depends only on the normalized code |
| `RoomCode.SubstitutionsIgnored` | core/src/roomcode.rs:39-46 | in a code as typed, writing I or L for 1 and O for 0 after the tag changes nothing |
| `RoomCodeForm.AlphabetForm` | core/src/roomcode.rs:19-19 | the alphabet is the digits and the capital letters but I, L, O and U, in order |
| `RoomCodeForm.SymbolMeans` | core/src/roomcode.rs:39-52 | I and L are read as 1, O as 0, every other letter of either case as its place in the alphabet, U and everything else as nothing |
| `RoomCodeForm.DecorationIgnored` | core/src/roomcode.rs:74-80 | a character that is neither a letter nor a digit may stand anywhere in a code |
| `RoomCodeForm.CaseIgnored` | core/src/roomcode.rs:74-80 | and the case of a letter makes no difference |
| `RoomCodeForm.LookalikesIgnored` | core/src/roomcode.rs:39-46 | nor, after the tag, does writing I or L for 1 or O for 0, of either case |
| `RoomCodeForm.DecodeFails` | core/src/roomcode.rs:54-90 | exactly when a code is refused as empty, for its tag, for a U, or for fewer than 10 characters of payload on a LAN and 12 for Bluetooth |
| `RoomCodeForm.CodeLooks` | core/src/roomcode.rs:92-100 | a LAN code is L and two groups of five letters of the alphabet, a Bluetooth code B and groups of five, five and two |
| `RoomCodeForm.TextIsNumber` | core/src/roomcode.rs:21-37 | a text is, in base 32, the number the bytes spell, moved up to a whole symbol |
| `RoomCodeForm.LanNumber` | core/src/roomcode.rs:107-121 | so the payload of a LAN code is the four octets and the port as one number |
| `RoomCodeForm.BluetoothNumber` | core/src/roomcode.rs:123-134 | and that of a Bluetooth code the address and the channel |
| `RoomCodeForm.SocketIff` | core/src/roomcode.rs:107-121 | exactly the texts of four octets without leading zeros, dots between them, a colon and a port up to 65535 are read as an address |
| `RoomCodeForm.RadioIff` | core/src/transport/bluetooth_stub.rs:18-41 | exactly the texts of twelve hex digits, whatever stands between them, a colon, and a 32-bit number behind at most one plus sign are read as a Bluetooth address |
| `RoomCodeForm.SeparatorsIgnored` | core/src/transport/bluetooth_stub.rs:22-30 | a character that is no hex digit may stand anywhere in a Bluetooth address |
| `RoomCodeForm.AddressLooks` | core/src/transport/bluetooth_stub.rs:27-30 | a Bluetooth address is printed as twelve capital hex digits, the most significant first |
| `RoomCode.LanRoundTrip` | core/src/roomcode.rs:104-149 | for every text that parses as an IPv4 address and port: an 11-character code that decodes to the canonical text, except port 0, which `encode` accepts and `decode` refuses |
| `RoomCode.BluetoothRoundTrip` | core/src/roomcode.rs:123-164 | a code if and only if the channel is 1 to 30, of 13 characters, decoding to the canonical text |
| `RoomCode.ListenerTextRoundTrip` | core/src/roomcode.rs:104-166 | what a listener reports comes back unchanged, exactly when the port is not 0 and the channel is 1 to 30 |
| `Base32.CanonicalIff` | core/src/roomcode.rs:21-71 | a text that decodes to given bytes is the one printed for them if and only if it has the printed length, no character that folding changes, and zero fill bits |
| `AcceptedCodes.AcceptedIff` | core/src/mesh.rs:657-660 | every code that decodes to what the host's decodes to is accepted by the host if and only if its payload has the printed length, no substituted letter and zero fill bits |
| `AcceptedCodes.SubstitutedLetterRefused` | core/src/mesh.rs:1074-1079 | a code with a substituted letter decodes to the host and is refused by it |
| `AcceptedCodes.ExtraCharacterRefused` | core/src/mesh.rs:1074-1079 | so does every host's code with a letter appended |
| `AcceptedCodes.FillBitRefused` | core/src/mesh.rs:1074-1079 | and every host's code with a fill bit set |
| `Protocol.EncodeChunk` | core/src/protocol.rs:113-120 | a byte 2, the 16 bytes of the id, the number in four bytes, the most significant first, and the data |
| `Protocol.FrameRoundTrip` | core/src/protocol.rs:106-144 | control and chunk frames decode to what was encoded, and a file chunk fits into one encrypted message |
| `Protocol.ChunkIsEncoded` | core/src/protocol.rs:128-140 | nothing else decodes to a chunk |
| `Protocol.DecodesExactly` | core/src/protocol.rs:122-144 | what any frame decodes to, by its first byte and its length, with each of the four errors |
| `Protocol.PairReads` | core/src/protocol.rs:159-169 | two hex digits of either case are read as what they say, a plus and a digit as the digit |
| `Protocol.PairRefuses` | core/src/protocol.rs:159-169 | and nothing else is read |
| `Protocol.Unhex16` | core/src/protocol.rs:159-169 | the 16 bytes the text parses to, or nothing when it parses to none |
| `Protocol.IdRoundTrip` | core/src/protocol.rs:155-169 | an id printed and parsed is that id and no other |
| `Protocol.PrintedIffLowerCase` | core/src/protocol.rs:155-169 | a text that parses is the printed form of its id if and only if it is all lower-case hex digits |

## Left out

- The Noise handshake, key generation, fingerprints, SHA-256 itself, JSON and clock formatting: parameters or the assumptions above.
- Sockets, RFCOMM, listeners, real threads and timeouts: a stream is a byte pipe with arbitrary short reads and writes, interruptions and a break at any byte; a timeout is a step that may come at any time.
- Chat, the transcript and its export, progress and status events, `human_size`, `safe_file_name`, `sanitize_name`, the user interface: they add nothing hard.
- One session per node: opening or joining a second room with the same node is not modelled; a run starts with one host whose room is open.
- In the mesh, peer ids and rooms are numbers, a room standing for the text after `normalize_code`; protocol versions always match.
- In the mesh, a connection refused by the limiter or a failed handshake is a link that is cut; whether a code has expired is an arbitrary answer at each request, which covers `reopen_joining`.
- In the mesh, closing the links of unanswered requests happens in the same step as the drain of `leave`, and `shutdown_internal` closes peer links in its drain.
- Mutex poisoning and panicking threads.
- MeshSteady.AnnouncedBeforeCall: for runs in which nobody leaves and no link to the host breaks; a broken one may lose the announcement, and so may a member or host that leaves.
- MeshTheorems.ExactlyOneStage: for runs without departures, link failures and expired grace periods; under those only the safety results are claimed, because the code then gives a dial up after three attempts.
- MeshFull.FullMeshIff: likewise; a member whose link failed is not called again by the code. The mesh among those who remain after others have left is not treated.
- In the mesh, the read of `running` before an attempt to dial is taken together with the attach or the failure before it, so the pause between attempts is not a moment of its own.
- MeshProgress.RoomSettles: fairness between threads is not modelled; it says that some thread can always step and that the steps are bounded.
- Teardown.DisconnectReportedOnce: for ids attached at most once; with a second attach under the same id the code can report for the wrong link.
- SecureLink.RefusedOnlyPastTear: says nothing about payloads encrypted after a failed write beyond their order; the source closes such a link.
- The transfer protocol is modelled for one id; chunks and controls of other transfers on the same link are left out of its queues, since every section but `cancel_transfers_with` works on one id, and that one is `TransferTable.Transfers.CancelWith`; `TransferSections` ties the sections to the protocol id by id.
- A disk write that fails part-way through a chunk, a failing flush, file names and paths.
- TransferTheorems.LeftOpenIff: a receiver that has noticed neither a departure nor a lost message is not settled; the broken link that lost the message has still to be noticed.
- Transfer ids with characters outside ASCII, and the wording of error messages; an IPv6 address and a text that is no address are refused alike.
- Instants are natural numbers, and one clock reading is a parameter of each limiter call.
- Overflow of vector lengths and of the request counter.
