# GPS location stack: verified models

This project models, in Dafny, the parts of the Sony Taoshan device tree that keep state over time, and proves what
they promise for all inputs, all interleavings and all runs.

The centre is the GPS location stack:

- `LinkedList.dfy` is the doubly linked heap list, with real pointers, refined to a sequence.
- `MsgQueue.dfy` is the message queue as a monitor: a step for each critical section of each thread and for each
  wakeup, spurious ones included. `MsgQueueObject.dfy` is the queue object over the heap list, each of its sections
  refining one of those steps, and its invariant that it stands where a run of the monitor leads.
- `AgpsModel.dfy` says what the AGPS state machine does to its state, its subscriber list and the outside world, one
  external event at a time. A log records every call of the servicer, every notification, every clone that joins or is
  dropped, and also what must never happen: a servicer call swallowed by its gate, and the error message of the
  Released state. The properties of whole runs are then statements about that log: `AgpsShape.dfy` (which lists go with
  which states), `AgpsBalance.dfy` (connection requests and memberships), `AgpsGrants.dfy` (who has been told what),
  `AgpsNotices.dfy` (why each notification is sent, and who gets one), `AgpsWires.dfy` (what the daemons and the modem may
  conclude), `AgpsService.dfy` (who gets served), `AgpsDrain.dfy` (closing down), `AgpsEngine.dfy` (the three machines as
  the engine builds and feeds them), `AgpsDispatch.dfy` (what each message of the engine does to which machine).
- `AgpsMachine.dfy` is the machine itself, a class over the heap list whose subscribers are objects changed in place. Each
  of its public methods is proved to do exactly one step of the model, and its invariant is that it stands where a run of
  the model leads; `AgpsPromises.dfy` says what that means between any two calls.
- `NiHandshake.dfy` is the network-initiated request handshake, one action for each access to a shared variable;
  `NiRuns.dfy` has whole runs of it, with and without an answer.
- `AidingData.dfy` is the deferred-action loop as far as it concerns aiding data.

The rest are pairs that undo each other: `Camera.dfy` (parameter fixups), `Framing.dfy` (control messages over a pipe),
`AddressText.dfy` (swapped-nibble addresses and hex text), and `Config.dfy` (the gps.conf reader and its in-place trim)
with `ConfigLines.dfy` (what its lines mean).

Conventions. A run is a sequence of events or labels; one that is not enabled changes nothing, so that every sequence is
an interleaving. Where a claim about the code is false in some cases, the lemma is an equivalence that names them, and
another lemma has a run or an input where it fails:

- `AgpsService.ServedIffAdmitted`: `AgpsEngine.AnotherKindUnserved` (a BIT client whose address is an ATL handle),
  `AgpsEngine.InactiveUnserved` (a WIFI client that comes back too early);
- `AgpsEngine.AtlReleaseEnds`: `AgpsEngine.AnotherKindReleased` (an ATL handle that is a BIT address);
- `AgpsEngine.DataMachinesCount`: `AgpsEngine.RestartOrphans` (a connection nobody uses after a modem restart);
- `NiHandshake.QuietAnswered`: `NiRuns.UnspawnedUnanswered` (no thread, no answer);
- `NiHandshake.AnsweredOnceByExit`: `NiRuns.TakenOver` (the thread of a request without data takes the next block);
- `Camera.RoundTrip`: `Camera.IsoWithoutPrefix` and `Camera.RecordingLosesHdr`, with `Camera.LossyParams` for both;
- `Framing.ReceiveFrame` and `Framing.AllArriveIff`: `Framing.TooLongLosesBoundary`;
- `AddressText.UnhexHex`: `AddressText.SignedSpoils`.

Some comments in the code say otherwise than the code, and the model follows the code: RELEASED in Releasing goes to
inactive members and removes them (the comment at `gps/libloc_api_50001/loc_eng_agps.cpp:525` says active and kept); a
subscriber equal to an inactive member is not added; `trim_space` leaves an all-blank string alone although its header
says it removes blanks.

## Model

| member | source | states |
|---|---|---|
| `LinkedList.List.Init` | gps/utils/linked_list.c:58-80 | An empty, well linked list that accounts for nothing, or which of a NULL output and a failed allocation prevented it. |
| `LinkedList.List.LinkHead` | gps/utils/linked_list.c:139-152 | Over real next and prev pointers: the element becomes the head, everything else keeps its place, links stay inverse and acyclic. |
| `LinkedList.List.UnlinkTail` | gps/utils/linked_list.c:183-195 | The last element, and only it, leaves the chain. |
| `LinkedList.List.Unlink` | gps/utils/linked_list.c:298-310 | The element at any position, and only it, leaves the chain; head and tail follow. |
| `LinkedList.List.Add` | gps/utils/linked_list.c:110-155 | Prepends, or reports which of NULL data and failed allocation stopped it, with nothing changed; every element stays accounted for. |
| `LinkedList.List.Remove` | gps/utils/linked_list.c:162-204 | Hands out the oldest pointer and nothing else; a NULL output or an empty list is reported and nothing is written. |
| `LinkedList.List.Empty` | gps/utils/linked_list.c:211-223 | True exactly of the empty sequence. |
| `LinkedList.List.Flush` | gps/utils/linked_list.c:230-260 | Empties the list; the dealloc functions called, head first, are exactly those of the elements that have one, once each, and the other elements are dropped. |
| `LinkedList.FlushedSettles` | gps/utils/linked_list.c:230-260 | After a flush every element ever added is in exactly one place, and no dealloc function has been called twice for one. |
| `LinkedList.List.Scan` | gps/utils/linked_list.c:285-324 | Finds the first element the callback accepts, calling it on exactly the elements up to there, and leaves the list alone. |
| `LinkedList.List.Search` | gps/utils/linked_list.c:267-327 | The first match, and with removal the sequence without just that match; an empty list leaves the output as it was. |
| `LinkedList.List.Delete` | gps/utils/linked_list.c:297-318 | The removed element goes to exactly one of handed out, deallocated by one call, and dropped, by whether the caller takes it and whether it has a dealloc function. |
| `LinkedList.UnlistedSettles` | gps/utils/linked_list.c:298-318 | The same after an element was taken out, whatever becomes of its data. |
| `MsgQueueObject.MsgQ.Create` | gps/utils/msg_q.c:92-137 | A new queue is the initial monitor state; each of the failures on the way is reported. |
| `MsgQueueObject.MsgQ.Snd` | gps/utils/msg_q.c:171-207 | One send over the heap list is one send step of the monitor: on success the message is at the end of the queue and of what was sent, on any error both are as before; it signals even when the allocation fails. |
| `MsgQueueObject.MsgQ.TryTake` | gps/utils/msg_q.c:243-248 | The wait test and the removal: the oldest message goes to the thread, or the thread waits, or an unblocked empty queue is reported. |
| `MsgQueueObject.MsgQ.RcvEnter` | gps/utils/msg_q.c:214-250 | A receive up to its first wait or its return is one monitor step, with what the caller gets; a NULL output changes nothing. |
| `MsgQueueObject.MsgQ.RcvResume` | gps/utils/msg_q.c:243-254 | A woken receiver's next section is one monitor step; after an unblock it may still take a message. |
| `MsgQueueObject.MsgQ.FlushAll` | gps/utils/msg_q.c:262-285 | A flush is one monitor step: every queued message leaves, in order, and the queue is empty. |
| `MsgQueueObject.MsgQ.UnblockAll` | gps/utils/msg_q.c:292-322 | An unblock is one monitor step, refused the second time: everybody who waits is woken, and no message is touched. |
| `MsgQueueObject.MsgQ.History` | gps/utils/msg_q.c:171-322 | Between any two sections the queue object has lost no wakeup and no message, keeps their order, and has nobody waiting once unblocked. |
| `MsgQueueObject.Drive` | gps/utils/msg_q.c:92-322 | A queue can be made and taken through any interleaving of sections and wakeups, and then is where the monitor is. |
| `MsgQueue.StepKeepsWakeup` | gps/utils/msg_q.c:187-202 | Every critical section, spurious wakeup and barging receive keeps: while someone waits, the queue is no longer than the set of woken receivers. |
| `MsgQueue.StepKeepsOrder` | gps/utils/msg_q.c:197-284 | Every critical section keeps: accepted sends = messages gone, in order, followed by messages queued. |
| `MsgQueue.WakeupsNotLost` | gps/utils/msg_q.c:187-250 | For any threads in any interleaving: with a receiver waiting, queue length is at most the number of woken receivers, so a queued message always has one coming for it. |
| `MsgQueue.SentAreAccepted` | gps/utils/msg_q.c:171-207 | For any interleaving: what counts as sent is exactly the messages of the sends that found memory before the first unblock, in order, read off the interleaving. |
| `MsgQueue.FirstInFirstOut` | gps/utils/msg_q.c:171-285 | For any interleaving: messages received or flushed are a prefix of the accepted sends, in order and once each; the queue is the rest. |
| `MsgQueue.AcceptedAreDelivered` | gps/utils/msg_q.c:171-285 | For any interleaving: each of those messages has been received or flushed, in that order, or is still queued. |
| `MsgQueue.NobodyWaitsAfterUnblock` | gps/utils/msg_q.c:292-322 | After an unblock, whatever happens before and after, nobody waits again and nothing more is accepted. |
| `MsgQueue.DrainedBeforeWaiting` | gps/utils/msg_q.c:243-248 | Once every woken receiver has had its turn, in any order, someone still waits only if the queue is empty. |
| `AgpsShape.EqualsEquivalence` | gps/libloc_api_50001/loc_eng_agps.cpp:104-111 | `equals`, overridden and asymmetric in the code, is an equivalence on well-formed clients. |
| `AgpsShape.EqualsMeans` | gps/libloc_api_50001/loc_eng_agps.cpp:104-111 | Two clients are equal if they have one ID, whatever their kinds; of two IPv6 clients the bytes of the addresses decide, as strncmp compares them. |
| `AgpsShape.OnlyMember` | gps/libloc_api_50001/loc_eng_agps.cpp:666-676 | A client is never two members: equal members are one. |
| `AgpsShape.AddressedToOne` | gps/libloc_api_50001/loc_eng_agps.cpp:318-321 | An unsubscribe notification reaches and removes exactly the member it was made for. |
| `AgpsShape.LetGoKeeps` | gps/libloc_api_50001/loc_eng_agps.cpp:324-337 | After a close in Pending or Acquired the next state fits the list, and the release call passes its gate. |
| `AgpsShape.ReleasedInReleasing` | gps/libloc_api_50001/loc_eng_agps.cpp:519-536 | Once the inactive members are gone everyone left is active, so the new request passes its gate. |
| `AgpsShape.StepKeeps` | gps/libloc_api_50001/loc_eng_agps.cpp:235-548 | Every event keeps: Released has an empty list, members are pairwise unequal, no servicer call is suppressed, the error of Released is not logged; without a restart, state and list fit. |
| `AgpsShape.ReachableShape` | gps/libloc_api_50001/loc_eng_agps.cpp:235-242 | The same for every run, modem restarts included; requests, and only requests, are made on behalf of a subscriber. |
| `AgpsShape.ReachableTight` | gps/libloc_api_50001/loc_eng_agps.cpp:298-548 | Between restarts: Released iff the list is empty; Pending and Acquired have an active member; Releasing has an inactive one. |
| `AgpsBalance.AskBalance` | gps/libloc_api_50001/loc_eng_agps.cpp:678-704 | A call that is not suppressed reaches the servicer exactly once. |
| `AgpsBalance.ConnectionsBalance` | gps/libloc_api_50001/loc_eng_agps.cpp:235-548 | In every run, restarts included: requests - releases - denials in Pending - releases in Acquired is 1 in Pending and Acquired and 0 otherwise. |
| `AgpsBalance.TellRemoves` | gps/libloc_api_50001/loc_eng_agps.cpp:644-664 | A terminal notification removes exactly those it is told to. |
| `AgpsBalance.StepSeen` | gps/libloc_api_50001/loc_eng_agps.cpp:666-676 | An event adds at most one clone, and only a subscribe call does. |
| `AgpsBalance.EachMembershipEndsOnce` | gps/libloc_api_50001/loc_eng_agps.cpp:644-728 | In every run each clone ever added is exactly one of: still listed, closed by exactly one terminal notification, dropped once at a restart. |
| `AgpsGrants.GrantKnowledge` | gps/libloc_api_50001/loc_eng_agps.cpp:298-548 | In every run: in Pending nobody has been told GRANTED during the membership of any member; in Acquired every active member has been told, itself or when it subscribed; in Releasing nobody during that of an active member. |
| `AgpsGrants.GrantInforms` | gps/libloc_api_50001/loc_eng_agps.cpp:341-348 | A grant in Pending tells every active member, and each on its own account. |
| `AgpsGrants.NotificationsAddressed` | gps/libloc_api_50001/loc_eng_agps.cpp:113-213 | In every run what a member is told goes to the client that subscribed, and something is sent for it, although a WIFI subscriber would ignore an UNSUBSCRIBE. |
| `AgpsNotices.EveryNoticeDue` | gps/libloc_api_50001/loc_eng_agps.cpp:298-548 | In every run each notification answers the last event before it: GRANTED only a grant in Pending or a subscribe in Acquired, DENIED only a denial or an extra subscriber, RELEASED only a release, UNSUBSCRIBE only an unsubscribe of that client. |
| `AgpsNotices.EveryReasonTold` | gps/libloc_api_50001/loc_eng_agps.cpp:298-536 | In every reachable state: a grant in Pending tells every active member once, a denial in Pending and a release in Acquired tell every member once and empty the list, and either in Releasing tells every inactive member once, removes it and starts again for the others. |
| `AgpsNotices.EveryLeaveTold` | gps/libloc_api_50001/loc_eng_agps.cpp:313-322 | In every reachable state exactly the member that unsubscribes leaves: told UNSUBSCRIBE once, or inactive and told nothing if it is a WIFI one; a stranger changes nothing. |
| `AgpsNotices.EveryMove` | gps/libloc_api_50001/loc_eng_agps.cpp:235-549 | In every reachable state the next state follows from the members: an unsubscribe that leaves nobody ends in Released and one that leaves nobody active in Releasing; a release that completes goes to Pending exactly if a member is still active. |
| `AgpsShape.GateIs` | gps/libloc_api_50001/loc_eng_agps.cpp:678-700 | The servicer is asked for a connection exactly if some member is active and asked to release one exactly if none is. |
| `AgpsShape.ErrorIs` | gps/libloc_api_50001/loc_eng_agps.cpp:237-241 | The error of the Released state is logged exactly if its list is not empty. |
| `AgpsNotices.RequestedForNewest` | gps/libloc_api_50001/loc_eng_agps.cpp:678-700 | In every run a connection is requested on behalf of the active member that subscribed last. |
| `AgpsWires.EveryWireTrue` | gps/libloc_api_50001/loc_eng_agps.cpp:113-213 | In every run whatever is sent is true and reaches its owner: success only by a step that ends in Acquired, failure only on a denial or to an extra subscriber, a close only on a release or an unsubscribe. |
| `AgpsWires.EveryAnswerSent` | gps/libloc_api_50001/loc_eng_agps.cpp:113-213 | A notification of a grant, a denial or a release always sends the message of that meaning. |
| `AgpsService.Adding` | gps/libloc_api_50001/loc_eng_agps.cpp:666-676 | Adding makes the client an active member of its own kind if and only if every member with an equal ID is that already. |
| `AgpsService.Subscribing` | gps/libloc_api_50001/loc_eng_agps.cpp:706-714 | A subscribe call leads out of Released, and to an active membership of the client, of its own kind, exactly if the machine serves it. |
| `AgpsService.ServedIffAdmitted` | gps/libloc_api_50001/loc_eng_agps.cpp:298-548 | From every reachable state of every machine a client that subscribes ends up an active member, of its own kind, told GRANTED once the framework answers, if and only if every member equal to it is active and of its kind - or, on a machine for one subscriber that has one, if it is that active member. |
| `AgpsService.SameWire` | gps/libloc_api_50001/loc_eng_agps.cpp:113-213 | Equal clients of one kind answer to the same message, so that telling one is telling the other. |
| `AgpsDrain.StepUnsubscribes` | gps/libloc_api_50001/loc_eng_agps.cpp:716-728 | Whoever is active after an unsubscribe was active before and is not the one that unsubscribed. |
| `AgpsDrain.Drains` | gps/libloc_api_50001/loc_eng_agps.cpp:313-338 | From any state reachable between restarts, once everybody has unsubscribed the machine is in Released or Releasing, and one RELEASED or DENIED leaves it in Released with an empty list. |
| `AgpsEngine.HandleReaches` | gps/libloc_api_50001/loc_eng.cpp:1561-1763 | Each message of the engine gives each of the three machines a step with a subscriber of its own kind, or none. |
| `AgpsDispatch.FrameworkMessages` | gps/libloc_api_50001/loc_eng.cpp:1689-1754 | After any messages: a success of a data call grants what the machine of its type waits for, a failure denies it, a close releases what it holds, with every member told accordingly; the other two machines do not change. |
| `AgpsDispatch.BitRequests` | gps/libloc_api_50001/loc_eng.cpp:1561-1577 | After any messages a BIT request reaches the machine of its interface type and no other; one of an unknown type reaches none. |
| `AgpsDispatch.AtlRequests` | gps/libloc_api_50001/loc_eng.cpp:1597-1611 | An ATL request reaches `agnss_nif` if it is for SUPL or has no type, and `internet_nif` otherwise. |
| `AgpsDispatch.WifiRequests` | gps/libloc_api_50001/loc_eng.cpp:1632-1646 | A WIFI request reaches `wifi_nif` if its sender is one of the two known ones, and otherwise nothing. |
| `AgpsDispatch.BitReleases` | gps/libloc_api_50001/loc_eng.cpp:1579-1595 | A BIT release makes the machine of its interface type, and no other, forget the client. |
| `AgpsDispatch.AtlReleases` | gps/libloc_api_50001/loc_eng.cpp:1614-1630 | An ATL release makes `agnss_nif` forget the client, and `internet_nif` exactly if nobody equal was a member there. |
| `AgpsDispatch.WifiReleases` | gps/libloc_api_50001/loc_eng.cpp:1648-1655 | A WIFI release makes `wifi_nif`, and no other, forget the client. |
| `AgpsDispatch.RestartMessage` | gps/libloc_api_50001/loc_eng.cpp:1272-1285 | A modem restart empties the two data machines, leaves their states alone, and spares the WIFI one. |
| `AgpsEngine.DataMachinesCount` | gps/libloc_api_50001/loc_eng.cpp:858-863 | `agnss_nif` and `internet_nif` under any messages: never Releasing, and a reference count - one connection held exactly while there is a member - if and only if no modem restart has left a connection without one. |
| `AgpsEngine.OrphanedAfter` | gps/libloc_api_50001/loc_eng_agps.h:188-189 | When a connection has no member: a restart leaves it so if one was held, and it stays so until somebody subscribes or the framework denies or releases it. |
| `AgpsEngine.OrphanedIff` | gps/libloc_api_50001/loc_eng.cpp:1279-1280 | Over whole runs: a connection has no member if and only if a restart found it and since then nobody has subscribed and the framework has not ended it. |
| `AgpsEngine.RestartOrphans` | gps/libloc_api_50001/loc_eng_agps.h:188-189 | A run of messages that leaves a connection held for nobody. |
| `AgpsEngine.ReachedCounts` | gps/libloc_api_50001/loc_eng_agps.cpp:313-338 | A machine of BIT and ATL subscribers has no inactive members, even across restarts. |
| `AgpsEngine.DataMachinesServe` | gps/libloc_api_50001/loc_eng_agps.cpp:666-676 | On these two machines a client is served if and only if no client of another kind has the same ID. |
| `AgpsEngine.BitReleaseEnds` | gps/libloc_api_50001/loc_eng.cpp:1579-1595 | A BIT client's release ends its membership and nobody else's if and only if no client of another kind has its ID there. |
| `AgpsEngine.AtlReleaseEnds` | gps/libloc_api_50001/loc_eng.cpp:1614-1630 | An ATL client's release, which names no machine, ends the client's memberships and nobody else's if and only if no client of another kind is in the way on the machine it reaches and the client is not a member of both. |
| `AgpsEngine.AnotherKindReleased` | gps/libloc_api_50001/loc_eng.cpp:1614-1630 | A run of messages in which an ATL client's release ends the membership of a BIT client, and not its own. |
| `AgpsEngine.AnotherKindUnserved` | gps/libloc_api_50001/loc_eng_agps.cpp:104-111 | A run of messages in which a BIT client equal to an ATL one is taken for it: nothing is ever sent to it. |
| `AgpsEngine.WifiMachineSingle` | gps/libloc_api_50001/loc_eng.cpp:864-866 | `wifi_nif` under any messages: never more than one member, and an extra subscriber is denied with no change of state or list. |
| `AgpsEngine.WifiMachineServes` | gps/libloc_api_50001/loc_eng_agps.cpp:706-714 | `wifi_nif` serves a client if and only if it has no member, or that client is its active member. |
| `AgpsEngine.InactiveUnserved` | gps/libloc_api_50001/loc_eng_agps.cpp:706-714 | A run of messages in which a WIFI client that unsubscribed and subscribes again before the connection is down is denied and never served. |
| `AgpsMachine.OnePass` | gps/libloc_api_50001/loc_eng_agps.cpp:648-657 | One pass of the deleting loop tells the first match and takes it out; the rest of the notification is still to do. |
| `AgpsMachine.PassHalfway` | gps/libloc_api_50001/loc_eng_agps.cpp:648-657 | So each pass keeps the loop on its way to one filter of the original list. |
| `AgpsMachine.AgpsStateMachine.constructor` | gps/libloc_api_50001/loc_eng_agps.cpp:555-585 | A new machine is in Released with an empty heap list; no clone and no list element exists. |
| `AgpsMachine.AgpsStateMachine.TakeFirst` | gps/libloc_api_50001/loc_eng_agps.cpp:655-656 | A search with removal over the heap list takes out the first subscriber a notification is for, having visited those before it. |
| `AgpsMachine.AgpsStateMachine.NotifyAndDelete` | gps/libloc_api_50001/loc_eng_agps.cpp:646-657 | The repeated search from the head equals one filter pass: each match notified once in list order and removed, the others kept in order. |
| `AgpsMachine.AgpsStateMachine.NotifySubscribers` | gps/libloc_api_50001/loc_eng_agps.cpp:644-664 | Both branches, against the model's notification. |
| `AgpsMachine.AgpsStateMachine.AddSubscriber` | gps/libloc_api_50001/loc_eng_agps.cpp:666-676 | A fresh clone at the head of the heap list unless an equal subscriber is there. |
| `AgpsMachine.AgpsStateMachine.SendRsrcRequest` | gps/libloc_api_50001/loc_eng_agps.cpp:678-704 | The gate, and on whose behalf the servicer is called. |
| `AgpsMachine.AgpsStateMachine.FindSubscriber` | gps/libloc_api_50001/loc_eng_agps.cpp:716-721 | The search of the objects stops where a search of the members they stand for does. |
| `AgpsMachine.AgpsStateMachine.CloseSubscriber` | gps/libloc_api_50001/loc_eng_agps.cpp:313-322 | Only the closing subscriber changes: inactive in place, or told and removed. |
| `AgpsMachine.AgpsStateMachine.ReleasedOnRsrcEvent` | gps/libloc_api_50001/loc_eng_agps.cpp:235-281 | Released: the in-place effect and next state are the model's. |
| `AgpsMachine.AgpsStateMachine.PendingOnRsrcEvent` | gps/libloc_api_50001/loc_eng_agps.cpp:298-375 | Pending: likewise. |
| `AgpsMachine.AgpsStateMachine.AcquiredOnRsrcEvent` | gps/libloc_api_50001/loc_eng_agps.cpp:393-468 | Acquired: likewise. |
| `AgpsMachine.AgpsStateMachine.ReleasingOnRsrcEvent` | gps/libloc_api_50001/loc_eng_agps.cpp:485-548 | Releasing: likewise. |
| `AgpsMachine.AgpsStateMachine.OnRsrcEvent` | gps/libloc_api_50001/loc_eng_agps.cpp:629-642 | A framework event is one step of the model and keeps the machine valid; any other event changes nothing. |
| `AgpsMachine.AgpsStateMachine.SubscribeRsrc` | gps/libloc_api_50001/loc_eng_agps.cpp:706-714 | A subscribe call is one step of the model, the single-subscriber denial included. |
| `AgpsMachine.AgpsStateMachine.UnsubscribeRsrc` | gps/libloc_api_50001/loc_eng_agps.cpp:716-728 | An unsubscribe call is one step of the model, and returns whether the subscriber was found. |
| `AgpsMachine.AgpsStateMachine.DropAllSubscribers` | gps/libloc_api_50001/loc_eng_agps.h:188-189 | A modem restart empties the list and leaves the state, and the set of clones ever made, alone. |
| `AgpsPromises.ObjectKeeps` | gps/libloc_api_50001/loc_eng_agps.cpp:235-728 | Between any two calls the object has balanced its requests, knows who was told what, addressed what it sent, and accounts for every clone. |
| `AgpsPromises.Drive` | gps/libloc_api_50001/loc_eng_agps.cpp:555-728 | A machine can be made and taken through any events, and then is where the model is. |
| `NiHandshake.ThreadClaims` | gps/libloc_api_50001/loc_eng_ni.cpp:157-200 | Every access of a request's thread keeps: what is in rawRequest is a block nobody has taken, and who has taken one carries it until the thread exits. |
| `NiHandshake.HandlerClaims` | gps/libloc_api_50001/loc_eng_ni.cpp:86-135 | So does every access of the handler. |
| `NiHandshake.LockExcludes` | gps/libloc_api_50001/loc_eng_ni.cpp:157-193 | Under every interleaving tLock is held by exactly the thread between taking it and giving it back, so at most one, and no other thread's action changes the response it guards. |
| `NiHandshake.AnsweredOnceByExit` | gps/libloc_api_50001/loc_eng_ni.cpp:186-200 | Under every interleaving of unlocked accesses, requests without data included: at most one response per block and only to accepted ones; by the time a request's thread exits its block has been taken, and is answered exactly if whoever took it has exited - the thread itself, when every request came with data. |
| `NiRuns.TakenOver` | gps/libloc_api_50001/loc_eng_ni.cpp:186-193 | A run in which the thread of a request without data takes the block of the next one, whose own thread then exits before the answer. |
| `NiRuns.UserAnswers` | gps/libloc_api_50001/loc_eng_ni.cpp:157-200 | The user answers in time: exactly that response goes out, once, for that request, and all is ready for the next. |
| `NiRuns.NobodyAnswers` | gps/libloc_api_50001/loc_eng_ni.cpp:169-180 | Nobody answers in time: the response "no response" goes out. |
| `NiRuns.HearsResponse` | gps/libloc_api_50001/loc_eng_ni.cpp:169-183 | A waiting thread leaves its loop on a response, and uses it up. |
| `NiRuns.WakesForNothing` | gps/libloc_api_50001/loc_eng_ni.cpp:169-180 | Woken without a response and in time, a thread waits on. |
| `NiRuns.StrayResponse` | gps/libloc_api_50001/loc_eng_ni.cpp:297-311 | A response with another number, or when no request is on, changes nothing. |
| `NiHandshake.AcceptedOrFreed` | gps/libloc_api_50001/loc_eng_ni.cpp:86-97 | Every request that arrives is accepted, or refused and its block freed if it has one, never both. |
| `NiHandshake.AcceptedIffNoneOutstanding` | gps/libloc_api_50001/loc_eng_ni.cpp:86-97 | A request is accepted if and only if the block of every accepted one has been taken - by its own thread, when every request came with data; otherwise its block is freed at once. |
| `NiHandshake.QuietAnswered` | gps/libloc_api_50001/loc_eng_ni.cpp:122-127 | When all is at rest, an accepted request with data has been answered if and only if its block is not left in rawRequest: always if its thread could be created, and only then if every request came with data. |
| `NiRuns.UnspawnedUnanswered` | gps/libloc_api_50001/loc_eng_ni.cpp:122-127 | A run in which creating the thread fails: all is at rest, and the accepted request has no answer. |
| `NiHandshake.StuckForever` | gps/libloc_api_50001/loc_eng_ni.cpp:122-132 | A failed thread creation leaves its block in rawRequest for good, once no other thread has still to look there: never answered, every later request refused. |
| `AidingData.DeferredAction.Handle` | gps/libloc_api_50001/loc_eng.cpp:1670-1824 | One message, then the loop tail, is one step of the model. |
| `AidingData.DeferredAction.Thread` | gps/libloc_api_50001/loc_eng.cpp:1323-1827 | The loop over any messages conserves aiding data. |
| `AidingData.AidingDataConserved` | gps/libloc_api_50001/loc_eng.cpp:1819-1824 | Every delivered mask is exactly the OR of the requests since the previous delivery, none is delivered with the engine on, and a pending mask at a message boundary means the engine is on. |
| `AidingData.NothingLost` | gps/libloc_api_50001/loc_eng.cpp:1670-1824 | Deliveries and pending mask together are all requests ever made; with the engine not on, the deliveries alone are. |
| `Camera.AeTable` | camera/CameraWrapper.cpp:232-267 | ISO and shutter speed together choose the AE mode, a different one for each of the four combinations of auto and manual. |
| `Camera.ExposureModes` | camera/CameraWrapper.cpp:177-267 | Each of the four combinations of auto and manual gives the vendor its own mode, with the values of the manual ones; what comes back is auto for everything the vendor's mode chooses itself. |
| `Camera.RoundTrip` | camera/CameraWrapper.cpp:164-277 | The app gets back its iso, shutter-speed and scene-mode, even if the vendor forgets the generic keys, if and only if its iso is auto or begins with ISO and it does not record with scene mode hdr. |
| `Camera.IsoWithoutPrefix` | camera/CameraWrapper.cpp:245-249 | ISO 100 without the prefix comes back as an ISO without a number. |
| `Camera.RecordingLosesHdr` | camera/CameraWrapper.cpp:268-293 | Recording with scene mode hdr comes back as auto. |
| `Camera.ImageStabiliser` | camera/CameraWrapper.cpp:268-293 | The image stabiliser follows the scene mode and is off while recording. |
| `Camera.VideoStabiliser` | camera/CameraWrapper.cpp:284-292 | The video stabiliser is set only while recording, to the best mode the vendor has. |
| `Camera.VideoHdrRoundTrip` | camera/CameraWrapper.cpp:178-219 | Where the vendor knows video HDR and its values the app gets back the video-hdr it set, whatever became of the generic key. |
| `Camera.Offers` | camera/CameraWrapper.cpp:119-132 | The app is offered scene mode hdr exactly where the vendor has still HDR, and the vendor's video-hdr values. |
| `Camera.ContainsIff` | camera/CameraWrapper.cpp:126 | The search for a mode finds it wherever it stands in the list. |
| `Camera.IsoList` | camera/CameraWrapper.cpp:147-161 | The character loop turns a comma-separated list into the list of the same modes with the prefix ISO. |
| `Camera.IsoOffer` | camera/CameraWrapper.cpp:147-161 | The ISO modes offered are the vendor's with their prefix, and auto. |
| `Camera.CameraParameters.PrefixIso` | camera/CameraWrapper.cpp:150-160 | The loop computes that text, and adds auto. |
| `Camera.CameraParameters.FixupSetParams` | camera/CameraWrapper.cpp:222-301 | Setting parameters one at a time leaves every key as the model says, for any parameters whose dereferences are safe. |
| `Camera.CameraParameters.FixupGetParams` | camera/CameraWrapper.cpp:135-219 | Likewise for reading back. |
| `Framing.MsgSnd` | gps/libloc_api_50001/loc_eng_dmn_conn_glue_msg.c:111-124 | Appends the message with its first field overwritten by its size, or as much of it as the pipe takes, and then returns -1. |
| `Framing.MsgRcv` | gps/libloc_api_50001/loc_eng_dmn_conn_glue_msg.c:146-169 | Takes off what the model says, writes just that to the buffer, and returns the size or -1. |
| `Framing.Pipe.Read` | gps/libloc_api_50001/loc_eng_dmn_conn_glue_pipe.c:162-172 | A read gives what is there, up to what is asked for. |
| `Framing.SizeRoundTrip` | gps/libloc_api_50001/loc_eng_dmn_conn_glue_msg.c:115-151 | The size field reads back. |
| `Framing.SizeBytesAt` | gps/libloc_api_50001/loc_eng_dmn_conn_glue_msg.c:115 | The size field holds the size with the lowest byte first. |
| `Framing.ReceiveFrame` | gps/libloc_api_50001/loc_eng_dmn_conn_glue_msg.c:146-169 | A receive at a message boundary gives the whole message if the buffer takes it; it ends on a boundary if and only if the buffer takes it or the message is nothing but its size. |
| `Framing.TooLongLosesBoundary` | gps/libloc_api_50001/loc_eng_dmn_conn_glue_msg.c:156-159 | A message one byte too long for the buffer leaves its last byte where the next size is expected. |
| `Framing.ArriveInOrder` | gps/libloc_api_50001/loc_eng_dmn_conn_glue_msg.c:111-169 | For any interleaving of sends and receives: messages the buffer takes arrive whole and in order, a receive delivers the next one whenever one is there, and the stream rests on a message boundary after every operation. |
| `Framing.AllArrive` | gps/libloc_api_50001/loc_eng_dmn_conn_glue_msg.c:111-169 | After as many receives more as there are messages on the way, all that was sent has arrived and the stream is empty. |
| `Framing.AllArriveIff` | gps/libloc_api_50001/loc_eng_dmn_conn_glue_msg.c:111-169 | Sending any messages and then receiving as often delivers them all, in order, if and only if each fits the buffer. |
| `Config.Compact` | gps/utils/loc_cfg.cpp:110-127 | The in-place loop moves the text to the front and finds where its last non-blank ends. |
| `Config.TrimSpace` | gps/utils/loc_cfg.cpp:103-130 | The C string in the buffer becomes the trimmed one, in place. |
| `Config.ParseLine` | gps/utils/loc_cfg.cpp:272-293 | A line becomes a trimmed name and value with its numbers, or is skipped. |
| `ConfigLines.SplitIff` | gps/utils/loc_cfg.cpp:274-278 | A line is read as a name and a value if and only if it is that name, equals signs, and that value, with perhaps more equals signs before and anything after a further one; every other line is skipped. |
| `ConfigLines.LineMeans` | gps/utils/loc_cfg.cpp:280-293 | Name and value lose the blanks around them, and a value with the prefix 0x is a hexadecimal whole number. |
| `Config.SetConfigEntry` | gps/utils/loc_cfg.cpp:162-217 | Exactly a well-typed entry of that name takes the value and its set flag. |
| `Config.LastForIsLast` | gps/utils/loc_cfg.cpp:270-304 | The line that counts is the last that assigns to the name. |
| `Config.OneMore` | gps/utils/loc_cfg.cpp:270-304 | One more line replaces what an entry holds exactly if it assigns to it. |
| `Config.ReadLines` | gps/utils/loc_cfg.cpp:270-304 | Over any lines, every entry ends with the value of the last line that names it, or keeps its own. |
| `Config.ReadConf` | gps/utils/loc_cfg.cpp:241-310 | The same for the whole function: set flags cleared first and 1 iff a line matched, the two logging entries from their defaults, nothing but those defaults without a file. |
| `ConfigLines.FileSays` | gps/utils/loc_cfg.cpp:162-217 | After a file an entry holds what the last line that names it says: the trimmed value cut to 80 characters or nothing for NULL, or its number; its set flag is 1. |
| `ConfigLines.FileSilent` | gps/utils/loc_cfg.cpp:270-304 | An entry that no line names keeps what it had. |
| `AddressText.DigitsOfSemiOctets` | gps/libloc_api_50001/LocApiAdapter.cpp:135-140 | Reading the nibbles undoes the semi-octet encoding of section 9.1.2.3 of 3GPP TS 23.040. |
| `AddressText.SemiOctetsAt` | gps/libloc_api_50001/LocApiAdapter.cpp:132-140 | Byte by byte, the digit that comes first is in the low nibble, and 0xF stands where there is none. |
| `AddressText.EncodedIs` | gps/libloc_api_50001/LocApiAdapter.cpp:129-130 | An encoded address begins with 0x91 and has one byte for two digits. |
| `AddressText.DecodeEncoded` | gps/libloc_api_50001/LocApiAdapter.cpp:120-145 | Decoding an encoded digit string gives its longest prefix that fits. |
| `AddressText.DecodeAddress` | gps/libloc_api_50001/LocApiAdapter.cpp:120-145 | For any bytes: the fitting digits, a terminator, and nothing written after it; empty for a wrong prefix, nothing for NULL. |
| `AddressText.UnhexHex` | gps/libloc_api_50001/LocApiAdapter.cpp:106-116 | The hex text converts back to the data if and only if no byte is spoiled by a signed char: always where char is unsigned. |
| `AddressText.SignedSpoils` | gps/libloc_api_50001/LocApiAdapter.cpp:106-116 | A byte that a signed char spoils. |
| `AddressText.Hexcode` | gps/libloc_api_50001/LocApiAdapter.cpp:102-118 | The first min(data_size, (string_size - 1) / 2) bytes as text with a terminator, and nothing written after it. |
| `AddressText.HexChars` | gps/libloc_api_50001/LocApiAdapter.cpp:106-116 | Two upper-case characters a byte, the high nibble first. |

## Left out

- Files, pipes, sockets, condition variables and threads of the operating system, the framework callbacks, the adapter's virtual methods and the daemons: they are logs, parameters or labels.
- `AgpsMachine.AgpsStateMachine.AddSubscriber`: assumes that allocating a clone and its list element succeeds; the code does not look at either.
- `AgpsMachine.AgpsStateMachine.FindSubscriber`: a list search without removal is the read-only scan of the list; its result code is not used by the code.
- `AgpsMachine.AgpsStateMachine.NotifyAndDelete`: removed clones are handed out of the list and not freed, as in the code, so nothing is claimed about freeing them.
- `AgpsShape.EqualsEquivalence`: only for clients where nobody but a BIT subscriber has the ID INADDR_NONE; comparing another kind with such a BIT subscriber casts it unchecked.
- `NiHandshake.AnsweredOnceByExit`: does not say which response value is sent, nor that notification ids match, because both are racy in the code; memory accesses are sequentially consistent.
- `loc_eng_ni_reset_on_engine_restart`, which clears rawRequest outside the lock; the handshake is that of one engine life.
- `MsgQueueObject.MsgQ.RcvEnter`: a receive that waits is cut in two at pthread_cond_wait; the wait loop is the repetition of `RcvResume`.
- NULL list and queue handles, and destroying a list or a queue.
- `Framing.MsgRcv`: excludes a received size below that of the size field with more in the pipe than the buffer holds, which overruns the buffer; no sender makes one. A pipe holds less than 2 GB.
- `Framing.Pipe.Read`: interrupted and failing reads are not modelled.
- `Config.ReadLines`: takes the lines as fgets delivers them, and text-to-number conversions as given functions; entries have storage of their own, of their own type.
- `Camera.CameraParameters.PrefixIso`: the text has no length limit, where the code has 255 bytes and prints the buffer onto itself.
- `Camera.IsoList`: lists for which that buffer is too short are included, although the code would overrun it.
- `Camera.CameraParameters.FixupGetParams`: parameters that would make the code dereference NULL or overrun a fixed buffer are excluded or not distinguished; flattening to text and the framework's key spelling are not modelled.
- `Camera.RoundTrip`: setting a parameter always stores it; the framework's parameter class is not part of this model, and values with `=` or `;` in them, which it may refuse, are treated like others.
- `AddressText.DecodeAddress`: requires room for the terminator and one data byte, which the code takes for granted.
- Deferral of STOP_FIX, muting, fixes, NMEA, server addresses and the other messages of the deferred-action loop; APN and bearer of a data call.
- `LocEngContext::drop` and the QUIT message.
- Log output, name tables, forwarding wrappers, the lights module, build files and configuration data.
