# Dart protocol: a verified model

Dart is a NACK-based group messaging protocol. Each sender numbers its messages
in a wrapping 24-bit space and compresses each against a dictionary made of its
last 200 messages. Each message is sealed with a fresh key from a ratchet chain.
Receivers buffer what arrives out of order, ask for what is missing, and admit a
message only if its dictionary fingerprint matches their own history. A blind
relay caches the last packets of every stream and keeps the rooms.

This project models one conversation of the TypeScript implementation: the
sender, any number of receivers, the relay and the key layer. It proves what
holds in every run. Wire numbers are modelled as the code has them, modulo 2^24
and compared by modular distance. The theorems relate them to unbounded message
numbers.

## How the modules fit together

| module | content |
|---|---|
| `Primitives`, `Sequence` | packets, uninterpreted primitives and their laws; the 24-bit space |
| `Dictionaries` | the dictionary, how it is built, and what it is in terms of the log |
| `Ratchet` | the per-sender key chain |
| `Sender`, `SenderLedger` | the sender's bounded state, and the unbounded ledger it stands for |
| `Receiver`, `Gate` | the receiver, and what its dictionary gate admits |
| `Network`, `Integrity` | sender, receivers and a hostile network as one state machine over runs |
| `Tracking`, `InOrderDelivery` | the receiver's unbounded position, and deliveries in log order |
| `NoSkip`, `GaplessDelivery` | gap-free delivery, acknowledgements, and a stream that never starts |
| `Convergence` | arrival order and repetition do not matter |
| `Admission` | exactly which packets a receiver can read and admits, and when it skips or refuses |
| `Scenarios` | runs that reach the states the other modules speak about |
| `LossRecovery`, `LossyDelivery` | the command-line client's receiver, which gives up on lost numbers; what it delivers |
| `RelayCache`, `Membership` | the relay's packet cache and its rooms |
| `GroupKeys`, `JoinedSends` | epochs, group keys, and sharing them with the roster; what a joined client sends |
| `ShareCoverage` | when flagged members have really been sent the current key and chain |
| `KeyAgreement` | all clients of a room together: who holds which group key |
| `Framing`, `Codecs` | length-prefixed streams; NACK, MEMBER_INFO and signed control frames |

State the source keeps in maps that its handlers update is modelled by classes
(`DartSender`, `InboundStream`, `LossyStream`, `MessageCache`, `GroupServer`,
`GroupKeyClient`, `Deframer`). Every method equals a function of the old state,
or satisfies a relation to it. The theorems about runs are about those functions
and relations.

## Hypotheses

- Open inverts seal and opens only what was sealed with that key and header;
  inflate inverts deflate under an equal dictionary (`Primitives.Lawful`).
- No two dictionaries used in a run share a 4-byte fingerprint
  (`Primitives.CollisionFree`).
- The network drops, repeats, delays, reorders and damages packets, but a damaged
  packet opens under no key (`Primitives.Unopenable`). It does not forge.
- Chain seeds are never drawn twice (`Network.Enabled`).
- Where a theorem needs it, nothing arrives 2^23 or more away from the receiver's
  position (`InOrderDelivery.Timely`, `RelayCache.Timely`).

`PayloadIntegrity` and `ChainAgreement` do not need the last one.

## Where the code is weaker than its comments

- A retransmission rebuilds its dictionary from pruned history. It is the original
  one exactly if everything that has dropped out of the window was empty
  (`RetransmitFaithfulIff`), which holds for messages at most 16 behind the newest.
  Otherwise the sender still answers, and the receiver that waits for the message
  refuses the answer and loses its history (`RetransmissionTakenIff`). After 218
  non-empty messages this is so of number 201 (`BeyondTheSlack`), and
  `LateRetransmissionRefused` is a run in which it happens.
- The drain goes on past a packet that fails, and can skip messages. A later message
  is delivered exactly if what the receiver holds of its own window spells what the
  sender compressed it against (`JumpIff`). Without a flush between, that is if all
  the messages skipped, as far as the window reaches, are empty (`SkipIff`,
  `DrainSkipsIff`). With flushes it can be any message: one that fails the gate costs
  the history, and the next one passes if it was compressed against nothing
  (`EmptiedTakesIff`, `ResetSkipsIff`; `ResetSkips` is a run).
- Storing a shared chain state keeps key agreement, but a state past a message makes
  the message unreadable (`ShareOpensIff`). The seed that a NACK makes the sender
  share again repairs this for the current epoch only (`ReshareRestores`).
- Sending before joining uses up a number (`NumberLost`). If the stream then begins
  with a number from 2 to 200, receivers wait for messages that never existed and,
  in a run of non-empty messages without resets, never deliver any of it
  (`LateStartStalls`; `LateStartHappens` is such a run). With any other first number
  the first message is delivered (`FirstDeliveredIff`).
- Shared-with flags survive a member's absence. A member that comes back under a
  new key stays flagged and is not served (`ReturnerIsNotServed`). Flags can be
  trusted in every state of a run exactly if no roster update brings a flagged member
  back under a key that no roster has listed it under since the current group key was
  adopted (`CoverageIff`).
- Members of one epoch hold the same group key in every run in which one client makes
  the keys (`SameEpochSameKey`). If two do, because each was told at some time that it
  is the creator, they can end up with each other's key (`MakersSwapKeys`).
- A peer that has used several ids takes only the last one out of its rooms when it
  closes (`MemberIff`).
- A flush leaves the keys of the flushed messages behind; pruning never reaches them
  (`KeysGoWithMessages`).
- A member list that ends early is read with a public key that is cut short
  (`TruncatedSlots`).
- The relay's replacement of a creator without a live peer cannot happen, because
  routes are never removed (`CreatorIsRouted`).
- Without any acknowledgement the probe compares against 0, so it is armed again
  exactly while the newest number is in the lower half of the space
  (`ProbeWithoutAck`). When the newest number is 0 after a wrap, no probe goes out at
  all (`NoProbeAtWrap`).
- In the command-line client each delivery erases the NACK timestamps of all
  numbers still missing ahead, so all of them get their four seconds again
  (`DeliveryRestartsClocks`). The drain after a declared loss
  finds an empty buffer (`DrainAfterLossIsIdle`).
- A departure does not by itself rotate the key: only the timer and a change of
  creator do, although `src/server.ts:153-154` says members re-key then. A roster
  update starts an epoch exactly if the client has just become creator
  (`RotatesIff`), so a departure leaves the key in use (`DepartureKeepsKey`).

## Model

| member | source | states |
|---|---|---|
| `Sequence.WireDelta` | src/core.ts:139-141 | the masked difference is the true distance between two unbounded numbers less than a cycle apart, across wraps |
| `Sequence.GapTestExact` | src/core.ts:136-149 | the three-way test (duplicate, newer, stale) tells the true order exactly when the numbers are within half the space |
| `Dictionaries.GetDictionary` | src/client.ts:371-409 | the collect, sort and concatenate loops yield the oldest-first concatenation over the 200-wide modular window |
| `Dictionaries.SortOldestFirst` | src/client.ts:399-402 | the result has strictly falling distances and the same entries |
| `Dictionaries.ListingIsWindow` | src/client.ts:378-408 | any listing of the window sorted by distance spells the same dictionary, whatever the insertion order |
| `Dictionaries.WindowAgreement` | src/client.ts:378-408 | only what lies in the window matters |
| `Dictionaries.DictionaryOfLog` | src/client.ts:371-419 | a dictionary built from a history holding messages lo..top is exactly that stretch of the unbounded log, cut to 200, across the wrap |
| `Dictionaries.RetainsNext` | src/client.ts:421-429 | storing the next message and pruning keeps exactly the last 216 and one, across the wrap |
| `Dictionaries.PruneKeepsDictionary` | src/cli.ts:148-157 | inserting the message and pruning before building its dictionary gives the same dictionary as building first |
| `Ratchet.AdvanceChain` | src/core.ts:238-247 | the loop reaches the iterate of the chain key at the target and steps past it |
| `Ratchet.AdvanceFromAnywhere` | src/core.ts:224-247 | message key and next state depend on the seed and the target only, from any state not past it |
| `Ratchet.AdvanceComposes` | src/core.ts:235-247 | advancing in two steps is advancing in one |
| `Ratchet.AdvanceStaysOnChain` | src/core.ts:235-247 | no advance leaves the chain, even from past the target |
| `Sender.DartSender.PruneSent` | src/client.ts:412-419 | exactly the messages more than 216 behind are dropped, each with its key |
| `Sender.DartSender.SendData` | src/client.ts:431-464 | new state and packet are those of the sending function, including the used-up number when no chain exists |
| `Sender.DartSender.HandleNack` | src/client.ts:564-591 | one packet for each requested number still held, and the current epoch's seed |
| `Sender.AnswerCount` | src/client.ts:564-571 | as many packets as requested messages still held |
| `Sender.EachIsAnswered` | src/client.ts:564-571 | each held request is answered in its turn by its own retransmission |
| `Sender.EncodedOpens` | src/core.ts:250-283 | a packet opens under its key to the payload, and its header carries number, nonce, epoch, fingerprint and index |
| `Sender.ProbeWithoutAck` | src/client.ts:466-478 | with no acknowledgement the probe is armed again exactly for numbers 1 to 2^23 |
| `SenderLedger.ProbeUntilAcked` | src/client.ts:466-478 | with a message acknowledged, the probe is armed again exactly while the newest is ahead of it by at most half the space |
| `SenderLedger.NoProbeAtWrap` | src/client.ts:785-786 | the probe sends nothing exactly when the newest message falls on a wrap, and is then not armed again if nothing was acknowledged |
| `SenderLedger.SendKeepsInv` | src/client.ts:431-450 | every send keeps the tie between bounded state and unbounded ledger: numbering without gaps, retained range, original keys, own chains, no key used twice |
| `SenderLedger.KeysGoWithMessages` | src/client.ts:412-419 | keys are held for exactly the messages held, until a flush leaves keys behind |
| `SenderLedger.SendUsesFreshKey` | src/client.ts:438-449 | a message never uses a chain position that sealed another message |
| `SenderLedger.NumberLost` | src/client.ts:432-441 | a send before any chain exists uses up a number and keeps the rest |
| `SenderLedger.FlushKeepsInv` | src/client.ts:633-634 | a Dict-Reset keeps the tie, with a new flush point |
| `SenderLedger.RecordAckKeepsInv` | src/client.ts:649-651 | recording an acknowledgement keeps the tie |
| `SenderLedger.StartEpochKeepsInv` | src/client.ts:206-241 | re-keying keeps the tie if the seed is new |
| `SenderLedger.SentPacketIsOriginal` | src/client.ts:431-453 | the packet for message n carries the last min(200, all since the flush) payloads of the unbounded log as dictionary, its wire number and a key of its own |
| `SenderLedger.RetransmitReseals` | src/client.ts:564-571 | a NACK is answered exactly while the message is retained, under its original key, index and epoch, however many re-keys followed |
| `SenderLedger.RetransmitFaithfulIff` | src/client.ts:569 | the rebuilt dictionary is the original one if and only if all that dropped out of its window was empty |
| `SenderLedger.RetransmitWithinSlack` | src/client.ts:412-419 | a message at most 16 behind is retransmitted exactly as first sent |
| `Admission.RetransmissionTakenIff` | src/client.ts:564-571 | a receiver waiting for a message takes its retransmission if and only if all that dropped out of its window was empty, and otherwise loses its history |
| `Scenarios.BeyondTheSlack` | src/client.ts:412-419 | after 218 equal non-empty messages number 201 is held but its rebuilt dictionary lacks the first of 200 |
| `Scenarios.LateRetransmissionRefused` | src/client.ts:677-686 | a run in which the receiver has 1 to 200, the sender answers a NACK for 201, and the receiver refuses the answer and loses its history |
| `Receiver.MissingIff` | src/client.ts:527-533 | a gap NACK asks for exactly the numbers of the gap neither buffered nor received |
| `Receiver.NackIff` | src/client.ts:520-538 | with a baseline a packet makes the receiver ask for exactly the numbers between its position and the packet that it does not hold, and for nothing if it is a duplicate, stale or next |
| `Receiver.FreshNackIff` | src/client.ts:514-538 | without a baseline it asks for 1 up to the packet's number, if that is 2 to 200, and else for nothing |
| `Receiver.MissingInOrder` | src/client.ts:527-533 | each number is asked for once, oldest first |
| `Receiver.InboundStream.DecryptDataInOrder` | src/client.ts:661-675 | the chain moves only after a successful decrypt |
| `Receiver.InboundStream.PruneReceived` | src/client.ts:421-429 | exactly the entries more than 216 behind are dropped |
| `Receiver.InboundStream.ProcessDataPacket` | src/client.ts:677-709 | the gate: mismatch empties the history and asks for a reset, otherwise the payload is stored once |
| `Receiver.InboundStream.ProcessBufferedPackets` | src/client.ts:711-728 | consecutive buffered packets are taken until one is absent, whatever becomes of each |
| `Receiver.InboundStream.CollectMissing` | src/client.ts:527-533 | the loop collects exactly the missing numbers, in order |
| `Receiver.InboundStream.HandleData` | src/client.ts:499-546 | new state and NACK are those of the receiving function, with and without a baseline |
| `Admission.ShareOpensIff` | src/client.ts:302-304 | after a chain share a message of that chain can be read exactly if the shared state is not past it, whatever was stored before |
| `Admission.ReshareRestores` | src/client.ts:584-591 | the seed shared again after a NACK is that of the current epoch; it opens all messages of the current chain and changes nothing for other epochs |
| `Gate.GateAdmitsOnlyOriginal` | src/client.ts:677-691 | a packet that opens and whose fingerprint matches was compressed against the receiver's own dictionary and inflates to the original payload |
| `Admission.AdmittedIff` | src/client.ts:677-709 | a readable packet is taken if its dictionary is the receiver's own, and otherwise costs the history |
| `Network.SenderRefinesLog` | src/client.ts:412-464 | in every run the sender's state stands for its ledger, and every packet ever sent is a message under its own key |
| `Integrity.ChainAgreement` | src/client.ts:234-305 | in every run each chain state a receiver holds is an iterate of a seed generated for that epoch |
| `Integrity.KeyUseDiscipline` | src/client.ts:438-449 | in every run two packets carry the same message exactly if sealed at the same chain position |
| `Integrity.PayloadIntegrity` | src/client.ts:371-409 | in every run, with resets, re-keys and damage, all that is stored or delivered is a payload sent under that number |
| `InOrderDelivery.DeliveriesFollowLog` | src/client.ts:661-728 | in every timely run deliveries are strictly increasing in unbounded order, each with the payload of that very number |
| `NoSkip.GapChangesDictionary` | src/client.ts:677-686 | a dictionary built at a position equals the full one of a later message only if that is the next message |
| `NoSkip.DrainKeepsPrefix` | src/client.ts:711-728 | although the drain carries on past failures, it only ever extends the delivered prefix |
| `Admission.JumpIff` | src/client.ts:677-709 | whatever was flushed, a later message is delivered if and only if what the receiver holds of the window spells what the sender compressed against |
| `Admission.EmptiedTakesIff` | src/client.ts:677-709 | with a dropped history a later message is delivered if and only if it was compressed against nothing but empty messages |
| `Admission.ResetResynchronises` | src/client.ts:626-637 | once a reset has flushed the sender and a receiver at the newest message, the next message is delivered |
| `Admission.SkipIff` | src/client.ts:677-686 | without a flush between, a later message is delivered if and only if all messages between, as far as its window reaches, are empty |
| `Admission.DrainSkipsIff` | src/client.ts:715-727 | with a damaged and a good packet buffered and no flush between, the drain skips the damaged one's message if and only if it is empty |
| `Admission.ResetSkipsIff` | src/client.ts:715-727 | with two intact packets buffered, the first refused because of a flush, the drain skips its message if and only if the second was compressed against nothing but empty messages |
| `Scenarios.ResetSkips` | src/client.ts:715-727 | a run with two flushes in which messages 1, 2 and 4 are delivered and intact message 3 is skipped, whatever it contains |
| `GaplessDelivery.NoSilentSkip` | src/client.ts:677-728 | with non-empty payloads and full-window packets, what a receiver delivered is a prefix of the log |
| `GaplessDelivery.AckRecordedIff` | src/client.ts:638-651 | in every timely run, with resets and empty payloads, handling an acknowledgement records it if its message is a whole number of cycles behind the newest or more than half the space past that, and else changes nothing; for the newest message the newest number is recorded |
| `GaplessDelivery.AckedWasNewest` | src/client.ts:649-651 | over runs with prompt acknowledgements, what is recorded was the newest number sent when it was recorded, for a receiver that had delivered that message |
| `GaplessDelivery.CumulativeAck` | src/client.ts:704-707 | where nothing is skipped, an acknowledgement changes the sender exactly if it is for the newest message, and that receiver has then delivered the whole log |
| `GaplessDelivery.GentleRunsAreWindowed` | src/client.ts:564-571 | without sender resets, with content and NACKs inside the slack, every packet incl. retransmissions carries its full window |
| `GaplessDelivery.GentleRunsSkipNothing` | src/client.ts:677-728 | so such runs deliver a prefix of the log, stated on the events alone |
| `GaplessDelivery.LateStartStalls` | src/client.ts:514-539 | a stream that begins with 2 to 200 is never delivered in such runs |
| `Admission.FirstDeliveredIff` | src/client.ts:514-546 | a receiver that can read the first message delivers it on arrival if and only if its number is not 2 to 200 |
| `Scenarios.LateStartHappens` | src/client.ts:432-441 | a run with a message sent before joining, after which the first real message is readable but waits in the buffer |
| `Convergence.InOrderDelivers` | src/client.ts:541-546 | in-order arrival delivers each message and leaves the expected history, chains and position |
| `Convergence.AnyOrderConverges` | src/client.ts:499-546 | any order with any repetitions of packets n+1..m ends in the very state of in-order arrival |
| `LossRecovery.LossIffOverdue` | src/cli.ts:231-251 | a scan gives something up exactly if a missing number is overdue, and otherwise changes nothing but timestamps and asks for what the library client would |
| `LossRecovery.LostIff` | src/cli.ts:231-251 | exactly which numbers of a gap are given up: those due that are absent or wiped by an earlier loss of the same scan |
| `LossRecovery.LossClears` | src/cli.ts:753-766 | after giving up, nothing is buffered or held and the position is the last number given up |
| `LossRecovery.DrainAfterLossIsIdle` | src/cli.ts:326-329 | the drain after a declared loss does nothing |
| `LossRecovery.DeliveryRestartsClocks` | src/cli.ts:110-124 | a stored message erases the timestamps of all numbers ahead |
| `LossRecovery.SpotIsHighest` | src/cli.ts:211-262 | the position, followed through every change as the nearest number before or after, always stands for the highest number |
| `LossRecovery.NeverBackwards` | src/cli.ts:211-262 | with a baseline no message moves the position back, losses and drains included, and how far it can move on |
| `LossRecovery.SpotIsNearest` | src/core.ts:136-149 | unless 2^23 - 1 packets are buffered, the position is what comparing the highest numbers before and after a message gives |
| `LossRecovery.LostForGood` | src/cli.ts:300-339 | a number declared lost is never asked for or declared lost by a later message: the position never falls behind it again |
| `LossRecovery.LossNeedsPatience` | src/cli.ts:234-246 | a number is declared lost only if a message more than four seconds earlier asked for it |
| `LossRecovery.PatienceRunsOut` | src/cli.ts:314-334 | conversely, a number first asked for more than four seconds ago and still missing is given up by any message that looks at it, unless something was delivered between |
| `LossRecovery.GivesUpAfterPatience` | src/cli.ts:300-339 | three probes that ask for number 1, give it up, and then ask only for later ones |
| `LossRecovery.LossyStream.PruneStamps` | src/cli.ts:118-123 | exactly the timestamps more than 216 behind, in modular distance, are dropped |
| `LossyDelivery.GatesAgreeIff` | src/cli.ts:682-710 | this client's gate does what the library client's does, except that a packet that matches and does not inflate also drops the history |
| `LossyDelivery.StrictAdmittedIff` | src/cli.ts:682-731 | a readable packet is taken, with the message's payload, if its dictionary is the receiver's own, and otherwise costs the history |
| `LossyDelivery.DataAgrees` | src/cli.ts:211-262 | a packet that makes nothing be given up has the same effect and causes the same NACK as in the library client |
| `LossyDelivery.LossFreeRunsAgree` | src/cli.ts:211-339 | in every run in which nothing is given up this client is in the library client's state |
| `LossyDelivery.LossyIntegrity` | src/cli.ts:682-766 | in every run, losses included, all that is held or was delivered is a payload sent under that number |
| `LossyDelivery.SyncNackIff` | src/cli.ts:300-339 | a probe makes the receiver ask for exactly the numbers up to and including the announced one that it does not hold |
| `LossyDelivery.ResumesAfterLossIff` | src/cli.ts:753-766 | after a loss the next message is delivered if and only if it was compressed against nothing but empty messages |
| `LossRecovery.LossyStream.ProcessDataPacket` | src/cli.ts:682-731 | the gate of this client, which also empties the history when inflating fails |
| `LossRecovery.LossyStream.ProcessBufferedPackets` | src/cli.ts:733-751 | the drain, as in the library client |
| `LossRecovery.LossyStream.DeclarePermanentLoss` | src/cli.ts:753-766 | position moved to the lost number if ahead, history and buffer emptied, reset asked for |
| `LossRecovery.LossyStream.ScanNumbers` | src/cli.ts:314-334 | the gap loop, with or without the drain, is the scan function |
| `LossRecovery.LossyStream.HandleData` | src/cli.ts:211-262 | new state, NACK and losses are those of the DATA function |
| `LossRecovery.LossyStream.HandleSync` | src/cli.ts:300-339 | new state, NACK and losses are those of the probe function |
| `RelayCache.CacheRefinesLog` | src/server.ts:270-299 | after every packet the cache is exactly the received packets at most 200 behind the newest, which never falls |
| `RelayCache.CacheIsBounded` | src/server.ts:284-290 | at most 201 entries |
| `RelayCache.RepairedIff` | src/server.ts:356-365 | a message is repaired, with the packet last received for it, exactly if received and at most 200 behind; one newer than all received is missing |
| `RelayCache.RepairSplits` | src/server.ts:356-365 | each request is answered in order, by its cached packet or as missing |
| `RelayCache.RepairSizes` | src/server.ts:356-365 | there are exactly as many answers as requests |
| `RelayCache.RepairsOnlyRequests` | src/server.ts:356-365 | every packet sent is the cached one of a requested number, and what is called missing was requested and is not cached |
| `RelayCache.MessageCache.HandleData` | src/server.ts:270-299 | one stream is updated by the caching function, no other changes |
| `RelayCache.MessageCache.TrimCache` | src/server.ts:287-290 | exactly the entries more than 200 behind the reference are deleted |
| `RelayCache.MessageCache.HandleNack` | src/server.ts:356-365 | the loop sends the cached packets in order and lists the rest |
| `Membership.RoomsStayConsistent` | src/server.ts:143-181 | in every reachable state rooms with members are the rooms with a creator, none is empty, the creator is a member, every member has a route |
| `Membership.CreatorIsRouted` | src/server.ts:318-328 | registration changes the creator only for a new room; the unreachable-creator branch is dead |
| `Membership.SuccessorIsSmallest` | src/server.ts:160-172 | after a creator's departure the smallest remaining id is creator |
| `Membership.OneCreatorMarked` | src/server.ts:184-204 | a complete broadcast tells every member once and marks exactly the recorded creator |
| `Membership.SuccessorAnnounced` | src/server.ts:160-178 | after a creator's departure the broadcast tells each who remains the new roster and marks exactly one, the smallest, as creator |
| `Membership.GroupIff` | src/server.ts:133-141 | in every run a peer is in a group, and then once, exactly if it has sent a packet for it since it last closed |
| `Membership.LatestWins` | src/server.ts:254-259 | in every run the latest control packet decides who is behind a peer and where a member is reached |
| `Membership.MemberIff` | src/server.ts:310-336 | in every run with valid keys a member is in a room, under the key of its last registration, unless a peer that last went by its id and had spoken there has closed since |
| `Membership.CloseEndsMembership` | src/server.ts:143-181 | a close removes exactly the id the peer last went by, from exactly the rooms it had spoken in |
| `Membership.LearnKeeps` | src/server.ts:254-259 | learning an identity and a route keeps the rooms consistent |
| `Membership.GroupServer.HandleKeyReq` | src/server.ts:310-336 | registration, then a broadcast that is complete exactly if all keys are valid |
| `Membership.GroupServer.NotifyMembers` | src/server.ts:184-204 | one correct message per routed member, stopping at the first invalid key |
| `Membership.GroupServer.DropMember` | src/server.ts:156-179 | one member out of one room, with election or removal of the room |
| `Membership.GroupServer.Smallest` | src/server.ts:166-170 | the minimum |
| `Membership.GroupServer.LeaveRoom` | src/server.ts:156-179 | one room of a departure, and its broadcast, complete if all keys are valid |
| `Membership.GroupServer.RemovePeer` | src/server.ts:143-181 | the peer leaves all groups and, if all keys are valid, all its rooms, and each room left gets its broadcast |
| `GroupKeys.KeysStayAvailable` | src/client.ts:180-241 | the epoch never falls, and once joined the current key, own chain and index-0 seed exist in every later state |
| `JoinedSends.JoinedSendsAreConsecutive` | src/client.ts:431-449 | once joined, every later message goes out under the current epoch, and these messages are numbered without a gap |
| `JoinedSends.AlwaysAgree` | src/client.ts:221-241 | sending and key handling see the same epoch, chains and seeds in every run |
| `GroupKeys.RotatesIff` | src/client.ts:160-173 | a roster update starts a new epoch if and only if the client has just become creator, and otherwise leaves all keys and chains |
| `GroupKeys.DepartureKeepsKey` | src/client.ts:171-173 | a roster without a departed member leaves the group key in use |
| `GroupKeys.RekeyKeepsInv` | src/client.ts:346-369 | after a rotation retained keys lie in [current-4, current] |
| `GroupKeys.RotationOutcome` | src/client.ts:346-369 | a rotation moves on by one epoch with the new key and chain and keeps exactly the keys at most four epochs old |
| `GroupKeys.ShareOutcome` | src/client.ts:195-203 | a listed member's share becomes current if it is for a later epoch, says another key for the current one, or comes before joining; any other share changes nothing |
| `GroupKeys.EpochZeroShare` | src/client.ts:195-203 | a share of epoch 0 makes nobody joined |
| `KeyAgreement.SameEpochSameKey` | src/client.ts:180-217 | in every run with one maker of keys, clients of one epoch hold one key, and none is ahead of the maker |
| `KeyAgreement.ShareBringsAgreement` | src/client.ts:195-217 | a client given a share of the maker's epoch then holds the maker's key |
| `KeyAgreement.MakersSwapKeys` | src/client.ts:197-203 | a run in which two makers end up with each other's key |
| `GroupKeys.SharesNeverPrune` | src/client.ts:200-203 | adopting a share drops no key |
| `ShareCoverage.SteadyRunsCover` | src/client.ts:142-178 | if no roster update brings a flagged member back under a key not listed since the current key was adopted, each flagged member was sent the current group key at the current epoch, and a state of the current own chain not past it, under its current public key |
| `ShareCoverage.CoverageIff` | src/client.ts:146-159 | this holds in every state of a run if and only if no roster update does that |
| `ShareCoverage.MemberInfoFlags` | src/client.ts:307-344 | after every roster update every other member is flagged for key and chain once a key is held, whoever came back under whatever key |
| `ShareCoverage.ReturnerIsNotServed` | src/client.ts:152-158 | a run in which such a member stays flagged and unserved |
| `GroupKeys.GroupKeyClient.Targets` | src/client.ts:313-320 | exactly the unserved other members, each once |
| `GroupKeys.GroupKeyClient.ShareWithNewMembers` | src/client.ts:307-344 | the current key goes once to each newly flagged member under the roster's key |
| `GroupKeys.GroupKeyClient.ShareChainWithMembers` | src/client.ts:243-267 | the own chain state goes once to each newly flagged member |
| `GroupKeys.GroupKeyClient.AdoptKey` | src/client.ts:206-217 | key, epochs, flags and own chain after adoption, and the shares sent for it |
| `GroupKeys.GroupKeyClient.PruneEpochs` | src/client.ts:359-369 | keys more than four epochs old go, with their seeds |
| `GroupKeys.GroupKeyClient.Rekey` | src/client.ts:346-351 | rotation, by the creator only, and the shares sent for it |
| `GroupKeys.GroupKeyClient.TakeRoster` | src/client.ts:142-162 | the roster is replaced and exactly the members whose key changed lose their flags |
| `GroupKeys.GroupKeyClient.ServeRoster` | src/client.ts:163-173 | adoption, serving or rotation after a roster update, and the shares sent for it |
| `GroupKeys.GroupKeyClient.HandleMemberInfo` | src/client.ts:142-178 | state after a roster update in all its branches, and the shares sent for it |
| `GroupKeys.GroupKeyClient.HandleKeyShare` | src/client.ts:180-204 | when a share is adopted, what it changes, and the shares sent for it |
| `Framing.Deframer.OnData` | src/server.ts:93-109 | frames and leftover are those of the whole buffered stream |
| `Framing.ChunksDoNotMatter` | src/client.ts:815-830 | the reader's frames and leftover depend on the bytes only, not on the chunks |
| `Framing.DeframeConserves` | src/server.ts:93-109 | for any bytes, frames and leftover spell them again and the leftover holds no whole frame |
| `Framing.FrameLayout` | src/server.ts:212-216 | a frame is its length, high byte first, then its bytes |
| `Framing.StreamIsRead` | src/server.ts:212-216 | any frames up to 65535 bytes, framed, cut anywhere, come out whole and in order, and the leftover is the unfinished tail |
| `Codecs.SafeEqual` | src/core.ts:171-176 | true exactly for equal buffers |
| `Codecs.VerifyIffSigned` | src/core.ts:186-207 | exactly the signed frames verify, and verifying or stripping gives back the frame |
| `Codecs.NackRoundTrips` | src/core.ts:316-380 | parse, blind parse and authenticated decode all give back the encoded NACK, for up to 65535 numbers |
| `Codecs.DecodeNackIff` | src/core.ts:363-380 | bytes decode to a NACK if and only if they begin with its encoding under the nonce they carry |
| `Codecs.NackLayout` | src/core.ts:340-363 | where every field, number and the tag of a NACK stand |
| `Codecs.WriteNackHeader` | src/core.ts:340-355 | the buffer written at offsets is the header |
| `Codecs.ReadNack` | src/core.ts:320-338 | the reading loop is the parse function, too-short buffers included |
| `Codecs.MemberInfoRoundTrips` | src/core.ts:537-600 | every roster of 65-byte keys decodes to itself |
| `Codecs.MemberInfoLayout` | src/core.ts:537-560 | where every field of a MEMBER_INFO and its payload stands |
| `Codecs.TruncatedSlots` | src/core.ts:590-598 | what is read of a payload that ends early |
| `Codecs.WriteInfoPayload` | src/core.ts:544-552 | the buffer written slot by slot is the payload |
| `Codecs.ReadMembers` | src/core.ts:590-598 | the reading loop is the slot function, truncated payloads included |

## Left out

- AES-GCM, HMAC, SHA-256, ECDH, deflate and UTF-8 are arbitrary functions with the laws above; payloads are byte strings.
- Secrecy, forgery and replay are not claimed.
- Sockets, timers, statistics, message status and rate limiting; timers are events that may happen at any time, and nothing is claimed about liveness.
- One message is handled at one instant: the clock of `LossRecovery` is read once per message.
- In `LossyDelivery` the sender's log and wire are those at the end of the run, so a run there may deliver a packet before it was sent; this only allows more.
- The retry timer for NACKs with its `seenSeq` map, and the library client's SYNC branch (`src/client.ts:596-625`), which ask for numbers without changing the state modelled here.
- Numbers in the key layer are unbounded: 16-bit epochs and 32-bit chain indices do not run out.
- DATA packets with a short extension, and the check that a decrypted packet names the sender it came from; a receiver object here is for one sender.
- Malformed control packets other than NACK and MEMBER_INFO; the relay's forwarding of packets, which the network model subsumes.
- The relay checks signatures of SYNC and Dict-Reset; resets are events here, possible at any time.
- The two delayed repetitions of each key and chain share.
- `src/web-app.ts`, `src/electron-gui.ts` and the Go and Rust ports, which repeat the same machines.
