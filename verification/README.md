# A verified model of the BitTorrent peer with congestion control

Peers exchange files in chunks of 524288 bytes. A peer asks for hashes (WHOHAS), hears who has them
(IHAVE), asks one peer for one chunk (GET) and receives it as 354 numbered DATA packets over UDP, with
cumulative acknowledgements, retransmission and a congestion window. A chunk is accepted when its
SHA-1 is right. A router simulator in Perl carries the packets when the peers are exercised.

| files | what they model |
|---|---|
| `Common`, `Wrappers` | constants, option type |
| `RoundTrip`, `CongestionControl`, `SentQueue`, `Sender` | one upload: estimator, window, the linked list of packets sent, one pass of the sending loop |
| `Receiver` | one download: packet tracker, what DATA does, what the buffer holds |
| `Transfer`, `TransferRuns` | an upload, a download and a network that loses, delays, reorders and duplicates, as a step system; safety over all runs |
| `TransferLiveness`, `TransferWindow`, `TransferCopies`, `TransferVerdict` | how a session can still finish, how acknowledgements of nothing new open the window, and the exact condition |
| `TransferPatience`, `TransferTiming`, `TransferReach` | the same for a receiver that looks in time; what clock readings measure; runs from the start |
| `Scheduler`, `SchedulerInvariant`, `SchedulerRuns`, `SchedulerAsks`, `SchedulerLimits`, `Downloader` | chunks, download slots and known peers: transitions on values, their invariant, whole runs, who is asked for what, what a second answer breaks and undoes, and the in-place program |
| `EndToEnd` | a completed transfer heard by a slot of the scheduler among whatever else happens there |
| `Fips180`, `KnownAnswer`, `Sha1` | the standard (FIPS 180-4), the digest of "abc" round by round, and the streaming implementation |
| `Topology`, `Dijkstra`, `Router`, `Delivery` | hop distances, the search on values, the router objects, packets under way |
| `Packets`, `Whohas` | packets on the wire, the question and its answer |
| `InputBuffer` | the line splitter |

Code that updates structures in place is written as classes and methods over arrays, linked nodes and
reassigned fields; every such method equates the new state with a function of the old one, and the
lemmas are about those functions. Fields named in comments as recorded but not stored by the program
(`log`, `taken`, `sent`, `atTimeout`) are history variables.

## What holds, and what does not

- A download that finishes is the sender's chunk, byte for byte, in every run (`RunReassembles`), and
  the same packets at a scheduler's slot end in a verified, written chunk (`CompletedTransferIsOwned`).
  What can fail is finishing: DATA that repeats the newest packet is appended again (peer.c:167-175),
  and after one such repeat the chunk can never be completed (`RepeatIsFatal`, `RepeatRun`).
- Every transfer can finish, with the timeouts that the two processes hold at each point and neither
  side near giving up (`FreshTransferCanComplete`). For every session that is under way, taken alone,
  `CompletableIff` says whether it still can. It can exactly when one of six things holds: an
  acknowledgement is in flight that neither stops the sender nor leaves the receiver's newest packet as
  its oldest; DATA other than the newest is in flight; the oldest outstanding packet is not the
  receiver's newest and times out before the upload is given up; the window has room for a new packet
  before that; only packet 354 is missing and the pass that gives up sends it; or acknowledgements that
  say nothing new widen the window out of the linear-phase counter, which one of zero packets also takes
  from (congestion_control.c:29-38), before they time out the newest packet for good or stop the sender.
  The last case is a test of counter, maximum, window, duplicates, stamps and timeout: `Widens` with
  `Enough` for two different acknowledgements or a stale one, `CopiesOpen` for copies of the one before
  the newest. In slow start it comes down to room for one packet more (`SlowStartIff`). `LateRun` and
  `StaleRun` reach live states that cannot finish: an idle receiver with an active sender, and an
  acknowledgement in flight that would do no harm and no good.
- In these statements a pass of either main loop may come late, and DATA waiting at the socket is
  handled before the receiver looks for a dead peer (peer.c:313-325). A receiver that looks in time
  takes no DATA later than four of its own timeouts after the last. `InTimeIff` is the condition for
  such runs when no acknowledgement is in flight, and `SlowRun` reaches a state that can finish only at a
  receiver that looks late: one slow sample has pushed the sender's timeout beyond four of the receiver's.
- The null head pointer in `receive_ack` is never met, because a pass of the main loop that hands in an
  acknowledgement also sends; its `exit` is met exactly at a third duplicate of a stale acknowledgement
  (`ExitIffStaleDuplicate`), which acknowledgements in order never produce (`OrderedAcksNeverExit`) and
  which a network that copies one acknowledgement four times does (`ExitRun`).
- The readme's "outstanding packets will never outnumber the window size" fails for one pass exactly
  when it times out with two or more packets outstanding (`OutnumberedIff`; `OutnumberedRun` is a run). The readme
  also speaks of fast recovery and of halving a threshold; the code has neither, and the code is modelled.
- A comment at keep_track.c:130-135 says that late DATA is still acknowledged after the last packet. The
  DATA case returns before that. Once the receiver is done, ACK 354 can still close the upload exactly
  when that acknowledgement is in flight (`ClosableIff`, `LostLastAckRun`).
- A chunk marked RECEIVING is left without a sender, for good, exactly by DENIED from a peer that holds a
  slot and by an IHAVE that finds no free slot (`StepStrandsIff`, `StrandedForever`, `DenialRun`,
  `FullRun`).
- A request with more than 74 missing chunks is asked for in several WHOHAS packets, each of which is
  answered (network.c:98-115, 182-203), so that a peer can answer while it is sending. With a wanted
  chunk on offer and a free slot it then holds two slots, the second without a packet record; with
  nothing wanted on offer it is marked idle while it sends (`SecondAnswerIff`, `DoubledRun`). Timeouts
  can then strand a chunk too (`DoubledStrandsRun`), or put back one that is owned, under the message
  that the peer was not found (`OwnedIsUndoneRun`). What is owned is verified all the same
  (`OwnedIsVerified`).
- After the last DATA of a chunk its peer, and after a timeout the first idle peer that can help, is sent
  a GET for the first chunk not started that it is known to have, and has a slot for it; nobody is
  exactly when nobody has such a chunk to offer (`FullChunkAsks`, `TimeoutAsks`). After an offer the same
  holds if a slot is free (`OfferAsks`).
- Packets between routers are dropped by full queues only (`RecvDropsIff`); without more packets under
  way than the shortest queue holds, all are delivered (`RoomDeliversAll`).
- The line splitter hands out the lines that were typed exactly when the input ends at a NUL in the
  buffer (`RightIff`), which holds for all input exactly when nothing is left behind the pending text
  (`AlwaysRightIff`). A call leaves such a clean buffer exactly when every line, when it is taken, fits
  into the buffer beside all that is pending (`DrainedCleanIff`).

## Hypotheses

Requests name no hash twice and chunk ids equal positions; peers have positive numbers; one transfer
session runs between two peers, with no packets of an earlier one in flight. Clock readings do not
decrease. In `SchedulerInvariant` and `SchedulerRuns` a peer that is sending a chunk does not answer
another WHOHAS, as in requests with at most 74 missing chunks; `SchedulerLimits` does without that.

## Model

| member | source | states |
|---|---|---|
| `RoundTrip.Globals.InferRTT` | keep_track.c:343-355 | the three globals become those of `Infer` on the old ones |
| `RoundTrip.SamplesBoundTimeout` | keep_track.c:343-355 | samples in an interval keep RTT in it and RTO between its floor and its ceiling plus four times max(first deviation, width) |
| `RoundTrip.ConstantSampleSettles` | keep_track.c:343-355 | a constant sample s drives RTT into [s-6, s] and RTO into [s-6, s+24] within a number of samples known beforehand, where they stay |
| `RoundTrip.BandIsTight` | keep_track.c:347-354 | an estimate six below the sample never moves: truncation makes the band as wide as it is |
| `CongestionControl.Controller.InitCwnd` | congestion_control.c:67-76 | one slot starts afresh, the others keep their windows |
| `CongestionControl.Controller.WindowControl` | congestion_control.c:19-47 | one slot moves by `OnAck`, the others keep their windows; -1 for an unknown peer |
| `CongestionControl.Controller.WindowTimeout` | congestion_control.c:49-57 | one slot falls back to a window of one with its counter and maximum kept |
| `CongestionControl.ShutIff` | congestion_control.c:29-38 | some number of acknowledgements of zero packets takes the window above n exactly when it is already, or n is at most half the maximum and n(n+1) at most twice the counter plus cwnd(cwnd-1) |
| `CongestionControl.LinearConservation` | congestion_control.c:29-38 | over any acknowledgements in the linear phase, counter plus cwnd(cwnd-1)/2 grows by exactly the packets acknowledged, so the window grows only as their square root |
| `CongestionControl.FastGrowth` | congestion_control.c:39-42 | above half the maximum any acknowledgements add exactly their packets to the window, with counter and maximum unchanged |
| `CongestionControl.SlowStartGrowth` | congestion_control.c:24-28 | so they do in slow start, and the maximum follows |
| `CongestionControl.CycleAfterTimeout` | congestion_control.c:29-57 | from one timeout to the next: counter and window together account for the old counter and all packets acknowledged while growth is linear, and then every packet widens the window |
| `SentQueue.Queue.WaitAck` | keep_track.c:252-286 | a new node goes to the tail, replacing a stale one, or the head is stamped anew |
| `SentQueue.Queue.GetTimeoutSeq` | keep_track.c:230-250 | the head's number when it has waited too long, with the head stamped anew; no freed node is followed |
| `SentQueue.Queue.SkipAcked` | keep_track.c:300-308 | the loop clears exactly the front that the acknowledgement covers, feeds the estimator, and keeps the last node from being freed |
| `SentQueue.Queue.ReceiveAck` | keep_track.c:288-335 | list, size, duplicate counter and estimator become those of `Acknowledge`; the process stops exactly in its two bad verdicts |
| `SentQueue.Queue.GetTailSeqNumber` | keep_track.c:417-427 | the number in the tail node, stale or not, and zero before the first packet |
| `SentQueue.Queue.Abort` | keep_track.c:217-228 | empty list, null tail; of the nodes only the tail is freed |
| `SentQueue.AcknowledgeKeepsShape` | keep_track.c:288-335 | with an acknowledgement up to the tail: the queue stays the consecutive numbers after max(ack, acknowledged), the count is the advance, and the bad verdicts hold exactly at a third duplicate with nothing outstanding, or older than what is acknowledged |
| `SentQueue.TimedOutKeepsShape` | keep_track.c:230-250 | only the first number not acknowledged is ever retransmitted |
| `Sender.Slot.ChooseSeq` | network.c:276-294 | a timed-out head goes first and shrinks the window, otherwise the number after the tail goes if the window has room |
| `Sender.Slot.SendDataPacket` | network.c:273-317 | sends the slice of the chunk that belongs to the number, queues it, and leaves other slots' windows alone |
| `Sender.SliceOfMaster` | network.c:301-308 | the file offsets and sizes used cut the chunk into slices of 1484 bytes and a last one of 436 |
| `Sender.Slot.ProcessAck` | peer.c:201-209 | acknowledge, grow the window, free the slot on 354 |
| `Receiver.Tracker.AddRecord` | keep_track.c:382-407 | on any list: the packet is inserted after the last smaller record exactly when it directly follows it |
| `Receiver.Tracker.TrackDataPacket` | keep_track.c:137-155 | returns the last continuous number, and the list is a single record again |
| `Receiver.OnDataFaithful` | peer.c:147-179 | any packet with its own slice keeps the buffer the slices along a log that starts at 1 and steps by 0 or 1, and is answered with the last continuous number |
| `Receiver.FaithfulMeans` | util.c:250-277 | complete means equal to the chunk; without a repeat the buffer is the prefix of min(1484 last, 524288) bytes; the buffer is overrun exactly when 354 payloads were appended with a repeat |
| `Receiver.TakesAllPackets` | util.c:250-277 | whatever packets of whatever length come, fewer than 354 payloads appended neither complete a chunk nor overrun its buffer |
| `Receiver.OrderIsFollowed` | keep_track.c:137-155 | numbers in order are followed from the one after the record, or without a record from whichever comes first |
| `Transfer.AckKeepsUpstream` | peer.c:201-209 | queue and window invariants after an acknowledgement; the process stops exactly on the third duplicate of a stale one |
| `Transfer.SendKeepsUpstream` | network.c:273-317 | after a pass something is outstanding; new packets are consecutive and stay within the window, retransmissions repeat the oldest number and leave the queue as long |
| `Transfer.StepKeepsInv` | peer.c:307-325 | every step of sender, receiver and network, giving up on either side included, keeps the session invariant; no estimate is negative and no time recorded lies ahead of the clock |
| `Transfer.RunKeepsInv` | peer.c:307-325 | so does every run |
| `TransferRuns.RunIsSafe` | peer.c:147-210 | in every run: ACK in flight <= receiver's last <= sender's tail <= 354, and an upload closed by ACK 354 has been received in full |
| `TransferRuns.RunReassembles` | util.c:250-277 | in every run: a finished download equals the chunk, one without repeats is a prefix and inside the buffer |
| `TransferRuns.RepeatIsFatal` | peer.c:167-175 | after a repeat no continuation completes the chunk |
| `TransferRuns.ExitIffStaleDuplicate` | keep_track.c:309-323 | a step reaches the `exit` exactly at the third duplicate of an acknowledgement older than what is acknowledged; the null head is never followed |
| `TransferRuns.OrderedAcksNeverExit` | keep_track.c:300-334 | with acknowledgements in order: no `exit`, and the queue is exactly lastAck+1 .. tail with its size kept |
| `TransferRuns.RunKeepsWindow` | congestion_control.c:19-76 | in every run: acknowledged + outstanding = tail, 1 <= cwnd <= 1 + acknowledged, equality in slow start, outstanding <= max(cwnd, outstanding at the latest timeout) |
| `TransferRuns.OutnumberedIff` | readme.txt:7 | outstanding exceeds the window after a pass exactly when it timed out with two or more outstanding, or did so before |
| `TransferRuns.MaximumFrozen` | congestion_control.c:24-57 | after the first timeout the maximum never changes and slow start never returns |
| `TransferRuns.WindowOfCalmRun` | congestion_control.c:19-47 | in every run without a timeout the window becomes that of some acknowledgements whose packets sum up to those acknowledged |
| `TransferRuns.FastGrowthOfRun` | congestion_control.c:39-42 | in every run from where linear growth ends until the next timeout, window minus acknowledged is constant |
| `TransferRuns.NeverStuck` | network.c:273-317 | an active upload has something outstanding that a timeout retransmits, or sends packet 1 |
| `TransferRuns.StepDoesWork` | network.c:273-317 | 708 - tail - acknowledged never grows, and drops exactly on new packets and advancing acknowledgements |
| `TransferRuns.WorkIsBounded` | network.c:273-317 | no run has more than 708 such steps |
| `TransferRuns.EndedForGood` | peer.c:136-140 | a download that has ended stays as it is in every continuation |
| `TransferRuns.LostLastAckNeverFinishes` | peer.c:136-140 | a finished receiver is silent: without ACK 354 in flight no continuation closes the upload by it |
| `TransferRuns.ClosableIff` | keep_track.c:130-135 | once the download has ended, some run closes an active upload by ACK 354 exactly when that acknowledgement is in flight |
| `TransferLiveness.HeardCanComplete` | peer.c:147-210 | an acknowledgement in flight lets the chunk be completed unless it stops the sender or leaves the receiver's newest packet as the oldest outstanding one; with the estimator it leaves, the next timeout comes before the sender gives up |
| `TransferLiveness.RecoverableCanComplete` | network.c:276-297 | so does time for a useful retransmission or a new packet before giving up, or for packet 354 in the pass that gives up |
| `TransferWindow.OpeningCanComplete` | congestion_control.c:29-38 | with a window that is not shut, two different acknowledgements, or enough copies of one, handed in before the oldest packet times out make room for a new packet |
| `TransferCopies.HeardOpensCanComplete` | keep_track.c:300-334 | copies of the acknowledgement before the newest, of which the first acknowledges packets and gives a sample, do so in the cases of `HeardOpens` |
| `TransferCopies.CornerOpensCanComplete` | keep_track.c:309-323 | so do copies that acknowledge nothing, before the newest packet times out or after up to three timeouts, in the cases of `CornerOpens` |
| `TransferCopies.WiderIsNoBetter` | congestion_control.c:29-38 | a second copy handed in at a wider window before a timeout never leaves more to restart from than one handed in after it |
| `TransferVerdict.DoomedNeverCompletes` | peer.c:167-175 | with nothing in flight but the newest packet and acknowledgements that stop the sender or cannot open its window, and no way to recover, no run completes the chunk |
| `TransferVerdict.CompletableIff` | keep_track.c:75-90 | a live transfer, taken alone, can complete its chunk exactly in the six cases listed above, whatever is in flight |
| `TransferVerdict.SlowStartIff` | congestion_control.c:24-28 | in slow start the sixth case is: an acknowledgement in flight that does not stop the sender, sent + 1 < 2 last, sent < 354, and time for it before the newest packet times out if all before that is acknowledged |
| `TransferPatience.InTimeIff` | keep_track.c:58-73 | with no acknowledgement in flight, a live transfer can complete in runs whose receiver looks in time exactly when other DATA is in flight or the sender's next useful packet is out before four of the receiver's timeouts have passed |
| `TransferPatience.TooLateNeverCompletes` | keep_track.c:58-73 | after that no such run completes |
| `TransferPatience.PatientMeansLooking` | keep_track.c:58-73 | a run completes in time exactly when it still completes with a look for a dead peer before every DATA |
| `TransferTiming.SampleIsRoundTrip` | keep_track.c:300-308 | in every run, the acknowledgement of a packet feeds the time since the pass that first sent it, unless it was sent again or made to look older meanwhile |
| `TransferTiming.FastRetransmitIff` | keep_track.c:309-323 | the third duplicate sends the oldest packet again in the same pass, exactly if any time has passed since its stamp |
| `TransferTiming.FirstTimeout` | keep_track.c:75-90 | the first packet is sent again after more than 1.6 seconds, and the upload is given up after more than 6.4 |
| `TransferTiming.FirstSilence` | keep_track.c:58-73 | a download without DATA ends at the first look after more than 6.4 seconds |
| `TransferTiming.SamplesMoveEstimates` | keep_track.c:343-355 | samples of other transfers move the estimator of their process, in order, and nothing else |
| `TransferLiveness.StaleCopiesStopTheSender` | keep_track.c:309-323 | enough copies of one stale acknowledgement always bring the process to its `exit` |
| `TransferReach.FreshTransferCanComplete` | peer.c:122-134 | from the GET, a run with the processes' own estimators, in which neither side is near giving up, completes the chunk and closes the upload |
| `TransferReach.LostLastAckRun` | keep_track.c:130-135 | a run after which the chunk is complete and ACK 354 can close the upload no more |
| `TransferReach.RepeatRun` | peer.c:167-175 | a run after which nothing is in flight and the chunk cannot be completed, and its continuation that appends packet 1 twice |
| `TransferReach.ExitRun` | keep_track.c:309-323 | a run into the `exit` |
| `TransferReach.OutnumberedRun` | readme.txt:7 | a run that ends with two packets outstanding in a window of one |
| `TransferReach.LateRun` | keep_track.c:75-90 | a run after which the receiver has taken nothing, the upload is within its deadline, and the chunk cannot be completed |
| `TransferReach.StaleRun` | keep_track.c:309-323 | a run to a live state with a harmless acknowledgement in flight from which the chunk cannot be completed |
| `TransferReach.SlowRun` | keep_track.c:343-355 | a run, with one sample of three seconds, to a state that can complete but not at a receiver that looks in time |
| `Scheduler.Find` | keep_track.c:363-370 | the first position at which a test holds |
| `SchedulerInvariant.StepKeepsInv` | peer.c:79-219 | every event keeps the invariant over chunks, slots and connections, and a fault happens exactly when DATA would overrun its chunk's buffer |
| `SchedulerInvariant.DataKeepsInv` | peer.c:135-200 | the same for DATA, through saving, verifying, freeing the slot and picking anew |
| `SchedulerInvariant.ForgetKeepsInv` | util.c:433-484 | after a timeout the slot's peer is always found among the connections; the message "did not find peer" is unreachable |
| `SchedulerInvariant.IdleIsUnused` | util.c:387-409 | a peer marked idle holds no slot, so that the search after a crash never doubles one |
| `SchedulerInvariant.ReleaseKeepsInv` | peer.c:331-337 | a request is freed exactly when all its chunks are owned, and then no slot is active |
| `SchedulerInvariant.RunKeepsInv` | peer.c:307-338 | the invariant holds in every run |
| `SchedulerRuns.NoChunkFetchedTwice` | util.c:190-216 | in every run: slots have different peers and chunks, each feeds a RECEIVING chunk with exactly the bytes taken since the slot was, each peer is known and WORKING, and nothing else has a buffer |
| `SchedulerRuns.OwnedStays` | util.c:250-257 | OWNED stays until the request is freed |
| `SchedulerRuns.StepStrandsIff` | peer.c:211-214 | an event leaves a RECEIVING chunk without a sender exactly when it is DENIED from a slot's peer or an IHAVE without a free slot |
| `SchedulerRuns.StrandedForever` | util.c:339-350 | such a chunk stays so whatever follows, and its request is never freed |
| `SchedulerRuns.SlotIsReceiver` | peer.c:147-199 | a slot answers, numbers and appends as the receiver of a transfer does; a full chunk becomes OWNED, and is written out, exactly when its SHA-1 is right |
| `SchedulerRuns.PickGetIff` | peer.c:107-114 | for a peer without a slot, the GET that goes out names exactly the chunk of the slot just taken |
| `SchedulerRuns.OthersKeepSlot` | peer.c:79-219 | an event of another peer, or a tick that does not expire the slot, leaves the slot as it is |
| `SchedulerAsks.OfferAsks` | peer.c:91-120 | after an IHAVE its list is known, a new peer in front of all others; the first chunk not started on it is marked, takes the first free slot and is asked for; without one the peer is idle |
| `SchedulerAsks.OfferWithoutRequest` | peer.c:91-120 | without a request an offer is only remembered |
| `SchedulerAsks.FullChunkAsks` | peer.c:175-199 | after the DATA that fills a chunk: verified or back to not started, its slot free, and the peer asked for the first chunk it is known to have, or idle |
| `SchedulerAsks.TimeoutAsks` | util.c:387-484 | after a timeout: the chunk put back, the peer forgotten, and the first idle peer that is known to have a chunk not started asked for its first one; nobody exactly if there is none |
| `SchedulerAsks.LaterPeerIsFirst` | util.c:368-374 | of two peers heard of for the first time the later one comes first |
| `SchedulerAsks.RunFileIsOwned` | util.c:304-337 | in every run the output file of the request under way holds exactly its owned chunks |
| `SchedulerLimits.OwnedIsVerified` | util.c:304-337 | in every run, second answers included, an OWNED chunk was written out with contents of its own SHA-1 and is in the table of owned hashes |
| `SchedulerLimits.SecondAnswerIff` | keep_track.c:169-183 | an IHAVE from a slot's peer gives it a second slot exactly when a wanted chunk is on offer and a slot is free, and keeps the invariant exactly when a wanted chunk is on offer and no slot is free |
| `SchedulerLimits.SecondSlotIs` | keep_track.c:125-183 | of two slots of one peer the one in front gets packet 0: an earlier slot counts as heard from and the new one has no record, or the new one has and the other is left alone |
| `SchedulerLimits.DenialRun` | peer.c:211-214 | a run that strands a chunk by DENIED |
| `SchedulerLimits.FullRun` | peer.c:97-116 | a run that strands a chunk by an offer without a free slot |
| `SchedulerLimits.DoubledRun` | keep_track.c:169-183 | a run after which one peer holds two slots |
| `SchedulerLimits.DoubledStrandsRun` | util.c:433-438 | two timeouts after that, a chunk is stranded |
| `SchedulerLimits.OwnedIsUndoneRun` | util.c:454-464 | a run from the start after which an OWNED chunk is put back to NOT_STARTED, and the peer of the expired slot is unknown |
| `EndToEnd.HeardIsOwned` | peer.c:135-200 | at any point of a transfer that completes: the DATA still to come, among any events that are not about the slot or its peer, makes the chunk OWNED at a slot that is as far |
| `EndToEnd.CompletedTransferIsOwned` | peer.c:135-200 | the DATA of any completed transfer, heard by a slot just started on the chunk's SHA-1 among such events, makes the chunk OWNED without fault and writes out the sender's bytes |
| `Downloader.Downloader.GetDownloadIndexById` | keep_track.c:363-370 | the first slot with the peer's number, or -1 |
| `Downloader.Downloader.TrackDataPacket` | keep_track.c:125-161 | the first slot of the peer gets the new last number and time, or any first number if it has no record; an unknown peer gets its number back |
| `Downloader.Downloader.StartDownload` | keep_track.c:169-183 | the first free slot is taken; its record is made by tracking packet 0 at the first slot of the peer |
| `Downloader.Downloader.AbortDownload` | keep_track.c:186-198 | the peer's slot is freed and nothing else changes |
| `Downloader.Downloader.CleanDownloadTimeout` | keep_track.c:58-73 | frees the first slot that was silent for longer than four timeouts |
| `Downloader.Downloader.MarkPeerState` | util.c:178-188 | only the first entry of the peer changes its mark |
| `Downloader.Downloader.UpdateConnections` | util.c:352-380 | a known peer's list is replaced, a new peer goes to the front, idle |
| `Downloader.Downloader.PeerContainChunk` | util.c:218-232 | whether any entry of the peer lists the hash |
| `Downloader.Downloader.PickAChunk` | util.c:190-202 | marks the first chunk not started that the packet lists |
| `Downloader.Downloader.PickANewChunk` | util.c:204-216 | marks the first chunk not started that the peer is known to have |
| `Downloader.Downloader.SaveDataPacket` | util.c:250-277 | appends at most one payload behind what is there, or reports the fault |
| `Downloader.Downloader.SaveChunk` | util.c:304-337 | a full chunk is hashed; it is owned, written and announced, or starts over; its buffer is gone either way |
| `Downloader.Downloader.UpdateIhaveTable` | util.c:279-302 | a hash is appended once |
| `Downloader.Downloader.AllChunkFinished` | util.c:339-350 | true exactly when there is a request and every chunk is owned |
| `Downloader.Downloader.DownloadPeerCrash` | util.c:433-484 | slot freed, chunk put back, peer forgotten |
| `Downloader.Downloader.PickAChunkAfterCrash` | util.c:387-430 | the first idle peer with something to offer takes over, and the GET that goes to it |
| `Downloader.Downloader.ProcessIHave` | peer.c:91-120 | the IHAVE case, with the GET that goes out |
| `Downloader.Downloader.ProcessData` | peer.c:135-200 | the DATA case, with its answer and the GET for the next chunk |
| `Downloader.Downloader.DownloadPeerCrashWrapper` | util.c:411-430 | the crash tick of the main loop, with the GET to the peer that takes over |
| `Downloader.Downloader.ProcessGet` | peer.c:222-238 | a new request starts blank and is flooded; one under way is kept, and one that cannot be parsed changes nothing |
| `Downloader.Downloader.EndPass` | peer.c:331-337 | a finished request is freed |
| `Sha1.ByteswapLoads` | sha.c:71-136 | swapping a word read from memory gives the big-endian word, on either byte order |
| `Sha1.ByteswapStores` | sha.c:548-553 | storing a swapped word writes big-endian bytes, on either byte order |
| `Sha1.Byteswap64Stores` | sha.c:102-123 | swapping the halves and the bytes of the 64-bit counter and storing it gives the big-endian length field, on either byte order |
| `Sha1.FastFIsF` | sha.c:52-55 | the rewritten functions equal Ch, Parity and Maj of the standard, round by round |
| `Sha1.RotlRotates` | sha.c:49 | the macro and the standard's functions rotate to the left |
| `KnownAnswer.DigestOfAbc` | chunk.c:33-49 | the standard as modelled gives the published digest of "abc" |
| `Sha1.ExpandSchedule` | sha.c:184-200 | the four-pointer walk computes W[0..79] of section 6.1.2 |
| `Sha1.RoundGroup` | sha.c:210-444 | twenty rounds in every unrolling from 1 to 20 |
| `Sha1.SHA1Context.Guts` | sha.c:176-451 | the hash value becomes the compression of the block |
| `Sha1.SHA1Context.UpdatePlain` | sha.c:501-523 | the context absorbs the data |
| `Sha1.SHA1Context.UpdateFast` | sha.c:461-500 | the copying variant absorbs the same data |
| `Sha1.SHA1Context.Finish` | sha.c:536-543 | the message is padded as in section 5.1.1 and the buffer is empty |
| `Sha1.SHA1Context.Final` | sha.c:529-558 | the digest of all that was absorbed |
| `Sha1.PadBlocks` | sha.c:536-538 | padding makes one final block, or two when fewer than nine bytes are left |
| `Sha1.HashPieces` | sha.c:149-163 | for every cut of a message under 2^64 bits, byte order, unrolling and copying: the SHA-1 of the concatenation |
| `Sha1.Shahash` | chunk.c:33-49 | the SHA-1 of the buffer |
| `Router.NSQueue.EnQ` | hupsim.pl:47-69 | drop-tail queue: counted as dropped, or appended to leave when the bytes before it and its own have been sent and one latency has passed; `size` kept as the sum of lengths |
| `Router.AddLine` | hupsim.pl:366-383 | a line of the map file adds an edge both ways with its rate, latency and queue length, and makes the routers it names first |
| `Router.FindNext` | hupsim.pl:249-259 | a nearest router not done yet |
| `Router.NSRouter.Relax` | hupsim.pl:261-273 | all edges relaxed, predecessors set, marked done |
| `Router.NSRouter.Explore` | hupsim.pl:247-274 | after as many visits as routers the search is finished |
| `Router.NSRouter.WalkBack` | hupsim.pl:278-282 | the predecessor walk ends at the first hop; no predecessor is missing |
| `Router.NSRouter.CreateTable` | hupsim.pl:226-288 | every entry is a neighbour on a shortest route, whatever earlier searches left in the predecessors |
| `Router.CreateTables` | hupsim.pl:386-389 | all routers' tables at once |
| `Dijkstra.VisitKeepsInv` | hupsim.pl:247-274 | visiting a nearest vertex keeps distances, parents and order sound |
| `Dijkstra.DistancesAreHops` | hupsim.pl:236-274 | a finished search holds the least numbers of hops, below the number of routers |
| `Dijkstra.FirstRouteStays` | hupsim.pl:261-273 | once a router is reached neither its distance nor its predecessor changes: of several shortest routes the first one found stays |
| `Dijkstra.FirstHopIsShortest` | hupsim.pl:275-287 | the first hop is a neighbour exactly one closer |
| `Topology.ForwardingApproaches` | hupsim.pl:150-189 | forwarding by independently built tables is one hop closer after each hop and arrives after exactly the distance |
| `Topology.ArrivedStays` | hupsim.pl:150-189 | a packet that has arrived stays where it is |
| `Delivery.LeaveApproaches` | hupsim.pl:200-213 | a packet handed on lowers the hops ahead by exactly one unless it is dropped; no packet is lost or made |
| `Delivery.PacketsArriveOrAreDropped` | hupsim.pl:191-224 | in whatever order queues run, moves are bounded by the hops ahead, and in the end every packet was delivered or dropped |
| `Delivery.RecvDropsIff` | hupsim.pl:150-189 | a packet for another router is dropped exactly when as many packets as the queue holds wait in it, and joins its end otherwise |
| `Delivery.LeaveIsFifo` | hupsim.pl:191-224 | every queue is first in, first out |
| `Delivery.RoomDeliversAll` | hupsim.pl:191-224 | with no more packets under way than the shortest queue holds, nothing is dropped in any order, and when nothing waits all have been delivered |
| `Packets.HeaderRoundTrip` | network.c:52-64 | every header field read in peer.c:52-58 is the one written |
| `Packets.HeaderLayout` | network.c:52-64 | the sixteen bytes, one by one, in network byte order |
| `Packets.DataRoundTrip` | network.c:146-151 | number, size and payload of a DATA packet come back |
| `Packets.HashListRoundTrip` | network.c:103-112 | up to 74 hashes fit 1500 bytes, the count byte and the count by length agree, and the hashes come back in order |
| `Packets.HashListLayout` | network.c:103-112 | the count, three zeros and every byte of every hash in its place |
| `Whohas.MakeWhohas` | network.c:78-116 | ceil(n/74) packets that share out the hashes not started |
| `Whohas.WhohasRoundTrip` | network.c:96-115 | the packets decode, one after the other, to exactly the hashes not started, in order |
| `Whohas.FindChunk` | util.c:3-16 | membership in the table of owned hashes |
| `Whohas.MakeIHave` | network.c:117-139 | the answer lists what is owned of the question, none when nothing is; the payload is overrun exactly when more than 74 are |
| `Whohas.AnswerListsOwned` | util.c:507-519 | the answer, counted either way, lists exactly what was asked for and is owned |
| `Whohas.PickTakesFirst` | util.c:190-202 | the chunk picked is the first one still missing that is on offer, and none exactly when there is none |
| `InputBuffer.UserBuf.FindNewline` | input_buffer.c:46 | the first newline before the first NUL |
| `InputBuffer.UserBuf.TakeLine` | input_buffer.c:47-51 | the line is handed out, and the string behind it moves to the front whatever lies behind that; `cur` is unsigned |
| `InputBuffer.ShiftedAt` | input_buffer.c:46-51 | position by position what the buffer holds after a line is taken |
| `InputBuffer.UserBuf.ProcessUserInput` | input_buffer.c:22-54 | for any buffer and any input: the process stops exactly at a full buffer; otherwise the lines are those of the string then in the buffer, and buffer and `cur` are what is left |
| `InputBuffer.ShiftCleanIff` | input_buffer.c:50-51 | the move leaves no stale text exactly when line and pending text fit side by side |
| `InputBuffer.RightIff` | input_buffer.c:39-52 | a call hands out the lines of pending text and input, and keeps their rest, exactly when a NUL follows the input |
| `InputBuffer.AlwaysRightIff` | input_buffer.c:39-52 | no input can go wrong at the next call exactly when nothing is left behind the pending text |
| `InputBuffer.DrainedCleanIff` | input_buffer.c:46-52 | a call leaves nothing behind exactly when each line fits in beside all that was pending when it was taken |
| `InputBuffer.UserBuf.ProcessAll` | input_buffer.c:22-54 | for any fragments: when each fits, the lines do not depend on how the input was cut up |

## Left out

- RoundTrip.Globals.InferRTT: 0.85 and 0.25 are exact rationals, so that the rounding of `double` is not modelled; the estimates are unbounded integers, and the exit on a negative absolute value, which only an `int` overflow could reach, is missing.
- Receiver.Tracker.TrackDataPacket: one record list only; the search for the peer's slot and the time of the last DATA are in `Downloader.TrackDataPacket`.
- Receiver.OnDataFaithful: a download stops at the first write past its buffer; what memory holds after that is not modelled.
- Transfer.StepKeepsInv: one clock serves both peers, and other uploads of the two processes appear only by the samples they feed to the estimators.
- TransferVerdict.CompletableIff: one session alone; samples of other uploads of the two processes, which move the shared estimators, do not come in between.
- TransferPatience.InTimeIff: states without an acknowledgement in flight and with a receiver's timeout of at least one microsecond; with acknowledgements in flight the earliest useful pass depends on the samples they give.
- SchedulerInvariant.StepKeepsInv: holds for the events that `Scheduler.Expected` admits (see Hypotheses), and so do the other results of that module and of `SchedulerRuns`.
- SchedulerRuns.NoChunkFetchedTwice: needs at most 74 missing chunks in a request, or peers that do not answer while they send; `SchedulerLimits.SecondAnswerIff` is the break.
- Scheduler.Find: the parallel arrays of a download slot are one array of slots, and a chunk's buffer is the value of its written part.
- Downloader.Downloader.ProcessGet: the hashes are given, or the failure to parse them; the parsing itself is left out, and what the flood sends is in `Whohas`.
- Whohas.MakeWhohas: at most 255 chunks, since the counting loop with its 8-bit index does not end beyond that.
- Whohas.MakeIHave: what the C code writes past the payload when more than 74 hashes are owned is reported, not modelled; it cannot happen for a question inside the 1500-byte receive buffer.
- InputBuffer.UserBuf.ProcessUserInput: `read` is given by the characters it delivers.
- InputBuffer.UserBuf.ProcessAll: promises lines only when every fragment fits (`AllFit`); for one call on any input see `RightIff`.
- Router.NSQueue.EnQ: times are exact reals.
- Router.NSRouter.CreateTable: the topology is connected and has fewer than 65535 routers, as infinity must exceed every distance.
- Delivery.PacketsArriveOrAreDropped: transmission times and latencies are left out, so that queues run in any order; packets to unknown nodes, which `recv` discards, are not injected.
- Sha1.HashPieces: messages of 2^64 bits and more, where the length counter wraps.
- Upload slots are modelled one at a time: the search loops of `start_upload`, `get_upload_list` and `clean_upload_timeout` over the slot arrays repeat those of the download side; the test for a silent peer is part of `Transfer.SendAndClean`.
- 32-bit wrap-around of windows and counters: the bounds proved keep them below 355.
- Sockets, `select`, the spiffy header, files, logging, printing, parsing of chunk files and command lines, hex conversion, memory accounting beyond the nodes of a live queue.
- `connection.c` and its header, which the build does not use, and the copies of the router under cp1 and p2-tests.
- Retrying a lost GET or WHOHAS, which the program does not do.
