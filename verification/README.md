# Verified models of the dummynet schedulers, link emulation, containers and firewall state

This project models, in Dafny, the parts of the repository that keep state in memory and decide what
happens to packets, and proves what their comments promise:

- the packet schedulers QFQ, WF2Q+ and deficit round robin (`Qfq*.dfy`, `Wf2q.dfy`, `Drr*.dfy`);
- link emulation and the event loop of dummynet (`Link.dfy`);
- the containers below them: the binary heap with back-pointers, the hash table of rings and the lookup
  table with generation numbers (`DnHeap.dfy`, `HashTable.dfy`, `Lut.dfy`);
- the table of dynamic firewall rules (`DynTable.dfy`, `DynRules.dfy`);
- the radix tree for longest-prefix match (`Radix*.dfy`);
- two fast forms of simple functions, the Internet checksum and the quicksort (`Cksum.dfy`, `Qsort.dfy`).

`Basics.dfy`, `Bits.dfy` and `PacketQueue.dfy` hold what several of them use.
`dafny verify dfyconfig.toml` checks everything.

## How the models are built

Code that changes its state step by step is a class, or a method over an array, whose fields and loops
are those of the C code. Its contracts tie the new state to the old one through functions on values
(`DrrSpec.Dequeue`, `DynTable.Unlinked`, `HashTable.Kept`, ...), and the lemmas about those functions carry the
properties over whole runs. Each class has an invariant, `Valid()`, that every method keeps; the ghost
fields (`contents`, `routes`, `live`, `nodes`, `arrived`, `served`, `base`, `states`, `runs`, ...) are the abstract value
that the methods are proved against.

The main results:

- **Radix tree.** After any sequence of `AddRoute` calls, `Match` gives the most specific route that
  covers the key *if and only if* the key is not the all-ones key, or that key itself was entered, or
  nothing covers it. The shortcut for the all-ones leaf makes the lookup of that key miss even a default
  route (`AllOnesMissesDefault`). `AddRoute` fails exactly for a route that is there, and for a host route
  to one of the two sentinel keys.
- **QFQ** is work-conserving for every run whose arrivals find room in the wheel: `Dequeue` returns
  nothing exactly when no class is backlogged. It serves only groups that have started (`S <= V`), and no
  class starts later than in the slot after the one of the virtual time (`Near`). A service releases a
  blocked group *if and only if* the group is below the one served, that one has new timestamps, and the
  next ready group does not finish by the old finish time (`ReleasedAfter`).
- **WF2Q+** serves, among all backlogged flows with `S <= max(V, min S)`, one with the least `F`; the
  "ouch" branch is dead and the sum of weights is already 0 where the code resets it. While a flow stays
  backlogged, its `S` grows by the bytes it has sent over its weight, up to the fraction that the fixed
  point inverse loses (`ServiceLaw`); QFQ has the same law, exact in its inverse weights.
- **Deficit round robin** is fair: over any stretch of a run in which two queues stay in the ring, the
  bytes they send, divided by their quanta, differ by less than `3 + Lmax/q_i + Lmax/q_j`. Each queue is FIFO.
- **Dynamic rules.** Counts of limit parents are the numbers of their live children and stay within the
  limit, no parent of a live child is freed, a flow has at most one session, found from both directions, and
  the "OUCH" branch of a forced removal is dead. When `ipfw_install_state` refuses, the flow has no
  session; when it reports success, the flow has one *if and only if* it had one that was alive before, or
  new sessions have a lifetime and the rule is not a `keep-state` one that comes before the first table is
  allocated while the number of buckets asked for is not a power of two. The failing inputs are three
  buckets (`RefusedFirst`) and `dyn_syn_lifetime == 0` (`NoLifetime`). The lifetime that a packet gives a
  session is stated by the flags each side has sent (`RefreshIs`), and an established session whose packets are
  in sequence and less than `dyn_ack_lifetime` apart never expires (`NeverExpires`).
- **Link emulation.** Credit is conserved, which bounds the bits of the packets that a link serves over any
  part of a run of the emulator in which it is not woken up (`RateSinceWakeUp`). Every packet that is served has
  its output time, a link delay after the service or, for the last one of a service that ends in debt, after the
  debt is made up for; so the bits that have left a link by any time are at most the credit at the wake-up and
  what the link carries until a link delay before, without a packet on top (`RateReleased`). The event loop ends; after a
  tick exactly the due packets have left, and what it returns is those packets, each delay line's in order.
  Two weak spots of the code are stated exactly. `dummynet_io` passes on what leaves the delay line at once
  *if and only if* the scheduler did not ask to be called later after it had handed packets to an idle line
  without a delay; then they are lost, because `serve_sched` returns NULL (`LostIff`, `LostPacket`). And a new
  instance starts with `sched_time` 0, so a first packet in the tick in which the instance is made is served
  with the credit for all the time since 0; from then on the bound holds with that credit (`FirstService`).
- **Checksum and sort.** `in_cksum` is the complement of the one's complement sum of section 2 of RFC 1071
  whatever the boundaries and addresses of the buffers, *if and only if* the machine is little-endian or its
  `long` has 32 bits, or all bytes are zero: on a big-endian machine with a 64-bit `long`, `REDUCE` reads the
  wrong half of the sum and the result is always all ones. The quicksort yields a sorted permutation for every
  total preorder.
- **Lookup table.** Identifiers are never given out twice, and a lookup is right for every identifier except
  the pending one of a free slot that has a successor in the free list (`StrayAnswer`).

Where code and comments disagree the model follows the code. The comment above `qfq_update_start` says that
the start time is guaranteed not to move backward, and it sets it to the finish time of a ready group so as not
to violate the ordering of the ready groups. Both are false of the code. `EarlierIff` says exactly when
the start time moves backward: the last finish time has passed, and the next ready group finishes before the
slot of that time. `QfqRun.StartsBefore` is a run of the scheduler, from its creation on, in which it happens,
with classes A (weight 65536, packets up to 256 bytes), B (32768, 256) and C (512, 2000). With + for a packet of that
length and - for a service it is: +A256 +A256 +A256 +A250 +A256 +A232 - +C2000 +B184 +B178 +B256 +B56 - - - - - - - -
+A256 - - +A115. Shortly before its end `qfq_unblock_groups` releases the group of A although the group of B,
which has just become ready again, finishes before it (`QfqRun.OutOfOrder`).

## Model

| member | source | states |
|---|---|---|
| DnHeap.TopIsMinimal | sys/netinet/ipfw/dn_heap.c:74-75 | heap order makes the first key the least of all, not only of its children |
| DnHeap.BubbleStep | sys/netinet/ipfw/dn_heap.c:161-171 | one exchange with the parent moves the only place where heap order may fail one level up |
| DnHeap.SwapPlaces | sys/netinet/ipfw/dn_heap.c:161-171 | the exchange keeps the contents and the position map in step |
| DnHeap.HoleStep | sys/netinet/ipfw/dn_heap.c:207-214 | moving the smaller child up keeps order around the hole |
| DnHeap.HoleMoves | sys/netinet/ipfw/dn_heap.c:207-214 | moving the smaller child up keeps every other entry at its recorded position |
| DnHeap.HoleFilled | sys/netinet/ipfw/dn_heap.c:215-223 | the last entry put into the hole leaves exactly the contents without the extracted object |
| DnHeap.RoundUpIsLeast | sys/netinet/ipfw/dn_heap.c:86-91 | the new capacity is the least number of the form 2^k - 1 that is large enough |
| DnHeap.DropPlaces | sys/netinet/ipfw/dn_heap.c:291-294 | a deletion during a scan overwrites the entry with the last one and loses nothing else |
| DnHeap.ScanDone | sys/netinet/ipfw/dn_heap.c:283-303 | a scan that was not ended has seen every object, and exactly the flagged ones are gone |
| DnHeap.Heap.constructor | sys/netinet/ipfw/dn_heap.c:109-117 | an empty heap |
| DnHeap.Heap.Resize | sys/netinet/ipfw/dn_heap.c:79-107 | growing keeps all entries |
| DnHeap.Heap.Insert | sys/netinet/ipfw/dn_heap.c:142-174 | contents gain exactly the new object under its key, and all back-pointers are right |
| DnHeap.Heap.Top | sys/netinet/ipfw/dn_heap.h:99-99 | the entry at the top has the least key of all contents |
| DnHeap.Heap.Extract | sys/netinet/ipfw/dn_heap.c:179-224 | exactly the top, or exactly the given object from the middle, is gone, and its cell is reset |
| DnHeap.Heap.Heapify | sys/netinet/ipfw/dn_heap.c:274-281 | heap order and back-pointers are restored from any placement |
| DnHeap.Heap.Scan | sys/netinet/ipfw/dn_heap.c:283-303 | exactly the flagged objects among those seen are gone, and all were seen unless the callback ended the scan |
| Wf2q.EligibleIffBelow | sys/netinet/ipfw/dn_sched_wf2q.c:206-232 | eligibility against max(V, min S) is S at most the bumped virtual time |
| Wf2q.FinishIs | sys/netinet/ipfw/dn_sched_wf2q.c:155-155 | between start and finish a flow gets what its head packet is worth: the weight times that time is the bytes, up to the fraction that the inverse loses |
| Wf2q.ActivateTimes | sys/netinet/ipfw/dn_sched_wf2q.c:143-165 | a flow that comes back starts at V, or at its last finish time if that is later and the flow is still known; V catches up if nothing is backlogged |
| Wf2q.IdleIffInHeap | sys/netinet/ipfw/dn_sched_wf2q.c:151-153 | a known flow without packets is exactly one in the idle heap, under its finish time |
| Wf2q.ForgetKeepsInv | sys/netinet/ipfw/dn_sched_wf2q.c:108-126 | dropping the top of the idle heap keeps the whole invariant, the sum of weights included |
| Wf2q.ActivateKeepsInv | sys/netinet/ipfw/dn_sched_wf2q.c:143-180 | a flow that becomes backlogged keeps the invariant; in particular it is not ineligible with an empty scheduler |
| Wf2q.ActivateWaits | sys/netinet/ipfw/dn_sched_wf2q.c:172-177 | the "ouch" branch cannot be reached |
| Wf2q.ServeKeepsFlows | sys/netinet/ipfw/dn_sched_wf2q.c:235-252 | service keeps every flow in the right heap under the right key |
| Wf2q.ServeKeepsInv | sys/netinet/ipfw/dn_sched_wf2q.c:235-252 | service keeps the part of the invariant that holds until V is bumped again |
| Wf2q.ResetKeepsInv | sys/netinet/ipfw/dn_sched_wf2q.c:195-203 | when nothing is queued and the idle heap is drained, the sum of weights is 0 and V may be reset |
| Wf2q.PickedByTop | sys/netinet/ipfw/dn_sched_wf2q.c:234-236 | the top of the scheduled heap has the least finish time among all eligible flows |
| Wf2q.NewKeepsInv | sys/netinet/ipfw/dn_sched_wf2q.c:295-308 | a new flow is in no heap and adds nothing to the sum |
| Wf2q.Scheduler.constructor | sys/netinet/ipfw/dn_sched_wf2q.c:257-273 | an empty scheduler meets the invariant |
| Wf2q.Scheduler.ServiceLaw | sys/netinet/ipfw/dn_sched_wf2q.c:235-252 | while a flow stays backlogged its start time grows by the bytes it has sent over its weight, up to the fraction that the inverse loses |
| Wf2q.Scheduler.HeadLaw | sys/netinet/ipfw/dn_sched_wf2q.c:155-155 | w * (F - S) <= len * 2^28 < w * (F - S) + len * w + 1 for every backlogged flow |
| Wf2q.Scheduler.WeightLaw | sys/netinet/ipfw/dn_sched_wf2q.c:234-252 | of two flows that start together with packets of one length the one that finishes first is the heavier one |
| Wf2q.Scheduler.SumLaw | sys/netinet/ipfw/dn_sched_wf2q.c:239-239 | the inverse by which V advances is that of the sum of the weights |
| Wf2q.Scheduler.IdleCheck | sys/netinet/ipfw/dn_sched_wf2q.c:108-126 | forgets the n oldest idle flows, or as many as there are, and unless forced only those in the past |
| Wf2q.Scheduler.Enqueue | sys/netinet/ipfw/dn_sched_wf2q.c:128-181 | the packet joins its flow's queue; an idle flow gets the start time that ActivateTimes says, and its heap |
| Wf2q.Scheduler.NewQueue | sys/netinet/ipfw/dn_sched_wf2q.c:295-308 | a new flow, activated at once if it holds packets |
| Wf2q.Scheduler.MakeEligible | sys/netinet/ipfw/dn_sched_wf2q.c:222-231 | V is max(V, min S) and the flows with S <= V are scheduled |
| Wf2q.Scheduler.Dequeue | sys/netinet/ipfw/dn_sched_wf2q.c:184-255 | nothing exactly when nothing is backlogged; otherwise the head of a flow with the least F among the eligible ones, in FIFO order per flow |
| QfqTime.RoundDownIs | sys/netinet/ipfw/dn_sched_qfq.c:246-249 | rounding gives the slot boundary at or before a time |
| QfqTime.FlsIs | sys/netinet/ipfw/dn_sched_qfq.c:75-78 | the highest set bit brackets the number between powers of two |
| QfqTime.CalcIndexIsLeast | sys/netinet/ipfw/dn_sched_qfq.c:264-284 | the group is the one with the smallest slots that hold the service of one packet |
| QfqTime.CalcIndexFits | sys/netinet/ipfw/dn_sched_qfq.c:264-284 | for admitted flowsets it is one of the 20 groups |
| QfqTime.SameAbove | sys/netinet/ipfw/dn_sched_qfq.c:407-411 | above their highest differing bit two numbers agree |
| QfqTime.BeyondMask | sys/netinet/ipfw/dn_sched_qfq.c:402-415 | a group beyond the eligibility mask that started after the old V starts after the new one |
| QfqTime.WithinMask | sys/netinet/ipfw/dn_sched_qfq.c:402-415 | for a group within the mask V has reached the next slot |
| QfqWheel.Turned | sys/netinet/ipfw/dn_sched_qfq.c:451-467 | turning past empty slots shifts every slot and loses no class |
| QfqWheel.Rotated | sys/netinet/ipfw/dn_sched_qfq.c:478-485 | turning back shifts every slot and loses no class |
| QfqWheel.InsertedAt | sys/netinet/ipfw/dn_sched_qfq.c:422-431 | only the addressed slot changes, and its bit is set |
| QfqWheel.Group.SlotInsert | sys/netinet/ipfw/dn_sched_qfq.c:422-431 | the class is at the head of the slot of its rounded start time |
| QfqWheel.Group.FrontSlotRemove | sys/netinet/ipfw/dn_sched_qfq.c:436-444 | the front slot loses its head, and its bit if it is empty then |
| QfqWheel.Group.SlotScan | sys/netinet/ipfw/dn_sched_qfq.c:451-467 | the first occupied slot becomes the front, and its head is the result |
| QfqWheel.Group.SlotRotate | sys/netinet/ipfw/dn_sched_qfq.c:478-485 | room for an earlier start time at the front |
| QfqMarks.CalcStateIs | sys/netinet/ipfw/dn_sched_qfq.c:345-360 | the number of the set says exactly whether the group is late, and only a blocked group is put among the blocked |
| QfqMarks.UnblockedIff | sys/netinet/ipfw/dn_sched_qfq.c:375-390 | no set changes if the lowest ready group above the served one finishes no later than the old finish time; otherwise exactly the blocked groups below are released |
| QfqMarks.UnblockedOk | sys/netinet/ipfw/dn_sched_qfq.c:375-390 | afterwards every blocked group has a ready one above it that finishes earlier |
| QfqMarks.MadeEligibleOk | sys/netinet/ipfw/dn_sched_qfq.c:402-415 | every group that stays ineligible starts after V, and every unblocked one that starts by V is ready |
| QfqMarks.UpdateEligibleOk | sys/netinet/ipfw/dn_sched_qfq.c:488-503 | if any group has classes, some group is ready |
| QfqMarks.StartedEligible | sys/netinet/ipfw/dn_sched_qfq.c:402-415 | only groups that have started become eligible |
| QfqMarks.StartedRegrouped | sys/netinet/ipfw/dn_sched_qfq.c:563-584 | after a service every eligible group has started |
| QfqMarks.LeaveOk | sys/netinet/ipfw/dn_sched_qfq.c:566-568 | a group that becomes empty leaves the sets; only lower groups can have lost their blocker |
| QfqMarks.ReplaceOk | sys/netinet/ipfw/dn_sched_qfq.c:573-580 | a group with new timestamps goes to the set they call for |
| QfqMarks.ReleasedAfter | sys/netinet/ipfw/dn_sched_qfq.c:563-584 | over a whole service a blocked group stays blocked exactly if it is above the served one, or that keeps its timestamps, or a ready group holds it back; and no other group becomes blocked than the one served |
| QfqMarks.ArriveOk | sys/netinet/ipfw/dn_sched_qfq.c:669-683 | an arrival in an empty or ineligible group keeps the invariant of the four sets |
| QfqClasses.NextSlot | sys/netinet/ipfw/dn_sched_qfq.c:508-530 | a served class that changes slot lands exactly one slot later, and front classes finish before their group |
| QfqClasses.FrontIsEarliest | sys/netinet/ipfw/dn_sched_qfq.c:446-467 | the class found by the scan has the least rounded start time of its group |
| QfqClasses.OneSlot | sys/netinet/ipfw/dn_sched_qfq.c:422-431 | a class is in one slot of its wheel only |
| QfqClasses.ScanOk | sys/netinet/ipfw/dn_sched_qfq.c:451-467 | turning the wheel and moving the group's start time keep the place of every class in time |
| QfqClasses.RotateOk | sys/netinet/ipfw/dn_sched_qfq.c:478-485 | turning the wheel back for an earlier start time keeps the place of every class in time too |
| Qfq.NothingReady | sys/netinet/ipfw/dn_sched_qfq.c:542-546 | with no ready group no class has a packet |
| Qfq.SomethingReady | sys/netinet/ipfw/dn_sched_qfq.c:548-557 | a ready group has started and has a backlogged class in its front slot, so the "non-workconserving leaf" branch is dead |
| Qfq.ReadyIffBacklogged | sys/netinet/ipfw/dn_sched_qfq.c:542-546 | some group is ready exactly when some class is backlogged |
| Qfq.StartTimeBound | sys/netinet/ipfw/dn_sched_qfq.c:607-631 | a new start time lies after V only if it is at most the last finish time |
| Qfq.EarlierIff | sys/netinet/ipfw/dn_sched_qfq.c:594-631 | exactly when a class starts before its last finish time, which the comment rules out, and where it starts then and otherwise; the test for wrap-around never decides |
| QfqRun.StartsBefore | sys/netinet/ipfw/dn_sched_qfq.c:594-631 | a run from the start in which a class starts before its last finish time |
| QfqRun.OutOfOrder | sys/netinet/ipfw/dn_sched_qfq.c:375-390 | a run after which a ready group finishes later than a ready one above it |
| QfqRun.ArriveIs | sys/netinet/ipfw/dn_sched_qfq.c:633-690 | with one class in each group, the state after an arrival is a function of a few numbers |
| QfqRun.ServeIs | sys/netinet/ipfw/dn_sched_qfq.c:532-592 | and so is the state after a service |
| Qfq.NearServed | sys/netinet/ipfw/dn_sched_qfq.c:508-530 | a class that is served in a group that has started stays near the virtual time |
| Qfq.NearStart | sys/netinet/ipfw/dn_sched_qfq.c:607-631 | so does a class that gets a start time |
| Qfq.NearGroups | sys/netinet/ipfw/dn_sched_qfq.c:451-467 | no group starts later than in the slot after the one of the virtual time |
| Qfq.InverseIs | sys/netinet/ipfw/dn_sched_qfq.c:303-308 | the inverse of a weight in bounds is the greatest whose product with it is at most one, another weight counts as 1, and the weight recovered from the inverse is at least the one asked for |
| Qfq.Scheduler.constructor | sys/netinet/ipfw/dn_sched_qfq.c:227-235 | an empty scheduler meets the invariant |
| Qfq.Scheduler.ServiceLaw | sys/netinet/ipfw/dn_sched_qfq.c:508-530 | the start time of a class has grown by the bytes it has sent times its inverse weight since it became backlogged, and it finishes when its next packet has been sent at that rate |
| Qfq.Scheduler.UnblockGroups | sys/netinet/ipfw/dn_sched_qfq.c:375-390 | blocked groups are released or held back as UnblockedIff says, and those that stay blocked really are |
| Qfq.Scheduler.UpdateEligible | sys/netinet/ipfw/dn_sched_qfq.c:488-503 | the new V and sets, with the full invariant |
| Qfq.Scheduler.StateOf | sys/netinet/ipfw/dn_sched_qfq.c:345-360 | the set says exactly whether the group is ineligible and whether the lowest ready group from it on finishes before it |
| Qfq.Scheduler.UpdateClass | sys/netinet/ipfw/dn_sched_qfq.c:508-530 | the served class has its next timestamps and is in the slot they call for |
| Qfq.Scheduler.Regroup | sys/netinet/ipfw/dn_sched_qfq.c:563-584 | the served group has the timestamps of its front slot and the sets are in order again |
| Qfq.Scheduler.Dequeue | sys/netinet/ipfw/dn_sched_qfq.c:532-592 | nothing exactly when no class is backlogged; otherwise the head packet of the front class of the lowest ready group, which has started, FIFO per class; the new V, sets and timestamps; and which blocked groups are released |
| Qfq.Scheduler.UpdateStart | sys/netinet/ipfw/dn_sched_qfq.c:607-631 | the start time given to a class that was idle |
| Qfq.Scheduler.Enqueue | sys/netinet/ipfw/dn_sched_qfq.c:633-690 | the packet joins its class; an idle class gets its timestamps and its slot, its group the set and timestamps that follow, and V catches up if all was idle |
| Qfq.Scheduler.NewQueue | sys/netinet/ipfw/dn_sched_qfq.c:290-318 | a class in the right group, admitted exactly while the sum of weights stays in bounds |
| Qfq.Scheduler.FreeQueue | sys/netinet/ipfw/dn_sched_qfq.c:321-331 | an idle class goes and the sum of weights with it |
| DrrSpec.PassMeasure | sys/netinet/ipfw/dn_sched_rr.c:178-192 | total deficit and ring size together decrease when a queue is passed over |
| DrrSpec.FifoArrive | sys/netinet/ipfw/dn_sched_rr.c:144-168 | a packet that arrives comes after all that have arrived for its queue: what has arrived is what was sent and then what is queued |
| DrrSpec.FifoDequeue | sys/netinet/ipfw/dn_sched_rr.c:170-200 | a service sends the next packet of its queue in the order of arrival |
| DrrSpec.NewIs | sys/netinet/ipfw/dn_sched_rr.c:247-264 | a new queue has the quantum of its flowset, and is in the ring with a full credit if it holds packets |
| DrrSpec.DequeueServes | sys/netinet/ipfw/dn_sched_rr.c:170-200 | nothing exactly when nothing is queued; otherwise the head of one queue, whose bytes sent grow by its length, and no other queue loses or sends anything |
| DrrSpec.DequeueLead | sys/netinet/ipfw/dn_sched_rr.c:134-142 | pass counts of two queues of the ring alternate |
| DrrSpec.ApplyOk | sys/netinet/ipfw/dn_sched_rr.c:74-200 | every operation keeps credit = quantum * (1 + passes) - sent and 0 <= credit < quantum + Lmax |
| DrrSpec.RunLead | sys/netinet/ipfw/dn_sched_rr.c:134-142 | over a run in which two queues stay in the ring their pass counts differ by at most one |
| DrrSpec.Fairness | sys/netinet/ipfw/dn_sched_rr.c:170-200 | bytes sent by two queues, divided by their quanta, differ by less than 3 + Lmax/q_i + Lmax/q_j over any such run |
| Drr.Instance.Append | sys/netinet/ipfw/dn_sched_rr.c:74-88 | the queue is the last of the ring with a full credit |
| Drr.Instance.RemoveHead | sys/netinet/ipfw/dn_sched_rr.c:90-105 | the ring without its head |
| Drr.Instance.RemoveQueue | sys/netinet/ipfw/dn_sched_rr.c:110-131 | the ring without the queue, wherever it is |
| Drr.Instance.NextPointer | sys/netinet/ipfw/dn_sched_rr.c:134-142 | the ring turned by one |
| Drr.Instance.Enqueue | sys/netinet/ipfw/dn_sched_rr.c:144-168 | the packet is the last of its queue, and the queue in the ring |
| Drr.Instance.Dequeue | sys/netinet/ipfw/dn_sched_rr.c:170-200 | ends, with the state and packet of the specification, each queue in order of arrival; nothing exactly when nothing is queued |
| Drr.Instance.NewQueue | sys/netinet/ipfw/dn_sched_rr.c:247-264 | a queue with its quantum, in the ring if it holds packets |
| Drr.Instance.FreeQueue | sys/netinet/ipfw/dn_sched_rr.c:266-280 | a queue leaves the ring, unless the call is safe and it is in the ring |
| Link.DelayIsCeiling | sys/netinet/ipfw/ip_dn_io.c:509-519 | the wake-up delay is the least number of ticks that makes up for the debt, and at least one |
| Link.DueIs | sys/netinet/ipfw/ip_dn_io.c:413-419 | the loop takes exactly the due packets of a sorted delay line |
| Link.BitsAre | sys/netinet/ipfw/ip_dn_io.c:494-500 | the bits that are charged are 8 hz for each byte |
| Link.TimedPutOff | sys/netinet/ipfw/ip_dn_io.c:496-519 | after a service in debt the new packets leave a link delay after it, but the last one a link delay after the debt is made up for |
| Link.PacedStep | sys/netinet/ipfw/ip_dn_io.c:468-522 | each operation keeps that the bits up to a packet are at most the credit at the wake-up and what the link has carried a link delay before the packet leaves |
| Link.RateBound | sys/netinet/ipfw/ip_dn_io.c:468-522 | between two services without an allowance in between, hz times the bits served is at most, and from a debt less than, bw times the ticks plus hz times one packet; and it is no less than the credit allows |
| Link.Emulator.RateSinceWakeUp | sys/netinet/ipfw/ip_dn_io.c:454-523 | the bounds of RateBound between any two events of an instance since it was made or woken up, over runs of the emulator with any other instances |
| Link.Emulator.RateNow | sys/netinet/ipfw/ip_dn_io.c:901-927 | the bits served since the wake-up are bounded by its allowance, the rate and one packet |
| Link.Emulator.RateReleased | sys/netinet/ipfw/ip_dn_io.c:454-523 | hz times the bits that have left by any time t since the wake-up is at most its credit plus bw times (t - delay - wake-up time), with no packet on top |
| Link.AllowanceIs | sys/netinet/ipfw/ip_dn_io.c:912-925 | the allowance is the lesser one of the burst and what the link would have carried since the instance became idle, and only for the first packet since an earlier tick |
| Link.FirstService | sys/netinet/ipfw/ip_dummynet.c:550-560 | a first service spends the allowance in a later tick, and all that the link carries since time 0 in the tick in which the instance is made |
| Link.LostIff | sys/netinet/ipfw/ip_dn_io.c:486-492 | the result differs from what has been released exactly if packets went to an idle line without delay and the scheduler then asked to be called later |
| Link.LostPacket | sys/netinet/ipfw/ip_dn_io.c:486-492 | an instance on which a packet is lost that way |
| Link.FewerDue | sys/netinet/ipfw/ip_dn_io.c:704-718 | handling an event leaves fewer due events |
| Link.NothingDue | sys/netinet/ipfw/ip_dn_io.c:703-718 | with no due event no packet of any delay line is due |
| Link.WokenReady | sys/netinet/ipfw/ip_dn_io.c:912-927 | an idle instance may be served, with its allowance |
| Link.ServedDebt | sys/netinet/ipfw/ip_dn_io.c:511-519 | an instance in debt is an event again, and its delay line stays sorted although its last packet is put off |
| Link.SchInst.ServeLoop | sys/netinet/ipfw/ip_dn_io.c:477-502 | packets go to the delay line while there is credit, none is lost, and the debt is at most the last one |
| Link.SchInst.ReleaseDue | sys/netinet/ipfw/ip_dn_io.c:413-419 | exactly the due packets leave, in order |
| Link.Emulator.TransmitEvent | sys/netinet/ipfw/ip_dn_io.c:406-424 | the delay line is an event at its head's output time exactly if packets are left |
| Link.Emulator.ServeSched | sys/netinet/ipfw/ip_dn_io.c:454-523 | credit law, debt of at most one packet, no packet lost for a caller with a queue; the output time of every new packet; when the instance is an event again, and else idle from now on; events only in the future; and the result for a caller without a queue |
| Link.Emulator.Task | sys/netinet/ipfw/ip_dn_io.c:703-718 | the event loop ends; afterwards no event and no packet is due, the packets returned are exactly what left the delay lines, all due and each line's in order, no credit was lost or gained, and every packet served has its output time |
| Link.Emulator.Io | sys/netinet/ipfw/ip_dn_io.c:901-945 | a packet for an active instance waits; an idle one gets its allowance and is served, and what is served has its output time; at most this packet leaves at once, so no chain is returned, and it is passed on unless it is lost as LostIff says |
| Link.Emulator.NewInst | sys/netinet/ipfw/ip_dummynet.c:461-560 | a new instance with its first credit, last served at time 0 |
| DynTable.HashSymmetric | sys/netinet/ipfw/ip_fw_dynamic.c:245-263 | both directions of a flow have one bucket |
| DynTable.NoChildren | sys/netinet/ipfw/ip_fw_dynamic.c:297-309 | a parent with count 0 is the parent of no live session |
| DynTable.UnlinkKeeps | sys/netinet/ipfw/ip_fw_dynamic.c:297-309 | unlinking keeps buckets, reference counts and uniqueness and touches only the entry and its parent's count |
| DynTable.LinkKeeps | sys/netinet/ipfw/ip_fw_dynamic.c:619-639 | linking a new entry keeps them too |
| DynRules.SeenIs | sys/netinet/ipfw/ip_fw_dynamic.c:483-486 | a packet adds its SYN, FIN and RST to those its side has sent |
| DynRules.SeqGeIs | sys/netinet/ipfw/ip_fw_dynamic.c:488-489 | sequence numbers of 32 bits are compared the shorter way round |
| DynRules.RefreshIs | sys/netinet/ipfw/ip_fw_dynamic.c:478-537 | the new lifetime by what each side has sent: a SYN of the opener only, both SYNs (unchanged exactly for an acknowledgement out of sequence), both FINs, anything else, UDP and other protocols |
| DynRules.NeverExpires | sys/netinet/ipfw/ip_fw_dynamic.c:478-531 | an established session whose packets are in sequence and less than the acknowledgement lifetime apart has never expired when the next one comes |
| DynRules.MaskedIff | sys/netinet/ipfw/ip_fw_dynamic.c:798-821 | two flows count against one limit exactly if they agree in the protocol and the fields that the limit is on |
| DynRules.ResetIsFinal | sys/netinet/ipfw/ip_fw_dynamic.c:478-531 | after a reset from either side no packet gives a TCP session more than the reset lifetime |
| DynRules.FoundIff | sys/netinet/ipfw/ip_fw_dynamic.c:421-469 | expiry on the way of a lookup removes no session that the lookup could return |
| DynRules.AliveBothWays | sys/netinet/ipfw/ip_fw_dynamic.c:449-463 | the two directions of a flow find the same sessions |
| DynRules.NoOuch | sys/netinet/ipfw/ip_fw_dynamic.c:367-371 | in the second pass of a forced removal every limit parent counts no session |
| DynRules.NoneLeft | sys/netinet/ipfw/ip_fw_dynamic.c:325-388 | a forced removal leaves no entry of the rule |
| DynRules.ThreeIsBad | sys/netinet/ipfw/ip_fw_dynamic.c:571-574 | three buckets are refused, the input for which a first state is reported but not installed |
| DynRules.Table.Unlink | sys/netinet/ipfw/ip_fw_dynamic.c:297-309 | the table without one entry, its parent counting one less |
| DynRules.Table.Lookup | sys/netinet/ipfw/ip_fw_dynamic.c:401-542 | finds a session exactly when an unexpired one matches in either direction, refreshes it alone, as RefreshIs says, and removes only expired entries |
| DynRules.OthersUntouched | sys/netinet/ipfw/ip_fw_dynamic.c:346-388 | a removal for one rule leaves all entries of other rules as they were, counts included |
| DynRules.Table.RemoveRules | sys/netinet/ipfw/ip_fw_dynamic.c:325-388 | removes all entries of a rule when forced, else only expired sessions and parents without sessions, and no others; entries of other rules and all sessions left are untouched |
| DynRules.Table.Realloc | sys/netinet/ipfw/ip_fw_dynamic.c:558-585 | an empty table of the size asked for, or of 1024 chains if that is too many; a bad size is refused and replaced by the old one |
| DynRules.Table.AddRule | sys/netinet/ipfw/ip_fw_dynamic.c:597-667 | the new entry and its parent's count; fails exactly if no table can be had |
| DynRules.Table.FindParent | sys/netinet/ipfw/ip_fw_dynamic.c:681-704 | finds the limit parent of a rule for an identity exactly if there is one |
| DynRules.Table.LookupParent | sys/netinet/ipfw/ip_fw_dynamic.c:673-707 | the parent found, with the short lifetime, or made, with that of a new entry; all sessions untouched |
| DynRules.Table.Install | sys/netinet/ipfw/ip_fw_dynamic.c:715-883 | a refusal leaves no session; success leaves one exactly if one was alive before, or new sessions live and it is not a kept state before a first table that is refused; a new one has the rule, kind and parent under the mask, within its limit, and the lifetime of its first packet, an old one is refreshed; reasons for a refusal; live sessions of other flows are untouched; at most dyn_max + 1 entries |
| DynRules.RefusedFirst | sys/netinet/ipfw/ip_fw_dynamic.c:571-574 | with three buckets a first kept state is reported and not there |
| DynRules.NoLifetime | sys/netinet/ipfw/ip_fw_dynamic.c:630-630 | without a lifetime for new sessions a kept state is reported and not there |
| DynRules.Table.constructor | sys/netinet/ipfw/ip_fw_dynamic.c:1153-1174 | no table yet, and 256 chains asked for |
| RadixTrie.SearchFinds | sys/net/radix.c:158-173 | a search ends at a leaf with the key exactly if the key was entered |
| RadixTrie.NoLeafBeyond | sys/net/radix.c:438-463 | the first bit in which a new key differs from the leaf found is where it branches off from all keys |
| RadixTrie.InsertKeepsShape | sys/net/radix.c:454-487 | a new node keeps the tree: keys below agree up to its bit, both values of the bit occur, bits increase downwards |
| RadixMarks.PromotedAnnotated | sys/net/radix.c:719-740 | a new node takes over exactly the masks that belong at it |
| RadixMarks.DupAnnotated | sys/net/radix.c:642-707 | a further mask of a key joins the chain in order and breaks no annotation |
| RadixMarks.HostExists | sys/net/radix.c:742-749 | every lifted route has a highest ancestor to be noted at |
| RadixMarks.HostUnique | sys/net/radix.c:742-749 | and only one |
| RadixMarks.LiftGood | sys/net/radix.c:742-782 | noting a route there completes the annotation |
| RadixMatch.LongestIsUnique | sys/net/radix.c:267-368 | there is only one longest match |
| RadixMatch.ExactHead | sys/net/radix.c:301-316 | a leaf whose mask covers all bits compared is the longest match |
| RadixMatch.ChainHit | sys/net/radix.c:317-339 | the first route of the chain that covers the key is the longest match |
| RadixMatch.MarkHit | sys/net/radix.c:340-366 | the first covering annotation on the way up is the longest match |
| RadixMatch.NoHit | sys/net/radix.c:340-367 | if none covers the key up to the top, no route does |
| RadixTree.AllOnesMissesDefault | sys/net/radix.c:301-316 | with a default route only, "no route" is the wrong answer for the all-ones key |
| RadixTree.Tree.constructor | sys/net/radix.c:1131-1164 | an empty tree with its two sentinels |
| RadixTree.Tree.Search | sys/net/radix.c:158-173 | the leaf at the end of the bit tests |
| RadixTree.Tree.RnInsert | sys/net/radix.c:421-489 | the tree with the new leaf and node, or the leaf of the key if it is there |
| RadixTree.Tree.Promote | sys/net/radix.c:719-740 | the new node has the annotations that belong at it |
| RadixTree.Tree.Lift | sys/net/radix.c:741-782 | the route is noted at its highest possible ancestor |
| RadixTree.Tree.AddRoute | sys/net/radix.c:610-783 | the table gains exactly the route; fails exactly for a route that is there and for a host route to a sentinel key |
| RadixTree.Tree.Match | sys/net/radix.c:267-368 | the most specific covering route, if and only if the key is not all ones, or was entered, or nothing covers it |
| Cksum.ReduceSame | sys/netinet/in_cksum.c:45-46 | REDUCE of a 32-bit sum has the same one's complement value, unless the machine is big-endian with a 64-bit long; there it gives 0 |
| Cksum.OnesSumIsFold | sys/netinet/in_cksum.c:45-46 | end-around carries may be added at the end, as section 2 of RFC 1071 says |
| Cksum.SumShift | sys/netinet/in_cksum.c:91-98 | shifting a sum by a byte exchanges the places of all its bytes |
| Cksum.ByteOrderIndependence | sys/netinet/in_cksum.c:56-63 | the byte order of the machine changes only the byte order of the result (section 2(B) of RFC 1071) |
| Cksum.ReceiverSeesOnes | sys/netinet/in_cksum.c:137-145 | a message into which its checksum is put, computed with a zero field, has checksum 0 |
| Cksum.Unshift | sys/netinet/in_cksum.c:122-131 | a second shift puts swapped words back in their places |
| Cksum.Unrolled | sys/netinet/in_cksum.c:99-115 | the unrolled loops add exactly the words they pass |
| Cksum.Body | sys/netinet/in_cksum.c:88-133 | one buffer is added whatever its address and length |
| Cksum.Buffer | sys/netinet/in_cksum.c:66-133 | a word that spans two buffers is completed first |
| Cksum.InCksum | sys/netinet/in_cksum.c:48-146 | the complement of the one's complement sum of the first len bytes of the chain, exactly unless longs are big-endian of 64 bits and some byte is not zero; the type of the running sum keeps it within 32 bits |
| Qsort.Med3IsMedian | ipfw/qsort.c:92-102 | med3 gives a median |
| Qsort.InsertionSort | ipfw/qsort.c:168-175 | a sorted permutation of the segment |
| Qsort.Partition | ipfw/qsort.c:140-167 | equal, smaller, greater, equal, around the pivot, and a permutation; if no swap is counted, nothing was moved |
| Qsort.LeftSwapped | ipfw/qsort.c:177-179 | the first block swap puts the smaller elements before the equal ones |
| Qsort.RightSwapped | ipfw/qsort.c:180-181 | the second one puts the greater elements last |
| Qsort.FrontGrows | ipfw/qsort.c:182-193 | the sorted smaller elements and the equal ones extend the sorted front |
| Qsort.Sort | ipfw/qsort.c:104-195 | a sorted permutation for every total preorder; both parts left are shorter |
| HashTable.CycleTurned | sys/netinet/ipfw/dn_heap.c:448-454 | a ring may be entered anywhere |
| HashTable.KeptIff | sys/netinet/ipfw/dn_heap.c:465-480 | an element stays exactly if its call did not flag it |
| HashTable.RestSize | sys/netinet/ipfw/dn_heap.c:465-490 | what is missing after a bucket scan is exactly what was flagged |
| HashTable.ScanRing | sys/netinet/ipfw/dn_heap.c:457-490 | one call per element in order, flagged ones unlinked even at the tail, and an early end leaves the ring turned to the next element |
| HashTable.Table.constructor | sys/netinet/ipfw/dn_heap.c:400-415 | an empty table |
| HashTable.Table.Search | sys/netinet/ipfw/dn_heap.c:508-524 | finds an element with the key exactly if the bucket has one |
| HashTable.Table.Find | sys/netinet/ipfw/dn_heap.c:497-541 | the element with the key; exactly it is removed, or exactly one is made, on request |
| HashTable.Table.ScanBody | sys/netinet/ipfw/dn_heap.c:457-490 | the bucket after a scan, and the number of elements |
| HashTable.Table.ScanBucket | sys/netinet/ipfw/dn_heap.c:575-588 | one bucket, and the number of the bucket to go on with |
| HashTable.Table.Scan | sys/netinet/ipfw/dn_heap.c:549-565 | each element is called back once unless the scan was ended, and exactly the flagged ones are gone |
| Lut.IssuedNotPending | sys/netinet/ipfw/ip_fw_lookup.c:52-57 | an identifier that was given out is never that of a free slot |
| Lut.InsertContent | sys/netinet/ipfw/ip_fw_lookup.c:183-195 | storing an object keeps identifiers and slots in step |
| Lut.DeleteContent | sys/netinet/ipfw/ip_fw_lookup.c:207-213 | raising the identifier of a freed slot keeps them in step |
| Lut.DeleteFree | sys/netinet/ipfw/ip_fw_lookup.c:213-219 | the freed slot is once at the end of the free list |
| Lut.StrayAnswer | sys/netinet/ipfw/ip_fw_lookup.c:224-234 | an identifier that nobody has been given can be answered with a pointer into the table |
| Lut.RoundUp | sys/netinet/ipfw/ip_fw_lookup.c:136-144 | the least power of two that is large enough |
| Lut.Remap | sys/netinet/ipfw/ip_fw_lookup.c:154-169 | all objects keep their slots and identifiers, and all free slots are listed once |
| Lut.Table.constructor | sys/netinet/ipfw/ip_fw_lookup.c:131-180 | an empty table |
| Lut.Table.Grow | sys/netinet/ipfw/ip_fw_lookup.c:123-180 | a larger table with the same objects under the same identifiers |
| Lut.Table.Insert | sys/netinet/ipfw/ip_fw_lookup.c:183-195 | fails exactly if every slot holds an object; else a new identifier, never given out before |
| Lut.Table.Lookup | sys/netinet/ipfw/ip_fw_lookup.c:224-234 | the object of a live identifier; otherwise NULL exactly unless it is the pending one of a free slot with a successor |
| Lut.Table.Delete | sys/netinet/ipfw/ip_fw_lookup.c:197-222 | gives back and forgets exactly the object of the identifier |

## Left out

- Wrap-around of 64-bit timestamps and of the 32-bit uptime: times are unbounded integers, so the comparison macros are the order of the integers.
- Allocation failure, in every module; the addresses of new dynamic rules are parameters.
- Configuration changes during a run (weights, bandwidth, delay, limits of the table), and forced removal of queues from QFQ and WF2Q+.
- Random early drops, packet loss rates and queue limits: whether `dn_enqueue` drops a packet is a parameter of each enqueue operation.
- Delay profiles, statistics and logging; the arithmetic that adjusts the clock to the real time is the parameter of `Task`.
- Link.SchInst.Dequeue: stands for any scheduler that is work-conserving or asks to be called later, by a nondeterministic choice from its backlog.
- Qfq.Scheduler.Enqueue: takes what the code assumes without checking it as a precondition: the slot is below 32, no occupied slot is shifted out of the wheel, packets are at most `lmax` long, and a group whose start time decreases is ineligible.
- QFQ's bound on the lag of V, which needs more than the code keeps by itself, and the disabled `qfq_deactivate_class`.
- Wf2q.Scheduler.Dequeue: assumes that no more than 0x7fffffff flows are idle, as the call of `idle_check` in the code does.
- The flows of WF2Q+, the classes of QFQ and the dynamic rules are values in a map from their addresses, replaced where the C code updates a field; the chains of dynamic rules are sequences of addresses instead of `next` pointers.
- Leaves of the radix tree with one key are one object with a sequence of masks instead of a list through `rn_dupedkey`, and annotation lists are sequences; `rn_addmask` is the interning of prefix lengths.
- `rn_delete`, non-contiguous masks, multipath and tree walks.
- Heaps without back-pointers and `heap_move`; `dn_ht_init`'s rounding of the number of buckets, reuse of a table, and lookup by pointer.
- DynRules.Table.SetBuckets: refuses 0, for which the code would allocate a table without buckets.
- IPv6 flows, keepalive packets and the locks of the dynamic rules.
- The order in which two passes of a forced removal meet other operations: each operation runs alone, as under the lock.
- Cksum.InCksum: for at most 65535 bytes, the longest IP packet; beyond that the 32-bit sum may wrap. The `int` sum is read as 32 bits without a sign.
- Lut.Table.Delete: not for the identifier that a free slot will give out next; the code would put the slot into the free list a second time.
- Element sizes of the quicksort: one array element stands for `es` bytes, so `swaptype` is not part of the model.
- The FIFO and priority schedulers, sockopt and sysctl handling, the rule interpreter and all platform glue.
