/** What every run of the ownership handoff keeps, and what follows from it. */
module DlopenInvariants {
  import opened Common
  import opened DlopenQueue
  import opened DlopenOwnership

  // ---------------------------------------------------------------------------------------------
  // The invariant
  // ---------------------------------------------------------------------------------------------

  /** What a request's flags may say in each of its states. */
  predicate RequestOk(r: Request) {
    && r.state != Empty
    && (r.state == Borrowed ==> !r.transferred && !r.owned && r.handle == Some(r.source))
    && (r.state == Pinning ==> r.owned == r.transferred && r.handle == Some(r.source))
    && (r.state == Ready ==> r.owned && r.handle.Some?)
    && (r.state == PinFailed ==> !r.owned && r.handle.None?)
    && (r.retained ==> r.state == Ready)
    && (r.handle.Some? ==> r.handle.value.module_ == r.source.module_)
  }

  predicate IsBorrow(r: Request) { Borrows(r, r.source) }

  predicate Requests(q: seq<Request>) { forall i :: 0 <= i < |q| ==> RequestOk(q[i]) }

  /** No handle is borrowed by two requests at once. */
  predicate OneBorrow(q: seq<Request>) {
    forall i, j :: 0 <= i < j < |q| && IsBorrow(q[i]) && IsBorrow(q[j]) ==> q[i].source != q[j].source
  }

  predicate Below(t: seq<nat>, n: nat) { forall i :: 0 <= i < |t| ==> t[i] < n }

  function HandTickets(d: Drain): seq<nat> {
    if d.NoDrain? || d.hand.NoHand? then [] else [d.hand.r.ticket]
  }

  /** The queue, with the tickets a drain holds in its hand. */
  predicate QueueOk(q: seq<Request>, hand: seq<nat>, nextTicket: nat, pending: nat) {
    && Requests(q)
    && OneBorrow(q)
    && Distinct(hand + Tickets(q))
    && Below(hand + Tickets(q), nextTicket)
    && pending == PendingCount(q)
  }

  predicate QueueInv(s: State) {
    QueueOk(s.gate.queue, HandTickets(s.drain), s.gate.nextTicket, s.gate.pending)
  }

  predicate BrokerBusy(b: Broker) { b.Taken? || b.Opened? || b.Result? || b.Redundant? }

  /** The broker's request stays queued and PINNING, and is the only such request. */
  predicate BrokerOk(q: seq<Request>, b: Broker) {
    && !b.Leftover?
    && (BrokerBusy(b) ==>
      exists i :: 0 <= i < |q| && q[i].ticket == b.ticket && q[i].state == Pinning && q[i].source == b.handle
        && (b.Redundant? ==> q[i].transferred))
    && (forall i :: 0 <= i < |q| && q[i].state == Pinning ==> BrokerBusy(b) && q[i].ticket == b.ticket)
    && (b.Result? && b.result.Some? ==> TokenOf(b.result.value) == TokenOf(b.handle))
  }

  /** References on `h` that only the application or an undecided close can drop. */
  function LiveRefs(s: State, h: Handle): nat {
    s.app[h] + s.holding[h] + s.published[h] + s.entered[h] + s.ownerSeen[h] + s.slow[h]
  }

  /** A request that borrows a handle can count on a live application reference to it. */
  predicate BorrowsLive(s: State) {
    forall i :: 0 <= i < |s.gate.queue| && IsBorrow(s.gate.queue[i]) ==> LiveRefs(s, s.gate.queue[i].source) > 0
  }

  /** References on `k` in the drain's hand or on its list of closes. */
  function HandCount(d: Drain, k: Handle): nat {
    if d.NoDrain? then 0
    else if d.hand.NoHand? then d.closing[k]
    else d.closing[k] + OwnedRef(d.hand.r)[k]
  }

  /** The broker's temporary pin, counted on `k`. */
  function PinCount(b: Broker, k: Handle): nat {
    if (b.Opened? || b.Redundant? || b.Leftover?) && b.pin == k then 1
    else if b.Result? && b.result == Some(k) then 1
    else 0
  }

  function DiscardCount(d: Shutdown, k: Handle): nat {
    if d.Discarding? then OwnedRef(d.r)[k] else 0
  }

  /** References on `h` the application side still holds, closes in progress included. */
  function AppRefs(s: State, h: Handle): nat { LiveRefs(s, h) + s.direct[h] }

  /** References on `h` PEAK holds: owned requests, pending closes, retained handles, the broker's pin. */
  function PeakRefs(s: State, h: Handle): nat {
    OwnedCount(s.gate.queue, h) + HandCount(s.drain, h) + s.toClose[h] + DiscardCount(s.shutdown, h)
      + s.retained[h] + PinCount(s.broker, h)
  }

  ghost predicate Conserved(s: State) {
    forall h: Handle :: s.refs[h] == AppRefs(s, h) + PeakRefs(s, h)
  }

  predicate RetainedRequest(r: Request, retained: multiset<Handle>) {
    r.retained ==> r.handle.Some? && r.handle.value in retained
  }

  /** A request marked retained has its handle among the retained ones. */
  predicate RetainedOk(q: seq<Request>, d: Drain, retained: multiset<Handle>) {
    && (forall i :: 0 <= i < |q| ==> RetainedRequest(q[i], retained))
    && (d.Draining? && !d.hand.NoHand? ==> RetainedRequest(d.hand.r, retained))
  }

  function HandSize(d: Drain): nat { if d.NoDrain? || d.hand.NoHand? then 0 else 1 }

  function Uncounted(d: Drain): nat {
    if d.Draining? && (d.hand.Popped? || d.hand.Attached?) then 1 else 0
  }

  /** A drain excludes callbacks, and works through the tickets it began with. */
  predicate DrainOk(g: Gate, callbacks: nat, d: Drain, discarded: nat) {
    && g.callbacks == callbacks
    && g.drainActive == d.Draining?
    && (g.drainActive ==> g.callbacks == 0)
    && |g.queue| + HandSize(d) <= QUEUE_CAPACITY
    && g.enqueued + g.requeued == g.drained + discarded + Uncounted(d) + |g.queue|
    && (d.Draining? ==> PassOk(Tickets(g.queue), d))
  }

  predicate PassOk(tickets: seq<nat>, d: Drain)
    requires d.Draining?
  {
    && d.limit == DrainLimit(DRAIN_BUDGET, |d.initial|)
    && d.taken == d.done + HandSize(d) <= d.limit
    && Distinct(d.initial)
    && tickets == d.initial[d.taken..] + d.again
    && |d.again| <= d.done
    && (!d.hand.NoHand? ==> HandOk(d.hand.r) && d.hand.r.ticket == d.initial[d.taken - 1])
  }

  predicate DrainInv(s: State) {
    DrainOk(s.gate, s.admitted + |s.holding| + |s.published|, s.drain, s.discarded)
  }

  predicate HandOk(r: Request) { RequestOk(r) && Drainable(r) }

  predicate Stopping(d: Shutdown) { d.StopRequested? || d.Joined? || d.Discarding? || d.Done? }

  predicate AfterWaits(d: Shutdown) { d.Quiet? || d.OwnerCleared? || Stopping(d) }

  /** What the shutdown sequence has established by each of its points. */
  predicate ShutdownOk(g: Gate, ownerSet: bool, routed: bool, d: Drain, b: Broker, shut: Shutdown) {
    && (g.phase == Open ==> ownerSet && routed && g.brokerRunning)
    && (g.pending > 0 ==> ownerSet && routed)
    && (g.phase == Closed ==> g.queue == [] && d.NoDrain? && g.callbacks == 0)
    && (shut != Running ==> g.phase == ShuttingDown)
    && (shut.WaitCallbacks? || shut.WaitPending? || AfterWaits(shut) ==> d.NoDrain?)
    && (shut.WaitPending? || AfterWaits(shut) ==> g.callbacks == 0)
    && (AfterWaits(shut) ==> g.pending == 0)
    && (Stopping(shut) ==> !g.brokerRunning)
    && (shut.Joined? || shut.Discarding? || shut.Done? ==> b == Stopped)
    && (b == Stopped ==> !g.brokerRunning)
    && (shut.Done? ==> g.queue == [])
  }

  predicate ShutdownInv(s: State) {
    ShutdownOk(s.gate, s.ownerSet, s.routed, s.drain, s.broker, s.shutdown)
  }

  ghost predicate Inv(s: State) {
    && QueueInv(s) && BrokerOk(s.gate.queue, s.broker) && BorrowsLive(s)
    && Conserved(s) && DrainInv(s) && ShutdownInv(s)
    && RetainedOk(s.gate.queue, s.drain, s.retained)
  }

  // ---------------------------------------------------------------------------------------------
  // The three ways a queue changes
  // ---------------------------------------------------------------------------------------------

  lemma UpdateKeepsShape(q: seq<Request>, i: nat, r: Request)
    requires i < |q| && Requests(q) && OneBorrow(q)
    requires RequestOk(r) && r.ticket == q[i].ticket && r.source == q[i].source
    requires IsBorrow(r) ==> IsBorrow(q[i])
    ensures Requests(q[i := r]) && OneBorrow(q[i := r])
    ensures Tickets(q[i := r]) == Tickets(q)
  {
  }

  lemma UpdateKeepsQueue(q: seq<Request>, hand: seq<nat>, next: nat, pending: nat, i: nat, r: Request, pending': nat)
    requires QueueOk(q, hand, next, pending) && i < |q|
    requires RequestOk(r) && r.ticket == q[i].ticket && r.source == q[i].source
    requires IsBorrow(r) ==> IsBorrow(q[i])
    requires pending' + PendingOne(q[i]) == pending + PendingOne(r)
    ensures QueueOk(q[i := r], hand, next, pending')
    ensures Tickets(q[i := r]) == Tickets(q)
  {
    UpdateKeepsShape(q, i, r);
    PendingCountUpdate(q, i, r);
  }

  lemma UpdateKeepsBroker(q: seq<Request>, i: nat, r: Request, b: Broker)
    requires BrokerOk(q, b) && i < |q|
    requires r.ticket == q[i].ticket && r.source == q[i].source
    requires r.state == Pinning <==> q[i].state == Pinning
    requires q[i].transferred ==> r.transferred
    ensures BrokerOk(q[i := r], b)
  {
    if BrokerBusy(b) {
      var k :| 0 <= k < |q| && q[k].ticket == b.ticket && q[k].state == Pinning && q[k].source == b.handle
        && (b.Redundant? ==> q[k].transferred);
      assert q[i := r][k].ticket == b.ticket;
    }
  }

  lemma {:induction false} NoPendingNoBorrow(q: seq<Request>, i: nat)
    requires PendingCount(q) == 0 && i < |q|
    ensures !IsPending(q[i]) && !IsBorrow(q[i])
  {
    PendingCountZero(q);
  }

  lemma AppendKeepsQueue(q: seq<Request>, hand: seq<nat>, next: nat, pending: nat, r: Request, next': nat)
    requires QueueOk(q, hand, next, pending)
    requires RequestOk(r) && next <= next'
    requires IsBorrow(r) ==> forall i :: 0 <= i < |q| && IsBorrow(q[i]) ==> q[i].source != r.source
    requires r.ticket < next' && r.ticket !in hand + Tickets(q)
    ensures QueueOk(q + [r], hand, next', pending + PendingOne(r))
    ensures Tickets(q + [r]) == Tickets(q) + [r.ticket]
  {
    PendingCountAppend(q, r);
    assert Tickets(q + [r]) == Tickets(q) + [r.ticket];
    assert hand + Tickets(q + [r]) == (hand + Tickets(q)) + [r.ticket];
  }

  lemma TailKeepsQueue(q: seq<Request>, hand: seq<nat>, next: nat, pending: nat)
    requires QueueOk(q, hand, next, pending) && q != [] && Drainable(q[0])
    ensures QueueOk(q[1..], hand + [q[0].ticket], next, pending)
    ensures QueueOk(q[1..], hand, next, pending)
    ensures Tickets(q[1..]) == Tickets(q)[1..]
  {
    var t := Tickets(q);
    assert Tickets(q[1..]) == t[1..];
    assert hand + t == (hand + [q[0].ticket]) + t[1..];
    assert forall i :: 0 <= i < |hand + t[1..]| ==>
      (hand + t[1..])[i] == (hand + t)[if i < |hand| then i else i + 1];
  }

  // ---------------------------------------------------------------------------------------------
  // The queue keeps its shape
  // ---------------------------------------------------------------------------------------------

  lemma EnqueueKeepsQueue(g: Gate, h: Handle)
    requires QueueOk(g.queue, [], g.nextTicket, g.pending)
    ensures QueueOk(Enqueue(g, h).queue, [], Enqueue(g, h).nextTicket, Enqueue(g, h).pending)
  {
    if Admits(g, h) {
      assert forall i :: 0 <= i < |g.queue| ==> !CoversHandle(h)(g.queue[i]);
      AppendKeepsQueue(g.queue, [], g.nextTicket, g.pending, NewRequest(h, g.nextTicket), g.nextTicket + 1);
    }
  }

  /** Absorbing a close turns the borrowing request into an owning one. */
  lemma AbsorbKeepsQueue(g: Gate, hand: seq<nat>, i: nat, h: Handle)
    requires QueueOk(g.queue, hand, g.nextTicket, g.pending) && i < |g.queue| && Borrows(g.queue[i], h)
    ensures QueueOk(Absorb(g, i, h).queue, hand, g.nextTicket, Absorb(g, i, h).pending)
    ensures Tickets(Absorb(g, i, h).queue) == Tickets(g.queue)
  {
    PendingCountMember(g.queue, i);
    UpdateKeepsQueue(g.queue, hand, g.nextTicket, g.pending, i, Transferred(g.queue[i], h), Absorb(g, i, h).pending);
  }

  lemma StartPinKeepsQueue(g: Gate, hand: seq<nat>, i: nat)
    requires QueueOk(g.queue, hand, g.nextTicket, g.pending) && i < |g.queue| && g.queue[i].state == Borrowed
    ensures QueueOk(StartPin(g, i).queue, hand, g.nextTicket, g.pending)
    ensures Tickets(StartPin(g, i).queue) == Tickets(g.queue)
  {
    UpdateKeepsQueue(g.queue, hand, g.nextTicket, g.pending, i, g.queue[i].(state := Pinning), g.pending);
  }

  lemma CommitKeepsQueue(g: Gate, hand: seq<nat>, i: nat, pin: Option<Handle>)
    requires QueueOk(g.queue, hand, g.nextTicket, g.pending) && i < |g.queue| && g.queue[i].state == Pinning
    requires pin.Some? ==> pin.value.module_ == g.queue[i].source.module_
    ensures QueueOk(Commit(g, i, pin).queue, hand, g.nextTicket, Commit(g, i, pin).pending)
    ensures Tickets(Commit(g, i, pin).queue) == Tickets(g.queue)
  {
    PendingCountMember(g.queue, i);
    UpdateKeepsQueue(g.queue, hand, g.nextTicket, g.pending, i, Settled(g.queue[i], pin), Commit(g, i, pin).pending);
  }

  // ---------------------------------------------------------------------------------------------
  // Callbacks
  // ---------------------------------------------------------------------------------------------

  lemma {:induction false} EnqueueOwns(g: Gate, h: Handle, k: Handle)
    ensures OwnedCount(Enqueue(g, h).queue, k) == OwnedCount(g.queue, k)
  {
    OwnedCountAppend(g.queue, NewRequest(h, g.nextTicket), k);
  }

  lemma EnqueueEffect(g: Gate, h: Handle)
    ensures forall i :: 0 <= i < |g.queue| ==> Enqueue(g, h).queue[i] == g.queue[i]
    ensures forall i :: |g.queue| <= i < |Enqueue(g, h).queue| ==> Enqueue(g, h).queue[i] == NewRequest(h, g.nextTicket)
  {
  }

  lemma KeepsAppOpen(s: State, h: Handle)
    requires Inv(s)
    ensures Inv(AppOpen(s, h))
  {
  }

  lemma KeepsCallbackBegin(s: State)
    requires Inv(s) && CanBeginCallback(s)
    ensures Inv(CallbackBegin(s))
  {
  }

  lemma KeepsCallbackFailed(s: State)
    requires Inv(s) && s.admitted > 0
    ensures Inv(CallbackFailed(s))
  {
  }

  lemma KeepsCallbackOpen(s: State, h: Handle)
    requires Inv(s) && s.admitted > 0
    ensures Inv(CallbackOpen(s, h))
  {
  }

  lemma KeepsCallbackEnd(s: State, h: Handle)
    requires Inv(s) && h in s.published
    ensures Inv(CallbackEnd(s, h))
  {
  }

  lemma PublishConserves(s: State, h: Handle, unresolved: bool)
    requires Conserved(s) && h in s.holding
    ensures Conserved(CallbackPublish(s, h, unresolved))
  {
    forall k { EnqueueOwns(s.gate, h, k); }
  }

  lemma PublishBorrowsLive(s: State, h: Handle, unresolved: bool)
    requires BorrowsLive(s) && h in s.holding
    ensures BorrowsLive(CallbackPublish(s, h, unresolved))
  {
    var s' := CallbackPublish(s, h, unresolved);
    EnqueueEffect(s.gate, h);
    assert forall k :: LiveRefs(s', k) == LiveRefs(s, k);
    assert LiveRefs(s', h) > 0;
  }

  lemma PublishBroker(g: Gate, h: Handle, b: Broker)
    requires BrokerOk(g.queue, b)
    ensures BrokerOk(Enqueue(g, h).queue, b)
  {
    EnqueueEffect(g, h);
  }

  lemma KeepsCallbackPublish(s: State, h: Handle, unresolved: bool)
    requires Inv(s) && h in s.holding
    ensures Inv(CallbackPublish(s, h, unresolved))
  {
    assert s.gate.callbacks > 0;
    EnqueueKeepsQueue(s.gate, h);
    PublishBroker(s.gate, h, s.broker);
    PublishConserves(s, h, unresolved);
    PublishBorrowsLive(s, h, unresolved);
  }

  lemma CallbackKeeps(s: State, s': State)
    requires Inv(s) && CallbackStep(s, s')
    ensures Inv(s')
  {
    if h :| s' == AppOpen(s, h) { KeepsAppOpen(s, h); }
    else if CanBeginCallback(s) && s' == CallbackBegin(s) { KeepsCallbackBegin(s); }
    else if s.admitted > 0 && s' == CallbackFailed(s) { KeepsCallbackFailed(s); }
    else if h :| s.admitted > 0 && s' == CallbackOpen(s, h) { KeepsCallbackOpen(s, h); }
    else if h, unresolved :| h in s.holding && s' == CallbackPublish(s, h, unresolved) {
      KeepsCallbackPublish(s, h, unresolved);
    } else {
      var h :| h in s.published && s' == CallbackEnd(s, h);
      KeepsCallbackEnd(s, h);
    }
  }

  // ---------------------------------------------------------------------------------------------
  // Closes
  // ---------------------------------------------------------------------------------------------

  /** Absorbing makes the request own one more reference to the handle. */
  lemma {:induction false} AbsorbEffect(g: Gate, i: nat, h: Handle, k: Handle)
    requires Requests(g.queue) && i < |g.queue| && Borrows(g.queue[i], h)
    ensures OwnedCount(Absorb(g, i, h).queue, k) == OwnedCount(g.queue, k) + multiset{h}[k]
  {
    OwnedCountUpdate(g.queue, i, Transferred(g.queue[i], h), k);
  }

  lemma {:induction false} AbsorberBorrows(q: seq<Request>, h: Handle)
    ensures var i := FirstWhere(q, BorrowsHandle(h));
      && (i < |q| ==> Borrows(q[i], h))
      && (i == |q| ==> forall j :: 0 <= j < |q| ==> !Borrows(q[j], h))
  {
    var i := FirstWhere(q, BorrowsHandle(h));
    assert i < |q| ==> BorrowsHandle(h)(q[i]);
    assert forall j :: 0 <= j < i ==> !BorrowsHandle(h)(q[j]);
  }

  lemma UndecidedMoveLive(s: State, s': State, h: Handle)
    requires BorrowsLive(s) && s'.gate.queue == s.gate.queue
    requires forall k :: k != h ==> LiveRefs(s', k) == LiveRefs(s, k)
    requires LiveRefs(s', h) >= LiveRefs(s, h) || forall i :: 0 <= i < |s.gate.queue| ==> !Borrows(s.gate.queue[i], h)
    ensures BorrowsLive(s')
  {
  }

  lemma NoBorrowUnlessPending(s: State)
    requires QueueInv(s)
    ensures s.gate.pending == 0 ==> forall i :: 0 <= i < |s.gate.queue| ==> !IsBorrow(s.gate.queue[i])
  {
    PendingCountZero(s.gate.queue);
  }

  /** What the loader and PEAK hold is untouched, and so is the sum over the application side. */
  lemma MoveConserves(s: State, s': State)
    requires Conserved(s) && s'.refs == s.refs
    requires forall k :: AppRefs(s', k) == AppRefs(s, k)
    requires s'.gate.queue == s.gate.queue && s'.drain == s.drain && s'.toClose == s.toClose
    requires s'.shutdown == s.shutdown && s'.retained == s.retained && s'.broker == s.broker
    ensures Conserved(s')
  {
  }

  lemma MoveOne(from: multiset<Handle>, to: multiset<Handle>, h: Handle, k: Handle)
    requires h in from
    ensures (from - multiset{h})[k] + (to + multiset{h})[k] == from[k] + to[k]
    ensures k != h ==> (from - multiset{h})[k] == from[k] && (to + multiset{h})[k] == to[k]
  {
  }

  lemma CloseEnterMoves(s: State, h: Handle, k: Handle)
    requires h in s.app
    ensures AppRefs(CloseEnter(s, h), k) == AppRefs(s, k)
    ensures k != h ==> LiveRefs(CloseEnter(s, h), k) == LiveRefs(s, k)
  {
    MoveOne(s.app, s.entered, h, k);
    MoveOne(s.app, s.direct, h, k);
  }

  lemma CloseReadOwnerMoves(s: State, h: Handle, k: Handle)
    requires h in s.entered
    ensures AppRefs(CloseReadOwner(s, h), k) == AppRefs(s, k)
    ensures k != h ==> LiveRefs(CloseReadOwner(s, h), k) == LiveRefs(s, k)
  {
    MoveOne(s.entered, s.ownerSeen, h, k);
    MoveOne(s.entered, s.direct, h, k);
  }

  lemma CloseReadPendingMoves(s: State, h: Handle, k: Handle)
    requires h in s.ownerSeen
    ensures AppRefs(CloseReadPending(s, h), k) == AppRefs(s, k)
    ensures k != h ==> LiveRefs(CloseReadPending(s, h), k) == LiveRefs(s, k)
  {
    MoveOne(s.ownerSeen, s.slow, h, k);
    MoveOne(s.ownerSeen, s.direct, h, k);
  }

  lemma KeepsCloseEnter(s: State, h: Handle)
    requires Inv(s) && h in s.app
    ensures Inv(CloseEnter(s, h))
  {
    NoBorrowUnlessPending(s);
    forall k { CloseEnterMoves(s, h, k); }
    MoveConserves(s, CloseEnter(s, h));
    UndecidedMoveLive(s, CloseEnter(s, h), h);
  }

  lemma KeepsCloseReadOwner(s: State, h: Handle)
    requires Inv(s) && h in s.entered
    ensures Inv(CloseReadOwner(s, h))
  {
    NoBorrowUnlessPending(s);
    forall k { CloseReadOwnerMoves(s, h, k); }
    MoveConserves(s, CloseReadOwner(s, h));
    UndecidedMoveLive(s, CloseReadOwner(s, h), h);
  }

  lemma KeepsCloseReadPending(s: State, h: Handle)
    requires Inv(s) && h in s.ownerSeen
    ensures Inv(CloseReadPending(s, h))
  {
    NoBorrowUnlessPending(s);
    forall k { CloseReadPendingMoves(s, h, k); }
    MoveConserves(s, CloseReadPending(s, h));
    UndecidedMoveLive(s, CloseReadPending(s, h), h);
  }

  lemma KeepsCloseReal(s: State, h: Handle)
    requires Inv(s) && h in s.direct
    ensures Inv(CloseReal(s, h))
  {
  }

  lemma CloseLockedLive(s: State, h: Handle)
    requires QueueInv(s) && BorrowsLive(s) && h in s.slow
    ensures BorrowsLive(CloseLocked(s, h))
  {
    var q, s' := s.gate.queue, CloseLocked(s, h);
    var i := FirstWhere(q, BorrowsHandle(h));
    AbsorberBorrows(q, h);
    if i < |q| {
      assert forall j :: 0 <= j < |q| && j != i && IsBorrow(q[j]) ==> q[j].source != h;
      assert forall k :: k != h ==> LiveRefs(s', k) == LiveRefs(s, k);
    } else {
      UndecidedMoveLive(s, s', h);
    }
  }

  /** An absorbed close moves one reference to PEAK and changes no total. */
  lemma AbsorbConserves(s: State, s': State, h: Handle)
    requires Conserved(s) && h in s.slow
    requires s'.refs == s.refs && s'.slow == s.slow - multiset{h}
    requires forall k :: OwnedCount(s'.gate.queue, k) == OwnedCount(s.gate.queue, k) + multiset{h}[k]
    requires s' == s.(gate := s'.gate, slow := s'.slow)
    ensures Conserved(s')
  {
    forall k ensures s'.refs[k] == AppRefs(s', k) + PeakRefs(s', k) {
      DropOne(s.slow, h, k);
      assert s.refs[k] == AppRefs(s, k) + PeakRefs(s, k);
    }
  }

  lemma CloseLockedConserves(s: State, h: Handle)
    requires QueueInv(s) && Conserved(s) && h in s.slow
    ensures Conserved(CloseLocked(s, h))
  {
    var i, s' := FirstWhere(s.gate.queue, BorrowsHandle(h)), CloseLocked(s, h);
    AbsorberBorrows(s.gate.queue, h);
    if i < |s.gate.queue| {
      forall k { AbsorbEffect(s.gate, i, h, k); }
      AbsorbConserves(s, s', h);
    } else {
      forall k { MoveOne(s.slow, s.direct, h, k); }
      MoveConserves(s, s');
    }
  }

  lemma KeepsCloseLocked(s: State, h: Handle)
    requires Inv(s) && h in s.slow
    ensures Inv(CloseLocked(s, h))
  {
    var i := FirstWhere(s.gate.queue, BorrowsHandle(h));
    AbsorberBorrows(s.gate.queue, h);
    CloseLockedLive(s, h);
    CloseLockedConserves(s, h);
    if i < |s.gate.queue| {
      PendingCountMember(s.gate.queue, i);
      AbsorbKeepsQueue(s.gate, HandTickets(s.drain), i, h);
      UpdateKeepsBroker(s.gate.queue, i, Transferred(s.gate.queue[i], h), s.broker);
    }
  }

  lemma CloseKeeps(s: State, s': State)
    requires Inv(s) && CloseStep(s, s')
    ensures Inv(s')
  {
    if h :| h in s.app && s' == CloseEnter(s, h) { KeepsCloseEnter(s, h); }
    else if h :| h in s.entered && s' == CloseReadOwner(s, h) { KeepsCloseReadOwner(s, h); }
    else if h :| h in s.ownerSeen && s' == CloseReadPending(s, h) { KeepsCloseReadPending(s, h); }
    else if h :| h in s.slow && s' == CloseLocked(s, h) { KeepsCloseLocked(s, h); }
    else {
      var h :| h in s.direct && s' == CloseReal(s, h);
      KeepsCloseReal(s, h);
    }
  }

  // ---------------------------------------------------------------------------------------------
  // The ownership thread
  // ---------------------------------------------------------------------------------------------

  lemma UpdateKeepsLive(s: State, s': State, i: nat, r: Request)
    requires BorrowsLive(s) && i < |s.gate.queue| && s'.gate.queue == s.gate.queue[i := r]
    requires forall k :: LiveRefs(s', k) == LiveRefs(s, k)
    requires r.source == s.gate.queue[i].source && (IsBorrow(r) ==> IsBorrow(s.gate.queue[i]))
    ensures BorrowsLive(s')
  {
  }

  lemma TakeKeepsBroker(q: seq<Request>, hand: seq<nat>, next: nat, pending: nat, i: nat)
    requires QueueOk(q, hand, next, pending) && BrokerOk(q, Idle) && i < |q| && q[i].state == Borrowed
    ensures BrokerOk(q[i := q[i].(state := Pinning)], Taken(q[i].ticket, q[i].source))
  {
    var q' := q[i := q[i].(state := Pinning)];
    assert q'[i].ticket == q[i].ticket;
  }

  lemma DropOne(all: multiset<Handle>, h: Handle, k: Handle)
    requires h in all
    ensures (all - multiset{h})[k] + multiset{h}[k] == all[k]
  {
  }

  /** Steps that change the queue or the broker but not what PEAK owns. */
  lemma SameOwnedConserves(s: State, s': State)
    requires Conserved(s) && s' == s.(gate := s'.gate, broker := s'.broker)
    requires forall k :: OwnedCount(s'.gate.queue, k) == OwnedCount(s.gate.queue, k)
    requires forall k :: PinCount(s'.broker, k) == PinCount(s.broker, k)
    ensures Conserved(s')
  {
    forall k ensures s'.refs[k] == AppRefs(s', k) + PeakRefs(s', k) {
      assert AppRefs(s', k) == AppRefs(s, k) && PeakRefs(s', k) == PeakRefs(s, k);
    }
  }

  /** Closing the broker's pin drops exactly the reference it took. */
  lemma UnpinConserves(s: State, s': State, pin: Handle)
    requires Conserved(s) && forall k :: PinCount(s.broker, k) == PinCount(s'.broker, k) + multiset{pin}[k]
    requires s' == s.(refs := s.refs - multiset{pin}, broker := s'.broker)
    ensures Conserved(s')
  {
    assert s.refs[pin] == AppRefs(s, pin) + PeakRefs(s, pin);
    forall k ensures s'.refs[k] == AppRefs(s', k) + PeakRefs(s', k) {
      DropOne(s.refs, pin, k);
      assert s.refs[k] == AppRefs(s, k) + PeakRefs(s, k);
    }
  }

  lemma TakeConserves(s: State)
    requires Conserved(s) && Requests(s.gate.queue) && CanTake(s)
    ensures Conserved(BrokerTake(s))
  {
    var i, s' := FirstWhere(s.gate.queue, IsBorrowed), BrokerTake(s);
    var r := s.gate.queue[i];
    forall k { OwnedCountUpdate(s.gate.queue, i, r.(state := Pinning), k); }
    SameOwnedConserves(s, s');
  }

  lemma KeepsBrokerTake(s: State)
    requires Inv(s) && CanTake(s)
    ensures Inv(BrokerTake(s))
  {
    var i, s' := FirstWhere(s.gate.queue, IsBorrowed), BrokerTake(s);
    var r := s.gate.queue[i];
    assert IsBorrowed(r);
    assert RequestOk(r);
    StartPinKeepsQueue(s.gate, HandTickets(s.drain), i);
    TakeKeepsBroker(s.gate.queue, HandTickets(s.drain), s.gate.nextTicket, s.gate.pending, i);
    UpdateKeepsLive(s, s', i, r.(state := Pinning));
    TakeConserves(s);
  }

  lemma KeepsBrokerPinFailed(s: State)
    requires Inv(s) && s.broker.Taken?
    ensures Inv(BrokerPinFailed(s))
  {
  }

  lemma PinConserves(s: State, p: Handle)
    requires Conserved(s) && s.broker.Taken?
    ensures Conserved(BrokerPinOpened(s, p))
  {
    var s' := BrokerPinOpened(s, p);
    forall k ensures s'.refs[k] == AppRefs(s', k) + PeakRefs(s', k) {
      assert s.refs[k] == AppRefs(s, k) + PeakRefs(s, k);
      assert PinCount(s'.broker, k) == multiset{p}[k];
    }
  }

  lemma KeepsBrokerPinOpened(s: State, p: Handle)
    requires Inv(s) && s.broker.Taken?
    ensures Inv(BrokerPinOpened(s, p))
  {
    PinConserves(s, p);
    assert BrokerOk(s.gate.queue, Opened(s.broker.ticket, s.broker.handle, p));
  }

  lemma KeepsBrokerAcceptPin(s: State)
    requires Inv(s) && s.broker.Opened? && PinNamesSource(s.broker)
    ensures Inv(BrokerAcceptPin(s))
  {
    SameOwnedConserves(s, BrokerAcceptPin(s));
  }

  lemma KeepsBrokerRejectPin(s: State)
    requires Inv(s) && s.broker.Opened?
    ensures Inv(BrokerRejectPin(s))
  {
    UnpinConserves(s, BrokerRejectPin(s), s.broker.pin);
  }

  lemma KeepsBrokerCloseRedundant(s: State)
    requires Inv(s) && s.broker.Redundant?
    ensures Inv(BrokerCloseRedundant(s))
  {
    UnpinConserves(s, BrokerCloseRedundant(s), s.broker.pin);
  }

  /** The broker always finds its request where it left it. */
  lemma {:induction false} BrokerFinds(q: seq<Request>, hand: seq<nat>, next: nat, pending: nat, b: Broker)
    requires QueueOk(q, hand, next, pending) && BrokerOk(q, b) && BrokerBusy(b)
    ensures var i := FirstWhere(q, HasTicket(b.ticket));
      && i < |q| && q[i].ticket == b.ticket && q[i].state == Pinning && q[i].source == b.handle
      && (b.Redundant? ==> q[i].transferred)
  {
    var i := FirstWhere(q, HasTicket(b.ticket));
    var k :| 0 <= k < |q| && q[k].ticket == b.ticket && q[k].state == Pinning && q[k].source == b.handle
      && (b.Redundant? ==> q[k].transferred);
    assert HasTicket(b.ticket)(q[k]);
    assert i <= k;
    assert HasTicket(b.ticket)(q[i]);
    var t := hand + Tickets(q);
    assert t[|hand| + i] == t[|hand| + k];
  }

  lemma CommitKeepsBroker(q: seq<Request>, i: nat, b: Broker, pin: Option<Handle>)
    requires BrokerOk(q, b) && i < |q| && BrokerBusy(b) && q[i].ticket == b.ticket
    requires forall j :: 0 <= j < |q| && q[j].ticket == b.ticket ==> j == i
    ensures BrokerOk(q[i := Settled(q[i], pin)], Idle)
  {
  }

  /** A settled request owns what it owned before plus what the broker pinned. */
  lemma SettledOwns(r: Request, b: Broker, k: Handle)
    requires RequestOk(r) && r.state == Pinning && b.Result? && (r.transferred ==> b.result.None?)
    ensures OwnedRef(Settled(r, b.result))[k] == OwnedRef(r)[k] + PinCount(b, k)
  {
  }

  lemma CommitConserves(s: State, s': State, i: nat)
    requires Conserved(s) && Requests(s.gate.queue) && s.broker.Result?
    requires i < |s.gate.queue| && s.gate.queue[i].state == Pinning
    requires s.gate.queue[i].transferred ==> s.broker.result.None?
    requires s' == s.(gate := Commit(s.gate, i, s.broker.result), broker := Idle)
    ensures Conserved(s')
  {
    var q, r, r' := s.gate.queue, s.gate.queue[i], Settled(s.gate.queue[i], s.broker.result);
    assert RequestOk(r);
    forall k ensures s'.refs[k] == AppRefs(s', k) + PeakRefs(s', k) {
      OwnedCountUpdate(q, i, r', k);
      SettledOwns(r, s.broker, k);
      assert s.refs[k] == AppRefs(s, k) + PeakRefs(s, k);
    }
  }

  lemma OnlyTicket(q: seq<Request>, hand: seq<nat>, next: nat, pending: nat, i: nat, j: nat)
    requires QueueOk(q, hand, next, pending) && i < |q| && j < |q| && q[i].ticket == q[j].ticket
    ensures i == j
  {
    var t := hand + Tickets(q);
    assert t[|hand| + i] == t[|hand| + j];
  }

  predicate Redundantly(s: State)
    requires s.broker.Result?
  {
    var i := FirstWhere(s.gate.queue, HasTicket(s.broker.ticket));
    i < |s.gate.queue| && s.gate.queue[i].transferred && s.broker.result.Some?
  }

  /** What settling does: it leaves the queue alone once more, or commits the broker's request. */
  lemma SettleCases(s: State)
    requires QueueInv(s) && BrokerOk(s.gate.queue, s.broker) && s.broker.Result?
    ensures Redundantly(s) ==>
      BrokerSettle(s) == s.(broker := Redundant(s.broker.ticket, s.broker.handle, s.broker.result.value))
    ensures !Redundantly(s) ==>
      var i := FirstWhere(s.gate.queue, HasTicket(s.broker.ticket));
      && i < |s.gate.queue| && s.gate.queue[i].state == Pinning && s.gate.queue[i].ticket == s.broker.ticket
      && s.gate.queue[i].source == s.broker.handle
      && BrokerSettle(s) == s.(gate := Commit(s.gate, i, s.broker.result), broker := Idle)
  {
    BrokerFinds(s.gate.queue, HandTickets(s.drain), s.gate.nextTicket, s.gate.pending, s.broker);
  }

  lemma SettleConserves(s: State)
    requires QueueInv(s) && BrokerOk(s.gate.queue, s.broker) && Conserved(s) && s.broker.Result?
    ensures Conserved(BrokerSettle(s))
  {
    SettleCases(s);
    if Redundantly(s) {
      SameOwnedConserves(s, BrokerSettle(s));
    } else {
      CommitConserves(s, BrokerSettle(s), FirstWhere(s.gate.queue, HasTicket(s.broker.ticket)));
    }
  }

  lemma SettleLive(s: State)
    requires QueueInv(s) && BrokerOk(s.gate.queue, s.broker) && BorrowsLive(s) && s.broker.Result?
    ensures BorrowsLive(BrokerSettle(s))
  {
    SettleCases(s);
    if !Redundantly(s) {
      var i := FirstWhere(s.gate.queue, HasTicket(s.broker.ticket));
      UpdateKeepsLive(s, BrokerSettle(s), i, Settled(s.gate.queue[i], s.broker.result));
    }
  }

  lemma SettleBroker(s: State)
    requires QueueInv(s) && BrokerOk(s.gate.queue, s.broker) && s.broker.Result?
    ensures BrokerOk(BrokerSettle(s).gate.queue, BrokerSettle(s).broker)
  {
    var q, i := s.gate.queue, FirstWhere(s.gate.queue, HasTicket(s.broker.ticket));
    SettleCases(s);
    BrokerFinds(q, HandTickets(s.drain), s.gate.nextTicket, s.gate.pending, s.broker);
    if !Redundantly(s) {
      forall j | 0 <= j < |q| && q[j].ticket == q[i].ticket ensures j == i {
        OnlyTicket(q, HandTickets(s.drain), s.gate.nextTicket, s.gate.pending, i, j);
      }
      CommitKeepsBroker(q, i, s.broker, s.broker.result);
    }
  }

  lemma SettleQueue(s: State)
    requires QueueInv(s) && BrokerOk(s.gate.queue, s.broker) && s.broker.Result?
    ensures QueueInv(BrokerSettle(s)) && Tickets(BrokerSettle(s).gate.queue) == Tickets(s.gate.queue)
    ensures BrokerSettle(s).gate.pending <= s.gate.pending
  {
    SettleCases(s);
    if !Redundantly(s) {
      var i := FirstWhere(s.gate.queue, HasTicket(s.broker.ticket));
      CommitKeepsQueue(s.gate, HandTickets(s.drain), i, s.broker.result);
    }
  }

  lemma SettleRetained(s: State)
    requires QueueInv(s) && BrokerOk(s.gate.queue, s.broker) && s.broker.Result?
    requires RetainedOk(s.gate.queue, s.drain, s.retained)
    ensures RetainedOk(BrokerSettle(s).gate.queue, s.drain, s.retained)
  {
    SettleCases(s);
  }

  lemma KeepsBrokerSettle(s: State)
    requires Inv(s) && s.broker.Result?
    ensures Inv(BrokerSettle(s))
  {
    SettleRetained(s);
    SettleCases(s);
    SettleQueue(s);
    SettleBroker(s);
    SettleLive(s);
    SettleConserves(s);
  }

  lemma KeepsBrokerExit(s: State)
    requires Inv(s) && s.broker == Idle && !s.gate.brokerRunning
    ensures Inv(s.(broker := Stopped))
  {
  }

  lemma BrokerKeeps(s: State, s': State)
    requires Inv(s) && BrokerStep(s, s')
    ensures Inv(s')
  {
    if CanTake(s) && s' == BrokerTake(s) { KeepsBrokerTake(s); }
    else if s.broker.Taken? && s' == BrokerPinFailed(s) { KeepsBrokerPinFailed(s); }
    else if p: Handle :| s.broker.Taken? && Loaded(s.refs, p.module_) && s' == BrokerPinOpened(s, p) { KeepsBrokerPinOpened(s, p); }
    else if s.broker.Opened? && PinNamesSource(s.broker) && s' == BrokerAcceptPin(s) { KeepsBrokerAcceptPin(s); }
    else if s.broker.Opened? && s' == BrokerRejectPin(s) { KeepsBrokerRejectPin(s); }
    else if s.broker.Result? && s' == BrokerSettle(s) { KeepsBrokerSettle(s); }
    else if s.broker.Redundant? && s' == BrokerCloseRedundant(s) { KeepsBrokerCloseRedundant(s); }
    else { KeepsBrokerExit(s); }
  }

  // ---------------------------------------------------------------------------------------------
  // The controller
  // ---------------------------------------------------------------------------------------------

  lemma KeepsDrainBegin(s: State)
    requires Inv(s) && CanBeginDrain(s.gate) && s.drain.NoDrain?
    ensures Inv(DrainBegin(s))
  {
    var t := Tickets(s.gate.queue);
    assert [] + t == t && t[0..] + [] == t;
  }

  lemma PopConserves(s: State, s': State)
    requires Conserved(s) && HandIsEmpty(s.drain) && CanPop(s.gate) && s' == DrainPop(s)
    ensures Conserved(s')
  {
    forall k ensures s'.refs[k] == AppRefs(s', k) + PeakRefs(s', k) {
      assert s.refs[k] == AppRefs(s, k) + PeakRefs(s, k);
    }
  }

  lemma TailKeepsBroker(q: seq<Request>, b: Broker)
    requires BrokerOk(q, b) && q != [] && Drainable(q[0])
    ensures BrokerOk(q[1..], b)
  {
    if BrokerBusy(b) {
      var k :| 0 <= k < |q| && q[k].ticket == b.ticket && q[k].state == Pinning && q[k].source == b.handle
        && (b.Redundant? ==> q[k].transferred);
      assert q[1..][k - 1] == q[k];
    }
  }

  lemma TailKeepsLive(s: State, s': State)
    requires BorrowsLive(s) && s.gate.queue != [] && s'.gate.queue == s.gate.queue[1..]
    requires forall k :: LiveRefs(s', k) == LiveRefs(s, k)
    ensures BorrowsLive(s')
  {
  }

  lemma PopKeepsPass(s: State)
    requires QueueInv(s) && DrainInv(s) && HandIsEmpty(s.drain) && s.drain.done < s.drain.limit && CanPop(s.gate)
    ensures DrainInv(DrainPop(s))
  {
    var q, d := s.gate.queue, s.drain;
    assert RequestOk(q[0]);
    assert Tickets(q[1..]) == Tickets(q)[1..];
    assert Tickets(q)[0] == q[0].ticket;
    assert (d.initial[d.taken..] + d.again)[1..] == d.initial[d.taken + 1..] + d.again;
  }

  lemma KeepsDrainPop(s: State)
    requires Inv(s) && HandIsEmpty(s.drain) && s.drain.done < s.drain.limit && CanPop(s.gate)
    ensures Inv(DrainPop(s))
  {
    TailKeepsQueue(s.gate.queue, [], s.gate.nextTicket, s.gate.pending);
    assert [] + [s.gate.queue[0].ticket] == HandTickets(DrainPop(s).drain);
    TailKeepsBroker(s.gate.queue, s.broker);
    TailKeepsLive(s, DrainPop(s));
    PopConserves(s, DrainPop(s));
    PopKeepsPass(s);
  }

  lemma AttachConserves(s: State, retain: bool, retry: bool)
    requires Conserved(s) && s.drain.Draining? && s.drain.hand.Popped? && RequestOk(s.drain.hand.r)
    ensures Conserved(DrainAttach(s, retain, retry))
  {
    var s' := DrainAttach(s, retain, retry);
    forall k ensures s'.refs[k] == AppRefs(s', k) + PeakRefs(s', k) {
      assert s.refs[k] == AppRefs(s, k) + PeakRefs(s, k);
    }
  }

  lemma AttachKeepsPass(g: Gate, callbacks: nat, d: Drain, discarded: nat, retain: bool, retry: bool)
    requires DrainOk(g, callbacks, d, discarded) && d.Draining? && d.hand.Popped?
    ensures var d' := d.(hand := AttachedHand(d.hand.r, retain, retry));
      DrainOk(g, callbacks, d', discarded) && HandTickets(d') == HandTickets(d)
  {
  }

  lemma AttachKeepsRetained(q: seq<Request>, d: Drain, retained: multiset<Handle>, retain: bool, retry: bool)
    requires RetainedOk(q, d, retained) && d.Draining? && d.hand.Popped?
    ensures RetainedOk(q, d.(hand := AttachedHand(d.hand.r, retain, retry)), retained + NowRetained(d.hand.r, retain))
  {
  }

  lemma AttachLeavesRest(s: State, retain: bool, retry: bool)
    requires QueueInv(s) && BorrowsLive(s) && ShutdownInv(s) && s.drain.Draining? && s.drain.hand.Popped?
    ensures var s' := DrainAttach(s, retain, retry); QueueInv(s') && BorrowsLive(s') && ShutdownInv(s')
  {
  }

  lemma KeepsDrainAttach(s: State, retain: bool, retry: bool)
    requires Inv(s) && s.drain.Draining? && s.drain.hand.Popped?
    ensures Inv(DrainAttach(s, retain, retry))
  {
    AttachKeepsPass(s.gate, s.admitted + |s.holding| + |s.published|, s.drain, s.discarded, retain, retry);
    AttachKeepsRetained(s.gate.queue, s.drain, s.retained, retain, retry);
    AttachConserves(s, retain, retry);
    AttachLeavesRest(s, retain, retry);
  }

  lemma CountKeepsPass(s: State)
    requires DrainInv(s) && s.drain.Draining? && s.drain.hand.Attached?
    ensures DrainInv(DrainCount(s))
  {
  }

  lemma KeepsDrainCount(s: State)
    requires Inv(s) && s.drain.Draining? && s.drain.hand.Attached?
    ensures Inv(DrainCount(s))
  {
    CountKeepsPass(s);
  }

  predicate Requeues(s: State)
    requires s.drain.Draining? && s.drain.hand.Counted?
  {
    s.drain.hand.retry && CanRequeue(s.gate, s.drain.hand.r)
  }

  lemma SettleDrainConserves(s: State)
    requires Conserved(s) && s.drain.Draining? && s.drain.hand.Counted?
    ensures Conserved(DrainSettle(s))
  {
    var r, s' := s.drain.hand.r, DrainSettle(s);
    forall k ensures s'.refs[k] == AppRefs(s', k) + PeakRefs(s', k) {
      OwnedCountAppend(s.gate.queue, r, k);
      assert s.refs[k] == AppRefs(s, k) + PeakRefs(s, k);
    }
  }

  lemma HeadNotInTail(x: nat, t: seq<nat>)
    requires Distinct([x] + t)
    ensures x !in [] + t
  {
    var u := [x] + t;
    forall i | 0 <= i < |t| ensures t[i] != x {
      assert u[0] == x && u[i + 1] == t[i];
    }
  }

  lemma SettleDrainQueue(s: State)
    requires QueueInv(s) && DrainInv(s) && s.drain.Draining? && s.drain.hand.Counted?
    ensures QueueInv(DrainSettle(s))
  {
    var q, r := s.gate.queue, s.drain.hand.r;
    assert [r.ticket] + Tickets(q) == HandTickets(s.drain) + Tickets(q);
    assert forall i :: 0 <= i < |Tickets(q)| ==> ([] + Tickets(q))[i] == ([r.ticket] + Tickets(q))[i + 1];
    assert QueueOk(q, [], s.gate.nextTicket, s.gate.pending);
    if Requeues(s) {
      HeadNotInTail(r.ticket, Tickets(q));
      assert r.ticket == ([r.ticket] + Tickets(q))[0] < s.gate.nextTicket;
      AppendKeepsQueue(q, [], s.gate.nextTicket, s.gate.pending, r, s.gate.nextTicket);
    }
  }

  lemma SettleDrainPass(s: State)
    requires DrainInv(s) && s.drain.Draining? && s.drain.hand.Counted?
    ensures DrainInv(DrainSettle(s))
  {
    var q, r, d := s.gate.queue, s.drain.hand.r, s.drain;
    if Requeues(s) {
      assert Tickets(q + [r]) == Tickets(q) + [r.ticket];
      assert d.initial[d.taken..] + (d.again + [r.ticket]) == (d.initial[d.taken..] + d.again) + [r.ticket];
      assert PassOk(Tickets(q + [r]), DrainSettle(s).drain);
    } else {
      assert PassOk(Tickets(q), DrainSettle(s).drain);
    }
  }

  lemma AppendKeepsBroker(q: seq<Request>, r: Request, b: Broker)
    requires BrokerOk(q, b) && r.state != Pinning
    ensures BrokerOk(q + [r], b)
  {
    if BrokerBusy(b) {
      var k :| 0 <= k < |q| && q[k].ticket == b.ticket && q[k].state == Pinning && q[k].source == b.handle
        && (b.Redundant? ==> q[k].transferred);
      assert (q + [r])[k] == q[k];
    }
  }

  lemma SettleDrainLive(s: State)
    requires BorrowsLive(s) && s.drain.Draining? && s.drain.hand.Counted? && Drainable(s.drain.hand.r)
    ensures BorrowsLive(DrainSettle(s))
  {
  }

  lemma SettleDrainRetained(s: State)
    requires s.drain.Draining? && s.drain.hand.Counted? && RetainedOk(s.gate.queue, s.drain, s.retained)
    ensures RetainedOk(DrainSettle(s).gate.queue, DrainSettle(s).drain, s.retained)
  {
  }

  lemma SettleDrainShutdown(s: State)
    requires s.drain.Draining? && s.drain.hand.Counted? && ShutdownInv(s)
    ensures ShutdownInv(DrainSettle(s))
  {
  }

  lemma KeepsDrainSettle(s: State)
    requires Inv(s) && s.drain.Draining? && s.drain.hand.Counted?
    ensures Inv(DrainSettle(s))
  {
    SettleDrainRetained(s);
    SettleDrainShutdown(s);
    SettleDrainQueue(s);
    AppendKeepsBroker(s.gate.queue, s.drain.hand.r, s.broker);
    SettleDrainLive(s);
    SettleDrainConserves(s);
    SettleDrainPass(s);
  }

  lemma EndConserves(s: State)
    requires Conserved(s) && HandIsEmpty(s.drain)
    ensures Conserved(DrainEnd(s))
  {
    var s' := DrainEnd(s);
    forall k ensures s'.refs[k] == AppRefs(s', k) + PeakRefs(s', k) {
      assert s.refs[k] == AppRefs(s, k) + PeakRefs(s, k);
    }
  }

  lemma KeepsDrainEnd(s: State)
    requires Inv(s) && HandIsEmpty(s.drain)
    ensures Inv(DrainEnd(s))
  {
    EndConserves(s);
  }

  lemma PeakCloseConserves(s: State, h: Handle)
    requires Conserved(s) && h in s.toClose
    ensures Conserved(PeakClose(s, h))
  {
    var s' := PeakClose(s, h);
    assert s.refs[h] == AppRefs(s, h) + PeakRefs(s, h);
    forall k ensures s'.refs[k] == AppRefs(s', k) + PeakRefs(s', k) {
      DropOne(s.refs, h, k);
      DropOne(s.toClose, h, k);
      assert s.refs[k] == AppRefs(s, k) + PeakRefs(s, k);
    }
  }

  lemma KeepsPeakClose(s: State, h: Handle)
    requires Inv(s) && h in s.toClose
    ensures Inv(PeakClose(s, h))
  {
    PeakCloseConserves(s, h);
  }

  lemma KeepsReleaseRetained(s: State)
    requires Inv(s) && (s.shutdown == Done || s.gate.phase == Closed)
    ensures Inv(ReleaseRetained(s))
  {
  }

  lemma HandKeeps(s: State, s': State)
    requires Inv(s) && HandStep(s, s')
    ensures Inv(s')
  {
    if HandIsEmpty(s.drain) && s.drain.done < s.drain.limit && CanPop(s.gate) && s' == DrainPop(s) {
      KeepsDrainPop(s);
    } else if retain, retry :| s.drain.Draining? && s.drain.hand.Popped? && s' == DrainAttach(s, retain, retry) {
      KeepsDrainAttach(s, retain, retry);
    }
    else if s.drain.Draining? && s.drain.hand.Attached? && s' == DrainCount(s) { KeepsDrainCount(s); }
    else { KeepsDrainSettle(s); }
  }

  lemma DrainKeeps(s: State, s': State)
    requires Inv(s) && DrainStep(s, s')
    ensures Inv(s')
  {
    if CanBeginDrain(s.gate) && s.drain.NoDrain? && s' == DrainBegin(s) { KeepsDrainBegin(s); }
    else if HandStep(s, s') { HandKeeps(s, s'); }
    else if HandIsEmpty(s.drain) && s' == DrainEnd(s) { KeepsDrainEnd(s); }
    else if h :| h in s.toClose && s' == PeakClose(s, h) { KeepsPeakClose(s, h); }
    else { KeepsReleaseRetained(s); }
  }

  // ---------------------------------------------------------------------------------------------
  // Installation and shutdown
  // ---------------------------------------------------------------------------------------------

  lemma SetupKeeps(s: State, s': State)
    requires Inv(s) && SetupStep(s, s')
    ensures Inv(s')
  {
    if s.shutdown == Done && !s.routed && s' == Reset(s) {
      KeepsReset(s);
    } else if s.gate.phase == Closed && s.broker == Stopped && s' == Install(s) {
      KeepsInstall(s);
    } else if s.gate.phase != ShuttingDown && s.routed && s.gate.brokerRunning && s' == Enable(s) {
      KeepsEnable(s);
    } else {
      KeepsFlags(s, s');
    }
  }

  lemma KeepsReset(s: State)
    requires Inv(s) && s.shutdown == Done
    ensures Inv(Reset(s))
  {
  }

  lemma KeepsInstall(s: State)
    requires Inv(s) && s.gate.phase == Closed && s.broker == Stopped
    ensures Inv(Install(s))
  {
  }

  lemma KeepsEnable(s: State)
    requires Inv(s) && s.gate.phase != ShuttingDown && s.routed && s.gate.brokerRunning
    ensures Inv(Enable(s))
  {
  }

  lemma KeepsFlags(s: State, s': State)
    requires Inv(s)
    requires s' == s.(listening := false) || (s.shutdown == Done && s' == s.(routed := false))
    ensures Inv(s')
  {
  }

  lemma KeepsShutBegin(s: State)
    requires Inv(s) && (s.shutdown == Running || s.shutdown == Done)
    ensures Inv(ShutBegin(s))
  {
  }

  lemma WaitedShutdown(s: State)
    requires ShutdownInv(s) && DrainInv(s) && WaitOver(s)
    ensures ShutdownOk(s.gate, s.ownerSet, s.routed, s.drain, s.broker, AfterWait(s.shutdown))
    ensures !s.shutdown.Discarding? && !AfterWait(s.shutdown).Discarding?
  {
  }

  lemma ShutdownConserves(s: State, shut: Shutdown)
    requires Conserved(s) && !s.shutdown.Discarding? && !shut.Discarding?
    ensures Conserved(s.(shutdown := shut))
  {
    var s' := s.(shutdown := shut);
    forall k ensures s'.refs[k] == AppRefs(s', k) + PeakRefs(s', k) {
      assert s.refs[k] == AppRefs(s, k) + PeakRefs(s, k);
    }
  }

  lemma KeepsShutWaited(s: State)
    requires Inv(s) && WaitOver(s)
    ensures Inv(ShutWaited(s))
  {
    WaitedShutdown(s);
    ShutdownConserves(s, AfterWait(s.shutdown));
  }

  lemma KeepsShutTimeout(s: State)
    requires Inv(s) && s.shutdown in {WaitDrain, WaitCallbacks, WaitPending}
    ensures Inv(ShutTimeout(s))
  {
    ShutdownConserves(s, Running);
  }

  lemma KeepsShutStop(s: State)
    requires Inv(s)
    ensures s.shutdown == Quiet ==> Inv(ShutClearOwner(s))
    ensures s.shutdown == OwnerCleared ==> Inv(ShutStop(s))
    ensures s.shutdown == StopRequested && s.broker == Stopped ==> Inv(s.(shutdown := Joined))
  {
  }

  lemma DiscardConserves(s: State)
    requires Conserved(s) && s.shutdown == Joined && CanPop(s.gate)
    ensures Conserved(ShutDiscard(s))
  {
    var s' := ShutDiscard(s);
    forall k ensures s'.refs[k] == AppRefs(s', k) + PeakRefs(s', k) {
      assert s.refs[k] == AppRefs(s, k) + PeakRefs(s, k);
    }
  }

  lemma KeepsShutDiscard(s: State)
    requires Inv(s) && s.shutdown == Joined && CanPop(s.gate)
    ensures Inv(ShutDiscard(s))
  {
    TailKeepsQueue(s.gate.queue, HandTickets(s.drain), s.gate.nextTicket, s.gate.pending);
    TailKeepsBroker(s.gate.queue, s.broker);
    TailKeepsLive(s, ShutDiscard(s));
    DiscardConserves(s);
  }

  lemma DiscardCloseConserves(s: State)
    requires Conserved(s) && s.shutdown.Discarding?
    ensures Conserved(ShutDiscardClose(s))
  {
    var s', owned := ShutDiscardClose(s), OwnedRef(s.shutdown.r);
    forall k ensures s'.refs[k] == AppRefs(s', k) + PeakRefs(s', k) {
      assert s.refs[k] == AppRefs(s, k) + PeakRefs(s, k);
      assert owned[k] <= s.refs[k];
      assert (s.refs - owned)[k] == s.refs[k] - owned[k];
    }
  }

  lemma KeepsShutDiscardClose(s: State)
    requires Inv(s) && s.shutdown.Discarding?
    ensures Inv(ShutDiscardClose(s))
  {
    DiscardCloseConserves(s);
  }

  /** With nothing pending, a queue whose head cannot be popped is empty. */
  lemma KeepsShutFinish(s: State)
    requires Inv(s) && s.shutdown == Joined && !CanPop(s.gate)
    ensures Inv(s.(shutdown := Done)) && s.gate.queue == []
  {
    if s.gate.queue != [] {
      DrainableUnlessPending(s.gate.queue);
    }
  }

  lemma {:induction false} DrainableUnlessPending(q: seq<Request>)
    requires Requests(q) && PendingCount(q) == 0 && q != []
    ensures Drainable(q[0])
  {
    NoPendingNoBorrow(q, 0);
  }

  lemma ShutdownKeeps(s: State, s': State)
    requires Inv(s) && ShutdownStep(s, s')
    ensures Inv(s')
  {
    KeepsShutStop(s);
    if (s.shutdown == Running || s.shutdown == Done) && s' == ShutBegin(s) { KeepsShutBegin(s); }
    else if WaitOver(s) && s' == ShutWaited(s) { KeepsShutWaited(s); }
    else if s.shutdown in {WaitDrain, WaitCallbacks, WaitPending} && s' == ShutTimeout(s) { KeepsShutTimeout(s); }
    else if s.shutdown == Joined && CanPop(s.gate) && s' == ShutDiscard(s) { KeepsShutDiscard(s); }
    else if s.shutdown.Discarding? && s' == ShutDiscardClose(s) { KeepsShutDiscardClose(s); }
    else if s.shutdown == Joined && !CanPop(s.gate) && s' == s.(shutdown := Done) { KeepsShutFinish(s); }
  }

  // ---------------------------------------------------------------------------------------------
  // Every run
  // ---------------------------------------------------------------------------------------------

  lemma InitConserves(s: State)
    requires Init(s)
    ensures Conserved(s)
  {
  }

  lemma InitQueue(s: State)
    requires Init(s)
    ensures QueueInv(s) && BrokerOk(s.gate.queue, s.broker)
  {
    assert s.gate.queue == [] && HandTickets(s.drain) == [];
  }

  lemma InitDrain(s: State)
    requires Init(s)
    ensures DrainInv(s)
  {
  }

  lemma InitHolds(s: State)
    requires Init(s)
    ensures Inv(s)
  {
    InitConserves(s);
    InitQueue(s);
    InitDrain(s);
  }

  lemma NextKeeps(s: State, s': State)
    requires Inv(s) && Next(s, s')
    ensures Inv(s')
  {
    if CallbackStep(s, s') { CallbackKeeps(s, s'); }
    else if CloseStep(s, s') { CloseKeeps(s, s'); }
    else if BrokerStep(s, s') { BrokerKeeps(s, s'); }
    else if DrainStep(s, s') { DrainKeeps(s, s'); }
    else if SetupStep(s, s') { SetupKeeps(s, s'); }
    else { ShutdownKeeps(s, s'); }
  }

  lemma {:induction false} RunKeeps(run: seq<State>, k: nat)
    requires IsRun(Init, Next, run) && k < |run|
    ensures Inv(run[k])
  {
    if k == 0 {
      InitHolds(run[0]);
    } else {
      RunKeeps(run, k - 1);
      assert Next(run[k - 1], run[k - 1 + 1]);
      NextKeeps(run[k - 1], run[k]);
    }
  }
}
