/** The guarantees of the ownership handoff, stated over every run. */
module DlopenTheorems {
  import opened Common
  import opened DlopenQueue
  import opened DlopenOwnership
  import opened DlopenInvariants

  /**
   * In every run and for every handle, the loader's references are exactly those the application side
   * still holds plus those PEAK holds.
   */
  lemma ReferencesConserved(run: seq<State>, k: nat, h: Handle)
    requires IsRun(Init, Next, run) && k < |run|
    ensures run[k].refs[h] == AppRefs(run[k], h) + PeakRefs(run[k], h)
  {
    RunKeeps(run, k);
  }

  function TotalRefs(refs: multiset<Handle>, handles: seq<Handle>): nat {
    if handles == [] then 0 else refs[handles[0]] + TotalRefs(refs, handles[1..])
  }

  function TotalAppRefs(s: State, handles: seq<Handle>): nat {
    if handles == [] then 0 else AppRefs(s, handles[0]) + TotalAppRefs(s, handles[1..])
  }

  function TotalPeakRefs(s: State, handles: seq<Handle>): nat {
    if handles == [] then 0 else PeakRefs(s, handles[0]) + TotalPeakRefs(s, handles[1..])
  }

  /** The same over any handle values together, such as all those a module goes by. */
  lemma {:induction false} ModuleReferencesConserved(run: seq<State>, k: nat, handles: seq<Handle>)
    requires IsRun(Init, Next, run) && k < |run|
    ensures TotalRefs(run[k].refs, handles) == TotalAppRefs(run[k], handles) + TotalPeakRefs(run[k], handles)
  {
    if handles != [] {
      ReferencesConserved(run, k, handles[0]);
      ModuleReferencesConserved(run, k, handles[1..]);
    }
  }

  /** An absorbed dlclose hands exactly one reference over and leaves the loader's count alone. */
  lemma AbsorbedCloseMovesOneReference(run: seq<State>, k: nat, h: Handle, x: Handle)
    requires IsRun(Init, Next, run) && k < |run| && h in run[k].slow
    ensures var s, s' := run[k], CloseLocked(run[k], h);
      if exists i :: 0 <= i < |s.gate.queue| && Borrows(s.gate.queue[i], h) then
        && s'.refs == s.refs && s'.direct == s.direct
        && AppRefs(s', x) + multiset{h}[x] == AppRefs(s, x)
        && PeakRefs(s', x) == PeakRefs(s, x) + multiset{h}[x]
      else
        s'.gate == s.gate && s'.direct == s.direct + multiset{h} && AppRefs(s', x) == AppRefs(s, x)
  {
    var s := run[k];
    RunKeeps(run, k);
    var i := FirstWhere(s.gate.queue, BorrowsHandle(h));
    AbsorberBorrows(s.gate.queue, h);
    if i < |s.gate.queue| {
      AbsorbEffect(s.gate, i, h, x);
      DropOne(s.slow, h, x);
    } else {
      MoveOne(s.slow, s.direct, h, x);
    }
  }

  /** A request that borrows has a live application reference; a pending one keeps its module loaded. */
  lemma PendingRequestsAreLoaded(run: seq<State>, k: nat, i: nat)
    requires IsRun(Init, Next, run) && k < |run| && i < |run[k].gate.queue|
    ensures var s, r := run[k], run[k].gate.queue[i];
      && (Borrows(r, r.source) ==> LiveRefs(s, r.source) > 0)
      && (IsPending(r) ==> s.refs[r.source] > 0)
      && (r.state == Ready ==> r.handle.Some? && s.refs[r.handle.value] > 0)
  {
    var s, r := run[k], run[k].gate.queue[i];
    RunKeeps(run, k);
    ReferencesConserved(run, k, r.source);
    assert RequestOk(r);
    assert IsPending(r) && !IsBorrow(r) ==> OwnedRef(r)[r.source] == 1;
    if r.handle.Some? {
      OwnedMember(s.gate.queue, i, r.handle.value);
      ReferencesConserved(run, k, r.handle.value);
      assert RetainedRequest(r, s.retained);
    }
  }

  lemma {:induction false} OwnedMember(q: seq<Request>, i: nat, h: Handle)
    requires i < |q|
    ensures OwnedCount(q, h) >= OwnedRef(q[i])[h]
  {
    if i > 0 { OwnedMember(q[1..], i - 1, h); }
  }

  /** While the broker or the controller uses a request's handle, its module is loaded. */
  lemma HandlesInUseAreLoaded(run: seq<State>, k: nat)
    requires IsRun(Init, Next, run) && k < |run|
    ensures var s := run[k];
      && (BrokerBusy(s.broker) ==> s.refs[s.broker.handle] > 0)
      && (s.drain.Draining? && !s.drain.hand.NoHand? && s.drain.hand.r.handle.Some? ==>
            s.refs[s.drain.hand.r.handle.value] > 0)
  {
    var s := run[k];
    RunKeeps(run, k);
    if BrokerBusy(s.broker) {
      BrokerFinds(s.gate.queue, HandTickets(s.drain), s.gate.nextTicket, s.gate.pending, s.broker);
      PendingRequestsAreLoaded(run, k, FirstWhere(s.gate.queue, HasTicket(s.broker.ticket)));
    }
    if s.drain.Draining? && !s.drain.hand.NoHand? && s.drain.hand.r.handle.Some? {
      ReferencesConserved(run, k, s.drain.hand.r.handle.value);
      assert HandOk(s.drain.hand.r);
    }
  }

  /** The broker's request never disappears under it, so it never has a pin left over to close. */
  lemma BrokerNeverLosesItsRequest(run: seq<State>, k: nat)
    requires IsRun(Init, Next, run) && k < |run|
    ensures var s := run[k];
      && !s.broker.Leftover?
      && (BrokerBusy(s.broker) ==>
        exists i :: 0 <= i < |s.gate.queue| && s.gate.queue[i].ticket == s.broker.ticket && s.gate.queue[i].state == Pinning)
  {
    RunKeeps(run, k);
  }

  /** The pending-ownership counter is the number of BORROWED and PINNING requests. */
  lemma PendingCounterIsExact(run: seq<State>, k: nat)
    requires IsRun(Init, Next, run) && k < |run|
    ensures run[k].gate.pending == PendingCount(run[k].gate.queue)
    ensures run[k].gate.pending == 0 <==>
      forall i :: 0 <= i < |run[k].gate.queue| ==> !IsPending(run[k].gate.queue[i])
  {
    RunKeeps(run, k);
    PendingCountZero(run[k].gate.queue);
  }

  /** No callback is inside its admission while a drain runs. */
  lemma DrainExcludesCallbacks(run: seq<State>, k: nat)
    requires IsRun(Init, Next, run) && k < |run|
    ensures run[k].drain.Draining? ==>
      run[k].admitted == 0 && run[k].holding == multiset{} && run[k].published == multiset{}
  {
    RunKeeps(run, k);
  }

  /** A pinned or transferred handle names the module that was opened, never another one of the same name. */
  lemma HandlesNameTheirModule(run: seq<State>, k: nat, i: nat)
    requires IsRun(Init, Next, run) && k < |run| && i < |run[k].gate.queue| && run[k].gate.queue[i].handle.Some?
    ensures run[k].gate.queue[i].handle.value.module_ == run[k].gate.queue[i].source.module_
  {
    RunKeeps(run, k);
    assert RequestOk(run[k].gate.queue[i]);
  }

  // --- What can always happen ---

  /** With the gate open, interception on and no drain under way, a callback is admitted. */
  lemma OpenGateAdmits(run: seq<State>, k: nat)
    requires IsRun(Init, Next, run) && k < |run|
    requires run[k].gate.phase == Open && run[k].listening && run[k].drain.NoDrain?
    ensures Next(run[k], run[k].(gate := run[k].gate.(callbacks := run[k].gate.callbacks + 1), admitted := run[k].admitted + 1))
  {
    RunKeeps(run, k);
    assert CallbackStep(run[k], CallbackBegin(run[k]));
  }

  /** No live request in the queue stands for the handle. */
  predicate Uncovered(q: seq<Request>, h: Handle) {
    forall i :: 0 <= i < |q| && q[i].state in {Borrowed, Pinning, Ready} ==> q[i].source != h && q[i].moduleToken != Some(h)
  }

  lemma PublishedQueue(s: State, h: Handle)
    requires Inv(s)
    ensures CallbackPublish(s, h, true).gate.queue ==
      if s.gate.phase == Open && |s.gate.queue| < 256 && Uncovered(s.gate.queue, h)
      then s.gate.queue + [Request(Some(h), None, h, s.gate.nextTicket, Borrowed, false, false, false)]
      else s.gate.queue
  {
    UncoveredExactly(s.gate.queue, h);
  }

  lemma {:induction false} UncoveredExactly(q: seq<Request>, h: Handle)
    ensures FirstWhere(q, CoversHandle(h)) == |q| <==> Uncovered(q, h)
  {
    var i := FirstWhere(q, CoversHandle(h));
    assert i < |q| ==> Covers(q[i], h);
  }

  lemma PublishIsStep(s: State, h: Handle)
    requires h in s.holding
    ensures CallbackStep(s, CallbackPublish(s, h, true))
  {
  }

  /**
   * A callback with something unresolved publishes its handle as a borrowed request under a fresh ticket,
   * unless the gate has closed, the queue is full or a live request stands for the handle already.
   */
  lemma CallbackPublishesExactly(run: seq<State>, k: nat, h: Handle)
    requires IsRun(Init, Next, run) && k < |run| && h in run[k].holding
    ensures var s, s' := run[k], CallbackPublish(run[k], h, true);
      && CallbackStep(s, s')
      && s'.gate.queue == (
           if s.gate.phase == Open && |s.gate.queue| < 256 && Uncovered(s.gate.queue, h)
           then s.gate.queue + [Request(Some(h), None, h, s.gate.nextTicket, Borrowed, false, false, false)]
           else s.gate.queue)
  {
    RunKeeps(run, k);
    PublishIsStep(run[k], h);
    PublishedQueue(run[k], h);
  }

  /** An idle broker takes the oldest borrowed request: it becomes PINNING, for its own ticket and handle. */
  lemma BrokerTakesOldest(run: seq<State>, k: nat, i: nat)
    requires IsRun(Init, Next, run) && k < |run| && i < |run[k].gate.queue|
    requires run[k].broker == Idle && run[k].gate.brokerRunning && run[k].gate.queue[i].state == Borrowed
    requires forall j :: 0 <= j < i ==> run[k].gate.queue[j].state != Borrowed
    ensures var s, r := run[k], run[k].gate.queue[i];
      Next(s, s.(gate := s.gate.(queue := s.gate.queue[i := r.(state := Pinning)]), broker := Taken(r.ticket, r.source)))
  {
    RunKeeps(run, k);
    var s := run[k];
    assert IsBorrowed(s.gate.queue[i]);
    assert FirstWhere(s.gate.queue, IsBorrowed) == i;
    assert RequestOk(s.gate.queue[i]);
    assert BrokerStep(s, BrokerTake(s));
  }

  /** A broker that has taken a request can always go on. */
  lemma BrokerCanStep(s: State)
    requires BrokerBusy(s.broker)
    ensures exists s' :: BrokerStep(s, s') && s'.broker != s.broker
  {
    if s.broker.Taken? { TakenCanStep(s); }
    else if s.broker.Opened? { OpenedCanStep(s); }
    else if s.broker.Result? { ResultCanStep(s); }
    else { RedundantCanStep(s); }
  }

  lemma TakenCanStep(s: State)
    requires s.broker.Taken?
    ensures exists s' :: BrokerStep(s, s') && s'.broker != s.broker
  {
    assert BrokerStep(s, BrokerPinFailed(s)) && BrokerPinFailed(s).broker.Result?;
  }

  lemma ResultCanStep(s: State)
    requires s.broker.Result?
    ensures exists s' :: BrokerStep(s, s') && s'.broker != s.broker
  {
    assert BrokerStep(s, BrokerSettle(s)) && !BrokerSettle(s).broker.Result?;
  }

  lemma RedundantCanStep(s: State)
    requires s.broker.Redundant?
    ensures exists s' :: BrokerStep(s, s') && s'.broker != s.broker
  {
    assert BrokerStep(s, BrokerCloseRedundant(s)) && BrokerCloseRedundant(s).broker.Result?;
  }

  lemma OpenedCanStep(s: State)
    requires s.broker.Opened?
    ensures exists s' :: BrokerStep(s, s') && s'.broker != s.broker
  {
    if PinNamesSource(s.broker) { assert BrokerStep(s, BrokerAcceptPin(s)) && BrokerAcceptPin(s).broker.Result?; }
    else { assert BrokerStep(s, BrokerRejectPin(s)) && BrokerRejectPin(s).broker.Result?; }
  }

  /** A reference to the module of the application's handle is kept as the pin; any other one is closed again. */
  lemma PinKeptExactly(s: State, s': State)
    requires s.broker.Opened? && BrokerStep(s, s')
    ensures s'.broker.Result? && s'.broker.ticket == s.broker.ticket && s'.broker.handle == s.broker.handle
    ensures s.broker.pin.module_ == s.broker.handle.module_ ==> s'.broker.result == Some(s.broker.pin) && s'.refs == s.refs
    ensures s.broker.pin.module_ != s.broker.handle.module_ ==>
              s'.broker.result == None && s'.refs == s.refs - multiset{s.broker.pin}
    ensures s'.gate == s.gate && s'.app == s.app && s'.drain == s.drain
  {
  }

  /** A drain can always go on: with the request in its hand, with the next one, or to its end. */
  lemma DrainCanStep(s: State)
    requires s.drain.Draining?
    ensures exists s' :: DrainStep(s, s') && s'.drain != s.drain
  {
    var hand := s.drain.hand;
    var s' := if hand.Popped? then DrainAttach(s, false, false)
              else if hand.Attached? then DrainCount(s)
              else if hand.Counted? then DrainSettle(s)
              else if PassIsOver(s) then DrainEnd(s) else DrainPop(s);
    assert hand.NoHand? && !PassIsOver(s) ==> HandStep(s, s');
    assert DrainStep(s, s') && s'.drain != s.drain;
  }

  /**
   * An intercepted close takes the lock exactly while PEAK routes closes and owns the process, and some request
   * is BORROWED or PINNING when it looks; otherwise it goes straight to the loader.
   */
  lemma CloseTakesFastPathExactly(run: seq<State>, k: nat, h: Handle)
    requires IsRun(Init, Next, run) && k < |run|
    ensures var s, s' := run[k], CloseEnter(run[k], h);
      if s.routed then s'.entered == s.entered + multiset{h} && s'.direct == s.direct
      else s'.direct == s.direct + multiset{h} && s'.entered == s.entered
    ensures var s, s' := run[k], CloseReadOwner(run[k], h);
      if s.ownerSet then s'.ownerSeen == s.ownerSeen + multiset{h} && s'.direct == s.direct
      else s'.direct == s.direct + multiset{h} && s'.ownerSeen == s.ownerSeen
    ensures var s, s' := run[k], CloseReadPending(run[k], h);
      if exists i :: 0 <= i < |s.gate.queue| && (s.gate.queue[i].state == Borrowed || s.gate.queue[i].state == Pinning)
      then s'.slow == s.slow + multiset{h} && s'.direct == s.direct
      else s'.direct == s.direct + multiset{h} && s'.slow == s.slow
  {
    RunKeeps(run, k);
    PendingCountZero(run[k].gate.queue);
  }

  predicate AllSettled(queue: seq<Request>) {
    forall i :: 0 <= i < |queue| ==> queue[i].state == Ready || queue[i].state == PinFailed
  }

  /** Each wait of a shutdown is over once what it waits for is: no drain, no callback, no request to settle. */
  lemma ShutdownWaitsEnd(run: seq<State>, k: nat)
    requires IsRun(Init, Next, run) && k < |run|
    ensures run[k].shutdown == WaitDrain && run[k].drain.NoDrain? ==> Next(run[k], run[k].(shutdown := WaitCallbacks))
    ensures run[k].shutdown == WaitCallbacks && run[k].admitted == 0 && run[k].holding == run[k].published == multiset{} ==>
      Next(run[k], run[k].(shutdown := WaitPending))
    ensures run[k].shutdown == WaitPending && AllSettled(run[k].gate.queue) ==> Next(run[k], run[k].(shutdown := Quiet))
  {
    var s := run[k];
    RunKeeps(run, k);
    PendingCountZero(s.gate.queue);
    assert WaitOver(s) ==> ShutdownStep(s, ShutWaited(s));
  }

  // --- What becomes of a request in the drain's hand ---

  predicate InHand(d: Drain) { d.Draining? && !d.hand.NoHand? }

  lemma CallbackLeavesDrain(s: State, s': State)
    requires CallbackStep(s, s')
    ensures s'.drain == s.drain
  {
  }

  lemma CloseFunctionsLeaveDrain(s: State, h: Handle)
    ensures CloseEnter(s, h).drain == CloseReadOwner(s, h).drain == CloseReadPending(s, h).drain
         == CloseLocked(s, h).drain == CloseReal(s, h).drain == PeakClose(s, h).drain == s.drain
  {
  }

  lemma CloseLeavesDrain(s: State, s': State)
    requires CloseStep(s, s')
    ensures s'.drain == s.drain
  {
    if h :| h in s.app && s' == CloseEnter(s, h) { CloseFunctionsLeaveDrain(s, h); }
    else if h :| h in s.entered && s' == CloseReadOwner(s, h) { CloseFunctionsLeaveDrain(s, h); }
    else if h :| h in s.ownerSeen && s' == CloseReadPending(s, h) { CloseFunctionsLeaveDrain(s, h); }
    else if h :| h in s.slow && s' == CloseLocked(s, h) { CloseFunctionsLeaveDrain(s, h); }
    else {
      var h :| h in s.direct && s' == CloseReal(s, h);
      CloseFunctionsLeaveDrain(s, h);
    }
  }

  lemma BrokerLeavesDrain(s: State, s': State)
    requires BrokerStep(s, s')
    ensures s'.drain == s.drain
  {
  }

  lemma ControlLeavesDrain(s: State, s': State)
    requires SetupStep(s, s') || ShutdownStep(s, s')
    ensures s'.drain == s.drain
  {
  }

  lemma DrainMoves(s: State, s': State)
    requires DrainStep(s, s') && InHand(s.drain)
    ensures s'.drain == s.drain || HandStep(s, s')
  {
    if h :| h in s.toClose && s' == PeakClose(s, h) { CloseFunctionsLeaveDrain(s, h); }
    else if s' == ReleaseRetained(s) { assert ReleaseRetained(s).drain == s.drain; }
  }

  /** While the drain holds a request, only its own steps move its hand. */
  lemma OnlyHandStepsMove(s: State, s': State)
    requires Next(s, s') && InHand(s.drain)
    ensures s'.drain == s.drain || HandStep(s, s')
  {
    if CallbackStep(s, s') { CallbackLeavesDrain(s, s'); }
    else if CloseStep(s, s') { CloseLeavesDrain(s, s'); }
    else if BrokerStep(s, s') { BrokerLeavesDrain(s, s'); }
    else if DrainStep(s, s') { DrainMoves(s, s'); }
    else { ControlLeavesDrain(s, s'); }
  }

  /** The step empties a counted hand. */
  predicate Settles(d: Drain, d': Drain) { InHand(d) && d.hand.Counted? && !InHand(d') }

  /** A counted hand is emptied by settling its request, and in no other way. */
  lemma EmptiedBySettling(s: State, s': State)
    requires Next(s, s') && Settles(s.drain, s'.drain)
    ensures s' == DrainSettle(s)
  {
    OnlyHandStepsMove(s, s');
  }

  /** The request goes back to the tail, and nothing of it is closed. */
  predicate WentBack(s: State, s': State, r: Request) {
    && s.drain.Draining? && s'.drain.Draining? && s'.drain.closing == s.drain.closing
    && s'.gate.queue == s.gate.queue + [r] && s'.gate.requeued == s.gate.requeued + 1
  }

  /** The request leaves for good, and the reference PEAK owns with it is to be closed. */
  predicate WasReleased(s: State, s': State, r: Request) {
    && s.drain.Draining? && s'.drain.Draining? && s'.drain.closing == s.drain.closing + OwnedRef(r)
    && s'.gate.queue == s.gate.queue && s'.gate.requeued == s.gate.requeued
  }

  predicate GoesBackOr(s: State, s': State, r: Request, back: bool) {
    if back then WentBack(s, s', r) else WasReleased(s, s', r)
  }

  /**
   * At the step that empties a counted hand, a request whose retry was asked for goes back to the queue
   * exactly when the gate is open: a retry never fails for lack of room. Any other request is released.
   */
  lemma RetryDroppedOnlyByShutdown(run: seq<State>, k: nat)
    requires IsRun(Init, Next, run) && k + 1 < |run| && Settles(run[k].drain, run[k + 1].drain)
    ensures var s, hand := run[k], run[k].drain.hand;
      GoesBackOr(s, run[k + 1], hand.r, hand.retry && hand.r.handle.Some? && s.gate.phase == Open)
  {
    RunKeeps(run, k);
    assert HandOk(run[k].drain.hand.r);
    EmptiedBySettling(run[k], run[k + 1]);
  }

  predicate Answered(d: Drain, r: Request, retry: bool) {
    d.Draining? && (d.hand.Attached? || d.hand.Counted?) && d.hand.r == r && d.hand.retry == retry
  }

  lemma HandKeepsAnswer(s: State, s': State, r: Request, retry: bool)
    requires HandStep(s, s') && Answered(s.drain, r, retry)
    ensures InHand(s'.drain) ==> Answered(s'.drain, r, retry)
  {
    if s.drain.hand.Attached? { assert DrainCount(s).drain.hand == Counted(r, retry); }
    else { assert DrainSettle(s).drain.hand == NoHand; }
  }

  lemma AnswerKept(s: State, s': State, r: Request, retry: bool)
    requires Next(s, s') && Answered(s.drain, r, retry) && InHand(s'.drain)
    ensures Answered(s'.drain, r, retry)
  {
    OnlyHandStepsMove(s, s');
    if s'.drain != s.drain { HandKeepsAnswer(s, s', r, retry); }
  }

  ghost predicate InHandThroughout(run: seq<State>, j: nat, k: nat)
    requires j <= k < |run|
  {
    forall m :: j <= m <= k ==> InHand(run[m].drain)
  }

  lemma AnswerKeptOnRun(run: seq<State>, j: nat, k: nat, r: Request, retry: bool)
    requires IsRun(Init, Next, run) && j <= k < |run| && InHandThroughout(run, j, k) && Answered(run[j].drain, r, retry)
    ensures Answered(run[k].drain, r, retry)
  {
    var during, kept := (s: State) => InHand(s.drain), (s: State) => Answered(s.drain, r, retry);
    forall s, s' | kept(s) && Next(s, s') && during(s') ensures kept(s') {
      AnswerKept(s, s', r, retry);
    }
    KeptWhile(Init, Next, during, kept, run, j, k);
  }

  /** The request as the attach pass leaves it. */
  function AfterAttach(r: Request, retain: bool): Request {
    if retain && r.handle.Some? && r.owned then r.(retained := true) else r
  }

  /** The attach pass gives its answer on a request. */
  ghost predicate Attaches(s: State, s': State, r: Request, retain: bool, retry: bool) {
    s.drain.Draining? && s.drain.hand == Popped(r) && s' == DrainAttach(s, retain, retry)
  }

  lemma AttachAnswers(s: State, s': State, r: Request, retain: bool, retry: bool)
    requires Attaches(s, s', r, retain, retry)
    ensures Answered(s'.drain, AfterAttach(r, retain), retry && r.handle.Some?)
  {
  }

  /**
   * From the attach pass to the end of the request's stay in the hand, whatever runs in between: a
   * request with a handle for which the pass asked for a retry goes back exactly when the gate is open
   * at that point, and a request for which it did not is released.
   */
  lemma AttachAnswerDecides(run: seq<State>, j: nat, k: nat, r: Request, retain: bool, retry: bool)
    requires IsRun(Init, Next, run) && j < k && k + 1 < |run| && Attaches(run[j], run[j + 1], r, retain, retry)
    requires InHandThroughout(run, j + 1, k) && Settles(run[k].drain, run[k + 1].drain)
    ensures GoesBackOr(run[k], run[k + 1], AfterAttach(r, retain), retry && r.handle.Some? && run[k].gate.phase == Open)
  {
    AttachAnswers(run[j], run[j + 1], r, retain, retry);
    AnswerKeptOnRun(run, j + 1, k, AfterAttach(r, retain), retry && r.handle.Some?);
    RetryDroppedOnlyByShutdown(run, k);
  }

  /** A pass takes at most min(64, initial length) requests, each of them one it began with. */
  lemma PassIsBounded(run: seq<State>, k: nat)
    requires IsRun(Init, Next, run) && k < |run| && run[k].drain.Draining?
    ensures var d := run[k].drain;
      && d.taken <= 64 && d.taken <= |d.initial|
      && Distinct(d.initial)
      && (!d.hand.NoHand? ==> d.taken > 0 && d.hand.r.ticket == d.initial[d.taken - 1])
  {
    RunKeeps(run, k);
  }

  /** Two requests taken at different points of one pass are different requests. */
  lemma PassTakesNoneTwice(run: seq<State>, j: nat, k: nat)
    requires IsRun(Init, Next, run) && j < |run| && k < |run|
    requires run[j].drain.Draining? && run[k].drain.Draining? && run[j].drain.initial == run[k].drain.initial
    requires !run[j].drain.hand.NoHand? && !run[k].drain.hand.NoHand?
    requires run[j].drain.taken < run[k].drain.taken
    ensures run[j].drain.hand.r.ticket != run[k].drain.hand.r.ticket
  {
    PassIsBounded(run, j);
    PassIsBounded(run, k);
  }

  /** Each pass goes on until it has handled min(64, initial length) requests or meets one that is not settled. */
  lemma PassEndsExactly(run: seq<State>, k: nat)
    requires IsRun(Init, Next, run) && k + 1 < |run| && run[k].drain.Draining? && run[k + 1].drain.NoDrain?
    ensures var d, q := run[k].drain, run[k].gate.queue;
      d.done == 64 <= |d.initial| || d.done == |d.initial| <= 64 || q == [] || (q[0].state != Ready && q[0].state != PinFailed)
  {
    RunKeeps(run, k);
    DrainEndsIn(run[k], run[k + 1]);
  }

  lemma DrainEndsIn(s: State, s': State)
    requires Next(s, s') && s.drain.Draining?
    ensures s'.drain.NoDrain? ==> HandIsEmpty(s.drain) && PassIsOver(s)
  {
    if CallbackStep(s, s') { CallbackLeavesDrain(s, s'); }
    else if CloseStep(s, s') { CloseLeavesDrain(s, s'); }
    else if BrokerStep(s, s') { BrokerLeavesDrain(s, s'); }
    else if DrainStep(s, s') { DrainStepEnds(s, s'); }
    else { ControlLeavesDrain(s, s'); }
  }

  lemma HandKeepsDraining(s: State, s': State)
    requires HandStep(s, s')
    ensures s'.drain.Draining?
  {
  }

  lemma DrainStepEnds(s: State, s': State)
    requires DrainStep(s, s') && s.drain.Draining?
    ensures s'.drain.NoDrain? ==> HandIsEmpty(s.drain) && PassIsOver(s)
  {
    if HandStep(s, s') { HandKeepsDraining(s, s'); }
    else if HandIsEmpty(s.drain) && PassIsOver(s) && s' == DrainEnd(s) { assert DrainEnd(s).drain.NoDrain?; }
    else if h :| h in s.toClose && s' == PeakClose(s, h) { CloseFunctionsLeaveDrain(s, h); }
    else { assert ReleaseRetained(s).drain == s.drain; }
  }

  /** Between drains, what went in is what came out plus what waits. */
  lemma CountersBalance(run: seq<State>, k: nat)
    requires IsRun(Init, Next, run) && k < |run| && run[k].drain.NoDrain?
    ensures run[k].gate.enqueued + run[k].gate.requeued
      == run[k].gate.drained + run[k].discarded + |run[k].gate.queue|
  {
    RunKeeps(run, k);
  }

  /** A shutdown that completes leaves PEAK no reference except retained handles and closes under way. */
  lemma ShutdownLeavesNothingQueued(run: seq<State>, k: nat, h: Handle)
    requires IsRun(Init, Next, run) && k < |run| && run[k].shutdown == Done
    ensures run[k].gate.queue == [] && run[k].gate.pending == 0 && run[k].broker == Stopped
    ensures run[k].refs[h] == AppRefs(run[k], h) + run[k].toClose[h] + run[k].retained[h]
  {
    RunKeeps(run, k);
    ReferencesConserved(run, k, h);
  }

  // ---------------------------------------------------------------------------------------------
  // A request absorbs at most one close
  // ---------------------------------------------------------------------------------------------

  /** The ticket of the request that a dlclose of `h` would be handed over to. */
  function AbsorberTicket(q: seq<Request>, h: Handle): Option<nat> {
    var i := FirstWhere(q, BorrowsHandle(h));
    if i < |q| then Some(q[i].ticket) else None
  }

  /** The ticket was issued, and no request under it still borrows. */
  ghost predicate Spent(q: seq<Request>, next: nat, ticket: nat) {
    && ticket < next
    && forall i :: 0 <= i < |q| && q[i].ticket == ticket ==> !IsBorrow(q[i])
  }

  lemma UpdateSpends(q: seq<Request>, next: nat, i: nat, r: Request, ticket: nat)
    requires Spent(q, next, ticket) && i < |q| && r.ticket == q[i].ticket
    requires IsBorrow(r) ==> IsBorrow(q[i])
    ensures Spent(q[i := r], next, ticket)
  {
  }

  lemma AppendSpends(q: seq<Request>, next: nat, r: Request, ticket: nat)
    requires Spent(q, next, ticket)
    requires r.ticket >= next || !IsBorrow(r)
    ensures Spent(q + [r], next, ticket) && Spent(q + [r], next + 1, ticket)
  {
  }

  lemma PublishSpends(s: State, h: Handle, unresolved: bool, ticket: nat)
    requires Spent(s.gate.queue, s.gate.nextTicket, ticket)
    ensures var g := CallbackPublish(s, h, unresolved).gate; Spent(g.queue, g.nextTicket, ticket)
  {
    AppendSpends(s.gate.queue, s.gate.nextTicket, NewRequest(h, s.gate.nextTicket), ticket);
  }

  lemma LockedCloseSpends(s: State, h: Handle, ticket: nat)
    requires Spent(s.gate.queue, s.gate.nextTicket, ticket)
    ensures var g := CloseLocked(s, h).gate; Spent(g.queue, g.nextTicket, ticket)
  {
    var i := FirstWhere(s.gate.queue, BorrowsHandle(h));
    if i < |s.gate.queue| {
      AbsorberBorrows(s.gate.queue, h);
      UpdateSpends(s.gate.queue, s.gate.nextTicket, i, Transferred(s.gate.queue[i], h), ticket);
    }
  }

  lemma TakeSpends(s: State, ticket: nat)
    requires CanTake(s) && Spent(s.gate.queue, s.gate.nextTicket, ticket)
    ensures var g := BrokerTake(s).gate; Spent(g.queue, g.nextTicket, ticket)
  {
    var i := FirstWhere(s.gate.queue, IsBorrowed);
    UpdateSpends(s.gate.queue, s.gate.nextTicket, i, s.gate.queue[i].(state := Pinning), ticket);
  }

  lemma SettleSpends(s: State, ticket: nat)
    requires s.broker.Result? && Spent(s.gate.queue, s.gate.nextTicket, ticket)
    ensures var g := BrokerSettle(s).gate; Spent(g.queue, g.nextTicket, ticket)
  {
    var i := FirstWhere(s.gate.queue, HasTicket(s.broker.ticket));
    if i < |s.gate.queue| {
      UpdateSpends(s.gate.queue, s.gate.nextTicket, i, Settled(s.gate.queue[i], s.broker.result), ticket);
    }
  }

  lemma RequeueSpends(s: State, ticket: nat)
    requires s.drain.Draining? && s.drain.hand.Counted? && Spent(s.gate.queue, s.gate.nextTicket, ticket)
    ensures var g := DrainSettle(s).gate; Spent(g.queue, g.nextTicket, ticket)
  {
    if CanRequeue(s.gate, s.drain.hand.r) {
      AppendSpends(s.gate.queue, s.gate.nextTicket, s.drain.hand.r, ticket);
    }
  }

  lemma PopSpends(q: seq<Request>, next: nat, ticket: nat)
    requires q != [] && Spent(q, next, ticket)
    ensures Spent(q[1..], next, ticket)
  {
  }

  ghost predicate Untouched(s: State, s': State) {
    s'.gate.queue == s.gate.queue && s'.gate.nextTicket == s.gate.nextTicket
  }

  lemma ClosesLeaveGate(s: State, h: Handle)
    ensures CloseEnter(s, h).gate == CloseReadOwner(s, h).gate == CloseReadPending(s, h).gate
         == CloseReal(s, h).gate == PeakClose(s, h).gate == s.gate
  {
  }

  lemma AttachLeavesGate(s: State, retain: bool, retry: bool)
    requires s.drain.Draining? && s.drain.hand.Popped?
    ensures DrainAttach(s, retain, retry).gate == s.gate
  {
  }

  lemma CallbacksLeaveQueue(s: State, h: Handle)
    ensures Untouched(s, AppOpen(s, h)) && Untouched(s, CallbackBegin(s)) && Untouched(s, CallbackEnd(s, h))
    ensures s.admitted > 0 ==> Untouched(s, CallbackFailed(s)) && Untouched(s, CallbackOpen(s, h))
  {
  }

  lemma CallbackSpends(s: State, s': State, ticket: nat)
    requires CallbackStep(s, s') && Spent(s.gate.queue, s.gate.nextTicket, ticket)
    ensures Spent(s'.gate.queue, s'.gate.nextTicket, ticket)
  {
    if h :| s' == AppOpen(s, h) { CallbacksLeaveQueue(s, h); }
    else if CanBeginCallback(s) && s' == CallbackBegin(s) { CallbacksLeaveQueue(s, Handle(0, 0)); }
    else if s.admitted > 0 && s' == CallbackFailed(s) { CallbacksLeaveQueue(s, Handle(0, 0)); }
    else if h :| s.admitted > 0 && s' == CallbackOpen(s, h) { CallbacksLeaveQueue(s, h); }
    else if h, unresolved :| h in s.holding && s' == CallbackPublish(s, h, unresolved) {
      PublishSpends(s, h, unresolved, ticket);
    } else {
      var h :| h in s.published && s' == CallbackEnd(s, h);
      CallbacksLeaveQueue(s, h);
    }
  }

  lemma CloseSpends(s: State, s': State, ticket: nat)
    requires CloseStep(s, s') && Spent(s.gate.queue, s.gate.nextTicket, ticket)
    ensures Spent(s'.gate.queue, s'.gate.nextTicket, ticket)
  {
    if h :| h in s.app && s' == CloseEnter(s, h) { ClosesLeaveGate(s, h); }
    else if h :| h in s.entered && s' == CloseReadOwner(s, h) { ClosesLeaveGate(s, h); }
    else if h :| h in s.ownerSeen && s' == CloseReadPending(s, h) { ClosesLeaveGate(s, h); }
    else if h :| h in s.slow && s' == CloseLocked(s, h) { LockedCloseSpends(s, h, ticket); }
    else {
      var h :| h in s.direct && s' == CloseReal(s, h);
      ClosesLeaveGate(s, h);
    }
  }

  lemma BrokerSpends(s: State, s': State, ticket: nat)
    requires BrokerStep(s, s') && Spent(s.gate.queue, s.gate.nextTicket, ticket)
    ensures Spent(s'.gate.queue, s'.gate.nextTicket, ticket)
  {
    if CanTake(s) && s' == BrokerTake(s) { TakeSpends(s, ticket); }
    else if s.broker.Result? && s' == BrokerSettle(s) { SettleSpends(s, ticket); }
    else if p: Handle :| s.broker.Taken? && Loaded(s.refs, p.module_) && s' == BrokerPinOpened(s, p) { }
    else { assert s'.gate == s.gate; }
  }

  lemma HandSpends(s: State, s': State, ticket: nat)
    requires HandStep(s, s') && Spent(s.gate.queue, s.gate.nextTicket, ticket)
    ensures Spent(s'.gate.queue, s'.gate.nextTicket, ticket)
  {
    if HandIsEmpty(s.drain) && s.drain.done < s.drain.limit && CanPop(s.gate) && s' == DrainPop(s) {
      PopSpends(s.gate.queue, s.gate.nextTicket, ticket);
    } else if retain, retry :| s.drain.Draining? && s.drain.hand.Popped? && s' == DrainAttach(s, retain, retry) {
      AttachLeavesGate(s, retain, retry);
    }
    else if s.drain.Draining? && s.drain.hand.Attached? && s' == DrainCount(s) { assert Untouched(s, DrainCount(s)); }
    else { RequeueSpends(s, ticket); }
  }

  lemma DrainSpends(s: State, s': State, ticket: nat)
    requires DrainStep(s, s') && Spent(s.gate.queue, s.gate.nextTicket, ticket)
    ensures Spent(s'.gate.queue, s'.gate.nextTicket, ticket)
  {
    if CanBeginDrain(s.gate) && s.drain.NoDrain? && s' == DrainBegin(s) { assert Untouched(s, DrainBegin(s)); }
    else if HandStep(s, s') { HandSpends(s, s', ticket); }
    else if HandIsEmpty(s.drain) && PassIsOver(s) && s' == DrainEnd(s) { assert Untouched(s, DrainEnd(s)); }
    else if h :| h in s.toClose && s' == PeakClose(s, h) { ClosesLeaveGate(s, h); }
    else { assert Untouched(s, ReleaseRetained(s)); }
  }

  lemma SetupSpends(s: State, s': State, ticket: nat)
    requires SetupStep(s, s') && Spent(s.gate.queue, s.gate.nextTicket, ticket)
    ensures Spent(s'.gate.queue, s'.gate.nextTicket, ticket)
  {
  }

  lemma ShutdownSpends(s: State, s': State, ticket: nat)
    requires ShutdownStep(s, s') && Spent(s.gate.queue, s.gate.nextTicket, ticket)
    ensures Spent(s'.gate.queue, s'.gate.nextTicket, ticket)
  {
    if s.shutdown == Joined && CanPop(s.gate) && s' == ShutDiscard(s) {
      PopSpends(s.gate.queue, s.gate.nextTicket, ticket);
    } else {
      assert Untouched(s, s');
    }
  }

  lemma StepSpends(s: State, s': State, ticket: nat)
    requires Next(s, s') && Spent(s.gate.queue, s.gate.nextTicket, ticket)
    ensures Spent(s'.gate.queue, s'.gate.nextTicket, ticket)
  {
    if CallbackStep(s, s') { CallbackSpends(s, s', ticket); }
    else if CloseStep(s, s') { CloseSpends(s, s', ticket); }
    else if BrokerStep(s, s') { BrokerSpends(s, s', ticket); }
    else if DrainStep(s, s') { DrainSpends(s, s', ticket); }
    else if SetupStep(s, s') { SetupSpends(s, s', ticket); }
    else { ShutdownSpends(s, s', ticket); }
  }

  lemma StaysSpent(run: seq<State>, j: nat, k: nat, ticket: nat)
    requires IsRun(Init, Next, run) && j <= k < |run|
    requires Spent(run[j].gate.queue, run[j].gate.nextTicket, ticket)
    ensures Spent(run[k].gate.queue, run[k].gate.nextTicket, ticket)
  {
    var spent := (s: State) => Spent(s.gate.queue, s.gate.nextTicket, ticket);
    forall s, s' | spent(s) && Next(s, s') ensures spent(s') {
      StepSpends(s, s', ticket);
    }
    KeptOnRun(Init, Next, spent, run, j, k);
  }

  lemma TicketsDiffer(q: seq<Request>, hand: seq<nat>, next: nat, pending: nat, i: nat, j: nat)
    requires QueueOk(q, hand, next, pending) && i < |q| && j < |q|
    ensures q[i].ticket < next && (i != j ==> q[i].ticket != q[j].ticket)
  {
    var all := hand + Tickets(q);
    assert all[|hand| + i] == q[i].ticket && all[|hand| + j] == q[j].ticket;
  }

  lemma AbsorbingSpends(g: Gate, hand: seq<nat>, i: nat, h: Handle)
    requires QueueOk(g.queue, hand, g.nextTicket, g.pending) && i < |g.queue| && Borrows(g.queue[i], h)
    ensures Spent(Absorb(g, i, h).queue, g.nextTicket, g.queue[i].ticket)
  {
    forall j | 0 <= j < |g.queue|
      ensures g.queue[i].ticket < g.nextTicket && (j != i ==> g.queue[j].ticket != g.queue[i].ticket)
    {
      TicketsDiffer(g.queue, hand, g.nextTicket, g.pending, i, j);
    }
  }

  /** In no run does a request absorb a second dlclose. */
  lemma AbsorbsAtMostOnce(run: seq<State>, j: nat, k: nat, h: Handle, x: Handle)
    requires IsRun(Init, Next, run) && j < k < |run|
    requires run[j + 1] == CloseLocked(run[j], h)
    requires AbsorberTicket(run[j].gate.queue, h).Some?
    ensures AbsorberTicket(run[k].gate.queue, x) != AbsorberTicket(run[j].gate.queue, h)
  {
    RunKeeps(run, j);
    var g, i := run[j].gate, FirstWhere(run[j].gate.queue, BorrowsHandle(h));
    AbsorberBorrows(g.queue, h);
    AbsorbingSpends(g, HandTickets(run[j].drain), i, h);
    StaysSpent(run, j + 1, k, AbsorberTicket(run[j].gate.queue, h).value);
    AbsorberBorrows(run[k].gate.queue, x);
  }
}
