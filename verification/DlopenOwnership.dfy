/**
 * The dlopen/dlclose ownership handoff as a transition system. One step is one critical section of
 * the gate mutex, one atomic access, or one loader call. Threads that differ only in what they hold
 * are kept as multisets of handles, one multiset per program point.
 */
module DlopenOwnership {
  import opened Common
  import opened DlopenQueue

  const DRAIN_BUDGET: nat := 64

  datatype Phase = Closed | Open | ShuttingDown

  /** What the gate mutex protects. */
  datatype Gate = Gate(
    phase: Phase,
    queue: seq<Request>,
    pending: nat,
    callbacks: nat,
    drainActive: bool,
    nextTicket: nat,
    brokerRunning: bool,
    enqueued: nat,
    drained: nat,
    requeued: nat)

  // ---------------------------------------------------------------------------------------------
  // Critical sections
  // ---------------------------------------------------------------------------------------------

  function CoversHandle(h: Handle): Request -> bool { r => Covers(r, h) }
  function BorrowsHandle(h: Handle): Request -> bool { r => Borrows(r, h) }
  function HasTicket(t: nat): Request -> bool { (r: Request) => r.ticket == t }
  const IsBorrowed: Request -> bool := (r: Request) => r.state == Borrowed

  predicate CanAccept(g: Gate) { g.phase == Open && |g.queue| < QUEUE_CAPACITY }

  function NewRequest(h: Handle, ticket: nat): Request {
    Request(Some(h), None, h, ticket, Borrowed, false, false, false)
  }

  predicate Admits(g: Gate, h: Handle) {
    && CanAccept(g) && g.brokerRunning
    && FirstWhere(g.queue, CoversHandle(h)) == |g.queue|
  }

  /** Publishes a borrowed request, unless the gate is closed, full or already covers the handle. */
  function Enqueue(g: Gate, h: Handle): Gate {
    if !Admits(g, h) then g
    else g.(queue := g.queue + [NewRequest(h, g.nextTicket)],
            pending := g.pending + 1,
            nextTicket := g.nextTicket + 1,
            enqueued := g.enqueued + 1)
  }

  /** Lowers the pending counter for a request that leaves the pending states. */
  function Resolve(pending: nat, r: Request): nat {
    if IsPending(r) && pending > 0 then pending - 1 else pending
  }

  function Transferred(r: Request, h: Handle): Request {
    var t := r.(handle := Some(h), moduleToken := Some(r.source), owned := true);
    if r.state == Borrowed then t.(state := Ready) else t.(transferred := true)
  }

  function Absorb(g: Gate, i: nat, h: Handle): Gate
    requires i < |g.queue|
  {
    var r := g.queue[i];
    g.(queue := g.queue[i := Transferred(r, h)],
       pending := if r.state == Borrowed then Resolve(g.pending, r) else g.pending)
  }

  /** The application handle a borrowed request was published with. */
  function BorrowedHandle(r: Request): Handle { if r.handle.Some? then r.handle.value else r.source }

  function StartPin(g: Gate, i: nat): Gate
    requires i < |g.queue|
  {
    g.(queue := g.queue[i := g.queue[i].(state := Pinning)])
  }

  /** The request after the broker's access to it has ended with `pin`. */
  function Settled(r: Request, pin: Option<Handle>): Request {
    if r.transferred then
      var named := if pin.Some? then r.(moduleToken := Some(TokenOf(pin.value))) else r;
      named.(state := Ready, owned := true)
    else if pin.Some? then
      r.(handle := pin, moduleToken := Some(TokenOf(pin.value)), state := Ready, owned := true)
    else
      r.(handle := None, moduleToken := None, state := PinFailed, owned := false)
  }

  function Commit(g: Gate, i: nat, pin: Option<Handle>): Gate
    requires i < |g.queue|
  {
    g.(queue := g.queue[i := Settled(g.queue[i], pin)], pending := Resolve(g.pending, g.queue[i]))
  }

  predicate CanPop(g: Gate) { g.queue != [] && Drainable(g.queue[0]) }

  predicate CanBeginDrain(g: Gate) {
    g.phase == Open && !g.drainActive && g.callbacks == 0 && CanPop(g)
  }

  predicate CanRequeue(g: Gate, r: Request) {
    r.handle.Some? && r.owned && r.state == Ready && CanAccept(g)
  }

  // ---------------------------------------------------------------------------------------------
  // The whole system
  // ---------------------------------------------------------------------------------------------

  datatype Broker =
    | Idle
    | Taken(ticket: nat, handle: Handle)
    | Opened(ticket: nat, handle: Handle, pin: Handle)
    | Result(ticket: nat, handle: Handle, result: Option<Handle>)
    | Redundant(ticket: nat, handle: Handle, pin: Handle)
    | Leftover(pin: Handle)
    | Stopped

  datatype Hand =
    | NoHand
    | Popped(r: Request)
    | Attached(r: Request, retry: bool)
    | Counted(r: Request, retry: bool)

  /** `initial`, `taken` and `again` record which tickets this pass began with, took and requeued. */
  datatype Drain =
    | NoDrain
    | Draining(limit: nat, done: nat, hand: Hand, closing: multiset<Handle>,
               initial: seq<nat>, taken: nat, again: seq<nat>)

  datatype Shutdown =
    | Running | WaitDrain | WaitCallbacks | WaitPending | Quiet | OwnerCleared | StopRequested
    | Joined | Discarding(r: Request) | Done

  datatype State = State(
    gate: Gate,
    routed: bool,               // the dlclose guard is installed
    listening: bool,            // dlopen_listener_owner_pid is set
    ownerSet: bool,             // dlclose_guard_owner_pid is set
    refs: multiset<Handle>,     // the loader's open references
    app: multiset<Handle>,      // references the application can close
    admitted: nat,              // callbacks before their dlopen returned
    holding: multiset<Handle>,   // callbacks that hold a fresh reference, before the enqueue
    published: multiset<Handle>, // the same, after the enqueue
    entered: multiset<Handle>,  // closes before they read the owner
    ownerSeen: multiset<Handle>, // closes before they read the pending counter
    slow: multiset<Handle>,     // closes on their way to the gate
    direct: multiset<Handle>,   // closes on their way to the loader
    broker: Broker,
    drain: Drain,
    toClose: multiset<Handle>,  // references PEAK is about to close
    retained: multiset<Handle>,
    shutdown: Shutdown,
    discarded: nat)

  predicate Loaded(refs: multiset<Handle>, module_: nat) {
    exists h :: h in refs && h.module_ == module_
  }

  // --- The application: dlopen, and the callback around an admitted one ---

  function AppOpen(s: State, h: Handle): State {
    s.(refs := s.refs + multiset{h}, app := s.app + multiset{h})
  }

  predicate CanBeginCallback(s: State) { s.gate.phase == Open && s.listening && !s.gate.drainActive }

  function CallbackBegin(s: State): State {
    s.(gate := s.gate.(callbacks := s.gate.callbacks + 1), admitted := s.admitted + 1)
  }

  /** The real dlopen failed: the callback has nothing to publish and ends. */
  function CallbackFailed(s: State): State
    requires s.admitted > 0
  {
    s.(gate := s.gate.(callbacks := Less(s.gate.callbacks)), admitted := s.admitted - 1)
  }

  function CallbackOpen(s: State, h: Handle): State
    requires s.admitted > 0
  {
    s.(refs := s.refs + multiset{h}, admitted := s.admitted - 1, holding := s.holding + multiset{h})
  }

  /** Leaves the callback body, having published the handle when something is still unresolved. */
  function CallbackPublish(s: State, h: Handle, unresolved: bool): State {
    s.(gate := if unresolved then Enqueue(s.gate, h) else s.gate,
       holding := s.holding - multiset{h}, published := s.published + multiset{h})
  }

  function CallbackEnd(s: State, h: Handle): State {
    s.(gate := s.gate.(callbacks := Less(s.gate.callbacks)),
       published := s.published - multiset{h}, app := s.app + multiset{h})
  }

  function Less(n: nat): nat { if n > 0 then n - 1 else 0 }

  ghost predicate CallbackStep(s: State, s': State) {
    || (exists h :: s' == AppOpen(s, h))
    || (CanBeginCallback(s) && s' == CallbackBegin(s))
    || (s.admitted > 0 && s' == CallbackFailed(s))
    || (s.admitted > 0 && exists h :: s' == CallbackOpen(s, h))
    || (exists h, unresolved :: h in s.holding && s' == CallbackPublish(s, h, unresolved))
    || (exists h :: h in s.published && s' == CallbackEnd(s, h))
  }

  // --- The application: intercepted dlclose ---

  function CloseEnter(s: State, h: Handle): State {
    if s.routed then s.(app := s.app - multiset{h}, entered := s.entered + multiset{h})
    else s.(app := s.app - multiset{h}, direct := s.direct + multiset{h})
  }

  function CloseReadOwner(s: State, h: Handle): State {
    if s.ownerSet then s.(entered := s.entered - multiset{h}, ownerSeen := s.ownerSeen + multiset{h})
    else s.(entered := s.entered - multiset{h}, direct := s.direct + multiset{h})
  }

  function CloseReadPending(s: State, h: Handle): State {
    if s.gate.pending != 0 then s.(ownerSeen := s.ownerSeen - multiset{h}, slow := s.slow + multiset{h})
    else s.(ownerSeen := s.ownerSeen - multiset{h}, direct := s.direct + multiset{h})
  }

  /** The close absorbed by a request that borrows the handle, or sent on to the loader. */
  function CloseLocked(s: State, h: Handle): State {
    var i := FirstWhere(s.gate.queue, BorrowsHandle(h));
    if i < |s.gate.queue| then s.(gate := Absorb(s.gate, i, h), slow := s.slow - multiset{h})
    else s.(slow := s.slow - multiset{h}, direct := s.direct + multiset{h})
  }

  function CloseReal(s: State, h: Handle): State {
    s.(direct := s.direct - multiset{h}, refs := s.refs - multiset{h})
  }

  ghost predicate CloseStep(s: State, s': State) {
    || (exists h :: h in s.app && s' == CloseEnter(s, h))
    || (exists h :: h in s.entered && s' == CloseReadOwner(s, h))
    || (exists h :: h in s.ownerSeen && s' == CloseReadPending(s, h))
    || (exists h :: h in s.slow && s' == CloseLocked(s, h))
    || (exists h :: h in s.direct && s' == CloseReal(s, h))
  }

  // --- The ownership thread ---

  predicate CanTake(s: State) {
    s.broker == Idle && s.gate.brokerRunning && FirstWhere(s.gate.queue, IsBorrowed) < |s.gate.queue|
  }

  function BrokerTake(s: State): State
    requires CanTake(s)
  {
    var i := FirstWhere(s.gate.queue, IsBorrowed);
    var r := s.gate.queue[i];
    s.(gate := StartPin(s.gate, i), broker := Taken(r.ticket, BorrowedHandle(r)))
  }

  function BrokerPinFailed(s: State): State
    requires s.broker.Taken?
  {
    s.(broker := Result(s.broker.ticket, s.broker.handle, None))
  }

  /** RTLD_NOLOAD gave a reference to some module that is loaded, by name. */
  function BrokerPinOpened(s: State, p: Handle): State
    requires s.broker.Taken?
  {
    s.(refs := s.refs + multiset{p}, broker := Opened(s.broker.ticket, s.broker.handle, p))
  }

  predicate PinNamesSource(b: Broker)
    requires b.Opened?
  {
    TokenOf(b.pin) == TokenOf(b.handle)
  }

  function BrokerAcceptPin(s: State): State
    requires s.broker.Opened?
  {
    s.(broker := Result(s.broker.ticket, s.broker.handle, Some(s.broker.pin)))
  }

  /** A reference to another module under the same name is closed again. */
  function BrokerRejectPin(s: State): State
    requires s.broker.Opened?
  {
    s.(refs := s.refs - multiset{s.broker.pin}, broker := Result(s.broker.ticket, s.broker.handle, None))
  }

  function BrokerSettle(s: State): State
    requires s.broker.Result?
  {
    var b := s.broker;
    var i := FirstWhere(s.gate.queue, HasTicket(b.ticket));
    if i == |s.gate.queue| || s.gate.queue[i].state != Pinning then
      s.(broker := if b.result.Some? then Leftover(b.result.value) else Idle)
    else if s.gate.queue[i].transferred && b.result.Some? then
      s.(broker := Redundant(b.ticket, b.handle, b.result.value))
    else
      s.(gate := Commit(s.gate, i, b.result), broker := Idle)
  }

  function BrokerCloseRedundant(s: State): State
    requires s.broker.Redundant?
  {
    s.(refs := s.refs - multiset{s.broker.pin}, broker := Result(s.broker.ticket, s.broker.handle, None))
  }

  function BrokerCloseLeftover(s: State): State
    requires s.broker.Leftover?
  {
    s.(refs := s.refs - multiset{s.broker.pin}, broker := Idle)
  }

  ghost predicate BrokerStep(s: State, s': State) {
    || (CanTake(s) && s' == BrokerTake(s))
    || (s.broker.Taken? && s' == BrokerPinFailed(s))
    || (s.broker.Taken? && exists p: Handle :: Loaded(s.refs, p.module_) && s' == BrokerPinOpened(s, p))
    || (s.broker.Opened? && PinNamesSource(s.broker) && s' == BrokerAcceptPin(s))
    || (s.broker.Opened? && !PinNamesSource(s.broker) && s' == BrokerRejectPin(s))
    || (s.broker.Result? && s' == BrokerSettle(s))
    || (s.broker.Redundant? && s' == BrokerCloseRedundant(s))
    || (s.broker.Leftover? && s' == BrokerCloseLeftover(s))
    || (s.broker == Idle && !s.gate.brokerRunning && s' == s.(broker := Stopped))
  }

  // --- The controller: draining, and the closes it leaves for afterwards ---

  function DrainLimit(budget: nat, length: nat): nat {
    if budget != 0 && budget < length then budget else length
  }

  function DrainBegin(s: State): State {
    s.(gate := s.gate.(drainActive := true),
       drain := Draining(DrainLimit(DRAIN_BUDGET, |s.gate.queue|), 0, NoHand, multiset{},
                         Tickets(s.gate.queue), 0, []))
  }

  predicate HandIsEmpty(d: Drain) { d.Draining? && d.hand.NoHand? }

  function DrainPop(s: State): State
    requires HandIsEmpty(s.drain) && CanPop(s.gate)
  {
    s.(gate := s.gate.(queue := s.gate.queue[1..]),
       drain := s.drain.(hand := Popped(s.gate.queue[0]), taken := s.drain.taken + 1))
  }

  predicate Retains(r: Request, retain: bool) { retain && r.handle.Some? && r.owned && !r.retained }

  function AttachedHand(r: Request, retain: bool, retry: bool): Hand {
    Attached(if Retains(r, retain) then r.(retained := true) else r, retry && r.handle.Some?)
  }

  function NowRetained(r: Request, retain: bool): multiset<Handle> {
    if Retains(r, retain) then multiset{r.handle.value} else multiset{}
  }

  /** The attach pass over a request: it may retain the handle for installed hooks, or ask for a retry. */
  function DrainAttach(s: State, retain: bool, retry: bool): State
    requires s.drain.Draining? && s.drain.hand.Popped?
  {
    s.(retained := s.retained + NowRetained(s.drain.hand.r, retain),
       drain := s.drain.(hand := AttachedHand(s.drain.hand.r, retain, retry)))
  }

  function DrainCount(s: State): State
    requires s.drain.Draining? && s.drain.hand.Attached?
  {
    s.(gate := s.gate.(drained := s.gate.drained + 1),
       drain := s.drain.(hand := Counted(s.drain.hand.r, s.drain.hand.retry)))
  }

  function DrainSettle(s: State): State
    requires s.drain.Draining? && s.drain.hand.Counted?
  {
    var r := s.drain.hand.r;
    if s.drain.hand.retry && CanRequeue(s.gate, r) then
      s.(gate := s.gate.(queue := s.gate.queue + [r], requeued := s.gate.requeued + 1),
         drain := s.drain.(hand := NoHand, done := s.drain.done + 1, again := s.drain.again + [r.ticket]))
    else
      s.(drain := s.drain.(hand := NoHand, done := s.drain.done + 1,
                           closing := s.drain.closing + OwnedRef(r)))
  }

  /** The pass has used up its limit, or finds no settled request at the head. */
  predicate PassIsOver(s: State)
    requires s.drain.Draining?
  {
    s.drain.done >= s.drain.limit || !CanPop(s.gate)
  }

  function DrainEnd(s: State): State
    requires HandIsEmpty(s.drain)
  {
    s.(gate := s.gate.(drainActive := false), drain := NoDrain, toClose := s.toClose + s.drain.closing)
  }

  function PeakClose(s: State, h: Handle): State {
    s.(toClose := s.toClose - multiset{h}, refs := s.refs - multiset{h})
  }

  /** Only a teardown whose dlopen shutdown succeeded releases the retained handles (src/peak.c). */
  function ReleaseRetained(s: State): State {
    s.(toClose := s.toClose + s.retained, retained := multiset{})
  }

  /** One request through the drain's hand. */
  ghost predicate HandStep(s: State, s': State) {
    || (HandIsEmpty(s.drain) && s.drain.done < s.drain.limit && CanPop(s.gate) && s' == DrainPop(s))
    || (s.drain.Draining? && s.drain.hand.Popped? && exists retain, retry :: s' == DrainAttach(s, retain, retry))
    || (s.drain.Draining? && s.drain.hand.Attached? && s' == DrainCount(s))
    || (s.drain.Draining? && s.drain.hand.Counted? && s' == DrainSettle(s))
  }

  ghost predicate DrainStep(s: State, s': State) {
    || (CanBeginDrain(s.gate) && s.drain.NoDrain? && s' == DrainBegin(s))
    || HandStep(s, s')
    || (HandIsEmpty(s.drain) && PassIsOver(s) && s' == DrainEnd(s))
    || (exists h :: h in s.toClose && s' == PeakClose(s, h))
    || ((s.shutdown == Done || s.gate.phase == Closed) && s' == ReleaseRetained(s))
  }

  // --- Installation, shutdown and teardown ---

  function Install(s: State): State {
    s.(gate := s.gate.(brokerRunning := true), broker := Idle, routed := true)
  }

  function Enable(s: State): State {
    s.(gate := s.gate.(phase := Open), listening := true, ownerSet := true)
  }

  function ShutBegin(s: State): State {
    s.(gate := s.gate.(phase := ShuttingDown), listening := false, shutdown := WaitDrain)
  }

  /** Each wait ends when its count is zero; the code waits for drains, callbacks and handoffs in turn. */
  predicate WaitOver(s: State) {
    match s.shutdown
    case WaitDrain => !s.gate.drainActive
    case WaitCallbacks => s.gate.callbacks == 0
    case WaitPending => s.gate.pending == 0
    case _ => false
  }

  function AfterWait(d: Shutdown): Shutdown {
    if d.WaitDrain? then WaitCallbacks else if d.WaitCallbacks? then WaitPending else Quiet
  }

  function ShutWaited(s: State): State
    requires WaitOver(s)
  {
    s.(shutdown := AfterWait(s.shutdown))
  }

  function ShutTimeout(s: State): State { s.(shutdown := Running) }

  function ShutClearOwner(s: State): State { s.(ownerSet := false, shutdown := OwnerCleared) }

  function ShutStop(s: State): State {
    s.(gate := s.gate.(brokerRunning := false), shutdown := StopRequested)
  }

  function ShutDiscard(s: State): State
    requires CanPop(s.gate)
  {
    s.(gate := s.gate.(queue := s.gate.queue[1..]),
       shutdown := Discarding(s.gate.queue[0]), discarded := s.discarded + 1)
  }

  function ShutDiscardClose(s: State): State
    requires s.shutdown.Discarding?
  {
    s.(refs := s.refs - OwnedRef(s.shutdown.r), shutdown := Joined)
  }

  function Reset(s: State): State {
    s.(gate := s.gate.(phase := Closed, queue := [], pending := 0), shutdown := Running)
  }

  ghost predicate SetupStep(s: State, s': State) {
    || (s.gate.phase == Closed && s.broker == Stopped && s' == Install(s))
    || (s.gate.phase != ShuttingDown && s.routed && s.gate.brokerRunning && s' == Enable(s))
    || s' == s.(listening := false)
    || (s.shutdown == Done && s.routed && s' == s.(routed := false))
    || (s.shutdown == Done && !s.routed && s' == Reset(s))
  }

  ghost predicate ShutdownStep(s: State, s': State) {
    || ((s.shutdown == Running || s.shutdown == Done) && s' == ShutBegin(s))
    || (WaitOver(s) && s' == ShutWaited(s))
    || (s.shutdown in {WaitDrain, WaitCallbacks, WaitPending} && s' == ShutTimeout(s))
    || (s.shutdown == Quiet && s' == ShutClearOwner(s))
    || (s.shutdown == OwnerCleared && s' == ShutStop(s))
    || (s.shutdown == StopRequested && s.broker == Stopped && s' == s.(shutdown := Joined))
    || (s.shutdown == Joined && CanPop(s.gate) && s' == ShutDiscard(s))
    || (s.shutdown.Discarding? && s' == ShutDiscardClose(s))
    || (s.shutdown == Joined && !CanPop(s.gate) && s' == s.(shutdown := Done))
  }

  // --- The system ---

  ghost predicate Init(s: State) {
    && s.gate == Gate(Closed, [], 0, 0, false, 1, false, 0, 0, 0)
    && !s.routed && !s.listening && !s.ownerSet
    && s.refs == s.app
    && s.admitted == 0 && s.holding == s.published == multiset{}
    && s.entered == s.ownerSeen == s.slow == s.direct == multiset{}
    && s.broker == Stopped && s.drain == NoDrain && s.toClose == s.retained == multiset{}
    && s.shutdown == Running && s.discarded == 0
  }

  ghost predicate Next(s: State, s': State) {
    || CallbackStep(s, s') || CloseStep(s, s') || BrokerStep(s, s')
    || DrainStep(s, s') || SetupStep(s, s') || ShutdownStep(s, s')
  }
}
