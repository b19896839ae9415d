/**
 * The capture gate: CUDA timing sections are readers, stream-capture calls are transitions that block
 * new readers and wait for the ones inside. One step is one atomic access by a reader, or one stretch
 * of a transition between two points at which it can be observed (taking or dropping the mutex,
 * loading a shard, sleeping).
 */
module CaptureGate {
  import opened Common
  import opened ReaderShards
  import opened CaptureRegistry

  datatype Place =
    | Outside
    | Checked              // found the gate unblocked
    | Published            // counted, about to look again
    | Inside(depth: nat)
    | Retracting           // counted, found the gate blocked
    | Asking               // no longer counted, was its shard's last reader
    | Signalling           // found the gate blocked, wants the mutex
    | Broadcasting         // has the mutex

  /** A stream-capture call, from before its begin-transition to after its end-transition. */
  datatype Call =
    | Idle
    | Wanting              // about to take the mutex
    | Scanning(shard: nat) // has the mutex
    | SawReader            // has the mutex, about to sleep
    | Asleep
    | Woken                // wants the mutex back
    | Held                 // the begin-transition has returned
    | Closing              // has the mutex again

  datatype Owner = NoOwner | ReaderOwner(t: nat) | CallOwner(c: nat)

  datatype State = State(
    blocked: bool,
    terminal: bool,
    transitions: nat,
    entries: seq<Entry>,
    owner: Owner,
    tickets: nat,
    active: seq<int>,
    readers: seq<Thread<Place>>,
    calls: seq<Call>)

  // ---------------------------------------------------------------------------------------------
  // Readers
  // ---------------------------------------------------------------------------------------------

  function Move(s: State, t: nat, place: Place): State
    requires t < |s.readers|
  {
    s.(readers := s.readers[t := s.readers[t].(place := place)])
  }

  function TakeTicket(s: State, t: nat): State
    requires t < |s.readers|
  {
    s.(readers := s.readers[t := s.readers[t].(home := HomeOf(s.tickets))], tickets := s.tickets + 1)
  }

  function Publish(s: State, t: nat): State
    requires AtHome(s.readers, s.active, t)
  {
    s.(readers := s.readers[t := s.readers[t].(place := Published, published := true)],
       active := Raised(s.active, s.readers[t].home))
  }

  /** Uncounts the reader; the last one of its shard goes on to look for waiters. */
  function Withdraw(s: State, t: nat): State
    requires AtHome(s.readers, s.active, t)
  {
    var home := s.readers[t].home;
    var last := home.exclusive || s.active[home.shard] == 1;
    s.(readers := s.readers[t := s.readers[t].(place := if last then Asking else Outside, published := false)],
       active := Lowered(s.active, home))
  }

  function WakeAll(calls: seq<Call>): (woken: seq<Call>)
    ensures |woken| == |calls|
  {
    seq(|calls|, c requires 0 <= c < |calls| => if calls[c].Asleep? then Woken else calls[c])
  }

  function Broadcast(s: State, t: nat): State
    requires t < |s.readers|
  {
    Move(s, t, Outside).(calls := WakeAll(s.calls), owner := NoOwner)
  }

  ghost predicate ReaderStep(s: State, s': State, t: nat)
    requires t < |s.readers|
  {
    var at := s.readers[t].place;
    || (at.Outside? && !s.blocked && s' == Move(s, t, Checked))
    || (at.Checked? && s.readers[t].home.NoHome? && s' == TakeTicket(s, t))
    || (at.Checked? && AtHome(s.readers, s.active, t) && s' == Publish(s, t))
    || (at.Published? && s' == Move(s, t, if s.blocked then Retracting else Inside(1)))
    || (at.Inside? && !s.blocked && s' == Move(s, t, Inside(at.depth + 1)))
    || (at.Inside? && at.depth > 1 && s' == Move(s, t, Inside(at.depth - 1)))
    || (at.Inside? && at.depth == 1 && AtHome(s.readers, s.active, t) && s' == Withdraw(s, t))
    || (at.Retracting? && AtHome(s.readers, s.active, t) && s' == Withdraw(s, t))
    || (at.Asking? && s' == Move(s, t, if s.blocked then Signalling else Outside))
    || (at.Signalling? && s.owner.NoOwner? && s' == Move(s, t, Broadcasting).(owner := ReaderOwner(t)))
    || (at.Broadcasting? && s' == Broadcast(s, t))
  }

  // ---------------------------------------------------------------------------------------------
  // Stream-capture calls
  // ---------------------------------------------------------------------------------------------

  function Step(s: State, c: nat, call: Call, owner: Owner): State
    requires c < |s.calls|
  {
    s.(calls := s.calls[c := call], owner := owner)
  }

  function BeginLocked(s: State, c: nat): State
    requires c < |s.calls|
  {
    Step(s, c, Scanning(0), CallOwner(c)).(transitions := s.transitions + 1, blocked := true)
  }

  /** Looks at one shard; a reader there sends the call to sleep, an empty last shard ends the wait. */
  function ScanShard(s: State, c: nat): State
    requires c < |s.calls| && s.calls[c].Scanning?
  {
    var k := s.calls[c].shard;
    if k >= |s.active| then Step(s, c, Held, NoOwner)
    else if s.active[k] != 0 then Step(s, c, SawReader, s.owner)
    else Step(s, c, Scanning(k + 1), s.owner)
  }

  /** What the call observed around the capture operation; unknown stream states are `None`. */
  datatype Observation = Untracked | Observed(before: Option<bool>, after: Option<bool>, key: Option<Key>, begins: bool, succeeded: bool)

  /** The registry after the call, or `None` when tracking can no longer be trusted. */
  function Tracked(entries: seq<Entry>, o: Observation): Option<seq<Entry>> {
    if o.Untracked? then Some(entries)
    else if o.before.None? || o.after.None? then None
    else if !o.before.value && o.after.value then (if o.key.None? then None else Added(entries, o.key.value))
    else if o.before.value && !o.after.value then (if o.key.None? then None else Removed(entries, o.key.value))
    else Some(entries)
  }

  predicate ExpectedEdge(o: Observation)
    requires o.Observed? && o.before.Some? && o.after.Some?
  {
    if o.begins then !o.before.value && o.after.value else o.before.value && !o.after.value
  }

  predicate LosesTrack(entries: seq<Entry>, o: Observation) {
    || Tracked(entries, o).None?
    || (o.Observed? && o.before.Some? && o.after.Some? && o.succeeded && !ExpectedEdge(o))
  }

  /** Ends the transition: the gate opens when no transition, capture or lost tracking is left. */
  function EndLocked(s: State, c: nat, o: Observation): State
    requires c < |s.calls|
  {
    var entries := if Tracked(s.entries, o).Some? then Tracked(s.entries, o).value else s.entries;
    var terminal := s.terminal || LosesTrack(s.entries, o);
    var transitions := if s.transitions > 0 then s.transitions - 1 else 0;
    var opens := transitions == 0 && !AnyActive(entries) && !terminal;
    var calls := s.calls[c := Idle];
    s.(entries := entries, terminal := terminal, transitions := transitions,
       blocked := s.blocked && !opens, calls := if opens then WakeAll(calls) else calls, owner := NoOwner)
  }

  ghost predicate CallStep(s: State, s': State, c: nat)
    requires c < |s.calls|
  {
    var call := s.calls[c];
    || (call.Idle? && s' == Step(s, c, Wanting, s.owner))
    || (call.Idle? && s' == Step(s, c, Wanting, s.owner).(terminal := true))
    || (call.Wanting? && s.owner.NoOwner? && s' == BeginLocked(s, c))
    || (call.Scanning? && s' == ScanShard(s, c))
    || (call.SawReader? && s' == Step(s, c, Asleep, NoOwner))
    || (call.Asleep? && s' == Step(s, c, Woken, s.owner))
    || (call.Woken? && s.owner.NoOwner? && s' == Step(s, c, Scanning(0), CallOwner(c)))
    || (call.Held? && s.owner.NoOwner? && s' == Step(s, c, Closing, CallOwner(c)))
    || (call.Closing? && exists o :: s' == EndLocked(s, c, o))
  }

  ghost predicate Init(s: State) {
    && !s.blocked && !s.terminal && s.transitions == 0 && s.owner == NoOwner && s.tickets == 0
    && |s.entries| == CAPACITY && (forall i :: 0 <= i < CAPACITY ==> s.entries[i] == EMPTY)
    && |s.active| == SHARDS && (forall k :: 0 <= k < SHARDS ==> s.active[k] == 0)
    && (forall t :: 0 <= t < |s.readers| ==> s.readers[t] == Thread(NoHome, false, Outside))
    && (forall c :: 0 <= c < |s.calls| ==> s.calls[c] == Idle)
  }

  ghost predicate Next(s: State, s': State) {
    || (exists t :: 0 <= t < |s.readers| && ReaderStep(s, s', t))
    || (exists c :: 0 <= c < |s.calls| && CallStep(s, s', c))
  }

  // ---------------------------------------------------------------------------------------------
  // The invariant
  // ---------------------------------------------------------------------------------------------

  predicate ReaderOk(r: Thread<Place>) {
    && (r.published <==> r.place.Published? || r.place.Inside? || r.place.Retracting?)
    && (r.place.Inside? ==> r.place.depth >= 1)
  }

  predicate InTransition(call: Call) { !call.Idle? && !call.Wanting? }
  const CountsTransition: Call -> bool := (call: Call) => InTransition(call)

  predicate HasMutex(call: Call) { call.Scanning? || call.SawReader? || call.Closing? }

  /** The mutex has one owner, and the owner is where the mutex says. */
  predicate OwnerOk(owner: Owner, readers: seq<Thread<Place>>, calls: seq<Call>) {
    && (forall t :: 0 <= t < |readers| && readers[t].place.Broadcasting? ==> owner == ReaderOwner(t))
    && (forall c :: 0 <= c < |calls| && HasMutex(calls[c]) ==> owner == CallOwner(c))
  }

  predicate BlockedOk(blocked: bool, transitions: nat, entries: seq<Entry>) {
    transitions > 0 || AnyActive(entries) ==> blocked
  }

  /** What a transition's scan has established: no reader is inside in the shards it passed. */
  predicate CallOk(call: Call, readers: seq<Thread<Place>>) {
    && (call.Scanning? ==> forall t :: 0 <= t < |readers| && readers[t].place.Inside? && readers[t].home.Home? ==> readers[t].home.shard >= call.shard)
    && (call.Held? || call.Closing? ==> forall t :: 0 <= t < |readers| ==> !readers[t].place.Inside?)
  }

  predicate WillWake(r: Thread<Place>) { r.published || r.place.Asking? || r.place.Signalling? || r.place.Broadcasting? }

  predicate Waits(call: Call) { call.Asleep? || call.SawReader? }

  /** Somebody who will broadcast, or is still counted, stands behind every wait. */
  predicate WaitOk(calls: seq<Call>, readers: seq<Thread<Place>>) {
    (exists c :: 0 <= c < |calls| && Waits(calls[c])) ==> exists t :: 0 <= t < |readers| && WillWake(readers[t])
  }

  predicate Inv(s: State) {
    && HomesOk(s.readers, s.tickets) && CountsOk(s.active, s.readers)
    && (forall t :: 0 <= t < |s.readers| ==> ReaderOk(s.readers[t]))
    && s.transitions == Count(s.calls, CountsTransition)
    && Unique(s.entries) && |s.entries| == CAPACITY
    && BlockedOk(s.blocked, s.transitions, s.entries)
    && OwnerOk(s.owner, s.readers, s.calls)
    && (forall c :: 0 <= c < |s.calls| ==> CallOk(s.calls[c], s.readers))
    && WaitOk(s.calls, s.readers)
  }

  // ---------------------------------------------------------------------------------------------
  // Readers keep it
  // ---------------------------------------------------------------------------------------------

  /** An unblocked gate has no transition under way. */
  lemma UnblockedIsIdle(s: State)
    requires Inv(s) && !s.blocked
    ensures forall c :: 0 <= c < |s.calls| ==> !InTransition(s.calls[c])
  {
    forall c | 0 <= c < |s.calls| ensures !InTransition(s.calls[c]) {
      CountZero(s.calls, CountsTransition, c);
    }
  }

  /** Somebody other than `t` still stands behind the waits, or nobody waits. */
  predicate OthersWake(calls: seq<Call>, readers: seq<Thread<Place>>, t: nat) {
    || (forall c :: 0 <= c < |calls| ==> !Waits(calls[c]))
    || (exists u :: 0 <= u < |readers| && u != t && WillWake(readers[u]))
  }

  lemma ReaderMoved(s: State, t: nat, r: Thread<Place>)
    requires Inv(s) && t < |s.readers| && ReaderOk(r)
    requires r.place.Inside? ==> (s.readers[t].place.Inside? && r.home == s.readers[t].home) || !s.blocked
    requires WillWake(r) || !WillWake(s.readers[t]) || OthersWake(s.calls, s.readers, t)
    ensures forall c :: 0 <= c < |s.calls| ==> CallOk(s.calls[c], s.readers[t := r])
    ensures WaitOk(s.calls, s.readers[t := r])
  {
    var readers := s.readers[t := r];
    if !s.blocked { UnblockedIsIdle(s); }
    forall c | 0 <= c < |s.calls| ensures CallOk(s.calls[c], readers) {
      assert CallOk(s.calls[c], s.readers);
    }
    if c :| 0 <= c < |s.calls| && Waits(s.calls[c]) {
      var u :| 0 <= u < |s.readers| && WillWake(s.readers[u]) && (u != t || WillWake(r));
      assert WillWake(readers[u]);
    }
  }

  lemma KeepsMove(s: State, t: nat, place: Place)
    requires Inv(s) && t < |s.readers| && ReaderOk(s.readers[t].(place := place)) && !place.Broadcasting? && !s.readers[t].place.Broadcasting?
    requires place.Inside? ==> s.readers[t].place.Inside? || !s.blocked
    requires WillWake(s.readers[t].(place := place)) || !WillWake(s.readers[t]) || !s.blocked
    ensures Inv(Move(s, t, place))
  {
    var r := s.readers[t].(place := place);
    if !s.blocked { UnblockedIsIdle(s); }
    ReaderMoved(s, t, r);
    UnpublishedKeepsCounts(s.active, s.readers, t, r);
  }

  lemma KeepsTicket(s: State, t: nat)
    requires Inv(s) && t < |s.readers| && s.readers[t].place.Checked?
    ensures Inv(TakeTicket(s, t))
  {
    var r := s.readers[t].(home := HomeOf(s.tickets));
    assert ReaderOk(s.readers[t]);
    TicketKeepsHomes(s.readers, s.tickets, t);
    UnpublishedKeepsCounts(s.active, s.readers, t, r);
    ReaderMoved(s, t, r);
  }

  lemma KeepsPublish(s: State, t: nat)
    requires Inv(s) && AtHome(s.readers, s.active, t) && s.readers[t].place.Checked?
    ensures Inv(Publish(s, t))
  {
    var r := s.readers[t].(place := Published, published := true);
    assert ReaderOk(s.readers[t]);
    PublishKeepsCounts(s.active, s.readers, s.tickets, t, r);
    ReaderMoved(s, t, r);
  }

  /** A reader that is not its shard's last leaves another one counted behind. */
  lemma NotLastLeavesOther(active: seq<int>, readers: seq<Thread<Place>>, t: nat, r: Thread<Place>)
    requires t < |readers| && r.home.Home? && r.home.shard < SHARDS && !r.published
    requires CountsOk(active, readers[t := r]) && active[r.home.shard] != 0
    ensures exists u :: 0 <= u < |readers| && u != t && WillWake(readers[u])
  {
    ShardSays(active, readers[t := r], r.home.shard);
    var u :| 0 <= u < |readers| && readers[t := r][u].published;
    assert u != t && WillWake(readers[u]);
  }

  lemma KeepsWithdraw(s: State, t: nat)
    requires Inv(s) && AtHome(s.readers, s.active, t) && (s.readers[t].place.Inside? || s.readers[t].place.Retracting?)
    ensures Inv(Withdraw(s, t))
  {
    var home, r := s.readers[t].home, Withdraw(s, t).readers[t];
    assert ReaderOk(s.readers[t]);
    WithdrawKeepsCounts(s.active, s.readers, s.tickets, t, r);
    if r.place.Outside? { NotLastLeavesOther(Lowered(s.active, home), s.readers, t, r); }
    ReaderMoved(s, t, r);
  }

  lemma KeepsSignalLock(s: State, t: nat)
    requires Inv(s) && t < |s.readers| && s.readers[t].place.Signalling? && s.owner.NoOwner?
    ensures Inv(Move(s, t, Broadcasting).(owner := ReaderOwner(t)))
  {
    var r := s.readers[t].(place := Broadcasting);
    assert ReaderOk(s.readers[t]);
    UnpublishedKeepsCounts(s.active, s.readers, t, r);
    ReaderMoved(s, t, r);
  }

  lemma {:induction false} WakeKeepsCount(calls: seq<Call>, woken: seq<Call>)
    requires |woken| == |calls| && forall c :: 0 <= c < |calls| ==> InTransition(woken[c]) == InTransition(calls[c])
    ensures Count(woken, CountsTransition) == Count(calls, CountsTransition)
  {
    if calls != [] { WakeKeepsCount(calls[1..], woken[1..]); }
  }

  /** A broadcast leaves nobody asleep. */
  lemma KeepsBroadcast(s: State, t: nat)
    requires Inv(s) && t < |s.readers| && s.readers[t].place.Broadcasting?
    ensures Inv(Broadcast(s, t)) && forall c :: 0 <= c < |s.calls| ==> !Waits(Broadcast(s, t).calls[c])
  {
    var r := s.readers[t].(place := Outside);
    assert ReaderOk(s.readers[t]);
    UnpublishedKeepsCounts(s.active, s.readers, t, r);
    WakeKeepsCount(s.calls, WakeAll(s.calls));
    forall c | 0 <= c < |s.calls| ensures CallOk(WakeAll(s.calls)[c], s.readers[t := r]) {
      assert CallOk(s.calls[c], s.readers);
    }
  }

  lemma ReaderKeeps(s: State, s': State, t: nat)
    requires Inv(s) && t < |s.readers| && ReaderStep(s, s', t)
    ensures Inv(s')
  {
    var at := s.readers[t].place;
    assert ReaderOk(s.readers[t]);
    if at.Checked? {
      if s.readers[t].home.NoHome? { KeepsTicket(s, t); } else { KeepsPublish(s, t); }
    } else if at.Retracting? || (at.Inside? && at.depth == 1 && AtHome(s.readers, s.active, t) && s' == Withdraw(s, t)) {
      KeepsWithdraw(s, t);
    } else if at.Signalling? {
      KeepsSignalLock(s, t);
    } else if at.Broadcasting? {
      KeepsBroadcast(s, t);
    } else {
      KeepsMove(s, t, s'.readers[t].place);
    }
  }

  // ---------------------------------------------------------------------------------------------
  // Calls keep it
  // ---------------------------------------------------------------------------------------------

  lemma KeepsCall(s: State, s': State, c: nat, call: Call)
    requires Inv(s) && c < |s.calls| && s' == Step(s, c, call, s'.owner).(transitions := s'.transitions, blocked := s'.blocked, terminal := s'.terminal)
    requires s'.transitions + One(InTransition(s.calls[c])) == s.transitions + One(InTransition(call))
    requires BlockedOk(s'.blocked, s'.transitions, s.entries)
    requires OwnerOk(s'.owner, s.readers, s'.calls) && CallOk(call, s.readers)
    requires Waits(call) ==> exists t :: 0 <= t < |s.readers| && WillWake(s.readers[t])
    ensures Inv(s')
  {
    CountUpdate(s.calls, c, call, CountsTransition);
    if d :| 0 <= d < |s'.calls| && Waits(s'.calls[d]) {
      if d != c { assert Waits(s.calls[d]); }
    }
  }

  lemma KeepsScan(s: State, c: nat)
    requires Inv(s) && c < |s.calls| && s.calls[c].Scanning?
    ensures Inv(ScanShard(s, c))
  {
    var k, s' := s.calls[c].shard, ScanShard(s, c);
    assert CallOk(s.calls[c], s.readers);
    if k < |s.active| {
      ShardSays(s.active, s.readers, k);
      if s.active[k] != 0 {
        var t :| 0 <= t < |s.readers| && s.readers[t].published;
        assert WillWake(s.readers[t]);
      }
    }
    forall t | 0 <= t < |s.readers| ensures ReaderOk(s.readers[t]) && HomeOk(s.readers[t].home, s.tickets) { }
    KeepsCall(s, s', c, s'.calls[c]);
  }

  lemma TrackedIsOk(entries: seq<Entry>, o: Observation)
    requires Unique(entries)
    ensures Tracked(entries, o).Some? ==> Unique(Tracked(entries, o).value) && |Tracked(entries, o).value| == |entries|
  {
    if o.Observed? && o.key.Some? {
      AddedCounts(entries, o.key.value, o.key.value);
      RemovedCounts(entries, o.key.value, o.key.value);
    }
  }

  lemma KeepsEnd(s: State, c: nat, o: Observation)
    requires Inv(s) && c < |s.calls| && s.calls[c].Closing?
    ensures Inv(EndLocked(s, c, o))
  {
    var calls, s' := s.calls[c := Idle], EndLocked(s, c, o);
    TrackedIsOk(s.entries, o);
    CountUpdate(s.calls, c, Idle, CountsTransition);
    WakeKeepsCount(calls, WakeAll(calls));
    forall d | 0 <= d < |s.calls| ensures CallOk(s'.calls[d], s.readers) {
      assert CallOk(s.calls[d], s.readers);
    }
    if d :| 0 <= d < |s'.calls| && Waits(s'.calls[d]) {
      assert Waits(s.calls[d]);
    }
  }

  lemma CallKeeps(s: State, s': State, c: nat)
    requires Inv(s) && c < |s.calls| && CallStep(s, s', c)
    ensures Inv(s')
  {
    var call := s.calls[c];
    assert CallOk(call, s.readers);
    if call.Scanning? {
      KeepsScan(s, c);
    } else if call.Closing? {
      var o :| s' == EndLocked(s, c, o);
      KeepsEnd(s, c, o);
    } else {
      KeepsCall(s, s', c, s'.calls[c]);
    }
  }

  // ---------------------------------------------------------------------------------------------
  // Every run
  // ---------------------------------------------------------------------------------------------

  lemma InitHolds(s: State)
    requires Init(s)
    ensures Inv(s)
  {
    NobodyPublished(s.active, s.readers);
    CountNone(s.calls, CountsTransition);
  }

  lemma NextKeeps(s: State, s': State)
    requires Inv(s) && Next(s, s')
    ensures Inv(s')
  {
    if t :| 0 <= t < |s.readers| && ReaderStep(s, s', t) {
      ReaderKeeps(s, s', t);
    } else {
      var c :| 0 <= c < |s.calls| && CallStep(s, s', c);
      CallKeeps(s, s', c);
    }
  }

  lemma RunKeeps(run: seq<State>, k: nat)
    requires IsRun(Init, Next, run) && k < |run|
    ensures Inv(run[k])
  {
    forall s | Init(s) ensures Inv(s) { InitHolds(s); }
    forall s, s' | Inv(s) && Next(s, s') ensures Inv(s') { NextKeeps(s, s'); }
    AlwaysOnRun(Init, Next, Inv, run, k);
  }

  /** From a begin-transition's return to its end, no reader is inside an admitted timing section. */
  lemma TransitionExcludesReaders(run: seq<State>, k: nat, c: nat, t: nat)
    requires IsRun(Init, Next, run) && k < |run| && c < |run[k].calls| && t < |run[k].readers|
    requires run[k].calls[c].Held? || run[k].calls[c].Closing?
    ensures !run[k].readers[t].place.Inside? && run[k].blocked
  {
    RunKeeps(run, k);
    assert CallOk(run[k].calls[c], run[k].readers);
    if !run[k].blocked { UnblockedIsIdle(run[k]); }
  }

  /** The gate is blocked while any transition is under way or any capture is registered. */
  lemma BlockedWhileCapturing(run: seq<State>, k: nat, c: nat, key: Key)
    requires IsRun(Init, Next, run) && k < |run|
    ensures run[k].transitions == Count(run[k].calls, CountsTransition)
    ensures c < |run[k].calls| && InTransition(run[k].calls[c]) ==> run[k].blocked
    ensures CountOf(run[k].entries, key) > 0 ==> run[k].blocked
  {
    RunKeeps(run, k);
    if !run[k].blocked { UnblockedIsIdle(run[k]); }
    ActiveIffCounted(run[k].entries);
  }

  /** A sleeping transition always has a reader that is still counted or on its way to broadcast. */
  lemma NoWakeupIsMissed(run: seq<State>, k: nat, c: nat)
    requires IsRun(Init, Next, run) && k < |run| && c < |run[k].calls| && run[k].calls[c].Asleep?
    ensures run[k].blocked && exists t :: 0 <= t < |run[k].readers| && WillWake(run[k].readers[t])
  {
    RunKeeps(run, k);
    assert Waits(run[k].calls[c]);
    if !run[k].blocked { UnblockedIsIdle(run[k]); }
  }

  /** An ending transition opens the gate exactly when no transition, capture or lost tracking is left. */
  lemma EndOpensExactly(run: seq<State>, k: nat, c: nat, o: Observation)
    requires IsRun(Init, Next, run) && k < |run| && c < |run[k].calls| && run[k].calls[c].Closing?
    ensures var s' := EndLocked(run[k], c, o);
      !s'.blocked <==> s'.transitions == 0 && !AnyActive(s'.entries) && !s'.terminal
    ensures EndLocked(run[k], c, o).transitions + 1 == run[k].transitions
  {
    RunKeeps(run, k);
    CountUpdate(run[k].calls, c, Idle, CountsTransition);
    if !run[k].blocked { UnblockedIsIdle(run[k]); }
  }

  /** What makes an observed call untrustworthy, in terms of what is registered. */
  predicate Untrustworthy(entries: seq<Entry>, o: Observation)
    requires o.Observed?
  {
    || o.before.None? || o.after.None?                                            // the stream's state is unknown
    || (o.before.value != o.after.value && o.key.None?)                           // an edge of an unknown capture
    || (!o.before.value && o.after.value && CountOf(entries, o.key.value) == 0 && Full(entries))
    || (o.before.value && !o.after.value && CountOf(entries, o.key.value) == 0)
    || (o.succeeded && !(if o.begins then !o.before.value && o.after.value else o.before.value && !o.after.value))
  }

  lemma LosesTrackExactly(entries: seq<Entry>, o: Observation)
    requires Unique(entries)
    ensures LosesTrack(entries, o) <==> o.Observed? && Untrustworthy(entries, o)
  {
    if o.Observed? && o.key.Some? {
      AddedCounts(entries, o.key.value, o.key.value);
      RemovedCounts(entries, o.key.value, o.key.value);
    }
  }

  /** Tracking is lost at the end of a call exactly when the call was observed and cannot be trusted. */
  lemma TrackingLostExactly(run: seq<State>, k: nat, c: nat, o: Observation)
    requires IsRun(Init, Next, run) && k < |run| && c < |run[k].calls| && run[k].calls[c].Closing?
    ensures EndLocked(run[k], c, o).terminal <==> run[k].terminal || (o.Observed? && Untrustworthy(run[k].entries, o))
  {
    RunKeeps(run, k);
    LosesTrackExactly(run[k].entries, o);
  }

  /** A reader that has published itself enters exactly when it then finds the gate unblocked. */
  lemma AdmittedExactly(run: seq<State>, k: nat, t: nat)
    requires IsRun(Init, Next, run) && k + 1 < |run| && t < |run[k].readers| && t < |run[k + 1].readers|
    requires run[k].readers[t].place.Published? && ReaderStep(run[k], run[k + 1], t)
    ensures run[k + 1].readers[t].place == if run[k].blocked then Retracting else Inside(1)
    ensures run[k + 1].readers[t].published
  {
    RunKeeps(run, k);
    assert ReaderOk(run[k].readers[t]);
  }

  /** A tracked call changes its capture's count by exactly the edge it observed, and no other count. */
  lemma TrackedCountsTheEdge(entries: seq<Entry>, o: Observation, other: Key)
    requires Unique(entries) && o.Observed? && o.before.Some? && o.after.Some? && o.key.Some? && Tracked(entries, o).Some?
    ensures var after := Tracked(entries, o).value;
      CountOf(after, other) + One(o.before.value && other == o.key.value) == CountOf(entries, other) + One(o.after.value && other == o.key.value)
  {
    AddedCounts(entries, o.key.value, other);
    RemovedCounts(entries, o.key.value, other);
  }

  lemma TerminalStep(s: State, s': State)
    requires Next(s, s') && s.terminal && s.blocked
    ensures s'.terminal && s'.blocked
  {
    if c :| 0 <= c < |s.calls| && CallStep(s, s', c) {
    } else if t :| 0 <= t < |s.readers| && ReaderStep(s, s', t) {
    }
  }

  /** Once tracking is lost under a blocked gate, the gate never opens again. */
  lemma TerminalStaysBlocked(run: seq<State>, j: nat, k: nat)
    requires IsRun(Init, Next, run) && j <= k < |run| && run[j].terminal && run[j].blocked
    ensures run[k].terminal && run[k].blocked
  {
    var shut := (s: State) => s.terminal && s.blocked;
    forall s, s' | shut(s) && Next(s, s') ensures shut(s') { TerminalStep(s, s'); }
    KeptOnRun(Init, Next, shut, run, j, k);
  }

  /** What a call's end does to the registry: exactly the edge it observed is counted, if it can be. */
  lemma EndCountsTheEdge(run: seq<State>, k: nat, c: nat, o: Observation, other: Key)
    requires IsRun(Init, Next, run) && k < |run| && c < |run[k].calls| && run[k].calls[c].Closing?
    ensures var entries, after := run[k].entries, EndLocked(run[k], c, o).entries;
      if CountableEdge(entries, o) then
        CountOf(after, other) + One(o.before.value && other == o.key.value) == CountOf(entries, other) + One(o.after.value && other == o.key.value)
      else after == entries
  {
    RunKeeps(run, k);
    if CountableEdge(run[k].entries, o) {
      AddedCounts(run[k].entries, o.key.value, other);
      RemovedCounts(run[k].entries, o.key.value, other);
      assert Tracked(run[k].entries, o).Some?;
    }
  }

  /** A known capture went active with room for it, or inactive while counted. */
  predicate CountableEdge(entries: seq<Entry>, o: Observation) {
    && o.Observed? && o.before.Some? && o.after.Some? && o.before.value != o.after.value && o.key.Some?
    && (o.after.value ==> CountOf(entries, o.key.value) > 0 || !Full(entries))
    && (o.before.value ==> CountOf(entries, o.key.value) > 0)
  }

  /** A leaving reader looks for waiters exactly when its shard is its own or it was the last one there, and wakes them exactly under a blocked gate. */
  lemma LeaverLooksForWaiters(run: seq<State>, k: nat, t: nat)
    requires IsRun(Init, Next, run) && k + 1 < |run| && t < |run[k].readers| && ReaderStep(run[k], run[k + 1], t)
    ensures var s, place, place' := run[k], run[k].readers[t].place, run[k + 1].readers[t].place;
      && (s.readers[t].published && !run[k + 1].readers[t].published ==>
            place' == if s.readers[t].home.exclusive || s.active[s.readers[t].home.shard] == 1 then Asking else Outside)
      && (place.Asking? ==> place' == if s.blocked then Signalling else Outside)
  {
    RunKeeps(run, k);
    assert ReaderOk(run[k].readers[t]) && HomeOk(run[k].readers[t].home, run[k].tickets);
  }

  // ---------------------------------------------------------------------------------------------
  // Nobody is stuck
  // ---------------------------------------------------------------------------------------------

  /** A reader in the middle of an entry or an exit can always go on, at most waiting for the mutex. */
  lemma ReaderCanStep(run: seq<State>, k: nat, t: nat)
    requires IsRun(Init, Next, run) && k < |run| && t < |run[k].readers|
    requires !run[k].readers[t].place.Outside? && (run[k].readers[t].place.Signalling? ==> run[k].owner.NoOwner?)
    ensures exists s' :: ReaderStep(run[k], s', t) && s'.readers != run[k].readers
  {
    RunKeeps(run, k);
    var s := run[k];
    assert ReaderOk(s.readers[t]) && HomeOk(s.readers[t].home, s.tickets);
    var s' :=
      match s.readers[t].place
      case Checked => if s.readers[t].home.NoHome? then TakeTicket(s, t) else Publish(s, t)
      case Published => Move(s, t, if s.blocked then Retracting else Inside(1))
      case Inside(depth) => if depth > 1 then Move(s, t, Inside(depth - 1)) else Withdraw(s, t)
      case Retracting => Withdraw(s, t)
      case Asking => Move(s, t, if s.blocked then Signalling else Outside)
      case Signalling => Move(s, t, Broadcasting).(owner := ReaderOwner(t))
      case Broadcasting => Broadcast(s, t);
    assert ReaderStep(s, s', t) && s'.readers[t] != s.readers[t];
  }

  /** A capture call can always go on, at most waiting for the mutex or for its wake-up. */
  lemma CallCanStep(run: seq<State>, k: nat, c: nat)
    requires IsRun(Init, Next, run) && k < |run| && c < |run[k].calls| && !run[k].calls[c].Idle?
    requires HasMutex(run[k].calls[c]) || run[k].calls[c].Asleep? || run[k].owner.NoOwner?
    ensures exists s' :: CallStep(run[k], s', c) && s'.calls != run[k].calls
  {
    var s := run[k];
    var s' :=
      match s.calls[c]
      case Wanting => BeginLocked(s, c)
      case Scanning(_) => ScanShard(s, c)
      case SawReader => Step(s, c, Asleep, NoOwner)
      case Asleep => Step(s, c, Woken, s.owner)
      case Woken => Step(s, c, Scanning(0), CallOwner(c))
      case Held => Step(s, c, Closing, CallOwner(c))
      case Closing => EndLocked(s, c, Untracked);
    assert s'.calls[c] != s.calls[c];
    assert CallStep(s, s', c);
  }
}
