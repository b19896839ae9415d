/** The invariant of the signal slots, that every step keeps it, and what it guarantees. */
module SignalSlotsProof {
  import opened Common
  import opened SignalSlots

  // ---------------------------------------------------------------------------------------------
  // The invariant
  // ---------------------------------------------------------------------------------------------

  /** The reader count is the number of pins, and every pin's identity is the slot's own. */
  predicate SlotOk(slot: Slot, next: nat) {
    && slot.word.tag < next
    && slot.word.readers == |slot.pins| <= MAX_READERS
    && forall pin :: pin in slot.pins ==> pin == Pin(slot.tid, slot.epoch, slot.word.tag)
  }

  predicate SlotsOk(slots: seq<Slot>, next: nat) { forall i :: 0 <= i < |slots| ==> SlotOk(slots[i], next) }

  predicate Injective(indices: seq<nat>, count: nat) {
    count <= |indices| && forall j, k :: 0 <= j < k < count ==> indices[j] != indices[k]
  }

  predicate InRange(indices: seq<nat>) {
    |indices| == MAX_THREADS && forall j :: 0 <= j < |indices| ==> indices[j] < MAX_THREADS
  }

  predicate Reusable(slot: Slot) { !slot.word.open && slot.word.readers == 0 }

  predicate NoneOpenFor(slots: seq<Slot>, tid: int) {
    forall i :: 0 <= i < |slots| && slots[i].word.open ==> slots[i].tid != tid
  }

  /** Whatever the map position shows is closed, or is the slot that will be put there. */
  predicate PositionOk(slots: seq<Slot>, indices: seq<nat>, count: nat, position: nat, i: nat)
    requires InRange(indices) && |slots| == MAX_THREADS >= count
  {
    && position <= count && position < MAX_THREADS && i < MAX_THREADS
    && (position < count ==> indices[position] == i || !slots[indices[position]].word.open)
    && (forall j :: 0 <= j < count && j != position ==> indices[j] != i)
  }

  predicate ControllerOk(c: Controller, slots: seq<Slot>, indices: seq<nat>, count: nat, epoch: nat)
    requires InRange(indices) && |slots| == MAX_THREADS >= count
  {
    && (c.Scanning? ==>
          && c.position <= count && c.position < MAX_THREADS && NoneOpenFor(slots, c.tid)
          && (c.position < count ==> !slots[indices[c.position]].word.open))
    && (c.Naming? || c.Dating? || c.Opening? ==>
          PositionOk(slots, indices, count, c.position, c.i) && Reusable(slots[c.i]) && NoneOpenFor(slots, c.tid))
    && (c.Dating? || c.Opening? ==> slots[c.i].tid == c.tid)
    && (c.Opening? ==> slots[c.i].epoch == epoch)
    && (c.Mapping? ==> PositionOk(slots, indices, count, c.position, c.i))
    && (c.Mapping? || c.Growing? ==> c.i < |slots| && slots[c.i].word.open && slots[c.i].tid == c.tid)
    && (c.Growing? ==>
          && c.position <= count && c.position < MAX_THREADS && indices[c.position] == c.i
          && forall j :: 0 <= j < count && j != c.position ==> indices[j] != c.i)
    && (c.Clearing? ==> c.j <= count && forall k :: 0 <= k < c.j ==> !slots[indices[k]].word.open)
  }

  predicate BeingMapped(c: Controller, i: nat) { (c.Mapping? || c.Growing?) && c.i == i }

  /** Every open slot belongs to the current epoch and is on the map, and no thread has two. */
  predicate OpenOk(c: Controller, slots: seq<Slot>, indices: seq<nat>, count: nat, epoch: nat)
    requires count <= |indices|
  {
    && (forall i :: 0 <= i < |slots| && slots[i].word.open ==>
          slots[i].epoch == epoch && (i in indices[..count] || BeingMapped(c, i)))
    && (forall i, k :: 0 <= i < k < |slots| && slots[i].word.open && slots[k].word.open ==> slots[i].tid != slots[k].tid)
  }

  /** The slot still is the allocation whose word was read. */
  predicate Live(word: Word, slot: Slot) { slot.word.tag == word.tag && slot.word.open }

  predicate ReadOk(word: Word, slot: Slot) {
    word.open && word.readers < MAX_READERS && word.tag <= slot.word.tag
  }

  predicate SeekOk(p: Seek, slots: seq<Slot>) {
    && (!p.Counting? ==> p.j < p.n <= MAX_THREADS)
    && (!p.Counting? && !p.Indexing? ==> p.i < |slots|)
    && (p.AskingEpoch? || p.AskingTid? || p.Swapping? ==> ReadOk(p.word, slots[p.i]))
    && (p.AskingTid? || p.Swapping? ==> Live(p.word, slots[p.i]) ==> slots[p.i].epoch == p.epoch)
    && (p.Swapping? ==> Live(p.word, slots[p.i]) ==> slots[p.i].tid == p.tid)
  }

  predicate SeekersOk(seekers: multiset<Seek>, slots: seq<Slot>) { forall p :: p in seekers ==> SeekOk(p, slots) }

  predicate Inv(s: State) {
    && |s.slots| == MAX_THREADS && InRange(s.indices) && Injective(s.indices, s.count)
    && SlotsOk(s.slots, s.nextTicket)
    && ControllerOk(s.controller, s.slots, s.indices, s.count, s.epoch)
    && OpenOk(s.controller, s.slots, s.indices, s.count, s.epoch)
    && SeekersOk(s.seekers, s.slots)
  }

  // ---------------------------------------------------------------------------------------------
  // Handlers
  // ---------------------------------------------------------------------------------------------

  /** A slot only moves on to later allocations, and changes identity only while closed. */
  predicate Ages(slot: Slot, slot': Slot) {
    && slot.word.tag <= slot'.word.tag
    && (slot'.word.open && slot'.word.tag == slot.word.tag ==>
          slot.word.open && slot'.tid == slot.tid && slot'.epoch == slot.epoch)
  }

  lemma AgingKeepsSeekers(seekers: multiset<Seek>, slots: seq<Slot>, i: nat, slot: Slot)
    requires SeekersOk(seekers, slots) && i < |slots| && Ages(slots[i], slot)
    ensures SeekersOk(seekers, slots[i := slot])
  {
    forall p | p in seekers ensures SeekOk(p, slots[i := slot]) {
      assert SeekOk(p, slots);
    }
  }

  lemma KeepsSeek(s: State, p: Seek, q: Option<Seek>)
    requires Inv(s) && p in s.seekers && SeekStep(s, p, q)
    ensures Inv(s.(seekers := Reseek(s.seekers, p, q)))
  {
    assert SeekOk(p, s.slots);
    assert q.Some? ==> SeekOk(q.value, s.slots);
  }

  predicate SameFace(slot: Slot, slot': Slot) {
    slot'.word.open == slot.word.open && slot'.tid == slot.tid && slot'.epoch == slot.epoch
  }

  /** Pins come and go without the controller noticing, on slots it is not about to reuse. */
  lemma FaceKeepsController(c: Controller, slots: seq<Slot>, indices: seq<nat>, count: nat, epoch: nat, i: nat, slot: Slot)
    requires |slots| == MAX_THREADS && InRange(indices) && count <= |indices|
    requires ControllerOk(c, slots, indices, count, epoch) && OpenOk(c, slots, indices, count, epoch)
    requires i < |slots| && SameFace(slots[i], slot) && !Reusable(slots[i])
    ensures ControllerOk(c, slots[i := slot], indices, count, epoch) && OpenOk(c, slots[i := slot], indices, count, epoch)
  {
  }

  lemma KeepsPin(s: State, p: Seek)
    requires Inv(s) && p in s.seekers && p.Swapping? && p.i < |s.slots| && s.slots[p.i].word == p.word
    ensures Inv(PinWon(s, p))
  {
    assert SeekOk(p, s.slots) && SlotOk(s.slots[p.i], s.nextTicket);
    var slot := PinWon(s, p).slots[p.i];
    FaceKeepsController(s.controller, s.slots, s.indices, s.count, s.epoch, p.i, slot);
    AgingKeepsSeekers(s.seekers, s.slots, p.i, slot);
  }

  lemma KeepsUnpin(s: State, i: nat, pin: Pin)
    requires Inv(s) && i < |s.slots| && pin in s.slots[i].pins && s.slots[i].word.readers > 0
    ensures Inv(Unpin(s, i, pin))
  {
    assert SlotOk(s.slots[i], s.nextTicket);
    var slot := Unpin(s, i, pin).slots[i];
    FaceKeepsController(s.controller, s.slots, s.indices, s.count, s.epoch, i, slot);
    AgingKeepsSeekers(s.seekers, s.slots, i, slot);
  }

  lemma HandlerKeeps(s: State, s': State)
    requires Inv(s) && HandlerStep(s, s')
    ensures Inv(s')
  {
    if tid, epoch :| s' == s.(seekers := s.seekers + multiset{Counting(tid, epoch)}) {
      assert SeekOk(Counting(tid, epoch), s.slots);
    } else if p, q :| p in s.seekers && SeekStep(s, p, q) && s' == s.(seekers := Reseek(s.seekers, p, q)) {
      KeepsSeek(s, p, q);
    } else if p :| p in s.seekers && p.Swapping? && p.i < |s.slots| && s.slots[p.i].word == p.word && s' == PinWon(s, p) {
      KeepsPin(s, p);
    } else {
      var i, pin :| 0 <= i < |s.slots| && pin in s.slots[i].pins && s.slots[i].word.readers > 0 && s' == Unpin(s, i, pin);
      KeepsUnpin(s, i, pin);
    }
  }

  // ---------------------------------------------------------------------------------------------
  // The controller
  // ---------------------------------------------------------------------------------------------

  lemma KeepsAllocBegin(s: State, tid: int)
    requires Inv(s) && s.controller.Ready?
    ensures Inv(AllocBegin(s, tid))
  {
    if FirstPosition(s.count, Holds(s, tid)) == s.count {
      assert forall j :: 0 <= j < s.count ==> !Holds(s, tid)(j);
      forall i | 0 <= i < |s.slots| && s.slots[i].word.open ensures s.slots[i].tid != tid {
        var j :| 0 <= j < s.count && s.indices[j] == i;
        assert !Holds(s, tid)(j);
      }
      var position := FirstPosition(s.count, Idle(s));
      if position < s.count {
        assert Idle(s)(position);
      }
    }
  }

  lemma KeepsAllocScan(s: State)
    requires Inv(s) && s.controller.Scanning? && s.controller.i < |s.slots|
    ensures Inv(AllocScan(s))
  {
    var c := s.controller;
    var mapped := FirstPosition(s.count, MapsTo(s.indices, c.i));
    assert mapped < s.count ==> MapsTo(s.indices, c.i)(mapped);
    forall j | 0 <= j < mapped ensures s.indices[j] != c.i {
      assert !MapsTo(s.indices, c.i)(j);
    }
  }

  /** Rewriting a closed, unpinned slot that stays closed disturbs no one. */
  lemma ReusableKeepsOpen(c: Controller, slots: seq<Slot>, indices: seq<nat>, count: nat, epoch: nat, i: nat, slot: Slot)
    requires count <= |indices| && OpenOk(c, slots, indices, count, epoch)
    requires i < |slots| && !slot.word.open
    ensures OpenOk(c, slots[i := slot], indices, count, epoch)
  {
  }

  lemma KeepsAllocName(s: State)
    requires Inv(s) && s.controller.Naming? && s.controller.i < |s.slots|
    ensures Inv(AllocName(s))
  {
    var i := s.controller.i;
    var slot := s.slots[i].(tid := s.controller.tid);
    assert SlotOk(s.slots[i], s.nextTicket);
    ReusableKeepsOpen(s.controller, s.slots, s.indices, s.count, s.epoch, i, slot);
    AgingKeepsSeekers(s.seekers, s.slots, i, slot);
  }

  lemma KeepsAllocDate(s: State)
    requires Inv(s) && s.controller.Dating? && s.controller.i < |s.slots|
    ensures Inv(AllocDate(s))
  {
    var i := s.controller.i;
    var slot := s.slots[i].(epoch := s.epoch);
    assert SlotOk(s.slots[i], s.nextTicket);
    ReusableKeepsOpen(s.controller, s.slots, s.indices, s.count, s.epoch, i, slot);
    AgingKeepsSeekers(s.seekers, s.slots, i, slot);
  }

  lemma KeepsAllocOpen(s: State)
    requires Inv(s) && s.controller.Opening? && s.controller.i < |s.slots|
    ensures Inv(AllocOpen(s))
  {
    var i := s.controller.i;
    var slot := s.slots[i].(word := Word(s.nextTicket, true, 0));
    assert SlotOk(s.slots[i], s.nextTicket);
    AgingKeepsSeekers(s.seekers, s.slots, i, slot);
  }

  lemma KeepsAllocMap(s: State)
    requires Inv(s) && s.controller.Mapping? && s.controller.position < |s.indices|
    ensures Inv(AllocMap(s))
  {
    var c, s' := s.controller, AllocMap(s);
    forall i | 0 <= i < |s.slots| && s.slots[i].word.open ensures i in s'.indices[..s.count] || BeingMapped(s'.controller, i) {
      if i in s.indices[..s.count] && i != c.i {
        var j :| 0 <= j < s.count && s.indices[j] == i;
        assert s'.indices[..s.count][j] == i;
      }
    }
  }

  lemma KeepsAllocGrow(s: State)
    requires Inv(s) && s.controller.Growing?
    ensures Inv(AllocGrow(s))
  {
    var c, s' := s.controller, AllocGrow(s);
    assert s'.indices[..s'.count][c.position] == c.i;
    assert forall i :: i in s.indices[..s.count] ==> i in s.indices[..s'.count];
  }

  lemma AllocKeeps(s: State, s': State)
    requires Inv(s) && AllocStep(s, s')
    ensures Inv(s')
  {
    match s.controller
    case Ready =>
      var tid :| s' == AllocBegin(s, tid);
      KeepsAllocBegin(s, tid);
    case Scanning(_, _, i) => if i < |s.slots| { KeepsAllocScan(s); }
    case Naming(_, _, _) => KeepsAllocName(s);
    case Dating(_, _, _) => KeepsAllocDate(s);
    case Opening(_, _, _) => KeepsAllocOpen(s);
    case Mapping(_, _, _) => KeepsAllocMap(s);
    case Growing(_, _, _) => KeepsAllocGrow(s);
    case Clearing(_) =>
  }

  lemma KeepsClose(s: State, i: nat)
    requires Inv(s) && (s.controller.Ready? || s.controller.Clearing?) && i < |s.slots|
    ensures Inv(Close(s, i))
  {
    var slot := s.slots[i].(word := s.slots[i].word.(open := false));
    assert SlotOk(s.slots[i], s.nextTicket);
    ReusableKeepsOpen(s.controller, s.slots, s.indices, s.count, s.epoch, i, slot);
    AgingKeepsSeekers(s.seekers, s.slots, i, slot);
  }

  /** When the clearing loop is done, no slot is open. */
  lemma ClearedAll(s: State)
    requires Inv(s) && s.controller.Clearing? && s.controller.j >= s.count
    ensures forall i :: 0 <= i < |s.slots| ==> !s.slots[i].word.open
  {
    forall i | 0 <= i < |s.slots| ensures !s.slots[i].word.open {
      if i in s.indices[..s.count] {
        var j :| 0 <= j < s.count && s.indices[j] == i;
        assert !s.slots[s.indices[j]].word.open;
      }
    }
  }

  lemma CloseKeeps(s: State, s': State)
    requires Inv(s) && CloseStep(s, s')
    ensures Inv(s')
  {
    if i :| s.controller.Ready? && 0 <= i < |s.slots| && s' == Close(s, i) {
      KeepsClose(s, i);
    } else if s.controller.Clearing? && s.controller.j < s.count {
      KeepsClose(s, s.indices[s.controller.j]);
    } else if s.controller.Clearing? {
      ClearedAll(s);
    }
  }

  // ---------------------------------------------------------------------------------------------
  // Every run
  // ---------------------------------------------------------------------------------------------

  lemma NextKeeps(s: State, s': State)
    requires Inv(s) && Next(s, s')
    ensures Inv(s')
  {
    if AllocStep(s, s') { AllocKeeps(s, s'); }
    else if CloseStep(s, s') { CloseKeeps(s, s'); }
    else { HandlerKeeps(s, s'); }
  }

  lemma RunKeeps(run: seq<State>, k: nat)
    requires IsRun(Init, Next, run) && k < |run|
    ensures Inv(run[k])
  {
    forall s, s' | Inv(s) && Next(s, s') ensures Inv(s') { NextKeeps(s, s'); }
    AlwaysOnRun(Init, Next, Inv, run, k);
  }

  /** While a handler holds its pin, the slot keeps the thread, epoch and allocation it was pinned for. */
  lemma PinnedIdentityIsStable(run: seq<State>, k: nat, i: nat, pin: Pin)
    requires IsRun(Init, Next, run) && k < |run| && i < |run[k].slots| && pin in run[k].slots[i].pins
    ensures var slot := run[k].slots[i];
      slot.tid == pin.tid && slot.epoch == pin.epoch && slot.word.tag == pin.tag && slot.word.readers > 0
  {
    RunKeeps(run, k);
    assert SlotOk(run[k].slots[i], run[k].nextTicket);
  }

  /** A successful pin is on the open slot of exactly the thread and epoch the handler asked for. */
  lemma PinFindsItsSlot(run: seq<State>, k: nat, p: Seek)
    requires IsRun(Init, Next, run) && k < |run| && p in run[k].seekers && p.Swapping?
    requires p.i < |run[k].slots| && run[k].slots[p.i].word == p.word
    ensures var slot := run[k].slots[p.i];
      slot.word.open && slot.tid == p.tid && slot.epoch == p.epoch == run[k].epoch && slot.word.readers < MAX_READERS
  {
    RunKeeps(run, k);
    assert SeekOk(p, run[k].slots);
  }

  /** The map from current positions to slots is injective, and no thread has two open slots. */
  lemma MapIsInjective(run: seq<State>, k: nat)
    requires IsRun(Init, Next, run) && k < |run|
    ensures Injective(run[k].indices, run[k].count)
    ensures forall i, j :: 0 <= i < j < |run[k].slots| && run[k].slots[i].word.open && run[k].slots[j].word.open ==>
      run[k].slots[i].tid != run[k].slots[j].tid
  {
    RunKeeps(run, k);
  }

  /** The reader count is the number of handlers that hold a pin, and never reaches the tag bits. */
  lemma ReadersAreCounted(run: seq<State>, k: nat, i: nat)
    requires IsRun(Init, Next, run) && k < |run| && i < |run[k].slots|
    ensures run[k].slots[i].word.readers == |run[k].slots[i].pins| <= MAX_READERS
  {
    RunKeeps(run, k);
    assert SlotOk(run[k].slots[i], run[k].nextTicket);
  }

  /** Once the slots are cleared none is open, until the next epoch allocates. */
  lemma ClearClosesEverything(run: seq<State>, k: nat, i: nat)
    requires IsRun(Init, Next, run) && k < |run| && i < |run[k].slots|
    requires run[k].controller.Clearing? && run[k].controller.j >= run[k].count
    ensures !run[k].slots[i].word.open
  {
    RunKeeps(run, k);
    ClearedAll(run[k]);
  }

  // ---------------------------------------------------------------------------------------------
  // What is not found is not there
  // ---------------------------------------------------------------------------------------------

  /** Why a handler may pass over the entry it is at: the slot does not match, or changed under its eyes. */
  predicate Mismatch(p: Seek, slots: seq<Slot>)
    requires !p.Counting? && !p.Indexing? && p.i < |slots|
  {
    var slot := slots[p.i];
    || (p.Peeking? && (!slot.word.open || slot.word.readers == MAX_READERS))
    || (p.AskingEpoch? && slot.epoch != p.epoch)
    || (p.AskingTid? && slot.tid != p.tid)
    || (p.Swapping? && slot.word != p.word)
  }

  /** A handler goes through the map entry by entry, and passes over an entry only for a mismatch. */
  lemma NoEntryIsSkipped(run: seq<State>, k: nat, p: Seek, q: Seek)
    requires IsRun(Init, Next, run) && k < |run| && p in run[k].seekers && SeekStep(run[k], p, Some(q))
    ensures !q.Counting? && q.tid == p.tid && q.epoch == p.epoch
    ensures p.Counting? ==> q == Indexing(p.tid, p.epoch, run[k].count, 0)
    ensures !p.Counting? ==> q.n == p.n && (q.j == p.j || q.j == p.j + 1)
    ensures !p.Counting? && q.j == p.j + 1 ==> !p.Indexing? && p.i < |run[k].slots| && Mismatch(p, run[k].slots)
  {
    RunKeeps(run, k);
    assert SeekOk(p, run[k].slots);
  }

  /** A handler that finds no slot counted no entries, or is past the last one it counted. */
  lemma FailedSeekIsAtTheEnd(run: seq<State>, k: nat, p: Seek)
    requires IsRun(Init, Next, run) && k < |run| && p in run[k].seekers && SeekStep(run[k], p, None)
    ensures p.Counting? ==> run[k].count == 0
    ensures !p.Counting? ==> p.j + 1 == p.n && !p.Indexing? && p.i < |run[k].slots| && Mismatch(p, run[k].slots)
  {
    RunKeeps(run, k);
    assert SeekOk(p, run[k].slots);
  }

  /** A finished allocation leaves an open slot of its thread and the current epoch on the map. */
  lemma AllocatedSlotIsOnTheMap(run: seq<State>, k: nat)
    requires IsRun(Init, Next, run) && k + 1 < |run| && run[k].controller.Growing? && run[k + 1].controller.Ready?
    ensures var s := run[k + 1];
      exists j :: 0 <= j < s.count && j < |s.indices| && s.indices[j] < |s.slots| && IsFor(s.slots[s.indices[j]], run[k].controller.tid, s.epoch)
  {
    RunKeeps(run, k);
    var s, s' := run[k], run[k + 1];
    assert Next(s, s');
    GrowingEnds(s, s');
    assert s'.indices[s.controller.position] == s.controller.i && IsFor(s'.slots[s.controller.i], s.controller.tid, s'.epoch);
  }

  predicate IsFor(slot: Slot, tid: int, epoch: nat) { slot.word.open && slot.tid == tid && slot.epoch == epoch }

  lemma GrowingEnds(s: State, s': State)
    requires Next(s, s') && s.controller.Growing? && s'.controller.Ready?
    ensures s' == AllocGrow(s)
  {
  }

  predicate ClosedAt(s: State, j: nat) { j < |s.indices| && s.indices[j] < |s.slots| && !s.slots[s.indices[j]].word.open }

  /** An allocation begins exactly when its thread has no open slot and the map has a place for one. */
  lemma AllocationBeginsExactly(run: seq<State>, k: nat, tid: int)
    requires IsRun(Init, Next, run) && k < |run| && run[k].controller.Ready?
    ensures var s := run[k];
      AllocBegin(s, tid).controller.Scanning? <==>
        && (forall i :: 0 <= i < |s.slots| && s.slots[i].word.open ==> s.slots[i].tid != tid)
        && (s.count < MAX_THREADS || exists j :: 0 <= j < s.count && ClosedAt(s, j))
  {
    var s := run[k];
    RunKeeps(run, k);
    OnTheMap(s, tid);
    var held, idle := FirstPosition(s.count, Holds(s, tid)), FirstPosition(s.count, Idle(s));
    if held < s.count { assert s.slots[s.indices[held]].word.open && s.slots[s.indices[held]].tid == tid; }
    if idle < s.count { assert ClosedAt(s, idle); }
    if j :| 0 <= j < s.count && ClosedAt(s, j) { assert Idle(s)(j); }
  }

  /** Between allocations, a thread with an open slot has one on the map. */
  lemma OnTheMap(s: State, tid: int)
    requires Inv(s) && s.controller.Ready?
    ensures (exists i :: 0 <= i < |s.slots| && s.slots[i].word.open && s.slots[i].tid == tid) ==> FirstPosition(s.count, Holds(s, tid)) < s.count
  {
    if i :| 0 <= i < |s.slots| && s.slots[i].word.open && s.slots[i].tid == tid {
      assert i in s.indices[..s.count];
      var j :| 0 <= j < s.count && s.indices[..s.count][j] == i;
      assert Holds(s, tid)(j);
    }
  }

  /** An allocation passes over a slot only while that slot is open or pinned, and gives up only past the last. */
  lemma AllocationSkipsOnlyBusySlots(run: seq<State>, k: nat)
    requires IsRun(Init, Next, run) && k + 1 < |run| && run[k].controller.Scanning? && run[k + 1].controller != run[k].controller
    ensures var s, c, c' := run[k], run[k].controller, run[k + 1].controller;
      if c.i >= |s.slots| then c'.Ready?
      else if s.slots[c.i].word.open || s.slots[c.i].word.readers != 0 then c' == Scanning(c.tid, c.position, c.i + 1)
      else c'.Naming? && c'.tid == c.tid && c'.i == c.i
  {
    assert Next(run[k], run[k + 1]);
  }

  // ---------------------------------------------------------------------------------------------
  // Packing
  // ---------------------------------------------------------------------------------------------

  function Pack(w: Word): nat { w.tag * 65536 + w.readers * 2 + (if w.open then 1 else 0) }

  predicate Fits(w: Word) { w.readers <= MAX_READERS }

  /** Comparing packed words compares tag, readers and the open bit together. */
  lemma PackIsInjective(w: Word, w': Word)
    requires Fits(w) && Fits(w')
    ensures Pack(w) == Pack(w') <==> w == w'
  {
  }

  /** Arithmetic on a packed word: adding a reader, dropping one, clearing the open bit. */
  lemma PackedUpdates(w: Word)
    requires Fits(w)
    ensures w.readers < MAX_READERS ==> Pack(w) + 2 == Pack(w.(readers := w.readers + 1)) && Fits(w.(readers := w.readers + 1))
    ensures w.readers > 0 ==> Pack(w) - 2 == Pack(w.(readers := w.readers - 1))
    ensures Pack(w.(open := false)) == Pack(w) - Pack(w) % 2
    ensures Pack(w) % 2 == 1 <==> w.open
    ensures Pack(w) % 65536 / 2 == w.readers
  {
  }

  // ---------------------------------------------------------------------------------------------
  // Nobody is stuck
  // ---------------------------------------------------------------------------------------------

  lemma AllocCanStep(s: State)
    requires Inv(s) && !s.controller.Ready? && !s.controller.Clearing?
    ensures exists s' :: AllocStep(s, s') && s'.controller != s.controller
  {
    var s' :=
      match s.controller
      case Scanning(_, _, i) => if i < |s.slots| then AllocScan(s) else s.(controller := Ready)
      case Naming(_, _, _) => AllocName(s)
      case Dating(_, _, _) => AllocDate(s)
      case Opening(_, _, _) => AllocOpen(s)
      case Mapping(_, _, _) => AllocMap(s)
      case Growing(_, _, _) => AllocGrow(s);
    assert AllocStep(s, s') && s'.controller != s.controller;
  }

  lemma ClearCanStep(s: State)
    requires Inv(s) && s.controller.Clearing?
    ensures exists s' :: CloseStep(s, s') && s'.controller != s.controller
  {
    var s' := if s.controller.j < s.count then ClearNext(s) else ClearEnd(s);
    assert CloseStep(s, s') && s'.controller != s.controller;
  }

  /** A controller in the middle of an allocation or of clearing can always go on. */
  lemma ControllerCanStep(run: seq<State>, k: nat)
    requires IsRun(Init, Next, run) && k < |run| && !run[k].controller.Ready?
    ensures exists s' :: Next(run[k], s') && s'.controller != run[k].controller
  {
    RunKeeps(run, k);
    if run[k].controller.Clearing? { ClearCanStep(run[k]); } else { AllocCanStep(run[k]); }
  }

  /** The state in which handler `p` has become `q`, or is gone. */
  function WithSeeker(s: State, p: Seek, q: Option<Seek>): State {
    s.(seekers := s.seekers - multiset{p} + match q { case None => multiset{} case Some(seek) => multiset{seek} })
  }

  /** What a handler that does not pin becomes at its next step. */
  function SeekNext(s: State, p: Seek): Option<Seek>
    requires SeekOk(p, s.slots) && |s.indices| == MAX_THREADS
  {
    var next := NextEntry(p.tid, p.epoch, if p.Counting? then s.count else p.n, if p.Counting? then 0 else p.j + 1);
    match p
    case Counting(_, _) => next
    case Indexing(_, _, _, _) => Some(Peeking(p.tid, p.epoch, p.n, p.j, s.indices[p.j]))
    case Peeking(_, _, _, _, i) =>
      if !s.slots[i].word.open || s.slots[i].word.readers == MAX_READERS then next
      else Some(AskingEpoch(p.tid, p.epoch, p.n, p.j, i, s.slots[i].word))
    case AskingEpoch(_, _, _, _, i, _) => if s.slots[i].epoch != p.epoch then next else Some(AskingTid(p.tid, p.epoch, p.n, p.j, i, p.word))
    case AskingTid(_, _, _, _, i, _) => if s.slots[i].tid != p.tid then next else Some(Swapping(p.tid, p.epoch, p.n, p.j, i, p.word))
    case Swapping(_, _, _, _, _, _) => next
  }

  lemma SeekStepsOn(s: State, p: Seek)
    requires SeekOk(p, s.slots) && |s.indices| == MAX_THREADS && (p.Swapping? ==> s.slots[p.i].word != p.word)
    ensures SeekStep(s, p, SeekNext(s, p))
  {
  }

  lemma SeekStepIsHandlerStep(s: State, p: Seek, q: Option<Seek>)
    requires p in s.seekers && SeekStep(s, p, q)
    ensures HandlerStep(s, WithSeeker(s, p, q))
  {
    assert WithSeeker(s, p, q) == s.(seekers := Reseek(s.seekers, p, q));
  }

  /** A handler looking for its slot can always go on, or pin the slot it found. */
  lemma SeekerCanStep(run: seq<State>, k: nat, p: Seek)
    requires IsRun(Init, Next, run) && k < |run| && p in run[k].seekers
    ensures
      || (exists q :: SeekStep(run[k], p, q) && HandlerStep(run[k], WithSeeker(run[k], p, q)))
      || (p.Swapping? && p.i < |run[k].slots| && HandlerStep(run[k], PinWon(run[k], p)))
  {
    RunKeeps(run, k);
    var s := run[k];
    assert SeekOk(p, s.slots);
    if p.Swapping? && s.slots[p.i].word == p.word {
      assert HandlerStep(s, PinWon(s, p));
    } else {
      SeekStepsOn(s, p);
      SeekStepIsHandlerStep(s, p, SeekNext(s, p));
    }
  }
}
