/**
 * The signal backend's slots. One controller allocates, opens and closes slots; any number of signal
 * handlers look for the slot of their thread and epoch and pin it with one compare-and-swap on the
 * slot's lifetime word. One step is one atomic access; loops over state that only the controller
 * writes are one step of the controller.
 */
module SignalSlots {
  import opened Common

  const MAX_THREADS: nat := 4096
  const MAX_READERS: nat := 32767

  /** The lifetime word: allocation ticket, reader count and the open bit. */
  datatype Word = Word(tag: nat, open: bool, readers: nat)

  /** A handler between its pin and its unpin, with the identity it pinned for. */
  datatype Pin = Pin(tid: int, epoch: nat, tag: nat)

  /** `pins` records who the reader count stands for. */
  datatype Slot = Slot(word: Word, epoch: nat, tid: int, pins: multiset<Pin>)

  datatype Controller =
    | Ready
    | Scanning(tid: int, position: nat, i: nat)
    | Naming(tid: int, position: nat, i: nat)
    | Dating(tid: int, position: nat, i: nat)
    | Opening(tid: int, position: nat, i: nat)
    | Mapping(tid: int, position: nat, i: nat)
    | Growing(tid: int, position: nat, i: nat)
    | Clearing(j: nat)

  /** A handler on its way to a pin: the number of map entries it saw and the one it looks at. */
  datatype Seek =
    | Counting(tid: int, epoch: nat)
    | Indexing(tid: int, epoch: nat, n: nat, j: nat)
    | Peeking(tid: int, epoch: nat, n: nat, j: nat, i: nat)
    | AskingEpoch(tid: int, epoch: nat, n: nat, j: nat, i: nat, word: Word)
    | AskingTid(tid: int, epoch: nat, n: nat, j: nat, i: nat, word: Word)
    | Swapping(tid: int, epoch: nat, n: nat, j: nat, i: nat, word: Word)

  datatype State = State(
    slots: seq<Slot>,
    indices: seq<nat>,
    count: nat,
    nextTicket: nat,
    epoch: nat,
    controller: Controller,
    seekers: multiset<Seek>)

  // ---------------------------------------------------------------------------------------------
  // The controller
  // ---------------------------------------------------------------------------------------------

  predicate ActiveIn(slot: Slot, epoch: nat) { slot.word.open && slot.epoch == epoch }

  /** The first map position below `n` that satisfies `p`, or `n`. */
  function FirstPosition(n: nat, p: nat -> bool): (k: nat)
    ensures k <= n && (k < n ==> p(k))
    ensures forall j :: 0 <= j < k ==> !p(j)
  {
    if n == 0 then 0
    else
      var k := FirstPosition(n - 1, p);
      if k < n - 1 then k else if p(n - 1) then n - 1 else n
  }

  predicate MapReady(s: State) { s.count <= |s.indices| && forall j :: 0 <= j < |s.indices| ==> s.indices[j] < |s.slots| }

  function Holds(s: State, tid: int): nat -> bool {
    (j: nat) => j < |s.indices| && s.indices[j] < |s.slots| && ActiveIn(s.slots[s.indices[j]], s.epoch) && s.slots[s.indices[j]].tid == tid
  }

  function Idle(s: State): nat -> bool {
    (j: nat) => j < |s.indices| && s.indices[j] < |s.slots| && !ActiveIn(s.slots[s.indices[j]], s.epoch)
  }

  function MapsTo(indices: seq<nat>, i: nat): nat -> bool { (j: nat) => j < |indices| && indices[j] == i }

  /** Looks for the thread's slot; without one, picks the map position a new slot would take. */
  function AllocBegin(s: State, tid: int): State {
    if FirstPosition(s.count, Holds(s, tid)) < s.count then s
    else
      var position := FirstPosition(s.count, Idle(s));
      if position >= MAX_THREADS then s else s.(controller := Scanning(tid, position, 0))
  }

  /** Skips a slot that is open or pinned; takes any other, at the position that already maps to it if one does. */
  function AllocScan(s: State): State
    requires s.controller.Scanning? && s.controller.i < |s.slots|
  {
    var c := s.controller;
    var word := s.slots[c.i].word;
    if word.open || word.readers != 0 then s.(controller := Scanning(c.tid, c.position, c.i + 1))
    else
      var mapped := FirstPosition(s.count, MapsTo(s.indices, c.i));
      s.(controller := Naming(c.tid, if mapped < s.count then mapped else c.position, c.i))
  }

  function AllocName(s: State): State
    requires s.controller.Naming? && s.controller.i < |s.slots|
  {
    var c := s.controller;
    s.(slots := s.slots[c.i := s.slots[c.i].(tid := c.tid)], controller := Dating(c.tid, c.position, c.i))
  }

  function AllocDate(s: State): State
    requires s.controller.Dating? && s.controller.i < |s.slots|
  {
    var c := s.controller;
    s.(slots := s.slots[c.i := s.slots[c.i].(epoch := s.epoch)], controller := Opening(c.tid, c.position, c.i))
  }

  function AllocOpen(s: State): State
    requires s.controller.Opening? && s.controller.i < |s.slots|
  {
    var c := s.controller;
    s.(slots := s.slots[c.i := s.slots[c.i].(word := Word(s.nextTicket, true, 0))],
       nextTicket := s.nextTicket + 1, controller := Mapping(c.tid, c.position, c.i))
  }

  function AllocMap(s: State): State
    requires s.controller.Mapping? && s.controller.position < |s.indices|
  {
    var c := s.controller;
    s.(indices := s.indices[c.position := c.i], controller := Growing(c.tid, c.position, c.i))
  }

  function AllocGrow(s: State): State
    requires s.controller.Growing?
  {
    s.(count := if s.controller.position == s.count then s.count + 1 else s.count, controller := Ready)
  }

  function Close(s: State, i: nat): State
    requires i < |s.slots|
  {
    s.(slots := s.slots[i := s.slots[i].(word := s.slots[i].word.(open := false))])
  }

  function ClearNext(s: State): State
    requires s.controller.Clearing? && MapReady(s) && s.controller.j < s.count
  {
    Close(s, s.indices[s.controller.j]).(controller := Clearing(s.controller.j + 1))
  }

  /** The map is emptied and the next stop runs under the next epoch. */
  function ClearEnd(s: State): State { s.(count := 0, epoch := s.epoch + 1, controller := Ready) }

  ghost predicate AllocStep(s: State, s': State) {
    || (s.controller.Ready? && exists tid :: s' == AllocBegin(s, tid))
    || (s.controller.Scanning? && s.controller.i < |s.slots| && s' == AllocScan(s))
    || (s.controller.Scanning? && s.controller.i >= |s.slots| && s' == s.(controller := Ready))
    || (s.controller.Naming? && s.controller.i < |s.slots| && s' == AllocName(s))
    || (s.controller.Dating? && s.controller.i < |s.slots| && s' == AllocDate(s))
    || (s.controller.Opening? && s.controller.i < |s.slots| && s' == AllocOpen(s))
    || (s.controller.Mapping? && s.controller.position < |s.indices| && s' == AllocMap(s))
    || (s.controller.Growing? && s' == AllocGrow(s))
  }

  ghost predicate CloseStep(s: State, s': State) {
    || (s.controller.Ready? && exists i :: 0 <= i < |s.slots| && s' == Close(s, i))
    || (s.controller.Ready? && s' == s.(controller := Clearing(0)))
    || (s.controller.Clearing? && MapReady(s) && s.controller.j < s.count && s' == ClearNext(s))
    || (s.controller.Clearing? && s.controller.j >= s.count && s' == ClearEnd(s))
  }

  // ---------------------------------------------------------------------------------------------
  // Handlers
  // ---------------------------------------------------------------------------------------------

  function NextEntry(tid: int, epoch: nat, n: nat, j: nat): Option<Seek> {
    if j < n then Some(Indexing(tid, epoch, n, j)) else None
  }

  /** Steps of a handler that change nothing but the handler; `None` means it found no slot. */
  ghost predicate SeekStep(s: State, p: Seek, q: Option<Seek>) {
    || (p.Counting? && q == NextEntry(p.tid, p.epoch, s.count, 0))
    || (p.Indexing? && p.j < |s.indices| && q == Some(Peeking(p.tid, p.epoch, p.n, p.j, s.indices[p.j])))
    || (p.Peeking? && p.i < |s.slots| &&
        var word := s.slots[p.i].word;
        q == if !word.open || word.readers == MAX_READERS then NextEntry(p.tid, p.epoch, p.n, p.j + 1)
             else Some(AskingEpoch(p.tid, p.epoch, p.n, p.j, p.i, word)))
    || (p.AskingEpoch? && p.i < |s.slots| &&
        q == if s.slots[p.i].epoch != p.epoch then NextEntry(p.tid, p.epoch, p.n, p.j + 1)
             else Some(AskingTid(p.tid, p.epoch, p.n, p.j, p.i, p.word)))
    || (p.AskingTid? && p.i < |s.slots| &&
        q == if s.slots[p.i].tid != p.tid then NextEntry(p.tid, p.epoch, p.n, p.j + 1)
             else Some(Swapping(p.tid, p.epoch, p.n, p.j, p.i, p.word)))
    || (p.Swapping? && p.i < |s.slots| && s.slots[p.i].word != p.word && q == NextEntry(p.tid, p.epoch, p.n, p.j + 1))
  }

  function Reseek(seekers: multiset<Seek>, p: Seek, q: Option<Seek>): multiset<Seek> {
    if q.Some? then seekers - multiset{p} + multiset{q.value} else seekers - multiset{p}
  }

  /** The swap that pins: the word is still the one the handler read. */
  function PinWon(s: State, p: Seek): State
    requires p.Swapping? && p.i < |s.slots|
  {
    var slot := s.slots[p.i];
    s.(slots := s.slots[p.i := slot.(word := p.word.(readers := p.word.readers + 1),
                                     pins := slot.pins + multiset{Pin(p.tid, p.epoch, p.word.tag)})],
       seekers := Reseek(s.seekers, p, None))
  }

  function Unpin(s: State, i: nat, pin: Pin): State
    requires i < |s.slots| && s.slots[i].word.readers > 0
  {
    var slot := s.slots[i];
    s.(slots := s.slots[i := slot.(word := slot.word.(readers := slot.word.readers - 1),
                                   pins := slot.pins - multiset{pin})])
  }

  ghost predicate HandlerStep(s: State, s': State) {
    || (exists tid, epoch :: s' == s.(seekers := s.seekers + multiset{Counting(tid, epoch)}))
    || (exists p, q :: p in s.seekers && SeekStep(s, p, q) && s' == s.(seekers := Reseek(s.seekers, p, q)))
    || (exists p :: p in s.seekers && p.Swapping? && p.i < |s.slots| && s.slots[p.i].word == p.word && s' == PinWon(s, p))
    || (exists i, pin :: 0 <= i < |s.slots| && pin in s.slots[i].pins && s.slots[i].word.readers > 0 && s' == Unpin(s, i, pin))
  }

  // ---------------------------------------------------------------------------------------------
  // The system
  // ---------------------------------------------------------------------------------------------

  ghost predicate Init(s: State) {
    && |s.slots| == |s.indices| == MAX_THREADS
    && (forall i :: 0 <= i < MAX_THREADS ==> s.slots[i].word == Word(0, false, 0) && s.slots[i].pins == multiset{})
    && (forall j :: 0 <= j < MAX_THREADS ==> s.indices[j] == 0)
    && s.count == 0 && s.nextTicket == 1 && s.epoch == 1
    && s.controller == Ready && s.seekers == multiset{}
  }

  ghost predicate Next(s: State, s': State) { AllocStep(s, s') || CloseStep(s, s') || HandlerStep(s, s') }
}
