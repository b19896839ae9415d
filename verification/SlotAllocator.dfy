/**
 * The CUDA event-slot allocator as a transition system: one atomic access per step, any number of
 * threads. A slot in transition is worked on by exactly one thread, so that thread's position is kept
 * with the slot (`work`); threads that hold no slot yet are kept in `seekers`. `lists`, `peak`,
 * `totalPeak` and an acquire's `empty` record history and are never read by a step.
 */
module SlotAllocator {
  import opened Common

  const SHARDS: nat := 256

  datatype SlotState = Unassigned | Leased | Free

  datatype Lease = Lease(index: nat, generation: nat, context: nat, shard: nat)

  /** A free-list head: index and change tag of a packed word. */
  datatype Head = Head(index: Option<nat>, tag: nat)

  /** Where the one thread that has a slot stands. */
  datatype Work =
    | Untouched
    | Reserved(context: nat, shard: nat)      // writes the slot's context and shard
    | Branded                                 // stores the leased state
    | Assigning                               // counts the assigned slot
    | Popped                                  // swaps free for leased
    | Regenerating                            // bumps the generation
    | Counting                                // counts the active slot
    | Raising(active: int)                    // loads the high-water mark
    | RaiseSwap(active: int, seen: int)       // swaps the high-water mark
    | Out                                     // the lease is with the caller
    | Checking(lease: Lease)                  // compares the lease with the slot
    | Handing(lease: Lease)                   // counts the handoff
    | Freeing(lease: Lease)                   // swaps leased for free
    | Looking(lease: Lease, offset: nat)      // probes the context table
    | Uncounting(lease: Lease, bucket: nat)   // uncounts the active slot
    | PushLoad(list: nat)                     // loads the list head
    | PushStore(list: nat, head: Head)        // stores the successor
    | PushSwap(list: nat, head: Head)         // swaps the list head
    | Listed(list: nat)
    | Lost                                    // an operation gave up with the slot in its hands

  datatype Cell = Cell(next: Option<nat>, generation: nat, context: nat, shard: nat, state: SlotState, work: Work)

  /** An acquire that found its context; `empty` are the lists it has seen empty. */
  datatype Acquire = Acquire(context: nat, shard: nat, bucket: nat, empty: set<nat>)

  /** Where an acquiring thread without a slot stands. */
  datatype Seek =
    | Probing(context: nat, shard: nat, offset: nat)
    | Claiming(context: nat, shard: nat, offset: nat)
    | Popping(a: Acquire, at: nat)
    | Following(a: Acquire, at: nat, head: Head)
    | Swapping(a: Acquire, at: nat, head: Head, next: Option<nat>)
    | Reserving(a: Acquire)
    | Bumping(a: Acquire, index: nat)

  /** A count of active slots under way: the next shard, and whether its active half was read. */
  datatype Scan = NoScan | Scan(quiet: bool, shard: nat, half: bool, total: int)

  datatype State = State(
    hash: nat -> nat,
    contexts: seq<nat>,
    heads: seq<Head>,
    cells: seq<Cell>,
    nextUnassigned: nat,
    assignedSlots: nat,
    active: seq<int>,
    handoff: seq<int>,
    high: seq<int>,
    seekers: multiset<Seek>,
    finishing: multiset<nat>,   // releases that only have the handoff left to uncount, by shard
    leases: multiset<Lease>,
    closed: bool,               // no acquire can start
    scan: Scan,
    lists: seq<seq<nat>>,
    peak: seq<int>,
    totalPeak: int)

  // ---------------------------------------------------------------------------------------------
  // The context table
  // ---------------------------------------------------------------------------------------------

  /** The position probed at `offset`. */
  function ProbeAt(start: nat, offset: nat, size: nat): (p: nat)
    requires start < size && offset < size
    ensures p < size && p == (start + offset) % size
  {
    WrapsOnce(start + offset, size);
    if start + offset < size then start + offset else start + offset - size
  }

  lemma WrapsOnce(i: nat, size: nat)
    requires i < 2 * size
    ensures i % size == if i < size then i else i - size
  {
    if i >= size {
      var q, r := i / size, i % size;
      assert i == q * size + r;
      MultipleBounds(q, size);
    }
  }

  lemma MultipleBounds(q: int, size: nat)
    ensures q >= 2 ==> q * size >= 2 * size
    ensures q <= 0 ==> q * size <= 0
  {
  }

  function Start(hash: nat -> nat, context: nat, size: nat): (s: nat)
    requires size > 0
    ensures s < size
  {
    hash(context) % size
  }

  /** The offset at which a probe from `start` reaches position `p`. */
  function OffsetOf(start: nat, p: nat, size: nat): (o: nat)
    requires start < size && p < size
    ensures o < size && ProbeAt(start, o, size) == p
    ensures forall k :: 0 <= k < size && ProbeAt(start, k, size) == p ==> k == o
  {
    if p >= start then p - start else p + size - start
  }

  /** The first `n` probes from `start` meet neither a free entry nor the context. */
  predicate Passed(contexts: seq<nat>, start: nat, n: nat, context: nat)
    requires start < |contexts| && n <= |contexts|
  {
    forall k :: 0 <= k < n ==>
      var current := contexts[ProbeAt(start, k, |contexts|)];
      current != 0 && current != context
  }

  // ---------------------------------------------------------------------------------------------
  // Steps of a thread that holds a slot
  // ---------------------------------------------------------------------------------------------

  function LeaseOf(i: nat, c: Cell): Lease { Lease(i, c.generation, c.context, c.shard) }

  function ListIndex(bucket: nat, shard: nat): nat { bucket * SHARDS + shard }

  predicate Matches(c: Cell, lease: Lease) {
    c.context == lease.context && c.shard == lease.shard && c.generation == lease.generation
  }

  /** What the context lookup of a release does next. */
  function Looked(contexts: seq<nat>, hash: nat -> nat, lease: Lease, offset: nat): Work
    requires |contexts| > 0 && offset < |contexts|
  {
    var current := contexts[ProbeAt(Start(hash, lease.context, |contexts|), offset, |contexts|)];
    if current == lease.context then Uncounting(lease, ProbeAt(Start(hash, lease.context, |contexts|), offset, |contexts|))
    else if current == 0 || offset + 1 == |contexts| then Lost
    else Looking(lease, offset + 1)
  }

  // Steps that touch only the slot, reading shared state at most.

  ghost predicate AcquireLocal(c: Cell, c': Cell) {
    || (c.work.Reserved? && c' == c.(context := c.work.context, shard := c.work.shard,
                                     generation := c.generation + 1, work := Branded))
    || (c.work.Branded? && c' == c.(state := Leased, work := Assigning))
    || (c.work.Popped? && c' == if c.state == Free then c.(state := Leased, work := Regenerating) else c.(work := Lost))
    || (c.work.Regenerating? && c' == c.(generation := c.generation + 1, work := Counting))
  }

  ghost predicate ReleaseLocal(contexts: seq<nat>, hash: nat -> nat, c: Cell, c': Cell) {
    || (c.work.Checking? && c' == c.(work := if Matches(c, c.work.lease) then Handing(c.work.lease) else Lost))
    || (c.work.Freeing? && c' == if c.state == Leased then c.(state := Free, work := Looking(c.work.lease, 0)) else c.(work := Lost))
    || (c.work.Looking? && c.work.offset < |contexts|
        && c' == c.(work := Looked(contexts, hash, c.work.lease, c.work.offset)))
  }

  ghost predicate PushLocal(heads: seq<Head>, c: Cell, c': Cell) {
    || ((c.work.PushLoad? || c.work.PushSwap?) && c.work.list < |heads|
        && c' == c.(work := PushStore(c.work.list, heads[c.work.list])))
    || (c.work.PushStore? && c' == c.(next := c.work.head.index, work := PushSwap(c.work.list, c.work.head)))
  }

  ghost predicate LocalStep(contexts: seq<nat>, hash: nat -> nat, heads: seq<Head>, c: Cell, c': Cell) {
    AcquireLocal(c, c') || ReleaseLocal(contexts, hash, c, c') || PushLocal(heads, c, c')
  }

  function WithCell(s: State, i: nat, c: Cell): State
    requires i < |s.cells|
  {
    s.(cells := s.cells[i := c])
  }

  function WithWork(s: State, i: nat, w: Work): State
    requires i < |s.cells|
  {
    s.(cells := s.cells[i := s.cells[i].(work := w)])
  }

  function Assign(s: State, i: nat): State
    requires i < |s.cells|
  {
    WithWork(s, i, Counting).(assignedSlots := s.assignedSlots + 1)
  }

  function Bump(a: seq<int>, k: nat, delta: int): seq<int> {
    if k < |a| then a[k := a[k] + delta] else a
  }

  function Max(a: int, b: int): int { if a < b then b else a }

  function Sum(a: seq<int>): int { if a == [] then 0 else a[0] + Sum(a[1..]) }

  /** Counts the slot as active and remembers the count that the high-water mark must reach. */
  function CountUp(s: State, i: nat): State
    requires i < |s.cells| && s.cells[i].shard < |s.active| == |s.peak|
  {
    var sh := s.cells[i].shard;
    var active := Bump(s.active, sh, 1);
    WithWork(s, i, Raising(active[sh])).(
      active := active,
      peak := s.peak[sh := Max(s.peak[sh], active[sh])],
      totalPeak := Max(s.totalPeak, Sum(active)))
  }

  /** The acquire returns its lease. */
  function HandOut(s: State, i: nat): State
    requires i < |s.cells|
  {
    WithWork(s, i, Out).(leases := s.leases + multiset{LeaseOf(i, s.cells[i])})
  }

  function RaiseLoad(s: State, i: nat): State
    requires i < |s.cells| && s.cells[i].work.Raising? && s.cells[i].shard < |s.high|
  {
    var w, seen := s.cells[i].work, s.high[s.cells[i].shard];
    if seen < w.active then WithWork(s, i, RaiseSwap(w.active, seen)) else HandOut(s, i)
  }

  function RaiseWon(s: State, i: nat): State
    requires i < |s.cells| && s.cells[i].work.RaiseSwap? && s.cells[i].shard < |s.high|
  {
    HandOut(s, i).(high := s.high[s.cells[i].shard := s.cells[i].work.active])
  }

  /** A failed swap leaves the value it saw behind, which may already be high enough. */
  function RaiseFailed(s: State, i: nat): State
    requires i < |s.cells| && s.cells[i].work.RaiseSwap? && s.cells[i].shard < |s.high|
  {
    var w, seen := s.cells[i].work, s.high[s.cells[i].shard];
    if seen < w.active then WithWork(s, i, RaiseSwap(w.active, seen)) else HandOut(s, i)
  }

  function ReleaseStart(s: State, lease: Lease): State
    requires lease.index < |s.cells|
  {
    WithWork(s, lease.index, Checking(lease)).(leases := s.leases - multiset{lease})
  }

  function HandOff(s: State, i: nat): State
    requires i < |s.cells| && s.cells[i].work.Handing?
  {
    WithWork(s, i, Freeing(s.cells[i].work.lease)).(handoff := Bump(s.handoff, s.cells[i].work.lease.shard, 1))
  }

  function Uncount(s: State, i: nat): State
    requires i < |s.cells| && s.cells[i].work.Uncounting?
  {
    var w := s.cells[i].work;
    WithWork(s, i, PushLoad(ListIndex(w.bucket, w.lease.shard))).(active := Bump(s.active, w.lease.shard, -1))
  }

  /** The swap that puts the slot on its list. */
  function PushWon(s: State, i: nat): State
    requires i < |s.cells| && s.cells[i].work.PushSwap?
    requires s.cells[i].work.list < |s.heads| == |s.lists|
  {
    var l, head := s.cells[i].work.list, s.cells[i].work.head;
    WithWork(s, i, Listed(l)).(
      heads := s.heads[l := Head(Some(i), head.tag + 1)],
      lists := s.lists[l := [i] + s.lists[l]],
      finishing := s.finishing + multiset{s.cells[i].shard})
  }

  function Finish(s: State, shard: nat): State {
    s.(finishing := s.finishing - multiset{shard}, handoff := Bump(s.handoff, shard, -1))
  }

  ghost predicate HolderStep(s: State, s': State, i: nat)
    requires i < |s.cells|
  {
    var c := s.cells[i];
    || (exists c' :: LocalStep(s.contexts, s.hash, s.heads, c, c') && s' == WithCell(s, i, c'))
    || (c.work.Assigning? && s' == Assign(s, i))
    || (c.work.Counting? && c.shard < |s.active| == |s.peak| && s' == CountUp(s, i))
    || (c.work.Raising? && c.shard < |s.high| && s' == RaiseLoad(s, i))
    || (c.work.RaiseSwap? && c.shard < |s.high| && s.high[c.shard] == c.work.seen && s' == RaiseWon(s, i))
    || (c.work.RaiseSwap? && c.shard < |s.high| && s' == RaiseFailed(s, i))
    || (c.work.Handing? && s' == HandOff(s, i))
    || (c.work.Uncounting? && s' == Uncount(s, i))
    || (c.work.PushSwap? && c.work.list < |s.heads| == |s.lists| && s.heads[c.work.list] == c.work.head && s' == PushWon(s, i))
  }

  // ---------------------------------------------------------------------------------------------
  // Steps of an acquiring thread without a slot
  // ---------------------------------------------------------------------------------------------

  function AcquireList(a: Acquire, at: nat): nat { ListIndex(a.bucket, (a.shard + at) % SHARDS) }

  /** A list that yields nothing sends the acquire to the unassigned slots, then to the other shards. */
  function AfterPop(a: Acquire, at: nat): Option<Seek> {
    if at == 0 then Some(Reserving(a))
    else if at + 1 < SHARDS then Some(Popping(a, at + 1))
    else None
  }

  function SawEmpty(a: Acquire, at: nat): Acquire { a.(empty := a.empty + {AcquireList(a, at)}) }

  function Follow(a: Acquire, at: nat, head: Head): Option<Seek> {
    if head.index.None? then AfterPop(SawEmpty(a, at), at) else Some(Following(a, at, head))
  }

  function NextProbe(context: nat, shard: nat, offset: nat, size: nat): Option<Seek> {
    if offset + 1 < size then Some(Probing(context, shard, offset + 1)) else None
  }

  function Probed(contexts: seq<nat>, hash: nat -> nat, p: Seek): Option<Seek>
    requires |contexts| > 0 && (p.Probing? || p.Claiming?) && p.offset < |contexts|
  {
    var at := ProbeAt(Start(hash, p.context, |contexts|), p.offset, |contexts|);
    if contexts[at] == p.context then Some(Popping(Acquire(p.context, p.shard, at, {}), 0))
    else if p.Probing? && contexts[at] == 0 then Some(Claiming(p.context, p.shard, p.offset))
    else NextProbe(p.context, p.shard, p.offset, |contexts|)
  }

  /** Steps that change nothing but the seeker; `None` means the acquire returns without a slot. */
  ghost predicate SeekStep(s: State, p: Seek, q: Option<Seek>) {
    || ((p.Probing? || p.Claiming?) && 0 <= p.offset < |s.contexts|
        && (p.Claiming? ==> s.contexts[ProbeAt(Start(s.hash, p.context, |s.contexts|), p.offset, |s.contexts|)] != 0)
        && q == Probed(s.contexts, s.hash, p))
    || (p.Popping? && AcquireList(p.a, p.at) < |s.heads| && q == Follow(p.a, p.at, s.heads[AcquireList(p.a, p.at)]))
    || (p.Following? && p.head.index.Some? && p.head.index.value < |s.cells|
        && q == Some(Swapping(p.a, p.at, p.head, s.cells[p.head.index.value].next)))
    || (p.Swapping? && AcquireList(p.a, p.at) < |s.heads| && q == Follow(p.a, p.at, s.heads[AcquireList(p.a, p.at)]))
    || ((p.Reserving? || p.Bumping?)
        && q == if s.nextUnassigned < |s.cells| then Some(Bumping(p.a, s.nextUnassigned)) else Some(Popping(p.a, 1)))
  }

  function Reseek(seekers: multiset<Seek>, p: Seek, q: Option<Seek>): multiset<Seek> {
    if q.Some? then seekers - multiset{p} + multiset{q.value} else seekers - multiset{p}
  }

  function AcquireStart(s: State, context: nat, shard: nat): State {
    s.(seekers := s.seekers + multiset{Probing(context, shard % SHARDS, 0)})
  }

  /** Claims the free entry that the probe met. */
  function ClaimWon(s: State, p: Seek): State
    requires p.Claiming? && p.offset < |s.contexts|
  {
    var at := ProbeAt(Start(s.hash, p.context, |s.contexts|), p.offset, |s.contexts|);
    s.(contexts := s.contexts[at := p.context],
       seekers := Reseek(s.seekers, p, Some(Popping(Acquire(p.context, p.shard, at, {}), 0))))
  }

  function Rest(t: seq<nat>): seq<nat> { if t == [] then [] else t[1..] }

  /** The swap that takes the first slot off a list. */
  function PopWon(s: State, p: Seek): State
    requires p.Swapping? && p.head.index.Some? && p.head.index.value < |s.cells|
    requires AcquireList(p.a, p.at) < |s.heads| == |s.lists|
  {
    var l := AcquireList(p.a, p.at);
    WithWork(s, p.head.index.value, Popped).(
      heads := s.heads[l := Head(p.next, p.head.tag + 1)],
      lists := s.lists[l := Rest(s.lists[l])],
      seekers := Reseek(s.seekers, p, None))
  }

  function ReserveWon(s: State, p: Seek): State
    requires p.Bumping? && p.index < |s.cells|
  {
    WithWork(s, p.index, Reserved(p.a.context, p.a.shard)).(
      nextUnassigned := p.index + 1,
      seekers := Reseek(s.seekers, p, None))
  }

  ghost predicate SeekerStep(s: State, s': State, p: Seek) {
    || (exists q :: SeekStep(s, p, q) && s' == s.(seekers := Reseek(s.seekers, p, q)))
    || (p.Claiming? && p.offset < |s.contexts|
        && s.contexts[ProbeAt(Start(s.hash, p.context, |s.contexts|), p.offset, |s.contexts|)] == 0
        && s' == ClaimWon(s, p))
    || (p.Swapping? && p.head.index.Some? && p.head.index.value < |s.cells|
        && AcquireList(p.a, p.at) < |s.heads| == |s.lists|
        && s.heads[AcquireList(p.a, p.at)] == p.head && s' == PopWon(s, p))
    || (p.Bumping? && p.index < |s.cells| && s.nextUnassigned == p.index && s' == ReserveWon(s, p))
  }

  // ---------------------------------------------------------------------------------------------
  // Counting the active slots
  // ---------------------------------------------------------------------------------------------

  predicate Acquiring(w: Work) {
    w.Reserved? || w.Branded? || w.Assigning? || w.Popped? || w.Regenerating? || w.Counting? || w.Raising? || w.RaiseSwap?
  }

  /** No acquire is in progress or can start. */
  predicate Frozen(closed: bool, seekers: multiset<Seek>, cells: seq<Cell>) {
    closed && seekers == multiset{} && forall i :: 0 <= i < |cells| ==> !Acquiring(cells[i].work)
  }

  function ScanStart(s: State): State { s.(scan := Scan(Frozen(s.closed, s.seekers, s.cells), 0, false, 0)) }

  function ScanNext(s: State): State
    requires s.scan.Scan? && s.scan.shard < |s.active| == |s.handoff|
  {
    var k := s.scan;
    if k.half then s.(scan := Scan(k.quiet, k.shard + 1, false, k.total + s.handoff[k.shard]))
    else s.(scan := Scan(k.quiet, k.shard, true, k.total + s.active[k.shard]))
  }

  // ---------------------------------------------------------------------------------------------
  // The system
  // ---------------------------------------------------------------------------------------------

  function ContextCapacity(capacity: nat): nat { if capacity < SHARDS then capacity else SHARDS }

  ghost predicate Init(s: State) {
    var size := ContextCapacity(|s.cells|);
    && |s.contexts| == size && (forall j :: 0 <= j < size ==> s.contexts[j] == 0)
    && |s.heads| == |s.lists| == size * SHARDS
    && (forall l :: 0 <= l < |s.heads| ==> s.heads[l] == Head(None, 0) && s.lists[l] == [])
    && (forall i :: 0 <= i < |s.cells| ==> s.cells[i].work == Untouched && s.cells[i].state == Unassigned)
    && s.nextUnassigned == s.assignedSlots == 0
    && |s.active| == |s.handoff| == |s.high| == |s.peak| == SHARDS
    && (forall k :: 0 <= k < SHARDS ==> s.active[k] == s.handoff[k] == s.high[k] == s.peak[k] == 0)
    && s.seekers == multiset{} && s.finishing == multiset{} && s.leases == multiset{}
    && s.scan == NoScan && s.totalPeak == 0
  }

  ghost predicate ThreadStep(s: State, s': State) {
    || (exists context, shard :: !s.closed && context != 0 && |s.contexts| > 0 && s' == AcquireStart(s, context, shard))
    || (exists p :: p in s.seekers && SeekerStep(s, s', p))
    || (exists i :: 0 <= i < |s.cells| && HolderStep(s, s', i))
    || (exists lease :: lease in s.leases && lease.index < |s.cells| && s' == ReleaseStart(s, lease))
    || (exists shard :: shard in s.finishing && s' == Finish(s, shard))
  }

  ghost predicate ControlStep(s: State, s': State) {
    || s' == s.(closed := true)
    || s' == ScanStart(s)
    || (s.scan.Scan? && s.scan.shard < |s.active| == |s.handoff| && s' == ScanNext(s))
  }

  ghost predicate Next(s: State, s': State) { ThreadStep(s, s') || ControlStep(s, s') }
}
