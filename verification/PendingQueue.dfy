/**
 * The sharded hand-off queue from launch wrappers to the harvester: any number of producers push onto
 * per-shard stacks, and one consumer detaches a whole stack, reverses it into its local list and pops
 * from there. One step is one atomic access, or one access to memory only the consumer can reach.
 * `stacks`, `lists`, the consumer's `empty` (the shards this pop passed over),
 * `rest` and `turned`, `content` and `waits` record history.
 */
module PendingQueue {
  import opened Common
  import SlotAllocator

  type Lease = SlotAllocator.Lease
  type Head = SlotAllocator.Head
  const SHARDS: nat := SlotAllocator.SHARDS

  /** Where an entry is: away, with the producer that pushes it, or queued in a shard. */
  datatype Work =
    | Away
    | Loading(shard: nat)
    | Storing(shard: nat, head: Head)
    | Swapping(shard: nat, head: Head)
    | Queued(shard: nat)

  datatype Cell = Cell(next: Option<nat>, lease: Lease, work: Work)

  datatype Consumer =
    | Idle
    | Looking(offset: nat, empty: set<nat>)
    | Detaching(offset: nat, empty: set<nat>, head: Head)
    | Reversing(offset: nat, empty: set<nat>, detached: Option<nat>, reversed: Option<nat>, rest: seq<nat>, turned: seq<nat>)
    | Taking(offset: nat, index: nat)

  datatype State = State(
    cells: seq<Cell>,
    heads: seq<Head>,
    locals: seq<Option<nat>>,
    dequeue: nat,
    consumer: Consumer,
    stacks: seq<seq<nat>>,   // each producer stack, top first
    lists: seq<seq<nat>>,    // each local list, front first
    content: seq<seq<nat>>,  // each shard as one queue, front first
    waits: seq<nat>)         // pops of other shards since the shard was empty or served

  function ShardAt(dequeue: nat, offset: nat): nat { (dequeue + offset) % SHARDS }

  /** How many shards the consumer looks at before this one. */
  function Distance(dequeue: nat, shard: nat): nat
    requires dequeue < SHARDS && shard < SHARDS
  {
    if shard >= dequeue then shard - dequeue else shard + SHARDS - dequeue
  }

  function WithWork(s: State, i: nat, w: Work): State
    requires i < |s.cells|
  {
    s.(cells := s.cells[i := s.cells[i].(work := w)])
  }

  // ---------------------------------------------------------------------------------------------
  // Producers
  // ---------------------------------------------------------------------------------------------

  /** A push stores its lease; one that is out of range is refused without a trace. */
  function PushStart(s: State, lease: Lease): State
    requires lease.index < |s.cells|
  {
    s.(cells := s.cells[lease.index := s.cells[lease.index].(lease := lease, work := Loading(lease.shard))])
  }

  function PushWon(s: State, i: nat): State
    requires i < |s.cells| && s.cells[i].work.Swapping?
    requires s.cells[i].work.shard < |s.heads| == |s.stacks| == |s.content|
  {
    var k := s.cells[i].work.shard;
    WithWork(s, i, Queued(k)).(
      heads := s.heads[k := SlotAllocator.Head(Some(i), s.cells[i].work.head.tag + 1)],
      stacks := s.stacks[k := [i] + s.stacks[k]],
      content := s.content[k := s.content[k] + [i]])
  }

  /** The producer's swap succeeds: from here on the entry is queued. */
  ghost predicate WinsPush(s: State, s': State, i: nat)
    requires i < |s.cells|
  {
    var c := s.cells[i];
    && c.work.Swapping? && c.work.shard < |s.heads| == |s.stacks| == |s.content|
    && s.heads[c.work.shard] == c.work.head && s' == PushWon(s, i)
  }

  /** The producer loads the head, again after a failed swap, or stores its link. */
  ghost predicate WorksOnPush(s: State, s': State, i: nat)
    requires i < |s.cells|
  {
    var c := s.cells[i];
    || ((c.work.Loading? || c.work.Swapping?) && c.work.shard < |s.heads|
        && s' == WithWork(s, i, Storing(c.work.shard, s.heads[c.work.shard])))
    || (c.work.Storing?
        && s' == s.(cells := s.cells[i := c.(next := c.work.head.index, work := Swapping(c.work.shard, c.work.head))]))
  }

  ghost predicate ProducerStep(s: State, s': State, i: nat)
    requires i < |s.cells|
  {
    WorksOnPush(s, s', i) || WinsPush(s, s', i)
  }

  // ---------------------------------------------------------------------------------------------
  // The consumer
  // ---------------------------------------------------------------------------------------------

  predicate ShardReady(s: State, k: nat) {
    k < |s.heads| == |s.locals| == |s.stacks| == |s.lists| == |s.content| == |s.waits|
  }

  /** An empty shard is passed over; the last one ends the pop without a lease. */
  function PassOver(s: State, offset: nat, empty: set<nat>): State {
    s.(consumer := if offset + 1 < SHARDS then Looking(offset + 1, empty + {ShardAt(s.dequeue, offset)}) else Idle)
  }

  /** Looks at the local list first, then at the producers' stack. */
  function Look(s: State): State
    requires s.consumer.Looking? && ShardReady(s, ShardAt(s.dequeue, s.consumer.offset))
  {
    var offset := s.consumer.offset;
    var k := ShardAt(s.dequeue, offset);
    if s.locals[k].Some? then s.(consumer := Taking(offset, s.locals[k].value))
    else if s.heads[k].index.Some? then s.(consumer := Detaching(offset, s.consumer.empty, s.heads[k]))
    else PassOver(s, offset, s.consumer.empty)
  }

  function DetachWon(s: State): State
    requires s.consumer.Detaching? && ShardReady(s, ShardAt(s.dequeue, s.consumer.offset))
  {
    var k, head := ShardAt(s.dequeue, s.consumer.offset), s.consumer.head;
    s.(heads := s.heads[k := SlotAllocator.Head(None, head.tag + 1)],
       stacks := s.stacks[k := []],
       consumer := Reversing(s.consumer.offset, s.consumer.empty, head.index, None, s.stacks[k], []))
  }

  function DetachFailed(s: State): State
    requires s.consumer.Detaching? && ShardReady(s, ShardAt(s.dequeue, s.consumer.offset))
  {
    var k := ShardAt(s.dequeue, s.consumer.offset);
    s.(consumer := if s.heads[k].index.Some? then Detaching(s.consumer.offset, s.consumer.empty, s.heads[k])
                   else Reversing(s.consumer.offset, s.consumer.empty, None, None, [], []))
  }

  function Tail(t: seq<nat>): seq<nat> { if t == [] then [] else t[1..] }

  /** Turns one link of the detached stack around. */
  function ReverseOne(s: State): State
    requires s.consumer.Reversing? && s.consumer.detached.Some? && s.consumer.detached.value < |s.cells|
  {
    var c := s.consumer;
    var i := c.detached.value;
    s.(cells := s.cells[i := s.cells[i].(next := c.reversed)],
       consumer := Reversing(c.offset, c.empty, s.cells[i].next, Some(i), Tail(c.rest), [i] + c.turned))
  }

  /** The reversed stack becomes the local list; an empty one is passed over. */
  function ReverseEnd(s: State): State
    requires s.consumer.Reversing? && ShardReady(s, ShardAt(s.dequeue, s.consumer.offset))
  {
    var c := s.consumer;
    var k := ShardAt(s.dequeue, c.offset);
    var s1 := s.(locals := s.locals[k := c.reversed], lists := s.lists[k := c.turned]);
    if c.reversed.Some? then s1.(consumer := Taking(c.offset, c.reversed.value)) else PassOver(s1, c.offset, c.empty)
  }

  /** After a pop of shard `k`: every other shard with something in it has waited one pop longer. */
  function Waited(waits: seq<nat>, content: seq<seq<nat>>, k: nat): seq<nat>
    requires |waits| == |content|
  {
    seq(|waits|, j requires 0 <= j < |waits| => if j == k || content[j] == [] then 0 else waits[j] + 1)
  }

  function Take(s: State): State
    requires s.consumer.Taking? && s.consumer.index < |s.cells| && ShardReady(s, ShardAt(s.dequeue, s.consumer.offset))
  {
    var i := s.consumer.index;
    var k := ShardAt(s.dequeue, s.consumer.offset);
    WithWork(s, i, Away).(
      locals := s.locals[k := s.cells[i].next],
      lists := s.lists[k := Tail(s.lists[k])],
      content := s.content[k := Tail(s.content[k])],
      waits := Waited(s.waits, s.content, k),
      dequeue := (k + 1) % SHARDS,
      consumer := Idle)
  }

  /** The consumer puts a lease back at the front of its shard. */
  function Requeue(s: State, lease: Lease): State
    requires lease.index < |s.cells| && ShardReady(s, lease.shard)
  {
    var i, k := lease.index, lease.shard;
    s.(cells := s.cells[i := Cell(s.locals[k], lease, Queued(k))],
       locals := s.locals[k := Some(i)],
       lists := s.lists[k := [i] + s.lists[k]],
       content := s.content[k := [i] + s.content[k]])
  }

  /** The pop takes its entry and returns the lease stored with it. */
  ghost predicate Takes(s: State, s': State) {
    var c := s.consumer;
    c.Taking? && c.index < |s.cells| && ShardReady(s, ShardAt(s.dequeue, c.offset)) && s' == Take(s)
  }

  ghost predicate ConsumerStep(s: State, s': State) {
    var c := s.consumer;
    || (c.Idle? && |s.cells| > 0 && s' == s.(consumer := Looking(0, {})))
    || (c.Looking? && ShardReady(s, ShardAt(s.dequeue, c.offset)) && s' == Look(s))
    || (c.Detaching? && ShardReady(s, ShardAt(s.dequeue, c.offset)) && s.heads[ShardAt(s.dequeue, c.offset)] == c.head && s' == DetachWon(s))
    || (c.Detaching? && ShardReady(s, ShardAt(s.dequeue, c.offset)) && s' == DetachFailed(s))
    || (c.Reversing? && c.detached.Some? && c.detached.value < |s.cells| && s' == ReverseOne(s))
    || (c.Reversing? && c.detached.None? && ShardReady(s, ShardAt(s.dequeue, c.offset)) && s' == ReverseEnd(s))
    || Takes(s, s')
  }

  ghost predicate Init(s: State) {
    && |s.heads| == |s.locals| == |s.stacks| == |s.lists| == |s.content| == |s.waits| == SHARDS
    && (forall k :: 0 <= k < SHARDS ==> s.heads[k] == SlotAllocator.Head(None, 0) && s.locals[k] == None)
    && (forall k :: 0 <= k < SHARDS ==> s.stacks[k] == s.lists[k] == s.content[k] == [] && s.waits[k] == 0)
    && (forall i :: 0 <= i < |s.cells| ==> s.cells[i].work == Away)
    && s.dequeue == 0 && s.consumer == Idle
  }

  /** A push begins, only while its slot is not queued already. */
  ghost predicate StartsPush(s: State, s': State, lease: Lease) {
    lease.index < |s.cells| && lease.shard < SHARDS && s.cells[lease.index].work.Away? && s' == PushStart(s, lease)
  }

  /** The consumer puts a lease back, only while its slot is not queued already. */
  ghost predicate PutsBack(s: State, s': State, lease: Lease) {
    s.consumer.Idle? && lease.index < |s.cells| && ShardReady(s, lease.shard) && s.cells[lease.index].work.Away? && s' == Requeue(s, lease)
  }

  ghost predicate Next(s: State, s': State) {
    || (exists lease: Lease :: StartsPush(s, s', lease))
    || (exists i :: 0 <= i < |s.cells| && ProducerStep(s, s', i))
    || ConsumerStep(s, s')
    || (exists lease: Lease :: PutsBack(s, s', lease))
  }
}
