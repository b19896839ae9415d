/** The invariant of the pending queue, and that every step keeps it. */
module PendingQueueProof {
  import opened Common
  import SlotAllocator
  import opened SlotAllocatorProof
  import opened PendingQueue

  // ---------------------------------------------------------------------------------------------
  // The invariant
  // ---------------------------------------------------------------------------------------------

  function Rev(t: seq<nat>): seq<nat> { if t == [] then [] else Rev(t[1..]) + [t[0]] }

  /** The links from `first` spell out the list. */
  predicate Links(cells: seq<Cell>, first: Option<nat>, list: seq<nat>) {
    first == At(list, 0) && forall k :: 0 <= k < |list| ==> list[k] < |cells| && cells[list[k]].next == At(list, k + 1)
  }

  /** The consumer's part of a shard: what it has not turned yet, then what it has. */
  function Rest(c: Consumer, dequeue: nat, k: nat): seq<nat> {
    if c.Reversing? && k == ShardAt(dequeue, c.offset) then c.rest else []
  }

  function Turned(c: Consumer, dequeue: nat, k: nat): seq<nat> {
    if c.Reversing? && k == ShardAt(dequeue, c.offset) then c.turned else []
  }

  /** A shard's queue: the local list, the consumer's hands, then the producers' stack bottom up. */
  predicate Composed(content: seq<nat>, list: seq<nat>, rest: seq<nat>, turned: seq<nat>, stack: seq<nat>) {
    content == list + (Rev(rest) + turned) + Rev(stack)
  }

  /** The shard's queue lists exactly the entries queued in it, each once. */
  predicate Members(cells: seq<Cell>, content: seq<nat>, k: nat) {
    && Distinct(content)
    && (forall j :: 0 <= j < |content| ==> content[j] < |cells| && cells[content[j]].work == Queued(k))
    && (forall i :: 0 <= i < |cells| && cells[i].work == Queued(k) ==> i in content)
  }

  predicate CellOk(i: nat, c: Cell, heads: seq<Head>)
    requires |heads| == SHARDS
  {
    && (!c.work.Away? ==> c.work.shard < SHARDS && c.lease.index == i && c.lease.shard == c.work.shard)
    && (c.work.Storing? || c.work.Swapping? ==> Seen(c.work.head, heads[c.work.shard]))
    && (c.work.Swapping? ==> c.next == c.work.head.index)
  }

  predicate ConsumerOk(s: State)
    requires Sized(s)
  {
    var c := s.consumer;
    !c.Idle? ==>
      var k := ShardAt(s.dequeue, c.offset);
      && c.offset < SHARDS
      && (c.Detaching? ==> s.stacks[k] != [] && Seen(c.head, s.heads[k]) && s.lists[k] == [])
      && (c.Reversing? ==>
            && s.lists[k] == [] && (c.rest != [] || c.turned != [])
            && Links(s.cells, c.detached, c.rest) && Links(s.cells, c.reversed, c.turned))
      && (c.Taking? ==> s.locals[k] == Some(c.index))
  }

  predicate Sized(s: State) {
    |s.heads| == |s.locals| == |s.stacks| == |s.lists| == |s.content| == |s.waits| == SHARDS && s.dequeue < SHARDS
  }

  predicate ShardOk(s: State, k: nat)
    requires Sized(s) && k < SHARDS
  {
    && Links(s.cells, s.heads[k].index, s.stacks[k])
    && Links(s.cells, s.locals[k], s.lists[k])
    && Composed(s.content[k], s.lists[k], Rest(s.consumer, s.dequeue, k), Turned(s.consumer, s.dequeue, k), s.stacks[k])
    && Members(s.cells, s.content[k], k)
  }

  /** No shard with something in it waits for 256 pops; what this pop has passed has not waited at all. */
  predicate WaitsOk(content: seq<seq<nat>>, waits: seq<nat>, dequeue: nat, c: Consumer)
    requires |content| == |waits| == SHARDS && dequeue < SHARDS
  {
    forall k :: 0 <= k < SHARDS ==>
      && (content[k] == [] ==> waits[k] == 0)
      && waits[k] + Distance(dequeue, k) < SHARDS
      && (!c.Idle? && Distance(dequeue, k) < c.offset ==> waits[k] == 0)
  }

  predicate Inv(s: State) {
    && Sized(s)
    && (forall i :: 0 <= i < |s.cells| ==> CellOk(i, s.cells[i], s.heads))
    && (forall k :: 0 <= k < SHARDS ==> ShardOk(s, k))
    && ConsumerOk(s)
    && WaitsOk(s.content, s.waits, s.dequeue, s.consumer)
  }

  // ---------------------------------------------------------------------------------------------
  // Lists
  // ---------------------------------------------------------------------------------------------

  lemma {:induction false} RevMembers(t: seq<nat>, x: nat)
    ensures x in Rev(t) <==> x in t
    ensures |Rev(t)| == |t|
  {
    if t != [] { RevMembers(t[1..], x); }
  }

  lemma {:induction false} RevPush(x: nat, t: seq<nat>)
    ensures Rev([x] + t) == Rev(t) + [x]
  {
    assert ([x] + t)[1..] == t;
  }

  /** An entry of a composed queue is in one of its parts. */
  lemma ComposedMembers(content: seq<nat>, list: seq<nat>, rest: seq<nat>, turned: seq<nat>, stack: seq<nat>, x: nat)
    requires Composed(content, list, rest, turned, stack)
    ensures x in content <==> x in list || x in rest || x in turned || x in stack
  {
    RevMembers(rest, x);
    RevMembers(stack, x);
  }

  /** Rewriting an entry outside the list leaves its links alone. */
  lemma LinksKept(cells: seq<Cell>, first: Option<nat>, list: seq<nat>, i: nat, c: Cell)
    requires Links(cells, first, list) && i < |cells| && (i !in list || c.next == cells[i].next)
    ensures Links(cells[i := c], first, list)
  {
  }

  lemma MembersKept(cells: seq<Cell>, content: seq<nat>, k: nat, i: nat, c: Cell)
    requires Members(cells, content, k) && i < |cells| && (cells[i].work == Queued(k) <==> c.work == Queued(k))
    ensures Members(cells[i := c], content, k)
  {
  }

  /** An entry queued elsewhere, or not at all, is in no part of the shard. */
  lemma OutsideShard(s: State, k: nat, i: nat)
    requires Sized(s) && k < SHARDS && ShardOk(s, k) && i < |s.cells| && s.cells[i].work != Queued(k)
    ensures i !in s.stacks[k] && i !in s.lists[k] && i !in s.content[k]
    ensures i !in Rest(s.consumer, s.dequeue, k) && i !in Turned(s.consumer, s.dequeue, k)
  {
    ComposedMembers(s.content[k], s.lists[k], Rest(s.consumer, s.dequeue, k), Turned(s.consumer, s.dequeue, k), s.stacks[k], i);
  }

  /** Rewriting an entry that is not in the shard, before and after. */
  lemma ShardKept(s: State, s': State, k: nat, i: nat, c: Cell)
    requires Sized(s) && Sized(s') && k < SHARDS && ShardOk(s, k) && i < |s.cells| && s'.cells == s.cells[i := c]
    requires s.cells[i].work != Queued(k) && c.work != Queued(k)
    requires s'.heads[k] == s.heads[k] && s'.stacks[k] == s.stacks[k] && s'.locals[k] == s.locals[k] && s'.lists[k] == s.lists[k]
    requires s'.content[k] == s.content[k]
    requires Rest(s'.consumer, s'.dequeue, k) == Rest(s.consumer, s.dequeue, k)
    requires Turned(s'.consumer, s'.dequeue, k) == Turned(s.consumer, s.dequeue, k)
    ensures ShardOk(s', k)
  {
    OutsideShard(s, k, i);
    LinksKept(s.cells, s.heads[k].index, s.stacks[k], i, c);
    LinksKept(s.cells, s.locals[k], s.lists[k], i, c);
    MembersKept(s.cells, s.content[k], k, i, c);
  }

  /** The consumer's hands survive the rewriting of an entry that is not in its shard. */
  lemma HandsKept(s: State, i: nat, c: Cell)
    requires Inv(s) && i < |s.cells|
    requires !s.consumer.Idle? ==> s.cells[i].work != Queued(ShardAt(s.dequeue, s.consumer.offset))
    ensures s.consumer.Reversing? ==>
      Links(s.cells[i := c], s.consumer.detached, s.consumer.rest) && Links(s.cells[i := c], s.consumer.reversed, s.consumer.turned)
  {
    if s.consumer.Reversing? {
      var k := ShardAt(s.dequeue, s.consumer.offset);
      OutsideShard(s, k, i);
      LinksKept(s.cells, s.consumer.detached, s.consumer.rest, i, c);
      LinksKept(s.cells, s.consumer.reversed, s.consumer.turned, i, c);
    }
  }

  // ---------------------------------------------------------------------------------------------
  // Producers
  // ---------------------------------------------------------------------------------------------

  /** Steps of a producer before its entry is queued. */
  lemma KeepsUnqueued(s: State, i: nat, c: Cell)
    requires Inv(s) && i < |s.cells| && !s.cells[i].work.Queued? && !c.work.Queued? && CellOk(i, c, s.heads)
    ensures Inv(s.(cells := s.cells[i := c]))
  {
    var s' := s.(cells := s.cells[i := c]);
    forall k | 0 <= k < SHARDS ensures ShardOk(s', k) {
      ShardKept(s, s', k, i, c);
    }
    HandsKept(s, i, c);
  }

  lemma BumpKeepsCell(j: nat, c: Cell, heads: seq<Head>, k: nat, head: Head)
    requires |heads| == SHARDS && CellOk(j, c, heads) && k < SHARDS && head.tag == heads[k].tag + 1
    ensures CellOk(j, c, heads[k := head])
  {
  }

  lemma PushedShard(s: State, i: nat)
    requires Inv(s) && i < |s.cells| && s.cells[i].work.Swapping? && s.heads[s.cells[i].work.shard] == s.cells[i].work.head
    ensures ShardOk(PushWon(s, i), s.cells[i].work.shard)
  {
    var k, s' := s.cells[i].work.shard, PushWon(s, i);
    assert CellOk(i, s.cells[i], s.heads) && ShardOk(s, k);
    OutsideShard(s, k, i);
    LinksKept(s.cells, s.heads[k].index, s.stacks[k], i, s'.cells[i]);
    LinksKept(s.cells, s.locals[k], s.lists[k], i, s'.cells[i]);
    RevPush(i, s.stacks[k]);
    assert s'.content[k] == s.lists[k] + (Rev(Rest(s.consumer, s.dequeue, k)) + Turned(s.consumer, s.dequeue, k)) + (Rev(s.stacks[k]) + [i]);
    PushedLinks(s'.cells, s.heads[k].index, s.stacks[k], i);
    PushedMembers(s.cells, s.content[k], k, i, s'.cells[i]);
  }

  lemma PushedLinks(cells: seq<Cell>, first: Option<nat>, list: seq<nat>, i: nat)
    requires Links(cells, first, list) && i < |cells| && cells[i].next == first
    ensures Links(cells, Some(i), [i] + list)
  {
    var list' := [i] + list;
    forall k | 0 <= k < |list'| ensures list'[k] < |cells| && cells[list'[k]].next == At(list', k + 1) {
      if k > 0 { assert list'[k] == list[k - 1]; }
    }
  }

  lemma PushedMembers(cells: seq<Cell>, content: seq<nat>, k: nat, i: nat, c: Cell)
    requires Members(cells, content, k) && i < |cells| && i !in content && c.work == Queued(k)
    ensures Members(cells[i := c], content + [i], k) && Members(cells[i := c], [i] + content, k)
  {
    var front, back := [i] + content, content + [i];
    assert forall j :: 1 <= j < |front| ==> front[j] == content[j - 1];
    assert forall j :: 0 <= j < |content| ==> back[j] == content[j];
    assert Distinct(front) && Distinct(back);
    assert front[0] == i && back[|content|] == i;
  }

  lemma KeepsPushWon(s: State, i: nat)
    requires Inv(s) && i < |s.cells| && s.cells[i].work.Swapping? && s.heads[s.cells[i].work.shard] == s.cells[i].work.head
    ensures Inv(PushWon(s, i))
  {
    var k, s' := s.cells[i].work.shard, PushWon(s, i);
    assert CellOk(i, s.cells[i], s.heads);
    PushedShard(s, i);
    forall l | 0 <= l < SHARDS ensures ShardOk(s', l) {
      if l != k { ShardKept(s, s', l, i, s'.cells[i]); }
    }
    forall j | 0 <= j < |s.cells| ensures CellOk(j, s'.cells[j], s'.heads) {
      BumpKeepsCell(j, s'.cells[j], s.heads, k, s'.heads[k]);
    }
    HandsKept(s, i, s'.cells[i]);
  }

  lemma ProducerKeeps(s: State, s': State, i: nat)
    requires Inv(s) && i < |s.cells| && ProducerStep(s, s', i)
    ensures Inv(s')
  {
    assert CellOk(i, s.cells[i], s.heads);
    if s.cells[i].work.Swapping? && s.heads[s.cells[i].work.shard] == s.cells[i].work.head && s' == PushWon(s, i) {
      KeepsPushWon(s, i);
    } else {
      KeepsUnqueued(s, i, s'.cells[i]);
    }
  }

  // ---------------------------------------------------------------------------------------------
  // The consumer
  // ---------------------------------------------------------------------------------------------

  lemma DistanceOf(dequeue: nat, offset: nat)
    requires dequeue < SHARDS && offset < SHARDS
    ensures ShardAt(dequeue, offset) < SHARDS && Distance(dequeue, ShardAt(dequeue, offset)) == offset
    ensures forall k :: 0 <= k < SHARDS && Distance(dequeue, k) == offset ==> k == ShardAt(dequeue, offset)
  {
  }

  /** A consumer that holds nothing, before and after, leaves every shard as it is. */
  lemma KeepsEmptyHands(s: State, c: Consumer)
    requires Inv(s) && !s.consumer.Reversing? && !c.Reversing?
    requires ConsumerOk(s.(consumer := c)) && WaitsOk(s.content, s.waits, s.dequeue, c)
    ensures Inv(s.(consumer := c))
  {
    forall k | 0 <= k < SHARDS ensures ShardOk(s.(consumer := c), k) {
      assert ShardOk(s, k);
    }
  }

  lemma EmptyShard(s: State, k: nat)
    requires Sized(s) && k < SHARDS && ShardOk(s, k) && !s.consumer.Reversing?
    ensures s.locals[k].None? <==> s.lists[k] == []
    ensures s.heads[k].index.None? <==> s.stacks[k] == []
    ensures s.lists[k] == [] && s.stacks[k] == [] ==> s.content[k] == []
  {
  }

  lemma KeepsLook(s: State)
    requires Inv(s) && s.consumer.Looking?
    ensures Inv(Look(s))
  {
    var offset := s.consumer.offset;
    DistanceOf(s.dequeue, offset);
    var k := ShardAt(s.dequeue, offset);
    assert ShardOk(s, k);
    EmptyShard(s, k);
    KeepsEmptyHands(s, Look(s).consumer);
  }

  lemma KeepsDetachWon(s: State)
    requires Inv(s) && s.consumer.Detaching? && s.heads[ShardAt(s.dequeue, s.consumer.offset)] == s.consumer.head
    ensures Inv(DetachWon(s))
  {
    DistanceOf(s.dequeue, s.consumer.offset);
    var k, s' := ShardAt(s.dequeue, s.consumer.offset), DetachWon(s);
    forall l | 0 <= l < SHARDS ensures ShardOk(s', l) {
      assert ShardOk(s, l);
    }
    assert ShardOk(s, k);
    forall j | 0 <= j < |s.cells| ensures CellOk(j, s.cells[j], s'.heads) {
      BumpKeepsCell(j, s.cells[j], s.heads, k, s'.heads[k]);
    }
  }

  lemma KeepsDetachFailed(s: State)
    requires Inv(s) && s.consumer.Detaching?
    ensures Inv(DetachFailed(s))
  {
    DistanceOf(s.dequeue, s.consumer.offset);
    var k := ShardAt(s.dequeue, s.consumer.offset);
    assert ShardOk(s, k);
    EmptyShard(s, k);
    KeepsEmptyHands(s, DetachFailed(s).consumer);
  }

  lemma InNeither(a: seq<nat>, b: seq<nat>, x: nat)
    requires x !in a + b
    ensures x !in a && x !in b
  {
    assert x in a ==> x in a + b;
    assert x in b ==> x in a + b;
  }

  /** In a queue without repetitions, an entry between two parts is in neither. */
  lemma MiddleIsApart(a: seq<nat>, x: nat, b: seq<nat>)
    requires Distinct(a + ([x] + b))
    ensures x !in a && x !in b
  {
    var t := a + ([x] + b);
    assert t[|a|] == x;
    forall i | 0 <= i < |a| ensures a[i] != x {
      assert t[i] == a[i];
    }
    forall j | 0 <= j < |b| ensures b[j] != x {
      assert t[|a| + 1 + j] == b[j];
    }
  }

  /** The first entry still to be turned is in no other part of the shard. */
  lemma RestIsApart(content: seq<nat>, rest: seq<nat>, turned: seq<nat>, stack: seq<nat>)
    requires Composed(content, [], rest, turned, stack) && Distinct(content) && rest != []
    ensures rest[0] !in rest[1..] && rest[0] !in turned && rest[0] !in stack && rest[0] in content
  {
    var x := rest[0];
    var before, after := Rev(rest[1..]), turned + Rev(stack);
    assert content == before + ([x] + after);
    assert content[|before|] == x;
    MiddleIsApart(before, x, after);
    RevMembers(rest[1..], x);
    RevMembers(stack, x);
    InNeither(turned, Rev(stack), x);
  }

  lemma TurnedComposed(content: seq<nat>, rest: seq<nat>, turned: seq<nat>, stack: seq<nat>)
    requires Composed(content, [], rest, turned, stack) && rest != []
    ensures Composed(content, [], rest[1..], [rest[0]] + turned, stack)
  {
    assert Rev(rest) + turned == Rev(rest[1..]) + ([rest[0]] + turned);
  }

  lemma FrontComposed(content: seq<nat>, list: seq<nat>, stack: seq<nat>, i: nat)
    requires Composed(content, list, [], [], stack)
    ensures Composed([i] + content, [i] + list, [], [], stack)
    ensures list != [] ==> content != [] && content[0] == list[0] && Composed(content[1..], list[1..], [], [], stack)
  {
    assert [i] + (list + ([] + []) + Rev(stack)) == ([i] + list) + ([] + []) + Rev(stack);
    if list != [] {
      assert content[1..] == list[1..] + ([] + []) + Rev(stack);
    }
  }

  lemma TailLinks(cells: seq<Cell>, first: Option<nat>, list: seq<nat>)
    requires Links(cells, first, list) && list != []
    ensures first == Some(list[0]) && list[0] < |cells| && Links(cells, cells[list[0]].next, list[1..])
  {
    assert forall k :: 0 <= k < |list| - 1 ==> list[1..][k] == list[k + 1];
  }

  /** Turning the first link around leaves two shorter chains, and everyone else's alone. */
  lemma TurnedLinks(cells: seq<Cell>, detached: Option<nat>, reversed: Option<nat>, rest: seq<nat>, turned: seq<nat>)
    requires Links(cells, detached, rest) && Links(cells, reversed, turned) && rest != []
    requires rest[0] !in rest[1..] && rest[0] !in turned
    ensures detached == Some(rest[0]) && rest[0] < |cells|
    ensures var cells' := cells[rest[0] := cells[rest[0]].(next := reversed)];
      Links(cells', cells[rest[0]].next, rest[1..]) && Links(cells', Some(rest[0]), [rest[0]] + turned)
  {
    TailLinks(cells, detached, rest);
    var i := rest[0];
    var cell := cells[i].(next := reversed);
    LinksKept(cells, cells[i].next, rest[1..], i, cell);
    LinksKept(cells, reversed, turned, i, cell);
    PushedLinks(cells[i := cell], reversed, turned, i);
  }

  lemma ReversedShard(s: State)
    requires Inv(s) && s.consumer.Reversing? && s.consumer.detached.Some? && s.consumer.detached.value < |s.cells|
    ensures ShardAt(s.dequeue, s.consumer.offset) < SHARDS && Sized(ReverseOne(s))
    ensures ShardOk(ReverseOne(s), ShardAt(s.dequeue, s.consumer.offset)) && ConsumerOk(ReverseOne(s))
    ensures s.cells[s.consumer.detached.value].work == Queued(ShardAt(s.dequeue, s.consumer.offset))
  {
    DistanceOf(s.dequeue, s.consumer.offset);
    var c, k, i := s.consumer, ShardAt(s.dequeue, s.consumer.offset), s.consumer.detached.value;
    var cell := s.cells[i].(next := c.reversed);
    assert ShardOk(s, k);
    RestIsApart(s.content[k], c.rest, c.turned, s.stacks[k]);
    TurnedLinks(s.cells, c.detached, c.reversed, c.rest, c.turned);
    LinksKept(s.cells, s.heads[k].index, s.stacks[k], i, cell);
    TurnedComposed(s.content[k], c.rest, c.turned, s.stacks[k]);
    MembersKept(s.cells, s.content[k], k, i, cell);
  }

  lemma KeepsReverseOne(s: State)
    requires Inv(s) && s.consumer.Reversing? && s.consumer.detached.Some? && s.consumer.detached.value < |s.cells|
    ensures Inv(ReverseOne(s))
  {
    ReversedShard(s);
    var k, i, s' := ShardAt(s.dequeue, s.consumer.offset), s.consumer.detached.value, ReverseOne(s);
    forall l | 0 <= l < SHARDS ensures ShardOk(s', l) {
      if l != k { ShardKept(s, s', l, i, s'.cells[i]); }
    }
    assert CellOk(i, s.cells[i], s.heads);
  }

  lemma KeepsReverseEnd(s: State)
    requires Inv(s) && s.consumer.Reversing? && s.consumer.detached.None?
    ensures Inv(ReverseEnd(s))
  {
    DistanceOf(s.dequeue, s.consumer.offset);
    var k, s' := ShardAt(s.dequeue, s.consumer.offset), ReverseEnd(s);
    forall l | 0 <= l < SHARDS ensures ShardOk(s', l) {
      assert ShardOk(s, l);
    }
  }

  lemma PoppedMembers(cells: seq<Cell>, content: seq<nat>, k: nat, c: Cell)
    requires Members(cells, content, k) && content != [] && content[0] < |cells| && c.work.Away?
    ensures Members(cells[content[0] := c], content[1..], k)
  {
    var tail := content[1..];
    assert forall j :: 0 <= j < |tail| ==> tail[j] == content[j + 1];
    assert content == [content[0]] + tail;
  }

  lemma TakenShard(s: State)
    requires Inv(s) && s.consumer.Taking?
    ensures ShardAt(s.dequeue, s.consumer.offset) < SHARDS && s.consumer.index < |s.cells|
    ensures var k, i := ShardAt(s.dequeue, s.consumer.offset), s.consumer.index;
      && s.lists[k] != [] && s.content[k] != [] && s.content[k][0] == i && s.cells[i].work == Queued(k)
      && ShardOk(Take(s), k)
  {
    DistanceOf(s.dequeue, s.consumer.offset);
    var k, i := ShardAt(s.dequeue, s.consumer.offset), s.consumer.index;
    assert ShardOk(s, k);
    TailLinks(s.cells, s.locals[k], s.lists[k]);
    FrontComposed(s.content[k], s.lists[k], s.stacks[k], i);
    var s', cell := Take(s), s.cells[i].(work := Away);
    LinksKept(s.cells, s.cells[i].next, s.lists[k][1..], i, cell);
    LinksKept(s.cells, s.heads[k].index, s.stacks[k], i, cell);
    PoppedMembers(s.cells, s.content[k], k, cell);
  }

  /** A pop brings every shard that waits one shard closer, or starts its wait. */
  lemma TakeKeepsWaits(content: seq<seq<nat>>, waits: seq<nat>, dequeue: nat, c: Consumer)
    requires |content| == |waits| == SHARDS && dequeue < SHARDS && WaitsOk(content, waits, dequeue, c)
    requires !c.Idle? && c.offset < SHARDS
    ensures var k := ShardAt(dequeue, c.offset);
      k < SHARDS && WaitsOk(content[k := Tail(content[k])], Waited(waits, content, k), (k + 1) % SHARDS, Idle)
  {
    DistanceOf(dequeue, c.offset);
  }

  lemma KeepsTake(s: State)
    requires Inv(s) && s.consumer.Taking?
    ensures s.consumer.index < |s.cells| && ShardReady(s, ShardAt(s.dequeue, s.consumer.offset)) && Inv(Take(s))
  {
    TakenShard(s);
    var k, i, s' := ShardAt(s.dequeue, s.consumer.offset), s.consumer.index, Take(s);
    TakeKeepsWaits(s.content, s.waits, s.dequeue, s.consumer);
    forall l | 0 <= l < SHARDS ensures ShardOk(s', l) {
      if l != k { ShardKept(s, s', l, i, s'.cells[i]); }
    }
  }

  lemma ConsumerKeeps(s: State, s': State)
    requires Inv(s) && ConsumerStep(s, s')
    ensures Inv(s')
  {
    match s.consumer
    case Idle => KeepsEmptyHands(s, Looking(0, {}));
    case Looking(_, _) => KeepsLook(s);
    case Detaching(_, _, _) =>
      if s' == DetachFailed(s) { KeepsDetachFailed(s); } else { KeepsDetachWon(s); }
    case Reversing(_, _, detached, _, _, _) =>
      if detached.Some? { KeepsReverseOne(s); } else { KeepsReverseEnd(s); }
    case Taking(_, _) => KeepsTake(s);
  }

  lemma RequeuedShard(s: State, lease: Lease)
    requires Inv(s) && s.consumer.Idle? && lease.index < |s.cells| && lease.shard < SHARDS && s.cells[lease.index].work.Away?
    ensures ShardOk(Requeue(s, lease), lease.shard)
  {
    var i, k := lease.index, lease.shard;
    var cell := Cell(s.locals[k], lease, Queued(k));
    assert ShardOk(s, k);
    OutsideShard(s, k, i);
    LinksKept(s.cells, s.heads[k].index, s.stacks[k], i, cell);
    LinksKept(s.cells, s.locals[k], s.lists[k], i, cell);
    PushedLinks(s.cells[i := cell], s.locals[k], s.lists[k], i);
    PushedMembers(s.cells, s.content[k], k, i, cell);
    FrontComposed(s.content[k], s.lists[k], s.stacks[k], i);
  }

  lemma KeepsRequeue(s: State, lease: Lease)
    requires Inv(s) && s.consumer.Idle? && lease.index < |s.cells| && lease.shard < SHARDS && s.cells[lease.index].work.Away?
    ensures Inv(Requeue(s, lease))
  {
    var i, k, s' := lease.index, lease.shard, Requeue(s, lease);
    RequeuedShard(s, lease);
    forall l | 0 <= l < SHARDS ensures ShardOk(s', l) {
      if l != k { ShardKept(s, s', l, i, s'.cells[i]); }
    }
  }

  // ---------------------------------------------------------------------------------------------
  // Every run
  // ---------------------------------------------------------------------------------------------

  lemma NextKeeps(s: State, s': State)
    requires Inv(s) && Next(s, s')
    ensures Inv(s')
  {
    if lease: Lease :| StartsPush(s, s', lease) {
      KeepsUnqueued(s, lease.index, s'.cells[lease.index]);
    } else if i :| 0 <= i < |s.cells| && ProducerStep(s, s', i) {
      ProducerKeeps(s, s', i);
    } else if ConsumerStep(s, s') {
      ConsumerKeeps(s, s');
    } else {
      var lease: Lease :| PutsBack(s, s', lease);
      KeepsRequeue(s, lease);
    }
  }

  lemma RunKeeps(run: seq<State>, n: nat)
    requires IsRun(Init, Next, run) && n < |run|
    ensures Inv(run[n])
  {
    forall s, s' | Inv(s) && Next(s, s') ensures Inv(s') { NextKeeps(s, s'); }
    AlwaysOnRun(Init, Next, Inv, run, n);
  }

  /**
   * Each shard is one queue: its local list, then the consumer's hands, then the producers' stack
   * bottom up, all spelled out by the links; it lists exactly the entries queued in it, each once.
   */
  lemma ShardIsOneQueue(run: seq<State>, n: nat, k: nat)
    requires IsRun(Init, Next, run) && n < |run| && k < SHARDS
    ensures Sized(run[n])
    ensures var s := run[n];
      && s.content[k] == s.lists[k] + (Rev(Rest(s.consumer, s.dequeue, k)) + Turned(s.consumer, s.dequeue, k)) + Rev(s.stacks[k])
      && Links(s.cells, s.locals[k], s.lists[k]) && Links(s.cells, s.heads[k].index, s.stacks[k])
      && Distinct(s.content[k])
      && forall i :: 0 <= i < |s.cells| ==> (s.cells[i].work == Queued(k) <==> i in s.content[k])
  {
    RunKeeps(run, n);
    assert ShardOk(run[n], k);
  }
}
