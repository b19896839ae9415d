/** What the pending queue guarantees in every run: it is one deque of leases per shard, and fair. */
module PendingQueueTheorems {
  import opened Common
  import opened PendingQueue
  import opened PendingQueueProof

  // ---------------------------------------------------------------------------------------------
  // The deques
  // ---------------------------------------------------------------------------------------------

  function LeaseAt(cells: seq<Cell>, i: nat): Option<Lease> { if i < |cells| then Some(cells[i].lease) else None }

  /** The leases stored with the entries. */
  function Leases(cells: seq<Cell>, entries: seq<nat>): seq<Option<Lease>> {
    seq(|entries|, j requires 0 <= j < |entries| => LeaseAt(cells, entries[j]))
  }

  /** A shard as a deque of leases, front first. */
  function Deque(s: State, k: nat): seq<Option<Lease>> {
    if k < |s.content| then Leases(s.cells, s.content[k]) else []
  }

  datatype Op = Pushed(lease: Lease) | Popped(lease: Lease) | PutBack(lease: Lease) | Silent

  /** What a step of the queue amounts to for its callers. */
  ghost predicate Does(s: State, s': State, op: Op) {
    match op
    case Pushed(lease) => exists i :: 0 <= i < |s.cells| && WinsPush(s, s', i) && s.cells[i].lease == lease
    case Popped(lease) => Takes(s, s') && s.cells[s.consumer.index].lease == lease
    case PutBack(lease) => PutsBack(s, s', lease)
    case Silent =>
      || (exists lease: Lease :: StartsPush(s, s', lease))
      || (exists i :: 0 <= i < |s.cells| && WorksOnPush(s, s', i))
      || (ConsumerStep(s, s') && !s.consumer.Taking?)
  }

  /** An operation on the deque of shard `k`: only its own shard's, at the back or at the front. */
  ghost predicate DequeStep(before: seq<Option<Lease>>, after: seq<Option<Lease>>, op: Op, k: nat) {
    if op.Silent? || op.lease.shard != k then after == before
    else match op
      case Pushed(lease) => after == before + [Some(lease)]
      case Popped(lease) => before == [Some(lease)] + after
      case PutBack(lease) => after == [Some(lease)] + before
  }

  lemma LeasesKept(cells: seq<Cell>, cells': seq<Cell>, entries: seq<nat>)
    requires |cells'| == |cells|
    requires forall j :: 0 <= j < |entries| ==> entries[j] < |cells| && cells'[entries[j]].lease == cells[entries[j]].lease
    ensures Leases(cells', entries) == Leases(cells, entries)
  {
  }

  lemma LeasesJoin(cells: seq<Cell>, first: seq<nat>, second: seq<nat>)
    ensures Leases(cells, first + second) == Leases(cells, first) + Leases(cells, second)
  {
  }

  lemma LeasesOfOne(cells: seq<Cell>, i: nat)
    requires i < |cells|
    ensures Leases(cells, [i]) == [Some(cells[i].lease)]
  {
  }

  lemma PushIsDequeStep(s: State, s': State, i: nat, k: nat)
    requires Inv(s) && i < |s.cells| && WinsPush(s, s', i) && k < SHARDS
    ensures DequeStep(Deque(s, k), Deque(s', k), Pushed(s.cells[i].lease), k)
  {
    assert CellOk(i, s.cells[i], s.heads) && ShardOk(s, k);
    LeasesKept(s.cells, s'.cells, s.content[k]);
    LeasesJoin(s'.cells, s.content[k], [i]);
    LeasesOfOne(s'.cells, i);
  }

  lemma FrontLease(cells: seq<Cell>, entries: seq<nat>, i: nat)
    requires entries != [] && entries[0] == i < |cells|
    ensures Leases(cells, entries) == [Some(cells[i].lease)] + Leases(cells, Tail(entries))
  {
  }

  lemma TakeIsDequeStep(s: State, s': State, k: nat)
    requires Inv(s) && Takes(s, s') && k < SHARDS
    ensures DequeStep(Deque(s, k), Deque(s', k), Popped(s.cells[s.consumer.index].lease), k)
  {
    var i, l := s.consumer.index, ShardAt(s.dequeue, s.consumer.offset);
    TakenShard(s);
    assert s.cells[i].lease.shard == l by { assert CellOk(i, s.cells[i], s.heads); }
    assert Members(s.cells, s.content[k], k) by { assert ShardOk(s, k); }
    var rest := if k == l then Tail(s.content[k]) else s.content[k];
    assert s'.content[k] == rest && s'.cells == s.cells[i := s.cells[i].(work := Away)];
    LeasesKept(s.cells, s'.cells, rest);
    if k == l {
      FrontLease(s.cells, s.content[k], i);
    }
  }

  lemma PutBackIsDequeStep(s: State, s': State, lease: Lease, k: nat)
    requires Inv(s) && PutsBack(s, s', lease) && k < SHARDS
    ensures DequeStep(Deque(s, k), Deque(s', k), PutBack(lease), k)
  {
    assert Members(s.cells, s.content[k], k) by { assert ShardOk(s, k); }
    LeasesKept(s.cells, s'.cells, s.content[k]);
    LeasesJoin(s'.cells, [lease.index], s.content[k]);
    LeasesOfOne(s'.cells, lease.index);
  }

  lemma PushWorkIsSilent(s: State, s': State, i: nat, k: nat)
    requires Inv(s) && i < |s.cells| && WorksOnPush(s, s', i) && k < SHARDS
    ensures Deque(s', k) == Deque(s, k)
  {
    assert Members(s.cells, s.content[k], k) by { assert ShardOk(s, k); }
    LeasesKept(s.cells, s'.cells, s.content[k]);
  }

  lemma PushStartIsSilent(s: State, s': State, lease: Lease, k: nat)
    requires Inv(s) && StartsPush(s, s', lease) && k < SHARDS
    ensures Deque(s', k) == Deque(s, k)
  {
    assert Members(s.cells, s.content[k], k) by { assert ShardOk(s, k); }
    LeasesKept(s.cells, s'.cells, s.content[k]);
  }

  lemma ConsumerWorkIsSilent(s: State, s': State, k: nat)
    requires Inv(s) && ConsumerStep(s, s') && !s.consumer.Taking? && k < SHARDS
    ensures Deque(s', k) == Deque(s, k)
  {
    assert Members(s.cells, s.content[k], k) by { assert ShardOk(s, k); }
    assert s'.content == s.content;
    forall i | 0 <= i < |s.cells| ensures |s'.cells| == |s.cells| && s'.cells[i].lease == s.cells[i].lease {
      ConsumerKeepsLeases(s, s', i);
    }
    if s.cells == [] {
      assert s'.cells == [];
    }
    LeasesKept(s.cells, s'.cells, s.content[k]);
  }

  lemma SilentIsDequeStep(s: State, s': State, k: nat)
    requires Inv(s) && Does(s, s', Silent) && k < SHARDS
    ensures Deque(s', k) == Deque(s, k)
  {
    if lease: Lease :| StartsPush(s, s', lease) {
      PushStartIsSilent(s, s', lease, k);
    } else if i :| 0 <= i < |s.cells| && WorksOnPush(s, s', i) {
      PushWorkIsSilent(s, s', i, k);
    } else {
      ConsumerWorkIsSilent(s, s', k);
    }
  }

  lemma StepIsDequeStep(s: State, s': State, op: Op, k: nat)
    requires Inv(s) && Does(s, s', op) && k < SHARDS
    ensures DequeStep(Deque(s, k), Deque(s', k), op, k)
  {
    match op
    case Pushed(lease) =>
      var i :| 0 <= i < |s.cells| && WinsPush(s, s', i) && s.cells[i].lease == lease;
      PushIsDequeStep(s, s', i, k);
    case Popped(_) => TakeIsDequeStep(s, s', k);
    case PutBack(lease) => PutBackIsDequeStep(s, s', lease, k);
    case Silent => SilentIsDequeStep(s, s', k);
  }

  /** No step is anything else. */
  lemma StepHasOp(s: State, s': State) returns (op: Op)
    requires Next(s, s')
    ensures Does(s, s', op)
  {
    if lease: Lease :| StartsPush(s, s', lease) {
      op := Silent;
    } else if i :| 0 <= i < |s.cells| && ProducerStep(s, s', i) {
      op := if WinsPush(s, s', i) then Pushed(s.cells[i].lease) else Silent;
    } else if ConsumerStep(s, s') {
      op := if s.consumer.Taking? then Popped(s.cells[s.consumer.index].lease) else Silent;
    } else {
      var lease: Lease :| PutsBack(s, s', lease);
      op := PutBack(lease);
    }
  }

  /**
   * Every step of every run is a step of one deque per shard: a won push adds its lease at the back of its
   * shard, a take removes the front and returns it, a put-back adds at the front, any other step is
   * silent, and no other shard changes.
   */
  lemma EveryStepIsADequeStep(run: seq<State>, n: nat, op: Op, k: nat)
    requires IsRun(Init, Next, run) && n + 1 < |run| && k < SHARDS && Does(run[n], run[n + 1], op)
    ensures DequeStep(Deque(run[n], k), Deque(run[n + 1], k), op, k)
  {
    RunKeeps(run, n);
    StepIsDequeStep(run[n], run[n + 1], op, k);
  }

  // ---------------------------------------------------------------------------------------------
  // The lease a pop returns
  // ---------------------------------------------------------------------------------------------

  /** A step that stores a lease: a push begins, or a lease is put back. */
  ghost predicate Stores(s: State, s': State, lease: Lease) { StartsPush(s, s', lease) || PutsBack(s, s', lease) }

  ghost predicate StoresOrKeeps(s: State, s': State, i: nat)
    requires i < |s.cells| == |s'.cells|
  {
    !s'.cells[i].work.Away? ==>
      || (s'.cells[i].lease.index == i && Stores(s, s', s'.cells[i].lease))
      || (!s.cells[i].work.Away? && s.cells[i].lease == s'.cells[i].lease)
  }

  lemma StepStoresOrKeeps(s: State, s': State, i: nat)
    requires Inv(s) && Next(s, s') && i < |s.cells|
    ensures |s'.cells| == |s.cells| && StoresOrKeeps(s, s', i)
  {
    if lease: Lease :| StartsPush(s, s', lease) {
      assert lease.index == i ==> s'.cells[i].lease == lease;
    } else if j :| 0 <= j < |s.cells| && ProducerStep(s, s', j) {
      assert s'.cells[i].lease == s.cells[i].lease;
    } else if ConsumerStep(s, s') {
      ConsumerKeepsLeases(s, s', i);
    } else {
      var lease: Lease :| PutsBack(s, s', lease);
      assert lease.index == i ==> s'.cells[i].lease == lease;
    }
  }

  lemma ConsumerKeepsLeases(s: State, s': State, i: nat)
    requires Inv(s) && ConsumerStep(s, s') && i < |s.cells|
    ensures |s'.cells| == |s.cells| && s'.cells[i].lease == s.cells[i].lease
    ensures s.cells[i].work.Away? ==> s'.cells[i].work.Away?
  {
  }

  predicate Holds(s: State, i: nat, lease: Lease) { i < |s.cells| && !s.cells[i].work.Away? && s.cells[i].lease == lease }

  ghost predicate HeldSince(run: seq<State>, m: nat, n: nat, i: nat, lease: Lease)
    requires m <= n < |run|
  {
    forall j :: m <= j <= n ==> Holds(run[j], i, lease)
  }

  lemma HeldLonger(run: seq<State>, m: nat, n: nat, i: nat, lease: Lease)
    requires m <= n && n + 1 < |run| && HeldSince(run, m, n, i, lease) && Holds(run[n + 1], i, lease)
    ensures HeldSince(run, m, n + 1, i, lease)
  {
  }

  lemma NotAwayAtFirst(run: seq<State>, n: nat, i: nat)
    requires IsRun(Init, Next, run) && n < |run| && i < |run[n].cells| && !run[n].cells[i].work.Away?
    ensures n > 0
  {
  }

  lemma LastStep(run: seq<State>, n: nat, i: nat)
    requires IsRun(Init, Next, run) && 0 < n < |run| && i < |run[n].cells|
    ensures |run[n - 1].cells| == |run[n].cells| && StoresOrKeeps(run[n - 1], run[n], i)
  {
    RunKeeps(run, n - 1);
    assert Next(run[n - 1], run[n - 1 + 1]);
    SameCells(run[n - 1], run[n]);
    StepStoresOrKeeps(run[n - 1], run[n], i);
  }

  /** What an entry in flight or queued holds is the lease of the step that stored it, untouched since. */
  lemma {:induction false} HeldLeaseWasStored(run: seq<State>, n: nat, i: nat) returns (m: nat)
    requires IsRun(Init, Next, run) && n < |run| && i < |run[n].cells| && !run[n].cells[i].work.Away?
    ensures m < n && run[n].cells[i].lease.index == i && Stores(run[m], run[m + 1], run[n].cells[i].lease)
    ensures HeldSince(run, m + 1, n, i, run[n].cells[i].lease)
  {
    NotAwayAtFirst(run, n, i);
    LastStep(run, n, i);
    if run[n].cells[i].lease.index == i && Stores(run[n - 1], run[n], run[n].cells[i].lease) {
      m := n - 1;
    } else {
      m := HeldLeaseWasStored(run, n - 1, i);
      HeldLonger(run, m + 1, n - 1, i, run[n].cells[i].lease);
    }
  }

  lemma SameCells(s: State, s': State)
    requires Inv(s) && Next(s, s')
    ensures |s'.cells| == |s.cells|
  {
  }

  /**
   * A pop takes the front of its shard, and the lease it returns is, in every field, the one that a push
   * or a put-back stored for that entry, with the entry in flight or queued ever since.
   */
  lemma PopReturnsWhatWasPushed(run: seq<State>, n: nat) returns (m: nat)
    requires IsRun(Init, Next, run) && n < |run| && run[n].consumer.Taking?
    ensures var s := run[n];
      var k, i := ShardAt(s.dequeue, s.consumer.offset), s.consumer.index;
      && k < |s.content| && s.content[k] != [] && s.content[k][0] == i && i < |s.cells|
      && s.cells[i].lease.index == i && s.cells[i].lease.shard == k
      && m < n && Stores(run[m], run[m + 1], s.cells[i].lease) && HeldSince(run, m + 1, n, i, s.cells[i].lease)
  {
    RunKeeps(run, n);
    TakenShard(run[n]);
    assert CellOk(run[n].consumer.index, run[n].cells[run[n].consumer.index], run[n].heads);
    m := HeldLeaseWasStored(run, n, run[n].consumer.index);
  }

  // ---------------------------------------------------------------------------------------------
  // Fairness
  // ---------------------------------------------------------------------------------------------

  /** How many leases the steps from `a` to `b` take. */
  ghost function Taken(run: seq<State>, a: nat, b: nat): nat
    requires a <= b < |run|
    decreases b
  {
    if a == b then 0 else Taken(run, a, b - 1) + One(Takes(run[b - 1], run[b]))
  }

  ghost predicate TakesFrom(s: State, s': State, k: nat) { Takes(s, s') && ShardAt(s.dequeue, s.consumer.offset) == k }

  /** A pop of another shard counts against a shard with something in it, and nothing else does. */
  lemma StepWaits(s: State, s': State, k: nat)
    requires Inv(s) && Next(s, s') && k < SHARDS && s.content[k] != [] && !TakesFrom(s, s', k)
    ensures |s'.waits| == SHARDS && s'.waits[k] == s.waits[k] + One(Takes(s, s'))
  {
    if Takes(s, s') {
      TakenShard(s);
    } else {
      assert s'.waits == s.waits;
    }
  }

  lemma {:induction false} WaitsGrow(run: seq<State>, a: nat, b: nat, k: nat)
    requires IsRun(Init, Next, run) && a <= b < |run| && k < SHARDS
    requires forall j :: a <= j <= b ==> Deque(run[j], k) != []
    requires forall j :: a <= j < b ==> !TakesFrom(run[j], run[j + 1], k)
    ensures Sized(run[a]) && Sized(run[b]) && run[b].waits[k] == run[a].waits[k] + Taken(run, a, b)
    decreases b
  {
    RunKeeps(run, b);
    if a < b {
      WaitsGrow(run, a, b - 1, k);
      RunKeeps(run, b - 1);
      assert !TakesFrom(run[b - 1], run[b - 1 + 1], k);
      StepWaits(run[b - 1], run[b], k);
    }
  }

  /** Among any 256 takes during which a shard is never empty, one is from that shard. */
  lemma {:induction false} TakesServeEveryShard(run: seq<State>, a: nat, b: nat, k: nat)
    requires IsRun(Init, Next, run) && a <= b < |run| && k < SHARDS
    requires forall j :: a <= j <= b ==> Deque(run[j], k) != []
    requires Taken(run, a, b) >= SHARDS
    ensures exists j :: a <= j < b && TakesFrom(run[j], run[j + 1], k)
  {
    if forall j :: a <= j < b ==> !TakesFrom(run[j], run[j + 1], k) {
      WaitsGrow(run, a, b, k);
      RunKeeps(run, b);
      assert false;
    }
  }

  // ---------------------------------------------------------------------------------------------
  // A pop that finds nothing
  // ---------------------------------------------------------------------------------------------

  /** The shards that a pop under way has passed over. */
  function Noted(c: Consumer): set<nat> { if c.Looking? || c.Detaching? || c.Reversing? then c.empty else {} }

  predicate Searching(c: Consumer) { c.Looking? || c.Detaching? || c.Reversing? }

  /** The search has noted every shard before the one it is at. */
  predicate NotedUpTo(s: State) {
    Searching(s.consumer) ==> forall m :: 0 <= m < s.consumer.offset ==> ShardAt(s.dequeue, m) in Noted(s.consumer)
  }

  lemma OthersLeaveConsumer(s: State, s': State)
    requires Next(s, s') && !ConsumerStep(s, s')
    ensures s'.consumer == s.consumer && s'.dequeue == s.dequeue
  {
  }

  lemma ConsumerNotes(s: State, s': State)
    requires NotedUpTo(s) && ConsumerStep(s, s')
    ensures NotedUpTo(s')
  {
  }

  lemma NotesOnRun(run: seq<State>, n: nat)
    requires IsRun(Init, Next, run) && n < |run|
    ensures NotedUpTo(run[n])
  {
    forall s, s' | NotedUpTo(s) && Next(s, s') ensures NotedUpTo(s') {
      if ConsumerStep(s, s') { ConsumerNotes(s, s'); } else { OthersLeaveConsumer(s, s'); }
    }
    AlwaysOnRun(Init, Next, NotedUpTo, run, n);
  }

  /** The shard the consumer is at. */
  function Here(s: State): nat { if s.consumer.Idle? then s.dequeue else ShardAt(s.dequeue, s.consumer.offset) }

  /** A step passes over the shard it looks at: the search notes it, or ends. */
  ghost predicate PassesOver(s: State, s': State) {
    && ConsumerStep(s, s') && Searching(s.consumer)
    && (s'.consumer.Idle? || Here(s) in Noted(s'.consumer) - Noted(s.consumer))
  }

  /** Only an empty shard is passed over. */
  lemma PassedShardIsEmpty(s: State, s': State)
    requires Inv(s) && PassesOver(s, s')
    ensures Here(s) < SHARDS && s.content[Here(s)] == []
  {
    DistanceOf(s.dequeue, s.consumer.offset);
    assert ShardOk(s, Here(s));
    if s.consumer.Looking? { EmptyShard(s, Here(s)); }
  }

  /** What a search notes is the shard it passes over at that step, and nothing else. */
  lemma NotedNow(s: State, s': State, k: nat)
    requires Next(s, s') && k in Noted(s'.consumer) && k !in Noted(s.consumer)
    ensures PassesOver(s, s') && k == Here(s)
  {
    if !ConsumerStep(s, s') { OthersLeaveConsumer(s, s'); }
  }

  /** Every shard is noted at a step that finds it empty. */
  lemma NotedShardsAreEmpty(run: seq<State>, n: nat, k: nat)
    requires IsRun(Init, Next, run) && n + 1 < |run| && k in Noted(run[n + 1].consumer) && k !in Noted(run[n].consumer)
    ensures k < SHARDS && Deque(run[n], k) == []
  {
    RunKeeps(run, n);
    NotedNow(run[n], run[n + 1], k);
    PassedShardIsEmpty(run[n], run[n + 1]);
  }

  /** A pop ends without a lease. */
  ghost predicate GivesUp(s: State, s': State) { ConsumerStep(s, s') && Searching(s.consumer) && s'.consumer.Idle? }

  lemma GivesUpAtTheEnd(s: State, s': State)
    requires Inv(s) && GivesUp(s, s')
    ensures s.consumer.offset + 1 == SHARDS
  {
  }

  /**
   * A pop that ends without a lease has passed over every shard: each of the others is noted, and the
   * last one is empty now.
   */
  lemma FailedPopSawEveryShard(run: seq<State>, n: nat, k: nat)
    requires IsRun(Init, Next, run) && n + 1 < |run| && GivesUp(run[n], run[n + 1]) && k < SHARDS
    ensures k in Noted(run[n].consumer) || (k == Here(run[n]) && Deque(run[n], k) == [])
  {
    var s := run[n];
    RunKeeps(run, n);
    NotesOnRun(run, n);
    GivesUpAtTheEnd(s, run[n + 1]);
    PassedShardIsEmpty(s, run[n + 1]);
    var m := Distance(s.dequeue, k);
    DistanceOf(s.dequeue, m);
    assert m < s.consumer.offset || m == s.consumer.offset;
  }

  /** A pop is under way, and the shard has had something in it all along. */
  predicate Pending(s: State, k: nat) {
    !s.consumer.Idle? && k < |s.content| && s.content[k] != [] && k !in Noted(s.consumer)
  }

  lemma ContentGrows(s: State, s': State, k: nat)
    requires Inv(s) && Next(s, s') && !s.consumer.Idle? && !s'.consumer.Idle? && k < SHARDS && s.content[k] != []
    ensures k < |s'.content| && s'.content[k] != []
  {
  }

  lemma StaysPending(s: State, s': State, k: nat)
    requires Inv(s) && Next(s, s') && Pending(s, k) && k < SHARDS && !s'.consumer.Idle?
    ensures Pending(s', k)
  {
    ContentGrows(s, s', k);
    if k in Noted(s'.consumer) {
      NotedNow(s, s', k);
      PassedShardIsEmpty(s, s');
    }
  }

  lemma {:induction false} PendingThroughout(run: seq<State>, j: nat, n: nat, k: nat)
    requires IsRun(Init, Next, run) && j <= n < |run| && k < SHARDS && Pending(run[j], k)
    requires forall m :: j <= m <= n ==> !run[m].consumer.Idle?
    ensures Pending(run[n], k)
  {
    var during, kept := (s: State) => !s.consumer.Idle?, (s: State) => Inv(s) && Pending(s, k);
    forall s, s' | kept(s) && Next(s, s') && during(s') ensures kept(s') {
      NextKeeps(s, s');
      StaysPending(s, s', k);
    }
    RunKeeps(run, j);
    KeptWhile(Init, Next, during, kept, run, j, n);
  }

  /** The consumer's step ends its pop one way or the other. */
  lemma EndsByTakingOrNot(s: State, s': State)
    requires Next(s, s') && !s.consumer.Idle? && s'.consumer.Idle?
    ensures Takes(s, s') || GivesUp(s, s')
  {
    if !ConsumerStep(s, s') { OthersLeaveConsumer(s, s'); }
  }

  /** A pop that begins while some shard has something in it ends by taking a lease. */
  lemma PopOfNonEmptyQueueSucceeds(run: seq<State>, j: nat, n: nat, k: nat)
    requires IsRun(Init, Next, run) && j < n && n + 1 < |run| && k < SHARDS
    requires run[j].consumer.Idle? && Deque(run[j], k) != []
    requires forall m :: j < m <= n ==> !run[m].consumer.Idle?
    requires run[n + 1].consumer.Idle?
    ensures Takes(run[n], run[n + 1])
  {
    PopBegins(run, j, k);
    PendingThroughout(run, j + 1, n, k);
    EndsByTakingOrNot(run[n], run[n + 1]);
    if GivesUp(run[n], run[n + 1]) {
      FailedPopSawEveryShard(run, n, k);
    }
  }

  lemma PopBegins(run: seq<State>, j: nat, k: nat)
    requires IsRun(Init, Next, run) && j + 1 < |run| && k < SHARDS
    requires run[j].consumer.Idle? && Deque(run[j], k) != [] && !run[j + 1].consumer.Idle?
    ensures Pending(run[j + 1], k)
  {
    RunKeeps(run, j);
    if !ConsumerStep(run[j], run[j + 1]) { OthersLeaveConsumer(run[j], run[j + 1]); }
  }

  predicate Ends(s: State, s': State) { !s.consumer.Idle? && s'.consumer.Idle? }

  /** How many pops the steps from `a` to `b` complete, with a lease or without. */
  ghost function Pops(run: seq<State>, a: nat, b: nat): nat
    requires a <= b < |run|
    decreases b
  {
    if a == b then 0 else Pops(run, a, b - 1) + One(Ends(run[b - 1], run[b]))
  }

  lemma PendingPopTakes(run: seq<State>, n: nat, k: nat)
    requires IsRun(Init, Next, run) && n + 1 < |run| && k < SHARDS && Pending(run[n], k) && run[n + 1].consumer.Idle?
    ensures Takes(run[n], run[n + 1])
  {
    EndsByTakingOrNot(run[n], run[n + 1]);
    if GivesUp(run[n], run[n + 1]) {
      FailedPopSawEveryShard(run, n, k);
    }
  }

  /** No pop is under way, or one that began with something in the shard and has not passed it over. */
  predicate Serving(s: State, k: nat) { s.consumer.Idle? || Pending(s, k) }

  lemma StaysServing(s: State, s': State, k: nat)
    requires Inv(s) && Next(s, s') && k < SHARDS && s.content[k] != [] && Serving(s, k)
    ensures Serving(s', k)
  {
    if !s.consumer.Idle? && !s'.consumer.Idle? { StaysPending(s, s', k); }
    else if !s'.consumer.Idle? && !ConsumerStep(s, s') { OthersLeaveConsumer(s, s'); }
  }

  ghost predicate NeverEmpty(run: seq<State>, a: nat, b: nat, k: nat)
    requires a <= b < |run|
  {
    forall j :: a <= j <= b ==> Deque(run[j], k) != []
  }

  lemma ServingThroughout(run: seq<State>, a: nat, n: nat, k: nat)
    requires IsRun(Init, Next, run) && a <= n < |run| && k < SHARDS && run[a].consumer.Idle? && NeverEmpty(run, a, n, k)
    ensures Serving(run[n], k)
  {
    var during, kept := (s: State) => Deque(s, k) != [], (s: State) => Inv(s) && Deque(s, k) != [] && Serving(s, k);
    forall s, s' | kept(s) && Next(s, s') && during(s') ensures kept(s') {
      NextKeeps(s, s');
      StaysServing(s, s', k);
    }
    RunKeeps(run, a);
    KeptWhile(Init, Next, during, kept, run, a, n);
  }

  /** A pop ends exactly by taking a lease. */
  lemma EndIsTake(run: seq<State>, a: nat, n: nat, k: nat)
    requires IsRun(Init, Next, run) && a <= n && n + 1 < |run| && k < SHARDS && run[a].consumer.Idle? && NeverEmpty(run, a, n, k)
    ensures Ends(run[n], run[n + 1]) <==> Takes(run[n], run[n + 1])
  {
    ServingThroughout(run, a, n, k);
    if Ends(run[n], run[n + 1]) { PendingPopTakes(run, n, k); }
  }

  lemma {:induction false} SameCounts(run: seq<State>, a: nat, b: nat)
    requires a <= b < |run| && forall n :: a <= n < b ==> (Ends(run[n], run[n + 1]) <==> Takes(run[n], run[n + 1]))
    ensures Taken(run, a, b) == Pops(run, a, b)
    decreases b
  {
    if a < b {
      SameCounts(run, a, b - 1);
      assert Ends(run[b - 1], run[b - 1 + 1]) <==> Takes(run[b - 1], run[b - 1 + 1]);
    }
  }

  /** Among any 256 pops, from one call to the return of the last, during which a shard is never empty, one serves it. */
  lemma {:induction false} EveryShardIsServed(run: seq<State>, a: nat, b: nat, k: nat)
    requires IsRun(Init, Next, run) && a <= b < |run| && k < SHARDS && run[a].consumer.Idle?
    requires NeverEmpty(run, a, b, k)
    requires Pops(run, a, b) >= SHARDS
    ensures exists j :: a <= j < b && TakesFrom(run[j], run[j + 1], k)
  {
    forall n | a <= n < b ensures Ends(run[n], run[n + 1]) <==> Takes(run[n], run[n + 1]) {
      assert NeverEmpty(run, a, n, k);
      EndIsTake(run, a, n, k);
    }
    SameCounts(run, a, b);
    TakesServeEveryShard(run, a, b, k);
  }

  // ---------------------------------------------------------------------------------------------
  // Nobody is stuck
  // ---------------------------------------------------------------------------------------------

  lemma ReversingCanStep(s: State)
    requires Inv(s) && s.consumer.Reversing?
    ensures exists s' :: ConsumerStep(s, s')
  {
    var k := ShardAt(s.dequeue, s.consumer.offset);
    assert ShardReady(s, k);
    if s.consumer.detached.Some? { assert ConsumerStep(s, ReverseOne(s)); } else { assert ConsumerStep(s, ReverseEnd(s)); }
  }

  lemma TakingCanStep(s: State)
    requires Inv(s) && s.consumer.Taking?
    ensures exists s' :: Takes(s, s')
  {
    TakenShard(s);
    assert Takes(s, Take(s));
  }

  /** A pop under way can always go on, and it detaches the stack it found if that is unchanged. */
  lemma ConsumerCanStep(run: seq<State>, n: nat)
    requires IsRun(Init, Next, run) && n < |run| && !run[n].consumer.Idle?
    ensures exists s' :: ConsumerStep(run[n], s')
    ensures ShardReady(run[n], Here(run[n]))
    ensures run[n].consumer.Detaching? && run[n].heads[Here(run[n])] == run[n].consumer.head ==> ConsumerStep(run[n], DetachWon(run[n]))
  {
    RunKeeps(run, n);
    var s := run[n];
    assert ShardReady(s, ShardAt(s.dequeue, s.consumer.offset));
    match s.consumer
    case Looking(_, _) => assert ConsumerStep(s, Look(s));
    case Detaching(_, _, _) => assert ConsumerStep(s, DetachFailed(s));
    case Reversing(_, _, _, _, _, _) => ReversingCanStep(s);
    case Taking(_, _) =>
      TakingCanStep(s);
      var s' :| Takes(s, s');
      assert ConsumerStep(s, s');
  }

  /** A push under way can always go on, and succeeds when the head is the one it loaded. */
  lemma ProducerCanStep(run: seq<State>, k: nat, i: nat)
    requires IsRun(Init, Next, run) && k < |run| && i < |run[k].cells|
    requires var work := run[k].cells[i].work; work.Loading? || work.Storing? || work.Swapping?
    ensures exists s' :: ProducerStep(run[k], s', i)
    ensures var work := run[k].cells[i].work;
      work.Swapping? && work.shard < |run[k].heads| && run[k].heads[work.shard] == work.head ==> exists s' :: WinsPush(run[k], s', i)
  {
    RunKeeps(run, k);
    var s := run[k];
    var c := s.cells[i];
    assert CellOk(i, c, s.heads);
    if c.work.Storing? {
      assert ProducerStep(s, s.(cells := s.cells[i := c.(next := c.work.head.index, work := Swapping(c.work.shard, c.work.head))]), i);
    } else {
      assert ProducerStep(s, WithWork(s, i, Storing(c.work.shard, s.heads[c.work.shard])), i);
    }
    if c.work.Swapping? && s.heads[c.work.shard] == c.work.head {
      assert WinsPush(s, PushWon(s, i), i);
    }
  }

  /** A lease of a slot that is not queued can be pushed at any time, and put back while no pop is under way. */
  lemma LeaseCanBeQueued(run: seq<State>, n: nat, lease: Lease)
    requires IsRun(Init, Next, run) && n < |run| && lease.index < |run[n].cells| && lease.shard < SHARDS
    requires run[n].cells[lease.index].work.Away?
    ensures exists s' :: StartsPush(run[n], s', lease)
    ensures run[n].consumer.Idle? ==> exists s' :: PutsBack(run[n], s', lease)
  {
    RunKeeps(run, n);
    assert StartsPush(run[n], PushStart(run[n], lease), lease);
    if run[n].consumer.Idle? { assert PutsBack(run[n], Requeue(run[n], lease), lease); }
  }
}
