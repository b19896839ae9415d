/** What the slot allocator guarantees in every reachable state. */
module SlotAllocatorTheorems {
  import opened Common
  import opened SlotAllocator
  import opened SlotAllocatorProof

  const WORD: nat := 0x1_0000_0000

  /** The 64-bit head word: the tag above, the index below. */
  function Pack(index: nat, tag: nat): nat
    requires index < WORD && tag < WORD
  {
    tag * WORD + index
  }

  /** Comparing packed words compares index and tag together, and both can be read back. */
  lemma PackedHeadRoundTrip(index: nat, tag: nat, index': nat, tag': nat)
    requires index < WORD && tag < WORD && index' < WORD && tag' < WORD
    ensures Pack(index, tag) % WORD == index && Pack(index, tag) / WORD == tag
    ensures Pack(index, tag) == Pack(index', tag') <==> index == index' && tag == tag'
  {
  }

  /** No slot is leased twice at the same time. */
  lemma LeasesAreExclusive(run: seq<State>, k: nat, a: Lease, b: Lease)
    requires IsRun(Init, Next, run) && k < |run| && a in run[k].leases && b in run[k].leases
    ensures run[k].leases[a] == 1 && (a.index == b.index ==> a == b)
    ensures a.index < |run[k].cells| && run[k].cells[a.index].state == Leased
  {
    RunKeeps(run, k);
    assert CellOk(a.index, run[k].cells[a.index], run[k].contexts, run[k].hash, run[k].heads, run[k].nextUnassigned);
  }

  /** A slot on a list is free, on that list alone, once, and the list is the one of its context and shard. */
  lemma ListedSlotsAreHome(run: seq<State>, k: nat, l: nat, j: nat)
    requires IsRun(Init, Next, run) && k < |run| && l < |run[k].lists| && j < |run[k].lists[l]|
    ensures var s, i := run[k], run[k].lists[l][j];
      && i < |s.cells| && s.cells[i].state == Free
      && l / SHARDS < |s.contexts| && s.contexts[l / SHARDS] == s.cells[i].context && l % SHARDS == s.cells[i].shard
      && (forall l', j' :: 0 <= l' < |s.lists| && 0 <= j' < |s.lists[l']| && s.lists[l'][j'] == i ==> l' == l && j' == j)
      && (forall lease :: lease in s.leases ==> lease.index != i)
  {
    var s, i := run[k], run[k].lists[l][j];
    RunKeeps(run, k);
    assert ListOk(s.cells, s.heads[l], s.lists[l], l);
    assert CellOk(i, s.cells[i], s.contexts, s.hash, s.heads, s.nextUnassigned);
    forall l', j' | 0 <= l' < |s.lists| && 0 <= j' < |s.lists[l']| && s.lists[l'][j'] == i ensures l' == l && j' == j {
      assert ListOk(s.cells, s.heads[l'], s.lists[l'], l');
    }
  }

  /** Every slot is unassigned, worked on by one thread, leased out, or on a list. */
  lemma EverySlotHasAPlace(run: seq<State>, k: nat, i: nat)
    requires IsRun(Init, Next, run) && k < |run| && i < |run[k].cells|
    ensures var s, c := run[k], run[k].cells[i];
      && (c.work.Untouched? <==> i >= s.nextUnassigned)
      && (c.work.Out? <==> exists lease :: lease in s.leases && lease.index == i)
      && (c.work.Listed? <==> exists l :: 0 <= l < |s.lists| && i in s.lists[l])
  {
    var s, c := run[k], run[k].cells[i];
    RunKeeps(run, k);
    assert CellOk(i, c, s.contexts, s.hash, s.heads, s.nextUnassigned);
    if c.work.Out? { assert LeaseOf(i, c) in s.leases; }
    forall l | 0 <= l < |s.lists| && i in s.lists[l] ensures c.work.Listed? {
      assert ListOk(s.cells, s.heads[l], s.lists[l], l);
    }
  }

  /** A pop whose swap succeeds takes the first slot, leaves the true successor, and serves its own context. */
  lemma PopInstallsSuccessor(run: seq<State>, k: nat, p: Seek)
    requires IsRun(Init, Next, run) && k < |run| && p in run[k].seekers && p.Swapping?
    requires AcquireList(p.a, p.at) < |run[k].heads| && run[k].heads[AcquireList(p.a, p.at)] == p.head
    ensures var s, l := run[k], AcquireList(p.a, p.at);
      && l < |s.lists| && s.lists[l] != [] && p.head.index == Some(s.lists[l][0]) && p.next == At(s.lists[l], 1)
      && p.head.index.value < |s.cells| && s.cells[p.head.index.value].context == p.a.context
  {
    var s, l := run[k], AcquireList(p.a, p.at);
    RunKeeps(run, k);
    SwapTakesFirst(s, p);
    assert SeekOk(p, s.contexts, s.hash, s.heads, s.cells);
    ServesContext(s.lists[l][0], s.cells[s.lists[l][0]], s.contexts, s.hash, s.heads, s.nextUnassigned, p.a, p.at);
  }

  lemma ServesContext(i: nat, c: Cell, contexts: seq<nat>, hash: nat -> nat, heads: seq<Head>, next: nat, a: Acquire, at: nat)
    requires CellOk(i, c, contexts, hash, heads, next) && AcquireOk(a, contexts) && c.work == Listed(AcquireList(a, at))
    ensures c.context == a.context
  {
  }

  /** No operation gives up on a slot it holds: the state swaps, the lease check and the lookup all succeed. */
  lemma NothingIsLost(run: seq<State>, k: nat, i: nat)
    requires IsRun(Init, Next, run) && k < |run| && i < |run[k].cells|
    ensures var c := run[k].cells[i];
      && c.work != Lost
      && (c.work.Popped? ==> c.state == Free)
      && (c.work.Freeing? ==> c.state == Leased)
      && (c.work.Checking? ==> Matches(c, c.work.lease) && c.work.lease.index == i)
  {
    RunKeeps(run, k);
    assert CellOk(i, run[k].cells[i], run[k].contexts, run[k].hash, run[k].heads, run[k].nextUnassigned);
  }

  /** A context is claimed at most once. */
  lemma ContextsAreUnique(run: seq<State>, k: nat, i: nat, j: nat)
    requires IsRun(Init, Next, run) && k < |run| && i < |run[k].contexts| && j < |run[k].contexts|
    requires run[k].contexts[i] == run[k].contexts[j] != 0
    ensures i == j
  {
    var contexts, hash := run[k].contexts, run[k].hash;
    RunKeeps(run, k);
    var start := Start(hash, contexts[i], |contexts|);
    var oi, oj := OffsetOf(start, i, |contexts|), OffsetOf(start, j, |contexts|);
    assert PathTo(contexts, hash, i) && PathTo(contexts, hash, j);
  }

  /** With no acquire about since it began, a scan that sums to zero leaves every assigned slot on a list. */
  lemma ZeroScanMeansAllFree(run: seq<State>, k: nat, i: nat)
    requires IsRun(Init, Next, run) && k < |run| && i < |run[k].cells|
    requires run[k].scan.Scan? && run[k].scan.quiet && run[k].scan.shard >= SHARDS && run[k].scan.total == 0
    ensures run[k].cells[i].work.Untouched? || run[k].cells[i].work.Listed?
  {
    var s := run[k];
    RunKeeps(run, k);
    assert CellOk(i, s.cells[i], s.contexts, s.hash, s.heads, s.nextUnassigned);
  }

  // ---------------------------------------------------------------------------------------------
  // The high-water mark
  // ---------------------------------------------------------------------------------------------

  /** No operation is under way. */
  predicate Quiescent(s: State) {
    && s.seekers == multiset{} && s.finishing == multiset{}
    && forall i :: 0 <= i < |s.cells| ==>
      var w := s.cells[i].work; w.Untouched? || w.Out? || w.Listed?
  }

  function Tallies(cells: seq<Cell>): seq<int> { seq(SHARDS, k requires 0 <= k < SHARDS => Count(cells, AssignedIn(k))) }

  lemma {:induction false} ShardsCoverAssigned(cells: seq<Cell>)
    requires forall i :: 0 <= i < |cells| && IsAssigned(cells[i].work) ==> cells[i].shard < SHARDS
    ensures Sum(Tallies(cells)) == Count(cells, AnyAssigned)
  {
    if cells == [] {
      SumZero(Tallies(cells));
    } else {
      var c, rest := cells[0], cells[1..];
      ShardsCoverAssigned(rest);
      if IsAssigned(c.work) {
        assert Tallies(cells) == Tallies(rest)[c.shard := Tallies(rest)[c.shard] + 1];
        SumUpdate(Tallies(rest), c.shard, Tallies(rest)[c.shard] + 1);
      } else {
        assert Tallies(cells) == Tallies(rest);
      }
    }
  }

  lemma HolderTotal(s: State, s': State, i: nat)
    requires i < |s.cells| && HolderStep(s, s', i)
    ensures s.totalPeak <= s'.totalPeak
  {
    if c' :| LocalStep(s.contexts, s.hash, s.heads, s.cells[i], c') && s' == WithCell(s, i, c') {
      assert WithCell(s, i, c').totalPeak == s.totalPeak;
    }
  }

  lemma SeekerTotal(s: State, s': State, p: Seek)
    requires SeekerStep(s, s', p)
    ensures s.totalPeak == s'.totalPeak
  {
    if q :| SeekStep(s, p, q) && s' == s.(seekers := Reseek(s.seekers, p, q)) {
      assert s'.totalPeak == s.totalPeak;
    }
  }

  lemma ThreadTotal(s: State, s': State)
    requires ThreadStep(s, s')
    ensures s.totalPeak <= s'.totalPeak
  {
    if context, shard :| !s.closed && context != 0 && |s.contexts| > 0 && s' == AcquireStart(s, context, shard) {
      assert AcquireStart(s, context, shard).totalPeak == s.totalPeak;
    } else if p :| p in s.seekers && SeekerStep(s, s', p) {
      SeekerTotal(s, s', p);
    } else if i :| 0 <= i < |s.cells| && HolderStep(s, s', i) {
      HolderTotal(s, s', i);
    } else if lease :| lease in s.leases && lease.index < |s.cells| && s' == ReleaseStart(s, lease) {
      assert ReleaseStart(s, lease).totalPeak == s.totalPeak;
    } else {
      var shard :| shard in s.finishing && s' == Finish(s, shard);
      assert Finish(s, shard).totalPeak == s.totalPeak;
    }
  }

  lemma TotalPeakGrows(s: State, s': State)
    requires Next(s, s')
    ensures s.totalPeak <= s'.totalPeak
  {
    if ThreadStep(s, s') { ThreadTotal(s, s'); }
  }

  /** The recorded peak is at least every total of active slots the run has shown. */
  lemma TotalPeakCovers(run: seq<State>, j: nat, k: nat)
    requires IsRun(Init, Next, run) && j <= k < |run|
    ensures Sum(run[j].active) <= run[k].totalPeak
  {
    RunKeeps(run, j);
    var covers := (s: State) => Sum(run[j].active) <= s.totalPeak;
    forall s, s' | covers(s) && Next(s, s') ensures covers(s') { TotalPeakGrows(s, s'); }
    KeptOnRun(Init, Next, covers, run, j, k);
  }

  /** At rest, the summed high-water mark lies between every active total so far and the assigned slots. */
  lemma HighWaterIsBetween(run: seq<State>, j: nat, k: nat)
    requires IsRun(Init, Next, run) && j <= k < |run| && Quiescent(run[k])
    ensures Sum(run[j].active) <= Sum(run[k].high) <= run[k].assignedSlots
  {
    var s := run[k];
    RunKeeps(run, k);
    TotalPeakCovers(run, j, k);
    assert s.high == s.peak by {
      assert forall n :: 0 <= n < SHARDS ==> HighOk(s.high[n], s.peak[n], s.cells, n);
    }
    SumLe(s.peak, Tallies(s.cells));
    forall i | 0 <= i < |s.cells| && IsAssigned(s.cells[i].work) ensures s.cells[i].shard < SHARDS {
      assert CellOk(i, s.cells[i], s.contexts, s.hash, s.heads, s.nextUnassigned);
    }
    ShardsCoverAssigned(s.cells);
  }

  // ---------------------------------------------------------------------------------------------
  // No thread leaves the tables
  // ---------------------------------------------------------------------------------------------

  /** Every index an acquire without a slot is about to use is in range: it always has a next step. */
  lemma SeekersCanStep(run: seq<State>, k: nat, p: Seek)
    requires IsRun(Init, Next, run) && k < |run| && p in run[k].seekers
    ensures exists s' :: SeekerStep(run[k], s', p)
  {
    var s := run[k];
    RunKeeps(run, k);
    assert SeekOk(p, s.contexts, s.hash, s.heads, s.cells);
    var q := SeekNext(s, p);
    if p.Claiming? && s.contexts[ProbeAt(Start(s.hash, p.context, |s.contexts|), p.offset, |s.contexts|)] == 0 {
      assert SeekerStep(s, ClaimWon(s, p), p);
    } else {
      assert SeekStep(s, p, q);
      assert SeekerStep(s, s.(seekers := Reseek(s.seekers, p, q)), p);
    }
  }

  /** An acquire that goes on changes nothing but its own place. */
  lemma AcquireGoesOn(run: seq<State>, k: nat, p: Seek, q: Seek)
    requires IsRun(Init, Next, run) && k < |run| && p in run[k].seekers && SeekStep(run[k], p, Some(q))
    ensures Next(run[k], run[k].(seekers := run[k].seekers - multiset{p} + multiset{q}))
  {
    var s := run[k];
    assert SeekerStep(s, s.(seekers := Reseek(s.seekers, p, Some(q))), p);
  }

  /** A claim that finds its entry free puts the context there, and the acquire goes on with that entry. */
  lemma ClaimGoesOn(run: seq<State>, k: nat, p: Seek, at: nat)
    requires IsRun(Init, Next, run) && k < |run| && p in run[k].seekers && p.Claiming? && p.offset < |run[k].contexts|
    requires at == ProbeAt(Start(run[k].hash, p.context, |run[k].contexts|), p.offset, |run[k].contexts|) && run[k].contexts[at] == 0
    ensures Next(run[k], run[k].(contexts := run[k].contexts[at := p.context],
                                 seekers := run[k].seekers - multiset{p} + multiset{Popping(Acquire(p.context, p.shard, at, {}), 0)}))
  {
    assert SeekerStep(run[k], ClaimWon(run[k], p), p);
  }

  function SeekNext(s: State, p: Seek): Option<Seek>
    requires Shape(s) && SeekOk(p, s.contexts, s.hash, s.heads, s.cells)
  {
    if p.Probing? || p.Claiming? then Probed(s.contexts, s.hash, p)
    else if p.Popping? || p.Swapping? then Follow(p.a, p.at, s.heads[AcquireList(p.a, p.at)])
    else if p.Following? then Some(Swapping(p.a, p.at, p.head, s.cells[p.head.index.value].next))
    else if s.nextUnassigned < |s.cells| then Some(Bumping(p.a, s.nextUnassigned))
    else Some(Popping(p.a, 1))
  }

  predicate AtRest(w: Work) { w.Untouched? || w.Out? || w.Listed? || w.Lost? }

  /** What the thread that has the slot does next when that touches the slot alone. */
  function LocalNext(contexts: seq<nat>, hash: nat -> nat, heads: seq<Head>, c: Cell): Cell
    requires c.work.Looking? ==> c.work.offset < |contexts|
    requires c.work.PushLoad? || c.work.PushSwap? ==> c.work.list < |heads|
  {
    match c.work
    case Reserved(context, shard) =>
      c.(context := context, shard := shard, generation := c.generation + 1, work := Branded)
    case Branded => c.(state := Leased, work := Assigning)
    case Popped => if c.state == Free then c.(state := Leased, work := Regenerating) else c.(work := Lost)
    case Regenerating => c.(generation := c.generation + 1, work := Counting)
    case Checking(lease) => c.(work := if Matches(c, lease) then Handing(lease) else Lost)
    case Freeing(lease) => if c.state == Leased then c.(state := Free, work := Looking(lease, 0)) else c.(work := Lost)
    case Looking(lease, offset) => c.(work := Looked(contexts, hash, lease, offset))
    case PushLoad(l) => c.(work := PushStore(l, heads[l]))
    case PushStore(l, head) => c.(next := head.index, work := PushSwap(l, head))
    case PushSwap(l, head) => c.(work := PushStore(l, heads[l]))
    case _ => c
  }

  predicate Shared(w: Work) {
    w.Assigning? || w.Counting? || w.Raising? || w.RaiseSwap? || w.Handing? || w.Uncounting?
  }

  /** Every index the thread that has a slot is about to use is in range: it always has a next step. */
  lemma HoldersCanStep(run: seq<State>, k: nat, i: nat)
    requires IsRun(Init, Next, run) && k < |run| && i < |run[k].cells| && !AtRest(run[k].cells[i].work)
    ensures exists s' :: HolderStep(run[k], s', i)
  {
    var s, c := run[k], run[k].cells[i];
    RunKeeps(run, k);
    assert CellOk(i, c, s.contexts, s.hash, s.heads, s.nextUnassigned);
    if Shared(c.work) {
      SharedStep(s, i);
    } else {
      assert LocalStep(s.contexts, s.hash, s.heads, c, LocalNext(s.contexts, s.hash, s.heads, c));
      assert HolderStep(s, WithCell(s, i, LocalNext(s.contexts, s.hash, s.heads, c)), i);
    }
  }

  lemma SharedStep(s: State, i: nat)
    requires Inv(s) && i < |s.cells| && Shared(s.cells[i].work) && s.cells[i].shard < SHARDS
    ensures exists s' :: HolderStep(s, s', i)
  {
    var c := s.cells[i];
    if c.work.Assigning? { assert HolderStep(s, Assign(s, i), i); }
    else if c.work.Counting? { assert HolderStep(s, CountUp(s, i), i); }
    else if c.work.Raising? { assert HolderStep(s, RaiseLoad(s, i), i); }
    else if c.work.RaiseSwap? { assert HolderStep(s, RaiseFailed(s, i), i); }
    else if c.work.Handing? { assert HolderStep(s, HandOff(s, i), i); }
    else { assert HolderStep(s, Uncount(s, i), i); }
  }

  // ---------------------------------------------------------------------------------------------
  // An acquire that fails has tried everything
  // ---------------------------------------------------------------------------------------------

  /** The acquire has seen every list before the `at`-th empty, and past its own no slot unassigned. */
  predicate TriedBefore(a: Acquire, at: nat, next: nat, size: nat) {
    && (forall m :: 0 <= m < at ==> AcquireList(a, m) in a.empty)
    && (at > 0 ==> next >= size)
  }

  predicate Tried(p: Seek, next: nat, size: nat) {
    && (p.Popping? || p.Following? || p.Swapping? ==> TriedBefore(p.a, p.at, next, size))
    && (p.Reserving? || p.Bumping? ==> AcquireList(p.a, 0) in p.a.empty)
  }

  predicate AllTried(s: State) { forall p :: p in s.seekers ==> Tried(p, s.nextUnassigned, |s.cells|) }

  lemma FollowTries(a: Acquire, at: nat, head: Head, next: nat, size: nat)
    requires TriedBefore(a, at, next, size)
    ensures var q := Follow(a, at, head); q.Some? ==> Tried(q.value, next, size)
  {
    var seen := SawEmpty(a, at);
    assert forall m :: AcquireList(seen, m) == AcquireList(a, m);
  }

  lemma SeekStepTries(s: State, p: Seek, q: Option<Seek>)
    requires Tried(p, s.nextUnassigned, |s.cells|) && SeekStep(s, p, q)
    ensures q.Some? ==> Tried(q.value, s.nextUnassigned, |s.cells|)
  {
    if p.Popping? || p.Swapping? {
      FollowTries(p.a, p.at, s.heads[AcquireList(p.a, p.at)], s.nextUnassigned, |s.cells|);
    }
  }

  /** More assigned slots and fewer or newly tried seekers keep it. */
  lemma TriedStays(s: State, s': State)
    requires AllTried(s) && |s'.cells| == |s.cells| && s'.nextUnassigned >= s.nextUnassigned
    requires forall p :: p in s'.seekers ==> p in s.seekers || Tried(p, s.nextUnassigned, |s.cells|)
    ensures AllTried(s')
  {
  }

  lemma SeekerTries(s: State, s': State, p: Seek)
    requires AllTried(s) && p in s.seekers && SeekerStep(s, s', p)
    ensures AllTried(s')
  {
    if q :| SeekStep(s, p, q) && s' == s.(seekers := Reseek(s.seekers, p, q)) {
      SeekStepTries(s, p, q);
      TriedStays(s, s');
    } else {
      WonTries(s, s', p);
    }
  }

  /** The steps that win something: a table entry, the first slot of a list, or an unassigned slot. */
  lemma WonTries(s: State, s': State, p: Seek)
    requires AllTried(s) && p in s.seekers && SeekerStep(s, s', p)
    requires !exists q :: SeekStep(s, p, q) && s' == s.(seekers := Reseek(s.seekers, p, q))
    ensures AllTried(s')
  {
    TriedStays(s, s');
  }

  lemma HolderLeavesSeekers(s: State, s': State, i: nat)
    requires i < |s.cells| && HolderStep(s, s', i)
    ensures s'.seekers == s.seekers && s'.nextUnassigned == s.nextUnassigned && |s'.cells| == |s.cells|
  {
  }

  lemma StartTries(s: State, context: nat, shard: nat)
    requires AllTried(s)
    ensures AllTried(AcquireStart(s, context, shard))
  {
    TriedStays(s, AcquireStart(s, context, shard));
  }

  lemma ReleaseTries(s: State, lease: Lease)
    requires AllTried(s) && lease.index < |s.cells|
    ensures AllTried(ReleaseStart(s, lease))
  {
    TriedStays(s, ReleaseStart(s, lease));
  }

  lemma ControlTries(s: State, s': State)
    requires AllTried(s) && ControlStep(s, s')
    ensures AllTried(s')
  {
    assert s'.seekers == s.seekers && s'.nextUnassigned == s.nextUnassigned && s'.cells == s.cells;
  }

  lemma ThreadTries(s: State, s': State)
    requires AllTried(s) && ThreadStep(s, s')
    ensures AllTried(s')
  {
    if context, shard :| !s.closed && context != 0 && |s.contexts| > 0 && s' == AcquireStart(s, context, shard) {
      StartTries(s, context, shard);
    } else if p :| p in s.seekers && SeekerStep(s, s', p) {
      SeekerTries(s, s', p);
    } else if i :| 0 <= i < |s.cells| && HolderStep(s, s', i) {
      HolderLeavesSeekers(s, s', i);
    } else if lease :| lease in s.leases && lease.index < |s.cells| && s' == ReleaseStart(s, lease) {
      ReleaseTries(s, lease);
    } else {
      var shard :| shard in s.finishing && s' == Finish(s, shard);
      assert Finish(s, shard).seekers == s.seekers;
    }
  }

  lemma StepTries(s: State, s': State)
    requires AllTried(s) && Next(s, s')
    ensures AllTried(s')
  {
    if ThreadStep(s, s') { ThreadTries(s, s'); } else { ControlTries(s, s'); }
  }

  lemma ShardHasOffset(a: Acquire, shard: nat) returns (at: nat)
    requires a.shard < SHARDS && shard < SHARDS
    ensures at < SHARDS && AcquireList(a, at) == ListIndex(a.bucket, shard)
  {
    at := if shard >= a.shard then shard - a.shard else shard + SHARDS - a.shard;
    assert (a.shard + at) % SHARDS == shard;
  }

  lemma RunTries(run: seq<State>, k: nat)
    requires IsRun(Init, Next, run) && k < |run|
    ensures AllTried(run[k])
  {
    forall s, s' | AllTried(s) && Next(s, s') ensures AllTried(s') { StepTries(s, s'); }
    AlwaysOnRun(Init, Next, AllTried, run, k);
  }

  lemma NoHeadNoList(s: State, l: nat)
    requires Structure(s) && l < |s.heads| && s.heads[l].index.None?
    ensures l < |s.lists| && s.lists[l] == []
  {
    assert ListOk(s.cells, s.heads[l], s.lists[l], l);
  }

  /**
   * An acquire that found its context and comes back without a slot has seen the list of every shard of
   * that context empty, and no slot is left unassigned.
   */
  lemma FailedPopsTriedEverything(run: seq<State>, k: nat, p: Seek)
    requires IsRun(Init, Next, run) && k < |run| && p in run[k].seekers
    requires SeekStep(run[k], p, None) && !p.Probing? && !p.Claiming?
    ensures (p.Popping? || p.Swapping?) && run[k].nextUnassigned >= |run[k].cells|
    ensures forall shard :: 0 <= shard < SHARDS ==> ListIndex(p.a.bucket, shard) in SawEmpty(p.a, p.at).empty
    ensures AcquireList(p.a, p.at) < |run[k].lists| && run[k].lists[AcquireList(p.a, p.at)] == []
  {
    RunKeeps(run, k);
    RunTries(run, k);
    NoHeadNoList(run[k], AcquireList(p.a, p.at));
    assert SeekOk(p, run[k].contexts, run[k].hash, run[k].heads, run[k].cells);
    assert Tried(p, run[k].nextUnassigned, |run[k].cells|);
    forall shard | 0 <= shard < SHARDS ensures ListIndex(p.a.bucket, shard) in SawEmpty(p.a, p.at).empty {
      var at := ShardHasOffset(p.a, shard);
      assert at < p.at || at == p.at;
    }
  }

  /** A probe that has no next position is at the last one. */
  lemma ProbeEndsLast(contexts: seq<nat>, hash: nat -> nat, p: Seek)
    requires |contexts| > 0 && (p.Probing? || p.Claiming?) && p.offset < |contexts| && Probed(contexts, hash, p) == None
    ensures p.offset + 1 == |contexts|
  {
  }

  /** An acquire that fails over its context has found every entry of the table taken by another one. */
  lemma FailedProbeSawFullTable(run: seq<State>, k: nat, p: Seek, j: nat)
    requires IsRun(Init, Next, run) && k < |run| && p in run[k].seekers && j < |run[k].contexts|
    requires SeekStep(run[k], p, None) && (p.Probing? || p.Claiming?)
    ensures run[k].contexts[j] != 0 && run[k].contexts[j] != p.context
  {
    var s := run[k];
    RunKeeps(run, k);
    assert SeekOk(p, s.contexts, s.hash, s.heads, s.cells);
    ProbeEndsLast(s.contexts, s.hash, p);
    var start := Start(s.hash, p.context, |s.contexts|);
    var offset := OffsetOf(start, j, |s.contexts|);
    assert offset < p.offset || offset == p.offset;
  }

  /**
   * An acquire that comes back without a slot failed over its context, with every entry of the table taken
   * by another one, or it has seen the list of every shard of its context empty and no slot unassigned.
   */
  lemma FailedAcquireTriedEverything(run: seq<State>, k: nat, p: Seek)
    requires IsRun(Init, Next, run) && k < |run| && p in run[k].seekers && SeekStep(run[k], p, None)
    ensures
      if p.Probing? || p.Claiming? then
        forall j :: 0 <= j < |run[k].contexts| ==> run[k].contexts[j] != 0 && run[k].contexts[j] != p.context
      else
        && (p.Popping? || p.Swapping?) && run[k].nextUnassigned >= |run[k].cells|
        && (forall shard :: 0 <= shard < SHARDS ==> ListIndex(p.a.bucket, shard) in SawEmpty(p.a, p.at).empty)
        && AcquireList(p.a, p.at) < |run[k].lists| && run[k].lists[AcquireList(p.a, p.at)] == []
  {
    if p.Probing? || p.Claiming? {
      forall j | 0 <= j < |run[k].contexts| ensures run[k].contexts[j] != 0 && run[k].contexts[j] != p.context {
        FailedProbeSawFullTable(run, k, p, j);
      }
    } else {
      FailedPopsTriedEverything(run, k, p);
    }
  }

  /** With a free entry, or its own, in the table an acquire never fails over its context. */
  lemma RoomForContextSuffices(run: seq<State>, k: nat, p: Seek, j: nat)
    requires IsRun(Init, Next, run) && k < |run| && p in run[k].seekers && j < |run[k].contexts|
    requires (p.Probing? || p.Claiming?) && (run[k].contexts[j] == 0 || run[k].contexts[j] == p.context)
    ensures !SeekStep(run[k], p, None)
  {
    if SeekStep(run[k], p, None) { FailedProbeSawFullTable(run, k, p, j); }
  }

  predicate Notes(p: Seek, l: nat) { !p.Probing? && !p.Claiming? && l in p.a.empty }

  lemma NotedNow(s: State, p: Seek, q: Option<Seek>, l: nat)
    requires SeekStep(s, p, q) && q.Some? && Notes(q.value, l) && !Notes(p, l)
    ensures (p.Popping? || p.Swapping?) && l == AcquireList(p.a, p.at) < |s.heads| && s.heads[l].index.None?
  {
  }

  /** What counts as seen empty was empty: a list is noted at the step that finds it so, and not before. */
  lemma NotedListsAreEmpty(run: seq<State>, k: nat, p: Seek, q: Option<Seek>, l: nat)
    requires IsRun(Init, Next, run) && k < |run| && p in run[k].seekers && SeekStep(run[k], p, q)
    requires q.Some? && Notes(q.value, l) && !Notes(p, l)
    ensures l < |run[k].lists| && run[k].lists[l] == []
  {
    RunKeeps(run, k);
    NotedNow(run[k], p, q, l);
    NoHeadNoList(run[k], l);
  }

  // ---------------------------------------------------------------------------------------------
  // A released lease stays released
  // ---------------------------------------------------------------------------------------------

  /** The slot has moved past the lease with this generation. */
  predicate Past(c: Cell, generation: nat) {
    || c.generation > generation
    || (c.generation == generation && (HoldsLease(c.work) || OnPush(c.work) || c.work.Popped? || c.work.Regenerating?))
  }

  lemma LocalStaysPast(contexts: seq<nat>, hash: nat -> nat, heads: seq<Head>, c: Cell, c': Cell, generation: nat)
    requires LocalStep(contexts, hash, heads, c, c') && Past(c, generation) && !c'.work.Lost?
    ensures Past(c', generation)
  {
  }

  /** The steps of a thread that has a slot, other than its local ones, move it on without touching the slot. */
  predicate SharedMove(w: Work, w': Work) {
    || (w.Assigning? && w'.Counting?)
    || (w.Counting? && w'.Raising?)
    || ((w.Raising? || w.RaiseSwap?) && (w'.RaiseSwap? || w'.Out?))
    || (w.Handing? && w'.Freeing?)
    || (w.Uncounting? && w'.PushLoad?)
    || (w.PushSwap? && w'.Listed?)
  }

  ghost predicate CellNext(s: State, c: Cell, c': Cell) {
    LocalStep(s.contexts, s.hash, s.heads, c, c') || (c' == c.(work := c'.work) && SharedMove(c.work, c'.work))
  }

  lemma RaisersMove(s: State, j: nat)
    requires j < |s.cells| && s.cells[j].shard < |s.high| && (s.cells[j].work.Raising? || s.cells[j].work.RaiseSwap?)
    ensures s.cells[j].work.Raising? ==>
      var c' := RaiseLoad(s, j).cells[j];
      RaiseLoad(s, j).cells == s.cells[j := c'] && c' == s.cells[j].(work := c'.work) && SharedMove(s.cells[j].work, c'.work)
    ensures s.cells[j].work.RaiseSwap? ==>
      var c' := RaiseFailed(s, j).cells[j];
      RaiseFailed(s, j).cells == s.cells[j := c'] && c' == s.cells[j].(work := c'.work) && SharedMove(s.cells[j].work, c'.work)
    ensures s.cells[j].work.RaiseSwap? ==> RaiseWon(s, j).cells == s.cells[j := s.cells[j].(work := Out)]
  {
  }

  lemma HolderMovesItsCell(s: State, s': State, j: nat)
    requires j < |s.cells| && HolderStep(s, s', j)
    ensures |s'.cells| == |s.cells| && s'.cells == s.cells[j := s'.cells[j]] && CellNext(s, s.cells[j], s'.cells[j])
  {
    var c := s.cells[j];
    if c' :| LocalStep(s.contexts, s.hash, s.heads, c, c') && s' == WithCell(s, j, c') {
      assert WithCell(s, j, c').cells[j] == c';
    } else if c.work.Assigning? {
      assert Assign(s, j).cells == s.cells[j := c.(work := Counting)];
    } else if c.work.Counting? {
      assert CountUp(s, j).cells == s.cells[j := c.(work := CountUp(s, j).cells[j].work)];
    } else if c.work.Raising? || c.work.RaiseSwap? {
      RaisersMove(s, j);
    } else if c.work.Handing? {
      assert HandOff(s, j).cells == s.cells[j := c.(work := Freeing(c.work.lease))];
    } else if c.work.Uncounting? {
      assert Uncount(s, j).cells == s.cells[j := c.(work := Uncount(s, j).cells[j].work)];
    } else {
      assert PushWon(s, j).cells == s.cells[j := c.(work := Listed(c.work.list))];
    }
  }

  lemma CellStaysPast(s: State, c: Cell, c': Cell, generation: nat)
    requires CellNext(s, c, c') && Past(c, generation) && !c'.work.Lost?
    ensures Past(c', generation)
  {
    if LocalStep(s.contexts, s.hash, s.heads, c, c') {
      LocalStaysPast(s.contexts, s.hash, s.heads, c, c', generation);
    }
  }

  lemma HolderStaysPast(s: State, s': State, i: nat, j: nat, generation: nat)
    requires i < |s.cells| && j < |s.cells| && HolderStep(s, s', j) && Past(s.cells[i], generation)
    requires i < |s'.cells| ==> !s'.cells[i].work.Lost?
    ensures i < |s'.cells| && Past(s'.cells[i], generation)
  {
    HolderMovesItsCell(s, s', j);
    if i == j {
      CellStaysPast(s, s.cells[j], s'.cells[j], generation);
    }
  }

  lemma ReserveStaysPast(s: State, p: Seek, i: nat, generation: nat)
    requires Inv(s) && i < |s.cells| && p.Bumping? && p.index < |s.cells| && s.nextUnassigned == p.index && Past(s.cells[i], generation)
    ensures Past(ReserveWon(s, p).cells[i], generation)
  {
    assert CellOk(p.index, s.cells[p.index], s.contexts, s.hash, s.heads, s.nextUnassigned);
  }

  lemma PopStaysPast(s: State, p: Seek, i: nat, generation: nat)
    requires Inv(s) && i < |s.cells| && p in s.seekers && p.Swapping? && Past(s.cells[i], generation)
    requires AcquireList(p.a, p.at) < |s.heads| && s.heads[AcquireList(p.a, p.at)] == p.head
    ensures p.head.index.Some? && p.head.index.value < |s.cells| && Past(PopWon(s, p).cells[i], generation)
  {
    SwapTakesFirst(s, p);
  }

  lemma SeekerStaysPast(s: State, s': State, p: Seek, i: nat, generation: nat)
    requires Inv(s) && i < |s.cells| && p in s.seekers && SeekerStep(s, s', p) && Past(s.cells[i], generation)
    ensures i < |s'.cells| && Past(s'.cells[i], generation)
  {
    if q :| SeekStep(s, p, q) && s' == s.(seekers := Reseek(s.seekers, p, q)) {
      assert s'.cells == s.cells;
    } else if p.Claiming? {
      assert ClaimWon(s, p).cells == s.cells;
    } else if p.Swapping? {
      PopStaysPast(s, p, i, generation);
    } else {
      ReserveStaysPast(s, p, i, generation);
    }
  }

  lemma ReleaseStaysPast(s: State, lease: Lease, i: nat, generation: nat)
    requires Inv(s) && lease in s.leases && i < |s.cells| && Past(s.cells[i], generation)
    ensures Past(ReleaseStart(s, lease).cells[i], generation)
  {
  }

  /** A release that begins leaves the slot past its lease. */
  lemma ReleaseStartsPast(s: State, lease: Lease)
    requires Inv(s) && lease in s.leases
    ensures lease.index < |s.cells| && Past(ReleaseStart(s, lease).cells[lease.index], lease.generation)
  {
  }

  lemma NothingLostNow(s: State, i: nat)
    requires Inv(s)
    ensures i < |s.cells| ==> !s.cells[i].work.Lost?
  {
    if i < |s.cells| { assert CellOk(i, s.cells[i], s.contexts, s.hash, s.heads, s.nextUnassigned); }
  }

  /** What a thread's step does to the slots: nothing, or one of three things. */
  ghost predicate CellsStep(s: State, s': State) {
    || s'.cells == s.cells
    || (exists p :: p in s.seekers && SeekerStep(s, s', p))
    || (exists j :: 0 <= j < |s.cells| && HolderStep(s, s', j))
    || (exists lease :: lease in s.leases && lease.index < |s.cells| && s' == ReleaseStart(s, lease))
  }

  lemma ThreadMovesCells(s: State, s': State)
    requires ThreadStep(s, s')
    ensures CellsStep(s, s')
  {
    if context, shard :| !s.closed && context != 0 && |s.contexts| > 0 && s' == AcquireStart(s, context, shard) {
      assert AcquireStart(s, context, shard).cells == s.cells;
    } else if shard :| shard in s.finishing && s' == Finish(s, shard) {
      assert Finish(s, shard).cells == s.cells;
    }
  }

  lemma ThreadStaysPast(s: State, s': State, i: nat, generation: nat)
    requires Inv(s) && CellsStep(s, s') && i < |s.cells| && Past(s.cells[i], generation)
    requires i < |s'.cells| ==> !s'.cells[i].work.Lost?
    ensures i < |s'.cells| && Past(s'.cells[i], generation)
  {
    if s'.cells == s.cells {
    } else if p :| p in s.seekers && SeekerStep(s, s', p) {
      SeekerStaysPast(s, s', p, i, generation);
    } else if j :| 0 <= j < |s.cells| && HolderStep(s, s', j) {
      HolderStaysPast(s, s', i, j, generation);
    } else {
      var lease :| lease in s.leases && lease.index < |s.cells| && s' == ReleaseStart(s, lease);
      ReleaseStaysPast(s, lease, i, generation);
    }
  }

  lemma StaysPast(s: State, s': State, i: nat, generation: nat)
    requires Inv(s) && Inv(s') && Next(s, s') && i < |s.cells| && Past(s.cells[i], generation)
    ensures i < |s'.cells| && Past(s'.cells[i], generation)
  {
    NothingLostNow(s', i);
    if ThreadStep(s, s') {
      ThreadMovesCells(s, s');
      ThreadStaysPast(s, s', i, generation);
    } else {
      assert s'.cells == s.cells;
    }
  }

  lemma LaterLeaseIsNewer(s: State, lease: Lease, generation: nat)
    requires Inv(s) && lease in s.leases && lease.index < |s.cells| && Past(s.cells[lease.index], generation)
    ensures lease.generation > generation
  {
  }

  /** Once a lease's release has begun, every later lease of the slot has a newer generation. */
  lemma ReleasedLeaseNeverReturns(run: seq<State>, j: nat, k: nat, released: Lease, later: Lease)
    requires IsRun(Init, Next, run) && j < k < |run| && released in run[j].leases && released.index < |run[j].cells|
    requires run[j + 1] == ReleaseStart(run[j], released)
    requires later in run[k].leases && later.index == released.index
    ensures later.generation > released.generation
  {
    var i, g := released.index, released.generation;
    var past := (s: State) => Inv(s) && i < |s.cells| && Past(s.cells[i], g);
    RunKeeps(run, j);
    RunKeeps(run, j + 1);
    ReleaseStartsPast(run[j], released);
    forall s, s' | past(s) && Next(s, s') ensures past(s') {
      NextKeeps(s, s');
      StaysPast(s, s', i, g);
    }
    KeptOnRun(Init, Next, past, run, j + 1, k);
    LaterLeaseIsNewer(run[k], later, g);
  }

  // ---------------------------------------------------------------------------------------------
  // What was asked for is what is handed out
  // ---------------------------------------------------------------------------------------------

  /** The acquire wins the slot: off a free list, or as the next unassigned one. */
  ghost predicate Wins(s: State, s': State, p: Seek, i: nat) {
    && p in s.seekers && i < |s.cells| && (p.Swapping? || p.Bumping?)
    && (p.Swapping? ==>
          && p.head.index == Some(i) && AcquireList(p.a, p.at) < |s.heads| == |s.lists|
          && s.heads[AcquireList(p.a, p.at)] == p.head && s' == PopWon(s, p))
    && (p.Bumping? ==> p.index == i && s.nextUnassigned == i && s' == ReserveWon(s, p))
  }

  /** The slot being acquired has, or is about to get, this context and shard. */
  predicate Serves(c: Cell, context: nat, shard: nat) {
    if c.work.Reserved? then c.work.context == context && c.work.shard == shard else c.context == context && c.shard == shard
  }

  lemma LocalServes(contexts: seq<nat>, hash: nat -> nat, heads: seq<Head>, c: Cell, c': Cell, context: nat, shard: nat)
    requires LocalStep(contexts, hash, heads, c, c') && Serves(c, context, shard)
    ensures Serves(c', context, shard)
  {
  }

  lemma CellServes(s: State, c: Cell, c': Cell, context: nat, shard: nat)
    requires CellNext(s, c, c') && Serves(c, context, shard)
    ensures Serves(c', context, shard)
  {
    if LocalStep(s.contexts, s.hash, s.heads, c, c') { LocalServes(s.contexts, s.hash, s.heads, c, c', context, shard); }
  }

  lemma HolderServes(s: State, s': State, i: nat, j: nat, context: nat, shard: nat)
    requires i < |s.cells| && j < |s.cells| && HolderStep(s, s', j) && Serves(s.cells[i], context, shard)
    ensures i < |s'.cells| && Serves(s'.cells[i], context, shard)
  {
    HolderMovesItsCell(s, s', j);
    if i == j { CellServes(s, s.cells[j], s'.cells[j], context, shard); }
  }

  /** No acquire takes a slot that another one is acquiring. */
  lemma SeekerLeavesAcquired(s: State, s': State, p: Seek, i: nat)
    requires Inv(s) && p in s.seekers && SeekerStep(s, s', p) && i < |s.cells| && Acquiring(s.cells[i].work)
    ensures i < |s'.cells| && s'.cells[i] == s.cells[i]
  {
    if q :| SeekStep(s, p, q) && s' == s.(seekers := Reseek(s.seekers, p, q)) {
      assert s'.cells == s.cells;
    } else if p.Claiming? {
      assert ClaimWon(s, p).cells == s.cells;
    } else if p.Swapping? {
      SwapTakesFirst(s, p);
    } else {
      assert CellOk(p.index, s.cells[p.index], s.contexts, s.hash, s.heads, s.nextUnassigned);
    }
  }

  lemma ReleaseLeavesAcquired(s: State, lease: Lease, i: nat)
    requires Inv(s) && lease in s.leases && lease.index < |s.cells| && i < |s.cells| && Acquiring(s.cells[i].work)
    ensures ReleaseStart(s, lease).cells[i] == s.cells[i]
  {
  }

  lemma ThreadServes(s: State, s': State, i: nat, context: nat, shard: nat)
    requires Inv(s) && CellsStep(s, s') && i < |s.cells| && Acquiring(s.cells[i].work) && Serves(s.cells[i], context, shard)
    ensures i < |s'.cells| && Serves(s'.cells[i], context, shard)
  {
    if s'.cells == s.cells {
    } else if p :| p in s.seekers && SeekerStep(s, s', p) {
      SeekerLeavesAcquired(s, s', p, i);
    } else if j :| 0 <= j < |s.cells| && HolderStep(s, s', j) {
      HolderServes(s, s', i, j, context, shard);
    } else {
      var lease :| lease in s.leases && lease.index < |s.cells| && s' == ReleaseStart(s, lease);
      ReleaseLeavesAcquired(s, lease, i);
    }
  }

  predicate AcquiringAt(s: State, i: nat) { i < |s.cells| && Acquiring(s.cells[i].work) }

  predicate ServesAt(s: State, i: nat, context: nat, shard: nat) { i < |s.cells| && Serves(s.cells[i], context, shard) }

  lemma StepServes(s: State, s': State, i: nat, context: nat, shard: nat)
    requires Inv(s) && Next(s, s') && AcquiringAt(s, i) && ServesAt(s, i, context, shard)
    ensures ServesAt(s', i, context, shard)
  {
    if ThreadStep(s, s') { ThreadMovesCells(s, s'); ThreadServes(s, s', i, context, shard); } else { assert s'.cells == s.cells; }
  }

  lemma ServesThroughout(run: seq<State>, j: nat, k: nat, i: nat, context: nat, shard: nat)
    requires IsRun(Init, Next, run) && j <= k < |run| && ServesAt(run[j], i, context, shard)
    requires forall m :: j <= m <= k ==> AcquiringAt(run[m], i)
    ensures ServesAt(run[k], i, context, shard)
  {
    var during := (s: State) => AcquiringAt(s, i);
    var kept := (s: State) => Inv(s) && AcquiringAt(s, i) && ServesAt(s, i, context, shard);
    forall s, s' | kept(s) && Next(s, s') && during(s') ensures kept(s') {
      NextKeeps(s, s');
      StepServes(s, s', i, context, shard);
    }
    RunKeeps(run, j);
    KeptWhile(Init, Next, during, kept, run, j, k);
  }

  lemma WinnerServes(run: seq<State>, j: nat, p: Seek, i: nat)
    requires IsRun(Init, Next, run) && j + 1 < |run| && Wins(run[j], run[j + 1], p, i)
    ensures i < |run[j + 1].cells|
    ensures var c := run[j + 1].cells[i];
      if p.Bumping? then Serves(c, p.a.context, p.a.shard) else Serves(c, p.a.context, c.shard)
  {
    if p.Swapping? { PopInstallsSuccessor(run, j, p); }
  }

  lemma LeaseServes(s: State, i: nat, context: nat, shard: nat)
    requires Inv(s) && ServesAt(s, i, context, shard) && s.cells[i].work.Out?
    ensures LeasedFor(s.leases, i, context, shard)
  {
    assert LeaseOf(i, s.cells[i]) in s.leases;
  }

  predicate LeasedFor(leases: multiset<Lease>, i: nat, context: nat, shard: nat) {
    exists lease :: lease in leases && lease.index == i && lease.context == context && lease.shard == shard
  }

  lemma HandedOut(run: seq<State>, k: nat, i: nat, context: nat, shard: nat)
    requires IsRun(Init, Next, run) && k + 1 < |run| && AcquiringAt(run[k], i) && ServesAt(run[k], i, context, shard)
    requires i < |run[k + 1].cells| && run[k + 1].cells[i].work.Out?
    ensures LeasedFor(run[k + 1].leases, i, context, shard)
  {
    RunKeeps(run, k);
    RunKeeps(run, k + 1);
    StepServes(run[k], run[k + 1], i, context, shard);
    LeaseServes(run[k + 1], i, context, shard);
  }

  /**
   * From the step that wins a slot to the step that hands it out, whatever runs in between: the lease is
   * for the slot, for the context that was asked for and, for a slot assigned anew, for the shard.
   */
  lemma AcquireReturnsWhatWasAsked(run: seq<State>, j: nat, k: nat, p: Seek, i: nat)
    requires IsRun(Init, Next, run) && j < k && k + 1 < |run| && Wins(run[j], run[j + 1], p, i)
    requires forall m :: j < m <= k ==> AcquiringAt(run[m], i)
    requires i < |run[k + 1].cells| && run[k + 1].cells[i].work.Out?
    ensures i < |run[j + 1].cells|
    ensures LeasedFor(run[k + 1].leases, i, p.a.context, if p.Bumping? then p.a.shard else run[j + 1].cells[i].shard)
  {
    WinnerServes(run, j, p, i);
    var shard := if p.Bumping? then p.a.shard else run[j + 1].cells[i].shard;
    ServesThroughout(run, j + 1, k, i, p.a.context, shard);
    HandedOut(run, k, i, p.a.context, shard);
  }

  // ---------------------------------------------------------------------------------------------
  // The order of an acquire, and the shape of a count
  // ---------------------------------------------------------------------------------------------

  /** An empty list sends an acquire from its own shard to the unassigned slots, and from there to each other shard in turn. */
  lemma AcquireTriesInTurn(run: seq<State>, k: nat, p: Seek)
    requires IsRun(Init, Next, run) && k < |run| && p in run[k].seekers && p.Popping?
    ensures AcquireList(p.a, p.at) < |run[k].heads|
    ensures var a := p.a.(empty := p.a.empty + {AcquireList(p.a, p.at)});
      var q := if p.at == 0 then Some(Reserving(a)) else if p.at < 255 then Some(Popping(a, p.at + 1)) else None;
      run[k].heads[AcquireList(p.a, p.at)].index.None? ==> SeekStep(run[k], p, q)
  {
    RunKeeps(run, k);
    assert SeekOk(p, run[k].contexts, run[k].hash, run[k].heads, run[k].cells);
  }

  /** Two steps of a count add the active and the handed-over slots of one shard. */
  lemma CountReadsBothCounters(s: State)
    requires s.scan.Scan? && !s.scan.half && s.scan.shard < |s.active| == |s.handoff|
    ensures ScanNext(ScanNext(s)) ==
      s.(scan := Scan(s.scan.quiet, s.scan.shard + 1, false, s.scan.total + s.active[s.scan.shard] + s.handoff[s.scan.shard]))
  {
  }

  /** A count is quiet exactly when it begins after the close with no acquire under way. */
  lemma QuietExactly(s: State)
    ensures ScanStart(s).scan.quiet <==>
      && s.closed && s.seekers == multiset{}
      && forall i :: 0 <= i < |s.cells| ==>
           var w := s.cells[i].work;
           !(w.Reserved? || w.Branded? || w.Assigning? || w.Popped? || w.Regenerating? || w.Counting? || w.Raising? || w.RaiseSwap?)
  {
  }

  /** The context table has an entry for each slot, up to 256. */
  lemma ContextTableSize(run: seq<State>, k: nat)
    requires IsRun(Init, Next, run) && k < |run|
    ensures |run[k].contexts| == if |run[k].cells| <= 256 then |run[k].cells| else 256
    ensures |run[k].heads| == |run[k].lists| == |run[k].contexts| * 256
  {
    RunKeeps(run, k);
  }
}
