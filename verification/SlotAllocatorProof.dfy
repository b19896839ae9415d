/** The invariant of the slot allocator, and that every step keeps it. */
module SlotAllocatorProof {
  import opened Common
  import opened SlotAllocator

  // ---------------------------------------------------------------------------------------------
  // The invariant
  // ---------------------------------------------------------------------------------------------

  predicate PathTo(contexts: seq<nat>, hash: nat -> nat, j: nat)
    requires j < |contexts|
  {
    var start := Start(hash, contexts[j], |contexts|);
    Passed(contexts, start, OffsetOf(start, j, |contexts|), contexts[j])
  }

  /** Every claimed entry is where a lookup of its context ends. */
  predicate TableOk(contexts: seq<nat>, hash: nat -> nat) {
    forall j :: 0 <= j < |contexts| && contexts[j] != 0 ==> PathTo(contexts, hash, j)
  }

  function At(t: seq<nat>, k: nat): Option<nat> { if k < |t| then Some(t[k]) else None }

  /** The head and the successor links spell out the list, and its slots are marked as on it. */
  predicate ListOk(cells: seq<Cell>, head: Head, list: seq<nat>, l: nat) {
    && head.index == At(list, 0)
    && Distinct(list)
    && forall k :: 0 <= k < |list| ==>
      list[k] < |cells| && cells[list[k]].work == Listed(l) && cells[list[k]].next == At(list, k + 1)
  }

  predicate ListsOk(cells: seq<Cell>, heads: seq<Head>, lists: seq<seq<nat>>) {
    && |heads| == |lists|
    && (forall l :: 0 <= l < |lists| ==> ListOk(cells, heads[l], lists[l], l))
    && (forall i :: 0 <= i < |cells| && cells[i].work.Listed? ==>
          cells[i].work.list < |lists| && i in lists[cells[i].work.list])
  }

  /** A head read earlier: the tag tells whether the list has changed since. */
  predicate Seen(head: Head, now: Head) { head.tag <= now.tag && (head.tag == now.tag ==> head == now) }

  predicate Home(contexts: seq<nat>, context: nat, shard: nat, l: nat) {
    l / SHARDS < |contexts| && contexts[l / SHARDS] == context && l % SHARDS == shard
  }

  predicate Named(contexts: seq<nat>, context: nat, shard: nat) {
    context != 0 && context in contexts && shard < SHARDS
  }

  predicate HoldsLease(w: Work) { w.Checking? || w.Handing? || w.Freeing? || w.Looking? || w.Uncounting? }

  predicate OnPush(w: Work) { w.PushLoad? || w.PushStore? || w.PushSwap? || w.Listed? }

  predicate StateOk(w: Work, state: SlotState) {
    state == if w.Untouched? || w.Reserved? || w.Branded? then Unassigned
             else if w.Popped? || w.Looking? || w.Uncounting? || OnPush(w) then Free
             else Leased
  }

  predicate ReleaseOk(i: nat, c: Cell, contexts: seq<nat>, hash: nat -> nat) {
    && (HoldsLease(c.work) ==> c.work.lease == LeaseOf(i, c))
    && (c.work.Looking? ==>
          c.work.offset < |contexts| && Passed(contexts, Start(hash, c.context, |contexts|), c.work.offset, c.context))
    && (c.work.Uncounting? ==> c.work.bucket < |contexts| && contexts[c.work.bucket] == c.context)
  }

  predicate PushOk(c: Cell, contexts: seq<nat>, heads: seq<Head>) {
    && (OnPush(c.work) ==> c.work.list < |heads| && Home(contexts, c.context, c.shard, c.work.list))
    && (c.work.PushStore? || c.work.PushSwap? ==> Seen(c.work.head, heads[c.work.list]))
    && (c.work.PushSwap? ==> c.next == c.work.head.index)
  }

  predicate CellOk(i: nat, c: Cell, contexts: seq<nat>, hash: nat -> nat, heads: seq<Head>, next: nat) {
    && !c.work.Lost?
    && (c.work.Untouched? <==> i >= next)
    && StateOk(c.work, c.state)
    && (c.work.Reserved? ==> Named(contexts, c.work.context, c.work.shard))
    && (!c.work.Untouched? && !c.work.Reserved? ==> Named(contexts, c.context, c.shard))
    && ReleaseOk(i, c, contexts, hash)
    && PushOk(c, contexts, heads)
  }

  predicate CellsOk(cells: seq<Cell>, contexts: seq<nat>, hash: nat -> nat, heads: seq<Head>, next: nat) {
    forall i :: 0 <= i < |cells| ==> CellOk(i, cells[i], contexts, hash, heads, next)
  }

  predicate AcquireOk(a: Acquire, contexts: seq<nat>) {
    a.context != 0 && a.bucket < |contexts| && contexts[a.bucket] == a.context && a.shard < SHARDS
  }

  predicate SeekOk(p: Seek, contexts: seq<nat>, hash: nat -> nat, heads: seq<Head>, cells: seq<Cell>) {
    match p
    case Probing(context, shard, offset) => ProbeOk(context, shard, offset, contexts, hash)
    case Claiming(context, shard, offset) => ProbeOk(context, shard, offset, contexts, hash)
    case Popping(a, at) => AcquireOk(a, contexts) && at < SHARDS
    case Following(a, at, head) => FollowOk(a, at, head, contexts, heads, cells)
    case Swapping(a, at, head, next) =>
      && FollowOk(a, at, head, contexts, heads, cells)
      && (heads[AcquireList(a, at)].tag == head.tag ==> cells[head.index.value].next == next)
    case Reserving(a) => AcquireOk(a, contexts)
    case Bumping(a, index) => AcquireOk(a, contexts) && index < |cells|
  }

  predicate ProbeOk(context: nat, shard: nat, offset: nat, contexts: seq<nat>, hash: nat -> nat) {
    && context != 0 && shard < SHARDS && offset < |contexts|
    && Passed(contexts, Start(hash, context, |contexts|), offset, context)
  }

  predicate FollowOk(a: Acquire, at: nat, head: Head, contexts: seq<nat>, heads: seq<Head>, cells: seq<Cell>) {
    && AcquireOk(a, contexts) && at < SHARDS && AcquireList(a, at) < |heads|
    && head.index.Some? && head.index.value < |cells|
    && Seen(head, heads[AcquireList(a, at)])
  }

  predicate SeekersOk(seekers: multiset<Seek>, contexts: seq<nat>, hash: nat -> nat, heads: seq<Head>, cells: seq<Cell>) {
    forall p :: p in seekers ==> SeekOk(p, contexts, hash, heads, cells)
  }

  /** The leases callers hold, one for each leased slot and no other. */
  predicate LeasesOk(leases: multiset<Lease>, cells: seq<Cell>) {
    && (forall lease :: lease in leases ==>
          && leases[lease] == 1 && lease.index < |cells|
          && cells[lease.index].work == Out && lease == LeaseOf(lease.index, cells[lease.index]))
    && (forall i :: 0 <= i < |cells| && cells[i].work == Out ==> LeaseOf(i, cells[i]) in leases)
  }

  predicate IsActive(w: Work) { w.Raising? || w.RaiseSwap? || w.Out? || HoldsLease(w) }

  predicate IsHandoff(w: Work) {
    w.Freeing? || w.Looking? || w.Uncounting? || w.PushLoad? || w.PushStore? || w.PushSwap?
  }

  predicate IsAssigned(w: Work) { !w.Untouched? && !w.Reserved? && !w.Branded? && !w.Assigning? }

  function ActiveIn(shard: nat): Cell -> bool { (c: Cell) => c.shard == shard && IsActive(c.work) }
  function HandoffIn(shard: nat): Cell -> bool { (c: Cell) => c.shard == shard && IsHandoff(c.work) }
  function AssignedIn(shard: nat): Cell -> bool { (c: Cell) => c.shard == shard && IsAssigned(c.work) }
  const AnyAssigned: Cell -> bool := (c: Cell) => IsAssigned(c.work)

  predicate ActiveOk(active: seq<int>, cells: seq<Cell>) {
    |active| == SHARDS && forall k :: 0 <= k < SHARDS ==> active[k] == Count(cells, ActiveIn(k))
  }

  predicate HandoffOk(handoff: seq<int>, finishing: multiset<nat>, cells: seq<Cell>) {
    && |handoff| == SHARDS
    && (forall k :: 0 <= k < SHARDS ==> handoff[k] == Count(cells, HandoffIn(k)) + finishing[k])
    && (forall k :: k in finishing ==> k < SHARDS)
  }

  predicate IsRaiser(c: Cell, shard: nat, active: int) {
    c.shard == shard && (c.work.Raising? || c.work.RaiseSwap?) && c.work.active == active
  }

  predicate RaiserOk(c: Cell, peak: seq<int>) {
    && (c.work.Raising? || c.work.RaiseSwap? ==> c.shard < |peak| && c.work.active <= peak[c.shard])
    && (c.work.RaiseSwap? ==> c.work.seen < c.work.active)
  }

  /** The high-water mark is the peak, or a thread is on its way to raise it there. */
  predicate HighOk(high: int, peak: int, cells: seq<Cell>, shard: nat) {
    high <= peak && (high == peak || exists i :: 0 <= i < |cells| && IsRaiser(cells[i], shard, peak))
  }

  predicate PeaksOk(active: seq<int>, high: seq<int>, peak: seq<int>, totalPeak: int, cells: seq<Cell>) {
    && |active| == |high| == |peak| == SHARDS
    && (forall k :: 0 <= k < SHARDS ==>
          && active[k] <= peak[k] <= Count(cells, AssignedIn(k))
          && HighOk(high[k], peak[k], cells, k))
    && (forall i :: 0 <= i < |cells| ==> RaiserOk(cells[i], peak))
    && Sum(active) <= totalPeak <= Sum(peak)
  }

  predicate Quiet(c: Cell) { !IsActive(c.work) && !IsHandoff(c.work) }

  /** What a scan that began with no acquire about has established so far. */
  predicate ScanOk(scan: Scan, closed: bool, seekers: multiset<Seek>, cells: seq<Cell>) {
    scan.Scan? && scan.quiet ==>
      && Frozen(closed, seekers, cells)
      && scan.total >= 0
      && scan.shard <= SHARDS
      && (scan.total == 0 ==> forall i :: 0 <= i < |cells| ==>
            && (cells[i].shard < scan.shard ==> Quiet(cells[i]))
            && (cells[i].shard == scan.shard && scan.half ==> !IsActive(cells[i].work)))
  }

  predicate Shape(s: State) {
    |s.contexts| == ContextCapacity(|s.cells|) && |s.heads| == |s.contexts| * SHARDS && s.nextUnassigned <= |s.cells|
  }

  predicate Structure(s: State) {
    && TableOk(s.contexts, s.hash)
    && ListsOk(s.cells, s.heads, s.lists)
    && CellsOk(s.cells, s.contexts, s.hash, s.heads, s.nextUnassigned)
    && SeekersOk(s.seekers, s.contexts, s.hash, s.heads, s.cells)
  }

  predicate Accounts(s: State) {
    && LeasesOk(s.leases, s.cells)
    && ActiveOk(s.active, s.cells)
    && HandoffOk(s.handoff, s.finishing, s.cells)
    && s.assignedSlots == Count(s.cells, AnyAssigned)
    && PeaksOk(s.active, s.high, s.peak, s.totalPeak, s.cells)
    && ScanOk(s.scan, s.closed, s.seekers, s.cells)
  }

  predicate Inv(s: State) { Shape(s) && Structure(s) && Accounts(s) }

  // ---------------------------------------------------------------------------------------------
  // The context table
  // ---------------------------------------------------------------------------------------------

  /** A lookup of a claimed context neither meets a free entry nor runs off the table. */
  lemma LookupGoesOn(contexts: seq<nat>, hash: nat -> nat, context: nat, offset: nat)
    requires TableOk(contexts, hash) && context != 0 && context in contexts && offset < |contexts|
    requires Passed(contexts, Start(hash, context, |contexts|), offset, context)
    ensures var current := contexts[ProbeAt(Start(hash, context, |contexts|), offset, |contexts|)];
      || current == context
      || (current != 0 && offset + 1 < |contexts|
          && Passed(contexts, Start(hash, context, |contexts|), offset + 1, context))
  {
    var n, start := |contexts|, Start(hash, context, |contexts|);
    var j :| 0 <= j < n && contexts[j] == context;
    assert PathTo(contexts, hash, j);
    var end := OffsetOf(start, j, n);
    assert contexts[ProbeAt(start, end, n)] == context;
    assert offset <= end;
  }

  lemma PassedKept(contexts: seq<nat>, start: nat, n: nat, context: nat, at: nat, claimed: nat)
    requires start < |contexts| && n <= |contexts| && at < |contexts|
    requires Passed(contexts, start, n, context) && contexts[at] == 0
    ensures Passed(contexts[at := claimed], start, n, context)
  {
  }

  /** A claim puts the context where its lookups will end, and nowhere else. */
  lemma ClaimKeepsTable(contexts: seq<nat>, hash: nat -> nat, context: nat, offset: nat)
    requires TableOk(contexts, hash) && context != 0 && offset < |contexts|
    requires Passed(contexts, Start(hash, context, |contexts|), offset, context)
    requires contexts[ProbeAt(Start(hash, context, |contexts|), offset, |contexts|)] == 0
    ensures TableOk(contexts[ProbeAt(Start(hash, context, |contexts|), offset, |contexts|) := context], hash)
  {
    var n, start := |contexts|, Start(hash, context, |contexts|);
    var at := ProbeAt(start, offset, n);
    var contexts' := contexts[at := context];
    forall j | 0 <= j < n && contexts'[j] != 0 ensures PathTo(contexts', hash, j) {
      if j == at {
        assert OffsetOf(start, at, n) == offset;
        PassedKept(contexts, start, offset, context, at, context);
      } else {
        var from := Start(hash, contexts[j], n);
        assert PathTo(contexts, hash, j);
        PassedKept(contexts, from, OffsetOf(from, j, n), contexts[j], at, context);
      }
    }
  }

  lemma ClaimKeepsCell(i: nat, c: Cell, contexts: seq<nat>, hash: nat -> nat, heads: seq<Head>, next: nat, at: nat, context: nat)
    requires CellOk(i, c, contexts, hash, heads, next) && at < |contexts| && contexts[at] == 0
    ensures CellOk(i, c, contexts[at := context], hash, heads, next)
  {
    var contexts' := contexts[at := context];
    assert forall x :: x in contexts && x != 0 ==> x in contexts' by {
      forall x | x in contexts && x != 0 ensures x in contexts' {
        var j :| 0 <= j < |contexts| && contexts[j] == x;
        assert contexts'[j] == x;
      }
    }
    if c.work.Looking? {
      PassedKept(contexts, Start(hash, c.context, |contexts|), c.work.offset, c.context, at, context);
    }
  }

  lemma ClaimKeepsSeek(p: Seek, contexts: seq<nat>, hash: nat -> nat, heads: seq<Head>, cells: seq<Cell>, at: nat, context: nat)
    requires SeekOk(p, contexts, hash, heads, cells) && at < |contexts| && contexts[at] == 0
    ensures SeekOk(p, contexts[at := context], hash, heads, cells)
  {
    if p.Probing? || p.Claiming? {
      PassedKept(contexts, Start(hash, p.context, |contexts|), p.offset, p.context, at, context);
    }
  }

  // ---------------------------------------------------------------------------------------------
  // Slots and lists
  // ---------------------------------------------------------------------------------------------

  lemma UpdateKeepsLists(cells: seq<Cell>, heads: seq<Head>, lists: seq<seq<nat>>, i: nat, c: Cell)
    requires ListsOk(cells, heads, lists) && i < |cells| && !cells[i].work.Listed? && !c.work.Listed?
    ensures ListsOk(cells[i := c], heads, lists)
  {
    forall l | 0 <= l < |lists| ensures ListOk(cells[i := c], heads[l], lists[l], l) {
      assert ListOk(cells, heads[l], lists[l], l);
    }
  }

  lemma UpdateKeepsSeek(p: Seek, contexts: seq<nat>, hash: nat -> nat, heads: seq<Head>, lists: seq<seq<nat>>,
                        cells: seq<Cell>, i: nat, c: Cell)
    requires SeekOk(p, contexts, hash, heads, cells)
    requires ListsOk(cells, heads, lists) && i < |cells| && !cells[i].work.Listed?
    ensures SeekOk(p, contexts, hash, heads, cells[i := c])
  {
    if p.Swapping? {
      var l := AcquireList(p.a, p.at);
      assert ListOk(cells, heads[l], lists[l], l);
    }
  }

  /** A slot that stays off the lists can be rewritten without disturbing anyone else. */
  lemma UpdateKeepsStructure(s: State, i: nat, c: Cell)
    requires Structure(s) && i < |s.cells| && !s.cells[i].work.Listed? && !c.work.Listed?
    requires CellOk(i, c, s.contexts, s.hash, s.heads, s.nextUnassigned)
    ensures Structure(s.(cells := s.cells[i := c]))
  {
    UpdateKeepsLists(s.cells, s.heads, s.lists, i, c);
    forall p | p in s.seekers ensures SeekOk(p, s.contexts, s.hash, s.heads, s.cells[i := c]) {
      UpdateKeepsSeek(p, s.contexts, s.hash, s.heads, s.lists, s.cells, i, c);
    }
  }

  lemma AcquireLocalOk(i: nat, c: Cell, c': Cell, contexts: seq<nat>, hash: nat -> nat, heads: seq<Head>, next: nat)
    requires CellOk(i, c, contexts, hash, heads, next) && AcquireLocal(c, c')
    ensures CellOk(i, c', contexts, hash, heads, next)
  {
  }

  lemma ReleaseLocalOk(i: nat, c: Cell, c': Cell, contexts: seq<nat>, hash: nat -> nat, heads: seq<Head>, next: nat)
    requires CellOk(i, c, contexts, hash, heads, next) && TableOk(contexts, hash)
    requires ReleaseLocal(contexts, hash, c, c')
    ensures CellOk(i, c', contexts, hash, heads, next)
  {
    if c.work.Looking? {
      LookupGoesOn(contexts, hash, c.context, c.work.offset);
    }
  }

  lemma PushLocalOk(i: nat, c: Cell, c': Cell, contexts: seq<nat>, hash: nat -> nat, heads: seq<Head>, next: nat)
    requires CellOk(i, c, contexts, hash, heads, next) && PushLocal(heads, c, c')
    ensures CellOk(i, c', contexts, hash, heads, next)
  {
  }

  /** A changed head carries a new tag, so nothing read before it can be mistaken for it. */
  lemma BumpKeepsCell(i: nat, c: Cell, contexts: seq<nat>, hash: nat -> nat, heads: seq<Head>, next: nat, l: nat, head: Head)
    requires CellOk(i, c, contexts, hash, heads, next) && l < |heads| && head.tag == heads[l].tag + 1
    ensures CellOk(i, c, contexts, hash, heads[l := head], next)
  {
  }

  lemma BumpKeepsSeek(p: Seek, contexts: seq<nat>, hash: nat -> nat, heads: seq<Head>, lists: seq<seq<nat>>,
                      cells: seq<Cell>, i: nat, c: Cell, l: nat, head: Head)
    requires SeekOk(p, contexts, hash, heads, cells) && ListsOk(cells, heads, lists)
    requires l < |heads| && head.tag == heads[l].tag + 1 && i < |cells|
    requires cells[i].work.Listed? ==> c.next == cells[i].next
    ensures SeekOk(p, contexts, hash, heads[l := head], cells[i := c])
  {
    if p.Swapping? && AcquireList(p.a, p.at) != l {
      var at := AcquireList(p.a, p.at);
      assert ListOk(cells, heads[at], lists[at], at);
    }
  }

  lemma PopKeepsList(cells: seq<Cell>, head: Head, list: seq<nat>, l: nat, c: Cell)
    requires ListOk(cells, head, list, l) && list != [] && list[0] < |cells| && !c.work.Listed?
    ensures ListOk(cells[list[0] := c], Head(cells[list[0]].next, head.tag + 1), list[1..], l)
  {
    assert forall k :: 0 <= k < |list| - 1 ==> list[1..][k] == list[k + 1];
  }

  lemma PushKeepsList(cells: seq<Cell>, head: Head, list: seq<nat>, l: nat, i: nat, c: Cell)
    requires ListOk(cells, head, list, l) && i < |cells| && !cells[i].work.Listed?
    requires c.work == Listed(l) && c.next == head.index
    ensures ListOk(cells[i := c], Head(Some(i), head.tag + 1), [i] + list, l)
  {
    assert forall k :: 1 <= k < |list| + 1 ==> ([i] + list)[k] == list[k - 1];
  }

  lemma PopKeepsLists(cells: seq<Cell>, heads: seq<Head>, lists: seq<seq<nat>>, l: nat, c: Cell)
    requires ListsOk(cells, heads, lists) && l < |lists| && lists[l] != [] && lists[l][0] < |cells| && !c.work.Listed?
    ensures var i := lists[l][0];
      ListsOk(cells[i := c], heads[l := Head(cells[i].next, heads[l].tag + 1)], lists[l := lists[l][1..]])
  {
    var i := lists[l][0];
    var cells', lists' := cells[i := c], lists[l := lists[l][1..]];
    var heads' := heads[l := Head(cells[i].next, heads[l].tag + 1)];
    assert ListOk(cells, heads[l], lists[l], l);
    forall k | 0 <= k < |lists| ensures ListOk(cells', heads'[k], lists'[k], k) {
      assert ListOk(cells, heads[k], lists[k], k);
      if k == l { PopKeepsList(cells, heads[l], lists[l], l, c); }
    }
    assert lists[l] == [i] + lists[l][1..];
  }

  lemma PushKeepsLists(cells: seq<Cell>, heads: seq<Head>, lists: seq<seq<nat>>, l: nat, i: nat, c: Cell)
    requires ListsOk(cells, heads, lists) && l < |lists| && i < |cells| && !cells[i].work.Listed?
    requires c.work == Listed(l) && c.next == heads[l].index
    ensures ListsOk(cells[i := c], heads[l := Head(Some(i), heads[l].tag + 1)], lists[l := [i] + lists[l]])
  {
    var cells', lists' := cells[i := c], lists[l := [i] + lists[l]];
    var heads' := heads[l := Head(Some(i), heads[l].tag + 1)];
    forall k | 0 <= k < |lists| ensures ListOk(cells', heads'[k], lists'[k], k) {
      assert ListOk(cells, heads[k], lists[k], k);
      if k == l { PushKeepsList(cells, heads[l], lists[l], l, i, c); }
    }
  }

  /** The slot under an unchanged head is the list's first, and the successor read from it is the second. */
  lemma SwapTakesFirst(s: State, p: Seek)
    requires Structure(s) && p in s.seekers && p.Swapping?
    requires s.heads[AcquireList(p.a, p.at)] == p.head
    ensures var list := s.lists[AcquireList(p.a, p.at)];
      && list != [] && p.head.index == Some(list[0]) && p.next == At(list, 1)
      && s.cells[list[0]].work == Listed(AcquireList(p.a, p.at)) && s.cells[list[0]].next == p.next
  {
    var l := AcquireList(p.a, p.at);
    assert ListOk(s.cells, s.heads[l], s.lists[l], l);
  }

  lemma PopKeepsStructure(s: State, p: Seek)
    requires Structure(s) && p in s.seekers && p.Swapping? && s.heads[AcquireList(p.a, p.at)] == p.head
    ensures Structure(PopWon(s, p))
  {
    var l, s' := AcquireList(p.a, p.at), PopWon(s, p);
    SwapTakesFirst(s, p);
    var i := s.lists[l][0];
    var c := s.cells[i].(work := Popped);
    PopKeepsLists(s.cells, s.heads, s.lists, l, c);
    assert CellOk(i, s.cells[i], s.contexts, s.hash, s.heads, s.nextUnassigned);
    forall j | 0 <= j < |s.cells| ensures CellOk(j, s'.cells[j], s.contexts, s.hash, s'.heads, s.nextUnassigned) {
      BumpKeepsCell(j, s'.cells[j], s.contexts, s.hash, s.heads, s.nextUnassigned, l, s'.heads[l]);
    }
    forall q | q in s'.seekers ensures SeekOk(q, s.contexts, s.hash, s'.heads, s'.cells) {
      BumpKeepsSeek(q, s.contexts, s.hash, s.heads, s.lists, s.cells, i, c, l, s'.heads[l]);
    }
  }

  lemma PushKeepsStructure(s: State, i: nat)
    requires Structure(s) && i < |s.cells| && s.cells[i].work.PushSwap?
    requires s.heads[s.cells[i].work.list] == s.cells[i].work.head
    ensures Structure(PushWon(s, i))
  {
    var l, s' := s.cells[i].work.list, PushWon(s, i);
    var c := s.cells[i].(work := Listed(l));
    assert CellOk(i, s.cells[i], s.contexts, s.hash, s.heads, s.nextUnassigned);
    PushKeepsLists(s.cells, s.heads, s.lists, l, i, c);
    forall j | 0 <= j < |s.cells| ensures CellOk(j, s'.cells[j], s.contexts, s.hash, s'.heads, s.nextUnassigned) {
      BumpKeepsCell(j, s'.cells[j], s.contexts, s.hash, s.heads, s.nextUnassigned, l, s'.heads[l]);
    }
    forall q | q in s'.seekers ensures SeekOk(q, s.contexts, s.hash, s'.heads, s'.cells) {
      BumpKeepsSeek(q, s.contexts, s.hash, s.heads, s.lists, s.cells, i, c, l, s'.heads[l]);
    }
  }

  lemma ClaimKeepsStructure(s: State, p: Seek)
    requires Structure(s) && p in s.seekers && p.Claiming?
    requires SeekOk(p, s.contexts, s.hash, s.heads, s.cells)
    requires s.contexts[ProbeAt(Start(s.hash, p.context, |s.contexts|), p.offset, |s.contexts|)] == 0
    ensures Structure(ClaimWon(s, p))
  {
    var at := ProbeAt(Start(s.hash, p.context, |s.contexts|), p.offset, |s.contexts|);
    var s' := ClaimWon(s, p);
    ClaimKeepsTable(s.contexts, s.hash, p.context, p.offset);
    forall i | 0 <= i < |s.cells| ensures CellOk(i, s.cells[i], s'.contexts, s.hash, s.heads, s.nextUnassigned) {
      ClaimKeepsCell(i, s.cells[i], s.contexts, s.hash, s.heads, s.nextUnassigned, at, p.context);
    }
    forall q | q in s'.seekers ensures SeekOk(q, s'.contexts, s.hash, s.heads, s.cells) {
      if q in s.seekers { ClaimKeepsSeek(q, s.contexts, s.hash, s.heads, s.cells, at, p.context); }
    }
  }

  lemma ReserveKeepsStructure(s: State, p: Seek)
    requires Structure(s) && p in s.seekers && p.Bumping? && p.index < |s.cells| && s.nextUnassigned == p.index
    ensures Structure(ReserveWon(s, p))
  {
    var i, s' := p.index, ReserveWon(s, p);
    assert CellOk(i, s.cells[i], s.contexts, s.hash, s.heads, s.nextUnassigned);
    UpdateKeepsLists(s.cells, s.heads, s.lists, i, s'.cells[i]);
    assert SeekOk(p, s.contexts, s.hash, s.heads, s.cells);
    forall j | 0 <= j < |s.cells| ensures CellOk(j, s'.cells[j], s.contexts, s.hash, s.heads, s'.nextUnassigned) {
      assert CellOk(j, s.cells[j], s.contexts, s.hash, s.heads, s.nextUnassigned);
    }
    forall q | q in s'.seekers ensures SeekOk(q, s.contexts, s.hash, s.heads, s'.cells) {
      UpdateKeepsSeek(q, s.contexts, s.hash, s.heads, s.lists, s.cells, i, s'.cells[i]);
    }
  }

  lemma FollowIsOk(s: State, a: Acquire, at: nat)
    requires Structure(s) && Shape(s) && AcquireOk(a, s.contexts) && at < SHARDS && AcquireList(a, at) < |s.heads|
    ensures var q := Follow(a, at, s.heads[AcquireList(a, at)]);
      q.Some? ==> SeekOk(q.value, s.contexts, s.hash, s.heads, s.cells)
  {
    var l := AcquireList(a, at);
    assert ListOk(s.cells, s.heads[l], s.lists[l], l);
  }

  lemma ProbedIsOk(s: State, p: Seek)
    requires (p.Probing? || p.Claiming?) && SeekOk(p, s.contexts, s.hash, s.heads, s.cells)
    requires p.Claiming? ==> s.contexts[ProbeAt(Start(s.hash, p.context, |s.contexts|), p.offset, |s.contexts|)] != 0
    ensures var q := Probed(s.contexts, s.hash, p);
      q.Some? ==> SeekOk(q.value, s.contexts, s.hash, s.heads, s.cells)
  {
  }

  lemma SeekStepIsOk(s: State, p: Seek, q: Option<Seek>)
    requires Structure(s) && Shape(s) && p in s.seekers && SeekStep(s, p, q)
    ensures q.Some? ==> SeekOk(q.value, s.contexts, s.hash, s.heads, s.cells)
  {
    assert SeekOk(p, s.contexts, s.hash, s.heads, s.cells);
    if p.Probing? || p.Claiming? { ProbedIsOk(s, p); }
    else if p.Popping? || p.Swapping? { FollowIsOk(s, p.a, p.at); }
  }

  lemma SeekKeepsStructure(s: State, p: Seek, q: Option<Seek>)
    requires Structure(s) && Shape(s) && p in s.seekers && SeekStep(s, p, q)
    ensures Structure(s.(seekers := Reseek(s.seekers, p, q)))
  {
    SeekStepIsOk(s, p, q);
  }

  // ---------------------------------------------------------------------------------------------
  // Counts
  // ---------------------------------------------------------------------------------------------

  lemma ActiveMoves(active: seq<int>, cells: seq<Cell>, i: nat, c: Cell, delta: int)
    requires ActiveOk(active, cells) && i < |cells| && One(IsActive(c.work)) == One(IsActive(cells[i].work)) + delta
    requires c.shard == cells[i].shard < SHARDS || (!IsActive(c.work) && !IsActive(cells[i].work))
    ensures ActiveOk(Bump(active, c.shard, delta), cells[i := c])
  {
    var active' := Bump(active, c.shard, delta);
    forall k | 0 <= k < SHARDS ensures active'[k] == Count(cells[i := c], ActiveIn(k)) {
      CountUpdate(cells, i, c, ActiveIn(k));
    }
  }

  lemma HandoffMoves(handoff: seq<int>, finishing: multiset<nat>, cells: seq<Cell>, i: nat, c: Cell, delta: int)
    requires HandoffOk(handoff, finishing, cells) && i < |cells|
    requires One(IsHandoff(c.work)) == One(IsHandoff(cells[i].work)) + delta
    requires c.shard == cells[i].shard < SHARDS || (!IsHandoff(c.work) && !IsHandoff(cells[i].work))
    ensures HandoffOk(Bump(handoff, c.shard, delta), finishing, cells[i := c])
  {
    var handoff' := Bump(handoff, c.shard, delta);
    forall k | 0 <= k < SHARDS ensures handoff'[k] == Count(cells[i := c], HandoffIn(k)) + finishing[k] {
      CountUpdate(cells, i, c, HandoffIn(k));
    }
  }

  lemma AssignedMoves(cells: seq<Cell>, i: nat, c: Cell)
    requires i < |cells|
    ensures Count(cells[i := c], AnyAssigned) + One(IsAssigned(cells[i].work)) == Count(cells, AnyAssigned) + One(IsAssigned(c.work))
  {
    CountUpdate(cells, i, c, AnyAssigned);
  }

  lemma ZeroBump(a: seq<int>, k: nat)
    ensures Bump(a, k, 0) == a
  {
  }

  /** The slot's thread still has its high-water mark to raise, if it had. */
  predicate StillRaises(c: Cell, c': Cell) {
    c.work.Raising? || c.work.RaiseSwap? ==>
      (c'.work.Raising? || c'.work.RaiseSwap?) && c'.work.active == c.work.active && c'.shard == c.shard
  }

  predicate StaysAssigned(c: Cell, c': Cell) { IsAssigned(c.work) ==> IsAssigned(c'.work) && c'.shard == c.shard }

  lemma PeakBelowAssigned(cells: seq<Cell>, i: nat, c: Cell, k: nat, peak: int)
    requires i < |cells| && StaysAssigned(cells[i], c) && peak <= Count(cells, AssignedIn(k))
    ensures peak <= Count(cells[i := c], AssignedIn(k))
  {
    CountUpdate(cells, i, c, AssignedIn(k));
  }

  lemma HighKept(high: int, peak: int, cells: seq<Cell>, shard: nat, i: nat, c: Cell)
    requires HighOk(high, peak, cells, shard) && i < |cells|
    requires StillRaises(cells[i], c) || (cells[i].work.active <= high)
    ensures HighOk(high, peak, cells[i := c], shard)
  {
    if high != peak {
      var j :| 0 <= j < |cells| && IsRaiser(cells[j], shard, peak);
      assert IsRaiser(cells[i := c][j], shard, peak);
    }
  }

  /** Steps that neither raise a count above its peak nor drop a raiser. */
  lemma PeaksKept(active: seq<int>, active': seq<int>, high: seq<int>, peak: seq<int>, totalPeak: int, cells: seq<Cell>, i: nat, c: Cell)
    requires PeaksOk(active, high, peak, totalPeak, cells) && i < |cells|
    requires |active'| == SHARDS && forall k :: 0 <= k < SHARDS ==> active'[k] <= active[k]
    requires StaysAssigned(cells[i], c) && RaiserOk(c, peak)
    requires StillRaises(cells[i], c) || (cells[i].shard < SHARDS && cells[i].work.active <= high[cells[i].shard])
    ensures PeaksOk(active', high, peak, totalPeak, cells[i := c])
  {
    forall k | 0 <= k < SHARDS
      ensures active'[k] <= peak[k] <= Count(cells[i := c], AssignedIn(k)) && HighOk(high[k], peak[k], cells[i := c], k)
    {
      PeakBelowAssigned(cells, i, c, k, peak[k]);
      if StillRaises(cells[i], c) || cells[i].shard == k {
        HighKept(high[k], peak[k], cells, k, i, c);
      } else if high[k] != peak[k] {
        var j :| 0 <= j < |cells| && IsRaiser(cells[j], k, peak[k]);
        assert IsRaiser(cells[i := c][j], k, peak[k]);
      }
    }
    SumLe(active', active);
  }

  lemma {:induction false} SumUpdate(a: seq<int>, k: nat, v: int)
    requires k < |a|
    ensures Sum(a[k := v]) == Sum(a) - a[k] + v
  {
    if k > 0 {
      assert a[k := v][1..] == a[1..][k - 1 := v];
      SumUpdate(a[1..], k - 1, v);
    } else {
      assert a[0 := v][1..] == a[1..];
    }
  }

  lemma {:induction false} SumLe(a: seq<int>, b: seq<int>)
    requires |a| == |b| && forall k :: 0 <= k < |a| ==> a[k] <= b[k]
    ensures Sum(a) <= Sum(b)
  {
    if a != [] { SumLe(a[1..], b[1..]); }
  }

  // ---------------------------------------------------------------------------------------------
  // Leases and scans
  // ---------------------------------------------------------------------------------------------

  lemma LeasesKept(leases: multiset<Lease>, cells: seq<Cell>, i: nat, c: Cell)
    requires LeasesOk(leases, cells) && i < |cells| && !cells[i].work.Out? && !c.work.Out?
    ensures LeasesOk(leases, cells[i := c])
  {
  }

  lemma LeaseAdded(leases: multiset<Lease>, cells: seq<Cell>, i: nat, c: Cell)
    requires LeasesOk(leases, cells) && i < |cells| && !cells[i].work.Out? && c.work.Out?
    ensures LeasesOk(leases + multiset{LeaseOf(i, c)}, cells[i := c])
  {
  }

  lemma LeaseTaken(leases: multiset<Lease>, cells: seq<Cell>, lease: Lease, c: Cell)
    requires LeasesOk(leases, cells) && lease in leases && !c.work.Out?
    ensures LeasesOk(leases - multiset{lease}, cells[lease.index := c])
  {
  }

  /** With no acquire about, a slot only moves from active through handoff to rest. */
  predicate Settles(c: Cell, c': Cell) {
    && !Acquiring(c'.work)
    && (IsActive(c'.work) ==> IsActive(c.work) && c'.shard == c.shard)
    && (IsHandoff(c'.work) ==> (IsActive(c.work) || IsHandoff(c.work)) && c'.shard == c.shard)
  }

  lemma ScanKept(scan: Scan, closed: bool, seekers: multiset<Seek>, cells: seq<Cell>, i: nat, c: Cell)
    requires ScanOk(scan, closed, seekers, cells) && i < |cells| && (Acquiring(cells[i].work) || Settles(cells[i], c))
    ensures ScanOk(scan, closed, seekers, cells[i := c])
  {
  }

  // ---------------------------------------------------------------------------------------------
  // Every step
  // ---------------------------------------------------------------------------------------------

  predicate SameShard(c: Cell, c': Cell) {
    c'.shard == c.shard < SHARDS || (!IsAssigned(c.work) && !IsAssigned(c'.work))
  }

  /** The accounts after one slot moved on, when its active count does not grow. */
  lemma MovedAccounts(s: State, s': State, i: nat, c: Cell, delta: int)
    requires Accounts(s) && i < |s.cells| && s'.cells == s.cells[i := c]
    requires SameShard(s.cells[i], c) && StaysAssigned(s.cells[i], c)
    requires delta <= 0 && One(IsActive(c.work)) == One(IsActive(s.cells[i].work)) + delta
    requires s'.active == Bump(s.active, c.shard, delta)
    requires s'.assignedSlots + One(IsAssigned(s.cells[i].work)) == s.assignedSlots + One(IsAssigned(c.work))
    requires s'.high == s.high && s'.peak == s.peak && s'.totalPeak == s.totalPeak
    requires RaiserOk(c, s.peak)
    requires StillRaises(s.cells[i], c) || (s.cells[i].shard < SHARDS && s.cells[i].work.active <= s.high[s.cells[i].shard])
    requires LeasesOk(s'.leases, s'.cells) && HandoffOk(s'.handoff, s'.finishing, s'.cells)
    requires ScanOk(s'.scan, s'.closed, s'.seekers, s'.cells)
    ensures Accounts(s')
  {
    ActiveMoves(s.active, s.cells, i, c, delta);
    AssignedMoves(s.cells, i, c);
    PeaksKept(s.active, s'.active, s.high, s.peak, s.totalPeak, s.cells, i, c);
  }

  predicate Moves(c: Cell, c': Cell, da: int, dh: int) {
    && SameShard(c, c') && StaysAssigned(c, c')
    && One(IsActive(c'.work)) == One(IsActive(c.work)) + da
    && One(IsHandoff(c'.work)) == One(IsHandoff(c.work)) + dh
    && (Acquiring(c.work) || Settles(c, c'))
    && !c.work.Listed? && !c'.work.Listed?
  }

  /** A slot moves on: `da` and `dh` say what it does to its shard's active and handoff counts. */
  lemma KeepsMove(s: State, s': State, i: nat, c: Cell, da: int, dh: int)
    requires Inv(s) && i < |s.cells| && da <= 0 && Moves(s.cells[i], c, da, dh)
    requires s' == s.(cells := s.cells[i := c], active := Bump(s.active, c.shard, da),
                      handoff := Bump(s.handoff, c.shard, dh), assignedSlots := s'.assignedSlots, leases := s'.leases)
    requires CellOk(i, c, s.contexts, s.hash, s.heads, s.nextUnassigned)
    requires s'.assignedSlots + One(IsAssigned(s.cells[i].work)) == s.assignedSlots + One(IsAssigned(c.work))
    requires RaiserOk(c, s.peak)
    requires StillRaises(s.cells[i], c) || (s.cells[i].shard < SHARDS && s.cells[i].work.active <= s.high[s.cells[i].shard])
    requires LeasesOk(s'.leases, s'.cells)
    ensures Inv(s')
  {
    UpdateKeepsStructure(s, i, c);
    HandoffMoves(s.handoff, s.finishing, s.cells, i, c, dh);
    ScanKept(s.scan, s.closed, s.seekers, s.cells, i, c);
    MovedAccounts(s, s', i, c, da);
  }

  /** What a local step does to the accounts: nothing. */
  predicate LocalMove(c: Cell, c': Cell) {
    && Moves(c, c', 0, 0) && IsAssigned(c'.work) == IsAssigned(c.work) && StillRaises(c, c')
    && !c.work.Out? && !c'.work.Out? && !c'.work.Raising? && !c'.work.RaiseSwap?
  }

  lemma AcquireLocalMoves(c: Cell, c': Cell, i: nat, contexts: seq<nat>, hash: nat -> nat, heads: seq<Head>, next: nat)
    requires AcquireLocal(c, c') && CellOk(i, c, contexts, hash, heads, next)
    ensures LocalMove(c, c')
  {
  }

  lemma ReleaseLocalMoves(c: Cell, c': Cell, i: nat, contexts: seq<nat>, hash: nat -> nat, heads: seq<Head>, next: nat)
    requires ReleaseLocal(contexts, hash, c, c') && CellOk(i, c, contexts, hash, heads, next) && CellOk(i, c', contexts, hash, heads, next)
    ensures LocalMove(c, c')
  {
  }

  lemma PushLocalMoves(c: Cell, c': Cell, i: nat, contexts: seq<nat>, hash: nat -> nat, heads: seq<Head>, next: nat)
    requires PushLocal(heads, c, c') && CellOk(i, c, contexts, hash, heads, next)
    ensures LocalMove(c, c')
  {
  }

  lemma LocalMoves(c: Cell, c': Cell, i: nat, contexts: seq<nat>, hash: nat -> nat, heads: seq<Head>, next: nat)
    requires LocalStep(contexts, hash, heads, c, c')
    requires CellOk(i, c, contexts, hash, heads, next) && TableOk(contexts, hash)
    ensures CellOk(i, c', contexts, hash, heads, next) && LocalMove(c, c')
  {
    if AcquireLocal(c, c') {
      AcquireLocalOk(i, c, c', contexts, hash, heads, next);
      AcquireLocalMoves(c, c', i, contexts, hash, heads, next);
    } else if ReleaseLocal(contexts, hash, c, c') {
      ReleaseLocalOk(i, c, c', contexts, hash, heads, next);
      ReleaseLocalMoves(c, c', i, contexts, hash, heads, next);
    } else {
      PushLocalOk(i, c, c', contexts, hash, heads, next);
      PushLocalMoves(c, c', i, contexts, hash, heads, next);
    }
  }

  lemma KeepsLocal(s: State, i: nat, c': Cell)
    requires Inv(s) && i < |s.cells| && LocalStep(s.contexts, s.hash, s.heads, s.cells[i], c')
    ensures Inv(WithCell(s, i, c'))
  {
    assert CellOk(i, s.cells[i], s.contexts, s.hash, s.heads, s.nextUnassigned);
    LocalMoves(s.cells[i], c', i, s.contexts, s.hash, s.heads, s.nextUnassigned);
    LeasesKept(s.leases, s.cells, i, c');
    ZeroBump(s.active, c'.shard);
    ZeroBump(s.handoff, c'.shard);
    KeepsMove(s, WithCell(s, i, c'), i, c', 0, 0);
  }

  lemma CountedMoves(c: Cell, i: nat, contexts: seq<nat>, hash: nat -> nat, heads: seq<Head>, next: nat)
    requires CellOk(i, c, contexts, hash, heads, next)
    ensures c.work.Assigning? ==>
      var c' := c.(work := Counting);
      CellOk(i, c', contexts, hash, heads, next) && Moves(c, c', 0, 0) && StillRaises(c, c')
    ensures c.work.Handing? ==>
      var c' := c.(work := Freeing(c.work.lease));
      && CellOk(i, c', contexts, hash, heads, next) && Moves(c, c', 0, 1) && StillRaises(c, c')
      && c.work.lease.shard == c.shard && IsAssigned(c.work)
  {
  }

  lemma UncountMoves(c: Cell, i: nat, contexts: seq<nat>, hash: nat -> nat, heads: seq<Head>, next: nat)
    requires CellOk(i, c, contexts, hash, heads, next) && c.work.Uncounting? && |heads| == |contexts| * SHARDS
    ensures var c' := c.(work := PushLoad(ListIndex(c.work.bucket, c.work.lease.shard)));
      && CellOk(i, c', contexts, hash, heads, next) && Moves(c, c', -1, 0) && StillRaises(c, c')
      && c.work.lease.shard == c.shard && IsAssigned(c.work)
  {
  }

  lemma KeepsAssign(s: State, i: nat)
    requires Inv(s) && i < |s.cells| && s.cells[i].work.Assigning?
    ensures Inv(Assign(s, i))
  {
    var c := s.cells[i].(work := Counting);
    assert CellOk(i, s.cells[i], s.contexts, s.hash, s.heads, s.nextUnassigned);
    CountedMoves(s.cells[i], i, s.contexts, s.hash, s.heads, s.nextUnassigned);
    LeasesKept(s.leases, s.cells, i, c);
    ZeroBump(s.active, c.shard);
    ZeroBump(s.handoff, c.shard);
    KeepsMove(s, Assign(s, i), i, c, 0, 0);
  }

  lemma KeepsHandOff(s: State, i: nat)
    requires Inv(s) && i < |s.cells| && s.cells[i].work.Handing?
    ensures Inv(HandOff(s, i))
  {
    var c := s.cells[i].(work := Freeing(s.cells[i].work.lease));
    assert CellOk(i, s.cells[i], s.contexts, s.hash, s.heads, s.nextUnassigned);
    CountedMoves(s.cells[i], i, s.contexts, s.hash, s.heads, s.nextUnassigned);
    LeasesKept(s.leases, s.cells, i, c);
    ZeroBump(s.active, c.shard);
    KeepsMove(s, HandOff(s, i), i, c, 0, 1);
  }

  lemma KeepsUncount(s: State, i: nat)
    requires Inv(s) && i < |s.cells| && s.cells[i].work.Uncounting?
    ensures Inv(Uncount(s, i))
  {
    var w := s.cells[i].work;
    var c := s.cells[i].(work := PushLoad(ListIndex(w.bucket, w.lease.shard)));
    assert CellOk(i, s.cells[i], s.contexts, s.hash, s.heads, s.nextUnassigned);
    UncountMoves(s.cells[i], i, s.contexts, s.hash, s.heads, s.nextUnassigned);
    LeasesKept(s.leases, s.cells, i, c);
    ZeroBump(s.handoff, c.shard);
    KeepsMove(s, Uncount(s, i), i, c, -1, 0);
  }

  lemma OutMoves(c: Cell, i: nat, contexts: seq<nat>, hash: nat -> nat, heads: seq<Head>, next: nat)
    requires CellOk(i, c, contexts, hash, heads, next)
    ensures c.work.Out? ==>
      var c' := c.(work := Checking(LeaseOf(i, c)));
      CellOk(i, c', contexts, hash, heads, next) && Moves(c, c', 0, 0) && StillRaises(c, c')
    ensures c.work.Raising? || c.work.RaiseSwap? ==>
      var c' := c.(work := Out);
      CellOk(i, c', contexts, hash, heads, next) && Moves(c, c', 0, 0)
  {
  }

  lemma KeepsReleaseStart(s: State, lease: Lease)
    requires Inv(s) && lease in s.leases
    ensures Inv(ReleaseStart(s, lease))
  {
    var i := lease.index;
    var c := s.cells[i].(work := Checking(lease));
    assert CellOk(i, s.cells[i], s.contexts, s.hash, s.heads, s.nextUnassigned);
    OutMoves(s.cells[i], i, s.contexts, s.hash, s.heads, s.nextUnassigned);
    LeaseTaken(s.leases, s.cells, lease, c);
    ZeroBump(s.active, c.shard);
    ZeroBump(s.handoff, c.shard);
    KeepsMove(s, ReleaseStart(s, lease), i, c, 0, 0);
  }

  /** A thread whose count the high-water mark already covers returns its lease. */
  lemma KeepsHandOut(s: State, i: nat)
    requires Inv(s) && i < |s.cells| && (s.cells[i].work.Raising? || s.cells[i].work.RaiseSwap?)
    requires s.cells[i].shard < SHARDS && s.cells[i].work.active <= s.high[s.cells[i].shard]
    ensures Inv(HandOut(s, i))
  {
    var c := s.cells[i].(work := Out);
    assert CellOk(i, s.cells[i], s.contexts, s.hash, s.heads, s.nextUnassigned);
    OutMoves(s.cells[i], i, s.contexts, s.hash, s.heads, s.nextUnassigned);
    LeaseAdded(s.leases, s.cells, i, c);
    ZeroBump(s.active, c.shard);
    ZeroBump(s.handoff, c.shard);
    KeepsMove(s, HandOut(s, i), i, c, 0, 0);
  }

  lemma RaiseMoves(c: Cell, i: nat, seen: int, contexts: seq<nat>, hash: nat -> nat, heads: seq<Head>, next: nat)
    requires CellOk(i, c, contexts, hash, heads, next) && (c.work.Raising? || c.work.RaiseSwap?)
    ensures var c' := c.(work := RaiseSwap(c.work.active, seen));
      CellOk(i, c', contexts, hash, heads, next) && Moves(c, c', 0, 0) && StillRaises(c, c')
  {
  }

  lemma KeepsRaiseAgain(s: State, i: nat)
    requires Inv(s) && i < |s.cells| && (s.cells[i].work.Raising? || s.cells[i].work.RaiseSwap?)
    requires s.cells[i].shard < SHARDS && s.high[s.cells[i].shard] < s.cells[i].work.active
    ensures Inv(WithWork(s, i, RaiseSwap(s.cells[i].work.active, s.high[s.cells[i].shard])))
  {
    var c := s.cells[i].(work := RaiseSwap(s.cells[i].work.active, s.high[s.cells[i].shard]));
    assert CellOk(i, s.cells[i], s.contexts, s.hash, s.heads, s.nextUnassigned);
    RaiseMoves(s.cells[i], i, s.high[s.cells[i].shard], s.contexts, s.hash, s.heads, s.nextUnassigned);
    assert RaiserOk(s.cells[i], s.peak);
    LeasesKept(s.leases, s.cells, i, c);
    ZeroBump(s.active, c.shard);
    ZeroBump(s.handoff, c.shard);
    KeepsMove(s, WithWork(s, i, c.work), i, c, 0, 0);
  }

  lemma {:induction false} CountUpPeak(cells: seq<Cell>, active: seq<int>, k: nat)
    requires ActiveOk(active, cells) && k < SHARDS
    ensures active[k] <= Count(cells, AssignedIn(k))
  {
    CountLe(cells, ActiveIn(k), AssignedIn(k));
  }

  lemma {:induction false} CountUpPeaks(active: seq<int>, high: seq<int>, peak: seq<int>, total: int, cells: seq<Cell>, i: nat, active': seq<int>)
    requires PeaksOk(active, high, peak, total, cells) && i < |cells| && cells[i].work.Counting? && cells[i].shard < SHARDS
    requires active' == Bump(active, cells[i].shard, 1)
    requires ActiveOk(active', cells[i := cells[i].(work := Raising(active'[cells[i].shard]))])
    ensures var sh := cells[i].shard;
      PeaksOk(active', high, peak[sh := Max(peak[sh], active'[sh])], Max(total, Sum(active')),
              cells[i := cells[i].(work := Raising(active'[sh]))])
  {
    var sh := cells[i].shard;
    var c := cells[i].(work := Raising(active'[sh]));
    var cells', peak' := cells[i := c], peak[sh := Max(peak[sh], active'[sh])];
    forall k | 0 <= k < SHARDS
      ensures active'[k] <= peak'[k] <= Count(cells', AssignedIn(k)) && HighOk(high[k], peak'[k], cells', k)
    {
      PeakBelowAssigned(cells, i, c, k, peak[k]);
      CountUpPeak(cells', active', k);
      if peak'[k] == peak[k] {
        HighKept(high[k], peak[k], cells, k, i, c);
      } else {
        assert IsRaiser(cells'[i], k, peak'[k]);
      }
    }
    SumLe(active', peak');
    SumLe(peak, peak');
  }

  lemma CountUpMoves(c: Cell, i: nat, active: int, contexts: seq<nat>, hash: nat -> nat, heads: seq<Head>, next: nat)
    requires CellOk(i, c, contexts, hash, heads, next) && c.work.Counting?
    ensures var c' := c.(work := Raising(active));
      CellOk(i, c', contexts, hash, heads, next) && Moves(c, c', 1, 0) && IsAssigned(c.work) && c.shard < SHARDS
  {
  }

  lemma KeepsCountUp(s: State, i: nat)
    requires Inv(s) && i < |s.cells| && s.cells[i].work.Counting? && s.cells[i].shard < SHARDS
    ensures Inv(CountUp(s, i))
  {
    var sh, active' := s.cells[i].shard, Bump(s.active, s.cells[i].shard, 1);
    var c := s.cells[i].(work := Raising(active'[sh]));
    assert CellOk(i, s.cells[i], s.contexts, s.hash, s.heads, s.nextUnassigned);
    CountUpMoves(s.cells[i], i, active'[sh], s.contexts, s.hash, s.heads, s.nextUnassigned);
    UpdateKeepsStructure(s, i, c);
    LeasesKept(s.leases, s.cells, i, c);
    HandoffMoves(s.handoff, s.finishing, s.cells, i, c, 0);
    ZeroBump(s.handoff, sh);
    ActiveMoves(s.active, s.cells, i, c, 1);
    AssignedMoves(s.cells, i, c);
    CountUpPeaks(s.active, s.high, s.peak, s.totalPeak, s.cells, i, active');
    ScanKept(s.scan, s.closed, s.seekers, s.cells, i, c);
  }

  lemma RaiseWonPeaks(active: seq<int>, high: seq<int>, peak: seq<int>, total: int, cells: seq<Cell>, i: nat)
    requires PeaksOk(active, high, peak, total, cells) && i < |cells| && cells[i].work.RaiseSwap?
    requires cells[i].shard < SHARDS && high[cells[i].shard] == cells[i].work.seen
    ensures PeaksOk(active, high[cells[i].shard := cells[i].work.active], peak, total, cells[i := cells[i].(work := Out)])
  {
    var sh, w, c := cells[i].shard, cells[i].work, cells[i].(work := Out);
    var cells', high' := cells[i := c], high[sh := w.active];
    assert RaiserOk(cells[i], peak);
    forall k | 0 <= k < SHARDS
      ensures peak[k] <= Count(cells', AssignedIn(k)) && HighOk(high'[k], peak[k], cells', k)
    {
      PeakBelowAssigned(cells, i, c, k, peak[k]);
      if high'[k] != peak[k] {
        var j :| 0 <= j < |cells| && IsRaiser(cells[j], k, peak[k]);
        assert IsRaiser(cells'[j], k, peak[k]);
      }
    }
  }

  lemma RaiseWonTallies(s: State, i: nat, c: Cell)
    requires Accounts(s) && i < |s.cells| && c == s.cells[i].(work := Out) && s.cells[i].shard < SHARDS
    requires s.cells[i].work.RaiseSwap?
    ensures ActiveOk(s.active, s.cells[i := c]) && HandoffOk(s.handoff, s.finishing, s.cells[i := c])
    ensures s.assignedSlots == Count(s.cells[i := c], AnyAssigned)
  {
    HandoffMoves(s.handoff, s.finishing, s.cells, i, c, 0);
    ZeroBump(s.handoff, c.shard);
    ActiveMoves(s.active, s.cells, i, c, 0);
    ZeroBump(s.active, c.shard);
    AssignedMoves(s.cells, i, c);
  }

  lemma KeepsRaiseWon(s: State, i: nat)
    requires Inv(s) && i < |s.cells| && s.cells[i].work.RaiseSwap? && s.cells[i].shard < SHARDS
    requires s.high[s.cells[i].shard] == s.cells[i].work.seen
    ensures Inv(RaiseWon(s, i))
  {
    var c := s.cells[i].(work := Out);
    assert CellOk(i, s.cells[i], s.contexts, s.hash, s.heads, s.nextUnassigned);
    OutMoves(s.cells[i], i, s.contexts, s.hash, s.heads, s.nextUnassigned);
    UpdateKeepsStructure(s, i, c);
    LeaseAdded(s.leases, s.cells, i, c);
    RaiseWonTallies(s, i, c);
    RaiseWonPeaks(s.active, s.high, s.peak, s.totalPeak, s.cells, i);
    ScanKept(s.scan, s.closed, s.seekers, s.cells, i, c);
  }

  /** A push moves its share of the handoff count from the slot to the finishing release. */
  lemma HandoffPushed(handoff: seq<int>, finishing: multiset<nat>, cells: seq<Cell>, i: nat, c: Cell)
    requires HandoffOk(handoff, finishing, cells) && i < |cells| && c.shard == cells[i].shard < SHARDS
    requires IsHandoff(cells[i].work) && !IsHandoff(c.work)
    ensures HandoffOk(handoff, finishing + multiset{c.shard}, cells[i := c])
  {
    forall k | 0 <= k < SHARDS
      ensures handoff[k] == Count(cells[i := c], HandoffIn(k)) + (finishing + multiset{c.shard})[k]
    {
      CountUpdate(cells, i, c, HandoffIn(k));
    }
  }

  lemma ListMoves(c: Cell, i: nat, contexts: seq<nat>, hash: nat -> nat, heads: seq<Head>, next: nat)
    requires CellOk(i, c, contexts, hash, heads, next) && (c.work.PushSwap? || c.work.Listed?)
    ensures var c' := c.(work := if c.work.Listed? then Popped else Listed(c.work.list));
      && SameShard(c, c') && StaysAssigned(c, c') && StillRaises(c, c') && IsAssigned(c.work) && c.shard < SHARDS
      && !IsActive(c.work) && !IsActive(c'.work) && !IsHandoff(c'.work) && IsHandoff(c.work) == c.work.PushSwap?
      && !c'.work.Raising? && !c'.work.RaiseSwap? && (c.work.PushSwap? ==> Settles(c, c'))
  {
  }

  lemma KeepsPushWon(s: State, i: nat)
    requires Inv(s) && i < |s.cells| && s.cells[i].work.PushSwap?
    requires s.heads[s.cells[i].work.list] == s.cells[i].work.head
    ensures Inv(PushWon(s, i))
  {
    var c := s.cells[i].(work := Listed(s.cells[i].work.list));
    assert CellOk(i, s.cells[i], s.contexts, s.hash, s.heads, s.nextUnassigned);
    ListMoves(s.cells[i], i, s.contexts, s.hash, s.heads, s.nextUnassigned);
    PushKeepsStructure(s, i);
    LeasesKept(s.leases, s.cells, i, c);
    HandoffPushed(s.handoff, s.finishing, s.cells, i, c);
    ScanKept(s.scan, s.closed, s.seekers, s.cells, i, c);
    ZeroBump(s.active, c.shard);
    MovedAccounts(s, PushWon(s, i), i, c, 0);
  }

  /** While an acquire is looking for a slot, no scan counts on quiet. */
  lemma SeekerDisturbs(s: State, p: Seek, seekers: multiset<Seek>, cells: seq<Cell>)
    requires ScanOk(s.scan, s.closed, s.seekers, s.cells) && p in s.seekers
    ensures ScanOk(s.scan, s.closed, seekers, cells)
  {
  }

  lemma KeepsPopWon(s: State, p: Seek)
    requires Inv(s) && p in s.seekers && p.Swapping? && s.heads[AcquireList(p.a, p.at)] == p.head
    ensures Inv(PopWon(s, p))
  {
    var i, s' := p.head.index.value, PopWon(s, p);
    var c := s.cells[i].(work := Popped);
    PopKeepsStructure(s, p);
    SwapTakesFirst(s, p);
    assert CellOk(i, s.cells[i], s.contexts, s.hash, s.heads, s.nextUnassigned);
    ListMoves(s.cells[i], i, s.contexts, s.hash, s.heads, s.nextUnassigned);
    LeasesKept(s.leases, s.cells, i, c);
    HandoffMoves(s.handoff, s.finishing, s.cells, i, c, 0);
    SeekerDisturbs(s, p, s'.seekers, s'.cells);
    ZeroBump(s.active, c.shard);
    ZeroBump(s.handoff, c.shard);
    MovedAccounts(s, s', i, c, 0);
  }

  /** The accounts of a slot that an acquire reserves: nothing is counted yet. */
  lemma ReserveKeepsAccounts(s: State, p: Seek)
    requires Accounts(s) && p in s.seekers && p.Bumping? && p.index < |s.cells|
    requires s.cells[p.index].work.Untouched?
    ensures Accounts(ReserveWon(s, p))
  {
    var i, s' := p.index, ReserveWon(s, p);
    var c := s.cells[i].(work := Reserved(p.a.context, p.a.shard));
    LeasesKept(s.leases, s.cells, i, c);
    HandoffMoves(s.handoff, s.finishing, s.cells, i, c, 0);
    SeekerDisturbs(s, p, s'.seekers, s'.cells);
    ZeroBump(s.active, c.shard);
    ZeroBump(s.handoff, c.shard);
    MovedAccounts(s, s', i, c, 0);
  }

  lemma KeepsReserveWon(s: State, p: Seek)
    requires Inv(s) && p in s.seekers && p.Bumping? && p.index < |s.cells| && s.nextUnassigned == p.index
    ensures Inv(ReserveWon(s, p))
  {
    assert CellOk(p.index, s.cells[p.index], s.contexts, s.hash, s.heads, s.nextUnassigned);
    ReserveKeepsStructure(s, p);
    ReserveKeepsAccounts(s, p);
  }

  lemma KeepsSeeker(s: State, s': State, p: Seek)
    requires Inv(s) && p in s.seekers && SeekerStep(s, s', p)
    ensures Inv(s')
  {
    assert SeekOk(p, s.contexts, s.hash, s.heads, s.cells);
    if q :| SeekStep(s, p, q) && s' == s.(seekers := Reseek(s.seekers, p, q)) {
      SeekKeepsStructure(s, p, q);
    } else if p.Claiming? {
      ClaimKeepsStructure(s, p);
    } else if p.Swapping? {
      KeepsPopWon(s, p);
    } else {
      KeepsReserveWon(s, p);
    }
  }

  lemma KeepsHolder(s: State, s': State, i: nat)
    requires Inv(s) && i < |s.cells| && HolderStep(s, s', i)
    ensures Inv(s')
  {
    var c := s.cells[i];
    if c' :| LocalStep(s.contexts, s.hash, s.heads, c, c') && s' == WithCell(s, i, c') {
      KeepsLocal(s, i, c');
    } else if c.work.Assigning? {
      KeepsAssign(s, i);
    } else if c.work.Counting? {
      KeepsCountUp(s, i);
    } else if c.work.Raising? || (c.work.RaiseSwap? && s' == RaiseFailed(s, i)) {
      if s.high[c.shard] < c.work.active { KeepsRaiseAgain(s, i); } else { KeepsHandOut(s, i); }
    } else if c.work.RaiseSwap? {
      KeepsRaiseWon(s, i);
    } else if c.work.Handing? {
      KeepsHandOff(s, i);
    } else if c.work.Uncounting? {
      KeepsUncount(s, i);
    } else {
      KeepsPushWon(s, i);
    }
  }

  lemma KeepsAcquireStart(s: State, context: nat, shard: nat)
    requires Inv(s) && !s.closed && context != 0 && |s.contexts| > 0
    ensures Inv(AcquireStart(s, context, shard))
  {
  }

  lemma KeepsFinish(s: State, shard: nat)
    requires Inv(s) && shard in s.finishing
    ensures Inv(Finish(s, shard))
  {
  }

  lemma ScanReads(s: State)
    requires Accounts(s) && s.scan.Scan? && s.scan.shard < SHARDS
    ensures s.active[s.scan.shard] >= 0 && s.handoff[s.scan.shard] >= 0
    ensures s.active[s.scan.shard] == 0 ==>
      forall i :: 0 <= i < |s.cells| && s.cells[i].shard == s.scan.shard ==> !IsActive(s.cells[i].work)
    ensures s.handoff[s.scan.shard] == 0 ==>
      forall i :: 0 <= i < |s.cells| && s.cells[i].shard == s.scan.shard ==> !IsHandoff(s.cells[i].work)
  {
    var k := s.scan.shard;
    if s.active[k] == 0 {
      forall i | 0 <= i < |s.cells| ensures !ActiveIn(k)(s.cells[i]) { CountZero(s.cells, ActiveIn(k), i); }
    }
    if s.handoff[k] == 0 {
      forall i | 0 <= i < |s.cells| ensures !HandoffIn(k)(s.cells[i]) { CountZero(s.cells, HandoffIn(k), i); }
    }
  }

  lemma KeepsScanNext(s: State)
    requires Inv(s) && s.scan.Scan? && s.scan.shard < SHARDS
    ensures Inv(ScanNext(s))
  {
    ScanReads(s);
  }

  lemma KeepsOther(s: State)
    requires Inv(s)
    ensures Inv(s.(closed := true)) && Inv(ScanStart(s))
  {
  }

  lemma InitCounts(s: State, p: Cell -> bool)
    requires Init(s) && forall c: Cell :: c.work == Untouched ==> !p(c)
    ensures Count(s.cells, p) == 0
  {
    CountNone(s.cells, p);
  }

  lemma {:induction false} SumZero(a: seq<int>)
    requires forall k :: 0 <= k < |a| ==> a[k] == 0
    ensures Sum(a) == 0
  {
    if a != [] { SumZero(a[1..]); }
  }

  lemma InitStructure(s: State)
    requires Init(s)
    ensures Shape(s) && Structure(s)
  {
  }

  lemma InitTallies(s: State)
    requires Init(s)
    ensures ActiveOk(s.active, s.cells) && HandoffOk(s.handoff, s.finishing, s.cells)
  {
    forall k | 0 <= k < SHARDS ensures Count(s.cells, ActiveIn(k)) == Count(s.cells, HandoffIn(k)) == 0 {
      InitCounts(s, ActiveIn(k));
      InitCounts(s, HandoffIn(k));
    }
  }

  lemma InitPeaks(s: State)
    requires Init(s)
    ensures PeaksOk(s.active, s.high, s.peak, s.totalPeak, s.cells)
  {
    SumZero(s.active);
    SumZero(s.peak);
  }

  lemma InitHolds(s: State)
    requires Init(s)
    ensures Inv(s)
  {
    InitStructure(s);
    InitTallies(s);
    InitPeaks(s);
    InitCounts(s, AnyAssigned);
  }

  lemma ThreadKeeps(s: State, s': State)
    requires Inv(s) && ThreadStep(s, s')
    ensures Inv(s')
  {
    if context, shard :| !s.closed && context != 0 && |s.contexts| > 0 && s' == AcquireStart(s, context, shard) {
      KeepsAcquireStart(s, context, shard);
    } else if p :| p in s.seekers && SeekerStep(s, s', p) {
      KeepsSeeker(s, s', p);
    } else if i :| 0 <= i < |s.cells| && HolderStep(s, s', i) {
      KeepsHolder(s, s', i);
    } else if lease :| lease in s.leases && lease.index < |s.cells| && s' == ReleaseStart(s, lease) {
      KeepsReleaseStart(s, lease);
    } else {
      var shard :| shard in s.finishing && s' == Finish(s, shard);
      KeepsFinish(s, shard);
    }
  }

  lemma NextKeeps(s: State, s': State)
    requires Inv(s) && Next(s, s')
    ensures Inv(s')
  {
    if ThreadStep(s, s') {
      ThreadKeeps(s, s');
    } else if s.scan.Scan? && s.scan.shard < |s.active| == |s.handoff| && s' == ScanNext(s) {
      KeepsScanNext(s);
    } else {
      KeepsOther(s);
    }
  }

  lemma RunKeeps(run: seq<State>, k: nat)
    requires IsRun(Init, Next, run) && k < |run|
    ensures Inv(run[k])
  {
    forall s | Init(s) ensures Inv(s) { InitHolds(s); }
    forall s, s' | Inv(s) && Next(s, s') ensures Inv(s') { NextKeeps(s, s'); }
    AlwaysOnRun(Init, Next, Inv, run, k);
  }
}
