/**
 * The lifecycle gate of the CUDA wrappers: an epoch that is odd while the gate is closed, and sharded
 * reader counts. One step is one atomic access.
 */
module LifecycleGate {
  import opened Common
  import opened ReaderShards

  const UINT_MAX: nat := 0xFFFF_FFFF

  /** Where a thread stands; an admitted thread remembers the epoch that admitted it. */
  datatype Place =
    | Outside
    | Loaded(epoch: nat)
    | Published(epoch: nat)
    | Rejecting
    | Inside(depth: nat, epoch: nat)

  /** A count of the admitted wrappers, read shard by shard. */
  datatype Scan = NoScan | Scan(epoch: nat, next: nat, total: nat)

  datatype State = State(epoch: nat, tickets: nat, active: seq<int>, threads: seq<Thread<Place>>, scan: Scan)

  predicate IsOpen(epoch: nat) { epoch % 2 == 0 }

  function Move(s: State, t: nat, place: Place): State
    requires t < |s.threads|
  {
    s.(threads := s.threads[t := s.threads[t].(place := place)])
  }

  // --- Threads ---

  function TakeTicket(s: State, t: nat): State
    requires t < |s.threads|
  {
    s.(threads := s.threads[t := s.threads[t].(home := HomeOf(s.tickets))], tickets := s.tickets + 1)
  }

  function Publish(s: State, t: nat): State
    requires AtHome(s.threads, s.active, t) && s.threads[t].place.Loaded?
  {
    var thread := s.threads[t];
    s.(threads := s.threads[t := thread.(place := Published(thread.place.epoch), published := true)],
       active := Raised(s.active, thread.home))
  }

  /** The epoch is read again after the publication; a changed one rejects the reader. */
  function Recheck(s: State, t: nat): State
    requires t < |s.threads| && s.threads[t].place.Published?
  {
    var e := s.threads[t].place.epoch;
    Move(s, t, if s.epoch == e then Inside(1, e) else Rejecting)
  }

  function Withdraw(s: State, t: nat): State
    requires AtHome(s.threads, s.active, t)
  {
    s.(threads := s.threads[t := s.threads[t].(place := Outside, published := false)],
       active := Lowered(s.active, s.threads[t].home))
  }

  ghost predicate ThreadStep(s: State, s': State, t: nat)
    requires t < |s.threads|
  {
    var at := s.threads[t].place;
    || (at.Outside? && IsOpen(s.epoch) && s' == Move(s, t, Loaded(s.epoch)))
    || (at.Loaded? && s.threads[t].home.NoHome? && s' == TakeTicket(s, t))
    || (at.Loaded? && AtHome(s.threads, s.active, t) && s' == Publish(s, t))
    || (at.Published? && s' == Recheck(s, t))
    || (at.Rejecting? && AtHome(s.threads, s.active, t) && s' == Withdraw(s, t))
    || (at.Inside? && IsOpen(s.epoch) && s' == Move(s, t, Inside(at.depth + 1, at.epoch)))
    || (at.Inside? && at.depth > 1 && s' == Move(s, t, Inside(at.depth - 1, at.epoch)))
    || (at.Inside? && at.depth == 1 && AtHome(s.threads, s.active, t) && s' == Withdraw(s, t))
  }

  // --- The controller ---

  function Close(s: State): (s': State)
    ensures !IsOpen(s'.epoch) && s.epoch <= s'.epoch && (s'.epoch == s.epoch <==> !IsOpen(s.epoch))
  {
    if IsOpen(s.epoch) then s.(epoch := s.epoch + 1) else s
  }

  function Open(s: State): (s': State)
    ensures IsOpen(s'.epoch) && s.epoch <= s'.epoch && (s'.epoch == s.epoch <==> IsOpen(s.epoch))
  {
    if IsOpen(s.epoch) then s else s.(epoch := s.epoch + 1)
  }

  /** Adds one shard; a sum that would overflow ends the scan saturated. */
  function ScanNext(s: State): State
    requires s.scan.Scan? && s.scan.next < |s.active| && s.active[s.scan.next] >= 0
  {
    var k, n := s.scan, s.active[s.scan.next];
    if n > UINT_MAX - k.total then s.(scan := Scan(k.epoch, |s.active|, UINT_MAX))
    else s.(scan := Scan(k.epoch, k.next + 1, k.total + n))
  }

  ghost predicate ControllerStep(s: State, s': State) {
    || s' == Close(s)
    || s' == Open(s)
    || s' == s.(scan := Scan(s.epoch, 0, 0))
    || (s.scan.Scan? && s.scan.next < |s.active| && s.active[s.scan.next] >= 0 && s' == ScanNext(s))
  }

  ghost predicate Init(s: State) {
    && s.epoch == 1 && s.tickets == 0 && s.scan == NoScan
    && |s.active| == SHARDS && (forall k :: 0 <= k < SHARDS ==> s.active[k] == 0)
    && (forall t :: 0 <= t < |s.threads| ==> s.threads[t] == Thread(NoHome, false, Outside))
  }

  ghost predicate Next(s: State, s': State) {
    (exists t :: 0 <= t < |s.threads| && ThreadStep(s, s', t)) || ControllerStep(s, s')
  }

  // ---------------------------------------------------------------------------------------------
  // The invariant
  // ---------------------------------------------------------------------------------------------

  predicate ThreadOk(t: Thread<Place>, epoch: nat) {
    && (t.published <==> t.place.Published? || t.place.Rejecting? || t.place.Inside?)
    && (t.place.Loaded? || t.place.Published? || t.place.Inside? ==> t.place.epoch <= epoch && IsOpen(t.place.epoch))
    && (t.place.Inside? ==> t.place.depth >= 1)
  }

  /** A scan under one closed epoch that has found nothing yet has passed only shards without admitted threads. */
  predicate ScanOk(scan: Scan, epoch: nat, threads: seq<Thread<Place>>) {
    scan.Scan? ==>
      && scan.epoch <= epoch
      && (scan.epoch == epoch && !IsOpen(epoch) && scan.total == 0 ==>
            forall t :: 0 <= t < |threads| && threads[t].place.Inside? && threads[t].home.Home? ==> threads[t].home.shard >= scan.next)
  }

  predicate Inv(s: State) {
    && HomesOk(s.threads, s.tickets) && CountsOk(s.active, s.threads)
    && (forall t :: 0 <= t < |s.threads| ==> ThreadOk(s.threads[t], s.epoch))
    && ScanOk(s.scan, s.epoch, s.threads)
  }

  lemma ThreadKeeps(s: State, s': State, t: nat)
    requires Inv(s) && t < |s.threads| && ThreadStep(s, s', t)
    ensures Inv(s')
  {
    var thread := s.threads[t];
    assert ThreadOk(thread, s.epoch);
    if thread.place.Loaded? && thread.home.NoHome? {
      TicketKeepsHomes(s.threads, s.tickets, t);
      UnpublishedKeepsCounts(s.active, s.threads, t, s'.threads[t]);
    } else if thread.place.Loaded? {
      PublishKeepsCounts(s.active, s.threads, s.tickets, t, s'.threads[t]);
    } else if thread.place.Rejecting? || (thread.place.Inside? && thread.place.depth == 1 && AtHome(s.threads, s.active, t) && s' == Withdraw(s, t)) {
      WithdrawKeepsCounts(s.active, s.threads, s.tickets, t, s'.threads[t]);
    } else {
      UnpublishedKeepsCounts(s.active, s.threads, t, s'.threads[t]);
    }
  }

  lemma KeepsScanNext(s: State)
    requires Inv(s) && s.scan.Scan? && s.scan.next < |s.active| && s.active[s.scan.next] >= 0
    ensures Inv(ScanNext(s))
  {
    ShardSays(s.active, s.threads, s.scan.next);
  }

  lemma NextKeeps(s: State, s': State)
    requires Inv(s) && Next(s, s')
    ensures Inv(s')
  {
    if t :| 0 <= t < |s.threads| && ThreadStep(s, s', t) {
      ThreadKeeps(s, s', t);
    } else if s.scan.Scan? && s.scan.next < |s.active| && s.active[s.scan.next] >= 0 && s' == ScanNext(s) {
      KeepsScanNext(s);
    }
  }

  lemma RunKeeps(run: seq<State>, k: nat)
    requires IsRun(Init, Next, run) && k < |run|
    ensures Inv(run[k])
  {
    forall s | Init(s) ensures Inv(s) { NobodyPublished(s.active, s.threads); }
    forall s, s' | Inv(s) && Next(s, s') ensures Inv(s') { NextKeeps(s, s'); }
    AlwaysOnRun(Init, Next, Inv, run, k);
  }

  // ---------------------------------------------------------------------------------------------
  // What the gate guarantees
  // ---------------------------------------------------------------------------------------------

  predicate NobodyInside(threads: seq<Thread<Place>>) { forall t :: 0 <= t < |threads| ==> !threads[t].place.Inside? }

  /** A scan that stayed within one closed epoch and sums to zero proves that no wrapper is admitted. */
  lemma ZeroScanMeansEmpty(run: seq<State>, k: nat)
    requires IsRun(Init, Next, run) && k < |run|
    requires run[k].scan.Scan? && run[k].scan.next >= SHARDS && run[k].scan.total == 0
    requires !IsOpen(run[k].epoch) && run[k].scan.epoch == run[k].epoch
    ensures NobodyInside(run[k].threads)
  {
    RunKeeps(run, k);
    forall t | 0 <= t < |run[k].threads| ensures !run[k].threads[t].place.Inside? {
      assert ThreadOk(run[k].threads[t], run[k].epoch) && HomeOk(run[k].threads[t].home, run[k].tickets);
    }
  }

  /** Each shard adds its count to the scan, and a sum that does not fit ends it saturated. */
  lemma ScanAddsUp(s: State)
    requires s.scan.Scan? && 0 <= s.scan.total <= UINT_MAX && s.scan.next < |s.active| && s.active[s.scan.next] >= 0
    ensures var sum, scan := s.scan.total + s.active[s.scan.next], ScanNext(s).scan;
      if sum <= UINT_MAX then scan == Scan(s.scan.epoch, s.scan.next + 1, sum)
      else scan.total == UINT_MAX && scan.next == |s.active|
  {
  }

  predicate Quiet(s: State) { forall k :: 0 <= k < |s.active| ==> s.active[k] == 0 }

  predicate ZeroSoFar(s: State) { Quiet(s) && s.scan.Scan? && s.scan.total == 0 }

  lemma StepStaysZero(s: State, s': State)
    requires ZeroSoFar(s) && Next(s, s') && Quiet(s')
    ensures ZeroSoFar(s')
  {
  }

  /** While nobody is published every scan sums to zero: an idle gate is recognised as such. */
  lemma QuietScanIsZero(run: seq<State>, j: nat, k: nat)
    requires IsRun(Init, Next, run) && j <= k < |run| && run[j].scan == Scan(run[j].epoch, 0, 0)
    requires forall m :: j <= m <= k ==> Quiet(run[m])
    ensures run[k].scan.Scan? && run[k].scan.total == 0
  {
    forall s, s' | ZeroSoFar(s) && Next(s, s') && Quiet(s') ensures ZeroSoFar(s') { StepStaysZero(s, s'); }
    KeptWhile(Init, Next, Quiet, ZeroSoFar, run, j, k);
  }

  predicate StillEmpty(s: State, epoch: nat) { epoch <= s.epoch && (s.epoch == epoch ==> NobodyInside(s.threads)) }

  lemma StepStaysEmpty(s: State, s': State, epoch: nat)
    requires Inv(s) && StillEmpty(s, epoch) && Next(s, s') && !IsOpen(epoch)
    ensures StillEmpty(s', epoch)
  {
    if t :| 0 <= t < |s.threads| && ThreadStep(s, s', t) {
      assert ThreadOk(s.threads[t], s.epoch);
    }
  }

  /** Once empty, the gate stays empty until it is reopened. */
  lemma EmptyUntilReopened(run: seq<State>, j: nat, k: nat)
    requires IsRun(Init, Next, run) && j <= k < |run|
    requires !IsOpen(run[j].epoch) && NobodyInside(run[j].threads) && run[k].epoch == run[j].epoch
    ensures NobodyInside(run[k].threads)
  {
    var kept := (s: State) => Inv(s) && StillEmpty(s, run[j].epoch);
    RunKeeps(run, j);
    forall s, s' | kept(s) && Next(s, s') ensures kept(s') {
      NextKeeps(s, s');
      StepStaysEmpty(s, s', run[j].epoch);
    }
    KeptOnRun(Init, Next, kept, run, j, k);
  }

  lemma EpochGrows(run: seq<State>, j: nat, k: nat)
    requires IsRun(Init, Next, run) && j <= k < |run|
    ensures run[j].epoch <= run[k].epoch
  {
    var grown := (s: State) => run[j].epoch <= s.epoch;
    KeptOnRun(Init, Next, grown, run, j, k);
  }

  /** A reader that loaded the epoch before a close is rejected by its recheck, even after a reopen. */
  lemma SpanningReaderIsRejected(run: seq<State>, j: nat, i: nat, k: nat, t: nat)
    requires IsRun(Init, Next, run) && j <= i <= k < |run| && t < |run[k].threads|
    requires run[k].threads[t].place == Published(run[j].epoch) && run[i].epoch != run[j].epoch
    ensures Recheck(run[k], t).threads[t].place == Rejecting
  {
    EpochGrows(run, j, i);
    EpochGrows(run, i, k);
  }

  /** A reader that has published itself is admitted exactly when the epoch is still the one it loaded. */
  lemma AdmittedExactly(run: seq<State>, k: nat, t: nat)
    requires IsRun(Init, Next, run) && k + 1 < |run| && t < |run[k].threads| && t < |run[k + 1].threads|
    requires run[k].threads[t].place.Published? && ThreadStep(run[k], run[k + 1], t)
    ensures var place, place' := run[k].threads[t].place, run[k + 1].threads[t].place;
      if run[k].epoch == place.epoch then place' == Inside(1, place.epoch) && IsOpen(run[k].epoch) else place' == Rejecting
  {
    RunKeeps(run, k);
  }

  // ---------------------------------------------------------------------------------------------
  // Nobody is stuck
  // ---------------------------------------------------------------------------------------------

  /** A reader in the middle of an entry, or inside, can always go on. */
  lemma ReaderCanStep(run: seq<State>, k: nat, t: nat)
    requires IsRun(Init, Next, run) && k < |run| && t < |run[k].threads| && !run[k].threads[t].place.Outside?
    ensures exists s' :: ThreadStep(run[k], s', t) && s'.threads != run[k].threads
  {
    RunKeeps(run, k);
    var s := run[k];
    assert ThreadOk(s.threads[t], s.epoch) && HomeOk(s.threads[t].home, s.tickets);
    var s' :=
      match s.threads[t].place
      case Loaded(_) => if s.threads[t].home.NoHome? then TakeTicket(s, t) else Publish(s, t)
      case Published(_) => Recheck(s, t)
      case Rejecting => Withdraw(s, t)
      case Inside(depth, epoch) => if depth > 1 then Move(s, t, Inside(depth - 1, epoch)) else Withdraw(s, t);
    assert ThreadStep(s, s', t) && s'.threads[t] != s.threads[t];
  }
}
