/**
 * The Darwin controller: it suspends every other thread, checks that none stands inside the entry
 * bytes, swaps those bytes, and resumes the threads when the mutation is finished or cancelled. Mach
 * and Gum answers come in as parameters; memory is the process's text as one sequence of bytes.
 */
module DarwinDetach {
  import opened Common
  import opened DetachProtocol

  const MAX_HELD: nat := 4096
  const MAX_RECORDS: nat := 8192

  datatype Operation = Attach | Detach | Reattach | Shutdown | Replace | Revert

  datatype Request = Request(operation: Operation, hookId: nat)

  /** A hook's two sets of entry bytes, kept across its detach. */
  datatype Record = Record(used: bool, hookId: nat, address: nat, active: seq<Byte>, original: seq<Byte>)

  const EMPTY := Record(false, 0, 0, [], [])

  /** What Gum reports of a hooked function: both byte sets have the one reported length. */
  datatype Reported = Reported(address: nat, active: seq<Byte>, original: seq<Byte>)
  type GumPatch = p: Reported | |p.active| == |p.original| witness Reported(0, [], [])

  datatype Plan = Plan(address: nat, write: seq<Byte>, expected: seq<Byte>)

  /** What memory and the record table hold. */
  datatype Core = Core(memory: seq<Byte>, records: seq<Record>)

  /** The foreign answers to one prepare. */
  datatype Answers = Answers(
    gateInstalled: bool,
    patch: Option<GumPatch>,
    canonical: Option<nat>,
    aliasMapped: bool)

  // ---------------------------------------------------------------------------------------------
  // Plans and records
  // ---------------------------------------------------------------------------------------------

  predicate Owns(r: Record, hookId: nat) { r.used && r.hookId == hookId }

  /** The hook's record, or the length. */
  function RecordOf(records: seq<Record>, hookId: nat): (i: nat)
    ensures i <= |records| && (i < |records| ==> Owns(records[i], hookId))
    ensures forall j :: 0 <= j < i ==> !Owns(records[j], hookId)
  {
    FirstWhere(records, (r: Record) => Owns(r, hookId))
  }

  /** The first unused record, or the length. */
  function FreeRecord(records: seq<Record>): (i: nat)
    ensures i <= |records| && (i < |records| ==> !records[i].used)
    ensures forall j :: 0 <= j < i ==> records[j].used
  {
    FirstWhere(records, (r: Record) => !r.used)
  }

  function DetachSlot(records: seq<Record>, hookId: nat): nat {
    if RecordOf(records, hookId) < |records| then RecordOf(records, hookId) else FreeRecord(records)
  }

  /** The plan of a request, and the records it leaves whatever happens to the plan afterwards. */
  function Planned(records: seq<Record>, r: Request, a: Answers): (Option<Plan>, seq<Record>) {
    if r.operation == Detach then
      if a.patch.None? then (None, records)
      else
        var p, i := a.patch.value, DetachSlot(records, r.hookId);
        if i == |records| then (None, records)
        else (Some(Plan(p.address, p.original, p.active)),
              records[i := Record(true, r.hookId, p.address, p.active, p.original)])
    else
      var i := RecordOf(records, r.hookId);
      if i == |records| || |records[i].active| == 0 || |records[i].active| > MAX_PROLOGUE then (None, records)
      else if a.canonical != Some(records[i].address) then (None, records)
      else (Some(Plan(records[i].address, records[i].active, records[i].original)), records)
  }

  /** The alias covers the entry bytes and the bytes there are the expected ones. */
  predicate Writable(memory: seq<Byte>, p: Plan, a: Answers, safe: bool) {
    && |p.write| == |p.expected| && a.aliasMapped && p.address + |p.write| <= |memory|
    && safe && memory[p.address..p.address + |p.expected|] == p.expected
  }

  /**
   * What a prepare does to memory and records, and whether it succeeds; `safe` says that both
   * suspensions succeeded and no program counter is inside the bytes.
   */
  function Prepared(core: Core, r: Request, a: Answers, safe: bool): (Core, bool) {
    if r.operation !in {Detach, Reattach} || !a.gateInstalled then (core, false)
    else
      var (plan, records) := Planned(core.records, r, a);
      if plan.None? || !Writable(core.memory, plan.value, a, safe) then (Core(core.memory, records), false)
      else (Core(Patched(core.memory, plan.value.address, plan.value.write), records), true)
  }

  // ---------------------------------------------------------------------------------------------
  // Detach and reattach undo each other
  // ---------------------------------------------------------------------------------------------

  /** A prepare that fails leaves memory alone, and a failed reattach the records too. */
  lemma FailureChangesNoByte(core: Core, r: Request, a: Answers, safe: bool)
    requires !Prepared(core, r, a, safe).1
    ensures Prepared(core, r, a, safe).0.memory == core.memory
    ensures r.operation != Detach ==> Prepared(core, r, a, safe).0 == core
  {
  }

  /** What a prepare needs besides Gum, Mach and stopped threads: the bytes it expects, in mapped memory. */
  predicate Has(memory: seq<Byte>, address: nat, bytes: seq<Byte>) {
    address + |bytes| <= |memory| && memory[address..address + |bytes|] == bytes
  }

  /** Exactly when a detach succeeds, and what it leaves: the original bytes where the active ones were. */
  lemma DetachExactly(core: Core, id: nat, a: Answers, safe: bool)
    ensures Prepared(core, Request(Detach, id), a, safe).1 <==>
      && a.gateInstalled && a.aliasMapped && safe && a.patch.Some?
      && (exists i :: 0 <= i < |core.records| && (Owns(core.records[i], id) || !core.records[i].used))
      && Has(core.memory, a.patch.value.address, a.patch.value.active)
    ensures Prepared(core, Request(Detach, id), a, safe).1 ==>
      var after, p := Prepared(core, Request(Detach, id), a, safe).0.memory, a.patch.value;
      Has(after, p.address, p.original) && SameBytesOutside(core.memory, after, p.address, |p.original|)
  {
    var i := DetachSlot(core.records, id);
    if i == |core.records| { assert forall j :: 0 <= j < |core.records| ==> core.records[j].used && !Owns(core.records[j], id); }
    if Prepared(core, Request(Detach, id), a, safe).1 {
      PatchReads(core.memory, a.patch.value.address, a.patch.value.original);
    }
  }

  /** Exactly when a reattach succeeds, and what it leaves: the recorded active bytes over the original ones. */
  lemma ReattachExactly(core: Core, id: nat, a: Answers, safe: bool)
    requires EvenRecords(core.records)
    ensures var i := RecordOf(core.records, id);
      Prepared(core, Request(Reattach, id), a, safe).1 <==>
        && a.gateInstalled && a.aliasMapped && safe && i < |core.records| && 0 < |core.records[i].active| <= MAX_PROLOGUE
        && a.canonical == Some(core.records[i].address)
        && Has(core.memory, core.records[i].address, core.records[i].original)
    ensures Prepared(core, Request(Reattach, id), a, safe).1 ==>
      var after, r := Prepared(core, Request(Reattach, id), a, safe).0.memory, core.records[RecordOf(core.records, id)];
      Has(after, r.address, r.active) && SameBytesOutside(core.memory, after, r.address, |r.active|)
  {
    if Prepared(core, Request(Reattach, id), a, safe).1 {
      var r := core.records[RecordOf(core.records, id)];
      PatchReads(core.memory, r.address, r.active);
    }
  }

  predicate SameBytesOutside(before: seq<Byte>, after: seq<Byte>, address: nat, size: nat) {
    |after| == |before| && forall x :: 0 <= x < |after| && !(address <= x < address + size) ==> after[x] == before[x]
  }

  /** One call of prepare. */
  datatype Attempt = Attempt(request: Request, answers: Answers, safe: bool)

  function Do(core: Core, t: Attempt): (Core, bool) { Prepared(core, t.request, t.answers, t.safe) }

  /** The state after a list of attempts. */
  function After(core: Core, attempts: seq<Attempt>): Core {
    if attempts == [] then core else Do(After(core, attempts[..|attempts| - 1]), attempts[|attempts| - 1]).0
  }

  /** A detach of the hook that gets as far as its plan: it replaces the hook's record, even if it fails. */
  predicate Reports(t: Attempt, id: nat) {
    t.request == Request(Detach, id) && t.answers.gateInstalled && t.answers.patch.Some?
  }

  /** What Gum reported to the last such detach, else at first. */
  function LastReport(attempts: seq<Attempt>, id: nat, first: GumPatch): GumPatch {
    if attempts == [] then first
    else
      var t := attempts[|attempts| - 1];
      if Reports(t, id) then t.answers.patch.value else LastReport(attempts[..|attempts| - 1], id, first)
  }

  predicate Apart(plan: Plan, p: GumPatch) {
    plan.address + |plan.write| <= p.address || p.address + |p.active| <= plan.address
  }

  /** The attempt fails, or it is another hook's and writes elsewhere. */
  predicate LeavesEntry(core: Core, t: Attempt, id: nat, p: GumPatch) {
    var plan := Planned(core.records, t.request, t.answers).0;
    Do(core, t).1 ==> t.request.hookId != id && plan.Some? && Apart(plan.value, p)
  }

  predicate AllLeaveEntry(core: Core, attempts: seq<Attempt>, id: nat, p: GumPatch) {
    forall k :: 0 <= k < |attempts| ==> LeavesEntry(After(core, attempts[..k]), attempts[k], id, p)
  }

  predicate AllFail(core: Core, attempts: seq<Attempt>) {
    forall k :: 0 <= k < |attempts| ==> !Do(After(core, attempts[..k]), attempts[k]).1
  }

  predicate NoDetach(attempts: seq<Attempt>) { forall k :: 0 <= k < |attempts| ==> attempts[k].request.operation != Detach }

  function RecordFor(id: nat, q: GumPatch): Record { Record(true, id, q.address, q.active, q.original) }

  predicate Recorded(records: seq<Record>, id: nat, q: GumPatch) {
    RecordOf(records, id) < |records| && records[RecordOf(records, id)] == RecordFor(id, q)
  }

  /** The entry holds the function's own bytes. */
  predicate Detached(memory: seq<Byte>, p: GumPatch) {
    p.address + |p.original| <= |memory| && memory[p.address..p.address + |p.original|] == p.original
  }

  lemma RecordPlaced(records: seq<Record>, id: nat, q: GumPatch)
    requires DetachSlot(records, id) < |records|
    ensures Recorded(records[DetachSlot(records, id) := RecordFor(id, q)], id, q)
  {
    var i := DetachSlot(records, id);
    var after := records[i := RecordFor(id, q)];
    assert Owns(after[i], id);
    assert forall j :: 0 <= j < i ==> !Owns(after[j], id);
  }

  /** Another hook's record never takes the place of this one's. */
  lemma OtherRecordPlaced(records: seq<Record>, id: nat, q: GumPatch, other: nat, r: GumPatch)
    requires Recorded(records, id, q) && other != id && DetachSlot(records, other) < |records|
    ensures Recorded(records[DetachSlot(records, other) := RecordFor(other, r)], id, q)
  {
    var i, j := RecordOf(records, id), DetachSlot(records, other);
    var after := records[j := RecordFor(other, r)];
    assert Owns(records[i], id) && j != i;
    assert Owns(after[i], id);
    assert forall k :: 0 <= k < i ==> !Owns(after[k], id);
  }

  lemma RecordKept(core: Core, t: Attempt, id: nat, q: GumPatch)
    requires Recorded(core.records, id, q)
    ensures Recorded(Do(core, t).0.records, id, if Reports(t, id) then t.answers.patch.value else q)
  {
    if t.request.operation == Detach && t.answers.gateInstalled && t.answers.patch.Some? {
      if t.request.hookId == id {
        RecordPlaced(core.records, id, t.answers.patch.value);
      } else if DetachSlot(core.records, t.request.hookId) < |core.records| {
        OtherRecordPlaced(core.records, id, q, t.request.hookId, t.answers.patch.value);
      }
    }
  }

  lemma PatchedElsewhere(memory: seq<Byte>, plan: Plan, p: GumPatch)
    requires Detached(memory, p) && plan.address + |plan.write| <= |memory| && Apart(plan, p)
    ensures Detached(Patched(memory, plan.address, plan.write), p)
  {
    var after, n := Patched(memory, plan.address, plan.write), |p.original|;
    forall k | 0 <= k < n ensures after[p.address..p.address + n][k] == p.original[k] {
      assert after[p.address + k] == memory[p.address + k] == memory[p.address..p.address + n][k];
    }
  }

  lemma EntryLeft(core: Core, t: Attempt, id: nat, p: GumPatch)
    requires Detached(core.memory, p) && LeavesEntry(core, t, id, p)
    ensures Detached(Do(core, t).0.memory, p) && |Do(core, t).0.memory| == |core.memory|
  {
    if Do(core, t).1 {
      PatchedElsewhere(core.memory, Planned(core.records, t.request, t.answers).0.value, p);
    }
  }

  lemma {:induction false} EntryLeftThroughout(core: Core, attempts: seq<Attempt>, id: nat, p: GumPatch)
    requires Detached(core.memory, p) && Recorded(core.records, id, p) && AllLeaveEntry(core, attempts, id, p)
    ensures var core' := After(core, attempts);
      && Detached(core'.memory, p) && |core'.memory| == |core.memory|
      && Recorded(core'.records, id, LastReport(attempts, id, p))
  {
    if attempts != [] {
      var n := |attempts| - 1;
      var most := attempts[..n];
      forall k | 0 <= k < n ensures LeavesEntry(After(core, most[..k]), most[k], id, p) {
        assert most[..k] == attempts[..k] && most[k] == attempts[k];
      }
      EntryLeftThroughout(core, most, id, p);
      EntryLeft(After(core, most), attempts[n], id, p);
      RecordKept(After(core, most), attempts[n], id, LastReport(most, id, p));
    }
  }

  /**
   * A successful detach, any attempts in between that fail or write elsewhere for other hooks, and a
   * successful reattach: the entry is restored exactly when the last report in between, if any, gave the
   * active bytes of the first, because a failed detach too replaces the record. The reattach touches no
   * other byte.
   */
  lemma {:induction false} EntryRestoredExactly(core: Core, detach: Attempt, attempts: seq<Attempt>, reattach: Attempt)
    requires detach.request.operation == Detach && Do(core, detach).1 && detach.answers.patch.Some?
    requires AllLeaveEntry(Do(core, detach).0, attempts, detach.request.hookId, detach.answers.patch.value)
    requires var p := detach.answers.patch.value;
      var q := LastReport(attempts, detach.request.hookId, p);
      q.address == p.address && |q.active| == |p.active|
    requires reattach.request == Request(Reattach, detach.request.hookId) && Do(After(Do(core, detach).0, attempts), reattach).1
    ensures var p, before := detach.answers.patch.value, After(Do(core, detach).0, attempts).memory;
      var after, end := Do(After(Do(core, detach).0, attempts), reattach).0.memory, p.address + |p.active|;
      && |after| == |before| == |core.memory| && end <= |core.memory|
      && (after[p.address..end] == core.memory[p.address..end] <==> LastReport(attempts, detach.request.hookId, p).active == p.active)
      && (forall x :: 0 <= x < |after| && !(p.address <= x < end) ==> after[x] == before[x])
  {
    var p, id := detach.answers.patch.value, detach.request.hookId;
    var core1 := Do(core, detach).0;
    var core2 := After(core1, attempts);
    DetachWrites(core, detach);
    EntryLeftThroughout(core1, attempts, id, p);
    ReattachWrites(core2, reattach);
    PatchReads(core2.memory, p.address, LastReport(attempts, id, p).active);
  }

  lemma PatchReads(memory: seq<Byte>, address: nat, bytes: seq<Byte>)
    requires address + |bytes| <= |memory|
    ensures Patched(memory, address, bytes)[address..address + |bytes|] == bytes
  {
  }

  lemma {:induction false} FailuresChangeNoByte(core: Core, attempts: seq<Attempt>)
    requires AllFail(core, attempts)
    ensures After(core, attempts).memory == core.memory
  {
    if attempts != [] {
      var n := |attempts| - 1;
      forall k | 0 <= k < n ensures !Do(After(core, attempts[..n][..k]), attempts[..n][k]).1 {
        assert attempts[..n][..k] == attempts[..k];
      }
      FailuresChangeNoByte(core, attempts[..n]);
      FailureChangesNoByte(After(core, attempts[..n]), attempts[n].request, attempts[n].answers, attempts[n].safe);
    }
  }

  /** When every attempt in between fails, whoever made it, the same holds of all of memory. */
  lemma {:induction false} MemoryRestoredExactly(core: Core, detach: Attempt, attempts: seq<Attempt>, reattach: Attempt)
    requires detach.request.operation == Detach && Do(core, detach).1 && detach.answers.patch.Some?
    requires AllFail(Do(core, detach).0, attempts)
    requires var p := detach.answers.patch.value;
      var q := LastReport(attempts, detach.request.hookId, p);
      q.address == p.address && |q.active| == |p.active|
    requires reattach.request == Request(Reattach, detach.request.hookId) && Do(After(Do(core, detach).0, attempts), reattach).1
    ensures Do(After(Do(core, detach).0, attempts), reattach).0.memory == core.memory
      <==> LastReport(attempts, detach.request.hookId, detach.answers.patch.value).active == detach.answers.patch.value.active
  {
    var p, id := detach.answers.patch.value, detach.request.hookId;
    var core1 := Do(core, detach).0;
    DetachWrites(core, detach);
    EntryLeftThroughout(core1, attempts, id, p);
    FailuresChangeNoByte(core1, attempts);
    ReattachWrites(After(core1, attempts), reattach);
    SwapOther(core.memory, p.address, p.active, p.original, LastReport(attempts, id, p).active);
  }

  lemma {:induction false} ReattachesReportNothing(attempts: seq<Attempt>, id: nat, first: GumPatch)
    requires NoDetach(attempts)
    ensures LastReport(attempts, id, first) == first
  {
    if attempts != [] {
      ReattachesReportNothing(attempts[..|attempts| - 1], id, first);
    }
  }

  /** With only failed reattach attempts in between, every byte of memory is put back. */
  lemma {:induction false} DetachReattachRestoresMemory(core: Core, detach: Attempt, attempts: seq<Attempt>, reattach: Attempt)
    requires detach.request.operation == Detach && Do(core, detach).1
    requires AllFail(Do(core, detach).0, attempts)
    requires NoDetach(attempts)
    requires reattach.request == Request(Reattach, detach.request.hookId) && Do(After(Do(core, detach).0, attempts), reattach).1
    ensures Do(After(Do(core, detach).0, attempts), reattach).0.memory == core.memory
  {
    DetachWrites(core, detach);
    ReattachesReportNothing(attempts, detach.request.hookId, detach.answers.patch.value);
    MemoryRestoredExactly(core, detach, attempts, reattach);
  }

  /** A detach of hook 0 at address 0 that gets Gum's report and meets no obstacle but the bytes. */
  function DetachReporting(active: seq<Byte>): Attempt
    requires |active| == 1
  {
    Attempt(Request(Detach, 0), Answers(true, Some(Reported(0, active, [0])), None, true), true)
  }

  function ReattachAtZero(): Attempt { Attempt(Request(Reattach, 0), Answers(true, None, Some(0), true), true) }

  lemma DetachFromOne()
    ensures Do(Core([1], [EMPTY]), DetachReporting([1])) == (Core([0], [Record(true, 0, 0, [1], [0])]), true)
  {
    assert RecordOf([EMPTY], 0) == 1 && FreeRecord([EMPTY]) == 0;
    assert [EMPTY][0 := RecordFor(0, Reported(0, [1], [0]))] == [Record(true, 0, 0, [1], [0])];
    assert [1][0..1] == [1] && Patched([1], 0, [0]) == [0];
  }

  lemma DetachAgain()
    ensures Do(Core([0], [Record(true, 0, 0, [1], [0])]), DetachReporting([2])) == (Core([0], [Record(true, 0, 0, [2], [0])]), false)
  {
    var records := [Record(true, 0, 0, [1], [0])];
    assert RecordOf(records, 0) == 0;
    assert records[0 := RecordFor(0, Reported(0, [2], [0]))] == [Record(true, 0, 0, [2], [0])];
    assert [0][0..1] == [0] && [0][0] != [2][0];
  }

  lemma ReattachToTwo()
    ensures Do(Core([0], [Record(true, 0, 0, [2], [0])]), ReattachAtZero()) == (Core([2], [Record(true, 0, 0, [2], [0])]), true)
  {
    assert RecordOf([Record(true, 0, 0, [2], [0])], 0) == 0;
    assert [0][0..1] == [0] && Patched([0], 0, [2]) == [2];
  }

  lemma ReattachToOne()
    ensures Do(Core([0], [Record(true, 0, 0, [1], [0])]), ReattachAtZero()) == (Core([1], [Record(true, 0, 0, [1], [0])]), true)
  {
    assert RecordOf([Record(true, 0, 0, [1], [0])], 0) == 0;
    assert [0][0..1] == [0] && Patched([0], 0, [1]) == [1];
  }

  /** The same run without the second detach meets every premise of the round trip, and it holds. */
  lemma RoundTripHappens()
    ensures var core, detach, reattach := Core([1], [EMPTY]), DetachReporting([1]), ReattachAtZero();
      && Do(core, detach).1 && AllFail(Do(core, detach).0, []) && NoDetach([]) && Do(After(Do(core, detach).0, []), reattach).1
      && Do(After(Do(core, detach).0, []), reattach).0.memory == [1]
  {
    DetachFromOne();
    ReattachToOne();
    assert After(Do(Core([1], [EMPTY]), DetachReporting([1])).0, []) == Do(Core([1], [EMPTY]), DetachReporting([1])).0;
  }

  /** A failing input: a second detach that fails reports other active bytes, and the reattach writes those. */
  lemma FailedDetachSpoilsReattach()
    ensures var core, detach, attempts, reattach := Core([1], [EMPTY]), DetachReporting([1]), [DetachReporting([2])], ReattachAtZero();
      && Do(core, detach).1 && AllFail(Do(core, detach).0, attempts) && Do(After(Do(core, detach).0, attempts), reattach).1
      && Do(After(Do(core, detach).0, attempts), reattach).0.memory == [2]
  {
    var core1, attempts := Do(Core([1], [EMPTY]), DetachReporting([1])).0, [DetachReporting([2])];
    DetachFromOne();
    DetachAgain();
    ReattachToTwo();
    assert attempts[..0] == [] && After(core1, []) == core1;
    assert After(core1, attempts) == Do(core1, attempts[0]).0;
  }

  /** Writing other bytes back restores memory only if they are the bytes that were there. */
  lemma SwapOther(memory: seq<Byte>, address: nat, active: seq<Byte>, original: seq<Byte>, other: seq<Byte>)
    requires |active| == |original| == |other| && address + |active| <= |memory| && memory[address..address + |active|] == active
    ensures Patched(Patched(memory, address, original), address, other) == memory <==> other == active
  {
    var back := Patched(Patched(memory, address, original), address, other);
    if other == active {
      SwapBack(memory, address, active, original);
    } else {
      var i :| 0 <= i < |other| && other[i] != active[i];
      assert active[i] == memory[address..address + |active|][i] == memory[address + i];
      assert back[address + i] == other[i];
    }
  }

  /** A successful detach found the active bytes, wrote the original ones and recorded both. */
  lemma DetachWrites(core: Core, t: Attempt)
    requires t.request.operation == Detach && Do(core, t).1
    ensures t.answers.patch.Some?
    ensures var p := t.answers.patch.value;
      && p.address + |p.active| <= |core.memory| && core.memory[p.address..p.address + |p.active|] == p.active
      && Do(core, t).0.memory == Patched(core.memory, p.address, p.original)
      && Detached(Do(core, t).0.memory, p) && Recorded(Do(core, t).0.records, t.request.hookId, p)
  {
    var p := t.answers.patch.value;
    PatchReads(core.memory, p.address, p.original);
    RecordPlaced(core.records, t.request.hookId, p);
  }

  /** A successful reattach writes the recorded active bytes where they were. */
  lemma ReattachWrites(core: Core, t: Attempt)
    requires t.request.operation == Reattach && Do(core, t).1
    ensures var i := RecordOf(core.records, t.request.hookId);
      && i < |core.records| && core.records[i].address + |core.records[i].active| <= |core.memory|
      && Do(core, t).0.memory == Patched(core.memory, core.records[i].address, core.records[i].active)
  {
  }

  /** Writing over expected bytes and writing those back is no change. */
  lemma SwapBack(memory: seq<Byte>, address: nat, active: seq<Byte>, original: seq<Byte>)
    requires |active| == |original| && address + |active| <= |memory| && memory[address..address + |active|] == active
    ensures Patched(Patched(memory, address, original), address, active) == memory
  {
    var back := Patched(Patched(memory, address, original), address, active);
    forall x | 0 <= x < |back| ensures back[x] == memory[x] {
      if address <= x < address + |active| {
        assert active[x - address] == memory[address..address + |active|][x - address];
      }
    }
  }

  // ---------------------------------------------------------------------------------------------
  // The controller
  // ---------------------------------------------------------------------------------------------

  predicate EvenRecords(records: seq<Record>) {
    forall i :: 0 <= i < |records| ==> |records[i].active| == |records[i].original|
  }

  /** A prepare that has a plan succeeds exactly when it can be written. */
  lemma PreparedIs(core: Core, r: Request, a: Answers, safe: bool)
    requires r.operation in {Detach, Reattach} && a.gateInstalled && Planned(core.records, r, a).0.Some?
    ensures var plan, records := Planned(core.records, r, a).0.value, Planned(core.records, r, a).1;
      Prepared(core, r, a, safe) ==
        if Writable(core.memory, plan, a, safe) then (Core(Patched(core.memory, plan.address, plan.write), records), true)
        else (Core(core.memory, records), false)
  {
  }

  /** Plans keep the records even, and come with as many bytes as they replace. */
  lemma PlansAreEven(records: seq<Record>, r: Request, a: Answers)
    requires EvenRecords(records)
    ensures EvenRecords(Planned(records, r, a).1)
    ensures var plan := Planned(records, r, a).0; plan.Some? ==> |plan.value.write| == |plan.value.expected|
  {
  }

  lemma OneMoreHeld(held: seq<int>, i: nat)
    requires i < |held|
    ensures multiset(held[i..]) == multiset{held[i]} + multiset(held[i + 1..])
  {
    assert held[i..] == [held[i]] + held[i + 1..];
  }

  datatype SuspendAnswer = Suspended | Gone | Failed

  /** A thread of the snapshot other than the controller's own, whose suspension took effect. */
  predicate Suspendable(thread: int, controller: int, threads: seq<int>, answer: int -> SuspendAnswer) {
    thread != controller && thread in threads && answer(thread) == Suspended
  }

  predicate AllSuspended(held: seq<int>, controller: int, threads: seq<int>, answer: int -> SuspendAnswer) {
    forall i :: 0 <= i < |held| ==> Suspendable(held[i], controller, threads, answer)
  }

  /** What the first `n` threads added to the held ones: each added thread was suspended, none of it the controller's. */
  predicate Grew(was: seq<int>, held: seq<int>, controller: int, threads: seq<int>, n: nat, answer: int -> SuspendAnswer) {
    && was <= held && |held| <= |was| + n
    && forall i :: |was| <= i < |held| ==> Suspendable(held[i], controller, threads, answer)
  }

  /** Each of the first `n` threads is held, is gone, or is the controller's own. */
  predicate AllHeld(held: seq<int>, controller: int, threads: seq<int>, n: nat, answer: int -> SuspendAnswer)
    requires n <= |threads|
  {
    forall i :: 0 <= i < n && threads[i] != controller && answer(threads[i]) != Gone ==> threads[i] in held
  }

  lemma GrewMore(was: seq<int>, held: seq<int>, held': seq<int>, controller: int, threads: seq<int>, n: nat, answer: int -> SuspendAnswer)
    requires n < |threads| && Grew(was, held, controller, threads, n, answer)
    requires held' == held || (held' == held + [threads[n]] && threads[n] != controller && answer(threads[n]) == Suspended)
    ensures Grew(was, held', controller, threads, n + 1, answer) && Grew(was, held', controller, threads, |threads|, answer)
  {
  }

  lemma AllHeldMore(held: seq<int>, held': seq<int>, controller: int, threads: seq<int>, n: nat, answer: int -> SuspendAnswer)
    requires n < |threads| && AllHeld(held, controller, threads, n, answer) && held <= held'
    requires threads[n] == controller || answer(threads[n]) == Gone || threads[n] in held'
    ensures AllHeld(held', controller, threads, n + 1, answer)
  {
    forall t | t in held ensures t in held' {
      var k :| 0 <= k < |held| && held[k] == t;
      assert held'[k] == t;
    }
  }

  /** The program counter of a stopped thread, if it can be read. */
  predicate Avoids(pc: Option<nat>, address: nat, size: nat) { pc.Some? && !(address < pc.value < address + size) }

  /** Every thread can be suspended, and all of them stand clear of the entry bytes. */
  predicate CanStop(threads: seq<int>, answer: int -> SuspendAnswer, pc: int -> Option<nat>, address: nat, size: nat) {
    && |threads| <= MAX_HELD && address + size < SPACE
    && forall i :: 0 <= i < |threads| ==> answer(threads[i]) != Failed && Avoids(pc(threads[i]), address, size)
  }

  predicate CanStopFor(plan: Option<Plan>, threads: seq<int>, answer: int -> SuspendAnswer, pc: int -> Option<nat>) {
    plan.Some? ==> CanStop(threads, answer, pc, plan.value.address, |plan.value.write|)
  }

  predicate AllAvoid(held: seq<int>, pc: int -> Option<nat>, plan: Plan) {
    forall i :: 0 <= i < |held| ==> Avoids(pc(held[i]), plan.address, |plan.write|)
  }

  class Controller {
    var memory: seq<Byte>
    var records: seq<Record>
    var active: bool
    var hookId: nat
    var operation: Operation
    var held: seq<int>
    var alias: bool
    var gate: bool                 // thread creation is held back
    var suspends: multiset<int>    // suspensions that took effect
    var resumes: multiset<int>     // resumptions asked for

    /** Every suspension is still held, once, or was resumed, once. */
    ghost predicate Accounted()
      reads this`held, this`suspends, this`resumes
    {
      Distinct(held) && suspends == resumes + multiset(held)
    }

    ghost predicate Valid()
      reads this
    {
      Accounted() && EvenRecords(records) && (!active ==> held == [] && !alias && !gate)
    }

    constructor (text: seq<Byte>)
      ensures Valid() && memory == text && records == seq(MAX_RECORDS, _ => EMPTY) && !active
    {
      memory, records := text, seq(MAX_RECORDS, _ => EMPTY);
      active, hookId, operation, held, alias, gate := false, 0, Attach, [], false, false;
      suspends, resumes := multiset{}, multiset{};
    }

    /** Looks a hook's record up; with `create`, takes the first unused one when the hook has none. */
    method FindRecord(id: nat, create: bool) returns (i: nat)
      modifies this`records
      ensures |records| == |old(records)|
      ensures create ==> i == DetachSlot(old(records), id)
      ensures !create ==> i == RecordOf(old(records), id) && records == old(records)
      ensures forall j :: 0 <= j < |records| && j != i ==> records[j] == old(records)[j]
      ensures i == |records| ==> records == old(records)
    {
      var free := |records|;
      i := 0;
      while i < |records|
        invariant 0 <= i <= |records| && 0 <= free <= |records|
        invariant forall j :: 0 <= j < i ==> !Owns(records[j], id)
        invariant forall j :: 0 <= j < i && j < free ==> records[j].used
        invariant free < |records| ==> free < i && !records[free].used
      {
        if Owns(records[i], id) {
          return;
        }
        if !records[i].used && free == |records| {
          free := i;
        }
        i := i + 1;
      }
      if create && free < |records| {
        records := records[free := Record(true, id, 0, [], [])];
        i := free;
      }
    }

    /** A detach takes Gum's bytes and records both sets; a reattach takes them from the record. */
    method BuildPlan(r: Request, a: Answers) returns (plan: Option<Plan>)
      modifies this`records
      ensures (plan, records) == Planned(old(records), r, a)
    {
      if r.operation == Detach {
        if a.patch.None? {
          return None;
        }
        var p := a.patch.value;
        var i := FindRecord(r.hookId, true);
        if i == |records| {
          return None;
        }
        records := records[i := Record(true, r.hookId, p.address, p.active, p.original)];
        assert records == old(records)[i := records[i]];
        return Some(Plan(p.address, p.original, p.active));
      }
      var i := FindRecord(r.hookId, false);
      if i == |records| || |records[i].active| == 0 || |records[i].active| > MAX_PROLOGUE {
        return None;
      }
      if a.canonical != Some(records[i].address) {
        return None;
      }
      plan := Some(Plan(records[i].address, records[i].active, records[i].original));
    }

    method IsHeld(thread: int) returns (yes: bool)
      ensures yes <==> thread in held
    {
      var i := 0;
      while i < |held|
        invariant 0 <= i <= |held| && thread !in held[..i]
      {
        if held[i] == thread {
          return true;
        }
        assert held[..i + 1] == held[..i] + [held[i]];
        i := i + 1;
      }
      assert held[..i] == held;
      yes := false;
    }

    /** Suspends one thread, unless it is the controller's own, held already or gone. */
    method SuspendOne(thread: int, controller: int, answer: int -> SuspendAnswer) returns (ok: bool)
      requires Accounted()
      modifies this`held, this`suspends
      ensures Accounted()
      ensures held == old(held) || (held == old(held) + [thread] && thread != controller && answer(thread) == Suspended)
      ensures ok ==> thread == controller || answer(thread) == Gone || thread in held
      ensures !ok ==> held == old(held) && (|held| >= MAX_HELD || answer(thread) == Failed)
    {
      var already := IsHeld(thread);
      ok := true;
      if thread != controller && !already {
        if |held| >= MAX_HELD {
          return false;
        }
        match answer(thread) {
          case Gone =>
          case Failed =>
            ok := false;
          case Suspended =>
            held, suspends := held + [thread], suspends + multiset{thread};
        }
      }
    }

    /** One pass over the process's threads: suspends each that is neither the controller nor held already. */
    method SuspendSnapshot(controller: int, threads: seq<int>, answer: int -> SuspendAnswer) returns (ok: bool)
      requires Accounted()
      modifies this`held, this`suspends
      ensures Accounted()
      ensures Grew(old(held), held, controller, threads, |threads|, answer)
      ensures ok ==> AllHeld(held, controller, threads, |threads|, answer)
      ensures |old(held)| + |threads| <= MAX_HELD && (forall i :: 0 <= i < |threads| ==> answer(threads[i]) != Failed) ==> ok
    {
      if |threads| > MAX_HELD {
        return false;
      }
      var i := 0;
      while i < |threads|
        invariant 0 <= i <= |threads| && Accounted()
        invariant Grew(old(held), held, controller, threads, i, answer) && AllHeld(held, controller, threads, i, answer)
      {
        ghost var was := held;
        ok := SuspendOne(threads[i], controller, answer);
        if !ok {
          GrewMore(old(held), was, held, controller, threads, i, answer);
          return;
        }
        GrewMore(old(held), was, held, controller, threads, i, answer);
        AllHeldMore(was, held, controller, threads, i, answer);
        i := i + 1;
      }
      ok := true;
    }

    /** No held thread stands past the first byte and before the end of the entry bytes. */
    method AvoidInterior(address: nat, size: nat, pc: int -> Option<nat>) returns (ok: bool)
      ensures ok <==> address + size < SPACE && forall i :: 0 <= i < |held| ==> Avoids(pc(held[i]), address, size)
      ensures ok ==> forall i :: 0 <= i < |held| ==> pc(held[i]).Some? && (pc(held[i]).value <= address || address + size <= pc(held[i]).value)
      ensures !ok && address + size < SPACE ==>
                exists i :: 0 <= i < |held| && (pc(held[i]).None? || address < pc(held[i]).value < address + size)
    {
      if address + size >= SPACE {
        return false;
      }
      var i := 0;
      while i < |held|
        invariant 0 <= i <= |held|
        invariant forall j :: 0 <= j < i ==> Avoids(pc(held[j]), address, size)
      {
        if !Avoids(pc(held[i]), address, size) {
          return false;
        }
        i := i + 1;
      }
      ok := true;
    }

    /** Resumes what is held, last suspended first; `ok` is whether the kernel went along every time. */
    method ResumeThreads(answer: int -> bool) returns (ok: bool)
      requires Accounted()
      modifies this`held, this`resumes
      ensures held == [] && resumes == old(resumes) + multiset(old(held)) && suspends == resumes
      ensures ok <==> forall i :: 0 <= i < |old(held)| ==> answer(old(held)[i])
    {
      var i := |held|;
      ok := true;
      while i > 0
        invariant 0 <= i <= |held| && held == old(held)
        invariant resumes == old(resumes) + multiset(held[i..])
        invariant ok <==> forall k :: i <= k < |held| ==> answer(held[k])
      {
        i := i - 1;
        OneMoreHeld(held, i);
        resumes := resumes + multiset{held[i]};
        ok := ok && answer(held[i]);
      }
      assert held[0..] == held;
      held := [];
    }

    method BytesEqual(address: nat, bytes: seq<Byte>) returns (equal: bool)
      requires address + |bytes| <= |memory|
      ensures equal <==> memory[address..address + |bytes|] == bytes
    {
      var i := 0;
      while i < |bytes|
        invariant 0 <= i <= |bytes|
        invariant forall j :: 0 <= j < i ==> memory[address + j] == bytes[j]
      {
        if memory[address + i] != bytes[i] {
          assert memory[address..address + |bytes|][i] != bytes[i];
          return false;
        }
        i := i + 1;
      }
      equal := true;
    }

    /** Byte by byte through the writable alias. */
    method WritePatch(address: nat, bytes: seq<Byte>)
      requires address + |bytes| <= |memory|
      modifies this`memory
      ensures memory == Patched(old(memory), address, bytes)
    {
      var i := 0;
      while i < |bytes|
        invariant 0 <= i <= |bytes| && |memory| == |old(memory)|
        invariant forall x :: 0 <= x < |memory| ==> memory[x] == if address <= x < address + i then bytes[x - address] else old(memory)[x]
      {
        memory := memory[address + i := bytes[i]];
        i := i + 1;
      }
    }

    /** Ends a stop window that will not mutate: everything is resumed and given back. A refusal is fatal. */
    method Cancel()
      requires Accounted()
      modifies this`held, this`resumes, this`alias, this`gate, this`active
      ensures Accounted() && held == [] && suspends == resumes && !alias && !gate && !active
      ensures resumes == old(resumes) + multiset(old(held))
    {
      var _ := ResumeThreads(_ => true);
      alias, gate, active := false, false, false;
    }

    /** Suspends the process's threads in two passes and looks where they stand. */
    method StopThreads(p: Plan, controller: int, first: seq<int>, second: seq<int>,
                       answer: int -> SuspendAnswer, pc: int -> Option<nat>) returns (stopped: bool)
      requires Accounted() && held == []
      modifies this`held, this`suspends
      ensures Accounted()
      ensures AllSuspended(held, controller, first + second, answer)
      ensures stopped ==> AllHeld(held, controller, second, |second|, answer)
      ensures stopped ==> AllAvoid(held, pc, p)
      ensures CanStop(first + second, answer, pc, p.address, |p.write|) ==> stopped
    {
      ghost var all := first + second;
      assert forall i :: 0 <= i < |first| ==> first[i] == all[i];
      assert forall i :: 0 <= i < |second| ==> second[i] == all[|first| + i];
      stopped := SuspendSnapshot(controller, first, answer);
      if stopped {
        stopped := SuspendSnapshot(controller, second, answer);
      }
      if stopped {
        stopped := AvoidInterior(p.address, |p.write|, pc);
      }
    }

    /** Stops the threads and compares the bytes; unless both go well, nothing is left suspended. */
    method OpenWindow(p: Plan, controller: int, first: seq<int>, second: seq<int>,
                      answer: int -> SuspendAnswer, pc: int -> Option<nat>) returns (safe: bool, same: bool)
      requires Accounted() && held == [] && !active && p.address + |p.expected| <= |memory|
      modifies this`held, this`suspends, this`resumes, this`alias, this`gate, this`active
      ensures Accounted() && !active
      ensures same <==> memory[p.address..p.address + |p.expected|] == p.expected
      ensures CanStop(first + second, answer, pc, p.address, |p.write|) ==> safe
      ensures AllSuspended(held, controller, first + second, answer)
      ensures safe && same ==> AllAvoid(held, pc, p) && AllHeld(held, controller, second, |second|, answer)
      ensures !(safe && same) ==> held == [] && !alias && !gate && suspends == resumes
    {
      alias, gate := true, true;
      safe := StopThreads(p, controller, first, second, answer, pc);
      same := BytesEqual(p.address, p.expected);
      if !safe || !same {
        Cancel();
      }
    }

    /** Carries a plan out: the bytes are swapped, or nothing is left suspended. */
    method Carry(p: Plan, a: Answers, controller: int, first: seq<int>, second: seq<int>,
                 answer: int -> SuspendAnswer, pc: int -> Option<nat>) returns (ok: bool, safe: bool)
      requires Accounted() && held == [] && !active && !alias && !gate && |p.write| == |p.expected|
      modifies this`held, this`suspends, this`resumes, this`alias, this`gate, this`active, this`memory
      ensures Accounted() && active == ok
      ensures ok <==> Writable(old(memory), p, a, safe)
      ensures a.aliasMapped && p.address + |p.write| <= |old(memory)| && CanStop(first + second, answer, pc, p.address, |p.write|) ==> safe
      ensures memory == if ok then Patched(old(memory), p.address, p.write) else old(memory)
      ensures ok ==> AllAvoid(held, pc, p)
      ensures AllSuspended(held, controller, first + second, answer)
      ensures ok ==> AllHeld(held, controller, second, |second|, answer)
      ensures !ok ==> held == [] && !alias && !gate && suspends == resumes
    {
      ok, safe := false, false;
      if !a.aliasMapped || p.address + |p.write| > |memory| {
        assert multiset(held) == multiset{};
        return;
      }
      var same;
      safe, same := OpenWindow(p, controller, first, second, answer, pc);
      if safe && same {
        WritePatch(p.address, p.write);
        active, ok := true, true;
      }
    }

    /**
     * Prepares a mutation: on success the bytes are swapped and the threads stay suspended; on failure
     * no byte has changed and no thread is left suspended. `safe` is how stopping the threads went.
     */
    method Prepare(r: Request, a: Answers, controller: int, first: seq<int>, second: seq<int>,
                   answer: int -> SuspendAnswer, pc: int -> Option<nat>) returns (ok: bool, safe: bool)
      requires Valid() && !active
      modifies this
      ensures Valid() && active == ok
      ensures (Core(memory, records), ok) == Prepared(old(Core(memory, records)), r, a, safe)
      ensures ok ==> hookId == r.hookId && operation == r.operation
      ensures CanStopFor(Planned(old(records), r, a).0, first + second, answer, pc) && !ok ==>
        !Prepared(old(Core(memory, records)), r, a, true).1
      ensures ok ==> Planned(old(records), r, a).0.Some? && AllAvoid(held, pc, Planned(old(records), r, a).0.value)
      ensures AllSuspended(held, controller, first + second, answer)
      ensures ok ==> AllHeld(held, controller, second, |second|, answer)
      ensures !ok ==> held == [] && suspends == resumes && memory == old(memory)
    {
      ok, safe := false, false;
      assert multiset(held) == multiset{};
      if (r.operation != Detach && r.operation != Reattach) || !a.gateInstalled {
        return;
      }
      PlansAreEven(records, r, a);
      ghost var core := Core(memory, records);
      var plan := BuildPlan(r, a);
      if plan.Some? {
        ok, safe := PreparePlan(plan.value, r, a, controller, first, second, answer, pc, core);
      }
    }

    /** The rest of a prepare that has a plan. */
    method PreparePlan(plan: Plan, r: Request, a: Answers, controller: int, first: seq<int>, second: seq<int>,
                       answer: int -> SuspendAnswer, pc: int -> Option<nat>, ghost core: Core) returns (ok: bool, safe: bool)
      requires Accounted() && held == [] && !active && !alias && !gate && |plan.write| == |plan.expected| && memory == core.memory
      requires (r.operation == Detach || r.operation == Reattach) && a.gateInstalled && Planned(core.records, r, a) == (Some(plan), records)
      modifies this`held, this`suspends, this`resumes, this`alias, this`gate, this`active, this`memory, this`hookId, this`operation
      ensures Accounted() && active == ok && (!active ==> held == [] && !alias && !gate)
      ensures (Core(memory, records), ok) == Prepared(core, r, a, safe)
      ensures ok ==> hookId == r.hookId && operation == r.operation
      ensures CanStop(first + second, answer, pc, plan.address, |plan.write|) && !ok ==> !Prepared(core, r, a, true).1
      ensures ok ==> AllAvoid(held, pc, plan) && AllHeld(held, controller, second, |second|, answer)
      ensures AllSuspended(held, controller, first + second, answer)
      ensures !ok ==> suspends == resumes && memory == core.memory
    {
      PreparedIs(core, r, a, true);
      ok, safe := Carry(plan, a, controller, first, second, answer, pc);
      PreparedIs(core, r, a, safe);
      if ok {
        hookId, operation := r.hookId, r.operation;
      }
    }

    /** A prepare while a mutation is under way is refused and changes nothing. */
    method PrepareGuarded(r: Request, a: Answers, controller: int, first: seq<int>, second: seq<int>,
                          answer: int -> SuspendAnswer, pc: int -> Option<nat>) returns (ok: bool)
      requires Valid()
      modifies this
      ensures Valid()
      ensures old(active) ==> !ok && active && Core(memory, records) == old(Core(memory, records)) && held == old(held) && resumes == old(resumes)
      ensures !old(active) && !ok ==> !active && held == [] && suspends == resumes && memory == old(memory)
      ensures ok ==> active && Planned(old(records), r, a).0.Some? && AllAvoid(held, pc, Planned(old(records), r, a).0.value)
    {
      if active {
        return false;
      }
      var safe;
      ok, safe := Prepare(r, a, controller, first, second, answer, pc);
    }

    /**
     * Finishes the mutation under way: every held thread is resumed once, even for a mismatched request.
     * It reports failure for a mismatch and for a thread the kernel would not resume.
     */
    method Finish(r: Option<Request>, answer: int -> bool) returns (finished: bool)
      requires Valid()
      modifies this
      ensures Valid() && !active && memory == old(memory) && records == old(records)
      ensures held == [] && suspends == resumes && resumes == old(resumes) + multiset(old(held))
      ensures old(active) ==>
        (finished <==>
          && (r.None? || (r.value.hookId == old(hookId) && r.value.operation == old(operation)))
          && forall i :: 0 <= i < |old(held)| ==> answer(old(held)[i]))
      ensures !old(active) ==> (finished <==> r.None? || r.value.operation in {Detach, Reattach})
    {
      if active {
        finished := r.None? || (r.value.hookId == hookId && r.value.operation == operation);
        var resumed := ResumeThreads(answer);
        finished := finished && resumed;
        alias, gate, active := false, false, false;
      } else {
        finished := r.None? || r.value.operation in {Detach, Reattach};
      }
    }
  }
}
