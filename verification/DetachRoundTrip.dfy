/** What the plans of a hook do to the code of the process: a detach and its reattach undo each other. */
module DetachRoundTrip {
  import opened DetachProtocol
  import opened DetachBatch
  import opened DetachClassify

  /** The bytes of the process, around the end of the address space. */
  type Memory = Address -> Byte

  function At(address: Address, k: nat): Address { (address + k) % SPACE }

  predicate HoldsBytes(memory: Memory, address: Address, bytes: seq<Byte>) {
    forall k :: 0 <= k < |bytes| ==> memory(At(address, k)) == bytes[k]
  }

  /** Memory after the writes of an instruction list. */
  function Written(memory: Memory, list: seq<Instruction>): Memory { (x: Address) => ByteAfter(list, x, memory(x)) }

  /** The bytes are there afterwards, and no other byte has changed. */
  ghost predicate Puts(before: Memory, after: Memory, address: Address, bytes: seq<Byte>) {
    HoldsBytes(after, address, bytes) && SameOutside(before, after, address, |bytes|)
  }

  ghost predicate SameOutside(before: Memory, after: Memory, address: Address, size: nat) {
    forall x: Address :: (x - address) % SPACE >= size ==> after(x) == before(x)
  }

  lemma OffsetOfAt(address: Address, k: nat)
    requires k < SPACE
    ensures (At(address, k) - address) % SPACE == k
  {
    if address + k >= SPACE { assert At(address, k) == address + k - SPACE; }
  }

  predicate NoWrites(plan: seq<Instruction>) { forall k :: 0 <= k < |plan| ==> !plan[k].Write? }

  lemma {:induction false} ByteAfterOnlyWrite(plan: seq<Instruction>, address: Address, bytes: seq<Byte>, x: Address, original: Byte)
    requires NoWrites(plan)
    ensures var k := (x - address) % SPACE;
      ByteAfter(plan + [Write(address, bytes)], x, original) == if k < |bytes| then bytes[k] else original
  {
    var list := plan + [Write(address, bytes)];
    assert list[..|list| - 1] == plan;
    UncoveredByteStays(plan, x, original);
  }

  lemma OnlyWriteHolds(plan: seq<Instruction>, address: Address, bytes: seq<Byte>, memory: Memory)
    requires |bytes| < SPACE && NoWrites(plan)
    ensures HoldsBytes(Written(memory, plan + [Write(address, bytes)]), address, bytes)
  {
    var after := Written(memory, plan + [Write(address, bytes)]);
    forall k | 0 <= k < |bytes| ensures after(At(address, k)) == bytes[k] {
      OffsetOfAt(address, k);
      ByteAfterOnlyWrite(plan, address, bytes, At(address, k), memory(At(address, k)));
    }
  }

  /** A plan whose last instruction is its only write puts that write's bytes and nothing else. */
  lemma OnlyWritePuts(plan: seq<Instruction>, address: Address, bytes: seq<Byte>, memory: Memory)
    requires |bytes| < SPACE && NoWrites(plan)
    ensures Puts(memory, Written(memory, plan + [Write(address, bytes)]), address, bytes)
  {
    var list := plan + [Write(address, bytes)];
    OnlyWriteHolds(plan, address, bytes, memory);
    forall x: Address | (x - address) % SPACE >= |bytes| ensures Written(memory, list)(x) == memory(x) {
      ByteAfterOnlyWrite(plan, address, bytes, x, memory(x));
    }
  }

  // ---------------------------------------------------------------------------------------------
  // What one safe request writes
  // ---------------------------------------------------------------------------------------------

  /**
   * A detach, shutdown or revert that classifies as safe puts the function's own bytes at its canonical
   * address and touches no other byte.
   */
  lemma DetachPutsOriginal(r: Request, s: Snapshot, evacuates: bool, threads: seq<ThreadSnapshot>, records: seq<Record>, memory: Memory)
    requires r.operation in {Detach, Shutdown, Revert} && s.prologueLen <= |s.originalPrologue|
    requires Classified(r, s, evacuates, threads, records).Ok?
    ensures Puts(memory, Written(memory, Classified(r, s, evacuates, threads, records).value.0),
                 Canonical(r, s), s.originalPrologue[..s.prologueLen])
  {
    var plan := Planned(r, s, evacuates, threads, |threads|).value;
    PlanIsAboutThreads(r, s, evacuates, threads, |threads|);
    OnlyWritePuts(plan, Canonical(r, s), s.originalPrologue[..s.prologueLen], memory);
  }

  /** A reattach that classifies as safe puts the recorded bytes at the recorded address. */
  lemma ReattachPutsRecord(r: Request, s: Snapshot, evacuates: bool, threads: seq<ThreadSnapshot>, records: seq<Record>, memory: Memory)
    requires r.operation == Reattach && Classified(r, s, evacuates, threads, records).Ok?
    ensures var i := RecordOf(records, r.hookId);
      && i < |records| && records[i].address == Canonical(r, s)
      && Puts(memory, Written(memory, Classified(r, s, evacuates, threads, records).value.0), records[i].address, records[i].patch)
  {
    var plan := Planned(r, s, evacuates, threads, |threads|).value;
    PlanIsAboutThreads(r, s, evacuates, threads, |threads|);
    OnlyWritePuts(plan, Canonical(r, s), records[RecordOf(records, r.hookId)].patch, memory);
  }

  /** Attaching and replacing write nothing themselves. */
  lemma OthersPutNothing(r: Request, s: Snapshot, evacuates: bool, threads: seq<ThreadSnapshot>, records: seq<Record>, memory: Memory, x: Address)
    requires r.operation in {Attach, Replace} && Classified(r, s, evacuates, threads, records).Ok?
    ensures Written(memory, Classified(r, s, evacuates, threads, records).value.0)(x) == memory(x)
    ensures Classified(r, s, evacuates, threads, records).value.1 == records
  {
    var plan := Planned(r, s, evacuates, threads, |threads|).value;
    PlanIsAboutThreads(r, s, evacuates, threads, |threads|);
    assert plan + [] == plan;
    UncoveredByteStays(plan, x, memory(x));
  }

  // ---------------------------------------------------------------------------------------------
  // The round trip
  // ---------------------------------------------------------------------------------------------

  /** One prepare: a refused one leaves the records as they were. */
  datatype Attempt = Attempt(request: Request, snapshot: Snapshot, evacuates: bool, threads: seq<ThreadSnapshot>)

  function Do(records: seq<Record>, t: Attempt): Result<(seq<Instruction>, seq<Record>)> {
    Classified(t.request, t.snapshot, t.evacuates, t.threads, records)
  }

  function RecordsAfter(records: seq<Record>, attempts: seq<Attempt>): seq<Record> {
    if attempts == [] then records
    else
      var before, t := RecordsAfter(records, attempts[..|attempts| - 1]), attempts[|attempts| - 1];
      if Do(before, t).Ok? then Do(before, t).value.1 else before
  }

  predicate Recorded(records: seq<Record>, hookId: nat, address: Address, patch: seq<Byte>) {
    RecordOf(records, hookId) < |records| && records[RecordOf(records, hookId)] == Record(true, hookId, address, patch)
  }

  /** The entry address and active bytes of a hook, as Gum reported them to a detach. */
  datatype Report = Report(address: Address, active: seq<Byte>)

  function ReportOf(t: Attempt): Report {
    Report(Canonical(t.request, t.snapshot), Prefix(t.snapshot.activePatch, t.snapshot.prologueLen))
  }

  predicate Detaches(records: seq<Record>, t: Attempt, hookId: nat) {
    t.request.operation == Detach && t.request.hookId == hookId && Do(records, t).Ok?
  }

  /** What the last safe detach of the hook among the attempts was told, else the first report. */
  function LastReport(records: seq<Record>, attempts: seq<Attempt>, hookId: nat, first: Report): Report {
    if attempts == [] then first
    else
      var most, t := attempts[..|attempts| - 1], attempts[|attempts| - 1];
      if Detaches(RecordsAfter(records, most), t, hookId) then ReportOf(t) else LastReport(records, most, hookId, first)
  }

  lemma DetachRecords(records: seq<Record>, t: Attempt)
    requires t.request.operation == Detach && Do(records, t).Ok?
    ensures Recorded(Do(records, t).value.1, t.request.hookId, ReportOf(t).address, ReportOf(t).active)
  {
    var i, after := DetachSlot(records, t.request.hookId), Do(records, t).value.1;
    assert Owns(after[i], t.request.hookId);
    assert forall j :: 0 <= j < i ==> !Owns(after[j], t.request.hookId);
    assert RecordOf(after, t.request.hookId) == i;
  }

  /** A detach of another hook never takes this hook's record, and nothing else writes records. */
  lemma RecordKept(records: seq<Record>, t: Attempt, hookId: nat, address: Address, patch: seq<Byte>)
    requires Recorded(records, hookId, address, patch) && Do(records, t).Ok? && !Detaches(records, t, hookId)
    ensures Recorded(Do(records, t).value.1, hookId, address, patch)
  {
    if t.request.operation == Detach {
      var i, j, after := RecordOf(records, hookId), DetachSlot(records, t.request.hookId), Do(records, t).value.1;
      assert Owns(records[i], hookId) && j != i;
      assert Owns(after[i], hookId);
      assert forall k :: 0 <= k < i ==> !Owns(after[k], hookId);
      assert RecordOf(after, hookId) == i;
    }
  }

  lemma {:induction false} LastReportIsRecorded(records: seq<Record>, attempts: seq<Attempt>, hookId: nat, first: Report)
    requires Recorded(records, hookId, first.address, first.active)
    ensures var last := LastReport(records, attempts, hookId, first);
      Recorded(RecordsAfter(records, attempts), hookId, last.address, last.active)
  {
    if attempts != [] {
      var most, t := attempts[..|attempts| - 1], attempts[|attempts| - 1];
      LastReportIsRecorded(records, most, hookId, first);
      var before, last := RecordsAfter(records, most), LastReport(records, most, hookId, first);
      if Detaches(before, t, hookId) {
        DetachRecords(before, t);
      } else if Do(before, t).Ok? {
        RecordKept(before, t, hookId, last.address, last.active);
      }
    }
  }

  /** Different bytes cannot both be there. */
  lemma HeldBytesAreUnique(memory: Memory, address: Address, bytes: seq<Byte>, other: seq<Byte>)
    requires HoldsBytes(memory, address, bytes) && |other| == |bytes|
    ensures HoldsBytes(memory, address, other) <==> other == bytes
  {
    if HoldsBytes(memory, address, other) {
      forall k | 0 <= k < |bytes| ensures other[k] == bytes[k] { assert memory(At(address, k)) == other[k]; }
    }
  }

  /** Code before and after the writes of an attempt that classified as safe. */
  function Code(memory: Memory, records: seq<Record>, t: Attempt): Memory
    requires Do(records, t).Ok?
  {
    Written(memory, Do(records, t).value.0)
  }

  /** Gum's arrays are long enough for the length it reports. */
  predicate ReportsBytes(s: Snapshot) { s.prologueLen <= |s.activePatch| && s.prologueLen <= |s.originalPrologue| }

  /** A safe detach of the hook, attempts in between, and a safe reattach of it. */
  predicate RoundTrip(records: seq<Record>, detach: Attempt, attempts: seq<Attempt>, reattach: Attempt) {
    && detach.request.operation == Detach && ReportsBytes(detach.snapshot) && Do(records, detach).Ok?
    && reattach.request.operation == Reattach && reattach.request.hookId == detach.request.hookId
    && Do(RecordsAfter(Do(records, detach).value.1, attempts), reattach).Ok?
  }

  function Told(records: seq<Record>, detach: Attempt, attempts: seq<Attempt>): Report
    requires Do(records, detach).Ok?
  {
    LastReport(Do(records, detach).value.1, attempts, detach.request.hookId, ReportOf(detach))
  }

  lemma {:induction false} ReattachPutsTold(records: seq<Record>, detach: Attempt, attempts: seq<Attempt>, reattach: Attempt, between: Memory)
    requires RoundTrip(records, detach, attempts, reattach)
    ensures var told, after := Told(records, detach, attempts), Code(between, RecordsAfter(Do(records, detach).value.1, attempts), reattach);
      Puts(between, after, told.address, told.active)
  {
    DetachRecords(records, detach);
    var after := Do(records, detach).value.1;
    LastReportIsRecorded(after, attempts, detach.request.hookId, ReportOf(detach));
    ReattachPutsRecord(reattach.request, reattach.snapshot, reattach.evacuates, reattach.threads, RecordsAfter(after, attempts), between);
  }

  /**
   * A safe detach leaves the function's own bytes at the entry.
   * After any attempts for any hooks, refused or not, a safe reattach of the hook puts its active bytes
   * back exactly when the last safe detach of it, if another one came in between, was told the same
   * bytes. Neither touches any other byte.
   */
  lemma {:induction false} EntryRestoredExactly(records: seq<Record>, detach: Attempt, attempts: seq<Attempt>, reattach: Attempt, memory: Memory, between: Memory)
    requires RoundTrip(records, detach, attempts, reattach)
    requires var told, first := Told(records, detach, attempts), ReportOf(detach);
      told.address == first.address && |told.active| == |first.active|
    ensures var s, first := detach.snapshot, ReportOf(detach);
      Puts(memory, Code(memory, records, detach), first.address, s.originalPrologue[..s.prologueLen])
    ensures var first, after := ReportOf(detach), Code(between, RecordsAfter(Do(records, detach).value.1, attempts), reattach);
      && (HoldsBytes(after, first.address, first.active) <==> Told(records, detach, attempts).active == first.active)
      && SameOutside(between, after, first.address, |first.active|)
  {
    var first, told := ReportOf(detach), Told(records, detach, attempts);
    DetachPutsOriginal(detach.request, detach.snapshot, detach.evacuates, detach.threads, records, memory);
    ReattachPutsTold(records, detach, attempts, reattach, between);
    var after := Code(between, RecordsAfter(Do(records, detach).value.1, attempts), reattach);
    HeldBytesAreUnique(after, first.address, told.active, first.active);
  }

  lemma AddressIsAt(address: Address, x: Address)
    ensures At(address, (x - address) % SPACE) == x
  {
    if x < address { assert (x - address) % SPACE == x - address + SPACE; }
  }

  /** None of the attempts is a detach of this hook. */
  predicate NoDetachOf(attempts: seq<Attempt>, hookId: nat) {
    forall k :: 0 <= k < |attempts| ==> attempts[k].request.operation != Detach || attempts[k].request.hookId != hookId
  }

  lemma {:induction false} OthersReportNothing(records: seq<Record>, attempts: seq<Attempt>, hookId: nat, first: Report)
    requires NoDetachOf(attempts, hookId)
    ensures LastReport(records, attempts, hookId, first) == first
  {
    if attempts != [] { OthersReportNothing(records, attempts[..|attempts| - 1], hookId, first); }
  }

  /** Putting other bytes over held ones and then those back is no change. */
  lemma PutBack(memory: Memory, swapped: Memory, back: Memory, address: Address, active: seq<Byte>, x: Address)
    requires HoldsBytes(memory, address, active) && HoldsBytes(back, address, active)
    requires SameOutside(memory, swapped, address, |active|) && SameOutside(swapped, back, address, |active|)
    ensures back(x) == memory(x)
  {
    var k := (x - address) % SPACE;
    AddressIsAt(address, x);
    if k < |active| {
      assert memory(At(address, k)) == active[k] == back(At(address, k));
    }
  }

  /** Without another detach of the hook, and nothing else written in between, every byte is as it was. */
  lemma {:induction false} DetachReattachRestoresMemory(records: seq<Record>, detach: Attempt, attempts: seq<Attempt>, reattach: Attempt, memory: Memory, x: Address)
    requires RoundTrip(records, detach, attempts, reattach) && NoDetachOf(attempts, detach.request.hookId)
    requires HoldsBytes(memory, ReportOf(detach).address, ReportOf(detach).active)
    ensures Code(Code(memory, records, detach), RecordsAfter(Do(records, detach).value.1, attempts), reattach)(x) == memory(x)
  {
    var first, detached := ReportOf(detach), Code(memory, records, detach);
    OthersReportNothing(Do(records, detach).value.1, attempts, detach.request.hookId, first);
    EntryRestoredExactly(records, detach, attempts, reattach, memory, detached);
    PutBack(memory, detached, Code(detached, RecordsAfter(Do(records, detach).value.1, attempts), reattach), first.address, first.active, x);
  }
}
