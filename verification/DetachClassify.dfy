/**
 * Classifying stopped threads for one hook mutation: each program counter is placed against Gum's
 * metadata, threads that would resume inside the entry bytes are refused or stepped out, and the
 * entry write is appended.
 */
module DetachClassify {
  import opened Common
  import opened DetachProtocol

  datatype Range = Range(start: Address, size: nat)

  /** Gum's description of a hook, as reported. */
  datatype Diagnostics = Diagnostics(
    functionAddress: Address,
    prologueLen: nat,
    enterThunk: Range,
    leaveThunk: Range,
    overlayDispatch: Range,
    listenerDispatch: Range,
    slice: Range,
    onEnter: Address,
    onLeave: Address,
    onInvoke: Address)

  datatype Snapshot = Snapshot(
    hasContext: bool,
    diagnostics: Diagnostics,
    hasPatch: bool,
    activePatch: seq<Byte>,
    originalPrologue: seq<Byte>,
    prologueLen: nat)

  datatype Operation = Attach | Detach | Reattach | Shutdown | Replace | Revert

  datatype Request = Request(operation: Operation, hookId: nat, functionAddress: Address, blockedStart: Address, blockedSize: nat)

  datatype PcState = PcSafe | AtPatchEntry | InEnterTrampoline | InInvokeTrampoline | InLeaveTrampoline | InDispatch | PcUnknown

  /** A detached hook's active entry bytes, kept for its reattach. */
  datatype Record = Record(used: bool, hookId: nat, address: Address, patch: seq<Byte>)

  const EMPTY := Record(false, 0, 0, [])

  // ---------------------------------------------------------------------------------------------
  // Program counters
  // ---------------------------------------------------------------------------------------------

  predicate InRange(pc: Address, start: Address, size: nat) {
    pc != 0 && start != 0 && size != 0 && End(start, size) >= start && start <= pc < End(start, size)
  }

  predicate Between(pc: Address, start: Address, finish: Address) {
    pc != 0 && start != 0 && finish != 0 && start < finish && start <= pc < finish
  }

  predicate In(pc: Address, r: Range) { InRange(pc, r.start, r.size) }

  function ClassifyPc(s: Snapshot, pc: Address): PcState {
    var d := s.diagnostics;
    if pc == 0 then PcUnknown
    else if !s.hasContext then PcSafe
    else if InRange(pc, d.functionAddress, d.prologueLen) then AtPatchEntry
    else if In(pc, d.enterThunk) || In(pc, d.leaveThunk) || In(pc, d.overlayDispatch) || In(pc, d.listenerDispatch) then InDispatch
    else if d.slice.start == 0 || d.slice.size == 0 then PcSafe
    else if !In(pc, d.slice) then PcSafe
    else if Between(pc, d.onEnter, d.onLeave) then InEnterTrampoline
    else if Between(pc, d.onLeave, d.onInvoke) then InLeaveTrampoline
    else if d.onInvoke == 0 then PcUnknown
    else
      var end := End(d.slice.start, d.slice.size);
      if end < d.slice.start || d.onInvoke >= end then PcUnknown
      else if InRange(pc, d.onInvoke, end - d.onInvoke) then InInvokeTrampoline
      else PcUnknown
  }

  /** The one trampoline position from which a thread can restart at the function. */
  function SafePc(s: Snapshot, pc: Address, state: PcState): Address {
    if state == InEnterTrampoline && pc == s.diagnostics.onEnter then s.diagnostics.functionAddress else 0
  }

  function Canonical(r: Request, s: Snapshot): Address {
    if s.hasContext && s.diagnostics.functionAddress != 0 then s.diagnostics.functionAddress
    else if r.blockedStart != 0 && r.blockedSize > 0 then r.blockedStart
    else r.functionAddress
  }

  predicate RequiresIdleEntry(op: Operation) { op in {Attach, Replace, Revert} }

  predicate EntryBytesOnly(op: Operation) { op in {Detach, Reattach} }

  predicate PatchesEntry(op: Operation) { op in {Detach, Reattach, Shutdown, Revert} }

  // ---------------------------------------------------------------------------------------------
  // Threads
  // ---------------------------------------------------------------------------------------------

  predicate Reported(threads: seq<ThreadSnapshot>, tid: int) { exists j :: 0 <= j < |threads| && threads[j].tid == tid }

  /** At the patched entry: leave the thread, step it out of the range, or refuse. */
  function AtEntry(r: Request, s: Snapshot, evacuates: bool, count: nat, t: ThreadSnapshot): Result<seq<Instruction>> {
    if t.pc == Canonical(r, s) && r.operation in {Detach, Shutdown, Reattach} then Ok([])
    else if r.operation in {Detach, Shutdown} then Err(ClassifyFailed)
    else if r.operation == Reattach then
      var n := s.diagnostics.prologueLen;
      if evacuates && 0 < n <= MAX_PATCH_BYTES && t.tid > 0 && Canonical(r, s) != 0 && count < MAX_INSTRUCTIONS
      then Ok([StepOut(t.tid, Canonical(r, s), n)])
      else Err(ClassifyFailed)
    else Ok([])
  }

  /** In Gum's own code: harmless when only entry bytes change, else the thread must have a safe restart. */
  function InGum(r: Request, s: Snapshot, count: nat, t: ThreadSnapshot, state: PcState): Result<seq<Instruction>> {
    if EntryBytesOnly(r.operation) then Ok([])
    else if SafePc(s, t.pc, state) == 0 || count >= MAX_INSTRUCTIONS then Err(ClassifyFailed)
    else Ok([SetPc(t.tid, SafePc(s, t.pc, state))])
  }

  /** What one thread adds to the plan, given the threads before it and the plan's length so far. */
  function Examine(r: Request, s: Snapshot, evacuates: bool, count: nat, earlier: seq<ThreadSnapshot>, t: ThreadSnapshot): Result<seq<Instruction>> {
    if Reported(earlier, t.tid) then Err(Error)
    else if !t.ok then Err(Error)
    else if InRange(t.pc, r.blockedStart, r.blockedSize) then Err(ClassifyFailed)
    else if RequiresIdleEntry(r.operation) && InRange(t.pc, Canonical(r, s), MAX_PROLOGUE) then Err(ClassifyFailed)
    else match ClassifyPc(s, t.pc)
      case PcSafe => Ok([])
      case AtPatchEntry => AtEntry(r, s, evacuates, count, t)
      case PcUnknown => Err(ClassifyFailed)
      case state => InGum(r, s, count, t, state)
  }

  /** The plan for the first `n` threads. */
  function Planned(r: Request, s: Snapshot, evacuates: bool, threads: seq<ThreadSnapshot>, n: nat): Result<seq<Instruction>>
    requires n <= |threads|
  {
    if n == 0 then Ok([])
    else match Planned(r, s, evacuates, threads, n - 1)
      case Err(status) => Err(status)
      case Ok(plan) =>
        match Examine(r, s, evacuates, |plan|, threads[..n - 1], threads[n - 1])
        case Err(status) => Err(status)
        case Ok(more) => Ok(plan + more)
  }

  // ---------------------------------------------------------------------------------------------
  // The entry write and its record
  // ---------------------------------------------------------------------------------------------

  predicate Owns(r: Record, hookId: nat) { r.used && r.hookId == hookId }

  /** The hook's record, or the length. */
  function RecordOf(records: seq<Record>, hookId: nat): (i: nat)
    ensures i <= |records| && (i < |records| ==> Owns(records[i], hookId))
    ensures forall j :: 0 <= j < i ==> !Owns(records[j], hookId)
  {
    FirstWhere(records, (r: Record) => Owns(r, hookId))
  }

  /** The first unused record, or the length. */
  function FreeRecord(records: seq<Record>): (i: nat)
    ensures i <= |records| && (i < |records| ==> !records[i].used)
    ensures forall j :: 0 <= j < i ==> records[j].used
  {
    FirstWhere(records, (r: Record) => !r.used)
  }

  function Prefix(bytes: seq<Byte>, n: nat): seq<Byte> { if n <= |bytes| then bytes[..n] else bytes }

  predicate CanWrite(count: nat, address: Address, bytes: seq<Byte>) {
    address != 0 && 0 < |bytes| <= MAX_PATCH_BYTES && count < MAX_INSTRUCTIONS
  }

  /** Where a detach keeps its record: the hook's own, else the first unused one. */
  function DetachSlot(records: seq<Record>, hookId: nat): nat {
    if RecordOf(records, hookId) < |records| then RecordOf(records, hookId) else FreeRecord(records)
  }

  /** The write that a request appends to its plan, and the records after it; no write for other operations. */
  function Patch(r: Request, s: Snapshot, count: nat, records: seq<Record>): Result<(seq<Instruction>, seq<Record>)> {
    var address := Canonical(r, s);
    if !PatchesEntry(r.operation) then Ok(([], records))
    else if r.operation == Reattach then
      var i := RecordOf(records, r.hookId);
      if i == |records| || records[i].patch == [] || records[i].address != address then Err(ClassifyFailed)
      else if !CanWrite(count, address, records[i].patch) then Err(Error)
      else Ok(([Write(address, records[i].patch)], records))
    else if !s.hasPatch || s.prologueLen == 0 || s.prologueLen > MAX_PATCH_BYTES then Err(ClassifyFailed)
    else
      var bytes, i := Prefix(s.originalPrologue, s.prologueLen), DetachSlot(records, r.hookId);
      if r.operation == Detach && i == |records| then Err(Error)
      else if !CanWrite(count, address, bytes) then Err(Error)
      else Ok(([Write(address, bytes)],
               if r.operation == Detach then records[i := Record(true, r.hookId, address, Prefix(s.activePatch, s.prologueLen))]
               else records))
  }

  /** The whole classification: the plan with its write, and the records it leaves. */
  function Classified(r: Request, s: Snapshot, evacuates: bool, threads: seq<ThreadSnapshot>, records: seq<Record>): Result<(seq<Instruction>, seq<Record>)> {
    match Planned(r, s, evacuates, threads, |threads|)
    case Err(status) => Err(status)
    case Ok(plan) =>
      match Patch(r, s, |plan|, records)
      case Err(status) => Err(status)
      case Ok((write, after)) => Ok((plan + write, after))
  }

  // ---------------------------------------------------------------------------------------------
  // A safe plan keeps threads out of the written bytes
  // ---------------------------------------------------------------------------------------------

  /** How many bytes from the entry on a classification looks at. */
  function Looked(op: Operation, n: nat): nat { if RequiresIdleEntry(op) then MAX_PROLOGUE else n }

  /** Gum reports the function, and the entry bytes that are looked at lie within the address space. */
  predicate EntryIsSane(op: Operation, s: Snapshot) {
    && s.hasContext && s.diagnostics.functionAddress != 0
    && s.diagnostics.functionAddress + Looked(op, s.diagnostics.prologueLen) < SPACE
  }

  /** A thread that would resume past the first entry byte is accepted only to be stepped out of it. */
  lemma ExaminedIsOutside(r: Request, s: Snapshot, evacuates: bool, count: nat, earlier: seq<ThreadSnapshot>, t: ThreadSnapshot)
    requires PatchesEntry(r.operation) && EntryIsSane(r.operation, s) && s.diagnostics.prologueLen <= MAX_PROLOGUE
    requires Examine(r, s, evacuates, count, earlier, t).Ok?
    ensures var entry, n := s.diagnostics.functionAddress, s.diagnostics.prologueLen;
      StrictlyInside(t.pc, entry, n) ==>
        r.operation == Reattach && Examine(r, s, evacuates, count, earlier, t).value == [StepOut(t.tid, entry, n)]
    ensures !Reported(earlier, t.tid)
  {
  }

  lemma {:induction false} PlannedOutside(r: Request, s: Snapshot, evacuates: bool, threads: seq<ThreadSnapshot>, n: nat, i: nat)
    requires PatchesEntry(r.operation) && EntryIsSane(r.operation, s) && s.diagnostics.prologueLen <= MAX_PROLOGUE
    requires i < n <= |threads| && Planned(r, s, evacuates, threads, n).Ok?
    ensures var entry, size := s.diagnostics.functionAddress, s.diagnostics.prologueLen;
      StrictlyInside(threads[i].pc, entry, size) ==>
        r.operation == Reattach && StepOut(threads[i].tid, entry, size) in Planned(r, s, evacuates, threads, n).value
  {
    var plan := Planned(r, s, evacuates, threads, n - 1).value;
    ExaminedIsOutside(r, s, evacuates, |plan|, threads[..n - 1], threads[n - 1]);
    if i < n - 1 {
      PlannedOutside(r, s, evacuates, threads, n - 1, i);
    }
  }

  /** Every instruction of a plan is about a reported thread, and the threads are all different. */
  lemma {:induction false} PlanIsAboutThreads(r: Request, s: Snapshot, evacuates: bool, threads: seq<ThreadSnapshot>, n: nat)
    requires n <= |threads| && Planned(r, s, evacuates, threads, n).Ok?
    ensures forall k :: 0 <= k < |Planned(r, s, evacuates, threads, n).value| ==>
      var ins := Planned(r, s, evacuates, threads, n).value[k];
      !ins.Write? && exists i :: 0 <= i < n && threads[i].tid == ins.tid
    ensures forall i, j :: 0 <= i < j < n ==> threads[i].tid != threads[j].tid
  {
    if n > 0 {
      PlanIsAboutThreads(r, s, evacuates, threads, n - 1);
      var plan := Planned(r, s, evacuates, threads, n - 1).value;
      var more := Examine(r, s, evacuates, |plan|, threads[..n - 1], threads[n - 1]).value;
      assert |more| <= 1 && forall k :: 0 <= k < |more| ==> !more[k].Write? && more[k].tid == threads[n - 1].tid;
      forall i | 0 <= i < n - 1 ensures threads[i].tid != threads[n - 1].tid {
        assert threads[..n - 1][i] == threads[i];
      }
      forall k | 0 <= k < |plan + more|
        ensures !(plan + more)[k].Write? && exists i :: 0 <= i < n && threads[i].tid == (plan + more)[k].tid
      {
        if k < |plan| {
          var i :| 0 <= i < n - 1 && threads[i].tid == plan[k].tid;
          assert threads[i].tid == (plan + more)[k].tid;
        } else {
          assert (plan + more)[k] == more[k - |plan|];
        }
      }
    }
  }

  /** The reported lengths agree with what the request will write. */
  predicate LengthsAgree(r: Request, s: Snapshot, records: seq<Record>) {
    var n := s.diagnostics.prologueLen;
    if r.operation == Reattach then RecordOf(records, r.hookId) < |records| ==> |records[RecordOf(records, r.hookId)].patch| == n
    else s.prologueLen == n && |s.originalPrologue| >= n
  }

  /**
   * A request that classifies as safe ends with one write of the entry bytes, and every thread it was
   * shown is outside those bytes, at their first byte, or has an instruction that steps it out of them.
   */
  lemma {:induction false} SafePlanGuardsTheWrite(r: Request, s: Snapshot, evacuates: bool, threads: seq<ThreadSnapshot>, records: seq<Record>)
    requires PatchesEntry(r.operation) && EntryIsSane(r.operation, s) && LengthsAgree(r, s, records)
    requires Classified(r, s, evacuates, threads, records).Ok?
    ensures var entry, n := s.diagnostics.functionAddress, s.diagnostics.prologueLen;
      var plan := Planned(r, s, evacuates, threads, |threads|);
      var all := Classified(r, s, evacuates, threads, records).value.0;
      && plan.Ok? && |all| == |plan.value| + 1 && all[..|plan.value|] == plan.value
      && all[|plan.value|].Write? && all[|plan.value|].address == entry && |all[|plan.value|].bytes| == n
      && (forall i :: 0 <= i < |threads| && StrictlyInside(threads[i].pc, entry, n) ==> StepOut(threads[i].tid, entry, n) in plan.value)
    ensures var all := Classified(r, s, evacuates, threads, records).value.0;
      && (r.operation != Reattach && s.prologueLen <= |s.originalPrologue| ==> all[|all| - 1].bytes == s.originalPrologue[..s.prologueLen])
      && (r.operation == Reattach ==> RecordOf(records, r.hookId) < |records| && all[|all| - 1].bytes == records[RecordOf(records, r.hookId)].patch)
  {
    var plan := Planned(r, s, evacuates, threads, |threads|).value;
    forall i | 0 <= i < |threads| && StrictlyInside(threads[i].pc, s.diagnostics.functionAddress, s.diagnostics.prologueLen)
      ensures StepOut(threads[i].tid, s.diagnostics.functionAddress, s.diagnostics.prologueLen) in plan
    {
      PlannedOutside(r, s, evacuates, threads, |threads|, i);
    }
  }

  /** Without a sane entry the guard fails: bytes that wrap around the address space are not recognised. */
  lemma WrappingEntryIsNotGuarded()
    ensures exists r: Request, s: Snapshot, threads: seq<ThreadSnapshot>, records: seq<Record> ::
      && r.operation == Detach && LengthsAgree(r, s, records) && |threads| == 1
      && Classified(r, s, true, threads, records).Ok?
      && StrictlyInside(threads[0].pc, s.diagnostics.functionAddress, s.diagnostics.prologueLen)
      && Planned(r, s, true, threads, 1) == Ok([])
  {
    var none := Range(0, 0);
    var d := Diagnostics(SPACE - 2, 4, none, none, none, none, none, 0, 0, 0);
    var s := Snapshot(true, d, true, [0, 0, 0, 0], [0, 0, 0, 0], 4);
    var r := Request(Detach, 0, SPACE - 2, 0, 0);
    var threads := [ThreadSnapshot(1, true, SPACE - 1)];
    assert Planned(r, s, true, threads, 0) == Ok([]);
    assert threads[..0] == [] && !Reported([], 1);
    assert ClassifyPc(s, SPACE - 1) == PcSafe;
    assert Planned(r, s, true, threads, 1) == Ok([] + []);
    assert RecordOf([EMPTY], 0) == 1 && FreeRecord([EMPTY]) == 0;
    assert Patch(r, s, 0, [EMPTY]).Ok?;
    assert Classified(r, s, true, threads, [EMPTY]).Ok?;
  }

  predicate Reports(s: Snapshot, entry: Address, n: nat) {
    s.hasContext && s.diagnostics.functionAddress == entry && s.diagnostics.prologueLen == n
  }

  /** Every thread past the first entry byte has an instruction that steps it out. */
  predicate Guards(s: Snapshot, threads: seq<ThreadSnapshot>, plan: seq<Instruction>) {
    var entry, n := s.diagnostics.functionAddress, s.diagnostics.prologueLen;
    forall i :: 0 <= i < |threads| && StrictlyInside(threads[i].pc, entry, n) ==> StepOut(threads[i].tid, entry, n) in plan
  }

  /** Whatever else is reported and asked, a safe classification for this entry guards its write. */
  ghost predicate AlwaysGuards(op: Operation, entry: Address, n: nat) {
    forall r: Request, s, evacuates, threads, records ::
      r.operation == op && Reports(s, entry, n) && LengthsAgree(r, s, records) && Classified(r, s, evacuates, threads, records).Ok? ==>
        Guards(s, threads, Classified(r, s, evacuates, threads, records).value.0)
  }

  lemma SaneAlwaysGuards(op: Operation, entry: Address, n: nat)
    requires PatchesEntry(op) && entry != 0 && entry + Looked(op, n) < SPACE
    ensures AlwaysGuards(op, entry, n)
  {
    forall r: Request, s, evacuates, threads, records |
      r.operation == op && Reports(s, entry, n) && LengthsAgree(r, s, records) && Classified(r, s, evacuates, threads, records).Ok?
      ensures Guards(s, threads, Classified(r, s, evacuates, threads, records).value.0)
    {
      SafePlanGuardsTheWrite(r, s, evacuates, threads, records);
    }
  }

  /** A request, metadata and records that write `n` bytes at the entry and name no other range. */
  function PlainRequest(op: Operation, entry: Address): Request { Request(op, 0, entry, 0, 0) }

  function Zeros(n: nat): (bytes: seq<Byte>)
    ensures |bytes| == n
  {
    seq(n, _ => 0)
  }

  function PlainSnapshot(entry: Address, n: nat): Snapshot {
    var none := Range(0, 0);
    Snapshot(true, Diagnostics(entry, n, none, none, none, none, none, 0, 0, 0), true, Zeros(n), Zeros(n), n)
  }

  function PlainRecords(op: Operation, entry: Address, n: nat): seq<Record> {
    if op == Reattach then [Record(true, 0, entry, Zeros(n))] else [EMPTY]
  }

  lemma PlainPatch(op: Operation, entry: Address, n: nat)
    requires PatchesEntry(op) && entry != 0 && 2 <= n <= MAX_PATCH_BYTES
    ensures Patch(PlainRequest(op, entry), PlainSnapshot(entry, n), 0, PlainRecords(op, entry, n)).Ok?
    ensures LengthsAgree(PlainRequest(op, entry), PlainSnapshot(entry, n), PlainRecords(op, entry, n))
  {
  }

  lemma PlainExamine(op: Operation, entry: Address, n: nat, t: ThreadSnapshot)
    requires PatchesEntry(op) && entry != 0 && 2 <= n <= MAX_PATCH_BYTES && entry + Looked(op, n) >= SPACE
    requires t.ok && t.pc == entry + 1
    ensures Examine(PlainRequest(op, entry), PlainSnapshot(entry, n), true, 0, [], t) == Ok([])
  {
    assert !InRange(t.pc, entry, Looked(op, n));
  }

  /** Once the bytes looked at wrap, a thread at the second entry byte is accepted and left there. */
  lemma WrappingNeverGuards(op: Operation, entry: Address, n: nat)
    requires PatchesEntry(op) && entry != 0 && entry + 1 < SPACE && 2 <= n <= MAX_PATCH_BYTES && entry + Looked(op, n) >= SPACE
    ensures !AlwaysGuards(op, entry, n)
  {
    var r, s, records := PlainRequest(op, entry), PlainSnapshot(entry, n), PlainRecords(op, entry, n);
    var threads := [ThreadSnapshot(1, true, entry + 1)];
    PlainPatch(op, entry, n);
    PlainExamine(op, entry, n, threads[0]);
    assert threads[..0] == [] && Planned(r, s, true, threads, 0) == Ok([]);
    assert Planned(r, s, true, threads, 1) == Ok([] + []);
    assert Classified(r, s, true, threads, records) == Ok(([] + Patch(r, s, 0, records).value.0, Patch(r, s, 0, records).value.1));
    assert StrictlyInside(threads[0].pc, entry, n) && StepOut(1, entry, n) !in Patch(r, s, 0, records).value.0;
    assert !Guards(s, threads, Classified(r, s, true, threads, records).value.0);
  }

  /** A request that would write too many bytes never classifies as safe. */
  lemma TooLongIsRefused(r: Request, s: Snapshot, evacuates: bool, threads: seq<ThreadSnapshot>, records: seq<Record>)
    requires PatchesEntry(r.operation) && LengthsAgree(r, s, records) && s.diagnostics.prologueLen > MAX_PATCH_BYTES
    ensures Classified(r, s, evacuates, threads, records).Err?
  {
  }

  /**
   * Exactly when a safe classification guards the entry write, for every request, other metadata, thread
   * list and record table: when the bytes it looks at do not reach the end of the address space, apart
   * from entries without a second byte and lengths that are never written.
   */
  lemma GuardsExactly(op: Operation, entry: Address, n: nat)
    requires PatchesEntry(op) && entry != 0
    ensures AlwaysGuards(op, entry, n) <==>
      entry + Looked(op, n) < SPACE || entry + 1 == SPACE || n < 2 || n > MAX_PATCH_BYTES
  {
    if entry + Looked(op, n) < SPACE {
      SaneAlwaysGuards(op, entry, n);
    } else if n > MAX_PATCH_BYTES {
      forall r: Request, s, evacuates, threads, records | r.operation == op && Reports(s, entry, n) && LengthsAgree(r, s, records)
        ensures Classified(r, s, evacuates, threads, records).Err?
      {
        TooLongIsRefused(r, s, evacuates, threads, records);
      }
    } else if entry + 1 < SPACE && n >= 2 {
      WrappingNeverGuards(op, entry, n);
    }
  }

  // ---------------------------------------------------------------------------------------------
  // Gum's own code, and the way back
  // ---------------------------------------------------------------------------------------------

  /** The program counter is in code Gum generated for the hook, and not at the patched entry. */
  predicate InGumCode(s: Snapshot, pc: Address) {
    var d := s.diagnostics;
    && s.hasContext && !InRange(pc, d.functionAddress, d.prologueLen)
    && (In(pc, d.enterThunk) || In(pc, d.leaveThunk) || In(pc, d.overlayDispatch) || In(pc, d.listenerDispatch) || In(pc, d.slice))
  }

  lemma GumCodeIsSeen(s: Snapshot, pc: Address)
    requires InGumCode(s, pc)
    ensures ClassifyPc(s, pc) in {InDispatch, InEnterTrampoline, InLeaveTrampoline, InInvokeTrampoline, PcUnknown}
  {
  }

  /**
   * When an operation changes more than entry bytes, a safe plan leaves no thread in Gum's code: each
   * that is there stands at the start of the enter trampoline and is sent back to the function.
   */
  lemma {:induction false} NoThreadLeftInGum(r: Request, s: Snapshot, evacuates: bool, threads: seq<ThreadSnapshot>, n: nat, i: nat)
    requires !EntryBytesOnly(r.operation) && i < n <= |threads| && Planned(r, s, evacuates, threads, n).Ok?
    ensures InGumCode(s, threads[i].pc) ==>
      && threads[i].pc == s.diagnostics.onEnter
      && SetPc(threads[i].tid, s.diagnostics.functionAddress) in Planned(r, s, evacuates, threads, n).value
  {
    if i < n - 1 {
      NoThreadLeftInGum(r, s, evacuates, threads, n - 1, i);
    } else if InGumCode(s, threads[i].pc) {
      GumCodeIsSeen(s, threads[i].pc);
    }
  }

  // --- What is never refused ---

  /** The thread stands in no range that Gum or the request names. */
  predicate OutOfTheWay(r: Request, s: Snapshot, t: ThreadSnapshot) {
    && t.ok && t.pc != 0 && !InRange(t.pc, r.blockedStart, r.blockedSize) && !InGumCode(s, t.pc)
    && !InRange(t.pc, Canonical(r, s), MAX_PROLOGUE) && !InRange(t.pc, s.diagnostics.functionAddress, s.diagnostics.prologueLen)
  }

  lemma OutOfTheWayIsSafe(r: Request, s: Snapshot, evacuates: bool, count: nat, earlier: seq<ThreadSnapshot>, t: ThreadSnapshot)
    requires OutOfTheWay(r, s, t) && !Reported(earlier, t.tid)
    ensures Examine(r, s, evacuates, count, earlier, t) == Ok([])
  {
    if s.hasContext && s.diagnostics.slice.start != 0 && s.diagnostics.slice.size != 0 {
      assert !In(t.pc, s.diagnostics.slice);
    }
  }

  /** A thread at the first entry byte is left there by the operations that only swap the entry bytes. */
  lemma FirstByteIsSafe(r: Request, s: Snapshot, evacuates: bool, count: nat, earlier: seq<ThreadSnapshot>, t: ThreadSnapshot)
    requires r.operation in {Detach, Shutdown, Reattach} && s.hasContext && !Reported(earlier, t.tid)
    requires t.ok && t.pc == s.diagnostics.functionAddress != 0 && s.diagnostics.prologueLen > 0
    requires !InRange(t.pc, r.blockedStart, r.blockedSize) && t.pc + s.diagnostics.prologueLen < SPACE
    ensures Examine(r, s, evacuates, count, earlier, t) == Ok([])
  {
  }

  /** A reattach that can step threads takes one past the first entry byte along, to be stepped out. */
  lemma InteriorThreadIsSteppedOut(r: Request, s: Snapshot, evacuates: bool, count: nat, earlier: seq<ThreadSnapshot>, t: ThreadSnapshot)
    requires r.operation == Reattach && evacuates && EntryIsSane(r.operation, s) && s.diagnostics.prologueLen <= MAX_PATCH_BYTES
    requires t.ok && t.tid > 0 && !Reported(earlier, t.tid) && count < MAX_INSTRUCTIONS
    requires StrictlyInside(t.pc, s.diagnostics.functionAddress, s.diagnostics.prologueLen) && !InRange(t.pc, r.blockedStart, r.blockedSize)
    ensures Examine(r, s, evacuates, count, earlier, t) == Ok([StepOut(t.tid, s.diagnostics.functionAddress, s.diagnostics.prologueLen)])
  {
  }

  /** A thread at the start of the enter trampoline is sent back when the trampoline will go. */
  lemma TrampolineThreadIsSentBack(r: Request, s: Snapshot, evacuates: bool, count: nat, earlier: seq<ThreadSnapshot>, t: ThreadSnapshot)
    requires r.operation == Shutdown && s.hasContext && s.diagnostics.functionAddress != 0
    requires var d := s.diagnostics;
      && t.pc == d.onEnter && Between(t.pc, d.onEnter, d.onLeave) && In(t.pc, d.slice)
      && !InRange(t.pc, d.functionAddress, d.prologueLen)
      && !In(t.pc, d.enterThunk) && !In(t.pc, d.leaveThunk) && !In(t.pc, d.overlayDispatch) && !In(t.pc, d.listenerDispatch)
    requires t.ok && !Reported(earlier, t.tid) && count < MAX_INSTRUCTIONS && !InRange(t.pc, r.blockedStart, r.blockedSize)
    ensures Examine(r, s, evacuates, count, earlier, t) == Ok([SetPc(t.tid, s.diagnostics.functionAddress)])
  {
  }

  lemma {:induction false} IdleThreadsNeedNothing(r: Request, s: Snapshot, evacuates: bool, threads: seq<ThreadSnapshot>, n: nat)
    requires n <= |threads| && forall i :: 0 <= i < |threads| ==> OutOfTheWay(r, s, threads[i])
    requires forall i, j :: 0 <= i < j < |threads| ==> threads[i].tid != threads[j].tid
    ensures Planned(r, s, evacuates, threads, n) == Ok([])
  {
    if n > 0 {
      IdleThreadsNeedNothing(r, s, evacuates, threads, n - 1);
      assert !Reported(threads[..n - 1], threads[n - 1].tid);
      OutOfTheWayIsSafe(r, s, evacuates, 0, threads[..n - 1], threads[n - 1]);
      var none: seq<Instruction> := [];
      assert none + none == none;
    }
  }

  /** With every thread out of the way, a request is refused exactly when it has nothing it could write. */
  lemma IdleProcessIsSafe(r: Request, s: Snapshot, evacuates: bool, threads: seq<ThreadSnapshot>, records: seq<Record>)
    requires forall i :: 0 <= i < |threads| ==> OutOfTheWay(r, s, threads[i])
    requires forall i, j :: 0 <= i < j < |threads| ==> threads[i].tid != threads[j].tid
    requires Canonical(r, s) != 0 && s.prologueLen <= |s.originalPrologue|
    ensures r.operation in {Attach, Replace} ==> Classified(r, s, evacuates, threads, records) == Ok(([], records))
    ensures r.operation in {Shutdown, Revert} ==>
      (Classified(r, s, evacuates, threads, records).Ok? <==> s.hasPatch && 0 < s.prologueLen <= MAX_PATCH_BYTES)
    ensures r.operation == Detach ==>
      (Classified(r, s, evacuates, threads, records).Ok? <==>
        && s.hasPatch && 0 < s.prologueLen <= MAX_PATCH_BYTES
        && exists i :: 0 <= i < |records| && (Owns(records[i], r.hookId) || !records[i].used))
    ensures r.operation == Reattach ==>
      (Classified(r, s, evacuates, threads, records).Ok? <==>
        var i := RecordOf(records, r.hookId);
        i < |records| && 0 < |records[i].patch| <= MAX_PATCH_BYTES && records[i].address == Canonical(r, s))
  {
    IdleThreadsNeedNothing(r, s, evacuates, threads, |threads|);
    var none: seq<Instruction> := [];
    assert none + none == none;
  }

  /** A reattach of the same hook at the same address writes back the active bytes its detach recorded. */
  lemma ReattachUsesDetachRecord(r: Request, s: Snapshot, count: nat, records: seq<Record>, r': Request, s': Snapshot, count': nat)
    requires r.operation == Detach && Patch(r, s, count, records).Ok?
    requires r'.operation == Reattach && r'.hookId == r.hookId && Canonical(r', s') == Canonical(r, s)
    requires count' < MAX_INSTRUCTIONS && s.prologueLen <= |s.activePatch|
    ensures var after := Patch(r, s, count, records).value.1;
      Patch(r', s', count', after) == Ok(([Write(Canonical(r, s), s.activePatch[..s.prologueLen])], after))
  {
    var i := DetachSlot(records, r.hookId);
    var after := Patch(r, s, count, records).value.1;
    assert Owns(after[i], r.hookId);
    assert forall j :: 0 <= j < i ==> !Owns(after[j], r.hookId);
    assert RecordOf(after, r.hookId) == i;
  }

  // ---------------------------------------------------------------------------------------------
  // Where a thread stands, and what becomes of it, in plain arithmetic
  // ---------------------------------------------------------------------------------------------

  /** The address is one of the `size` ones from `start` on, and they do not reach the end of the address space. */
  predicate Within(pc: Address, start: Address, size: nat) { 0 < start <= pc < start + size < SPACE }

  /** Reported sizes are machine words. */
  predicate SizesFit(r: Request, s: Snapshot) {
    var d := s.diagnostics;
    && r.blockedSize < SPACE && d.prologueLen < SPACE && d.enterThunk.size < SPACE && d.leaveThunk.size < SPACE
    && d.overlayDispatch.size < SPACE && d.listenerDispatch.size < SPACE && d.slice.size < SPACE
  }

  lemma InRangeIsWithin(pc: Address, start: Address, size: nat)
    requires size < SPACE
    ensures InRange(pc, start, size) <==> Within(pc, start, size)
  {
  }

  predicate OnEntry(s: Snapshot, pc: Address) { s.hasContext && Within(pc, s.diagnostics.functionAddress, s.diagnostics.prologueLen) }

  predicate OnShared(s: Snapshot, pc: Address) {
    var d := s.diagnostics;
    && s.hasContext && !OnEntry(s, pc)
    && (|| Within(pc, d.enterThunk.start, d.enterThunk.size) || Within(pc, d.leaveThunk.start, d.leaveThunk.size)
        || Within(pc, d.overlayDispatch.start, d.overlayDispatch.size) || Within(pc, d.listenerDispatch.start, d.listenerDispatch.size))
  }

  predicate OnSlice(s: Snapshot, pc: Address) {
    s.hasContext && !OnEntry(s, pc) && !OnShared(s, pc) && Within(pc, s.diagnostics.slice.start, s.diagnostics.slice.size)
  }

  /** Which part of the hook's code a program counter is in, by the reported addresses alone. */
  lemma PlacedExactly(r: Request, s: Snapshot, pc: Address)
    requires SizesFit(r, s)
    ensures var d, state := s.diagnostics, ClassifyPc(s, pc);
      var enter, leave := 0 < d.onEnter <= pc < d.onLeave, 0 < d.onLeave <= pc < d.onInvoke;
      && (state == AtPatchEntry <==> OnEntry(s, pc))
      && (state == InDispatch <==> OnShared(s, pc))
      && (state == InEnterTrampoline <==> OnSlice(s, pc) && enter)
      && (state == InLeaveTrampoline <==> OnSlice(s, pc) && !enter && leave)
      && (state == InInvokeTrampoline <==> OnSlice(s, pc) && !enter && !leave && 0 < d.onInvoke <= pc)
      && (state == PcSafe <==> pc != 0 && !OnEntry(s, pc) && !OnShared(s, pc) && !OnSlice(s, pc))
  {
    var d := s.diagnostics;
    InRangeIsWithin(pc, d.functionAddress, d.prologueLen);
    InRangeIsWithin(pc, d.enterThunk.start, d.enterThunk.size);
    InRangeIsWithin(pc, d.leaveThunk.start, d.leaveThunk.size);
    InRangeIsWithin(pc, d.overlayDispatch.start, d.overlayDispatch.size);
    InRangeIsWithin(pc, d.listenerDispatch.start, d.listenerDispatch.size);
    InRangeIsWithin(pc, d.slice.start, d.slice.size);
  }

  /** The thread was stopped, was not reported before, and is neither in a blocked range nor on an entry that must be idle. */
  predicate Admissible(r: Request, s: Snapshot, earlier: seq<ThreadSnapshot>, t: ThreadSnapshot) {
    && !Reported(earlier, t.tid) && t.ok && !Within(t.pc, r.blockedStart, r.blockedSize)
    && !(r.operation in {Attach, Replace, Revert} && Within(t.pc, Canonical(r, s), MAX_PROLOGUE))
  }

  predicate OnGum(state: PcState) { state in {InEnterTrampoline, InInvokeTrampoline, InLeaveTrampoline, InDispatch} }

  /** Where a thread does no harm: elsewhere, where no entry byte may matter to it, or in Gum's code while that stays. */
  predicate LeftAlone(op: Operation, state: PcState, atFirstByte: bool) {
    || state == PcSafe
    || (state == AtPatchEntry && (atFirstByte || op in {Attach, Replace, Revert}))
    || (OnGum(state) && op in {Detach, Reattach})
  }

  /** What becomes of a thread: exactly when it is left alone, stepped out, sent back, or refused. */
  lemma ExaminedExactly(r: Request, s: Snapshot, evacuates: bool, count: nat, earlier: seq<ThreadSnapshot>, t: ThreadSnapshot)
    requires SizesFit(r, s)
    ensures var result, state := Examine(r, s, evacuates, count, earlier, t), ClassifyPc(s, t.pc);
      var entry, n, fits := Canonical(r, s), s.diagnostics.prologueLen, Admissible(r, s, earlier, t);
      && (result == Err(Error) <==> Reported(earlier, t.tid) || !t.ok)
      && (result == Ok([]) <==> fits && LeftAlone(r.operation, state, t.pc == entry))
      && (result == Ok([StepOut(t.tid, entry, n)]) <==>
            && fits && state == AtPatchEntry && r.operation == Reattach && t.pc != entry
            && evacuates && 0 < n <= 32 && t.tid > 0 && entry != 0 && count < 4160)
      && (result == Ok([SetPc(t.tid, s.diagnostics.functionAddress)]) <==>
            && fits && state == InEnterTrampoline && t.pc == s.diagnostics.onEnter && s.diagnostics.functionAddress != 0
            && r.operation !in {Detach, Reattach} && count < 4160)
      && (result.Ok? ==> result.value in {[], [StepOut(t.tid, entry, n)], [SetPc(t.tid, s.diagnostics.functionAddress)]})
  {
    InRangeIsWithin(t.pc, r.blockedStart, r.blockedSize);
    InRangeIsWithin(t.pc, Canonical(r, s), MAX_PROLOGUE);
  }

  /** The function's address: as Gum reports it, else the start of the blocked range, else as requested. */
  lemma CanonicalExactly(r: Request, s: Snapshot)
    ensures s.hasContext && s.diagnostics.functionAddress != 0 ==> Canonical(r, s) == s.diagnostics.functionAddress
    ensures !s.hasContext || s.diagnostics.functionAddress == 0 ==>
      Canonical(r, s) == if r.blockedStart != 0 && r.blockedSize != 0 then r.blockedStart else r.functionAddress
  {
  }
}
