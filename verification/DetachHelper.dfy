/**
 * The helper applies an instruction list to threads it holds under ptrace: first it steps threads out
 * of the ranges they must leave, then it writes, then it sets program counters. What the kernel
 * answers (single steps, writes, thread scans) comes in as parameters.
 */
module DetachHelper {
  import opened DetachProtocol

  datatype HelperStatus = HelperOk | ProtocolError | PtraceError | RegisterError | StepTimeout

  /** What one single step ends in. */
  datatype Stop = Trapped(pc: Address) | Refused(status: HelperStatus)

  /** A write as it happened: its target, and where every held thread stood at that moment. */
  datatype Event = Event(address: Address, bytes: seq<Byte>, pcs: map<int, Address>)

  predicate PcInRange(pc: Address, address: Address, size: nat) {
    address != 0 && size != 0 && End(address, size) > address && address <= pc < End(address, size)
  }

  /** What the helper checks of an instruction before it does anything. */
  function Validate(ins: Instruction, held: map<int, Address>): HelperStatus {
    match ins
    case SetPc(tid, _) => if tid !in held then PtraceError else HelperOk
    case StepOut(tid, address, size) =>
      if tid !in held then PtraceError
      else if address == 0 || size == 0 || size > MAX_PATCH_BYTES || End(address, size) <= address then ProtocolError
      else HelperOk
    case Write(address, bytes) =>
      if address == 0 || |bytes| == 0 || |bytes| > MAX_PATCH_BYTES then ProtocolError else HelperOk
  }

  predicate AllValid(instructions: seq<Instruction>, held: map<int, Address>) {
    forall k :: 0 <= k < |instructions| ==> Validate(instructions[k], held) == HelperOk
  }

  predicate AllRead(instructions: seq<Instruction>, regs: nat -> bool) {
    forall k :: 0 <= k < |instructions| && instructions[k].SetPc? ==> regs(k)
  }

  /** What the helper accepts: moves of threads it holds, and ranges of 1 to 32 bytes that do not start at zero or wrap. */
  lemma ValidExactly(ins: Instruction, held: map<int, Address>)
    ensures Validate(ins, held) == PtraceError <==> !ins.Write? && ins.tid !in held
    ensures Validate(ins, held) == HelperOk <==>
      match ins
      case SetPc(tid, _) => tid in held
      case StepOut(tid, address, size) => tid in held && 0 < address && 0 < size <= 32 && address + size < SPACE
      case Write(address, bytes) => 0 < address && 0 < |bytes| <= 32
  {
  }

  lemma PcInRangeExactly(pc: Address, address: Address, size: nat)
    requires size < SPACE
    ensures PcInRange(pc, address, size) <==> 0 < address <= pc < address + size < SPACE
  {
  }

  function MaxSteps(size: nat): nat { if size + 4 < 8 then 8 else size + 4 }

  predicate StepsOut(instructions: seq<Instruction>, tid: int) {
    exists k :: 0 <= k < |instructions| && instructions[k].StepOut? && instructions[k].tid == tid
  }

  /** Every thread with a step-out instruction among these has left its range. */
  predicate AllOut(instructions: seq<Instruction>, pcs: map<int, Address>) {
    forall k :: 0 <= k < |instructions| && instructions[k].StepOut? ==>
      instructions[k].tid in pcs && !PcInRange(pcs[instructions[k].tid], instructions[k].address, instructions[k].size)
  }

  /** A thread without a step-out instruction has not moved. */
  predicate OthersStill(instructions: seq<Instruction>, before: map<int, Address>, pcs: map<int, Address>) {
    && pcs.Keys == before.Keys
    && forall tid :: tid in before && !StepsOut(instructions, tid) ==> pcs[tid] == before[tid]
  }

  /** At most one step-out per thread. */
  predicate OneStepEach(instructions: seq<Instruction>) {
    forall j, k :: 0 <= j < k < |instructions| && instructions[j].StepOut? && instructions[k].StepOut? ==> instructions[j].tid != instructions[k].tid
  }

  /** The writes of a list, in order. */
  function Writes(instructions: seq<Instruction>): seq<(Address, seq<Byte>)> {
    if instructions == [] then []
    else
      var rest := Writes(instructions[..|instructions| - 1]);
      var last := instructions[|instructions| - 1];
      if last.Write? then rest + [(last.address, last.bytes)] else rest
  }

  /** Where the thread stands after `n` single steps that all trapped. */
  function PcAt(pc: Address, steps: nat -> Stop, n: nat): Address {
    if n > 0 && steps(n - 1).Trapped? then steps(n - 1).pc else pc
  }

  predicate LeavesAfter(pc: Address, address: Address, size: nat, steps: nat -> Stop, n: nat) {
    (forall k :: 0 <= k < n ==> steps(k).Trapped?) && !PcInRange(PcAt(pc, steps, n), address, size)
  }

  /** Some allowed number of steps takes the thread out of the range. */
  predicate Leaves(pc: Address, address: Address, size: nat, steps: nat -> Stop, limit: nat) {
    exists n :: 0 <= n <= limit && LeavesAfter(pc, address, size, steps, n)
  }

  /** The first `n` steps trapped, and none of the positions before them was out of the range. */
  predicate NotBefore(pc: Address, address: Address, size: nat, steps: nat -> Stop, n: nat) {
    && (forall k :: 0 <= k < n ==> steps(k).Trapped?)
    && (forall k {:trigger LeavesAfter(pc, address, size, steps, k)} :: 0 <= k < n ==> !LeavesAfter(pc, address, size, steps, k))
  }

  lemma StaysOneMore(pc: Address, address: Address, size: nat, steps: nat -> Stop, n: nat)
    requires NotBefore(pc, address, size, steps, n) && steps(n).Trapped?
    requires PcInRange(PcAt(pc, steps, n), address, size)
    ensures NotBefore(pc, address, size, steps, n + 1)
  {
  }

  lemma LeavesNow(pc: Address, address: Address, size: nat, steps: nat -> Stop, n: nat, limit: nat)
    requires NotBefore(pc, address, size, steps, n) && n <= limit && !PcInRange(PcAt(pc, steps, n), address, size)
    ensures Leaves(pc, address, size, steps, limit)
  {
    assert LeavesAfter(pc, address, size, steps, n);
  }

  lemma NeverLeaves(pc: Address, address: Address, size: nat, steps: nat -> Stop, step: nat, limit: nat)
    requires NotBefore(pc, address, size, steps, step) && step <= limit
    requires PcInRange(PcAt(pc, steps, step), address, size)
    requires step == limit || !steps(step).Trapped?
    ensures !Leaves(pc, address, size, steps, limit)
  {
    forall n | 0 <= n <= limit ensures !LeavesAfter(pc, address, size, steps, n) {
    }
  }

  /** Steps one thread until its program counter is out of the range, a bounded number of times. */
  method StepThreadOut(pc: Address, address: Address, size: nat, steps: nat -> Stop) returns (status: HelperStatus, after: Address)
    ensures status == HelperOk <==> Leaves(pc, address, size, steps, MaxSteps(size))
    ensures status == HelperOk <==> exists n: nat :: (n <= 8 || n <= size + 4) && LeavesAfter(pc, address, size, steps, n)
    ensures status == HelperOk ==> !PcInRange(after, address, size)
    ensures !PcInRange(pc, address, size) ==> after == pc
  {
    var limit, step := MaxSteps(size), 0;
    after := pc;
    while step < limit
      invariant step <= limit && after == PcAt(pc, steps, step)
      invariant !PcInRange(pc, address, size) ==> step == 0
      invariant NotBefore(pc, address, size, steps, step)
    {
      if !PcInRange(after, address, size) {
        LeavesNow(pc, address, size, steps, step, limit);
        return HelperOk, after;
      }
      var stop := steps(step);
      if stop.Refused? {
        NeverLeaves(pc, address, size, steps, step, limit);
        return (if stop.status == HelperOk then PtraceError else stop.status), after;
      }
      StaysOneMore(pc, address, size, steps, step);
      after, step := stop.pc, step + 1;
    }
    if PcInRange(after, address, size) {
      NeverLeaves(pc, address, size, steps, step, limit);
      return StepTimeout, after;
    }
    LeavesNow(pc, address, size, steps, step, limit);
    status := HelperOk;
  }

  function StepsOf(steps: (int, nat) -> Stop, tid: int): nat -> Stop { (k: nat) => steps(tid, k) }

  /** Single steps take every thread with a step-out instruction out of its range. */
  predicate AllLeave(instructions: seq<Instruction>, pcs: map<int, Address>, steps: (int, nat) -> Stop) {
    forall k :: 0 <= k < |instructions| ==> CanLeave(instructions[k], pcs, steps)
  }

  predicate CanLeave(ins: Instruction, pcs: map<int, Address>, steps: (int, nat) -> Stop) {
    ins.StepOut? ==> ins.tid in pcs && Leaves(pcs[ins.tid], ins.address, ins.size, StepsOf(steps, ins.tid), MaxSteps(ins.size))
  }

  predicate StepsOutBefore(instructions: seq<Instruction>, n: nat, tid: int)
    requires n <= |instructions|
  {
    exists k :: 0 <= k < n && instructions[k].StepOut? && instructions[k].tid == tid
  }

  predicate IsOut(ins: Instruction, pcs: map<int, Address>) {
    ins.StepOut? ==> ins.tid in pcs && !PcInRange(pcs[ins.tid], ins.address, ins.size)
  }

  /** After the first `n` instructions: their threads are out, the others have not moved. */
  ghost predicate Stepped(instructions: seq<Instruction>, n: nat, before: map<int, Address>, pcs: map<int, Address>, steps: (int, nat) -> Stop)
    requires n <= |instructions|
  {
    && pcs.Keys == before.Keys
    && (forall tid :: tid in before && !StepsOutBefore(instructions, n, tid) ==> pcs[tid] == before[tid])
    && (OneStepEach(instructions) ==> forall k :: 0 <= k < n ==> CanLeave(instructions[k], before, steps) && IsOut(instructions[k], pcs))
  }

  lemma SteppedSkip(instructions: seq<Instruction>, n: nat, before: map<int, Address>, pcs: map<int, Address>, steps: (int, nat) -> Stop)
    requires n < |instructions| && !instructions[n].StepOut? && Stepped(instructions, n, before, pcs, steps)
    ensures Stepped(instructions, n + 1, before, pcs, steps)
  {
    forall tid | tid in before && !StepsOutBefore(instructions, n + 1, tid) ensures !StepsOutBefore(instructions, n, tid) {
    }
  }

  /** With one step-out per thread, a thread whose turn comes stands where it stood. */
  lemma NotYetMoved(instructions: seq<Instruction>, n: nat, before: map<int, Address>, pcs: map<int, Address>, steps: (int, nat) -> Stop)
    requires n < |instructions| && instructions[n].StepOut? && instructions[n].tid in before && OneStepEach(instructions)
    requires Stepped(instructions, n, before, pcs, steps)
    ensures pcs[instructions[n].tid] == before[instructions[n].tid]
    ensures CanLeave(instructions[n], pcs, steps) <==> CanLeave(instructions[n], before, steps)
  {
    assert !StepsOutBefore(instructions, n, instructions[n].tid);
  }

  /** Moving one thread disturbs neither the threads stepped out before it nor the others. */
  lemma SteppedNext(instructions: seq<Instruction>, n: nat, before: map<int, Address>, pcs: map<int, Address>, pcs': map<int, Address>, steps: (int, nat) -> Stop)
    requires n < |instructions| && instructions[n].StepOut? && instructions[n].tid in before && Stepped(instructions, n, before, pcs, steps)
    requires instructions[n].tid in pcs' && pcs' == pcs[instructions[n].tid := pcs'[instructions[n].tid]]
    requires CanLeave(instructions[n], pcs, steps) && IsOut(instructions[n], pcs')
    ensures Stepped(instructions, n + 1, before, pcs', steps)
  {
    OnlyOneMoves(instructions, n, before, pcs, pcs', steps);
    if OneStepEach(instructions) {
      NotYetMoved(instructions, n, before, pcs, steps);
      forall k | 0 <= k < n ensures IsOut(instructions[k], pcs') {
        assert IsOut(instructions[k], pcs);
      }
    }
  }

  /** Whether or not the thread got out, nobody else moved. */
  lemma OnlyOneMoves(instructions: seq<Instruction>, n: nat, before: map<int, Address>, pcs: map<int, Address>, pcs': map<int, Address>, steps: (int, nat) -> Stop)
    requires n < |instructions| && instructions[n].StepOut? && instructions[n].tid in before && Stepped(instructions, n, before, pcs, steps)
    requires instructions[n].tid in pcs' && pcs' == pcs[instructions[n].tid := pcs'[instructions[n].tid]]
    ensures pcs'.Keys == before.Keys && forall tid :: tid in before && !StepsOutBefore(instructions, n + 1, tid) ==> pcs'[tid] == before[tid]
    ensures OthersStill(instructions, before, pcs')
  {
    forall tid | tid in before && !StepsOutBefore(instructions, n + 1, tid) ensures pcs'[tid] == before[tid] {
      assert instructions[n].tid != tid;
      assert !StepsOutBefore(instructions, n, tid);
    }
    forall tid | tid in before && !StepsOut(instructions, tid) ensures !StepsOutBefore(instructions, n + 1, tid) {
    }
  }

  lemma SteppedAll(instructions: seq<Instruction>, before: map<int, Address>, pcs: map<int, Address>, steps: (int, nat) -> Stop)
    requires Stepped(instructions, |instructions|, before, pcs, steps)
    ensures OthersStill(instructions, before, pcs)
    ensures OneStepEach(instructions) ==> AllOut(instructions, pcs) && AllLeave(instructions, before, steps)
  {
    forall tid | tid in before && !StepsOut(instructions, tid) ensures !StepsOutBefore(instructions, |instructions|, tid) {
    }
    if OneStepEach(instructions) {
      forall k | 0 <= k < |instructions| ensures IsOut(instructions[k], pcs) {
      }
    }
  }

  /** A program counter is set, is not set, or is set but cannot be read back as set. */
  datatype SetAnswer = IsSet | NotSet | NotRead

  /** The program counters after the set-pc instructions among the first `n`. */
  function WithPcs(instructions: seq<Instruction>, held: map<int, Address>, n: nat): map<int, Address>
    requires n <= |instructions|
  {
    if n == 0 then held
    else
      var before, ins := WithPcs(instructions, held, n - 1), instructions[n - 1];
      if ins.SetPc? then before[ins.tid := ins.pc] else before
  }

  predicate OneSetEach(instructions: seq<Instruction>) {
    forall i, j :: 0 <= i < j < |instructions| && instructions[i].SetPc? && instructions[j].SetPc? ==>
      instructions[i].tid != instructions[j].tid
  }

  /** Every thread with a set-pc instruction is at its program counter. */
  predicate AllSet(instructions: seq<Instruction>, pcs: map<int, Address>) {
    forall k :: 0 <= k < |instructions| && instructions[k].SetPc? ==>
      instructions[k].tid in pcs && pcs[instructions[k].tid] == instructions[k].pc
  }

  lemma {:induction false} SetPcsHold(instructions: seq<Instruction>, held: map<int, Address>, n: nat)
    requires n <= |instructions| && OneSetEach(instructions)
    ensures AllSet(instructions[..n], WithPcs(instructions, held, n))
    ensures n == |instructions| ==> AllSet(instructions, WithPcs(instructions, held, n))
  {
    if n > 0 {
      SetPcsHold(instructions, held, n - 1);
      var before, after := WithPcs(instructions, held, n - 1), WithPcs(instructions, held, n);
      forall k | 0 <= k < n && instructions[k].SetPc?
        ensures instructions[k].tid in after && after[instructions[k].tid] == instructions[k].pc
      {
        if k < n - 1 { assert instructions[..n - 1][k] == instructions[k]; }
      }
    }
  }

  /** The threads the helper holds, with their program counters. */
  class Helper {
    var held: map<int, Address>

    constructor (threads: map<int, Address>)
      ensures held == threads
    {
      held := threads;
    }

    /** One step-out instruction: only its thread moves. */
    method StepOutOne(ins: Instruction, steps: (int, nat) -> Stop) returns (status: HelperStatus)
      requires ins.StepOut? && ins.tid in held
      modifies this`held
      ensures ins.tid in held && held == old(held)[ins.tid := held[ins.tid]]
      ensures status == HelperOk <==> CanLeave(ins, old(held), steps)
      ensures status == HelperOk ==> !PcInRange(held[ins.tid], ins.address, ins.size)
    {
      var pc;
      status, pc := StepThreadOut(held[ins.tid], ins.address, ins.size, StepsOf(steps, ins.tid));
      held := held[ins.tid := pc];
    }

    /** The first phase: every step-out instruction in turn. */
    method StepOutPhase(instructions: seq<Instruction>, steps: (int, nat) -> Stop) returns (status: HelperStatus)
      requires AllValid(instructions, held)
      modifies this`held
      ensures OthersStill(instructions, old(held), held)
      ensures status == HelperOk && OneStepEach(instructions) ==> AllOut(instructions, held)
      ensures OneStepEach(instructions) ==> (status == HelperOk <==> AllLeave(instructions, old(held), steps))
    {
      var i := 0;
      while i < |instructions|
        invariant 0 <= i <= |instructions| && Stepped(instructions, i, old(held), held, steps)
      {
        var ins := instructions[i];
        assert Validate(ins, old(held)) == HelperOk;
        if ins.StepOut? {
          ghost var was := held;
          status := StepOutOne(ins, steps);
          OnlyOneMoves(instructions, i, old(held), was, held, steps);
          if status != HelperOk {
            if OneStepEach(instructions) { NotYetMoved(instructions, i, old(held), was, steps); }
            return;
          }
          SteppedNext(instructions, i, old(held), was, held, steps);
        } else {
          SteppedSkip(instructions, i, old(held), held, steps);
        }
        i := i + 1;
      }
      SteppedAll(instructions, old(held), held, steps);
      status := HelperOk;
    }

    /** The second phase: a failed write is an event too, since its target may have changed. */
    method WritePhase(instructions: seq<Instruction>, writes: nat -> bool) returns (status: HelperStatus, events: seq<Event>)
      ensures forall k :: 0 <= k < |events| ==> events[k].pcs == held
      ensures |events| <= |Writes(instructions)|
      ensures forall k :: 0 <= k < |events| ==> (events[k].address, events[k].bytes) == Writes(instructions)[k]
      ensures status == HelperOk ==> |events| == |Writes(instructions)|
      ensures status == HelperOk <==> forall i :: 0 <= i < |instructions| && instructions[i].Write? ==> writes(i)
    {
      var i := 0;
      events := [];
      while i < |instructions|
        invariant 0 <= i <= |instructions|
        invariant forall j :: 0 <= j < i && instructions[j].Write? ==> writes(j)
        invariant |events| == |Writes(instructions[..i])|
        invariant forall k :: 0 <= k < |events| ==> events[k].pcs == held
        invariant forall k :: 0 <= k < |events| ==> (events[k].address, events[k].bytes) == Writes(instructions[..i])[k]
      {
        var ins := instructions[i];
        assert instructions[..i + 1][..i] == instructions[..i];
        if ins.Write? {
          events := events + [Event(ins.address, ins.bytes, held)];
          if !writes(i) {
            WritesPrefix(instructions, i + 1);
            return PtraceError, events;
          }
        }
        i := i + 1;
      }
      assert instructions[..i] == instructions;
      status := HelperOk;
    }

    /** The last phase: program counters are set, and read back, only after every write. */
    method SetPcPhase(instructions: seq<Instruction>, sets: nat -> SetAnswer) returns (status: HelperStatus)
      modifies this`held
      ensures status == HelperOk ==> held == WithPcs(instructions, old(held), |instructions|)
      ensures exists n :: 0 <= n <= |instructions| && held == WithPcs(instructions, old(held), n)
      ensures status == HelperOk <==> forall i :: 0 <= i < |instructions| && instructions[i].SetPc? ==> sets(i) == IsSet
    {
      var i := 0;
      while i < |instructions|
        invariant 0 <= i <= |instructions|
        invariant forall j :: 0 <= j < i && instructions[j].SetPc? ==> sets(j) == IsSet
        invariant held == WithPcs(instructions, old(held), i)
      {
        if instructions[i].SetPc? {
          if sets(i) == NotSet {
            return RegisterError;
          }
          held := held[instructions[i].tid := instructions[i].pc];
          if sets(i) == NotRead {
            assert held == WithPcs(instructions, old(held), i + 1);
            return RegisterError;
          }
        }
        i := i + 1;
      }
      status := HelperOk;
    }

    /** The checks before anything is done; `regs` says whether an instruction's registers could be read. */
    method ValidatePhase(instructions: seq<Instruction>, regs: nat -> bool) returns (status: HelperStatus)
      ensures status == HelperOk <==> AllValid(instructions, held) && AllRead(instructions, regs)
    {
      var i := 0;
      while i < |instructions|
        invariant 0 <= i <= |instructions|
        invariant forall k :: 0 <= k < i ==> Validate(instructions[k], held) == HelperOk && (instructions[k].SetPc? ==> regs(k))
      {
        status := Validate(instructions[i], held);
        if status != HelperOk {
          return;
        }
        if instructions[i].SetPc? && !regs(i) {
          return RegisterError;
        }
        i := i + 1;
      }
      status := HelperOk;
    }

    /**
     * Applies the list in phases. `noStrays` says whether each scan for unstopped threads came back
     * clean. Every write is reported with the program counters of its moment.
     */
    method Apply(instructions: seq<Instruction>, regs: nat -> bool, steps: (int, nat) -> Stop, writes: nat -> bool, sets: nat -> SetAnswer,
                 noStrays: (bool, bool))
      returns (status: HelperStatus, events: seq<Event>)
      modifies this`held
      ensures forall k :: 0 <= k < |events| ==> OthersStill(instructions, old(held), events[k].pcs)
      ensures OneStepEach(instructions) ==> forall k :: 0 <= k < |events| ==> AllOut(instructions, events[k].pcs)
      ensures |events| <= |Writes(instructions)|
      ensures forall k :: 0 <= k < |events| ==> (events[k].address, events[k].bytes) == Writes(instructions)[k]
      ensures status == HelperOk ==> |events| == |Writes(instructions)|
      ensures status == HelperOk ==> AllValid(instructions, old(held))
      ensures status == HelperOk && OneSetEach(instructions) ==> AllSet(instructions, held)
      ensures OneStepEach(instructions) ==>
        (status == HelperOk <==>
          && AllValid(instructions, old(held)) && AllRead(instructions, regs) && noStrays.0 && AllLeave(instructions, old(held), steps) && noStrays.1
          && (forall i :: 0 <= i < |instructions| && instructions[i].Write? ==> writes(i))
          && (forall i :: 0 <= i < |instructions| && instructions[i].SetPc? ==> sets(i) == IsSet))
    {
      events := [];
      status := ValidatePhase(instructions, regs);
      if status != HelperOk {
        return;
      }
      if !noStrays.0 {
        return PtraceError, [];
      }
      status := StepOutPhase(instructions, steps);
      if status != HelperOk {
        return;
      }
      if !noStrays.1 {
        return PtraceError, [];
      }
      status, events := WritePhase(instructions, writes);
      if status != HelperOk {
        return;
      }
      ghost var written := held;
      status := SetPcPhase(instructions, sets);
      if status == HelperOk && OneSetEach(instructions) {
        SetPcsHold(instructions, written, |instructions|);
      }
    }
  }

  lemma {:induction false} WritesPrefix(instructions: seq<Instruction>, n: nat)
    requires n <= |instructions|
    ensures |Writes(instructions[..n])| <= |Writes(instructions)|
    ensures forall k :: 0 <= k < |Writes(instructions[..n])| ==> Writes(instructions[..n])[k] == Writes(instructions)[k]
    decreases |instructions|
  {
    if n == |instructions| {
      assert instructions[..n] == instructions;
    } else {
      var most := instructions[..|instructions| - 1];
      assert most[..n] == instructions[..n];
      WritesPrefix(most, n);
    }
  }
}
