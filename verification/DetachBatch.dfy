/** Merging the plans of several hook mutations into one instruction list. */
module DetachBatch {
  import opened DetachProtocol

  predicate Wraps(w: Instruction)
    requires w.Write?
  {
    End(w.address, |w.bytes|) < w.address
  }

  /** Two writes that may touch a common byte; one that wraps is taken to touch any other. */
  predicate Overlap(v: Instruction, w: Instruction)
    requires v.Write? && w.Write?
  {
    Wraps(v) || Wraps(w) || (v.address < End(w.address, |w.bytes|) && w.address < End(v.address, |v.bytes|))
  }

  /** Whether two instructions are about the same thread in the same way, or about common bytes. */
  predicate Meets(a: Instruction, b: Instruction) {
    || (a.SetPc? && b.SetPc? && a.tid == b.tid)
    || (a.StepOut? && b.StepOut? && a.tid == b.tid)
    || (a.Write? && b.Write? && Overlap(a, b))
  }

  /** No two instructions set or step the same thread, and no two writes overlap. */
  predicate Consistent(list: seq<Instruction>) {
    forall i, j :: 0 <= i < j < |list| ==> !Meets(list[i], list[j])
  }

  /** Whether the first instruction that meets the candidate differs from it. */
  method FindConflict(list: seq<Instruction>, candidate: Instruction) returns (conflict: bool)
    ensures !conflict ==> candidate in list || forall i :: 0 <= i < |list| ==> !Meets(list[i], candidate)
    ensures conflict ==> exists i :: 0 <= i < |list| && Meets(list[i], candidate) && list[i] != candidate
  {
    var i := 0;
    while i < |list|
      invariant 0 <= i <= |list|
      invariant forall j :: 0 <= j < i ==> !Meets(list[j], candidate)
    {
      if Meets(list[i], candidate) {
        return list[i] != candidate;
      }
      i := i + 1;
    }
    conflict := false;
  }

  /** An instruction of the plan meets a different one of the batch or of the plan. */
  ghost predicate Conflicts(batch: seq<Instruction>, plan: seq<Instruction>) {
    exists a, b :: b in plan && (a in batch || a in plan) && Meets(a, b) && a != b
  }

  /** Appends a plan to the batch, instruction by instruction; duplicates are dropped, conflicts refuse it. */
  method AppendPlan(batch: seq<Instruction>, plan: seq<Instruction>) returns (merged: Result<seq<Instruction>>)
    requires Consistent(batch) && |batch| <= MAX_INSTRUCTIONS
    ensures merged.Ok? ==>
      && batch <= merged.value && Consistent(merged.value) && |merged.value| <= MAX_INSTRUCTIONS
      && |merged.value| <= |batch| + |plan|
      && forall ins :: ins in merged.value <==> ins in batch || ins in plan
    ensures merged == Err(ClassifyFailed) ==> Conflicts(batch, plan)
    ensures merged.Err? && merged.status != ClassifyFailed ==> |batch| + |plan| > MAX_INSTRUCTIONS
  {
    var list, i := batch, 0;
    while i < |plan|
      invariant 0 <= i <= |plan|
      invariant batch <= list && Consistent(list) && |list| <= MAX_INSTRUCTIONS && |list| <= |batch| + i
      invariant forall ins :: ins in list <==> ins in batch || ins in plan[..i]
    {
      var conflict := FindConflict(list, plan[i]);
      if conflict {
        var j :| 0 <= j < |list| && Meets(list[j], plan[i]) && list[j] != plan[i];
        assert list[j] in list;
        assert plan[i] in plan && (list[j] in batch || list[j] in plan);
        return Err(ClassifyFailed);
      }
      if plan[i] !in list {
        if |list| >= MAX_INSTRUCTIONS {
          return Err(Error);
        }
        list := list + [plan[i]];
      }
      assert plan[..i + 1] == plan[..i] + [plan[i]];
      i := i + 1;
    }
    assert plan[..i] == plan;
    merged := Ok(list);
  }

  function TotalLength(plans: seq<seq<Instruction>>): nat {
    if plans == [] then 0 else TotalLength(plans[..|plans| - 1]) + |plans[|plans| - 1]|
  }

  predicate InSome(ins: Instruction, plans: seq<seq<Instruction>>) { exists i :: 0 <= i < |plans| && ins in plans[i] }

  /** Plans that fit together: instructions that meet are equal, and there are not too many. */
  ghost predicate Compatible(plans: seq<seq<Instruction>>) {
    && TotalLength(plans) <= MAX_INSTRUCTIONS
    && forall a, b :: InSome(a, plans) && InSome(b, plans) && Meets(a, b) ==> a == b
  }

  lemma {:induction false} LengthGrows(plans: seq<seq<Instruction>>, n: nat)
    requires n <= |plans|
    ensures TotalLength(plans[..n]) <= TotalLength(plans)
  {
    if n == |plans| {
      assert plans[..n] == plans;
    } else {
      var most := plans[..|plans| - 1];
      assert most[..n] == plans[..n];
      LengthGrows(most, n);
    }
  }

  lemma LengthOfMore(plans: seq<seq<Instruction>>, n: nat)
    requires n < |plans|
    ensures TotalLength(plans[..n + 1]) == TotalLength(plans[..n]) + |plans[n]|
  {
    assert plans[..n + 1][..n] == plans[..n];
  }

  /** The batch is a consistent list of exactly the plans' instructions. */
  ghost predicate Merges(plans: seq<seq<Instruction>>, batch: seq<Instruction>) {
    && Consistent(batch) && |batch| <= MAX_INSTRUCTIONS && |batch| <= TotalLength(plans)
    && forall ins :: ins in batch <==> InSome(ins, plans)
  }

  lemma InSomeOfMore(plans: seq<seq<Instruction>>, n: nat, ins: Instruction)
    requires n < |plans|
    ensures InSome(ins, plans[..n + 1]) <==> InSome(ins, plans[..n]) || ins in plans[n]
    ensures InSome(ins, plans[..n + 1]) ==> InSome(ins, plans)
  {
    if InSome(ins, plans[..n + 1]) {
      var i :| 0 <= i < n + 1 && ins in plans[..n + 1][i];
      assert ins in plans[i] && (i < n ==> ins in plans[..n][i]);
    }
    if InSome(ins, plans[..n]) {
      var i :| 0 <= i < n && ins in plans[..n][i];
      assert ins in plans[..n + 1][i];
    }
    if ins in plans[n] { assert ins in plans[..n + 1][n]; }
  }

  lemma MergesMore(plans: seq<seq<Instruction>>, n: nat, batch: seq<Instruction>, merged: seq<Instruction>)
    requires n < |plans| && Merges(plans[..n], batch) && Consistent(merged) && |merged| <= MAX_INSTRUCTIONS
    requires |merged| <= |batch| + |plans[n]| && forall ins :: ins in merged <==> ins in batch || ins in plans[n]
    ensures Merges(plans[..n + 1], merged)
  {
    LengthOfMore(plans, n);
    forall ins ensures ins in merged <==> InSome(ins, plans[..n + 1]) { InSomeOfMore(plans, n, ins); }
  }

  /** A plan that is refused shows that the plans do not fit together. */
  lemma RefusedPlansDoNotFit(plans: seq<seq<Instruction>>, batch: seq<Instruction>, n: nat)
    requires n < |plans| && Merges(plans[..n], batch)
    requires Conflicts(batch, plans[n]) || |batch| + |plans[n]| > MAX_INSTRUCTIONS
    ensures !Compatible(plans)
  {
    if Conflicts(batch, plans[n]) {
      var a, b :| b in plans[n] && (a in batch || a in plans[n]) && Meets(a, b) && a != b;
      InSomeOfMore(plans, n, a);
      InSomeOfMore(plans, n, b);
    } else {
      LengthOfMore(plans, n);
      LengthGrows(plans, n + 1);
    }
  }

  // ---------------------------------------------------------------------------------------------
  // The order of consistent writes does not matter
  // ---------------------------------------------------------------------------------------------

  /** How far `x` lies past the start of the write, around the end of the address space. */
  function Offset(w: Instruction, x: Address): nat
    requires w.Write?
  {
    (x - w.address) % SPACE
  }

  predicate Covers(w: Instruction, x: Address) { w.Write? && Offset(w, x) < |w.bytes| }

  /** The byte at `x` after the writes of the list, in order. */
  function ByteAfter(list: seq<Instruction>, x: Address, original: Byte): Byte {
    if list == [] then original
    else
      var last := list[|list| - 1];
      if Covers(last, x) then last.bytes[Offset(last, x)] else ByteAfter(list[..|list| - 1], x, original)
  }

  lemma OffsetIs(w: Instruction, x: Address)
    requires w.Write?
    ensures Offset(w, x) == if x >= w.address then x - w.address else x - w.address + SPACE
  {
  }

  lemma OverlapWhenShared(v: Instruction, w: Instruction, x: Address)
    requires Covers(v, x) && Covers(w, x) && |v.bytes| <= MAX_PATCH_BYTES && |w.bytes| <= MAX_PATCH_BYTES
    ensures Overlap(v, w)
  {
    OffsetIs(v, x);
    OffsetIs(w, x);
  }

  /** With consistent writes, the byte is the one of the write that covers it, wherever that write stands. */
  lemma {:induction false} CoveredByteIsWritten(list: seq<Instruction>, i: nat, x: Address, original: Byte)
    requires Consistent(list) && i < |list| && Covers(list[i], x)
    requires forall k :: 0 <= k < |list| && list[k].Write? ==> |list[k].bytes| <= MAX_PATCH_BYTES
    ensures ByteAfter(list, x, original) == list[i].bytes[Offset(list[i], x)]
  {
    var n := |list| - 1;
    if i < n {
      if Covers(list[n], x) { OverlapWhenShared(list[i], list[n], x); }
      assert Consistent(list[..n]);
      CoveredByteIsWritten(list[..n], i, x, original);
    }
  }

  lemma {:induction false} UncoveredByteStays(list: seq<Instruction>, x: Address, original: Byte)
    requires forall k :: 0 <= k < |list| ==> !Covers(list[k], x)
    ensures ByteAfter(list, x, original) == original
  {
    if list != [] { UncoveredByteStays(list[..|list| - 1], x, original); }
  }

  /** Two consistent lists with the same instructions write the same bytes, in whatever order. */
  lemma {:induction false} WriteOrderIsIrrelevant(list: seq<Instruction>, other: seq<Instruction>, x: Address, original: Byte)
    requires Consistent(list) && Consistent(other) && forall ins :: ins in list <==> ins in other
    requires forall k :: 0 <= k < |list| && list[k].Write? ==> |list[k].bytes| <= MAX_PATCH_BYTES
    ensures ByteAfter(list, x, original) == ByteAfter(other, x, original)
  {
    forall k | 0 <= k < |other| ensures other[k] in list { assert other[k] in other; }
    if i :| 0 <= i < |list| && Covers(list[i], x) {
      assert list[i] in list;
      var j :| 0 <= j < |other| && other[j] == list[i];
      CoveredByteIsWritten(list, i, x, original);
      CoveredByteIsWritten(other, j, x, original);
    } else {
      UncoveredByteStays(list, x, original);
      UncoveredByteStays(other, x, original);
    }
  }

  /** Writes below the end of the address space meet exactly when they have a byte in common. */
  lemma WritesMeetExactly(v: Instruction, w: Instruction)
    requires v.Write? && w.Write? && v.bytes != [] && w.bytes != []
    requires v.address + |v.bytes| < SPACE && w.address + |w.bytes| < SPACE
    ensures Meets(v, w) <==> exists x: Address :: Covers(v, x) && Covers(w, x)
  {
    var x: Address := if v.address < w.address then w.address else v.address;
    assert Meets(v, w) ==> Covers(v, x) && Covers(w, x);
  }

  /** Other instructions meet exactly when they move the same thread in the same way. */
  lemma MovesMeetExactly(a: Instruction, b: Instruction)
    requires !a.Write? || !b.Write?
    ensures Meets(a, b) <==> !a.Write? && !b.Write? && a.tid == b.tid && (a.SetPc? <==> b.SetPc?)
  {
  }
}
