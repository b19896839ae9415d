/**
 * The detach controller's prepare paths: the patch-record table it updates, the classification of
 * stopped threads, and the scalar and batched prepare with their roll-backs. Stopping threads and
 * applying instructions are foreign; whether they succeed comes in as a parameter.
 */
module DetachController {
  import opened Common
  import opened DetachProtocol
  import opened DetachClassify
  import opened DetachBatch
  import opened DetachHelper

  const MAX_RECORDS: nat := 8192
  const MAX_BATCH: nat := 64

  /** The records after a refused patch: a record that was taken for it is emptied again. */
  function LeftByPatch(r: Request, s: Snapshot, records: seq<Record>): seq<Record> {
    var free := FreeRecord(records);
    if r.operation == Detach && s.hasPatch && 0 < s.prologueLen <= MAX_PATCH_BYTES && RecordOf(records, r.hookId) == |records| && free < |records|
    then records[free := EMPTY] else records
  }

  /** The records after a refused classification. */
  function LeftByRefusal(r: Request, s: Snapshot, evacuates: bool, threads: seq<ThreadSnapshot>, records: seq<Record>): seq<Record> {
    if Planned(r, s, evacuates, threads, |threads|).Err? then records else LeftByPatch(r, s, records)
  }

  /** Whatever comes of a classification, only the place a detach would use may differ. */
  lemma OnlySlotDiffers(r: Request, s: Snapshot, evacuates: bool, threads: seq<ThreadSnapshot>, records: seq<Record>, records': seq<Record>)
    requires var c := Classified(r, s, evacuates, threads, records);
      records' == if c.Ok? then c.value.1 else LeftByRefusal(r, s, evacuates, threads, records)
    ensures var i := DetachSlot(records, r.hookId);
      if i < |records| then |records'| == |records| && records'[i := records[i]] == records else records' == records
  {
  }

  /** A batch whose threads are stopped: its requests, what Gum reports, and the records before it. */
  datatype Round = Round(requests: seq<Request>, snapshots: seq<Snapshot>, valid: seq<bool>, evacuates: bool,
                         threads: seq<ThreadSnapshot>, records: seq<Record>)
  {
    predicate Ok() { |requests| == |snapshots| == |valid| }

    /** The records after the first `n` requests were classified in turn. */
    function InTurn(n: nat): seq<Record>
      requires Ok() && n <= |requests|
    {
      if n == 0 then records
      else if !valid[n - 1] then InTurn(n - 1)
      else match Classified(requests[n - 1], snapshots[n - 1], evacuates, threads, InTurn(n - 1))
        case Ok((_, after)) => after
        case Err(_) => LeftByRefusal(requests[n - 1], snapshots[n - 1], evacuates, threads, InTurn(n - 1))
    }

    /** What classifying request `i` gives when its turn comes. */
    function AtItsTurn(i: nat): Result<seq<Instruction>>
      requires Ok() && i < |requests|
    {
      match Classified(requests[i], snapshots[i], evacuates, threads, InTurn(i))
      case Ok((plan, _)) => Result.Ok(plan)
      case Err(status) => Err(status)
    }

    predicate IsSafe(i: nat)
      requires Ok() && i < |requests|
    {
      valid[i] && AtItsTurn(i).Ok?
    }

    function Plan(i: nat): seq<Instruction>
      requires Ok() && i < |requests|
    {
      if IsSafe(i) then AtItsTurn(i).value else []
    }

    predicate AnySafe()
      requires Ok()
    {
      exists i :: 0 <= i < Usable(|requests|) && IsSafe(i)
    }

    /** The plans that will be merged: those of the safe requests, nothing for the others. */
    function Plans(): (plans: seq<seq<Instruction>>)
      requires Ok()
      ensures |plans| == Usable(|requests|) && forall i :: 0 <= i < |plans| ==> plans[i] == Plan(i)
    {
      seq(Usable(|requests|), i requires 0 <= i < Usable(|requests|) => Plan(i))
    }
  }

  function Usable(n: nat): (usable: nat)
    ensures usable <= n && usable <= 64 && (usable == n || usable == 64)
  {
    if n > MAX_BATCH then MAX_BATCH else n
  }

  class Controller {
    var records: seq<Record>

    ghost predicate Valid()
      reads this
    {
      |records| == MAX_RECORDS
    }

    constructor ()
      ensures Valid() && forall i :: 0 <= i < MAX_RECORDS ==> records[i] == EMPTY
    {
      records := seq(MAX_RECORDS, _ => EMPTY);
    }

    /** Looks a hook's record up; with `create`, takes the first unused one when the hook has none. */
    method FindRecord(hookId: nat, create: bool) returns (i: nat)
      modifies this
      ensures |records| == |old(records)|
      ensures RecordOf(old(records), hookId) < |old(records)| ==> i == RecordOf(old(records), hookId) && records == old(records)
      ensures RecordOf(old(records), hookId) == |old(records)| && create && FreeRecord(old(records)) < |old(records)| ==>
        i == FreeRecord(old(records)) && records == old(records)[i := Record(true, hookId, 0, [])]
      ensures RecordOf(old(records), hookId) == |old(records)| && !(create && FreeRecord(old(records)) < |old(records)|) ==>
        i == |records| && records == old(records)
    {
      var free := |records|;
      i := 0;
      while i < |records|
        invariant 0 <= i <= |records| && 0 <= free <= |records| && records == old(records)
        invariant forall j :: 0 <= j < i ==> !Owns(records[j], hookId)
        invariant forall j :: 0 <= j < i && j < free ==> records[j].used
        invariant free < |records| ==> free < i && !records[free].used
      {
        if Owns(records[i], hookId) {
          return;
        }
        if !records[i].used && free == |records| {
          free := i;
        }
        i := i + 1;
      }
      if create && free < |records| {
        records := records[free := Record(true, hookId, 0, [])];
        i := free;
      }
    }

    /** Appends the entry write to a plan and, for a detach, keeps the active bytes for the reattach. */
    method AppendPatch(r: Request, s: Snapshot, plan: seq<Instruction>) returns (result: Result<seq<Instruction>>)
      modifies this
      ensures match Patch(r, s, |plan|, old(records))
        case Ok((write, after)) => result == Ok(plan + write) && records == after
        case Err(status) => result == Err(status) && records == LeftByPatch(r, s, old(records))
      ensures result.Ok? && r.operation in {Detach, Shutdown, Revert} && s.prologueLen <= |s.originalPrologue| ==>
        result.value == plan + [Write(Canonical(r, s), s.originalPrologue[..s.prologueLen])]
      ensures result.Ok? && r.operation == Reattach ==>
        && RecordOf(old(records), r.hookId) < |old(records)|
        && result.value == plan + [Write(Canonical(r, s), old(records)[RecordOf(old(records), r.hookId)].patch)]
    {
      if !PatchesEntry(r.operation) {
        return Ok(plan + []);
      }
      var address := Canonical(r, s);
      if r.operation == Reattach {
        var i := FindRecord(r.hookId, false);
        if i == |records| || records[i].patch == [] || records[i].address != address {
          return Err(ClassifyFailed);
        }
        if !CanWrite(|plan|, address, records[i].patch) {
          return Err(Error);
        }
        return Ok(plan + [Write(address, records[i].patch)]);
      }
      if !s.hasPatch || s.prologueLen == 0 || s.prologueLen > MAX_PATCH_BYTES {
        return Err(ClassifyFailed);
      }
      var i, created := |records|, false;
      if r.operation == Detach {
        i := FindRecord(r.hookId, false);
        if i == |records| {
          i := FindRecord(r.hookId, true);
          created := true;
        }
        if i == |records| {
          return Err(Error);
        }
      }
      var bytes := Prefix(s.originalPrologue, s.prologueLen);
      if !CanWrite(|plan|, address, bytes) {
        if created {
          records := records[i := EMPTY];
        }
        return Err(Error);
      }
      if r.operation == Detach {
        records := records[i := Record(true, r.hookId, address, Prefix(s.activePatch, s.prologueLen))];
      }
      result := Ok(plan + [Write(address, bytes)]);
    }

    /** Classifies every stopped thread for the request and plans its instructions. */
    method Classify(r: Request, s: Snapshot, evacuates: bool, threads: seq<ThreadSnapshot>) returns (result: Result<seq<Instruction>>)
      modifies this
      ensures match Classified(r, s, evacuates, threads, old(records))
        case Ok((plan, after)) => result == Ok(plan) && records == after
        case Err(status) => result == Err(status) && records == LeftByRefusal(r, s, evacuates, threads, old(records))
    {
      var plan: seq<Instruction>, i := [], 0;
      while i < |threads|
        invariant 0 <= i <= |threads| && records == old(records)
        invariant Planned(r, s, evacuates, threads, i) == Ok(plan)
      {
        var duplicate, j := false, 0;
        while j < i
          invariant 0 <= j <= i && (duplicate <==> Reported(threads[..j], threads[i].tid))
        {
          assert threads[..j + 1] == threads[..j] + [threads[j]];
          if threads[j].tid == threads[i].tid {
            assert threads[..j + 1][j].tid == threads[i].tid;
            duplicate := true;
          }
          j := j + 1;
        }
        var more := if duplicate then Err(Error) else Examine(r, s, evacuates, |plan|, threads[..i], threads[i]);
        if more.Err? {
          PlanFails(r, s, evacuates, threads, i + 1, |threads|);
          return Err(more.status);
        }
        plan := plan + more.value;
        i := i + 1;
      }
      result := AppendPatch(r, s, plan);
    }

    /**
     * The scalar prepare after its threads were stopped. `applied` says whether the backend carried the
     * plan out, `clean` whether no foreign signal arrived meanwhile; any refusal restores the record.
     */
    method Prepare(r: Request, s: Snapshot, evacuates: bool, threads: seq<ThreadSnapshot>, applied: bool, clean: bool)
      returns (result: Result<seq<Instruction>>)
      modifies this
      ensures result.Err? ==> records == old(records)
      ensures result.Ok? ==> Classified(r, s, evacuates, threads, old(records)) == Ok((result.value, records))
      ensures var c := Classified(r, s, evacuates, threads, old(records));
        result.Ok? <==> c.Ok? && clean && (applied || c.value.0 == [])
    {
      var slot := FindRecord(r.hookId, false);
      if slot == |records| {
        slot := FirstUnused();
      }
      var before := if slot < |records| then records[slot] else EMPTY;
      result := Classify(r, s, evacuates, threads);
      if result.Ok? && result.value != [] && !applied {
        result := Err(Error);
      }
      if result.Ok? && !clean {
        result := Err(Unsupported);
      }
      OnlySlotDiffers(r, s, evacuates, threads, old(records), records);
      if result.Err? && slot < |records| {
        records := records[slot := before];
      }
    }

    method FirstUnused() returns (i: nat)
      ensures i == FreeRecord(records)
    {
      i := 0;
      while i < |records|
        invariant 0 <= i <= |records|
        invariant forall j :: 0 <= j < i ==> records[j].used
      {
        if !records[i].used {
          return;
        }
        i := i + 1;
      }
    }

    /** Request `i` of a batch: classifies it and merges its plan, unless it is not valid or not safe. */
    method PrepareNext(request: Request, snapshot: Snapshot, isValid: bool, evacuates: bool, threads: seq<ThreadSnapshot>,
                       batch: seq<Instruction>, ghost b: Round, ghost i: nat)
      returns (plan: Option<seq<Instruction>>, merged: Option<seq<Instruction>>)
      requires b.Ok() && i < Usable(|b.requests|) && Merges(b.Plans()[..i], batch) && records == b.InTurn(i)
      requires b.requests[i] == request && b.snapshots[i] == snapshot && b.valid[i] == isValid
      requires b.evacuates == evacuates && b.threads == threads
      modifies this
      ensures (plan.Some? <==> b.IsSafe(i)) && (plan.Some? ==> plan.value == b.Plan(i))
      ensures merged.Some? ==> Merges(b.Plans()[..i + 1], merged.value) && records == b.InTurn(i + 1)
      ensures merged.None? ==> !Compatible(b.Plans())
    {
      ghost var all := b.Plans();
      plan, merged := None, Some(batch);
      if isValid {
        var result := Classify(request, snapshot, evacuates, threads);
        if result.Ok? {
          plan := Some(result.value);
          var joined := AppendPlan(batch, result.value);
          if joined.Err? {
            RefusedPlansDoNotFit(all, batch, i);
            return plan, None;
          }
          merged := Some(joined.value);
        }
      }
      MergesMore(all, i, batch, merged.value);
    }

    /** Request `i` of a batch with what is kept of it: its plan and that it is prepared. */
    method ClassifyOne(request: Request, snapshot: Snapshot, isValid: bool, evacuates: bool, threads: seq<ThreadSnapshot>,
                       before: seq<Instruction>, prepared: seq<bool>, plans: seq<seq<Instruction>>, i: nat, ghost b: Round)
      returns (fits: bool, prepared': seq<bool>, plans': seq<seq<Instruction>>, batch: seq<Instruction>)
      requires b.Ok() && i < Usable(|b.requests|) && MergedUpTo(b, i, before) && records == b.InTurn(i) && Follows(b, prepared, plans, i)
      requires b.requests[i] == request && b.snapshots[i] == snapshot && b.valid[i] == isValid
      requires b.evacuates == evacuates && b.threads == threads
      modifies this
      ensures fits ==> MergedUpTo(b, i + 1, batch) && records == b.InTurn(i + 1) && Follows(b, prepared', plans', i + 1)
      ensures !fits ==> !Compatible(b.Plans()) && |prepared'| == |plans'| == |b.requests|
    {
      var plan, merged := PrepareNext(request, snapshot, isValid, evacuates, threads, before, b, i);
      FollowsMore(b, prepared, plans, i, plan);
      prepared', plans' := prepared, plans;
      if merged.None? {
        return false, prepared', plans', before;
      }
      if plan.Some? {
        plans', prepared' := plans[i := plan.value], prepared[i := true];
      }
      fits, batch := true, merged.value;
    }

    /** Classifies the requests in turn and merges their plans, until one does not fit. */
    method ClassifyAll(requests: seq<Request>, snapshots: seq<Snapshot>, valid: seq<bool>, evacuates: bool,
                       threads: seq<ThreadSnapshot>, ghost b: Round)
      returns (fits: bool, prepared: seq<bool>, plans: seq<seq<Instruction>>, batch: seq<Instruction>)
      requires b == Round(requests, snapshots, valid, evacuates, threads, records) && b.Ok()
      modifies this
      ensures |prepared| == |plans| == |requests|
      ensures fits ==> Merges(b.Plans(), batch) && records == b.InTurn(Usable(|requests|)) && Follows(b, prepared, plans, Usable(|requests|))
      ensures !fits ==> !Compatible(b.Plans())
    {
      fits, prepared, plans, batch := true, seq(|requests|, _ => false), seq(|requests|, _ => []), [];
      NothingMerged(b);
      var i := 0;
      while i < Usable(|requests|)
        invariant 0 <= i <= Usable(|requests|) && Follows(b, prepared, plans, i)
        invariant MergedUpTo(b, i, batch) && records == b.InTurn(i)
      {
        fits, prepared, plans, batch := ClassifyOne(requests[i], snapshots[i], valid[i], evacuates, threads, batch, prepared, plans, i, b);
        if !fits {
          return;
        }
        i := i + 1;
      }
      AllMerged(b, batch);
    }

    /**
     * The batched prepare after its threads were stopped: classifies each valid request, merges the
     * plans, and has them applied together; any refusal restores the whole table.
     */
    method PrepareBatch(requests: seq<Request>, snapshots: seq<Snapshot>, valid: seq<bool>, evacuates: bool,
                        threads: seq<ThreadSnapshot>, applied: bool, clean: bool)
      returns (ok: bool, prepared: seq<bool>, plans: seq<seq<Instruction>>, batch: seq<Instruction>)
      requires |requests| == |snapshots| == |valid|
      modifies this
      ensures |prepared| == |plans| == |requests|
      ensures !ok ==> records == old(records) && forall i :: 0 <= i < |prepared| ==> !prepared[i]
      ensures forall i :: 64 <= i < |prepared| ==> !prepared[i]
      ensures ok ==> var b := Round(requests, snapshots, valid, evacuates, threads, old(records));
        && Merges(b.Plans(), batch) && OneStepEach(batch) && OneSetEach(batch)
        && records == b.InTurn(Usable(|requests|))
        && true in prepared && Follows(b, prepared, plans, Usable(|requests|))
      ensures var b := Round(requests, snapshots, valid, evacuates, threads, old(records));
        applied && clean && Compatible(b.Plans()) && b.AnySafe() ==> ok
    {
      var before := records;
      ghost var b := Round(requests, snapshots, valid, evacuates, threads, records);
      var fits;
      fits, prepared, plans, batch := ClassifyAll(requests, snapshots, valid, evacuates, threads, b);
      ok := fits && true in prepared && (batch == [] || applied) && clean;
      if ok {
        ConsistentMeans(batch);
      } else {
        if fits && b.AnySafe() { SomePrepared(b, prepared, plans); }
        records, prepared := before, seq(|requests|, _ => false);
      }
    }
  }

  lemma SomePrepared(b: Round, prepared: seq<bool>, plans: seq<seq<Instruction>>)
    requires b.Ok() && Follows(b, prepared, plans, Usable(|b.requests|)) && b.AnySafe()
    ensures true in prepared
  {
    var i :| 0 <= i < Usable(|b.requests|) && b.IsSafe(i);
    assert prepared[i];
  }

  /** The batch holds the plans of the first `n` requests and nothing else. */
  ghost predicate MergedUpTo(b: Round, n: nat, batch: seq<Instruction>)
    requires b.Ok()
  {
    n <= Usable(|b.requests|) && Merges(b.Plans()[..n], batch)
  }

  lemma NothingMerged(b: Round)
    requires b.Ok()
    ensures MergedUpTo(b, 0, [])
  {
    assert b.Plans()[..0] == [];
  }

  lemma AllMerged(b: Round, batch: seq<Instruction>)
    requires b.Ok() && MergedUpTo(b, Usable(|b.requests|), batch)
    ensures Merges(b.Plans(), batch)
  {
    assert b.Plans()[..Usable(|b.requests|)] == b.Plans();
  }

  /** Of the first `n` requests the safe ones are prepared, each with its own plan, and no other is. */
  ghost predicate Follows(b: Round, prepared: seq<bool>, plans: seq<seq<Instruction>>, n: nat)
    requires b.Ok() && n <= |b.requests|
  {
    && |prepared| == |plans| == |b.requests|
    && (forall i :: 0 <= i < n ==> (prepared[i] <==> b.IsSafe(i)) && (prepared[i] ==> plans[i] == b.Plan(i)))
    && (forall i :: n <= i < |prepared| ==> !prepared[i])
  }

  lemma FollowsMore(b: Round, prepared: seq<bool>, plans: seq<seq<Instruction>>, n: nat, plan: Option<seq<Instruction>>)
    requires b.Ok() && n < |b.requests| && Follows(b, prepared, plans, n)
    requires (plan.Some? <==> b.IsSafe(n)) && (plan.Some? ==> plan.value == b.Plan(n))
    ensures plan.None? ==> Follows(b, prepared, plans, n + 1)
    ensures plan.Some? ==> Follows(b, prepared[n := true], plans[n := plan.value], n + 1)
  {
  }

  /** A consistent list moves no thread twice in the same way. */
  lemma ConsistentMeans(list: seq<Instruction>)
    requires Consistent(list)
    ensures OneStepEach(list) && OneSetEach(list)
  {
    forall i, j | 0 <= i < j < |list| ensures !Meets(list[i], list[j]) {
    }
  }

  /** In a consistent list with writes of allowed length, no byte is written twice. */
  lemma NoByteTwice(list: seq<Instruction>, i: nat, j: nat, x: Address)
    requires Consistent(list) && i < |list| && j < |list| && Covers(list[i], x) && Covers(list[j], x)
    requires |list[i].bytes| <= MAX_PATCH_BYTES && |list[j].bytes| <= MAX_PATCH_BYTES
    ensures i == j
  {
    OverlapWhenShared(list[i], list[j], x);
    OverlapWhenShared(list[j], list[i], x);
  }

  lemma {:induction false} PlanFails(r: Request, s: Snapshot, evacuates: bool, threads: seq<ThreadSnapshot>, n: nat, m: nat)
    requires n <= m <= |threads| && Planned(r, s, evacuates, threads, n).Err?
    ensures Planned(r, s, evacuates, threads, m) == Planned(r, s, evacuates, threads, n)
    decreases m
  {
    if n < m { PlanFails(r, s, evacuates, threads, n, m - 1); }
  }

  // ---------------------------------------------------------------------------------------------
  // Duplicate targets in a batch
  // ---------------------------------------------------------------------------------------------

  /** What a batch must not name twice: the hook, and the function. */
  datatype Target = Target(hookId: nat, address: Address)

  predicate Shares(a: Target, b: Target) { a.hookId == b.hookId || a.address == b.address }

  predicate ApartTargets(targets: seq<Target>, valid: seq<bool>)
    requires |targets| == |valid|
  {
    forall i, j :: 0 <= i < j < |valid| && valid[i] && valid[j] ==> !Shares(targets[i], targets[j])
  }

  predicate HasTwin(targets: seq<Target>, valid: seq<bool>, i: nat)
    requires |targets| == |valid| && i < |valid|
  {
    exists j :: 0 <= j < |valid| && j != i && valid[j] && Shares(targets[i], targets[j])
  }

  /** Another request names the hook of request `i`, or its function. */
  predicate SameTargetTwice(targets: seq<Target>, i: nat)
    requires i < |targets|
  {
    exists j :: 0 <= j < |targets| && j != i && (targets[j].hookId == targets[i].hookId || targets[j].address == targets[i].address)
  }

  /** What was dropped had a twin. */
  predicate Pruned(targets: seq<Target>, valid: seq<bool>, kept: seq<bool>)
    requires |targets| == |valid|
  {
    && |kept| == |valid|
    && forall k :: 0 <= k < |valid| ==> (kept[k] ==> valid[k]) && (valid[k] && !kept[k] ==> HasTwin(targets, valid, k))
  }

  /** The requests before `i` share nothing with a later one, and `i` nothing with those before `j`. */
  predicate ClearedTo(targets: seq<Target>, kept: seq<bool>, i: nat, j: nat)
    requires |targets| == |kept|
  {
    && (forall a, b :: 0 <= a < i && a < b < |kept| && kept[a] && kept[b] ==> !Shares(targets[a], targets[b]))
    && (i < |kept| ==> forall b :: i < b < j && b < |kept| && kept[b] ==> !Shares(targets[i], targets[b]))
  }

  lemma DropPair(targets: seq<Target>, valid: seq<bool>, kept: seq<bool>, i: nat, j: nat)
    requires |targets| == |valid| && Pruned(targets, valid, kept) && i < j < |valid| && valid[i] && valid[j]
    requires Shares(targets[i], targets[j]) && ClearedTo(targets, kept, i, j)
    ensures Pruned(targets, valid, kept[i := false][j := false]) && ClearedTo(targets, kept[i := false][j := false], i, j + 1)
  {
    assert Shares(targets[j], targets[i]);
  }

  /** Drops request `i` with every later one that shares its target, pair by pair. */
  method DropRow(targets: seq<Target>, valid: seq<bool>, before: seq<bool>, i: nat) returns (kept: seq<bool>)
    requires |targets| == |valid| && i < |valid| && Pruned(targets, valid, before) && before[i] && ClearedTo(targets, before, i, i + 1)
    ensures Pruned(targets, valid, kept) && ClearedTo(targets, kept, i + 1, i + 2)
  {
    kept := before;
    var j := i + 1;
    while j < |valid|
      invariant i < j <= |valid| && valid[i] && Pruned(targets, valid, kept) && ClearedTo(targets, kept, i, j)
    {
      if kept[j] && Shares(targets[i], targets[j]) {
        DropPair(targets, valid, kept, i, j);
        kept := kept[i := false][j := false];
      }
      j := j + 1;
    }
  }

  /** Drops both sides of each pair of requests that share a target. */
  method DropPairs(targets: seq<Target>, valid: seq<bool>) returns (kept: seq<bool>)
    requires |targets| == |valid|
    ensures Pruned(targets, valid, kept) && ApartTargets(targets, kept)
    ensures forall i, j :: 0 <= i < j < |valid| && kept[i] && kept[j] ==>
                             targets[i].hookId != targets[j].hookId && targets[i].address != targets[j].address
    ensures forall i :: 0 <= i < |valid| && valid[i] && !kept[i] ==> SameTargetTwice(targets, i)
  {
    kept := valid;
    var i := 0;
    while i < |valid|
      invariant 0 <= i <= |valid| && Pruned(targets, valid, kept) && ClearedTo(targets, kept, i, i + 1)
    {
      if kept[i] {
        kept := DropRow(targets, valid, kept, i);
      }
      i := i + 1;
    }
    PairsMean(targets, valid, kept);
  }

  lemma PairsMean(targets: seq<Target>, valid: seq<bool>, kept: seq<bool>)
    requires |targets| == |valid| && Pruned(targets, valid, kept) && ApartTargets(targets, kept)
    ensures forall i, j :: 0 <= i < j < |valid| && kept[i] && kept[j] ==>
                             targets[i].hookId != targets[j].hookId && targets[i].address != targets[j].address
    ensures forall i :: 0 <= i < |valid| && valid[i] && !kept[i] ==> SameTargetTwice(targets, i)
  {
  }

  predicate OnlyTwins(targets: seq<Target>, valid: seq<bool>, marked: seq<bool>)
    requires |targets| == |valid|
  {
    |marked| == |valid| && forall k :: 0 <= k < |valid| && marked[k] ==> valid[k] && HasTwin(targets, valid, k)
  }

  /** Every pair of twins is marked whose first is before `i`, or is `i` with its second before `j`. */
  predicate MarkedTo(targets: seq<Target>, valid: seq<bool>, marked: seq<bool>, i: nat, j: nat)
    requires |targets| == |valid| == |marked|
  {
    forall a, b :: 0 <= a < b < |valid| && (a < i || (a == i && b < j)) && valid[a] && valid[b] && Shares(targets[a], targets[b]) ==>
      marked[a] && marked[b]
  }

  lemma MarkPair(targets: seq<Target>, valid: seq<bool>, marked: seq<bool>, i: nat, j: nat)
    requires |targets| == |valid| && OnlyTwins(targets, valid, marked) && i < j < |valid| && valid[i] && valid[j]
    requires Shares(targets[i], targets[j]) && MarkedTo(targets, valid, marked, i, j)
    ensures OnlyTwins(targets, valid, marked[i := true][j := true]) && MarkedTo(targets, valid, marked[i := true][j := true], i, j + 1)
  {
    assert Shares(targets[j], targets[i]);
  }

  /** Marks request `i` with every later one that shares its target. */
  method MarkRow(targets: seq<Target>, valid: seq<bool>, before: seq<bool>, i: nat) returns (marked: seq<bool>)
    requires |targets| == |valid| && i < |valid| && OnlyTwins(targets, valid, before) && MarkedTo(targets, valid, before, i, 0)
    ensures OnlyTwins(targets, valid, marked) && MarkedTo(targets, valid, marked, i + 1, 0)
  {
    marked := before;
    var j := i + 1;
    while valid[i] && j < |valid|
      invariant i < j <= |valid| && OnlyTwins(targets, valid, marked) && MarkedTo(targets, valid, marked, i, j)
    {
      if valid[j] && Shares(targets[i], targets[j]) {
        MarkPair(targets, valid, marked, i, j);
        marked := marked[i := true][j := true];
      }
      j := j + 1;
    }
    RowIsMarked(targets, valid, marked, i, j);
  }

  /** Marks every request that shares its canonical target with another valid one. */
  method MarkTwins(targets: seq<Target>, valid: seq<bool>) returns (marked: seq<bool>)
    requires |targets| == |valid|
    ensures |marked| == |valid| && forall k :: 0 <= k < |valid| ==> (marked[k] <==> valid[k] && HasTwin(targets, valid, k))
  {
    marked := seq(|valid|, _ => false);
    var i := 0;
    while i < |valid|
      invariant 0 <= i <= |valid| && OnlyTwins(targets, valid, marked) && MarkedTo(targets, valid, marked, i, 0)
    {
      marked := MarkRow(targets, valid, marked, i);
      i := i + 1;
    }
    MarkedAreTwins(targets, valid, marked);
  }

  /** Drops every request that shares its canonical target with another valid one. */
  method DropMarked(targets: seq<Target>, valid: seq<bool>) returns (kept: seq<bool>)
    requires |targets| == |valid|
    ensures |kept| == |valid| && ApartTargets(targets, kept)
    ensures forall i :: 0 <= i < |valid| ==> (kept[i] <==> valid[i] && !HasTwin(targets, valid, i))
    ensures forall i, j :: 0 <= i < j < |valid| && kept[i] && kept[j] ==>
                             targets[i].hookId != targets[j].hookId && targets[i].address != targets[j].address
    ensures forall i :: 0 <= i < |valid| && valid[i] && !kept[i] ==> SameTargetTwice(targets, i)
  {
    var marked := MarkTwins(targets, valid);
    kept := valid;
    var i := 0;
    while i < |valid|
      invariant 0 <= i <= |valid| && |kept| == |valid|
      invariant forall k :: 0 <= k < |valid| ==> kept[k] == (valid[k] && !(k < i && marked[k]))
    {
      if marked[i] {
        kept := kept[i := false];
      }
      i := i + 1;
    }
    TwinlessAreApart(targets, valid, kept);
  }

  lemma TwinlessAreApart(targets: seq<Target>, valid: seq<bool>, kept: seq<bool>)
    requires |targets| == |valid| == |kept|
    requires forall k :: 0 <= k < |valid| ==> (kept[k] <==> valid[k] && !HasTwin(targets, valid, k))
    ensures ApartTargets(targets, kept)
  {
  }

  lemma RowIsMarked(targets: seq<Target>, valid: seq<bool>, marked: seq<bool>, i: nat, j: nat)
    requires |targets| == |valid| == |marked| && i < |valid| && MarkedTo(targets, valid, marked, i, j) && (valid[i] ==> j == |valid|)
    ensures MarkedTo(targets, valid, marked, i + 1, 0)
  {
  }

  lemma MarkedAreTwins(targets: seq<Target>, valid: seq<bool>, marked: seq<bool>)
    requires |targets| == |valid| == |marked|
    requires OnlyTwins(targets, valid, marked) && MarkedTo(targets, valid, marked, |valid|, 0)
    ensures forall k :: 0 <= k < |valid| ==> (marked[k] <==> valid[k] && HasTwin(targets, valid, k))
  {
    forall k | 0 <= k < |valid| && valid[k] && HasTwin(targets, valid, k) ensures marked[k] {
      var j :| 0 <= j < |valid| && j != k && valid[j] && Shares(targets[k], targets[j]);
      assert Shares(targets[j], targets[k]);
    }
  }

  // ---------------------------------------------------------------------------------------------
  // One request, from classification to the write
  // ---------------------------------------------------------------------------------------------

  /** The program counters of a moment of the helper's run that started from the snapshots. */
  predicate Witnessed(threads: seq<ThreadSnapshot>, before: map<int, Address>) {
    forall i :: 0 <= i < |threads| ==> threads[i].tid in before && before[threads[i].tid] == threads[i].pc
  }

  lemma {:induction false} PlanStepsOnce(r: Request, s: Snapshot, evacuates: bool, threads: seq<ThreadSnapshot>, n: nat)
    requires n <= |threads| && Planned(r, s, evacuates, threads, n).Ok?
    ensures OneStepEach(Planned(r, s, evacuates, threads, n).value)
    decreases n
  {
    if n > 0 {
      PlanStepsOnce(r, s, evacuates, threads, n - 1);
      PlanIsAboutThreads(r, s, evacuates, threads, n);
      PlanIsAboutThreads(r, s, evacuates, threads, n - 1);
      var plan := Planned(r, s, evacuates, threads, n - 1).value;
      var more := Examine(r, s, evacuates, |plan|, threads[..n - 1], threads[n - 1]).value;
      assert |more| <= 1 && forall k :: 0 <= k < |more| ==> !more[k].Write? && more[k].tid == threads[n - 1].tid;
      forall j, k | 0 <= j < k < |plan + more| && (plan + more)[j].StepOut? && (plan + more)[k].StepOut?
        ensures (plan + more)[j].tid != (plan + more)[k].tid
      {
        if k >= |plan| {
          assert (plan + more)[j] == plan[j];
          var i :| 0 <= i < n - 1 && threads[i].tid == plan[j].tid;
        }
      }
    }
  }

  /** Threads are stepped out of exactly the reported entry bytes. */
  lemma {:induction false} PlanStepsEntry(r: Request, s: Snapshot, evacuates: bool, threads: seq<ThreadSnapshot>, n: nat)
    requires n <= |threads| && Planned(r, s, evacuates, threads, n).Ok?
    ensures forall k :: 0 <= k < |Planned(r, s, evacuates, threads, n).value| ==>
      var ins := Planned(r, s, evacuates, threads, n).value[k];
      ins.StepOut? ==> ins.address == Canonical(r, s) && ins.size == s.diagnostics.prologueLen
  {
    if n > 0 { PlanStepsEntry(r, s, evacuates, threads, n - 1); }
  }

  lemma {:induction false} PlanHasNoWrites(plan: seq<Instruction>)
    requires forall k :: 0 <= k < |plan| ==> !plan[k].Write?
    ensures Writes(plan) == []
  {
    if plan != [] { PlanHasNoWrites(plan[..|plan| - 1]); }
  }

  /**
   * At the moment the helper writes the entry bytes of a request that classified as safe, no thread it
   * was shown has its program counter strictly inside them.
   */
  lemma NoThreadInsideTheWrite(r: Request, s: Snapshot, evacuates: bool, threads: seq<ThreadSnapshot>, records: seq<Record>,
                               before: map<int, Address>, e: Event, i: nat)
    requires PatchesEntry(r.operation) && EntryIsSane(r.operation, s) && LengthsAgree(r, s, records)
    requires Classified(r, s, evacuates, threads, records).Ok?
    requires var all := Classified(r, s, evacuates, threads, records).value.0;
      && Witnessed(threads, before)
      && OthersStill(all, before, e.pcs) && (OneStepEach(all) ==> AllOut(all, e.pcs))
      && (e.address, e.bytes) in Writes(all)
    requires i < |threads|
    ensures threads[i].tid in e.pcs && !StrictlyInside(e.pcs[threads[i].tid], e.address, |e.bytes|)
  {
    var all := Classified(r, s, evacuates, threads, records).value.0;
    var plan := Planned(r, s, evacuates, threads, |threads|).value;
    var entry, n := s.diagnostics.functionAddress, s.diagnostics.prologueLen;
    SafePlanGuardsTheWrite(r, s, evacuates, threads, records);
    PlanIsAboutThreads(r, s, evacuates, threads, |threads|);
    PlanStepsOnce(r, s, evacuates, threads, |threads|);
    PlanHasNoWrites(plan);
    PlanStepsEntry(r, s, evacuates, threads, |threads|);
    assert all[..|all| - 1] == plan;
    assert Writes(all) == [(entry, all[|plan|].bytes)];
    SteppedThreads(all, plan, e.pcs, threads, entry, n, i);
  }

  lemma SteppedThreads(all: seq<Instruction>, plan: seq<Instruction>, pcs: map<int, Address>, threads: seq<ThreadSnapshot>, entry: Address, n: nat, i: nat)
    requires |all| == |plan| + 1 && all[..|plan|] == plan && all[|plan|].Write? && AllOut(all, pcs) && i < |threads| && threads[i].tid in pcs
    requires entry != 0 && n > 0 && entry + n < SPACE
    requires forall k :: 0 <= k < |plan| && plan[k].StepOut? ==> plan[k].address == entry && plan[k].size == n
    requires StepsOut(all, threads[i].tid) || !StrictlyInside(pcs[threads[i].tid], entry, n)
    ensures !StrictlyInside(pcs[threads[i].tid], entry, n)
  {
  }

  /** Classifies a request and has the helper carry the plan out. */
  method MutateEntry(c: Controller, h: Helper, r: Request, s: Snapshot, threads: seq<ThreadSnapshot>,
                     regs: nat -> bool, steps: (int, nat) -> Stop, writes: nat -> bool, sets: nat -> SetAnswer,
                     noStrays: (bool, bool)) returns (events: seq<Event>)
    requires Witnessed(threads, h.held)
    modifies c, h
    ensures PatchesEntry(r.operation) && EntryIsSane(r.operation, s) && LengthsAgree(r, s, old(c.records)) ==>
      forall k, i :: 0 <= k < |events| && 0 <= i < |threads| ==>
        threads[i].tid in events[k].pcs && !StrictlyInside(events[k].pcs[threads[i].tid], events[k].address, |events[k].bytes|)
  {
    ghost var before, records := h.held, c.records;
    var plan := c.Classify(r, s, true, threads);
    if plan.Err? {
      return [];
    }
    var status;
    status, events := h.Apply(plan.value, regs, steps, writes, sets, noStrays);
    if PatchesEntry(r.operation) && EntryIsSane(r.operation, s) && LengthsAgree(r, s, records) {
      forall k, i | 0 <= k < |events| && 0 <= i < |threads|
        ensures threads[i].tid in events[k].pcs && !StrictlyInside(events[k].pcs[threads[i].tid], events[k].address, |events[k].bytes|)
      {
        assert (events[k].address, events[k].bytes) == Writes(plan.value)[k];
        NoThreadInsideTheWrite(r, s, true, threads, records, before, events[k], i);
      }
    }
  }

  // ---------------------------------------------------------------------------------------------
  // What the controller plans, the helper accepts
  // ---------------------------------------------------------------------------------------------

  lemma ExaminedIsValid(r: Request, s: Snapshot, evacuates: bool, count: nat, earlier: seq<ThreadSnapshot>, t: ThreadSnapshot, held: map<int, Address>)
    requires Examine(r, s, evacuates, count, earlier, t).Ok? && t.tid in held
    ensures AllValid(Examine(r, s, evacuates, count, earlier, t).value, held)
  {
  }

  lemma {:induction false} PlannedIsValid(r: Request, s: Snapshot, evacuates: bool, threads: seq<ThreadSnapshot>, n: nat, held: map<int, Address>)
    requires n <= |threads| && Planned(r, s, evacuates, threads, n).Ok?
    requires forall i :: 0 <= i < |threads| ==> threads[i].tid in held
    ensures AllValid(Planned(r, s, evacuates, threads, n).value, held)
    decreases n
  {
    if n > 0 {
      PlannedIsValid(r, s, evacuates, threads, n - 1, held);
      var plan := Planned(r, s, evacuates, threads, n - 1).value;
      ExaminedIsValid(r, s, evacuates, |plan|, threads[..n - 1], threads[n - 1], held);
    }
  }

  /** With the reported threads held, the helper's checks accept every instruction of a safe plan. */
  lemma SafePlanIsAccepted(r: Request, s: Snapshot, evacuates: bool, threads: seq<ThreadSnapshot>, records: seq<Record>, held: map<int, Address>)
    requires Classified(r, s, evacuates, threads, records).Ok?
    requires forall i :: 0 <= i < |threads| ==> threads[i].tid in held
    ensures AllValid(Classified(r, s, evacuates, threads, records).value.0, held)
  {
    PlannedIsValid(r, s, evacuates, threads, |threads|, held);
  }
}
