/**
 * The dynamic-attach request queue of the dlopen interceptor: its requests, the searches over
 * it, and the fixed ring that holds it.
 */
module DlopenQueue {
  import opened Common

  const QUEUE_CAPACITY: nat := 256

  /** A loader handle: the module it names, and which of that module's handle values it is. */
  datatype Handle = Handle(module_: nat, alias: nat)

  datatype RequestState = Empty | Borrowed | Pinning | Ready | PinFailed

  datatype Request = Request(
    handle: Option<Handle>,
    moduleToken: Option<Handle>,
    source: Handle,
    ticket: nat,
    state: RequestState,
    owned: bool,
    transferred: bool,
    retained: bool)

  const CLEARED := Request(None, None, Handle(0, 0), 0, Empty, false, false, false)

  /** The link-map token of the module a handle names. */
  function TokenOf(h: Handle): Handle { Handle(h.module_, 0) }

  predicate IsPending(r: Request) { r.state == Borrowed || r.state == Pinning }

  /** A pending request that still lives on the application's reference to `h`. */
  predicate Borrows(r: Request, h: Handle) {
    && r.source == h
    && (r.state == Borrowed || (r.state == Pinning && !r.transferred))
  }

  predicate Covers(r: Request, h: Handle) {
    && r.state != PinFailed && r.state != Empty
    && (r.source == h || r.moduleToken == Some(h))
  }

  predicate Drainable(r: Request) { r.state == Ready || r.state == PinFailed }

  /** The reference PEAK must still close for a request, if any. */
  function OwnedRef(r: Request): (refs: multiset<Handle>) {
    if r.owned && !r.retained && r.handle.Some? then multiset{r.handle.value} else multiset{}
  }

  /** How many of the requests hold a reference on `k` that PEAK must still close. */
  function OwnedCount(q: seq<Request>, k: Handle): (n: nat) {
    if q == [] then 0 else OwnedRef(q[0])[k] + OwnedCount(q[1..], k)
  }

  function PendingOne(r: Request): (n: nat) { if IsPending(r) then 1 else 0 }

  function PendingCount(q: seq<Request>): (n: nat) {
    if q == [] then 0 else PendingOne(q[0]) + PendingCount(q[1..])
  }

  function Tickets(q: seq<Request>): (t: seq<nat>)
    ensures |t| == |q|
  {
    seq(|q|, i requires 0 <= i < |q| => q[i].ticket)
  }

  lemma {:induction false} OwnedCountAppend(q: seq<Request>, r: Request, k: Handle)
    ensures OwnedCount(q + [r], k) == OwnedCount(q, k) + OwnedRef(r)[k]
  {
    if q != [] {
      assert (q + [r])[1..] == q[1..] + [r];
      OwnedCountAppend(q[1..], r, k);
    } else {
      assert q + [r] == [r];
    }
  }

  lemma {:induction false} OwnedCountUpdate(q: seq<Request>, i: nat, r: Request, k: Handle)
    requires i < |q|
    ensures OwnedCount(q[i := r], k) + OwnedRef(q[i])[k] == OwnedCount(q, k) + OwnedRef(r)[k]
  {
    if i > 0 {
      assert q[i := r][1..] == q[1..][i - 1 := r];
      OwnedCountUpdate(q[1..], i - 1, r, k);
    } else {
      assert q[0 := r][1..] == q[1..];
    }
  }

  lemma {:induction false} PendingCountAppend(q: seq<Request>, r: Request)
    ensures PendingCount(q + [r]) == PendingCount(q) + PendingOne(r)
  {
    if q != [] {
      assert (q + [r])[1..] == q[1..] + [r];
      PendingCountAppend(q[1..], r);
    } else {
      assert q + [r] == [r];
    }
  }

  lemma {:induction false} PendingCountUpdate(q: seq<Request>, i: nat, r: Request)
    requires i < |q|
    ensures PendingCount(q[i := r]) + PendingOne(q[i]) == PendingCount(q) + PendingOne(r)
  {
    if i > 0 {
      assert q[i := r][1..] == q[1..][i - 1 := r];
      PendingCountUpdate(q[1..], i - 1, r);
    } else {
      assert q[0 := r][1..] == q[1..];
    }
  }

  /** The counter is zero exactly when no request is waiting for ownership. */
  lemma {:induction false} PendingCountZero(q: seq<Request>)
    ensures PendingCount(q) == 0 <==> forall i :: 0 <= i < |q| ==> !IsPending(q[i])
  {
    if q != [] {
      PendingCountZero(q[1..]);
      assert forall i :: 1 <= i < |q| ==> q[i] == q[1..][i - 1];
      assert q == [q[0]] + q[1..];
    }
  }

  lemma {:induction false} PendingCountMember(q: seq<Request>, i: nat)
    requires i < |q| && IsPending(q[i])
    ensures PendingCount(q) > 0
  {
    PendingCountZero(q);
  }

  /** A ring position counted from at most one lap on. */
  function Wrap(i: nat): (w: nat)
    requires i < 2 * QUEUE_CAPACITY
    ensures w == i % QUEUE_CAPACITY
  {
    if i < QUEUE_CAPACITY then i else i - QUEUE_CAPACITY
  }

  /** `n` ring slots read from `head` on, across the end of the storage. */
  function Lap(slots: seq<Request>, head: nat, n: nat): (q: seq<Request>)
    requires |slots| == QUEUE_CAPACITY && head < QUEUE_CAPACITY && n <= QUEUE_CAPACITY
    ensures |q| == n
    ensures forall i :: 0 <= i < n ==> q[i] == slots[Wrap(head + i)]
  {
    if head + n <= QUEUE_CAPACITY then slots[head..head + n]
    else slots[head..] + slots[..head + n - QUEUE_CAPACITY]
  }

  lemma LapUpdate(slots: seq<Request>, head: nat, n: nat, i: nat, r: Request)
    requires |slots| == QUEUE_CAPACITY && head < QUEUE_CAPACITY && n <= QUEUE_CAPACITY && i < n
    ensures Lap(slots[Wrap(head + i) := r], head, n) == Lap(slots, head, n)[i := r]
  {
    var now, was := Lap(slots[Wrap(head + i) := r], head, n), Lap(slots, head, n);
    assert forall j :: 0 <= j < n ==> now[j] == was[i := r][j];
  }

  lemma LapPush(slots: seq<Request>, head: nat, n: nat, r: Request)
    requires |slots| == QUEUE_CAPACITY && head < QUEUE_CAPACITY && n < QUEUE_CAPACITY
    ensures Lap(slots[Wrap(head + n) := r], head, n + 1) == Lap(slots, head, n) + [r]
  {
    var now, was := Lap(slots[Wrap(head + n) := r], head, n + 1), Lap(slots, head, n);
    assert forall j :: 0 <= j < n + 1 ==> now[j] == (was + [r])[j];
  }

  lemma LapPop(slots: seq<Request>, head: nat, n: nat, r: Request)
    requires |slots| == QUEUE_CAPACITY && head < QUEUE_CAPACITY && 0 < n <= QUEUE_CAPACITY
    ensures Lap(slots[head := r], Wrap(head + 1), n - 1) == Lap(slots, head, n)[1..]
  {
    var now, was := Lap(slots[head := r], Wrap(head + 1), n - 1), Lap(slots, head, n)[1..];
    assert forall j :: 0 <= j < n - 1 ==> now[j] == was[j];
  }

  /**
   * The ring itself: `slots` is reused in place, `head` is the oldest request and `tail` the
   * next free slot. Its contents are the queue the protocol speaks of.
   */
  class AttachRing {
    const slots: array<Request>
    var head: nat
    var tail: nat
    var length: nat

    ghost predicate Valid()
      reads this, slots
    {
      && slots.Length == QUEUE_CAPACITY
      && head < QUEUE_CAPACITY
      && length <= QUEUE_CAPACITY
      && tail == Wrap(head + length)
    }

    ghost function Contents(): (q: seq<Request>)
      requires Valid()
      reads this, slots
      ensures |q| == length
    {
      Lap(slots[..], head, length)
    }

    constructor ()
      ensures Valid() && Contents() == [] && fresh(slots)
    {
      slots := new Request[QUEUE_CAPACITY](_ => CLEARED);
      head, tail, length := 0, 0, 0;
    }

    /** Walks the ring from the head and stops at the first request that satisfies `p`. */
    method Find(p: Request -> bool) returns (offset: nat)
      requires Valid()
      ensures offset == FirstWhere(Contents(), p)
    {
      var index := head;
      offset := 0;
      while offset < length
        invariant offset <= length
        invariant index == Wrap(head + offset)
        invariant forall j :: 0 <= j < offset ==> !p(Contents()[j])
      {
        assert Contents()[offset] == slots[index];
        if p(slots[index]) {
          return;
        }
        index := (index + 1) % QUEUE_CAPACITY;
        offset := offset + 1;
      }
    }

    method Get(offset: nat) returns (r: Request)
      requires Valid() && offset < length
      ensures r == Contents()[offset]
    {
      r := slots[Wrap(head + offset)];
    }

    /** Rewrites the request at `offset` in place. */
    method Update(offset: nat, r: Request)
      requires Valid() && offset < length
      modifies slots
      ensures Valid() && Contents() == old(Contents())[offset := r]
    {
      LapUpdate(slots[..], head, length, offset, r);
      slots[Wrap(head + offset)] := r;
    }

    /** Appends at the tail when there is room. */
    method Push(r: Request) returns (accepted: bool)
      requires Valid()
      modifies this, slots
      ensures Valid()
      ensures accepted <==> |old(Contents())| < QUEUE_CAPACITY
      ensures Contents() == if accepted then old(Contents()) + [r] else old(Contents())
    {
      accepted := length < QUEUE_CAPACITY;
      if accepted {
        LapPush(slots[..], head, length, r);
        slots[tail] := r;
        tail := (tail + 1) % QUEUE_CAPACITY;
        length := length + 1;
      }
    }

    /** Takes the oldest request, but only once its ownership is settled, and clears its slot. */
    method Pop() returns (popped: Option<Request>)
      requires Valid()
      modifies this, slots
      ensures Valid()
      ensures popped.Some? <==> old(Contents()) != [] && Drainable(old(Contents())[0])
      ensures popped.Some? ==> popped.value == old(Contents())[0] && Contents() == old(Contents())[1..]
      ensures popped.None? ==> Contents() == old(Contents())
    {
      if length == 0 || !Drainable(slots[head]) {
        assert length > 0 ==> Contents()[0] == slots[head];
        return None;
      }
      assert Contents()[0] == slots[head];
      popped := Some(slots[head]);
      LapPop(slots[..], head, length, CLEARED);
      slots[head] := CLEARED;
      head := (head + 1) % QUEUE_CAPACITY;
      length := length - 1;
    }
  }
}
