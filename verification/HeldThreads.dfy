/** The helper's table of traced threads, released and compacted in place. */
module HeldThreads {
  const MAX_THREADS: nat := 4096

  datatype Held = Held(tid: int, attached: bool, signal: int)

  /** What a ptrace detach comes to: released, refused because the thread is gone, or refused. */
  datatype Answer = Released | Vanished | Refused

  predicate Stays(h: Held, answer: int -> Answer) { h.attached && answer(h.tid) == Refused }

  /** The threads that could not be released, in their old order. */
  function Retained(threads: seq<Held>, answer: int -> Answer): (r: seq<Held>)
    ensures |r| <= |threads|
  {
    if threads == [] then []
    else
      var before, last := Retained(threads[..|threads| - 1], answer), threads[|threads| - 1];
      if Stays(last, answer) then before + [last] else before
  }

  /** A thread is retained exactly when it is attached and its detach was refused while it exists. */
  lemma {:induction false} RetainedExactly(threads: seq<Held>, answer: int -> Answer, h: Held)
    ensures h in Retained(threads, answer) <==> h in threads && Stays(h, answer)
  {
    if threads != [] {
      var n := |threads| - 1;
      RetainedExactly(threads[..n], answer, h);
      assert threads == threads[..n] + [threads[n]];
    }
  }

  lemma {:induction false} AllReleased(threads: seq<Held>, answer: int -> Answer)
    ensures Retained(threads, answer) == [] <==> forall i :: 0 <= i < |threads| ==> !Stays(threads[i], answer)
  {
    if threads != [] {
      var n := |threads| - 1;
      AllReleased(threads[..n], answer);
      assert forall i :: 0 <= i < n ==> threads[..n][i] == threads[i];
    }
  }

  lemma RetainsNext(threads: seq<Held>, n: nat, answer: int -> Answer)
    requires n < |threads|
    ensures Retained(threads[..n + 1], answer) == Retained(threads[..n], answer) + (if Stays(threads[n], answer) then [threads[n]] else [])
  {
    assert threads[..n + 1][..n] == threads[..n];
  }

  class Table {
    const slots: array<Held>
    var count: nat

    ghost predicate Valid()
      reads this, slots
    {
      slots.Length == MAX_THREADS && count <= slots.Length
    }

    ghost function Threads(): seq<Held>
      requires Valid()
      reads this, slots
    {
      slots[..count]
    }

    constructor ()
      ensures Valid() && fresh(slots) && Threads() == []
    {
      slots := new Held[MAX_THREADS](_ => Held(0, false, 0));
      count := 0;
    }

    /** Adds a seized thread while there is room. */
    method Add(tid: int) returns (added: bool)
      requires Valid()
      modifies this, slots
      ensures Valid()
      ensures added <==> |old(Threads())| < MAX_THREADS
      ensures Threads() == if added then old(Threads()) + [Held(tid, true, 0)] else old(Threads())
    {
      added := count < MAX_THREADS;
      if added {
        slots[count] := Held(tid, true, 0);
        count := count + 1;
      }
    }

    /** The position of a thread, or the count. */
    method Find(tid: int) returns (i: nat)
      requires Valid()
      ensures i <= count && (i < count ==> Threads()[i].tid == tid)
      ensures forall j :: 0 <= j < i ==> Threads()[j].tid != tid
    {
      i := 0;
      while i < count
        invariant 0 <= i <= count
        invariant forall j :: 0 <= j < i ==> slots[j].tid != tid
      {
        if slots[i].tid == tid {
          return;
        }
        i := i + 1;
      }
    }

    /** Detaches every thread and moves those that could not be released to the front. */
    method Release(answer: int -> Answer) returns (ok: bool)
      requires Valid()
      modifies this, slots
      ensures Valid() && Threads() == Retained(old(Threads()), answer)
      ensures ok <==> Threads() == []
    {
      var i, kept := 0, 0;
      ghost var was := slots[..count];
      while i < count
        invariant 0 <= kept <= i <= count == old(count)
        invariant slots[..kept] == Retained(was[..i], answer)
        invariant forall k :: i <= k < count ==> slots[k] == was[k]
      {
        RetainsNext(was, i, answer);
        if slots[i].attached && answer(slots[i].tid) == Refused {
          slots[kept] := slots[i];
          kept := kept + 1;
        }
        i := i + 1;
      }
      assert was[..i] == was;
      count, ok := kept, kept == 0;
    }
  }
}
