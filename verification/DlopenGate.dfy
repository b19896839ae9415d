/** The gate's critical sections as they run: a ring and counters updated in place under one mutex. */
module DlopenGate {
  import opened Common
  import opened DlopenQueue
  import opened DlopenOwnership

  class AttachGate {
    const ring: AttachRing
    var phase: Phase
    var pending: nat
    var callbacks: nat
    var drainActive: bool
    var nextTicket: nat
    var brokerRunning: bool
    var enqueued: nat
    var drained: nat
    var requeued: nat

    ghost predicate Valid()
      reads this, ring, ring.slots
    {
      ring.Valid()
    }

    /** The gate as the protocol's steps see it. */
    ghost function Value(): Gate
      requires Valid()
      reads this, ring, ring.slots
    {
      Gate(phase, ring.Contents(), pending, callbacks, drainActive, nextTicket, brokerRunning,
           enqueued, drained, requeued)
    }

    constructor ()
      ensures Valid() && fresh(ring) && fresh(ring.slots)
      ensures Value() == Gate(Closed, [], 0, 0, false, 1, false, 0, 0, 0)
    {
      ring := new AttachRing();
      phase, pending, callbacks, drainActive, nextTicket := Closed, 0, 0, false, 1;
      brokerRunning, enqueued, drained, requeued := false, 0, 0, 0;
    }

    /** Publishes a borrowed request for a freshly opened handle. */
    method Publish(h: Handle) returns (queued: bool)
      requires Valid()
      modifies this, ring, ring.slots
      ensures Valid()
      ensures Value() == Enqueue(old(Value()), h)
      ensures var g := old(Value());
        queued <==>
          && g.phase == Open && g.brokerRunning && |g.queue| < 256
          && forall i :: 0 <= i < |g.queue| && g.queue[i].state in {Borrowed, Pinning, Ready} ==> g.queue[i].source != h && g.queue[i].moduleToken != Some(h)
      ensures queued ==> var g := old(Value());
        && Value().queue == g.queue + [Request(Some(h), None, h, g.nextTicket, Borrowed, false, false, false)]
        && Value().nextTicket == g.nextTicket + 1 && Value().pending == g.pending + 1 && Value().enqueued == g.enqueued + 1
    {
      var duplicate := ring.Find(CoversHandle(h));
      if duplicate < ring.length || phase != Open || ring.length >= QUEUE_CAPACITY || !brokerRunning {
        return false;
      }
      queued := ring.Push(NewRequest(h, nextTicket));
      nextTicket, pending, enqueued := nextTicket + 1, pending + 1, enqueued + 1;
    }

    /** The slow path of an intercepted dlclose: hands the reference to a request that borrows it. */
    method AbsorbClose(h: Handle) returns (absorbed: bool)
      requires Valid()
      modifies this, ring, ring.slots
      ensures Valid()
      ensures absorbed <==> FirstWhere(old(Value()).queue, BorrowsHandle(h)) < |old(Value()).queue|
      ensures Value() == if absorbed
                         then Absorb(old(Value()), FirstWhere(old(Value()).queue, BorrowsHandle(h)), h)
                         else old(Value())
      ensures absorbed ==>
        var i := FirstWhere(old(Value()).queue, BorrowsHandle(h));
        var r, r' := old(Value()).queue[i], Value().queue[i];
        && r.source == h && r'.handle == Some(h) && r'.owned && r'.ticket == r.ticket && r'.retained == r.retained
        && (r'.state == Ready <==> r.state == Borrowed) && (r.state == Pinning ==> r'.state == Pinning && r'.transferred)
    {
      var i := ring.Find(BorrowsHandle(h));
      if i == ring.length {
        return false;
      }
      var r := ring.Get(i);
      if r.state == Borrowed {
        ring.Update(i, r.(handle := Some(h), moduleToken := Some(r.source), owned := true, state := Ready));
        pending := Resolve(pending, r);
      } else {
        ring.Update(i, r.(handle := Some(h), moduleToken := Some(r.source), owned := true, transferred := true));
      }
      absorbed := true;
    }

    /** The broker claims the oldest borrowed request. */
    method TakeBorrowed() returns (taken: Option<(nat, Handle)>)
      requires Valid()
      modifies ring.slots
      ensures Valid()
      ensures var i := FirstWhere(old(Value()).queue, IsBorrowed);
        if i < |old(Value()).queue| then
          var r := old(Value()).queue[i];
          && taken == Some((r.ticket, BorrowedHandle(r)))
          && Value() == StartPin(old(Value()), i)
        else taken == None && Value() == old(Value())
    {
      var i := ring.Find(IsBorrowed);
      if i == ring.length {
        return None;
      }
      var r := ring.Get(i);
      ring.Update(i, r.(state := Pinning));
      taken := Some((r.ticket, BorrowedHandle(r)));
    }

    /** The broker's access to the request with this ticket ends; says whether the pin was consumed. */
    method CommitPin(ticket: nat, pin: Option<Handle>) returns (consumed: bool)
      requires Valid()
      modifies this, ring.slots
      ensures Valid()
      ensures var i := FirstWhere(old(Value()).queue, HasTicket(ticket));
        && (consumed <==> i < |old(Value()).queue| && old(Value()).queue[i].state == Pinning
                          && !(old(Value()).queue[i].transferred && pin.Some?))
        && Value() == (if consumed then Commit(old(Value()), i, pin) else old(Value()))
        && (consumed ==>
          var r, r' := old(Value()).queue[i], Value().queue[i];
          && r'.ticket == ticket && (r'.state == Ready <==> r.transferred || pin.Some?) && (r'.state != Ready ==> r'.state == PinFailed)
          && r'.owned == (r'.state == Ready)
          && r'.handle == (if r.transferred then r.handle else pin))
    {
      var i := ring.Find(HasTicket(ticket));
      if i == ring.length {
        return false;
      }
      var r := ring.Get(i);
      if r.state != Pinning || (r.transferred && pin.Some?) {
        return false;
      }
      if r.transferred {
        ring.Update(i, r.(state := Ready, owned := true));
      } else if pin.Some? {
        ring.Update(i, r.(handle := pin, moduleToken := Some(TokenOf(pin.value)), state := Ready, owned := true));
      } else {
        ring.Update(i, r.(handle := None, moduleToken := None, state := PinFailed, owned := false));
      }
      pending := Resolve(pending, r);
      consumed := true;
    }

    /** Puts a request back for another pass, at the tail. */
    method Requeue(r: Request) returns (requeuedIt: bool)
      requires Valid()
      modifies this, ring, ring.slots
      ensures Valid()
      ensures requeuedIt <==> r.handle.Some? && r.owned && r.state == Ready && old(Value()).phase == Open && |old(Value()).queue| < 256
      ensures requeuedIt <==> CanRequeue(old(Value()), r)
      ensures Value() == if requeuedIt
                         then old(Value()).(queue := old(Value()).queue + [r], requeued := old(Value()).requeued + 1)
                         else old(Value())
    {
      if r.handle.None? || !r.owned || r.state != Ready || phase != Open || ring.length >= QUEUE_CAPACITY {
        return false;
      }
      requeuedIt := ring.Push(r);
      requeued := requeued + 1;
    }

    /** Opens a drain when nothing overlaps it and the oldest request is settled. */
    method BeginDrain() returns (begun: bool)
      requires Valid()
      modifies this
      ensures Valid()
      ensures var g := old(Value());
        begun <==> g.phase == Open && !g.drainActive && g.callbacks == 0 && g.queue != [] && g.queue[0].state in {Ready, PinFailed}
      ensures begun <==> CanBeginDrain(old(Value()))
      ensures Value() == if begun then old(Value()).(drainActive := true) else old(Value())
    {
      if phase != Open || drainActive || callbacks > 0 || ring.length == 0 {
        return false;
      }
      var oldest := ring.Get(0);
      begun := Drainable(oldest);
      if begun {
        drainActive := true;
      }
    }
  }
}
