/** The invariant of the signal ledger, that every step keeps it, and what it guarantees. */
module SignalLedgerProof {
  import opened Common
  import opened SignalLedger

  // ---------------------------------------------------------------------------------------------
  // The invariant
  // ---------------------------------------------------------------------------------------------

  /** Tickets are never reused, and no two unconsumed records name the same signal. */
  predicate RecordsOk(receipts: seq<Receipt>, next: nat, high: nat) {
    && (forall i :: 0 <= i < |receipts| && receipts[i].word.Record? ==> receipts[i].word.tag < next && i < high)
    && (forall i, j :: 0 <= i < j < |receipts| && receipts[i].word.Record? && receipts[j].word.Record? ==>
          receipts[i].word.tag != receipts[j].word.tag)
    && (forall i, j :: 0 <= i < j < |receipts| && Unconsumed(receipts[i]) && Unconsumed(receipts[j]) ==>
          !Names(receipts[i], receipts[j].epoch, receipts[j].tid, receipts[j].signum))
  }

  predicate IsFlagging(c: Controller, index: nat, tag: nat) { c == Flagging(Ref(index, tag)) }

  /** The record of a live signal: unmarked, its own, and retired once the epoch is no longer held. */
  predicate RecordOf(sig: Signal, r: Receipt, c: Controller, hold: nat) {
    && Tagged(r.word, sig.tag) && !r.word.seen && Names(r, sig.epoch, sig.tid, sig.signum)
    && (r.word.sent || IsFlagging(c, sig.index, sig.tag))
    && (hold != sig.epoch ==> r.word.sent && r.word.retired)
  }

  /** A word read earlier: flags are only added, and the ticket tells whether the record was reused. */
  predicate Later(word: Word, now: Word) {
    word.Record? && (Tagged(now, word.tag) ==>
      (word.sent ==> now.sent) && (word.seen ==> now.seen) && (word.retired ==> now.retired))
  }

  predicate HasRead(p: Phase) { p.AskingEpoch? || p.AskingTid? || p.AskingSignum? || p.Swapping? }

  /** What the handler found in the record it looks at stays true for as long as the record keeps its ticket. */
  predicate FoundOk(sig: Signal, p: Phase, r: Receipt)
    requires HasRead(p) && p.word.Record?
  {
    Tagged(r.word, p.word.tag) ==>
      && (p.AskingTid? || p.AskingSignum? || p.Swapping? ==> r.epoch == sig.epoch)
      && (p.AskingSignum? || p.Swapping? ==> r.tid == sig.tid)
      && (p.Swapping? ==> r.signum == sig.signum)
  }

  predicate IsRetired(word: Word) { word.Record? && word.sent && word.retired }

  /** The handler has not passed its signal's record. */
  predicate PhaseOk(sig: Signal, p: Phase, receipts: seq<Receipt>, next: nat)
    requires sig.index < |receipts|
  {
    p.InFlight? || p.Started? || (p.Compared? && (!p.own ==> IsRetired(receipts[sig.index].word))) ||
      (&& !p.Compared? && p.i <= sig.index
       && (p.mode.RetiredOnly? ==> IsRetired(receipts[sig.index].word))
       && (HasRead(p) ==>
             && p.word.Record? && p.word.tag < next && Later(p.word, receipts[p.i].word) && FoundOk(sig, p, receipts[p.i])
             && (p.i == sig.index ==> p.word.tag == sig.tag)
             && (p.i == sig.index || p.Swapping? ==> MayMark(p.word, p.mode))))
  }

  predicate SignalOk(sig: Signal, receipts: seq<Receipt>, c: Controller, hold: nat, backend: int, sentAny: bool, alive: set<int>) {
    && sig.index < |receipts| && sig.epoch != 0 && sig.tid in alive
    && RecordOf(sig, receipts[sig.index], c, hold)
    && (hold == sig.epoch ==> sig.signum == backend && sentAny)
  }

  predicate LiveOk(s: State) {
    forall sig :: sig in s.live ==>
      && SignalOk(sig, s.receipts, s.controller, s.hold, s.backend, s.sentAny, s.alive)
      && PhaseOk(sig, s.live[sig], s.receipts, s.nextTicket)
  }

  predicate NoneLive(live: map<Signal, Phase>, tag: nat) { forall sig :: sig in live ==> sig.tag != tag }

  /** A reservation that was not sent: nobody can have marked it. */
  predicate Unsent(ref: Ref, receipts: seq<Receipt>, hold: nat, backend: int, live: map<Signal, Phase>) {
    && ref.index < |receipts| && Tagged(receipts[ref.index].word, ref.tag)
    && !receipts[ref.index].word.sent && !receipts[ref.index].word.seen && !receipts[ref.index].word.retired
    && receipts[ref.index].epoch == hold && receipts[ref.index].signum == backend
    && NoneLive(live, ref.tag)
  }

  predicate ReservedOk(reserved: set<Ref>, receipts: seq<Receipt>, hold: nat, backend: int, live: map<Signal, Phase>) {
    forall ref :: ref in reserved ==> Unsent(ref, receipts, hold, backend, live)
  }

  predicate Filling(c: Controller) { c.Dating? || c.Naming? || c.Numbering? || c.Publishing? }

  predicate ControllerOk(c: Controller, receipts: seq<Receipt>, hold: nat, backend: int, live: map<Signal, Phase>, next: nat, high: nat) {
    && (Filling(c) ==> hold != 0 && c.i < |receipts| && receipts[c.i].word.Vacant? && NoConflict(receipts, hold, c.tid, backend))
    && (c.Naming? || c.Numbering? || c.Publishing? ==> receipts[c.i].epoch == hold)
    && (c.Numbering? || c.Publishing? ==> receipts[c.i].tid == c.tid)
    && (c.Publishing? ==> receipts[c.i].signum == backend)
    && (c.Flagging? ==> hold != 0 && c.ref.index < |receipts| && c.ref.tag < next)
    && (c.Discarding? ==> c.ref.index < |receipts| && NoneLive(live, c.ref.tag))
    && (c.Retiring? ==> hold != 0 && RetiredUpTo(receipts, c.i, hold))
    && (c.Retired? ==> hold != 0 && RetiredUpTo(receipts, high, hold))
    && (c.Reaping? ==> c.i < |receipts| && c.word.Record? && c.word.sent && NoneLive(live, c.word.tag) && c.word.tag < next)
  }

  predicate RetiredUpTo(receipts: seq<Receipt>, n: nat, hold: nat) {
    forall i :: 0 <= i < n && i < |receipts| && receipts[i].word.Record? && receipts[i].epoch == hold ==>
      receipts[i].word.sent && receipts[i].word.retired
  }

  predicate Inv(s: State) {
    && |s.receipts| == MAX_RECORDS >= s.highWater && s.hold < s.nextEpoch
    && RecordsOk(s.receipts, s.nextTicket, s.highWater)
    && LiveOk(s)
    && (forall sig :: sig in s.live ==> sig.epoch < s.nextEpoch)
    && ReservedOk(s.reserved, s.receipts, s.hold, s.backend, s.live)
    && ControllerOk(s.controller, s.receipts, s.hold, s.backend, s.live, s.nextTicket, s.highWater)
    && (s.hold == 0 ==> s.reserved == {})
    && (s.controller.Flagging? || s.controller.Discarding? ==> s.controller.ref !in s.reserved)
    && s.missed == 0 && s.unexpected == 0
  }

  // ---------------------------------------------------------------------------------------------
  // Rewriting one record
  // ---------------------------------------------------------------------------------------------

  predicate FlagsKept(word: Word, word': Word)
    requires word.Record? && word'.Record?
  {
    (word.sent ==> word'.sent) && (word.seen ==> word'.seen) && (word.retired ==> word'.retired)
  }

  /** A record that keeps an old ticket keeps its identity and only gains flags. */
  predicate Evolves(r: Receipt, r': Receipt, next: nat) {
    r'.word.Record? && r'.word.tag < next ==>
      && Tagged(r.word, r'.word.tag) && FlagsKept(r.word, r'.word)
      && Names(r, r'.epoch, r'.tid, r'.signum)
  }

  lemma UpdateKeepsPhase(sig: Signal, p: Phase, receipts: seq<Receipt>, next: nat, i: nat, r: Receipt, next': nat)
    requires sig.index < |receipts| && PhaseOk(sig, p, receipts, next) && i < |receipts| && next <= next'
    requires Evolves(receipts[i], r, next)
    requires i == sig.index ==> Tagged(receipts[i].word, sig.tag) && Tagged(r.word, sig.tag) && sig.tag < next
    ensures PhaseOk(sig, p, receipts[i := r], next')
  {
  }

  lemma UpdateKeepsLive(s: State, s': State, i: nat, r: Receipt)
    requires LiveOk(s) && RecordsOk(s.receipts, s.nextTicket, s.highWater) && i < |s.receipts|
    requires s'.receipts == s.receipts[i := r] && s'.live == s.live && s.nextTicket <= s'.nextTicket
    requires s'.hold == s.hold && s'.backend == s.backend && s'.sentAny == s.sentAny && s'.alive == s.alive
    requires Evolves(s.receipts[i], r, s.nextTicket)
    requires forall sig :: sig in s.live ==> RecordOf(sig, s'.receipts[sig.index], s'.controller, s.hold)
    ensures LiveOk(s')
  {
    forall sig | sig in s.live ensures PhaseOk(sig, s.live[sig], s'.receipts, s'.nextTicket) {
      assert SignalOk(sig, s.receipts, s.controller, s.hold, s.backend, s.sentAny, s.alive);
      UpdateKeepsPhase(sig, s.live[sig], s.receipts, s.nextTicket, i, r, s'.nextTicket);
    }
  }

  /** The record of a live signal, by its ticket. */
  lemma LiveRecord(s: State, sig: Signal)
    requires Inv(s) && sig in s.live
    ensures sig.index < |s.receipts| && RecordOf(sig, s.receipts[sig.index], s.controller, s.hold) && sig.tag < s.nextTicket
    ensures sig.tid in s.alive
    ensures forall i :: 0 <= i < |s.receipts| && Tagged(s.receipts[i].word, sig.tag) ==> i == sig.index
  {
    assert SignalOk(sig, s.receipts, s.controller, s.hold, s.backend, s.sentAny, s.alive);
  }

  /** Vacating a record that no live signal needs. */
  lemma VacateKeeps(s: State, s': State, i: nat)
    requires Inv(s) && i < |s.receipts|
    requires s' == s.(receipts := SetWord(s.receipts, i, Vacant), controller := s'.controller, reserved := s'.reserved)
    requires !s.controller.Flagging?
    requires s.receipts[i].word.Record? ==> NoneLive(s.live, s.receipts[i].word.tag)
    requires s'.reserved <= s.reserved && forall ref :: ref in s'.reserved ==> ref.index != i
    ensures RecordsOk(s'.receipts, s'.nextTicket, s'.highWater) && LiveOk(s')
    ensures ReservedOk(s'.reserved, s'.receipts, s'.hold, s'.backend, s'.live)
  {
    forall sig | sig in s.live ensures RecordOf(sig, s'.receipts[sig.index], s'.controller, s.hold) {
      LiveRecord(s, sig);
    }
    UpdateKeepsLive(s, s', i, s.receipts[i].(word := Vacant));
  }

  // ---------------------------------------------------------------------------------------------
  // Reserving
  // ---------------------------------------------------------------------------------------------

  lemma KeepsReserveTake(s: State, i: nat, tid: int)
    requires Inv(s) && s.controller.Ready? && s.hold != 0 && i < |s.receipts| && Reclaimable(s.receipts[i].word)
    requires NoConflict(s.receipts, s.hold, tid, s.backend)
    ensures Inv(ReserveTake(s, i, tid))
  {
    forall sig | sig in s.live && s.receipts[i].word.Record? ensures sig.tag != s.receipts[i].word.tag {
      LiveRecord(s, sig);
    }
    forall ref | ref in s.reserved ensures ref.index != i {
      assert Unsent(ref, s.receipts, s.hold, s.backend, s.live);
    }
    VacateKeeps(s, ReserveTake(s, i, tid), i);
  }

  /** Writing a field of a vacant record changes nothing for anyone. */
  lemma FillKeeps(s: State, s': State, i: nat, r: Receipt)
    requires Inv(s) && Filling(s.controller) && s.controller.i == i && r.word.Vacant?
    requires s' == s.(receipts := s.receipts[i := r], controller := s'.controller) && !s'.controller.Flagging?
    ensures RecordsOk(s'.receipts, s'.nextTicket, s'.highWater) && LiveOk(s')
    ensures ReservedOk(s'.reserved, s'.receipts, s'.hold, s'.backend, s'.live)
    ensures NoConflict(s'.receipts, s.hold, s.controller.tid, s.backend)
  {
    forall sig | sig in s.live ensures RecordOf(sig, s'.receipts[sig.index], s'.controller, s.hold) {
      LiveRecord(s, sig);
    }
    UpdateKeepsLive(s, s', i, r);
    forall ref | ref in s.reserved ensures Unsent(ref, s'.receipts, s.hold, s.backend, s.live) {
      assert Unsent(ref, s.receipts, s.hold, s.backend, s.live);
    }
  }

  lemma KeepsFill(s: State)
    requires Inv(s) && (s.controller.Dating? || s.controller.Naming? || s.controller.Numbering?)
    ensures s.controller.Dating? ==> Inv(ReserveDate(s))
    ensures s.controller.Naming? ==> Inv(ReserveName(s))
    ensures s.controller.Numbering? ==> Inv(ReserveNumber(s))
  {
    var i := s.controller.i;
    var s' := if s.controller.Dating? then ReserveDate(s) else if s.controller.Naming? then ReserveName(s) else ReserveNumber(s);
    FillKeeps(s, s', i, s'.receipts[i]);
  }

  lemma PublishKeepsRecords(receipts: seq<Receipt>, next: nat, high: nat, i: nat, hold: nat, tid: int, backend: int)
    requires RecordsOk(receipts, next, high) && i < |receipts| && receipts[i].word.Vacant?
    requires Names(receipts[i], hold, tid, backend) && NoConflict(receipts, hold, tid, backend)
    ensures RecordsOk(SetWord(receipts, i, Record(next, false, false, false)), next + 1, if high < i + 1 then i + 1 else high)
  {
  }

  lemma KeepsPublish(s: State)
    requires Inv(s) && s.controller.Publishing?
    ensures Inv(ReservePublish(s))
  {
    var i, s' := s.controller.i, ReservePublish(s);
    PublishKeepsRecords(s.receipts, s.nextTicket, s.highWater, i, s.hold, s.controller.tid, s.backend);
    forall sig | sig in s.live
      ensures RecordOf(sig, s'.receipts[sig.index], s'.controller, s.hold) && sig.tag != s.nextTicket
    {
      LiveRecord(s, sig);
    }
    UpdateKeepsLive(s, s', i, s'.receipts[i]);
    forall ref | ref in s'.reserved ensures Unsent(ref, s'.receipts, s.hold, s.backend, s.live) {
      if ref in s.reserved { assert Unsent(ref, s.receipts, s.hold, s.backend, s.live); }
    }
  }

  lemma ReserveKeeps(s: State, s': State)
    requires Inv(s) && ReserveStep(s, s')
    ensures Inv(s')
  {
    if s.controller.Ready? {
      var i, tid :| 0 <= i < |s.receipts| && Reclaimable(s.receipts[i].word)
        && NoConflict(s.receipts, s.hold, tid, s.backend) && s' == ReserveTake(s, i, tid);
      KeepsReserveTake(s, i, tid);
    } else if s.controller.Publishing? {
      KeepsPublish(s);
    } else {
      KeepsFill(s);
    }
  }

  // ---------------------------------------------------------------------------------------------
  // Sending
  // ---------------------------------------------------------------------------------------------

  lemma KeepsSendOk(s: State, ref: Ref)
    requires Inv(s) && s.controller.Ready? && CanReach(s, ref)
    ensures Inv(SendOk(s, ref))
  {
    var s', sent := SendOk(s, ref), SignalOf(s, ref);
    assert Unsent(ref, s.receipts, s.hold, s.backend, s.live);
    forall sig | sig in s'.live
      ensures SignalOk(sig, s.receipts, s'.controller, s.hold, s.backend, s'.sentAny, s.alive)
      ensures PhaseOk(sig, s'.live[sig], s.receipts, s.nextTicket)
    {
      if sig != sent { LiveRecord(s, sig); }
    }
    forall other | other in s'.reserved ensures Unsent(other, s.receipts, s.hold, s.backend, s'.live) {
      assert Unsent(other, s.receipts, s.hold, s.backend, s.live);
    }
  }

  lemma KeepsDrop(s: State, ref: Ref)
    requires Inv(s) && s.controller.Ready? && ref in s.reserved
    ensures Inv(Drop(s, ref))
  {
    var s' := Drop(s, ref);
    assert Unsent(ref, s.receipts, s.hold, s.backend, s.live);
    forall sig | sig in s.live ensures SignalOk(sig, s.receipts, s'.controller, s.hold, s.backend, s.sentAny, s.alive) {
      LiveRecord(s, sig);
    }
  }

  lemma FlagKeepsRecords(receipts: seq<Receipt>, next: nat, high: nat, i: nat, word: Word)
    requires RecordsOk(receipts, next, high) && i < |receipts| && receipts[i].word.Record?
    requires Tagged(word, receipts[i].word.tag) && (receipts[i].word.seen ==> word.seen)
    ensures RecordsOk(SetWord(receipts, i, word), next, high)
  {
  }

  lemma KeepsFlag(s: State)
    requires Inv(s) && s.controller.Flagging?
    ensures Inv(Flag(s))
  {
    var ref, s' := s.controller.ref, Flag(s);
    var i, r := ref.index, s'.receipts[ref.index];
    if Tagged(s.receipts[i].word, ref.tag) {
      FlagKeepsRecords(s.receipts, s.nextTicket, s.highWater, i, r.word);
    }
    assert s'.receipts == s.receipts[i := r];
    forall sig | sig in s.live ensures RecordOf(sig, s'.receipts[sig.index], s'.controller, s.hold) {
      LiveRecord(s, sig);
    }
    UpdateKeepsLive(s, s', i, r);
    forall other | other in s.reserved ensures Unsent(other, s'.receipts, s.hold, s.backend, s.live) {
      assert Unsent(other, s.receipts, s.hold, s.backend, s.live);
    }
  }

  lemma KeepsDiscard(s: State)
    requires Inv(s) && s.controller.Discarding?
    ensures Inv(Discard(s))
  {
    var ref, s' := s.controller.ref, Discard(s);
    forall other | other in s.reserved ensures Tagged(s.receipts[ref.index].word, ref.tag) ==> other.index != ref.index {
      assert Unsent(other, s.receipts, s.hold, s.backend, s.live);
    }
    if Tagged(s.receipts[ref.index].word, ref.tag) {
      VacateKeeps(s, s', ref.index);
    } else {
      forall sig | sig in s.live ensures SignalOk(sig, s.receipts, s'.controller, s.hold, s.backend, s.sentAny, s.alive) {
        LiveRecord(s, sig);
      }
    }
  }

  lemma SendKeeps(s: State, s': State)
    requires Inv(s) && SendStep(s, s')
    ensures Inv(s')
  {
    if ref :| s.controller.Ready? && CanReach(s, ref) && s' == SendOk(s, ref) {
      KeepsSendOk(s, ref);
    } else if ref :| s.controller.Ready? && ref in s.reserved && s' == Drop(s, ref) {
      KeepsDrop(s, ref);
    } else if s.controller.Flagging? {
      KeepsFlag(s);
    } else {
      KeepsDiscard(s);
    }
  }

  // ---------------------------------------------------------------------------------------------
  // Holding, retiring and reaping
  // ---------------------------------------------------------------------------------------------

  lemma LiveSame(s: State, s': State)
    requires Inv(s) && s' == s.(controller := s'.controller, hold := s'.hold, nextEpoch := s'.nextEpoch, sentAny := s'.sentAny, backend := s'.backend)
    requires !s.controller.Flagging?
    requires forall sig :: sig in s.live && s'.hold != sig.epoch ==>
      s.hold != sig.epoch || (s.receipts[sig.index].word.Record? && s.receipts[sig.index].word.sent && s.receipts[sig.index].word.retired)
    requires forall sig :: sig in s.live && s'.hold == sig.epoch ==> s.hold == s'.hold && s'.backend == s.backend && s'.sentAny == s.sentAny
    ensures LiveOk(s')
  {
    forall sig | sig in s.live ensures SignalOk(sig, s.receipts, s'.controller, s'.hold, s'.backend, s'.sentAny, s.alive) {
      LiveRecord(s, sig);
    }
  }

  lemma KeepsStopBegin(s: State, backend: int)
    requires Inv(s) && s.controller.Ready? && s.hold == 0
    ensures Inv(StopBegin(s)) && Inv(s.(backend := backend))
  {
    forall sig | sig in s.live ensures sig.epoch != 0 {
      assert SignalOk(sig, s.receipts, s.controller, s.hold, s.backend, s.sentAny, s.alive);
    }
    LiveSame(s, StopBegin(s));
    LiveSame(s, s.(backend := backend));
  }

  lemma RetireKeepsRecords(receipts: seq<Receipt>, next: nat, high: nat, i: nat, word: Word)
    requires RecordsOk(receipts, next, high) && i < |receipts|
    requires word == receipts[i].word || word == RetiredWord(receipts[i].word)
    ensures RecordsOk(SetWord(receipts, i, word), next, high)
  {
  }

  lemma KeepsRetireNext(s: State)
    requires Inv(s) && s.controller.Retiring? && s.controller.i < |s.receipts|
    ensures Inv(RetireNext(s))
  {
    var i, s' := s.controller.i, RetireNext(s);
    var r, r' := s.receipts[i], s'.receipts[i];
    assert s'.receipts == s.receipts[i := r'];
    RetireKeepsRecords(s.receipts, s.nextTicket, s.highWater, i, r'.word);
    forall sig | sig in s.live ensures RecordOf(sig, s'.receipts[sig.index], s'.controller, s.hold) {
      LiveRecord(s, sig);
    }
    UpdateKeepsLive(s, s', i, r');
    forall ref | ref in s'.reserved ensures Unsent(ref, s'.receipts, s.hold, s.backend, s.live) {
      assert Unsent(ref, s.receipts, s.hold, s.backend, s.live);
    }
  }

  /** Once the epoch is retired, no reservation is left and every live signal of it has a retired record. */
  lemma RetiredEverything(s: State)
    requires Inv(s) && s.controller.Retired?
    ensures s.reserved == {}
    ensures forall sig :: sig in s.live && sig.epoch == s.hold ==>
      sig.index < |s.receipts| && s.receipts[sig.index].word.Record? && s.receipts[sig.index].word.sent && s.receipts[sig.index].word.retired
  {
    forall ref ensures ref !in s.reserved {
      assert ref in s.reserved ==> Unsent(ref, s.receipts, s.hold, s.backend, s.live);
    }
    forall sig | sig in s.live && sig.epoch == s.hold
      ensures sig.index < |s.receipts| && s.receipts[sig.index].word.Record? && s.receipts[sig.index].word.sent && s.receipts[sig.index].word.retired
    {
      LiveRecord(s, sig);
    }
  }

  lemma KeepsUnhold(s: State)
    requires Inv(s)
    requires s.controller.Retired? || (s.controller.Ready? && s.hold != 0 && !s.sentAny && s.reserved == {})
    ensures Inv(Unhold(s))
  {
    if s.controller.Retired? { RetiredEverything(s); }
    forall sig | sig in s.live ensures sig.epoch != 0 && (s.controller.Ready? ==> s.hold != sig.epoch) {
      assert SignalOk(sig, s.receipts, s.controller, s.hold, s.backend, s.sentAny, s.alive);
    }
    LiveSame(s, Unhold(s));
  }

  lemma KeepsReapProbe(s: State, i: nat)
    requires Inv(s) && s.controller.Ready? && Reapable(s, i)
    ensures Inv(ReapProbe(s, i))
  {
    forall sig | sig in s.live ensures sig.tag != s.receipts[i].word.tag {
      LiveRecord(s, sig);
    }
    LiveSame(s, ReapProbe(s, i));
  }

  lemma KeepsReapSwap(s: State)
    requires Inv(s) && s.controller.Reaping?
    ensures Inv(ReapSwap(s))
  {
    var c, s' := s.controller, ReapSwap(s);
    if s.receipts[c.i].word == c.word {
      forall ref | ref in s.reserved ensures ref.index != c.i {
        assert Unsent(ref, s.receipts, s.hold, s.backend, s.live);
      }
      VacateKeeps(s, s', c.i);
    } else {
      LiveSame(s, s');
    }
  }

  lemma KeepsRetireEnds(s: State)
    requires Inv(s)
    ensures s.controller.Ready? && s.hold != 0 ==> Inv(s.(controller := Retiring(0)))
    ensures s.controller.Retiring? && s.controller.i >= s.highWater ==> Inv(s.(controller := Retired))
  {
    if !s.controller.Flagging? {
      LiveSame(s, s.(controller := Retiring(0)));
      LiveSame(s, s.(controller := Retired));
    }
  }

  lemma HoldKeeps(s: State, s': State)
    requires Inv(s) && HoldStep(s, s')
    ensures Inv(s')
  {
    if s.controller.Ready? && s.hold == 0 && s' == StopBegin(s) { KeepsStopBegin(s, 0); }
    else if backend :| s.controller.Ready? && s.hold == 0 && s' == s.(backend := backend) { KeepsStopBegin(s, backend); }
    else if s.controller.Retiring? && s.controller.i < s.highWater { KeepsRetireNext(s); }
    else if s' == Unhold(s) && (s.controller.Retired? || (s.controller.Ready? && s.hold != 0 && !s.sentAny && s.reserved == {})) {
      KeepsUnhold(s);
    }
    else if i: nat :| s.controller.Ready? && Reapable(s, i) && s' == ReapProbe(s, i) { KeepsReapProbe(s, i); }
    else if s.controller.Reaping? { KeepsReapSwap(s); }
    else { KeepsRetireEnds(s); }
  }

  // ---------------------------------------------------------------------------------------------
  // Handlers
  // ---------------------------------------------------------------------------------------------

  lemma AdvanceIsOk(s: State, sig: Signal, q: Phase)
    requires Inv(s) && sig in s.live && Advance(s, sig, s.live[sig], q)
    ensures sig.index < |s.receipts| && PhaseOk(sig, q, s.receipts, s.nextTicket)
  {
    LiveRecord(s, sig);
    assert PhaseOk(sig, s.live[sig], s.receipts, s.nextTicket);
    assert SignalOk(sig, s.receipts, s.controller, s.hold, s.backend, s.sentAny, s.alive);
  }

  lemma KeepsAdvance(s: State, sig: Signal, q: Phase)
    requires Inv(s) && sig in s.live && Advance(s, sig, s.live[sig], q)
    ensures Inv(s.(live := s.live[sig := q]))
  {
    AdvanceIsOk(s, sig, q);
    var s' := s.(live := s.live[sig := q]);
    forall other | other in s'.live
      ensures SignalOk(other, s.receipts, s.controller, s.hold, s.backend, s.sentAny, s.alive)
    {
      assert other in s.live;
    }
    forall ref | ref in s.reserved ensures Unsent(ref, s.receipts, s.hold, s.backend, s'.live) {
      assert Unsent(ref, s.receipts, s.hold, s.backend, s.live);
    }
  }

  /** A handler whose swap succeeds marks the record of its own signal. */
  lemma MarksItsOwn(s: State, sig: Signal)
    requires Inv(s) && sig in s.live && s.live[sig].Swapping? && s.live[sig].i < |s.receipts|
    requires s.receipts[s.live[sig].i].word == s.live[sig].word
    ensures s.live[sig].i == sig.index && Tagged(s.live[sig].word, sig.tag)
  {
    LiveRecord(s, sig);
    assert PhaseOk(sig, s.live[sig], s.receipts, s.nextTicket);
  }

  lemma FewerLive(s: State, s': State)
    requires Inv(s) && s' == s.(live := s'.live, alive := s'.alive)
    requires forall sig :: sig in s'.live ==> sig in s.live && s'.live[sig] == s.live[sig] && sig.tid in s'.alive
    ensures Inv(s')
  {
    forall sig | sig in s'.live ensures SignalOk(sig, s.receipts, s.controller, s.hold, s.backend, s.sentAny, s'.alive) {
      assert SignalOk(sig, s.receipts, s.controller, s.hold, s.backend, s.sentAny, s.alive);
    }
    forall ref | ref in s.reserved ensures Unsent(ref, s.receipts, s.hold, s.backend, s'.live) {
      assert Unsent(ref, s.receipts, s.hold, s.backend, s.live);
    }
  }

  lemma MarkKeepsOthers(s: State, sig: Signal)
    requires Inv(s) && sig !in s.live && sig.index < |s.receipts| && Tagged(s.receipts[sig.index].word, sig.tag)
    requires Names(s.receipts[sig.index], sig.epoch, sig.tid, sig.signum)
    requires forall ref :: ref in s.reserved ==> ref.tag != sig.tag
    ensures Inv(s.(receipts := SetWord(s.receipts, sig.index, s.receipts[sig.index].word.(seen := true))))
  {
    var i := sig.index;
    var r := s.receipts[i].(word := s.receipts[i].word.(seen := true));
    var s' := s.(receipts := s.receipts[i := r]);
    FlagKeepsRecords(s.receipts, s.nextTicket, s.highWater, i, r.word);
    forall other | other in s.live ensures RecordOf(other, s'.receipts[other.index], s.controller, s.hold) {
      LiveRecord(s, other);
    }
    UpdateKeepsLive(s, s', i, r);
    forall ref | ref in s.reserved ensures Unsent(ref, s'.receipts, s.hold, s.backend, s.live) {
      assert Unsent(ref, s.receipts, s.hold, s.backend, s.live);
    }
  }

  lemma KeepsMark(s: State, sig: Signal)
    requires Inv(s) && sig in s.live && s.live[sig].Swapping? && s.live[sig].i < |s.receipts| && s.live[sig].word.Record?
    requires s.receipts[s.live[sig].i].word == s.live[sig].word
    ensures Inv(Mark(s, sig, s.live[sig].i, s.live[sig].word))
  {
    LiveRecord(s, sig);
    MarksItsOwn(s, sig);
    forall ref | ref in s.reserved ensures ref.tag != sig.tag {
      assert Unsent(ref, s.receipts, s.hold, s.backend, s.live);
    }
    var gone := s.(live := s.live - {sig});
    forall other | other in gone.live ensures other.tid in s.alive { LiveRecord(s, other); }
    FewerLive(s, gone);
    MarkKeepsOthers(gone, sig);
  }

  /** No handler reaches the end of the ledger with its signal unmarked. */
  lemma NeverMisses(s: State, sig: Signal)
    requires Inv(s) && sig in s.live
    ensures !(s.live[sig].Scanning? && s.live[sig].i >= |s.receipts|)
  {
    LiveRecord(s, sig);
    assert PhaseOk(sig, s.live[sig], s.receipts, s.nextTicket);
  }

  lemma KeepsThreads(s: State, tid: int)
    requires Inv(s)
    ensures Inv(s.(alive := s.alive + {tid})) && Inv(ThreadExit(s, tid))
  {
    forall sig | sig in s.live ensures sig.tid in s.alive { LiveRecord(s, sig); }
    FewerLive(s, s.(alive := s.alive + {tid}));
    FewerLive(s, ThreadExit(s, tid));
  }

  lemma HandlerKeeps(s: State, s': State)
    requires Inv(s) && HandlerStep(s, s')
    ensures Inv(s')
  {
    forall sig | sig in s.live ensures !(s.live[sig].Scanning? && s.live[sig].i >= |s.receipts|) { NeverMisses(s, sig); }
    if sig, q :| sig in s.live && Advance(s, sig, s.live[sig], q) && s' == s.(live := s.live[sig := q]) {
      KeepsAdvance(s, sig, q);
    } else if sig :| CanMark(s, sig) && s' == Mark(s, sig, s.live[sig].i, s.live[sig].word) {
      KeepsMark(s, sig);
    } else if tid :| s' == s.(alive := s.alive + {tid}) {
      KeepsThreads(s, tid);
    } else {
      var tid :| s' == ThreadExit(s, tid);
      KeepsThreads(s, tid);
    }
  }

  // ---------------------------------------------------------------------------------------------
  // Every run
  // ---------------------------------------------------------------------------------------------

  lemma NextKeeps(s: State, s': State)
    requires Inv(s) && Next(s, s')
    ensures Inv(s')
  {
    if ReserveStep(s, s') { ReserveKeeps(s, s'); }
    else if SendStep(s, s') { SendKeeps(s, s'); }
    else if HoldStep(s, s') { HoldKeeps(s, s'); }
    else { HandlerKeeps(s, s'); }
  }

  lemma RunKeeps(run: seq<State>, k: nat)
    requires IsRun(Init, Next, run) && k < |run|
    ensures Inv(run[k])
  {
    forall s, s' | Inv(s) && Next(s, s') ensures Inv(s') { NextKeeps(s, s'); }
    AlwaysOnRun(Init, Next, Inv, run, k);
  }

  /** A sent signal keeps its own unmarked record until its handler marks it or its thread exits. */
  lemma SentSignalKeepsItsRecord(run: seq<State>, k: nat, sig: Signal)
    requires IsRun(Init, Next, run) && k < |run| && sig in run[k].live
    ensures var s := run[k];
      && sig.index < |s.receipts| && Tagged(s.receipts[sig.index].word, sig.tag) && !s.receipts[sig.index].word.seen
      && Names(s.receipts[sig.index], sig.epoch, sig.tid, sig.signum)
      && (s.hold != sig.epoch ==> s.receipts[sig.index].word.sent && s.receipts[sig.index].word.retired)
  {
    RunKeeps(run, k);
    LiveRecord(run[k], sig);
  }

  /** No two unconsumed records name the same signal. */
  lemma IdentitiesAreUnique(run: seq<State>, k: nat, i: nat, j: nat)
    requires IsRun(Init, Next, run) && k < |run| && i < j < |run[k].receipts|
    requires Unconsumed(run[k].receipts[i]) && Unconsumed(run[k].receipts[j])
    ensures var r := run[k].receipts[j]; !Names(run[k].receipts[i], r.epoch, r.tid, r.signum)
  {
    RunKeeps(run, k);
  }

  /** A handler marks the record of its own signal and never a later allocation of the same storage. */
  lemma HandlerMarksItsOwnSignal(run: seq<State>, k: nat, sig: Signal)
    requires IsRun(Init, Next, run) && k < |run| && sig in run[k].live && run[k].live[sig].Swapping?
    requires run[k].live[sig].i < |run[k].receipts| && run[k].receipts[run[k].live[sig].i].word == run[k].live[sig].word
    ensures run[k].live[sig].i == sig.index && Tagged(run[k].live[sig].word, sig.tag)
  {
    RunKeeps(run, k);
    MarksItsOwn(run[k], sig);
  }

  /** Every delivered stop signal is accounted for, before or after its epoch is released. */
  lemma OwnedSignalsAreNeverUnexpected(run: seq<State>, k: nat)
    requires IsRun(Init, Next, run) && k < |run|
    ensures run[k].missed == 0 && run[k].unexpected == 0
  {
    RunKeeps(run, k);
  }

  // ---------------------------------------------------------------------------------------------
  // What the controller can begin, and how a handler looks
  // ---------------------------------------------------------------------------------------------

  /** While an epoch is held, a free or consumed record can be reserved for a thread without an unconsumed one. */
  lemma ReservationCanBegin(run: seq<State>, k: nat, i: nat, tid: int)
    requires IsRun(Init, Next, run) && k < |run| && run[k].controller.Ready? && run[k].hold != 0 && i < |run[k].receipts|
    requires var word := run[k].receipts[i].word; word.Vacant? || (word.sent && word.seen)
    requires forall j :: 0 <= j < |run[k].receipts| && run[k].receipts[j].word.Record? && !run[k].receipts[j].word.seen ==>
               run[k].receipts[j].epoch != run[k].hold || run[k].receipts[j].tid != tid || run[k].receipts[j].signum != run[k].backend
    ensures var s := run[k];
      Next(s, s.(receipts := s.receipts[i := s.receipts[i].(word := Vacant)], controller := Dating(i, tid)))
  {
    var s := run[k];
    assert Reclaimable(s.receipts[i].word) && NoConflict(s.receipts, s.hold, tid, s.backend);
    assert ReserveStep(s, ReserveTake(s, i, tid));
  }

  /** A reserved signal can be sent to a thread that exists; it is under way with the identity of its record. */
  lemma ReservedCanBeSent(run: seq<State>, k: nat, ref: Ref)
    requires IsRun(Init, Next, run) && k < |run| && run[k].controller.Ready? && ref in run[k].reserved
    ensures ref.index < |run[k].receipts|
    ensures var s, r := run[k], run[k].receipts[ref.index];
      r.tid in s.alive ==>
        Next(s, s.(live := s.live[Signal(r.epoch, r.tid, r.signum, ref.index, ref.tag) := InFlight], sentAny := true,
                   reserved := s.reserved - {ref}, controller := Flagging(ref)))
  {
    RunKeeps(run, k);
    var s := run[k];
    assert s.receipts[ref.index].tid in s.alive ==> CanReach(s, ref);
    assert s.receipts[ref.index].tid in s.alive ==> SendStep(s, SendOk(s, ref));
  }

  /** The retired record of a signal that no thread is left to handle can be reaped, which frees it. */
  lemma DeadRecordCanBeReaped(run: seq<State>, k: nat, i: nat)
    requires IsRun(Init, Next, run) && k < |run| && run[k].controller.Ready? && i < |run[k].receipts|
    requires var r := run[k].receipts[i];
      r.word.Record? && r.word.sent && r.word.retired && !r.word.seen && r.epoch != run[k].hold && r.tid !in run[k].alive
    ensures var s, word := run[k], run[k].receipts[i].word;
      var s' := s.(controller := Reaping(i, word));
      Next(s, s') && Next(s', s.(receipts := s.receipts[i := s.receipts[i].(word := Vacant)]))
  {
    var s := run[k];
    var s' := ReapProbe(s, i);
    assert Reapable(s, i);
    assert HoldStep(s, s');
    assert HoldStep(s', ReapSwap(s'));
  }

  /** A handler that finds its own epoch held may mark any record of its signal, any other one only a retired record. */
  lemma HandlerLooksExactly(run: seq<State>, k: nat, sig: Signal, q: Phase)
    requires IsRun(Init, Next, run) && k < |run| && sig in run[k].live && run[k].live[sig].Compared? && Advance(run[k], sig, run[k].live[sig], q)
    ensures var own := run[k].live[sig].own;
      q == Scanning(if own && run[k].hold == sig.epoch then AnyRecord else RetiredOnly(own), 0)
  {
    RunKeeps(run, k);
  }

  // ---------------------------------------------------------------------------------------------
  // Nobody is stuck
  // ---------------------------------------------------------------------------------------------

  /** A controller in the middle of an operation can always go on. */
  lemma ControllerCanStep(run: seq<State>, k: nat)
    requires IsRun(Init, Next, run) && k < |run| && !run[k].controller.Ready?
    ensures exists s' :: Next(run[k], s') && s'.controller != run[k].controller
  {
    RunKeeps(run, k);
    var s := run[k];
    var s' :=
      match s.controller
      case Dating(_, _) => ReserveDate(s)
      case Naming(_, _) => ReserveName(s)
      case Numbering(_, _) => ReserveNumber(s)
      case Publishing(_, _) => ReservePublish(s)
      case Flagging(_) => Flag(s)
      case Discarding(_) => Discard(s)
      case Retiring(i) => if i < s.highWater && i < |s.receipts| then RetireNext(s) else s.(controller := Retired)
      case Retired => Unhold(s)
      case Reaping(_, _) => ReapSwap(s);
    assert s'.controller != s.controller;
    assert ReserveStep(s, s') || SendStep(s, s') || HoldStep(s, s');
  }

  /** The handler of a signal under way can always go on: to its next look, to its mark, or to its end. */
  lemma HandlerCanStep(run: seq<State>, k: nat, sig: Signal)
    requires IsRun(Init, Next, run) && k < |run| && sig in run[k].live
    ensures CanMark(run[k], sig) || exists q :: Advance(run[k], sig, run[k].live[sig], q) && q != run[k].live[sig]
  {
    RunKeeps(run, k);
    PhaseCanStep(run[k], sig, run[k].live[sig]);
  }

  lemma PhaseCanStep(s: State, sig: Signal, p: Phase)
    requires sig in s.live && p == s.live[sig] && sig.index < |s.receipts| && PhaseOk(sig, p, s.receipts, s.nextTicket)
    ensures CanMark(s, sig) || exists q :: Advance(s, sig, p, q) && q != p
  {
    if !CanMark(s, sig) {
      var q :=
        match p
        case InFlight => Started
        case Started => Compared(sig.signum == s.backend)
        case Compared(own) => Scanning(ModeOf(own, s.hold, sig), 0)
        case Scanning(mode, i) => if s.receipts[i].word.Vacant? then Scanning(mode, i + 1) else AskingEpoch(mode, i, s.receipts[i].word)
        case AskingEpoch(mode, i, word) => if s.receipts[i].epoch != sig.epoch then Scanning(mode, i + 1) else AskingTid(mode, i, word)
        case AskingTid(mode, i, word) => if s.receipts[i].tid != sig.tid then Scanning(mode, i + 1) else AskingSignum(mode, i, word)
        case AskingSignum(mode, i, word) => if s.receipts[i].signum != sig.signum then Scanning(mode, i + 1) else TryWord(mode, i, word)
        case Swapping(mode, i, word) =>
          if Tagged(s.receipts[i].word, word.tag) then TryWord(mode, i, s.receipts[i].word) else Scanning(mode, i + 1);
      assert Advance(s, sig, p, q) && q != p;
    }
  }
}
