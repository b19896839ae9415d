/**
 * The ledger of stop signals. The controller reserves a record before each send and retires an
 * epoch's records before it drops the hold; handlers mark the record of the signal they run for. A
 * signal that was sent and not yet accounted for is `live`, with the position of its handler. One step
 * is one atomic access or one system call; a compare-and-swap loop that only retries is one step.
 */
module SignalLedger {

  const MAX_RECORDS: nat := 4096

  /** A record's state word: vacant, or an allocation ticket with its flags. */
  datatype Word = Vacant | Record(tag: nat, sent: bool, seen: bool, retired: bool)

  datatype Receipt = Receipt(word: Word, epoch: nat, tid: int, signum: int)

  /** A sent signal: what its cookie names, and the record that was reserved for it. */
  datatype Signal = Signal(epoch: nat, tid: int, signum: int, index: nat, tag: nat)

  /** A handler may mark any record, or only retired ones; `own` is whether its number was the reserved one. */
  datatype Mode = AnyRecord | RetiredOnly(own: bool)

  datatype Phase =
    | InFlight
    | Started
    | Compared(own: bool)         // has loaded the reserved signal number
    | Scanning(mode: Mode, i: nat)
    | AskingEpoch(mode: Mode, i: nat, word: Word)
    | AskingTid(mode: Mode, i: nat, word: Word)
    | AskingSignum(mode: Mode, i: nat, word: Word)
    | Swapping(mode: Mode, i: nat, word: Word)

  datatype Ref = Ref(index: nat, tag: nat)

  datatype Controller =
    | Ready
    | Dating(i: nat, tid: int)
    | Naming(i: nat, tid: int)
    | Numbering(i: nat, tid: int)
    | Publishing(i: nat, tid: int)
    | Flagging(ref: Ref)
    | Discarding(ref: Ref)
    | Retiring(i: nat)
    | Retired
    | Reaping(i: nat, word: Word)

  datatype State = State(
    receipts: seq<Receipt>,
    highWater: nat,
    nextTicket: nat,
    hold: nat,                    // the epoch being held, or 0
    nextEpoch: nat,
    backend: int,                 // the reserved signal number
    controller: Controller,
    reserved: set<Ref>,           // published records whose signal was not sent yet
    sentAny: bool,                // whether the held epoch sent a signal
    alive: set<int>,
    live: map<Signal, Phase>,
    missed: nat,                  // owned signals whose handler marked no record
    unexpected: nat)              // of those, the ones counted as unexpected deliveries

  // ---------------------------------------------------------------------------------------------
  // The controller
  // ---------------------------------------------------------------------------------------------

  predicate Unconsumed(r: Receipt) { r.word.Record? && !r.word.seen }

  predicate Names(r: Receipt, epoch: nat, tid: int, signum: int) {
    r.epoch == epoch && r.tid == tid && r.signum == signum
  }

  /** No record that a handler has not marked names this signal. */
  predicate NoConflict(receipts: seq<Receipt>, epoch: nat, tid: int, signum: int) {
    forall i :: 0 <= i < |receipts| && Unconsumed(receipts[i]) ==> !Names(receipts[i], epoch, tid, signum)
  }

  predicate Reclaimable(word: Word) { word.Vacant? || (word.sent && word.seen) }

  function SetWord(receipts: seq<Receipt>, i: nat, word: Word): seq<Receipt>
    requires i < |receipts|
  {
    receipts[i := receipts[i].(word := word)]
  }

  function StopBegin(s: State): State {
    s.(hold := s.nextEpoch, nextEpoch := s.nextEpoch + 1, sentAny := false)
  }

  /** Takes a vacant or fully consumed record for a new allocation. */
  function ReserveTake(s: State, i: nat, tid: int): State
    requires i < |s.receipts|
  {
    s.(receipts := SetWord(s.receipts, i, Vacant), controller := Dating(i, tid))
  }

  function ReserveDate(s: State): State
    requires s.controller.Dating? && s.controller.i < |s.receipts|
  {
    var c := s.controller;
    s.(receipts := s.receipts[c.i := s.receipts[c.i].(epoch := s.hold)], controller := Naming(c.i, c.tid))
  }

  function ReserveName(s: State): State
    requires s.controller.Naming? && s.controller.i < |s.receipts|
  {
    var c := s.controller;
    s.(receipts := s.receipts[c.i := s.receipts[c.i].(tid := c.tid)], controller := Numbering(c.i, c.tid))
  }

  function ReserveNumber(s: State): State
    requires s.controller.Numbering? && s.controller.i < |s.receipts|
  {
    var c := s.controller;
    s.(receipts := s.receipts[c.i := s.receipts[c.i].(signum := s.backend)], controller := Publishing(c.i, c.tid))
  }

  function ReservePublish(s: State): State
    requires s.controller.Publishing? && s.controller.i < |s.receipts|
  {
    var i := s.controller.i;
    s.(receipts := SetWord(s.receipts, i, Record(s.nextTicket, false, false, false)),
       highWater := if s.highWater < i + 1 then i + 1 else s.highWater,
       nextTicket := s.nextTicket + 1,
       reserved := s.reserved + {Ref(i, s.nextTicket)},
       controller := Ready)
  }

  function SignalOf(s: State, ref: Ref): Signal
    requires ref.index < |s.receipts|
  {
    var r := s.receipts[ref.index];
    Signal(r.epoch, r.tid, r.signum, ref.index, ref.tag)
  }

  function SendOk(s: State, ref: Ref): State
    requires ref.index < |s.receipts|
  {
    s.(live := s.live[SignalOf(s, ref) := InFlight], sentAny := true, reserved := s.reserved - {ref},
       controller := Flagging(ref))
  }

  function Drop(s: State, ref: Ref): State { s.(reserved := s.reserved - {ref}, controller := Discarding(ref)) }

  predicate Tagged(word: Word, tag: nat) { word.Record? && word.tag == tag }

  function Flag(s: State): State
    requires s.controller.Flagging? && s.controller.ref.index < |s.receipts|
  {
    var ref := s.controller.ref;
    var word := s.receipts[ref.index].word;
    s.(receipts := if Tagged(word, ref.tag) then SetWord(s.receipts, ref.index, word.(sent := true)) else s.receipts,
       controller := Ready)
  }

  function Discard(s: State): State
    requires s.controller.Discarding? && s.controller.ref.index < |s.receipts|
  {
    var ref := s.controller.ref;
    s.(receipts := if Tagged(s.receipts[ref.index].word, ref.tag) then SetWord(s.receipts, ref.index, Vacant) else s.receipts,
       controller := Ready)
  }

  function RetiredWord(word: Word): Word {
    if word.Record? && word.sent then word.(retired := true) else Vacant
  }

  function Without(reserved: set<Ref>, i: nat, dropped: bool): set<Ref> {
    set ref | ref in reserved && !(dropped && ref.index == i)
  }

  /** Keeps a sent record of the held epoch as retired and drops an unsent one. */
  function RetireNext(s: State): State
    requires s.controller.Retiring? && s.controller.i < |s.receipts|
  {
    var i := s.controller.i;
    var r := s.receipts[i];
    s.(receipts := if r.word.Record? && r.epoch == s.hold then SetWord(s.receipts, i, RetiredWord(r.word)) else s.receipts,
       reserved := Without(s.reserved, i, r.epoch == s.hold),
       controller := Retiring(i + 1))
  }

  function Unhold(s: State): State { s.(hold := 0, controller := Ready) }

  /** A retired record of an earlier epoch that was not marked and whose thread is gone. */
  predicate Reapable(s: State, i: nat) {
    && i < |s.receipts|
    && var r := s.receipts[i];
    && r.word.Record? && r.word.retired && r.word.sent && !r.word.seen
    && r.epoch != s.hold && r.tid !in s.alive
  }

  function ReapProbe(s: State, i: nat): State
    requires i < |s.receipts|
  {
    s.(controller := Reaping(i, s.receipts[i].word))
  }

  function ReapSwap(s: State): State
    requires s.controller.Reaping? && s.controller.i < |s.receipts|
  {
    var c := s.controller;
    s.(receipts := if s.receipts[c.i].word == c.word then SetWord(s.receipts, c.i, Vacant) else s.receipts,
       controller := Ready)
  }

  ghost predicate ReserveStep(s: State, s': State) {
    || (s.controller.Ready? && s.hold != 0
        && exists i, tid :: 0 <= i < |s.receipts| && Reclaimable(s.receipts[i].word)
             && NoConflict(s.receipts, s.hold, tid, s.backend) && s' == ReserveTake(s, i, tid))
    || (s.controller.Dating? && s.controller.i < |s.receipts| && s' == ReserveDate(s))
    || (s.controller.Naming? && s.controller.i < |s.receipts| && s' == ReserveName(s))
    || (s.controller.Numbering? && s.controller.i < |s.receipts| && s' == ReserveNumber(s))
    || (s.controller.Publishing? && s.controller.i < |s.receipts| && s' == ReservePublish(s))
  }

  predicate CanReach(s: State, ref: Ref) {
    ref in s.reserved && ref.index < |s.receipts| && s.receipts[ref.index].tid in s.alive
  }

  ghost predicate SendStep(s: State, s': State) {
    || (s.controller.Ready? && exists ref :: CanReach(s, ref) && s' == SendOk(s, ref))
    || (s.controller.Ready? && exists ref :: ref in s.reserved && s' == Drop(s, ref))
    || (s.controller.Flagging? && s.controller.ref.index < |s.receipts| && s' == Flag(s))
    || (s.controller.Discarding? && s.controller.ref.index < |s.receipts| && s' == Discard(s))
  }

  /** The hold is dropped after its epoch was retired, or when it sent nothing and discarded its reservations. */
  ghost predicate HoldStep(s: State, s': State) {
    || (s.controller.Ready? && s.hold == 0 && s' == StopBegin(s))
    || (s.controller.Ready? && s.hold == 0 && exists backend :: s' == s.(backend := backend))
    || (s.controller.Ready? && s.hold != 0 && s' == s.(controller := Retiring(0)))
    || (s.controller.Retiring? && s.controller.i < s.highWater && s.controller.i < |s.receipts| && s' == RetireNext(s))
    || (s.controller.Retiring? && s.controller.i >= s.highWater && s' == s.(controller := Retired))
    || (s.controller.Retired? && s' == Unhold(s))
    || (s.controller.Ready? && s.hold != 0 && !s.sentAny && s.reserved == {} && s' == Unhold(s))
    || (s.controller.Ready? && exists i: nat :: Reapable(s, i) && s' == ReapProbe(s, i))
    || (s.controller.Reaping? && s.controller.i < |s.receipts| && s' == ReapSwap(s))
  }

  // ---------------------------------------------------------------------------------------------
  // Handlers and threads
  // ---------------------------------------------------------------------------------------------

  predicate MayMark(word: Word, mode: Mode)
    requires word.Record?
  {
    !word.seen && (mode.RetiredOnly? ==> word.sent && word.retired)
  }

  /** What a handler that now finds this epoch held may mark. */
  function ModeOf(own: bool, hold: nat, sig: Signal): Mode {
    if !own || hold == 0 || hold != sig.epoch then RetiredOnly(own) else AnyRecord
  }

  /** What a handler does next with a word of the allocation it looks at. */
  function TryWord(mode: Mode, i: nat, word: Word): Phase
    requires word.Record?
  {
    if MayMark(word, mode) then Swapping(mode, i, word) else Scanning(mode, i + 1)
  }

  /** Steps of the signal's handler that change nothing but its position. */
  ghost predicate Advance(s: State, sig: Signal, p: Phase, q: Phase) {
    || (p.InFlight? && q == Started)
    || (p.Started? && q == Compared(sig.signum == s.backend))
    || (p.Compared? && q == Scanning(ModeOf(p.own, s.hold, sig), 0))
    || (p.Scanning? && p.i < |s.receipts| &&
        q == if s.receipts[p.i].word.Vacant? then Scanning(p.mode, p.i + 1)
             else AskingEpoch(p.mode, p.i, s.receipts[p.i].word))
    || (p.AskingEpoch? && p.i < |s.receipts| &&
        q == if s.receipts[p.i].epoch != sig.epoch then Scanning(p.mode, p.i + 1)
             else AskingTid(p.mode, p.i, p.word))
    || (p.AskingTid? && p.i < |s.receipts| &&
        q == if s.receipts[p.i].tid != sig.tid then Scanning(p.mode, p.i + 1)
             else AskingSignum(p.mode, p.i, p.word))
    || (p.AskingSignum? && p.i < |s.receipts| && p.word.Record? &&
        q == if s.receipts[p.i].signum != sig.signum then Scanning(p.mode, p.i + 1)
             else TryWord(p.mode, p.i, p.word))
    || (p.Swapping? && p.i < |s.receipts| && p.word.Record? && s.receipts[p.i].word != p.word &&
        q == if Tagged(s.receipts[p.i].word, p.word.tag) then TryWord(p.mode, p.i, s.receipts[p.i].word)
             else Scanning(p.mode, p.i + 1))
  }

  /** The swap finds the word unchanged. */
  predicate CanMark(s: State, sig: Signal) {
    && sig in s.live && s.live[sig].Swapping? && s.live[sig].word.Record?
    && s.live[sig].i < |s.receipts| && s.receipts[s.live[sig].i].word == s.live[sig].word
  }

  function Mark(s: State, sig: Signal, i: nat, word: Word): State
    requires i < |s.receipts| && word.Record?
  {
    s.(receipts := SetWord(s.receipts, i, word.(seen := true)), live := s.live - {sig})
  }

  /** A handler that marked nothing; only one limited to retired records counts the delivery as unexpected. */
  function Miss(s: State, sig: Signal, mode: Mode): State {
    s.(live := s.live - {sig}, missed := s.missed + 1,
       unexpected := if mode.RetiredOnly? && mode.own then s.unexpected + 1 else s.unexpected)
  }

  function ThreadExit(s: State, tid: int): State {
    s.(alive := s.alive - {tid}, live := map sig | sig in s.live && sig.tid != tid :: s.live[sig])
  }

  ghost predicate HandlerStep(s: State, s': State) {
    || (exists sig, q :: sig in s.live && Advance(s, sig, s.live[sig], q) && s' == s.(live := s.live[sig := q]))
    || (exists sig :: CanMark(s, sig) && s' == Mark(s, sig, s.live[sig].i, s.live[sig].word))
    || (exists sig :: sig in s.live && s.live[sig].Scanning? && s.live[sig].i >= |s.receipts|
          && s' == Miss(s, sig, s.live[sig].mode))
    || (exists tid :: s' == s.(alive := s.alive + {tid}))
    || (exists tid :: s' == ThreadExit(s, tid))
  }

  // ---------------------------------------------------------------------------------------------
  // The system
  // ---------------------------------------------------------------------------------------------

  ghost predicate Init(s: State) {
    && |s.receipts| == MAX_RECORDS && (forall i :: 0 <= i < MAX_RECORDS ==> s.receipts[i].word == Vacant)
    && s.highWater == 0 && s.nextTicket == 1 && s.hold == 0 && s.nextEpoch == 1
    && s.controller == Ready && s.reserved == {} && !s.sentAny && s.live == map[]
    && s.missed == 0 && s.unexpected == 0
  }

  ghost predicate Next(s: State, s': State) {
    ReserveStep(s, s') || SendStep(s, s') || HoldStep(s, s') || HandlerStep(s, s')
  }
}
