/**
 * Deciding from the memory map whether a range is readable: a streaming line splitter over whatever
 * chunks the kernel returns, an overflow-checked hexadecimal parser, and a coverage loop.
 */
module MapsScan {
  import opened Common

  const MAX_ADDRESS: nat := 0xFFFF_FFFF_FFFF_FFFF
  const MAX_LINE: nat := 1023

  datatype Verdict = Valid | Invalid | Unknown

  /** One answer of the read call; an empty chunk is the end of the file. */
  datatype Read = Data(bytes: string) | Interrupted | ReadError

  datatype Mapping = Mapping(start: nat, end: nat, readable: bool)

  // ---------------------------------------------------------------------------------------------
  // Hexadecimal numbers and map lines
  // ---------------------------------------------------------------------------------------------

  function Digit(ch: char): int {
    if '0' <= ch <= '9' then ch as int - '0' as int
    else if 'a' <= ch <= 'f' then ch as int - 'a' as int + 10
    else if 'A' <= ch <= 'F' then ch as int - 'A' as int + 10
    else -1
  }

  predicate IsDigit(ch: char) { Digit(ch) >= 0 }

  /** How many digits the text has from `from` on. */
  function Digits(text: string, from: nat): (n: nat)
    requires from <= |text|
    ensures from + n <= |text|
    ensures forall k :: from <= k < from + n ==> IsDigit(text[k])
    ensures from + n < |text| ==> !IsDigit(text[from + n])
    decreases |text| - from
  {
    if from < |text| && IsDigit(text[from]) then 1 + Digits(text, from + 1) else 0
  }

  function DigitValue(ch: char): nat { if IsDigit(ch) then Digit(ch) else 0 }

  /** The number the digits spell, without any bound. */
  function Value(digits: string): nat {
    if digits == "" then 0 else Value(digits[..|digits| - 1]) * 16 + DigitValue(digits[|digits| - 1])
  }

  /** The number at `from` and the position after it; nothing without digits or with a number too large. */
  function ParsedHex(text: string, from: nat): Option<(nat, nat)>
    requires from <= |text|
  {
    var n := Digits(text, from);
    if n == 0 || Value(text[from..from + n]) > MAX_ADDRESS then None
    else Some((Value(text[from..from + n]), from + n))
  }

  /** A prefix of a number is no larger than the number. */
  lemma {:induction false} PrefixIsSmaller(digits: string, n: nat)
    requires n <= |digits|
    ensures Value(digits[..n]) <= Value(digits)
    decreases |digits|
  {
    if n < |digits| {
      var most := digits[..|digits| - 1];
      assert most[..n] == digits[..n];
      PrefixIsSmaller(most, n);
    } else {
      assert digits[..n] == digits;
    }
  }

  lemma {:induction false} OneDigitMore(text: string, from: nat, n: nat)
    requires from + n < |text| && n < Digits(text, from)
    ensures Value(text[from..from + n + 1]) == Value(text[from..from + n]) * 16 + DigitValue(text[from + n])
  {
    assert text[from..from + n + 1][..n] == text[from..from + n];
  }

  /** The test before a digit is added is exactly that the sum would not fit. */
  lemma OverflowTest(value: nat, digit: nat)
    requires digit < 16
    ensures value > (MAX_ADDRESS - digit) / 16 <==> value * 16 + digit > MAX_ADDRESS
  {
  }

  lemma DigitRange(ch: char)
    requires IsDigit(ch)
    ensures DigitValue(ch) == Digit(ch) < 16
  {
  }

  /** A number is refused as soon as a prefix of it does not fit. */
  lemma {:induction false} TooLarge(text: string, from: nat, n: nat)
    requires from <= |text| && n <= Digits(text, from) && Value(text[from..from + n]) > MAX_ADDRESS
    ensures ParsedHex(text, from) == None
  {
    var run := text[from..from + Digits(text, from)];
    assert run[..n] == text[from..from + n];
    PrefixIsSmaller(run, n);
  }

  /** One more digit: the number does not fit and is refused, or grows by the digit. */
  lemma {:induction false} DigitStep(text: string, from: nat, n: nat, value: nat, digit: int)
    requires from + n < |text| && n < Digits(text, from)
    requires value == Value(text[from..from + n]) && digit == Digit(text[from + n])
    ensures 0 <= digit < 16
    ensures value > (MAX_ADDRESS - digit) / 16 ==> ParsedHex(text, from) == None
    ensures value <= (MAX_ADDRESS - digit) / 16 ==> value * 16 + digit == Value(text[from..from + n + 1]) <= MAX_ADDRESS
  {
    DigitRange(text[from + n]);
    OneDigitMore(text, from, n);
    OverflowTest(value, digit);
    if value > (MAX_ADDRESS - digit) / 16 {
      TooLarge(text, from, n + 1);
    }
  }

  /** Reads a number digit by digit; the overflow test refuses exactly the numbers that do not fit. */
  method ParseHex(text: string, from: nat) returns (parsed: Option<(nat, nat)>)
    requires from <= |text|
    ensures parsed == ParsedHex(text, from)
  {
    var cursor, value := from, 0;
    ghost var end := from + Digits(text, from);
    while cursor < |text|
      invariant from <= cursor <= end
      invariant value == Value(text[from..cursor]) <= MAX_ADDRESS
    {
      var digit := Digit(text[cursor]);
      if digit < 0 {
        break;
      }
      DigitStep(text, from, cursor - from, value, digit);
      if value > (MAX_ADDRESS - digit) / 16 {
        return None;
      }
      value, cursor := value * 16 + digit, cursor + 1;
    }
    if cursor == from {
      return None;
    }
    parsed := Some((value, cursor));
  }

  /** `start-end perms...`, with a non-empty range. */
  function ParsedLine(line: string): Option<Mapping> {
    match ParsedHex(line, 0)
    case None => None
    case Some((start, dash)) =>
      if dash >= |line| || line[dash] != '-' then None
      else match ParsedHex(line, dash + 1)
        case None => None
        case Some((end, space)) =>
          if space >= |line| || line[space] != ' ' then None
          else if space + 1 >= |line| || end <= start then None
          else Some(Mapping(start, end, line[space + 1] == 'r'))
  }

  method ParseLine(line: string) returns (parsed: Option<Mapping>)
    ensures parsed == ParsedLine(line)
  {
    var first := ParseHex(line, 0);
    if first.None? || first.value.1 >= |line| || line[first.value.1] != '-' {
      return None;
    }
    var second := ParseHex(line, first.value.1 + 1);
    if second.None? || second.value.1 >= |line| || line[second.value.1] != ' ' {
      return None;
    }
    var perms := second.value.1 + 1;
    if perms >= |line| || second.value.0 <= first.value.0 {
      return None;
    }
    parsed := Some(Mapping(first.value.0, second.value.0, line[perms] == 'r'));
  }

  // ---------------------------------------------------------------------------------------------
  // Lines and coverage
  // ---------------------------------------------------------------------------------------------

  /** What the answers deliver before the end of the file or an error. */
  function Text(answers: seq<Read>): string {
    if answers == [] then ""
    else match answers[0]
      case Interrupted => Text(answers[1..])
      case ReadError => ""
      case Data(bytes) => if bytes == "" then "" else bytes + Text(answers[1..])
  }

  /** The text after its last newline. */
  function Partial(text: string): string {
    if text == "" || text[|text| - 1] == '\n' then "" else Partial(text[..|text| - 1]) + [text[|text| - 1]]
  }

  /** The mapping a line lists; a line that is too long or malformed lists none. */
  function Entry(line: string): Option<Mapping> { if |line| > MAX_LINE then None else ParsedLine(line) }

  /** What the newline-terminated lines list, in order. */
  function Entries(text: string): seq<Option<Mapping>> {
    if text == "" then []
    else
      var before := text[..|text| - 1];
      if text[|text| - 1] == '\n' then Entries(before) + [Entry(Partial(before))] else Entries(before)
  }

  /** Coverage so far: everything before `covered` is readable, or the verdict is in. */
  datatype Progress = Going(covered: nat) | Ended(verdict: Verdict)

  function Min(a: nat, b: nat): nat { if a < b then a else b }

  function Advance(covered: nat, stop: nat, m: Option<Mapping>): Progress {
    if m.None? || m.value.end <= covered then Going(covered)
    else if m.value.start > covered || !m.value.readable then Ended(Invalid)
    else if Min(m.value.end, stop) >= stop then Ended(Valid)
    else Going(Min(m.value.end, stop))
  }

  function Coverage(maps: seq<Option<Mapping>>, start: nat, stop: nat): Progress {
    if maps == [] then Going(start)
    else match Coverage(maps[..|maps| - 1], start, stop)
      case Ended(verdict) => Ended(verdict)
      case Going(covered) => Advance(covered, stop, maps[|maps| - 1])
  }

  /** The answer for a range, from the whole text of the map. */
  function Readable(remote: nat, length: nat, opens: bool, text: string): Verdict {
    if length == 0 then Valid
    else if remote == 0 || remote > MAX_ADDRESS - length then Invalid
    else if !opens then Unknown
    else match Coverage(Entries(text), remote, remote + length)
      case Ended(verdict) => verdict
      case Going(_) => Invalid
  }

  lemma {:induction false} EndedStays(maps: seq<Option<Mapping>>, more: seq<Option<Mapping>>, start: nat, stop: nat)
    requires Coverage(maps, start, stop).Ended?
    ensures Coverage(maps + more, start, stop) == Coverage(maps, start, stop)
    decreases |more|
  {
    if more == [] {
      assert maps + more == maps;
    } else {
      var most := more[..|more| - 1];
      EndedStays(maps, most, start, stop);
      assert (maps + more)[..|maps + more| - 1] == maps + most;
    }
  }

  /** Entries of a longer text begin with the entries of its prefix. */
  lemma {:induction false} EntriesGrow(text: string, more: string)
    ensures Entries(text) <= Entries(text + more)
    decreases |more|
  {
    if more == "" {
      assert text + more == text;
    } else {
      var most := more[..|more| - 1];
      EntriesGrow(text, most);
      assert (text + more)[..|text + more| - 1] == text + most;
    }
  }

  lemma {:induction false} VerdictStays(text: string, more: string, start: nat, stop: nat)
    requires Coverage(Entries(text), start, stop).Ended?
    ensures Coverage(Entries(text + more), start, stop) == Coverage(Entries(text), start, stop)
  {
    EntriesGrow(text, more);
    var maps, all := Entries(text), Entries(text + more);
    assert all == maps + all[|maps|..];
    EndedStays(maps, all[|maps|..], start, stop);
  }

  lemma {:induction false} TextSplits(answers: seq<Read>, n: nat)
    requires n <= |answers|
    requires forall k :: 0 <= k < n ==> answers[k].Interrupted? || (answers[k].Data? && answers[k].bytes != "")
    ensures Text(answers) == Text(answers[..n]) + Text(answers[n..])
    decreases n
  {
    if n == 0 {
      assert answers[..0] == [] && answers[0..] == answers;
    } else {
      assert answers[1..][..n - 1] == answers[..n][1..] && answers[1..][n - 1..] == answers[n..];
      TextSplits(answers[1..], n - 1);
    }
  }

  // ---------------------------------------------------------------------------------------------
  // The scan
  // ---------------------------------------------------------------------------------------------

  /** The line buffer holds the unfinished line, unless that is too long already. */
  predicate BufferOk(text: string, line: string, skipping: bool) {
    if |Partial(text)| <= MAX_LINE then !skipping && line == Partial(text) else skipping && line == ""
  }

  lemma {:induction false} OneMore(text: string, ch: char)
    ensures ch == '\n' ==> Entries(text + [ch]) == Entries(text) + [Entry(Partial(text))] && Partial(text + [ch]) == ""
    ensures ch != '\n' ==> Entries(text + [ch]) == Entries(text) && Partial(text + [ch]) == Partial(text) + [ch]
  {
    assert (text + [ch])[..|text|] == text;
  }

  lemma {:induction false} LineEnds(text: string, start: nat, stop: nat, covered: nat)
    requires Coverage(Entries(text), start, stop) == Going(covered)
    ensures Coverage(Entries(text + ['\n']), start, stop) == Advance(covered, stop, Entry(Partial(text)))
  {
    OneMore(text, '\n');
    var maps := Entries(text) + [Entry(Partial(text))];
    assert maps[..|maps| - 1] == Entries(text);
  }

  /** A finished line moves the coverage on, or decides. */
  method FinishLine(line: string, covered: nat, stop: nat) returns (progress: Progress)
    requires |line| <= MAX_LINE
    ensures progress == Advance(covered, stop, Entry(line))
  {
    var m := ParseLine(line);
    if m.None? || m.value.end <= covered {
      return Going(covered);
    }
    if m.value.start > covered || !m.value.readable {
      return Ended(Invalid);
    }
    var reached := if m.value.end < stop then m.value.end else stop;
    progress := if reached >= stop then Ended(Valid) else Going(reached);
  }

  /** One character through the line splitter. */
  method Feed(ch: char, covered: nat, line: string, skipping: bool, start: nat, stop: nat, ghost seen: string)
    returns (progress: Progress, line': string, skipping': bool)
    requires Coverage(Entries(seen), start, stop) == Going(covered) && BufferOk(seen, line, skipping)
    ensures progress == Coverage(Entries(seen + [ch]), start, stop)
    ensures BufferOk(seen + [ch], line', skipping')
  {
    OneMore(seen, ch);
    progress, line', skipping' := Going(covered), line, skipping;
    if skipping {
      if ch == '\n' {
        LineEnds(seen, start, stop, covered);
        skipping', line' := false, "";
      }
    } else if ch != '\n' && |line| + 1 < MAX_LINE + 1 {
      line' := line + [ch];
    } else if ch != '\n' {
      skipping', line' := true, "";
    } else {
      LineEnds(seen, start, stop, covered);
      progress := FinishLine(line, covered, stop);
      line' := "";
    }
  }

  /** A verdict reached within a chunk is the verdict after the whole chunk. */
  lemma {:induction false} ChunkDecided(seen: string, bytes: string, n: nat, start: nat, stop: nat)
    requires n <= |bytes| && Coverage(Entries(seen + bytes[..n]), start, stop).Ended?
    ensures Coverage(Entries(seen + bytes), start, stop) == Coverage(Entries(seen + bytes[..n]), start, stop)
  {
    assert seen + bytes == (seen + bytes[..n]) + bytes[n..];
    VerdictStays(seen + bytes[..n], bytes[n..], start, stop);
  }

  lemma ChunkGrows(seen: string, bytes: string, n: nat)
    requires n < |bytes|
    ensures (seen + bytes[..n]) + [bytes[n]] == seen + bytes[..n + 1]
  {
    assert bytes[..n] + [bytes[n]] == bytes[..n + 1];
  }

  /** One chunk through the line splitter, from wherever the chunk before it ended. */
  method Consume(bytes: string, covered: nat, line: string, skipping: bool, start: nat, stop: nat, ghost seen: string)
    returns (progress: Progress, line': string, skipping': bool)
    requires Coverage(Entries(seen), start, stop) == Going(covered) && BufferOk(seen, line, skipping)
    ensures progress == Coverage(Entries(seen + bytes), start, stop)
    ensures progress.Going? ==> BufferOk(seen + bytes, line', skipping')
  {
    progress, line', skipping' := Going(covered), line, skipping;
    var i := 0;
    assert seen + bytes[..0] == seen;
    while i < |bytes|
      invariant 0 <= i <= |bytes| && progress.Going?
      invariant progress == Coverage(Entries(seen + bytes[..i]), start, stop)
      invariant BufferOk(seen + bytes[..i], line', skipping')
    {
      ChunkGrows(seen, bytes, i);
      progress, line', skipping' :=
        Feed(bytes[i], progress.covered, line', skipping', start, stop, seen + bytes[..i]);
      i := i + 1;
      if progress.Ended? {
        ChunkDecided(seen, bytes, i, start, stop);
        return;
      }
    }
    assert bytes[..i] == bytes;
  }

  /**
   * The scan over whatever chunks the reads return: the answer depends only on the text they deliver
   * together, not on where it is cut.
   */
  method RangeReadable(remote: nat, length: nat, opens: bool, answers: seq<Read>) returns (verdict: Verdict)
    ensures verdict == Readable(remote, length, opens, Text(answers))
  {
    if length == 0 {
      return Valid;
    }
    if remote == 0 || remote > MAX_ADDRESS - length {
      return Invalid;
    }
    if !opens {
      return Unknown;
    }
    var stop, covered, line, skipping, n := remote + length, remote, "", false, 0;
    ghost var seen := "";
    assert answers[..0] == [];
    while n < |answers|
      invariant 0 <= n <= |answers| && seen == Text(answers[..n])
      invariant forall k :: 0 <= k < n ==> answers[k].Interrupted? || (answers[k].Data? && answers[k].bytes != "")
      invariant Coverage(Entries(seen), remote, stop) == Going(covered) && BufferOk(seen, line, skipping)
    {
      TextSplits(answers, n);
      var answer := answers[n];
      if answer.ReadError? || (answer.Data? && answer.bytes == "") {
        assert Text(answers[n..]) == "";
        assert Text(answers) == seen;
        return Invalid;
      }
      TextGrows(answers, n);
      if answer.Data? {
        var progress;
        progress, line, skipping := Consume(answer.bytes, covered, line, skipping, remote, stop, seen);
        seen := seen + answer.bytes;
        if progress.Ended? {
          TextSplits(answers, n + 1);
          VerdictStays(seen, Text(answers[n + 1..]), remote, stop);
          return progress.verdict;
        }
        covered := progress.covered;
      }
      n := n + 1;
    }
    assert answers[..n] == answers;
    verdict := Invalid;
  }

  lemma TextGrows(answers: seq<Read>, n: nat)
    requires n < |answers|
    requires forall k :: 0 <= k < n + 1 ==> answers[k].Interrupted? || (answers[k].Data? && answers[k].bytes != "")
    ensures Text(answers[..n + 1]) == Text(answers[..n]) + (if answers[n].Data? then answers[n].bytes else "")
  {
    var upto := answers[..n + 1];
    TextSplits(upto, n);
    assert upto[..n] == answers[..n] && upto[n..] == [answers[n]];
    assert Text([answers[n]]) == if answers[n].Data? then answers[n].bytes + Text([]) else Text([]);
  }

  // ---------------------------------------------------------------------------------------------
  // What the answer means
  // ---------------------------------------------------------------------------------------------

  /** Some line of the map lists the byte as readable. */
  predicate Listed(maps: seq<Option<Mapping>>, x: nat) {
    exists i :: 0 <= i < |maps| && Lists(maps[i], x)
  }

  predicate Lists(m: Option<Mapping>, x: nat) { m.Some? && m.value.readable && m.value.start <= x < m.value.end }

  lemma ListedMore(maps: seq<Option<Mapping>>, n: nat, x: nat)
    requires n <= |maps| && Listed(maps[..n], x)
    ensures Listed(maps, x)
  {
    var i :| 0 <= i < n && Lists(maps[..n][i], x);
    assert Lists(maps[i], x);
  }

  lemma {:induction false} CoverageIsListed(maps: seq<Option<Mapping>>, start: nat, stop: nat, x: nat)
    requires start < stop
    requires var p := Coverage(maps, start, stop);
      (p == Ended(Valid) && start <= x < stop) || (p.Going? && start <= x < p.covered)
    ensures Listed(maps, x)
  {
    if maps != [] {
      var n := |maps| - 1;
      var before := Coverage(maps[..n], start, stop);
      if before == Ended(Valid) || (before.Going? && x < before.covered) {
        CoverageIsListed(maps[..n], start, stop, x);
        ListedMore(maps, n, x);
      } else {
        assert Lists(maps[n], x);
      }
    }
  }

  /** A range that is called valid lies byte for byte in mappings the map lists as readable. */
  lemma {:induction false} ValidIsListed(remote: nat, length: nat, opens: bool, text: string, x: nat)
    requires Readable(remote, length, opens, text) == Valid && remote <= x < remote + length
    ensures Listed(Entries(text), x)
  {
    CoverageIsListed(Entries(text), remote, remote + length, x);
  }

  /** Every line is short enough and parses, and the mappings are in order without overlap. */
  predicate WellFormed(maps: seq<Option<Mapping>>) {
    && (forall i :: 0 <= i < |maps| ==> maps[i].Some?)
    && (forall i, j :: 0 <= i < j < |maps| ==> maps[i].value.end <= maps[j].value.start)
  }

  predicate AllBefore(maps: seq<Option<Mapping>>, n: nat, x: nat)
    requires n <= |maps| && WellFormed(maps)
  {
    forall i :: 0 <= i < n ==> maps[i].value.end <= x
  }

  /** Nothing at or past the end of every mapping is listed. */
  lemma NothingPast(maps: seq<Option<Mapping>>, x: nat)
    requires WellFormed(maps)
    ensures AllBefore(maps, |maps|, x) ==> !Listed(maps, x)
  {
  }

  /** The mapping that comes next lists the first byte still to be covered, or lies before it. */
  lemma NextReaches(maps: seq<Option<Mapping>>, n: nat, covered: nat, stop: nat)
    requires n < |maps| && WellFormed(maps) && covered < stop && Listed(maps, covered) && AllBefore(maps, n, covered)
    ensures var p := Advance(covered, stop, maps[n]);
      p == Ended(Valid) || (p.Going? && covered <= p.covered < stop && AllBefore(maps, n + 1, p.covered))
  {
    var i :| 0 <= i < |maps| && Lists(maps[i], covered);
    assert i >= n;
  }

  /** In a well-formed map, the scan of a listed range never stops short. */
  lemma {:induction false} ListedIsCovered(maps: seq<Option<Mapping>>, n: nat, start: nat, stop: nat)
    requires n <= |maps| && WellFormed(maps) && start < stop
    requires forall x :: start <= x < stop ==> Listed(maps, x)
    ensures var p := Coverage(maps[..n], start, stop);
      p == Ended(Valid) || (p.Going? && start <= p.covered < stop && AllBefore(maps, n, p.covered))
  {
    if n > 0 {
      ListedIsCovered(maps, n - 1, start, stop);
      assert maps[..n][..n - 1] == maps[..n - 1];
      var before := Coverage(maps[..n - 1], start, stop);
      if before.Going? {
        NextReaches(maps, n - 1, before.covered, stop);
      }
    }
  }

  /** For a well-formed map, full readable coverage of the range is called valid. */
  lemma {:induction false} ListedIsValid(remote: nat, length: nat, text: string)
    requires 0 < remote && remote <= MAX_ADDRESS - length && WellFormed(Entries(text))
    requires forall x :: remote <= x < remote + length ==> Listed(Entries(text), x)
    ensures Readable(remote, length, true, text) == Valid
  {
    if length > 0 {
      var maps, stop := Entries(text), remote + length;
      ListedIsCovered(maps, |maps|, remote, stop);
      assert maps[..|maps|] == maps;
      var p := Coverage(maps, remote, stop);
      NothingPast(maps, if p.Going? then p.covered else 0);
    }
  }
}
