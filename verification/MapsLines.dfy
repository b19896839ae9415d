/**
 * What the text of a memory map means, said without the parser: how numbers and lines are spelled, and
 * that the scan reads exactly what they say.
 */
module MapsLines {
  import opened Common
  import opened MapsScan

  const LOWER := "0123456789abcdef"
  const UPPER := "0123456789ABCDEF"

  /** The text spells the number in hexadecimal, in either case, leading zeros allowed. */
  predicate Spells(text: string, value: nat) {
    if text == "" then value == 0
    else
      var last := text[|text| - 1];
      (last == LOWER[value % 16] || last == UPPER[value % 16]) && Spells(text[..|text| - 1], value / 16)
  }

  /** A line of the map: two numbers and the text of the permissions and everything after them. */
  datatype Line = Line(first: string, second: string, perms: string, start: nat, end: nat)

  function Render(l: Line): string { l.first + "-" + l.second + " " + l.perms }

  predicate Spelled(l: Line) { l.first != "" && l.second != "" && Spells(l.first, l.start) && Spells(l.second, l.end) }

  /** The line describes a mapping: it has permissions, and a range within the address space that is not empty. */
  predicate Describes(l: Line) { l.perms != "" && l.start < l.end <= MAX_ADDRESS }

  predicate IsReadable(l: Line) { l.perms != "" && l.perms[0] == 'r' }

  // ---------------------------------------------------------------------------------------------
  // Numbers
  // ---------------------------------------------------------------------------------------------

  lemma DigitMeans(ch: char, d: nat)
    requires d < 16
    ensures ch == LOWER[d] || ch == UPPER[d] <==> Digit(ch) == d
  {
  }

  lemma NotADigit(ch: char)
    requires ch == '-' || ch == ' '
    ensures !IsDigit(ch)
  {
  }

  /** A spelled number consists of digits, and its value is the number. */
  lemma {:induction false} SpelledValue(text: string, value: nat)
    requires Spells(text, value)
    ensures Value(text) == value && forall k :: 0 <= k < |text| ==> IsDigit(text[k])
  {
    if text != "" {
      var n := |text| - 1;
      DigitMeans(text[n], value % 16);
      SpelledValue(text[..n], value / 16);
    }
  }

  lemma LastDigit(most: nat, digit: nat)
    requires digit < 16
    ensures (most * 16 + digit) % 16 == digit && (most * 16 + digit) / 16 == most
  {
  }

  /** Digits spell their value. */
  lemma {:induction false} ValueSpelled(text: string)
    requires forall k :: 0 <= k < |text| ==> IsDigit(text[k])
    ensures Spells(text, Value(text))
  {
    if text != "" {
      var n := |text| - 1;
      ValueSpelled(text[..n]);
      assert IsDigit(text[n]);
      DigitRange(text[n]);
      DigitMeans(text[n], Digit(text[n]));
      LastDigit(Value(text[..n]), Digit(text[n]));
    }
  }

  /** The digits of a text end where its first other character stands. */
  lemma {:induction false} DigitsEnd(text: string, from: nat, end: nat)
    requires from <= end <= |text| && (end < |text| ==> !IsDigit(text[end]))
    requires forall k :: from <= k < end ==> IsDigit(text[k])
    ensures Digits(text, from) == end - from
    decreases end - from
  {
    if from < end { DigitsEnd(text, from + 1, end); }
  }

  /** A spelled number within a text is read as that number, or refused because it does not fit. */
  lemma {:induction false} SpelledIsParsed(text: string, from: nat, number: string, value: nat)
    requires number != "" && Spells(number, value)
    requires from + |number| <= |text| && text[from..from + |number|] == number
    requires from + |number| < |text| ==> !IsDigit(text[from + |number|])
    ensures ParsedHex(text, from) == if value > MAX_ADDRESS then None else Some((value, from + |number|))
  {
    SpelledValue(number, value);
    forall k | from <= k < from + |number| ensures IsDigit(text[k]) { assert text[k] == number[k - from]; }
    DigitsEnd(text, from, from + |number|);
  }

  /** What is read as a number is spelled there. */
  lemma ParsedIsSpelled(text: string, from: nat)
    requires from <= |text| && ParsedHex(text, from).Some?
    ensures var (value, end) := ParsedHex(text, from).value;
      from < end <= |text| && value <= MAX_ADDRESS && Spells(text[from..end], value)
  {
    var n := Digits(text, from);
    var number := text[from..from + n];
    forall k | 0 <= k < n ensures IsDigit(number[k]) { assert number[k] == text[from + k]; }
    ValueSpelled(number);
  }

  // ---------------------------------------------------------------------------------------------
  // Lines
  // ---------------------------------------------------------------------------------------------

  lemma RenderedParts(l: Line)
    ensures var text, dash := Render(l), |l.first|;
      var space := dash + 1 + |l.second|;
      && space + 1 + |l.perms| == |text| && text[0..dash] == l.first && text[dash] == '-'
      && text[dash + 1..space] == l.second && text[space] == ' ' && text[space + 1..] == l.perms
  {
  }

  /** A rendered line parses to exactly the mapping it describes, and to nothing when it describes none. */
  lemma RenderedIsParsed(l: Line)
    requires Spelled(l)
    ensures ParsedLine(Render(l)) == if Describes(l) then Some(Mapping(l.start, l.end, l.perms[0] == 'r')) else None
  {
    var text, dash := Render(l), |l.first|;
    var space := dash + 1 + |l.second|;
    RenderedParts(l);
    NotADigit('-');
    NotADigit(' ');
    SpelledIsParsed(text, 0, l.first, l.start);
    SpelledIsParsed(text, dash + 1, l.second, l.end);
    if l.perms != "" { assert text[space + 1] == text[space + 1..][0] == l.perms[0]; }
  }

  lemma Reassembled(text: string, dash: nat, space: nat)
    requires dash < space < |text| && text[dash] == '-' && text[space] == ' '
    ensures text[0..dash] + "-" + text[dash + 1..space] + " " + text[space + 1..] == text
  {
    assert text == text[..dash] + [text[dash]] + text[dash + 1..];
    assert text[dash + 1..] == text[dash + 1..space] + [text[space]] + text[space + 1..];
  }

  /** The numbers of a line that parses, and where they end. */
  lemma ParsedNumbers(text: string)
    requires ParsedLine(text).Some?
    ensures ParsedHex(text, 0).Some?
    ensures var (start, dash) := ParsedHex(text, 0).value;
      && dash < |text| && text[dash] == '-' && ParsedHex(text, dash + 1).Some?
      && var (end, space) := ParsedHex(text, dash + 1).value;
      && space + 1 < |text| && text[space] == ' ' && start < end
      && ParsedLine(text).value == Mapping(start, end, text[space + 1] == 'r')
  {
  }

  /** Where a line that parses has its parts. */
  lemma ParsedParts(text: string) returns (start: nat, dash: nat, end: nat, space: nat)
    requires ParsedLine(text).Some?
    ensures 0 < dash && dash + 1 < space && space + 1 < |text| && text[dash] == '-' && text[space] == ' '
    ensures Spells(text[0..dash], start) && Spells(text[dash + 1..space], end) && start < end <= MAX_ADDRESS
    ensures ParsedLine(text).value == Mapping(start, end, text[space + 1] == 'r')
  {
    ParsedNumbers(text);
    start, dash := ParsedHex(text, 0).value.0, ParsedHex(text, 0).value.1;
    end, space := ParsedHex(text, dash + 1).value.0, ParsedHex(text, dash + 1).value.1;
    ParsedIsSpelled(text, 0);
    ParsedIsSpelled(text, dash + 1);
  }

  /** Only rendered lines parse. */
  lemma ParsedIsRendered(text: string) returns (l: Line)
    requires ParsedLine(text).Some?
    ensures Render(l) == text && Spelled(l) && Describes(l)
    ensures ParsedLine(text).value == Mapping(l.start, l.end, IsReadable(l))
  {
    var start, dash, end, space := ParsedParts(text);
    l := Line(text[0..dash], text[dash + 1..space], text[space + 1..], start, end);
    Reassembled(text, dash, space);
  }

  // ---------------------------------------------------------------------------------------------
  // Texts
  // ---------------------------------------------------------------------------------------------

  predicate OneLine(text: string) { forall k :: 0 <= k < |text| ==> text[k] != '\n' }

  /** The lines, each ended by a newline. */
  function RenderAll(lines: seq<Line>): string {
    if lines == [] then "" else RenderAll(lines[..|lines| - 1]) + Render(lines[|lines| - 1]) + "\n"
  }

  lemma {:induction false} PartialGrows(text: string, line: string)
    requires OneLine(line)
    ensures Partial(text + line) == Partial(text) + line && Entries(text + line) == Entries(text)
  {
    if line == "" {
      assert text + line == text && Partial(text) + line == Partial(text);
    } else {
      var most, last := line[..|line| - 1], line[|line| - 1];
      assert line == most + [last];
      PartialGrows(text, most);
      OneMore(text + most, last);
      assert text + line == (text + most) + [last] && Partial(text) + line == (Partial(text) + most) + [last];
    }
  }

  /** A finished line adds its entry. */
  lemma {:induction false} LineAdds(text: string, line: string)
    requires OneLine(line) && Partial(text) == ""
    ensures Entries(text + line + "\n") == Entries(text) + [Entry(line)] && Partial(text + line + "\n") == ""
  {
    PartialGrows(text, line);
    OneMore(text + line, '\n');
    assert Partial(text) + line == line;
  }

  predicate Legible(l: Line) { Spelled(l) && Describes(l) && OneLine(Render(l)) && |Render(l)| <= 1023 }

  function MappingOf(l: Line): Option<Mapping> { Some(Mapping(l.start, l.end, IsReadable(l))) }

  predicate Renders(lines: seq<Line>, maps: seq<Option<Mapping>>) {
    |maps| == |lines| && forall i :: 0 <= i < |lines| ==> maps[i] == MappingOf(lines[i])
  }

  lemma RendersMore(lines: seq<Line>, maps: seq<Option<Mapping>>)
    requires lines != [] && Renders(lines[..|lines| - 1], maps)
    ensures Renders(lines, maps + [MappingOf(lines[|lines| - 1])])
  {
    var n := |lines| - 1;
    forall i | 0 <= i < n ensures maps[i] == MappingOf(lines[i]) { assert lines[..n][i] == lines[i]; }
  }

  lemma LegibleEntry(l: Line)
    requires Legible(l)
    ensures Entry(Render(l)) == MappingOf(l)
  {
    RenderedIsParsed(l);
  }

  lemma {:induction false} RenderedEntries(lines: seq<Line>)
    requires forall i :: 0 <= i < |lines| ==> Legible(lines[i])
    ensures Renders(lines, Entries(RenderAll(lines))) && Partial(RenderAll(lines)) == ""
  {
    if lines != [] {
      var n := |lines| - 1;
      var before := RenderAll(lines[..n]);
      RenderedEntries(lines[..n]);
      LegibleEntry(lines[n]);
      LineAdds(before, Render(lines[n]));
      RendersMore(lines, Entries(before));
    }
  }

  /** The line stands in the text, between newlines. */
  predicate StandsAt(text: string, at: nat, line: string) {
    && at + |line| < |text| && text[at..at + |line|] == line && text[at + |line|] == '\n' && OneLine(line)
    && (at > 0 ==> text[at - 1] == '\n')
  }

  lemma {:induction false} PartialStands(text: string)
    ensures var line := Partial(text);
      && |line| <= |text| && OneLine(line) && text[|text| - |line|..] == line
      && (|line| < |text| ==> text[|text| - |line| - 1] == '\n')
  {
    if text != "" && text[|text| - 1] != '\n' {
      var n := |text| - 1;
      PartialStands(text[..n]);
      var line := Partial(text[..n]);
      assert text[|text| - |line| - 1..] == text[..n][n - |line|..] + [text[n]];
    }
  }

  /** Every entry comes from a line that stands in the text. */
  lemma {:induction false} EntryStands(text: string, i: nat) returns (at: nat, line: string)
    requires i < |Entries(text)|
    ensures StandsAt(text, at, line) && Entries(text)[i] == Entry(line)
  {
    var n := |text| - 1;
    if i < |Entries(text[..n])| {
      at, line := EntryStands(text[..n], i);
      assert text[at..at + |line|] == text[..n][at..at + |line|];
    } else {
      line := Partial(text[..n]);
      PartialStands(text[..n]);
      at := n - |line|;
      assert text[at..at + |line|] == text[..n][at..];
    }
  }

  // ---------------------------------------------------------------------------------------------
  // What the answer means
  // ---------------------------------------------------------------------------------------------

  predicate Shows(l: Line, x: nat) { Spelled(l) && IsReadable(l) && l.start <= x < l.end }

  /**
   * A range that is called valid lies byte for byte in lines of the map, at most 1023 characters long,
   * that spell a range with the byte in it and permissions that begin with `r`.
   */
  lemma ValidIsShown(remote: nat, length: nat, opens: bool, text: string, x: nat) returns (at: nat, l: Line)
    requires Readable(remote, length, opens, text) == Valid && remote <= x < remote + length
    ensures StandsAt(text, at, Render(l)) && |Render(l)| <= 1023 && Shows(l, x)
  {
    ValidIsListed(remote, length, opens, text, x);
    var maps := Entries(text);
    var i :| 0 <= i < |maps| && Lists(maps[i], x);
    var line;
    at, line := EntryStands(text, i);
    l := ParsedIsRendered(line);
  }

  /** Legible lines in address order without overlap. */
  predicate Ordered(lines: seq<Line>) {
    && (forall i :: 0 <= i < |lines| ==> Legible(lines[i]))
    && (forall i, j :: 0 <= i < j < |lines| ==> lines[i].end <= lines[j].start)
  }

  predicate ShownIn(lines: seq<Line>, x: nat) { exists i :: 0 <= i < |lines| && Shows(lines[i], x) }

  lemma {:induction false} ShownIsListed(lines: seq<Line>, x: nat)
    requires Ordered(lines)
    ensures ShownIn(lines, x) <==> Listed(Entries(RenderAll(lines)), x)
  {
    RenderedEntries(lines);
    var maps := Entries(RenderAll(lines));
    if ShownIn(lines, x) {
      var i :| 0 <= i < |lines| && Shows(lines[i], x);
      assert Lists(maps[i], x);
    }
    if Listed(maps, x) {
      var i :| 0 <= i < |maps| && Lists(maps[i], x);
      assert Shows(lines[i], x);
    }
  }

  lemma {:induction false} OrderedIsWellFormed(lines: seq<Line>)
    requires Ordered(lines)
    ensures WellFormed(Entries(RenderAll(lines)))
  {
    RenderedEntries(lines);
    var maps := Entries(RenderAll(lines));
    forall i, j | 0 <= i < j < |maps| ensures maps[i].Some? && maps[j].Some? && maps[i].value.end <= maps[j].value.start {
      assert maps[i] == MappingOf(lines[i]) && maps[j] == MappingOf(lines[j]);
    }
  }

  /** For a map of ordered lines, a range is called valid exactly when every byte of it is shown readable. */
  lemma {:induction false} ValidExactlyWhenShown(remote: nat, length: nat, lines: seq<Line>)
    requires Ordered(lines) && 0 < remote && remote <= MAX_ADDRESS - length
    ensures Readable(remote, length, true, RenderAll(lines)) == Valid <==>
      forall x :: remote <= x < remote + length ==> ShownIn(lines, x)
  {
    var text := RenderAll(lines);
    OrderedIsWellFormed(lines);
    forall x | remote <= x < remote + length ensures ShownIn(lines, x) <==> Listed(Entries(text), x) {
      ShownIsListed(lines, x);
    }
    if Readable(remote, length, true, text) == Valid {
      forall x | remote <= x < remote + length ensures ShownIn(lines, x) { ValidIsListed(remote, length, true, text, x); }
    }
    if forall x :: remote <= x < remote + length ==> ShownIn(lines, x) {
      ListedIsValid(remote, length, text);
    }
  }

  /** The answer is unknown exactly when a range that could be readable meets a map that cannot be opened. */
  lemma UnknownExactly(remote: nat, length: nat, opens: bool, text: string)
    ensures Readable(remote, length, opens, text) == Unknown <==>
      !opens && length > 0 && remote > 0 && remote + length <= MAX_ADDRESS
  {
    NeverUnknown(Entries(text), remote, remote + length);
  }

  lemma {:induction false} NeverUnknown(maps: seq<Option<Mapping>>, start: nat, stop: nat)
    ensures Coverage(maps, start, stop) != Ended(Unknown)
  {
    if maps != [] { NeverUnknown(maps[..|maps| - 1], start, stop); }
  }
}
