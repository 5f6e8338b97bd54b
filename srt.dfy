/** The SubRip (SRT) side of `VideoProcessor`: `_seconds_to_srt_time` over
    integer milliseconds, the block writer of `add_captions`, and a reader for
    the same format that undoes the writer. */
module Srt {
  import opened Common

  /** The four fields that `_seconds_to_srt_time` prints. */
  datatype SrtClock = SrtClock(hours: nat, minutes: nat, seconds: nat, millis: nat)

  /** The fields as `_seconds_to_srt_time` computes them, with `seconds` read
      as `ms / 1000` in exact arithmetic: `seconds // 3600`,
      `(seconds % 3600) // 60`, `seconds % 60`, and the fractional part in ms. */
  function Clock(ms: nat): SrtClock
  {
    SrtClock(ms / 3600000, (ms % 3600000) / 60000, (ms / 1000) % 60, ms % 1000)
  }

  /** The printed fields are in range and add back up to the input. */
  lemma ClockFields(ms: nat)
    ensures var c := Clock(ms);
      c.minutes < 60 && c.seconds < 60 && c.millis < 1000 &&
      c.hours * 3600000 + c.minutes * 60000 + c.seconds * 1000 + c.millis == ms
  {
    var q, millis := ms / 1000, ms % 1000;
    assert ms == 1000 * q + millis;
    var p, secs := q / 60, q % 60;
    assert q == 60 * p + secs;
    var hours, minutes := p / 60, p % 60;
    assert p == 60 * hours + minutes;
    assert ms == 3600000 * hours + (60000 * minutes + 1000 * secs + millis);
    assert ms / 3600000 == hours;
    assert ms % 3600000 == 60000 * minutes + (1000 * secs + millis);
    assert (ms % 3600000) / 60000 == minutes;
  }

  /** Conversely, in-range fields are exactly what the clock of their total shows. */
  lemma ClockOfFields(h: nat, m: nat, sec: nat, mi: nat)
    requires m < 60 && sec < 60 && mi < 1000
    ensures Clock(h * 3600000 + m * 60000 + sec * 1000 + mi) == SrtClock(h, m, sec, mi)
  {
    var ms := h * 3600000 + m * 60000 + sec * 1000 + mi;
    ClockFields(ms);
    var c := Clock(ms);
    assert c.hours == h;
    assert c.minutes * 60000 + c.seconds * 1000 + c.millis == m * 60000 + sec * 1000 + mi;
    assert c.minutes == m;
    assert c.seconds * 1000 + c.millis == sec * 1000 + mi;
    assert c.seconds == sec;
  }

  /** `f"{n:02d}"`: at least two digits, zero-padded on the left. */
  function Pad2(n: nat): (s: string)
    ensures |s| >= 2 && (n < 100 ==> |s| == 2)
    ensures forall k :: 0 <= k < |s| ==> IsDigit(s[k])
  {
    if n < 100 then [DigitChar(n / 10), DigitChar(n % 10)] else Decimal(n)
  }

  /** `f"{n:03d}"` for a value below 1000: exactly three digits. */
  function Pad3(n: nat): (s: string)
    requires n < 1000
    ensures |s| == 3
    ensures forall k :: 0 <= k < |s| ==> IsDigit(s[k])
  {
    [DigitChar(n / 100), DigitChar((n / 10) % 10), DigitChar(n % 10)]
  }

  /** Pad2 is Python's `02d`: `str(n)` with one leading zero when it has a single digit. */
  lemma Pad2IsZeroPadded(n: nat)
    ensures Pad2(n) == if n < 10 then "0" + Decimal(n) else Decimal(n)
  {
    if 10 <= n < 100 {
      assert Decimal(n) == Decimal(n / 10) + [DigitChar(n % 10)];
    }
  }

  /** The fixed-width part after the hours: `:MM:SS,mmm`. */
  function ClockTail(c: SrtClock): string
    requires c.millis < 1000
  {
    ":" + Pad2(c.minutes) + ":" + Pad2(c.seconds) + "," + Pad3(c.millis)
  }

  /** `_seconds_to_srt_time`, on a time given in milliseconds: `HH:MM:SS,mmm`. */
  function FormatSrtTime(ms: nat): string
  {
    var c := Clock(ms);
    Pad2(c.hours) + ClockTail(c)
  }

  predicate IsClockChar(ch: char) { IsDigit(ch) || ch == ':' || ch == ',' }

  /** The shape of a formatted time: digits, then `:MM:SS,mmm` in the last ten
      places, twelve characters in all below one hundred hours. */
  lemma FormatSrtTimeShape(ms: nat)
    ensures var t := FormatSrtTime(ms);
      |t| >= 12 && (ms < 360000000 ==> |t| == 12) &&
      (forall k :: 0 <= k < |t| ==> IsClockChar(t[k])) &&
      t[|t| - 10] == ':' && t[|t| - 7] == ':' && t[|t| - 4] == ','
  {
    var c := Clock(ms);
    ClockFields(ms);
    var h, tail := Pad2(c.hours), ClockTail(c);
    var t := FormatSrtTime(ms);
    assert forall k :: 0 <= k < |h| ==> t[k] == h[k];
    assert forall k :: 0 <= k < 10 ==> t[|h| + k] == tail[k];
    assert forall k :: 0 <= k < 10 ==> IsClockChar(tail[k]);
  }

  /** The examples the unit tests pin down: 0 s and 1.5 s ... */
  lemma FormatSrtTimeExamplesUnderAMinute()
    ensures FormatSrtTime(0) == "00:00:00,000"
    ensures FormatSrtTime(1500) == "00:00:01,500"
  {
    ClockOfFields(0, 0, 0, 0);
    ClockOfFields(0, 0, 1, 500);
    assert Pad2(0) == "00" && Pad2(1) == "01";
    assert Pad3(0) == "000" && Pad3(500) == "500";
  }

  /** ... 65.25 s ... */
  lemma FormatSrtTimeExampleOverAMinute()
    ensures FormatSrtTime(65250) == "00:01:05,250"
  {
    ClockOfFields(0, 1, 5, 250);
    assert Pad2(0) == "00" && Pad2(1) == "01" && Pad2(5) == "05";
    assert Pad3(250) == "250";
  }

  /** ... and 3661.75 s. */
  lemma FormatSrtTimeExampleOverAnHour()
    ensures FormatSrtTime(3661750) == "01:01:01,750"
  {
    ClockOfFields(1, 1, 1, 750);
    assert Pad2(1) == "01";
    assert Pad3(750) == "750";
  }

  // ---------------------------------------------------------------------
  // Reading SRT text back

  function TwoDigits(a: char, b: char): nat
    requires IsDigit(a) && IsDigit(b)
  {
    10 * DigitValue(a) + DigitValue(b)
  }

  function ThreeDigits(a: char, b: char, c: char): nat
    requires IsDigit(a) && IsDigit(b) && IsDigit(c)
  {
    100 * DigitValue(a) + 10 * DigitValue(b) + DigitValue(c)
  }

  /** Reads `H…H:MM:SS,mmm` (at least two hour digits) back into milliseconds. */
  function ParseSrtTime(t: string): Option<nat>
  {
    if |t| < 12 then None
    else
      var n := |t|;
      var h := t[..n - 10];
      if (forall k :: 0 <= k < |h| ==> IsDigit(h[k])) &&
         t[n - 10] == ':' && IsDigit(t[n - 9]) && IsDigit(t[n - 8]) &&
         t[n - 7] == ':' && IsDigit(t[n - 6]) && IsDigit(t[n - 5]) &&
         t[n - 4] == ',' && IsDigit(t[n - 3]) && IsDigit(t[n - 2]) && IsDigit(t[n - 1])
      then Some(ParseDecimal(h) * 3600000 + TwoDigits(t[n - 9], t[n - 8]) * 60000 +
                TwoDigits(t[n - 6], t[n - 5]) * 1000 + ThreeDigits(t[n - 3], t[n - 2], t[n - 1]))
      else None
  }

  lemma Pad2RoundTrip(n: nat)
    ensures ParseDecimal(Pad2(n)) == n
  {
    if n < 100 {
      var s := Pad2(n);
      assert s[..1] == [DigitChar(n / 10)];
      assert ParseDecimal(s[..1]) == n / 10 by {
        assert s[..1][..0] == [];
      }
    } else {
      DecimalRoundTrip(n);
    }
  }

  /** Reading `h` followed by a well-formed `:mm:ss,mmm` back. */
  lemma ParseSrtTimeJoin(h: string, tail: string)
    requires |h| >= 2 && |tail| == 10
    requires forall k :: 0 <= k < |h| ==> IsDigit(h[k])
    requires tail[0] == ':' && IsDigit(tail[1]) && IsDigit(tail[2])
    requires tail[3] == ':' && IsDigit(tail[4]) && IsDigit(tail[5])
    requires tail[6] == ',' && IsDigit(tail[7]) && IsDigit(tail[8]) && IsDigit(tail[9])
    ensures ParseSrtTime(h + tail) ==
      Some(ParseDecimal(h) * 3600000 + TwoDigits(tail[1], tail[2]) * 60000 + TwoDigits(tail[4], tail[5]) * 1000 +
           ThreeDigits(tail[7], tail[8], tail[9]))
  {
    var t := h + tail;
    assert t[..|t| - 10] == h;
    assert forall k :: 0 <= k < 10 ==> t[|t| - 10 + k] == tail[k];
  }

  /** The digits of a two-digit field read back as its value. */
  lemma Pad2Digits(n: nat)
    requires n < 100
    ensures TwoDigits(Pad2(n)[0], Pad2(n)[1]) == n
  {
    var a, b := n / 10, n % 10;
    assert DigitValue(DigitChar(a)) == a && DigitValue(DigitChar(b)) == b;
    assert n == 10 * a + b;
  }

  lemma Pad3Digits(n: nat)
    requires n < 1000
    ensures ThreeDigits(Pad3(n)[0], Pad3(n)[1], Pad3(n)[2]) == n
  {
    var q := n / 10;
    var a, b, c := n / 100, q % 10, n % 10;
    assert DigitValue(DigitChar(a)) == a && DigitValue(DigitChar(b)) == b && DigitValue(DigitChar(c)) == c;
    assert n == 10 * q + c;
    assert q / 10 == a;
    assert q == 10 * a + b;
    assert n == 100 * a + 10 * b + c;
  }

  lemma {:induction false} SrtTimeRoundTrip(ms: nat)
    ensures ParseSrtTime(FormatSrtTime(ms)) == Some(ms)
  {
    var c := Clock(ms);
    ClockFields(ms);
    var h, m2, s2, mi3 := Pad2(c.hours), Pad2(c.minutes), Pad2(c.seconds), Pad3(c.millis);
    var tail := ClockTail(c);
    assert |m2| == 2 && |s2| == 2;
    assert tail[0] == ':' && tail[1] == m2[0] && tail[2] == m2[1];
    assert tail[3] == ':' && tail[4] == s2[0] && tail[5] == s2[1];
    assert tail[6] == ',' && tail[7] == mi3[0] && tail[8] == mi3[1] && tail[9] == mi3[2];
    Pad2RoundTrip(c.hours);
    Pad2Digits(c.minutes);
    Pad2Digits(c.seconds);
    Pad3Digits(c.millis);
    ParseSrtTimeJoin(h, tail);
    assert FormatSrtTime(ms) == h + tail;
  }

  lemma FirstIndexOfJoin(a: string, ch: char, b: string)
    requires ch !in a
    ensures FirstIndexOf(a + [ch] + b, ch) == Some(|a|)
  {
    var r := FirstIndexOf(a + [ch] + b, ch);
    assert (a + [ch] + b)[|a|] == ch;
  }

  /** Splits off the first line (without its `\n`); None when there is no `\n`. */
  function ReadLine(s: string): (r: Option<(string, string)>)
    ensures r.Some? ==> |r.value.1| < |s|
  {
    match FirstIndexOf(s, '\n')
    case None => None
    case Some(i) => Some((s[..i], s[i + 1..]))
  }

  lemma ReadLineJoin(a: string, b: string)
    requires '\n' !in a
    ensures ReadLine(a + "\n" + b) == Some((a, b))
  {
    FirstIndexOfJoin(a, '\n', b);
    assert (a + "\n" + b)[..|a|] == a;
    assert (a + "\n" + b)[|a| + 1..] == b;
  }

  /** The timing line `start --> end`. */
  function TimingLine(start: nat, end: nat): string
  {
    FormatSrtTime(start) + " --> " + FormatSrtTime(end)
  }

  function ParseTimingLine(line: string): Option<(nat, nat)>
  {
    match FirstIndexOf(line, ' ')
    case None => None
    case Some(i) =>
      if i + 5 <= |line| && line[i..i + 5] == " --> " then
        match (ParseSrtTime(line[..i]), ParseSrtTime(line[i + 5..]))
        case (Some(s), Some(e)) => Some((s, e))
        case _ => None
      else None
  }

  lemma NoSpaceOrNewline(ms: nat)
    ensures ' ' !in FormatSrtTime(ms) && '\n' !in FormatSrtTime(ms)
  {
    FormatSrtTimeShape(ms);
    var t := FormatSrtTime(ms);
    assert forall k :: 0 <= k < |t| ==> t[k] != ' ' && t[k] != '\n';
  }

  /** A line `a --> b` whose left part has no space splits at the arrow. */
  lemma ParseTimingLineJoin(a: string, b: string)
    requires ' ' !in a
    ensures ParseTimingLine(a + " --> " + b) ==
      match (ParseSrtTime(a), ParseSrtTime(b))
      case (Some(s), Some(e)) => Some((s, e))
      case _ => None
  {
    var line := a + " --> " + b;
    assert line == a + [' '] + ("--> " + b);
    FirstIndexOfJoin(a, ' ', "--> " + b);
    assert line[..|a|] == a;
    assert line[|a|..|a| + 5] == " --> ";
    assert line[|a| + 5..] == b;
  }

  lemma TimingLineRoundTrip(start: nat, end: nat)
    ensures ParseTimingLine(TimingLine(start, end)) == Some((start, end))
    ensures '\n' !in TimingLine(start, end)
  {
    NoSpaceOrNewline(start);
    NoSpaceOrNewline(end);
    ParseTimingLineJoin(FormatSrtTime(start), FormatSrtTime(end));
    SrtTimeRoundTrip(start);
    SrtTimeRoundTrip(end);
    NoNewlineJoin(FormatSrtTime(start), FormatSrtTime(end));
  }

  lemma NoNewlineJoin(a: string, b: string)
    requires '\n' !in a && '\n' !in b
    ensures '\n' !in a + " --> " + b
  {
    assert a + " --> " + b == a + (" --> " + b);
  }

  // ---------------------------------------------------------------------
  // The SRT document

  /** What an SRT file records of a caption. */
  datatype Cue = Cue(start: nat, end: nat, text: string)

  function CueOf(c: Caption): Cue { Cue(c.start, c.end, c.text) }

  function Cues(cs: seq<Caption>): (r: seq<Cue>)
    ensures |r| == |cs| && forall i :: 0 <= i < |cs| ==> r[i] == CueOf(cs[i])
  {
    seq(|cs|, i requires 0 <= i < |cs| => CueOf(cs[i]))
  }

  /** Block `index` of the file: `index`, the timing line, the text, a blank line. */
  function SrtBlock(index: nat, c: Caption): string
  {
    Decimal(index) + "\n" + TimingLine(c.start, c.end) + "\n" + c.text + "\n\n"
  }

  /** The blocks for `cs` in order, block `i` written by `block(first + i, cs[i])`. */
  function Blocks(block: (nat, Caption) -> string, cs: seq<Caption>, first: nat): string
    decreases |cs|
  {
    if cs == [] then "" else block(first, cs[0]) + Blocks(block, cs[1..], first + 1)
  }

  /** The blocks of `add_captions`, numbered from `first`. */
  function SrtBlocks(cs: seq<Caption>, first: nat): string
  {
    Blocks(SrtBlock, cs, first)
  }

  /** The whole `.srt` file written by `add_captions`: blocks numbered from 1. */
  function SrtDocument(cs: seq<Caption>): string
  {
    SrtBlocks(cs, 1)
  }

  /** One more caption appends exactly its block, numbered after the others. */
  lemma {:induction false} BlocksSnoc(block: (nat, Caption) -> string, cs: seq<Caption>, first: nat, c: Caption)
    ensures Blocks(block, cs + [c], first) == Blocks(block, cs, first) + block(first + |cs|, c)
    decreases |cs|
  {
    if cs == [] {
      assert [c][1..] == [];
    } else {
      assert (cs + [c])[1..] == cs[1..] + [c];
      BlocksSnoc(block, cs[1..], first + 1, c);
    }
  }

  /** Reads blocks numbered from `index` until the text runs out. */
  function ParseBlocks(s: string, index: nat): Option<seq<Cue>>
    decreases |s|
  {
    if s == [] then Some([])
    else
      var l1 := ReadLine(s);
      if l1.None? || l1.value.0 != Decimal(index) then None
      else
        var l2 := ReadLine(l1.value.1);
        if l2.None? then None
        else
          var times := ParseTimingLine(l2.value.0);
          var l3 := ReadLine(l2.value.1);
          if times.None? || l3.None? then None
          else
            var l4 := ReadLine(l3.value.1);
            if l4.None? || l4.value.0 != "" then None
            else
              match ParseBlocks(l4.value.1, index + 1)
              case None => None
              case Some(rest) => Some([Cue(times.value.0, times.value.1, l3.value.0)] + rest)
  }

  function ParseSrt(s: string): Option<seq<Cue>>
  {
    ParseBlocks(s, 1)
  }

  /** Every caption whose text is a single line survives writing and reading back. */
  predicate SingleLine(cs: seq<Caption>) {
    forall i :: 0 <= i < |cs| ==> '\n' !in cs[i].text
  }

  /** Reading one block whose timing line parses and whose lines hold no
      line break: the parser consumes exactly that block. */
  lemma ParseBlocksJoin(first: nat, tl: string, text: string, rest: string)
    requires '\n' !in tl && '\n' !in text && ParseTimingLine(tl).Some?
    ensures ParseBlocks(Decimal(first) + "\n" + tl + "\n" + text + "\n\n" + rest, first) ==
      match ParseBlocks(rest, first + 1)
      case None => None
      case Some(r) => Some([Cue(ParseTimingLine(tl).value.0, ParseTimingLine(tl).value.1, text)] + r)
  {
    var idx := Decimal(first);
    var s := idx + "\n" + tl + "\n" + text + "\n\n" + rest;
    var r3 := "\n" + rest;
    var r2 := text + "\n" + r3;
    var r1 := tl + "\n" + r2;
    assert s == idx + "\n" + r1;
    assert r3 == [] + "\n" + rest;
    assert '\n' !in idx by {
      assert forall k :: 0 <= k < |idx| ==> IsDigit(idx[k]);
    }
    ReadLineJoin(idx, r1);
    ReadLineJoin(tl, r2);
    ReadLineJoin(text, r3);
    ReadLineJoin([], rest);
  }

  /** Reading one written block: the parser consumes exactly that block. */
  lemma ParseBlocksStep(first: nat, c: Caption, rest: string)
    requires '\n' !in c.text
    ensures ParseBlocks(SrtBlock(first, c) + rest, first) ==
      match ParseBlocks(rest, first + 1)
      case None => None
      case Some(r) => Some([CueOf(c)] + r)
  {
    TimingLineRoundTrip(c.start, c.end);
    ParseBlocksJoin(first, TimingLine(c.start, c.end), c.text, rest);
  }

  lemma SingleLineTail(cs: seq<Caption>)
    requires cs != [] && SingleLine(cs)
    ensures SingleLine(cs[1..])
  {
    forall i | 0 <= i < |cs[1..]| ensures '\n' !in cs[1..][i].text {
      assert cs[1..][i] == cs[i + 1];
    }
  }

  /** A block writer that `parse` undoes: reading one block of a single-line
      caption in front of any text yields its cue, then whatever that text
      reads as under the next index. */
  ghost predicate ReadsBack(block: (nat, Caption) -> string, parse: (string, nat) -> Option<seq<Cue>>) {
    forall n: nat, c: Caption, rest: string :: '\n' !in c.text ==>
      parse(block(n, c) + rest, n) ==
        match parse(rest, n + 1)
        case None => None
        case Some(r) => Some([CueOf(c)] + r)
  }

  /** Blocks written by a writer that `parse` undoes read back as their
      captions' cues, provided the empty text reads as no cues. */
  lemma {:induction false} BlocksRoundTrip(block: (nat, Caption) -> string, parse: (string, nat) -> Option<seq<Cue>>,
                                           cs: seq<Caption>, first: nat)
    requires ReadsBack(block, parse) && parse("", first + |cs|) == Some([]) && SingleLine(cs)
    ensures parse(Blocks(block, cs, first), first) == Some(Cues(cs))
    decreases |cs|
  {
    if cs != [] {
      SingleLineTail(cs);
      var rest := Blocks(block, cs[1..], first + 1);
      BlocksRoundTrip(block, parse, cs[1..], first + 1);
      assert '\n' !in cs[0].text;
      assert parse(block(first, cs[0]) + rest, first) == Some([CueOf(cs[0])] + Cues(cs[1..]));
      assert Blocks(block, cs, first) == block(first, cs[0]) + rest;
      assert Cues(cs) == [CueOf(cs[0])] + Cues(cs[1..]);
    }
  }

  lemma SrtBlockReadsBack()
    ensures ReadsBack(SrtBlock, ParseBlocks)
  {
    forall n: nat, c: Caption, rest: string | '\n' !in c.text
      ensures ParseBlocks(SrtBlock(n, c) + rest, n) ==
        match ParseBlocks(rest, n + 1)
        case None => None
        case Some(r) => Some([CueOf(c)] + r)
    {
      ParseBlocksStep(n, c, rest);
    }
  }

  lemma SrtBlocksRoundTrip(cs: seq<Caption>, first: nat)
    requires SingleLine(cs)
    ensures ParseBlocks(SrtBlocks(cs, first), first) == Some(Cues(cs))
  {
    SrtBlockReadsBack();
    assert ParseBlocks("", first + |cs|) == Some([]);
    BlocksRoundTrip(SrtBlock, ParseBlocks, cs, first);
  }

  /** The SRT round trip: reading the written file gives back every caption's
      start, end and text, in order and one cue per caption. */
  lemma SrtRoundTrip(cs: seq<Caption>)
    requires SingleLine(cs)
    ensures ParseSrt(SrtDocument(cs)) == Some(Cues(cs))
  {
    SrtBlocksRoundTrip(cs, 1);
  }

  /** The first `i + 1` blocks are the first `i` and block `i + 1`. */
  lemma SrtBlocksPrefix(cs: seq<Caption>, i: nat)
    requires i < |cs|
    ensures SrtBlocks(cs[..i + 1], 1) == SrtBlocks(cs[..i], 1) + SrtBlock(i + 1, cs[i])
  {
    assert cs[..i + 1] == cs[..i] + [cs[i]];
    BlocksSnoc(SrtBlock, cs[..i], 1, cs[i]);
  }

  /** The block loop of `add_captions`: writes `i\n<start> --> <end>\n<text>\n\n`
      for the i-th caption, counting from 1, in caption order. */
  method WriteSrt(cs: seq<Caption>) returns (text: string)
    ensures text == SrtDocument(cs)
  {
    text := "";
    var i := 0;
    while i < |cs|
      invariant 0 <= i <= |cs|
      invariant text == SrtBlocks(cs[..i], 1)
    {
      SrtBlocksPrefix(cs, i);
      text := text + SrtBlock(i + 1, cs[i]);
      i := i + 1;
    }
    assert cs[..i] == cs;
  }
}
