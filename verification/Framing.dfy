/** Shell output framing (src/server.rs): how `run` recovers a command's output and
    exit status from the byte stream of a long-lived shell. */
module Framing {
  import opened Wrappers
  import opened Sequences

  const NEWLINE: byte := 0x0a
  const RS: byte := 0x1e  // opens a completion marker
  const US: byte := 0x1f  // closes it
  const PLUS: byte := 0x2b
  const MINUS: byte := 0x2d
  const ZERO: byte := 0x30
  const OUTPUT_LIMIT: nat := 16 * 1024 * 1024
  const I32_MIN: int := -0x8000_0000
  const I32_MAX: int := 0x7fff_ffff

  datatype RunError = ShellExited | OutputTooLong | InputClosed

  datatype Completion = Completion(outputEnd: nat, status: int)

  type Outcome = Result<(seq<byte>, int), RunError>

  // ---------------------------------------------------------------- searching

  /** The first index at or after `from` where `needle` occurs. */
  function FindFrom(hay: seq<byte>, needle: seq<byte>, from: nat): (r: Option<nat>)
    ensures r.Some? ==> from <= r.value && r.value + |needle| <= |hay|
    decreases |hay| - from
  {
    if from + |needle| > |hay| then None
    else if hay[from..from + |needle|] == needle then Some(from)
    else FindFrom(hay, needle, from + 1)
  }

  ghost predicate OccursAt(hay: seq<byte>, needle: seq<byte>, i: nat) {
    i + |needle| <= |hay| && hay[i..i + |needle|] == needle
  }

  ghost predicate Absent(hay: seq<byte>, needle: seq<byte>) {
    forall i: nat :: !OccursAt(hay, needle, i)
  }

  lemma {:induction false} FindFromIsFirst(hay: seq<byte>, needle: seq<byte>, from: nat)
    ensures match FindFrom(hay, needle, from)
      case None => forall i: nat :: from <= i ==> !OccursAt(hay, needle, i)
      case Some(k) => from <= k && OccursAt(hay, needle, k)
                      && forall i: nat :: from <= i < k ==> !OccursAt(hay, needle, i)
    decreases |hay| - from
  {
    if from + |needle| <= |hay| && hay[from..from + |needle|] != needle {
      FindFromIsFirst(hay, needle, from + 1);
    }
  }

  /** A marker prefix: RS at index 0 and nowhere else, no line break. */
  predicate IsMarker(prefix: seq<byte>) {
    |prefix| > 0 && prefix[0] == RS
    && forall i :: 0 < i < |prefix| ==> prefix[i] != RS && prefix[i] != NEWLINE
  }

  const SHEX_DASH: seq<byte> := [0x53, 0x48, 0x45, 0x58, 0x2d]
  const COLON: byte := 0x3a

  predicate IsHex(id: seq<byte>) {
    forall b :: b in id ==> ZERO <= b < ZERO + 10 || 0x61 <= b <= 0x66
  }

  /** The prefix `run` searches for, built from a random hexadecimal identifier. */
  function MarkerPrefix(id: seq<byte>): seq<byte> {
    [RS] + SHEX_DASH + id + [COLON]
  }

  lemma MarkerPrefixIsMarker(id: seq<byte>)
    requires IsHex(id)
    ensures IsMarker(MarkerPrefix(id))
  {
    var prefix := MarkerPrefix(id);
    forall i | 0 < i < |prefix|
      ensures prefix[i] != RS && prefix[i] != NEWLINE
    {
      if 6 <= i < 6 + |id| {
        assert prefix[i] == id[i - 6] && id[i - 6] in id;
      }
    }
  }

  /** Because RS opens a marker and never recurs inside it, no occurrence can straddle
      the end of the output: the first match is the real one. */
  lemma MarkerIsUnbordered(out: seq<byte>, prefix: seq<byte>, tail: seq<byte>)
    requires IsMarker(prefix) && Absent(out, prefix)
    ensures FindFrom(out + (prefix + tail), prefix, 0) == Some(|out|)
  {
    var hay := out + (prefix + tail);
    FindFromIsFirst(hay, prefix, 0);
    assert hay[|out|..|out| + |prefix|] == prefix;
    assert OccursAt(hay, prefix, |out|);
    forall i: nat | i < |out|
      ensures !OccursAt(hay, prefix, i)
    {
      if i + |prefix| <= |out| {
        assert !OccursAt(out, prefix, i);
        assert out[i..i + |prefix|] == hay[i..i + |prefix|];
      } else if i + |prefix| <= |hay| {
        var window := hay[i..i + |prefix|];
        assert window[|out| - i] == hay[|out|] == RS != prefix[|out| - i];
      }
    }
  }

  /** A status without the closing byte ends at the first closing byte. */
  lemma {:induction false} ClosingByte(digits: seq<byte>, tail: seq<byte>, from: nat)
    requires US !in digits && from <= |digits|
    ensures FindFrom(digits + ([US] + tail), [US], from) == Some(|digits|)
    decreases |digits| - from
  {
    var rest := digits + ([US] + tail);
    assert rest[from..from + 1] == [rest[from]];
    if from < |digits| {
      assert rest[from] == digits[from] && digits[from] in digits;
      ClosingByte(digits, tail, from + 1);
    }
  }

  // ---------------------------------------------------------------- decimal status

  function Digit(d: nat): byte
    requires d < 10
  {
    ZERO + d as byte
  }

  function PrintNat(n: nat): seq<byte> {
    if n < 10 then [Digit(n)] else PrintNat(n / 10) + [Digit(n % 10)]
  }

  /** `printf %d`. */
  function PrintInt(n: int): seq<byte> {
    if n < 0 then [MINUS] + PrintNat(-n) else PrintNat(n)
  }

  function ParseDigits(s: seq<byte>): Option<nat> {
    if s == [] then Some(0)
    else match ParseDigits(s[..|s| - 1])
      case None => None
      case Some(v) =>
        var d := s[|s| - 1];
        if ZERO <= d < ZERO + 10 then Some(10 * v + (d - ZERO) as nat) else None
  }

  /** `str::parse::<i32>`: an optional sign, at least one digit, in range. */
  function ParseI32(s: seq<byte>): Option<int> {
    if s == [] then None
    else
      var signed := s[0] == PLUS || s[0] == MINUS;
      var digits := if signed then s[1..] else s;
      if digits == [] then None
      else match ParseDigits(digits)
        case None => None
        case Some(v) =>
          var value: int := if s[0] == MINUS then 0 - v else v;
          if I32_MIN <= value <= I32_MAX then Some(value) else None
  }

  lemma {:induction false} PrintedDigits(n: nat)
    ensures |PrintNat(n)| > 0 && ParseDigits(PrintNat(n)) == Some(n)
    ensures forall b :: b in PrintNat(n) ==> ZERO <= b < ZERO + 10
  {
    var s := PrintNat(n);
    if n < 10 {
      assert s[..0] == [];
      assert ParseDigits(s[..0]) == Some(0);
    } else {
      PrintedDigits(n / 10);
      assert s[..|s| - 1] == PrintNat(n / 10);
    }
  }

  /** Printing a status and parsing it back is the identity on every i32, and the text
      contains neither marker byte nor line break. */
  lemma StatusRoundTrip(n: int)
    requires I32_MIN <= n <= I32_MAX
    ensures ParseI32(PrintInt(n)) == Some(n)
    ensures forall b :: b in PrintInt(n) ==> b != RS && b != US && b != NEWLINE
  {
    if n < 0 {
      PrintedDigits(-n);
      SignedRoundTrip(-n);
    } else {
      PrintedDigits(n);
      assert PrintNat(n)[0] in PrintNat(n);
    }
  }

  lemma SignedRoundTrip(v: nat)
    requires 0 < v && v <= -I32_MIN && ParseDigits(PrintNat(v)) == Some(v) && PrintNat(v) != []
    ensures ParseI32([MINUS] + PrintNat(v)) == Some(0 - v)
  {
    assert ([MINUS] + PrintNat(v))[1..] == PrintNat(v);
  }

  // ---------------------------------------------------------------- completion_in

  /** The status text after a marker: up to the closing byte, if it parses. */
  function StatusIn(rest: seq<byte>): Option<int> {
    match FindFrom(rest, [US], 0)
    case None => None
    case Some(len) => ParseI32(rest[..len])
  }

  function CompletionIn(chunk: seq<byte>, prefix: seq<byte>): (r: Option<Completion>)
    ensures r.Some? ==> r.value.outputEnd + |prefix| <= |chunk|
  {
    match FindFrom(chunk, prefix, 0)
    case None => None
    case Some(start) =>
      match StatusIn(chunk[start + |prefix|..])
      case None => None
      case Some(status) => Some(Completion(start, status))
  }

  function MarkerText(prefix: seq<byte>, status: int): seq<byte> {
    prefix + (PrintInt(status) + ([US] + [NEWLINE]))
  }

  lemma StatusFound(status: int, tail: seq<byte>)
    requires I32_MIN <= status <= I32_MAX
    ensures StatusIn(PrintInt(status) + ([US] + tail)) == Some(status)
  {
    StatusRoundTrip(status);
    ClosingByte(PrintInt(status), tail, 0);
    TakeDrop(PrintInt(status), [US] + tail);
  }

  /** A line that carries output followed by a printed marker is recognised exactly. */
  lemma CompletionFound(out: seq<byte>, prefix: seq<byte>, status: int)
    requires IsMarker(prefix) && Absent(out, prefix)
    requires I32_MIN <= status <= I32_MAX
    ensures CompletionIn(out + MarkerText(prefix, status), prefix) == Some(Completion(|out|, status))
  {
    var tail := PrintInt(status) + ([US] + [NEWLINE]);
    MarkerIsUnbordered(out, prefix, tail);
    DropTwo(out, prefix, tail);
    StatusFound(status, [NEWLINE]);
  }

  /** `text` is some output, the marker prefix, a status, the closing byte and more. */
  ghost predicate Marked(
    text: seq<byte>, out: seq<byte>, prefix: seq<byte>, digits: seq<byte>, tail: seq<byte>)
  {
    text == out + (prefix + (digits + ([US] + tail)))
  }

  lemma StatusMeans(rest: seq<byte>) returns (digits: seq<byte>, tail: seq<byte>)
    requires StatusIn(rest).Some?
    ensures rest == digits + ([US] + tail) && ParseI32(digits) == StatusIn(rest)
  {
    FindFromIsFirst(rest, [US], 0);
    var len := FindFrom(rest, [US], 0).value;
    digits, tail := rest[..len], rest[len + 1..];
    assert rest[len..][0] == rest[len..len + 1][0];
    assert rest[len..] == [US] + tail;
    Rejoin(rest, len);
  }

  /** What a recognised completion says about its line. */
  lemma CompletionMeans(chunk: seq<byte>, prefix: seq<byte>) returns (digits: seq<byte>, tail: seq<byte>)
    requires CompletionIn(chunk, prefix).Some?
    ensures var c := CompletionIn(chunk, prefix).value;
            Marked(chunk, chunk[..c.outputEnd], prefix, digits, tail)
            && ParseI32(digits) == Some(c.status)
  {
    FindFromIsFirst(chunk, prefix, 0);
    var start := FindFrom(chunk, prefix, 0).value;
    var rest := chunk[start + |prefix|..];
    digits, tail := StatusMeans(rest);
    RejoinMiddle(chunk, start, |prefix|);
  }

  // ---------------------------------------------------------------- run, as a function

  /** `read_until(b'\n')`: the length of the next line, its line break included. */
  function LineLength(stream: seq<byte>): (n: nat)
    ensures n <= |stream|
    ensures n == 0 <==> stream == []
  {
    if stream == [] then 0
    else if stream[0] == NEWLINE then 1
    else 1 + LineLength(stream[1..])
  }

  /** The outcome of `run` and the bytes it leaves unread. */
  function Reply(stream: seq<byte>, prefix: seq<byte>, collected: seq<byte>): (Outcome, seq<byte>)
    decreases |stream|
  {
    var n := LineLength(stream);
    if n == 0 then (Err(ShellExited), stream)
    else
      var line, rest := stream[..n], stream[n..];
      match CompletionIn(line, prefix)
      case Some(c) =>
        (Ok((collected + line[..c.outputEnd], c.status)), rest)
      case None =>
        if |collected + line| > OUTPUT_LIMIT then (Err(OutputTooLong), rest)
        else Reply(rest, prefix, collected + line)
  }

  lemma {:induction false} LineIsPrefixUpToBreak(stream: seq<byte>)
    ensures var n := LineLength(stream);
            (forall i :: 0 <= i < n - 1 ==> stream[i] != NEWLINE)
            && (n > 0 ==> stream[n - 1] == NEWLINE || n == |stream|)
  {
    if stream != [] && stream[0] != NEWLINE {
      LineIsPrefixUpToBreak(stream[1..]);
    }
  }

  lemma LineLengthUnique(line: seq<byte>, after: seq<byte>)
    requires line != [] && line[|line| - 1] == NEWLINE
    requires forall i :: 0 <= i < |line| - 1 ==> line[i] != NEWLINE
    ensures LineLength(line + after) == |line|
  {
    LineIsPrefixUpToBreak(line + after);
    assert forall i :: 0 <= i < |line| ==> (line + after)[i] == line[i];
  }

  /** How many bytes of `out` lie in whole lines; only these count against the limit. */
  function WholeLines(out: seq<byte>): nat
    decreases |out|
  {
    var n := LineLength(out);
    if n == 0 || out[n - 1] != NEWLINE then 0 else n + WholeLines(out[n..])
  }

  lemma AbsentInPart(out: seq<byte>, prefix: seq<byte>, n: nat)
    requires n <= |out| && Absent(out, prefix)
    ensures Absent(out[..n], prefix) && Absent(out[n..], prefix)
  {
    forall i: nat ensures !OccursAt(out[..n], prefix, i) {
      assert !OccursAt(out, prefix, i);
      if i + |prefix| <= n {
        assert out[..n][i..i + |prefix|] == out[i..i + |prefix|];
      }
    }
    forall i: nat ensures !OccursAt(out[n..], prefix, i) {
      assert !OccursAt(out, prefix, n + i);
      if n + i + |prefix| <= |out| {
        assert out[n..][i..i + |prefix|] == out[n + i..n + i + |prefix|];
      }
    }
  }

  /** A line of output without the marker never completes a run. */
  lemma NoCompletion(line: seq<byte>, prefix: seq<byte>)
    requires Absent(line, prefix)
    ensures CompletionIn(line, prefix).None?
  {
    FindFromIsFirst(line, prefix, 0);
  }

  /** One step of the reader through output that still contains a line break. */
  lemma FirstLineOf(out: seq<byte>, after: seq<byte>)
    requires out != [] && out[LineLength(out) - 1] == NEWLINE
    ensures var n := LineLength(out);
            LineLength(out + after) == n
            && (out + after)[..n] == out[..n] && (out + after)[n..] == out[n..] + after
  {
    var n := LineLength(out);
    LineIsPrefixUpToBreak(out);
    LineLengthUnique(out[..n], out[n..] + after);
    TakeDrop(out[..n], out[n..] + after);
    SplitBefore(out, n, after);
  }

  lemma SplitBefore(out: seq<byte>, n: nat, after: seq<byte>)
    requires n <= |out|
    ensures out + after == out[..n] + (out[n..] + after)
  {
  }

  /** The final, possibly empty, unterminated line of output carries the marker. */
  lemma LastLine(out: seq<byte>, prefix: seq<byte>, status: int, after: seq<byte>)
    requires IsMarker(prefix) && I32_MIN <= status <= I32_MAX
    requires out == [] || out[LineLength(out) - 1] != NEWLINE
    ensures LineLength((out + MarkerText(prefix, status)) + after) == |out + MarkerText(prefix, status)|
  {
    StatusRoundTrip(status);
    LineIsPrefixUpToBreak(out);
    var digits := PrintInt(status);
    var text := out + MarkerText(prefix, status);
    assert text[|text| - 1] == NEWLINE;
    forall i | 0 <= i < |text| - 1
      ensures text[i] != NEWLINE
    {
      if i < |out| {
        assert text[i] == out[i];
      } else if i < |out| + |prefix| {
        assert text[i] == prefix[i - |out|];
      } else if i < |out| + |prefix| + |digits| {
        assert text[i] == digits[i - |out| - |prefix|] && text[i] in digits;
      }
    }
    LineLengthUnique(text, after);
  }

  /** Reading one whole line of output that does not hold the marker. */
  lemma ReplyStep(out: seq<byte>, prefix: seq<byte>, after: seq<byte>, collected: seq<byte>)
    requires Absent(out, prefix)
    requires out != [] && out[LineLength(out) - 1] == NEWLINE
    ensures var n := LineLength(out);
            Reply(out + after, prefix, collected)
            == if |collected| + n > OUTPUT_LIMIT then (Err(OutputTooLong), out[n..] + after)
               else Reply(out[n..] + after, prefix, collected + out[..n])
    ensures Absent(out[LineLength(out)..], prefix)
  {
    FirstLineOf(out, after);
    AbsentInPart(out, prefix, LineLength(out));
    NoCompletion(out[..LineLength(out)], prefix);
  }

  /** Reading the line that carries the marker. */
  lemma ReplyLast(out: seq<byte>, prefix: seq<byte>, status: int, after: seq<byte>, collected: seq<byte>)
    requires IsMarker(prefix) && Absent(out, prefix)
    requires I32_MIN <= status <= I32_MAX
    requires out == [] || out[LineLength(out) - 1] != NEWLINE
    ensures Reply(out + (MarkerText(prefix, status) + after), prefix, collected)
            == (Ok((collected + out, status)), after)
  {
    var text := MarkerText(prefix, status);
    Associates(out, text, after);
    LastLine(out, prefix, status, after);
    TakeDrop(out + text, after);
    CompletionFound(out, prefix, status);
    TakeDrop(out, text);
  }

  /** `run` is exact: with the marker absent from the output, it returns precisely the
      output and the status and leaves the reader after the marker, however the output is
      split into lines, if and only if the whole-line part stays within the limit. */
  lemma {:induction false} RunExact(
    out: seq<byte>, prefix: seq<byte>, status: int, after: seq<byte>, collected: seq<byte>)
    requires IsMarker(prefix) && Absent(out, prefix)
    requires I32_MIN <= status <= I32_MAX
    requires |collected| <= OUTPUT_LIMIT
    ensures var reply := Reply(out + (MarkerText(prefix, status) + after), prefix, collected);
            if |collected| + WholeLines(out) <= OUTPUT_LIMIT
            then reply == (Ok((collected + out, status)), after)
            else reply.0 == Err(OutputTooLong)
    decreases |out|
  {
    var n := LineLength(out);
    if n > 0 && out[n - 1] == NEWLINE {
      ReplyStep(out, prefix, MarkerText(prefix, status) + after, collected);
      if |collected| + n <= OUTPUT_LIMIT {
        RunExact(out[n..], prefix, status, after, collected + out[..n]);
        Rejoin(out, n);
        Associates(collected, out[..n], out[n..]);
      }
    } else {
      ReplyLast(out, prefix, status, after, collected);
    }
  }

  lemma MarkedExtends(text: seq<byte>, out: seq<byte>, prefix: seq<byte>, digits: seq<byte>,
                      tail: seq<byte>, rest: seq<byte>)
    requires Marked(text, out, prefix, digits, tail)
    ensures Marked(text + rest, out, prefix, digits, tail + rest)
  {
    Associates([US], tail, rest);
    Associates(digits, [US] + tail, rest);
    Associates(prefix, digits + ([US] + tail), rest);
    Associates(out, prefix + (digits + ([US] + tail)), rest);
  }

  lemma MarkedPrepends(line: seq<byte>, text: seq<byte>, out: seq<byte>, prefix: seq<byte>,
                       digits: seq<byte>, tail: seq<byte>)
    requires Marked(text, out, prefix, digits, tail)
    ensures Marked(line + text, line + out, prefix, digits, tail)
  {
    Associates(line, out, prefix + (digits + ([US] + tail)));
  }

  /** Conversely, any successful run really found its marker: the bytes consumed begin
      with the returned output, the marker, a parsable status and the closing byte. */
  lemma {:induction false} RunSound(stream: seq<byte>, prefix: seq<byte>, collected: seq<byte>)
    returns (out: seq<byte>, digits: seq<byte>, tail: seq<byte>)
    requires Reply(stream, prefix, collected).0.Ok?
    ensures var (outcome, rest) := Reply(stream, prefix, collected);
            outcome.value.0 == collected + out
            && Marked(stream, out, prefix, digits, tail + rest)
            && ParseI32(digits) == Some(outcome.value.1)
    decreases |stream|
  {
    var n := LineLength(stream);
    var line, rest := stream[..n], stream[n..];
    Rejoin(stream, n);
    match CompletionIn(line, prefix)
    case Some(c) =>
      digits, tail := CompletionMeans(line, prefix);
      out := line[..c.outputEnd];
      MarkedExtends(line, out, prefix, digits, tail, rest);
    case None =>
      var more;
      more, digits, tail := RunSound(rest, prefix, collected + line);
      out := line + more;
      Associates(collected, line, more);
      MarkedPrepends(line, rest, more, prefix, digits, tail + Reply(stream, prefix, collected).1);
  }

  // ---------------------------------------------------------------- successive runs

  datatype Command = Command(out: seq<byte>, prefix: seq<byte>, status: int)

  ghost predicate WellFramed(c: Command) {
    IsMarker(c.prefix) && Absent(c.out, c.prefix) && I32_MIN <= c.status <= I32_MAX
  }

  /** What the shell prints for a command, followed by what it prints afterwards. */
  function Printed(c: Command, after: seq<byte>): seq<byte> {
    c.out + (MarkerText(c.prefix, c.status) + after)
  }

  function Transcript(commands: seq<Command>): seq<byte> {
    if commands == [] then [] else Printed(commands[0], Transcript(commands[1..]))
  }

  /** Running every command in order against one shell stream. */
  function RunAll(stream: seq<byte>, commands: seq<Command>): seq<Outcome>
    decreases |commands|
  {
    if commands == [] then []
    else
      var (outcome, rest) := Reply(stream, commands[0].prefix, []);
      [outcome] + RunAll(rest, commands[1..])
  }

  /** Successive runs never mix outputs: each returns its own command's bytes and status. */
  lemma {:induction false} RunsNeverMix(commands: seq<Command>)
    requires forall c :: c in commands ==> WellFramed(c) && WholeLines(c.out) <= OUTPUT_LIMIT
    ensures var outcomes := RunAll(Transcript(commands), commands);
            |outcomes| == |commands|
            && forall i :: 0 <= i < |commands| ==> outcomes[i] == Ok((commands[i].out, commands[i].status))
  {
    if commands != [] {
      FirstRun(commands[0], Transcript(commands[1..]));
      RunsNeverMix(commands[1..]);
    }
  }

  lemma FirstRun(c: Command, after: seq<byte>)
    requires WellFramed(c) && WholeLines(c.out) <= OUTPUT_LIMIT
    ensures Reply(Printed(c, after), c.prefix, []) == (Ok((c.out, c.status)), after)
  {
    RunExact(c.out, c.prefix, c.status, after, []);
    assert [] + c.out == c.out;
  }

  /** How far `run` reads before it gives up on too much output. */
  function Overrun(out: seq<byte>, collected: nat): nat
    decreases |out|
  {
    var n := LineLength(out);
    if n == 0 || collected + n > OUTPUT_LIMIT then n
    else n + Overrun(out[n..], collected + n)
  }

  /** An overflowing run stops inside the output: the unread rest still holds the tail of
      that output and its marker. */
  lemma {:induction false} OverflowLeavesMarker(
    out: seq<byte>, prefix: seq<byte>, after: seq<byte>, collected: seq<byte>)
    requires Absent(out, prefix)
    requires |collected| <= OUTPUT_LIMIT < |collected| + WholeLines(out)
    ensures var k := Overrun(out, |collected|);
            k <= |out|
            && Reply(out + after, prefix, collected) == (Err(OutputTooLong), out[k..] + after)
    decreases |out|
  {
    var n := LineLength(out);
    ReplyStep(out, prefix, after, collected);
    if |collected| + n <= OUTPUT_LIMIT {
      OverflowLeavesMarker(out[n..], prefix, after, collected + out[..n]);
      var k := Overrun(out[n..], |collected| + n);
      assert out[n..][k..] == out[n + k..];
    }
  }

  /** What an overflowing run leaves unread of its own command. */
  function Stale(c: Command): seq<byte> {
    var k := Overrun(c.out, 0);
    (if k <= |c.out| then c.out[k..] else []) + MarkerText(c.prefix, c.status)
  }

  /** What an overflowing run leaves is the stale tail, as if it were output of the next. */
  lemma StaleComesFirst(first: Command, second: Command, after: seq<byte>)
    requires WellFramed(first) && WholeLines(first.out) > OUTPUT_LIMIT
    ensures Reply(Printed(first, Printed(second, after)), first.prefix, [])
            == (Err(OutputTooLong), Printed(second.(out := Stale(first) + second.out), after))
  {
    var text1, tail := MarkerText(first.prefix, first.status), Printed(second, after);
    OverflowLeavesMarker(first.out, first.prefix, text1 + tail, []);
    var k := Overrun(first.out, 0);
    Associates(first.out[k..], text1, tail);
    Associates(Stale(first), second.out, MarkerText(second.prefix, second.status) + after);
  }

  lemma StaleIsSome(c: Command)
    ensures |Stale(c)| > 0
  {
  }

  /** So the run after an overflow is desynchronised: it answers with the stale tail, the
      old marker and only then its own output. */
  lemma OverflowDesynchronises(first: Command, second: Command, after: seq<byte>)
    requires WellFramed(first) && WholeLines(first.out) > OUTPUT_LIMIT
    requires WellFramed(second.(out := Stale(first) + second.out))
    requires WholeLines(Stale(first) + second.out) <= OUTPUT_LIMIT
    ensures var (outcome1, rest1) := Reply(Printed(first, Printed(second, after)), first.prefix, []);
            var (outcome2, rest2) := Reply(rest1, second.prefix, []);
            outcome1 == Err(OutputTooLong) && rest2 == after
            && outcome2 == Ok((Stale(first) + second.out, second.status))
            && Stale(first) + second.out != second.out
  {
    var late := Stale(first) + second.out;
    StaleComesFirst(first, second, after);
    RunExact(late, second.prefix, second.status, after, []);
    StaleIsSome(first);
    assert [] + late == late && |late| == |Stale(first)| + |second.out|;
  }

  lemma AfterOverflow(first: Command, second: Command, after: seq<byte>)
    requires WellFramed(first) && WholeLines(first.out) > OUTPUT_LIMIT
    requires WellFramed(second.(out := Stale(first) + second.out))
    ensures var (outcome1, rest1) := Reply(Printed(first, Printed(second, after)), first.prefix, []);
            Reply(rest1, second.prefix, []).0 != Ok((second.out, second.status))
  {
    var late := Stale(first) + second.out;
    StaleComesFirst(first, second, after);
    RunExact(late, second.prefix, second.status, after, []);
    StaleIsSome(first);
    assert |[] + late| == |Stale(first)| + |second.out|;
  }

  /** The run after another answers for its own command exactly when both stayed within the
      limit. The second marker occurs neither in its own output nor in what the first may leave. */
  lemma NextRunExactly(first: Command, second: Command, after: seq<byte>)
    requires WellFramed(first) && WellFramed(second) && WellFramed(second.(out := Stale(first) + second.out))
    ensures var (outcome1, rest1) := Reply(Printed(first, Printed(second, after)), first.prefix, []);
            var (outcome2, rest2) := Reply(rest1, second.prefix, []);
            outcome2 == Ok((second.out, second.status))
            <==> WholeLines(first.out) <= OUTPUT_LIMIT && WholeLines(second.out) <= OUTPUT_LIMIT
  {
    if WholeLines(first.out) <= OUTPUT_LIMIT {
      FirstRun(first, Printed(second, after));
      RunExact(second.out, second.prefix, second.status, after, []);
      assert [] + second.out == second.out;
    } else {
      AfterOverflow(first, second, after);
    }
  }

  // ---------------------------------------------------------------- run, as the source runs it

  // ---------------------------------------------------------------- what the shell makes of it

  const BACKSLASH: byte := 0x5c
  const PERCENT: byte := 0x25
  const QUOTE: byte := 0x27

  /** `printf '` and `' "$?"`, in ASCII. */
  const PRINTF_OPEN: seq<byte> := [0x70, 0x72, 0x69, 0x6e, 0x74, 0x66, 0x20, 0x27]
  const PRINTF_CLOSE: seq<byte> := [0x27, 0x20, 0x22, 0x24, 0x3f, 0x22]

  predicate IsOctal(b: byte) { ZERO <= b < ZERO + 8 }

  function OctalValue(b: byte): int { b as int - ZERO as int }

  /** The shell's `printf` of one number: three-digit octal escapes, `\n` and `%d`; other
      escapes and directives are not modelled. */
  function Render(format: seq<byte>, n: int): Option<seq<byte>> {
    if format == [] then Some([])
    else if format[0] == BACKSLASH then
      if |format| >= 4 && IsOctal(format[1]) && IsOctal(format[2]) && IsOctal(format[3]) then
        var code := 64 * OctalValue(format[1]) + 8 * OctalValue(format[2]) + OctalValue(format[3]);
        if code < 256 then Followed([code as byte], Render(format[4..], n)) else None
      else if |format| >= 2 && format[1] == 0x6e then Followed([NEWLINE], Render(format[2..], n))
      else None
    else if format[0] == PERCENT then
      if |format| >= 2 && format[1] == 0x64 then Followed(PrintInt(n), Render(format[2..], n)) else None
    else Followed([format[0]], Render(format[1..], n))
  }

  function Followed(printed: seq<byte>, rest: Option<seq<byte>>): Option<seq<byte>> {
    if rest.Some? then Some(printed + rest.value) else None
  }

  /** The line is a `printf` of the last command's status in this single-quoted format. */
  predicate IsPrintf(line: seq<byte>, format: seq<byte>) {
    line == PRINTF_OPEN + format + PRINTF_CLOSE && QUOTE !in format
  }

  /** What executing the line prints after a command that ended with `status`. */
  ghost predicate Prints(line: seq<byte>, status: int, printed: seq<byte>) {
    exists format :: IsPrintf(line, format) && Render(format, status) == Some(printed)
  }

  lemma PrintsOnce(line: seq<byte>, status: int, p: seq<byte>, q: seq<byte>)
    requires Prints(line, status, p) && Prints(line, status, q)
    ensures p == q
  {
    var f :| IsPrintf(line, f) && Render(f, status) == Some(p);
    var g :| IsPrintf(line, g) && Render(g, status) == Some(q);
    assert |f| == |g|;
    assert line[|PRINTF_OPEN|..|PRINTF_OPEN| + |f|] == f;
    assert line[|PRINTF_OPEN|..|PRINTF_OPEN| + |g|] == g;
  }

  /** One line that prints the marker with the status of the command before it. */
  ghost predicate AsksForMarker(line: seq<byte>, id: seq<byte>) {
    NEWLINE !in line && forall status :: Prints(line, status, MarkerText(MarkerPrefix(id), status))
  }

  lemma {:induction false} LiteralsRender(text: seq<byte>, rest: seq<byte>, n: int)
    requires BACKSLASH !in text && PERCENT !in text
    ensures Render(text + rest, n) == Followed(text, Render(rest, n))
  {
    if text == [] {
      assert text + rest == rest;
      assert Render(rest, n).Some? ==> [] + Render(rest, n).value == Render(rest, n).value;
    } else {
      assert (text + rest)[1..] == text[1..] + rest;
      LiteralsRender(text[1..], rest, n);
      if Render(rest, n).Some? {
        assert [text[0]] + (text[1..] + Render(rest, n).value) == text + Render(rest, n).value;
      }
    }
  }

  /** `:%d\037\n` */
  const FORMAT_TAIL: seq<byte> := [0x3a, 0x25, 0x64, 0x5c, 0x30, 0x33, 0x37, 0x5c, 0x6e]
  /** `\036` */
  const FORMAT_HEAD: seq<byte> := [0x5c, 0x30, 0x33, 0x36]

  lemma TailRenders(n: int)
    ensures Render(FORMAT_TAIL, n) == Some([COLON] + (PrintInt(n) + ([US] + [NEWLINE])))
  {
    var f := FORMAT_TAIL;
    assert f[1..] == [0x25, 0x64, 0x5c, 0x30, 0x33, 0x37, 0x5c, 0x6e];
    assert f[1..][2..] == [0x5c, 0x30, 0x33, 0x37, 0x5c, 0x6e];
    assert f[1..][2..][4..] == [0x5c, 0x6e];
    assert f[1..][2..][4..][2..] == [];
    var last: seq<byte> := [0x5c, 0x6e];
    assert last[2..] == [] && [NEWLINE] + [] == [NEWLINE];
    assert Render(last, n) == Followed([NEWLINE], Render([], n)) == Some([NEWLINE]);
    assert Render([0x5c, 0x30, 0x33, 0x37, 0x5c, 0x6e], n) == Some([US] + [NEWLINE]);
    assert Render(f[1..], n) == Some(PrintInt(n) + ([US] + [NEWLINE]));
  }

  lemma HeadRenders(rest: seq<byte>, n: int)
    ensures Render(FORMAT_HEAD + rest, n) == Followed([RS], Render(rest, n))
  {
    assert (FORMAT_HEAD + rest)[4..] == rest;
  }

  lemma MarkerTextIsLiteral(id: seq<byte>)
    requires IsHex(id)
    ensures BACKSLASH !in SHEX_DASH + id && PERCENT !in SHEX_DASH + id
  {
    assert forall b :: b in SHEX_DASH + id <==> b in SHEX_DASH || b in id;
  }

  lemma FormatRenders(id: seq<byte>, n: int)
    requires IsHex(id)
    ensures Render(FORMAT_HEAD + (SHEX_DASH + id + FORMAT_TAIL), n) == Some(MarkerText(MarkerPrefix(id), n))
  {
    var status := PrintInt(n) + ([US] + [NEWLINE]);
    HeadRenders(SHEX_DASH + id + FORMAT_TAIL, n);
    MarkerTextIsLiteral(id);
    LiteralsRender(SHEX_DASH + id, FORMAT_TAIL, n);
    TailRenders(n);
    assert [RS] + ((SHEX_DASH + id) + ([COLON] + status)) == MarkerPrefix(id) + status;
  }

  /** The line `run` writes after the command: `printf '\036SHEX-<id>:%d\037\n' "$?"`. */
  function MarkerRequest(id: seq<byte>): seq<byte> {
    PRINTF_OPEN + (FORMAT_HEAD + (SHEX_DASH + id + FORMAT_TAIL)) + PRINTF_CLOSE
  }

  lemma RequestIsOneLine(id: seq<byte>)
    requires IsHex(id)
    ensures IsPrintf(MarkerRequest(id), FORMAT_HEAD + (SHEX_DASH + id + FORMAT_TAIL)) && NEWLINE !in MarkerRequest(id)
  {
    HexIsPlain(id, QUOTE);
    HexIsPlain(id, NEWLINE);
  }

  lemma HexIsPlain(id: seq<byte>, b: byte)
    requires IsHex(id) && !(ZERO <= b < ZERO + 10) && !(0x61 <= b <= 0x66)
    requires b !in SHEX_DASH && b !in FORMAT_TAIL
    ensures b !in SHEX_DASH + id + FORMAT_TAIL
  {
    var text := SHEX_DASH + id + FORMAT_TAIL;
    assert forall c :: c in text <==> c in SHEX_DASH || c in id || c in FORMAT_TAIL;
  }

  lemma MarkerRequestAsks(id: seq<byte>)
    requires IsHex(id)
    ensures AsksForMarker(MarkerRequest(id), id)
  {
    var line := MarkerRequest(id);
    RequestIsOneLine(id);
    forall status ensures Prints(line, status, MarkerText(MarkerPrefix(id), status)) {
      FormatRenders(id, status);
      assert IsPrintf(line, FORMAT_HEAD + (SHEX_DASH + id + FORMAT_TAIL));
    }
  }

  /** The shell process seen through its pipes: bytes written to it, and the bytes it will
      yield that nobody has read yet. */
  class ShellSession {
    var inputOpen: bool
    var input: seq<byte>
    var output: seq<byte>

    constructor (output: seq<byte>)
      ensures inputOpen && input == [] && this.output == output
    {
      inputOpen, input, this.output := true, [], output;
    }

    /** `BufRead::read_until(b'\n')`. */
    method ReadLine() returns (line: seq<byte>)
      modifies this`output
      ensures line + output == old(output)
      ensures |line| == LineLength(old(output))
    {
      var n := LineLength(output);
      line, output := output[..n], output[n..];
    }

    /** Writes the command and then one line that makes the shell print the marker with the
        command's status, and reads lines until the marker. */
    method Run(command: seq<byte>, id: seq<byte>) returns (r: Outcome)
      modifies this`input, this`output
      ensures !inputOpen ==> r == Err(InputClosed) && input == old(input) && output == old(output)
      ensures inputOpen ==> (r, output) == Reply(old(output), MarkerPrefix(id), [])
      ensures inputOpen ==>
                exists line :: (IsHex(id) ==> AsksForMarker(line, id))
                               && input == old(input) + (command + [NEWLINE]) + (line + [NEWLINE])
    {
      if !inputOpen {
        return Err(InputClosed);
      }
      input := input + (command + [NEWLINE]);
      input := input + (MarkerRequest(id) + [NEWLINE]);
      if IsHex(id) {
        MarkerRequestAsks(id);
      }
      r := ReadReply(MarkerPrefix(id));
    }

    /** The read loop of `run`. */
    method ReadReply(prefix: seq<byte>) returns (r: Outcome)
      modifies this`output
      ensures (r, output) == Reply(old(output), prefix, [])
    {
      var collected: seq<byte> := [];
      while true
        invariant Reply(output, prefix, collected) == Reply(old(output), prefix, [])
        decreases |output|
      {
        ghost var before := output;
        var line := ReadLine();
        assert line == before[..LineLength(before)] && output == before[LineLength(before)..];
        if line == [] {
          return Err(ShellExited);
        }
        match CompletionIn(line, prefix) {
          case Some(c) =>
            collected := collected + line[..c.outputEnd];
            return Ok((collected, c.status));
          case None =>
            collected := collected + line;
            if |collected| > OUTPUT_LIMIT {
              return Err(OutputTooLong);
            }
        }
      }
    }
  }

  /** End to end: a shell that prints `out` for the command, ending it with `status`, and then
      executes the line it was asked to, makes `run` return exactly that, and leaves the rest
      unread. */
  lemma RunEndToEnd(id: seq<byte>, line: seq<byte>, out: seq<byte>, status: int, printed: seq<byte>, after: seq<byte>)
    requires IsHex(id) && AsksForMarker(line, id) && Prints(line, status, printed)
    requires Absent(out, MarkerPrefix(id)) && I32_MIN <= status <= I32_MAX && WholeLines(out) <= OUTPUT_LIMIT
    ensures Reply(out + (printed + after), MarkerPrefix(id), []) == (Ok((out, status)), after)
  {
    MarkerPrefixIsMarker(id);
    assert Prints(line, status, MarkerText(MarkerPrefix(id), status));
    PrintsOnce(line, status, printed, MarkerText(MarkerPrefix(id), status));
    RunExact(out, MarkerPrefix(id), status, after, []);
    assert [] + out == out;
  }
}
