/** The client programs (src/main.rs:213-340, 455-592) as strategies: what a client sends next,
    given the replies it has accepted since the host's Hello. */
module Programs {
  import opened Wrappers
  import opened Protocol

  datatype Program =
    | Auth
    | Connect(session: Option<string>, lines: seq<string>)
    | Exec(session: Option<string>, command: string)
    | Close(target: string)
    | Latency(count: nat)

  /** `Surprised` is every "unexpected response" branch; `Refused` bails on an Error reply. */
  datatype Choice = Ask(request: ClientRequest) | Finished | Refused | Surprised

  /** Unicode's White_Space. */
  predicate IsWhite(c: char) {
    var n := c as int;
    9 <= n <= 13 || n == 0x20 || n == 0x85 || n == 0xa0 || n == 0x1680 || 0x2000 <= n <= 0x200a
    || n == 0x2028 || n == 0x2029 || n == 0x202f || n == 0x205f || n == 0x3000
  }

  function TrimEnd(s: string): string {
    if s != "" && IsWhite(s[|s| - 1]) then TrimEnd(s[..|s| - 1]) else s
  }

  /** The commands an interactive session runs: trimmed, blank lines skipped, up to `exit` or
      the end of input. */
  function Commands(lines: seq<string>): seq<string> {
    if lines == [] || TrimEnd(lines[0]) == "exit" then []
    else if TrimEnd(lines[0]) == "" then Commands(lines[1..])
    else [TrimEnd(lines[0])] + Commands(lines[1..])
  }

  // ---------------------------------------------------------------- what the trimming and the commands mean

  /** Line breaks, tabs and blanks are white space. */
  lemma LineBreaksAreWhite()
    ensures IsWhite('\n') && IsWhite('\r') && IsWhite('\t') && IsWhite(' ')
    ensures forall c: char :: '!' <= c <= '~' ==> !IsWhite(c)
  {
  }

  /** `t` is the longest prefix of `s` that does not end in white space. */
  predicate IsTrimmed(s: string, t: string) {
    t <= s && (t == "" || !IsWhite(t[|t| - 1])) && forall i :: |t| <= i < |s| ==> IsWhite(s[i])
  }

  lemma {:induction false} TrimEndTrims(s: string)
    ensures forall t :: IsTrimmed(s, t) <==> t == TrimEnd(s)
  {
    if s != "" && IsWhite(s[|s| - 1]) {
      var shorter := s[..|s| - 1];
      TrimEndTrims(shorter);
      forall t ensures IsTrimmed(s, t) <==> IsTrimmed(shorter, t) {
        TrimmedShorter(s, t);
      }
    } else {
      forall t | IsTrimmed(s, t) ensures t == s {
        TrimmedWhole(s, t);
      }
    }
  }

  lemma TrimmedShorter(s: string, t: string)
    requires s != "" && IsWhite(s[|s| - 1])
    ensures IsTrimmed(s, t) <==> IsTrimmed(s[..|s| - 1], t)
  {
    var shorter := s[..|s| - 1];
    assert t <= s && |t| < |s| <==> t <= shorter;
    assert |t| == |s| && t <= s ==> t == s;
  }

  lemma TrimmedWhole(s: string, t: string)
    requires IsTrimmed(s, t) && (s == "" || !IsWhite(s[|s| - 1]))
    ensures t == s
  {
    assert |t| >= |s|;
    assert t == s[..|t|];
  }

  /** The lines end at number `cut`, with `exit` or for want of input. */
  predicate CutAt(lines: seq<string>, cut: nat) {
    cut <= |lines| && (cut < |lines| ==> IsTrimmed(lines[cut], "exit")) && forall i :: 0 <= i < cut ==> !IsTrimmed(lines[i], "exit")
  }

  predicate BlankAt(lines: seq<string>, i: nat) { i < |lines| && IsTrimmed(lines[i], "") }

  /** Line `i` is not blank, and `command` is what is left of it without trailing white space. */
  predicate GivesAt(lines: seq<string>, i: nat, command: string) {
    i < |lines| && command != "" && IsTrimmed(lines[i], command)
  }

  ghost predicate Ascends(picks: seq<nat>) { forall j, k :: 0 <= j < k < |picks| ==> picks[j] < picks[k] }

  /** `picks` are the lines from `start` to `cut` that are not blank, in order, and `commands` what they
      give. */
  ghost predicate Picked(lines: seq<string>, start: nat, cut: nat, picks: seq<nat>, commands: seq<string>) {
    |picks| == |commands| && Ascends(picks)
    && (forall j {:trigger picks[j]} :: 0 <= j < |picks| ==> start <= picks[j] < cut && GivesAt(lines, picks[j], commands[j]))
    && forall i: nat {:trigger BlankAt(lines, i)} :: start <= i < cut && i !in picks ==> BlankAt(lines, i)
  }

  /** The commands that `lines` make an interactive session run. */
  ghost predicate IsScript(lines: seq<string>, commands: seq<string>) {
    exists cut: nat, picks: seq<nat> :: CutAt(lines, cut) && Picked(lines, 0, cut, picks, commands)
  }

  /** What the lines from `i` on give. */
  lemma {:induction false} CommandsFrom(lines: seq<string>, i: nat) returns (cut: nat, picks: seq<nat>)
    requires i <= |lines|
    ensures i <= cut <= |lines| && (cut < |lines| ==> IsTrimmed(lines[cut], "exit"))
    ensures forall k :: i <= k < cut ==> !IsTrimmed(lines[k], "exit")
    ensures Picked(lines, i, cut, picks, Commands(lines[i..]))
    decreases |lines| - i
  {
    if i == |lines| {
      return i, [];
    }
    assert lines[i..][0] == lines[i] && lines[i..][1..] == lines[i + 1..];
    TrimEndTrims(lines[i]);
    if TrimEnd(lines[i]) == "exit" {
      return i, [];
    }
    cut, picks := CommandsFrom(lines, i + 1);
    if TrimEnd(lines[i]) == "" {
      BlankPicked(lines, i, cut, picks, Commands(lines[i + 1..]));
    } else {
      FirstPicked(lines, i, cut, picks, Commands(lines[i + 1..]), TrimEnd(lines[i]));
      picks := [i] + picks;
    }
  }

  lemma BlankPicked(lines: seq<string>, i: nat, cut: nat, picks: seq<nat>, commands: seq<string>)
    requires Picked(lines, i + 1, cut, picks, commands) && BlankAt(lines, i)
    ensures Picked(lines, i, cut, picks, commands)
  {
  }

  lemma FirstPicked(lines: seq<string>, i: nat, cut: nat, picks: seq<nat>, commands: seq<string>, command: string)
    requires Picked(lines, i + 1, cut, picks, commands) && GivesAt(lines, i, command) && i < cut
    ensures Picked(lines, i, cut, [i] + picks, [command] + commands)
  {
    var all: seq<nat> := [i] + picks;
    assert forall k: nat :: k in all <==> k == i || k in picks;
    forall j | 0 <= j < |all|
      ensures i <= all[j] < cut && GivesAt(lines, all[j], ([command] + commands)[j])
    {
      assert j > 0 ==> all[j] == picks[j - 1];
    }
  }

  lemma {:induction false} PicksFit(picks: seq<nat>, start: nat, cut: nat)
    requires start <= cut && Ascends(picks) && forall j :: 0 <= j < |picks| ==> start <= picks[j] < cut
    ensures |picks| <= cut - start
  {
    if picks != [] {
      var n := |picks| - 1;
      PicksFit(picks[..n], start, picks[n]);
    }
  }

  lemma {:induction false} PickedAreCommands(lines: seq<string>, i: nat, cut: nat, picks: seq<nat>, commands: seq<string>)
    requires i <= cut && CutAt(lines, cut) && Picked(lines, i, cut, picks, commands)
    ensures commands == Commands(lines[i..])
    decreases cut - i
  {
    if i == cut {
      PicksFit(picks, i, cut);
      if cut < |lines| {
        assert lines[i..][0] == lines[cut];
        TrimEndTrims(lines[cut]);
      }
    } else {
      assert lines[i..][0] == lines[i] && lines[i..][1..] == lines[i + 1..];
      TrimEndTrims(lines[i]);
      if i in picks {
        FirstOfPicks(lines, i, cut, picks, commands);
        PickedAreCommands(lines, i + 1, cut, picks[1..], commands[1..]);
        assert commands == [commands[0]] + commands[1..];
      } else {
        assert BlankAt(lines, i);
        assert forall j :: 0 <= j < |picks| ==> picks[j] != i;
        PickedAreCommands(lines, i + 1, cut, picks, commands);
      }
    }
  }

  lemma FirstOfPicks(lines: seq<string>, i: nat, cut: nat, picks: seq<nat>, commands: seq<string>)
    requires Picked(lines, i, cut, picks, commands) && i in picks
    ensures picks[0] == i && GivesAt(lines, i, commands[0]) && Picked(lines, i + 1, cut, picks[1..], commands[1..])
  {
    var k :| 0 <= k < |picks| && picks[k] == i;
    var first := picks[0];
    assert k == 0;
    assert forall p: nat :: p in picks && p != i ==> p in picks[1..];
    assert forall j :: 0 < j < |picks| ==> picks[0] < picks[j];
  }

  /** The commands are the script, and nothing else is. */
  lemma CommandsAreScript(lines: seq<string>, commands: seq<string>)
    ensures IsScript(lines, commands) <==> commands == Commands(lines)
  {
    var cut, picks := CommandsFrom(lines, 0);
    assert lines[0..] == lines;
    assert IsScript(lines, Commands(lines));
    if IsScript(lines, commands) {
      var c: nat, ps: seq<nat> :| CutAt(lines, c) && Picked(lines, 0, c, ps, commands);
      PickedAreCommands(lines, 0, c, ps, commands);
    }
  }

  function OpenRequest(p: Program): ClientRequest
    requires p.Connect? || p.Exec?
  {
    Open(p.session, if p.Exec? then true else p.session.Some?)
  }

  function AfterOpen(p: Program, replies: seq<ServerReply>): Choice
    requires (p.Connect? || p.Exec?) && replies != []
  {
    var last := replies[|replies| - 1];
    if |replies| == 1 then
      if last.Opened? then RunOrLeave(p, 0) else if last.Error? then Refused else Surprised
    else if last.Output? then RunOrLeave(p, |replies| - 1)
    else if last.Error? then (if p.Exec? then Refused else RunOrLeave(p, |replies| - 1))
    else Surprised
  }

  /** The next command, or Disconnect once all have run. */
  function RunOrLeave(p: Program, done: nat): Choice
    requires p.Connect? || p.Exec?
  {
    var commands := if p.Exec? then [p.command] else Commands(p.lines);
    if done < |commands| then Ask(Run(commands[done])) else Ask(Disconnect)
  }

  function Choose(p: Program, replies: seq<ServerReply>): Choice {
    match p
    case Auth => if replies == [] then Ask(Disconnect) else Surprised
    case Close(target) =>
      if replies == [] then Ask(DeleteSession(target))
      else
        var last := replies[|replies| - 1];
        if last == Deleted(target) then Finished else if last.Error? then Refused else Surprised
    case Latency(count) =>
      if replies != [] && !replies[|replies| - 1].Pong? then Surprised
      else if |replies| <= count then Ask(Ping)
      else Ask(Disconnect)
    case _ => if replies == [] then Ask(OpenRequest(p)) else AfterOpen(p, replies)
  }

  /** One reply of the right kind for each request; Disconnect has none. */
  predicate Matches(request: ClientRequest, reply: ServerReply) {
    match request
    case Open(_, _) => reply.Opened? || reply.Error?
    case Run(_) => reply.Output? || reply.Error?
    case DeleteSession(session) => reply == Deleted(session) || reply.Error?
    case Ping => reply.Pong?
    case Disconnect => false
  }

  /** The host's last word: it returns after sending it. */
  predicate LastWord(request: ClientRequest, reply: ServerReply) {
    request.DeleteSession? || (request.Open? && reply.Error?)
  }

  /** Each reply answers what was asked after the replies before it. */
  ghost predicate Conforming(p: Program, replies: seq<ServerReply>) {
    forall k :: 0 <= k < |replies| ==>
      Choose(p, replies[..k]).Ask? && Matches(Choose(p, replies[..k]).request, replies[k])
  }

  /** A client whose requests are answered in kind never meets an unexpected reply. */
  lemma NeverSurprised(p: Program, replies: seq<ServerReply>)
    requires Conforming(p, replies)
    ensures !Choose(p, replies).Surprised?
  {
    if replies != [] {
      var before := replies[..|replies| - 1];
      assert Choose(p, before).Ask? && Matches(Choose(p, before).request, replies[|replies| - 1]);
    }
  }

  /** Nothing is asked after the host's last word. */
  lemma LastWordIsFinal(p: Program, replies: seq<ServerReply>, reply: ServerReply)
    requires Choose(p, replies).Ask? && Matches(Choose(p, replies).request, reply)
    requires LastWord(Choose(p, replies).request, reply)
    ensures !Choose(p, replies + [reply]).Ask?
  {
    assert (replies + [reply])[|replies|] == reply;
  }

  /** Only an opened session is sent commands. */
  lemma RunAfterOpened(p: Program, replies: seq<ServerReply>)
    requires Conforming(p, replies)
    requires Choose(p, replies).Ask? && Choose(p, replies).request.Run?
    ensures replies != [] && replies[0].Opened?
  {
    assert replies != [];
    assert replies[..0] == [];
    assert Choose(p, []).Ask? && Matches(Choose(p, []).request, replies[0]);
    if |replies| > 1 {
      assert replies[..1] == [replies[0]];
      assert Choose(p, [replies[0]]).Ask?;
    }
  }

  function Asks(p: Program): nat {
    match p
    case Auth => 1
    case Connect(_, lines) => |Commands(lines)| + 2
    case Exec(_, _) => 3
    case Close(_) => 1
    case Latency(count) => count + 2
  }

  /** Every program asks a bounded number of times. */
  lemma AsksBounded(p: Program, replies: seq<ServerReply>)
    requires Conforming(p, replies) && Choose(p, replies).Ask?
    ensures |replies| < Asks(p)
  {
    if replies != [] {
      var n := |replies| - 1;
      assert Choose(p, replies[..n]).Ask? && Matches(Choose(p, replies[..n]).request, replies[n]);
    }
  }

  /** A client stops asking only after the host's last word, or when `exec` is answered with an
      Error. */
  lemma StopsAsking(p: Program, replies: seq<ServerReply>)
    requires Conforming(p, replies) && !Choose(p, replies).Ask?
    ensures replies != []
    ensures var n := |replies| - 1;
            Choose(p, replies[..n]).Ask?
            && (LastWord(Choose(p, replies[..n]).request, replies[n])
                || (p.Exec? && |replies| == 2 && replies[0].Opened? && replies[1].Error?))
  {
    assert replies != [];
    var n := |replies| - 1;
    assert Choose(p, replies[..n]).Ask? && Matches(Choose(p, replies[..n]).request, replies[n]);
    if n > 0 {
      assert replies[..0] == [];
      assert Choose(p, replies[..0]).Ask? && Matches(Choose(p, replies[..0]).request, replies[0]);
      assert replies[..n][|replies[..n]| - 1] == replies[n - 1];
      if n == 1 {
        assert replies[..1] == [replies[0]];
      }
    }
  }
}
