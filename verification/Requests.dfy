/** What a connection's requests are, said in terms of what its user asked for (src/main.rs:213-340,
    455-592), in every run: which session is opened and how, and which commands are sent. */
module Requests {
  import opened Wrappers
  import opened Protocol
  import opened Channel
  import opened Programs
  import opened Conversation
  import opened Answers
  import L = Lockstep

  predicate Accepted(c: Conn) { c.expected.Some? ==> c.expected.value == c.signature }

  /** The first request of each command. */
  predicate FirstAsked(p: Program, r: ClientRequest) {
    match p
    case Auth => r == Disconnect
    case Connect(None, _) => r == Open(None, false)
    case Connect(Some(session), _) => r == Open(Some(session), true)
    case Exec(session, _) => r == Open(session, true)
    case Close(target) => r == DeleteSession(target)
    case Latency(_) => r == Ping
  }

  /** `exec` always asks for a persistent session, `connect` exactly for one it names; both ask for
      the session they were given, or for a new one. */
  lemma OpensWhatWasAsked(c: Conn)
    requires Reachable(c) && |c.link.log| > FIRST_REQUEST
    ensures Accepted(c) && RequestAt(c.link.log, FIRST_REQUEST).Some?
    ensures FirstAsked(c.program, RequestAt(c.link.log, FIRST_REQUEST).value)
  {
    ReachableInv(c);
    FirstTurns();
    assert WellSaid(c, FIRST_REQUEST);
  }

  /** The commands a user has asked for. */
  ghost predicate Wants(p: Program, commands: seq<string>) {
    match p
    case Exec(_, command) => commands == [command]
    case Connect(_, lines) => IsScript(lines, commands)
    case _ => commands == []
  }

  lemma WantsSome(p: Program) returns (commands: seq<string>)
    ensures Wants(p, commands)
  {
    match p
    case Exec(_, command) => commands := [command];
    case Connect(_, lines) =>
      commands := Commands(lines);
      CommandsAreScript(lines, commands);
    case _ => commands := [];
  }

  /** After `k` replies a session has been sent `k - 1` commands. */
  function SentAfter(k: nat): nat { if k == 0 then 0 else k - 1 }

  /** What is asked at the client's turn: the first request, then the commands in order, then
      Disconnect. */
  lemma AskedAt(c: Conn, i: nat, commands: seq<string>)
    requires LogInv(c) && FIRST_REQUEST <= i < |c.link.log| && L.ClientTurn(i) && Wants(c.program, commands)
    ensures RequestAt(c.link.log, i).Some?
    ensures var k, r := |Replies(c.link.log, i)|, RequestAt(c.link.log, i).value;
            (r.Run? ==> 0 < k <= |commands| && r.command == commands[k - 1])
            && (!r.Run? && 0 < k && (c.program.Exec? || c.program.Connect?) ==> r.Disconnect? && k > |commands|)
  {
    assert WellSaid(c, i);
    if c.program.Connect? {
      CommandsAreScript(c.program.lines, commands);
    }
  }

  /** What has been sent before position `i`, the client's turn. */
  ghost predicate SentThere(c: Conn, i: nat, commands: seq<string>) {
    var k := |Replies(c.link.log, i)|;
    if c.program.Exec? || c.program.Connect?
    then SentAfter(k) <= |commands| && RunsIn(c.link.log, i) == commands[..SentAfter(k)]
    else RunsIn(c.link.log, i) == []
  }

  /** The commands sent before the client's turn. */
  lemma {:induction false} SentBefore(c: Conn, i: nat, commands: seq<string>)
    requires LogInv(c) && FIRST_REQUEST <= i <= |c.link.log| && L.ClientTurn(i) && Wants(c.program, commands)
    ensures SentThere(c, i, commands)
  {
    FirstTurns();
    if i > FIRST_REQUEST {
      SentBefore(c, i - 2, commands);
      SentNext(c, i - 2, commands);
    }
  }

  lemma SentNext(c: Conn, i: nat, commands: seq<string>)
    requires LogInv(c) && FIRST_REQUEST <= i && i + 2 <= |c.link.log| && L.ClientTurn(i) && Wants(c.program, commands)
    requires SentThere(c, i, commands)
    ensures SentThere(c, i + 2, commands)
  {
    assert !L.ClientTurn(i + 1);
    RepliesStep(c, i + 1);
    AskedAt(c, i, commands);
    assert WellSaid(c, i + 1);
  }

  /** Nothing but a request in turn can add a command. */
  lemma LastFrameSends(c: Conn, commands: seq<string>)
    requires LogInv(c) && |c.link.log| > FIRST_REQUEST && !L.ClientTurn(|c.link.log|) && Wants(c.program, commands)
    ensures L.ClientTurn(|c.link.log| - 1)
    ensures RunsIn(c.link.log, |c.link.log|) <= commands
  {
    var n := |c.link.log| - 1;
    FirstTurns();
    SentBefore(c, n, commands);
    AskedAt(c, n, commands);
  }

  /** In every run the commands a client has sent are those its user asked for, in order, as far as
      it has come. */
  lemma SendsWhatWasAsked(c: Conn, commands: seq<string>)
    requires Reachable(c) && Wants(c.program, commands)
    ensures RunsIn(c.link.log, |c.link.log|) <= commands
  {
    ReachableInv(c);
    FirstTurns();
    if |c.link.log| >= FIRST_REQUEST {
      if L.ClientTurn(|c.link.log|) {
        SentBefore(c, |c.link.log|, commands);
      } else {
        LastFrameSends(c, commands);
      }
    }
  }

  /** And a client of a session says Disconnect only after all of them. */
  lemma LeavesAfterAll(c: Conn, i: nat, commands: seq<string>)
    requires Reachable(c) && Wants(c.program, commands) && (c.program.Exec? || c.program.Connect?)
    requires FIRST_REQUEST <= i && L.ClientTurn(i) && RequestAt(c.link.log, i) == Some(Disconnect)
    ensures RunsIn(c.link.log, |c.link.log|) == commands
  {
    ReachableInv(c);
    FirstTurns();
    OpensWhatWasAsked(c);
    if i > FIRST_REQUEST {
      assert !L.ClientTurn(i - 1);
      RepliesStep(c, i - 1);
    }
    AskedAt(c, i, commands);
    SentBefore(c, i, commands);
    RunsGrow(c.link.log, i, |c.link.log|);
    SendsWhatWasAsked(c, commands);
  }

  /** Reply number `k + 1` of a session tells answer number `k`. */
  ghost predicate RepliesTell(c: Conn, replies: seq<ServerReply>, n: nat) {
    |replies| == n + 1 && n <= |c.answers| && forall k :: 0 <= k < n ==> Tells(replies[k + 1], c.answers[k])
  }

  /** Before the client's turn each reply after Opened has told what `run` gave for the command it
      answers. */
  lemma {:induction false} ToldThrough(c: Conn, i: nat, commands: seq<string>)
    requires Reachable(c) && Wants(c.program, commands) && (c.program.Exec? || c.program.Connect?)
    requires FIRST_REQUEST + 2 <= i <= |c.link.log| && L.ClientTurn(i)
    ensures RepliesTell(c, Replies(c.link.log, i), |RunsIn(c.link.log, i)|)
  {
    FirstTurns();
    if i == FIRST_REQUEST + 2 {
      OpenedTellsNothing(c);
    } else {
      assert !L.ClientTurn(i - 1);
      ToldThrough(c, i - 2, commands);
      OneMoreTold(c, i - 2, commands);
    }
  }

  lemma OpenedTellsNothing(c: Conn)
    requires Reachable(c) && (c.program.Exec? || c.program.Connect?) && |c.link.log| >= FIRST_REQUEST + 2
    ensures |Replies(c.link.log, FIRST_REQUEST + 2)| == 1 && RunsIn(c.link.log, FIRST_REQUEST + 2) == []
  {
    ReachableInv(c);
    FirstTurns();
    OpensWhatWasAsked(c);
    RepliesStep(c, FIRST_REQUEST + 1);
    assert RunsIn(c.link.log, FIRST_REQUEST + 1) == RunsIn(c.link.log, FIRST_REQUEST) == [];
    assert Replies(c.link.log, FIRST_REQUEST) == [];
  }

  lemma OneMoreTold(c: Conn, i: nat, commands: seq<string>)
    requires Reachable(c) && Wants(c.program, commands) && (c.program.Exec? || c.program.Connect?)
    requires FIRST_REQUEST + 2 <= i && i + 1 < |c.link.log| && L.ClientTurn(i)
    requires RepliesTell(c, Replies(c.link.log, i), |RunsIn(c.link.log, i)|)
    ensures RepliesTell(c, Replies(c.link.log, i + 2), |RunsIn(c.link.log, i + 2)|)
  {
    ReachableInv(c);
    assert !L.ClientTurn(i + 1);
    SessionRuns(c, i, commands);
    AnswersAgree(c);
    assert AgreeAt(c, i);
    OneMoreRun(c.link.log, i);
    RepliesStep(c, i + 1);
    LongerTells(c, Replies(c.link.log, i), |RunsIn(c.link.log, i)|, ReplyAt(c.link.log, i + 1).value);
  }

  lemma LongerTells(c: Conn, replies: seq<ServerReply>, n: nat, reply: ServerReply)
    requires RepliesTell(c, replies, n) && n < |c.answers| && Tells(reply, c.answers[n])
    ensures RepliesTell(c, replies + [reply], n + 1)
  {
  }

  /** A request of a session that is answered is a command, but for the first. */
  lemma SessionRuns(c: Conn, i: nat, commands: seq<string>)
    requires LogInv(c) && Wants(c.program, commands) && (c.program.Exec? || c.program.Connect?)
    requires FIRST_REQUEST + 2 <= i && i + 1 < |c.link.log| && L.ClientTurn(i)
    ensures RunAt(c.link.log, i)
  {
    FirstTurns();
    assert !L.ClientTurn(i - 1) && !L.ClientTurn(i + 1);
    RepliesStep(c, i - 1);
    AskedAt(c, i, commands);
    assert WellSaid(c, i + 1);
  }

  // ---------------------------------------------------------------- the session that is opened

  /** Only the first request opens. */
  lemma OpenIsFirst(c: Conn, i: nat)
    requires LogInv(c) && FIRST_REQUEST <= i < |c.link.log| && L.ClientTurn(i)
    requires RequestAt(c.link.log, i).Some? && RequestAt(c.link.log, i).value.Open?
    ensures i == FIRST_REQUEST && (c.program.Exec? || c.program.Connect?)
  {
    FirstTurns();
    assert WellSaid(c, i);
    if i > FIRST_REQUEST && (c.program.Exec? || c.program.Connect?) {
      var commands := WantsSome(c.program);
      assert !L.ClientTurn(i - 1);
      RepliesStep(c, i - 1);
      AskedAt(c, i, commands);
    }
  }

  /** A handler in a session was asked for it, or for a new one. */
  predicate OpenedRight(c: Conn) {
    c.mode.InSession? ==>
      match RequestAt(c.link.log, FIRST_REQUEST)
      case Some(Open(wanted, _)) => wanted.Some? ==> wanted.value == c.mode.id
      case _ => false
  }

  lemma StepOpensRight(c: Conn, s: Step)
    requires Inv(c) && OpenedRight(c) && Enabled(c, s)
    ensures OpenedRight(Apply(c, s))
  {
    LogGrows(c, s);
    if Asked(c).Some? && Asked(c).value.Open? {
      assert L.TurnInv(c.link, L.Host);
      OpenIsFirst(c, c.link.host.pos);
    }
    assert WorkInv(c);
  }

  lemma ReachableOpensRight(c: Conn)
    requires Reachable(c)
    ensures OpenedRight(c)
  {
    var conns, steps :| IsRun(conns, steps) && conns[|steps|] == c;
    RunOpensRight(conns, steps, |steps|);
  }

  lemma {:induction false} RunOpensRight(conns: seq<Conn>, steps: seq<Step>, n: nat)
    requires IsRun(conns, steps) && n < |conns|
    ensures OpenedRight(conns[n])
  {
    if n == 0 {
      var c := conns[0];
      var key :| c == Start(c.program, c.expected, c.signature, key);
    } else {
      RunOpensRight(conns, steps, n - 1);
      RunKeepsInv(conns, steps, n - 1);
      StepOpensRight(conns[n - 1], steps[n - 1]);
    }
  }
}
