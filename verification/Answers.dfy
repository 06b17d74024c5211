/** What `run` gave for a command is what its client is told: the history `answers` of a connection
    beside its history `ran`, in every run (src/server.rs:143-152). */
module Answers {
  import opened Wrappers
  import opened Protocol
  import opened Channel
  import opened Conversation
  import L = Lockstep

  /** The reply tells exactly what `run` gave: its output and status, or its error. */
  predicate Tells(reply: ServerReply, result: ShellResult) {
    match result
    case Printed(data, status) => reply == Output(data, status)
    case Failed(message) => reply == Error(message)
  }

  predicate RunAt(log: seq<Frame>, i: nat) {
    i >= FIRST_REQUEST && L.ClientTurn(i) && RequestAt(log, i).Some? && RequestAt(log, i).value.Run?
  }

  /** The command asked at position `i` is command number `k` of the connection, and the reply after
      it tells answer number `k`. */
  predicate ToldAt(c: Conn, i: nat)
    requires RunAt(c.link.log, i)
  {
    var k := |RunsIn(c.link.log, i)|;
    k < |c.answers| && ReplyAt(c.link.log, i + 1).Some? && Tells(ReplyAt(c.link.log, i + 1).value, c.answers[k])
  }

  /** The answer in the handler's hands is the last one. */
  predicate WorkTells(c: Conn) {
    c.work.Answer? && RunAt(c.link.log, Subject(c)) ==>
      |c.answers| == |RunsIn(c.link.log, Subject(c))| + 1
      && c.work.reply.Some? && Tells(c.work.reply.value, c.answers[|c.answers| - 1])
  }

  ghost predicate AllTold(c: Conn) {
    forall i: nat :: RunAt(c.link.log, i) && i + 1 < |c.link.log| ==> ToldAt(c, i)
  }

  ghost predicate AnswersInv(c: Conn) { |c.answers| == |c.ran| && AllTold(c) && WorkTells(c) }

  // ---------------------------------------------------------------- every step keeps it

  lemma LongerLogTells(c: Conn, d: Conn, f: Frame)
    requires AllTold(c) && d.link.log == c.link.log + [f] && d.answers == c.answers
    requires var n := |c.link.log|; n > 0 && RunAt(d.link.log, n - 1) ==> ToldAt(d, n - 1)
    ensures AllTold(d)
  {
    forall i: nat | RunAt(d.link.log, i) && i + 1 < |d.link.log|
      ensures ToldAt(d, i)
    {
      if i + 1 < |c.link.log| {
        assert RunAt(c.link.log, i) && ToldAt(c, i);
        AppendKeepsReading(c.link.log, f, i);
      }
    }
  }

  lemma MoreAnswersTell(c: Conn, d: Conn)
    requires AllTold(c) && d.link.log == c.link.log && c.answers <= d.answers
    ensures AllTold(d)
  {
    forall i: nat | RunAt(d.link.log, i) && i + 1 < |d.link.log|
      ensures ToldAt(d, i)
    {
      assert ToldAt(c, i);
    }
  }

  /** The answer in hand stays so while the handler and what it answers do not change. */
  lemma WorkStillTells(c: Conn, d: Conn)
    requires WorkTells(c) && d.work == c.work && d.answers == c.answers && Subject(d) == Subject(c)
    requires RunsIn(d.link.log, Subject(c)) == RunsIn(c.link.log, Subject(c))
    requires c.work.Answer? ==> RequestAt(d.link.log, Subject(c)) == RequestAt(c.link.log, Subject(c))
    ensures WorkTells(d)
  {
  }

  lemma ClientPlaceTells(c: Conn, m: L.Move)
    requires Inv(c) && AnswersInv(c) && Enabled(c, ClientMove(m)) && m.Place?
    ensures AnswersInv(Apply(c, ClientMove(m)))
  {
    var d := Apply(c, ClientMove(m));
    LogGrows(c, ClientMove(m));
    assert L.TurnInv(c.link, L.Host) && WorkInv(c);
    var f := d.link.log[|c.link.log|];
    LongerLogTells(c, d, f);
    AppendKeepsReading(c.link.log, f, Subject(c));
    WorkStillTells(c, d);
  }

  lemma ClientStepTells(c: Conn, m: L.Move)
    requires Inv(c) && AnswersInv(c) && Enabled(c, ClientMove(m)) && !m.Place?
    ensures AnswersInv(Apply(c, ClientMove(m)))
  {
    var d := Apply(c, ClientMove(m));
    LogGrows(c, ClientMove(m));
    MoreAnswersTell(c, d);
    WorkStillTells(c, d);
  }

  /** The reply that is placed is the answer in hand. */
  lemma PlacedReplyTells(c: Conn, d: Conn, m: L.Move)
    requires WorkInv(c) && WorkTells(c) && HostMayMove(c, m) && m.Place? && !L.ClientTurn(c.link.host.pos)
    requires c.link.host.pos == |c.link.log| && d.answers == c.answers
    requires d.link.log == c.link.log + [L.WireFrame(c.link, c.link.host, m.plain)]
    ensures var n := |c.link.log|; n > 0 && RunAt(d.link.log, n - 1) ==> ToldAt(d, n - 1)
  {
    FirstTurns();
    var n := |c.link.log|;
    if n > 0 && RunAt(d.link.log, n - 1) {
      AppendKeepsReading(c.link.log, d.link.log[n], n - 1);
      assert RunAt(c.link.log, Subject(c));
    }
  }

  lemma HostPlaceTells(c: Conn, m: L.Move)
    requires Inv(c) && AnswersInv(c) && Enabled(c, HostMove(m)) && m.Place?
    ensures AnswersInv(Apply(c, HostMove(m)))
  {
    var d := Apply(c, HostMove(m));
    var n := |c.link.log|;
    LogGrows(c, HostMove(m));
    AppendKeepsReading(c.link.log, d.link.log[n], Subject(c));
    HostPlaceKeepsRest(c, m);
    WorkStillTells(c, d);
    PlacedReplyTells(c, d, m);
    LongerLogTells(c, d, d.link.log[n]);
  }

  lemma HostPlaceKeepsRest(c: Conn, m: L.Move)
    requires Inv(c) && Enabled(c, HostMove(m)) && m.Place?
    ensures var d := Apply(c, HostMove(m));
            d.work == c.work && d.link.host.pos == c.link.host.pos && d.answers == c.answers && d.ran == c.ran
            && Subject(d) == Subject(c) && Subject(c) < |c.link.log|
  {
    assert L.TurnInv(c.link, L.Host) && WorkInv(c);
    FirstTurns();
  }

  lemma HostStepTells(c: Conn, m: L.Move)
    requires Inv(c) && AnswersInv(c) && Enabled(c, HostMove(m)) && !m.Place?
    ensures AnswersInv(Apply(c, HostMove(m)))
  {
    var d := Apply(c, HostMove(m));
    LogGrows(c, HostMove(m));
    MoreAnswersTell(c, d);
    if d.work.Answer? {
      SubjectStays(c, m);
      WorkStillTells(c, d);
    }
  }

  lemma SubjectStays(c: Conn, m: L.Move)
    requires Inv(c) && Enabled(c, HostMove(m)) && !m.Place? && Apply(c, HostMove(m)).work.Answer?
    ensures Subject(Apply(c, HostMove(m))) == Subject(c)
  {
    assert L.TurnInv(c.link, L.Host) && WorkInv(c);
    assert L.ClientTurn(c.link.host.pos + 1) == !L.ClientTurn(c.link.host.pos);
  }

  lemma ServingTells(c: Conn, s: Step)
    requires Inv(c) && AnswersInv(c) && Enabled(c, s) && !s.ClientMove? && !s.HostMove?
    ensures AnswersInv(Apply(c, s))
  {
    var d := Apply(c, s);
    LogGrows(c, s);
    MoreAnswersTell(c, d);
    if !s.Weather? {
      assert Subject(d) == Subject(c) == c.link.host.pos;
    }
  }

  lemma StepTells(c: Conn, s: Step)
    requires Inv(c) && AnswersInv(c) && Enabled(c, s)
    ensures AnswersInv(Apply(c, s))
  {
    if s.ClientMove? {
      if s.move.Place? {
        ClientPlaceTells(c, s.move);
      } else {
        ClientStepTells(c, s.move);
      }
    } else if s.HostMove? {
      if s.move.Place? {
        HostPlaceTells(c, s.move);
      } else {
        HostStepTells(c, s.move);
      }
    } else {
      ServingTells(c, s);
    }
  }

  lemma {:induction false} RunTells(conns: seq<Conn>, steps: seq<Step>, n: nat)
    requires IsRun(conns, steps) && n < |conns|
    ensures AnswersInv(conns[n])
  {
    if n == 0 {
      var c := conns[0];
      var key :| c == Start(c.program, c.expected, c.signature, key);
    } else {
      RunTells(conns, steps, n - 1);
      RunKeepsInv(conns, steps, n - 1);
      StepTells(conns[n - 1], steps[n - 1]);
    }
  }

  lemma ReachableTells(c: Conn)
    requires Reachable(c)
    ensures AnswersInv(c)
  {
    var conns, steps :| IsRun(conns, steps) && conns[|steps|] == c;
    RunTells(conns, steps, |steps|);
  }

  // ---------------------------------------------------------------- the theorem

  /** Command and answer of one request. */
  predicate AgreeAt(c: Conn, i: nat)
    requires RunAt(c.link.log, i)
  {
    var k := |RunsIn(c.link.log, i)|;
    k < |c.ran| == |c.answers|
    && c.ran[k] == RequestAt(c.link.log, i).value.command
    && ReplyAt(c.link.log, i + 1).Some? && Tells(ReplyAt(c.link.log, i + 1).value, c.answers[k])
  }

  ghost predicate Agree(c: Conn) {
    |c.answers| == |c.ran| && forall i: nat :: RunAt(c.link.log, i) && i + 1 < |c.link.log| ==> AgreeAt(c, i)
  }

  /** In every run, whatever fails or expires: the reply to the k-th command of a connection tells
      exactly what `run` gave for the k-th command handed to it, which is that command. */
  lemma AnswersAgree(c: Conn)
    requires Reachable(c)
    ensures Agree(c)
  {
    ReachableInv(c);
    ReachableTells(c);
    forall i: nat | RunAt(c.link.log, i) && i + 1 < |c.link.log|
      ensures AgreeAt(c, i)
    {
      assert ToldAt(c, i);
      AnsweredIsHandled(c, i);
      RunsGrow(c.link.log, i + 1, Handled(c));
    }
  }

  lemma AnsweredIsHandled(c: Conn, i: nat)
    requires Inv(c) && RunAt(c.link.log, i) && i + 1 < |c.link.log|
    ensures i + 1 <= Handled(c) && RunsIn(c.link.log, i + 1) == RunsIn(c.link.log, i) + [RequestAt(c.link.log, i).value.command]
  {
    assert L.TurnInv(c.link, L.Host);
    assert !L.ClientTurn(i + 1);
  }

  /** The client has accepted the reply to a command: it is the last one handed to `run`. */
  lemma LastIsTold(c: Conn, i: nat)
    requires Reachable(c) && RunAt(c.link.log, i)
    requires c.link.client.io.Ready? && c.link.client.pos == i + 2 && L.ClientTurn(i + 2)
    ensures i + 1 < |c.link.log| && ReplyAt(c.link.log, i + 1).Some?
    ensures |c.answers| == |c.ran| > 0 && c.ran[|c.ran| - 1] == RequestAt(c.link.log, i).value.command
    ensures Tells(ReplyAt(c.link.log, i + 1).value, c.answers[|c.answers| - 1])
  {
    ReachableInv(c);
    ClientTurnMeansAllHandled(c);
    AnswersAgree(c);
    assert AgreeAt(c, i);
    OneMoreRun(c.link.log, i);
  }

  lemma OneMoreRun(log: seq<Frame>, i: nat)
    requires RunAt(log, i) && ReplyAt(log, i + 1).Some?
    ensures RunsIn(log, i + 2) == RunsIn(log, i) + [RequestAt(log, i).value.command]
  {
    assert RunsIn(log, i + 1) == RunsIn(log, i) + [RequestAt(log, i).value.command];
  }
}
