/** Fault-free runs of a connection: they never get stuck, they end, and exactly which clients
    leave their handler waiting. */
module Progress {
  import opened Wrappers
  import opened Protocol
  import opened Mailbox
  import opened Channel
  import opened Programs
  import opened Conversation
  import L = Lockstep
  import S = Sessions

  /** No expiry, no lost command, no failing host call. */
  predicate Calm(s: Step) {
    match s
    case ClientMove(m) => !m.Stop?
    case HostMove(m) => !m.Stop?
    case Weather(_, _) => false
    case LookupFails => false
    case SpawnFails => false
    case UnlinkFails => false
    case _ => true
  }

  /** The receiver of the last frame can still read it. */
  predicate Readable(l: L.Link, role: L.Role) {
    var e, n := L.EndOf(l, role), |l.log|;
    n > 0 && !L.Sends(role, n - 1) && e.pos < n ==>
      var box := L.BoxOf(l, n - 1);
      (e.io.Cleared? || box.slot == Some(l.log[n - 1]))
      && (e.io.Ready? || e.io.Placed? ==> box.tokens == 1)
  }

  predicate Healthy(l: L.Link) {
    l.client.alive && l.host.alive && Readable(l, L.Client) && Readable(l, L.Host)
  }

  lemma PlaceKeepsHealthy(l: L.Link, m: L.Move)
    requires L.Inv(l) && Healthy(l) && L.Enabled(l, m) && m.Place?
    ensures Healthy(L.Apply(l, m))
  {
    var n := |l.log|;
    assert L.TurnInv(l, L.Client) && L.TurnInv(l, L.Host);
    assert L.BoxInv(l, L.Client) && L.BoxInv(l, L.Host);
    assert n > 0 ==> L.ClientTurn(n) == !L.ClientTurn(n - 1);
  }

  lemma FetchKeepsHealthy(l: L.Link, m: L.Move)
    requires L.Inv(l) && Healthy(l) && L.Enabled(l, m) && m.Fetch?
    ensures Healthy(L.Apply(l, m)) && L.EndOf(L.Apply(l, m), m.role).io.Holding?
  {
    var e := L.EndOf(l, m.role);
    assert L.TurnInv(l, m.role);
    assert |l.log| == e.pos + 1 && !L.Sends(m.role, e.pos);
    assert Readable(l, m.role);
    L.FetchAccepts(l, m.role);
  }

  lemma AckKeepsHealthy(l: L.Link, m: L.Move)
    requires L.Inv(l) && Healthy(l) && L.Enabled(l, m) && m.Ack?
    ensures Healthy(L.Apply(l, m)) && L.EndOf(L.Apply(l, m), m.role).io.Cleared?
  {
    var e := L.EndOf(l, m.role);
    assert L.TurnInv(l, L.Client) && L.TurnInv(l, L.Host);
    assert |l.log| == e.pos + 1 && !L.Sends(m.role, e.pos);
    assert Readable(l, m.role);
  }

  lemma MoveOnKeepsHealthy(l: L.Link, m: L.Move)
    requires L.Inv(l) && Healthy(l) && L.Enabled(l, m)
    requires m.Advance? || m.Pop? || m.Next?
    ensures Healthy(L.Apply(l, m))
  {
    var e := L.EndOf(l, m.role);
    assert L.TurnInv(l, L.Client) && L.TurnInv(l, L.Host);
    assert L.ClientTurn(e.pos + 1) == !L.ClientTurn(e.pos);
  }

  lemma CalmKeepsHealthy(c: Conn, s: Step)
    requires Inv(c) && Healthy(c.link) && Enabled(c, s) && Calm(s)
    ensures Healthy(Apply(c, s).link)
  {
    if s.ClientMove? || s.HostMove? {
      var m := s.move;
      if m.Place? {
        PlaceKeepsHealthy(c.link, m);
      } else if m.Fetch? {
        FetchKeepsHealthy(c.link, m);
      } else if m.Ack? {
        AckKeepsHealthy(c.link, m);
      } else {
        MoveOnKeepsHealthy(c.link, m);
      }
    }
  }

  // ---------------------------------------------------------------- never stuck

  /** The handler waits for a frame nobody has placed. */
  predicate HostWaits(c: Conn) {
    var h := c.link.host;
    h.io.Ready? && L.ClientTurn(h.pos) && h.pos == |c.link.log|
  }

  /** Nothing is left to do: the client is done, the handler has returned or waits. */
  predicate Quiet(c: Conn) { ClientDone(c) && (c.over || HostWaits(c)) }

  lemma {:induction false} CounterSmall(i: nat)
    ensures L.CounterOf(i) <= i
  {
    if i >= L.FIRST_SEALED + 2 {
      CounterSmall(i - 2);
    }
  }

  lemma CountersSmall(l: L.Link, role: L.Role)
    requires L.Inv(l) && |l.log| < U64_MAX
    ensures L.EndOf(l, role).sends < U64_MAX && L.EndOf(l, role).recvs < U64_MAX
  {
    var e := L.EndOf(l, role);
    assert L.TurnInv(l, role) && L.CountInv(role, e);
    assert e.pos <= |l.log|;
    CounterSmall(e.pos);
    CounterSmall(e.pos + 1);
    assert L.CounterOf(e.pos + 1) <= e.pos || e.pos == 0 by {
      if e.pos + 1 >= L.FIRST_SEALED + 2 {
        CounterSmall(e.pos - 1);
      }
    }
  }

  /** The client waits for a frame that nobody has announced. */
  predicate ClientBlocked(c: Conn) {
    var e := c.link.client;
    e.alive && e.io.Ready? && !L.ClientTurn(e.pos) && c.link.down.tokens == 0
  }

  /** So does the handler. */
  predicate HostReceives(c: Conn) {
    var h := c.link.host;
    h.alive && !c.over && h.io.Ready? && L.ClientTurn(h.pos) && c.link.up.tokens == 0
  }

  /** The client's next step, unless it is done or blocks. */
  lemma ClientNextStep(c: Conn) returns (s: Option<Step>)
    requires Inv(c) && c.link.client.alive && |c.link.log| < U64_MAX
    ensures s.Some? ==> Calm(s.value) && Enabled(c, s.value) && s.value.ClientMove?
    ensures s.None? ==> ClientDone(c) || ClientBlocked(c)
  {
    var e := c.link.client;
    CountersSmall(c.link, L.Client);
    assert L.TurnInv(c.link, L.Client);
    match e.io
    case Placed => s := Some(ClientMove(L.Advance(L.Client)));
    case Popped => s := Some(ClientMove(L.Fetch(L.Client)));
    case Holding(_) => s := Some(ClientMove(L.Ack(L.Client)));
    case Cleared => s := Some(ClientMove(L.Next(L.Client)));
    case Ready =>
      if ClientDone(c) {
        s := None;
      } else if L.ClientTurn(e.pos) {
        var plain := if e.pos < FIRST_REQUEST then Request(Ping) else Request(ClientChoice(c, e.pos).request);
        s := Some(ClientMove(L.Place(L.Client, plain)));
      } else if c.link.down.tokens == 0 {
        s := None;
      } else {
        s := Some(ClientMove(L.Pop(L.Client)));
      }
  }

  /** The handler's next step on the request it holds; the shared state may grant either way. */
  lemma ServeNextStep(w: S.World, c: Conn, unused: string) returns (s: Step)
    requires Inv(c) && unused !in w.used && c.link.host.alive && !c.over
    requires c.link.host.io.Holding? && c.link.host.pos >= FIRST_REQUEST && !c.work.Answer?
    ensures Calm(s) && Enabled(c, s) && S.Grants(w, c, s)
  {
    var h := c.link.host;
    assert L.TurnInv(c.link, L.Host) && WorkInv(c);
    assert WellSaid(c, h.pos);
    FirstTurns();
    var request := Asked(c).value;
    if c.work.LookupMade? {
      s := Spawn(c.work.id);
    } else if c.work.ShellMade? {
      s := Insert;
    } else if c.work.Unmapped? {
      s := Unlink;
    } else if request.Ping? || request.Disconnect? {
      s := Simple;
    } else if request.Run? {
      RunOnlyInSession(c);
      s := RunCommand(Failed(""));
    } else if c.mode.InSession? {
      s := Simple;
    } else if request.DeleteSession? {
      s := if request.doomed in w.mapped then Unmap else Missing;
    } else if request.wanted.Some? {
      s := if request.wanted.value in w.mapped then Join(request.wanted.value) else Missing;
    } else {
      s := if request.persistent then MakeLookup(unused) else Spawn(unused);
    }
  }

  lemma HostNextStep(w: S.World, c: Conn, unused: string) returns (s: Option<Step>)
    requires Inv(c) && c.link.host.alive && |c.link.log| < U64_MAX && unused !in w.used && !c.over
    ensures s.Some? ==> Calm(s.value) && Enabled(c, s.value) && S.Grants(w, c, s.value)
    ensures s.None? ==> HostReceives(c)
  {
    var h := c.link.host;
    CountersSmall(c.link, L.Host);
    assert L.TurnInv(c.link, L.Host) && WorkInv(c);
    match h.io
    case Placed => s := Some(HostMove(L.Advance(L.Host)));
    case Popped => s := Some(HostMove(L.Fetch(L.Host)));
    case Cleared => s := Some(HostMove(L.Next(L.Host)));
    case Holding(_) =>
      if h.pos < FIRST_REQUEST || c.work.Answer? {
        s := Some(HostMove(L.Ack(L.Host)));
      } else {
        var t := ServeNextStep(w, c, unused);
        s := Some(t);
      }
    case Ready =>
      s := HostStartsFrame(c);
  }

  lemma HostStartsFrame(c: Conn) returns (s: Option<Step>)
    requires Inv(c) && c.link.host.alive && !c.over && c.link.host.io.Ready?
    ensures s.Some? ==> s.value.HostMove? && Calm(s.value) && Enabled(c, s.value)
    ensures s.None? ==> HostReceives(c)
  {
    var h := c.link.host;
    assert L.TurnInv(c.link, L.Host) && WorkInv(c);
    FirstTurns();
    if !L.ClientTurn(h.pos) {
      var plain := if h.pos < 3 then Reply(Pong)
                   else if h.pos == 3 then Reply(Hello(c.signature))
                   else Reply(c.work.reply.value);
      s := Some(HostMove(L.Place(L.Host, plain)));
    } else if c.link.up.tokens == 0 {
      s := None;
    } else {
      s := Some(HostMove(L.Pop(L.Host)));
    }
  }

  /** Without a fault nobody blocks for a frame that was placed. */
  lemma HealthyBlocking(c: Conn)
    requires Inv(c) && Healthy(c.link)
    ensures ClientBlocked(c) ==> |c.link.log| == c.link.client.pos
    ensures HostReceives(c) ==> HostWaits(c)
  {
    assert L.TurnInv(c.link, L.Client) && Readable(c.link, L.Client);
    assert L.TurnInv(c.link, L.Host) && Readable(c.link, L.Host);
  }

  /** While a fault-free conversation is not over, some step of it is possible, whatever the
      other connections have done to the shared sessions. */
  lemma NeverStuck(w: S.World, c: Conn, unused: string) returns (s: Step)
    requires Inv(c) && Healthy(c.link) && |c.link.log| < U64_MAX && unused !in w.used && !Quiet(c)
    ensures Calm(s) && Enabled(c, s) && S.Grants(w, c, s)
  {
    var byClient := ClientNextStep(c);
    if byClient.Some? {
      return byClient.value;
    }
    HealthyBlocking(c);
    assert L.TurnInv(c.link, L.Client) && L.TurnInv(c.link, L.Host) && OverInv(c);
    if !c.over {
      var byHost := HostNextStep(w, c, unused);
      s := byHost.value;
    } else {
      assert false;
    }
  }

  // ---------------------------------------------------------------- every run ends

  function Rank(io: L.Io): nat {
    match io
    case Ready => 0
    case Placed => 1
    case Popped => 1
    case Holding(_) => 2
    case Cleared => 9
  }

  function WorkRank(w: Work): nat {
    match w
    case Idle => 0
    case LookupMade(_) => 1
    case ShellMade(_) => 2
    case Unmapped(_) => 1
    case Answer(_, _) => 3
  }

  function Score(c: Conn): nat {
    var h := c.link.host;
    10 * c.link.client.pos + Rank(c.link.client.io)
    + 10 * h.pos + Rank(h.io) + if h.io.Holding? then WorkRank(c.work) else 0
  }

  lemma ClientStepScores(c: Conn, m: L.Move)
    requires Inv(c) && Healthy(c.link) && Enabled(c, ClientMove(m)) && !m.Stop?
    ensures Score(Apply(c, ClientMove(m))) > Score(c)
  {
    if m.Fetch? {
      FetchKeepsHealthy(c.link, m);
    } else if m.Ack? {
      AckKeepsHealthy(c.link, m);
    }
  }

  lemma HostStepScores(c: Conn, m: L.Move)
    requires Inv(c) && Healthy(c.link) && Enabled(c, HostMove(m)) && !m.Stop?
    ensures Score(Apply(c, HostMove(m))) > Score(c)
  {
    if m.Fetch? {
      FetchKeepsHealthy(c.link, m);
    } else if m.Ack? {
      AckKeepsHealthy(c.link, m);
    }
  }

  lemma CalmStepScores(c: Conn, s: Step)
    requires Inv(c) && Healthy(c.link) && Enabled(c, s) && Calm(s)
    ensures Score(Apply(c, s)) > Score(c)
  {
    if s.ClientMove? {
      ClientStepScores(c, s.move);
    } else if s.HostMove? {
      HostStepScores(c, s.move);
    }
  }

  /** Two frames for every reply. */
  lemma {:induction false} RepliesCount(c: Conn, i: nat)
    requires LogInv(c) && FIRST_REQUEST <= i <= |c.link.log| && L.ClientTurn(i)
    ensures i == FIRST_REQUEST + 2 * |Replies(c.link.log, i)|
  {
    FirstTurns();
    if i > FIRST_REQUEST {
      RepliesStep(c, i - 1);
      RepliesCount(c, i - 2);
    }
  }

  /** A program's conversation has a bounded number of frames. */
  lemma LogBounded(c: Conn)
    requires Inv(c)
    ensures |c.link.log| <= FIRST_REQUEST + 2 * Asks(c.program)
  {
    var n := |c.link.log|;
    FirstTurns();
    if n > FIRST_REQUEST {
      var i := if L.ClientTurn(n - 1) then n - 1 else n - 2;
      if i >= FIRST_REQUEST {
        assert WellSaid(c, i);
        RepliesCount(c, i);
        ClientConforms(c, i);
        AsksBounded(c.program, Replies(c.link.log, i));
      }
    }
  }

  function MaxSteps(p: Program): nat { 20 * (FIRST_REQUEST + 2 * Asks(p)) + 21 }

  lemma ScoreBounded(c: Conn)
    requires Inv(c)
    ensures Score(c) <= MaxSteps(c.program)
  {
    LogBounded(c);
    assert L.TurnInv(c.link, L.Client) && L.TurnInv(c.link, L.Host);
  }

  ghost predicate CalmRun(conns: seq<Conn>, steps: seq<Step>) {
    IsRun(conns, steps) && forall i :: 0 <= i < |steps| ==> Calm(steps[i])
  }

  lemma {:induction false} CalmRunScores(conns: seq<Conn>, steps: seq<Step>, n: nat)
    requires CalmRun(conns, steps) && n < |conns|
    ensures Inv(conns[n]) && Healthy(conns[n].link) && Score(conns[n]) >= n
    ensures conns[n].program == conns[0].program
  {
    RunKeepsInv(conns, steps, n);
    if n == 0 {
      var c := conns[0];
      var key :| c == Start(c.program, c.expected, c.signature, key);
    } else {
      CalmRunScores(conns, steps, n - 1);
      CalmStepKeeps(conns[n - 1], steps[n - 1]);
    }
  }

  lemma CalmStepKeeps(c: Conn, s: Step)
    requires Inv(c) && Healthy(c.link) && Enabled(c, s) && Calm(s)
    ensures var after := Apply(c, s);
            Healthy(after.link) && Score(after) > Score(c) && after.program == c.program
  {
    CalmKeepsHealthy(c, s);
    CalmStepScores(c, s);
    ProgramKept(c, s);
  }

  lemma ProgramKept(c: Conn, s: Step)
    requires Enabled(c, s)
    ensures Apply(c, s).program == c.program
  {
  }

  /** Every fault-free run of a connection is finite, with a bound its program sets. */
  lemma CalmRunsEnd(conns: seq<Conn>, steps: seq<Step>)
    requires CalmRun(conns, steps)
    ensures |steps| <= MaxSteps(conns[0].program)
  {
    CalmRunScores(conns, steps, |steps|);
    ScoreBounded(conns[|steps|]);
  }

  /** And it can always be continued until client and handler have nothing left to do. */
  lemma CalmRunsContinue(conns: seq<Conn>, steps: seq<Step>, w: S.World, unused: string) returns (s: Step)
    requires CalmRun(conns, steps) && unused !in w.used && !Quiet(conns[|steps|])
    requires FIRST_REQUEST + 2 * Asks(conns[0].program) < U64_MAX
    ensures Calm(s) && Enabled(conns[|steps|], s) && S.Grants(w, conns[|steps|], s)
  {
    var n := |steps|;
    CalmRunScores(conns, steps, n);
    LogBounded(conns[n]);
    s := NeverStuck(w, conns[n], unused);
  }

  // ---------------------------------------------------------------- handlers left waiting

  predicate Mismatched(c: Conn) { c.expected.Some? && c.expected.value != c.signature }

  predicate OpensSession(p: Program) { p.Connect? || p.Exec? }

  /** What the ending of a handler depends on: before a session is open, last words and only
      they are followed by a return; a session opens with the first request or never. */
  predicate EndingInv(c: Conn) {
    var log, h := c.link.log, c.link.host;
    var request := RequestAt(log, Subject(c));
    (c.work.Answer? && c.work.reply.Some? && c.mode.PreOpen? && request.Some? ==>
       (c.work.last <==> LastWord(request.value, c.work.reply.value)))
    && (!c.over && c.mode.PreOpen? && h.pos >= FIRST_REQUEST + 2 && L.ClientTurn(h.pos) ==>
          RequestAt(log, h.pos - 2).Some? && ReplyAt(log, h.pos - 1).Some?
          && !LastWord(RequestAt(log, h.pos - 2).value, ReplyAt(log, h.pos - 1).value))
    && (c.mode.InSession? ==>
          OpensSession(c.program)
          && (ReplyAt(log, 5) == Some(Opened(c.mode.id))
              || (c.work == Say(Opened(c.mode.id), false) && Subject(c) == FIRST_REQUEST)))
  }

  /** Only the first request opens. */
  lemma OpenComesFirst(c: Conn)
    requires Inv(c) && Asked(c).Some? && Asked(c).value.Open?
    ensures c.link.host.pos == FIRST_REQUEST && OpensSession(c.program)
  {
    var i := c.link.host.pos;
    FirstTurns();
    assert L.TurnInv(c.link, L.Host);
    assert WellSaid(c, i);
    RepliesCount(c, i);
  }

  lemma ServingKeepsEnding(c: Conn, s: Step)
    requires Inv(c) && EndingInv(c) && Enabled(c, s) && !s.ClientMove? && !s.HostMove?
    ensures EndingInv(Apply(c, s))
  {
    FirstTurns();
    if Asked(c).Some? && Asked(c).value.Open? {
      OpenComesFirst(c);
    }
  }

  lemma ClientKeepsEnding(c: Conn, m: L.Move)
    requires Inv(c) && EndingInv(c) && Enabled(c, ClientMove(m))
    ensures EndingInv(Apply(c, ClientMove(m)))
  {
    LogGrows(c, ClientMove(m));
    assert L.TurnInv(c.link, L.Host);
    ClientSparesEnding(c, Apply(c, ClientMove(m)));
  }

  lemma ClientSparesEnding(c: Conn, after: Conn)
    requires EndingInv(c) && WorkInv(c) && c.link.host.pos <= |c.link.log|
    requires after.link.log == c.link.log || exists f :: after.link.log == c.link.log + [f]
    requires after.link.host == c.link.host
    requires after.work == c.work && after.mode == c.mode && after.program == c.program && after.over == c.over
    ensures EndingInv(after)
  {
  }

  lemma HostPlaceKeepsEnding(c: Conn, m: L.Move)
    requires Inv(c) && EndingInv(c) && Enabled(c, HostMove(m)) && m.Place?
    ensures EndingInv(Apply(c, HostMove(m)))
  {
    LogGrows(c, HostMove(m));
    FirstTurns();
    assert WorkInv(c);
    LongerLogKeepsEnding(c, Apply(c, HostMove(m)));
  }

  lemma LongerLogKeepsEnding(c: Conn, after: Conn)
    requires EndingInv(c) && !L.ClientTurn(c.link.host.pos) && |c.link.log| == c.link.host.pos
    requires exists f :: after.link.log == c.link.log + [f]
    requires after.link.host == c.link.host.(io := L.Placed)
    requires after.work == c.work && after.mode == c.mode && after.program == c.program && after.over == c.over
    requires c.mode.InSession? && ReplyAt(c.link.log, 5) != Some(Opened(c.mode.id)) ==> c.link.host.pos <= 5
    ensures EndingInv(after)
  {
    FirstTurns();
  }

  lemma HostAdvanceKeepsEnding(c: Conn, m: L.Move)
    requires Inv(c) && EndingInv(c) && Enabled(c, HostMove(m)) && m.Advance?
    ensures EndingInv(Apply(c, HostMove(m)))
  {
    LogGrows(c, HostMove(m));
    FirstTurns();
    var h := c.link.host;
    assert L.TurnInv(c.link, L.Host) && WorkInv(c);
    assert L.ClientTurn(h.pos + 1) && !L.ClientTurn(h.pos);
  }

  lemma HostNextKeepsEnding(c: Conn, m: L.Move)
    requires Inv(c) && EndingInv(c) && Enabled(c, HostMove(m)) && m.Next?
    ensures EndingInv(Apply(c, HostMove(m)))
  {
    var h := c.link.host;
    assert L.TurnInv(c.link, L.Host) && WorkInv(c);
    assert L.ClientTurn(h.pos + 1) == !L.ClientTurn(h.pos);
  }

  lemma HostReadKeepsEnding(c: Conn, m: L.Move)
    requires Inv(c) && EndingInv(c) && Enabled(c, HostMove(m)) && !m.Place? && !m.Advance? && !m.Next?
    ensures EndingInv(Apply(c, HostMove(m)))
  {
    assert L.TurnInv(c.link, L.Host) && WorkInv(c);
    HostReadKeepsWords(c, m);
  }

  /** Reading changes nothing that has been said. */
  lemma HostReadKeepsWords(c: Conn, m: L.Move)
    requires Inv(c) && Enabled(c, HostMove(m)) && !m.Place? && !m.Advance? && !m.Next?
    ensures var after := Apply(c, HostMove(m));
            after.link.log == c.link.log && after.work == c.work && after.mode == c.mode && after.program == c.program
            && after.over == c.over && after.link.host.pos == c.link.host.pos
  {
  }

  lemma HostKeepsEnding(c: Conn, m: L.Move)
    requires Inv(c) && EndingInv(c) && Enabled(c, HostMove(m))
    ensures EndingInv(Apply(c, HostMove(m)))
  {
    if m.Place? {
      HostPlaceKeepsEnding(c, m);
    } else if m.Advance? {
      HostAdvanceKeepsEnding(c, m);
    } else if m.Next? {
      HostNextKeepsEnding(c, m);
    } else {
      HostReadKeepsEnding(c, m);
    }
  }

  lemma {:induction false} RunKeepsEnding(conns: seq<Conn>, steps: seq<Step>, n: nat)
    requires IsRun(conns, steps) && n < |conns|
    ensures EndingInv(conns[n])
  {
    if n == 0 {
      var c := conns[0];
      var key :| c == Start(c.program, c.expected, c.signature, key);
    } else {
      RunKeepsEnding(conns, steps, n - 1);
      RunKeepsInv(conns, steps, n - 1);
      var s := steps[n - 1];
      if s.ClientMove? {
        ClientKeepsEnding(conns[n - 1], s.move);
      } else if s.HostMove? {
        HostKeepsEnding(conns[n - 1], s.move);
      } else {
        ServingKeepsEnding(conns[n - 1], s);
      }
    }
  }

  /** `exec` bailed on the Error its command was answered with, without a Disconnect. */
  predicate ExecBailed(c: Conn) {
    c.program.Exec? && |c.link.log| == FIRST_REQUEST + 4
    && ReplyAt(c.link.log, 5).Some? && ReplyAt(c.link.log, 5).value.Opened?
    && ReplyAt(c.link.log, 7).Some? && ReplyAt(c.link.log, 7).value.Error?
  }

  /** Nothing answers a Disconnect. */
  lemma DisconnectIsLast(c: Conn, i: nat)
    requires LogInv(c) && FIRST_REQUEST < i && !L.ClientTurn(i)
    requires RequestAt(c.link.log, i - 1) == Some(Disconnect)
    ensures |c.link.log| <= i
  {
    assert i < |c.link.log| ==> WellSaid(c, i);
    FirstTurns();
  }

  lemma QuietMeansDone(c: Conn)
    requires Inv(c) && Quiet(c) && !c.over
    ensures L.ClientTurn(|c.link.log|) && |c.link.log| >= FIRST_REQUEST
    ensures !ClientChoice(c, |c.link.log|).Ask?
  {
    var n, e := |c.link.log|, c.link.client;
    FirstTurns();
    assert L.TurnInv(c.link, L.Client);
    if !L.ClientTurn(e.pos) {
      DisconnectIsLast(c, e.pos);
    }
  }

  /** A client that has no more to ask has had the host's last word or bailed. */
  lemma LastReplyEnds(c: Conn, n: nat, asked: ClientRequest)
    requires LogInv(c) && n == |c.link.log| >= FIRST_REQUEST && L.ClientTurn(n) && !Mismatched(c)
    requires var replies := Replies(c.link.log, n);
             replies != [] && Choose(c.program, replies[..|replies| - 1]) == Ask(asked)
             && (LastWord(asked, replies[|replies| - 1])
                 || (c.program.Exec? && |replies| == 2 && replies[0].Opened? && replies[1].Error?))
    ensures var log := c.link.log;
            n >= FIRST_REQUEST + 2 && RequestAt(log, n - 2) == Some(asked) && ReplyAt(log, n - 1).Some?
            && (LastWord(asked, ReplyAt(log, n - 1).value) || ExecBailed(c))
  {
    RepliesCount(c, n);
    LastOfReplies(c, n, asked);
    if |Replies(c.link.log, n)| == 2 {
      FirstOfTwo(c);
    }
  }

  lemma LastExchange(p: Program, replies: seq<ServerReply>) returns (asked: ClientRequest)
    requires Conforming(p, replies) && !Choose(p, replies).Ask?
    ensures replies != [] && Choose(p, replies[..|replies| - 1]) == Ask(asked)
    ensures LastWord(asked, replies[|replies| - 1])
            || (p.Exec? && |replies| == 2 && replies[0].Opened? && replies[1].Error?)
  {
    StopsAsking(p, replies);
    asked := Choose(p, replies[..|replies| - 1]).request;
  }

  lemma FirstOfTwo(c: Conn)
    requires LogInv(c) && |c.link.log| == FIRST_REQUEST + 4 && L.ClientTurn(|c.link.log|)
    ensures var replies := Replies(c.link.log, FIRST_REQUEST + 4);
            |replies| == 2 && ReplyAt(c.link.log, 5) == Some(replies[0]) && ReplyAt(c.link.log, 7) == Some(replies[1])
  {
    FirstTurns();
    RepliesStep(c, 7);
    RepliesStep(c, 5);
    assert Replies(c.link.log, 4) == [];
  }

  /** The last reply and what it answers, as the program and as the log has them. */
  lemma LastOfReplies(c: Conn, n: nat, asked: ClientRequest)
    requires LogInv(c) && FIRST_REQUEST + 2 <= n <= |c.link.log| && L.ClientTurn(n) && !Mismatched(c)
    requires var replies := Replies(c.link.log, n);
             replies != [] ==> Choose(c.program, replies[..|replies| - 1]) == Ask(asked)
    ensures var replies := Replies(c.link.log, n);
            replies != [] && ReplyAt(c.link.log, n - 1) == Some(replies[|replies| - 1])
            && RequestAt(c.link.log, n - 2) == Some(asked)
  {
    var before, last := SplitReplies(c, n);
    assert (before + [last])[..|before|] == before;
  }

  lemma SplitReplies(c: Conn, n: nat) returns (before: seq<ServerReply>, last: ServerReply)
    requires LogInv(c) && FIRST_REQUEST + 2 <= n <= |c.link.log| && L.ClientTurn(n) && !Mismatched(c)
    ensures Replies(c.link.log, n) == before + [last] && ReplyAt(c.link.log, n - 1) == Some(last)
    ensures Choose(c.program, before).Ask? && RequestAt(c.link.log, n - 2) == Some(Choose(c.program, before).request)
  {
    FirstTurns();
    RepliesStep(c, n - 1);
    before, last := Replies(c.link.log, n - 2), ReplyAt(c.link.log, n - 1).value;
  }

  lemma WaitingMeansBailed(c: Conn)
    requires Inv(c) && EndingInv(c) && Quiet(c) && !c.over && !Mismatched(c)
    ensures ExecBailed(c)
  {
    QuietMeansDone(c);
    var n := |c.link.log|;
    ClientConforms(c, n);
    var asked := LastExchange(c.program, Replies(c.link.log, n));
    LastReplyEnds(c, n, asked);
    NoLastWordWhileWaiting(c);
  }

  lemma NoLastWordWhileWaiting(c: Conn)
    requires Inv(c) && EndingInv(c) && HostWaits(c) && !c.over && |c.link.log| >= FIRST_REQUEST + 2
    requires var n := |c.link.log|; RequestAt(c.link.log, n - 2).Some? && ReplyAt(c.link.log, n - 1).Some?
    ensures var n := |c.link.log|; !LastWord(RequestAt(c.link.log, n - 2).value, ReplyAt(c.link.log, n - 1).value)
  {
    var n := |c.link.log|;
    FirstTurns();
    if c.mode.InSession? {
      assert Subject(c) == n;
      assert ReplyAt(c.link.log, 5) == Some(Opened(c.mode.id));
      assert !L.ClientTurn(n - 1);
      OpenedMeansRuns(c, n - 2);
    }
  }

  /** In a session the client asks Runs and Disconnect. */
  lemma OpenedMeansRuns(c: Conn, i: nat)
    requires Inv(c) && FIRST_REQUEST <= i < |c.link.log| && L.ClientTurn(i)
    requires OpensSession(c.program)
    requires i == FIRST_REQUEST ==> i + 1 < |c.link.log|
    requires ReplyAt(c.link.log, 5).Some? && ReplyAt(c.link.log, 5).value.Opened?
    ensures RequestAt(c.link.log, i).Some?
    ensures var r := RequestAt(c.link.log, i).value;
            if i == FIRST_REQUEST then r.Open? else r.Run? || r.Disconnect?
  {
    FirstTurns();
    assert WellSaid(c, i);
    RepliesCount(c, i);
  }

  /** When client and handler have nothing left to do, the handler has returned unless its client
      met a signature it did not expect, or was an `exec` whose command was answered with an
      Error. */
  lemma HandlerReturnsExactly(conns: seq<Conn>, steps: seq<Step>, n: nat)
    requires IsRun(conns, steps) && n < |conns| && Quiet(conns[n])
    ensures conns[n].over <==> !Mismatched(conns[n]) && !ExecBailed(conns[n])
  {
    var c := conns[n];
    RunKeepsInv(conns, steps, n);
    RunKeepsEnding(conns, steps, n);
    FirstTurns();
    if c.over {
      assert |c.link.log| > FIRST_REQUEST && WellSaid(c, FIRST_REQUEST);
      OverMeansNotBailed(c);
    } else if !Mismatched(c) {
      WaitingMeansBailed(c);
    }
  }

  lemma OverMeansNotBailed(c: Conn)
    requires Inv(c) && c.over
    ensures !ExecBailed(c)
  {
    FirstTurns();
    assert L.ClientTurn(6);
    assert L.ClientTurn(8);
    assert OverInv(c);
    if ExecBailed(c) {
      OpenedMeansRuns(c, 6);
    }
  }

  // ---------------------------------------------------------------- waiting without a timeout

  /** Nothing more will come from the client: it is done, or it has stopped. */
  predicate ClientGone(c: Conn) { ClientDone(c) || !c.link.client.alive }

  /** Neither end can go on: the client is gone or blocks, the handler has ended or blocks. */
  predicate Resting(c: Conn) {
    (ClientGone(c) || ClientBlocked(c)) && (c.over || !c.link.host.alive || HostReceives(c))
  }

  /** That is: only failures and expiry are left to happen. */
  lemma RestingExactly(c: Conn)
    requires Inv(c) && |c.link.log| < U64_MAX
    ensures Resting(c) <==> forall s :: Calm(s) ==> !Enabled(c, s)
  {
    if Resting(c) {
      forall s | Calm(s)
        ensures !Enabled(c, s)
      {
        NothingLeft(c, s);
      }
    } else if !ClientGone(c) && !ClientBlocked(c) {
      var s := ClientNextStep(c);
      assert Calm(s.value) && Enabled(c, s.value);
    } else {
      var s := HostNextStep(S.EmptyWorld(""), c, "");
      assert Calm(s.value) && Enabled(c, s.value);
    }
  }

  lemma NothingLeft(c: Conn, s: Step)
    requires Inv(c) && Resting(c) && Calm(s)
    ensures !Enabled(c, s)
  {
    assert L.TurnInv(c.link, L.Client) && WorkInv(c);
  }

  /** The handler is in its session, past `wait_indefinitely`, and blocks for a request that
      nobody has announced. */
  predicate WaitsUntimed(c: Conn) { HostReceives(c) && c.mode.InSession? }

  /** The client has sent a command, so is past its own `wait_indefinitely`, and blocks for the
      reply. */
  predicate ClientWaitsUntimed(c: Conn) {
    var i := c.link.client.pos;
    ClientBlocked(c) && i > FIRST_REQUEST
    && RequestAt(c.link.log, i - 1).Some? && RequestAt(c.link.log, i - 1).value.Run?
  }

  /** The client stopped when it was its turn, without sending anything more. */
  predicate StoppedEarly(c: Conn) {
    !c.link.client.alive && L.ClientTurn(|c.link.log|) && c.link.host.pos == |c.link.log|
  }

  /** The last request was placed, and expired before the handler read it. */
  predicate LastExpired(c: Conn) { L.ClientTurn(c.link.host.pos) && c.link.host.pos + 1 == |c.link.log| }

  /** The last reply was placed, and expired before the client read it. */
  predicate ReplyExpired(c: Conn) {
    ClientBlocked(c) && c.link.client.pos + 1 == |c.link.log| == c.link.host.pos
  }

  /** In every run, with expiry and failures: once neither end can go on, the handler waits
      without a timeout exactly when it lives, has opened its session, and the client was an `exec`
      answered with an Error, or stopped before it sent anything more, or the last request or the
      last reply expired unread. */
  lemma HandlerWaitsExactly(conns: seq<Conn>, steps: seq<Step>, n: nat)
    requires IsRun(conns, steps) && n < |conns| && Resting(conns[n])
    ensures var c := conns[n];
            WaitsUntimed(c)
            <==> c.link.host.alive && c.mode.InSession?
                 && (ExecBailed(c) || StoppedEarly(c) || LastExpired(c) || ReplyExpired(c))
  {
    var c := conns[n];
    RunKeepsInv(conns, steps, n);
    RunKeepsEnding(conns, steps, n);
    if WaitsUntimed(c) {
      WaitingHasCause(c);
    }
    if c.over && c.mode.InSession? {
      ReturnedHasNone(c);
    }
  }

  lemma WaitingHasCause(c: Conn)
    requires Inv(c) && EndingInv(c) && (ClientGone(c) || ClientBlocked(c)) && WaitsUntimed(c)
    ensures ExecBailed(c) || StoppedEarly(c) || LastExpired(c) || ReplyExpired(c)
  {
    assert L.TurnInv(c.link, L.Host) && L.TurnInv(c.link, L.Client);
    if c.link.host.pos == |c.link.log| && c.link.client.alive && !ClientBlocked(c) {
      InSessionNotMismatched(c);
      WaitingMeansBailed(c);
    }
  }

  /** A client that does not accept the host's signature asks nothing. */
  lemma InSessionNotMismatched(c: Conn)
    requires Inv(c) && c.mode.InSession? && c.link.host.io.Ready? && L.ClientTurn(c.link.host.pos)
    requires !c.over && c.link.host.alive && EndingInv(c)
    ensures !Mismatched(c)
  {
    assert WorkInv(c) && L.TurnInv(c.link, L.Host);
    assert ReplyAt(c.link.log, 5) == Some(Opened(c.mode.id));
    FirstTurns();
    assert WellSaid(c, 4);
  }

  lemma ReturnedHasNone(c: Conn)
    requires Inv(c) && EndingInv(c) && c.over && c.mode.InSession?
    ensures !ExecBailed(c) && !StoppedEarly(c) && !LastExpired(c) && !ReplyExpired(c)
  {
    var n := |c.link.log|;
    assert OverInv(c);
    OverMeansNotBailed(c);
    FirstTurns();
    if L.ClientTurn(n) {
      assert ReplyAt(c.link.log, 5) == Some(Opened(c.mode.id));
      assert !L.ClientTurn(n - 1);
      OpenedMeansRuns(c, n - 2);
    }
  }

  /** So an `exec` that bailed leaves its handler waiting past `wait_indefinitely`. */
  lemma BailedExecLeavesWaiting(conns: seq<Conn>, steps: seq<Step>, n: nat)
    requires IsRun(conns, steps) && n < |conns| && Resting(conns[n])
    requires ExecBailed(conns[n]) && conns[n].link.host.alive
    ensures WaitsUntimed(conns[n])
  {
    RunKeepsInv(conns, steps, n);
    assert ModeInv(conns[n]);
    HandlerWaitsExactly(conns, steps, n);
  }

  /** A client that waits without a timeout never waits alone: a living handler waits too, because
      the command or its reply expired unread. */
  lemma StrandedTogether(conns: seq<Conn>, steps: seq<Step>, n: nat)
    requires IsRun(conns, steps) && n < |conns| && Resting(conns[n])
    requires ClientWaitsUntimed(conns[n]) && conns[n].link.host.alive
    ensures WaitsUntimed(conns[n]) && (LastExpired(conns[n]) || ReplyExpired(conns[n]))
  {
    var c := conns[n];
    RunKeepsInv(conns, steps, n);
    FirstTurns();
    assert L.TurnInv(c.link, L.Host) && L.TurnInv(c.link, L.Client);
    assert L.ClientTurn(c.link.client.pos - 1) && !L.ClientTurn(c.link.client.pos);
    assert OverInv(c);
    RunMeansSession(c, c.link.client.pos - 1);
  }

  /** A wait of the handler lasts for ever: whatever happens, unless its own connection to Redis
      fails. */
  lemma WaitingStays(c: Conn, s: Step)
    requires (ClientGone(c) || ClientBlocked(c)) && WaitsUntimed(c) && Enabled(c, s) && WorkInv(c)
    requires s != HostMove(L.Stop(L.Host))
    ensures var after := Apply(c, s);
            (ClientGone(after) || ClientBlocked(after)) && WaitsUntimed(after) && after.link.log == c.link.log
            && (ClientWaitsUntimed(c) && s != ClientMove(L.Stop(L.Client)) ==> ClientWaitsUntimed(after))
  {
  }

  /** So does a wait of both ends, unless one of the two fails. */
  lemma {:induction false} WaitsForEver(conns: seq<Conn>, steps: seq<Step>, m: nat, n: nat)
    requires IsRun(conns, steps) && m <= n < |conns|
    requires (ClientGone(conns[m]) || ClientBlocked(conns[m])) && WaitsUntimed(conns[m])
    requires forall k :: m <= k < n ==> steps[k] != HostMove(L.Stop(L.Host))
    ensures (ClientGone(conns[n]) || ClientBlocked(conns[n])) && WaitsUntimed(conns[n])
    ensures ClientWaitsUntimed(conns[m]) && (forall k :: m <= k < n ==> steps[k] != ClientMove(L.Stop(L.Client))) ==>
              ClientWaitsUntimed(conns[n])
    decreases n
  {
    if m < n {
      WaitsForEver(conns, steps, m, n - 1);
      RunKeepsInv(conns, steps, n - 1);
      WaitingStays(conns[n - 1], steps[n - 1]);
    }
  }

  /** How it comes about: the output of a command expires between its placing and the client's
      BLPOP. */
  lemma FadedReplyStrands(c: Conn)
    requires Inv(c) && c.link.client.alive && c.link.host.alive && !c.over && c.mode.InSession?
    requires c.link.client.io.Ready? && c.link.host.io.Placed? && c.link.client.pos == c.link.host.pos > FIRST_REQUEST
    requires c.link.host.sends < U64_MAX
    requires ReplyAt(c.link.log, c.link.host.pos).Some? && ReplyAt(c.link.log, c.link.host.pos).value.Output?
    requires RequestAt(c.link.log, c.link.host.pos - 1).Some? && RequestAt(c.link.log, c.link.host.pos - 1).value.Run?
    ensures Enabled(c, Weather(EMPTY, EMPTY))
    ensures var faded := Apply(c, Weather(EMPTY, EMPTY));
            Enabled(faded, HostMove(L.Advance(L.Host)))
            && var after := Apply(faded, HostMove(L.Advance(L.Host)));
            WaitsUntimed(after) && ClientWaitsUntimed(after) && ReplyExpired(after)
            && !ExecBailed(after) && !StoppedEarly(after) && !LastExpired(after)
  {
    assert L.TurnInv(c.link, L.Host) && L.TurnInv(c.link, L.Client) && WorkInv(c);
    assert L.ClientTurn(c.link.host.pos + 1);
  }

  /** Or the command itself expires before the handler's BLPOP. */
  lemma FadedRequestStrands(c: Conn)
    requires Inv(c) && c.link.client.alive && HostReceives(c.(link := c.link.(up := EMPTY))) && c.mode.InSession?
    requires c.link.client.io.Placed? && c.link.client.pos == c.link.host.pos >= FIRST_REQUEST && c.link.client.sends < U64_MAX
    requires RequestAt(c.link.log, c.link.client.pos).Some? && RequestAt(c.link.log, c.link.client.pos).value.Run?
    ensures Enabled(c, Weather(EMPTY, EMPTY))
    ensures var faded := Apply(c, Weather(EMPTY, EMPTY));
            Enabled(faded, ClientMove(L.Advance(L.Client)))
            && var after := Apply(faded, ClientMove(L.Advance(L.Client)));
            WaitsUntimed(after) && ClientWaitsUntimed(after) && LastExpired(after)
  {
    assert L.TurnInv(c.link, L.Host) && L.TurnInv(c.link, L.Client);
    assert !L.ClientTurn(c.link.client.pos + 1);
  }
}
