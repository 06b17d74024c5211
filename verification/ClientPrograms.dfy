/** The client programs as the step-by-step code of src/main.rs:213-340 and 455-592. Between its
    statements the host, its other connections and the expiry of frames act as they like, and any
    statement may fail. Each statement is a step of the machine in Conversation, so what is proved
    of all runs there holds of this code; in particular its "unexpected response" branches are
    dead. */
module ClientPrograms {
  import opened Wrappers
  import opened Protocol
  import opened Programs
  import opened Channel
  import opened Answers
  import opened Requests
  import L = Lockstep
  import C = Conversation

  /** What happens before our next statement: others act, and then it may fail. */
  datatype Turn = Turn(others: seq<C.Step>, fault: bool)

  /** `StillWaiting`: the program blocks for a reply without a timeout. */
  datatype ProgramError = ChannelFailed | ServerRefused | WrongSignature | StillWaiting

  type Outcome = Result<(), ProgramError>

  /** What nobody but the client changes. */
  predicate SameClient(c: C.Conn, d: C.Conn) {
    d.program == c.program && d.expected == c.expected && d.signature == c.signature
    && d.link.client == c.link.client && c.link.log <= d.link.log && c.answers <= d.answers
  }

  /** The same program, with more history. */
  predicate Onward(c: C.Conn, d: C.Conn) {
    d.program == c.program && d.expected == c.expected && d.signature == c.signature
    && c.link.log <= d.link.log && c.answers <= d.answers
  }

  lemma OthersSpare(c: C.Conn, s: C.Step)
    requires C.Inv(c) && C.Enabled(c, s) && !s.ClientMove?
    ensures SameClient(c, C.Apply(c, s))
  {
    C.LogGrows(c, s);
  }

  lemma RequestsUnheard(log: seq<Frame>, i: nat)
    requires C.RequestAt(log, i).Some?
    ensures C.Replies(log, i + 1) == C.Replies(log, i)
  {
  }

  /** Why a step of the channel can be impossible without a fault: the frame expired, or a counter is
      exhausted; */
  predicate Broken(c: C.Conn) {
    var e, box := c.link.client, L.BoxOf(c.link, c.link.client.pos);
    (e.io.Popped? && box.slot.None?)
    || (e.io.Holding? && box.slot != Some(e.io.frame))
    || e.sends >= U64_MAX || e.recvs >= U64_MAX
  }

  /** or no frame was announced, which ends a program only while it waits with a timeout. */
  predicate Unannounced(c: C.Conn) {
    c.link.client.io.Ready? && !L.ClientTurn(c.link.client.pos) && L.BoxOf(c.link, c.link.client.pos).tokens == 0
  }

  lemma SlotIsFree(c: C.Conn)
    requires C.Inv(c) && c.link.client.io.Ready? && L.ClientTurn(c.link.client.pos)
    ensures L.BoxOf(c.link, c.link.client.pos).slot.None? && c.link.client.pos == |c.link.log|
  {
    assert L.TurnInv(c.link, L.Client);
  }

  /** The frame a client holds answers in kind what it asked before. */
  lemma HeldAnswers(c: C.Conn)
    requires C.Inv(c) && c.link.client.io.Holding? && c.link.client.pos > C.FIRST_REQUEST
    ensures var i := c.link.client.pos;
            !L.ClientTurn(i) && i < |c.link.log| && C.ReplyAt(c.link.log, i).Some? && C.RequestAt(c.link.log, i - 1).Some?
            && Matches(C.RequestAt(c.link.log, i - 1).value, C.ReplyAt(c.link.log, i).value)
            && C.Replies(c.link.log, i + 1) == C.Replies(c.link.log, i - 1) + [C.ReplyAt(c.link.log, i).value]
  {
    assert L.TurnInv(c.link, L.Client);
    C.RepliesStep(c, c.link.client.pos);
  }

  lemma HelloHeld(c: C.Conn)
    requires C.Inv(c) && c.link.client.io.Holding? && c.link.client.pos == 3
    ensures 3 < |c.link.log| && C.ReplyAt(c.link.log, 3) == Some(Hello(c.signature))
  {
    assert L.TurnInv(c.link, L.Client);
    assert C.WellSaid(c, 3);
  }

  /** What the outputs among the replies print. */
  function Outputs(replies: seq<ServerReply>): seq<string> {
    if replies == [] then []
    else
      var n := |replies| - 1;
      Outputs(replies[..n]) + if replies[n].Output? then [replies[n].data] else []
  }

  lemma OutputsLonger(replies: seq<ServerReply>, reply: ServerReply)
    ensures Outputs(replies + [reply]) == Outputs(replies) + if reply.Output? then [reply.data] else []
  {
    assert (replies + [reply])[..|replies|] == replies;
  }

  /** After `done` commands the lines from `i` on are left. */
  ghost predicate Left(lines: seq<string>, done: nat, i: nat) {
    i <= |lines| && done <= |Commands(lines)| && Commands(lines)[done..] == Commands(lines[i..])
  }

  lemma OneLineLess(lines: seq<string>, done: nat, i: nat)
    requires Left(lines, done, i)
    ensures i == |lines| ==> done == |Commands(lines)|
    ensures i < |lines| ==>
              if TrimEnd(lines[i]) == "exit" then done == |Commands(lines)|
              else if TrimEnd(lines[i]) == "" then Left(lines, done, i + 1)
              else done < |Commands(lines)| && Commands(lines)[done] == TrimEnd(lines[i]) && Left(lines, done + 1, i + 1)
  {
    var rest := Commands(lines)[done..];
    if i < |lines| {
      assert lines[i..][0] == lines[i] && lines[i..][1..] == lines[i + 1..];
      if rest != [] {
        assert rest[0] == Commands(lines)[done] && rest[1..] == Commands(lines)[done + 1..];
      }
    }
  }

  /** The last command that the host has handed to `run` is this one, and the reply tells what
      `run` gave for it. */
  predicate LastAnswer(c: C.Conn, command: string, reply: ServerReply) {
    |c.answers| == |c.ran| > 0 && c.ran[|c.ran| - 1] == command && Tells(reply, c.answers[|c.answers| - 1])
  }

  lemma AnswerHeard(c: C.Conn, i: nat, command: string, heard: seq<ServerReply>, reply: ServerReply)
    requires C.Reachable(c) && c.link.client.io.Ready? && c.link.client.pos == i + 2 && L.ClientTurn(i + 2)
    requires i >= C.FIRST_REQUEST && L.ClientTurn(i) && C.RequestAt(c.link.log, i) == Some(Run(command))
    requires C.Replies(c.link.log, i + 2) == heard + [reply]
    ensures LastAnswer(c, command, reply)
  {
    LastIsTold(c, i);
    var all := C.Replies(c.link.log, i + 2);
    assert all == C.Replies(c.link.log, i + 1) + [C.ReplyAt(c.link.log, i + 1).value];
    assert all[|all| - 1] == reply;
  }

  /** After Disconnect every command asked for has been handed to `run` and answered. */
  lemma AllAnswered(c: C.Conn, i: nat, commands: seq<string>)
    requires C.Reachable(c) && Wants(c.program, commands) && (c.program.Exec? || c.program.Connect?)
    requires C.FIRST_REQUEST <= i && L.ClientTurn(i) && C.RequestAt(c.link.log, i) == Some(Disconnect)
    ensures C.RunsIn(c.link.log, |c.link.log|) == c.ran == commands
    ensures RepliesTell(c, C.Replies(c.link.log, i + 1), |c.answers|)
  {
    LeavesAfterAll(c, i, commands);
    OpensWhatWasAsked(c);
    C.FirstTurns();
    assert !L.ClientTurn(5);
    ToldThrough(c, i, commands);
    LastRunsAt(c, i, commands);
    AnswersAgree(c);
    C.ReachableInv(c);
    C.RanIsPrefix(c);
    RequestsUnheard(c.link.log, i);
  }

  /** Nothing is sent from there on. */
  lemma LastRunsAt(c: C.Conn, i: nat, commands: seq<string>)
    requires C.Reachable(c) && Wants(c.program, commands) && (c.program.Exec? || c.program.Connect?)
    requires C.FIRST_REQUEST + 2 <= i < |c.link.log| && L.ClientTurn(i) && C.RequestAt(c.link.log, i) == Some(Disconnect)
    ensures C.RunsIn(c.link.log, i) == commands
  {
    C.ReachableInv(c);
    C.FirstTurns();
    assert !L.ClientTurn(i - 1);
    C.RepliesStep(c, i - 1);
    AskedAt(c, i, commands);
    SentBefore(c, i, commands);
  }

  class Client {
    var conn: C.Conn
    var shown: seq<string>   // what was printed
    var now: nat
    const env: nat -> Turn

    constructor (program: Program, expected: Option<string>, signature: string, key: nat, schedule: nat -> Turn)
      ensures conn == C.Start(program, expected, signature, key) && env == schedule && shown == [] && now == 0
      ensures C.Reachable(conn)
    {
      conn, env, shown, now := C.Start(program, expected, signature, key), schedule, [], 0;
      new;
      C.StartReachable(program, expected, signature, key);
    }

    function Pos(): nat
      reads this
    {
      conn.link.client.pos
    }

    /** The replies taken so far, Hello aside. */
    function Heard(): seq<ServerReply>
      reads this
    {
      C.Replies(conn.link.log, Pos())
    }

    predicate Stands(sending: bool)
      reads this
    {
      conn.link.client.alive && conn.link.client.io.Ready? && L.ClientTurn(Pos()) == sending
    }

    /** Past Hello, accepted, and at the client's turn. */
    predicate Due(p: Program)
      reads this
    {
      conn.program == p && Stands(true) && Pos() >= C.FIRST_REQUEST
      && (conn.expected.Some? ==> conn.expected.value == conn.signature)
    }

    ghost predicate Faulted(from: nat)
      reads this
    {
      exists t :: from <= t < now && env(t).fault
    }

    /** The program has given up its channel, for a reason. */
    ghost predicate Severed(from: nat)
      reads this
    {
      !conn.link.client.alive && (Faulted(from) || Broken(conn))
    }

    /** Or because it has waited in vain for a frame. */
    ghost predicate Dropped(from: nat)
      reads this
    {
      !conn.link.client.alive && (Faulted(from) || Broken(conn) || Unannounced(conn))
    }

    /** Others act. */
    method Pause() returns (fault: bool)
      requires C.Reachable(conn)
      modifies this`conn, this`now
      ensures C.Reachable(conn) && SameClient(old(conn), conn) && now == old(now) + 1 && fault == env(old(now)).fault
    {
      var others := env(now).others;
      fault := env(now).fault;
      now := now + 1;
      for i := 0 to |others|
        invariant C.Reachable(conn) && SameClient(old(conn), conn) && now == old(now) + 1
      {
        if !others[i].ClientMove? && C.Enabled(conn, others[i]) {
          C.ReachableInv(conn);
          OthersSpare(conn, others[i]);
          C.ReachableNext(conn, others[i]);
          conn := C.Apply(conn, others[i]);
        }
      }
    }

    /** One statement. */
    method Do(m: L.Move)
      requires C.Reachable(conn) && C.Enabled(conn, C.ClientMove(m))
      modifies this`conn
      ensures C.Reachable(conn) && conn == C.Apply(old(conn), C.ClientMove(m)) && Onward(old(conn), conn)
    {
      C.ReachableInv(conn);
      C.LogGrows(conn, C.ClientMove(m));
      C.ReachableNext(conn, C.ClientMove(m));
      conn := C.Apply(conn, C.ClientMove(m));
    }

    method GiveUp(ghost from: nat)
      requires C.Reachable(conn) && conn.link.client.alive && (Faulted(from) || Broken(conn) || Unannounced(conn))
      modifies this`conn
      ensures C.Reachable(conn) && Dropped(from) && Onward(old(conn), conn)
      ensures Faulted(from) || old(Broken(conn)) ==> Severed(from)
      ensures conn.link.log == old(conn).link.log && Pos() == old(Pos())
    {
      Do(L.Stop(L.Client));
    }

    // -------------------------------------------------------------- the channel

    /** Places a frame; the slot is free, so the first SET NX succeeds. Then the counter. */
    method Put(plain: Plain) returns (ok: bool)
      requires C.Reachable(conn) && Stands(true)
      requires Pos() >= C.FIRST_REQUEST ==>
                 C.ClientChoice(conn, Pos()).Ask? && plain == Request(C.ClientChoice(conn, Pos()).request)
      modifies this`conn, this`now
      ensures C.Reachable(conn) && now > old(now) && Onward(old(conn), conn)
      ensures ok ==> Stands(false) && Pos() == old(Pos()) + 1
      ensures ok && old(Pos()) >= C.FIRST_REQUEST ==>
                C.PlainAt(conn.link.log, old(Pos())) == Some(plain) && C.Replies(conn.link.log, old(Pos())) == old(Heard())
      ensures !ok ==> Severed(old(now)) && Heard() == old(Heard())
    {
      C.ReachableInv(conn);
      SlotIsFree(conn);
      var fault := Pause();
      C.HeardStays(old(conn).link.log, conn.link.log, Pos());
      if fault {
        GiveUp(old(now));
        return false;
      }
      PlaceFrame(plain);
      ok := CountSent();
    }

    method PlaceFrame(plain: Plain)
      requires C.Reachable(conn) && Stands(true)
      requires Pos() >= C.FIRST_REQUEST ==>
                 C.ClientChoice(conn, Pos()).Ask? && plain == Request(C.ClientChoice(conn, Pos()).request)
      modifies this`conn
      ensures C.Reachable(conn) && Onward(old(conn), conn)
      ensures conn.link.client == old(conn).link.client.(io := L.Placed)
      ensures Pos() < |conn.link.log| && Heard() == old(Heard())
      ensures Pos() >= C.FIRST_REQUEST ==> C.PlainAt(conn.link.log, Pos()) == Some(plain)
    {
      C.ReachableInv(conn);
      SlotIsFree(conn);
      C.LogGrows(conn, C.ClientMove(L.Place(L.Client, plain)));
      Do(L.Place(L.Client, plain));
      C.HeardStays(old(conn).link.log, conn.link.log, Pos());
    }

    method CountSent() returns (ok: bool)
      requires C.Reachable(conn) && conn.link.client.alive && conn.link.client.io.Placed? && L.ClientTurn(Pos())
      requires Pos() < |conn.link.log|
      modifies this`conn, this`now
      ensures C.Reachable(conn) && now > old(now) && Onward(old(conn), conn)
      ensures ok ==> Stands(false) && Pos() == old(Pos()) + 1 && C.Replies(conn.link.log, old(Pos())) == old(Heard())
      ensures !ok ==> Severed(old(now)) && Heard() == old(Heard())
    {
      var fault := Pause();
      C.HeardStays(old(conn).link.log, conn.link.log, Pos());
      if fault || conn.link.client.sends >= U64_MAX {
        GiveUp(old(now));
        return false;
      }
      Do(L.Advance(L.Client));
      ok := true;
    }

    /** BLPOP, GET and opening; `forever` without a timeout. */
    method Take(forever: bool) returns (ok: bool)
      requires C.Reachable(conn) && Stands(false) && !C.ClientDone(conn) && Pos() <= |conn.link.log|
      modifies this`conn, this`now
      ensures C.Reachable(conn) && now > old(now) && Onward(old(conn), conn)
      ensures Pos() == old(Pos())
      ensures ok ==> conn.link.client.alive && conn.link.client.io.Holding?
      ensures !ok ==> if forever then Severed(old(now)) || (Stands(false) && L.BoxOf(conn.link, Pos()).tokens == 0) else Dropped(old(now))
    {
      var fault := Pause();
      if fault || L.BoxOf(conn.link, Pos()).tokens == 0 {
        if fault || !forever {
          GiveUp(old(now));
        }
        return false;
      }
      Do(L.Pop(L.Client));
      ok := Fetch();
    }

    method Fetch() returns (ok: bool)
      requires C.Reachable(conn) && conn.link.client.alive && conn.link.client.io.Popped?
      modifies this`conn, this`now
      ensures C.Reachable(conn) && now > old(now) && Onward(old(conn), conn)
      ensures Pos() == old(Pos())
      ensures ok ==> conn.link.client.alive && conn.link.client.io.Holding?
      ensures !ok ==> Severed(old(now))
    {
      var fault := Pause();
      if fault {
        GiveUp(old(now));
        return false;
      }
      C.ReachableInv(conn);
      L.FetchAccepts(conn.link, L.Client);
      Do(L.Fetch(L.Client));
      ok := conn.link.client.alive;
    }

    /** The compare-and-delete acknowledgement, then the counter. */
    method Acknowledge() returns (ok: bool)
      requires C.Reachable(conn) && conn.link.client.alive && conn.link.client.io.Holding? && !L.ClientTurn(Pos())
      requires Pos() < |conn.link.log|
      modifies this`conn, this`now
      ensures C.Reachable(conn) && now > old(now) && Onward(old(conn), conn)
      ensures ok ==> Stands(true) && Pos() == old(Pos()) + 1
      ensures !ok ==> Severed(old(now))
    {
      var fault := Pause();
      if fault {
        GiveUp(old(now));
        return false;
      }
      Do(L.Ack(L.Client));
      ok := conn.link.client.alive;
      if ok {
        ok := CountReceived();
      }
    }

    method CountReceived() returns (ok: bool)
      requires C.Reachable(conn) && conn.link.client.alive && conn.link.client.io.Cleared? && !L.ClientTurn(Pos())
      modifies this`conn, this`now
      ensures C.Reachable(conn) && now > old(now) && Onward(old(conn), conn)
      ensures ok ==> Stands(true) && Pos() == old(Pos()) + 1
      ensures !ok ==> Severed(old(now))
    {
      var fault := Pause();
      if fault || conn.link.client.recvs >= U64_MAX {
        GiveUp(old(now));
        return false;
      }
      Do(L.Next(L.Client));
      ok := true;
    }

    // -------------------------------------------------------------- login

    /** `client_channel`: login, Hello, and the check of the host's signature. */
    method Login() returns (r: Result<string, ProgramError>)
      requires C.Reachable(conn) && Stands(true) && Pos() == 0 && conn.link.log == []
      modifies this`conn, this`now
      ensures C.Reachable(conn) && Onward(old(conn), conn) && now >= old(now)
      ensures r.Ok? ==> r.value == conn.signature && Due(conn.program) && Pos() == C.FIRST_REQUEST
      ensures r.Err? ==> (r.error.ChannelFailed? && Dropped(old(now))) || r.error.WrongSignature?
      ensures r == Err(WrongSignature) ==>
                conn.expected.Some? && conn.expected.value != conn.signature && C.ClientDone(conn)
    {
      C.FirstTurns();
      for step := 0 to 2
        invariant C.Reachable(conn) && Stands(true) && Pos() == 2 * step && Onward(old(conn), conn) && now >= old(now)
      {
        var ok := Put(Request(Ping));
        if !ok {
          return Err(ChannelFailed);
        }
        ok := TakeLogin();
        if !ok {
          return Err(ChannelFailed);
        }
      }
      if conn.expected.Some? && conn.expected.value != conn.signature {
        return Err(WrongSignature);
      }
      r := Ok(conn.signature);
    }

    /** Receives and acknowledges a frame of the login, or Hello, which is always what it is. */
    method TakeLogin() returns (ok: bool)
      requires C.Reachable(conn) && Stands(false) && Pos() < C.FIRST_REQUEST
      modifies this`conn, this`now
      ensures C.Reachable(conn) && now > old(now) && Onward(old(conn), conn)
      ensures ok ==> Stands(true) && Pos() == old(Pos()) + 1
      ensures ok && old(Pos()) == 3 ==> C.ReplyAt(conn.link.log, 3) == Some(Hello(conn.signature))
      ensures !ok ==> Dropped(old(now))
    {
      AfterSending();
      ok := Take(false);
      if ok {
        HeldOfLogin();
        ok := Acknowledge();
      }
    }

    lemma HeldOfLogin()
      requires C.Reachable(conn) && conn.link.client.io.Holding?
      ensures !L.ClientTurn(Pos()) && Pos() < |conn.link.log|
      ensures Pos() == 3 ==> C.ReplyAt(conn.link.log, 3) == Some(Hello(conn.signature))
    {
      C.ReachableInv(conn);
      assert L.TurnInv(conn.link, L.Client);
      if Pos() == 3 {
        HelloHeld(conn);
      }
    }

    // -------------------------------------------------------------- requests and replies

    /** Sends what the program chooses and takes the reply, unacknowledged. */
    method Exchange(request: ClientRequest, forever: bool, ghost p: Program) returns (r: Result<ServerReply, ProgramError>)
      requires C.Reachable(conn) && Due(p) && Choose(p, Heard()) == Ask(request) && !request.Disconnect?
      modifies this`conn, this`now
      ensures C.Reachable(conn) && now > old(now) && Onward(old(conn), conn)
      ensures r.Ok? ==> Holds(r.value, old(Heard())) && Matches(request, r.value) && Pos() == old(Pos()) + 1
                        && C.RequestAt(conn.link.log, old(Pos())) == Some(request)
      ensures r.Err? ==> if forever then (r.error.ChannelFailed? && Severed(old(now))) || (r.error.StillWaiting? && Waits())
                         else r.error.ChannelFailed? && Dropped(old(now))
    {
      var ok := Put(Request(request));
      if !ok {
        return Err(ChannelFailed);
      }
      AfterSending();
      ghost var sent := conn.link.log;
      ok := Take(forever);
      if !ok {
        return Err(if conn.link.client.alive then StillWaiting else ChannelFailed);
      }
      C.HeardStays(sent, conn.link.log, old(Pos()));
      ReplyHeld(old(Heard()), request);
      r := Ok(C.ReplyAt(conn.link.log, Pos()).value);
    }

    /** A reply is held whose acknowledgement would make it the next one heard. */
    ghost predicate Holds(reply: ServerReply, heard: seq<ServerReply>)
      reads this
    {
      conn.link.client.alive && conn.link.client.io.Holding? && !L.ClientTurn(Pos())
      && C.FIRST_REQUEST < Pos() < |conn.link.log|
      && C.Replies(conn.link.log, Pos() + 1) == heard + [reply]
    }

    /** Blocked for a reply that nobody has announced. */
    ghost predicate Waits()
      reads this
    {
      Stands(false) && L.BoxOf(conn.link, Pos()).tokens == 0
    }

    lemma AfterSending()
      requires C.Reachable(conn) && Stands(false)
      ensures Pos() <= |conn.link.log|
    {
      C.ReachableInv(conn);
      assert L.TurnInv(conn.link, L.Client);
    }

    lemma ReplyHeld(heard: seq<ServerReply>, request: ClientRequest)
      requires C.Reachable(conn) && conn.link.client.alive && conn.link.client.io.Holding? && Pos() > C.FIRST_REQUEST
      requires C.PlainAt(conn.link.log, Pos() - 1) == Some(Request(request)) && C.Replies(conn.link.log, Pos() - 1) == heard
      ensures C.ReplyAt(conn.link.log, Pos()).Some? && Matches(request, C.ReplyAt(conn.link.log, Pos()).value)
      ensures Holds(C.ReplyAt(conn.link.log, Pos()).value, heard)
    {
      C.ReachableInv(conn);
      HeldAnswers(conn);
    }

    /** Acknowledges the reply held. */
    method Accept(reply: ServerReply, ghost heard: seq<ServerReply>) returns (ok: bool)
      requires C.Reachable(conn) && Holds(reply, heard)
      modifies this`conn, this`now
      ensures C.Reachable(conn) && now > old(now) && Onward(old(conn), conn)
      ensures ok ==> Stands(true) && Pos() == old(Pos()) + 1 && Heard() == heard + [reply]
      ensures !ok ==> Severed(old(now))
    {
      ok := Acknowledge();
      C.HeardStays(old(conn).link.log, conn.link.log, old(Pos()) + 1);
    }

    /** Sends a request and receives its reply. */
    method Call(request: ClientRequest, ghost p: Program) returns (r: Result<ServerReply, ProgramError>)
      requires C.Reachable(conn) && Due(p) && Choose(p, Heard()) == Ask(request) && !request.Disconnect?
      modifies this`conn, this`now
      ensures C.Reachable(conn) && now > old(now) && Onward(old(conn), conn)
      ensures r.Ok? ==> Due(p) && Heard() == old(Heard()) + [r.value] && Matches(request, r.value)
      ensures r.Err? ==> r.error.ChannelFailed? && Dropped(old(now))
    {
      r := Exchange(request, false, p);
      if r.Ok? {
        var ok := Accept(r.value, old(Heard()));
        if !ok {
          r := Err(ChannelFailed);
        }
      }
    }

    // -------------------------------------------------------------- the programs

    /** How a program ends: done, its last request sent; refused by the host, which its strategy
        takes as the end; failed for a reason of the channel; or blocked without a timeout. */
    ghost predicate Ended(p: Program, from: nat, r: Outcome)
      reads this
    {
      match r
      case Ok(_) => C.ClientDone(conn)
      case Err(ServerRefused) => Due(p) && Choose(p, Heard()).Refused? && C.ClientDone(conn)
      case Err(ChannelFailed) => Dropped(from)
      case Err(StillWaiting) => Waits()
      case Err(WrongSignature) => conn.expected.Some? && conn.expected.value != conn.signature && C.ClientDone(conn)
    }

    method Leave(ghost p: Program) returns (r: Outcome)
      requires C.Reachable(conn) && Due(p) && Choose(p, Heard()) == Ask(Disconnect)
      modifies this`conn, this`now
      ensures C.Reachable(conn) && Onward(old(conn), conn) && now > old(now) && Ended(p, old(now), r)
      ensures r.Ok? || (r == Err(ChannelFailed) && Severed(old(now)))
      ensures Heard() == old(Heard())
      ensures r.Ok? ==> Pos() > C.FIRST_REQUEST && L.ClientTurn(Pos() - 1) && C.RequestAt(conn.link.log, Pos() - 1) == Some(Disconnect)
    {
      var ok := Put(Request(Disconnect));
      if ok {
        RequestsUnheard(conn.link.log, old(Pos()));
      }
      r := if ok then Ok(()) else Err(ChannelFailed);
    }

    /** `open_session`. */
    method OpenSession(session: Option<string>, persistent: bool, ghost p: Program) returns (r: Outcome)
      requires (p.Connect? || p.Exec?) && FirstAsked(p, Open(session, persistent))
      requires C.Reachable(conn) && Due(p) && Heard() == []
      modifies this`conn, this`now
      ensures C.Reachable(conn) && Onward(old(conn), conn) && now > old(now)
      ensures r.Ok? ==> Due(p) && |Heard()| == 1 && Heard()[0].Opened?
      ensures r.Err? ==> Ended(p, old(now), r)
    {
      var reply := Call(Open(session, persistent), p);
      match reply {
        case Err(e) => r := Err(e);
        case Ok(Opened(_)) => r := Ok(());
        case Ok(Error(_)) => r := Err(ServerRefused);
        case _ => assert false;
      }
    }

    /** Sends a command and takes its reply, waiting without a timeout: an output is printed
        before it is acknowledged. */
    method RunCommand(command: string, ghost p: Program) returns (r: Result<ServerReply, ProgramError>)
      requires C.Reachable(conn) && Due(p) && Choose(p, Heard()) == Ask(Run(command))
      modifies this
      ensures C.Reachable(conn) && Onward(old(conn), conn) && now > old(now)
      ensures r.Ok? ==> Due(p) && Heard() == old(Heard()) + [r.value] && LastAnswer(conn, command, r.value)
                        && shown == old(shown) + (if r.value.Output? then [r.value.data] else [])
      ensures r.Err? ==> (r.error.ChannelFailed? && Severed(old(now))) || (r.error.StillWaiting? && Waits())
      ensures shown == old(shown) || exists data :: shown == old(shown) + [data]
    {
      r := Exchange(Run(command), true, p);
      if r.Err? {
        return;
      }
      var reply := r.value;
      if reply.Output? {
        shown := shown + [reply.data];
      }
      var ok := AcceptAnswer(command, reply, old(Pos()), old(Heard()));
      if !ok {
        r := Err(ChannelFailed);
      }
    }

    /** Acknowledges the reply held to the command asked at `i`. */
    method AcceptAnswer(command: string, reply: ServerReply, ghost i: nat, ghost heard: seq<ServerReply>) returns (ok: bool)
      requires C.Reachable(conn) && Holds(reply, heard) && Pos() == i + 1
      requires i >= C.FIRST_REQUEST && L.ClientTurn(i) && C.RequestAt(conn.link.log, i) == Some(Run(command))
      modifies this`conn, this`now
      ensures C.Reachable(conn) && now > old(now) && Onward(old(conn), conn)
      ensures ok ==> Stands(true) && Pos() == i + 2 && Heard() == heard + [reply] && LastAnswer(conn, command, reply)
      ensures !ok ==> Severed(old(now))
    {
      ok := Accept(reply, heard);
      if ok {
        assert C.RequestAt(conn.link.log, i) == Some(Run(command));
        AnswerHeard(conn, i, command, heard, reply);
      }
    }

    /** `execute`, without a timeout: an answer that takes however long is no reason to fail. An Error
        ends it without a Disconnect. */
    method Execute(command: string, ghost p: Program) returns (r: Outcome)
      requires p.Exec? && p.command == command && C.Reachable(conn) && Due(p)
      requires |Heard()| == 1 && Heard()[0].Opened? && shown == []
      modifies this
      ensures C.Reachable(conn) && Onward(old(conn), conn) && now > old(now) && Ended(p, old(now), r)
      ensures r == Err(ChannelFailed) ==> Severed(old(now))
      ensures |shown| <= 1
      ensures r.Ok? ==> Concluded(p) && conn.ran == [command]
                        && |conn.answers| == 1 && conn.answers[0].Printed? && shown == [conn.answers[0].data]
    {
      var reply := RunCommand(command, p);
      match reply {
        case Err(e) => r := Err(e);
        case Ok(Output(_, _)) =>
          OneAnswer(conn, command);
          r := Leave(p);
          if r.Ok? {
            Concludes(p);
            OneAnswer(conn, command);
          }
        case Ok(_) => r := Err(ServerRefused);
      }
    }

    /** An `exec` has at most one command, and so at most one answer. */
    lemma OneAnswer(c: C.Conn, command: string)
      requires C.Reachable(c) && c.program.Exec? && c.program.command == command && c.answers != []
      ensures c.ran == [command] && |c.answers| == 1
    {
      C.ReachableInv(c);
      AnswersAgree(c);
      SendsWhatWasAsked(c, [command]);
      C.RanIsPrefix(c);
    }

    /** At the prompt of `interactive`, the lines from `i` on unread. */
    ghost predicate Prompted(p: Program, i: nat)
      requires p.Connect?
      reads this
    {
      C.Reachable(conn) && Due(p) && |Heard()| >= 1 && shown == Outputs(Heard())
      && Choose(p, Heard()) == RunOrLeave(p, |Heard()| - 1) && Left(p.lines, |Heard()| - 1, i)
    }

    lemma FirstPrompt(p: Program)
      requires p.Connect? && C.Reachable(conn) && Due(p) && |Heard()| == 1 && Heard()[0].Opened? && shown == []
      ensures Prompted(p, 0)
    {
      OutputsLonger([], Heard()[0]);
      assert [] + [Heard()[0]] == Heard();
    }

    /** `interactive`: runs the commands of `lines` in order until `exit` or end of input, without a
        timeout; an Error reply does not end it. */
    method Interactive(lines: seq<string>, ghost p: Program) returns (r: Outcome)
      requires p.Connect? && p.lines == lines && C.Reachable(conn) && Due(p)
      requires |Heard()| == 1 && Heard()[0].Opened? && shown == []
      modifies this
      ensures C.Reachable(conn) && Onward(old(conn), conn) && now > old(now) && Ended(p, old(now), r)
      ensures r == Err(ChannelFailed) ==> Severed(old(now))
      ensures r.Ok? ==> Concluded(p) && shown == Outputs(Heard())
    {
      var i, exit := 0, false;
      FirstPrompt(p);
      while i < |lines| && !exit
        invariant i <= |lines| && now >= old(now) && Onward(old(conn), conn)
        invariant if exit then AtExit(p) else Prompted(p, i)
      {
        var ok, last := ReadLine(lines, p, i);
        if ok.Err? {
          return ok;
        }
        i, exit := i + 1, last;
      }
      EndOfInput(p, i);
      r := Leave(p);
      if r.Ok? {
        Concludes(p);
      }
    }

    /** Every command that was asked for, and no other, has been sent and handed to `run`, and each
        reply after Opened has told what `run` gave. */
    ghost predicate Concluded(p: Program)
      reads this
    {
      C.RunsIn(conn.link.log, |conn.link.log|) == conn.ran && Wants(p, conn.ran) && RepliesTell(conn, Heard(), |conn.answers|)
    }

    lemma Concludes(p: Program)
      requires C.Reachable(conn) && conn.program == p && (p.Exec? || p.Connect?)
      requires Pos() > C.FIRST_REQUEST && L.ClientTurn(Pos() - 1) && C.RequestAt(conn.link.log, Pos() - 1) == Some(Disconnect)
      ensures Concluded(p)
    {
      var commands := WantsSome(p);
      AllAnswered(conn, Pos() - 1, commands);
    }

    /** One turn of its loop. */
    method ReadLine(lines: seq<string>, ghost p: Program, i: nat) returns (r: Outcome, exit: bool)
      requires p.Connect? && p.lines == lines && Prompted(p, i) && i < |lines|
      modifies this
      ensures Onward(old(conn), conn) && now >= old(now)
      ensures r.Ok? ==> if exit then AtExit(p) else Prompted(p, i + 1)
      ensures r.Err? ==> C.Reachable(conn) && now > old(now) && Ended(p, old(now), r)
      ensures r == Err(ChannelFailed) ==> Severed(old(now))
    {
      OneLineLess(p.lines, |Heard()| - 1, i);
      var line := TrimEnd(lines[i]);
      if line == "exit" || line == "" {
        return Ok(()), line == "exit";
      }
      var reply := RunCommand(line, p);
      r, exit := if reply.Err? then Err(reply.error) else Ok(()), false;
    }

    /** Every command has been answered and every output printed; Disconnect is next. */
    ghost predicate AtExit(p: Program)
      requires p.Connect?
      reads this
    {
      C.Reachable(conn) && Due(p) && |Heard()| == 1 + |Commands(p.lines)| && shown == Outputs(Heard())
      && Choose(p, Heard()) == Ask(Disconnect)
    }

    lemma EndOfInput(p: Program, i: nat)
      requires p.Connect? && (AtExit(p) || (Prompted(p, i) && i == |p.lines|))
      ensures AtExit(p)
    {
      if Prompted(p, i) {
        OneLineLess(p.lines, |Heard()| - 1, i);
      }
    }

    /** `measure_host_latency`: a warm-up and `count` measured pings. */
    method MeasureLatency(count: nat) returns (r: Outcome)
      requires C.Reachable(conn) && Due(Latency(count)) && Heard() == []
      modifies this`conn, this`now
      ensures C.Reachable(conn) && now > old(now) && Ended(Latency(count), old(now), r)
      ensures r.Ok? || r == Err(ChannelFailed)
      ensures r.Ok? ==> |Heard()| == count + 1 && forall k :: 0 <= k < |Heard()| ==> Heard()[k].Pong?
    {
      ghost var p := Latency(count);
      for n := 0 to count + 1
        invariant C.Reachable(conn) && now >= old(now) && Due(p) && |Heard()| == n
        invariant forall k :: 0 <= k < n ==> Heard()[k].Pong?
      {
        var reply := Call(Ping, p);
        if reply.Err? {
          return Err(reply.error);
        }
      }
      r := Leave(p);
    }

    /** The `close` command after login. */
    method CloseSession(session: string) returns (r: Outcome)
      requires C.Reachable(conn) && Due(Close(session)) && Heard() == []
      modifies this`conn, this`now
      ensures C.Reachable(conn) && now > old(now) && Ended(Close(session), old(now), r)
      ensures r.Ok? ==> Heard() == [Deleted(session)]
    {
      var reply := Call(DeleteSession(session), Close(session));
      match reply {
        case Err(e) => r := Err(e);
        case Ok(Error(_)) => r := Err(ServerRefused);
        case Ok(_) => r := Ok(());
      }
    }

    /** `connect` and `exec` after login. */
    method Converse(program: Program) returns (r: Outcome)
      requires program.Connect? || program.Exec?
      requires C.Reachable(conn) && Due(program) && Heard() == [] && shown == []
      modifies this
      ensures C.Reachable(conn) && now > old(now) && Ended(program, old(now), r)
      ensures r.Ok? ==> Concluded(program)
    {
      if program.Exec? {
        r := OpenSession(program.session, true, program);
        if r.Ok? {
          r := Execute(program.command, program);
        }
      } else {
        r := OpenSession(program.session, program.session.Some?, program);
        if r.Ok? {
          r := Interactive(program.lines, program);
        }
      }
    }

    /** A whole command: login, then its program. When it ends well, the commands it has sent are
        exactly those its user asked for. */
    method Perform(program: Program) returns (r: Outcome)
      requires C.Reachable(conn) && Stands(true) && Pos() == 0 && conn.link.log == [] && shown == [] && conn.program == program
      modifies this
      ensures C.Reachable(conn) && Ended(program, old(now), r)
      ensures r.Ok? && (program.Connect? || program.Exec?) ==> Concluded(program)
    {
      var signature := Login();
      if signature.Err? {
        return Err(signature.error);
      }
      match program {
        case Auth => r := Leave(program);
        case Close(target) => r := CloseSession(target);
        case Latency(count) => r := MeasureLatency(count);
        case _ => r := Converse(program);
      }
    }
  }
}
