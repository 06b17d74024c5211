/** A whole connection: a client program against the host's `handle` (src/server.rs:57-177),
    step by step over the lockstep link. What depends on the host's shared sessions is left to
    the result a step names; module Sessions decides which results are possible. */
module Conversation {
  import opened Wrappers
  import opened Protocol
  import opened Mailbox
  import opened Channel
  import opened Programs
  import L = Lockstep

  datatype Mode = PreOpen | InSession(id: string)

  /** What the handler has done for the request it holds. `Answer(None, _)` is Disconnect's. */
  datatype Work =
    | Idle
    | LookupMade(id: string)   // lookup stored, shell not spawned
    | ShellMade(id: string)    // shell spawned, session not yet in the map
    | Unmapped(id: string)     // session out of the map, lookup not yet deleted
    | Answer(reply: Option<ServerReply>, last: bool)

  /** What `run` gives for a command: its output and status, or an error. */
  datatype ShellResult = Printed(data: string, status: int) | Failed(message: string)

  /** `held` is the session the handler's stack keeps alive; `ran` the commands it has handed to
      `run`, and `answers` what `run` gave for them. */
  datatype Conn = Conn(
    program: Program, expected: Option<string>, signature: string,
    link: L.Link, mode: Mode, work: Work, held: Option<string>, over: bool, ran: seq<string>, answers: seq<ShellResult>)

  datatype Step =
    | ClientMove(move: L.Move)
    | HostMove(move: L.Move)
    | Weather(up: Box, down: Box)
    | Simple                          // answered without the shared state
    | RunCommand(result: ShellResult)
    | Missing                         // unknown session
    | Join(id: string)
    | MakeLookup(id: string)
    | LookupFails
    | Spawn(id: string)
    | SpawnFails
    | Insert
    | Unmap
    | Unlink
    | UnlinkFails

  const FIRST_REQUEST: nat := 4

  // ---------------------------------------------------------------- reading the log

  function PlainAt(log: seq<Frame>, i: nat): Option<Plain> {
    if i < |log| && log[i].Sealed? then Some(log[i].plain) else None
  }

  function RequestAt(log: seq<Frame>, i: nat): Option<ClientRequest> {
    match PlainAt(log, i)
    case Some(Request(r)) => Some(r)
    case _ => None
  }

  function ReplyAt(log: seq<Frame>, i: nat): Option<ServerReply> {
    match PlainAt(log, i)
    case Some(Reply(r)) => Some(r)
    case _ => None
  }

  /** The replies after Hello among the frames below `i`. */
  function Replies(log: seq<Frame>, i: nat): seq<ServerReply> {
    if i <= FIRST_REQUEST + 1 then []
    else match ReplyAt(log, i - 1)
      case None => Replies(log, i - 1)
      case Some(r) => Replies(log, i - 1) + [r]
  }

  /** The commands requested among the frames below `i`. */
  function RunsIn(log: seq<Frame>, i: nat): seq<string> {
    if i <= FIRST_REQUEST then []
    else match RequestAt(log, i - 1)
      case Some(Run(command)) => RunsIn(log, i - 1) + [command]
      case _ => RunsIn(log, i - 1)
  }

  /** What the client does at position `i`, its turn. */
  function ClientChoice(c: Conn, i: nat): Choice {
    if c.expected.Some? && c.expected.value != c.signature then Refused
    else Choose(c.program, Replies(c.link.log, i))
  }

  /** The client is done: it has nothing to ask, or has said Disconnect. */
  predicate ClientDone(c: Conn) {
    var e := c.link.client;
    e.io.Ready? && e.pos >= FIRST_REQUEST
    && if L.ClientTurn(e.pos) then !ClientChoice(c, e.pos).Ask?
       else RequestAt(c.link.log, e.pos - 1) == Some(Disconnect)
  }

  /** The request in the handler's hands. */
  function Asked(c: Conn): Option<ClientRequest> {
    var h := c.link.host;
    if h.alive && !c.over && h.pos >= FIRST_REQUEST && L.ClientTurn(h.pos) && h.io.Holding?
    then RequestAt(c.link.log, h.pos) else None
  }

  // ---------------------------------------------------------------- steps

  predicate ClientMayMove(c: Conn, m: L.Move) {
    var e := c.link.client;
    !m.Fade? && m.role == L.Client && L.Enabled(c.link, m)
    && (m.Place? && e.pos >= FIRST_REQUEST ==>
          ClientChoice(c, e.pos).Ask? && m.plain == Request(ClientChoice(c, e.pos).request))
    && (m.Pop? ==> !ClientDone(c))
  }

  predicate HostMayMove(c: Conn, m: L.Move) {
    var h := c.link.host;
    !c.over && !m.Fade? && m.role == L.Host && L.Enabled(c.link, m)
    && (m.Place? && h.pos == 3 ==> m.plain == Reply(Hello(c.signature)))
    && (m.Place? && h.pos > 3 ==> c.work.Answer? && c.work.reply.Some? && m.plain == Reply(c.work.reply.value))
    && (m.Ack? && h.pos >= FIRST_REQUEST ==> c.work.Answer?)
    && (m.Stop? ==> c.work.Idle? || c.work.Answer?)
  }

  predicate Enabled(c: Conn, s: Step) {
    match s
    case ClientMove(m) => ClientMayMove(c, m)
    case HostMove(m) => HostMayMove(c, m)
    case Weather(up, down) => L.Enabled(c.link, L.Fade(up, down))
    case Simple =>
      c.work.Idle?
      && (match Asked(c)
          case Some(Ping) => true
          case Some(Disconnect) => true
          case Some(Open(_, _)) => c.mode.InSession?
          case Some(DeleteSession(_)) => c.mode.InSession?
          case _ => false)
    case RunCommand(_) => c.work.Idle? && c.mode.InSession? && Asked(c).Some? && Asked(c).value.Run?
    case Missing =>
      c.work.Idle? && c.mode.PreOpen?
      && (match Asked(c)
          case Some(Open(Some(_), _)) => true
          case Some(DeleteSession(_)) => true
          case _ => false)
    case Join(id) =>
      c.work.Idle? && c.mode.PreOpen? && Asked(c).Some? && Asked(c).value.Open? && Asked(c).value.wanted == Some(id)
    case MakeLookup(_) => c.work.Idle? && c.mode.PreOpen? && Asked(c) == Some(Open(None, true))
    case LookupFails => c.work.Idle? && c.mode.PreOpen? && Asked(c) == Some(Open(None, true))
    case Spawn(id) =>
      c.mode.PreOpen?
      && if c.work.LookupMade? then Asked(c).Some? && id == c.work.id
         else c.work.Idle? && Asked(c) == Some(Open(None, false))
    case SpawnFails =>
      c.mode.PreOpen? && ((c.work.LookupMade? && Asked(c).Some?) || (c.work.Idle? && Asked(c) == Some(Open(None, false))))
    case Insert => c.work.ShellMade? && Asked(c).Some?
    case Unmap => c.work.Idle? && c.mode.PreOpen? && Asked(c).Some? && Asked(c).value.DeleteSession?
    case Unlink => c.work.Unmapped? && Asked(c).Some?
    case UnlinkFails => c.work.Unmapped? && Asked(c).Some?
  }

  function Say(message: ServerReply, last: bool): Work { Answer(Some(message), last) }

  function ReplyOf(result: ShellResult): ServerReply {
    match result
    case Printed(data, status) => Output(data, status)
    case Failed(message) => Error(message)
  }

  /** A handler that has returned or failed drops what it held. */
  function Released(c: Conn): Conn {
    if c.over || !c.link.host.alive then c.(held := None) else c
  }

  function HostStops(c: Conn): Conn {
    c.(link := c.link.(host := c.link.host.(alive := false)), held := None, work := Idle)
  }

  /** After the link move: the handler returns after its last word or after Disconnect. */
  function AfterHostMove(c: Conn, m: L.Move, moved: L.Link): Conn {
    var ends := (m.Advance? && c.work.Answer? && c.work.last)
                || (m.Next? && c.work.Answer? && c.work.reply.None?);
    var idle := m.Advance? || (m.Next? && c.work.Answer? && c.work.reply.None?);
    Released(c.(link := moved, over := c.over || ends, work := if idle then Idle else c.work))
  }

  function SimpleAnswer(r: ClientRequest): Work {
    match r
    case Ping => Say(Pong, false)
    case Disconnect => Answer(None, true)
    case Open(_, _) => Say(Error("session is already open"), false)
    case _ => Say(Error("cannot delete a session from an open connection"), false)
  }

  function Apply(c: Conn, s: Step): Conn
    requires Enabled(c, s)
  {
    match s
    case ClientMove(m) => c.(link := L.Apply(c.link, m))
    case HostMove(m) => AfterHostMove(c, m, L.Apply(c.link, m))
    case Weather(up, down) => c.(link := L.Apply(c.link, L.Fade(up, down)))
    case Simple => c.(work := SimpleAnswer(Asked(c).value))
    case RunCommand(result) =>
      c.(work := Say(ReplyOf(result), false), ran := c.ran + [Asked(c).value.command], answers := c.answers + [result])
    case Missing => c.(work := Say(Error("unknown session"), true))
    case Join(id) => c.(mode := InSession(id), held := Some(id), work := Say(Opened(id), false))
    case MakeLookup(id) => c.(work := LookupMade(id))
    case LookupFails => HostStops(c)
    case Spawn(id) =>
      if c.work.LookupMade? then c.(held := Some(id), work := ShellMade(id))
      else c.(mode := InSession(id), held := Some(id), work := Say(Opened(id), false))
    case SpawnFails => HostStops(c)
    case Insert => c.(mode := InSession(c.work.id), work := Say(Opened(c.work.id), false))
    case Unmap => c.(held := Some(Asked(c).value.doomed), work := Unmapped(Asked(c).value.doomed))
    case Unlink => c.(work := Say(Deleted(c.work.id), true))
    case UnlinkFails => HostStops(c)
  }

  function Start(program: Program, expected: Option<string>, signature: string, key: nat): Conn {
    Conn(program, expected, signature, L.Start(key), PreOpen, Idle, None, false, [], [])
  }

  // ---------------------------------------------------------------- the invariant

  /** Frame `i` is Hello, a request the program asks there, or a reply in kind. */
  predicate WellSaid(c: Conn, i: nat)
    requires i < |c.link.log|
  {
    var log := c.link.log;
    if i < 3 then true
    else if i == 3 then ReplyAt(log, 3) == Some(Hello(c.signature))
    else if L.ClientTurn(i) then
      ClientChoice(c, i).Ask? && RequestAt(log, i) == Some(ClientChoice(c, i).request)
    else
      RequestAt(log, i - 1).Some? && ReplyAt(log, i).Some?
      && Matches(RequestAt(log, i - 1).value, ReplyAt(log, i).value)
  }

  ghost predicate LogInv(c: Conn) {
    forall i :: 0 <= i < |c.link.log| ==> WellSaid(c, i)
  }

  /** The frame whose request the current work answers. */
  function Subject(c: Conn): nat {
    var h := c.link.host;
    if L.ClientTurn(h.pos) || h.pos == 0 then h.pos else h.pos - 1
  }

  predicate WorkInv(c: Conn) {
    var h := c.link.host;
    var request := RequestAt(c.link.log, Subject(c));
    match c.work
    case Idle => h.pos >= FIRST_REQUEST ==> c.over || (L.ClientTurn(h.pos) && !h.io.Cleared?)
    case Answer(reply, last) =>
      h.pos >= FIRST_REQUEST && request.Some?
      && (if L.ClientTurn(h.pos) then h.io.Holding? || h.io.Cleared? else reply.Some? && (h.io.Ready? || h.io.Placed?))
      && (match reply
          case None => request.value.Disconnect?
          case Some(r) =>
            Matches(request.value, r) && (last ==> LastWord(request.value, r))
            && (h.io.Placed? ==> ReplyAt(c.link.log, h.pos) == reply)
            && (r.Opened? ==> c.mode == InSession(r.session)))
    case Unmapped(id) =>
      h.pos >= FIRST_REQUEST && L.ClientTurn(h.pos) && h.io.Holding? && h.alive && !c.over
      && request == Some(DeleteSession(id)) && c.held == Some(id) && c.mode.PreOpen?
    case LookupMade(_) =>
      h.pos >= FIRST_REQUEST && L.ClientTurn(h.pos) && h.io.Holding? && h.alive && !c.over
      && request == Some(Open(None, true)) && c.mode.PreOpen? && c.held.None?
    case ShellMade(id) =>
      h.pos >= FIRST_REQUEST && L.ClientTurn(h.pos) && h.io.Holding? && h.alive && !c.over
      && request == Some(Open(None, true)) && c.mode.PreOpen? && c.held == Some(id)
  }

  /** An Opened reply means the handler is in that session. */
  predicate ModeInv(c: Conn) {
    match ReplyAt(c.link.log, 5)
    case Some(Opened(id)) => c.mode == InSession(id)
    case _ => true
  }

  predicate HeldInv(c: Conn) {
    (c.over || !c.link.host.alive ==> c.held.None?)
    && (!c.over && c.link.host.alive && c.mode.InSession? ==> c.held == Some(c.mode.id))
    && (c.held.Some? && c.mode.PreOpen? ==>
          c.work == ShellMade(c.held.value) || c.work == Unmapped(c.held.value)
          || c.work == Say(Deleted(c.held.value), true))
  }

  /** How many frames the handler has dealt with. */
  function Handled(c: Conn): nat {
    var h := c.link.host;
    if L.ClientTurn(h.pos) && c.work.Answer? then h.pos + 1 else h.pos
  }

  predicate RanInv(c: Conn) { c.ran == RunsIn(c.link.log, Handled(c)) }

  /** A handler that has returned heard Disconnect or had its last word. */
  predicate OverInv(c: Conn) {
    var n := |c.link.log|;
    c.over ==>
      c.work.Idle? && c.link.host.pos == n && n > FIRST_REQUEST
      && if L.ClientTurn(n) then
           c.link.host.io.Ready? && RequestAt(c.link.log, n - 2).Some? && ReplyAt(c.link.log, n - 1).Some?
           && LastWord(RequestAt(c.link.log, n - 2).value, ReplyAt(c.link.log, n - 1).value)
         else c.link.host.io.Ready? && RequestAt(c.link.log, n - 1) == Some(Disconnect)
  }

  ghost predicate Inv(c: Conn) {
    L.Inv(c.link) && LogInv(c) && WorkInv(c) && ModeInv(c) && HeldInv(c) && RanInv(c) && OverInv(c)
  }

  // ---------------------------------------------------------------- the log only grows

  lemma FirstTurns()
    ensures L.ClientTurn(0) && !L.ClientTurn(1) && L.ClientTurn(2) && !L.ClientTurn(3) && L.ClientTurn(4)
    ensures !L.ClientTurn(5)
  {
    assert L.ClientTurn(2);
    assert L.ClientTurn(4);
  }

  lemma {:induction false} AppendKeepsReading(log: seq<Frame>, f: Frame, i: nat)
    requires i <= |log|
    ensures Replies(log + [f], i) == Replies(log, i) && RunsIn(log + [f], i) == RunsIn(log, i)
  {
    if i > FIRST_REQUEST {
      AppendKeepsReading(log, f, i - 1);
    }
  }

  /** The replies before a position do not change while the log grows. */
  lemma {:induction false} HeardStays(log: seq<Frame>, longer: seq<Frame>, i: nat)
    requires log <= longer && i <= |log|
    ensures Replies(longer, i) == Replies(log, i)
  {
    if i > FIRST_REQUEST + 1 {
      HeardStays(log, longer, i - 1);
      assert longer[i - 1] == log[i - 1];
    }
  }

  /** The log of a connection after a step: unchanged, or one frame longer. */
  lemma LogGrows(c: Conn, s: Step)
    requires L.Inv(c.link) && Enabled(c, s)
    ensures var log, after := c.link.log, Apply(c, s).link.log;
            var m := if s.ClientMove? || s.HostMove? then s.move else L.Stop(L.Client);
            if m.Place?
            then after == log + [L.WireFrame(c.link, L.EndOf(c.link, m.role), m.plain)]
                 && L.EndOf(c.link, m.role).pos == |log| && L.Sends(m.role, |log|)
            else after == log
  {
    assert L.TurnInv(c.link, L.Client) && L.TurnInv(c.link, L.Host);
  }

  lemma WellSaidStays(c: Conn, after: Conn, i: nat)
    requires i < |c.link.log| && WellSaid(c, i)
    requires after.program == c.program && after.expected == c.expected && after.signature == c.signature
    requires after.link.log == c.link.log || exists f :: after.link.log == c.link.log + [f]
    ensures i < |after.link.log| && WellSaid(after, i)
  {
    if after.link.log != c.link.log {
      var f :| after.link.log == c.link.log + [f];
      AppendKeepsReading(c.link.log, f, i);
    }
  }

  lemma LogKept(c: Conn, s: Step)
    requires Inv(c) && Enabled(c, s)
    ensures LogInv(Apply(c, s))
  {
    var after, log := Apply(c, s), c.link.log;
    LogGrows(c, s);
    if after.link.log != log {
      NewFrameWellSaid(c, s);
    }
    forall i | 0 <= i < |after.link.log|
      ensures WellSaid(after, i)
    {
      if i < |log| {
        assert WellSaid(c, i);
        WellSaidStays(c, after, i);
      }
    }
  }

  lemma NewFrameWellSaid(c: Conn, s: Step)
    requires Inv(c) && Enabled(c, s) && (s.ClientMove? || s.HostMove?) && s.move.Place?
    ensures |Apply(c, s).link.log| == |c.link.log| + 1
    ensures WellSaid(Apply(c, s), |c.link.log|)
  {
    LogGrows(c, s);
    AppendKeepsReading(c.link.log, Apply(c, s).link.log[|c.link.log|], |c.link.log|);
    if s.ClientMove? {
      ClientFrameWellSaid(c, s.move);
    } else {
      HostFrameWellSaid(c, s.move);
    }
  }

  lemma ClientFrameWellSaid(c: Conn, m: L.Move)
    requires Inv(c) && Enabled(c, ClientMove(m)) && m.Place?
    requires var log, after := c.link.log, Apply(c, ClientMove(m)).link.log;
             after == log + [L.WireFrame(c.link, c.link.client, m.plain)] && c.link.client.pos == |log| && L.ClientTurn(|log|)
             && Replies(after, |log|) == Replies(log, |log|)
    ensures WellSaid(Apply(c, ClientMove(m)), |c.link.log|)
  {
    FirstTurns();
  }

  lemma HostFrameWellSaid(c: Conn, m: L.Move)
    requires Inv(c) && Enabled(c, HostMove(m)) && m.Place?
    requires var log, after := c.link.log, Apply(c, HostMove(m)).link.log;
             after == log + [L.WireFrame(c.link, c.link.host, m.plain)] && c.link.host.pos == |log| && !L.ClientTurn(|log|)
    ensures WellSaid(Apply(c, HostMove(m)), |c.link.log|)
  {
    var after, i := Apply(c, HostMove(m)), |c.link.log|;
    FirstTurns();
    if i > 3 {
      assert Subject(c) == i - 1;
      assert RequestAt(after.link.log, i - 1) == RequestAt(c.link.log, i - 1);
    }
  }

  // ---------------------------------------------------------------- control is kept

  /** The replies up to a reply are those before its request, and it. */
  lemma RepliesStep(c: Conn, i: nat)
    requires LogInv(c) && FIRST_REQUEST < i < |c.link.log| && !L.ClientTurn(i)
    ensures L.ClientTurn(i - 1) && ReplyAt(c.link.log, i).Some?
    ensures Replies(c.link.log, i + 1) == Replies(c.link.log, i - 1) + [ReplyAt(c.link.log, i).value]
    ensures ClientChoice(c, i - 1).Ask?
    ensures Matches(ClientChoice(c, i - 1).request, ReplyAt(c.link.log, i).value)
    ensures RequestAt(c.link.log, i - 1) == Some(ClientChoice(c, i - 1).request)
  {
    assert WellSaid(c, i) && WellSaid(c, i - 1);
    FirstTurns();
    if i > FIRST_REQUEST + 1 {
      assert PlainAt(c.link.log, i - 1) == Some(Request(ClientChoice(c, i - 1).request));
      assert ReplyAt(c.link.log, i - 1).None?;
    }
  }

  /** Once the handler has returned, its client asks nothing more. */
  lemma NothingAfterOver(c: Conn)
    requires LogInv(c) && OverInv(c) && c.over && L.ClientTurn(|c.link.log|)
    ensures !ClientChoice(c, |c.link.log|).Ask?
  {
    var n := |c.link.log|;
    FirstTurns();
    RepliesStep(c, n - 1);
    if ClientChoice(c, n).Ask? {
      LastWordIsFinal(c.program, Replies(c.link.log, n - 2), ReplyAt(c.link.log, n - 1).value);
    }
  }

  lemma ClientMoveKeeps(c: Conn, m: L.Move)
    requires Inv(c) && Enabled(c, ClientMove(m))
    ensures var after := Apply(c, ClientMove(m)); WorkInv(after) && ModeInv(after) && HeldInv(after)
  {
    LogGrows(c, ClientMove(m));
    assert L.TurnInv(c.link, L.Host);
    FirstTurns();
    var after := Apply(c, ClientMove(m));
    assert after.link.host == c.link.host;
    assert Subject(after) == Subject(c);
  }

  lemma ClientMoveKeepsCounts(c: Conn, m: L.Move)
    requires Inv(c) && Enabled(c, ClientMove(m))
    ensures var after := Apply(c, ClientMove(m)); RanInv(after) && OverInv(after)
  {
    LogGrows(c, ClientMove(m));
    assert L.TurnInv(c.link, L.Host) && Handled(c) <= |c.link.log|;
    if m.Place? {
      PlacingMeansNotOver(c, m);
      LongerLogKeepsCounts(c, Apply(c, ClientMove(m)), L.WireFrame(c.link, c.link.client, m.plain));
    } else {
      SameLogKeepsCounts(c, Apply(c, ClientMove(m)));
    }
  }

  lemma LongerLogKeepsCounts(c: Conn, after: Conn, f: Frame)
    requires RanInv(c) && !c.over && Handled(c) <= |c.link.log| && after.link.log == c.link.log + [f]
    requires after.link.host == c.link.host && after.work == c.work && after.ran == c.ran && after.over == c.over
    ensures RanInv(after) && OverInv(after)
  {
    AppendKeepsReading(c.link.log, f, Handled(c));
  }

  lemma SameLogKeepsCounts(c: Conn, after: Conn)
    requires RanInv(c) && OverInv(c) && after.link.log == c.link.log
    requires after.link.host == c.link.host && after.work == c.work && after.ran == c.ran && after.over == c.over
    ensures RanInv(after) && OverInv(after)
  {
  }

  lemma PlacingMeansNotOver(c: Conn, m: L.Move)
    requires LogInv(c) && OverInv(c) && ClientMayMove(c, m) && m.Place?
    requires c.link.client.pos == |c.link.log| && L.ClientTurn(|c.link.log|)
    ensures !c.over
  {
    if c.over {
      NothingAfterOver(c);
    }
  }

  lemma OwnStepKeeps(c: Conn, s: Step)
    requires Inv(c) && Enabled(c, s) && !s.ClientMove? && !s.HostMove?
    ensures var after := Apply(c, s); WorkInv(after) && ModeInv(after) && HeldInv(after)
  {
    OwnStepKeepsWork(c, s);
    OwnStepKeepsMode(c, s);
  }

  lemma OwnStepKeepsWork(c: Conn, s: Step)
    requires L.TurnInv(c.link, L.Host) && WorkInv(c) && HeldInv(c) && Enabled(c, s) && !s.ClientMove? && !s.HostMove?
    ensures WorkInv(Apply(c, s))
  {
    FirstTurns();
  }

  /** A session opens with the first request or not at all: no reply has been sent before. */
  lemma OwnStepKeepsMode(c: Conn, s: Step)
    requires L.TurnInv(c.link, L.Host) && WorkInv(c) && ModeInv(c) && HeldInv(c) && Enabled(c, s)
    requires !s.ClientMove? && !s.HostMove?
    ensures ModeInv(Apply(c, s)) && HeldInv(Apply(c, s))
  {
    FirstTurns();
  }

  lemma OwnStepKeepsCounts(c: Conn, s: Step)
    requires Inv(c) && Enabled(c, s) && !s.ClientMove? && !s.HostMove?
    ensures var after := Apply(c, s); RanInv(after) && OverInv(after)
  {
    if Asked(c).Some? {
      AskedCounts(c, c.link.host.pos);
      ServingKeepsCounts(c, s);
    }
  }

  lemma ServingKeepsCounts(c: Conn, s: Step)
    requires Enabled(c, s) && !s.ClientMove? && !s.HostMove? && Asked(c).Some? && RanInv(c)
    requires var i, r := c.link.host.pos, Asked(c).value;
             RunsIn(c.link.log, i + 1) == RunsIn(c.link.log, i) + if r.Run? then [r.command] else []
    requires s.Unlink? || s.UnlinkFails? || s.Insert? || c.work.LookupMade? ==> !Asked(c).value.Run?
    ensures RanInv(Apply(c, s))
  {
  }

  /** Dealing with a request counts it: only a Run adds a command. */
  lemma AskedCounts(c: Conn, i: nat)
    requires i >= FIRST_REQUEST && RequestAt(c.link.log, i).Some?
    ensures var r := RequestAt(c.link.log, i).value;
            RunsIn(c.link.log, i + 1) == RunsIn(c.link.log, i) + if r.Run? then [r.command] else []
  {
  }

  lemma HostPlaceKeeps(c: Conn, m: L.Move)
    requires Inv(c) && Enabled(c, HostMove(m)) && m.Place?
    ensures var after := Apply(c, HostMove(m)); WorkInv(after) && ModeInv(after) && HeldInv(after)
  {
    LogGrows(c, HostMove(m));
    FirstTurns();
    var after, h := Apply(c, HostMove(m)), c.link.host;
    assert after.link.host == h.(io := L.Placed) && after.held == c.held && after.work == c.work;
    HostPlaceKeepsWork(c, m, after);
  }

  lemma HostPlaceKeepsWork(c: Conn, m: L.Move, after: Conn)
    requires WorkInv(c) && HostMayMove(c, m) && m.Place? && !L.ClientTurn(c.link.host.pos)
    requires c.link.host.pos == |c.link.log| && c.link.host.io.Ready?
    requires after.link.log == c.link.log + [L.WireFrame(c.link, c.link.host, m.plain)]
    requires after.link.host == c.link.host.(io := L.Placed) && after.work == c.work && after.mode == c.mode
    ensures WorkInv(after)
  {
    FirstTurns();
    var h := c.link.host;
    if h.pos > 3 {
      assert RequestAt(after.link.log, h.pos - 1) == RequestAt(c.link.log, h.pos - 1);
    }
  }

  lemma HostPlaceKeepsCounts(c: Conn, m: L.Move)
    requires Inv(c) && Enabled(c, HostMove(m)) && m.Place?
    ensures var after := Apply(c, HostMove(m)); RanInv(after) && OverInv(after)
  {
    LogGrows(c, HostMove(m));
    var after := Apply(c, HostMove(m));
    assert after.link.host == c.link.host.(io := L.Placed) && after.work == c.work;
    AppendKeepsReading(c.link.log, after.link.log[|c.link.log|], Handled(c));
  }

  lemma HostAdvanceKeeps(c: Conn, m: L.Move)
    requires Inv(c) && Enabled(c, HostMove(m)) && m.Advance?
    ensures var after := Apply(c, HostMove(m));
            WorkInv(after) && ModeInv(after) && HeldInv(after) && RanInv(after)
  {
    LogGrows(c, HostMove(m));
    FirstTurns();
    var h := c.link.host;
    assert L.TurnInv(c.link, L.Host);
    assert L.ClientTurn(h.pos + 1) && !L.ClientTurn(h.pos);
    AdvanceKeepsRan(c);
  }

  /** A reply adds no command. */
  lemma AdvanceKeepsRan(c: Conn)
    requires LogInv(c) && c.link.host.pos < |c.link.log| && !L.ClientTurn(c.link.host.pos)
    ensures RunsIn(c.link.log, c.link.host.pos + 1) == RunsIn(c.link.log, c.link.host.pos)
  {
    FirstTurns();
    assert WellSaid(c, c.link.host.pos);
  }

  lemma HostAdvanceKeepsOver(c: Conn, m: L.Move)
    requires Inv(c) && Enabled(c, HostMove(m)) && m.Advance?
    ensures OverInv(Apply(c, HostMove(m)))
  {
    LogGrows(c, HostMove(m));
    FirstTurns();
    var after, h, n := Apply(c, HostMove(m)), c.link.host, |c.link.log|;
    assert L.TurnInv(c.link, L.Host);
    if after.over {
      assert Subject(c) + 1 == h.pos;
      NothingAfterLastWord(c, Subject(c));
    }
  }

  /** The client asks nothing once the host has had its last word. */
  lemma NothingAfterLastWord(c: Conn, i: nat)
    requires LogInv(c) && FIRST_REQUEST <= i && i + 1 < |c.link.log| && L.ClientTurn(i)
    requires RequestAt(c.link.log, i).Some? && ReplyAt(c.link.log, i + 1).Some?
    requires LastWord(RequestAt(c.link.log, i).value, ReplyAt(c.link.log, i + 1).value)
    ensures |c.link.log| == i + 2
  {
    var before, reply := Replies(c.link.log, i), ReplyAt(c.link.log, i + 1).value;
    assert !L.ClientTurn(i + 1) && L.ClientTurn(i + 2);
    RepliesStep(c, i + 1);
    LastWordIsFinal(c.program, before, reply);
    assert i + 2 < |c.link.log| ==> WellSaid(c, i + 2);
  }

  lemma HostNextKeeps(c: Conn, m: L.Move)
    requires Inv(c) && Enabled(c, HostMove(m)) && m.Next?
    ensures var after := Apply(c, HostMove(m)); WorkInv(after) && ModeInv(after) && HeldInv(after)
  {
    FirstTurns();
    var h := c.link.host;
    assert L.TurnInv(c.link, L.Host);
    assert !L.ClientTurn(h.pos + 1) && L.ClientTurn(h.pos);
  }

  lemma HostNextKeepsCounts(c: Conn, m: L.Move)
    requires Inv(c) && Enabled(c, HostMove(m)) && m.Next?
    ensures var after := Apply(c, HostMove(m)); RanInv(after) && OverInv(after)
  {
    FirstTurns();
    var h := c.link.host;
    assert L.TurnInv(c.link, L.Host) && WorkInv(c);
    assert !L.ClientTurn(h.pos + 1) && L.ClientTurn(h.pos);
    assert h.pos < FIRST_REQUEST ==> RunsIn(c.link.log, h.pos + 1) == [];
  }

  lemma HostReadingKeeps(c: Conn, m: L.Move)
    requires Inv(c) && Enabled(c, HostMove(m)) && !m.Next? && !m.Advance? && !m.Place?
    ensures var after := Apply(c, HostMove(m)); WorkInv(after) && ModeInv(after) && HeldInv(after)
  {
    FirstTurns();
    assert L.TurnInv(c.link, L.Host);
  }

  lemma HostReadingKeepsCounts(c: Conn, m: L.Move)
    requires Inv(c) && Enabled(c, HostMove(m)) && !m.Next? && !m.Advance? && !m.Place?
    ensures var after := Apply(c, HostMove(m)); RanInv(after) && OverInv(after)
  {
  }

  lemma LinkKept(c: Conn, s: Step)
    requires Inv(c) && Enabled(c, s)
    ensures L.Inv(Apply(c, s).link)
  {
    match s
    case ClientMove(m) => L.MoveKeepsInv(c.link, m);
    case HostMove(m) => L.MoveKeepsInv(c.link, m);
    case Weather(up, down) => L.MoveKeepsInv(c.link, L.Fade(up, down));
    case LookupFails => L.MoveKeepsInv(c.link, L.Stop(L.Host));
    case SpawnFails => L.MoveKeepsInv(c.link, L.Stop(L.Host));
    case UnlinkFails => L.MoveKeepsInv(c.link, L.Stop(L.Host));
    case _ =>
  }

  lemma HostMoveKeepsControl(c: Conn, m: L.Move)
    requires Inv(c) && Enabled(c, HostMove(m))
    ensures var after := Apply(c, HostMove(m));
            WorkInv(after) && ModeInv(after) && HeldInv(after) && RanInv(after) && OverInv(after)
  {
    if m.Place? {
      HostPlaceKeeps(c, m);
      HostPlaceKeepsCounts(c, m);
    } else if m.Advance? {
      HostAdvanceKeeps(c, m);
      HostAdvanceKeepsOver(c, m);
    } else if m.Next? {
      HostNextKeeps(c, m);
      HostNextKeepsCounts(c, m);
    } else {
      HostReadingKeeps(c, m);
      HostReadingKeepsCounts(c, m);
    }
  }

  lemma StepKeepsInv(c: Conn, s: Step)
    requires Inv(c) && Enabled(c, s)
    ensures Inv(Apply(c, s))
  {
    LinkKept(c, s);
    LogKept(c, s);
    if s.ClientMove? {
      ClientMoveKeeps(c, s.move);
      ClientMoveKeepsCounts(c, s.move);
    } else if s.HostMove? {
      HostMoveKeepsControl(c, s.move);
    } else {
      OwnStepKeeps(c, s);
      OwnStepKeepsCounts(c, s);
    }
  }

  lemma StartKeepsInv(program: Program, expected: Option<string>, signature: string, key: nat)
    ensures Inv(Start(program, expected, signature, key))
  {
    FirstTurns();
  }

  // ---------------------------------------------------------------- runs of one connection

  ghost predicate IsRun(conns: seq<Conn>, steps: seq<Step>) {
    |conns| == |steps| + 1
    && (exists key :: conns[0] == Start(conns[0].program, conns[0].expected, conns[0].signature, key))
    && forall i {:trigger steps[i]} :: 0 <= i < |steps| ==> Enabled(conns[i], steps[i]) && conns[i + 1] == Apply(conns[i], steps[i])
  }

  lemma {:induction false} RunKeepsInv(conns: seq<Conn>, steps: seq<Step>, n: nat)
    requires IsRun(conns, steps) && n < |conns|
    ensures Inv(conns[n])
  {
    if n == 0 {
      var c := conns[0];
      var key :| c == Start(c.program, c.expected, c.signature, key);
      StartKeepsInv(c.program, c.expected, c.signature, key);
    } else {
      RunKeepsInv(conns, steps, n - 1);
      StepKeepsInv(conns[n - 1], steps[n - 1]);
    }
  }

  ghost predicate Reachable(c: Conn) {
    exists conns, steps :: IsRun(conns, steps) && conns[|steps|] == c
  }

  lemma StartReachable(program: Program, expected: Option<string>, signature: string, key: nat)
    ensures Reachable(Start(program, expected, signature, key))
  {
    var c := Start(program, expected, signature, key);
    var conns, steps: seq<Step> := [c], [];
    assert conns[0] == c;
    assert IsRun(conns, steps) && conns[|steps|] == c;
  }

  lemma ReachableNext(c: Conn, s: Step)
    requires Reachable(c) && Enabled(c, s)
    ensures Reachable(Apply(c, s))
  {
    var conns, steps :| IsRun(conns, steps) && conns[|steps|] == c;
    var longer, more := conns + [Apply(c, s)], steps + [s];
    var first := conns[0];
    var key :| first == Start(first.program, first.expected, first.signature, key);
    assert longer[0] == first;
    assert IsRun(longer, more);
    assert longer[|more|] == Apply(c, s);
  }

  lemma ReachableInv(c: Conn)
    requires Reachable(c)
    ensures Inv(c)
  {
    var conns, steps :| IsRun(conns, steps) && conns[|steps|] == c;
    RunKeepsInv(conns, steps, |steps|);
  }

  // ---------------------------------------------------------------- conformance

  /** The replies before the client's turn answer the program's own requests in kind. */
  lemma {:induction false} ClientConforms(c: Conn, i: nat)
    requires LogInv(c) && FIRST_REQUEST <= i <= |c.link.log| && L.ClientTurn(i)
    requires c.expected.Some? ==> c.expected.value == c.signature
    ensures Conforming(c.program, Replies(c.link.log, i))
  {
    FirstTurns();
    if i > FIRST_REQUEST {
      RepliesStep(c, i - 1);
      ClientConforms(c, i - 2);
      var before, all := Replies(c.link.log, i - 2), Replies(c.link.log, i);
      forall k | 0 <= k < |all|
        ensures Choose(c.program, all[..k]).Ask? && Matches(Choose(c.program, all[..k]).request, all[k])
      {
        if k < |before| {
          assert all[..k] == before[..k];
        } else {
          assert all[..k] == before;
        }
      }
    }
  }

  /** Frame `i` is the request that the client's program chooses after the replies before it. */
  predicate AsksAt(c: Conn, i: nat)
    requires i < |c.link.log|
  {
    ClientChoice(c, i).Ask? && RequestAt(c.link.log, i) == Some(ClientChoice(c, i).request)
  }

  /** The frame after it, if there is one, is a reply in kind. */
  predicate AnsweredAt(c: Conn, i: nat)
    requires i < |c.link.log|
  {
    i + 1 < |c.link.log| ==>
      RequestAt(c.link.log, i).Some? && ReplyAt(c.link.log, i + 1).Some?
      && Matches(RequestAt(c.link.log, i).value, ReplyAt(c.link.log, i + 1).value)
  }

  /** In every run, with any failures and expiries: every request has at most one reply and it
      is of the matching kind; the client never reaches an "unexpected response" branch; the
      host never holds a Run before a session is open. */
  lemma ConversationConforms(conns: seq<Conn>, steps: seq<Step>, n: nat)
    requires IsRun(conns, steps) && n < |conns|
    ensures var c := conns[n]; var log := c.link.log;
            (forall i :: FIRST_REQUEST <= i < |log| && L.ClientTurn(i) ==> AsksAt(c, i) && AnsweredAt(c, i))
            && (c.link.client.pos >= FIRST_REQUEST && L.ClientTurn(c.link.client.pos) && c.link.client.io.Ready? ==>
                  !ClientChoice(c, c.link.client.pos).Surprised?)
            && (Asked(c).Some? && Asked(c).value.Run? ==> c.mode.InSession?)
  {
    RunKeepsInv(conns, steps, n);
    var c := conns[n];
    var log := c.link.log;
    forall i | FIRST_REQUEST <= i < |log| && L.ClientTurn(i)
      ensures AsksAt(c, i) && AnsweredAt(c, i)
    {
      assert WellSaid(c, i);
      assert !L.ClientTurn(i + 1);
      assert i + 1 < |log| ==> WellSaid(c, i + 1);
    }
    if c.link.client.pos >= FIRST_REQUEST && L.ClientTurn(c.link.client.pos) && c.link.client.io.Ready? {
      ClientNeverSurprised(c);
    }
    if Asked(c).Some? && Asked(c).value.Run? {
      RunOnlyInSession(c);
    }
  }

  lemma ClientNeverSurprised(c: Conn)
    requires Inv(c)
    requires c.link.client.pos >= FIRST_REQUEST && L.ClientTurn(c.link.client.pos) && c.link.client.io.Ready?
    ensures !ClientChoice(c, c.link.client.pos).Surprised?
  {
    assert L.TurnInv(c.link, L.Client);
    if !(c.expected.Some? && c.expected.value != c.signature) {
      ClientConforms(c, c.link.client.pos);
      NeverSurprised(c.program, Replies(c.link.log, c.link.client.pos));
    }
  }

  /** The first reply is the one at frame 5. */
  lemma {:induction false} FirstReply(c: Conn, i: nat)
    requires LogInv(c) && FIRST_REQUEST + 2 <= i <= |c.link.log| && L.ClientTurn(i)
    ensures |Replies(c.link.log, i)| > 0 && Some(Replies(c.link.log, i)[0]) == ReplyAt(c.link.log, 5)
  {
    FirstTurns();
    RepliesStep(c, i - 1);
    if i > FIRST_REQUEST + 2 {
      assert !L.ClientTurn(FIRST_REQUEST + 3) by { assert L.ClientTurn(6); }
      FirstReply(c, i - 2);
    } else {
      assert Replies(c.link.log, FIRST_REQUEST) == [];
    }
  }

  lemma RunMeansSession(c: Conn, i: nat)
    requires Inv(c) && FIRST_REQUEST <= i < |c.link.log| && L.ClientTurn(i)
    requires RequestAt(c.link.log, i).Some? && RequestAt(c.link.log, i).value.Run?
    ensures c.mode.InSession?
  {
    FirstTurns();
    assert WellSaid(c, i);
    ClientConforms(c, i);
    RunAfterOpened(c.program, Replies(c.link.log, i));
    FirstReply(c, i);
  }

  lemma RunOnlyInSession(c: Conn)
    requires Inv(c) && Asked(c).Some? && Asked(c).value.Run?
    ensures c.mode.InSession?
  {
    assert L.TurnInv(c.link, L.Host);
    RunMeansSession(c, c.link.host.pos);
  }

  // ---------------------------------------------------------------- execution agreement

  lemma {:induction false} RunsGrow(log: seq<Frame>, i: nat, j: nat)
    requires i <= j
    ensures RunsIn(log, i) <= RunsIn(log, j)
    decreases j - i
  {
    if i < j {
      RunsGrow(log, i, j - 1);
    }
  }

  /** What the client has sent is what the host has dealt with, when it is the client's turn. */
  lemma ClientTurnMeansAllHandled(c: Conn)
    requires Inv(c) && c.link.client.io.Ready? && L.ClientTurn(c.link.client.pos)
    requires c.link.client.pos >= FIRST_REQUEST
    ensures c.link.client.pos == |c.link.log| && c.ran == RunsIn(c.link.log, |c.link.log|)
  {
    var n, h := |c.link.log|, c.link.host;
    FirstTurns();
    assert L.TurnInv(c.link, L.Client) && L.TurnInv(c.link, L.Host);
    assert !L.ClientTurn(n - 1) && L.ClientTurn(n - 2);
    assert h.pos == n || h.pos == n - 1;
    if h.pos == n - 1 {
      AdvanceKeepsRan(c);
    }
  }

  lemma RanIsPrefix(c: Conn)
    requires Inv(c)
    ensures c.ran <= RunsIn(c.link.log, |c.link.log|)
  {
    assert L.TurnInv(c.link, L.Host);
    RunsGrow(c.link.log, Handled(c), |c.link.log|);
  }

  /** Execution agreement, in every run: the commands the host has run for a connection are a
      prefix, in order and without repetition, of the Runs its client sent, whether or not the
      frame of the last one expires before it is acknowledged; and whenever the client has
      accepted a reply and it is its turn again, exactly the Runs it sent have run. */
  lemma ExecutionAgreement(conns: seq<Conn>, steps: seq<Step>, n: nat)
    requires IsRun(conns, steps) && n < |conns|
    ensures var c := conns[n]; var log := c.link.log;
            c.ran <= RunsIn(log, |log|)
            && (c.link.client.io.Ready? && L.ClientTurn(c.link.client.pos) && c.link.client.pos >= FIRST_REQUEST ==>
                  c.ran == RunsIn(log, |log|))
  {
    RunKeepsInv(conns, steps, n);
    var c := conns[n];
    RanIsPrefix(c);
    if c.link.client.io.Ready? && L.ClientTurn(c.link.client.pos) && c.link.client.pos >= FIRST_REQUEST {
      ClientTurnMeansAllHandled(c);
    }
  }
}
