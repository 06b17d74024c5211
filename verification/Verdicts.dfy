/** What the host's shared map decides (src/server.rs:80-119): a request for a named session is
    granted exactly if the map holds the session at a moment when the handler has the request in
    hand, and refused exactly if it does not. */
module Verdicts {
  import opened Wrappers
  import opened Protocol
  import opened Requests
  import opened Sessions
  import C = Conversation
  import L = Lockstep

  /** A request that only the map can answer. */
  predicate NamesSession(r: ClientRequest) { (r.Open? && r.wanted.Some?) || r.DeleteSession? }

  function SessionOf(r: ClientRequest): string
    requires NamesSession(r)
  {
    if r.Open? then r.wanted.value else r.doomed
  }

  predicate Refuses(reply: Option<ServerReply>, refused: bool) { reply.Some? && reply.value.Error? == refused }

  /** The first request has been granted or refused, by a reply sent or decided on. */
  predicate Given(c: C.Conn, refused: bool) {
    Refuses(C.ReplyAt(c.link.log, C.FIRST_REQUEST + 1), refused)
    || (C.Subject(c) == C.FIRST_REQUEST
        && ((c.work.Answer? && Refuses(c.work.reply, refused)) || (c.work.Unmapped? && !refused)))
  }

  /** A handler that has just come to be in its session is about to say so. */
  predicate Entering(c: C.Conn) {
    c.link.host.alive && c.mode.InSession? && C.Subject(c) <= C.FIRST_REQUEST ==>
      c.work.Answer? && c.work.reply.Some? && c.work.reply.value.Opened?
  }

  lemma EnteringHostPlace(c: C.Conn, m: L.Move)
    requires C.Inv(c) && Entering(c) && C.Enabled(c, C.HostMove(m)) && m.Place?
    ensures Entering(C.Apply(c, C.HostMove(m)))
  {
    assert C.WorkInv(c);
  }

  lemma EnteringHostMove(c: C.Conn, m: L.Move)
    requires C.Inv(c) && Entering(c) && C.Enabled(c, C.HostMove(m)) && !m.Place?
    ensures Entering(C.Apply(c, C.HostMove(m)))
  {
    assert C.WorkInv(c);
    C.FirstTurns();
    assert L.ClientTurn(c.link.host.pos + 1) == !L.ClientTurn(c.link.host.pos);
  }

  lemma EnteringStep(c: C.Conn, s: C.Step)
    requires C.Inv(c) && Entering(c) && C.Enabled(c, s)
    ensures Entering(C.Apply(c, s))
  {
    if s.HostMove? && s.move.Place? {
      EnteringHostPlace(c, s.move);
    } else if s.HostMove? {
      EnteringHostMove(c, s.move);
    } else {
      assert C.WorkInv(c);
    }
  }

  lemma {:induction false} RunEnters(conns: seq<C.Conn>, steps: seq<C.Step>, n: nat)
    requires C.IsRun(conns, steps) && n < |conns|
    ensures Entering(conns[n])
  {
    if n == 0 {
      var c := conns[0];
      var key :| c == C.Start(c.program, c.expected, c.signature, key);
    } else {
      RunEnters(conns, steps, n - 1);
      C.RunKeepsInv(conns, steps, n - 1);
      EnteringStep(conns[n - 1], steps[n - 1]);
    }
  }

  lemma ReachableEnters(c: C.Conn)
    requires C.Reachable(c)
    ensures Entering(c)
  {
    var conns, steps :| C.IsRun(conns, steps) && conns[|steps|] == c;
    RunEnters(conns, steps, |steps|);
  }

  // ---------------------------------------------------------------- how a verdict comes about

  /** The step that asks the map. */
  predicate Decides(c: C.Conn, s: C.Step, r: ClientRequest, refused: bool)
    requires NamesSession(r)
  {
    C.Asked(c) == Some(r) && if refused then s.Missing? else s == C.Join(SessionOf(r)) || s.Unmap?
  }

  lemma VerdictOfClient(c: C.Conn, s: C.Step, r: ClientRequest, refused: bool)
    requires C.Inv(c) && C.Enabled(c, s) && s.ClientMove? && Given(C.Apply(c, s), refused)
    ensures Given(c, refused)
  {
    C.LogGrows(c, s);
    C.FirstTurns();
    assert C.WorkInv(c);
    if s.move.Place? {
      C.AppendKeepsReading(c.link.log, C.Apply(c, s).link.log[|c.link.log|], C.FIRST_REQUEST + 1);
    }
  }

  lemma VerdictOfHostPlace(c: C.Conn, m: L.Move, refused: bool)
    requires C.Inv(c) && C.Enabled(c, C.HostMove(m)) && m.Place? && Given(C.Apply(c, C.HostMove(m)), refused)
    ensures Given(c, refused)
  {
    C.LogGrows(c, C.HostMove(m));
    C.FirstTurns();
    assert C.WorkInv(c);
    C.AppendKeepsReading(c.link.log, C.Apply(c, C.HostMove(m)).link.log[|c.link.log|], C.FIRST_REQUEST + 1);
  }

  lemma VerdictOfHost(c: C.Conn, m: L.Move, refused: bool)
    requires C.Inv(c) && C.Enabled(c, C.HostMove(m)) && !m.Place? && Given(C.Apply(c, C.HostMove(m)), refused)
    ensures Given(c, refused)
  {
    C.LogGrows(c, C.HostMove(m));
    C.FirstTurns();
    assert C.WorkInv(c);
    assert L.ClientTurn(c.link.host.pos + 1) == !L.ClientTurn(c.link.host.pos);
  }

  lemma VerdictOfService(c: C.Conn, s: C.Step, r: ClientRequest, refused: bool)
    requires C.Inv(c) && OpenedRight(c) && Entering(c) && C.Enabled(c, s) && !s.ClientMove? && !s.HostMove?
    requires C.RequestAt(c.link.log, C.FIRST_REQUEST) == Some(r) && NamesSession(r) && Given(C.Apply(c, s), refused)
    ensures Given(c, refused) || Decides(c, s, r, refused)
  {
    C.LogGrows(c, s);
    assert C.WorkInv(c);
  }

  lemma VerdictOfStep(c: C.Conn, s: C.Step, r: ClientRequest, refused: bool)
    requires C.Reachable(c) && C.Enabled(c, s) && NamesSession(r)
    requires C.RequestAt(C.Apply(c, s).link.log, C.FIRST_REQUEST) == Some(r) && Given(C.Apply(c, s), refused)
    ensures Given(c, refused) || Decides(c, s, r, refused)
    ensures C.RequestAt(c.link.log, C.FIRST_REQUEST) == Some(r)
  {
    C.ReachableInv(c);
    if s.ClientMove? {
      VerdictOfClient(c, s, r, refused);
    } else if s.HostMove? && s.move.Place? {
      VerdictOfHostPlace(c, s.move, refused);
    } else if s.HostMove? {
      VerdictOfHost(c, s.move, refused);
    } else {
      C.LogGrows(c, s);
      ReachableOpensRight(c);
      ReachableEnters(c);
      VerdictOfService(c, s, r, refused);
    }
    VerdictHasRequest(c, s, r, refused);
  }

  /** The request is in the log before there is a verdict on it. */
  lemma VerdictHasRequest(c: C.Conn, s: C.Step, r: ClientRequest, refused: bool)
    requires C.Inv(c) && C.Enabled(c, s) && NamesSession(r) && (Given(c, refused) || Decides(c, s, r, refused))
    requires C.RequestAt(C.Apply(c, s).link.log, C.FIRST_REQUEST) == Some(r)
    ensures C.RequestAt(c.link.log, C.FIRST_REQUEST) == Some(r)
  {
    C.LogGrows(c, s);
    assert C.WorkInv(c) && L.TurnInv(c.link, L.Host);
    if |c.link.log| < |C.Apply(c, s).link.log| {
      C.AppendKeepsReading(c.link.log, C.Apply(c, s).link.log[|c.link.log|], C.FIRST_REQUEST);
    }
  }

  // ---------------------------------------------------------------- in every run of the host

  predicate AskedFirst(c: C.Conn, r: ClientRequest) { C.RequestAt(c.link.log, C.FIRST_REQUEST) == Some(r) }

  /** At this moment the handler has the request in hand and the map answers it. */
  predicate MapSays(w: World, m: nat, r: ClientRequest, refused: bool)
    requires NamesSession(r)
  {
    m in w.conns && C.Asked(w.conns[m]) == Some(r) && (refused <==> SessionOf(r) !in w.mapped)
  }

  lemma DecidedByMap(w: World, s: Step, m: nat, r: ClientRequest, refused: bool)
    requires Enabled(w, s) && !s.Arrive? && !s.Outside? && s.conn == m && NamesSession(r)
    requires Decides(w.conns[m], Inner(s), r, refused)
    ensures MapSays(w, m, r, refused)
  {
  }

  lemma {:induction false} MapWasAsked(worlds: seq<World>, steps: seq<Step>, n: nat, m: nat, r: ClientRequest, refused: bool)
      returns (k: nat)
    requires IsRun(worlds, steps) && n < |worlds| && m in worlds[n].conns && NamesSession(r)
    requires AskedFirst(worlds[n].conns[m], r) && Given(worlds[n].conns[m], refused)
    ensures k < n && MapSays(worlds[k], m, r, refused)
  {
    var w, s := worlds[n - 1], steps[n - 1];
    ConnMoves(w, s, m);
    if !s.Arrive? && !s.Outside? && s.conn == m {
      ConnsReachable(worlds, steps, n - 1, m);
      VerdictOfStep(w.conns[m], Inner(s), r, refused);
      if Decides(w.conns[m], Inner(s), r, refused) {
        DecidedByMap(w, s, m, r, refused);
        return n - 1;
      }
    }
    k := MapWasAsked(worlds, steps, n - 1, m, r, refused);
  }

  /** In every run of the host, whatever its other connections do meanwhile: an Open of a named
      session and a DeleteSession are granted, with that session in the reply, only if the map held
      it at a moment when the handler had the request in hand, and refused only if it did not. */
  lemma AnsweredByMap(worlds: seq<World>, steps: seq<Step>, n: nat, m: nat, r: ClientRequest, reply: ServerReply)
      returns (k: nat)
    requires IsRun(worlds, steps) && n < |worlds| && m in worlds[n].conns && NamesSession(r)
    requires AskedFirst(worlds[n].conns[m], r)
    requires C.ReplyAt(worlds[n].conns[m].link.log, C.FIRST_REQUEST + 1) == Some(reply)
    ensures k < n && m in worlds[k].conns && C.Asked(worlds[k].conns[m]) == Some(r)
    ensures SessionOf(r) in worlds[k].mapped ==> reply == if r.Open? then Opened(SessionOf(r)) else Deleted(SessionOf(r))
    ensures SessionOf(r) !in worlds[k].mapped ==> reply.Error?
  {
    var c := worlds[n].conns[m];
    k := MapWasAsked(worlds, steps, n, m, r, reply.Error?);
    ConnsReachable(worlds, steps, n, m);
    C.ReachableInv(c);
    C.FirstTurns();
    assert C.WellSaid(c, C.FIRST_REQUEST + 1);
    if reply.Opened? {
      ReachableOpensRight(c);
      assert C.ModeInv(c);
    }
  }
}
