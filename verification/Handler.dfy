/** The host's `handle` (src/server.rs:57-177), statement by statement: login, the pre-open loop,
    opening, the open loop. Between its statements other connections, the client and the expiry
    of frames act as they like, and any statement may fail. Each statement is a step of the
    machine in Sessions, so what is proved of all runs there holds of this code. */
module Handler {
  import opened Wrappers
  import opened Protocol
  import opened Channel
  import opened Answers
  import L = Lockstep
  import C = Conversation
  import S = Sessions

  /** What happens before our next statement: others act, and then it may fail. A failing Redis
      command may have been `applied` all the same; `result` is what the shell gives if it lives. */
  datatype Turn = Turn(others: seq<S.Step>, fault: bool, applied: bool, result: C.ShellResult)

  /** How `handle` ends; in a session it may also wait for a frame without a timeout. */
  datatype Fate = Returned | Failed | StillWaiting

  /** What comes of waiting for a frame. */
  datatype Fetched = Got | Lost | Nothing

  ghost predicate Reachable(w: S.World) {
    exists worlds, steps :: S.IsRun(worlds, steps) && worlds[|steps|] == w
  }

  lemma ReachableNext(w: S.World, s: S.Step)
    requires Reachable(w) && S.Enabled(w, s)
    ensures Reachable(S.Apply(w, s))
  {
    var worlds, steps :| S.IsRun(worlds, steps) && worlds[|steps|] == w;
    var longer, more := worlds + [S.Apply(w, s)], steps + [s];
    assert S.IsRun(longer, more);
    assert longer[|more|] == S.Apply(w, s);
  }

  lemma ReachableWorld(w: S.World)
    requires Reachable(w)
    ensures S.Inv(w)
  {
    var worlds, steps :| S.IsRun(worlds, steps) && worlds[|steps|] == w;
    S.RunKeepsInv(worlds, steps, |steps|);
  }

  /** The shell has ended by itself. */
  predicate Exited(w: S.World, id: string) { id in w.shells && w.shells[id].exited }

  /** What no later step undoes: sessions that are gone, deletions, and shells that have ended. */
  ghost predicate Later(w: S.World, after: S.World) {
    (forall id :: S.Gone(w, id) ==> S.Gone(after, id)) && w.deleted <= after.deleted
    && forall id :: Exited(w, id) ==> Exited(after, id)
  }

  lemma StepIsLater(w: S.World, s: S.Step)
    requires Reachable(w) && S.Enabled(w, s)
    ensures Later(w, S.Apply(w, s))
  {
    ReachableWorld(w);
    forall id | S.Gone(w, id) ensures S.Gone(S.Apply(w, s), id) {
      S.GoneStays(w, s, id);
    }
    forall id | Exited(w, id) ensures Exited(S.Apply(w, s), id) {
      S.ExitedStep(w, s, id);
    }
    DeletedGrows(w, s);
  }

  lemma DeletedGrows(w: S.World, s: S.Step)
    requires S.Enabled(w, s)
    ensures w.deleted <= S.Apply(w, s).deleted
  {
    if s.Act? {
      S.SharedFields(w, s.conn, s.step);
    }
  }

  lemma ReachableInv(w: S.World, n: nat)
    requires Reachable(w) && n in w.conns
    ensures C.Inv(w.conns[n])
  {
    var worlds, steps :| S.IsRun(worlds, steps) && worlds[|steps|] == w;
    S.RunKeepsInv(worlds, steps, |steps|);
    assert S.ConnsInv(w);
  }

  /** What nobody but the handler changes. */
  predicate SameHost(c: C.Conn, d: C.Conn) {
    d.mode == c.mode && d.work == c.work && d.held == c.held && d.over == c.over && d.ran == c.ran && d.answers == c.answers
    && d.signature == c.signature && d.link.host == c.link.host && c.link.log <= d.link.log
  }

  /** One command more has been run, and the reply tells its answer. */
  predicate RunsOne(command: string, reply: ServerReply, c: C.Conn, d: C.Conn) {
    d.ran == c.ran + [command] && |d.answers| == |c.answers| + 1 && c.answers <= d.answers
    && Tells(reply, d.answers[|c.answers|])
  }

  /** The reply to a request inside a session. */
  predicate Fitting(request: ClientRequest, reply: ServerReply, c: C.Conn, d: C.Conn) {
    match request
    case Run(command) => RunsOne(command, reply, c, d)
    case Ping => reply.Pong? && RanSame(c, d)
    case Disconnect => false
    case _ => reply.Error? && RanSame(c, d)
  }

  /** Nothing more has been run. */
  predicate RanSame(c: C.Conn, d: C.Conn) { d.ran == c.ran && d.answers == c.answers }

  predicate Draws(s: S.Step, id: string) {
    (s.Act? && (s.step.MakeLookup? || s.step.Spawn?) && s.step.id == id) || (s.LookupStoredThenFails? && s.id == id)
  }

  /** The steps that are not this handler's; nobody else draws the random id it will draw. */
  predicate Foreign(s: S.Step, me: nat, mine: string) {
    !Draws(s, mine) && (s.Outside? || s.conn != me || (s.Act? && (s.step.ClientMove? || s.step.Weather?)))
  }

  lemma ForeignSpares(w: S.World, s: S.Step, me: nat, mine: string)
    requires S.Enabled(w, s) && Foreign(s, me, mine) && me in w.conns
    ensures me in S.Apply(w, s).conns && SameHost(w.conns[me], S.Apply(w, s).conns[me])
  {
    if s.Act? {
      S.SharedFields(w, s.conn, s.step);
    } else if S.Mishap(s) {
      S.MishapFields(w, s);
    }
  }

  lemma NotDrawn(w: S.World, s: S.Step, mine: string)
    requires S.Enabled(w, s) && !Draws(s, mine) && mine !in w.used
    ensures mine !in S.Apply(w, s).used
  {
    if s.Act? {
      S.SharedFields(w, s.conn, s.step);
    } else if S.Mishap(s) {
      S.MishapFields(w, s);
    }
  }

  /** Why a step of the channel can be impossible without a fault: the frame expired, or a counter is
      exhausted; */
  predicate Broken(c: C.Conn) {
    var h, box := c.link.host, L.BoxOf(c.link, c.link.host.pos);
    (h.io.Popped? && box.slot.None?)
    || (h.io.Holding? && box.slot != Some(h.io.frame))
    || h.sends >= U64_MAX || h.recvs >= U64_MAX
  }

  /** or no frame was announced, which ends a handler only while it waits with a timeout. */
  predicate Unannounced(c: C.Conn) {
    c.link.host.io.Ready? && L.ClientTurn(c.link.host.pos) && L.BoxOf(c.link, c.link.host.pos).tokens == 0
  }

  /** A reachable host is never kept from placing its frame: the slot is free when its turn
      comes, so the first SET NX succeeds. */
  lemma SlotIsFree(c: C.Conn)
    requires C.Inv(c) && c.link.host.io.Ready? && !L.ClientTurn(c.link.host.pos)
    ensures L.BoxOf(c.link, c.link.host.pos).slot.None?
  {
    assert L.TurnInv(c.link, L.Host);
  }

  lemma PlacedFrame(c: C.Conn, plain: Plain)
    requires C.Inv(c) && C.Enabled(c, C.HostMove(L.Place(L.Host, plain)))
    ensures var after := C.Apply(c, C.HostMove(L.Place(L.Host, plain)));
            c.link.log <= after.link.log && (c.link.host.pos > 3 ==> C.PlainAt(after.link.log, c.link.host.pos) == Some(plain))
  {
    C.LogGrows(c, C.HostMove(L.Place(L.Host, plain)));
  }

  lemma HeldIsAsked(c: C.Conn)
    requires C.Inv(c) && c.link.host.alive && !c.over && c.link.host.io.Holding? && c.link.host.pos >= C.FIRST_REQUEST
    ensures L.ClientTurn(c.link.host.pos) && C.Asked(c).Some?
  {
    assert L.TurnInv(c.link, L.Host);
    assert C.WellSaid(c, c.link.host.pos);
    C.FirstTurns();
  }

  class Connection {
    var world: S.World
    var now: nat
    const me: nat
    const mine: string  // the id drawn for a new session
    const env: nat -> Turn

    constructor (w: S.World, n: nat, id: string, schedule: nat -> Turn)
      ensures world == w && me == n && mine == id && env == schedule && now == 0
    {
      world, me, mine, env, now := w, n, id, schedule, 0;
    }

    ghost predicate Valid()
      reads this
    {
      Reachable(world) && me in world.conns
    }

    function Me(): C.Conn
      requires me in world.conns
      reads this
    {
      world.conns[me]
    }

    function Pos(): nat
      requires me in world.conns
      reads this
    {
      Me().link.host.pos
    }

    /** Alive, not returned, and about to read (`reading`) or to write the frame at its turn. */
    predicate Stands(reading: bool)
      requires me in world.conns
      reads this
    {
      var c := Me();
      c.link.host.alive && !c.over && c.link.host.io.Ready? && L.ClientTurn(c.link.host.pos) == reading
    }

    /** The handler has ended with an error and holds nothing; a fault since `from`, or the state
        of the channel, is the reason. */
    ghost predicate Severed(from: nat)
      requires me in world.conns
      reads this
    {
      !Me().link.host.alive && Me().held.None? && (Faulted(from, now) || Broken(Me()))
    }

    /** Or it has waited in vain for a frame. */
    ghost predicate Dropped(from: nat)
      requires me in world.conns
      reads this
    {
      !Me().link.host.alive && Me().held.None? && (Faulted(from, now) || Broken(Me()) || Unannounced(Me()))
    }

    ghost predicate Faulted(from: nat, to: nat)
      reads this
    {
      exists t :: from <= t < to && env(t).fault
    }

    ghost predicate Unused()
      reads this
    {
      mine !in world.used
    }

    /** Others act. */
    method Pause() returns (fault: bool)
      requires Valid()
      modifies this`world, this`now
      ensures Valid() && SameHost(old(Me()), Me()) && now == old(now) + 1 && fault == env(old(now)).fault
      ensures (old(Unused()) ==> Unused()) && Later(old(world), world)
    {
      var others := env(now).others;
      fault := env(now).fault;
      now := now + 1;
      for i := 0 to |others|
        invariant Valid() && SameHost(old(Me()), Me()) && now == old(now) + 1
        invariant (old(Unused()) ==> Unused()) && Later(old(world), world)
      {
        if Foreign(others[i], me, mine) && S.Enabled(world, others[i]) {
          ForeignSpares(world, others[i], me, mine);
          if Unused() {
            NotDrawn(world, others[i], mine);
          }
          StepIsLater(world, others[i]);
          ReachableNext(world, others[i]);
          world := S.Apply(world, others[i]);
        }
      }
    }

    /** One statement. */
    method Do(step: C.Step)
      requires Valid() && C.Enabled(Me(), step) && S.Grants(world, Me(), step)
      modifies this`world
      ensures Valid() && world == S.Apply(old(world), S.Act(me, step)) && Me() == C.Apply(old(Me()), step)
      ensures !step.MakeLookup? && !step.Spawn? ==> world.used == old(world).used
      ensures Later(old(world), world) && old(Me()).link.log <= Me().link.log
    {
      StepIsLater(world, S.Act(me, step));
      ReachableNext(world, S.Act(me, step));
      world := S.Apply(world, S.Act(me, step));
    }

    /** An error ends the handler: its transport and its session are dropped. */
    method GiveUp(ghost from: nat)
      requires Valid() && Me().link.host.alive && !Me().over && (Me().work.Idle? || Me().work.Answer?)
      requires Faulted(from, now) || Broken(Me()) || Unannounced(Me())
      modifies this`world
      ensures Valid() && Dropped(from) && (old(Unused()) ==> Unused())
      ensures Faulted(from, now) || old(Broken(Me())) ==> Severed(from)
      ensures Later(old(world), world) && old(Me()).link.log <= Me().link.log
    {
      Do(C.HostMove(L.Stop(L.Host)));
    }

    // -------------------------------------------------------------- the channel

    /** BLPOP, GET and opening: the frame is held, or the handler has ended; without a timeout
        (`forever`) the handler may still be waiting for it. */
    method Take(forever: bool) returns (r: Fetched)
      requires Valid() && Stands(true) && Me().work.Idle?
      modifies this`world, this`now
      ensures Valid() && now > old(now) && (old(Unused()) ==> Unused())
      ensures !r.Lost? ==> Me().work.Idle? && Me().mode == old(Me()).mode && !Me().over && RanSame(old(Me()), Me())
                           && Pos() == old(Pos()) && Me().link.host.recvs == old(Me()).link.host.recvs
      ensures r.Got? ==> Me().link.host.alive && Me().link.host.io.Holding?
      ensures r.Nothing? ==> forever && Stands(true) && L.BoxOf(Me().link, Pos()).tokens == 0
      ensures r.Lost? ==> if forever then Severed(old(now)) else Dropped(old(now))
    {
      var fault := Pause();
      if !fault && forever && L.BoxOf(Me().link, Pos()).tokens == 0 {
        return Nothing;
      }
      if fault || L.BoxOf(Me().link, Pos()).tokens == 0 {
        GiveUp(old(now));
        return Lost;
      }
      Do(C.HostMove(L.Pop(L.Host)));
      var ok := Fetch();
      r := if ok then Got else Lost;
    }

    /** GET, then opening under the receive counter. */
    method Fetch() returns (ok: bool)
      requires Valid() && Me().link.host.alive && !Me().over && Me().link.host.io.Popped? && Me().work.Idle?
      modifies this`world, this`now
      ensures Valid() && now > old(now) && (old(Unused()) ==> Unused())
      ensures ok ==> Me().link.host.alive && Me().link.host.io.Holding? && Pos() == old(Pos())
                     && Me().link.host.recvs == old(Me()).link.host.recvs
      ensures ok ==> Me().work.Idle? && Me().mode == old(Me()).mode && !Me().over && RanSame(old(Me()), Me())
      ensures !ok ==> Severed(old(now))
    {
      var fault := Pause();
      if fault {
        GiveUp(old(now));
        return false;
      }
      ReachableInv(world, me);
      L.FetchAccepts(Me().link, L.Host);
      Do(C.HostMove(L.Fetch(L.Host)));
      ok := Me().link.host.alive;
    }

    /** The compare-and-delete acknowledgement, then the counter. */
    method Finish() returns (ok: bool)
      requires Valid() && Me().link.host.alive && !Me().over && Me().link.host.io.Holding?
      requires L.ClientTurn(Pos()) && (if Pos() >= C.FIRST_REQUEST then Me().work.Answer? else Me().work.Idle?)
      modifies this`world, this`now
      ensures Valid() && now > old(now) && (old(Unused()) ==> Unused())
      ensures Later(old(world), world) && old(Me()).link.log <= Me().link.log
      ensures ok ==> Pos() == old(Pos()) + 1 && Me().mode == old(Me()).mode && RanSame(old(Me()), Me())
                     && Me().link.host.recvs == old(Me()).link.host.recvs + (if old(Pos()) < L.FIRST_SEALED then 0 else 1)
                     && old(Me()).link.host.recvs < U64_MAX
      ensures ok && old(Me()).work == C.Answer(None, true) ==> Me().over && Me().held.None?
      ensures ok && old(Me()).work != C.Answer(None, true) && (old(Me()).work.Answer? ==> old(Me()).work.reply.Some?) ==>
                Stands(false) && Me().work == old(Me()).work
      ensures !ok ==> Severed(old(now))
    {
      var fault := Pause();
      if fault {
        GiveUp(old(now));
        return false;
      }
      Do(C.HostMove(L.Ack(L.Host)));
      ok := Me().link.host.alive;
      if ok {
        ok := CountReceived();
      }
    }

    /** The receive counter moves only once the frame is acknowledged. */
    method CountReceived() returns (ok: bool)
      requires Valid() && Me().link.host.alive && !Me().over && Me().link.host.io.Cleared?
      requires L.ClientTurn(Pos()) && (Me().work.Answer? || Me().work.Idle?)
      modifies this`world, this`now
      ensures Valid() && now > old(now) && (old(Unused()) ==> Unused())
      ensures Later(old(world), world) && old(Me()).link.log <= Me().link.log
      ensures ok ==> Pos() == old(Pos()) + 1 && Me().mode == old(Me()).mode && RanSame(old(Me()), Me())
                     && Me().link.host.recvs == old(Me()).link.host.recvs + (if old(Pos()) < L.FIRST_SEALED then 0 else 1)
                     && old(Me()).link.host.recvs < U64_MAX
      ensures ok && old(Me()).work == C.Answer(None, true) ==> Me().over && Me().held.None?
      ensures ok && old(Me()).work != C.Answer(None, true) && (old(Me()).work.Answer? ==> old(Me()).work.reply.Some?) ==>
                Stands(false) && Me().work == old(Me()).work
      ensures !ok ==> Severed(old(now))
    {
      var fault := Pause();
      if fault || Me().link.host.recvs >= U64_MAX {
        GiveUp(old(now));
        return false;
      }
      AdvanceRecvs();
      ok := true;
    }

    method AdvanceRecvs()
      requires Valid() && Me().link.host.alive && !Me().over && Me().link.host.io.Cleared? && L.ClientTurn(Pos())
      requires (Me().work.Answer? || Me().work.Idle?) && Me().link.host.recvs < U64_MAX
      modifies this`world
      ensures Valid() && world.used == old(world).used
      ensures Later(old(world), world) && old(Me()).link.log <= Me().link.log
      ensures Pos() == old(Pos()) + 1 && Me().mode == old(Me()).mode && RanSame(old(Me()), Me())
      ensures Me().link.host.recvs == old(Me()).link.host.recvs + (if old(Pos()) < L.FIRST_SEALED then 0 else 1)
      ensures if old(Me()).work.Answer? && old(Me()).work.reply.None? then Me().over && Me().held.None?
              else Stands(false) && Me().work == old(Me()).work
    {
      Do(C.HostMove(L.Next(L.Host)));
    }

    /** Sends the answer, or Hello. The slot is free, so there is no waiting for it. */
    method Put(plain: Plain) returns (ok: bool)
      requires Valid() && Stands(false)
      requires if Pos() > 3 then Me().work.Answer? && Me().work.reply.Some? && plain == Reply(Me().work.reply.value)
               else Me().work.Idle? && (Pos() == 3 ==> plain == Reply(Hello(Me().signature)))
      modifies this`world, this`now
      ensures Valid() && now > old(now) && (old(Unused()) ==> Unused())
      ensures Later(old(world), world) && old(Me()).link.log <= Me().link.log
      ensures ok ==> Pos() == old(Pos()) + 1 && Me().mode == old(Me()).mode && Me().work.Idle?
                     && RanSame(old(Me()), Me()) && Me().link.host.recvs == old(Me()).link.host.recvs
      ensures ok && old(Pos()) > 3 ==> C.PlainAt(Me().link.log, old(Pos())) == Some(plain)
      ensures ok && old(Me()).work.Answer? && old(Me()).work.last ==> Me().over && Me().held.None?
      ensures ok && !(old(Me()).work.Answer? && old(Me()).work.last) ==> Stands(true)
      ensures !ok ==> Severed(old(now))
    {
      var fault := Pause();
      if fault {
        GiveUp(old(now));
        return false;
      }
      PlaceFrame(plain);
      ok := CountSent();
    }

    /** The one SET NX it takes. */
    method PlaceFrame(plain: Plain)
      requires Valid() && Stands(false)
      requires if Pos() > 3 then Me().work.Answer? && Me().work.reply.Some? && plain == Reply(Me().work.reply.value)
               else Me().work.Idle? && (Pos() == 3 ==> plain == Reply(Hello(Me().signature)))
      modifies this`world
      ensures Valid() && world.used == old(world).used && Later(old(world), world)
      ensures Me().link.host == old(Me()).link.host.(io := L.Placed) && Me().work == old(Me()).work
      ensures Me().mode == old(Me()).mode && RanSame(old(Me()), Me()) && !Me().over
      ensures old(Me()).link.log <= Me().link.log && (Pos() > 3 ==> C.PlainAt(Me().link.log, Pos()) == Some(plain))
    {
      var step := C.HostMove(L.Place(L.Host, plain));
      ReachableInv(world, me);
      SlotIsFree(Me());
      PlacedFrame(Me(), plain);
      Do(step);
    }

    /** The send counter moves only once the frame is placed. */
    method CountSent() returns (ok: bool)
      requires Valid() && Me().link.host.alive && !Me().over && Me().link.host.io.Placed? && !L.ClientTurn(Pos())
      requires Me().work.Answer? || Me().work.Idle?
      modifies this`world, this`now
      ensures Valid() && now > old(now) && (old(Unused()) ==> Unused())
      ensures Later(old(world), world) && old(Me()).link.log <= Me().link.log
      ensures ok ==> Pos() == old(Pos()) + 1 && Me().mode == old(Me()).mode && Me().work.Idle?
                     && RanSame(old(Me()), Me()) && Me().link.host.recvs == old(Me()).link.host.recvs
      ensures ok && old(Me()).work.Answer? && old(Me()).work.last ==> Me().over && Me().held.None?
      ensures ok && !(old(Me()).work.Answer? && old(Me()).work.last) ==> Stands(true)
      ensures !ok ==> Severed(old(now))
    {
      var fault := Pause();
      if fault || Me().link.host.sends >= U64_MAX {
        GiveUp(old(now));
        return false;
      }
      AdvanceSends();
      ok := true;
    }

    method AdvanceSends()
      requires Valid() && Me().link.host.alive && !Me().over && Me().link.host.io.Placed? && !L.ClientTurn(Pos())
      requires (Me().work.Answer? || Me().work.Idle?) && Me().link.host.sends < U64_MAX
      modifies this`world
      ensures Valid() && world.used == old(world).used
      ensures Later(old(world), world) && old(Me()).link.log <= Me().link.log
      ensures Pos() == old(Pos()) + 1 && Me().mode == old(Me()).mode && Me().work.Idle?
              && RanSame(old(Me()), Me()) && Me().link.host.recvs == old(Me()).link.host.recvs
      ensures if old(Me()).work.Answer? && old(Me()).work.last then Me().over && Me().held.None? else Stands(true)
    {
      Do(C.HostMove(L.Advance(L.Host)));
    }

    /** `recv_unacknowledged::<ClientRequest>`: `None` when the handler has ended or waits. */
    method RecvRequest(forever: bool) returns (r: Option<ClientRequest>)
      requires Valid() && Stands(true) && Me().work.Idle? && Pos() >= C.FIRST_REQUEST
      modifies this`world, this`now
      ensures Valid() && now > old(now) && (old(Unused()) ==> Unused())
      ensures r.Some? ==> C.Asked(Me()) == r
      ensures r.Some? || Stands(true) ==>
                Me().work.Idle? && Me().mode == old(Me()).mode && RanSame(old(Me()), Me())
                && Pos() == old(Pos()) && Me().link.host.recvs == old(Me()).link.host.recvs
      ensures r.None? ==> if forever then Severed(old(now)) || (Stands(true) && L.BoxOf(Me().link, Pos()).tokens == 0) else Dropped(old(now))
    {
      var fetched := Take(forever);
      if !fetched.Got? {
        return None;
      }
      ReachableInv(world, me);
      HeldIsAsked(Me());
      r := C.Asked(Me());
    }

    /** Acknowledges the request and sends the reply decided on. */
    method Respond() returns (ok: bool)
      requires Valid() && C.Asked(Me()).Some? && Me().work.Answer? && Me().work.reply.Some?
      modifies this`world, this`now
      ensures Valid() && now > old(now) && (old(Unused()) ==> Unused())
      ensures Later(old(world), world) && old(Me()).link.log <= Me().link.log
      ensures ok && old(Me()).work.last ==> Me().over && Me().held.None?
      ensures ok && !old(Me()).work.last ==>
                Stands(true) && Me().work.Idle? && Me().mode == old(Me()).mode && Pos() >= C.FIRST_REQUEST
                && RanSame(old(Me()), Me()) && Me().link.host.recvs > old(Me()).link.host.recvs
                && old(Me()).link.host.recvs < U64_MAX
      ensures ok ==> C.ReplyAt(Me().link.log, old(Pos()) + 1) == old(Me()).work.reply
      ensures !ok ==> Severed(old(now))
    {
      var plain := Plain.Reply(Me().work.reply.value);
      ok := Finish();
      if ok {
        ok := Put(plain);
      }
    }

    // -------------------------------------------------------------- handle

    /** `server_login` and Hello. */
    method Login() returns (ok: bool)
      requires Valid() && Stands(true) && Me().work.Idle? && Me().mode.PreOpen? && Pos() == 0 && Unused()
      modifies this`world, this`now
      ensures Valid() && now >= old(now)
      ensures ok ==> Stands(true) && Me().work.Idle? && Me().mode.PreOpen? && Pos() == C.FIRST_REQUEST && Unused()
      ensures !ok ==> Dropped(old(now))
    {
      C.FirstTurns();
      for step := 0 to 2
        invariant Valid() && Stands(true) && Me().work.Idle? && Me().mode.PreOpen? && Pos() == 2 * step && Unused()
        invariant now >= old(now)
      {
        var fetched := Take(false);
        if fetched.Lost? {
          return false;
        }
        ok := Finish();
        if !ok {
          return;
        }
        ok := Put(Plain.Reply(Hello(Me().signature)));
        if !ok {
          return;
        }
      }
      ok := true;
    }

    /** Deleting a session: out of the map for good, then its lookup, then the reply, which is the
        last. `removed` says whether the map held it. */
    method DeleteSession(id: string) returns (ok: bool, removed: bool)
      requires Valid() && C.Asked(Me()) == Some(ClientRequest.DeleteSession(id)) && Me().work.Idle? && Me().mode.PreOpen?
      modifies this`world, this`now
      ensures Valid() && now > old(now)
      ensures if ok then Me().over && Me().held.None? else Dropped(old(now))
      ensures removed ==> S.Gone(world, id) && (ok ==> id in world.deleted && id !in world.lookups)
      ensures ok ==> C.ReplyAt(Me().link.log, old(Pos()) + 1)
                     == Some(if removed then Deleted(id) else Error("unknown session"))
    {
      var fault := Pause();
      removed := id in world.mapped;
      if removed {
        ok := RemoveAndReply(id);
      } else {
        ok := RefuseUnknown(id);
      }
    }

    method RemoveAndReply(id: string) returns (ok: bool)
      requires Valid() && C.Asked(Me()) == Some(ClientRequest.DeleteSession(id)) && Me().work.Idle? && Me().mode.PreOpen?
      requires id in world.mapped
      modifies this`world, this`now
      ensures Valid() && now > old(now)
      ensures if ok then Me().over && Me().held.None? else Dropped(old(now))
      ensures S.Gone(world, id) && (ok ==> id in world.deleted && id !in world.lookups)
      ensures ok ==> C.ReplyAt(Me().link.log, old(Pos()) + 1) == Some(Deleted(id))
    {
      ok := RemoveSession(id);
      if ok {
        ok := SayDeleted(id);
      }
    }

    method SayDeleted(id: string) returns (ok: bool)
      requires Valid() && C.Asked(Me()).Some? && Me().work == C.Say(Deleted(id), true)
      requires S.Gone(world, id) && id in world.deleted
      modifies this`world, this`now
      ensures Valid() && now > old(now)
      ensures if ok then Me().over && Me().held.None? else Dropped(old(now))
      ensures S.Gone(world, id) && id in world.deleted && id !in world.lookups
      ensures ok ==> C.ReplyAt(Me().link.log, old(Pos()) + 1) == Some(Deleted(id))
    {
      ok := Respond();
      DeletedMeans();
    }

    method RefuseUnknown(id: string) returns (ok: bool)
      requires Valid() && C.Asked(Me()) == Some(ClientRequest.DeleteSession(id)) && Me().work.Idle? && Me().mode.PreOpen?
      requires id !in world.mapped
      modifies this`world, this`now
      ensures Valid() && now > old(now)
      ensures if ok then Me().over && Me().held.None? else Dropped(old(now))
      ensures ok ==> C.ReplyAt(Me().link.log, old(Pos()) + 1) == Some(Error("unknown session"))
    {
      Do(C.Missing);
      ok := Respond();
    }

    lemma DeletedMeans()
      requires Valid()
      ensures forall id :: id in world.deleted ==> id !in world.lookups
    {
      ReachableWorld(world);
    }

    /** Out of the map, and its lookup out of Redis. */
    method RemoveSession(id: string) returns (ok: bool)
      requires Valid() && C.Asked(Me()) == Some(ClientRequest.DeleteSession(id)) && Me().work.Idle? && Me().mode.PreOpen?
      requires id in world.mapped
      modifies this`world, this`now
      ensures Valid() && now > old(now) && S.Gone(world, id)
      ensures ok ==> C.Asked(Me()).Some? && Me().work == C.Say(Deleted(id), true) && Pos() == old(Pos()) && id in world.deleted
      ensures !ok ==> Dropped(old(now))
    {
      UnmapGone(id);
      Do(C.Unmap);
      ok := DropLookup();
    }

    lemma UnmapGone(id: string)
      requires Valid() && S.Enabled(world, S.Act(me, C.Unmap)) && C.Asked(Me()) == Some(ClientRequest.DeleteSession(id))
      ensures S.Gone(S.Apply(world, S.Act(me, C.Unmap)), id)
    {
      ReachableWorld(world);
      S.UnmapMakesGone(world, me);
    }

    /** `delete_session_lookup`; a failure here leaks the lookup, unless it was `applied`. */
    method DropLookup() returns (ok: bool)
      requires Valid() && Me().work.Unmapped? && C.Asked(Me()).Some?
      modifies this`world, this`now
      ensures Valid() && now > old(now) && Later(old(world), world)
      ensures ok ==> C.Asked(Me()).Some? && Me().work == C.Say(Deleted(old(Me()).work.id), true) && Pos() == old(Pos())
      ensures ok ==> old(Me()).work.id in world.deleted
      ensures !ok ==> Dropped(old(now))
    {
      var fault := Pause();
      if !fault {
        Do(C.Unlink);
        return true;
      }
      if env(now - 1).applied {
        StepIsLater(world, S.UnlinkedThenFails(me));
        ReachableNext(world, S.UnlinkedThenFails(me));
        world := S.Apply(world, S.UnlinkedThenFails(me));
      } else {
        Do(C.UnlinkFails);
      }
      ok := false;
    }

    /** Opening: joins a mapped session, or makes a new one. On success the handler is in the
        session and has said so, or has said that there is none and returned. */
    method OpenSession(wanted: Option<string>, persistent: bool) returns (ok: bool)
      requires Valid() && C.Asked(Me()) == Some(Open(wanted, persistent)) && Me().work.Idle? && Me().mode.PreOpen?
      requires Unused()
      modifies this`world, this`now
      ensures Valid() && now > old(now)
      ensures ok ==> (Me().over && Me().held.None? && wanted.Some?)
                     || (Stands(true) && Me().work.Idle? && Me().mode.InSession? && Pos() >= C.FIRST_REQUEST)
      ensures ok && !Me().over ==> Me().mode.id == if wanted.Some? then wanted.value else mine
      ensures !ok ==> Dropped(old(now))
    {
      if wanted.Some? {
        var fault := Pause();
        if wanted.value in world.mapped {
          Do(C.Join(wanted.value));
        } else {
          Do(C.Missing);
        }
      } else {
        ok := CreateSession(persistent);
        if !ok {
          return;
        }
      }
      ok := Respond();
    }

    /** A new session: the lookup first if it is persistent, then the shell, then the map. */
    method CreateSession(persistent: bool) returns (ok: bool)
      requires Valid() && C.Asked(Me()) == Some(Open(None, persistent)) && Me().work.Idle? && Me().mode.PreOpen?
      requires Unused()
      modifies this`world, this`now
      ensures Valid() && now > old(now)
      ensures ok ==> C.Asked(Me()) == Some(Open(None, persistent)) && Me().mode == C.InSession(mine)
                     && Me().work == C.Say(Opened(mine), false)
      ensures ok && persistent ==> mine in world.mapped
      ensures !ok ==> Dropped(old(now))
    {
      var fault := Pause();
      if persistent {
        ok := StoreLookup(fault, env(now - 1).applied);
        if ok {
          ok := SpawnPersistent();
        }
        return;
      }
      if fault {
        Do(C.SpawnFails);
        return false;
      }
      Do(C.Spawn(mine));
      ok := true;
    }

    /** `create_session_lookup`; a failing command may have stored it all the same. */
    method StoreLookup(fault: bool, applied: bool) returns (ok: bool)
      requires Valid() && C.Asked(Me()) == Some(Open(None, true)) && Me().work.Idle? && Me().mode.PreOpen?
      requires Unused() && (fault ==> now > 0 && env(now - 1).fault)
      modifies this`world
      ensures Valid() && ok == !fault
      ensures ok ==> Me() == old(Me()).(work := C.LookupMade(mine)) && mine in world.lookups
      ensures !ok ==> Dropped(now - 1)
    {
      if fault && applied {
        ReachableNext(world, S.LookupStoredThenFails(me, mine));
        world := S.Apply(world, S.LookupStoredThenFails(me, mine));
      } else if fault {
        Do(C.LookupFails);
      } else {
        Do(C.MakeLookup(mine));
      }
      ok := !fault;
    }

    /** The shell of a session whose lookup is stored; a failure here leaks the lookup. */
    method SpawnPersistent() returns (ok: bool)
      requires Valid() && C.Asked(Me()) == Some(Open(None, true)) && Me().work == C.LookupMade(mine) && Me().mode.PreOpen?
      modifies this`world, this`now
      ensures Valid() && now > old(now)
      ensures ok ==> C.Asked(Me()) == Some(Open(None, true)) && Me().mode == C.InSession(mine)
                     && Me().work == C.Say(Opened(mine), false) && mine in world.mapped
      ensures !ok ==> Dropped(old(now))
    {
      var fault := Pause();
      if fault {
        Do(C.SpawnFails);
        return false;
      }
      Do(C.Spawn(mine));
      InsertSession();
      ok := true;
    }

    method InsertSession()
      requires Valid() && C.Asked(Me()).Some? && Me().work == C.ShellMade(mine)
      modifies this`world, this`now
      ensures Valid() && now > old(now) && C.Asked(Me()) == old(C.Asked(Me())) && mine in world.mapped
      ensures Me().mode == C.InSession(mine) && Me().work == C.Say(Opened(mine), false)
    {
      var _ := Pause();
      Do(C.Insert);
    }

    /** The pre-open loop. A Run cannot arrive here, so its `bail!` is dead code. */
    method PreOpen() returns (ok: bool)
      requires Valid() && Stands(true) && Me().work.Idle? && Me().mode.PreOpen? && Pos() >= C.FIRST_REQUEST && Unused()
      modifies this`world, this`now
      ensures Valid() && now >= old(now)
      ensures ok ==> (Me().over && Me().held.None?)
                     || (Stands(true) && Me().work.Idle? && Me().mode.InSession? && Pos() >= C.FIRST_REQUEST)
      ensures !ok ==> Dropped(old(now))
    {
      while true
        invariant Valid() && Stands(true) && Me().work.Idle? && Me().mode.PreOpen? && Pos() >= C.FIRST_REQUEST && Unused()
        invariant now >= old(now)
        decreases U64_MAX - Me().link.host.recvs
      {
        var request := RecvRequest(false);
        if request.None? {
          return false;
        }
        match request.value {
          case Open(wanted, persistent) =>
            ok := OpenSession(wanted, persistent);
            return;
          case DeleteSession(id) =>
            var removed;
            ok, removed := DeleteSession(id);
            return;
          case Disconnect =>
            Do(C.Simple);
            ok := Finish();
            return;
          case Ping =>
            Do(C.Simple);
            ok := Respond();
            if !ok {
              return;
            }
          case Run(_) =>
            NoRunBeforeOpen();
            assert false;
        }
      }
    }

    lemma NoRunBeforeOpen()
      requires Valid() && C.Asked(Me()).Some? && Me().mode.PreOpen?
      ensures !C.Asked(Me()).value.Run?
    {
      ReachableInv(world, me);
      if C.Asked(Me()).value.Run? {
        C.RunOnlyInSession(Me());
      }
    }

    /** How the handler stands at its end. */
    ghost predicate Ended(from: nat, fate: Fate)
      requires me in world.conns
      reads this
    {
      match fate
      case Returned => Me().over && Me().held.None?
      case Failed => Dropped(from)
      case StillWaiting => Stands(true) && Me().work.Idle? && Me().mode.InSession? && L.BoxOf(Me().link, Pos()).tokens == 0
    }

    /** The open loop: runs what it is asked to run, each command once. It waits for requests
        without a timeout, so that no request for however long is no reason to fail. */
    method InSession() returns (fate: Fate)
      requires Valid() && Stands(true) && Me().work.Idle? && Me().mode.InSession? && Pos() >= C.FIRST_REQUEST
      modifies this`world, this`now
      ensures Valid() && now >= old(now) && Ended(old(now), fate)
      ensures fate.Failed? ==> Severed(old(now))
      ensures Agree(Me())
    {
      while true
        invariant Valid() && Stands(true) && Me().work.Idle? && Me().mode.InSession? && Pos() >= C.FIRST_REQUEST
        invariant now >= old(now)
        decreases U64_MAX - Me().link.host.recvs
      {
        var request := RecvRequest(true);
        AllAgree();
        if request.None? {
          return if Me().link.host.alive then StillWaiting else Failed;
        }
        var ok := Serve(request.value);
        AllAgree();
        if !ok {
          return Failed;
        }
        if request.value.Disconnect? {
          return Returned;
        }
      }
    }

    /** Every reply to a command in the log tells what `run` gave for that command. */
    lemma AllAgree()
      requires Valid()
      ensures Agree(Me())
    {
      var worlds, steps :| S.IsRun(worlds, steps) && worlds[|steps|] == world;
      S.ConnsReachable(worlds, steps, |steps|, me);
      AnswersAgree(Me());
    }

    /** One request of the open loop: its reply tells what `run` gave for the command, is Pong, or
        refuses. */
    method Serve(request: ClientRequest) returns (ok: bool)
      requires Valid() && C.Asked(Me()) == Some(request) && Me().work.Idle? && Me().mode.InSession?
      modifies this`world, this`now
      ensures Valid() && now > old(now)
      ensures ok && request.Disconnect? ==> Me().over && Me().held.None?
      ensures ok && !request.Disconnect? ==>
                Stands(true) && Me().work.Idle? && Me().mode == old(Me()).mode && Pos() >= C.FIRST_REQUEST
                && Me().link.host.recvs > old(Me()).link.host.recvs && old(Me()).link.host.recvs < U64_MAX
      ensures ok && !request.Disconnect? ==>
                C.ReplyAt(Me().link.log, old(Pos()) + 1).Some?
                && Fitting(request, C.ReplyAt(Me().link.log, old(Pos()) + 1).value, old(Me()), Me())
      ensures ok && request.Run? && !Exited(world, Me().mode.id) ==>
                Tells(C.ReplyAt(Me().link.log, old(Pos()) + 1).value, env(old(now)).result)
      ensures !ok ==> Severed(old(now))
    {
      if request.Run? {
        Execute();
      } else {
        Do(C.Simple);
      }
      if request.Disconnect? {
        ok := Finish();
      } else {
        ok := Respond();
      }
    }

    /** Runs the command of the request in hand in the session's shell. The reply it decides on is
        what the shell gave, if the shell lives, and an Error if it has ended. */
    method Execute()
      requires Valid() && C.Asked(Me()).Some? && C.Asked(Me()).value.Run? && Me().work.Idle? && Me().mode.InSession?
      modifies this`world, this`now
      ensures Valid() && now > old(now) && C.Asked(Me()) == old(C.Asked(Me())) && Me().mode == old(Me()).mode
      ensures Me().work.Answer? && Me().work.reply.Some? && !Me().work.last
      ensures RunsOne(C.Asked(Me()).value.command, Me().work.reply.value, old(Me()), Me())
      ensures if Exited(world, Me().mode.id) then Me().work.reply.value.Error?
              else Tells(Me().work.reply.value, env(old(now)).result)
      ensures Me().link.host == old(Me()).link.host && !Me().over
    {
      var _ := Pause();
      LivesUnlessExited();
      var result := env(now - 1).result;
      var alive := S.ShellOf(world, Me().mode.id).alive;
      Do(C.RunCommand(if alive || result.Failed? then result else C.Failed("shell process exited")));
    }

    /** The handler's own reference keeps the shell alive unless it ends by itself. */
    lemma LivesUnlessExited()
      requires Valid() && Me().link.host.alive && !Me().over && Me().mode.InSession?
      ensures S.ShellOf(world, Me().mode.id).alive <==> !Exited(world, Me().mode.id)
    {
      ReachableWorld(world);
      ReachableInv(world, me);
      assert C.HeldInv(Me()) && S.Holds(world, me, Me().mode.id);
      S.ReferencesMean(world, Me().mode.id);
    }

    /** `handle`. It returns after its last word or Disconnect; or fails, which takes a fault, a
        frame that never came or expired, or a counter at its end, and then holds nothing; or
        waits in its session for a frame nobody announced. It has run a prefix of the commands
        its client sent. That it ends or waits at all is due to its finite receive counter. */
    method Handle() returns (fate: Fate)
      requires Valid() && Stands(true) && Me().work.Idle? && Me().mode.PreOpen? && Pos() == 0 && Unused()
      modifies this`world, this`now
      ensures Valid() && Ended(old(now), fate)
      ensures Me().ran <= C.RunsIn(Me().link.log, |Me().link.log|) && Agree(Me())
    {
      fate := Failed;
      var ok := Login();
      if ok {
        ok := PreOpen();
        if ok && Me().over {
          fate := Returned;
        } else if ok {
          fate := InSession();
        }
      }
      ReachableInv(world, me);
      C.RanIsPrefix(Me());
      AllAgree();
    }
  }
}
