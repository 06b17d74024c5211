/** Which sessions a client's answer leaves behind, across its program, its connection and the host's
    shared map: what `exec` is answered with outlives it, what `connect` is given without a name does
    not (src/main.rs:236-301, src/server.rs:104-136). */
module Openings {
  import opened Wrappers
  import opened Protocol
  import opened Programs
  import opened Requests
  import opened Sessions
  import C = Conversation

  /** The session was taken out of the map by somebody's DeleteSession before time `n`. */
  ghost predicate DeletedBefore(worlds: seq<World>, steps: seq<Step>, n: nat, id: string)
    requires n <= |steps| && n <= |worlds|
  {
    exists k :: 0 <= k < n && Deletes(worlds[k], steps[k], id)
  }

  predicate Deletes(w: World, s: Step, id: string) {
    s.Act? && s.step.Unmap? && s.conn in w.conns && C.Asked(w.conns[s.conn]) == Some(DeleteSession(id))
  }

  /** It is in the map, or somebody has deleted it. */
  ghost predicate Lasting(worlds: seq<World>, steps: seq<Step>, n: nat, id: string)
    requires n <= |steps| && n < |worlds|
  {
    id in worlds[n].mapped || DeletedBefore(worlds, steps, n, id)
  }

  /** Only a DeleteSession takes a session out of the map. */
  lemma MappedStays(w: World, s: Step, id: string)
    requires Enabled(w, s) && id in w.mapped && !Deletes(w, s, id)
    ensures id in Apply(w, s).mapped
  {
    if s.Act? {
      SharedFields(w, s.conn, s.step);
    } else if Mishap(s) {
      MishapFields(w, s);
    }
  }

  lemma LastingStays(worlds: seq<World>, steps: seq<Step>, n: nat, id: string)
    requires IsRun(worlds, steps) && 0 < n < |worlds| && Lasting(worlds, steps, n - 1, id)
    ensures Lasting(worlds, steps, n, id)
  {
    if id in worlds[n - 1].mapped {
      if Deletes(worlds[n - 1], steps[n - 1], id) {
        assert DeletedBefore(worlds, steps, n, id);
      } else {
        MappedStays(worlds[n - 1], steps[n - 1], id);
      }
    } else {
      var k :| 0 <= k < n - 1 && Deletes(worlds[k], steps[k], id);
    }
  }

  /** The connection asked for a session that stays: a named one, or a new persistent one. */
  predicate AskedToStay(c: C.Conn) {
    match C.RequestAt(c.link.log, C.FIRST_REQUEST)
    case Some(Open(wanted, persistent)) => persistent || wanted.Some?
    case _ => false
  }

  predicate AskedForNew(c: C.Conn) { C.RequestAt(c.link.log, C.FIRST_REQUEST) == Some(Open(None, false)) }

  /** How a connection comes to be in a session. */
  lemma Enters(c: C.Conn, step: C.Step, id: string)
    requires C.Inv(c) && C.Enabled(c, step) && c.mode.PreOpen? && C.Apply(c, step).mode == C.InSession(id)
    ensures C.RequestAt(C.Apply(c, step).link.log, C.FIRST_REQUEST) == C.RequestAt(c.link.log, C.FIRST_REQUEST)
    ensures step == C.Join(id) || (step == C.Insert && c.work == C.ShellMade(id) && AskedToStay(c))
            || (step == C.Spawn(id) && c.work.Idle? && AskedForNew(c))
    ensures step == C.Join(id) ==> AskedToStay(c) && !AskedForNew(c)
  {
    EntersAtFirst(c, step, id);
  }

  lemma EntersAtFirst(c: C.Conn, step: C.Step, id: string)
    requires C.Inv(c) && C.Enabled(c, step) && c.mode.PreOpen? && C.Apply(c, step).mode == C.InSession(id)
    ensures step.Join? || step.Insert? || step.Spawn?
    ensures C.Asked(c).Some? && C.Asked(c).value.Open? && C.RequestAt(c.link.log, C.FIRST_REQUEST) == C.Asked(c)
  {
    assert C.WorkInv(c) && C.L.TurnInv(c.link, C.L.Host);
    OpenIsFirst(c, c.link.host.pos);
  }

  /** Otherwise its session and its first request stay what they are. */
  lemma ModeStays(c: C.Conn, step: C.Step)
    requires C.Inv(c) && OpenedRight(c) && C.Enabled(c, step) && c.mode.InSession?
    ensures C.Apply(c, step).mode == c.mode
    ensures C.RequestAt(C.Apply(c, step).link.log, C.FIRST_REQUEST) == C.RequestAt(c.link.log, C.FIRST_REQUEST)
  {
    assert C.WorkInv(c);
    C.LogGrows(c, step);
  }

  /** How connection `m` came to stand in its session: it stood there before, asked for the same, or
      this step took it there. */
  predicate Stood(w: World, v: World, m: nat, id: string) {
    m in w.conns && m in v.conns && w.conns[m].mode == C.InSession(id)
    && C.RequestAt(v.conns[m].link.log, C.FIRST_REQUEST) == C.RequestAt(w.conns[m].link.log, C.FIRST_REQUEST)
  }

  predicate EntersNow(w: World, s: Step, v: World, m: nat, id: string) {
    s.Act? && s.conn == m && m in w.conns && m in v.conns
    && (AskedToStay(v.conns[m]) ==> id in v.mapped)
    && (AskedForNew(v.conns[m]) ==> s.step == C.Spawn(id) && w.conns[m].work.Idle?)
  }

  lemma StoodOrEntered(worlds: seq<World>, steps: seq<Step>, n: nat, m: nat, id: string)
    requires IsRun(worlds, steps) && n < |worlds| && m in worlds[n].conns && worlds[n].conns[m].mode == C.InSession(id)
    ensures n > 0
    ensures Stood(worlds[n - 1], worlds[n], m, id) || EntersNow(worlds[n - 1], steps[n - 1], worlds[n], m, id)
  {
    OneStep(worlds, steps, n, m);
    if m in worlds[n - 1].conns {
      ConnsReachable(worlds, steps, n - 1, m);
    }
    StandsAfter(worlds[n - 1], steps[n - 1], worlds[n], m, id);
  }

  lemma OneStep(worlds: seq<World>, steps: seq<Step>, n: nat, m: nat)
    requires IsRun(worlds, steps) && n < |worlds| && m in worlds[n].conns
    ensures n > 0 && Enabled(worlds[n - 1], steps[n - 1]) && worlds[n] == Apply(worlds[n - 1], steps[n - 1])
  {
  }

  lemma StandsAfter(w: World, s: Step, v: World, m: nat, id: string)
    requires Enabled(w, s) && v == Apply(w, s) && m in v.conns && v.conns[m].mode == C.InSession(id)
    requires m in w.conns ==> C.Reachable(w.conns[m])
    ensures Stood(w, v, m, id) || EntersNow(w, s, v, m, id)
  {
    ConnMoves(w, s, m);
    if m in w.conns && !s.Arrive? && !s.Outside? && s.conn == m {
      StepEnters(w.conns[m], Inner(s), id);
      if w.conns[m].mode.PreOpen? {
        EntersMap(w, s, m, id);
        SameFirst(w.conns[m], v.conns[m]);
      }
    }
  }

  lemma SameFirst(c: C.Conn, d: C.Conn)
    requires C.RequestAt(d.link.log, C.FIRST_REQUEST) == C.RequestAt(c.link.log, C.FIRST_REQUEST)
    ensures (AskedToStay(c) <==> AskedToStay(d)) && (AskedForNew(c) <==> AskedForNew(d))
  {
  }

  lemma StepEnters(c: C.Conn, step: C.Step, id: string)
    requires C.Reachable(c) && C.Enabled(c, step) && C.Apply(c, step).mode == C.InSession(id)
    ensures C.RequestAt(C.Apply(c, step).link.log, C.FIRST_REQUEST) == C.RequestAt(c.link.log, C.FIRST_REQUEST)
    ensures if c.mode.InSession? then c.mode.id == id
            else step == C.Join(id) || (step == C.Insert && c.work == C.ShellMade(id)) || (step == C.Spawn(id) && c.work.Idle?)
    ensures c.mode.PreOpen? && AskedToStay(c) ==> !step.Spawn?
    ensures c.mode.PreOpen? && AskedForNew(c) ==> step == C.Spawn(id)
  {
    C.ReachableInv(c);
    ReachableOpensRight(c);
    if c.mode.InSession? {
      ModeStays(c, step);
    } else {
      Enters(c, step, id);
    }
  }

  lemma EntersMap(w: World, s: Step, m: nat, id: string)
    requires Enabled(w, s) && !s.Arrive? && !s.Outside? && s.conn == m && m in w.conns
    requires Inner(s) == C.Join(id) || (Inner(s) == C.Insert && w.conns[m].work == C.ShellMade(id)) || Inner(s) == C.Spawn(id)
    ensures s.Act? && (!s.step.Spawn? ==> id in Apply(w, s).mapped)
  {
    if s.Act? {
      SharedFields(w, m, s.step);
    }
  }

  lemma {:induction false} AskedToStayLasts(worlds: seq<World>, steps: seq<Step>, n: nat, m: nat, id: string)
    requires IsRun(worlds, steps) && n < |worlds| && m in worlds[n].conns
    requires worlds[n].conns[m].mode == C.InSession(id) && AskedToStay(worlds[n].conns[m])
    ensures Lasting(worlds, steps, n, id)
  {
    StoodOrEntered(worlds, steps, n, m, id);
    if Stood(worlds[n - 1], worlds[n], m, id) {
      AskedToStayLasts(worlds, steps, n - 1, m, id);
      LastingStays(worlds, steps, n, id);
    }
  }

  lemma {:induction false} AskedForNewSpawned(worlds: seq<World>, steps: seq<Step>, n: nat, m: nat, id: string) returns (k: nat)
    requires IsRun(worlds, steps) && n < |worlds| && m in worlds[n].conns
    requires worlds[n].conns[m].mode == C.InSession(id) && AskedForNew(worlds[n].conns[m])
    ensures k < n && steps[k] == Act(m, C.Spawn(id)) && m in worlds[k].conns && worlds[k].conns[m].work.Idle?
  {
    StoodOrEntered(worlds, steps, n, m, id);
    if Stood(worlds[n - 1], worlds[n], m, id) {
      k := AskedForNewSpawned(worlds, steps, n - 1, m, id);
    } else {
      k := n - 1;
    }
  }

  // ---------------------------------------------------------------- the two laws

  /** The client of connection `m` has been answered that this session is open. */
  predicate AnsweredOpened(w: World, m: nat, id: string) {
    m in w.conns && C.ReplyAt(w.conns[m].link.log, C.FIRST_REQUEST + 1) == Some(Opened(id))
  }

  /** The session that a user's command names. */
  function Named(p: Program): Option<string> {
    match p
    case Exec(session, _) => session
    case Connect(session, _) => session
    case _ => None
  }

  /** In every run of the host: a session that an `exec`, or a `connect` with a name, has been answered
      with is the named one, if any; it is in the map until somebody deletes it; and while it is there
      its shell lives on, whatever becomes of the connection, unless it ends by itself. */
  lemma OpenedLasts(worlds: seq<World>, steps: seq<Step>, n: nat, m: nat, id: string)
    requires IsRun(worlds, steps) && n < |worlds| && AnsweredOpened(worlds[n], m, id)
    requires var p := worlds[n].conns[m].program; p.Exec? || (p.Connect? && p.session.Some?)
    ensures var named := Named(worlds[n].conns[m].program); named.Some? ==> id == named.value
    ensures id in worlds[n].mapped || DeletedBefore(worlds, steps, n, id)
    ensures id in worlds[n].mapped ==>
              id in worlds[n].shells && (worlds[n].shells[id].alive <==> !ExitedBefore(steps, n, id))
  {
    var c := worlds[n].conns[m];
    OpenedIsAsked(worlds, steps, n, m, id);
    AskedToStayLasts(worlds, steps, n, m, id);
    RunKeepsInv(worlds, steps, n);
    if id in worlds[n].mapped {
      ShellLifetime(worlds, steps, n, id);
    }
  }

  lemma OpenedIsAsked(worlds: seq<World>, steps: seq<Step>, n: nat, m: nat, id: string)
    requires IsRun(worlds, steps) && n < |worlds| && AnsweredOpened(worlds[n], m, id)
    ensures var c := worlds[n].conns[m];
            c.mode == C.InSession(id) && C.RequestAt(c.link.log, C.FIRST_REQUEST).Some?
            && FirstAsked(c.program, C.RequestAt(c.link.log, C.FIRST_REQUEST).value)
            && (Named(c.program).Some? ==> Named(c.program).value == id)
  {
    var c := worlds[n].conns[m];
    ConnsReachable(worlds, steps, n, m);
    C.ReachableInv(c);
    OpensWhatWasAsked(c);
    ReachableOpensRight(c);
    assert C.ModeInv(c);
  }

  /** And the session of a `connect` without a name is never in the map, nobody else ever holds it, and
      its shell lives exactly while its own connection does and it has not ended by itself. */
  lemma UnnamedIsPrivate(worlds: seq<World>, steps: seq<Step>, n: nat, m: nat, id: string)
    requires IsRun(worlds, steps) && n < |worlds| && AnsweredOpened(worlds[n], m, id)
    requires var p := worlds[n].conns[m].program; p.Connect? && p.session.None?
    ensures Private(worlds[n], m, id) && id !in worlds[n].mapped
    ensures worlds[n].shells[id].alive <==> Holds(worlds[n], m, id) && !ExitedBefore(steps, n, id)
  {
    OpenedIsAsked(worlds, steps, n, m, id);
    var k := AskedForNewSpawned(worlds, steps, n, m, id);
    EphemeralDiesWithConnection(worlds, steps, k, n, m, id);
  }
}
