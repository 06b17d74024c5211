/** The host (src/server.rs): any number of connections interleaving over one shared map of
    sessions, the lookups they leave in Redis, and the shells they keep alive. */
module Sessions {
  import opened Wrappers
  import opened Keys
  import opened Protocol
  import opened Programs
  import C = Conversation

  /** Why a lookup exists. */
  datatype Owner = Mapped | Opening(conn: nat) | Deleting(conn: nat) | Leaked

  /** Who holds an `Arc` of a session. */
  datatype Holder = TheMap | Handler(conn: nat)

  datatype Executed = Executed(conn: nat, command: string)

  /** `refs` is the reference count the program maintains; `holders` and `exited` are history. The
      process is killed when the count reaches zero; it can also end by itself, and then every
      further `run` is answered with an Error. */
  datatype Shell = Shell(log: seq<Executed>, refs: nat, alive: bool, exited: bool, holders: set<Holder>)

  /** `mapped` are the keys of the Sessions map, `used` the ids ever drawn, `deleted` the ids in
      the order their deletion succeeded; `owners` is history, and so is `stolen`: the lookups
      that a startup cleanup of another process took away. */
  datatype World = World(hostname: string,
    conns: map<nat, C.Conn>, mapped: set<string>, lookups: set<string>, shells: map<string, Shell>,
    used: set<string>, owners: map<string, Owner>, deleted: seq<string>, stolen: set<string>)

  datatype Step =
    | Arrive(conn: nat, program: Program, expected: Option<string>, signature: string, key: nat)
    | Act(conn: nat, step: C.Step)
    | LookupStoredThenFails(conn: nat, id: string)
    | UnlinkedThenFails(conn: nat)
    | Outside(event: Event)

  /** What happens to the host without any of its handlers. */
  datatype Event = ShellExits(id: string) | ForeignCleanup(cleaner: string, ids: set<string>)

  /** The cleanup of hostname `cleaner` reaches this host's lookups, whatever their hashes. */
  predicate Reaches(cleaner: string, hostname: string) {
    cleaner == hostname || Fields(cleaner) + ["session"] <= Fields(hostname)
  }

  /** That is what the pattern says. */
  lemma ReachesByPattern(cleaner: string, hostname: string, hash: string)
    requires ColonFree(hash)
    ensures Reaches(cleaner, hostname) <==> MatchesGlob(cleaner, SessionKey(hostname, hash))
  {
    CleanupReachesSessions(cleaner, hostname, hash);
  }

  /** Which outcomes the shared state allows; fresh ids are assumed. */
  predicate Grants(w: World, c: C.Conn, s: C.Step) {
    match s
    case Join(id) => id in w.mapped
    case Missing =>
      (match C.Asked(c)
       case Some(Open(Some(id), _)) => id !in w.mapped
       case Some(DeleteSession(id)) => id !in w.mapped
       case _ => false)
    case Unmap => C.Asked(c).Some? && C.Asked(c).value.DeleteSession? && C.Asked(c).value.doomed in w.mapped
    case MakeLookup(id) => id !in w.used
    case Spawn(id) => c.work.LookupMade? || id !in w.used
    case RunCommand(result) => result.Printed? && c.mode.InSession? ==> ShellOf(w, c.mode.id).alive
    case _ => true
  }

  /** The step of the connection itself. */
  function Inner(s: Step): C.Step
    requires !s.Arrive? && !s.Outside?
  {
    match s
    case Act(_, step) => step
    case LookupStoredThenFails(_, _) => C.LookupFails
    case UnlinkedThenFails(_) => C.UnlinkFails
  }

  predicate Enabled(w: World, s: Step) {
    if s.Arrive? then s.conn !in w.conns
    else if s.Outside? then
      match s.event
      case ShellExits(id) => id in w.shells && w.shells[id].alive
      case ForeignCleanup(cleaner, _) => Reaches(cleaner, w.hostname)
    else
      s.conn in w.conns && C.Enabled(w.conns[s.conn], Inner(s)) && Grants(w, w.conns[s.conn], Inner(s))
      && (s.LookupStoredThenFails? ==> s.id !in w.used)
  }

  // ---------------------------------------------------------------- effects on shared state

  function AddRef(sh: Shell, h: Holder): Shell {
    sh.(refs := sh.refs + 1, holders := sh.holders + {h})
  }

  function DropRef(sh: Shell, h: Holder): Shell {
    var refs := if sh.refs > 0 then sh.refs - 1 else 0;
    sh.(refs := refs, alive := sh.alive && refs > 0, holders := sh.holders - {h})
  }

  function ShellOf(w: World, id: string): Shell {
    if id in w.shells then w.shells[id] else Shell([], 0, false, false, {})
  }

  function WithShell(w: World, id: string, sh: Shell): World { w.(shells := w.shells[id := sh]) }

  /** What a connection's step does to the map, the lookups and the shells. */
  function Effect(w: World, n: nat, c: C.Conn, s: C.Step): World {
    match s
    case Join(id) => WithShell(w, id, AddRef(ShellOf(w, id), Handler(n)))
    case MakeLookup(id) =>
      w.(lookups := w.lookups + {id}, used := w.used + {id}, owners := w.owners[id := Opening(n)])
    case Spawn(id) =>
      w.(shells := w.shells[id := Shell([], 1, true, false, {Handler(n)})], used := w.used + {id})
    case SpawnFails => if c.work.LookupMade? then w.(owners := w.owners[c.work.id := Leaked]) else w
    case Insert =>
      if c.work.ShellMade?
      then WithShell(w.(mapped := w.mapped + {c.work.id}, owners := w.owners[c.work.id := Mapped]),
                     c.work.id, AddRef(ShellOf(w, c.work.id), TheMap))
      else w
    case Unmap =>
      if C.Asked(c).Some? && C.Asked(c).value.DeleteSession?
      then
        var id := C.Asked(c).value.doomed;
        WithShell(w.(mapped := w.mapped - {id}, owners := w.owners[id := Deleting(n)]),
                  id, DropRef(AddRef(ShellOf(w, id), Handler(n)), TheMap))
      else w
    case Unlink =>
      if c.work.Unmapped?
      then w.(lookups := w.lookups - {c.work.id}, owners := w.owners - {c.work.id}, deleted := w.deleted + [c.work.id])
      else w
    case UnlinkFails => if c.work.Unmapped? then w.(owners := w.owners[c.work.id := Leaked]) else w
    case RunCommand(_) =>
      if c.mode.InSession? && C.Asked(c).Some? && C.Asked(c).value.Run?
      then
        var sh := ShellOf(w, c.mode.id);
        WithShell(w, c.mode.id, sh.(log := sh.log + [Executed(n, C.Asked(c).value.command)]))
      else w
    case _ => w
  }

  /** A handler that stops or returns drops its reference. */
  function Release(w: World, n: nat, before: C.Conn, after: C.Conn): World {
    if before.held.Some? && after.held.None?
    then WithShell(w, before.held.value, DropRef(ShellOf(w, before.held.value), Handler(n)))
    else w
  }

  function Apply(w: World, s: Step): World
    requires Enabled(w, s)
  {
    match s
    case Arrive(n, program, expected, signature, key) =>
      w.(conns := w.conns[n := C.Start(program, expected, signature, key)])
    case Act(n, step) =>
      var c := w.conns[n];
      var after := C.Apply(c, step);
      Release(Effect(w, n, c, step), n, c, after).(conns := w.conns[n := after])
    case LookupStoredThenFails(n, id) =>
      var c := w.conns[n];
      var after := C.Apply(c, C.LookupFails);
      Release(w.(lookups := w.lookups + {id}, used := w.used + {id}, owners := w.owners[id := Leaked]), n, c, after)
        .(conns := w.conns[n := after])
    case UnlinkedThenFails(n) =>
      var c := w.conns[n];
      var after := C.Apply(c, C.UnlinkFails);
      Release(w.(lookups := w.lookups - {c.work.id}, owners := w.owners - {c.work.id}), n, c, after)
        .(conns := w.conns[n := after])
    case Outside(event) => Happens(w, event)
  }

  function Happens(w: World, event: Event): World {
    match event
    case ShellExits(id) => WithShell(w, id, ShellOf(w, id).(alive := false, exited := true))
    case ForeignCleanup(_, ids) => w.(stolen := w.stolen + w.lookups * ids, lookups := w.lookups - ids)
  }

  function EmptyWorld(hostname: string): World { World(hostname, map[], {}, {}, map[], {}, map[], [], {}) }

  // ---------------------------------------------------------------- the invariant

  ghost predicate ConnsInv(w: World) {
    forall n :: n in w.conns ==> C.Inv(w.conns[n])
  }

  /** What a handler has under way between its changes to the map and to Redis. */
  function Claim(c: C.Conn): C.Work {
    if c.work.LookupMade? || c.work.ShellMade? || c.work.Unmapped? then c.work else C.Idle
  }

  predicate ClaimIs(w: World, n: nat, claim: C.Work) { n in w.conns && Claim(w.conns[n]) == claim }

  predicate OwnerOk(w: World, id: string)
    requires id in w.owners
  {
    match w.owners[id]
    case Mapped => id in w.mapped
    case Opening(n) => id !in w.mapped && (ClaimIs(w, n, C.LookupMade(id)) || ClaimIs(w, n, C.ShellMade(id)))
    case Deleting(n) => id !in w.mapped && ClaimIs(w, n, C.Unmapped(id))
    case Leaked => id !in w.mapped
  }

  predicate WorkOwned(w: World, n: nat)
    requires n in w.conns
  {
    match Claim(w.conns[n])
    case LookupMade(id) => id in w.owners && w.owners[id] == Opening(n)
    case ShellMade(id) => id in w.owners && w.owners[id] == Opening(n)
    case Unmapped(id) => id in w.owners && w.owners[id] == Deleting(n)
    case _ => true
  }

  /** Every lookup that was made is there or was stolen. */
  predicate Balanced(w: World) {
    w.lookups == w.owners.Keys - w.stolen && w.mapped <= w.owners.Keys <= w.used && w.stolen <= w.used
  }

  ghost predicate LedgerInv(w: World) {
    Balanced(w)
    && (forall id :: id in w.owners ==> OwnerOk(w, id))
    && (forall n :: n in w.conns ==> WorkOwned(w, n))
  }

  ghost predicate DeletedInv(w: World) {
    (forall i, j :: 0 <= i < j < |w.deleted| ==> w.deleted[i] != w.deleted[j])
    && (forall id :: id in w.deleted ==> id in w.used && id !in w.owners)
  }

  predicate Holds(w: World, n: nat, id: string) { n in w.conns && w.conns[n].held == Some(id) }

  ghost predicate ShellOk(w: World, id: string)
    requires id in w.shells
  {
    var sh := w.shells[id];
    sh.refs == |sh.holders| && (sh.alive <==> sh.refs > 0 && !sh.exited)
    && (TheMap in sh.holders <==> id in w.mapped)
    && (forall n :: Handler(n) in sh.holders <==> Holds(w, n, id))
  }

  ghost predicate ArcInv(w: World) {
    w.shells.Keys <= w.used && w.mapped <= w.shells.Keys
    && (forall id :: id in w.shells ==> ShellOk(w, id))
    && (forall n :: n in w.conns && w.conns[n].held.Some? ==> w.conns[n].held.value in w.shells)
  }

  /** A lookup is stored before its shell exists. */
  ghost predicate UnspawnedInv(w: World) {
    forall n :: n in w.conns && Claim(w.conns[n]).LookupMade? ==> Claim(w.conns[n]).id !in w.shells
  }

  /** The commands of one connection in a shell's log. */
  function Part(log: seq<Executed>, n: nat): seq<string> {
    if log == [] then []
    else
      var last := log[|log| - 1];
      Part(log[..|log| - 1], n) + if last.conn == n then [last.command] else []
  }

  function RanIn(w: World, n: nat, id: string): seq<string> {
    if n in w.conns && w.conns[n].mode == C.InSession(id) then w.conns[n].ran else []
  }

  ghost predicate LogInv(w: World) {
    (forall id, n :: id in w.shells ==> Part(w.shells[id].log, n) == RanIn(w, n, id))
    && (forall n :: n in w.conns ==>
          match w.conns[n].mode
          case PreOpen => w.conns[n].ran == []
          case InSession(id) => id in w.shells)
  }

  ghost predicate Inv(w: World) {
    ConnsInv(w) && LedgerInv(w) && DeletedInv(w) && ArcInv(w) && UnspawnedInv(w) && LogInv(w)
  }

  // ---------------------------------------------------------------- every step keeps it

  lemma ConnsKept(w: World, s: Step)
    requires Inv(w) && Enabled(w, s)
    ensures ConnsInv(Apply(w, s))
  {
    var after := Apply(w, s);
    forall n | n in after.conns
      ensures C.Inv(after.conns[n])
    {
      if !s.Outside? && n == s.conn {
        if s.Arrive? {
          C.StartKeepsInv(s.program, s.expected, s.signature, s.key);
        } else {
          C.StepKeepsInv(w.conns[n], Inner(s));
        }
      }
    }
  }

  /** Where a step leaves everything but the shells. */
  lemma SharedFields(w: World, n: nat, step: C.Step)
    requires Enabled(w, Act(n, step))
    ensures var after, effect := Apply(w, Act(n, step)), Effect(w, n, w.conns[n], step);
            after.conns == w.conns[n := C.Apply(w.conns[n], step)]
            && after.mapped == effect.mapped && after.lookups == effect.lookups && after.used == effect.used
            && after.owners == effect.owners && after.deleted == effect.deleted
            && after.hostname == w.hostname && after.stolen == w.stolen
  {
  }

  predicate Mishap(s: Step) { s.LookupStoredThenFails? || s.UnlinkedThenFails? }

  /** The same for the two failures that took effect. */
  lemma MishapFields(w: World, s: Step)
    requires Enabled(w, s) && Mishap(s)
    ensures var after, c := Apply(w, s), w.conns[s.conn];
            after.conns == w.conns[s.conn := C.Apply(c, Inner(s))] && after.mapped == w.mapped
            && after.deleted == w.deleted && after.hostname == w.hostname && after.stolen == w.stolen
            && (s.LookupStoredThenFails? ==>
                  after.lookups == w.lookups + {s.id} && after.used == w.used + {s.id}
                  && after.owners == w.owners[s.id := Leaked] && s.id !in w.used)
            && (s.UnlinkedThenFails? ==>
                  c.work.Unmapped? && after.lookups == w.lookups - {c.work.id} && after.used == w.used
                  && after.owners == w.owners - {c.work.id})
  {
  }

  predicate TouchesLedger(s: C.Step) {
    s.MakeLookup? || s.Spawn? || s.SpawnFails? || s.Insert? || s.Unmap? || s.Unlink? || s.UnlinkFails?
  }

  /** Every other step of a connection leaves its claim alone. */
  lemma ClaimKept(c: C.Conn, s: C.Step)
    requires C.Inv(c) && C.Enabled(c, s) && !TouchesLedger(s)
    ensures Claim(C.Apply(c, s)) == Claim(c)
  {
    assert C.WorkInv(c);
  }

  predicate ClaimsMove(c: C.Conn, s: C.Step, after: C.Conn) {
    match s
    case MakeLookup(id) => Claim(c) == C.Idle && Claim(after) == C.LookupMade(id)
    case Spawn(id) =>
      if c.work.LookupMade? then Claim(c) == C.LookupMade(id) && Claim(after) == C.ShellMade(id)
      else Claim(c) == C.Idle && Claim(after) == C.Idle
    case SpawnFails => Claim(c) == (if c.work.LookupMade? then c.work else C.Idle) && Claim(after) == C.Idle
    case Insert => c.work.ShellMade? && Claim(after) == C.Idle
    case Unmap =>
      C.Asked(c).Some? && C.Asked(c).value.DeleteSession?
      && Claim(c) == C.Idle && Claim(after) == C.Unmapped(C.Asked(c).value.doomed)
    case Unlink => c.work.Unmapped? && Claim(after) == C.Idle
    case UnlinkFails => c.work.Unmapped? && Claim(after) == C.Idle
    case _ => Claim(after) == Claim(c)
  }

  lemma ClaimsMoved(c: C.Conn, s: C.Step)
    requires C.Inv(c) && C.Enabled(c, s)
    ensures ClaimsMove(c, s, C.Apply(c, s))
  {
    if !TouchesLedger(s) {
      ClaimKept(c, s);
    }
  }

  /** One connection's claim moves together with one owner. */
  lemma LedgerMoves(w: World, after: World, n: nat, id: string)
    requires LedgerInv(w)
    requires Balanced(after)
    requires forall m :: m in after.conns <==> m in w.conns || m == n
    requires forall m :: m in w.conns && m != n ==> after.conns[m] == w.conns[m]
    requires forall other :: other != id ==> (other in after.owners <==> other in w.owners)
    requires forall other :: other != id ==> (other in after.mapped <==> other in w.mapped)
    requires forall other :: other != id && other in w.owners ==> after.owners[other] == w.owners[other]
    requires n in w.conns && Claim(w.conns[n]) != C.Idle ==> Claim(w.conns[n]).id == id
    requires id in w.owners && w.owners[id].Opening? ==> w.owners[id].conn == n
    requires id in w.owners && w.owners[id].Deleting? ==> w.owners[id].conn == n
    requires Claim(after.conns[n]) != C.Idle ==> Claim(after.conns[n]).id == id
    requires WorkOwned(after, n)
    requires id in after.owners ==> OwnerOk(after, id)
    ensures LedgerInv(after)
  {
    forall other | other in after.owners
      ensures OwnerOk(after, other)
    {
      if other != id {
        assert OwnerOk(w, other);
      }
    }
    forall m | m in after.conns
      ensures WorkOwned(after, m)
    {
      if m != n {
        assert WorkOwned(w, m);
      }
    }
  }

  lemma QuietStepKeepsLedger(w: World, after: World, n: nat)
    requires LedgerInv(w)
    requires after.owners == w.owners && after.mapped == w.mapped && after.lookups == w.lookups
    requires w.used <= after.used && after.stolen == w.stolen
    requires forall m :: m in after.conns <==> m in w.conns || m == n
    requires forall m :: m in w.conns && m != n ==> after.conns[m] == w.conns[m]
    requires Claim(after.conns[n]) == if n in w.conns then Claim(w.conns[n]) else C.Idle
    ensures LedgerInv(after)
  {
    forall id | id in after.owners
      ensures OwnerOk(after, id)
    {
      assert OwnerOk(w, id);
    }
    forall m | m in after.conns
      ensures WorkOwned(after, m)
    {
      if m in w.conns {
        assert WorkOwned(w, m);
      }
    }
  }

  lemma LedgerOfEffect(w: World, n: nat, c: C.Conn, step: C.Step, next: C.Conn)
    requires LedgerInv(w) && n in w.conns && c == w.conns[n]
    requires Grants(w, c, step) && ClaimsMove(c, step, next) && TouchesLedger(step)
    ensures LedgerInv(Effect(w, n, c, step).(conns := w.conns[n := next]))
  {
    var after := Effect(w, n, c, step).(conns := w.conns[n := next]);
    assert WorkOwned(w, n);
    var claim := if Claim(c) == C.Idle then Claim(next) else Claim(c);
    if claim == C.Idle {
      QuietStepKeepsLedger(w, after, n);
    } else {
      OneOwnerMoves(w, n, c, step, next, claim.id);
      if claim.id in w.owners {
        assert OwnerOk(w, claim.id);
      }
      LedgerMoves(w, after, n, claim.id);
    }
  }

  /** Only the owner of the id a handler is busy with changes. */
  lemma OneOwnerMoves(w: World, n: nat, c: C.Conn, step: C.Step, next: C.Conn, id: string)
    requires LedgerInv(w) && n in w.conns && c == w.conns[n] && WorkOwned(w, n)
    requires Grants(w, c, step) && ClaimsMove(c, step, next) && TouchesLedger(step)
    requires (if Claim(c) == C.Idle then Claim(next) else Claim(c)) != C.Idle
    requires id == (if Claim(c) == C.Idle then Claim(next) else Claim(c)).id
    ensures var e := Effect(w, n, c, step);
            Balanced(e)
            && (forall other :: other != id ==> (other in e.owners <==> other in w.owners))
            && (forall other :: other != id ==> (other in e.mapped <==> other in w.mapped))
            && (forall other :: other != id && other in w.owners ==> e.owners[other] == w.owners[other])
  {
  }

  lemma QuietEffect(w: World, n: nat, c: C.Conn, step: C.Step)
    requires !TouchesLedger(step)
    ensures var e := Effect(w, n, c, step);
            e.mapped == w.mapped && e.lookups == w.lookups && e.used == w.used && e.owners == w.owners
            && e.stolen == w.stolen
            && e.deleted == w.deleted
  {
  }

  lemma LedgerKeptByAct(w: World, after: World, n: nat, c: C.Conn, step: C.Step, next: C.Conn)
    requires LedgerInv(w) && n in w.conns && c == w.conns[n]
    requires Grants(w, c, step) && ClaimsMove(c, step, next)
    requires after == Release(Effect(w, n, c, step), n, c, next).(conns := w.conns[n := next])
    ensures LedgerInv(after)
  {
    var effect := Effect(w, n, c, step).(conns := w.conns[n := next]);
    if TouchesLedger(step) {
      LedgerOfEffect(w, n, c, step, next);
      QuietStepKeepsLedger(effect, after, n);
    } else {
      QuietEffect(w, n, c, step);
      QuietStepKeepsLedger(w, after, n);
    }
  }

  lemma LedgerKept(w: World, s: Step)
    requires LedgerInv(w) && ConnsInv(w) && Enabled(w, s)
    ensures LedgerInv(Apply(w, s))
  {
    match s
    case Arrive(n, program, expected, signature, key) =>
      QuietStepKeepsLedger(w, w.(conns := w.conns[n := C.Start(program, expected, signature, key)]), n);
    case Act(n, step) => LedgerKeptByHandler(w, n, step);
    case Outside(event) => LedgerKeptByEvent(w, event);
    case _ => LedgerKeptByMishap(w, s);
  }

  lemma LedgerKeptByEvent(w: World, event: Event)
    requires LedgerInv(w)
    ensures LedgerInv(Happens(w, event))
  {
    var after := Happens(w, event);
    forall id | id in after.owners ensures OwnerOk(after, id) {
      assert OwnerOk(w, id);
    }
    forall n | n in after.conns ensures WorkOwned(after, n) {
      assert WorkOwned(w, n);
    }
  }

  lemma LedgerKeptByMishap(w: World, s: Step)
    requires LedgerInv(w) && ConnsInv(w) && Enabled(w, s) && Mishap(s)
    ensures LedgerInv(Apply(w, s))
  {
    var c := w.conns[s.conn];
    assert C.Inv(c);
    ClaimsMoved(c, Inner(s));
    MishapFields(w, s);
    MishapClaim(c, s);
    LedgerKeptByFailure(w, Apply(w, s), s, C.Apply(c, Inner(s)));
  }

  lemma MishapClaim(c: C.Conn, s: Step)
    requires Mishap(s) && C.Enabled(c, Inner(s))
    ensures s.LookupStoredThenFails? ==> Claim(c) == C.Idle
  {
  }

  lemma LedgerKeptByHandler(w: World, n: nat, step: C.Step)
    requires LedgerInv(w) && ConnsInv(w) && Enabled(w, Act(n, step))
    ensures LedgerInv(Apply(w, Act(n, step)))
  {
    var c := w.conns[n];
    assert C.Inv(c);
    ClaimsMoved(c, step);
    LedgerKeptByAct(w, Apply(w, Act(n, step)), n, c, step, C.Apply(c, step));
  }

  lemma LedgerKeptByFailure(w: World, after: World, s: Step, next: C.Conn)
    requires LedgerInv(w) && Mishap(s) && s.conn in w.conns
    requires s.LookupStoredThenFails? ==> s.id !in w.used
    requires ClaimsMove(w.conns[s.conn], Inner(s), next)
    requires s.LookupStoredThenFails? ==> Claim(w.conns[s.conn]) == C.Idle
    requires after.conns == w.conns[s.conn := next] && after.mapped == w.mapped && after.stolen == w.stolen
    requires s.LookupStoredThenFails? ==>
               after.lookups == w.lookups + {s.id} && after.used == w.used + {s.id} && after.owners == w.owners[s.id := Leaked]
    requires s.UnlinkedThenFails? ==>
               after.lookups == w.lookups - {w.conns[s.conn].work.id} && after.used == w.used
               && after.owners == w.owners - {w.conns[s.conn].work.id}
    ensures LedgerInv(after)
  {
    var n := s.conn;
    assert WorkOwned(w, n);
    LedgerMoves(w, after, n, if s.LookupStoredThenFails? then s.id else w.conns[n].work.id);
  }

  lemma DeletedOfEffect(w: World, after: World, n: nat, c: C.Conn, step: C.Step)
    requires LedgerInv(w) && DeletedInv(w) && n in w.conns && c == w.conns[n] && Grants(w, c, step)
    requires var e := Effect(w, n, c, step);
             after.owners == e.owners && after.used == e.used && after.deleted == e.deleted
    ensures DeletedInv(after)
  {
    assert WorkOwned(w, n);
  }

  lemma DeletedKept(w: World, s: Step)
    requires Inv(w) && Enabled(w, s)
    ensures DeletedInv(Apply(w, s))
  {
    if s.Act? {
      SharedFields(w, s.conn, s.step);
      DeletedOfEffect(w, Apply(w, s), s.conn, w.conns[s.conn], s.step);
    } else if Mishap(s) {
      MishapFields(w, s);
    }
  }

  // ---------------------------------------------------------------- references

  /** One connection's hold, or the map's, moves on one shell. */
  lemma ArcMoves(w: World, after: World, n: nat, id: string)
    requires ArcInv(w)
    requires after.shells.Keys == w.shells.Keys + {id} && id in after.used && w.used <= after.used
    requires forall other :: other in w.shells && other != id ==>
               after.shells[other].(log := []) == w.shells[other].(log := [])
    requires forall other :: other != id ==> (other in after.mapped <==> other in w.mapped)
    requires forall m :: m in after.conns <==> m in w.conns || m == n
    requires forall m :: m in w.conns && m != n ==> after.conns[m] == w.conns[m]
    requires n in w.conns && w.conns[n].held.Some? ==> w.conns[n].held.value == id
    requires after.conns[n].held.Some? ==> after.conns[n].held.value == id
    requires ShellOk(after, id)
    ensures ArcInv(after)
  {
    forall other | other in after.shells
      ensures ShellOk(after, other)
    {
      if other != id {
        assert ShellOk(w, other);
        forall m ensures Handler(m) in after.shells[other].holders <==> Holds(after, m, other) {
          assert Handler(m) in w.shells[other].holders <==> Holds(w, m, other);
        }
      }
    }
  }

  lemma QuietStepKeepsArcs(w: World, after: World, n: nat)
    requires ArcInv(w)
    requires after.shells.Keys == w.shells.Keys && w.used <= after.used && after.mapped == w.mapped
    requires forall id :: id in w.shells ==> after.shells[id].(log := []) == w.shells[id].(log := [])
    requires forall m :: m in after.conns <==> m in w.conns || m == n
    requires forall m :: m in w.conns && m != n ==> after.conns[m] == w.conns[m]
    requires after.conns[n].held == if n in w.conns then w.conns[n].held else None
    ensures ArcInv(after)
  {
    forall id | id in after.shells
      ensures ShellOk(after, id)
    {
      assert ShellOk(w, id);
      forall m ensures Handler(m) in after.shells[id].holders <==> Holds(after, m, id) {
        assert Handler(m) in w.shells[id].holders <==> Holds(w, m, id);
      }
    }
  }

  /** How a step moves what its handler holds. */
  predicate HoldMoves(c: C.Conn, s: C.Step, next: C.Conn) {
    match s
    case Join(id) => c.held.None? && next.held == Some(id)
    case Spawn(id) => c.held.None? && next.held == Some(id) && (c.work.LookupMade? ==> c.work.id == id)
    case Insert => c.work.ShellMade? && c.held == Some(c.work.id) && next.held == c.held
    case Unmap =>
      C.Asked(c).Some? && C.Asked(c).value.DeleteSession?
      && c.held.None? && next.held == Some(C.Asked(c).value.doomed)
    case RunCommand(_) => c.mode.InSession? && next.held == c.held
    case _ => next.held == c.held || next.held.None?
  }

  lemma HoldMoved(c: C.Conn, s: C.Step)
    requires C.Inv(c) && C.Enabled(c, s)
    ensures HoldMoves(c, s, C.Apply(c, s))
  {
    assert C.HeldInv(c) && C.WorkInv(c);
  }

  /** Only these steps change a reference other than by releasing it. */
  predicate TakesHold(s: C.Step) { s.Join? || s.Spawn? || s.Insert? || s.Unmap? }

  lemma ArcOfSpawn(w: World, n: nat, c: C.Conn, next: C.Conn, id: string)
    requires ArcInv(w) && n in w.conns && c == w.conns[n]
    requires c.held.None? && next.held == Some(id) && id !in w.shells
    ensures ArcInv(Effect(w, n, c, C.Spawn(id)).(conns := w.conns[n := next]))
  {
    var after := Effect(w, n, c, C.Spawn(id)).(conns := w.conns[n := next]);
    forall m ensures Handler(m) in after.shells[id].holders <==> Holds(after, m, id) {
      assert m != n && Holds(w, m, id) ==> id in w.shells;
    }
    ArcMoves(w, after, n, id);
  }

  lemma ArcOfSharing(w: World, n: nat, c: C.Conn, step: C.Step, next: C.Conn, id: string)
    requires ArcInv(w) && n in w.conns && c == w.conns[n] && Grants(w, c, step)
    requires (step.Join? || step.Insert? || step.Unmap?) && HoldMoves(c, step, next) && next.held == Some(id)
    requires step.Insert? ==> id !in w.mapped
    ensures ArcInv(Effect(w, n, c, step).(conns := w.conns[n := next]))
  {
    var after := Effect(w, n, c, step).(conns := w.conns[n := next]);
    assert id in w.shells;
    SharedCount(w, after, n, c, step, next, id);
    ArcMoves(w, after, n, id);
  }

  lemma SharedCount(w: World, after: World, n: nat, c: C.Conn, step: C.Step, next: C.Conn, id: string)
    requires n in w.conns && c == w.conns[n] && id in w.shells && ShellOk(w, id) && Grants(w, c, step)
    requires (step.Join? || step.Insert? || step.Unmap?) && HoldMoves(c, step, next) && next.held == Some(id)
    requires step.Insert? ==> id !in w.mapped
    requires after == Effect(w, n, c, step).(conns := w.conns[n := next])
    ensures id in after.shells && ShellOk(after, id)
  {
    assert Handler(n) in w.shells[id].holders <==> Holds(w, n, id);
    SharedHolders(w, after, n, c, step, next, id);
  }

  lemma SharedHolders(w: World, after: World, n: nat, c: C.Conn, step: C.Step, next: C.Conn, id: string)
    requires n in w.conns && c == w.conns[n] && id in w.shells
    requires (step.Join? || step.Insert? || step.Unmap?) && HoldMoves(c, step, next) && next.held == Some(id)
    requires after == Effect(w, n, c, step).(conns := w.conns[n := next])
    requires forall m :: Handler(m) in w.shells[id].holders <==> Holds(w, m, id)
    ensures id in after.shells && forall m :: Handler(m) in after.shells[id].holders <==> Holds(after, m, id)
  {
    forall m ensures Handler(m) in after.shells[id].holders <==> Holds(after, m, id) {
      assert Handler(m) in w.shells[id].holders <==> Holds(w, m, id);
    }
  }

  lemma QuietShells(w: World, n: nat, c: C.Conn, step: C.Step)
    requires !TakesHold(step)
    requires c.mode.InSession? ==> c.mode.id in w.shells
    ensures var e := Effect(w, n, c, step);
            e.shells.Keys == w.shells.Keys && e.mapped == w.mapped && w.used <= e.used
            && forall id :: id in w.shells ==> e.shells[id].(log := []) == w.shells[id].(log := [])
  {
  }

  lemma ArcOfRelease(w: World, n: nat, c: C.Conn, next: C.Conn)
    requires ArcInv(w) && n in w.conns && c.held == w.conns[n].held && c.held.Some? && next.held.None?
    ensures ArcInv(Release(w, n, c, next).(conns := w.conns[n := next]))
  {
    var after := Release(w, n, c, next).(conns := w.conns[n := next]);
    var id := c.held.value;
    assert ShellOk(w, id);
    assert Handler(n) in w.shells[id].holders <==> Holds(w, n, id);
    forall m ensures Handler(m) in after.shells[id].holders <==> Holds(after, m, id) {
      assert Handler(m) in w.shells[id].holders <==> Holds(w, m, id);
    }
    ArcMoves(w, after, n, id);
  }

  /** A step that takes no hold, from a world that differs at most in its ledger and logs. */
  lemma ArcOfQuiet(w: World, v: World, n: nat, c: C.Conn, next: C.Conn)
    requires ArcInv(w) && n in w.conns && c == w.conns[n]
    requires v.conns == w.conns && v.mapped == w.mapped && w.used <= v.used && v.shells.Keys == w.shells.Keys
    requires forall id :: id in w.shells ==> v.shells[id].(log := []) == w.shells[id].(log := [])
    requires next.held == c.held || next.held.None?
    ensures ArcInv(Release(v, n, c, next).(conns := w.conns[n := next]))
  {
    QuietStepKeepsArcs(w, v, n);
    if c.held.Some? && next.held.None? {
      ArcOfRelease(v, n, c, next);
    } else {
      QuietStepKeepsArcs(v, Release(v, n, c, next).(conns := w.conns[n := next]), n);
    }
  }

  lemma ArcKeptByAct(w: World, n: nat, c: C.Conn, step: C.Step, next: C.Conn)
    requires LedgerInv(w) && ArcInv(w) && UnspawnedInv(w)
    requires n in w.conns && c == w.conns[n] && Grants(w, c, step)
    requires HoldMoves(c, step, next) && ClaimsMove(c, step, next)
    requires c.mode.InSession? ==> c.mode.id in w.shells
    ensures ArcInv(Release(Effect(w, n, c, step), n, c, next).(conns := w.conns[n := next]))
  {
    assert WorkOwned(w, n);
    if step.Spawn? {
      ArcOfSpawn(w, n, c, next, step.id);
    } else if TakesHold(step) {
      if step.Insert? {
        assert OwnerOk(w, c.work.id);
      }
      ArcOfSharing(w, n, c, step, next, next.held.value);
    } else {
      QuietShells(w, n, c, step);
      ArcOfQuiet(w, Effect(w, n, c, step), n, c, next);
    }
  }

  // ---------------------------------------------------------------- logs

  /** The world after a connection's step, before its conversation is reread. */
  function Settled(w: World, n: nat, c: C.Conn, step: C.Step, next: C.Conn): World {
    Release(Effect(w, n, c, step), n, c, next).(conns := w.conns[n := next])
  }

  function LogAfter(w: World, n: nat, c: C.Conn, step: C.Step, id: string): seq<Executed> {
    if id !in w.shells then []
    else if step.RunCommand? && c.mode == C.InSession(id) && C.Asked(c).Some? && C.Asked(c).value.Run?
    then w.shells[id].log + [Executed(n, C.Asked(c).value.command)]
    else w.shells[id].log
  }

  lemma EffectShells(w: World, n: nat, c: C.Conn, step: C.Step)
    requires step.Join? ==> step.id in w.shells
    requires step.Insert? ==> c.work.ShellMade? && c.work.id in w.shells
    requires step.Unmap? ==> C.Asked(c).Some? && C.Asked(c).value.DeleteSession? && C.Asked(c).value.doomed in w.shells
    requires c.mode.InSession? ==> c.mode.id in w.shells
    requires step.Spawn? ==> step.id !in w.shells
    ensures var e := Effect(w, n, c, step);
            e.shells.Keys == w.shells.Keys + (if step.Spawn? then {step.id} else {})
            && forall id :: id in e.shells ==> e.shells[id].log == LogAfter(w, n, c, step, id)
  {
    match step
    case Join(_) =>
    case Spawn(_) =>
    case Insert =>
    case Unmap =>
    case RunCommand(_) =>
    case _ =>
  }

  lemma ReleaseKeepsLogs(w: World, n: nat, c: C.Conn, next: C.Conn)
    requires c.held.Some? && next.held.None? ==> c.held.value in w.shells
    ensures var r := Release(w, n, c, next);
            r.shells.Keys == w.shells.Keys && forall id :: id in w.shells ==> r.shells[id].log == w.shells[id].log
  {
  }

  lemma ShellsAfter(w: World, n: nat, c: C.Conn, step: C.Step, next: C.Conn)
    requires ArcInv(w) && n in w.conns && c == w.conns[n]
    requires HoldMoves(c, step, next) && Grants(w, c, step)
    requires c.mode.InSession? ==> c.mode.id in w.shells
    requires step.Spawn? ==> step.id !in w.shells
    ensures var after := Settled(w, n, c, step, next);
            after.conns == w.conns[n := next]
            && after.shells.Keys == w.shells.Keys + (if step.Spawn? then {step.id} else {})
            && forall id :: id in after.shells ==> after.shells[id].log == LogAfter(w, n, c, step, id)
  {
    EffectShells(w, n, c, step);
    ReleaseKeepsLogs(Effect(w, n, c, step), n, c, next);
  }

  lemma UnspawnedKept(w: World, after: World, n: nat, c: C.Conn, step: C.Step, next: C.Conn)
    requires LedgerInv(w) && UnspawnedInv(w) && w.shells.Keys <= w.used
    requires n in w.conns && c == w.conns[n] && Grants(w, c, step) && ClaimsMove(c, step, next)
    requires after.conns == w.conns[n := next]
    requires after.shells.Keys == w.shells.Keys + (if step.Spawn? then {step.id} else {})
    ensures UnspawnedInv(after)
  {
    assert WorkOwned(w, n);
    forall m | m in after.conns && Claim(after.conns[m]).LookupMade?
      ensures Claim(after.conns[m]).id !in after.shells
    {
      if m != n {
        assert WorkOwned(w, m);
      }
    }
  }

  predicate ModeMoves(c: C.Conn, s: C.Step, next: C.Conn) {
    match s
    case Join(id) => c.mode.PreOpen? && next.mode == C.InSession(id) && next.ran == c.ran
    case Spawn(id) =>
      c.mode.PreOpen? && next.mode == (if c.work.LookupMade? then C.PreOpen else C.InSession(id)) && next.ran == c.ran
    case Insert => c.mode.PreOpen? && c.work.ShellMade? && next.mode == C.InSession(c.work.id) && next.ran == c.ran
    case RunCommand(_) =>
      c.mode.InSession? && next.mode == c.mode && C.Asked(c).Some? && C.Asked(c).value.Run?
      && next.ran == c.ran + [C.Asked(c).value.command]
    case _ => next.mode == c.mode && next.ran == c.ran
  }

  lemma ModeMoved(c: C.Conn, s: C.Step)
    requires C.Inv(c) && C.Enabled(c, s)
    ensures ModeMoves(c, s, C.Apply(c, s))
  {
    assert C.WorkInv(c);
  }

  lemma PartAppend(log: seq<Executed>, e: Executed, n: nat)
    ensures Part(log + [e], n) == Part(log, n) + if e.conn == n then [e.command] else []
  {
    assert (log + [e])[..|log|] == log;
  }

  lemma LogKeptByAct(w: World, after: World, n: nat, c: C.Conn, step: C.Step, next: C.Conn)
    requires LogInv(w) && n in w.conns && c == w.conns[n] && ModeMoves(c, step, next)
    requires step.Join? ==> step.id in w.shells
    requires step.Insert? ==> c.work.ShellMade? && c.work.id in w.shells
    requires step.Spawn? ==> step.id !in w.shells
    requires after.conns == w.conns[n := next]
    requires after.shells.Keys == w.shells.Keys + (if step.Spawn? then {step.id} else {})
    requires forall id :: id in after.shells ==> after.shells[id].log == LogAfter(w, n, c, step, id)
    ensures LogInv(after)
  {
    forall id, m | id in after.shells
      ensures Part(after.shells[id].log, m) == RanIn(after, m, id)
    {
      if id in w.shells {
        PartKept(w, after, n, c, step, next, id, m);
      }
    }
  }

  lemma PartKept(w: World, after: World, n: nat, c: C.Conn, step: C.Step, next: C.Conn, id: string, m: nat)
    requires LogInv(w) && n in w.conns && c == w.conns[n] && ModeMoves(c, step, next)
    requires step.Spawn? ==> step.id !in w.shells
    requires after.conns == w.conns[n := next] && id in w.shells && id in after.shells
    requires after.shells[id].log == LogAfter(w, n, c, step, id)
    ensures Part(after.shells[id].log, m) == RanIn(after, m, id)
  {
    assert Part(w.shells[id].log, m) == RanIn(w, m, id);
    if step.RunCommand? && c.mode == C.InSession(id) {
      PartAppend(w.shells[id].log, Executed(n, C.Asked(c).value.command), m);
    }
  }

  // ---------------------------------------------------------------- all together

  lemma ActKeepsShells(w: World, n: nat, step: C.Step)
    requires Inv(w) && Enabled(w, Act(n, step))
    ensures var after := Apply(w, Act(n, step)); ArcInv(after) && UnspawnedInv(after) && LogInv(after)
  {
    var c := w.conns[n];
    assert C.Inv(c);
    var next := C.Apply(c, step);
    ClaimsMoved(c, step);
    HoldMoved(c, step);
    ModeMoved(c, step);
    assert Apply(w, Act(n, step)) == Settled(w, n, c, step, next);
    ActKeepsShellsFrom(w, n, c, step, next);
  }

  lemma ActKeepsShellsFrom(w: World, n: nat, c: C.Conn, step: C.Step, next: C.Conn)
    requires LedgerInv(w) && ArcInv(w) && UnspawnedInv(w) && LogInv(w)
    requires n in w.conns && c == w.conns[n] && Grants(w, c, step)
    requires ClaimsMove(c, step, next) && HoldMoves(c, step, next) && ModeMoves(c, step, next)
    ensures var after := Settled(w, n, c, step, next); ArcInv(after) && UnspawnedInv(after) && LogInv(after)
  {
    var after := Settled(w, n, c, step, next);
    ArcKeptByAct(w, n, c, step, next);
    ShellsAfter(w, n, c, step, next);
    UnspawnedKept(w, after, n, c, step, next);
    LogKeptByAct(w, after, n, c, step, next);
  }

  lemma FailureKeepsShells(w: World, s: Step)
    requires Inv(w) && Enabled(w, s) && Mishap(s)
    ensures var after := Apply(w, s); ArcInv(after) && UnspawnedInv(after) && LogInv(after)
  {
    var n, c, step := s.conn, w.conns[s.conn], Inner(s);
    assert C.Inv(c);
    var next := C.Apply(c, step);
    ClaimsMoved(c, step);
    HoldMoved(c, step);
    ModeMoved(c, step);
    var v := if s.LookupStoredThenFails?
             then w.(lookups := w.lookups + {s.id}, used := w.used + {s.id}, owners := w.owners[s.id := Leaked])
             else w.(lookups := w.lookups - {c.work.id}, owners := w.owners - {c.work.id});
    assert Apply(w, s) == Release(v, n, c, next).(conns := w.conns[n := next]);
    FailureKeepsShellsFrom(w, v, n, c, step, next);
  }

  lemma FailureKeepsShellsFrom(w: World, v: World, n: nat, c: C.Conn, step: C.Step, next: C.Conn)
    requires LedgerInv(w) && ArcInv(w) && UnspawnedInv(w) && LogInv(w)
    requires n in w.conns && c == w.conns[n] && (step.LookupFails? || step.UnlinkFails?)
    requires ClaimsMove(c, step, next) && HoldMoves(c, step, next) && ModeMoves(c, step, next)
    requires v.conns == w.conns && v.mapped == w.mapped && w.used <= v.used && v.shells == w.shells
    ensures var after := Release(v, n, c, next).(conns := w.conns[n := next]);
            ArcInv(after) && UnspawnedInv(after) && LogInv(after)
  {
    var after := Release(v, n, c, next).(conns := w.conns[n := next]);
    ArcOfQuiet(w, v, n, c, next);
    ReleaseKeepsLogs(v, n, c, next);
    UnspawnedKept(w, after, n, c, step, next);
    LogKeptByAct(w, after, n, c, step, next);
  }

  lemma EventKeepsShells(w: World, event: Event)
    requires ArcInv(w) && UnspawnedInv(w) && LogInv(w) && Enabled(w, Outside(event))
    ensures var after := Happens(w, event); ArcInv(after) && UnspawnedInv(after) && LogInv(after)
  {
    var after := Happens(w, event);
    forall id | id in after.shells ensures ShellOk(after, id) {
      assert ShellOk(w, id);
      forall n ensures Handler(n) in after.shells[id].holders <==> Holds(after, n, id) {
        assert Handler(n) in w.shells[id].holders <==> Holds(w, n, id);
      }
    }
    forall id, n | id in after.shells ensures Part(after.shells[id].log, n) == RanIn(after, n, id) {
      assert Part(w.shells[id].log, n) == RanIn(w, n, id);
    }
  }

  lemma ArrivalKeepsShells(w: World, n: nat, c: C.Conn)
    requires ArcInv(w) && UnspawnedInv(w) && LogInv(w) && n !in w.conns
    requires c.mode.PreOpen? && c.held.None? && c.ran == [] && c.work.Idle?
    ensures var after := w.(conns := w.conns[n := c]); ArcInv(after) && UnspawnedInv(after) && LogInv(after)
  {
    var after := w.(conns := w.conns[n := c]);
    QuietStepKeepsArcs(w, after, n);
    forall id, m | id in after.shells
      ensures Part(after.shells[id].log, m) == RanIn(after, m, id)
    {
      assert Part(w.shells[id].log, m) == RanIn(w, m, id);
    }
  }

  lemma StepKeepsInv(w: World, s: Step)
    requires Inv(w) && Enabled(w, s)
    ensures Inv(Apply(w, s))
  {
    ConnsKept(w, s);
    LedgerKept(w, s);
    DeletedKept(w, s);
    match s
    case Arrive(n, program, expected, signature, key) =>
      ArrivalKeepsShells(w, n, C.Start(program, expected, signature, key));
    case Act(n, step) => ActKeepsShells(w, n, step);
    case Outside(event) => EventKeepsShells(w, event);
    case _ => FailureKeepsShells(w, s);
  }

  // ---------------------------------------------------------------- runs of the host

  ghost predicate IsRun(worlds: seq<World>, steps: seq<Step>) {
    |worlds| == |steps| + 1 && worlds[0] == EmptyWorld(worlds[0].hostname)
    && forall i {:trigger steps[i]} :: 0 <= i < |steps| ==> Enabled(worlds[i], steps[i]) && worlds[i + 1] == Apply(worlds[i], steps[i])
  }

  lemma {:induction false} RunKeepsInv(worlds: seq<World>, steps: seq<Step>, n: nat)
    requires IsRun(worlds, steps) && n < |worlds|
    ensures Inv(worlds[n])
  {
    if n > 0 {
      RunKeepsInv(worlds, steps, n - 1);
      StepKeepsInv(worlds[n - 1], steps[n - 1]);
    }
  }

  /** What a step does to one connection: nothing, one step of it, or its arrival. */
  lemma ConnMoves(w: World, s: Step, m: nat)
    requires Enabled(w, s) && m in Apply(w, s).conns
    ensures var d := Apply(w, s).conns[m];
            if s.Arrive? && s.conn == m then d == C.Start(s.program, s.expected, s.signature, s.key)
            else m in w.conns
                 && if s.Arrive? || s.Outside? || s.conn != m then d == w.conns[m]
                    else C.Enabled(w.conns[m], Inner(s)) && d == C.Apply(w.conns[m], Inner(s))
  {
  }

  /** Every connection of a run of the host is one of a run of its own. */
  lemma {:induction false} ConnsReachable(worlds: seq<World>, steps: seq<Step>, n: nat, m: nat)
    requires IsRun(worlds, steps) && n < |worlds| && m in worlds[n].conns
    ensures C.Reachable(worlds[n].conns[m])
  {
    var s := steps[n - 1];
    ConnMoves(worlds[n - 1], s, m);
    if s.Arrive? && s.conn == m {
      C.StartReachable(s.program, s.expected, s.signature, s.key);
    } else {
      ConnsReachable(worlds, steps, n - 1, m);
      if !s.Arrive? && !s.Outside? && s.conn == m {
        C.ReachableNext(worlds[n - 1].conns[m], Inner(s));
      }
    }
  }

  // ---------------------------------------------------------------- the lookup ledger

  /** Some handler is between storing the lookup and inserting the session. */
  ghost predicate BeingOpened(w: World, id: string) {
    exists n :: ClaimIs(w, n, C.LookupMade(id)) || ClaimIs(w, n, C.ShellMade(id))
  }

  /** Some handler is between removing the session and deleting the lookup. */
  ghost predicate BeingDeleted(w: World, id: string) {
    exists n :: ClaimIs(w, n, C.Unmapped(id))
  }

  predicate IsLeaked(w: World, id: string) { id in w.owners && w.owners[id] == Leaked }

  /** In every interleaving of any number of handlers, a lookup of this host exists in Redis for
      exactly one of four reasons: its session is mapped, is being opened, is being deleted, or
      its lookup was leaked by a failed open or a failed deletion; and it is missing in spite of
      one of them exactly when the startup cleanup of another process has taken it. */
  lemma LookupLedger(worlds: seq<World>, steps: seq<Step>, n: nat, id: string)
    requires IsRun(worlds, steps) && n < |worlds|
    ensures var w := worlds[n];
            (id in w.lookups
             <==> (id in w.mapped || BeingOpened(w, id) || BeingDeleted(w, id) || IsLeaked(w, id)) && id !in w.stolen)
  {
    RunKeepsInv(worlds, steps, n);
    LedgerMeans(worlds[n], id);
  }

  lemma LedgerMeans(w: World, id: string)
    requires LedgerInv(w)
    ensures id in w.owners <==> id in w.mapped || BeingOpened(w, id) || BeingDeleted(w, id) || IsLeaked(w, id)
    ensures id in w.lookups <==> id in w.owners && id !in w.stolen
    ensures id in w.mapped ==> id in w.owners && w.owners[id] == Mapped
    ensures BeingOpened(w, id) ==> id in w.owners && w.owners[id].Opening?
    ensures BeingDeleted(w, id) ==> id in w.owners && w.owners[id].Deleting?
  {
    if id in w.owners {
      assert OwnerOk(w, id);
    }
    if n :| ClaimIs(w, n, C.LookupMade(id)) || ClaimIs(w, n, C.ShellMade(id)) {
      assert WorkOwned(w, n);
    }
    if n :| ClaimIs(w, n, C.Unmapped(id)) {
      assert WorkOwned(w, n);
    }
  }

  /** A lookup is taken away exactly by a cleanup that reaches this host and sees it. */
  ghost predicate TakenBy(w: World, s: Step, id: string) {
    s.Outside? && s.event.ForeignCleanup? && id in s.event.ids && id in w.lookups
  }

  ghost predicate TakenBefore(worlds: seq<World>, steps: seq<Step>, n: nat, id: string)
    requires n <= |steps| && |worlds| == |steps| + 1
  {
    exists k :: 0 <= k < n && TakenBy(worlds[k], steps[k], id)
  }

  lemma TakenNext(worlds: seq<World>, steps: seq<Step>, n: nat, id: string)
    requires 0 < n <= |steps| && |worlds| == |steps| + 1
    ensures TakenBefore(worlds, steps, n, id)
            <==> TakenBefore(worlds, steps, n - 1, id) || TakenBy(worlds[n - 1], steps[n - 1], id)
  {
  }

  lemma {:induction false} StolenExactly(worlds: seq<World>, steps: seq<Step>, n: nat, id: string)
    requires IsRun(worlds, steps) && n < |worlds|
    ensures worlds[n].hostname == worlds[0].hostname
    ensures id in worlds[n].stolen <==> TakenBefore(worlds, steps, n, id)
  {
    if n > 0 {
      StolenExactly(worlds, steps, n - 1, id);
      StolenNext(worlds, steps, n, id);
    }
  }

  lemma StolenNext(worlds: seq<World>, steps: seq<Step>, n: nat, id: string)
    requires IsRun(worlds, steps) && 0 < n < |worlds|
    requires id in worlds[n - 1].stolen <==> TakenBefore(worlds, steps, n - 1, id)
    ensures worlds[n].hostname == worlds[n - 1].hostname
    ensures id in worlds[n].stolen <==> TakenBefore(worlds, steps, n, id)
  {
    TakenNext(worlds, steps, n, id);
    TakenRunStep(worlds, steps, n - 1, id);
  }

  lemma TakenRunStep(worlds: seq<World>, steps: seq<Step>, k: nat, id: string)
    requires IsRun(worlds, steps) && k < |steps|
    ensures worlds[k + 1].hostname == worlds[k].hostname
    ensures id in worlds[k + 1].stolen <==> id in worlds[k].stolen || TakenBy(worlds[k], steps[k], id)
  {
    var s := steps[k];
    TakenStep(worlds[k], s, id);
  }

  lemma TakenStep(w: World, s: Step, id: string)
    requires Enabled(w, s)
    ensures Apply(w, s).hostname == w.hostname
    ensures id in Apply(w, s).stolen <==> id in w.stolen || TakenBy(w, s, id)
  {
    if s.Act? {
      SharedFields(w, s.conn, s.step);
    }
  }

  /** Between generated hostnames there is no such cleanup but that of a second process under the
      same hostname: without one, every mapped session has its lookup. */
  lemma NothingStolen(worlds: seq<World>, steps: seq<Step>, n: nat, id: string)
    requires IsRun(worlds, steps) && n < |worlds| && Shaped(worlds[0].hostname)
    requires forall k :: 0 <= k < n && steps[k].Outside? && steps[k].event.ForeignCleanup? ==>
               Shaped(steps[k].event.cleaner) && steps[k].event.cleaner != worlds[0].hostname
    ensures id !in worlds[n].stolen && (id in worlds[n].mapped ==> id in worlds[n].lookups)
  {
    StolenExactly(worlds, steps, n, id);
    if TakenBefore(worlds, steps, n, id) {
      var k :| 0 <= k < n && TakenBy(worlds[k], steps[k], id);
      StolenExactly(worlds, steps, k, id);
      assert Enabled(worlds[k], steps[k]);
      GeneratedDoNotReach(steps[k].event.cleaner, worlds[0].hostname);
    }
    RunKeepsInv(worlds, steps, n);
    LedgerMeans(worlds[n], id);
  }

  lemma GeneratedDoNotReach(cleaner: string, hostname: string)
    requires Shaped(cleaner) && Shaped(hostname)
    ensures Reaches(cleaner, hostname) <==> cleaner == hostname
  {
    CleanupIsOwn(cleaner, Session(hostname, ""));
    CleanupReachesSessions(cleaner, hostname, "");
  }

  /** Each id is deleted successfully at most once, and a deleted id has neither session nor
      lookup. */
  lemma DeletedOnce(worlds: seq<World>, steps: seq<Step>, n: nat)
    requires IsRun(worlds, steps) && n < |worlds|
    ensures var w := worlds[n];
            (forall i, j :: 0 <= i < j < |w.deleted| ==> w.deleted[i] != w.deleted[j])
            && (forall id :: id in w.deleted ==> id !in w.mapped && id !in w.lookups)
  {
    RunKeepsInv(worlds, steps, n);
  }

  /** An id that has been drawn and is neither mapped nor being opened stays unmapped for ever:
      once a session is out of the map no later connection obtains it. */
  ghost predicate Gone(w: World, id: string) { id in w.used && id !in w.mapped && !BeingOpened(w, id) }

  lemma GoneStays(w: World, s: Step, id: string)
    requires Inv(w) && Enabled(w, s) && Gone(w, id)
    ensures Gone(Apply(w, s), id)
  {
    if s.Arrive? || s.Outside? {
      NobodyOpens(w, Apply(w, s), id);
    } else {
      assert C.Inv(w.conns[s.conn]);
      ClaimsMoved(w.conns[s.conn], Inner(s));
      if s.Act? {
        SharedFields(w, s.conn, s.step);
        GoneUnderEffect(w, s.conn, w.conns[s.conn], s.step, id);
      } else {
        MishapFields(w, s);
      }
      GoneStaysFrom(w, Apply(w, s), s.conn, Inner(s), C.Apply(w.conns[s.conn], Inner(s)), id);
    }
  }

  lemma NobodyOpens(w: World, after: World, id: string)
    requires Gone(w, id) && after.used == w.used && after.mapped == w.mapped
    requires forall m :: m in after.conns ==> (m in w.conns && after.conns[m] == w.conns[m]) || after.conns[m].work.Idle?
    ensures Gone(after, id)
  {
    forall m ensures !ClaimIs(after, m, C.LookupMade(id)) && !ClaimIs(after, m, C.ShellMade(id)) {
      assert !ClaimIs(w, m, C.LookupMade(id)) && !ClaimIs(w, m, C.ShellMade(id));
    }
  }

  lemma GoneUnderEffect(w: World, n: nat, c: C.Conn, step: C.Step, id: string)
    requires n in w.conns && c == w.conns[n] && Gone(w, id)
    ensures var e := Effect(w, n, c, step); id in e.used && id !in e.mapped
  {
    assert !ClaimIs(w, n, C.ShellMade(id));
  }

  lemma GoneStaysFrom(w: World, after: World, n: nat, step: C.Step, next: C.Conn, id: string)
    requires Gone(w, id) && n in w.conns && ClaimsMove(w.conns[n], step, next) && Grants(w, w.conns[n], step)
    requires after.conns == w.conns[n := next] && id in after.used && id !in after.mapped
    ensures Gone(after, id)
  {
    forall m ensures !ClaimIs(after, m, C.LookupMade(id)) && !ClaimIs(after, m, C.ShellMade(id)) {
      assert !ClaimIs(w, m, C.LookupMade(id)) && !ClaimIs(w, m, C.ShellMade(id));
    }
  }

  lemma {:induction false} GoneForEver(worlds: seq<World>, steps: seq<Step>, m: nat, n: nat, id: string)
    requires IsRun(worlds, steps) && m <= n < |worlds| && Gone(worlds[m], id)
    ensures Gone(worlds[n], id)
    decreases n
  {
    if m < n {
      GoneForEver(worlds, steps, m, n - 1, id);
      GoneNext(worlds, steps, n - 1, id);
    }
  }

  lemma GoneNext(worlds: seq<World>, steps: seq<Step>, i: nat, id: string)
    requires IsRun(worlds, steps) && i < |steps| && Gone(worlds[i], id)
    ensures Gone(worlds[i + 1], id)
  {
    var w, s := RunStep(worlds, steps, i);
    GoneStays(w, s, id);
  }

  /** A step that removes a session from the map makes it gone. */
  lemma UnmapMakesGone(w: World, n: nat)
    requires Inv(w) && Enabled(w, Act(n, C.Unmap))
    ensures Gone(Apply(w, Act(n, C.Unmap)), C.Asked(w.conns[n]).value.doomed)
  {
    var id := C.Asked(w.conns[n]).value.doomed;
    var after := Apply(w, Act(n, C.Unmap));
    StepKeepsInv(w, Act(n, C.Unmap));
    SharedFields(w, n, C.Unmap);
    LedgerMeans(after, id);
    assert after.owners[id] == Deleting(n);
  }

  /** A lookup is leaked by exactly three failures: the shell of a persistent session does not
      start, the lookup's deletion fails, or storing it reports a failure after it took effect. */
  lemma LeakCauses(w: World, s: Step, id: string)
    requires Inv(w) && Enabled(w, s)
    ensures !IsLeaked(w, id) && IsLeaked(Apply(w, s), id) <==>
              (s.LookupStoredThenFails? && s.id == id)
              || (s.Act? && s.step.SpawnFails? && w.conns[s.conn].work == C.LookupMade(id))
              || (s.Act? && s.step.UnlinkFails? && w.conns[s.conn].work == C.Unmapped(id))
  {
    if s.Act? {
      LeakOfAct(w, s.conn, s.step, id);
    } else if Mishap(s) {
      LeakOfMishap(w, s, id);
    }
  }

  lemma LeakOfMishap(w: World, s: Step, id: string)
    requires LedgerInv(w) && Enabled(w, s) && Mishap(s)
    ensures !IsLeaked(w, id) && IsLeaked(Apply(w, s), id) <==> s.LookupStoredThenFails? && s.id == id
  {
    assert WorkOwned(w, s.conn);
    MishapFields(w, s);
  }

  lemma LeakOfAct(w: World, n: nat, step: C.Step, id: string)
    requires Inv(w) && Enabled(w, Act(n, step))
    ensures !IsLeaked(w, id) && IsLeaked(Apply(w, Act(n, step)), id) <==>
              (step.SpawnFails? && w.conns[n].work == C.LookupMade(id)) || (step.UnlinkFails? && w.conns[n].work == C.Unmapped(id))
  {
    assert WorkOwned(w, n);
    SharedFields(w, n, step);
    LeakOfEffect(w, n, w.conns[n], step, id);
  }

  lemma LeakOfEffect(w: World, n: nat, c: C.Conn, step: C.Step, id: string)
    requires LedgerInv(w) && n in w.conns && c == w.conns[n] && Grants(w, c, step) && WorkOwned(w, n)
    requires step.Insert? ==> c.work.ShellMade?
    requires step.Unlink? ==> c.work.Unmapped?
    ensures !IsLeaked(w, id) && IsLeaked(Effect(w, n, c, step), id) <==>
              (step.SpawnFails? && c.work == C.LookupMade(id)) || (step.UnlinkFails? && c.work == C.Unmapped(id))
    ensures IsLeaked(w, id) ==> IsLeaked(Effect(w, n, c, step), id)
  {
    if step.Unmap? && C.Asked(c).Some? && C.Asked(c).value.DeleteSession? {
      assert OwnerOk(w, C.Asked(c).value.doomed);
    }
  }

  // ---------------------------------------------------------------- shell lifetime

  /** What holds a shell: the map, or a live handler. */
  ghost predicate Referenced(w: World, id: string) { id in w.mapped || exists m :: Holds(w, m, id) }

  /** The shell's process has ended by itself. */
  ghost predicate ExitedBefore(steps: seq<Step>, n: nat, id: string)
    requires n <= |steps|
  {
    exists k :: 0 <= k < n && steps[k] == Outside(ShellExits(id))
  }

  /** In every interleaving a living shell is mapped or held by a live handler; one that nothing
      references has been killed; and one that is referenced is dead exactly when its process has
      ended by itself. So a deleted session's shell lives on under other connections and dies
      with the last of them. */
  lemma ShellLifetime(worlds: seq<World>, steps: seq<Step>, n: nat, id: string)
    requires IsRun(worlds, steps) && n < |worlds| && id in worlds[n].shells
    ensures var w := worlds[n];
            (w.shells[id].alive ==> Referenced(w, id))
            && (Referenced(w, id) ==> (!w.shells[id].alive <==> ExitedBefore(steps, n, id)))
            && forall m :: Holds(w, m, id) ==> w.conns[m].link.host.alive && !w.conns[m].over
  {
    RunKeepsInv(worlds, steps, n);
    var w := worlds[n];
    ReferencesMean(w, id);
    ExitedExactly(worlds, steps, n, id);
    forall m | Holds(w, m, id)
      ensures w.conns[m].link.host.alive && !w.conns[m].over
    {
      assert C.HeldInv(w.conns[m]);
    }
  }

  lemma ExitedNext(steps: seq<Step>, n: nat, id: string)
    requires 0 < n <= |steps|
    ensures ExitedBefore(steps, n, id) <==> ExitedBefore(steps, n - 1, id) || steps[n - 1] == Outside(ShellExits(id))
  {
  }

  lemma {:induction false} ExitedExactly(worlds: seq<World>, steps: seq<Step>, n: nat, id: string)
    requires IsRun(worlds, steps) && n < |worlds|
    ensures id in worlds[n].shells ==> (worlds[n].shells[id].exited <==> ExitedBefore(steps, n, id))
    ensures id !in worlds[n].shells ==> !ExitedBefore(steps, n, id)
  {
    if n > 0 {
      ExitedExactly(worlds, steps, n - 1, id);
      ExitedNext(steps, n, id);
      ExitedRunStep(worlds, steps, n - 1, id);
    }
  }

  predicate ExitMoves(w: World, after: World, s: Step, id: string) {
    (id in w.shells ==>
       id in after.shells && (after.shells[id].exited <==> w.shells[id].exited || s == Outside(ShellExits(id))))
    && (id !in w.shells ==>
          s != Outside(ShellExits(id)) && (id in after.shells ==> !after.shells[id].exited))
  }

  lemma ExitedRunStep(worlds: seq<World>, steps: seq<Step>, k: nat, id: string)
    requires IsRun(worlds, steps) && k < |steps|
    ensures ExitMoves(worlds[k], worlds[k + 1], steps[k], id)
  {
    var w, s := RunStep(worlds, steps, k);
    ExitedStep(w, s, id);
  }

  lemma ExitedStep(w: World, s: Step, id: string)
    requires Inv(w) && Enabled(w, s)
    ensures ExitMoves(w, Apply(w, s), s, id)
  {
    match s
    case Act(n, step) => ExitedAct(w, n, step, id);
    case Outside(event) => ExitedEvent(w, event, id);
    case Arrive(_, _, _, _, _) =>
    case _ => ExitedMishap(w, s, id);
  }

  lemma ExitedEvent(w: World, event: Event, id: string)
    requires Enabled(w, Outside(event))
    ensures ExitMoves(w, Happens(w, event), Outside(event), id)
  {
  }

  lemma ExitedMishap(w: World, s: Step, id: string)
    requires ArcInv(w) && Enabled(w, s) && Mishap(s)
    ensures ExitMoves(w, Apply(w, s), s, id)
  {
  }

  lemma ExitedAct(w: World, n: nat, step: C.Step, id: string)
    requires Inv(w) && Enabled(w, Act(n, step))
    ensures ExitMoves(w, Apply(w, Act(n, step)), Act(n, step), id)
  {
    var c := w.conns[n];
    assert C.Inv(c);
    HoldMoved(c, step);
    ShellsOnlyGrow(w, Act(n, step));
    ExitedUnderAct(w, n, c, step, C.Apply(c, step), id);
  }

  ghost predicate SameExits(w: World, after: World, id: string) {
    (id in w.shells && id in after.shells ==> after.shells[id].exited == w.shells[id].exited)
    && (id !in w.shells && id in after.shells ==> !after.shells[id].exited)
  }

  lemma ExitedUnderAct(w: World, n: nat, c: C.Conn, step: C.Step, next: C.Conn, id: string)
    requires ArcInv(w) && n in w.conns && c == w.conns[n] && Grants(w, c, step)
    requires HoldMoves(c, step, next) && (c.mode.InSession? ==> c.mode.id in w.shells) && UnspawnedInv(w)
    ensures SameExits(w, Settled(w, n, c, step, next), id)
  {
    EffectExits(w, n, c, step, id);
    ReleaseExits(Effect(w, n, c, step), n, c, next, id);
    if id in w.shells {
      ShellsStay(w, n, c, step, id);
    }
  }

  lemma EffectExits(w: World, n: nat, c: C.Conn, step: C.Step, id: string)
    requires step.Spawn? ==> step.id !in w.shells
    ensures SameExits(w, Effect(w, n, c, step), id)
  {
  }

  lemma ShellsStay(w: World, n: nat, c: C.Conn, step: C.Step, id: string)
    requires id in w.shells
    ensures id in Effect(w, n, c, step).shells
  {
  }

  lemma ReleaseExits(w: World, n: nat, c: C.Conn, next: C.Conn, id: string)
    ensures SameExits(w, Release(w, n, c, next), id)
  {
  }

  lemma HandlersCount(ms: set<nat>)
    ensures |set m | m in ms :: Handler(m)| == |ms|
  {
    if m :| m in ms {
      var rest := ms - {m};
      HandlersCount(rest);
      assert (set k | k in ms :: Handler(k)) == (set k | k in rest :: Handler(k)) + {Handler(m)};
    }
  }

  ghost function HandlersOf(w: World, id: string): set<nat> { set m | m in w.conns && Holds(w, m, id) }

  /** The reference count is the number of live handlers that hold the session, plus one for the
      map; at zero the process is dead, and above zero it lives unless it ended by itself. */
  lemma ReferencesMean(w: World, id: string)
    requires ArcInv(w) && id in w.shells
    ensures w.shells[id].refs == |HandlersOf(w, id)| + if id in w.mapped then 1 else 0
    ensures w.shells[id].refs > 0 <==> Referenced(w, id)
    ensures w.shells[id].alive <==> w.shells[id].refs > 0 && !w.shells[id].exited
  {
    assert ShellOk(w, id);
    var ms := HandlersOf(w, id);
    forall m ensures Handler(m) in w.shells[id].holders <==> m in ms {
      assert Handler(m) in w.shells[id].holders <==> Holds(w, m, id);
    }
    HoldersCount(ms, w.shells[id].holders, id in w.mapped);
    if |ms| > 0 {
      var m :| m in ms;
      assert Holds(w, m, id);
    }
    assert forall m :: Holds(w, m, id) ==> m in ms;
  }

  lemma HoldersCount(ms: set<nat>, holders: set<Holder>, mapped: bool)
    requires TheMap in holders <==> mapped
    requires forall m :: Handler(m) in holders <==> m in ms
    ensures |holders| == |ms| + if mapped then 1 else 0
  {
    var handlers := set m | m in ms :: Handler(m);
    HandlersCount(ms);
    forall h ensures h in holders <==> h in handlers || (h == TheMap && mapped) {
      assert h.Handler? ==> (h in holders <==> h.conn in ms);
    }
    if mapped {
      assert holders == handlers + {TheMap};
    } else {
      assert holders == handlers;
    }
  }

  /** A session opened without persistence belongs to its connection alone. */
  ghost predicate Private(w: World, n: nat, id: string) {
    Gone(w, id) && id in w.shells && forall m :: Holds(w, m, id) ==> m == n
  }

  lemma {:induction false} PrivateForEver(
    worlds: seq<World>, steps: seq<Step>, k: nat, i: nat, n: nat, id: string)
    requires IsRun(worlds, steps) && k < i < |worlds| && Private(worlds[k + 1], n, id)
    ensures Private(worlds[i], n, id)
    decreases i
  {
    if i > k + 1 {
      PrivateForEver(worlds, steps, k, i - 1, n, id);
      PrivateNext(worlds, steps, i - 1, n, id);
    }
  }

  lemma PrivateNext(worlds: seq<World>, steps: seq<Step>, i: nat, n: nat, id: string)
    requires IsRun(worlds, steps) && i < |steps| && Private(worlds[i], n, id)
    ensures Private(worlds[i + 1], n, id)
  {
    var w, s := RunStep(worlds, steps, i);
    GoneStays(w, s, id);
    PrivateStays(w, s, n, id);
  }

  lemma RunStep(worlds: seq<World>, steps: seq<Step>, k: nat) returns (w: World, s: Step)
    requires IsRun(worlds, steps) && k < |steps|
    ensures w == worlds[k] && s == steps[k] && Inv(w) && Enabled(w, s) && worlds[k + 1] == Apply(w, s)
  {
    RunKeepsInv(worlds, steps, k);
    w, s := worlds[k], steps[k];
  }

  /** It never enters the map, no other connection ever holds it, and its shell is dead once its
      own handler has let go of it, and before that only if it ended by itself. */
  lemma EphemeralDiesWithConnection(
    worlds: seq<World>, steps: seq<Step>, k: nat, i: nat, n: nat, id: string)
    requires IsRun(worlds, steps) && k < i < |worlds|
    requires steps[k] == Act(n, C.Spawn(id)) && n in worlds[k].conns && worlds[k].conns[n].work.Idle?
    ensures Private(worlds[i], n, id) && id !in worlds[i].mapped
    ensures worlds[i].shells[id].alive <==> Holds(worlds[i], n, id) && !ExitedBefore(steps, i, id)
  {
    var w, s := RunStep(worlds, steps, k);
    SpawnIsPrivate(w, n, id);
    PrivateForEver(worlds, steps, k, i, n, id);
    RunKeepsInv(worlds, steps, i);
    ReferencesMean(worlds[i], id);
    ExitedExactly(worlds, steps, i, id);
  }

  lemma SpawnIsPrivate(w: World, n: nat, id: string)
    requires Inv(w) && Enabled(w, Act(n, C.Spawn(id))) && w.conns[n].work.Idle?
    ensures Private(Apply(w, Act(n, C.Spawn(id))), n, id)
  {
    var s := Act(n, C.Spawn(id));
    var after := Apply(w, s);
    StepKeepsInv(w, s);
    SharedFields(w, n, C.Spawn(id));
    NobodyHoldsUnused(w, id);
    StillOneHolder(w, after, n, after.conns[n], n, id);
    LedgerMeans(after, id);
    assert after.conns[n].held == Some(id);
    assert id in after.shells;
  }

  lemma NobodyHoldsUnused(w: World, id: string)
    requires ArcInv(w) && id !in w.used
    ensures id !in w.shells && forall m :: !Holds(w, m, id)
  {
  }

  lemma PrivateStays(w: World, s: Step, n: nat, id: string)
    requires Inv(w) && Enabled(w, s) && Private(w, n, id) && Gone(Apply(w, s), id)
    ensures Private(Apply(w, s), n, id)
  {
    var after := Apply(w, s);
    ShellsOnlyGrow(w, s);
    if s.Arrive? {
      StillOneHolder(w, after, s.conn, after.conns[s.conn], n, id);
    } else if s.Outside? {
      forall m | Holds(after, m, id) ensures m == n {
        assert Holds(w, m, id);
      }
    } else {
      var c, next := w.conns[s.conn], after.conns[s.conn];
      assert C.Inv(c);
      HoldMoved(c, Inner(s));
      ClaimsMoved(c, Inner(s));
      NoNewHolder(w, s.conn, c, Inner(s), next, id);
      StillOneHolder(w, after, s.conn, next, n, id);
    }
  }

  lemma StillOneHolder(w: World, after: World, k: nat, next: C.Conn, n: nat, id: string)
    requires after.conns == w.conns[k := next] && forall m :: Holds(w, m, id) ==> m == n
    requires next.held == Some(id) ==> k == n || Holds(w, k, id)
    ensures forall m :: Holds(after, m, id) ==> m == n
  {
    forall m | Holds(after, m, id) ensures m == n {
      assert m == k || Holds(w, m, id);
    }
  }

  lemma ShellsOnlyGrow(w: World, s: Step)
    requires Enabled(w, s)
    ensures w.shells.Keys <= Apply(w, s).shells.Keys
  {
    if s.Act? {
      EffectOnlyAdds(w, s.conn, w.conns[s.conn], s.step);
    }
  }

  lemma EffectOnlyAdds(w: World, n: nat, c: C.Conn, step: C.Step)
    ensures w.shells.Keys <= Effect(w, n, c, step).shells.Keys
  {
  }

  /** Nobody takes hold of a session that is gone. */
  lemma NoNewHolder(w: World, n: nat, c: C.Conn, step: C.Step, next: C.Conn, id: string)
    requires Gone(w, id) && n in w.conns && c == w.conns[n] && Grants(w, c, step)
    requires HoldMoves(c, step, next) && ClaimsMove(c, step, next)
    ensures next.held == Some(id) ==> c.held == Some(id)
  {
    assert !ClaimIs(w, n, C.LookupMade(id));
  }

  // ---------------------------------------------------------------- shared logs

  /** A shell shared by several connections has run an order-preserving merge of what they ran:
      the part of each connection is exactly its own history, for each session's members, and
      nobody else appears. With ExecutionAgreement that history is a prefix of its Runs. */
  lemma SharedLogMerges(worlds: seq<World>, steps: seq<Step>, n: nat, id: string, m: nat)
    requires IsRun(worlds, steps) && n < |worlds| && id in worlds[n].shells
    ensures var w := worlds[n];
            Part(w.shells[id].log, m)
            == if m in w.conns && w.conns[m].mode == C.InSession(id) then w.conns[m].ran else []
    ensures var w := worlds[n];
            m in w.conns ==> var log := w.conns[m].link.log; w.conns[m].ran <= C.RunsIn(log, |log|)
  {
    RunKeepsInv(worlds, steps, n);
    var w := worlds[n];
    assert Part(w.shells[id].log, m) == RanIn(w, m, id);
    if m in w.conns {
      C.RanIsPrefix(w.conns[m]);
    }
  }
}
