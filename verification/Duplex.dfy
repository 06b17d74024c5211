/** Both directions at once: two channels over Redis, with their commands, perform the moves of
    module Conversation. Redis seen through Mailbox.View is the two boxes of its link. So the
    theorems about whole connections hold over Redis: nobody but the two ends sends to or takes
    from the two mailboxes, whose keys carry a random connection id. */
module Duplex {
  import opened Wrappers
  import opened Protocol
  import opened Keys
  import opened Redis
  import opened Mailbox
  import opened Transport
  import opened Channel
  import opened Answers
  import opened Happenings
  import L = Lockstep
  import C = Conversation

  /** A connection twice: the database, and the conversation it is a picture of. */
  datatype Line = Line(host: string, id: string, db: Db, conn: C.Conn) {
    function Up(): Box { View(db, host, ToHost, id) }

    function Down(): Box { View(db, host, ToClient, id) }

    function End(role: L.Role): L.End { L.EndOf(conn.link, role) }

    function SendSlot(role: L.Role): KeyName { Message(host, Outward(role), id) }

    function SendTokens(role: L.Role): KeyName { Ready(host, Outward(role), id) }

    function RecvSlot(role: L.Role): KeyName { Message(host, Inward(role), id) }

    function RecvTokens(role: L.Role): KeyName { Ready(host, Inward(role), id) }
  }

  function Outward(role: L.Role): Direction { if role.Client? then ToHost else ToClient }

  function Inward(role: L.Role): Direction { if role.Client? then ToClient else ToHost }

  predicate Pictured(w: Line) { w.conn.link.up == w.Up() && w.conn.link.down == w.Down() }

  ghost predicate Sound(w: Line) { Bounded(w.db) && Pictured(w) && C.Reachable(w.conn) }

  type LineHappening = Happening<C.Step>

  function After(w: Line, e: LineHappening): Line {
    w.(db := DbAfter(w.db, e),
       conn := if e.step.Some? && C.Enabled(w.conn, e.step.value) then C.Apply(w.conn, e.step.value) else w.conn)
  }

  /** The step is one of the conversation's and pictures the command. */
  predicate Legal(w: Line, e: LineHappening) {
    (e.step.Some? ==> C.Enabled(w.conn, e.step.value)) && Pictured(After(w, e))
  }

  predicate AllLegal(w: Line, events: seq<LineHappening>)
    decreases |events|
  {
    events == [] || (Legal(w, events[0]) && AllLegal(After(w, events[0]), events[1..]))
  }

  function Run(w: Line, events: seq<LineHappening>): Line
    decreases |events|
  {
    if events == [] then w else Run(After(w, events[0]), events[1..])
  }

  ghost predicate Leads(w: Line, after: Line) {
    exists events :: AllLegal(w, events) && Run(w, events) == after
  }

  lemma {:induction false} RunsCompose(w: Line, first: seq<LineHappening>, second: seq<LineHappening>)
    ensures Run(w, first + second) == Run(Run(w, first), second)
    decreases |first|
  {
    if first == [] {
      assert first + second == second;
    } else {
      assert (first + second)[1..] == first[1..] + second;
      RunsCompose(After(w, first[0]), first[1..], second);
    }
  }

  /** A legal run but for its first happening. */
  lemma LegalRest(w: Line, events: seq<LineHappening>)
    requires events != []
    ensures AllLegal(w, events) <==> Legal(w, events[0]) && AllLegal(After(w, events[0]), events[1..])
    ensures Run(w, events) == Run(After(w, events[0]), events[1..])
  {
  }

  /** One more happening in front of a legal run. */
  lemma LegalMore(w: Line, first: seq<LineHappening>, second: seq<LineHappening>)
    requires first != [] && Legal(w, first[0]) && AllLegal(After(w, first[0]), first[1..] + second)
    ensures AllLegal(w, first + second)
  {
    assert (first + second)[1..] == first[1..] + second;
    LegalRest(w, first + second);
  }

  lemma {:induction false} LegalJoin(w: Line, first: seq<LineHappening>, second: seq<LineHappening>)
    requires AllLegal(w, first) && AllLegal(Run(w, first), second)
    ensures AllLegal(w, first + second)
    decreases |first|
  {
    if first == [] {
      assert first + second == second;
    } else {
      LegalRest(w, first);
      LegalJoin(After(w, first[0]), first[1..], second);
      LegalMore(w, first, second);
    }
  }

  lemma RunsJoin(w: Line, first: seq<LineHappening>, second: seq<LineHappening>)
    requires AllLegal(w, first) && AllLegal(Run(w, first), second)
    ensures AllLegal(w, first + second) && Run(w, first + second) == Run(Run(w, first), second)
  {
    LegalJoin(w, first, second);
    RunsCompose(w, first, second);
  }

  lemma LeadsOn(w: Line, middle: Line, after: Line)
    requires Leads(w, middle) && Leads(middle, after)
    ensures Leads(w, after)
  {
    var first :| AllLegal(w, first) && Run(w, first) == middle;
    var second :| AllLegal(middle, second) && Run(middle, second) == after;
    RunsJoin(w, first, second);
  }

  lemma OneHappening(w: Line, e: LineHappening)
    requires Sound(w) && Legal(w, e)
    ensures Sound(After(w, e)) && Leads(w, After(w, e))
  {
    if e.action.Some? {
      ActionKeepsBounded(w.db, e.action.value);
    }
    if e.step.Some? {
      C.ReachableNext(w.conn, e.step.value);
    }
    OneStepLeads(w, e);
  }

  lemma OneStepLeads(w: Line, e: LineHappening)
    requires Legal(w, e)
    ensures Leads(w, After(w, e))
  {
    var events := [e];
    assert events[0] == e && events[1..] == [];
    assert AllLegal(After(w, e), events[1..]) && Run(After(w, e), events[1..]) == After(w, e);
    assert AllLegal(w, events) && Run(w, events) == After(w, e);
  }

  // ---------------------------------------------------------------- what others may do

  predicate OfRole(s: C.Step, role: L.Role) {
    match s
    case ClientMove(_) => role.Client?
    case Weather(_, _) => false
    case _ => role.Host?
  }

  predicate Idle(role: L.Role, events: seq<LineHappening>) {
    forall e :: e in events && e.step.Some? ==> !OfRole(e.step.value, role)
  }

  predicate OthersDo(w: Line, role: L.Role, events: seq<LineHappening>, actions: seq<Action>) {
    AllLegal(w, events) && Idle(role, events) && Commands(events) == actions
  }

  /** Whatever a command does to the two mailboxes, as fading. */
  function Fades(w: Line, a: Action): LineHappening {
    var db := Redis.Apply(w.db, a);
    Happening(Some(a), Some(C.Weather(View(db, w.host, ToHost, w.id), View(db, w.host, ToClient, w.id))))
  }

  /** Any command of anybody, time and other hosts' cleanups included, is such an event, unless it
      sends to or takes from these two mailboxes. */
  lemma OthersAreLegal(w: Line, a: Action)
    requires Sound(w)
    requires a.Send? || a.TakeReady? || a.Ack? ==> a.host != w.host || a.id != w.id
    ensures Legal(w, Fades(w, a))
  {
    RedisRefinesBox(w.db, a, w.host, ToHost, w.id);
    RedisRefinesBox(w.db, a, w.host, ToClient, w.id);
  }

  /** So is what the handler does with a request in hand, with its commands on lookups. */
  lemma ServingIsLegal(w: Line, s: C.Step, a: Option<Action>)
    requires Sound(w) && C.Enabled(w.conn, s) && !s.ClientMove? && !s.HostMove? && !s.Weather?
    requires a.Some? ==> a.value.SetLookup? || a.value.DeleteLookup?
    ensures Legal(w, Happening(a, Some(s)))
  {
    if a.Some? {
      RedisRefinesBox(w.db, a.value, w.host, ToHost, w.id);
      RedisRefinesBox(w.db, a.value, w.host, ToClient, w.id);
    }
    BoxesOfServing(w.conn, s);
  }

  lemma BoxesOfServing(c: C.Conn, s: C.Step)
    requires C.Enabled(c, s) && !s.ClientMove? && !s.HostMove? && !s.Weather?
    ensures C.Apply(c, s).link.up == c.link.up && C.Apply(c, s).link.down == c.link.down
  {
  }

  /** What only the end itself changes. */
  predicate SameEnd(role: L.Role, c: C.Conn, d: C.Conn) {
    d.program == c.program && d.expected == c.expected && d.signature == c.signature && d.link.key == c.link.key
    && c.link.log <= d.link.log && L.EndOf(d.link, role) == L.EndOf(c.link, role)
    && (role.Host? ==> d.work == c.work && d.over == c.over && d.mode == c.mode)
  }

  lemma OthersSpare(c: C.Conn, s: C.Step, role: L.Role)
    requires C.Reachable(c) && C.Enabled(c, s) && !OfRole(s, role)
    ensures SameEnd(role, c, C.Apply(c, s))
  {
    C.ReachableInv(c);
    C.LogGrows(c, s);
  }

  lemma {:induction false} OthersKeepSound(w: Line, events: seq<LineHappening>)
    requires Sound(w) && AllLegal(w, events)
    ensures Sound(Run(w, events)) && Run(w, events).db == ApplyAll(w.db, Commands(events))
    ensures Run(w, events).host == w.host && Run(w, events).id == w.id
    decreases |events|
  {
    if events != [] {
      OneHappening(w, events[0]);
      OthersKeepSound(After(w, events[0]), events[1..]);
      CommandFirst(w.db, events);
    }
  }

  lemma {:induction false} IdleEndStays(w: Line, role: L.Role, events: seq<LineHappening>)
    requires Sound(w) && AllLegal(w, events) && Idle(role, events)
    ensures SameEnd(role, w.conn, Run(w, events).conn)
    decreases |events|
  {
    if events != [] {
      var e := events[0];
      assert e in events;
      OneHappening(w, e);
      if e.step.Some? {
        OthersSpare(w.conn, e.step.value, role);
      }
      IdleEndStays(After(w, e), role, events[1..]);
    }
  }

  /** Where others have brought the line. */
  ghost function Others(w: Line, role: L.Role, events: seq<LineHappening>): (after: Line)
    requires Sound(w) && AllLegal(w, events) && Idle(role, events)
    ensures Sound(after) && Leads(w, after) && after.db == ApplyAll(w.db, Commands(events))
    ensures after.host == w.host && after.id == w.id && SameEnd(role, w.conn, after.conn)
  {
    OthersKeepSound(w, events);
    IdleEndStays(w, role, events);
    Run(w, events)
  }

  // ---------------------------------------------------------------- moves of an end

  predicate OtherSame(w: Line, a: Action, role: L.Role) {
    View(Redis.Apply(w.db, a), w.host, Outward(role), w.id) == View(w.db, w.host, Outward(role), w.id)
  }

  /** Taking a token touches the mailbox that the end receives from, and so does acknowledging. */
  lemma InwardViews(w: Line, role: L.Role, frame: Frame)
    requires Bounded(w.db)
    ensures var take, ack := TakeReady(w.host, Inward(role), w.id), Ack(w.host, Inward(role), w.id, frame);
            var box := View(w.db, w.host, Inward(role), w.id);
            View(Redis.Apply(w.db, take), w.host, Inward(role), w.id) == TakeToken(box) && OtherSame(w, take, role)
            && View(Redis.Apply(w.db, ack), w.host, Inward(role), w.id) == Clear(box, frame) && OtherSame(w, ack, role)
  {
    var take, ack := TakeReady(w.host, Inward(role), w.id), Ack(w.host, Inward(role), w.id, frame);
    RedisRefinesBox(w.db, take, w.host, Inward(role), w.id);
    RedisRefinesBox(w.db, take, w.host, Outward(role), w.id);
    RedisRefinesBox(w.db, ack, w.host, Inward(role), w.id);
    RedisRefinesBox(w.db, ack, w.host, Outward(role), w.id);
  }

  function Own(role: L.Role, m: L.Move): C.Step { if role.Client? then C.ClientMove(m) else C.HostMove(m) }

  /** It is the end's turn to send, and this is what it has to say. */
  predicate MaySay(c: C.Conn, role: L.Role, plain: Plain) {
    var e := L.EndOf(c.link, role);
    e.alive && e.io.Ready? && L.Sends(role, e.pos) && if role.Client? then ClientSays(c, plain) else HostSays(c, plain)
  }

  predicate ClientSays(c: C.Conn, plain: Plain) {
    var i := c.link.client.pos;
    i >= C.FIRST_REQUEST ==> C.ClientChoice(c, i).Ask? && plain == Request(C.ClientChoice(c, i).request)
  }

  predicate HostSays(c: C.Conn, plain: Plain) {
    var i := c.link.host.pos;
    !c.over && (i == 3 ==> plain == Reply(Hello(c.signature)))
    && (i > 3 ==> c.work.Answer? && c.work.reply.Some? && plain == Reply(c.work.reply.value))
  }

  /** It is the end's turn to receive, and it does. */
  predicate MayHear(c: C.Conn, role: L.Role) {
    var e := L.EndOf(c.link, role);
    e.alive && e.io.Ready? && !L.Sends(role, e.pos) && if role.Client? then !SaidGoodbye(c) else !c.over
  }

  /** A client that has said Disconnect expects no reply. */
  predicate SaidGoodbye(c: C.Conn) {
    var i := c.link.client.pos;
    i > C.FIRST_REQUEST && C.RequestAt(c.link.log, i - 1) == Some(Disconnect)
  }

  lemma HearingMeansPop(c: C.Conn, role: L.Role)
    requires MayHear(c, role)
    ensures (if role.Client? then c.link.down else c.link.up).tokens > 0 ==> C.Enabled(c, Own(role, L.Pop(role)))
  {
    C.FirstTurns();
  }

  /** The end has a frame in hand that it may acknowledge. */
  predicate MayAccept(c: C.Conn, role: L.Role) {
    var e := L.EndOf(c.link, role);
    e.alive && e.io.Holding? && (role.Host? ==> !c.over && (e.pos >= C.FIRST_REQUEST ==> c.work.Answer?))
  }

  lemma TurnInLog(c: C.Conn, role: L.Role)
    requires C.Reachable(c) && L.EndOf(c.link, role).io.Ready?
    ensures L.EndOf(c.link, role).pos <= |c.link.log|
    ensures L.Sends(role, L.EndOf(c.link, role).pos) ==> L.BoxOf(c.link, L.EndOf(c.link, role).pos).slot.None?
  {
    C.ReachableInv(c);
    assert L.TurnInv(c.link, role);
  }

  lemma MaySayStays(c: C.Conn, d: C.Conn, role: L.Role, plain: Plain)
    requires C.Reachable(c) && C.Reachable(d) && SameEnd(role, c, d) && MaySay(c, role, plain)
    ensures MaySay(d, role, plain)
  {
    TurnInLog(c, role);
    TurnInLog(d, role);
    C.HeardStays(c.link.log, d.link.log, L.EndOf(c.link, role).pos);
  }

  lemma MayHearStays(c: C.Conn, d: C.Conn, role: L.Role)
    requires C.Reachable(c) && SameEnd(role, c, d) && MayHear(c, role)
    ensures MayHear(d, role)
  {
    TurnInLog(c, role);
    HearingStays(c, d, role);
  }

  lemma HearingStays(c: C.Conn, d: C.Conn, role: L.Role)
    requires SameEnd(role, c, d) && MayHear(c, role) && L.EndOf(c.link, role).pos <= |c.link.log|
    ensures MayHear(d, role)
  {
  }

  lemma MayAcceptStays(c: C.Conn, d: C.Conn, role: L.Role)
    requires SameEnd(role, c, d) && MayAccept(c, role)
    ensures MayAccept(d, role)
  {
  }

  /** The end can give up. */
  predicate MayStop(c: C.Conn, role: L.Role) {
    L.EndOf(c.link, role).alive && (role.Host? ==> !c.over && (c.work.Idle? || c.work.Answer?))
  }

  /** These are the conversation's own conditions. */
  lemma MayMeansEnabled(c: C.Conn, role: L.Role, plain: Plain)
    requires C.Reachable(c)
    ensures MaySay(c, role, plain) ==> C.Enabled(c, Own(role, L.Place(role, plain)))
    ensures MayAccept(c, role) ==> C.Enabled(c, Own(role, L.Ack(role)))
    ensures MayStop(c, role) ==> C.Enabled(c, Own(role, L.Stop(role)))
  {
    if L.EndOf(c.link, role).io.Ready? {
      TurnInLog(c, role);
    }
  }

  function Stops(role: L.Role): LineHappening { Happening(None, Some(Own(role, L.Stop(role)))) }

  predicate Alive(w: Line, role: L.Role) { w.End(role).alive }

  predicate SamePlace(w: Line, after: Line) {
    after.host == w.host && after.id == w.id && after.conn.link.key == w.conn.link.key
  }

  /** Given up: nothing else has changed. */
  ghost function Stopped(w: Line, role: L.Role): (after: Line)
    requires Sound(w) && MayStop(w.conn, role)
    ensures Sound(after) && Leads(w, after) && after.db == w.db && SamePlace(w, after) && !Alive(after, role)
    ensures after.conn.link.log == w.conn.link.log
  {
    MayMeansEnabled(w.conn, role, Request(Ping));
    OneHappening(w, Stops(role));
    After(w, Stops(role))
  }

  lemma MaySayMayStop(c: C.Conn, role: L.Role, plain: Plain)
    requires C.Reachable(c) && MaySay(c, role, plain)
    ensures MayStop(c, role)
  {
    C.ReachableInv(c);
    assert C.WorkInv(c);
  }

  lemma MayHearMayStop(c: C.Conn, role: L.Role)
    requires C.Reachable(c) && MayHear(c, role)
    ensures MayStop(c, role)
  {
    C.ReachableInv(c);
    assert C.WorkInv(c);
  }

  // ---------------------------------------------------------------- sending

  function FrameOf(w: Line, role: L.Role, plain: Plain): Frame { L.WireFrame(w.conn.link, w.End(role), plain) }

  function Places(w: Line, role: L.Role, plain: Plain): LineHappening {
    Happening(Some(Send(w.host, Outward(role), w.id, FrameOf(w, role, plain))), Some(Own(role, L.Place(role, plain))))
  }

  /** The slot is free: the script stores the frame at once. */
  lemma SlotIsFree(w: Line, role: L.Role)
    requires Sound(w) && w.End(role).io.Ready? && L.Sends(role, w.End(role).pos)
    ensures w.SendSlot(role) !in w.db.data && !NotAList(w.db, w.SendTokens(role))
  {
    C.ReachableInv(w.conn);
    assert L.TurnInv(w.conn.link, role);
    assert w.SendSlot(role) in w.db.data ==> Typed(w.db, w.SendSlot(role));
    assert w.SendTokens(role) in w.db.data ==> Typed(w.db, w.SendTokens(role));
  }

  lemma PlaceIsLegal(w: Line, role: L.Role, plain: Plain)
    requires Sound(w) && MaySay(w.conn, role, plain)
    ensures C.Enabled(w.conn, Own(role, L.Place(role, plain))) && Legal(w, Places(w, role, plain))
  {
    MayMeansEnabled(w.conn, role, plain);
    var a := Places(w, role, plain).action.value;
    RedisRefinesBox(w.db, a, w.host, ToHost, w.id);
    RedisRefinesBox(w.db, a, w.host, ToClient, w.id);
  }

  predicate Logged(w: Line, i: nat, frame: Frame) { i < |w.conn.link.log| && w.conn.link.log[i] == frame }

  /** The frame is placed, its counter has yet to move. */
  ghost function Placed(w: Line, role: L.Role, plain: Plain): (after: Line)
    requires Sound(w) && MaySay(w.conn, role, plain)
    ensures Sound(after) && Leads(w, after) && SamePlace(w, after)
    ensures (after.db, true) == SendScript(w.db, w.SendSlot(role), w.SendTokens(role), FrameOf(w, role, plain))
    ensures after.End(role) == w.End(role).(io := L.Placed)
    ensures Logged(after, w.End(role).pos, FrameOf(w, role, plain))
    ensures MayStop(after.conn, role)
  {
    SlotIsFree(w, role);
    PlaceIsLegal(w, role, plain);
    OneHappening(w, Places(w, role, plain));
    PlaceMoves(w.conn, role, plain);
    PlacedMayStop(w.conn, role, plain);
    After(w, Places(w, role, plain))
  }

  lemma PlaceMoves(c: C.Conn, role: L.Role, plain: Plain)
    requires C.Reachable(c) && C.Enabled(c, Own(role, L.Place(role, plain)))
    ensures var e, d := L.EndOf(c.link, role), C.Apply(c, Own(role, L.Place(role, plain)));
            d.link.key == c.link.key && L.EndOf(d.link, role) == e.(io := L.Placed)
            && e.pos < |d.link.log| && d.link.log[e.pos] == L.WireFrame(c.link, e, plain)
  {
    C.ReachableInv(c);
    C.LogGrows(c, Own(role, L.Place(role, plain)));
  }

  /** A slot that is free at the first attempt decides the loop. */
  lemma FirstTryDecides(db: Db, key: KeyName, ready: KeyName, frame: Frame, deadline: nat, world: World)
    requires var seen := ApplyAll(db, world(0).before); key !in seen.data && !NotAList(seen, ready) && key != ready
    ensures var seen := ApplyAll(db, world(0).before);
            SendLoop(db, key, ready, frame, deadline, world, 0)
            == (if world(0).fault.LostBefore? then seen else SendScript(seen, key, ready, frame).0,
                if world(0).fault.NoFault? then Stored else Failed(ConnectionLost))
  {
  }

  lemma PlacedMayStop(c: C.Conn, role: L.Role, plain: Plain)
    requires C.Reachable(c) && MaySay(c, role, plain) && C.Enabled(c, Own(role, L.Place(role, plain)))
    ensures MayStop(C.Apply(c, Own(role, L.Place(role, plain))), role)
  {
    C.ReachableInv(c);
    assert C.WorkInv(c);
  }

  /** The frame is the next of the conversation and its counter has yet to move, or the end has
      stopped because a command failed. */
  predicate Lodged(w: Line, after: Line, role: L.Role, frame: Frame, got: (Db, SendOutcome)) {
    after.db == got.0 && (got.1 == Stored || got.1 == Failed(ConnectionLost))
    && if got.1.Stored?
       then after.End(role) == w.End(role).(io := L.Placed) && Alive(after, role) && Logged(after, w.End(role).pos, frame)
       else !Alive(after, role)
  }

  /** `send_frame` by either end is the move Place: its first SET NX finds the slot free, so it
      never retries, and it fails only if its command does; then the end stops. */
  lemma SendLoopIsPlace(w: Line, role: L.Role, plain: Plain, deadline: nat, world: World, before: seq<LineHappening>)
    returns (after: Line)
    requires Sound(w) && MaySay(w.conn, role, plain) && OthersDo(w, role, before, world(0).before)
    ensures Sound(after) && Leads(w, after) && SamePlace(w, after)
    ensures Lodged(w, after, role, FrameOf(w, role, plain),
                   SendLoop(w.db, w.SendSlot(role), w.SendTokens(role), FrameOf(w, role, plain), deadline, world, 0))
    ensures SendLoop(w.db, w.SendSlot(role), w.SendTokens(role), FrameOf(w, role, plain), deadline, world, 0).1.Stored?
            <==> world(0).fault.NoFault?
  {
    var seen := Others(w, role, before);
    MaySayStays(w.conn, seen.conn, role, plain);
    MaySayMayStop(seen.conn, role, plain);
    SlotIsFree(seen, role);
    FirstTryDecides(w.db, w.SendSlot(role), w.SendTokens(role), FrameOf(w, role, plain), deadline, world);
    after := PlacedOrLost(seen, role, plain, world(0).fault);
    LeadsOn(w, seen, after);
  }

  lemma PlacedOrLost(w: Line, role: L.Role, plain: Plain, fault: Fault) returns (after: Line)
    requires Sound(w) && MaySay(w.conn, role, plain) && MayStop(w.conn, role)
    ensures Sound(after) && Leads(w, after) && SamePlace(w, after)
    ensures after.db == if fault.LostBefore? then w.db
                        else SendScript(w.db, w.SendSlot(role), w.SendTokens(role), FrameOf(w, role, plain)).0
    ensures if fault.NoFault?
            then after.End(role) == w.End(role).(io := L.Placed) && Alive(after, role)
                 && Logged(after, w.End(role).pos, FrameOf(w, role, plain))
            else !Alive(after, role)
  {
    if fault.LostBefore? {
      after := Stopped(w, role);
    } else {
      var placed := Placed(w, role, plain);
      after := placed;
      if fault.LostAfter? {
        after := Stopped(placed, role);
        LeadsOn(w, placed, after);
      }
    }
  }

  // ---------------------------------------------------------------- receiving

  function Fading(w: Line, a: Action): Line { After(w, Fades(w, a)) }

  /** A command that only takes from the mailboxes, as nobody's. */
  lemma FadingIsLegal(w: Line, a: Action, role: L.Role)
    requires Sound(w)
    requires Faded(w.Up(), View(Redis.Apply(w.db, a), w.host, ToHost, w.id))
    requires Faded(w.Down(), View(Redis.Apply(w.db, a), w.host, ToClient, w.id))
    ensures Legal(w, Fades(w, a)) && Sound(Fading(w, a)) && Leads(w, Fading(w, a))
    ensures SameEnd(role, w.conn, Fading(w, a).conn) && Fading(w, a).db == Redis.Apply(w.db, a)
  {
    OneHappening(w, Fades(w, a));
    FadingSpares(w, a, role);
  }

  lemma FadingSpares(w: Line, a: Action, role: L.Role)
    ensures SameEnd(role, w.conn, Fading(w, a).conn)
  {
  }

  function Pops(w: Line, role: L.Role): LineHappening {
    Happening(Some(TakeReady(w.host, Inward(role), w.id)), Some(Own(role, L.Pop(role))))
  }

  function Fetches(w: Line, role: L.Role): LineHappening {
    Happening(Some(Read(w.host, Inward(role), w.id)), Some(Own(role, L.Fetch(role))))
  }

  /** The tokens that announce frames to this end. */
  function Announced(w: Line, role: L.Role): nat { (if role.Client? then w.conn.link.down else w.conn.link.up).tokens }

  ghost function Popped(w: Line, role: L.Role): (after: Line)
    requires Sound(w) && MayHear(w.conn, role) && Announced(w, role) > 0
    ensures Sound(after) && Leads(w, after) && SamePlace(w, after)
    ensures after.db == Pop(w.db, w.RecvTokens(role)).0 && after.End(role) == w.End(role).(io := L.Popped)
    ensures MayStop(after.conn, role) && (role.Host? ==> !after.conn.over)
  {
    PopIsLegal(w, role);
    OneHappening(w, Pops(w, role));
    PoppedMayStop(w.conn, role);
    After(w, Pops(w, role))
  }

  lemma PopIsLegal(w: Line, role: L.Role)
    requires Sound(w) && MayHear(w.conn, role) && Announced(w, role) > 0
    ensures C.Enabled(w.conn, Own(role, L.Pop(role))) && Legal(w, Pops(w, role))
  {
    HearingMeansPop(w.conn, role);
    InwardViews(w, role, Garbage(0));
  }

  lemma PoppedMayStop(c: C.Conn, role: L.Role)
    requires C.Reachable(c) && MayHear(c, role) && C.Enabled(c, Own(role, L.Pop(role)))
    ensures MayStop(C.Apply(c, Own(role, L.Pop(role))), role)
  {
    C.ReachableInv(c);
    assert C.WorkInv(c);
  }

  lemma TokensAreFew(c: C.Conn, role: L.Role)
    requires C.Reachable(c)
    ensures (if role.Client? then c.link.down else c.link.up).tokens <= 1
  {
    C.ReachableInv(c);
    assert L.BoxInv(c.link, role);
  }

  /** A token lost with its reply fades. */
  lemma LostPopFades(w: Line, role: L.Role)
    requires Sound(w) && MayHear(w.conn, role)
    ensures var a := TakeReady(w.host, Inward(role), w.id);
            Legal(w, Fades(w, a)) && Sound(Fading(w, a)) && Leads(w, Fading(w, a)) && SameEnd(role, w.conn, Fading(w, a).conn)
            && Fading(w, a).db == Pop(w.db, w.RecvTokens(role)).0
  {
    var a := TakeReady(w.host, Inward(role), w.id);
    InwardViews(w, role, Garbage(0));
    TokensAreFew(w.conn, role);
    FadingIsLegal(w, a, role);
  }

  lemma MayStopStays(c: C.Conn, d: C.Conn, role: L.Role)
    requires SameEnd(role, c, d) && MayStop(c, role)
    ensures MayStop(d, role)
  {
  }

  /** The end has taken a token. */
  predicate HasToken(w: Line, role: L.Role) {
    Alive(w, role) && w.End(role).io.Popped? && (role.Host? ==> !w.conn.over) && MayStop(w.conn, role)
  }

  lemma HasTokenStays(w: Line, v: Line, role: L.Role)
    requires HasToken(w, role) && SameEnd(role, w.conn, v.conn)
    ensures HasToken(v, role)
  {
    MayStopStays(w.conn, v.conn, role);
  }

  /** GET and opening: the frame is the one expected, or it has expired and the end stops. */
  ghost function Fetched(w: Line, role: L.Role): (after: Line)
    requires Sound(w) && HasToken(w, role)
    ensures Sound(after) && Leads(w, after) && SamePlace(w, after) && after.db == w.db
    ensures match SlotOf(w.db, w.RecvSlot(role))
            case None => !Alive(after, role)
            case Some(f) => after.End(role) == w.End(role).(io := L.Holding(f)) && L.Accepts(w.conn.link, w.End(role), f)
  {
    FetchIsLegal(w, role);
    FetchOpens(w.conn, role);
    SlotIsBoxed(w, role);
    OneHappening(w, Fetches(w, role));
    After(w, Fetches(w, role))
  }

  lemma FetchIsLegal(w: Line, role: L.Role)
    requires Sound(w) && HasToken(w, role)
    ensures Legal(w, Fetches(w, role))
  {
  }

  /** What the end reads from Redis is what its box holds. */
  lemma SlotIsBoxed(w: Line, role: L.Role)
    requires Sound(w) && w.End(role).io.Popped?
    ensures L.BoxOf(w.conn.link, w.End(role).pos).slot == SlotOf(w.db, w.RecvSlot(role))
  {
    C.ReachableInv(w.conn);
    assert L.TurnInv(w.conn.link, role);
  }

  lemma FetchOpens(c: C.Conn, role: L.Role)
    requires C.Reachable(c) && L.EndOf(c.link, role).io.Popped?
    ensures var e := L.EndOf(c.link, role);
            L.BoxOf(c.link, e.pos).slot.Some? ==> L.Accepts(c.link, e, L.BoxOf(c.link, e.pos).slot.value)
  {
    C.ReachableInv(c);
    L.FetchAccepts(c.link, role);
  }

  /** What others do before BLPOP and between it and GET. */
  ghost predicate ExplainsReceive(w: Line, role: L.Role, pop: Turn, get: Turn, before: seq<LineHappening>, between: seq<LineHappening>)
    requires Sound(w) && MayHear(w.conn, role)
  {
    OthersDo(w, role, before, pop.before)
    && var waited := Waited(w, role, before);
    (pop.fault.NoFault? && Announced(waited, role) > 0 ==> OthersDo(Popped(waited, role), role, between, get.before))
  }

  ghost function Waited(w: Line, role: L.Role, before: seq<LineHappening>): (after: Line)
    requires Sound(w) && MayHear(w.conn, role) && AllLegal(w, before) && Idle(role, before)
    ensures Sound(after) && Leads(w, after) && after.db == ApplyAll(w.db, Commands(before)) && SamePlace(w, after)
    ensures after.End(role) == w.End(role) && MayHear(after.conn, role) && MayStop(after.conn, role)
  {
    var after := Others(w, role, before);
    MayHearStays(w.conn, after.conn, role);
    MayHearMayStop(after.conn, role);
    after
  }

  ghost function LostToken(w: Line, role: L.Role): (after: Line)
    requires Sound(w) && MayHear(w.conn, role) && MayStop(w.conn, role)
    ensures Sound(after) && Leads(w, after) && SamePlace(w, after) && !Alive(after, role)
    ensures after.db == Pop(w.db, w.RecvTokens(role)).0
  {
    LostPopFades(w, role);
    var faded := Fading(w, TakeReady(w.host, Inward(role), w.id));
    MayStopStays(w.conn, faded.conn, role);
    LeadsOn(w, faded, Stopped(faded, role));
    Stopped(faded, role)
  }

  /** From the token on. */
  ghost function Seen(w: Line, role: L.Role, get: Turn, between: seq<LineHappening>): (after: Line)
    requires Sound(w) && MayHear(w.conn, role) && Announced(w, role) > 0
    requires OthersDo(Popped(w, role), role, between, get.before)
    ensures Sound(after) && Leads(w, after) && SamePlace(w, after)
    ensures after.db == ApplyAll(Pop(w.db, w.RecvTokens(role)).0, get.before)
    ensures if !get.fault.NoFault? then !Alive(after, role)
            else match SlotOf(after.db, w.RecvSlot(role))
                 case None => !Alive(after, role)
                 case Some(f) => after.End(role) == w.End(role).(io := L.Holding(f)) && L.Accepts(w.conn.link, w.End(role), f)
  {
    var popped := Popped(w, role);
    var seen := Others(popped, role, between);
    HasTokenStays(popped, seen, role);
    var after := if get.fault.NoFault? then Fetched(seen, role) else Stopped(seen, role);
    LeadsOn(w, popped, seen);
    LeadsOn(w, seen, after);
    after
  }

  /** The frame is in the end's hands, or the end has stopped. */
  predicate Arrived(w: Line, after: Line, role: L.Role, got: (Db, Result<Frame, TransportError>)) {
    after.db == got.0
    && match got.1
       case Err(_) => !Alive(after, role)
       case Ok(f) => after.End(role) == w.End(role).(io := L.Holding(f)) && L.Accepts(w.conn.link, w.End(role), f)
  }

  /** `recv_frame` by either end is the moves Pop and Fetch: the frame it returns is the one its
      turn expects, and it fails only if a command does, or no frame was announced, or the frame
      has expired; then the end stops. */
  lemma ReceiveIsPopAndFetch(w: Line, role: L.Role, forever: bool, pop: Turn, get: Turn,
                             before: seq<LineHappening>, between: seq<LineHappening>)
    returns (after: Line)
    requires Sound(w) && MayHear(w.conn, role) && ExplainsReceive(w, role, pop, get, before, between)
    ensures Sound(after) && Leads(w, after) && SamePlace(w, after)
    ensures Arrived(w, after, role, Receive(w.db, w.RecvSlot(role), w.RecvTokens(role), forever, pop, get))
  {
    var waited := Waited(w, role, before);
    after := HeardIsReceive(waited, role, forever, pop, get, between);
    LeadsOn(w, waited, after);
    ReceiveWaits(w.db, w.RecvSlot(role), w.RecvTokens(role), forever, pop, get);
  }

  lemma ReceiveWaits(db: Db, key: KeyName, ready: KeyName, forever: bool, pop: Turn, get: Turn)
    ensures Receive(db, key, ready, forever, pop, get)
            == Receive(ApplyAll(db, pop.before), key, ready, forever, Turn([], pop.fault, pop.after), get)
  {
  }

  lemma ReceiveCases(db: Db, key: KeyName, ready: KeyName, forever: bool, pop: Turn, get: Turn)
    ensures var (after, frame) := Receive(db, key, ready, forever, Turn([], pop.fault, pop.after), get);
            if pop.fault.LostAfter? then after == Pop(db, ready).0 && frame.Err?
            else if pop.fault.LostBefore? || |Items(db, ready)| == 0 then after == db && frame.Err?
            else after == ApplyAll(Pop(db, ready).0, get.before)
                 && frame == if !get.fault.NoFault? then Err(ConnectionLost)
                             else match SlotOf(after, key) case None => Err(ExpiredUnread) case Some(f) => Ok(f)
  {
  }

  /** From BLPOP on. */
  lemma HeardIsReceive(w: Line, role: L.Role, forever: bool, pop: Turn, get: Turn, between: seq<LineHappening>)
    returns (after: Line)
    requires Sound(w) && MayHear(w.conn, role) && MayStop(w.conn, role)
    requires pop.fault.NoFault? && Announced(w, role) > 0 ==> OthersDo(Popped(w, role), role, between, get.before)
    ensures Sound(after) && Leads(w, after) && SamePlace(w, after)
    ensures Arrived(w, after, role,
                    Receive(w.db, w.RecvSlot(role), w.RecvTokens(role), forever, Turn([], pop.fault, pop.after), get))
  {
    TokensAreBoxed(w, role);
    ReceiveCases(w.db, w.RecvSlot(role), w.RecvTokens(role), forever, pop, get);
    if pop.fault.LostAfter? {
      after := LostToken(w, role);
    } else if pop.fault.LostBefore? || Announced(w, role) == 0 {
      after := Stopped(w, role);
    } else {
      after := Seen(w, role, get, between);
    }
  }

  lemma TokensAreBoxed(w: Line, role: L.Role)
    requires Sound(w)
    ensures Announced(w, role) == |Items(w.db, w.RecvTokens(role))|
  {
  }

  // ---------------------------------------------------------------- acknowledging

  function Acks(w: Line, role: L.Role): LineHappening
    requires w.End(role).io.Holding?
  {
    Happening(Some(Ack(w.host, Inward(role), w.id, w.End(role).io.frame)), Some(Own(role, L.Ack(role))))
  }

  lemma AckIsLegal(w: Line, role: L.Role)
    requires Sound(w) && MayAccept(w.conn, role)
    ensures C.Enabled(w.conn, Own(role, L.Ack(role))) && Legal(w, Acks(w, role))
    ensures L.BoxOf(w.conn.link, w.End(role).pos).slot == SlotOf(w.db, w.RecvSlot(role))
  {
    MayMeansEnabled(w.conn, role, Request(Ping));
    HoldingHears(w.conn, role);
    InwardViews(w, role, w.End(role).io.frame);
  }

  lemma HoldingHears(c: C.Conn, role: L.Role)
    requires C.Reachable(c) && L.EndOf(c.link, role).io.Holding?
    ensures !L.Sends(role, L.EndOf(c.link, role).pos)
  {
    C.ReachableInv(c);
    assert L.TurnInv(c.link, role);
  }

  ghost function Acked(w: Line, role: L.Role): (after: Line)
    requires Sound(w) && MayAccept(w.conn, role)
    ensures Sound(after) && Leads(w, after) && SamePlace(w, after)
    ensures after.db == AckScript(w.db, w.RecvSlot(role), w.End(role).io.frame).0
    ensures if AckScript(w.db, w.RecvSlot(role), w.End(role).io.frame).1
            then after.End(role) == w.End(role).(io := L.Cleared) && Alive(after, role)
            else !Alive(after, role)
  {
    AckIsLegal(w, role);
    AckMoves(w.conn, role);
    OneHappening(w, Acks(w, role));
    After(w, Acks(w, role))
  }

  lemma AckMoves(c: C.Conn, role: L.Role)
    requires MayAccept(c, role) && C.Enabled(c, Own(role, L.Ack(role)))
    ensures var e, d := L.EndOf(c.link, role), C.Apply(c, Own(role, L.Ack(role)));
            d.link.key == c.link.key
            && if L.BoxOf(c.link, e.pos).slot == Some(e.io.frame) then L.EndOf(d.link, role) == e.(io := L.Cleared)
               else !L.EndOf(d.link, role).alive
  {
  }

  lemma MayAcceptMayStop(c: C.Conn, role: L.Role)
    requires C.Reachable(c) && MayAccept(c, role)
    ensures MayStop(c, role)
  {
    C.ReachableInv(c);
    assert C.WorkInv(c);
  }

  /** A frame cleared with a lost reply fades. */
  lemma LostAckFades(w: Line, role: L.Role)
    requires Sound(w) && MayAccept(w.conn, role)
    ensures var a := Ack(w.host, Inward(role), w.id, w.End(role).io.frame);
            Legal(w, Fades(w, a)) && Sound(Fading(w, a)) && Leads(w, Fading(w, a)) && SameEnd(role, w.conn, Fading(w, a).conn)
            && Fading(w, a).db == AckScript(w.db, w.RecvSlot(role), w.End(role).io.frame).0
  {
    var a := Ack(w.host, Inward(role), w.id, w.End(role).io.frame);
    InwardViews(w, role, w.End(role).io.frame);
    FadingIsLegal(w, a, role);
  }

  /** `acknowledge` by either end is the move Ack; when it fails the end stops. */
  lemma AcknowledgementIsAck(w: Line, role: L.Role, turn: Turn, before: seq<LineHappening>)
    returns (after: Line)
    requires Sound(w) && MayAccept(w.conn, role) && OthersDo(w, role, before, turn.before)
    ensures Sound(after) && Leads(w, after) && SamePlace(w, after)
    ensures var (db, r) := Acknowledgement(w.db, w.RecvSlot(role), w.End(role).io.frame, turn);
            after.db == db
            && if r.Ok? then after.End(role) == w.End(role).(io := L.Cleared) && Alive(after, role) else !Alive(after, role)
  {
    var seen := Others(w, role, before);
    MayAcceptStays(w.conn, seen.conn, role);
    MayAcceptMayStop(seen.conn, role);
    after := Answered(seen, role, turn.fault);
    LeadsOn(w, seen, after);
  }

  ghost function Answered(w: Line, role: L.Role, fault: Fault): (after: Line)
    requires Sound(w) && MayAccept(w.conn, role) && MayStop(w.conn, role)
    ensures Sound(after) && Leads(w, after) && SamePlace(w, after)
    ensures var (cleared, removed) := AckScript(w.db, w.RecvSlot(role), w.End(role).io.frame);
            after.db == (if fault.LostBefore? then w.db else cleared)
            && if fault.NoFault? && removed then after.End(role) == w.End(role).(io := L.Cleared) && Alive(after, role)
               else !Alive(after, role)
  {
    if fault.LostBefore? then Stopped(w, role)
    else if fault.LostAfter? then LostAck(w, role)
    else Acked(w, role)
  }

  ghost function LostAck(w: Line, role: L.Role): (after: Line)
    requires Sound(w) && MayAccept(w.conn, role) && MayStop(w.conn, role)
    ensures Sound(after) && Leads(w, after) && SamePlace(w, after) && !Alive(after, role)
    ensures after.db == AckScript(w.db, w.RecvSlot(role), w.End(role).io.frame).0
  {
    LostAckFades(w, role);
    var faded := Fading(w, Ack(w.host, Inward(role), w.id, w.End(role).io.frame));
    MayStopStays(w.conn, faded.conn, role);
    LeadsOn(w, faded, Stopped(faded, role));
    Stopped(faded, role)
  }

  // ---------------------------------------------------------------- counters

  /** An end in the middle of a frame can go on, or give up. */
  lemma BusyMayStop(c: C.Conn, role: L.Role)
    requires C.Reachable(c)
    requires var e := L.EndOf(c.link, role); e.alive && (e.io.Placed? || e.io.Cleared?)
    ensures MayStop(c, role) && (role.Host? ==> !c.over)
  {
    C.ReachableInv(c);
    assert C.WorkInv(c) && C.OverInv(c);
  }

  /** The counter of a frame placed moves, or the end stops at its maximum. */
  ghost function Counted(w: Line, role: L.Role): (after: Line)
    requires Sound(w) && Alive(w, role) && w.End(role).io.Placed?
    ensures Sound(after) && Leads(w, after) && SamePlace(w, after) && after.db == w.db && after.conn.link.log == w.conn.link.log
    ensures var e := w.End(role);
            if e.sends >= U64_MAX then !Alive(after, role)
            else after.End(role) == e.(pos := e.pos + 1, io := L.Ready, sends := if e.pos < L.FIRST_SEALED then e.sends else e.sends + 1)
  {
    BusyMayStop(w.conn, role);
    if w.End(role).sends >= U64_MAX then Stopped(w, role)
    else
      var e := Happening(None, Some(Own(role, L.Advance(role))));
      AdvanceMoves(w.conn, role);
      OneHappening(w, e);
      After(w, e)
  }

  lemma AdvanceMoves(c: C.Conn, role: L.Role)
    requires var e := L.EndOf(c.link, role); e.alive && e.io.Placed? && e.sends < U64_MAX && (role.Host? ==> !c.over)
    ensures C.Enabled(c, Own(role, L.Advance(role)))
    ensures var e, d := L.EndOf(c.link, role), C.Apply(c, Own(role, L.Advance(role)));
            d.link == L.WithEnd(c.link, role, e.(pos := e.pos + 1, io := L.Ready,
                                                 sends := if e.pos < L.FIRST_SEALED then e.sends else e.sends + 1))
  {
  }

  /** The counter of a frame cleared moves, or the end stops at its maximum. */
  ghost function Accepted(w: Line, role: L.Role): (after: Line)
    requires Sound(w) && Alive(w, role) && w.End(role).io.Cleared?
    ensures Sound(after) && Leads(w, after) && SamePlace(w, after) && after.db == w.db && after.conn.link.log == w.conn.link.log
    ensures var e := w.End(role);
            if e.recvs >= U64_MAX then !Alive(after, role)
            else after.End(role) == e.(pos := e.pos + 1, io := L.Ready, recvs := if e.pos < L.FIRST_SEALED then e.recvs else e.recvs + 1)
  {
    BusyMayStop(w.conn, role);
    if w.End(role).recvs >= U64_MAX then Stopped(w, role)
    else
      var e := Happening(None, Some(Own(role, L.Next(role))));
      NextMoves(w.conn, role);
      OneHappening(w, e);
      After(w, e)
  }

  lemma NextMoves(c: C.Conn, role: L.Role)
    requires var e := L.EndOf(c.link, role); e.alive && e.io.Cleared? && e.recvs < U64_MAX && (role.Host? ==> !c.over)
    ensures C.Enabled(c, Own(role, L.Next(role)))
    ensures var e, d := L.EndOf(c.link, role), C.Apply(c, Own(role, L.Next(role)));
            d.link == L.WithEnd(c.link, role, e.(pos := e.pos + 1, io := L.Ready,
                                                 recvs := if e.pos < L.FIRST_SEALED then e.recvs else e.recvs + 1))
  {
  }

  // ---------------------------------------------------------------- the objects

  /** What an end of a line sees of a channel. */
  datatype Face = Face(db: Db, key: nat, sendAad: Aad, recvAad: Aad, sendKey: KeyName, recvKey: KeyName,
                       sends: nat, recvs: nat, wake: Option<KeyName>, pending: Option<Frame>)

  function FaceOf(channel: SecureChannel): Face
    reads channel, channel.transport, channel.transport.redis
  {
    Face(channel.transport.redis.db, channel.key, channel.sendAad, channel.recvAad,
         channel.transport.sendKey, channel.transport.recvKey, channel.sendCounter, channel.recvCounter,
         channel.transport.wakeQueue, channel.transport.pending)
  }

  /** This is the end of the line in that role, past the login, and its caller has not given up. */
  predicate Fits(w: Line, role: L.Role, f: Face) {
    f.db == w.db && f.key == w.conn.link.key
    && f.sendAad == (if role.Client? then ClientToServer else ServerToClient)
    && f.recvAad == (if role.Client? then ServerToClient else ClientToServer)
    && f.sendKey == w.SendSlot(role) && f.recvKey == w.RecvSlot(role)
    && f.sends == w.End(role).sends && f.recvs == w.End(role).recvs
    && f.wake == None && Alive(w, role) && w.End(role).pos >= L.FIRST_SEALED
    && match w.End(role).io
       case Ready => f.pending == None
       case Holding(frame) => f.pending == Some(frame)
       case _ => false
  }

  ghost predicate Speaks(w: Line, role: L.Role, channel: SecureChannel)
    reads channel, channel.transport, channel.transport.redis
  {
    channel.Valid() && Fits(w, role, FaceOf(channel))
  }

  /** What a send makes of what the loop gave it. */
  predicate Posted(w: Line, role: L.Role, f: Face, got: (Db, SendOutcome), g: Face, r: Result<(), ChannelError>) {
    g.db == got.0 && (r.Ok? <==> got.1.Stored? && w.End(role).sends < U64_MAX)
    && (r.Ok? ==> g == f.(db := got.0, sends := w.End(role).sends + 1))
  }

  /** The frame is the next of the conversation and its counter has moved, or the end has stopped. */
  predicate Told(w: Line, after: Line, role: L.Role, frame: Frame, got: (Db, SendOutcome)) {
    var e := w.End(role);
    after.db == got.0
    && if got.1.Stored? && e.sends < U64_MAX
       then Logged(after, e.pos, frame)
            && after.End(role) == e.(pos := e.pos + 1, io := L.Ready, sends := if e.pos < L.FIRST_SEALED then e.sends else e.sends + 1)
       else !Alive(after, role)
  }

  lemma SpokenFits(w: Line, after: Line, role: L.Role, f: Face, value: Plain, got: (Db, SendOutcome), g: Face, r: Result<(), ChannelError>)
    requires Fits(w, role, f) && SamePlace(w, after) && w.End(role).io.Ready?
    requires Posted(w, role, f, got, g, r) && Told(w, after, role, FrameOf(w, role, value), got)
    ensures g.db == after.db && if r.Err? then !Alive(after, role) else Fits(after, role, g)
    ensures r.Ok? ==> after.End(role).pos == w.End(role).pos + 1 && C.PlainAt(after.conn.link.log, w.End(role).pos) == Some(value)
  {
  }

  /** What a receive makes of the frame that Redis gave it: the face after, and the value. */
  predicate Opened(w: Line, role: L.Role, f: Face, got: (Db, Result<Frame, TransportError>), g: Face, r: Result<Plain, ChannelError>) {
    g.db == got.0 && (got.1.Err? ==> r.Err?)
    && (got.1.Ok? && L.Accepts(w.conn.link, w.End(role), got.1.value) ==>
          r.Ok? && g == f.(db := got.0, pending := Some(got.1.value))
          && got.1.value.Sealed? && got.1.value.plain == r.value)
  }

  lemma HeardFits(w: Line, after: Line, role: L.Role, f: Face, got: (Db, Result<Frame, TransportError>), g: Face, r: Result<Plain, ChannelError>)
    requires Fits(w, role, f) && SamePlace(w, after) && C.Reachable(after.conn)
    requires Opened(w, role, f, got, g, r) && Arrived(w, after, role, got)
    ensures g.db == after.db && if r.Err? then !Alive(after, role) else Fits(after, role, g)
    ensures r.Ok? ==> after.End(role).io.Holding? && after.End(role).pos == w.End(role).pos
                      && C.PlainAt(after.conn.link.log, w.End(role).pos) == Some(r.value)
  {
    if r.Ok? {
      HeldIsLogged(after.conn, role);
    }
  }

  lemma AcceptedFits(w: Line, after: Line, role: L.Role, f: Face)
    requires Fits(w, role, f) && SamePlace(w, after)
    requires var e := w.End(role); after.End(role) == e.(pos := e.pos + 1, io := L.Ready, recvs := e.recvs + 1)
    ensures Fits(after, role, f.(db := after.db, recvs := f.recvs + 1, pending := None))
  {
  }

  /** `SecureChannel.Send`, as the line sees it. */
  method SendFrom(channel: SecureChannel, value: Plain, length: nat, world: World, wake: Turn, ghost role: L.Role, ghost w: Line)
    returns (r: Result<(), ChannelError>)
    requires Speaks(w, role, channel) && L.Sends(role, w.End(role).pos)
    modifies channel`sendCounter, channel.transport.redis, channel.transport`wakeQueue
    ensures channel.Valid()
    ensures length > MAX_FRAME_BYTES ==> r.Err? && channel.transport.redis.db == w.db
    ensures length <= MAX_FRAME_BYTES ==>
              Posted(w, role, old(FaceOf(channel)),
                     SendLoop(w.db, w.SendSlot(role), w.SendTokens(role), FrameOf(w, role, value), w.db.now + MESSAGE_TIMEOUT_MS, world, 0),
                     FaceOf(channel), r)
  {
    r := channel.Send(value, length, world, wake);
  }

  /** `SecureChannel.Send` of what the conversation has to say: on success its frame is the next of
      the conversation, on failure the end has stopped. */
  method SayOn(channel: SecureChannel, value: Plain, length: nat, world: World, wake: Turn,
               ghost role: L.Role, ghost w: Line, ghost before: seq<LineHappening>)
    returns (r: Result<(), ChannelError>, ghost after: Line)
    requires Sound(w) && Speaks(w, role, channel) && MaySay(w.conn, role, value)
    requires length <= MAX_FRAME_BYTES ==> OthersDo(w, role, before, world(0).before)
    modifies channel`sendCounter, channel.transport.redis, channel.transport`wakeQueue
    ensures Sound(after) && Leads(w, after) && after.db == channel.transport.redis.db
    ensures r.Ok? ==> Speaks(after, role, channel) && after.End(role).pos == w.End(role).pos + 1
                      && C.PlainAt(after.conn.link.log, w.End(role).pos) == Some(value)
    ensures r.Err? ==> !Alive(after, role)
  {
    ghost var face := FaceOf(channel);
    r := SendFrom(channel, value, length, world, wake, role, w);
    if length > MAX_FRAME_BYTES {
      MaySayMayStop(w.conn, role, value);
      after := Stopped(w, role);
    } else {
      ghost var got := SendLoop(w.db, w.SendSlot(role), w.SendTokens(role), FrameOf(w, role, value),
                                w.db.now + MESSAGE_TIMEOUT_MS, world, 0);
      after := SayIsMoves(w, role, value, world, before);
      SpokenFits(w, after, role, face, value, got, FaceOf(channel), r);
    }
  }

  lemma SayIsMoves(w: Line, role: L.Role, plain: Plain, world: World, before: seq<LineHappening>)
    returns (after: Line)
    requires Sound(w) && MaySay(w.conn, role, plain) && OthersDo(w, role, before, world(0).before)
    ensures Sound(after) && Leads(w, after) && SamePlace(w, after)
    ensures Told(w, after, role, FrameOf(w, role, plain),
                 SendLoop(w.db, w.SendSlot(role), w.SendTokens(role), FrameOf(w, role, plain),
                          w.db.now + MESSAGE_TIMEOUT_MS, world, 0))
  {
    var frame := FrameOf(w, role, plain);
    var got := SendLoop(w.db, w.SendSlot(role), w.SendTokens(role), frame, w.db.now + MESSAGE_TIMEOUT_MS, world, 0);
    after := SendLoopIsPlace(w, role, plain, w.db.now + MESSAGE_TIMEOUT_MS, world, before);
    if got.1.Stored? {
      after := CountIsAdvance(w, after, role, w.End(role), frame);
    }
  }

  lemma CountIsAdvance(w: Line, placed: Line, role: L.Role, e: L.End, frame: Frame) returns (after: Line)
    requires Sound(placed) && Leads(w, placed) && SamePlace(w, placed) && Logged(placed, e.pos, frame)
    requires e.alive && placed.End(role) == e.(io := L.Placed)
    ensures Sound(after) && Leads(w, after) && SamePlace(w, after) && after.db == placed.db && Logged(after, e.pos, frame)
    ensures if e.sends >= U64_MAX then !Alive(after, role)
            else after.End(role) == e.(pos := e.pos + 1, io := L.Ready, sends := if e.pos < L.FIRST_SEALED then e.sends else e.sends + 1)
  {
    after := Counted(placed, role);
    LeadsOn(w, placed, after);
  }

  /** `SecureChannel.RecvUnacknowledged`, as the line sees it. */
  method ReceiveFrom(channel: SecureChannel, pop: Turn, get: Turn, ghost role: L.Role, ghost w: Line)
    returns (r: Result<Plain, ChannelError>)
    requires Speaks(w, role, channel) && w.End(role).io.Ready? && !L.Sends(role, w.End(role).pos)
    modifies channel.transport.redis, channel.transport`pending, channel.transport`leased
    ensures channel.Valid()
    ensures var got := Receive(w.db, w.RecvSlot(role), w.RecvTokens(role),
                               old(channel.transport.receiveTimeoutSeconds) == 0, pop, get);
            Opened(w, role, old(FaceOf(channel)), got, FaceOf(channel), r)
  {
    r := channel.RecvUnacknowledged(pop, get);
  }

  /** `SecureChannel.RecvUnacknowledged`: the value is the one the conversation has at its turn, or
      the end has stopped. */
  method HearOn(channel: SecureChannel, pop: Turn, get: Turn,
                ghost role: L.Role, ghost w: Line, ghost before: seq<LineHappening>, ghost between: seq<LineHappening>)
    returns (r: Result<Plain, ChannelError>, ghost after: Line)
    requires Sound(w) && Speaks(w, role, channel) && MayHear(w.conn, role)
    requires ExplainsReceive(w, role, pop, get, before, between)
    modifies channel.transport.redis, channel.transport`pending, channel.transport`leased
    ensures Sound(after) && Leads(w, after) && after.db == channel.transport.redis.db
    ensures r.Ok? ==> Speaks(after, role, channel) && after.End(role).io.Holding? && after.End(role).pos == w.End(role).pos
                      && C.PlainAt(after.conn.link.log, w.End(role).pos) == Some(r.value)
    ensures r.Err? ==> !Alive(after, role)
  {
    ghost var forever, face := channel.transport.receiveTimeoutSeconds == 0, FaceOf(channel);
    ghost var got := Receive(w.db, w.RecvSlot(role), w.RecvTokens(role), forever, pop, get);
    r := ReceiveFrom(channel, pop, get, role, w);
    after := ReceiveIsPopAndFetch(w, role, forever, pop, get, before, between);
    HeardFits(w, after, role, face, got, FaceOf(channel), r);
  }

  lemma HeldIsLogged(c: C.Conn, role: L.Role)
    requires C.Reachable(c) && L.EndOf(c.link, role).io.Holding?
    ensures var e := L.EndOf(c.link, role);
            C.PlainAt(c.link.log, e.pos) == if e.io.frame.Sealed? then Some(e.io.frame.plain) else None
  {
    C.ReachableInv(c);
    assert L.TurnInv(c.link, role);
  }

  /** `SecureChannel.Acknowledge`, as the line sees it. */
  method AcknowledgeFrom(channel: SecureChannel, turn: Turn, ghost role: L.Role, ghost w: Line)
    returns (r: Result<(), ChannelError>)
    requires Speaks(w, role, channel) && w.End(role).io.Holding?
    modifies channel`recvCounter, channel.transport.redis, channel.transport`pending, channel.transport`leased
    ensures channel.Valid()
    ensures var (db, acked) := Acknowledgement(w.db, w.RecvSlot(role), w.End(role).io.frame, turn);
            channel.transport.redis.db == db && (r.Ok? <==> acked.Ok? && w.End(role).recvs < U64_MAX)
    ensures r.Ok? ==>
              FaceOf(channel) == old(FaceOf(channel)).(db := channel.transport.redis.db, recvs := w.End(role).recvs + 1, pending := None)
  {
    r := channel.Acknowledge(turn);
  }

  lemma AcceptIsMoves(w: Line, role: L.Role, turn: Turn, before: seq<LineHappening>)
    returns (after: Line)
    requires Sound(w) && MayAccept(w.conn, role) && OthersDo(w, role, before, turn.before)
    ensures Sound(after) && Leads(w, after) && SamePlace(w, after)
    ensures var (db, r) := Acknowledgement(w.db, w.RecvSlot(role), w.End(role).io.frame, turn);
            var e := w.End(role);
            after.db == db
            && if r.Ok? && e.recvs < U64_MAX
               then after.End(role) == e.(pos := e.pos + 1, io := L.Ready, recvs := if e.pos < L.FIRST_SEALED then e.recvs else e.recvs + 1)
               else !Alive(after, role)
  {
    after := AcknowledgementIsAck(w, role, turn, before);
    if Acknowledgement(w.db, w.RecvSlot(role), w.End(role).io.frame, turn).1.Ok? {
      after := CountIsNext(w, after, role, w.End(role));
    }
  }

  lemma CountIsNext(w: Line, acked: Line, role: L.Role, e: L.End) returns (after: Line)
    requires Sound(acked) && Leads(w, acked) && SamePlace(w, acked)
    requires e.alive && acked.End(role) == e.(io := L.Cleared)
    ensures Sound(after) && Leads(w, after) && SamePlace(w, after) && after.db == acked.db
    ensures if e.recvs >= U64_MAX then !Alive(after, role)
            else after.End(role) == e.(pos := e.pos + 1, io := L.Ready, recvs := if e.pos < L.FIRST_SEALED then e.recvs else e.recvs + 1)
  {
    after := Accepted(acked, role);
    LeadsOn(w, acked, after);
  }

  /** `SecureChannel.Acknowledge` of the value in hand: on success it is the end's turn to speak, on
      failure the end has stopped. */
  method AcceptOn(channel: SecureChannel, turn: Turn, ghost role: L.Role, ghost w: Line, ghost before: seq<LineHappening>)
    returns (r: Result<(), ChannelError>, ghost after: Line)
    requires Sound(w) && Speaks(w, role, channel) && MayAccept(w.conn, role)
    requires OthersDo(w, role, before, turn.before)
    modifies channel`recvCounter, channel.transport.redis, channel.transport`pending, channel.transport`leased
    ensures Sound(after) && Leads(w, after) && after.db == channel.transport.redis.db
    ensures r.Ok? ==> Speaks(after, role, channel) && after.End(role).io.Ready? && after.End(role).pos == w.End(role).pos + 1
    ensures r.Err? ==> !Alive(after, role)
  {
    ghost var face := FaceOf(channel);
    r := AcknowledgeFrom(channel, turn, role, w);
    after := AcceptIsMoves(w, role, turn, before);
    if r.Ok? {
      AcceptedFits(w, after, role, face);
    }
  }

  // ---------------------------------------------------------------- what follows

  /** A new connection, whose keys nobody has used. */
  lemma StartIsSound(host: string, id: string, db: Db, program: C.Programs.Program, expected: Option<string>, signature: string, key: nat)
    requires Bounded(db)
    requires forall dir :: Message(host, dir, id) !in db.data && Ready(host, dir, id) !in db.data
    ensures Sound(Line(host, id, db, C.Start(program, expected, signature, key)))
  {
    C.StartReachable(program, expected, signature, key);
  }

  lemma RunsKeepSound(w: Line, after: Line)
    requires Sound(w) && Leads(w, after)
    ensures Sound(after) && after.host == w.host && after.id == w.id
  {
    var events :| AllLegal(w, events) && Run(w, events) == after;
    OthersKeepSound(w, events);
  }

  /** In every run of the two ends' calls, with anybody's commands in between, at most one of the two
      mailboxes of a connection is occupied in Redis. */
  lemma OneMailboxOccupied(start: Line, w: Line)
    requires Sound(start) && Leads(start, w)
    ensures SlotOf(w.db, Message(start.host, ToHost, start.id)).None? || SlotOf(w.db, Message(start.host, ToClient, start.id)).None?
  {
    RunsKeepSound(start, w);
    C.ReachableInv(w.conn);
    assert L.BoxInv(w.conn.link, L.Client) && L.BoxInv(w.conn.link, L.Host);
  }

  /** Execution agreement over Redis: in every such run the commands handed to `run` are a prefix of
      those the client sent, and all of them when it is the client's turn again; and each reply tells
      what `run` gave for its command. */
  lemma AgreementOnRedis(start: Line, w: Line)
    requires Sound(start) && Leads(start, w)
    ensures var c := w.conn;
            c.ran <= C.RunsIn(c.link.log, |c.link.log|)
            && (c.link.client.io.Ready? && L.ClientTurn(c.link.client.pos) && c.link.client.pos >= C.FIRST_REQUEST ==>
                  c.ran == C.RunsIn(c.link.log, |c.link.log|))
            && Agree(c)
  {
    RunsKeepSound(start, w);
    AnswersAgree(w.conn);
    var conns, steps :| C.IsRun(conns, steps) && conns[|steps|] == w.conn;
    C.ExecutionAgreement(conns, steps, |steps|);
  }
}
