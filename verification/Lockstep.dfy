/** One connection from the first login frame on: two endpoints that take strict turns over two
    mailboxes (src/auth.rs:96-136, src/server.rs:57-177, src/main.rs:501-592).

    Frame 0 and 2 (client) and 1 (host) are the OPAQUE login; from frame 3, the host's Hello, on
    frames are sealed. The client sends the even frames, the host the odd ones. Which values are
    sent is left open here; either endpoint may stop and either box may fade at any moment. */
module Lockstep {
  import opened Wrappers
  import opened Protocol
  import opened Mailbox
  import opened Channel

  datatype Role = Client | Host

  /** Where an endpoint stands within one frame: about to send or to wait; sent but the counter
      not moved; token taken; frame read and opened; frame deleted but the counter not moved. */
  datatype Io = Ready | Placed | Popped | Holding(frame: Frame) | Cleared

  datatype End = End(alive: bool, pos: nat, io: Io, sends: nat, recvs: nat)

  /** `log` is history: every frame placed so far. */
  datatype Link = Link(key: nat, client: End, host: End, up: Box, down: Box, log: seq<Frame>)

  datatype Move =
    | Place(role: Role, plain: Plain)
    | Advance(role: Role)
    | Pop(role: Role)
    | Fetch(role: Role)
    | Ack(role: Role)
    | Next(role: Role)
    | Stop(role: Role)
    | Fade(upTo: Box, downTo: Box)

  const FIRST_SEALED: nat := 3

  /** The client has frame 0, and every frame after one of the host's. */
  predicate ClientTurn(pos: nat) { pos == 0 || !ClientTurn(pos - 1) }

  predicate Sends(role: Role, pos: nat) { ClientTurn(pos) == role.Client? }

  function EndOf(l: Link, role: Role): End { if role.Client? then l.client else l.host }

  function WithEnd(l: Link, role: Role, e: End): Link {
    if role.Client? then l.(client := e) else l.(host := e)
  }

  /** The box that carries frame number `pos`. */
  function BoxOf(l: Link, pos: nat): Box { if ClientTurn(pos) then l.up else l.down }

  function WithBox(l: Link, pos: nat, b: Box): Link {
    if ClientTurn(pos) then l.(up := b) else l.(down := b)
  }

  function AadOf(pos: nat): Aad { if ClientTurn(pos) then ClientToServer else ServerToClient }

  function WireFrame(l: Link, e: End, plain: Plain): Frame {
    if e.pos < FIRST_SEALED then Login(e.pos, l.key) else Sealed(l.key, AadOf(e.pos), e.sends, plain)
  }

  /** Deserialising a login message, or opening under the receive counter. */
  predicate Accepts(l: Link, e: End, f: Frame) {
    if e.pos < FIRST_SEALED then f == Login(e.pos, l.key)
    else OpenFrame(f, l.key, AadOf(e.pos), e.recvs).Some?
  }

  predicate Enabled(l: Link, m: Move) {
    match m
    case Fade(up, down) => Faded(l.up, up) && Faded(l.down, down)
    case _ =>
      var e := EndOf(l, m.role);
      e.alive
      && match m
         case Place(_, _) => e.io.Ready? && Sends(m.role, e.pos) && BoxOf(l, e.pos).slot.None?
         case Advance(_) => e.io.Placed? && e.sends < U64_MAX
         case Pop(_) => e.io.Ready? && !Sends(m.role, e.pos) && BoxOf(l, e.pos).tokens > 0
         case Fetch(_) => e.io.Popped?
         case Ack(_) => e.io.Holding?
         case Next(_) => e.io.Cleared? && e.recvs < U64_MAX
         case _ => true
  }

  function Apply(l: Link, m: Move): Link
    requires Enabled(l, m)
  {
    match m
    case Fade(up, down) => l.(up := up, down := down)
    case Place(r, plain) =>
      var e := EndOf(l, r);
      var f := WireFrame(l, e, plain);
      WithEnd(WithBox(l, e.pos, Mailbox.Place(BoxOf(l, e.pos), f)), r, e.(io := Placed)).(log := l.log + [f])
    case Advance(r) =>
      var e := EndOf(l, r);
      WithEnd(l, r, e.(pos := e.pos + 1, io := Ready, sends := if e.pos < FIRST_SEALED then e.sends else e.sends + 1))
    case Pop(r) =>
      var e := EndOf(l, r);
      WithEnd(WithBox(l, e.pos, TakeToken(BoxOf(l, e.pos))), r, e.(io := Popped))
    case Fetch(r) =>
      var e := EndOf(l, r);
      var slot := BoxOf(l, e.pos).slot;
      if slot.Some? && Accepts(l, e, slot.value) then WithEnd(l, r, e.(io := Holding(slot.value)))
      else WithEnd(l, r, e.(alive := false))
    case Ack(r) =>
      var e := EndOf(l, r);
      var box := BoxOf(l, e.pos);
      if box.slot == Some(e.io.frame) then WithEnd(WithBox(l, e.pos, Clear(box, e.io.frame)), r, e.(io := Cleared))
      else WithEnd(l, r, e.(alive := false))
    case Next(r) =>
      var e := EndOf(l, r);
      WithEnd(l, r, e.(pos := e.pos + 1, io := Ready, recvs := if e.pos < FIRST_SEALED then e.recvs else e.recvs + 1))
    case Stop(r) =>
      var e := EndOf(l, r);
      WithEnd(l, r, e.(alive := false))
  }

  function Start(key: nat): Link {
    var e := End(true, 0, Ready, 0, 0);
    Link(key, e, e, EMPTY, EMPTY, [])
  }

  // ---------------------------------------------------------------- the invariant

  /** The counter of frame `i`, and hence of an endpoint that reaches it. */
  function CounterOf(i: nat): nat { if i < FIRST_SEALED + 2 then 0 else CounterOf(i - 2) + 1 }

  predicate WellNumbered(l: Link, i: nat)
    requires i < |l.log|
  {
    if i < FIRST_SEALED then l.log[i] == Login(i, l.key)
    else l.log[i].Sealed? && l.log[i] == Sealed(l.key, AadOf(i), CounterOf(i), l.log[i].plain)
  }

  predicate TurnInv(l: Link, role: Role) {
    var e, n := EndOf(l, role), |l.log|;
    if Sends(role, e.pos)
    then (e.io.Ready? && n == e.pos && l.up.slot.None? && l.down.slot.None?)
         || (e.io.Placed? && e.pos + 1 <= n <= e.pos + 2)
    else match e.io
      case Ready => e.pos <= n <= e.pos + 1
      case Popped => n == e.pos + 1
      case Holding(f) => n == e.pos + 1 && f == l.log[e.pos]
      case Cleared => n == e.pos + 1 && l.up.slot.None? && l.down.slot.None?
      case Placed => false
  }

  predicate CountInv(role: Role, e: End) {
    if Sends(role, e.pos) then e.sends == CounterOf(e.pos) && e.recvs == CounterOf(e.pos + 1)
    else e.recvs == CounterOf(e.pos) && e.sends == CounterOf(e.pos + 1)
  }

  predicate EndInv(l: Link, role: Role) { TurnInv(l, role) && CountInv(role, EndOf(l, role)) }

  /** A box holds the last frame or nothing, and a token only for a frame still unread. */
  predicate BoxInv(l: Link, role: Role) {
    var e, n := EndOf(l, role), |l.log|;
    var box := if role.Client? then l.down else l.up;
    (box.slot.Some? ==> n > 0 && !Sends(role, n - 1) && box.slot == Some(l.log[n - 1]))
    && box.tokens <= 1
    && (box.tokens > 0 ==>
          n > 0 && !Sends(role, n - 1)
          && (if Sends(role, e.pos) then n == e.pos + 2 else n == e.pos + 1 && e.io.Ready?))
  }

  ghost predicate Inv(l: Link) {
    EndInv(l, Client) && EndInv(l, Host) && BoxInv(l, Client) && BoxInv(l, Host)
    && forall i :: 0 <= i < |l.log| ==> WellNumbered(l, i)
  }

  lemma NumbersKept(l: Link, m: Move)
    requires Inv(l) && Enabled(l, m)
    ensures var after := Apply(l, m); forall i :: 0 <= i < |after.log| ==> WellNumbered(after, i)
  {
    var after := Apply(l, m);
    forall i | 0 <= i < |after.log|
      ensures WellNumbered(after, i)
    {
      if i < |l.log| {
        assert WellNumbered(l, i);
      }
    }
  }

  lemma PlaceKeepsEnds(l: Link, m: Move, role: Role)
    requires Inv(l) && m.Place? && Enabled(l, m)
    ensures EndInv(Apply(l, m), role)
  {
    var e := EndOf(l, role);
    assert Sends(m.role, |l.log|) && (role != m.role ==> !Sends(role, |l.log|));
    assert Sends(role, e.pos + 1) == !Sends(role, e.pos);
    assert Sends(role, e.pos + 2) == Sends(role, e.pos);
  }

  lemma CounterSteps(i: nat)
    ensures CounterOf(i + 2) == CounterOf(i) + (if i < FIRST_SEALED then 0 else 1)
  {
  }

  lemma CountsMove(role: Role, e: End)
    requires CountInv(role, e)
    ensures var more := if e.pos < FIRST_SEALED then 0 else 1;
            if Sends(role, e.pos) then CountInv(role, e.(pos := e.pos + 1, io := Ready, sends := e.sends + more))
            else CountInv(role, e.(pos := e.pos + 1, io := Ready, recvs := e.recvs + more))
  {
    CounterSteps(e.pos);
    assert Sends(role, e.pos + 1) == !Sends(role, e.pos);
  }

  lemma ForwardKeepsEnd(l: Link, m: Move)
    requires Inv(l) && (m.Advance? || m.Next?) && Enabled(l, m)
    ensures EndInv(Apply(l, m), m.role)
  {
    var e := EndOf(l, m.role);
    assert TurnInv(l, m.role);
    assert Sends(m.role, e.pos + 1) == !Sends(m.role, e.pos);
    CountsMove(m.role, e);
  }

  lemma ReadingKeepsEnd(l: Link, m: Move)
    requires Inv(l) && (m.Pop? || m.Fetch? || m.Ack? || m.Stop?) && Enabled(l, m)
    ensures EndInv(Apply(l, m), m.role)
  {
    assert EndInv(l, m.role) && BoxInv(l, m.role);
  }

  lemma OwnMoveKeepsEnd(l: Link, m: Move)
    requires Inv(l) && !m.Place? && !m.Fade? && Enabled(l, m)
    ensures EndInv(Apply(l, m), m.role)
  {
    if m.Advance? || m.Next? {
      ForwardKeepsEnd(l, m);
    } else {
      ReadingKeepsEnd(l, m);
    }
  }

  lemma OtherMoveKeepsEnd(l: Link, m: Move, role: Role)
    requires Inv(l) && !m.Place? && Enabled(l, m) && (m.Fade? || m.role != role)
    ensures EndInv(Apply(l, m), role)
  {
  }

  lemma PlaceKeepsBoxes(l: Link, m: Move, role: Role)
    requires Inv(l) && m.Place? && Enabled(l, m)
    ensures BoxInv(Apply(l, m), role)
  {
    var e, n := EndOf(l, role), |l.log|;
    assert Sends(m.role, n) && (role != m.role ==> !Sends(role, n));
    assert n > 0 ==> Sends(role, n - 1) == !Sends(role, n);
    assert role != m.role && Sends(role, e.pos) ==> n == e.pos + 1;
    assert role != m.role && !Sends(role, e.pos) ==> n == e.pos && e.io.Ready?;
  }

  lemma StepForwardKeepsBoxes(l: Link, m: Move, role: Role)
    requires Inv(l) && (m.Advance? || m.Next?) && Enabled(l, m)
    ensures BoxInv(Apply(l, m), role)
  {
    var e := EndOf(l, role);
    assert BoxInv(l, role) && EndInv(l, role);
    assert Sends(role, e.pos + 1) == !Sends(role, e.pos);
  }

  lemma PopKeepsBoxes(l: Link, m: Move, role: Role)
    requires Inv(l) && m.Pop? && Enabled(l, m)
    ensures BoxInv(Apply(l, m), role)
  {
    assert BoxInv(l, role) && EndInv(l, role);
  }

  lemma AckKeepsBoxes(l: Link, m: Move, role: Role)
    requires Inv(l) && m.Ack? && Enabled(l, m)
    ensures BoxInv(Apply(l, m), role)
  {
    assert BoxInv(l, role) && EndInv(l, role);
  }

  lemma ReadingKeepsBoxes(l: Link, m: Move, role: Role)
    requires BoxInv(l, role) && (m.Fetch? || m.Stop?) && Enabled(l, m)
    ensures BoxInv(Apply(l, m), role)
  {
    var after := Apply(l, m);
    assert after.up == l.up && after.down == l.down && after.log == l.log;
  }

  lemma FadingKeepsBoxes(l: Link, m: Move, role: Role)
    requires Inv(l) && m.Fade? && Enabled(l, m)
    ensures BoxInv(Apply(l, m), role)
  {
    assert BoxInv(l, role) && EndInv(l, role);
  }

  lemma BoxesKept(l: Link, m: Move, role: Role)
    requires Inv(l) && Enabled(l, m) && !m.Place?
    ensures BoxInv(Apply(l, m), role)
  {
    if m.Advance? || m.Next? {
      StepForwardKeepsBoxes(l, m, role);
    } else if m.Fade? {
      FadingKeepsBoxes(l, m, role);
    } else if m.Pop? {
      PopKeepsBoxes(l, m, role);
    } else if m.Ack? {
      AckKeepsBoxes(l, m, role);
    } else {
      ReadingKeepsBoxes(l, m, role);
    }
  }

  lemma MoveKeepsInv(l: Link, m: Move)
    requires Inv(l) && Enabled(l, m)
    ensures Inv(Apply(l, m))
  {
    NumbersKept(l, m);
    if m.Place? {
      PlaceKeepsEnds(l, m, Client);
      PlaceKeepsEnds(l, m, Host);
      PlaceKeepsBoxes(l, m, Client);
      PlaceKeepsBoxes(l, m, Host);
    } else {
      BoxesKept(l, m, Client);
      BoxesKept(l, m, Host);
      if m.Fade? || m.role == Host {
        OtherMoveKeepsEnd(l, m, Client);
      } else {
        OwnMoveKeepsEnd(l, m);
      }
      if m.Fade? || m.role == Client {
        OtherMoveKeepsEnd(l, m, Host);
      } else {
        OwnMoveKeepsEnd(l, m);
      }
    }
  }

  // ---------------------------------------------------------------- lockstep

  ghost predicate IsRun(links: seq<Link>, moves: seq<Move>) {
    |links| == |moves| + 1 && (exists key :: links[0] == Start(key))
    && forall i {:trigger moves[i]} :: 0 <= i < |moves| ==> Enabled(links[i], moves[i]) && links[i + 1] == Apply(links[i], moves[i])
  }

  lemma {:induction false} RunKeepsInv(links: seq<Link>, moves: seq<Move>, n: nat)
    requires IsRun(links, moves) && n < |links|
    ensures Inv(links[n])
  {
    if n > 0 {
      RunKeepsInv(links, moves, n - 1);
      MoveKeepsInv(links[n - 1], moves[n - 1]);
    }
  }

  /** In every reachable state, whatever is said and whatever expires or fails: at most one of
      the two mailboxes is occupied; an endpoint about to send finds its slot free, so its first
      SET NX succeeds; and an endpoint that took a token finds either nothing or exactly the
      frame it awaits, so no counter check ever fails. */
  lemma StrictTurns(links: seq<Link>, moves: seq<Move>, n: nat, role: Role)
    requires IsRun(links, moves) && n < |links|
    ensures var l := links[n];
            var e := EndOf(l, role);
            !(l.up.slot.Some? && l.down.slot.Some?)
            && (e.io.Ready? && Sends(role, e.pos) ==> BoxOf(l, e.pos).slot.None?)
            && (e.io.Popped? && BoxOf(l, e.pos).slot.Some? ==>
                  e.pos < |l.log| && BoxOf(l, e.pos).slot == Some(l.log[e.pos]) && Accepts(l, e, l.log[e.pos]))
  {
    RunKeepsInv(links, moves, n);
    var l := links[n];
    var e := EndOf(l, role);
    FetchAccepts(l, role);
  }

  lemma FetchAccepts(l: Link, role: Role)
    requires Inv(l)
    ensures var e := EndOf(l, role);
            e.io.Popped? && BoxOf(l, e.pos).slot.Some? ==>
              e.pos < |l.log| && BoxOf(l, e.pos).slot == Some(l.log[e.pos]) && Accepts(l, e, l.log[e.pos])
  {
    var e := EndOf(l, role);
    if e.io.Popped? && BoxOf(l, e.pos).slot.Some? {
      assert BoxInv(l, role);
      assert WellNumbered(l, e.pos);
    }
  }
}
