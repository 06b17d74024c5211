/** The channel of module Channel, with its loops and commands, performs the steps of module
    Delivery: Redis seen through Mailbox.View is Delivery's box. So the prefix theorem holds of
    SecureChannel over RedisTransport, whatever anybody else does between any two commands. */
module Refinement {
  import opened Wrappers
  import opened Protocol
  import opened Keys
  import opened Redis
  import opened Mailbox
  import opened Transport
  import opened Channel
  import opened Happenings
  import D = Delivery

  /** One direction of a connection twice: the database, and the lane it is a picture of. */
  datatype Wire = Wire(host: string, dir: Direction, id: string, db: Db, lane: D.Lane) {
    function Slot(): KeyName { Message(host, dir, id) }

    function Tokens(): KeyName { Ready(host, dir, id) }

    function Seen(): Box { View(db, host, dir, id) }
  }

  ghost predicate Sound(w: Wire) { Bounded(w.db) && w.lane.box == w.Seen() && D.Inv(w.lane) }

  type LaneHappening = Happening<D.Step>

  function After(w: Wire, e: LaneHappening): Wire {
    w.(db := DbAfter(w.db, e),
       lane := if e.step.Some? && D.Enabled(w.lane, e.step.value) then D.Apply(w.lane, e.step.value) else w.lane)
  }

  /** The step is one of the lane's and pictures the command. */
  predicate Legal(w: Wire, e: LaneHappening) {
    (e.step.Some? ==> D.Enabled(w.lane, e.step.value)) && After(w, e).lane.box == After(w, e).Seen()
  }

  predicate AllLegal(w: Wire, events: seq<LaneHappening>)
    decreases |events|
  {
    events == [] || (Legal(w, events[0]) && AllLegal(After(w, events[0]), events[1..]))
  }

  function Run(w: Wire, events: seq<LaneHappening>): Wire
    decreases |events|
  {
    if events == [] then w else Run(After(w, events[0]), events[1..])
  }

  ghost predicate Leads(w: Wire, after: Wire) {
    exists events :: AllLegal(w, events) && Run(w, events) == after
  }

  lemma {:induction false} RunsJoin(w: Wire, first: seq<LaneHappening>, second: seq<LaneHappening>)
    requires AllLegal(w, first) && AllLegal(Run(w, first), second)
    ensures AllLegal(w, first + second) && Run(w, first + second) == Run(Run(w, first), second)
    decreases |first|
  {
    if first == [] {
      assert first + second == second;
    } else {
      assert (first + second)[1..] == first[1..] + second;
      RunsJoin(After(w, first[0]), first[1..], second);
    }
  }

  lemma LeadsOn(w: Wire, middle: Wire, after: Wire)
    requires Leads(w, middle) && Leads(middle, after)
    ensures Leads(w, after)
  {
    var first :| AllLegal(w, first) && Run(w, first) == middle;
    var second :| AllLegal(middle, second) && Run(middle, second) == after;
    RunsJoin(w, first, second);
  }

  lemma OneHappening(w: Wire, e: LaneHappening)
    requires Sound(w) && Legal(w, e)
    ensures Sound(After(w, e)) && Leads(w, After(w, e))
  {
    if e.action.Some? {
      ActionKeepsBounded(w.db, e.action.value);
    }
    if e.step.Some? {
      D.StepKeepsInv(w.lane, e.step.value);
    }
    var events := [e];
    assert events[0] == e && events[1..] == [];
    assert AllLegal(After(w, e), events[1..]) && Run(After(w, e), events[1..]) == After(w, e);
    assert AllLegal(w, events) && Run(w, events) == After(w, e);
  }

  // ---------------------------------------------------------------- what others may do

  predicate OfSender(s: D.Step) { s.SendPlace? || s.SendAdvance? || s.SendFails? || s.SenderStops? }

  predicate OfReceiver(s: D.Step) { s.Pop? || s.Get? || s.Ack? || s.RecvAdvance? || s.ReceiverStops? }

  predicate SenderIdle(events: seq<LaneHappening>) { forall e :: e in events && e.step.Some? ==> !OfSender(e.step.value) }

  predicate ReceiverIdle(events: seq<LaneHappening>) { forall e :: e in events && e.step.Some? ==> !OfReceiver(e.step.value) }

  /** Any command of anybody is such an event, unless it forges a frame: only the sender can seal
      one under this key, direction and counter. */
  lemma OthersAreLegal(w: Wire, a: Action)
    requires Sound(w)
    requires a.Send? && Message(a.host, a.dir, a.id) == w.Slot() ==> D.Unforged(w.lane, a.frame)
    ensures Legal(w, Happening(Some(a), Some(D.Store(View(Redis.Apply(w.db, a), w.host, w.dir, w.id)))))
  {
    RedisRefinesBox(w.db, a, w.host, w.dir, w.id);
  }

  predicate SameSender(w: Wire, after: Wire) {
    SameLane(w, after) && after.lane.sender == w.lane.sender && after.lane.seals == w.lane.seals && after.lane.sent == w.lane.sent
  }

  predicate SameReceiver(w: Wire, after: Wire) {
    SameLane(w, after) && after.lane.receiver == w.lane.receiver && after.lane.delivered == w.lane.delivered
    && after.lane.accepted == w.lane.accepted
  }

  predicate SameLane(w: Wire, after: Wire) {
    after.Slot() == w.Slot() && after.lane.key == w.lane.key && after.lane.aad == w.lane.aad
  }

  lemma {:induction false} OthersKeepSound(w: Wire, events: seq<LaneHappening>)
    requires Sound(w) && AllLegal(w, events)
    ensures Sound(Run(w, events)) && Run(w, events).db == ApplyAll(w.db, Commands(events))
    decreases |events|
  {
    if events != [] {
      var e := events[0];
      OneHappening(w, e);
      OthersKeepSound(After(w, e), events[1..]);
      CommandFirst(w.db, events);
    }
  }

  lemma {:induction false} IdleSenderStays(w: Wire, events: seq<LaneHappening>)
    requires AllLegal(w, events)
    ensures SenderIdle(events) ==> SameSender(w, Run(w, events))
    decreases |events|
  {
    if events != [] && SenderIdle(events) {
      assert events[0] in events;
      assert SameSender(w, After(w, events[0]));
      IdleSenderStays(After(w, events[0]), events[1..]);
    }
  }

  lemma {:induction false} IdleReceiverStays(w: Wire, events: seq<LaneHappening>)
    requires AllLegal(w, events)
    ensures ReceiverIdle(events) ==> SameReceiver(w, Run(w, events))
    decreases |events|
  {
    if events != [] && ReceiverIdle(events) {
      assert events[0] in events;
      assert SameReceiver(w, After(w, events[0]));
      IdleReceiverStays(After(w, events[0]), events[1..]);
    }
  }

  /** Where others have brought the wire. */
  ghost function Others(w: Wire, events: seq<LaneHappening>): (after: Wire)
    requires Sound(w) && AllLegal(w, events)
    ensures Sound(after) && Leads(w, after) && after.db == ApplyAll(w.db, Commands(events)) && after.db.now >= w.db.now
    ensures SenderIdle(events) ==> SameSender(w, after)
    ensures ReceiverIdle(events) ==> SameReceiver(w, after)
  {
    OthersKeepSound(w, events);
    IdleSenderStays(w, events);
    IdleReceiverStays(w, events);
    TimePasses(w.db, Commands(events));
    Run(w, events)
  }

  // ---------------------------------------------------------------- sending

  /** What others do around one attempt of `send_frame`. */
  datatype Around = Around(before: seq<LaneHappening>, after: seq<LaneHappening>)

  predicate CanSend(w: Wire) { w.lane.sender.alive && !w.lane.sender.placed }

  function Fails(value: Plain): LaneHappening { Happening(None, Some(D.SendFails(value))) }

  function Try(w: Wire, value: Plain): LaneHappening {
    Happening(Some(Send(w.host, w.dir, w.id, D.Seal(w.lane, value))),
          if w.lane.box.slot.None? then Some(D.SendPlace(value)) else None)
  }

  /** Time passes. */
  function Sleep(w: Wire, ms: nat): LaneHappening {
    Happening(Some(Elapse(ms)), Some(D.Store(View(Tick(w.db, ms), w.host, w.dir, w.id))))
  }

  predicate OthersDo(w: Wire, events: seq<LaneHappening>, actions: seq<Action>) {
    AllLegal(w, events) && Commands(events) == actions
  }

  ghost function Slept(w: Wire, ms: nat): (after: Wire)
    requires Sound(w)
    ensures Sound(after) && Leads(w, after) && after.db == Tick(w.db, ms) && SameSender(w, after)
  {
    OthersAreLegal(w, Elapse(ms));
    OneHappening(w, Sleep(w, ms));
    After(w, Sleep(w, ms))
  }

  /** `around` explains what `world` lets others do while a frame waits for the slot. */
  ghost predicate Explains(w: Wire, deadline: nat, world: World, around: nat -> Around, i: nat)
    requires Sound(w)
    decreases deadline + POLL_INTERVAL_MS - w.db.now
  {
    OthersDo(w, around(i).before, world(i).before) && SenderIdle(around(i).before)
    && var tried := Others(w, around(i).before);
    (world(i).fault.NoFault? && tried.lane.box.slot.Some? ==>
       OthersDo(tried, around(i).after, world(i).after) && SenderIdle(around(i).after)
       && var answered := Others(tried, around(i).after);
       (answered.db.now < deadline ==>
          Explains(Slept(answered, POLL_INTERVAL_MS), deadline, world, around, i + 1)))
  }

  /** Where one call of the retry loop leaves the wire. */
  ghost function Sent(w: Wire, value: Plain, deadline: nat, world: World, around: nat -> Around, i: nat): Wire
    requires Sound(w) && Explains(w, deadline, world, around, i)
    decreases deadline + POLL_INTERVAL_MS - w.db.now
  {
    var seen := Others(w, around(i).before);
    if world(i).fault.LostBefore? then After(seen, Fails(value))
    else
      var tried := After(seen, Try(seen, value));
      if seen.lane.box.slot.None? then
        if world(i).fault.LostAfter? then After(tried, Happening(None, Some(D.SenderStops))) else tried
      else if world(i).fault.LostAfter? then After(tried, Fails(value))
      else
        var answered := Others(seen, around(i).after);
        if answered.db.now >= deadline then After(answered, Fails(value))
        else Sent(Slept(answered, POLL_INTERVAL_MS), value, deadline, world, around, i + 1)
  }

  /** What a send has done to the lane: the value was sealed; if `stored` its frame was placed and
      its counter has yet to move; otherwise the sender has stopped, its frame placed or not. */
  predicate SendOutcomeOn(w: Wire, after: Wire, value: Plain, stored: bool) {
    SameLane(w, after)
    && after.lane.seals == w.lane.seals + [D.Seal(w.lane, value)]
    && (after.lane.sent == w.lane.sent || after.lane.sent == w.lane.sent + [value])
    && (stored ==> after.lane.sent == w.lane.sent + [value] && after.lane.sender == w.lane.sender.(placed := true))
    && (!stored ==> !after.lane.sender.alive)
  }

  /** A single attempt is a step of the lane. */
  lemma TryIsStep(w: Wire, value: Plain)
    requires Sound(w) && CanSend(w)
    ensures var e, frame := Try(w, value), D.Seal(w.lane, value);
            Legal(w, e) && (After(w, e).db, w.lane.box.slot.None?) == SendScript(w.db, w.Slot(), w.Tokens(), frame)
            && (if w.lane.box.slot.None? then SendOutcomeOn(w, After(w, e), value, true) else After(w, e) == w)
  {
    RedisRefinesBox(w.db, Try(w, value).action.value, w.host, w.dir, w.id);
    if w.Slot() in w.db.data {
      assert Typed(w.db, w.Slot());
    }
    if w.Tokens() in w.db.data {
      assert Typed(w.db, w.Tokens());
    }
  }

  lemma FailureIsStep(w: Wire, value: Plain)
    requires Sound(w) && CanSend(w)
    ensures var after := After(w, Fails(value));
            Sound(after) && Leads(w, after) && after.db == w.db && SendOutcomeOn(w, after, value, false)
  {
    OneHappening(w, Fails(value));
  }

  lemma StopIsStep(w: Wire)
    requires Sound(w) && w.lane.sender.alive
    ensures var after := After(w, Happening(None, Some(D.SenderStops)));
            Sound(after) && Leads(w, after) && after.db == w.db && SameReceiver(w, after)
            && after.lane.sent == w.lane.sent && after.lane.seals == w.lane.seals && !after.lane.sender.alive
  {
    OneHappening(w, Happening(None, Some(D.SenderStops)));
  }

  /** The retry loop of `send_frame`, with everything others do meanwhile, is a run of the lane:
      one SendPlace if the frame is stored, and a stopped sender if the call fails. */
  lemma {:induction false} SendLoopIsSteps(w: Wire, value: Plain, deadline: nat, world: World, around: nat -> Around, i: nat)
    requires Sound(w) && CanSend(w) && Explains(w, deadline, world, around, i)
    ensures var after := Sent(w, value, deadline, world, around, i);
            var (db, outcome) := SendLoop(w.db, w.Slot(), w.Tokens(), D.Seal(w.lane, value), deadline, world, i);
            Sound(after) && Leads(w, after) && after.db == db && SendOutcomeOn(w, after, value, outcome.Stored?)
    decreases deadline + POLL_INTERVAL_MS - w.db.now
  {
    var after := Sent(w, value, deadline, world, around, i);
    var seen := Others(w, around(i).before);
    var tried := After(seen, Try(seen, value));
    if world(i).fault.LostBefore? {
      FailureIsStep(seen, value);
      LeadsOn(w, seen, after);
    } else {
      TryIsStep(seen, value);
      OneHappening(seen, Try(seen, value));
      LeadsOn(w, seen, tried);
      if seen.lane.box.slot.None? {
        if world(i).fault.LostAfter? {
          StopIsStep(tried);
          LeadsOn(w, tried, after);
        }
      } else if world(i).fault.LostAfter? {
        FailureIsStep(tried, value);
        LeadsOn(w, tried, after);
      } else {
        var answered := Others(seen, around(i).after);
        LeadsOn(w, seen, answered);
        if answered.db.now >= deadline {
          FailureIsStep(answered, value);
          LeadsOn(w, answered, after);
        } else {
          var late := Slept(answered, POLL_INTERVAL_MS);
          LeadsOn(w, answered, late);
          SendLoopIsSteps(late, value, deadline, world, around, i + 1);
          LeadsOn(w, late, after);
        }
      }
    }
  }

  // ---------------------------------------------------------------- receiving

  predicate CanReceive(w: Wire) { w.lane.receiver.alive && w.lane.receiver.phase.Ready? }

  const LEAVES: LaneHappening := Happening(None, Some(D.ReceiverStops))

  /** BLPOP: the lane's Pop, or tokens that vanish with a lost reply. */
  function Pops(w: Wire, lost: bool): LaneHappening {
    var a := TakeReady(w.host, w.dir, w.id);
    Happening(Some(a), Some(if lost then D.Store(View(Redis.Apply(w.db, a), w.host, w.dir, w.id)) else D.Pop))
  }

  function Gets(w: Wire): LaneHappening { Happening(Some(Read(w.host, w.dir, w.id)), Some(D.Get)) }

  /** What others do before BLPOP and between it and GET. */
  ghost predicate ExplainsReceive(w: Wire, pop: Turn, get: Turn, before: seq<LaneHappening>, between: seq<LaneHappening>)
    requires Sound(w) && CanReceive(w)
  {
    OthersDo(w, before, pop.before) && ReceiverIdle(before)
    && var waited := Others(w, before);
    (pop.fault.NoFault? && waited.lane.box.tokens > 0 ==>
       OthersDo(Popped(waited), between, get.before) && ReceiverIdle(between))
  }

  ghost function Popped(w: Wire): (after: Wire)
    requires Sound(w) && CanReceive(w) && w.lane.box.tokens > 0
    ensures Sound(after) && Leads(w, after) && after.db == Pop(w.db, w.Tokens()).0 && SameLane(w, after)
    ensures after.lane == w.lane.(box := after.lane.box, receiver := w.lane.receiver.(phase := D.Popped))
  {
    RedisRefinesBox(w.db, TakeReady(w.host, w.dir, w.id), w.host, w.dir, w.id);
    OneHappening(w, Pops(w, false));
    After(w, Pops(w, false))
  }

  ghost function Left(w: Wire): (after: Wire)
    requires Sound(w) && w.lane.receiver.alive
    ensures Sound(after) && Leads(w, after) && after.db == w.db && SameLane(w, after) && !after.lane.receiver.alive
    ensures after.lane.delivered == w.lane.delivered && after.lane.accepted == w.lane.accepted
  {
    OneHappening(w, LEAVES);
    After(w, LEAVES)
  }

  /** Where a receive leaves the wire. */
  ghost function Received(w: Wire, pop: Turn, get: Turn, before: seq<LaneHappening>, between: seq<LaneHappening>): Wire
    requires Sound(w) && CanReceive(w) && ExplainsReceive(w, pop, get, before, between)
  {
    var waited := Others(w, before);
    if pop.fault.LostBefore? then Left(waited)
    else if pop.fault.LostAfter? then (LostPopIsLegal(waited); Left(After(waited, Pops(waited, true))))
    else if waited.lane.box.tokens == 0 then Left(waited)
    else
      var seen := Others(Popped(waited), between);
      if get.fault.NoFault? then After(seen, Gets(seen)) else Left(seen)
  }

  lemma LostPopIsLegal(w: Wire)
    requires Sound(w)
    ensures var after := After(w, Pops(w, true));
            Legal(w, Pops(w, true)) && Sound(after) && Leads(w, after) && SameReceiver(w, after)
            && after.db == Pop(w.db, w.Tokens()).0
  {
    OthersAreLegal(w, TakeReady(w.host, w.dir, w.id));
    OneHappening(w, Pops(w, true));
  }

  /** What a receive has done to the lane: a value was handed out, from a frame that is still to be
      acknowledged, or the receiver has stopped. */
  predicate ReceiveOutcomeOn(w: Wire, after: Wire, frame: Result<Frame, TransportError>) {
    SameLane(w, after) && after.lane.accepted == w.lane.accepted
    && match frame
       case Err(_) => !after.lane.receiver.alive && after.lane.delivered == w.lane.delivered
       case Ok(f) =>
         match OpenFrame(f, w.lane.key, w.lane.aad, w.lane.receiver.counter)
         case None => !after.lane.receiver.alive && after.lane.delivered == w.lane.delivered
         case Some(value) =>
           after.lane.receiver == w.lane.receiver.(phase := D.Held(f, value))
           && after.lane.delivered == w.lane.delivered + [value]
  }

  lemma GetIsStep(w: Wire)
    requires Sound(w) && w.lane.receiver.alive && w.lane.receiver.phase.Popped?
    ensures var after := After(w, Gets(w));
            Sound(after) && Leads(w, after) && after.db == w.db
            && ReceiveOutcomeOn(w, after, match SlotOf(w.db, w.Slot()) case None => Err(ExpiredUnread) case Some(f) => Ok(f))
  {
    OneHappening(w, Gets(w));
  }

  /** `recv_frame` and the opening of its frame are a run of the lane: Pop and Get, or a stopped
      receiver. */
  lemma ReceiveIsSteps(w: Wire, forever: bool, pop: Turn, get: Turn, before: seq<LaneHappening>, between: seq<LaneHappening>)
    requires Sound(w) && CanReceive(w) && ExplainsReceive(w, pop, get, before, between)
    ensures var after := Received(w, pop, get, before, between);
            var (db, frame) := Receive(w.db, w.Slot(), w.Tokens(), forever, pop, get);
            Sound(after) && Leads(w, after) && after.db == db && ReceiveOutcomeOn(w, after, frame)
  {
    var after := Received(w, pop, get, before, between);
    var waited := Others(w, before);
    if pop.fault.LostAfter? {
      LostPopIsLegal(waited);
      LeadsOn(w, waited, After(waited, Pops(waited, true)));
      LeadsOn(w, After(waited, Pops(waited, true)), after);
    } else if pop.fault.LostBefore? || waited.lane.box.tokens == 0 {
      LeadsOn(w, waited, after);
    } else {
      var popped := Popped(waited);
      var seen := Others(popped, between);
      LeadsOn(w, waited, popped);
      LeadsOn(w, popped, seen);
      if get.fault.NoFault? {
        GetIsStep(seen);
      }
      LeadsOn(w, seen, after);
    }
  }

  // ---------------------------------------------------------------- acknowledging

  predicate Holds(w: Wire, frame: Frame) {
    w.lane.receiver.alive && w.lane.receiver.phase.Held? && w.lane.receiver.phase.frame == frame
  }

  /** The compare-and-delete: the lane's Ack, or a frame cleared with a lost reply. */
  function Acks(w: Wire, frame: Frame, lost: bool): LaneHappening {
    var a := Ack(w.host, w.dir, w.id, frame);
    Happening(Some(a), Some(if lost then D.Store(View(Redis.Apply(w.db, a), w.host, w.dir, w.id)) else D.Ack))
  }

  ghost function Acknowledged(w: Wire, frame: Frame, turn: Turn, before: seq<LaneHappening>): Wire
    requires Sound(w) && Holds(w, frame) && OthersDo(w, before, turn.before) && ReceiverIdle(before)
  {
    var seen := Others(w, before);
    if turn.fault.NoFault? then After(seen, Acks(seen, frame, false))
    else if turn.fault.LostBefore? then Left(seen)
    else (LostAckIsLegal(seen, frame); Left(After(seen, Acks(seen, frame, true))))
  }

  lemma LostAckIsLegal(w: Wire, frame: Frame)
    requires Sound(w)
    ensures var after := After(w, Acks(w, frame, true));
            Legal(w, Acks(w, frame, true)) && Sound(after) && Leads(w, after) && SameReceiver(w, after)
            && after.db == AckScript(w.db, w.Slot(), frame).0
  {
    OthersAreLegal(w, Ack(w.host, w.dir, w.id, frame));
    OneHappening(w, Acks(w, frame, true));
  }

  predicate AckOutcomeOn(w: Wire, after: Wire, ok: bool) {
    SameLane(w, after) && after.lane.delivered == w.lane.delivered
    && if ok then
         w.lane.receiver.phase.Held? && after.lane.receiver == w.lane.receiver.(phase := D.Cleared)
         && after.lane.accepted == w.lane.accepted + [w.lane.receiver.phase.value]
       else !after.lane.receiver.alive && after.lane.accepted == w.lane.accepted
  }

  lemma AckIsStep(w: Wire, frame: Frame)
    requires Sound(w) && Holds(w, frame)
    ensures var after := After(w, Acks(w, frame, false));
            Sound(after) && Leads(w, after) && after.db == AckScript(w.db, w.Slot(), frame).0
            && AckOutcomeOn(w, after, AckScript(w.db, w.Slot(), frame).1)
  {
    RedisRefinesBox(w.db, Ack(w.host, w.dir, w.id, frame), w.host, w.dir, w.id);
    OneHappening(w, Acks(w, frame, false));
  }

  /** `acknowledge` is a run of the lane: its Ack, or a stopped receiver. */
  lemma AcknowledgementIsSteps(w: Wire, frame: Frame, turn: Turn, before: seq<LaneHappening>)
    requires Sound(w) && Holds(w, frame) && OthersDo(w, before, turn.before) && ReceiverIdle(before)
    ensures var after := Acknowledged(w, frame, turn, before);
            var (db, r) := Acknowledgement(w.db, w.Slot(), frame, turn);
            Sound(after) && Leads(w, after) && after.db == db && AckOutcomeOn(w, after, r.Ok?)
  {
    var seen := Others(w, before);
    var after := Acknowledged(w, frame, turn, before);
    if turn.fault.NoFault? {
      AckIsStep(seen, frame);
    } else if turn.fault.LostAfter? {
      LostAckIsLegal(seen, frame);
      LeadsOn(w, seen, After(seen, Acks(seen, frame, true)));
      LeadsOn(w, After(seen, Acks(seen, frame, true)), after);
      return;
    }
    LeadsOn(w, seen, after);
  }

  // ---------------------------------------------------------------- the prefix theorem, on Redis

  /** The lane's part of a legal run is a run of Delivery. */
  lemma {:induction false} EventsAreSteps(w: Wire, events: seq<LaneHappening>, lanes: seq<D.Lane>, steps: seq<D.Step>)
    returns (allLanes: seq<D.Lane>, allSteps: seq<D.Step>)
    requires AllLegal(w, events) && D.IsRun(lanes, steps) && lanes[|steps|] == w.lane
    ensures D.IsRun(allLanes, allSteps) && allLanes[|allSteps|] == Run(w, events).lane
    decreases |events|
  {
    if events == [] {
      return lanes, steps;
    }
    var next := After(w, events[0]);
    if events[0].step.None? {
      allLanes, allSteps := EventsAreSteps(next, events[1..], lanes, steps);
    } else {
      allLanes, allSteps := EventsAreSteps(next, events[1..], lanes + [next.lane], steps + [events[0].step.value]);
    }
  }

  /** In every run over Redis, of any channel calls between any commands of others: the values
      received and the values acknowledged are prefixes of the values placed, at most one is
      unacknowledged, and no two values were sealed under one counter. */
  lemma ChannelDelivers(start: Wire, w: Wire)
    requires D.Init(start.lane) && Leads(start, w)
    ensures w.lane.accepted <= w.lane.delivered <= w.lane.sent && |w.lane.delivered| <= |w.lane.accepted| + 1
    ensures forall f :: f in w.lane.seals ==> f.Sealed?
    ensures CountersDistinct(w.lane.seals)
  {
    var events :| AllLegal(start, events) && Run(start, events) == w;
    var lanes, steps := EventsAreSteps(start, events, [start.lane], []);
    D.ReceivedIsPrefixOfPlaced(lanes, steps, |steps|);
    D.RunKeepsInv(lanes, steps, |steps|);
  }

  // ---------------------------------------------------------------- the objects

  /** The channel is the sending end of the wire, and its caller has not given up. */
  ghost predicate SendsOn(w: Wire, channel: SecureChannel)
    reads channel, channel.transport, channel.transport.redis
  {
    channel.Valid() && channel.transport.redis.db == w.db && CanSend(w)
    && channel.key == w.lane.key && channel.sendAad == w.lane.aad && channel.transport.sendKey == w.Slot()
    && channel.sendCounter == w.lane.sender.counter
    && (channel.transport.wakeQueue.Some? ==> channel.transport.wakeQueue.value == Wake(w.host))
  }

  /** `notify_host`. */
  ghost function Woken(w: Wire, wake: Turn, waking: seq<LaneHappening>): Wire
    requires Sound(w) && OthersDo(w, waking, wake.before)
  {
    var seen := Others(w, waking);
    var pushed := if wake.fault.LostBefore? then seen else After(seen, Happening(Some(Notify(w.host, w.id)), None));
    if wake.fault.NoFault? then pushed else After(pushed, Happening(None, Some(D.SenderStops)))
  }

  lemma WakeIsSteps(w: Wire, wake: Turn, waking: seq<LaneHappening>)
    requires Sound(w) && w.lane.sender.alive && OthersDo(w, waking, wake.before) && SenderIdle(waking)
    ensures var after := Woken(w, wake, waking);
            Sound(after) && Leads(w, after) && SameLane(w, after)
            && after.lane.sent == w.lane.sent && after.lane.seals == w.lane.seals
            && (if wake.fault.NoFault? then SameSender(w, after) else !after.lane.sender.alive)
            && after.db == if wake.fault.LostBefore? then ApplyAll(w.db, wake.before)
                           else PushWake(ApplyAll(w.db, wake.before), Wake(w.host), w.id)
  {
    var seen := Others(w, waking);
    var notify := Happening(Some(Notify(w.host, w.id)), None);
    RedisRefinesBox(seen.db, Notify(w.host, w.id), w.host, w.dir, w.id);
    OneHappening(seen, notify);
    LeadsOn(w, seen, After(seen, notify));
    var pushed := if wake.fault.LostBefore? then seen else After(seen, notify);
    if !wake.fault.NoFault? {
      StopIsStep(pushed);
      LeadsOn(w, pushed, Woken(w, wake, waking));
    }
  }

  /** The counter moves, or the sender stops at its maximum. */
  lemma AdvanceIsStep(w: Wire)
    requires Sound(w) && w.lane.sender.alive && w.lane.sender.placed
    ensures var after := After(w, Happening(None, Some(D.SendAdvance)));
            Sound(after) && Leads(w, after) && after.db == w.db && SameLane(w, after)
            && after.lane.sent == w.lane.sent && after.lane.seals == w.lane.seals
            && after.lane.sender == if w.lane.sender.counter == U64_MAX then w.lane.sender.(alive := false)
                                    else D.Sender(true, w.lane.sender.counter + 1, false)
  {
    OneHappening(w, Happening(None, Some(D.SendAdvance)));
  }

  /** What others do during one call of `send`: around its attempts, and around the wake. */
  datatype Company = Company(around: nat -> Around, waking: seq<LaneHappening>)

  function Deadline(w: Wire): nat { w.db.now + MESSAGE_TIMEOUT_MS }

  ghost predicate ExplainsSend(w: Wire, value: Plain, world: World, wake: Turn, woken: bool, company: Company)
    requires Sound(w) && CanSend(w)
  {
    Explains(w, Deadline(w), world, company.around, 0)
    && var sent := Sent(w, value, Deadline(w), world, company.around, 0);
    (sent.lane.sender.alive && woken ==> OthersDo(sent, company.waking, wake.before) && SenderIdle(company.waking))
  }

  /** Where a call of `send` leaves the wire once its frame is placed. */
  ghost function Finished(w: Wire, wake: Turn, woken: bool, waking: seq<LaneHappening>): Wire
    requires Sound(w) && (woken ==> OthersDo(w, waking, wake.before))
  {
    var last := if woken then Woken(w, wake, waking) else w;
    if last.lane.sender.alive then After(last, Happening(None, Some(D.SendAdvance))) else last
  }

  lemma FinishIsSteps(w: Wire, wake: Turn, woken: bool, waking: seq<LaneHappening>)
    requires Sound(w) && w.lane.sender.alive && w.lane.sender.placed
    requires woken ==> OthersDo(w, waking, wake.before) && SenderIdle(waking)
    ensures var after := Finished(w, wake, woken, waking);
            Sound(after) && Leads(w, after) && SameLane(w, after)
            && after.lane.sent == w.lane.sent && after.lane.seals == w.lane.seals
            && (if (woken && !wake.fault.NoFault?) || w.lane.sender.counter == U64_MAX then !after.lane.sender.alive
                else after.lane.sender == D.Sender(true, w.lane.sender.counter + 1, false))
            && after.db == if !woken then w.db
                           else if wake.fault.LostBefore? then ApplyAll(w.db, wake.before)
                           else PushWake(ApplyAll(w.db, wake.before), Wake(w.host), w.id)
  {
    var last := if woken then Woken(w, wake, waking) else w;
    StaysThere(w);
    if woken {
      WakeIsSteps(w, wake, waking);
    }
    if last.lane.sender.alive {
      AdvanceIsStep(last);
      LeadsOn(w, last, Finished(w, wake, woken, waking));
    }
  }

  lemma StaysThere(w: Wire)
    ensures Leads(w, w)
  {
    var nothing: seq<LaneHappening> := [];
    assert AllLegal(w, nothing) && Run(w, nothing) == w;
  }

  /** Where a call of `send` leaves the wire. */
  ghost function SendEnd(w: Wire, value: Plain, fits: bool, world: World, wake: Turn, woken: bool, company: Company): Wire
    requires Sound(w) && CanSend(w) && (fits ==> ExplainsSend(w, value, world, wake, woken, company))
  {
    if !fits then After(w, Fails(value))
    else
      var sent := Sent(w, value, Deadline(w), world, company.around, 0);
      if sent.lane.sender.alive && Sound(sent) then Finished(sent, wake, woken, company.waking) else sent
  }

  /** What a whole call has done: the value was sealed; if `ok` its frame was placed and the
      counter moved; otherwise the sender has stopped. */
  predicate CallOutcomeOn(w: Wire, after: Wire, value: Plain, ok: bool) {
    SameLane(w, after) && after.lane.seals == w.lane.seals + [D.Seal(w.lane, value)]
    && (after.lane.sent == w.lane.sent + [value] || (!ok && after.lane.sent == w.lane.sent))
    && if ok then after.lane.sender == D.Sender(true, w.lane.sender.counter + 1, false) else !after.lane.sender.alive
  }

  function WithWake(w: Wire, db: Db, wake: Turn, woken: bool): Db {
    if !woken then db
    else if wake.fault.LostBefore? then ApplyAll(db, wake.before)
    else PushWake(ApplyAll(db, wake.before), Wake(w.host), w.id)
  }

  lemma StoredIsFinished(w: Wire, sent: Wire, value: Plain, wake: Turn, woken: bool, waking: seq<LaneHappening>)
    requires CanSend(w) && Sound(sent) && Leads(w, sent) && SendOutcomeOn(w, sent, value, true)
    requires woken ==> OthersDo(sent, waking, wake.before) && SenderIdle(waking)
    ensures var after := Finished(sent, wake, woken, waking);
            Sound(after) && Leads(w, after) && after.db == WithWake(w, sent.db, wake, woken)
            && CallOutcomeOn(w, after, value, !(woken && !wake.fault.NoFault?) && w.lane.sender.counter != U64_MAX)
  {
    FinishIsSteps(sent, wake, woken, waking);
    LeadsOn(w, sent, Finished(sent, wake, woken, waking));
  }

  lemma SendIsSteps(w: Wire, value: Plain, fits: bool, world: World, wake: Turn, woken: bool, company: Company)
    requires Sound(w) && CanSend(w) && (fits ==> ExplainsSend(w, value, world, wake, woken, company))
    ensures var after := SendEnd(w, value, fits, world, wake, woken, company);
            var (sent, outcome) := SendLoop(w.db, w.Slot(), w.Tokens(), D.Seal(w.lane, value), Deadline(w), world, 0);
            Sound(after) && Leads(w, after)
            && CallOutcomeOn(w, after, value, fits && outcome.Stored? && !(woken && !wake.fault.NoFault?)
                                              && w.lane.sender.counter != U64_MAX)
            && after.db == if !fits then w.db else if outcome.Failed? then sent else WithWake(w, sent, wake, woken)
  {
    if !fits {
      FailureIsStep(w, value);
    } else {
      SendLoopIsSteps(w, value, Deadline(w), world, company.around, 0);
      var sent := Sent(w, value, Deadline(w), world, company.around, 0);
      var outcome := SendLoop(w.db, w.Slot(), w.Tokens(), D.Seal(w.lane, value), Deadline(w), world, 0).1;
      if outcome.Stored? {
        StoredIsFinished(w, sent, value, wake, woken, company.waking);
        assert SendEnd(w, value, fits, world, wake, woken, company).db == WithWake(w, sent.db, wake, woken);
      } else {
        assert SendEnd(w, value, fits, world, wake, woken, company).db == sent.db;
      }
    }
  }

  /** `SecureChannel.Send` is a run of the lane. On success one more value is placed and the channel
      is again the wire's sending end; on failure the sender has stopped. */
  method SendOn(channel: SecureChannel, value: Plain, length: nat, world: World, wake: Turn,
                ghost w: Wire, ghost company: Company)
    returns (r: Result<(), ChannelError>, ghost after: Wire)
    requires Sound(w) && SendsOn(w, channel)
    requires length <= MAX_FRAME_BYTES ==> ExplainsSend(w, value, world, wake, channel.transport.wakeQueue.Some?, company)
    modifies channel`sendCounter, channel.transport.redis, channel.transport`wakeQueue
    ensures Sound(after) && Leads(w, after) && after.db == channel.transport.redis.db
    ensures after.lane.seals == w.lane.seals + [D.Seal(w.lane, value)]
    ensures after.lane.sent == w.lane.sent || after.lane.sent == w.lane.sent + [value]
    ensures r.Ok? ==> SendsOn(after, channel) && after.lane.sent == w.lane.sent + [value]
    ensures r.Err? ==> !after.lane.sender.alive
  {
    ghost var fits, woken := length <= MAX_FRAME_BYTES, channel.transport.wakeQueue.Some?;
    ghost var loop := SendLoop(w.db, w.Slot(), w.Tokens(), D.Seal(w.lane, value), Deadline(w), world, 0);
    r := channel.Send(value, length, world, wake);
    if fits && loop.1.Stored? {
      assert channel.transport.redis.db == WithWake(w, loop.0, wake, woken);
    } else {
      assert channel.transport.redis.db == if fits then loop.0 else w.db;
    }
    SendIsSteps(w, value, fits, world, wake, woken, company);
    after := SendEnd(w, value, fits, world, wake, woken, company);
  }

  /** The channel is the receiving end of the wire, and its caller has not given up. */
  ghost predicate ReceivesOn(w: Wire, channel: SecureChannel)
    reads channel, channel.transport, channel.transport.redis
  {
    channel.Valid() && channel.transport.redis.db == w.db && w.lane.receiver.alive
    && channel.key == w.lane.key && channel.recvAad == w.lane.aad && channel.transport.recvKey == w.Slot()
    && channel.recvCounter == w.lane.receiver.counter
    && match w.lane.receiver.phase
       case Ready => channel.transport.pending == None
       case Held(f, _) => channel.transport.pending == Some(f)
       case _ => false
  }

  /** `SecureChannel.RecvUnacknowledged` is a run of the lane: it returns the next value of the
      lane, or the receiver has stopped; and it refuses while a value is unacknowledged. */
  method ReceiveOn(channel: SecureChannel, pop: Turn, get: Turn,
                   ghost w: Wire, ghost before: seq<LaneHappening>, ghost between: seq<LaneHappening>)
    returns (r: Result<Plain, ChannelError>, ghost after: Wire)
    requires Sound(w) && ReceivesOn(w, channel)
    requires CanReceive(w) ==> ExplainsReceive(w, pop, get, before, between)
    modifies channel.transport.redis, channel.transport`pending, channel.transport`leased
    ensures Sound(after) && Leads(w, after) && after.db == channel.transport.redis.db
    ensures !CanReceive(w) ==> after == w && r == Err(ChannelError.Transport(StillPending))
    ensures r.Ok? ==> ReceivesOn(after, channel) && !CanReceive(after) && after.lane.delivered == w.lane.delivered + [r.value]
    ensures r.Err? ==> after.lane.delivered == w.lane.delivered && (CanReceive(w) ==> !after.lane.receiver.alive)
  {
    ghost var forever := channel.transport.receiveTimeoutSeconds == 0;
    r := channel.RecvUnacknowledged(pop, get);
    after := w;
    if CanReceive(w) {
      ReceiveIsSteps(w, forever, pop, get, before, between);
      after := Received(w, pop, get, before, between);
    } else {
      StaysThere(w);
    }
  }

  /** The counter moves, or the receiver stops at its maximum. */
  lemma NextIsStep(w: Wire)
    requires Sound(w) && w.lane.receiver.alive && w.lane.receiver.phase.Cleared?
    ensures var after := After(w, Happening(None, Some(D.RecvAdvance)));
            Sound(after) && Leads(w, after) && after.db == w.db && SameLane(w, after) && after.lane.accepted == w.lane.accepted
            && if w.lane.receiver.counter == U64_MAX then !after.lane.receiver.alive
               else after.lane.receiver == D.Receiver(true, w.lane.receiver.counter + 1, D.Ready)
  {
    OneHappening(w, Happening(None, Some(D.RecvAdvance)));
  }

  /** `SecureChannel.Acknowledge` of the value held is a run of the lane: on success it is accepted
      and the channel can receive the next one; on failure the receiver has stopped. */
  method AcknowledgeOn(channel: SecureChannel, turn: Turn, ghost w: Wire, ghost before: seq<LaneHappening>)
    returns (r: Result<(), ChannelError>, ghost after: Wire)
    requires Sound(w) && ReceivesOn(w, channel) && !CanReceive(w)
    requires OthersDo(w, before, turn.before) && ReceiverIdle(before)
    modifies channel`recvCounter, channel.transport.redis, channel.transport`pending, channel.transport`leased
    ensures Sound(after) && Leads(w, after) && after.db == channel.transport.redis.db
    ensures r.Ok? ==> ReceivesOn(after, channel) && CanReceive(after)
                      && after.lane.accepted == w.lane.accepted + [w.lane.receiver.phase.value]
    ensures r.Err? ==> !after.lane.receiver.alive
  {
    ghost var frame := w.lane.receiver.phase.frame;
    r := channel.Acknowledge(turn);
    AcknowledgementIsSteps(w, frame, turn, before);
    after := Acknowledged(w, frame, turn, before);
    if after.lane.receiver.alive {
      NextIsStep(after);
      ghost var next := After(after, Happening(None, Some(D.RecvAdvance)));
      LeadsOn(w, after, next);
      after := next;
    }
  }
}
