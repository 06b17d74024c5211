/** `RedisTransport` (src/redis_transport.rs): sending, receiving and acknowledging frames
    against a Redis that other clients keep changing between any two commands. */
module Transport {
  import opened Wrappers
  import opened Protocol
  import opened Keys
  import opened Redis

  const MAX_FRAME_BYTES: nat := 16 * 1024 * 1024

  datatype TransportError =
    | TooLarge | ConnectionLost | NotAcknowledged
    | StillPending | TimedOut | NeverArrived | ExpiredUnread
    | NothingPending | ChangedOrExpired
    | BadHostname | UnknownHost

  /** A command can fail before Redis sees it, or after it took effect. */
  datatype Fault = NoFault | LostBefore | LostAfter

  /** What the world does around one command: before it runs, and until its reply is read. */
  datatype Turn = Turn(before: seq<Action>, fault: Fault, after: seq<Action>)

  type World = nat -> Turn

  datatype SendOutcome = Stored | Failed(error: TransportError)

  lemma {:induction false} TimePasses(db: Db, actions: seq<Action>)
    ensures ApplyAll(db, actions).now == db.now + Elapsed(actions)
    decreases |actions|
  {
    if actions != [] {
      TimePasses(Apply(db, actions[0]), actions[1..]);
    }
  }

  /** The retry loop of `send_frame` from attempt `i` on. */
  function SendLoop(db: Db, key: KeyName, ready: KeyName, frame: Frame, deadline: nat, world: World, i: nat)
    : (Db, SendOutcome)
    decreases deadline + POLL_INTERVAL_MS - db.now
  {
    var turn := world(i);
    var seen := ApplyAll(db, turn.before);
    if turn.fault.LostBefore? then (seen, Failed(ConnectionLost))
    else
      var (tried, stored) := SendScript(seen, key, ready, frame);
      if turn.fault.LostAfter? then (tried, Failed(ConnectionLost))
      else if stored then (tried, Stored)
      else
        var answered := ApplyAll(tried, turn.after);
        if answered.now >= deadline then (answered, Failed(NotAcknowledged))
        else
          TimePasses(db, turn.before);
          TimePasses(tried, turn.after);
          SendLoop(Tick(answered, POLL_INTERVAL_MS), key, ready, frame, deadline, world, i + 1)
  }

  /** Nobody else places or renews a frame in this mailbox. */
  predicate LeavesSlot(actions: seq<Action>, key: KeyName) {
    forall a :: a in actions ==> !((a.Send? || a.Renew?) && key == Message(a.host, a.dir, a.id))
  }

  const REPLY_SLACK_MS: nat := MESSAGE_TIMEOUT_MS - MESSAGE_TTL_MS

  ghost predicate Undisturbed(world: World, key: KeyName) {
    forall i :: world(i).fault.NoFault? && LeavesSlot(world(i).before, key) && LeavesSlot(world(i).after, key)
                && Elapsed(world(i).after) <= REPLY_SLACK_MS
  }

  /** Once nobody renews it, an occupied slot keeps its expiry until it is empty. */
  lemma {:induction false} SlotOnlyEmpties(db: Db, actions: seq<Action>, key: KeyName)
    requires Bounded(db) && key.Message? && LeavesSlot(actions, key)
    ensures Bounded(ApplyAll(db, actions))
    ensures key in ApplyAll(db, actions).data ==> key in db.data && ApplyAll(db, actions).data[key] == db.data[key]
    decreases |actions|
  {
    if actions != [] {
      var a := actions[0];
      assert a in actions;
      ActionKeepsBounded(db, a);
      assert key in Apply(db, a).data ==> key in db.data && Apply(db, a).data[key] == db.data[key];
      SlotOnlyEmpties(Apply(db, a), actions[1..], key);
    }
  }

  /** A sender blocked by an abandoned frame places its own before it gives up: MESSAGE_TIMEOUT
      outlasts MESSAGE_TTL by the slack allowed for one reply. */
  lemma BlockedSenderSucceeds(db: Db, key: KeyName, ready: KeyName, frame: Frame, deadline: nat, world: World, i: nat)
    requires Bounded(db) && key.Message? && ready == Ready(key.host, key.dir, key.id)
    requires Undisturbed(world, key)
    requires key in db.data ==> db.data[key].expires.Some? && db.data[key].expires.value + REPLY_SLACK_MS <= deadline
    ensures var (after, outcome) := SendLoop(db, key, ready, frame, deadline, world, i);
            outcome == Stored && SlotOf(after, key) == Some(frame)
    decreases deadline + POLL_INTERVAL_MS - db.now
  {
    var turn := world(i);
    SlotOnlyEmpties(db, turn.before, key);
    TimePasses(db, turn.before);
    var seen := ApplyAll(db, turn.before);
    if key in seen.data {
      assert Timed(seen, key);
      SlotOnlyEmpties(seen, turn.after, key);
      TimePasses(seen, turn.after);
      var answered := ApplyAll(seen, turn.after);
      var next := Tick(answered, POLL_INTERVAL_MS);
      ActionKeepsBounded(answered, Elapse(POLL_INTERVAL_MS));
      BlockedSenderSucceeds(next, key, ready, frame, deadline, world, i + 1);
    }
  }

  /** As `send_frame` meets it: whatever lies in the slot, at most MESSAGE_TTL_MS remain. */
  lemma SenderOutwaitsAbandonedFrame(db: Db, key: KeyName, frame: Frame, world: World)
    requires Bounded(db) && key.Message? && Undisturbed(world, key)
    ensures var (after, outcome) :=
              SendLoop(db, key, Ready(key.host, key.dir, key.id), frame, db.now + MESSAGE_TIMEOUT_MS, world, 0);
            outcome == Stored && SlotOf(after, key) == Some(frame)
  {
    if key in db.data {
      assert Timed(db, key);
    }
    BlockedSenderSucceeds(db, key, Ready(key.host, key.dir, key.id), frame, db.now + MESSAGE_TIMEOUT_MS, world, 0);
  }

  /** What attempt number `i` of a sender finds, the earlier ones having been refused. */
  function Attempt(db: Db, world: World, i: nat): Db {
    if i == 0 then ApplyAll(db, world(0).before)
    else ApplyAll(Tick(ApplyAll(Attempt(db, world, i - 1), world(i - 1).after), POLL_INTERVAL_MS), world(i).before)
  }

  /** It is told in time that the slot is taken. */
  predicate Refused(db: Db, key: KeyName, deadline: nat, world: World, i: nat) {
    var seen := Attempt(db, world, i);
    world(i).fault.NoFault? && key in seen.data && ApplyAll(seen, world(i).after).now < deadline
  }

  /** What attempt number `k` leaves behind and reports, when it is the last. */
  predicate LastAttempt(db: Db, key: KeyName, frame: Frame, world: World, k: nat, after: Db, outcome: SendOutcome)
    requires key.Message?
  {
    var seen, turn := Attempt(db, world, k), world(k);
    outcome == (if !turn.fault.NoFault? then Failed(ConnectionLost)
                else if key in seen.data then Failed(NotAcknowledged) else Stored)
    && after == (if turn.fault.LostBefore? then seen
                 else if key !in seen.data then Apply(seen, Send(key.host, key.dir, key.id, frame))
                 else if turn.fault.LostAfter? then seen
                 else ApplyAll(seen, turn.after))
  }

  ghost predicate AllRefused(db: Db, key: KeyName, deadline: nat, world: World, i: nat) {
    forall j :: 0 <= j < i ==> Refused(db, key, deadline, world, j)
  }

  /** `send_frame` tries at once and then once in every POLL_INTERVAL_MS, until an attempt fails, or
      finds the slot free, or is told after the deadline that it is taken. The frame is placed exactly
      by a last attempt that reaches Redis and finds the slot free. */
  lemma SendLoopExactly(db: Db, key: KeyName, frame: Frame, deadline: nat, world: World) returns (k: nat)
    requires Bounded(db) && key.Message?
    ensures AllRefused(db, key, deadline, world, k) && !Refused(db, key, deadline, world, k)
    ensures var (after, outcome) := SendLoop(db, key, Ready(key.host, key.dir, key.id), frame, deadline, world, 0);
            LastAttempt(db, key, frame, world, k, after, outcome)
  {
    k := AttemptsFrom(db, db, key, frame, deadline, world, 0);
  }

  /** The same from attempt `i` on, which begins at `here`. */
  lemma AttemptsFrom(db: Db, here: Db, key: KeyName, frame: Frame, deadline: nat, world: World, i: nat) returns (k: nat)
    requires Bounded(here) && key.Message? && Attempt(db, world, i) == ApplyAll(here, world(i).before)
    requires AllRefused(db, key, deadline, world, i)
    ensures AllRefused(db, key, deadline, world, k) && !Refused(db, key, deadline, world, k)
    ensures var (after, outcome) := SendLoop(here, key, Ready(key.host, key.dir, key.id), frame, deadline, world, i);
            LastAttempt(db, key, frame, world, k, after, outcome)
    decreases deadline + POLL_INTERVAL_MS - here.now
  {
    if Refused(db, key, deadline, world, i) {
      var next := Retry(db, here, key, deadline, world, i);
      LoopGoesOn(here, next, key, frame, deadline, world, i);
      k := AttemptsFrom(db, next, key, frame, deadline, world, i + 1);
    } else {
      k := i;
      LoopEnds(db, here, key, frame, deadline, world, i);
    }
  }

  /** Where the next attempt begins. */
  lemma Retry(db: Db, here: Db, key: KeyName, deadline: nat, world: World, i: nat) returns (next: Db)
    requires Bounded(here) && Attempt(db, world, i) == ApplyAll(here, world(i).before)
    requires AllRefused(db, key, deadline, world, i) && Refused(db, key, deadline, world, i)
    ensures next == Tick(ApplyAll(ApplyAll(here, world(i).before), world(i).after), POLL_INTERVAL_MS)
    ensures Bounded(next) && Attempt(db, world, i + 1) == ApplyAll(next, world(i + 1).before)
    ensures AllRefused(db, key, deadline, world, i + 1) && here.now + POLL_INTERVAL_MS <= next.now < deadline + POLL_INTERVAL_MS
  {
    var seen := ApplyAll(here, world(i).before);
    var answered := ApplyAll(seen, world(i).after);
    next := Tick(answered, POLL_INTERVAL_MS);
    ExpiryAlwaysBounded(here, world(i).before);
    ExpiryAlwaysBounded(seen, world(i).after);
    ActionKeepsBounded(answered, Elapse(POLL_INTERVAL_MS));
    TimePasses(here, world(i).before);
    TimePasses(seen, world(i).after);
  }

  lemma LoopGoesOn(here: Db, next: Db, key: KeyName, frame: Frame, deadline: nat, world: World, i: nat)
    requires key.Message? && next == Tick(ApplyAll(ApplyAll(here, world(i).before), world(i).after), POLL_INTERVAL_MS)
    requires world(i).fault.NoFault? && key in ApplyAll(here, world(i).before).data && next.now < deadline + POLL_INTERVAL_MS
    ensures SendLoop(here, key, Ready(key.host, key.dir, key.id), frame, deadline, world, i)
            == SendLoop(next, key, Ready(key.host, key.dir, key.id), frame, deadline, world, i + 1)
  {
  }

  lemma LoopEnds(db: Db, here: Db, key: KeyName, frame: Frame, deadline: nat, world: World, i: nat)
    requires key.Message? && Bounded(here)
    requires Attempt(db, world, i) == ApplyAll(here, world(i).before) && !Refused(db, key, deadline, world, i)
    ensures var (after, outcome) := SendLoop(here, key, Ready(key.host, key.dir, key.id), frame, deadline, world, i);
            LastAttempt(db, key, frame, world, i, after, outcome)
  {
    ExpiryAlwaysBounded(here, world(i).before);
    FreeSlotStores(ApplyAll(here, world(i).before), key, frame);
  }

  lemma FreeSlotStores(db: Db, key: KeyName, frame: Frame)
    requires Bounded(db) && key.Message?
    ensures var (after, stored) := SendScript(db, key, Ready(key.host, key.dir, key.id), frame);
            (stored <==> key !in db.data) && after == if stored then Apply(db, Send(key.host, key.dir, key.id, frame)) else db
  {
    if Ready(key.host, key.dir, key.id) in db.data {
      assert Typed(db, Ready(key.host, key.dir, key.id));
    }
  }

  /** BLPOP after the world has had its say, then GET after it has had its say again. */
  function Receive(db: Db, key: KeyName, ready: KeyName, forever: bool, pop: Turn, get: Turn)
    : (Db, Result<Frame, TransportError>)
  {
    var waited := ApplyAll(db, pop.before);
    if pop.fault.LostBefore? then (waited, Err(ConnectionLost))
    else
      var (popped, token) := Pop(waited, ready);
      if pop.fault.LostAfter? then (popped, Err(ConnectionLost))
      else if token.None? then (popped, Err(if forever then NeverArrived else TimedOut))
      else
        var seen := ApplyAll(popped, get.before);
        if !get.fault.NoFault? then (seen, Err(ConnectionLost))
        else match SlotOf(seen, key)
          case None => (seen, Err(ExpiredUnread))
          case Some(frame) => (seen, Ok(frame))
  }

  /** The acknowledgement of `frame`. */
  function Acknowledgement(db: Db, key: KeyName, frame: Frame, turn: Turn): (Db, Result<(), TransportError>) {
    var seen := ApplyAll(db, turn.before);
    if turn.fault.LostBefore? then (seen, Err(ConnectionLost))
    else
      var (cleared, removed) := AckScript(seen, key, frame);
      if turn.fault.LostAfter? then (cleared, Err(ConnectionLost))
      else (cleared, if removed then Ok(()) else Err(ChangedOrExpired))
  }

  /** One frame, through an empty mailbox that others leave alone: placed, it is received if the
      receiver reads it within MESSAGE_TTL_MS; acknowledged in time, the mailbox is empty again. */
  lemma OneFrameArrives(db: Db, key: KeyName, frame: Frame, pop: Turn, get: Turn, ack: Turn)
    requires Bounded(db) && key.Message? && key !in db.data && Ready(key.host, key.dir, key.id) !in db.data
    requires pop.fault.NoFault? && get.fault.NoFault? && ack.fault.NoFault?
    requires var ready := Ready(key.host, key.dir, key.id);
             NotTouched(pop.before, key) && NotTouched(get.before, key) && NotTouched(ack.before, key)
             && NotTouched(pop.before, ready) && NotTouched(get.before, ready) && NotTouched(ack.before, ready)
    requires Elapsed(pop.before) + Elapsed(get.before) + Elapsed(ack.before) < MESSAGE_TTL_MS
    ensures var ready := Ready(key.host, key.dir, key.id);
            var (placed, stored) := SendScript(db, key, ready, frame);
            var (read, r) := Receive(placed, key, ready, false, pop, get);
            var (cleared, a) := Acknowledgement(read, key, frame, ack);
            stored && r == Ok(frame) && a == Ok(()) && key !in cleared.data && ready !in cleared.data
  {
    var ready := Ready(key.host, key.dir, key.id);
    var placed := Apply(db, Send(key.host, key.dir, key.id, frame));
    FreeSlotStores(db, key, frame);
    ActionKeepsBounded(db, Send(key.host, key.dir, key.id, frame));
    KeptBoth(placed, pop.before, key, ready);
    var popped := Apply(ApplyAll(placed, pop.before), TakeReady(key.host, key.dir, key.id));
    ActionKeepsBounded(ApplyAll(placed, pop.before), TakeReady(key.host, key.dir, key.id));
    KeptBoth(popped, get.before, key, ready);
    KeptBoth(ApplyAll(popped, get.before), ack.before, key, ready);
  }

  lemma KeptBoth(db: Db, actions: seq<Action>, key: KeyName, ready: KeyName)
    requires Bounded(db) && NotTouched(actions, key) && NotTouched(actions, ready)
    ensures var after := ApplyAll(db, actions);
            Bounded(after) && after.now == db.now + Elapsed(actions)
            && (key in db.data && Live(db.data[key], after.now) ==> key in after.data && after.data[key] == db.data[key])
            && (ready in db.data && Live(db.data[ready], after.now) ==> ready in after.data && after.data[ready] == db.data[ready])
            && (ready !in db.data ==> ready !in after.data)
  {
    ExpiryAlwaysBounded(db, actions);
    UntouchedUntilExpiry(db, actions, key);
    UntouchedUntilExpiry(db, actions, ready);
  }

  /** The raw transport alone is not gap-free: a token taken for one frame can fetch the next
      when the first expires between BLPOP and GET. */
  lemma TokenCanFetchNextFrame(host: string, id: string, first: Frame, second: Frame)
    requires first != second
    ensures var db := Store(0, map[]);
            var key, ready := Message(host, ToHost, id), Ready(host, ToHost, id);
            var pop := Turn([Send(host, ToHost, id, first)], NoFault, []);
            var get := Turn([Elapse(MESSAGE_TTL_MS), Send(host, ToHost, id, second)], NoFault, []);
            Receive(db, key, ready, false, pop, get).1 == Ok(second)
            && Items(Receive(db, key, ready, false, pop, get).0, ready) == ["1"]
  {
    var key, ready := Message(host, ToHost, id), Ready(host, ToHost, id);
    var a1 := Send(host, ToHost, id, first);
    var a2, a3 := Elapse(MESSAGE_TTL_MS), Send(host, ToHost, id, second);
    var db := Store(0, map[]);
    var waited := Apply(db, a1);
    ApplyOne(db, a1);
    assert Items(waited, ready) == ["1"];
    var popped := Pop(waited, ready).0;
    assert key in popped.data && popped.data[key].expires == Some(MESSAGE_TTL_MS);
    var ticked := Apply(popped, a2);
    assert key !in ticked.data;
    assert [a2, a3][1..] == [a3];
    ApplyOne(ticked, a3);
  }

  /** Nor is it free of duplicates: when the acknowledgement of that second frame is lost before
      Redis sees it, the second frame's own token fetches it again. */
  lemma LostAckRepeatsFrame(host: string, id: string, first: Frame, second: Frame)
    requires first != second
    ensures var db := Store(0, map[]);
            var key, ready := Message(host, ToHost, id), Ready(host, ToHost, id);
            var pop := Turn([Send(host, ToHost, id, first)], NoFault, []);
            var get := Turn([Elapse(MESSAGE_TTL_MS), Send(host, ToHost, id, second)], NoFault, []);
            var (read, _) := Receive(db, key, ready, false, pop, get);
            var (kept, acked) := Acknowledgement(read, key, second, Turn([], LostBefore, []));
            acked == Err(ConnectionLost)
            && Receive(kept, key, ready, false, Turn([], NoFault, []), Turn([], NoFault, [])).1 == Ok(second)
  {
    TokenCanFetchNextFrame(host, id, first, second);
  }

  lemma ApplyOne(db: Db, a: Action)
    ensures ApplyAll(db, [a]) == Apply(db, a)
  {
    assert [a][1..] == [];
  }

  // ---------------------------------------------------------------- the objects

  class RedisServer {
    var db: Db

    constructor (db: Db)
      ensures this.db == db
    {
      this.db := db;
    }
  }

  class RedisTransport {
    const redis: RedisServer
    const sendKey: KeyName
    const recvKey: KeyName
    const sendReady: KeyName
    const recvReady: KeyName
    var wakeQueue: Option<KeyName>
    var pending: Option<Frame>
    var leased: Option<Frame>  // what the lease thread of `pending` renews
    var receiveTimeoutSeconds: nat

    ghost predicate Valid()
      reads this
    {
      sendKey.Message? && recvKey.Message? && sendKey != recvKey
      && sendReady == Ready(sendKey.host, sendKey.dir, sendKey.id)
      && recvReady == Ready(recvKey.host, recvKey.dir, recvKey.id)
      && leased == pending
    }

    constructor Client(redis: RedisServer, hostname: string, id: string)
      ensures Valid() && this.redis == redis
      ensures sendKey == Message(hostname, ToHost, id) && recvKey == Message(hostname, ToClient, id)
      ensures wakeQueue == Some(Wake(hostname)) && pending == None
      ensures receiveTimeoutSeconds * 1000 == MESSAGE_TIMEOUT_MS
    {
      this.redis := redis;
      sendKey, sendReady := Message(hostname, ToHost, id), Ready(hostname, ToHost, id);
      recvKey, recvReady := Message(hostname, ToClient, id), Ready(hostname, ToClient, id);
      wakeQueue, pending, leased, receiveTimeoutSeconds := Some(Wake(hostname)), None, None, 65;
    }

    constructor Server(redis: RedisServer, hostname: string, id: string)
      ensures Valid() && this.redis == redis
      ensures sendKey == Message(hostname, ToClient, id) && recvKey == Message(hostname, ToHost, id)
      ensures wakeQueue == None && pending == None
      ensures receiveTimeoutSeconds * 1000 == MESSAGE_TIMEOUT_MS
    {
      this.redis := redis;
      sendKey, sendReady := Message(hostname, ToClient, id), Ready(hostname, ToClient, id);
      recvKey, recvReady := Message(hostname, ToHost, id), Ready(hostname, ToHost, id);
      wakeQueue, pending, leased, receiveTimeoutSeconds := None, None, None, 65;
    }

    /** Places a frame, retrying for MESSAGE_TIMEOUT while the slot is taken; the first frame
        of a client then wakes the host. A failed wake leaves the frame placed. */
    method SendFrame(frame: Frame, length: nat, world: World, wake: Turn)
      returns (r: Result<(), TransportError>)
      requires Valid()
      modifies redis, this`wakeQueue
      ensures Valid()
      ensures length > MAX_FRAME_BYTES ==>
                r == Err(TooLarge) && redis.db == old(redis.db) && wakeQueue == old(wakeQueue)
      ensures length <= MAX_FRAME_BYTES ==>
                var (sent, outcome) := SendLoop(old(redis.db), sendKey, sendReady, frame,
                                                old(redis.db).now + MESSAGE_TIMEOUT_MS, world, 0);
                match outcome
                case Failed(e) => r == Err(e) && redis.db == sent && wakeQueue == old(wakeQueue)
                case Stored =>
                  wakeQueue == None
                  && (r == Ok(()) || r == Err(ConnectionLost))
                  && if old(wakeQueue).None? then r == Ok(()) && redis.db == sent
                     else
                       (r == Ok(()) <==> wake.fault.NoFault?)
                       && redis.db == if wake.fault.LostBefore? then ApplyAll(sent, wake.before)
                                      else PushWake(ApplyAll(sent, wake.before), old(wakeQueue).value, sendKey.id)
    {
      if length > MAX_FRAME_BYTES {
        return Err(TooLarge);
      }
      var deadline := redis.db.now + MESSAGE_TIMEOUT_MS;
      ghost var start := redis.db;
      var i: nat := 0;
      while true
        invariant SendLoop(redis.db, sendKey, sendReady, frame, deadline, world, i)
                  == SendLoop(start, sendKey, sendReady, frame, deadline, world, 0)
        invariant wakeQueue == old(wakeQueue)
        decreases deadline + POLL_INTERVAL_MS - redis.db.now
      {
        var turn := world(i);
        TimePasses(redis.db, turn.before);
        redis.db := ApplyAll(redis.db, turn.before);
        if turn.fault.LostBefore? {
          return Err(ConnectionLost);
        }
        var (tried, stored) := SendScript(redis.db, sendKey, sendReady, frame);
        redis.db := tried;
        if turn.fault.LostAfter? {
          return Err(ConnectionLost);
        }
        if stored {
          r := NotifyHost(wake);
          return;
        }
        TimePasses(redis.db, turn.after);
        redis.db := ApplyAll(redis.db, turn.after);
        if redis.db.now >= deadline {
          return Err(NotAcknowledged);
        }
        redis.db := Tick(redis.db, POLL_INTERVAL_MS);
        i := i + 1;
      }
    }

    /** Pushes the connection id to the wake queue, once in the transport's life. */
    method NotifyHost(wake: Turn) returns (r: Result<(), TransportError>)
      requires Valid()
      modifies redis, this`wakeQueue
      ensures Valid() && wakeQueue == None
      ensures old(wakeQueue).None? ==> r == Ok(()) && redis.db == old(redis.db)
      ensures old(wakeQueue).Some? ==>
                r == (if wake.fault.NoFault? then Ok(()) else Err(ConnectionLost))
                && redis.db == if wake.fault.LostBefore? then ApplyAll(old(redis.db), wake.before)
                               else PushWake(ApplyAll(old(redis.db), wake.before), old(wakeQueue).value, sendKey.id)
    {
      if wakeQueue.None? {
        return Ok(());
      }
      var queue := wakeQueue.value;
      wakeQueue := None;
      redis.db := ApplyAll(redis.db, wake.before);
      if !wake.fault.LostBefore? {
        redis.db := PushWake(redis.db, queue, sendKey.id);
      }
      r := if wake.fault.NoFault? then Ok(()) else Err(ConnectionLost);
    }

    /** Waits for a token and reads the slot; refuses while a frame is unacknowledged. */
    method RecvFrame(pop: Turn, get: Turn) returns (r: Result<Frame, TransportError>)
      requires Valid()
      modifies redis, this`pending, this`leased
      ensures Valid()
      ensures old(pending).Some? ==> r == Err(StillPending) && redis.db == old(redis.db) && pending == old(pending)
      ensures old(pending).None? ==>
                (redis.db, r) == Receive(old(redis.db), recvKey, recvReady, receiveTimeoutSeconds == 0, pop, get)
                && pending == if r.Ok? then Some(r.value) else None
    {
      if pending.Some? {
        return Err(StillPending);
      }
      redis.db := ApplyAll(redis.db, pop.before);
      if pop.fault.LostBefore? {
        return Err(ConnectionLost);
      }
      var (popped, token) := Pop(redis.db, recvReady);
      redis.db := popped;
      if pop.fault.LostAfter? {
        return Err(ConnectionLost);
      }
      if token.None? {
        return Err(if receiveTimeoutSeconds == 0 then NeverArrived else TimedOut);
      }
      redis.db := ApplyAll(redis.db, get.before);
      if !get.fault.NoFault? {
        return Err(ConnectionLost);
      }
      var value := SlotOf(redis.db, recvKey);
      if value.None? {
        return Err(ExpiredUnread);
      }
      pending, leased := value, value;
      return Ok(value.value);
    }

    /** Forgets the pending frame, stops its lease, and deletes it if it is still there. */
    method Acknowledge(turn: Turn) returns (r: Result<(), TransportError>)
      requires Valid()
      modifies redis, this`pending, this`leased
      ensures Valid() && pending == None
      ensures old(pending).None? ==> r == Err(NothingPending) && redis.db == old(redis.db)
      ensures old(pending).Some? ==>
                (redis.db, r) == Acknowledgement(old(redis.db), recvKey, old(pending).value, turn)
    {
      if pending.None? {
        return Err(NothingPending);
      }
      var value := pending.value;
      pending, leased := None, None;
      redis.db := ApplyAll(redis.db, turn.before);
      if turn.fault.LostBefore? {
        return Err(ConnectionLost);
      }
      var (cleared, removed) := AckScript(redis.db, recvKey, value);
      redis.db := cleared;
      if turn.fault.LostAfter? {
        return Err(ConnectionLost);
      }
      r := if removed then Ok(()) else Err(ChangedOrExpired);
    }

    method WaitIndefinitely()
      requires Valid()
      modifies this`receiveTimeoutSeconds
      ensures Valid() && receiveTimeoutSeconds == 0
    {
      receiveTimeoutSeconds := 0;
    }
  }

  /** `RedisTransport::client`: a transport for a valid hostname whose record EXISTS finds. */
  method Connect(redis: RedisServer, hostname: string, id: string, turn: Turn) returns (r: Result<RedisTransport, TransportError>)
    modifies redis
    ensures !ValidHostname(hostname) ==> r == Err(BadHostname) && redis.db == old(redis.db)
    ensures ValidHostname(hostname) ==>
              redis.db == ApplyAll(old(redis.db), turn.before)
              && (r.Ok? <==> turn.fault.NoFault? && Host(hostname) in redis.db.data)
              && (r.Err? ==> r.error == if turn.fault.NoFault? then UnknownHost else ConnectionLost)
    ensures r.Ok? ==>
              var t := r.value;
              fresh(t) && t.Valid() && t.redis == redis
              && t.sendKey == Message(hostname, ToHost, id) && t.recvKey == Message(hostname, ToClient, id)
              && t.wakeQueue == Some(Wake(hostname)) && t.pending == None
              && t.receiveTimeoutSeconds * 1000 == MESSAGE_TIMEOUT_MS
  {
    if !ValidHostname(hostname) {
      return Err(BadHostname);
    }
    redis.db := ApplyAll(redis.db, turn.before);
    if !turn.fault.NoFault? {
      return Err(ConnectionLost);
    }
    if Host(hostname) !in redis.db.data {
      return Err(UnknownHost);
    }
    var transport := new RedisTransport.Client(redis, hostname, id);
    r := Ok(transport);
  }

  /** The lease thread: renews after every interval until told to stop (`rounds` is used up) or
      until a renewal finds the frame gone. */
  method ProcessingLease(redis: RedisServer, key: KeyName, frame: Frame, rounds: seq<seq<Action>>)
    returns (held: bool)
    requires Bounded(redis.db) && key.Message? && SlotOf(redis.db, key) == Some(frame)
    requires redis.db.data[key].expires.Some?
    requires AllLeaveAlone(rounds, key, frame)
    modifies redis
    ensures held <==> Timely(old(redis.db).data[key].expires.value - old(redis.db).now, rounds)
    ensures held ==> SlotOf(redis.db, key) == Some(frame)
    ensures held ==> redis.db == LeaseRun(old(redis.db), key, frame, rounds)
    ensures Bounded(redis.db)
  {
    LeaseHoldsExactly(redis.db, key, frame, rounds);
    ghost var start := redis.db;
    var i := 0;
    while i < |rounds|
      invariant 0 <= i <= |rounds|
      invariant Bounded(redis.db)
      invariant SlotOf(redis.db, key) == Some(frame)
      invariant LeaseRun(redis.db, key, frame, rounds[i..]) == LeaseRun(start, key, frame, rounds)
    {
      assert rounds[i..][0] == rounds[i] && rounds[i..][1..] == rounds[i + 1..];
      assert rounds[i] in rounds;
      ExpiryAlwaysBounded(redis.db, rounds[i]);
      ghost var before := redis.db;
      redis.db := ApplyAll(redis.db, rounds[i]);
      var (renewed, ok) := RenewScript(redis.db, key, frame);
      RenewKeepsBounded(redis.db, key, frame);
      redis.db := renewed;
      if !ok {
        assert AllLeaveAlone(rounds[i + 1..], key, frame);
        LostStaysLost(redis.db, key, frame, rounds[i + 1..]);
        return false;
      }
      i := i + 1;
    }
    held := true;
  }
}
