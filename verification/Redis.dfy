/** Redis as the program uses it (src/redis_transport.rs): keys with an optional expiry, the
    three scripts, the blocking pops, and the passing of time. Every function here is one
    atomic step of the server. Keys are the names of module Keys, which proves that generated
    hostnames keep their rendered forms apart. */
module Redis {
  import opened Wrappers
  import opened Protocol
  import opened Keys

  const MESSAGE_TTL_MS: nat := 60_000
  const MESSAGE_TIMEOUT_MS: nat := 65_000
  const POLL_INTERVAL_MS: nat := 20
  const LEASE_INTERVAL_MS: nat := 20_000

  datatype Value = Slot(frame: Frame) | Text(text: string) | List(items: seq<string>)

  datatype Entry = Entry(value: Value, expires: Option<nat>)

  /** A database under keys of some kind: names here, and in module Rendered the strings that
      Redis really sees. */
  datatype Store<K(==)> = Store(now: nat, data: map<K, Entry>)

  type Db = Store<KeyName>

  /** Keys that must never outlive their message. */
  predicate Volatile(k: KeyName) { k.Message? || k.Ready? || k.Wake? }

  function Items<K(==)>(db: Store<K>, k: K): seq<string> {
    if k in db.data && db.data[k].value.List? then db.data[k].value.items else []
  }

  function SlotOf<K(==)>(db: Store<K>, k: K): Option<Frame> {
    if k in db.data && db.data[k].value.Slot? then Some(db.data[k].value.frame) else None
  }

  function Put<K(==)>(db: Store<K>, k: K, v: Value, expires: Option<nat>): Store<K> {
    db.(data := db.data[k := Entry(v, expires)])
  }

  function Remove<K(==)>(db: Store<K>, k: K): Store<K> { db.(data := db.data - {k}) }

  /** A value RPUSH refuses. */
  predicate NotAList<K(==)>(db: Store<K>, k: K) { k in db.data && !db.data[k].value.List? }

  /** SET NX PX, then RPUSH of a ready token and PEXPIRE of the token list; a failing RPUSH aborts
      the script after its SET. */
  function SendScript<K(==)>(db: Store<K>, key: K, ready: K, frame: Frame): (Store<K>, bool) {
    if key in db.data then (db, false)
    else
      var expires := Some(db.now + MESSAGE_TTL_MS);
      var placed := Put(db, key, Slot(frame), expires);
      if NotAList(placed, ready) then (placed, false)
      else (Put(placed, ready, List(Items(db, ready) + ["1"]), expires), true)
  }

  /** Delete the value only if it is still `frame`. */
  function AckScript<K(==)>(db: Store<K>, key: K, frame: Frame): (Store<K>, bool) {
    if SlotOf(db, key) == Some(frame) then (Remove(db, key), true) else (db, false)
  }

  /** Extend the value's life only if it is still `frame`. */
  function RenewScript<K(==)>(db: Store<K>, key: K, frame: Frame): (Store<K>, bool) {
    if SlotOf(db, key) == Some(frame)
    then (Put(db, key, Slot(frame), Some(db.now + MESSAGE_TTL_MS)), true)
    else (db, false)
  }

  /** The successful half of BLPOP; the list disappears with its last element. */
  function Pop<K(==)>(db: Store<K>, list: K): (Store<K>, Option<string>) {
    var items := Items(db, list);
    if items == [] then (db, None)
    else if |items| == 1 then (Remove(db, list), Some(items[0]))
    else (Put(db, list, List(items[1..]), db.data[list].expires), Some(items[0]))
  }

  /** The MULTI of `notify_host`: its PEXPIRE runs even when its RPUSH fails. */
  function PushWake<K(==)>(db: Store<K>, queue: K, id: string): Store<K> {
    Put(db, queue, if NotAList(db, queue) then db.data[queue].value else List(Items(db, queue) + [id]),
        Some(db.now + MESSAGE_TTL_MS))
  }

  function SetNx<K(==)>(db: Store<K>, key: K, text: string): (Store<K>, bool) {
    if key in db.data then (db, false) else (Put(db, key, Text(text), None), true)
  }

  predicate Live(e: Entry, now: nat) { e.expires.Some? ==> now < e.expires.value }

  /** The clock moves and everything whose time has come is gone. */
  function Tick<K(==)>(db: Store<K>, elapsed: nat): Store<K> {
    var now := db.now + elapsed;
    Store(now, map k | k in db.data && Live(db.data[k], now) :: db.data[k])
  }

  // ---------------------------------------------------------------- every client's actions

  /** `Read` is GET; `Cleanup` is one DEL of a host's startup cleanup, whose SCAN returned
      `keys`. */
  datatype Action =
    | Send(host: string, dir: Direction, id: string, frame: Frame)
    | TakeReady(host: string, dir: Direction, id: string)
    | Read(host: string, dir: Direction, id: string)
    | Ack(host: string, dir: Direction, id: string, frame: Frame)
    | Renew(host: string, dir: Direction, id: string, frame: Frame)
    | Notify(host: string, id: string)
    | TakeWake(host: string)
    | Register(host: string, signature: string)
    | SetLookup(host: string, hash: string)
    | DeleteLookup(host: string, hash: string)
    | Cleanup(host: string, keys: set<KeyName>)
    | Elapse(ms: nat)

  /** What the startup cleanup of `host` deletes when SCAN shows it `keys`. */
  predicate Sweeps(host: string, keys: set<KeyName>, k: KeyName) { k in keys && MatchesGlob(host, Render(k)) }

  function Apply(db: Db, a: Action): Db {
    match a
    case Send(h, d, id, f) => SendScript(db, Message(h, d, id), Ready(h, d, id), f).0
    case TakeReady(h, d, id) => Pop(db, Ready(h, d, id)).0
    case Read(_, _, _) => db
    case Ack(h, d, id, f) => AckScript(db, Message(h, d, id), f).0
    case Renew(h, d, id, f) => RenewScript(db, Message(h, d, id), f).0
    case Notify(h, id) => PushWake(db, Wake(h), id)
    case TakeWake(h) => Pop(db, Wake(h)).0
    case Register(h, s) => SetNx(db, Host(h), s).0
    case SetLookup(h, hash) => Put(db, Session(h, hash), Text(h), None)
    case DeleteLookup(h, hash) => Remove(db, Session(h, hash))
    case Cleanup(h, keys) => db.(data := map k | k in db.data && !Sweeps(h, keys, k) :: db.data[k])
    case Elapse(ms) => Tick(db, ms)
  }

  function ApplyAll(db: Db, actions: seq<Action>): Db
    decreases |actions|
  {
    if actions == [] then db else ApplyAll(Apply(db, actions[0]), actions[1..])
  }

  // ---------------------------------------------------------------- expiry is always bounded

  ghost predicate Typed(db: Db, k: KeyName)
    requires k in db.data
  {
    match k
    case Message(_, _, _) => db.data[k].value.Slot?
    case Ready(_, _, _) => db.data[k].value.List?
    case Wake(_) => db.data[k].value.List?
    case Host(_) => db.data[k].value.Text?
    case Session(_, _) => db.data[k].value.Text?
  }

  ghost predicate Timed(db: Db, k: KeyName)
    requires k in db.data
  {
    if Volatile(k)
    then db.data[k].expires.Some? && db.now < db.data[k].expires.value <= db.now + MESSAGE_TTL_MS
    else db.data[k].expires.None?
  }

  /** Each key holds its kind of value; mailboxes, token lists and wake queues always carry an
      expiry at most MESSAGE_TTL_MS away, host records and lookups never carry one. */
  ghost predicate Bounded(db: Db) {
    forall k :: k in db.data ==> Typed(db, k) && Timed(db, k)
  }

  lemma ActionKeepsBounded(db: Db, a: Action)
    requires Bounded(db)
    ensures Bounded(Apply(db, a))
  {
    var after := Apply(db, a);
    forall k | k in after.data
      ensures Typed(after, k) && Timed(after, k)
    {
      if k in db.data {
        assert Typed(db, k) && Timed(db, k);
      }
    }
  }

  /** In every run, by any number of clients and hosts, nothing a message needs outlives it. */
  lemma {:induction false} ExpiryAlwaysBounded(db: Db, actions: seq<Action>)
    requires Bounded(db)
    ensures Bounded(ApplyAll(db, actions))
    decreases |actions|
  {
    if actions != [] {
      ActionKeepsBounded(db, actions[0]);
      ExpiryAlwaysBounded(Apply(db, actions[0]), actions[1..]);
    }
  }

  // ---------------------------------------------------------------- a value guards itself

  /** Acknowledging or renewing with a frame in hand, also from a lease thread that was never
      told to stop, cannot remove, replace or prolong anything but that very frame. */
  lemma CompareGuardsOthers(db: Db, key: KeyName, frame: Frame, other: KeyName)
    requires other in db.data
    requires other != key || SlotOf(db, key) != Some(frame)
    ensures var acked, renewed := AckScript(db, key, frame).0, RenewScript(db, key, frame).0;
            other in acked.data && acked.data[other] == db.data[other]
            && other in renewed.data && renewed.data[other] == db.data[other]
  {
  }

  // ---------------------------------------------------------------- conservation

  function Bag(f: Option<Frame>): multiset<Frame> {
    if f.Some? then multiset{f.value} else multiset{}
  }

  /** What an action does to one mailbox. */
  datatype Event = Untouched | Placed(f: Frame) | Acked(f: Frame) | Expired(f: Frame) | Swept(f: Frame)

  function EventAt(db: Db, a: Action, key: KeyName): Event {
    match a
    case Send(h, d, id, f) => if key == Message(h, d, id) && key !in db.data then Placed(f) else Untouched
    case Ack(h, d, id, f) => if key == Message(h, d, id) && SlotOf(db, key) == Some(f) then Acked(f) else Untouched
    case Elapse(ms) =>
      if key !in Tick(db, ms).data && SlotOf(db, key).Some? then Expired(SlotOf(db, key).value) else Untouched
    case Cleanup(h, keys) =>
      if Sweeps(h, keys, key) && SlotOf(db, key).Some? then Swept(SlotOf(db, key).value) else Untouched
    case _ => Untouched
  }

  lemma EventsMoveTheSlot(db: Db, a: Action, key: KeyName)
    requires Bounded(db) && key.Message?
    ensures var before, after := SlotOf(db, key), SlotOf(Apply(db, a), key);
            match EventAt(db, a, key)
            case Untouched => after == before
            case Placed(f) => before == None && after == Some(f)
            case Acked(f) => before == Some(f) && after == None
            case Expired(f) => before == Some(f) && after == None
            case Swept(f) => before == Some(f) && after == None
  {
    if key in db.data {
      assert Typed(db, key);
    }
  }

  /** The history of one mailbox: frames placed, acknowledged, expired, and swept away by the
      cleanup of a host whose pattern reaches it. */
  datatype Books = Books(placed: multiset<Frame>, acked: multiset<Frame>, expired: multiset<Frame>, swept: multiset<Frame>)

  function Booked(b: Books, e: Event): Books {
    match e
    case Untouched => b
    case Placed(f) => b.(placed := b.placed + multiset{f})
    case Acked(f) => b.(acked := b.acked + multiset{f})
    case Expired(f) => b.(expired := b.expired + multiset{f})
    case Swept(f) => b.(swept := b.swept + multiset{f})
  }

  function Account(db: Db, actions: seq<Action>, key: KeyName): Books
    decreases |actions|
  {
    if actions == [] then Books(multiset{}, multiset{}, multiset{}, multiset{})
    else Booked(Account(Apply(db, actions[0]), actions[1..], key), EventAt(db, actions[0], key))
  }

  predicate Balanced(before: multiset<Frame>, b: Books, after: multiset<Frame>) {
    before + b.placed == b.acked + b.expired + b.swept + after
  }

  /** One more event in front. */
  lemma EventBalances(before: Option<Frame>, e: Event, middle: Option<Frame>, b: Books, after: multiset<Frame>)
    requires Balanced(Bag(middle), b, after)
    requires match e
             case Untouched => middle == before
             case Placed(f) => before == None && middle == Some(f)
             case Acked(f) => before == Some(f) && middle == None
             case Expired(f) => before == Some(f) && middle == None
             case Swept(f) => before == Some(f) && middle == None
    ensures Balanced(Bag(before), Booked(b, e), after)
  {
    var c := Booked(b, e);
    match e {
      case Untouched =>
      case Placed(f) => assert Bag(before) + c.placed == Bag(middle) + b.placed;
      case Acked(f) =>
        assert c.acked + c.expired + c.swept + after == (b.acked + b.expired + b.swept + after) + multiset{f};
      case Expired(f) =>
        assert c.acked + c.expired + c.swept + after == (b.acked + b.expired + b.swept + after) + multiset{f};
      case Swept(f) =>
        assert c.acked + c.expired + c.swept + after == (b.acked + b.expired + b.swept + after) + multiset{f};
    }
  }

  /** Frames are conserved: over any run, what was in the slot plus what was placed is what was
      acknowledged plus what expired plus what a cleanup swept away plus what the slot holds at
      the end. */
  lemma {:induction false} FramesConserved(db: Db, actions: seq<Action>, key: KeyName)
    requires Bounded(db) && key.Message?
    ensures Balanced(Bag(SlotOf(db, key)), Account(db, actions, key), Bag(SlotOf(ApplyAll(db, actions), key)))
    decreases |actions|
  {
    if actions != [] {
      var a := actions[0];
      var next := Apply(db, a);
      EventsMoveTheSlot(db, a, key);
      ActionKeepsBounded(db, a);
      FramesConserved(next, actions[1..], key);
      EventBalances(SlotOf(db, key), EventAt(db, a, key), SlotOf(next, key), Account(next, actions[1..], key),
                    Bag(SlotOf(ApplyAll(next, actions[1..]), key)));
    }
  }

  /** A cleanup sweeps a frame exactly when its host's fields, continued with `session`, begin
      the hostname of the mailbox; so never for hostnames as they are generated. */
  lemma SweptExactly(db: Db, host: string, keys: set<KeyName>, key: KeyName)
    requires key.Message? && Unpunctuated(key) && key in keys && SlotOf(db, key).Some?
    ensures EventAt(db, Cleanup(host, keys), key).Swept? <==> Fields(host) + ["session"] <= Fields(key.host)
    ensures Shaped(host) && Shaped(key.host) ==> EventAt(db, Cleanup(host, keys), key).Untouched?
  {
    CleanupReaches(host, key);
    if Shaped(host) && Shaped(key.host) {
      CleanupIsOwn(host, key);
    }
  }

  // ---------------------------------------------------------------- the lease

  function Elapsed(actions: seq<Action>): nat {
    if actions == [] then 0
    else (if actions[0].Elapse? then actions[0].ms else 0) + Elapsed(actions[1..])
  }

  /** Nobody acknowledges, renews or again places `frame` in this mailbox, or sweeps it away. */
  predicate LeavesAlone(actions: seq<Action>, key: KeyName, frame: Frame) {
    forall a :: a in actions ==>
      !((a.Ack? || a.Renew? || a.Send?) && key == Message(a.host, a.dir, a.id) && a.frame == frame)
      && !(a.Cleanup? && Sweeps(a.host, a.keys, key))
  }

  lemma OneActionAside(db: Db, a: Action, key: KeyName, frame: Frame)
    requires Bounded(db) && key.Message? && LeavesAlone([a], key, frame)
    ensures var next := Apply(db, a);
            (SlotOf(next, key) == Some(frame) ==> SlotOf(db, key) == Some(frame) && next.data[key] == db.data[key])
            && (SlotOf(db, key) == Some(frame) && !a.Elapse? ==> SlotOf(next, key) == Some(frame))
  {
    assert a in [a];
    if key in db.data {
      assert Typed(db, key);
    }
  }

  /** Left alone, a frame survives exactly as long as its remaining life exceeds the time that
      passes, and keeps its expiry. */
  lemma {:induction false} LeftAlone(db: Db, actions: seq<Action>, key: KeyName, frame: Frame)
    requires Bounded(db) && key.Message? && LeavesAlone(actions, key, frame)
    ensures ApplyAll(db, actions).now == db.now + Elapsed(actions)
    ensures SlotOf(db, key) != Some(frame) ==> SlotOf(ApplyAll(db, actions), key) != Some(frame)
    ensures SlotOf(db, key) == Some(frame) ==>
              (SlotOf(ApplyAll(db, actions), key) == Some(frame)
               <==> db.data[key].expires.Some? && db.now + Elapsed(actions) < db.data[key].expires.value)
    ensures SlotOf(db, key) == Some(frame) && SlotOf(ApplyAll(db, actions), key) == Some(frame) ==>
              ApplyAll(db, actions).data[key] == db.data[key]
    decreases |actions|
  {
    if key in db.data {
      assert Typed(db, key) && Timed(db, key);
    }
    if actions != [] {
      var a := actions[0];
      ActionKeepsBounded(db, a);
      OneActionAside(db, a, key, frame);
      var next := Apply(db, a);
      LeftAlone(next, actions[1..], key, frame);
    }
  }

  /** Every renewal of a lease thread comes after a stretch of other clients' actions. */
  function LeaseRun(db: Db, key: KeyName, frame: Frame, rounds: seq<seq<Action>>): Db
    decreases |rounds|
  {
    if rounds == [] then db
    else LeaseRun(RenewScript(ApplyAll(db, rounds[0]), key, frame).0, key, frame, rounds[1..])
  }

  /** Each stretch is shorter than the life the frame had left when it began: the first is
      measured against the pickup, every later one against a full MESSAGE_TTL_MS. */
  predicate Timely(remaining: int, rounds: seq<seq<Action>>)
    decreases |rounds|
  {
    rounds == [] || (Elapsed(rounds[0]) < remaining && Timely(MESSAGE_TTL_MS, rounds[1..]))
  }

  predicate AllLeaveAlone(rounds: seq<seq<Action>>, key: KeyName, frame: Frame) {
    forall r :: r in rounds ==> LeavesAlone(r, key, frame)
  }

  /** The lease keeps a frame in its slot through arbitrarily long processing if and only if
      every renewal is timely. The pickup counts: a frame read with little life left is lost
      when the first renewal, an interval later, comes too late. */
  lemma {:induction false} LeaseHoldsExactly(db: Db, key: KeyName, frame: Frame, rounds: seq<seq<Action>>)
    requires Bounded(db) && key.Message? && SlotOf(db, key) == Some(frame)
    requires AllLeaveAlone(rounds, key, frame)
    requires db.data[key].expires.Some?
    ensures SlotOf(LeaseRun(db, key, frame, rounds), key) == Some(frame)
            <==> Timely(db.data[key].expires.value - db.now, rounds)
    decreases |rounds|
  {
    if rounds != [] {
      assert rounds[0] in rounds;
      LeftAlone(db, rounds[0], key, frame);
      ExpiryAlwaysBounded(db, rounds[0]);
      var waited := ApplyAll(db, rounds[0]);
      var renewed := RenewScript(waited, key, frame).0;
      assert AllLeaveAlone(rounds[1..], key, frame);
      RenewKeepsBounded(waited, key, frame);
      if SlotOf(waited, key) == Some(frame) {
        LeaseHoldsExactly(renewed, key, frame, rounds[1..]);
      } else {
        LostStaysLost(renewed, key, frame, rounds[1..]);
      }
    }
  }

  lemma RenewKeepsBounded(db: Db, key: KeyName, frame: Frame)
    requires Bounded(db) && key.Message?
    ensures Bounded(RenewScript(db, key, frame).0)
  {
    ActionKeepsBounded(db, Renew(key.host, key.dir, key.id, frame));
  }

  lemma {:induction false} LostStaysLost(db: Db, key: KeyName, frame: Frame, rounds: seq<seq<Action>>)
    requires Bounded(db) && key.Message? && SlotOf(db, key) != Some(frame)
    requires AllLeaveAlone(rounds, key, frame)
    ensures SlotOf(LeaseRun(db, key, frame, rounds), key) != Some(frame)
    decreases |rounds|
  {
    if rounds != [] {
      assert rounds[0] in rounds;
      LeftAlone(db, rounds[0], key, frame);
      ExpiryAlwaysBounded(db, rounds[0]);
      var waited := ApplyAll(db, rounds[0]);
      LostStaysLost(waited, key, frame, rounds[1..]);
      assert RenewScript(waited, key, frame).0 == waited;
    }
  }

  /** The promise as an operator can check it: with renewals at most LEASE_INTERVAL_MS plus
      `delay` apart, a frame read with more life than that left is never lost, and the delay
      may be anything below forty seconds. */
  lemma {:induction false} LeaseSuffices(remaining: int, delay: nat, rounds: seq<seq<Action>>)
    requires LEASE_INTERVAL_MS + delay < remaining && LEASE_INTERVAL_MS + delay < MESSAGE_TTL_MS
    requires forall r :: r in rounds ==> Elapsed(r) <= LEASE_INTERVAL_MS + delay
    ensures Timely(remaining, rounds)
    decreases |rounds|
  {
    if rounds != [] {
      assert rounds[0] in rounds;
      LeaseSuffices(MESSAGE_TTL_MS, delay, rounds[1..]);
    }
  }

  /** And a frame read with at most one interval of life left is lost by an on-time lease. */
  lemma LatePickupExpires(db: Db, key: KeyName, frame: Frame)
    requires Bounded(db) && key.Message? && SlotOf(db, key) == Some(frame)
    requires db.data[key].expires.Some? && db.data[key].expires.value - db.now <= LEASE_INTERVAL_MS
    ensures SlotOf(LeaseRun(db, key, frame, [[Elapse(LEASE_INTERVAL_MS)]]), key) != Some(frame)
  {
    var rounds := [[Elapse(LEASE_INTERVAL_MS)]];
    assert Elapsed(rounds[0]) == LEASE_INTERVAL_MS by {
      assert rounds[0][1..] == [];
    }
    LeaseHoldsExactly(db, key, frame, rounds);
  }

  // ---------------------------------------------------------------- the life of a key

  /** The action can change what a key holds, or when it expires, other than by time. */
  predicate Touches(a: Action, k: KeyName) {
    match a
    case Send(h, d, id, _) => k == Message(h, d, id) || k == Ready(h, d, id)
    case TakeReady(h, d, id) => k == Ready(h, d, id)
    case Read(_, _, _) => false
    case Ack(h, d, id, _) => k == Message(h, d, id)
    case Renew(h, d, id, _) => k == Message(h, d, id)
    case Notify(h, _) => k == Wake(h)
    case TakeWake(h) => k == Wake(h)
    case Register(h, _) => k == Host(h)
    case SetLookup(h, hash) => k == Session(h, hash)
    case DeleteLookup(h, hash) => k == Session(h, hash)
    case Cleanup(h, keys) => Sweeps(h, keys, k)
    case Elapse(_) => false
  }

  predicate NotTouched(actions: seq<Action>, k: KeyName) { forall a :: a in actions ==> !Touches(a, k) }

  lemma OneActionPast(db: Db, a: Action, k: KeyName)
    requires !Touches(a, k)
    ensures var next := Apply(db, a);
            next.now == db.now + Elapsed([a])
            && (k in next.data <==> k in db.data && (a.Elapse? ==> Live(db.data[k], next.now)))
            && (k in next.data ==> next.data[k] == db.data[k])
  {
    assert [a][1..] == [];
  }

  /** Untouched, a key holds what it holds until its time has come, and not longer. */
  lemma {:induction false} UntouchedUntilExpiry(db: Db, actions: seq<Action>, k: KeyName)
    requires Bounded(db) && NotTouched(actions, k)
    ensures var after := ApplyAll(db, actions);
            after.now == db.now + Elapsed(actions)
            && (k in after.data <==> k in db.data && Live(db.data[k], after.now))
            && (k in after.data ==> after.data[k] == db.data[k])
    decreases |actions|
  {
    if k in db.data {
      assert Timed(db, k);
    }
    if actions != [] {
      assert actions[0] in actions && [actions[0]][1..] == [];
      OneActionPast(db, actions[0], k);
      ActionKeepsBounded(db, actions[0]);
      UntouchedUntilExpiry(Apply(db, actions[0]), actions[1..], k);
    }
  }

  /** A frame, its token and a call each last for MESSAGE_TTL_MS from the moment they are placed. */
  lemma SentLasts(db: Db, host: string, dir: Direction, id: string, frame: Frame, actions: seq<Action>)
    requires Bounded(db) && Message(host, dir, id) !in db.data
    ensures var key, ready := Message(host, dir, id), Ready(host, dir, id);
            var after := ApplyAll(Apply(db, Send(host, dir, id, frame)), actions);
            (NotTouched(actions, key) ==> SlotOf(after, key) == if Elapsed(actions) < MESSAGE_TTL_MS then Some(frame) else None)
            && (NotTouched(actions, ready) ==>
                  Items(after, ready) == if Elapsed(actions) < MESSAGE_TTL_MS then Items(db, ready) + ["1"] else [])
  {
    var sent := Apply(db, Send(host, dir, id, frame));
    ActionKeepsBounded(db, Send(host, dir, id, frame));
    if Ready(host, dir, id) in db.data {
      assert Typed(db, Ready(host, dir, id));
    }
    if NotTouched(actions, Message(host, dir, id)) {
      UntouchedUntilExpiry(sent, actions, Message(host, dir, id));
    }
    if NotTouched(actions, Ready(host, dir, id)) {
      UntouchedUntilExpiry(sent, actions, Ready(host, dir, id));
    }
  }

  lemma CallLasts(db: Db, host: string, id: string, actions: seq<Action>)
    requires Bounded(db) && NotTouched(actions, Wake(host))
    ensures Items(ApplyAll(Apply(db, Notify(host, id)), actions), Wake(host))
            == if Elapsed(actions) < MESSAGE_TTL_MS then Items(db, Wake(host)) + [id] else []
  {
    if Wake(host) in db.data {
      assert Typed(db, Wake(host));
    }
    ActionKeepsBounded(db, Notify(host, id));
    UntouchedUntilExpiry(Apply(db, Notify(host, id)), actions, Wake(host));
  }

  // ---------------------------------------------------------------- the wake queue

  /** The connections a host is woken for, in order. */
  function Called(actions: seq<Action>, host: string): seq<string>
    decreases |actions|
  {
    if actions == [] then []
    else (if actions[0].Notify? && actions[0].host == host then [actions[0].id] else []) + Called(actions[1..], host)
  }

  /** What one BLPOP of a host's wake queue gives. */
  function Woken(db: Db, a: Action, host: string): seq<string> {
    if a == TakeWake(host) then
      match Pop(db, Wake(host)).1
      case Some(id) => [id]
      case None => []
    else []
  }

  /** The connections the host is given, in order. */
  function Accepted(db: Db, actions: seq<Action>, host: string): seq<string>
    decreases |actions|
  {
    if actions == [] then [] else Woken(db, actions[0], host) + Accepted(Apply(db, actions[0]), actions[1..], host)
  }

  /** The queue went by expiry or a cleanup, with this many still waiting in it. */
  function LostNow(db: Db, a: Action, host: string): nat {
    if (a.Elapse? || a.Cleanup?) && Wake(host) !in Apply(db, a).data then |Items(db, Wake(host))| else 0
  }

  function LostCalls(db: Db, actions: seq<Action>, host: string): nat
    decreases |actions|
  {
    if actions == [] then 0 else LostNow(db, actions[0], host) + LostCalls(Apply(db, actions[0]), actions[1..], host)
  }

  lemma QueueStep(db: Db, a: Action, host: string)
    requires Bounded(db)
    ensures var before, after := Items(db, Wake(host)), Items(Apply(db, a), Wake(host));
            if LostNow(db, a, host) > 0 then after == [] && Woken(db, a, host) == [] && Called([a], host) == []
            else Woken(db, a, host) + after == before + Called([a], host)
    ensures LostNow(db, a, host) > 0 ==> LostNow(db, a, host) == |Items(db, Wake(host))|
  {
    assert [a][1..] == [];
    if Touches(a, Wake(host)) && !a.Cleanup? {
      QueueTouched(db, a, host);
    } else if a.Cleanup? || a.Elapse? {
      QueueKeptOrLost(db, a, host);
    } else {
      OneActionPast(db, a, Wake(host));
    }
  }

  lemma QueueTouched(db: Db, a: Action, host: string)
    requires Bounded(db) && (a == TakeWake(host) || (a.Notify? && a.host == host))
    ensures var before, after := Items(db, Wake(host)), Items(Apply(db, a), Wake(host));
            Woken(db, a, host) + after == before + if a.Notify? then [a.id] else []
  {
    if Wake(host) in db.data {
      assert Typed(db, Wake(host));
    }
  }

  lemma QueueKeptOrLost(db: Db, a: Action, host: string)
    requires Bounded(db) && (a.Cleanup? || a.Elapse?)
    ensures var before, after := Items(db, Wake(host)), Items(Apply(db, a), Wake(host));
            after == if LostNow(db, a, host) > 0 then [] else before
    ensures LostNow(db, a, host) > 0 ==> LostNow(db, a, host) == |Items(db, Wake(host))|
  {
    if Wake(host) in db.data {
      assert Typed(db, Wake(host));
    }
  }

  /** What was given and what still waits are what was asked for, but for `lost`. */
  predicate InOrder(given: seq<string>, waiting: seq<string>, asked: seq<string>, lost: nat) {
    |given + waiting| + lost == |asked| && (given + waiting == asked <==> lost == 0)
  }

  lemma OneMoreInOrder(before: seq<string>, called: seq<string>, woken: seq<string>, after: seq<string>, lost: nat,
                       given: seq<string>, waiting: seq<string>, later: seq<string>, more: nat)
    requires if lost > 0 then after == [] && woken == [] && called == [] && lost == |before|
             else woken + after == before + called
    requires InOrder(given, waiting, after + later, more)
    ensures InOrder(woken + given, waiting, before + (called + later), lost + more)
  {
    if lost == 0 {
      assert (woken + given) + waiting == woken + (given + waiting);
      assert before + (called + later) == (before + called) + later == woken + (after + later);
      if woken + (given + waiting) == woken + (after + later) {
        assert given + waiting == (woken + (given + waiting))[|woken|..];
        assert after + later == (woken + (after + later))[|woken|..];
      }
    }
  }

  /** One action in front of a run. */
  lemma CallsOfFirst(db: Db, actions: seq<Action>, host: string)
    requires actions != []
    ensures var a, rest, next := actions[0], actions[1..], Apply(db, actions[0]);
            Called(actions, host) == Called([a], host) + Called(rest, host)
            && Accepted(db, actions, host) == Woken(db, a, host) + Accepted(next, rest, host)
            && LostCalls(db, actions, host) == LostNow(db, a, host) + LostCalls(next, rest, host)
            && ApplyAll(db, actions) == ApplyAll(next, rest)
  {
    assert [actions[0]][1..] == [];
  }

  /** In every run, by any clients and any host: the host is given the connections it was woken for,
      each once and in the order of the calls, those still waiting coming last, exactly unless the
      queue expired or was swept away with some of them in it. */
  lemma {:induction false} WakesInOrder(db: Db, actions: seq<Action>, host: string)
    requires Bounded(db)
    ensures InOrder(Accepted(db, actions, host), Items(ApplyAll(db, actions), Wake(host)),
                    Items(db, Wake(host)) + Called(actions, host), LostCalls(db, actions, host))
    decreases |actions|
  {
    if actions != [] {
      var a, rest, next := actions[0], actions[1..], Apply(db, actions[0]);
      CallsOfFirst(db, actions, host);
      QueueStep(db, a, host);
      ActionKeepsBounded(db, a);
      WakesInOrder(next, rest, host);
      OneMoreInOrder(Items(db, Wake(host)), Called([a], host), Woken(db, a, host), Items(next, Wake(host)),
                     LostNow(db, a, host), Accepted(next, rest, host), Items(ApplyAll(next, rest), Wake(host)),
                     Called(rest, host), LostCalls(next, rest, host));
    }
  }
}
