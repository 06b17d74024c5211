/** Redis as it really is: one space of strings. For hostnames as they are generated the strings
    keep apart what the names of module Redis keep apart, so its theorems hold of the strings. */
module Rendered {
  import opened Wrappers
  import opened Protocol
  import opened Keys
  import opened Redis

  type Text = Store<string>

  const EMPTY: Text := Store(0, map[])

  /** The keys that one DEL of a cleanup removes: of those SCAN returned, the ones its pattern
      matches. */
  predicate TextSweeps(host: string, keys: set<KeyName>, s: string) {
    MatchesGlob(host, s) && exists k :: k in keys && Render(k) == s
  }

  /** The commands of module Redis under the strings the program sends. */
  function TextApply(t: Text, a: Action): Text {
    match a
    case Send(h, d, id, f) => SendScript(t, Render(Message(h, d, id)), Render(Ready(h, d, id)), f).0
    case TakeReady(h, d, id) => Pop(t, Render(Ready(h, d, id))).0
    case Read(_, _, _) => t
    case Ack(h, d, id, f) => AckScript(t, Render(Message(h, d, id)), f).0
    case Renew(h, d, id, f) => RenewScript(t, Render(Message(h, d, id)), f).0
    case Notify(h, id) => PushWake(t, Render(Wake(h)), id)
    case TakeWake(h) => Pop(t, Render(Wake(h))).0
    case Register(h, s) => SetNx(t, Render(Host(h)), s).0
    case SetLookup(h, hash) => Put(t, Render(Session(h, hash)), Text(h), None)
    case DeleteLookup(h, hash) => Remove(t, Render(Session(h, hash)))
    case Cleanup(h, keys) => t.(data := map s | s in t.data && !TextSweeps(h, keys, s) :: t.data[s])
    case Elapse(ms) => Tick(t, ms)
  }

  function TextAll(t: Text, actions: seq<Action>): Text
    decreases |actions|
  {
    if actions == [] then t else TextAll(TextApply(t, actions[0]), actions[1..])
  }

  /** Every hostname of the action has the generated shape, and its ids and hashes no colon. */
  predicate TameAction(a: Action) {
    match a
    case Send(h, d, id, _) => Tame(Message(h, d, id))
    case TakeReady(h, d, id) => Tame(Ready(h, d, id))
    case Read(h, d, id) => Tame(Message(h, d, id))
    case Ack(h, d, id, _) => Tame(Message(h, d, id))
    case Renew(h, d, id, _) => Tame(Message(h, d, id))
    case Notify(h, _) => Shaped(h)
    case TakeWake(h) => Shaped(h)
    case Register(h, _) => Shaped(h)
    case SetLookup(h, hash) => Tame(Session(h, hash))
    case DeleteLookup(h, hash) => Tame(Session(h, hash))
    case Cleanup(h, keys) => Shaped(h) && forall k :: k in keys ==> Tame(k)
    case Elapse(_) => true
  }

  ghost predicate AllTame(actions: seq<Action>) { forall a :: a in actions ==> TameAction(a) }

  // ---------------------------------------------------------------- rendering commutes with every action

  ghost predicate Same(t: Text, db: Db, k: KeyName) {
    (Render(k) in t.data <==> k in db.data) && (k in db.data ==> t.data[Render(k)] == db.data[k])
  }

  ghost predicate Names(db: Db, s: string) { exists k :: k in db.data && Tame(k) && Render(k) == s }

  /** `t` holds the renderings of what `db` holds, and nothing else. */
  ghost predicate Represents(t: Text, db: Db) {
    t.now == db.now
    && (forall k {:trigger Same(t, db, k)} :: (k in db.data ==> Tame(k)) && (Tame(k) ==> Same(t, db, k)))
    && (forall s {:trigger Names(db, s)} :: s in t.data ==> Names(db, s))
  }

  lemma Known(t: Text, db: Db, k: KeyName)
    requires Represents(t, db)
    ensures (k in db.data ==> Tame(k)) && (Tame(k) ==> Same(t, db, k))
  {
    assert Same(t, db, k) || !Same(t, db, k);
  }

  lemma PutCommutes(t: Text, db: Db, k: KeyName, v: Value, expires: Option<nat>)
    requires Represents(t, db) && Tame(k)
    ensures Represents(Put(t, Render(k), v, expires), Put(db, k, v, expires))
  {
    var t1, db1 := Put(t, Render(k), v, expires), Put(db, k, v, expires);
    forall j ensures (j in db1.data ==> Tame(j)) && (Tame(j) ==> Same(t1, db1, j)) {
      Known(t, db, j);
      if Tame(j) {
        KeysInjective(j, k);
      }
    }
    forall s | s in t1.data ensures Names(db1, s) {
      if s == Render(k) {
        assert k in db1.data;
      } else {
        assert Names(db, s);
        var j :| j in db.data && Tame(j) && Render(j) == s;
        assert j in db1.data;
      }
    }
  }

  /** Some keys go, and their renderings go. */
  lemma DropCommutes(t: Text, db: Db, t1: Text, db1: Db)
    requires Represents(t, db)
    requires t1.now == db1.now
    requires forall j :: j in db1.data ==> j in db.data && db1.data[j] == db.data[j]
    requires forall s :: s in t1.data ==> s in t.data && t1.data[s] == t.data[s]
    requires forall j :: j in db.data ==> (j in db1.data <==> Render(j) in t1.data)
    ensures Represents(t1, db1)
  {
    forall j ensures (j in db1.data ==> Tame(j)) && (Tame(j) ==> Same(t1, db1, j)) {
      Known(t, db, j);
    }
    forall s | s in t1.data ensures Names(db1, s) {
      assert Names(db, s);
      var j :| j in db.data && Tame(j) && Render(j) == s;
      assert j in db1.data;
    }
  }

  lemma RemoveCommutes(t: Text, db: Db, k: KeyName)
    requires Represents(t, db) && Tame(k)
    ensures Represents(Remove(t, Render(k)), Remove(db, k))
  {
    forall j | j in db.data
      ensures j in Remove(db, k).data <==> Render(j) in Remove(t, Render(k)).data
    {
      Known(t, db, j);
      KeysInjective(j, k);
    }
    DropCommutes(t, db, Remove(t, Render(k)), Remove(db, k));
  }

  lemma TickCommutes(t: Text, db: Db, ms: nat)
    requires Represents(t, db)
    ensures Represents(Tick(t, ms), Tick(db, ms))
  {
    forall j | j in db.data
      ensures j in Tick(db, ms).data <==> Render(j) in Tick(t, ms).data
    {
      Known(t, db, j);
    }
    DropCommutes(t, db, Tick(t, ms), Tick(db, ms));
  }

  lemma CleanupCommutes(t: Text, db: Db, h: string, keys: set<KeyName>)
    requires Represents(t, db) && TameAction(Cleanup(h, keys))
    ensures Represents(TextApply(t, Cleanup(h, keys)), Apply(db, Cleanup(h, keys)))
  {
    forall j | j in db.data
      ensures Sweeps(h, keys, j) <==> TextSweeps(h, keys, Render(j))
    {
      Known(t, db, j);
      if k :| k in keys && Render(k) == Render(j) {
        KeysInjective(j, k);
      }
    }
    forall j | j in db.data
      ensures j in Apply(db, Cleanup(h, keys)).data <==> Render(j) in TextApply(t, Cleanup(h, keys)).data
    {
      Known(t, db, j);
    }
    DropCommutes(t, db, TextApply(t, Cleanup(h, keys)), Apply(db, Cleanup(h, keys)));
  }

  lemma Agree(t: Text, db: Db, k: KeyName, s: string)
    requires Represents(t, db) && Tame(k) && s == Render(k)
    ensures t.now == db.now && (s in t.data <==> k in db.data) && (k in db.data ==> t.data[s] == db.data[k])
    ensures SlotOf(t, s) == SlotOf(db, k) && Items(t, s) == Items(db, k) && (NotAList(t, s) <==> NotAList(db, k))
  {
    Known(t, db, k);
  }

  lemma SendCommutes(t: Text, db: Db, m: KeyName, r: KeyName, ms: string, rs: string, f: Frame)
    requires Represents(t, db) && Tame(m) && Tame(r) && ms == Render(m) && rs == Render(r) && m != r && ms != rs
    ensures Represents(SendScript(t, ms, rs, f).0, SendScript(db, m, r, f).0)
  {
    var v, expires := List(Items(db, r) + ["1"]), Some(db.now + MESSAGE_TTL_MS);
    Agree(t, db, m, ms);
    Agree(t, db, r, rs);
    TwoPutsCommute(t, db, m, r, ms, rs, Slot(f), v, expires);
    SendIsPuts(t, db, m, r, ms, rs, f, v, expires);
  }

  lemma SendIsPuts(t: Text, db: Db, m: KeyName, r: KeyName, ms: string, rs: string, f: Frame, v: Value, e: Option<nat>)
    requires m != r && ms != rs && v == List(Items(db, r) + ["1"]) && e == Some(db.now + MESSAGE_TTL_MS)
    requires t.now == db.now && (ms in t.data <==> m in db.data)
    requires Items(t, rs) == Items(db, r) && (NotAList(t, rs) <==> NotAList(db, r))
    requires Represents(t, db) && Represents(Put(t, ms, Slot(f), e), Put(db, m, Slot(f), e))
    requires Represents(Put(Put(t, ms, Slot(f), e), rs, v, e), Put(Put(db, m, Slot(f), e), r, v, e))
    ensures Represents(SendScript(t, ms, rs, f).0, SendScript(db, m, r, f).0)
  {
    SendUnfolds(db, m, r, f, v, e);
    SendUnfolds(t, ms, rs, f, v, e);
  }

  lemma SendUnfolds<K>(db: Store<K>, m: K, r: K, f: Frame, v: Value, e: Option<nat>)
    requires m != r && v == List(Items(db, r) + ["1"]) && e == Some(db.now + MESSAGE_TTL_MS)
    ensures SendScript(db, m, r, f).0
            == if m in db.data then db
               else if NotAList(db, r) then Put(db, m, Slot(f), e) else Put(Put(db, m, Slot(f), e), r, v, e)
  {
  }

  lemma TwoPutsCommute(t: Text, db: Db, m: KeyName, r: KeyName, ms: string, rs: string, u: Value, v: Value, e: Option<nat>)
    requires Represents(t, db) && Tame(m) && Tame(r) && ms == Render(m) && rs == Render(r)
    ensures Represents(Put(t, ms, u, e), Put(db, m, u, e))
    ensures Represents(Put(Put(t, ms, u, e), rs, v, e), Put(Put(db, m, u, e), r, v, e))
  {
    PutCommutes(t, db, m, u, e);
    PutCommutes(Put(t, ms, u, e), Put(db, m, u, e), r, v, e);
  }

  lemma PopCommutes(t: Text, db: Db, k: KeyName, s: string)
    requires Represents(t, db) && Tame(k) && s == Render(k)
    ensures Represents(Pop(t, s).0, Pop(db, k).0)
  {
    Agree(t, db, k, s);
    var items := Items(db, k);
    if |items| == 1 {
      RemoveCommutes(t, db, k);
    } else if |items| > 1 {
      PutCommutes(t, db, k, List(items[1..]), db.data[k].expires);
    }
  }

  lemma GuardedCommutes(t: Text, db: Db, k: KeyName, s: string, f: Frame)
    requires Represents(t, db) && Tame(k) && s == Render(k)
    ensures Represents(AckScript(t, s, f).0, AckScript(db, k, f).0)
    ensures Represents(RenewScript(t, s, f).0, RenewScript(db, k, f).0)
  {
    Agree(t, db, k, s);
    RemoveCommutes(t, db, k);
    PutCommutes(t, db, k, Slot(f), Some(db.now + MESSAGE_TTL_MS));
  }

  lemma NotifyCommutes(t: Text, db: Db, k: KeyName, s: string, id: string)
    requires Represents(t, db) && Tame(k) && s == Render(k)
    ensures Represents(PushWake(t, s, id), PushWake(db, k, id))
  {
    var v := if NotAList(db, k) then db.data[k].value else List(Items(db, k) + [id]);
    PutCommutes(t, db, k, v, Some(db.now + MESSAGE_TTL_MS));
    Agree(t, db, k, s);
    NotifyIsPut(t, db, k, s, id, v, Some(db.now + MESSAGE_TTL_MS));
  }

  lemma NotifyIsPut(t: Text, db: Db, k: KeyName, s: string, id: string, v: Value, e: Option<nat>)
    requires v == (if NotAList(db, k) then db.data[k].value else List(Items(db, k) + [id])) && e == Some(db.now + MESSAGE_TTL_MS)
    requires t.now == db.now && Items(t, s) == Items(db, k) && (NotAList(t, s) <==> NotAList(db, k))
    requires k in db.data ==> s in t.data && t.data[s] == db.data[k]
    requires Represents(Put(t, s, v, e), Put(db, k, v, e))
    ensures Represents(PushWake(t, s, id), PushWake(db, k, id))
  {
  }

  lemma RegisterCommutes(t: Text, db: Db, k: KeyName, s: string, text: string)
    requires Represents(t, db) && Tame(k) && s == Render(k)
    ensures Represents(SetNx(t, s, text).0, SetNx(db, k, text).0)
  {
    Agree(t, db, k, s);
    PutCommutes(t, db, k, Value.Text(text), None);
  }

  lemma MailboxCommutes(t: Text, db: Db, a: Action)
    requires Represents(t, db) && TameAction(a) && (a.Send? || a.TakeReady? || a.Ack? || a.Renew?)
    ensures Represents(TextApply(t, a), Apply(db, a))
  {
    var m, r := Message(a.host, a.dir, a.id), Ready(a.host, a.dir, a.id);
    if a.Send? {
      KeysInjective(m, r);
      SendCommutes(t, db, m, r, Render(m), Render(r), a.frame);
    } else if a.TakeReady? {
      PopCommutes(t, db, r, Render(r));
    } else {
      GuardedCommutes(t, db, m, Render(m), a.frame);
    }
  }

  /** Doing to the strings what an action does to the names keeps the strings the renderings of
      the names. */
  lemma ApplyCommutes(t: Text, db: Db, a: Action)
    requires Represents(t, db) && TameAction(a)
    ensures Represents(TextApply(t, a), Apply(db, a))
  {
    match a {
      case Read(_, _, _) =>
      case Notify(h, id) => NotifyCommutes(t, db, Wake(h), Render(Wake(h)), id);
      case TakeWake(h) => PopCommutes(t, db, Wake(h), Render(Wake(h)));
      case Register(h, text) => RegisterCommutes(t, db, Host(h), Render(Host(h)), text);
      case SetLookup(h, hash) => PutCommutes(t, db, Session(h, hash), Value.Text(h), None);
      case DeleteLookup(h, hash) => RemoveCommutes(t, db, Session(h, hash));
      case Cleanup(h, keys) => CleanupCommutes(t, db, h, keys);
      case Elapse(ms) => TickCommutes(t, db, ms);
      case _ => MailboxCommutes(t, db, a);
    }
  }

  lemma {:induction false} RunCommutes(t: Text, db: Db, actions: seq<Action>)
    requires Represents(t, db) && AllTame(actions)
    ensures Represents(TextAll(t, actions), ApplyAll(db, actions))
    decreases |actions|
  {
    if actions != [] {
      assert actions[0] in actions;
      ApplyCommutes(t, db, actions[0]);
      RunCommutes(TextApply(t, actions[0]), Apply(db, actions[0]), actions[1..]);
    }
  }

  // ---------------------------------------------------------------- what Redis holds

  /** A key of a message, a token list or a wake queue carries an expiry at most MESSAGE_TTL_MS
      away; a host record or lookup carries none. */
  ghost predicate WellTimed(t: Text, s: string)
    requires s in t.data
  {
    exists k :: Tame(k) && Render(k) == s
                && if Volatile(k)
                   then t.data[s].expires.Some? && t.now < t.data[s].expires.value <= t.now + MESSAGE_TTL_MS
                   else t.data[s].expires.None?
  }

  /** In every run of any number of clients and hosts with generated hostnames, cleanups
      included, every string that Redis holds is the key of one thing, and is timed as that thing
      must be. */
  lemma StringsWellTimed(actions: seq<Action>, s: string)
    requires AllTame(actions) && s in TextAll(EMPTY, actions).data
    ensures WellTimed(TextAll(EMPTY, actions), s)
  {
    var names: Db := Store(0, map[]);
    var t, db := TextAll(EMPTY, actions), ApplyAll(names, actions);
    assert Represents(EMPTY, names);
    RunCommutes(EMPTY, names, actions);
    ExpiryAlwaysBounded(names, actions);
    assert Names(db, s);
    var k :| k in db.data && Tame(k) && Render(k) == s;
    assert Same(t, db, k) && Timed(db, k);
  }

  /** What an action does to the slot under a string. */
  function TextEvent(t: Text, a: Action, s: string): Event {
    match a
    case Send(h, d, id, f) => if s == Render(Message(h, d, id)) && s !in t.data then Placed(f) else Untouched
    case Ack(h, d, id, f) => if s == Render(Message(h, d, id)) && SlotOf(t, s) == Some(f) then Acked(f) else Untouched
    case Elapse(ms) => if s !in Tick(t, ms).data && SlotOf(t, s).Some? then Expired(SlotOf(t, s).value) else Untouched
    case Cleanup(h, keys) => if TextSweeps(h, keys, s) && SlotOf(t, s).Some? then Swept(SlotOf(t, s).value) else Untouched
    case _ => Untouched
  }

  function TextAccount(t: Text, actions: seq<Action>, s: string): Books
    decreases |actions|
  {
    if actions == [] then Books(multiset{}, multiset{}, multiset{}, multiset{})
    else Booked(TextAccount(TextApply(t, actions[0]), actions[1..], s), TextEvent(t, actions[0], s))
  }

  lemma EventsCommute(t: Text, db: Db, a: Action, key: KeyName)
    requires Represents(t, db) && Bounded(db) && TameAction(a) && Tame(key) && key.Message?
    ensures TextEvent(t, a, Render(key)) == EventAt(db, a, key)
    ensures !EventAt(db, a, key).Swept?
  {
    assert Same(t, db, key);
    match a {
      case Send(h, d, id, f) => KeysInjective(key, Message(h, d, id));
      case Ack(h, d, id, f) => KeysInjective(key, Message(h, d, id));
      case Elapse(ms) =>
        TickCommutes(t, db, ms);
        assert Same(Tick(t, ms), Tick(db, ms), key);
      case Cleanup(h, keys) => CleanupIsOwn(h, key);
      case _ =>
    }
  }

  lemma {:induction false} AccountsCommute(t: Text, db: Db, actions: seq<Action>, key: KeyName)
    requires Represents(t, db) && Bounded(db) && AllTame(actions) && Tame(key) && key.Message?
    ensures TextAccount(t, actions, Render(key)) == Account(db, actions, key)
    ensures Account(db, actions, key).swept == multiset{}
    decreases |actions|
  {
    if actions != [] {
      var a := actions[0];
      assert a in actions;
      EventsCommute(t, db, a, key);
      ApplyCommutes(t, db, a);
      ActionKeepsBounded(db, a);
      AccountsCommute(TextApply(t, a), Apply(db, a), actions[1..], key);
    }
  }

  /** In every such run the frames placed under the string of a mailbox are those acknowledged
      there, those that expired there and the one that is there at the end: no cleanup takes any,
      and no other key touches the slot. */
  lemma StringsConserveFrames(actions: seq<Action>, key: KeyName)
    requires AllTame(actions) && Tame(key) && key.Message?
    ensures var b := TextAccount(EMPTY, actions, Render(key));
            b.swept == multiset{} && b.placed == b.acked + b.expired + Bag(SlotOf(TextAll(EMPTY, actions), Render(key)))
  {
    var names: Db := Store(0, map[]);
    assert Represents(EMPTY, names);
    RunCommutes(EMPTY, names, actions);
    AccountsCommute(EMPTY, names, actions, key);
    FramesConserved(names, actions, key);
    assert Same(TextAll(EMPTY, actions), ApplyAll(names, actions), key);
    var b := Account(names, actions, key);
    assert Balanced(multiset{}, b, Bag(SlotOf(ApplyAll(names, actions), key)));
    assert multiset{} + b.placed == b.placed;
  }

  /** Without the shape this fails: with two valid hostnames, the permanent record of one is gone
      a minute after a client has woken the other. */
  lemma RecordCanExpire(signature: string, id: string)
    ensures ValidHostname("wake") && ValidHostname("host") && Render(Host("wake")) == Render(Wake("host"))
    ensures var t := TextAll(EMPTY, [Register("wake", signature), Notify("host", id), Elapse(MESSAGE_TTL_MS)]);
            Render(Host("wake")) !in t.data
  {
    var k := Render(Host("wake"));
    assert k == Render(Wake("host"));
    WokenRecordExpires(k, signature, id);
    var a1, a2, a3 := Register("wake", signature), Notify("host", id), Elapse(MESSAGE_TTL_MS);
    assert [a1, a2, a3][1..] == [a2, a3] && [a2, a3][1..] == [a3] && [a3][1..] == [];
    var t2 := TextApply(TextApply(EMPTY, a1), a2);
    assert TextAll(t2, [a3]) == TextApply(t2, a3);
    assert TextAll(TextApply(EMPTY, a1), [a2, a3]) == TextAll(t2, [a3]);
  }

  lemma WokenRecordExpires(k: string, signature: string, id: string)
    ensures k !in Tick(PushWake(SetNx(EMPTY, k, signature).0, k, id), MESSAGE_TTL_MS).data
  {
  }
}
