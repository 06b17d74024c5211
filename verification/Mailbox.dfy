/** One direction of a connection without its clock: a slot, and the tokens that announce it.
    Expiry becomes a step that may strike at any moment. */
module Mailbox {
  import opened Wrappers
  import opened Protocol
  import opened Keys
  import opened Redis

  datatype Box = Box(slot: Option<Frame>, tokens: nat)

  const EMPTY: Box := Box(None, 0)

  /** SEND_SCRIPT: nothing happens unless the slot is free. */
  function Place(b: Box, f: Frame): Box {
    if b.slot.Some? then b else Box(Some(f), b.tokens + 1)
  }

  /** ACK_SCRIPT. */
  function Clear(b: Box, f: Frame): Box {
    if b.slot == Some(f) then b.(slot := None) else b
  }

  function TakeToken(b: Box): Box {
    if b.tokens > 0 then b.(tokens := b.tokens - 1) else b
  }

  /** What the passing of time, or the cleanup of a host whose pattern reaches the mailbox, may
      do. */
  predicate Faded(before: Box, after: Box) {
    (after.slot == before.slot || after.slot == None)
    && (after.tokens == before.tokens || after.tokens == 0)
  }

  function View(db: Db, host: string, dir: Direction, id: string): Box {
    Box(SlotOf(db, Message(host, dir, id)), |Items(db, Ready(host, dir, id))|)
  }

  /** Redis refines the box: every action of anybody is the box operation it names, a fading,
      or invisible. Renewing a lease is invisible: it can only keep a fading from happening. */
  lemma RedisRefinesBox(db: Db, a: Action, host: string, dir: Direction, id: string)
    requires Bounded(db)
    ensures var before, after := View(db, host, dir, id), View(Apply(db, a), host, dir, id);
            match a
            case Send(h, d, i, f) => after == if (h, d, i) == (host, dir, id) then Place(before, f) else before
            case Ack(h, d, i, f) => after == if (h, d, i) == (host, dir, id) then Clear(before, f) else before
            case TakeReady(h, d, i) => after == if (h, d, i) == (host, dir, id) then TakeToken(before) else before
            case Elapse(_) => Faded(before, after)
            case Cleanup(_, _) => Faded(before, after)
            case _ => after == before
  {
    var m, r := Message(host, dir, id), Ready(host, dir, id);
    if m in db.data {
      assert Typed(db, m);
    }
    if r in db.data {
      assert Typed(db, r);
    }
  }
}
