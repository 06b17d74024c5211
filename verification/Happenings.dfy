/** What happens to a database and to a machine that is a picture of it: a command on Redis and
    the machine's step for it, either of which may be absent. */
module Happenings {
  import opened Wrappers
  import opened Redis

  datatype Happening<+S> = Happening(action: Option<Action>, step: Option<S>)

  /** The commands among some events. */
  function Commands<S>(events: seq<Happening<S>>): seq<Action> {
    if events == [] then []
    else (if events[0].action.Some? then [events[0].action.value] else []) + Commands(events[1..])
  }

  function DbAfter<S>(db: Db, e: Happening<S>): Db {
    if e.action.Some? then Redis.Apply(db, e.action.value) else db
  }

  lemma CommandFirst<S>(db: Db, events: seq<Happening<S>>)
    requires events != []
    ensures ApplyAll(db, Commands(events)) == ApplyAll(DbAfter(db, events[0]), Commands(events[1..]))
  {
    if events[0].action.Some? {
      assert Commands(events)[0] == events[0].action.value && Commands(events)[1..] == Commands(events[1..]);
    } else {
      assert Commands(events) == Commands(events[1..]);
    }
  }
}
