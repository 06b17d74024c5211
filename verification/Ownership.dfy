/** Who owns a hostname (src/redis_transport.rs:281-366): registration with SETNX and GET, and the
    startup cleanup of session lookups by SCAN and DEL, against everything other hosts do. */
module Ownership {
  import opened Keys
  import opened Sequences
  import opened Wrappers

  datatype Content = Signature(text: string) | Wakes | Lookup

  datatype Record = Record(content: Content, expires: bool)

  type Database = map<string, Record>

  function Without(db: Database, keys: set<string>): Database { db - keys }

  // ---------------------------------------------------------------- the cleanup loop

  /** What others do to the database between two commands. */
  datatype Change = Change(removed: set<string>, added: Database)

  function Changed(db: Database, c: Change): Database { Without(db, c.removed) + c.added }

  datatype Fault = NoFault | ScanFails | DelFails(applied: bool)

  /** One turn of the loop as Redis answers it: others act, SCAN returns `keys` and the next
      cursor, others act again, DEL runs. */
  datatype Page = Page(before: Change, keys: seq<string>, next: nat, between: Change, fault: Fault)

  function Scanned(db: Database, p: Page): Database { Changed(db, p.before) }

  function AfterPage(db: Database, p: Page): Database {
    match p.fault
    case ScanFails => Scanned(db, p)
    case DelFails(false) => Changed(Scanned(db, p), p.between)
    case _ => Without(Changed(Scanned(db, p), p.between), set k | k in p.keys)
  }

  function AfterPages(db: Database, pages: seq<Page>): Database {
    if pages == [] then db
    else AfterPage(AfterPages(db, pages[..|pages| - 1]), pages[|pages| - 1])
  }

  predicate Last(p: Page) { !p.fault.NoFault? || p.next == 0 }

  predicate AddsKey(p: Page, k: string) { k in p.before.added || k in p.between.added }

  predicate RemovesKey(p: Page, k: string) { k in p.before.removed || k in p.between.removed }

  predicate ScannedAt(db: Database, pages: seq<Page>, i: nat, k: string)
    requires i < |pages|
  {
    k in Scanned(AfterPages(db, pages[..i]), pages[i])
  }

  /** The guarantee of a full SCAN iteration: a matching key present at its start and at every
      call is returned by one of them. */
  ghost predicate Covers(hostname: string, db: Database, pages: seq<Page>) {
    forall k :: k in db && MatchesGlob(hostname, k) && (forall i :: 0 <= i < |pages| ==> ScannedAt(db, pages, i, k)) ==>
      exists i :: 0 <= i < |pages| && k in pages[i].keys
  }

  predicate Added(pages: seq<Page>, k: string) { exists i :: 0 <= i < |pages| && AddsKey(pages[i], k) }

  predicate Removed(pages: seq<Page>, k: string) { exists i :: 0 <= i < |pages| && RemovesKey(pages[i], k) }

  /** Turn number `n` is the first that ends the loop. */
  predicate EndsAt(pages: seq<Page>, n: nat) {
    0 < n <= |pages| && Last(pages[n - 1]) && forall i :: 0 <= i < n - 1 ==> !Last(pages[i])
  }

  /** The loop has ended with turn `turns`, or still runs when the script is used up. */
  predicate LoopResult(script: seq<Page>, ended: bool, ok: bool, turns: nat) {
    if ended then EndsAt(script, turns) && ok == script[turns - 1].fault.NoFault?
    else ok && turns == |script| && forall i :: 0 <= i < |script| ==> !Last(script[i])
  }

  ghost predicate PagesMatch(hostname: string, pages: seq<Page>) {
    forall i, k :: 0 <= i < |pages| && k in pages[i].keys ==> MatchesGlob(hostname, k)
  }

  datatype RegisterError = BadHostname | Unreadable | OwnedByAnother

  class KeySpace {
    var db: Database

    /** `HostListener::register`: SETNX, and when the record exists GET and compare, with others
        acting in between. Success means that the record now names this signature. */
    method Register(hostname: string, signature: string, between: Change) returns (r: Result<(), RegisterError>)
      modifies this
      ensures r.Ok? ==> HostKey(hostname) in db && db[HostKey(hostname)].content == Signature(signature)
      ensures r == Err(BadHostname) <==> !ValidHostname(hostname)
      ensures r == Err(OwnedByAnother) ==>
                HostKey(hostname) in old(db) && HostKey(hostname) in db
                && db[HostKey(hostname)].content.Signature? && db[HostKey(hostname)].content.text != signature
      ensures if !ValidHostname(hostname) then db == old(db)
              else if HostKey(hostname) in old(db) then db == Changed(old(db), between)
              else r.Ok? && db == old(db)[HostKey(hostname) := Record(Signature(signature), false)]
    {
      if !ValidHostname(hostname) {
        return Err(BadHostname);
      }
      var key := HostKey(hostname);
      if key !in db {
        db := db[key := Record(Signature(signature), false)];
        return Ok(());
      }
      db := Changed(db, between);
      if key !in db || !db[key].content.Signature? {
        return Err(Unreadable);
      }
      r := if db[key].content.text == signature then Ok(()) else Err(OwnedByAnother);
    }

    /** `clear_session_lookups`, as long as `script` lasts. When the loop ends without an error,
        every key of the pattern that was there at its start is gone, unless somebody else added it
        meanwhile; and it never deletes anything outside the pattern. */
    method ClearSessionLookups(hostname: string, script: seq<Page>) returns (ended: bool, ok: bool, turns: nat)
      requires PagesMatch(hostname, script)
      modifies this
      ensures LoopResult(script, ended, ok, turns)
      ensures db == AfterPages(old(db), script[..turns])
      ensures ended && ok && Covers(hostname, old(db), script[..turns]) ==>
                forall k :: k in old(db) && MatchesGlob(hostname, k) && !Added(script[..turns], k) ==> k !in db
      ensures forall k :: k in old(db) && k !in db ==> MatchesGlob(hostname, k) || Removed(script[..turns], k)
    {
      ended, ok, turns := ScanLoop(script);
      OnlyPattern(hostname, old(db), script[..turns]);
      if ended && ok && Covers(hostname, old(db), script[..turns]) {
        CleanupIsComplete(hostname, old(db), script[..turns]);
      }
    }

    /** The loop over the cursor, until Redis answers zero or a command fails. */
    method ScanLoop(script: seq<Page>) returns (ended: bool, ok: bool, turns: nat)
      modifies this
      ensures LoopResult(script, ended, ok, turns)
      ensures db == AfterPages(old(db), script[..turns])
    {
      turns, ok, ended := 0, true, false;
      var cursor := 0;
      while !ended && turns < |script|
        invariant turns <= |script|
        invariant if ended then EndsAt(script, turns) && ok == script[turns - 1].fault.NoFault?
                  else ok && forall i :: 0 <= i < turns ==> !Last(script[i])
        invariant db == AfterPages(old(db), script[..turns])
        decreases |script| - turns
      {
        NextPage(old(db), script, turns);
        cursor, ok := Turn(script[turns]);
        turns := turns + 1;
        ended := !ok || cursor == 0;
      }
    }

    /** One SCAN and its DEL. */
    method Turn(page: Page) returns (cursor: nat, ok: bool)
      modifies this
      ensures db == AfterPage(old(db), page) && ok == page.fault.NoFault? && (ok ==> cursor == page.next)
    {
      cursor := 0;
      db := Changed(db, page.before);
      if page.fault.ScanFails? {
        return cursor, false;
      }
      cursor := page.next;
      db := Changed(db, page.between);
      if page.fault == DelFails(false) {
        return cursor, false;
      }
      if page.keys != [] {
        db := Without(db, set k | k in page.keys);
      }
      ok := page.fault.NoFault?;
    }
  }

  lemma NextPage(db: Database, script: seq<Page>, i: nat)
    requires i < |script|
    ensures AfterPages(db, script[..i + 1]) == AfterPage(AfterPages(db, script[..i]), script[i])
  {
    assert script[..i + 1][..i] == script[..i];
  }

  /** A key nobody adds, once gone, stays gone. */
  lemma {:induction false} AbsenceStays(db: Database, pages: seq<Page>, i: nat, n: nat, k: string)
    requires i <= n <= |pages| && !Added(pages, k) && k !in AfterPages(db, pages[..i])
    ensures k !in AfterPages(db, pages[..n])
    decreases n
  {
    if i < n {
      AbsenceStays(db, pages, i, n - 1, k);
      NextPage(db, pages, n - 1);
      assert !AddsKey(pages[n - 1], k);
      StaysAbsent(AfterPages(db, pages[..n - 1]), pages[n - 1], k);
    }
  }

  lemma StaysAbsent(db: Database, p: Page, k: string)
    requires k !in db && !AddsKey(p, k)
    ensures k !in AfterPage(db, p)
  {
  }

  /** A key missed by turn `i` or deleted by it is gone at the end. */
  lemma GoneAfter(db: Database, pages: seq<Page>, i: nat, k: string)
    requires i < |pages| && pages[i].fault.NoFault? && !Added(pages, k)
    requires !ScannedAt(db, pages, i, k) || k in pages[i].keys
    ensures k !in AfterPages(db, pages)
  {
    assert !AddsKey(pages[i], k);
    NextPage(db, pages, i);
    GoneFromPage(AfterPages(db, pages[..i]), pages[i], k);
    AbsenceStays(db, pages, i + 1, |pages|, k);
    assert pages[..|pages|] == pages;
  }

  lemma GoneFromPage(db: Database, p: Page, k: string)
    requires p.fault.NoFault? && !AddsKey(p, k) && (k !in Scanned(db, p) || k in p.keys)
    ensures k !in AfterPage(db, p)
  {
  }

  lemma CleanupIsComplete(hostname: string, db: Database, pages: seq<Page>)
    requires Covers(hostname, db, pages) && forall i :: 0 <= i < |pages| ==> pages[i].fault.NoFault?
    ensures forall k :: k in db && MatchesGlob(hostname, k) && !Added(pages, k) ==> k !in AfterPages(db, pages)
  {
    forall k | k in db && MatchesGlob(hostname, k) && !Added(pages, k)
      ensures k !in AfterPages(db, pages)
    {
      if i :| 0 <= i < |pages| && !ScannedAt(db, pages, i, k) {
        GoneAfter(db, pages, i, k);
      } else {
        var i :| 0 <= i < |pages| && k in pages[i].keys;
        GoneAfter(db, pages, i, k);
      }
    }
  }

  lemma {:induction false} OnlyPattern(hostname: string, db: Database, pages: seq<Page>)
    requires PagesMatch(hostname, pages)
    ensures forall k :: k in db && k !in AfterPages(db, pages) ==> MatchesGlob(hostname, k) || Removed(pages, k)
  {
    if pages != [] {
      var n := |pages| - 1;
      OnlyPattern(hostname, db, pages[..n]);
      forall k | k in db && k !in AfterPages(db, pages)
        ensures MatchesGlob(hostname, k) || Removed(pages, k)
      {
        if k !in AfterPages(db, pages[..n]) && Removed(pages[..n], k) {
          var i :| 0 <= i < n && RemovesKey(pages[..n][i], k);
          assert RemovesKey(pages[i], k);
        } else if k in AfterPages(db, pages[..n]) && k !in pages[n].keys {
          assert RemovesKey(pages[n], k);
        }
      }
    }
  }

  // ---------------------------------------------------------------- registration

  datatype Pc = Starting | Taken | Refused | Sweeping | Serving

  /** One start of `serve`. */
  datatype Proc = Proc(host: string, signature: string, pc: Pc)

  datatype World = World(db: Database, procs: map<nat, Proc>)

  const EMPTY: World := World(map[], map[])

  /** Atomic commands of hosts and clients. Message and ready keys hold a random connection id
      that no hostname contains, and are left out. */
  datatype Act =
    | Start(p: nat, host: string, signature: string)
    | SetNx(p: nat)
    | Check(p: nat)
    | Sweep(p: nat, keys: set<string>)
    | Swept(p: nat)
    | CreateLookup(p: nat, hash: string)
    | DeleteLookup(p: nat, hash: string)
    | PushWake(host: string)
    | TakeLastWake(host: string)
    | Expire(key: string)

  predicate Registered(w: World, p: nat) { p in w.procs && (w.procs[p].pc.Sweeping? || w.procs[p].pc.Serving?) }

  predicate Enabled(hosts: set<string>, w: World, a: Act) {
    match a
    case Start(p, h, _) => p !in w.procs && h in hosts
    case SetNx(p) => p in w.procs && w.procs[p].pc.Starting?
    case Check(p) => p in w.procs && w.procs[p].pc.Taken?
    case Sweep(p, keys) => p in w.procs && w.procs[p].pc.Sweeping? && forall k :: k in keys ==> MatchesGlob(w.procs[p].host, k)
    case Swept(p) => p in w.procs && w.procs[p].pc.Sweeping?
    case CreateLookup(p, hash) => p in w.procs && w.procs[p].pc.Serving? && |hash| == 64
    case DeleteLookup(p, hash) => p in w.procs && w.procs[p].pc.Serving? && |hash| == 64
    case PushWake(h) => h in hosts && HostKey(h) in w.db
    case TakeLastWake(h) => h in hosts && WakeKey(h) in w.db && w.db[WakeKey(h)].content.Wakes?
    case Expire(k) => k in w.db && w.db[k].expires
  }

  function Goto(w: World, p: nat, pc: Pc): World
    requires p in w.procs
  {
    w.(procs := w.procs[p := w.procs[p].(pc := pc)])
  }

  /** RPUSH fails on a value that is not a list; the PEXPIRE of the same transaction still runs. */
  function Woken(db: Database, key: string): Database {
    db[key := Record(if key in db then db[key].content else Wakes, true)]
  }

  function Apply(hosts: set<string>, w: World, a: Act): World
    requires Enabled(hosts, w, a)
  {
    match a
    case Start(p, h, signature) => w.(procs := w.procs[p := Proc(h, signature, Starting)])
    case SetNx(p) =>
      var key := HostKey(w.procs[p].host);
      if key in w.db then Goto(w, p, Taken)
      else Goto(w.(db := w.db[key := Record(Signature(w.procs[p].signature), false)]), p, Sweeping)
    case Check(p) =>
      var key := HostKey(w.procs[p].host);
      Goto(w, p, if key in w.db && w.db[key].content == Signature(w.procs[p].signature) then Sweeping else Refused)
    case Sweep(p, keys) => w.(db := Without(w.db, keys))
    case Swept(p) => Goto(w, p, Serving)
    case CreateLookup(p, hash) => w.(db := w.db[SessionKey(w.procs[p].host, hash) := Record(Lookup, false)])
    case DeleteLookup(p, hash) => w.(db := Without(w.db, {SessionKey(w.procs[p].host, hash)}))
    case PushWake(h) => w.(db := Woken(w.db, WakeKey(h)))
    case TakeLastWake(h) => w.(db := Without(w.db, {WakeKey(h)}))
    case Expire(k) => w.(db := Without(w.db, {k}))
  }

  ghost predicate IsRun(hosts: set<string>, worlds: seq<World>, acts: seq<Act>) {
    |worlds| == |acts| + 1 && worlds[0] == EMPTY
    && forall i {:trigger acts[i]} :: 0 <= i < |acts| ==> Enabled(hosts, worlds[i], acts[i]) && worlds[i + 1] == Apply(hosts, worlds[i], acts[i])
  }

  /** Nobody has registered a hostname under two signatures. */
  ghost predicate OneOwner(w: World) {
    forall p, q :: Registered(w, p) && Registered(w, q) && w.procs[p].host == w.procs[q].host ==>
      w.procs[p].signature == w.procs[q].signature
  }

  ghost predicate SoleOwnership(hosts: set<string>) {
    forall worlds, acts :: IsRun(hosts, worlds, acts) ==> OneOwner(worlds[|acts|])
  }

  /** What host `a` does can take the record of hostname `b` away. */
  predicate Threatens(a: string, b: string) {
    MatchesGlob(a, HostKey(b)) || WakeKey(a) == HostKey(b)
  }

  ghost predicate Unthreatened(hosts: set<string>) {
    forall a, b :: a in hosts && b in hosts ==> !Threatens(a, b)
  }

  ghost predicate AllValid(hosts: set<string>) {
    forall h :: h in hosts ==> ValidHostname(h)
  }

  // ---------------------------------------------------------------- records stay

  ghost predicate RecordsOk(hosts: set<string>, w: World) {
    (forall p :: p in w.procs ==> w.procs[p].host in hosts)
    && (forall h :: h in hosts && HostKey(h) in w.db ==> !w.db[HostKey(h)].expires && w.db[HostKey(h)].content.Signature?)
    && forall p :: Registered(w, p) ==>
         HostKey(w.procs[p].host) in w.db && w.db[HostKey(w.procs[p].host)].content == Signature(w.procs[p].signature)
  }

  predicate RecordKept(w: World, after: World, h: string) {
    HostKey(h) in w.db ==> HostKey(h) in after.db && after.db[HostKey(h)] == w.db[HostKey(h)]
  }

  /** A session key is longer than any host record's: its hash alone exceeds a hostname. */
  lemma LookupIsNoRecord(a: string, hash: string, h: string)
    requires |hash| == 64 && ValidHostname(h)
    ensures SessionKey(a, hash) != HostKey(h)
  {
    assert |HostKey(h)| <= 13 + 63;
    assert |SessionKey(a, hash)| == 8 + |a| + 9 + 64;
  }

  lemma StepKeepsRecord(hosts: set<string>, w: World, a: Act, h: string)
    requires AllValid(hosts) && Unthreatened(hosts) && RecordsOk(hosts, w) && Enabled(hosts, w, a) && h in hosts
    ensures RecordKept(w, Apply(hosts, w, a), h)
  {
    match a {
      case Sweep(p, keys) => assert !Threatens(w.procs[p].host, h);
      case CreateLookup(p, hash) => LookupIsNoRecord(w.procs[p].host, hash, h);
      case DeleteLookup(p, hash) => LookupIsNoRecord(w.procs[p].host, hash, h);
      case PushWake(g) => assert !Threatens(g, h);
      case TakeLastWake(g) => assert !Threatens(g, h);
      case _ =>
    }
  }

  lemma HostKeyInjective(a: string, b: string)
    requires HostKey(a) == HostKey(b)
    ensures a == b
  {
    assert HostKey(a)[13..] == a && HostKey(b)[13..] == b;
  }

  lemma StepKeepsRecords(hosts: set<string>, w: World, a: Act)
    requires AllValid(hosts) && Unthreatened(hosts) && RecordsOk(hosts, w) && Enabled(hosts, w, a)
    ensures RecordsOk(hosts, Apply(hosts, w, a))
  {
    var after := Apply(hosts, w, a);
    forall h | h in hosts && HostKey(h) in after.db
      ensures !after.db[HostKey(h)].expires && after.db[HostKey(h)].content.Signature?
    {
      StepKeepsRecord(hosts, w, a, h);
      if HostKey(h) !in w.db && !a.SetNx? {
        OnlyRegistrationCreates(hosts, w, a, h);
      }
    }
    forall p | Registered(after, p)
      ensures HostKey(after.procs[p].host) in after.db
      ensures after.db[HostKey(after.procs[p].host)].content == Signature(after.procs[p].signature)
    {
      StepKeepsRecord(hosts, w, a, after.procs[p].host);
    }
  }

  lemma OnlyRegistrationCreates(hosts: set<string>, w: World, a: Act, h: string)
    requires AllValid(hosts) && Unthreatened(hosts) && RecordsOk(hosts, w) && Enabled(hosts, w, a) && h in hosts
    requires HostKey(h) !in w.db && !a.SetNx?
    ensures HostKey(h) !in Apply(hosts, w, a).db
  {
    match a {
      case CreateLookup(p, hash) => LookupIsNoRecord(w.procs[p].host, hash, h);
      case PushWake(g) => assert !Threatens(g, h);
      case _ =>
    }
  }

  lemma {:induction false} RunKeepsRecords(hosts: set<string>, worlds: seq<World>, acts: seq<Act>, n: nat)
    requires AllValid(hosts) && Unthreatened(hosts) && IsRun(hosts, worlds, acts) && n < |worlds|
    ensures RecordsOk(hosts, worlds[n])
  {
    if n > 0 {
      RunKeepsRecords(hosts, worlds, acts, n - 1);
      StepKeepsRecords(hosts, worlds[n - 1], acts[n - 1]);
    }
  }

  /** Among hosts that do not threaten each other a registered hostname's record never changes. */
  lemma {:induction false} RecordForever(hosts: set<string>, worlds: seq<World>, acts: seq<Act>, i: nat, j: nat, h: string)
    requires AllValid(hosts) && Unthreatened(hosts) && IsRun(hosts, worlds, acts) && i <= j < |worlds|
    requires h in hosts && HostKey(h) in worlds[i].db
    ensures HostKey(h) in worlds[j].db && worlds[j].db[HostKey(h)] == worlds[i].db[HostKey(h)]
    decreases j
  {
    if i < j {
      RecordForever(hosts, worlds, acts, i, j - 1, h);
      RunKeepsRecords(hosts, worlds, acts, j - 1);
      StepKeepsRecord(hosts, worlds[j - 1], acts[j - 1], h);
    }
  }

  // ---------------------------------------------------------------- exactly when

  lemma ThreatensOthers(a: string, b: string)
    requires Threatens(a, b)
    ensures a != b
  {
    if WakeKey(a) == HostKey(b) {
      WakeKeyFields(a);
      HostKeyFields(b);
      var f, g := Fields(a), Fields(b);
      assert ["shex", "v2"] + f + ["wake"] == ["shex", "v2", "host"] + g;
      if f == g {
        Shifted(f, |f|);
      }
    } else {
      assert |SessionPrefix(a)| == |a| + 17 && |HostKey(b)| == |b| + 13;
    }
  }

  lemma {:induction false} Shifted(f: seq<string>, k: nat)
    requires k <= |f| && ["shex", "v2"] + f + ["wake"] == ["shex", "v2", "host"] + f
    ensures (f + ["wake"])[k] == "host"
  {
    var xs, ys := ["shex", "v2"] + f + ["wake"], ["shex", "v2", "host"] + f;
    assert xs[k + 2] == (f + ["wake"])[k];
    if k > 0 {
      Shifted(f, k - 1);
      assert ys[k + 2] == f[k - 1];
    }
  }

  /** The moves by which a threat turns into a second owner: the record is registered, `a`
      registers and takes it away, and another signature registers. */
  function Theft(a: string, b: string): seq<Act> {
    [Start(0, b, "first"), SetNx(0), Start(1, a, "other"), SetNx(1)]
    + (if MatchesGlob(a, HostKey(b)) then [Sweep(1, {HostKey(b)}), Swept(1)] else [PushWake(a), Expire(HostKey(b))])
    + [Start(2, b, "second"), SetNx(2)]
  }

  /** A hostname has one owner in every run exactly when no hostname in use threatens another's
      record. */
  lemma OwnershipExactly(hosts: set<string>)
    requires AllValid(hosts)
    ensures SoleOwnership(hosts) <==> Unthreatened(hosts)
  {
    if Unthreatened(hosts) {
      forall worlds, acts | IsRun(hosts, worlds, acts)
        ensures OneOwner(worlds[|acts|])
      {
        RunKeepsRecords(hosts, worlds, acts, |acts|);
      }
    } else {
      var a, b :| a in hosts && b in hosts && Threatens(a, b);
      var worlds := TheftRuns(hosts, a, b);
      var w := worlds[8];
      assert Registered(w, 0) && Registered(w, 2);
    }
  }

  /** Registering a hostname nobody holds. */
  lemma Registers(hosts: set<string>, w: World, p: nat, h: string, signature: string) returns (v: World, x: World)
    requires h in hosts && p !in w.procs && HostKey(h) !in w.db
    ensures Enabled(hosts, w, Start(p, h, signature)) && v == Apply(hosts, w, Start(p, h, signature))
    ensures Enabled(hosts, v, SetNx(p)) && x == Apply(hosts, v, SetNx(p))
    ensures x == World(w.db[HostKey(h) := Record(Signature(signature), false)], w.procs[p := Proc(h, signature, Sweeping)])
  {
    v := Apply(hosts, w, Start(p, h, signature));
    x := Apply(hosts, v, SetNx(p));
  }

  lemma TheftRuns(hosts: set<string>, a: string, b: string) returns (worlds: seq<World>)
    requires a in hosts && b in hosts && Threatens(a, b)
    ensures IsRun(hosts, worlds, Theft(a, b))
    ensures var w := worlds[8];
            Registered(w, 0) && w.procs[0] == Proc(b, "first", Sweeping)
            && Registered(w, 2) && w.procs[2] == Proc(b, "second", Sweeping)
  {
    ThreatensOthers(a, b);
    if HostKey(a) == HostKey(b) {
      HostKeyInjective(a, b);
    }
    var acts := Theft(a, b);
    var w1, w2 := Registers(hosts, EMPTY, 0, b, "first");
    var w3, w4 := Registers(hosts, w2, 1, a, "other");
    var w5, w6 := Loses(hosts, w4, a, b);
    var w7, w8 := Registers(hosts, w6, 2, b, "second");
    worlds := [EMPTY, w1, w2, w3, w4, w5, w6, w7, w8];
  }

  /** The record of `b` disappears. */
  lemma Loses(hosts: set<string>, w: World, a: string, b: string) returns (v: World, x: World)
    requires a in hosts && Threatens(a, b) && HostKey(a) in w.db && HostKey(b) in w.db
    requires 1 in w.procs && w.procs[1].host == a && w.procs[1].pc.Sweeping?
    ensures var acts := if MatchesGlob(a, HostKey(b)) then [Sweep(1, {HostKey(b)}), Swept(1)] else [PushWake(a), Expire(HostKey(b))];
            Enabled(hosts, w, acts[0]) && v == Apply(hosts, w, acts[0])
            && Enabled(hosts, v, acts[1]) && x == Apply(hosts, v, acts[1])
    ensures HostKey(b) !in x.db && forall p :: p != 1 ==> (p in x.procs <==> p in w.procs) && (p in w.procs ==> x.procs[p] == w.procs[p])
  {
    if MatchesGlob(a, HostKey(b)) {
      v := Apply(hosts, w, Sweep(1, {HostKey(b)}));
      x := Apply(hosts, v, Swept(1));
    } else {
      v := Apply(hosts, w, PushWake(a));
      x := Apply(hosts, v, Expire(HostKey(b)));
    }
  }

  /** The threat, in terms a caller can check: the fields between colons. */
  lemma ThreatByFields(a: string, b: string)
    ensures Threatens(a, b) <==>
            Fields(a) + ["session"] < ["host"] + Fields(b) || Fields(a) + ["wake"] == ["host"] + Fields(b)
  {
    CleanupReachesHosts(a, b);
    WakeKeyFields(a);
    HostKeyFields(b);
    var f, g := Fields(a) + ["wake"], ["host"] + Fields(b);
    Associates(["shex", "v2"], Fields(a), ["wake"]);
    assert ["shex", "v2", "host"] == ["shex", "v2"] + ["host"];
    Associates(["shex", "v2"], ["host"], Fields(b));
    TakeDrop(["shex", "v2"], f);
    TakeDrop(["shex", "v2"], g);
    if f == g {
      FieldsInjective(WakeKey(a), HostKey(b));
    }
  }

  /** Generated hostnames never threaten each other: each has one owner for ever. */
  lemma GeneratedHostsAreSafe(hosts: set<string>)
    requires forall h :: h in hosts ==> ValidHostname(h) && Shaped(h)
    ensures Unthreatened(hosts) && SoleOwnership(hosts)
  {
    forall a, b | a in hosts && b in hosts
      ensures !Threatens(a, b)
    {
      CleanupIsOwn(a, Host(b));
      KeysInjective(Wake(a), Host(b));
      assert Render(Host(b)) == HostKey(b) && Render(Wake(a)) == WakeKey(a);
    }
    OwnershipExactly(hosts);
  }
}
