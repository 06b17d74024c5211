/** Saved authentication (src/auth_file.rs) and what the commands of one user remember between
    runs (src/main.rs:213-340). File names are injective digests of hostnames, so files are
    indexed by hostname; sealing is symbolic. */
module AuthFiles {
  import opened Wrappers

  const AUTH_VERSION: nat := 2

  datatype StoredAuth = StoredAuth(
    redisUrl: string, hostname: string, signature: string, code: string, lastSession: Option<string>)

  /** An envelope opens only under the key it was sealed with, bound to its key id. */
  datatype Envelope = Envelope(version: nat, keyId: string, sealedUnder: nat, data: StoredAuth)

  /** `files` by hostname; `keys` is the credential store. */
  datatype Store = Store(files: map<string, Envelope>, keys: map<string, nat>)

  /** `path` stands for the hostname whose digest names the file. */
  datatype AuthFile = AuthFile(data: StoredAuth, path: string, keyId: string)

  datatype AuthError = NoFile | BadVersion | NoKey | NotAuthentic | KeyNotStored | NotWritten

  function Load(s: Store, path: string): Result<AuthFile, AuthError> {
    if path !in s.files then Err(NoFile)
    else
      var e := s.files[path];
      if e.version != AUTH_VERSION then Err(BadVersion)
      else if e.keyId !in s.keys then Err(NoKey)
      else if s.keys[e.keyId] != e.sealedUnder then Err(NotAuthentic)
      else Ok(AuthFile(e.data, path, e.keyId))
  }

  /** Every file opens under a key that is in the credential store, and no two files share a
      key. */
  ghost predicate Paired(s: Store) {
    (forall h :: h in s.files ==>
       var e := s.files[h];
       e.version == AUTH_VERSION && e.keyId in s.keys && s.keys[e.keyId] == e.sealedUnder && e.data.hostname == h)
    && forall g, h :: g in s.files && h in s.files && g != h ==> s.files[g].keyId != s.files[h].keyId
  }

  /** What fails, if anything. `cleaned`: the new key could be deleted again. */
  datatype Failure = Nothing | StoringKey | WritingFile(cleaned: bool)

  /** The data a new authentication keeps from the old one. */
  function Merged(data: StoredAuth, previous: StoredAuth): StoredAuth {
    if previous.signature == data.signature && previous.redisUrl == data.redisUrl
    then data.(lastSession := previous.lastSession) else data
  }

  function Saved(s: Store): map<string, StoredAuth> {
    map h | h in s.files :: s.files[h].data
  }

  /** What is saved once `data` has been authenticated. */
  function Authenticated(saved: map<string, StoredAuth>, data: StoredAuth): map<string, StoredAuth> {
    saved[data.hostname := if data.hostname in saved then Merged(data, saved[data.hostname]) else data]
  }

  class AuthStore {
    var store: Store

    constructor ()
      ensures store == Store(map[], map[]) && Paired(store)
    {
      store := Store(map[], map[]);
    }

    /** `AuthFile::save`: seals again under the file's own key; fails without that key. */
    method Save(auth: AuthFile, failure: Failure) returns (r: Result<(), AuthError>)
      modifies this`store
      ensures r == if auth.keyId !in store.keys then Err(NoKey)
                   else if failure.WritingFile? then Err(NotWritten) else Ok(())
      ensures r.Err? ==> store == old(store)
      ensures r.Ok? ==>
                Load(store, auth.path) == Ok(auth) && Saved(store) == Saved(old(store))[auth.path := auth.data]
      ensures store.keys == old(store).keys
      ensures forall h :: h != auth.path ==> Load(store, h) == Load(old(store), h)
      ensures (Paired(old(store)) && Load(old(store), auth.path).Ok? && auth.data.hostname == auth.path
               && Load(old(store), auth.path).value.keyId == auth.keyId) ==> Paired(store)
    {
      if auth.keyId !in store.keys {
        return Err(NoKey);
      }
      if failure.WritingFile? {
        return Err(NotWritten);
      }
      store := store.(files := store.files[auth.path := Envelope(AUTH_VERSION, auth.keyId, store.keys[auth.keyId], auth.data)]);
      r := Ok(());
    }

    /** `AuthFile::create_for_host`: a known host keeps its key, and its last session exactly when
        signature and URL are unchanged; a file that does not open is an error. A new host gets a
        key before its file, and should lose it again when the file cannot be written. No failure
        changes any file. The random key id is new. */
    method CreateForHost(data: StoredAuth, keyId: string, key: nat, failure: Failure)
      returns (r: Result<AuthFile, AuthError>)
      requires keyId !in store.keys && forall h :: h in store.files ==> store.files[h].keyId != keyId
      modifies this`store
      ensures Paired(old(store)) ==> Paired(store)
      ensures r.Ok? <==> (if data.hostname in old(store).files
                          then Load(old(store), data.hostname).Ok? && !failure.WritingFile?
                          else failure.Nothing?)
      ensures r.Ok? ==>
                Load(store, data.hostname) == r && Saved(store) == Authenticated(Saved(old(store)), data)
                && r.value.keyId == if data.hostname in old(store).files then old(store).files[data.hostname].keyId else keyId
      ensures r.Err? ==> store.files == old(store).files
      ensures r.Err? && store.keys != old(store).keys ==>
                failure == WritingFile(false) && data.hostname !in store.files && store.keys == old(store).keys[keyId := key]
      ensures forall h :: h != data.hostname ==> Load(store, h) == Load(old(store), h)
    {
      if data.hostname in store.files {
        var existing := Load(store, data.hostname);
        if existing.Err? {
          return existing;
        }
        var auth := existing.value.(data := Merged(data, existing.value.data));
        var saved := Save(auth, failure);
        return if saved.Ok? then Ok(auth) else Err(saved.error);
      }
      if failure.StoringKey? {
        return Err(KeyNotStored);
      }
      store := store.(keys := store.keys[keyId := key]);
      if failure.WritingFile? {
        if failure.cleaned {
          store := store.(keys := store.keys - {keyId});
        }
        return Err(NotWritten);
      }
      store := store.(files := store.files[data.hostname := Envelope(AUTH_VERSION, keyId, key, data)]);
      r := Ok(AuthFile(data, data.hostname, keyId));
    }
  }

  // ---------------------------------------------------------------- memory across runs

  /** A host as a client can tell it apart. */
  datatype Origin = Origin(redisUrl: string, hostname: string, signature: string)

  function OriginOf(a: StoredAuth): Origin { Origin(a.redisUrl, a.hostname, a.signature) }

  /** `issued` and `live` are the sessions hosts have returned in Opened and still have mapped. */
  datatype World = World(saved: map<string, StoredAuth>, issued: set<(Origin, string)>, live: set<(Origin, string)>)

  /** One completed command. `Exec` and `Close` carry what the host answered; `saved` is false
      when the client failed to write its file afterwards. */
  datatype Command =
    | AuthRun(hostname: string, redisUrl: string, signature: string, code: string)
    | ExecRun(hostname: string, requested: Option<string>, past: bool, answered: string, written: bool)
    | ExecRefused(hostname: string)
    | CloseRun(hostname: string, requested: Option<string>, written: bool)
    | CloseRefused(hostname: string)
    | HostRestarts(origin: Origin)
    | OthersOpen(origin: Origin, session: string)
    | OthersClose(origin: Origin, session: string)

  /** The session `exec` asks for. */
  function Wanted(a: StoredAuth, requested: Option<string>, past: bool): Option<string> {
    if past then a.lastSession else requested
  }

  /** The session `close` deletes. */
  function Doomed(a: StoredAuth, requested: Option<string>): Option<string> {
    if requested.Some? then requested else a.lastSession
  }

  /** The host opens what is asked if it is live, or a session it never issued before; it
      deletes only live sessions. The client has checked the signature. */
  predicate Possible(w: World, c: Command) {
    match c
    case AuthRun(_, _, _, _) => true
    case HostRestarts(_) => true
    case OthersOpen(o, id) => (o, id) !in w.issued
    case OthersClose(o, id) => (o, id) in w.live
    case ExecRefused(h) => h in w.saved
    case CloseRefused(h) => h in w.saved
    case ExecRun(h, requested, past, answered, _) =>
      h in w.saved
      && (past ==> w.saved[h].lastSession.Some?)
      && (match Wanted(w.saved[h], requested, past)
          case Some(id) => answered == id && (OriginOf(w.saved[h]), id) in w.live
          case None => (OriginOf(w.saved[h]), answered) !in w.issued)
    case CloseRun(h, requested, _) =>
      h in w.saved && Doomed(w.saved[h], requested).Some?
      && (OriginOf(w.saved[h]), Doomed(w.saved[h], requested).value) in w.live
  }

  function Apply(w: World, c: Command): World
    requires Possible(w, c)
  {
    match c
    case AuthRun(h, url, signature, code) =>
      w.(saved := Authenticated(w.saved, StoredAuth(url, h, signature, code, None)))
    case ExecRun(h, _, _, answered, written) =>
      var o := OriginOf(w.saved[h]);
      World(if written then w.saved[h := w.saved[h].(lastSession := Some(answered))] else w.saved,
            w.issued + {(o, answered)}, w.live + {(o, answered)})
    case CloseRun(h, requested, written) =>
      var a := w.saved[h];
      var id := Doomed(a, requested).value;
      w.(live := w.live - {(OriginOf(a), id)},
         saved := if a.lastSession == Some(id) && written then w.saved[h := a.(lastSession := None)] else w.saved)
    case HostRestarts(o) => w.(live := set s | s in w.live && s.0 != o)
    case OthersOpen(o, id) => w.(issued := w.issued + {(o, id)}, live := w.live + {(o, id)})
    case OthersClose(o, id) => w.(live := w.live - {(o, id)})
    case _ => w
  }

  ghost predicate Remembers(w: World) {
    w.live <= w.issued
    && (forall h :: h in w.saved ==> w.saved[h].hostname == h)
    && forall h :: h in w.saved && w.saved[h].lastSession.Some? ==>
         (OriginOf(w.saved[h]), w.saved[h].lastSession.value) in w.issued
  }

  ghost predicate IsHistory(worlds: seq<World>, commands: seq<Command>) {
    |worlds| == |commands| + 1 && worlds[0] == World(map[], {}, {})
    && forall i {:trigger commands[i]} :: 0 <= i < |commands| ==> Possible(worlds[i], commands[i]) && worlds[i + 1] == Apply(worlds[i], commands[i])
  }

  /** Over any history of auth, exec, exec --past and close, refused or not, a remembered session
      is one that the very host the file is bound to returned in Opened. */
  lemma {:induction false} LastSessionWasIssued(worlds: seq<World>, commands: seq<Command>, n: nat)
    requires IsHistory(worlds, commands) && n < |worlds|
    ensures Remembers(worlds[n])
  {
    if n > 0 {
      LastSessionWasIssued(worlds, commands, n - 1);
      CommandKeepsMemory(worlds[n - 1], commands[n - 1]);
    }
  }

  lemma CommandKeepsMemory(w: World, c: Command)
    requires Remembers(w) && Possible(w, c)
    ensures Remembers(Apply(w, c))
  {
  }

  // ---------------------------------------------------------------- which session is meant

  /** An `exec` whose answer was written to the file of `h`. */
  predicate Noted(c: Command, h: string) { c.ExecRun? && c.hostname == h && c.written }

  /** Command `k` is the last such `exec` before command `i`. */
  ghost predicate LastNoted(commands: seq<Command>, k: nat, i: nat, h: string) {
    k < i <= |commands| && Noted(commands[k], h) && forall j :: k < j < i ==> !Noted(commands[j], h)
  }

  /** What a file remembers, if anything, is what the last `exec` written to it was answered. */
  lemma {:induction false} RememberedIsLastAnswer(worlds: seq<World>, commands: seq<Command>, i: nat, h: string) returns (k: nat)
    requires IsHistory(worlds, commands) && i < |worlds|
    requires h in worlds[i].saved && worlds[i].saved[h].lastSession.Some?
    ensures LastNoted(commands, k, i, h) && Some(commands[k].answered) == worlds[i].saved[h].lastSession
  {
    LastSessionWasIssued(worlds, commands, i - 1);
    assert worlds[i] == Apply(worlds[i - 1], commands[i - 1]);
    if Noted(commands[i - 1], h) {
      k := i - 1;
    } else {
      k := RememberedIsLastAnswer(worlds, commands, i - 1, h);
    }
  }

  /** The session that a `close` or an `exec --past` means: the one it names, or else the one the
      last written `exec` on its file was answered with. */
  ghost predicate Means(commands: seq<Command>, i: nat, h: string, named: Option<string>, id: string) {
    match named
    case Some(name) => id == name
    case None => exists k: nat :: LastNoted(commands, k, i, h) && commands[k].answered == id
  }

  /** Every `close` that succeeds means exactly one session. */
  lemma CloseMeansOne(worlds: seq<World>, commands: seq<Command>, i: nat) returns (id: string)
    requires IsHistory(worlds, commands) && i < |commands| && commands[i].CloseRun?
    ensures Means(commands, i, commands[i].hostname, commands[i].requested, id)
    ensures forall other :: Means(commands, i, commands[i].hostname, commands[i].requested, other) ==> other == id
  {
    var c := commands[i];
    if c.requested.Some? {
      id := c.requested.value;
    } else {
      var k := RememberedIsLastAnswer(worlds, commands, i, c.hostname);
      id := commands[k].answered;
    }
  }

  /** A successful `exec` is answered with the session it asks for: with `--past` the one the last
      written `exec` on its file was answered with, else the one it names, else one never issued
      before. Afterwards the host has it. */
  lemma ExecOpensWhatWasAsked(worlds: seq<World>, commands: seq<Command>, i: nat)
    requires IsHistory(worlds, commands) && i < |commands| && commands[i].ExecRun?
    ensures var c := commands[i];
            var o := OriginOf(worlds[i].saved[c.hostname]);
            (c.past ==> Means(commands, i, c.hostname, None, c.answered))
            && (!c.past && c.requested.Some? ==> c.answered == c.requested.value)
            && (!c.past && c.requested.None? ==> (o, c.answered) !in worlds[i].issued)
            && worlds[i + 1].live == worlds[i].live + {(o, c.answered)}
  {
    var c := commands[i];
    assert worlds[i + 1] == Apply(worlds[i], c);
    if c.past {
      var k := RememberedIsLastAnswer(worlds, commands, i, c.hostname);
    }
  }

  // ---------------------------------------------------------------- closing

  /** Closed for good: the host does not map it and no file remembers it. */
  ghost predicate Forgotten(w: World, o: Origin, id: string) {
    (o, id) in w.issued && (o, id) !in w.live
    && forall h :: h in w.saved && OriginOf(w.saved[h]) == o ==> w.saved[h].lastSession != Some(id)
  }

  /** A successful close takes the session it means, and no other, from the host. It leaves it, for
      ever after, neither in the host's map nor in a file bound to that host; unless it was the
      remembered one and the file could not be written. */
  lemma CloseForgets(worlds: seq<World>, commands: seq<Command>, i: nat, n: nat, id: string)
    requires IsHistory(worlds, commands) && i < n < |worlds| && commands[i].CloseRun?
    requires Means(commands, i, commands[i].hostname, commands[i].requested, id)
    ensures var h := commands[i].hostname;
            var a := worlds[i].saved[h];
            (OriginOf(a), id) in worlds[i].live && worlds[i + 1].live == worlds[i].live - {(OriginOf(a), id)}
            && (OriginOf(a), id) !in worlds[n].live
            && (forall g :: g in worlds[i].saved && g != h ==> g in worlds[i + 1].saved && worlds[i + 1].saved[g] == worlds[i].saved[g])
            && (worlds[i + 1].saved[h].lastSession == Some(id) <==> a.lastSession == Some(id) && !commands[i].written)
            && (a.lastSession != Some(id) || commands[i].written ==> Forgotten(worlds[n], OriginOf(a), id))
  {
    var h := commands[i].hostname;
    var a := worlds[i].saved[h];
    if commands[i].requested.None? {
      var k := RememberedIsLastAnswer(worlds, commands, i, h);
    }
    LastSessionWasIssued(worlds, commands, i);
    assert worlds[i + 1] == Apply(worlds[i], commands[i]);
    StaysClosed(worlds, commands, i + 1, n, OriginOf(a), id);
  }

  lemma {:induction false} StaysClosed(worlds: seq<World>, commands: seq<Command>, i: nat, n: nat, o: Origin, id: string)
    requires IsHistory(worlds, commands) && i <= n < |worlds|
    requires (o, id) in worlds[i].issued && (o, id) !in worlds[i].live
    ensures (o, id) in worlds[n].issued && (o, id) !in worlds[n].live
    ensures Forgotten(worlds[i], o, id) ==> Forgotten(worlds[n], o, id)
    decreases n - i
  {
    if i < n {
      StaysClosed(worlds, commands, i, n - 1, o, id);
      LastSessionWasIssued(worlds, commands, n - 1);
      assert worlds[n] == Apply(worlds[n - 1], commands[n - 1]);
    }
  }

  /** No `exec` or `close` writes the file of `h`. */
  predicate LeavesMemory(c: Command, h: string) {
    !((c.ExecRun? || c.CloseRun?) && c.hostname == h && c.written)
  }

  /** An authentication of `h`, if it is one, meets the same host under the same URL. */
  predicate SameHost(a: StoredAuth, c: Command, h: string) {
    c.AuthRun? && c.hostname == h ==> c.redisUrl == a.redisUrl && c.signature == a.signature
  }

  ghost predicate AllSameHost(a: StoredAuth, commands: seq<Command>, i: nat, n: nat, h: string) {
    forall k :: i <= k < n && k < |commands| ==> SameHost(a, commands[k], h)
  }

  lemma MemoryStep(w: World, c: Command, h: string, a: StoredAuth, kept: bool)
    requires Possible(w, c) && LeavesMemory(c, h) && h in w.saved && (forall g :: g in w.saved ==> w.saved[g].hostname == g)
    requires if kept then w.saved[h].lastSession == a.lastSession && OriginOf(w.saved[h]) == OriginOf(a)
             else w.saved[h].lastSession.None?
    ensures var after := Apply(w, c).saved;
            h in after
            && if kept && SameHost(a, c, h) then after[h].lastSession == a.lastSession && OriginOf(after[h]) == OriginOf(a)
               else after[h].lastSession.None?
  {
  }

  /** Over any history in which no `exec` or `close` writes its file, a host's remembered session
      survives if and only if every authentication meets the same signature under the same URL;
      after the first that does not, it is gone. */
  lemma {:induction false} ReauthKeepsSession(worlds: seq<World>, commands: seq<Command>, i: nat, n: nat, h: string)
    requires IsHistory(worlds, commands) && i <= n < |worlds|
    requires h in worlds[i].saved && worlds[i].saved[h].lastSession.Some?
    requires forall k :: i <= k < n ==> LeavesMemory(commands[k], h)
    ensures var a := worlds[i].saved[h];
            h in worlds[n].saved
            && (worlds[n].saved[h].lastSession == a.lastSession <==> AllSameHost(a, commands, i, n, h))
            && (AllSameHost(a, commands, i, n, h) ==> OriginOf(worlds[n].saved[h]) == OriginOf(a))
            && (!AllSameHost(a, commands, i, n, h) ==> worlds[n].saved[h].lastSession.None?)
    decreases n
  {
    if i < n {
      var a := worlds[i].saved[h];
      ReauthKeepsSession(worlds, commands, i, n - 1, h);
      LastSessionWasIssued(worlds, commands, n - 1);
      MemoryStep(worlds[n - 1], commands[n - 1], h, a, AllSameHost(a, commands, i, n - 1, h));
      assert AllSameHost(a, commands, i, n, h) <==> AllSameHost(a, commands, i, n - 1, h) && SameHost(a, commands[n - 1], h);
    }
  }

  /** Code, signature and URL are always the ones last authenticated. */
  lemma ReauthTakesRest(w: World, h: string, url: string, signature: string, code: string)
    ensures var after := Apply(w, AuthRun(h, url, signature, code)).saved[h];
            after.code == code && after.signature == signature && after.redisUrl == url
  {
  }
}
