/** The registry of named Redis servers (src/redis_store.rs): a secret, a marker and a default,
    written in that order. File names are injective digests of server names, so secrets and
    markers are indexed by the names themselves. */
module Registry {
  import opened Wrappers

  const STORE_VERSION: nat := 1
  const LOCALHOST: string := "redis://127.0.0.1/"

  datatype Marker = Marker(version: nat, name: string)

  datatype Store = Store(secrets: map<string, string>, markers: map<string, Marker>, default: Option<Marker>)

  const EMPTY: Store := Store(map[], map[], None)

  datatype RegistryError = BadName | BadUrl | Unknown | BadMarker | NoSecret | Ambiguous | WriteFailed

  type Lookup = Result<string, RegistryError>

  /** What `redis::Client::open` accepts is left open. */
  type UrlCheck = string -> bool

  predicate NameByte(c: char) {
    'a' <= c <= 'z' || 'A' <= c <= 'Z' || '0' <= c <= '9' || c == '-' || c == '_'
  }

  predicate ValidName(name: string) {
    0 < |name| <= 63 && forall c :: c in name ==> NameByte(c)
  }

  predicate SchemeAt(s: string, i: nat) { i + 3 <= |s| && s[i..i + 3] == "://" }

  predicate HasScheme(s: string) { exists i :: 0 <= i < |s| && SchemeAt(s, i) }

  /** A name can never be taken for a URL. */
  lemma NamesAreNotUrls(name: string)
    requires ValidName(name)
    ensures !HasScheme(name)
  {
    forall i | 0 <= i < |name|
      ensures !SchemeAt(name, i)
    {
      assert name[i] in name;
      if i + 3 <= |name| {
        assert name[i..i + 3][0] == name[i];
      }
    }
  }

  // ---------------------------------------------------------------- resolving

  function ReadMarker(m: Option<Marker>): Result<Marker, RegistryError> {
    match m
    case None => Err(Unknown)
    case Some(marker) => if marker.version == STORE_VERSION then Ok(marker) else Err(BadMarker)
  }

  function MarkerOf(s: Store, name: string): Option<Marker> {
    if name in s.markers then Some(s.markers[name]) else None
  }

  function Resolve(s: Store, reference: string, accepts: UrlCheck): Lookup {
    if HasScheme(reference) then (if accepts(reference) then Ok(reference) else Err(BadUrl))
    else if !ValidName(reference) then Err(BadName)
    else match ReadMarker(MarkerOf(s, reference))
      case Err(e) => Err(e)
      case Ok(marker) =>
        if marker.name != reference then Err(BadMarker)
        else if reference !in s.secrets then Err(NoSecret)
        else if accepts(s.secrets[reference]) then Ok(s.secrets[reference]) else Err(BadUrl)
  }

  // ---------------------------------------------------------------- adding

  /** An `add` that reached `reach` of its three writes: secret, marker, default. */
  datatype Attempt = Attempt(name: string, url: string, reach: nat)

  function Added(s: Store, a: Attempt): Store {
    var marker := Marker(STORE_VERSION, a.name);
    var s1 := if a.reach >= 1 then s.(secrets := s.secrets[a.name := a.url]) else s;
    var s2 := if a.reach >= 2 then s1.(markers := s1.markers[a.name := marker]) else s1;
    if a.reach >= 3 then s2.(default := Some(marker)) else s2
  }

  function AfterAll(attempts: seq<Attempt>): Store {
    if attempts == [] then EMPTY else Added(AfterAll(attempts[..|attempts| - 1]), attempts[|attempts| - 1])
  }

  // ---------------------------------------------------------------- the abstract registry

  /** The URL last stored for a name. */
  function LastUrl(attempts: seq<Attempt>, name: string): Option<string> {
    if attempts == [] then None
    else
      var a := attempts[|attempts| - 1];
      if a.name == name && a.reach >= 1 then Some(a.url) else LastUrl(attempts[..|attempts| - 1], name)
  }

  predicate Registered(attempts: seq<Attempt>, name: string) {
    exists a :: a in attempts && a.name == name && a.reach >= 2
  }

  function LastCompleted(attempts: seq<Attempt>): Option<string> {
    if attempts == [] then None
    else
      var a := attempts[|attempts| - 1];
      if a.reach >= 3 then Some(a.name) else LastCompleted(attempts[..|attempts| - 1])
  }

  ghost predicate Proper(attempts: seq<Attempt>, accepts: UrlCheck) {
    forall a :: a in attempts ==> ValidName(a.name) && accepts(a.url)
  }

  lemma RegisteredStep(before: seq<Attempt>, a: Attempt, name: string)
    ensures Registered(before + [a], name) <==> Registered(before, name) || (a.name == name && a.reach >= 2)
  {
    var attempts := before + [a];
    assert forall b :: b in attempts <==> b in before || b == a;
    if Registered(before, name) {
      var b :| b in before && b.name == name && b.reach >= 2;
      assert b in attempts;
    }
    if a.name == name && a.reach >= 2 {
      assert a in attempts;
    }
  }

  lemma {:induction false} StoreHolds(attempts: seq<Attempt>, accepts: UrlCheck, name: string)
    requires Proper(attempts, accepts)
    ensures var s := AfterAll(attempts);
            (name in s.secrets <==> LastUrl(attempts, name).Some?)
            && (name in s.secrets ==> s.secrets[name] == LastUrl(attempts, name).value && accepts(s.secrets[name]))
            && (name in s.markers <==> Registered(attempts, name))
            && (name in s.markers ==> s.markers[name] == Marker(STORE_VERSION, name) && name in s.secrets)
            && (s.default.Some? <==> LastCompleted(attempts).Some?)
            && (s.default.Some? ==> s.default.value == Marker(STORE_VERSION, LastCompleted(attempts).value))
  {
    if attempts != [] {
      var before, a := attempts[..|attempts| - 1], attempts[|attempts| - 1];
      assert a in attempts && forall b :: b in before ==> b in attempts;
      StoreHolds(before, accepts, name);
      RegisteredStep(before, a, name);
      assert attempts == before + [a];
    }
  }

  /** Somewhere in the text stands `://`. */
  ghost predicate HoldsScheme(s: string) { exists before: string, after: string :: s == before + ("://" + after) }

  lemma SchemesAgree(s: string)
    ensures HasScheme(s) <==> HoldsScheme(s)
  {
    if HasScheme(s) {
      var i :| 0 <= i < |s| && SchemeAt(s, i);
      assert s == s[..i] + ("://" + s[i + 3..]);
    }
    if HoldsScheme(s) {
      var before, after :| s == before + ("://" + after);
      assert SchemeAt(s, |before|);
    }
  }

  /** Through any sequence of adds, completed or cut short after any of their writes, a name
      resolves to the URL last stored for it if its marker was ever written, and is unknown
      otherwise; a URL resolves to itself, if it is one; and nothing else resolves. */
  lemma RegistryIsMap(attempts: seq<Attempt>, accepts: UrlCheck, reference: string)
    requires Proper(attempts, accepts)
    ensures ValidName(reference) && Registered(attempts, reference) ==> LastUrl(attempts, reference).Some?
    ensures Resolve(AfterAll(attempts), reference, accepts)
            == (if ValidName(reference) && Registered(attempts, reference) then Ok(LastUrl(attempts, reference).value)
                else if ValidName(reference) then Err(Unknown)
                else if HoldsScheme(reference) && accepts(reference) then Ok(reference)
                else if HoldsScheme(reference) then Err(BadUrl)
                else Err(BadName))
  {
    SchemesAgree(reference);
    if ValidName(reference) {
      StoreHolds(attempts, accepts, reference);
      NamesAreNotUrls(reference);
    }
  }

  lemma {:induction false} LastCompletedRegistered(attempts: seq<Attempt>, accepts: UrlCheck)
    requires Proper(attempts, accepts) && LastCompleted(attempts).Some?
    ensures var name := LastCompleted(attempts).value; ValidName(name) && Registered(attempts, name)
  {
    var before, a := attempts[..|attempts| - 1], attempts[|attempts| - 1];
    assert a in attempts;
    if a.reach < 3 {
      assert forall b :: b in before ==> b in attempts;
      LastCompletedRegistered(before, accepts);
      var b :| b in before && b.name == LastCompleted(before).value && b.reach >= 2;
      assert b in attempts;
    }
  }

  // ---------------------------------------------------------------- resolve_or_default

  /** The names found by listing the directory; a marker that cannot be read ends the search. */
  function Names(s: Store, listing: seq<string>): Result<seq<string>, RegistryError> {
    if listing == [] then Ok([])
    else match Names(s, listing[..|listing| - 1])
      case Err(e) => Err(e)
      case Ok(names) =>
        match ReadMarker(MarkerOf(s, listing[|listing| - 1]))
        case Err(e) => Err(e)
        case Ok(marker) => Ok(names + [marker.name])
  }

  function ResolveDefault(s: Store, listing: seq<string>, accepts: UrlCheck): Lookup {
    if s.default.Some? then
      match ReadMarker(s.default)
      case Err(e) => Err(e)
      case Ok(marker) => Resolve(s, marker.name, accepts)
    else
      match Names(s, listing)
      case Err(e) => Err(e)
      case Ok(names) =>
        if names == [] then Ok(LOCALHOST)
        else if |names| == 1 then Resolve(s, names[0], accepts)
        else Err(Ambiguous)
  }

  /** A listing shows every marker file once. */
  ghost predicate Lists(s: Store, listing: seq<string>) {
    (forall name :: name in listing <==> name in s.markers)
    && forall i, j :: 0 <= i < j < |listing| ==> listing[i] != listing[j]
  }

  lemma {:induction false} NamesAreListing(s: Store, listing: seq<string>)
    requires forall name :: name in listing ==> name in s.markers && s.markers[name] == Marker(STORE_VERSION, name)
    ensures Names(s, listing) == Ok(listing)
  {
    if listing != [] {
      var before, last := listing[..|listing| - 1], listing[|listing| - 1];
      NamesAreListing(s, before);
      assert last in listing;
      assert listing == before + [last];
    }
  }

  /** Without a reference the last completed add decides; while no add has completed, a single
      registered name does, none means the local server, and several are an error. */
  lemma DefaultIsLastCompleted(attempts: seq<Attempt>, accepts: UrlCheck, listing: seq<string>)
    requires Proper(attempts, accepts) && Lists(AfterAll(attempts), listing)
    ensures forall name :: name in listing <==> Registered(attempts, name)
    ensures forall name :: name in listing ==> LastUrl(attempts, name).Some?
    ensures LastCompleted(attempts).Some? ==> LastCompleted(attempts).value in listing
    ensures ResolveDefault(AfterAll(attempts), listing, accepts)
            == match LastCompleted(attempts)
               case Some(name) => Ok(LastUrl(attempts, name).value)
               case None =>
                 if listing == [] then Ok(LOCALHOST)
                 else if |listing| == 1 then Ok(LastUrl(attempts, listing[0]).value)
                 else Err(Ambiguous)
  {
    var s := AfterAll(attempts);
    forall name ensures name in listing <==> Registered(attempts, name) {
      StoreHolds(attempts, accepts, name);
    }
    forall name | name in listing
      ensures name in s.markers && s.markers[name] == Marker(STORE_VERSION, name) && LastUrl(attempts, name).Some?
    {
      StoreHolds(attempts, accepts, name);
    }
    NamesAreListing(s, listing);
    match LastCompleted(attempts)
    case Some(name) =>
      StoreHolds(attempts, accepts, name);
      LastCompletedRegistered(attempts, accepts);
      RegistryIsMap(attempts, accepts, name);
    case None =>
      StoreHolds(attempts, accepts, "");
      if |listing| == 1 {
        assert listing[0] in listing;
        RegisteredIsValid(attempts, accepts, listing[0]);
        RegistryIsMap(attempts, accepts, listing[0]);
      }
  }

  lemma RegisteredIsValid(attempts: seq<Attempt>, accepts: UrlCheck, name: string)
    requires Proper(attempts, accepts) && Registered(attempts, name)
    ensures ValidName(name)
  {
  }

  // ---------------------------------------------------------------- concurrent adds

  /** One write of one of several adds in progress. */
  datatype Write = Write(name: string, url: string, which: nat)

  function Wrote(s: Store, w: Write): Store {
    if w.which == 1 then s.(secrets := s.secrets[w.name := w.url])
    else if w.which == 2 then s.(markers := s.markers[w.name := Marker(STORE_VERSION, w.name)])
    else s.(default := Some(Marker(STORE_VERSION, w.name)))
  }

  function WroteAll(writes: seq<Write>): Store {
    if writes == [] then EMPTY else Wrote(WroteAll(writes[..|writes| - 1]), writes[|writes| - 1])
  }

  /** Each add makes its writes in order: before the second comes the first, before the third
      the second. Which adds interleave, and which stop early, is arbitrary. */
  ghost predicate InOrder(writes: seq<Write>) {
    forall k :: 0 <= k < |writes| && writes[k].which != 1 ==>
      exists j :: 0 <= j < k && writes[j].name == writes[k].name
                  && writes[j].which == if writes[k].which == 2 then 1 else 2
  }

  ghost predicate Grounded(s: Store) {
    (forall name :: name in s.markers ==> name in s.secrets && s.markers[name] == Marker(STORE_VERSION, name))
    && (s.default.Some? ==> s.default.value.name in s.markers)
  }

  lemma StartsInOrder(writes: seq<Write>, n: nat)
    requires InOrder(writes) && n <= |writes|
    ensures InOrder(writes[..n])
  {
    var before := writes[..n];
    forall k | 0 <= k < n && before[k].which != 1
      ensures exists j :: 0 <= j < k && before[j].name == before[k].name
                          && before[j].which == if before[k].which == 2 then 1 else 2
    {
      assert before[k] == writes[k];
      var j :| 0 <= j < k && writes[j].name == writes[k].name && writes[j].which == if writes[k].which == 2 then 1 else 2;
      assert before[j] == writes[j];
    }
  }

  /** A first write has left its secret, a second one its marker. */
  predicate Left(s: Store, w: Write) {
    (w.which == 1 ==> w.name in s.secrets) && (w.which == 2 ==> w.name in s.markers)
  }

  lemma WriteKeepsGrounded(s: Store, w: Write)
    requires Grounded(s) && (w.which == 2 ==> w.name in s.secrets) && (w.which != 1 && w.which != 2 ==> w.name in s.markers)
    ensures Grounded(Wrote(s, w)) && Left(Wrote(s, w), w)
    ensures forall v :: Left(s, v) ==> Left(Wrote(s, w), v)
  {
  }

  /** Between any two writes of any interleaved adds, every marker has its secret and the
      default has its marker. */
  lemma {:induction false} AlwaysGrounded(writes: seq<Write>)
    requires InOrder(writes)
    ensures Grounded(WroteAll(writes))
    ensures forall w :: w in writes ==> Left(WroteAll(writes), w)
  {
    if writes != [] {
      var n := |writes| - 1;
      var before, last := writes[..n], writes[n];
      StartsInOrder(writes, n);
      AlwaysGrounded(before);
      if last.which != 1 {
        var j :| 0 <= j < n && writes[j].name == last.name && writes[j].which == if last.which == 2 then 1 else 2;
        assert before[j] in before && Left(WroteAll(before), before[j]);
      }
      WriteKeepsGrounded(WroteAll(before), last);
      assert writes == before + [last];
    }
  }

  // ---------------------------------------------------------------- the object

  class RedisStore {
    var store: Store
    const accepts: UrlCheck

    constructor (accepts: UrlCheck)
      ensures store == EMPTY && this.accepts == accepts
    {
      store, this.accepts := EMPTY, accepts;
    }

    /** `add`; `reach` says how many of its writes succeed. */
    method Add(name: string, url: string, reach: nat) returns (r: Result<(), RegistryError>)
      modifies this`store
      ensures !ValidName(name) ==> r == Err(BadName) && store == old(store)
      ensures ValidName(name) && !accepts(url) ==> r == Err(BadUrl) && store == old(store)
      ensures ValidName(name) && accepts(url) ==>
                store == Added(old(store), Attempt(name, url, reach))
                && r == if reach >= 3 then Ok(()) else Err(WriteFailed)
    {
      if !ValidName(name) {
        return Err(BadName);
      }
      if !accepts(url) {
        return Err(BadUrl);
      }
      if reach < 1 {
        return Err(WriteFailed);
      }
      store := store.(secrets := store.secrets[name := url]);
      var marker := Marker(STORE_VERSION, name);
      if reach < 2 {
        return Err(WriteFailed);
      }
      store := store.(markers := store.markers[name := marker]);
      if reach < 3 {
        return Err(WriteFailed);
      }
      store := store.(default := Some(marker));
      r := Ok(());
    }

    /** `resolve_or_default`, reading the directory when there is no default. */
    method ResolveOrDefault(reference: Option<string>, listing: seq<string>) returns (r: Lookup)
      ensures r == match reference
                   case Some(ref) => Resolve(store, ref, accepts)
                   case None => ResolveDefault(store, listing, accepts)
    {
      if reference.Some? {
        return Resolve(store, reference.value, accepts);
      }
      if store.default.Some? {
        var marker := ReadMarker(store.default);
        if marker.Err? {
          return Err(marker.error);
        }
        return Resolve(store, marker.value.name, accepts);
      }
      var names: seq<string> := [];
      for i := 0 to |listing|
        invariant Names(store, listing[..i]) == Ok(names)
      {
        assert listing[..i + 1][..i] == listing[..i];
        var marker := ReadMarker(MarkerOf(store, listing[i]));
        if marker.Err? {
          NamesFail(store, listing, i + 1);
          return Err(marker.error);
        }
        names := names + [marker.value.name];
      }
      assert listing[..|listing|] == listing;
      if names == [] {
        return Ok(LOCALHOST);
      }
      if |names| == 1 {
        return Resolve(store, names[0], accepts);
      }
      r := Err(Ambiguous);
    }
  }

  /** An unreadable marker decides the whole listing. */
  lemma {:induction false} NamesFail(s: Store, listing: seq<string>, i: nat)
    requires i <= |listing| && Names(s, listing[..i]).Err?
    ensures Names(s, listing) == Names(s, listing[..i])
    decreases |listing|
  {
    if i < |listing| {
      var shorter := listing[..|listing| - 1];
      assert shorter[..i] == listing[..i];
      NamesFail(s, shorter, i);
    } else {
      assert listing[..i] == listing;
    }
  }
}
