/** Redis key naming (src/redis_transport.rs): which keys of which hosts can coincide. */
module Keys {
  import opened Sequences

  // ---------------------------------------------------------------- the naming functions

  function HostKey(hostname: string): string { "shex:v2:host:" + hostname }

  function WakeKey(hostname: string): string { "shex:v2:" + hostname + ":wake" }

  function ClientMessageKey(hostname: string, id: string): string {
    "shex:v2:" + hostname + ":message:c2h:" + id
  }

  function HostMessageKey(hostname: string, id: string): string {
    "shex:v2:" + hostname + ":message:h2c:" + id
  }

  function ReadyKey(messageKey: string): string { messageKey + ":ready" }

  function SessionKey(hostname: string, hash: string): string {
    "shex:v2:" + hostname + ":session:" + hash
  }

  predicate HostnameByte(c: char) {
    'a' <= c <= 'z' || '0' <= c <= '9' || c == '-' || c == ':'
  }

  /** `validate_hostname`. */
  predicate ValidHostname(hostname: string) {
    0 < |hostname| <= 63 && forall c :: c in hostname ==> HostnameByte(c)
  }

  const LEFT: seq<string> := ["quiet", "swift", "bright", "calm", "wild", "small", "blue", "green"]
  const RIGHT: seq<string> := ["otter", "falcon", "cedar", "river", "lynx", "cloud", "fox", "panda"]

  function DigitChar(d: nat): char
    requires d < 10
  {
    ['0', '1', '2', '3', '4', '5', '6', '7', '8', '9'][d]
  }

  /** `{:04}` of a number below ten thousand. */
  function FourDigits(n: nat): string
    requires n < 10_000
  {
    [DigitChar(n / 1000), DigitChar(n / 100 % 10), DigitChar(n / 10 % 10), DigitChar(n % 10)]
  }

  /** `random_hostname`, as a function of its four random bytes. */
  function RandomHostname(b0: nat, b1: nat, b2: nat, b3: nat): string {
    LEFT[b0 % 8] + "-" + RIGHT[b1 % 8] + ":" + FourDigits((256 * b2 + b3) % 10_000)
  }

  /** The shape of every generated hostname: `word-word:dddd`. */
  predicate Shaped(hostname: string) {
    exists k :: 0 < k < |hostname| && ShapedAt(hostname, k)
  }

  predicate ShapedAt(hostname: string, k: nat)
    requires k < |hostname|
  {
    hostname[k] == ':' && ':' !in hostname[..k] && ':' !in hostname[k + 1..] && '-' in hostname[..k]
  }

  predicate Word(s: string) {
    0 < |s| <= 6 && forall c :: c in s ==> 'a' <= c <= 'z'
  }

  lemma WordLists(i: nat)
    requires i < 8
    ensures |LEFT| == 8 && |RIGHT| == 8 && Word(LEFT[i]) && Word(RIGHT[i])
  {
    assert |LEFT[i]| <= 6 && |RIGHT[i]| <= 6;
  }

  lemma GeneratedHostnames(b0: nat, b1: nat, b2: nat, b3: nat)
    ensures var hostname := RandomHostname(b0, b1, b2, b3);
            ValidHostname(hostname) && Shaped(hostname)
  {
    WordLists(b0 % 8);
    WordLists(b1 % 8);
    GeneratedShape(LEFT[b0 % 8], RIGHT[b1 % 8], FourDigits((256 * b2 + b3) % 10_000));
  }

  lemma GeneratedShape(l: string, r: string, d: string)
    requires Word(l) && Word(r) && |d| == 4 && forall c :: c in d ==> '0' <= c <= '9'
    ensures ValidHostname(l + "-" + r + ":" + d) && Shaped(l + "-" + r + ":" + d)
  {
    var name := l + "-" + r + ":" + d;
    var k := |l| + 1 + |r|;
    assert name[..k] == l + "-" + r;
    assert name[k + 1..] == d;
    assert name[..k][|l|] == '-';
    assert ShapedAt(name, k);
  }

  // ---------------------------------------------------------------- fields between colons

  function Fields(s: string): (fields: seq<string>)
    ensures |fields| > 0
  {
    if s == "" then [""]
    else
      var rest := Fields(s[1..]);
      if s[0] == ':' then [""] + rest else [[s[0]] + rest[0]] + rest[1..]
  }

  function Join(fields: seq<string>): string
    requires |fields| > 0
  {
    if |fields| == 1 then fields[0] else fields[0] + ":" + Join(fields[1..])
  }

  predicate ColonFree(s: string) { ':' !in s }

  lemma {:induction false} JoinFields(s: string)
    ensures Join(Fields(s)) == s
  {
    if s != "" {
      JoinFields(s[1..]);
      var rest := Fields(s[1..]);
      var fields := Fields(s);
      if s[0] == ':' {
        assert fields[1..] == rest;
      } else if |rest| > 1 {
        assert fields[1..] == rest[1..];
      }
    }
  }

  /** The fields of a key determine the key. */
  lemma FieldsInjective(s: string, t: string)
    requires Fields(s) == Fields(t)
    ensures s == t
  {
    JoinFields(s);
    JoinFields(t);
  }

  lemma HeadField(c: char, xs: seq<string>, ys: seq<string>)
    requires |xs| > 0
    ensures [[c] + (xs + ys)[0]] + (xs + ys)[1..] == ([[c] + xs[0]] + xs[1..]) + ys
  {
  }

  lemma {:induction false} FieldsOfPair(a: string, b: string)
    ensures Fields(a + ":" + b) == Fields(a) + Fields(b)
  {
    var s := a + ":" + b;
    if a == "" {
      assert s[0] == ':' && s[1..] == b;
    } else {
      FieldsOfPair(a[1..], b);
      assert s[0] == a[0] && s[1..] == a[1..] + ":" + b;
      var xs, ys := Fields(a[1..]), Fields(b);
      if a[0] == ':' {
        Associates([""], xs, ys);
      } else {
        HeadField(a[0], xs, ys);
      }
    }
  }

  lemma {:induction false} ColonFreeField(s: string)
    requires ColonFree(s)
    ensures Fields(s) == [s]
  {
    if s != "" {
      ColonFreeField(s[1..]);
      assert [s[0]] + s[1..] == s;
    }
  }

  lemma {:induction false} JoinAppend(xs: seq<string>, ys: seq<string>)
    requires |xs| > 0 && |ys| > 0
    ensures Join(xs + ys) == Join(xs) + ":" + Join(ys)
  {
    if |xs| == 1 {
      assert (xs + ys)[1..] == ys;
    } else {
      JoinAppend(xs[1..], ys);
      assert (xs + ys)[1..] == xs[1..] + ys;
      var a, b := Join(xs[1..]), Join(ys);
      assert xs[0] + ":" + (a + ":" + b) == (xs[0] + ":" + a) + ":" + b;
    }
  }

  lemma PrefixFields()
    ensures Fields("shex:v2") == ["shex", "v2"]
  {
    assert "shex" + ":" + "v2" == "shex:v2";
    FieldsOfPair("shex", "v2");
    ColonFreeField("shex");
    ColonFreeField("v2");
  }

  lemma FieldsOfPrefix(rest: string)
    ensures Fields("shex:v2:" + rest) == ["shex", "v2"] + Fields(rest)
  {
    PrefixFields();
    FieldsOfPair("shex:v2", rest);
    assert "shex:v2" + ":" == "shex:v2:";
  }

  lemma HostKeyFields(h: string)
    ensures Fields(HostKey(h)) == ["shex", "v2", "host"] + Fields(h)
  {
    assert HostKey(h) == "shex:v2:" + ("host" + ":" + h);
    FieldsOfPrefix("host" + ":" + h);
    FieldsOfPair("host", h);
    ColonFreeField("host");
  }

  lemma WakeKeyFields(h: string)
    ensures Fields(WakeKey(h)) == ["shex", "v2"] + Fields(h) + ["wake"]
  {
    assert WakeKey(h) == "shex:v2:" + (h + ":" + "wake");
    FieldsOfPrefix(h + ":" + "wake");
    FieldsOfPair(h, "wake");
    ColonFreeField("wake");
  }

  lemma SessionKeyFields(h: string, hash: string)
    requires ColonFree(hash)
    ensures Fields(SessionKey(h, hash)) == ["shex", "v2"] + Fields(h) + ["session", hash]
  {
    var tail := "session" + ":" + hash;
    SessionTail(h, hash);
    FieldsOfPrefix(h + ":" + tail);
    FieldsOfPair(h, tail);
    FieldsOfPair("session", hash);
    ColonFreeField("session");
    ColonFreeField(hash);
  }

  lemma SessionTail(h: string, hash: string)
    ensures SessionKey(h, hash) == "shex:v2:" + (h + ":" + ("session" + ":" + hash))
  {
    var tail := "session" + ":" + hash;
    assert ":" + tail == ":session:" + hash;
    Associates("shex:v2:" + h, ":session:", hash);
    Associates("shex:v2:", h, ":" + tail);
    Associates(h, ":", tail);
  }

  datatype Direction = ToHost | ToClient {
    function Tag(): string { if ToHost? then "c2h" else "h2c" }
  }

  function MessageKey(h: string, dir: Direction, id: string): string {
    if dir.ToHost? then ClientMessageKey(h, id) else HostMessageKey(h, id)
  }

  lemma MessageKeyFields(h: string, dir: Direction, id: string)
    requires ColonFree(id)
    ensures Fields(MessageKey(h, dir, id)) == ["shex", "v2"] + (Fields(h) + ["message", dir.Tag(), id])
  {
    var tail := dir.Tag() + ":" + id;
    var body := "message" + ":" + tail;
    MessageTail(dir, id);
    var mid := if dir.ToHost? then ":message:c2h:" else ":message:h2c:";
    Associates("shex:v2:" + h, mid, id);
    Associates("shex:v2:", h, ":" + body);
    Associates(h, ":", body);
    FieldsOfPrefix(h + ":" + body);
    FieldsOfPair(h, body);
    MessageTailFields(dir, id);
  }

  lemma MessageTail(dir: Direction, id: string)
    ensures (if dir.ToHost? then ":message:c2h:" else ":message:h2c:") + id
            == ":" + ("message" + ":" + (dir.Tag() + ":" + id))
  {
  }

  lemma MessageTailFields(dir: Direction, id: string)
    requires ColonFree(id)
    ensures Fields("message" + ":" + (dir.Tag() + ":" + id)) == ["message", dir.Tag(), id]
  {
    FieldsOfPair("message", dir.Tag() + ":" + id);
    FieldsOfPair(dir.Tag(), id);
    ColonFreeField("message");
    ColonFreeField(dir.Tag());
    ColonFreeField(id);
  }

  // ---------------------------------------------------------------- one namespace

  /** Every key the program uses, by what it is for. */
  datatype KeyName =
    | Host(host: string)
    | Wake(host: string)
    | Message(host: string, dir: Direction, id: string)
    | Ready(host: string, dir: Direction, id: string)
    | Session(host: string, hash: string)

  function Render(k: KeyName): string {
    match k
    case Host(h) => HostKey(h)
    case Wake(h) => WakeKey(h)
    case Message(h, dir, id) => MessageKey(h, dir, id)
    case Ready(h, dir, id) => ReadyKey(MessageKey(h, dir, id))
    case Session(h, hash) => SessionKey(h, hash)
  }

  predicate Tame(k: KeyName) {
    Shaped(k.host)
    && (k.Message? || k.Ready? ==> ColonFree(k.id))
    && (k.Session? ==> ColonFree(k.hash))
  }

  lemma ShapedFields(h: string) returns (name: string, digits: string)
    requires Shaped(h)
    ensures Fields(h) == [name, digits] && '-' in name
  {
    var k :| 0 < k < |h| && ShapedAt(h, k);
    name, digits := h[..k], h[k + 1..];
    assert h == name + ":" + digits;
    FieldsOfPair(name, digits);
    ColonFreeField(name);
    ColonFreeField(digits);
  }

  function FieldsOf(k: KeyName, name: string, digits: string): seq<string> {
    match k
    case Host(_) => ["shex", "v2", "host", name, digits]
    case Wake(_) => ["shex", "v2", name, digits, "wake"]
    case Message(_, dir, id) => ["shex", "v2", name, digits, "message", dir.Tag(), id]
    case Ready(_, dir, id) => ["shex", "v2", name, digits, "message", dir.Tag(), id, "ready"]
    case Session(_, hash) => ["shex", "v2", name, digits, "session", hash]
  }

  lemma ReadyKeyFields(messageKey: string)
    ensures Fields(ReadyKey(messageKey)) == Fields(messageKey) + ["ready"]
  {
    FieldsOfPair(messageKey, "ready");
    ColonFreeField("ready");
    assert ReadyKey(messageKey) == messageKey + ":" + "ready";
  }

  lemma TameFields(k: KeyName) returns (name: string, digits: string)
    requires Tame(k)
    ensures Fields(k.host) == [name, digits] && '-' in name
    ensures Fields(Render(k)) == FieldsOf(k, name, digits)
  {
    name, digits := ShapedFields(k.host);
    match k {
      case Host(h) => HostKeyFields(h);
      case Wake(h) => WakeKeyFields(h);
      case Message(h, dir, id) => MessageKeyFields(h, dir, id);
      case Ready(h, dir, id) =>
        MessageKeyFields(h, dir, id);
        ReadyKeyFields(MessageKey(h, dir, id));
      case Session(h, hash) => SessionKeyFields(h, hash);
    }
  }

  /** For generated hostnames all key families are disjoint and every key names one thing. */
  lemma KeysInjective(j: KeyName, k: KeyName)
    requires Tame(j) && Tame(k)
    ensures Render(j) == Render(k) <==> j == k
  {
    if Render(j) == Render(k) {
      var n1, d1 := TameFields(j);
      var n2, d2 := TameFields(k);
      assert FieldsOf(j, n1, d1) == FieldsOf(k, n2, d2);
      SameFields(j, n1, d1, k, n2, d2);
      FieldsInjective(j.host, k.host);
    }
  }

  lemma SameFields(j: KeyName, n1: string, d1: string, k: KeyName, n2: string, d2: string)
    requires FieldsOf(j, n1, d1) == FieldsOf(k, n2, d2)
    requires '-' in n1 && '-' in n2
    ensures n1 == n2 && d1 == d2
    ensures j.Host? == k.Host? && j.Wake? == k.Wake? && j.Message? == k.Message?
    ensures j.Ready? == k.Ready? && j.Session? == k.Session?
    ensures j.Message? || j.Ready? ==> j.dir == k.dir && j.id == k.id
    ensures j.Session? ==> j.hash == k.hash
  {
    var f, g := FieldsOf(j, n1, d1), FieldsOf(k, n2, d2);
    assert |f| == |g|;
    assert '-' !in "host";
    assert f[2] == g[2] && f[3] == g[3] && f[4] == g[4];
    assert "wake" != "host";
    if |f| >= 7 {
      assert f[5] == g[5] && f[6] == g[6];
      assert "c2h"[0] == 'c' && "h2c"[0] == 'h';
    } else if |f| == 6 {
      assert f[5] == g[5];
    }
  }

  /** `rsplit(':').next()`. */
  function LastField(s: string): string {
    var fields := Fields(s); fields[|fields| - 1]
  }

  /** The id the client pushes to the wake queue is its own connection id, and rebuilding the
      keys from it at the host gives the client's two keys with the roles exchanged. */
  lemma HostRebuildsKeys(hostname: string, id: string)
    requires ColonFree(id)
    ensures var sendKey, recvKey := ClientMessageKey(hostname, id), HostMessageKey(hostname, id);
            LastField(sendKey) == id
            && ClientMessageKey(hostname, LastField(sendKey)) == sendKey
            && HostMessageKey(hostname, LastField(sendKey)) == recvKey
            && sendKey != recvKey
  {
    MessageKeyFields(hostname, ToHost, id);
    MessageKeyFields(hostname, ToClient, id);
    var f, n := Fields(hostname), |Fields(hostname)|;
    var c := ["shex", "v2"] + (f + ["message", "c2h", id]);
    var h := ["shex", "v2"] + (f + ["message", "h2c", id]);
    assert c[n + 3] == "c2h" && h[n + 3] == "h2c";
    assert "c2h"[0] != "h2c"[0];
  }

  // ---------------------------------------------------------------- arbitrary hostnames

  /** Validation alone does not keep the families apart: the wake queue of a hostname is some
      valid hostname's permanent record exactly when the hostname's first field is `host`. */
  lemma WakeCollidesWithHost(a: string)
    requires ValidHostname(a)
    ensures (exists b :: ValidHostname(b) && HostKey(b) == WakeKey(a)) <==> Fields(a)[0] == "host"
  {
    WakeKeyFields(a);
    if b :| ValidHostname(b) && HostKey(b) == WakeKey(a) {
      HostKeyFields(b);
      assert Fields(HostKey(b))[2] == "host";
      assert Fields(WakeKey(a))[2] == Fields(a)[0];
    }
    if Fields(a)[0] == "host" {
      var b := HostColliding(a);
      HostKeyFields(b);
      FieldsInjective(HostKey(b), WakeKey(a));
    }
  }

  lemma HostColliding(a: string) returns (b: string)
    requires ValidHostname(a) && Fields(a)[0] == "host"
    ensures ValidHostname(b)
    ensures ["shex", "v2", "host"] + Fields(b) == ["shex", "v2"] + Fields(a) + ["wake"]
  {
    var f := Fields(a);
    JoinFields(a);
    ColonFreeField("wake");
    if |f| == 1 {
      b := "wake";
      assert f == ["host"];
    } else {
      b := Join(f[1..]) + ":" + "wake";
      AfterHost(a, Join(f[1..]));
    }
  }

  lemma AfterHost(a: string, m: string)
    requires ValidHostname(a) && a == "host" + ":" + m
    ensures ValidHostname(m + ":" + "wake")
    ensures ["shex", "v2", "host"] + Fields(m + ":" + "wake") == ["shex", "v2"] + Fields(a) + ["wake"]
  {
    WakeSuffix(a, m);
    FieldsAfterHost(a, m);
  }

  lemma FieldsAfterHost(a: string, m: string)
    requires a == "host" + ":" + m
    ensures ["shex", "v2", "host"] + Fields(m + ":" + "wake") == ["shex", "v2"] + Fields(a) + ["wake"]
  {
    FieldsOfPair("host", m);
    ColonFreeField("host");
    FieldsOfPair(m, "wake");
    ColonFreeField("wake");
  }

  lemma WakeSuffix(a: string, m: string)
    requires ValidHostname(a) && a == "host" + ":" + m
    ensures ValidHostname(m + ":" + "wake")
  {
    var b := m + ":" + "wake";
    forall i | 0 <= i < |b| ensures HostnameByte(b[i]) {
      if i < |m| {
        assert b[i] == a[i + 5] && a[i + 5] in a;
      }
    }
  }

  /** The SCAN pattern of `clear_session_lookups` without its star. */
  function SessionPrefix(hostname: string): string { "shex:v2:" + hostname + ":session:" }

  predicate MatchesGlob(hostname: string, key: string) { SessionPrefix(hostname) <= key }

  /** Redis's pattern matching, for patterns without sets and escapes: `*` stands for any text and
      `?` for any one character. */
  predicate Glob(pattern: string, s: string)
    requires '[' !in pattern && '\\' !in pattern
    decreases |pattern|, |s|
  {
    if pattern == "" then s == ""
    else if pattern[0] == '*' then Glob(pattern[1..], s) || (s != "" && Glob(pattern, s[1..]))
    else s != "" && (pattern[0] == '?' || pattern[0] == s[0]) && Glob(pattern[1..], s[1..])
  }

  /** Text that a pattern takes literally. */
  predicate Literal(s: string) { '*' !in s && '?' !in s && '[' !in s && '\\' !in s }

  lemma {:induction false} StarMatchesAll(s: string)
    ensures Glob("*", s)
  {
    assert "*"[1..] == "";
    if s != "" {
      StarMatchesAll(s[1..]);
    }
  }

  lemma {:induction false} LiteralThenStar(prefix: string, s: string)
    requires Literal(prefix)
    ensures Glob(prefix + "*", s) <==> prefix <= s
  {
    if prefix == "" {
      assert prefix + "*" == "*";
      StarMatchesAll(s);
    } else {
      assert (prefix + "*")[1..] == prefix[1..] + "*" && prefix[0] in prefix;
      if s != "" {
        LiteralThenStar(prefix[1..], s[1..]);
        assert prefix <= s <==> prefix[0] == s[0] && prefix[1..] <= s[1..];
      }
    }
  }

  /** Validation keeps every special character out of a hostname, so the pattern of a startup cleanup
      matches exactly the keys that begin with what stands before its star. */
  lemma PatternMatches(hostname: string, key: string)
    requires ValidHostname(hostname)
    ensures var pattern := "shex:v2:" + hostname + ":session:*";
            '[' !in pattern && '\\' !in pattern && (Glob(pattern, key) <==> MatchesGlob(hostname, key))
  {
    var pattern := "shex:v2:" + hostname + ":session:*";
    assert pattern == SessionPrefix(hostname) + "*";
    LiteralPrefix(hostname);
    LiteralThenStar(SessionPrefix(hostname), key);
  }

  lemma LiteralPrefix(hostname: string)
    requires ValidHostname(hostname)
    ensures Literal(SessionPrefix(hostname))
  {
    var head, tail := "shex:v2:", ":session:";
    assert Literal(head) && Literal(tail) && Literal(hostname);
    assert SessionPrefix(hostname) == head + hostname + tail;
  }

  lemma GlobByFields(hostname: string, key: string)
    ensures MatchesGlob(hostname, key) <==> ["shex", "v2"] + Fields(hostname) + ["session"] < Fields(key)
  {
    var stem := "shex:v2:" + (hostname + ":" + "session");
    var xs := ["shex", "v2"] + Fields(hostname) + ["session"];
    StemFields(hostname);
    PrefixByFields(stem, key);
    assert SessionPrefix(hostname) == stem + ":";
  }

  lemma StemFields(hostname: string)
    ensures Fields("shex:v2:" + (hostname + ":" + "session")) == ["shex", "v2"] + Fields(hostname) + ["session"]
  {
    FieldsOfPrefix(hostname + ":" + "session");
    FieldsOfPair(hostname, "session");
    ColonFreeField("session");
    Associates(["shex", "v2"], Fields(hostname), ["session"]);
  }

  /** A key continues `stem:` exactly when its fields properly continue those of the stem. */
  lemma PrefixByFields(stem: string, key: string)
    ensures stem + ":" <= key <==> Fields(stem) < Fields(key)
  {
    var xs := Fields(stem);
    if stem + ":" <= key {
      var rest := key[|stem| + 1..];
      assert key == stem + ":" + rest;
      FieldsOfPair(stem, rest);
    }
    if xs < Fields(key) {
      var ys := Fields(key)[|xs|..];
      assert Fields(key) == xs + ys;
      JoinAppend(xs, ys);
      JoinFields(key);
      JoinFields(stem);
    }
  }

  /** Exactly which session lookups a host's startup cleanup can reach: its own, and those of
      hostnames that continue its own fields with `session`. */
  lemma CleanupReachesSessions(a: string, b: string, hash: string)
    requires ColonFree(hash)
    ensures MatchesGlob(a, SessionKey(b, hash)) <==> a == b || Fields(a) + ["session"] <= Fields(b)
  {
    GlobByFields(a, SessionKey(b, hash));
    SessionKeyFields(b, hash);
    ExtendsThrough(["shex", "v2"], Fields(a), Fields(b), "session", hash);
    if Fields(a) == Fields(b) {
      FieldsInjective(a, b);
    }
  }

  lemma ExtendsThrough(p: seq<string>, f: seq<string>, g: seq<string>, s: string, last: string)
    ensures p + f + [s] < p + g + [s, last] <==> f == g || f + [s] <= g
  {
    var xs, ys := p + f + [s], p + g + [s, last];
    if f + [s] <= g {
      assert g == (f + [s]) + g[|f| + 1..];
      assert ys[..|xs|] == xs;
    } else if f == g {
      assert ys[..|xs|] == xs;
    }
    if xs < ys {
      assert |f| <= |g|;
      assert f == xs[|p|..|p| + |f|] == ys[|p|..|p| + |f|] == g[..|f|];
      if |f| < |g| {
        assert g[|f|] == ys[|p| + |f|] == xs[|p| + |f|] == s;
        assert f + [s] == g[..|f| + 1];
      }
    }
  }

  /** And exactly which permanent host records it can delete. */
  lemma CleanupReachesHosts(a: string, b: string)
    ensures MatchesGlob(a, HostKey(b)) <==> Fields(a) + ["session"] < ["host"] + Fields(b)
  {
    GlobByFields(a, HostKey(b));
    HostKeyFields(b);
    var p := ["shex", "v2"];
    Associates(p, Fields(a), ["session"]);
    Associates(p, ["host"], Fields(b));
    assert ["shex", "v2", "host"] == p + ["host"];
    SamePrefix(p, Fields(a) + ["session"], ["host"] + Fields(b));
  }

  /** The colon-free parts of a key; a connection id or hash is never the word `session`. */
  predicate Unpunctuated(k: KeyName) {
    (k.Message? || k.Ready? ==> ColonFree(k.id) && k.id != "session") && (k.Session? ==> ColonFree(k.hash))
  }

  /** Exactly which keys of which families the cleanup of a host deletes: its own lookups, every
      key but the record of hostnames that continue its own fields with `session`, and the
      records that do so after `host`. */
  lemma CleanupReaches(a: string, k: KeyName)
    requires Unpunctuated(k)
    ensures MatchesGlob(a, Render(k)) <==>
            (k.Session? && k.host == a)
            || (if k.Host? then Fields(a) + ["session"] < ["host"] + Fields(k.host)
                else Fields(a) + ["session"] <= Fields(k.host))
  {
    match k {
      case Host(b) => CleanupReachesHosts(a, b);
      case Session(b, hash) => CleanupReachesSessions(a, b, hash);
      case Wake(b) =>
        WakeKeyFields(b);
        Associates(["shex", "v2"], Fields(b), ["wake"]);
        GlobThrough(a, WakeKey(b), Fields(b), ["wake"]);
      case Message(b, dir, id) =>
        MessageKeyFields(b, dir, id);
        NotSession(dir);
        GlobThrough(a, MessageKey(b, dir, id), Fields(b), ["message", dir.Tag(), id]);
      case Ready(b, dir, id) =>
        MessageKeyFields(b, dir, id);
        ReadyKeyFields(MessageKey(b, dir, id));
        NotSession(dir);
        var tail := ["message", dir.Tag(), id];
        Associates(["shex", "v2"], Fields(b) + tail, ["ready"]);
        Associates(Fields(b), tail, ["ready"]);
        assert tail + ["ready"] == ["message", dir.Tag(), id, "ready"];
        GlobThrough(a, ReadyKey(MessageKey(b, dir, id)), Fields(b), ["message", dir.Tag(), id, "ready"]);
    }
  }

  lemma NotSession(dir: Direction)
    ensures "session" != "message" && "session" != dir.Tag()
  {
    assert "session"[0] == 's' && "message"[0] == 'm' && dir.Tag()[0] != 's';
  }

  lemma GlobThrough(a: string, key: string, g: seq<string>, tail: seq<string>)
    requires Fields(key) == ["shex", "v2"] + (g + tail)
    requires tail != [] && "session" !in tail[..|tail| - 1]
    ensures MatchesGlob(a, key) <==> Fields(a) + ["session"] <= g
  {
    GlobByFields(a, key);
    Associates(["shex", "v2"], Fields(a), ["session"]);
    SamePrefix(["shex", "v2"], Fields(a) + ["session"], g + tail);
    EndsBefore(Fields(a), "session", g, tail);
  }

  /** A proper prefix that ends in a word the tail does not start with ends before the tail. */
  lemma EndsBefore(f: seq<string>, s: string, g: seq<string>, tail: seq<string>)
    requires tail != [] && s !in tail[..|tail| - 1]
    ensures f + [s] < g + tail <==> f + [s] <= g
  {
    var xs, ys, n := f + [s], g + tail, |tail| - 1;
    assert |g| <= |f| < |g| + n ==> ys[|f|] == tail[..n][|f| - |g|];
    assert g == ys[..|g|];
    if xs < ys {
      assert xs[|f|] == s && ys[|f|] == s;
      assert |f| < |g|;
    }
    if xs <= g {
      assert ys[..|xs|] == g[..|xs|];
    }
  }

  lemma SamePrefix(p: seq<string>, xs: seq<string>, ys: seq<string>)
    ensures p + xs < p + ys <==> xs < ys
  {
    TakeDrop(p, xs);
    TakeDrop(p, ys);
    if p + xs < p + ys {
      assert (p + ys)[..|p + xs|][|p|..] == ys[..|xs|];
    }
    if xs < ys {
      assert (p + ys)[..|p + xs|] == p + ys[..|xs|];
    }
  }

  /** For generated hostnames cleanup deletes lookups of the host itself and nothing else. */
  lemma CleanupIsOwn(a: string, k: KeyName)
    requires Shaped(a) && Tame(k)
    ensures MatchesGlob(a, Render(k)) <==> k.Session? && k.host == a
  {
    var name, digits := ShapedFields(a);
    var n, d := TameFields(k);
    GlobByFields(a, Render(k));
    var xs := ["shex", "v2"] + Fields(a) + ["session"];
    assert xs == ["shex", "v2", name, digits, "session"];
    var ys := FieldsOf(k, n, d);
    assert '-' !in "host";
    if k.Session? && k.host == a {
      assert ys == xs + [k.hash];
    }
    if xs < ys {
      assert xs[2] == ys[2] && xs[3] == ys[3] && xs[4] == ys[4];
      assert "session"[0] == 's' && "message"[0] == 'm' && "wake"[0] == 'w';
      assert k.Session?;
      FieldsInjective(a, k.host);
    }
  }

  /** A valid hostname whose cleanup deletes another host's permanent record. */
  lemma CleanupCanDeleteHostRecord()
    ensures ValidHostname("host") && ValidHostname("session:x")
    ensures MatchesGlob("host", HostKey("session:x"))
  {
    assert SessionPrefix("host") == "shex:v2:host:session:";
    assert HostKey("session:x") == "shex:v2:host:session:" + "x";
  }
}
