/** The encrypted file vault (src/credential_store.rs): any number of processes that interleave,
    fail and crash at any file operation. */
module Vault {
  import opened Wrappers
  import opened Sequences

  const FILE_STORE_VERSION: nat := 1
  const KEY_BYTES: nat := 32

  type Key = seq<byte>
  type Identity = seq<byte>
  type Secret = seq<byte>

  /** `service NUL user`: the associated data, and by its digest the file name, of an entry. */
  function IdentityOf(service: seq<byte>, user: seq<byte>): Identity { service + [0] + user }

  lemma IdentityInjective(s1: seq<byte>, u1: seq<byte>, s2: seq<byte>, u2: seq<byte>)
    requires 0 !in s1 && 0 !in s2
    ensures IdentityOf(s1, u1) == IdentityOf(s2, u2) <==> s1 == s2 && u1 == u2
  {
    var a, b := IdentityOf(s1, u1), IdentityOf(s2, u2);
    assert a[|s1|] == 0 && b[|s2|] == 0;
    if a == b {
      assert forall i :: 0 <= i < |s1| ==> a[i] == s1[i] && s1[i] in s1;
      assert forall i :: 0 <= i < |s2| ==> b[i] == s2[i] && s2[i] in s2;
      assert |s1| == |s2|;
      assert s1 == a[..|s1|] == b[..|s2|] == s2;
      assert u1 == a[|s1| + 1..] == b[|s2| + 1..] == u2;
    }
  }

  // ---------------------------------------------------------------- the disk

  /** What a file is meant to hold. Sealing is symbolic: an envelope opens only under its key
      and identity. */
  datatype Payload = KeyFile(key: Key) | Envelope(version: nat, key: Key, id: Identity, secret: Secret)

  /** Until `complete`, only part of the payload has been written. `maker` is history. */
  datatype File = File(payload: Payload, complete: bool, private: bool, maker: nat)

  /** Temporary names are random. Creating one that exists fails, without harm for key files;
      for entries, whose clean-up would then remove the other writer's file, the names are
      assumed not to collide. */
  datatype Name = TheKey | KeyTemp(n: nat) | SecretOf(id: Identity) | SecretTemp(n: nat)

  /** Names are links to files; `next` is the number of the next file. */
  datatype Disk = Disk(names: map<Name, nat>, files: map<nat, File>, next: nat)

  function CreateNew(d: Disk, name: Name, payload: Payload, maker: nat): Disk {
    Disk(d.names[name := d.next], d.files[d.next := File(payload, false, true, maker)], d.next + 1)
  }

  function WriteAll(d: Disk, inode: nat): Disk
    requires inode in d.files
  {
    d.(files := d.files[inode := d.files[inode].(complete := true)])
  }

  function HardLink(d: Disk, from: Name, to: Name): Disk
    requires from in d.names && to !in d.names
  {
    d.(names := d.names[to := d.names[from]])
  }

  function Rename(d: Disk, from: Name, to: Name): Disk
    requires from in d.names
  {
    d.(names := (d.names - {from})[to := d.names[from]])
  }

  function Unlink(d: Disk, name: Name): Disk { d.(names := d.names - {name}) }

  function FileAt(d: Disk, name: Name): Option<File> {
    if name in d.names && d.names[name] in d.files then Some(d.files[d.names[name]]) else None
  }

  /** `check_private_permissions` passes. */
  predicate Private(d: Disk, name: Name) {
    FileAt(d, name).Some? && FileAt(d, name).value.private
  }

  /** Reading the key file: exactly 32 bytes or an error. */
  function ReadKey(d: Disk): Option<Key> {
    match FileAt(d, TheKey)
    case Some(File(KeyFile(key), true, _, _)) => if |key| == KEY_BYTES then Some(key) else None
    case _ => None
  }

  /** Reading, parsing and opening an entry under a key. */
  function ReadSecret(d: Disk, id: Identity, key: Key): Option<Secret> {
    match FileAt(d, SecretOf(id))
    case Some(File(Envelope(version, k, i, secret), true, _, _)) =>
      if version == FILE_STORE_VERSION && k == key && i == id then Some(secret) else None
    case _ => None
  }

  // ---------------------------------------------------------------- processes

  datatype Goal =
    | ObtainKey                                    // load_or_create_file_key
    | LoadKey                                      // load_file_key
    | SetSecret(id: Identity, secret: Secret)
    | GetSecret(id: Identity)
    | DeleteSecret(id: Identity)

  datatype Outcome = GotKey(key: Key) | Stored | GotSecret(secret: Secret) | Deleted | Failed

  /** Where a process stands between two file operations. */
  datatype Pc =
    | Begin
    | Absent                                                   // exists() said no
    | KeyCreated(temp: nat, inode: nat, key: Key)
    | KeyWritten(temp: nat, inode: nat, key: Key)
    | Loading(own: Option<nat>, checked: bool)
    | Tidying(temp: nat, loaded: Option<Key>)                  // key settled, temporary not removed
    | HaveKey(key: Key)
    | EnvelopeCreated(temp: nat, inode: nat, key: Key)
    | EnvelopeWritten(temp: nat, inode: nat, key: Key)
    | SecretChecked(key: Key)
    | Done(outcome: Outcome)
    | Crashed

  datatype Proc = Proc(goal: Goal, pc: Pc)

  /** `history[id]` is what was successively put at the entry's name: secrets and deletions. */
  datatype World = World(disk: Disk, procs: map<nat, Proc>, history: map<Identity, seq<Option<Secret>>>)

  datatype Act =
    | Arrive(goal: Goal)
    | CheckExists
    | CreateKeyTemp(temp: nat, key: Key)
    | WriteKeyTemp
    | LinkKey
    | CheckKey
    | LoadTheKey
    | Tidy(removed: bool)
    | UseKey
    | CreateEnvelope(temp: nat)
    | WriteEnvelope
    | Publish
    | CheckEntry
    | LoadEntry
    | RemoveEntry
    | Fail(removed: bool)
    | Crash

  function History(w: World, id: Identity): seq<Option<Secret>> {
    if id in w.history then w.history[id] else []
  }

  function Recorded(w: World, id: Identity, put: Option<Secret>): World {
    w.(history := w.history[id := History(w, id) + [put]])
  }

  function EnvelopeOf(goal: Goal, key: Key): Payload
    requires goal.SetSecret?
  {
    Envelope(FILE_STORE_VERSION, key, goal.id, goal.secret)
  }

  predicate Enabled(w: World, p: nat, a: Act) {
    if a.Arrive? then p !in w.procs
    else
      p in w.procs
      && var pc, goal := w.procs[p].pc, w.procs[p].goal;
         match a
         case CheckExists => pc.Begin? && (goal.ObtainKey? || goal.SetSecret?)
         case CreateKeyTemp(_, key) => pc.Absent? && |key| == KEY_BYTES
         case WriteKeyTemp => pc.KeyCreated? && pc.inode in w.disk.files
         case LinkKey => pc.KeyWritten? && KeyTemp(pc.temp) in w.disk.names
         case CheckKey =>
           (pc.Begin? && (goal.LoadKey? || goal.GetSecret?)) || (pc.Loading? && !pc.checked)
         case LoadTheKey => pc.Loading? && pc.checked
         case Tidy(_) => pc.Tidying?
         case UseKey => pc.HaveKey? && (goal.ObtainKey? || goal.LoadKey?)
         case CreateEnvelope(t) => pc.HaveKey? && goal.SetSecret? && SecretTemp(t) !in w.disk.names
         case WriteEnvelope => pc.EnvelopeCreated? && pc.inode in w.disk.files
         case Publish => pc.EnvelopeWritten? && goal.SetSecret? && SecretTemp(pc.temp) in w.disk.names
         case CheckEntry => pc.HaveKey? && goal.GetSecret?
         case LoadEntry => pc.SecretChecked? && goal.GetSecret?
         case RemoveEntry => pc.Begin? && goal.DeleteSecret?
         case Fail(_) => !pc.Done? && !pc.Crashed?
         case Crash => !pc.Done? && !pc.Crashed?
         case Arrive(_) => false
  }

  function Goto(w: World, p: nat, pc: Pc): World
    requires p in w.procs
  {
    w.(procs := w.procs[p := w.procs[p].(pc := pc)])
  }

  /** The key is known; a temporary of ours is still to be removed, or not. */
  function Settled(temp: Option<nat>, key: Option<Key>): Pc {
    match temp
    case Some(t) => Tidying(t, key)
    case None => if key.Some? then HaveKey(key.value) else Done(Failed)
  }

  function Apply(w: World, p: nat, a: Act): World
    requires Enabled(w, p, a)
  {
    var d := w.disk;
    if a.Arrive? then w.(procs := w.procs[p := Proc(a.goal, Begin)])
    else
      var pc, goal := w.procs[p].pc, w.procs[p].goal;
      match a
      case CheckExists => Goto(w, p, if TheKey in d.names then Loading(None, false) else Absent)
      case CreateKeyTemp(t, key) =>
        if KeyTemp(t) in d.names then Goto(w, p, Done(Failed))
        else Goto(w.(disk := CreateNew(d, KeyTemp(t), KeyFile(key), p)), p, KeyCreated(t, d.next, key))
      case WriteKeyTemp =>
        Goto(w.(disk := WriteAll(d, pc.inode)), p, KeyWritten(pc.temp, pc.inode, pc.key))
      case LinkKey =>
        if TheKey in d.names then Goto(w, p, Loading(Some(pc.temp), false))
        else Goto(w.(disk := HardLink(d, KeyTemp(pc.temp), TheKey)), p, Tidying(pc.temp, Some(pc.key)))
      case CheckKey =>
        var temp := if pc.Loading? then pc.own else None;
        Goto(w, p, if Private(d, TheKey) then Loading(temp, true) else Settled(temp, None))
      case LoadTheKey => Goto(w, p, Settled(pc.own, ReadKey(d)))
      case Tidy(removed) =>
        Goto(w.(disk := if removed then Unlink(d, KeyTemp(pc.temp)) else d), p, Settled(None, pc.loaded))
      case UseKey => Goto(w, p, Done(GotKey(pc.key)))
      case CreateEnvelope(t) =>
        Goto(w.(disk := CreateNew(d, SecretTemp(t), EnvelopeOf(goal, pc.key), p)), p, EnvelopeCreated(t, d.next, pc.key))
      case WriteEnvelope =>
        Goto(w.(disk := WriteAll(d, pc.inode)), p, EnvelopeWritten(pc.temp, pc.inode, pc.key))
      case Publish =>
        Recorded(Goto(w.(disk := Rename(d, SecretTemp(pc.temp), SecretOf(goal.id))), p, Done(Stored)), goal.id, Some(goal.secret))
      case CheckEntry => Goto(w, p, if Private(d, SecretOf(goal.id)) then SecretChecked(pc.key) else Done(Failed))
      case LoadEntry =>
        (match ReadSecret(d, goal.id, pc.key)
         case Some(secret) => Goto(w, p, Done(GotSecret(secret)))
         case None => Goto(w, p, Done(Failed)))
      case RemoveEntry =>
        if SecretOf(goal.id) in d.names
        then Recorded(Goto(w.(disk := Unlink(d, SecretOf(goal.id))), p, Done(Deleted)), goal.id, None)
        else Goto(w, p, Done(Failed))
      case Fail(removed) =>
        if pc.Loading? then Goto(w, p, Settled(pc.own, None))
        else Goto(w.(disk := if removed && Builds(pc) && !pc.KeyCreated? then Unlink(d, TempName(pc)) else d), p, Done(Failed))
      case Crash => Goto(w, p, Crashed)
  }

  const EMPTY: World := World(Disk(map[], map[], 0), map[], map[])

  // ---------------------------------------------------------------- the invariant

  predicate Builds(pc: Pc) { pc.KeyCreated? || pc.KeyWritten? || pc.EnvelopeCreated? || pc.EnvelopeWritten? }

  function TempName(pc: Pc): Name
    requires Builds(pc)
  {
    if pc.KeyCreated? || pc.KeyWritten? then KeyTemp(pc.temp) else SecretTemp(pc.temp)
  }

  /** The key a process has in hand. */
  function KeyInHand(pc: Pc): Option<Key> {
    match pc
    case Tidying(_, key) => key
    case HaveKey(key) => Some(key)
    case EnvelopeCreated(_, _, key) => Some(key)
    case EnvelopeWritten(_, _, key) => Some(key)
    case SecretChecked(key) => Some(key)
    case Done(GotKey(key)) => Some(key)
    case _ => None
  }

  predicate LinksOk(d: Disk, name: Name)
    requires name in d.names
  {
    d.names[name] in d.files && d.names[name] < d.next
  }

  /** A file under construction is its maker's: reachable by its temporary name only. */
  ghost predicate Building(w: World, p: nat)
    requires p in w.procs && Builds(w.procs[p].pc)
  {
    var d, pc, goal := w.disk, w.procs[p].pc, w.procs[p].goal;
    TempName(pc) in d.names && d.names[TempName(pc)] == pc.inode && pc.inode in d.files
    && (forall name :: name in d.names && d.names[name] == pc.inode ==> name == TempName(pc))
    && d.files[pc.inode].maker == p && d.files[pc.inode].private
    && d.files[pc.inode].complete == (pc.KeyWritten? || pc.EnvelopeWritten?)
    && (if pc.KeyCreated? || pc.KeyWritten?
        then d.files[pc.inode].payload == KeyFile(pc.key) && |pc.key| == KEY_BYTES
        else goal.SetSecret? && d.files[pc.inode].payload == EnvelopeOf(goal, pc.key))
  }

  /** A key temporary not yet tidied away. */
  function LeftTemp(pc: Pc): Option<nat> {
    match pc
    case Loading(own, _) => own
    case Tidying(temp, _) => Some(temp)
    case _ => None
  }

  predicate Owning(w: World, p: nat)
    requires p in w.procs && LeftTemp(w.procs[p].pc).Some?
  {
    var name := KeyTemp(LeftTemp(w.procs[p].pc).value);
    FileAt(w.disk, name).Some? && FileAt(w.disk, name).value.maker == p
  }

  ghost predicate DiskInv(w: World) {
    (forall name :: name in w.disk.names ==> LinksOk(w.disk, name))
    && (forall i :: i in w.disk.files ==> i < w.disk.next)
    && (forall p :: p in w.procs && Builds(w.procs[p].pc) ==> Building(w, p))
    && (forall p :: p in w.procs && LeftTemp(w.procs[p].pc).Some? ==> Owning(w, p))
  }

  /** Once linked the key file is complete, private and well sized, and every key in anybody's
      hands is the one it holds. */
  ghost predicate KeyInv(w: World) {
    (TheKey in w.disk.names ==> ReadKey(w.disk).Some? && Private(w.disk, TheKey))
    && forall p :: p in w.procs && KeyInHand(w.procs[p].pc).Some? ==>
         TheKey in w.disk.names && ReadKey(w.disk) == KeyInHand(w.procs[p].pc)
  }

  function Latest(w: World, id: Identity): Option<Secret> {
    var h := History(w, id);
    if h == [] then None else h[|h| - 1]
  }

  predicate EntryOk(w: World, id: Identity) {
    if SecretOf(id) in w.disk.names then
      TheKey in w.disk.names && Private(w.disk, SecretOf(id)) && ReadKey(w.disk).Some?
      && Latest(w, id).Some? && ReadSecret(w.disk, id, ReadKey(w.disk).value) == Latest(w, id)
    else Latest(w, id).None?
  }

  ghost predicate EntryInv(w: World) { forall id :: EntryOk(w, id) }

  ghost predicate Inv(w: World) { DiskInv(w) && KeyInv(w) && EntryInv(w) }

  // ---------------------------------------------------------------- every operation keeps it

  /** What an operation leaves untouched: files already complete, and everything about the key
      once it is linked. */
  lemma FilesKept(w: World, p: nat, a: Act, i: nat)
    requires DiskInv(w) && Enabled(w, p, a) && i in w.disk.files
    ensures i in Apply(w, p, a).disk.files
    ensures var f, g := w.disk.files[i], Apply(w, p, a).disk.files[i];
            g.payload == f.payload && g.private == f.private && g.maker == f.maker && (f.complete ==> g.complete)
  {
  }

  lemma LinksKept(w: World, p: nat, a: Act)
    requires DiskInv(w) && Enabled(w, p, a)
    ensures var after := Apply(w, p, a);
            (forall name :: name in after.disk.names ==> LinksOk(after.disk, name))
            && (forall i :: i in after.disk.files ==> i < after.disk.next)
  {
    var after := Apply(w, p, a);
    forall name | name in after.disk.names
      ensures LinksOk(after.disk, name)
    {
      if name in w.disk.names {
        assert LinksOk(w.disk, name);
      }
    }
  }

  lemma OthersBuild(w: World, p: nat, a: Act, q: nat)
    requires DiskInv(w) && Enabled(w, p, a) && q != p && q in w.procs && Builds(w.procs[q].pc)
    ensures Building(Apply(w, p, a), q)
  {
    if a.CreateKeyTemp? || a.CreateEnvelope? {
      CreationSparesOthers(w, p, a, q);
    } else if a.WriteKeyTemp? || a.WriteEnvelope? {
      WriteSparesOthers(w, p, a, q);
    } else if a.Publish? {
      PublishSparesOthers(w, p, q);
    } else if a.LinkKey? {
      LinkSparesOthers(w, p, q);
    } else {
      RestSparesOthers(w, p, a, q);
    }
  }

  lemma CreationSparesOthers(w: World, p: nat, a: Act, q: nat)
    requires DiskInv(w) && Enabled(w, p, a) && q != p && q in w.procs && Builds(w.procs[q].pc)
    requires a.CreateKeyTemp? || a.CreateEnvelope?
    ensures Building(Apply(w, p, a), q)
  {
    assert Building(w, q);
    assert w.procs[q].pc.inode < w.disk.next;
  }

  lemma WriteSparesOthers(w: World, p: nat, a: Act, q: nat)
    requires DiskInv(w) && Enabled(w, p, a) && q != p && q in w.procs && Builds(w.procs[q].pc)
    requires a.WriteKeyTemp? || a.WriteEnvelope?
    ensures Building(Apply(w, p, a), q)
  {
    assert Building(w, q) && Building(w, p);
  }

  lemma PublishSparesOthers(w: World, p: nat, q: nat)
    requires DiskInv(w) && Enabled(w, p, Publish) && q != p && q in w.procs && Builds(w.procs[q].pc)
    ensures Building(Apply(w, p, Publish), q)
  {
    assert Building(w, q) && Building(w, p);
  }

  lemma LinkSparesOthers(w: World, p: nat, q: nat)
    requires DiskInv(w) && Enabled(w, p, LinkKey) && q != p && q in w.procs && Builds(w.procs[q].pc)
    ensures Building(Apply(w, p, LinkKey), q)
  {
    assert Building(w, q) && Building(w, p);
  }

  lemma RestSparesOthers(w: World, p: nat, a: Act, q: nat)
    requires DiskInv(w) && Enabled(w, p, a) && q != p && q in w.procs && Builds(w.procs[q].pc)
    requires !a.CreateKeyTemp? && !a.CreateEnvelope? && !a.WriteKeyTemp? && !a.WriteEnvelope?
    requires !a.Publish? && !a.LinkKey?
    ensures Building(Apply(w, p, a), q)
  {
    assert Building(w, q);
    if p in w.procs && Builds(w.procs[p].pc) {
      assert Building(w, p);
    }
    if p in w.procs && LeftTemp(w.procs[p].pc).Some? {
      assert Owning(w, p);
    }
  }

  lemma OwnBuild(w: World, p: nat, a: Act)
    requires DiskInv(w) && Enabled(w, p, a) && Builds(Apply(w, p, a).procs[p].pc)
    ensures Building(Apply(w, p, a), p)
  {
    if p in w.procs && Builds(w.procs[p].pc) {
      assert Building(w, p);
    }
  }

  lemma OwningKept(w: World, p: nat, a: Act, q: nat)
    requires DiskInv(w) && Enabled(w, p, a) && q in Apply(w, p, a).procs && LeftTemp(Apply(w, p, a).procs[q].pc).Some?
    ensures Owning(Apply(w, p, a), q)
  {
    if q == p {
      OwnTempKept(w, p, a);
    } else {
      OthersTempKept(w, p, a, q);
    }
  }

  lemma OwnTempKept(w: World, p: nat, a: Act)
    requires DiskInv(w) && Enabled(w, p, a) && LeftTemp(Apply(w, p, a).procs[p].pc).Some?
    ensures Owning(Apply(w, p, a), p)
  {
    if p in w.procs && LeftTemp(w.procs[p].pc).Some? {
      assert Owning(w, p);
    }
    if p in w.procs && Builds(w.procs[p].pc) {
      assert Building(w, p);
    }
  }

  lemma OthersTempKept(w: World, p: nat, a: Act, q: nat)
    requires DiskInv(w) && Enabled(w, p, a) && q != p && q in w.procs && LeftTemp(w.procs[q].pc).Some?
    ensures Owning(Apply(w, p, a), q)
  {
    assert Owning(w, q);
    if p in w.procs && LeftTemp(w.procs[p].pc).Some? {
      assert Owning(w, p);
    }
    if p in w.procs && Builds(w.procs[p].pc) {
      assert Building(w, p);
    }
  }

  lemma DiskKept(w: World, p: nat, a: Act)
    requires DiskInv(w) && Enabled(w, p, a)
    ensures DiskInv(Apply(w, p, a))
  {
    var after := Apply(w, p, a);
    LinksKept(w, p, a);
    forall q | q in after.procs && Builds(after.procs[q].pc)
      ensures Building(after, q)
    {
      if q == p {
        OwnBuild(w, p, a);
      } else {
        OthersBuild(w, p, a, q);
      }
    }
    forall q | q in after.procs && LeftTemp(after.procs[q].pc).Some?
      ensures Owning(after, q)
    {
      OwningKept(w, p, a, q);
    }
  }

  /** Names that no operation of `p` rebinds. */
  predicate Spared(w: World, p: nat, a: Act, name: Name)
    requires Enabled(w, p, a)
  {
    name.TheKey? || (name.SecretOf? && (a.Publish? || a.RemoveEntry? ==> w.procs[p].goal.id != name.id))
  }

  /** A complete file under such a name stays what it is. */
  lemma FileStays(w: World, p: nat, a: Act, name: Name)
    requires DiskInv(w) && Enabled(w, p, a) && Spared(w, p, a, name)
    requires FileAt(w.disk, name).Some? && FileAt(w.disk, name).value.complete
    ensures FileAt(Apply(w, p, a).disk, name) == FileAt(w.disk, name)
    ensures name in Apply(w, p, a).disk.names
  {
    FilesKept(w, p, a, w.disk.names[name]);
  }

  /** The linked key never changes: its name is never rebound, its file never rewritten. */
  lemma LinkedKeyKept(w: World, p: nat, a: Act)
    requires DiskInv(w) && KeyInv(w) && Enabled(w, p, a) && TheKey in w.disk.names
    ensures TheKey in Apply(w, p, a).disk.names
    ensures ReadKey(Apply(w, p, a).disk) == ReadKey(w.disk) && Private(Apply(w, p, a).disk, TheKey)
  {
    FileStays(w, p, a, TheKey);
  }

  lemma KeyKept(w: World, p: nat, a: Act)
    requires Inv(w) && Enabled(w, p, a)
    ensures KeyInv(Apply(w, p, a))
  {
    var after := Apply(w, p, a);
    if TheKey in w.disk.names {
      LinkedKeyKept(w, p, a);
    } else {
      FirstLink(w, p, a);
    }
    forall q | q in after.procs && KeyInHand(after.procs[q].pc).Some?
      ensures TheKey in after.disk.names && ReadKey(after.disk) == KeyInHand(after.procs[q].pc)
    {
      if q == p {
        OwnKey(w, p, a);
      } else {
        assert KeyInHand(w.procs[q].pc).Some?;
      }
    }
  }

  lemma FirstLink(w: World, p: nat, a: Act)
    requires Inv(w) && Enabled(w, p, a) && TheKey !in w.disk.names
    ensures TheKey in Apply(w, p, a).disk.names ==> a.LinkKey?
    ensures a.LinkKey? ==> ReadKey(Apply(w, p, a).disk) == Some(w.procs[p].pc.key) && Private(Apply(w, p, a).disk, TheKey)
  {
    if p in w.procs && Builds(w.procs[p].pc) {
      assert Building(w, p);
    }
  }

  lemma OwnKey(w: World, p: nat, a: Act)
    requires Inv(w) && Enabled(w, p, a) && KeyInHand(Apply(w, p, a).procs[p].pc).Some?
    ensures TheKey in Apply(w, p, a).disk.names
    ensures ReadKey(Apply(w, p, a).disk) == KeyInHand(Apply(w, p, a).procs[p].pc)
  {
    if TheKey in w.disk.names {
      LinkedKeyKept(w, p, a);
    } else if a.LinkKey? {
      FirstLink(w, p, a);
    }
  }

  lemma EntriesKept(w: World, p: nat, a: Act, id: Identity)
    requires Inv(w) && Enabled(w, p, a)
    ensures EntryOk(Apply(w, p, a), id)
  {
    assert EntryOk(w, id);
    if a.Publish? && w.procs[p].goal.id == id {
      PublishKeepsEntries(w, p, id);
    } else if !a.RemoveEntry? || w.procs[p].goal.id != id {
      if TheKey in w.disk.names {
        LinkedKeyKept(w, p, a);
      }
      EntrySpared(w, p, a, id);
    }
  }

  lemma EntrySpared(w: World, p: nat, a: Act, id: Identity)
    requires DiskInv(w) && EntryOk(w, id) && Enabled(w, p, a) && Spared(w, p, a, SecretOf(id))
    requires TheKey in w.disk.names ==>
               TheKey in Apply(w, p, a).disk.names && ReadKey(Apply(w, p, a).disk) == ReadKey(w.disk)
    ensures EntryOk(Apply(w, p, a), id)
  {
    if SecretOf(id) in w.disk.names {
      FileStays(w, p, a, SecretOf(id));
    }
  }

  lemma PublishKeepsEntries(w: World, p: nat, id: Identity)
    requires Inv(w) && Enabled(w, p, Publish) && w.procs[p].goal.id == id
    ensures EntryOk(Apply(w, p, Publish), id)
  {
    assert Building(w, p);
    assert KeyInHand(w.procs[p].pc).Some?;
    LinkedKeyKept(w, p, Publish);
  }

  lemma StepKeepsInv(w: World, p: nat, a: Act)
    requires Inv(w) && Enabled(w, p, a)
    ensures Inv(Apply(w, p, a))
  {
    DiskKept(w, p, a);
    KeyKept(w, p, a);
    forall id ensures EntryOk(Apply(w, p, a), id) {
      EntriesKept(w, p, a, id);
    }
  }

  // ---------------------------------------------------------------- runs

  ghost predicate IsRun(worlds: seq<World>, acts: seq<(nat, Act)>) {
    |worlds| == |acts| + 1 && worlds[0] == EMPTY
    && forall i {:trigger acts[i]} :: 0 <= i < |acts| ==>
         Enabled(worlds[i], acts[i].0, acts[i].1) && worlds[i + 1] == Apply(worlds[i], acts[i].0, acts[i].1)
  }

  lemma {:induction false} RunKeepsInv(worlds: seq<World>, acts: seq<(nat, Act)>, n: nat)
    requires IsRun(worlds, acts) && n < |worlds|
    ensures Inv(worlds[n])
  {
    if n > 0 {
      RunKeepsInv(worlds, acts, n - 1);
      StepKeepsInv(worlds[n - 1], acts[n - 1].0, acts[n - 1].1);
    }
  }

  /** The key file, once linked, is complete and stays what it is. */
  lemma {:induction false} LinkedKeyForever(worlds: seq<World>, acts: seq<(nat, Act)>, i: nat, j: nat)
    requires IsRun(worlds, acts) && i <= j < |worlds| && TheKey in worlds[i].disk.names
    ensures TheKey in worlds[j].disk.names && ReadKey(worlds[j].disk).Some?
    ensures ReadKey(worlds[j].disk) == ReadKey(worlds[i].disk)
    decreases j - i
  {
    RunKeepsInv(worlds, acts, i);
    if i < j {
      LinkedKeyForever(worlds, acts, i, j - 1);
      RunKeepsInv(worlds, acts, j - 1);
      LinkedKeyKept(worlds[j - 1], acts[j - 1].0, acts[j - 1].1);
    }
  }

  /** Key agreement: for any number of processes, interleaving, failing and crashing at any file
      operation, any two keys ever obtained, by anybody at any time, are the same 32 bytes, and
      they are what the key file holds. */
  lemma KeyAgreement(worlds: seq<World>, acts: seq<(nat, Act)>, i: nat, j: nat, p: nat, q: nat)
    requires IsRun(worlds, acts) && i <= j < |worlds|
    requires p in worlds[i].procs && KeyInHand(worlds[i].procs[p].pc).Some?
    requires q in worlds[j].procs && KeyInHand(worlds[j].procs[q].pc).Some?
    ensures KeyInHand(worlds[i].procs[p].pc) == KeyInHand(worlds[j].procs[q].pc) == ReadKey(worlds[j].disk)
    ensures |KeyInHand(worlds[i].procs[p].pc).value| == KEY_BYTES
  {
    RunKeepsInv(worlds, acts, i);
    RunKeepsInv(worlds, acts, j);
    LinkedKeyForever(worlds, acts, i, j);
  }

  /** Reading an entry returns the secret last put there, whole, and fails exactly when there is
      none: no interleaving or crash of writers shows a torn or foreign envelope. */
  lemma ReadReturnsLatest(worlds: seq<World>, acts: seq<(nat, Act)>, i: nat)
    requires IsRun(worlds, acts) && i < |acts| && acts[i].1 == LoadEntry
    ensures var p := acts[i].0;
            p in worlds[i].procs && worlds[i].procs[p].goal.GetSecret? && p in worlds[i + 1].procs
            && worlds[i + 1].procs[p].pc
               == Done(match Latest(worlds[i], worlds[i].procs[p].goal.id)
                       case Some(secret) => GotSecret(secret)
                       case None => Failed)
  {
    RunKeepsInv(worlds, acts, i);
    var w, p := worlds[i], acts[i].0;
    assert KeyInHand(w.procs[p].pc).Some?;
    assert EntryOk(w, w.procs[p].goal.id);
  }

  predicate Puts(w: World, p: nat, a: Act, id: Identity) {
    (a.Publish? || a.RemoveEntry?) && p in w.procs
    && match w.procs[p].goal
       case SetSecret(i, _) => i == id
       case DeleteSecret(i) => i == id
       case _ => false
  }

  lemma {:induction false} LatestKept(worlds: seq<World>, acts: seq<(nat, Act)>, i: nat, j: nat, id: Identity)
    requires IsRun(worlds, acts) && i <= j < |worlds|
    requires forall k :: i <= k < j ==> !Puts(worlds[k], acts[k].0, acts[k].1, id)
    ensures Latest(worlds[j], id) == Latest(worlds[i], id)
    decreases j - i
  {
    if i < j {
      LatestKept(worlds, acts, i, j - 1, id);
      var (p, a) := acts[j - 1];
      assert !Puts(worlds[j - 1], p, a, id);
      LatestStays(worlds[j - 1], p, a, id);
    }
  }

  lemma LatestStays(w: World, p: nat, a: Act, id: Identity)
    requires Enabled(w, p, a) && !Puts(w, p, a, id)
    ensures Latest(Apply(w, p, a), id) == Latest(w, id)
  {
  }

  /** Set, then get: a read that follows a completed write, with no other write or deletion of
      that entry in between, returns exactly what was written. */
  lemma SetThenGet(worlds: seq<World>, acts: seq<(nat, Act)>, i: nat, j: nat)
    requires IsRun(worlds, acts) && i < j < |acts|
    requires acts[i].1 == Publish && acts[j].1 == LoadEntry
    requires acts[i].0 in worlds[i].procs && worlds[i].procs[acts[i].0].goal.SetSecret?
    requires acts[j].0 in worlds[j].procs && worlds[j].procs[acts[j].0].goal == GetSecret(worlds[i].procs[acts[i].0].goal.id)
    requires forall k :: i < k < j ==> !Puts(worlds[k], acts[k].0, acts[k].1, worlds[i].procs[acts[i].0].goal.id)
    ensures acts[j].0 in worlds[j + 1].procs
    ensures worlds[j + 1].procs[acts[j].0].pc == Done(GotSecret(worlds[i].procs[acts[i].0].goal.secret))
  {
    var goal := worlds[i].procs[acts[i].0].goal;
    assert Enabled(worlds[i], acts[i].0, acts[i].1);
    assert Latest(worlds[i + 1], goal.id) == Some(goal.secret);
    LatestKept(worlds, acts, i + 1, j, goal.id);
    ReadReturnsLatest(worlds, acts, j);
  }

  /** Whatever is put at an entry's name was written for that identity by a process that asked
      for it. */
  ghost predicate Genuine(w: World) {
    forall id, k :: 0 <= k < |History(w, id)| && History(w, id)[k].Some? ==>
      exists p :: p in w.procs && w.procs[p] == Proc(SetSecret(id, History(w, id)[k].value), Done(Stored))
  }

  lemma {:induction false} HistoryIsGenuine(worlds: seq<World>, acts: seq<(nat, Act)>, n: nat)
    requires IsRun(worlds, acts) && n < |worlds|
    ensures Genuine(worlds[n])
  {
    if n > 0 {
      HistoryIsGenuine(worlds, acts, n - 1);
      GenuineKept(worlds[n - 1], acts[n - 1].0, acts[n - 1].1);
    }
  }

  lemma GenuineKept(w: World, p: nat, a: Act)
    requires Genuine(w) && Enabled(w, p, a)
    ensures Genuine(Apply(w, p, a))
  {
    var after := Apply(w, p, a);
    forall id, k | 0 <= k < |History(after, id)| && History(after, id)[k].Some?
      ensures exists q :: q in after.procs && after.procs[q] == Proc(SetSecret(id, History(after, id)[k].value), Done(Stored))
    {
      if k < |History(w, id)| {
        assert History(after, id)[k] == History(w, id)[k];
        var q :| q in w.procs && w.procs[q] == Proc(SetSecret(id, History(w, id)[k].value), Done(Stored));
        assert after.procs[q] == w.procs[q];
      } else {
        assert after.procs[p] == Proc(SetSecret(id, History(after, id)[k].value), Done(Stored));
      }
    }
  }
}
