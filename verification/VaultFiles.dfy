/** The file operations of one process (src/credential_store.rs:206-301), one after the other,
    while any other processes act in between and any operation may fail. Each operation is a step
    of the machine in Vault, so what is proved there of all runs holds here. */
module VaultFiles {
  import opened Wrappers
  import opened Vault

  /** What happens before our next operation: others act, and then it may fail; `removed` says
      whether a temporary file could be removed afterwards. */
  datatype Turn = Turn(others: seq<(nat, Act)>, fault: bool, removed: bool)

  /** `NameTaken`: a random temporary name was already in use. */
  datatype FileError = Io | NameTaken

  ghost predicate KeyStays(w: World, after: World) {
    TheKey in w.disk.names ==> TheKey in after.disk.names && ReadKey(after.disk) == ReadKey(w.disk)
  }

  ghost predicate Reachable(w: World) {
    exists worlds, acts :: IsRun(worlds, acts) && worlds[|acts|] == w
  }

  lemma ReachableNext(w: World, p: nat, a: Act)
    requires Reachable(w) && Enabled(w, p, a)
    ensures Reachable(Apply(w, p, a)) && KeyStays(w, Apply(w, p, a))
  {
    var worlds, acts :| IsRun(worlds, acts) && worlds[|acts|] == w;
    var longer, more := worlds + [Apply(w, p, a)], acts + [(p, a)];
    assert IsRun(longer, more);
    assert longer[|more|] == Apply(w, p, a);
    ReachableInv(w);
    if TheKey in w.disk.names {
      LinkedKeyKept(w, p, a);
    }
  }

  lemma ReachableInv(w: World)
    requires Reachable(w)
    ensures Inv(w)
  {
    var worlds, acts :| IsRun(worlds, acts) && worlds[|acts|] == w;
    RunKeepsInv(worlds, acts, |acts|);
  }

  /** A linked key is readable, and is the key in everybody's hands. */
  lemma KeyMeans(w: World)
    requires Reachable(w)
    ensures TheKey in w.disk.names ==> Private(w.disk, TheKey) && ReadKey(w.disk).Some?
    ensures forall p :: p in w.procs && KeyInHand(w.procs[p].pc).Some? ==>
              TheKey in w.disk.names && ReadKey(w.disk) == KeyInHand(w.procs[p].pc)
  {
    ReachableInv(w);
  }

  /** An entry is readable, and holds what was last put there. */
  lemma EntryMeans(w: World, id: Identity)
    requires Reachable(w)
    ensures SecretOf(id) in w.disk.names <==> Latest(w, id).Some?
    ensures SecretOf(id) in w.disk.names ==> Private(w.disk, SecretOf(id)) && TheKey in w.disk.names
    ensures ReadKey(w.disk).Some? ==> ReadSecret(w.disk, id, ReadKey(w.disk).value) == Latest(w, id)
  {
    ReachableInv(w);
    assert EntryOk(w, id);
  }

  /** A temporary file is still there for its maker. */
  lemma TempMeans(w: World, p: nat)
    requires Reachable(w) && p in w.procs && Builds(w.procs[p].pc)
    ensures TempName(w.procs[p].pc) in w.disk.names && w.procs[p].pc.inode in w.disk.files
  {
    ReachableInv(w);
    assert Building(w, p);
  }

  class Process {
    var world: World
    var now: nat
    const me: nat
    const env: nat -> Turn

    constructor (w: World, p: nat, schedule: nat -> Turn)
      ensures world == w && me == p && env == schedule && now == 0
    {
      world, me, env, now := w, p, schedule, 0;
    }

    ghost predicate Quiet(from: nat, to: nat)
      reads this
    {
      forall t :: from <= t < to ==> !env(t).fault
    }

    function Pc(): Pc
      requires me in world.procs
      reads this
    {
      world.procs[me].pc
    }

    /** Others act; they never touch the linked key or what this process is doing. */
    method Pause() returns (fault: bool)
      requires Reachable(world)
      modifies this`world, this`now
      ensures Reachable(world) && KeyStays(old(world), world) && now == old(now) + 1 && fault == env(old(now)).fault
      ensures me in world.procs <==> me in old(world).procs
      ensures me in world.procs ==> world.procs[me] == old(world).procs[me]
    {
      var others := env(now).others;
      fault := env(now).fault;
      now := now + 1;
      for i := 0 to |others|
        invariant Reachable(world) && KeyStays(old(world), world) && now == old(now) + 1
        invariant me in world.procs <==> me in old(world).procs
        invariant me in world.procs ==> world.procs[me] == old(world).procs[me]
      {
        var (q, a) := others[i];
        if q != me && Enabled(world, q, a) {
          Perform(q, a);
        }
      }
    }

    /** One file operation. */
    method Perform(p: nat, a: Act)
      requires Reachable(world) && Enabled(world, p, a)
      modifies this`world
      ensures world == Apply(old(world), p, a) && Reachable(world) && KeyStays(old(world), world)
    {
      ReachableNext(world, p, a);
      world := Apply(world, p, a);
    }

    /** `load_file_key`: the linked key; without a file error it fails only when there is none. */
    method LoadFileKey(ghost own: Option<nat>) returns (r: Result<Key, FileError>)
      requires Reachable(world) && me in world.procs
      requires Pc() == Loading(own, false)
               || (Pc().Begin? && own.None? && (world.procs[me].goal.LoadKey? || world.procs[me].goal.GetSecret?))
      modifies this`world, this`now
      ensures Reachable(world) && KeyStays(old(world), world) && now > old(now)
      ensures me in world.procs && world.procs[me].goal == old(world).procs[me].goal
      ensures Pc() == Settled(own, if r.Ok? then Some(r.value) else None)
      ensures r.Ok? ==> ReadKey(world.disk) == Some(r.value)
      ensures r.Err? && Quiet(old(now), now) ==> TheKey !in world.disk.names
    {
      var fault := Pause();
      if fault {
        Perform(me, Fail(false));
        return Err(Io);
      }
      KeyMeans(world);
      Perform(me, CheckKey);
      if !Pc().Loading? {
        return Err(Io);
      }
      fault := Pause();
      if fault {
        Perform(me, Fail(false));
        return Err(Io);
      }
      KeyMeans(world);
      Perform(me, LoadTheKey);
      r := Ok(ReadKey(world.disk).value);
    }

    /** `load_or_create_file_key`: whatever others do meanwhile, the key returned is the one the
        key file holds, now and from then on; without a file error or a temporary name in use it
        always succeeds. */
    method LoadOrCreateFileKey(key: Key, temp: nat) returns (r: Result<Key, FileError>)
      requires Reachable(world) && me in world.procs && Pc().Begin? && |key| == KEY_BYTES
      requires world.procs[me].goal.ObtainKey? || world.procs[me].goal.SetSecret?
      modifies this`world, this`now
      ensures Reachable(world) && KeyStays(old(world), world) && now > old(now)
      ensures me in world.procs && world.procs[me].goal == old(world).procs[me].goal
      ensures Pc() == Settled(None, if r.Ok? then Some(r.value) else None)
      ensures r.Ok? ==> ReadKey(world.disk) == Some(r.value)
      ensures Quiet(old(now), now) ==> r.Ok? || r == Err(NameTaken)
    {
      var fault := Pause();
      if fault {
        Perform(me, Fail(false));
        return Err(Io);
      }
      Perform(me, CheckExists);
      if Pc().Loading? {
        r := LoadFileKey(None);
        return;
      }
      r := CreateTemp(key, temp);
      if r.Ok? {
        r := LinkTemp(key, temp);
        if Pc().Tidying? {
          TidyTemp();
        }
      }
    }

    /** Creates and writes the temporary key file. */
    method CreateTemp(key: Key, temp: nat) returns (r: Result<Key, FileError>)
      requires Reachable(world) && me in world.procs && Pc().Absent? && |key| == KEY_BYTES
      modifies this`world, this`now
      ensures Reachable(world) && KeyStays(old(world), world) && now > old(now)
      ensures me in world.procs && world.procs[me].goal == old(world).procs[me].goal
      ensures r.Ok? ==> Pc().KeyWritten? && Pc().temp == temp && Pc().key == key
      ensures r.Err? ==> Pc() == Done(Failed)
      ensures Quiet(old(now), now) ==> r.Ok? || r == Err(NameTaken)
    {
      var fault := Pause();
      if fault {
        Perform(me, Fail(false));
        return Err(Io);
      }
      Perform(me, CreateKeyTemp(temp, key));
      if !Pc().KeyCreated? {
        return Err(NameTaken);
      }
      fault := Pause();
      TempMeans(world, me);
      if fault {
        Perform(me, Fail(false));
        return Err(Io);
      }
      Perform(me, WriteKeyTemp);
      r := Ok(key);
    }

    /** Links it, or loads the key somebody else has linked. */
    method LinkTemp(key: Key, temp: nat) returns (r: Result<Key, FileError>)
      requires Reachable(world) && me in world.procs && Pc().KeyWritten? && Pc().temp == temp && Pc().key == key
      modifies this`world, this`now
      ensures Reachable(world) && KeyStays(old(world), world) && now > old(now)
      ensures me in world.procs && world.procs[me].goal == old(world).procs[me].goal
      ensures Pc() == (if r.Ok? || Pc().Tidying? then Tidying(temp, if r.Ok? then Some(r.value) else None) else Done(Failed))
      ensures r.Ok? ==> ReadKey(world.disk) == Some(r.value)
      ensures Quiet(old(now), now) ==> r.Ok?
    {
      var fault := Pause();
      TempMeans(world, me);
      if fault {
        Perform(me, Fail(env(now - 1).removed));
        return Err(Io);
      }
      Perform(me, LinkKey);
      if Pc().Loading? {
        r := LoadFileKey(Some(temp));
      } else {
        r := Ok(key);
        assert KeyInHand(Pc()) == Some(key);
        KeyMeans(world);
      }
    }

    /** Removes it, if that is possible; a failure is ignored. */
    method TidyTemp()
      requires Reachable(world) && me in world.procs && Pc().Tidying?
      modifies this`world, this`now
      ensures Reachable(world) && KeyStays(old(world), world) && now > old(now)
      ensures me in world.procs && world.procs[me].goal == old(world).procs[me].goal
      ensures Pc() == Settled(None, old(Pc()).loaded)
    {
      var fault := Pause();
      Perform(me, Tidy(!fault));
    }

    /** `write_private_replace`, for an envelope: first the temporary file, then the rename. */
    method WriteEntry(id: Identity, secret: Secret, key: Key, temp: nat) returns (r: Result<(), FileError>)
      requires Reachable(world) && me in world.procs && world.procs[me] == Proc(Goal.SetSecret(id, secret), HaveKey(key))
      modifies this`world, this`now
      ensures Reachable(world) && KeyStays(old(world), world) && now > old(now)
      ensures me in world.procs && world.procs[me] == Proc(Goal.SetSecret(id, secret), Done(if r.Ok? then Stored else Failed))
      ensures r.Ok? ==> Latest(world, id) == Some(secret) && SecretOf(id) in world.disk.names
      ensures Quiet(old(now), now) ==> r.Ok? || r == Err(NameTaken)
    {
      r := StageEntry(id, secret, key, temp);
      if r.Ok? {
        var fault := Pause();
        TempMeans(world, me);
        if fault {
          Perform(me, Fail(env(now - 1).removed));
          return Err(Io);
        }
        Perform(me, Publish);
      }
    }

    method StageEntry(id: Identity, secret: Secret, key: Key, temp: nat) returns (r: Result<(), FileError>)
      requires Reachable(world) && me in world.procs && world.procs[me] == Proc(Goal.SetSecret(id, secret), HaveKey(key))
      modifies this`world, this`now
      ensures Reachable(world) && KeyStays(old(world), world) && now > old(now)
      ensures me in world.procs && world.procs[me].goal == Goal.SetSecret(id, secret)
      ensures if r.Ok? then Pc().EnvelopeWritten? else Pc() == Done(Failed)
      ensures Quiet(old(now), now) ==> r.Ok? || r == Err(NameTaken)
    {
      var fault := Pause();
      if fault || SecretTemp(temp) in world.disk.names {
        Perform(me, Fail(false));
        return Err(if fault then Io else NameTaken);
      }
      Perform(me, CreateEnvelope(temp));
      fault := Pause();
      TempMeans(world, me);
      if fault {
        Perform(me, Fail(env(now - 1).removed));
        return Err(Io);
      }
      Perform(me, WriteEnvelope);
      r := Ok(());
    }

    /** `FileEntry::set_secret`. On success the entry reads back as exactly `secret`; otherwise
        this process ends failed, and what entries hold comes from processes that end stored. */
    method SetSecret(id: Identity, secret: Secret, key: Key, keyTemp: nat, temp: nat) returns (r: Result<(), FileError>)
      requires Reachable(world) && me !in world.procs && |key| == KEY_BYTES
      modifies this`world, this`now
      ensures Reachable(world) && KeyStays(old(world), world) && now > old(now)
      ensures r.Ok? ==>
                Latest(world, id) == Some(secret) && ReadKey(world.disk).Some?
                && ReadSecret(world.disk, id, ReadKey(world.disk).value) == Some(secret)
      ensures me in world.procs && world.procs[me] == Proc(Goal.SetSecret(id, secret), Done(if r.Ok? then Stored else Failed))
      ensures Quiet(old(now), now) ==> r.Ok? || r == Err(NameTaken)
    {
      Perform(me, Arrive(Goal.SetSecret(id, secret)));
      var obtained := LoadOrCreateFileKey(key, keyTemp);
      if obtained.Err? {
        return Err(obtained.error);
      }
      r := WriteEntry(id, secret, obtained.value, temp);
      EntryMeans(world, id);
      KeyMeans(world);
    }

    /** `check_private_permissions` of an entry: refuses only what is not there. */
    method CheckEntryFile(id: Identity, key: Key) returns (ok: bool)
      requires Reachable(world) && me in world.procs && world.procs[me] == Proc(Goal.GetSecret(id), HaveKey(key))
      modifies this`world, this`now
      ensures Reachable(world) && KeyStays(old(world), world) && now > old(now)
      ensures me in world.procs && (ok ==> world.procs[me] == Proc(Goal.GetSecret(id), SecretChecked(key)))
      ensures !ok && Quiet(old(now), now) ==> Latest(world, id).None?
    {
      var fault := Pause();
      if fault {
        Perform(me, Fail(false));
        return false;
      }
      EntryMeans(world, id);
      Perform(me, CheckEntry);
      ok := Pc().SecretChecked?;
    }

    /** Reads and opens an entry. */
    method ReadEntry(id: Identity, key: Key) returns (r: Option<Secret>)
      requires Reachable(world) && me in world.procs && world.procs[me] == Proc(Goal.GetSecret(id), SecretChecked(key))
      modifies this`world, this`now
      ensures Reachable(world) && KeyStays(old(world), world) && now > old(now)
      ensures r.Some? || Quiet(old(now), now) ==> r == Latest(world, id)
    {
      var fault := Pause();
      if fault {
        Perform(me, Fail(false));
        return None;
      }
      r := OpenEntry(id, key);
    }

    method OpenEntry(id: Identity, key: Key) returns (r: Option<Secret>)
      requires Reachable(world) && me in world.procs && world.procs[me] == Proc(Goal.GetSecret(id), SecretChecked(key))
      modifies this`world
      ensures Reachable(world) && KeyStays(old(world), world) && r == Latest(world, id)
    {
      assert KeyInHand(Pc()).Some?;
      KeyMeans(world);
      EntryMeans(world, id);
      Perform(me, LoadEntry);
      r := if Pc() == Done(Failed) then None else Some(Pc().outcome.secret);
    }

    /** `FileEntry::get_secret`: exactly what was last put there, or an error when nothing is. */
    method GetSecret(id: Identity) returns (r: Option<Secret>)
      requires Reachable(world) && me !in world.procs
      modifies this`world, this`now
      ensures Reachable(world) && KeyStays(old(world), world) && now > old(now)
      ensures r.Some? || Quiet(old(now), now) ==> r == Latest(world, id)
    {
      Perform(me, Arrive(Goal.GetSecret(id)));
      var key := LoadFileKey(None);
      r := None;
      if key.Ok? {
        var checked := CheckEntryFile(id, key.value);
        if checked {
          r := ReadEntry(id, key.value);
        }
      } else {
        EntryMeans(world, id);
      }
    }

    /** `FileEntry::delete_credential`: succeeds exactly when there was an entry. */
    method DeleteCredential(id: Identity) returns (ok: bool)
      requires Reachable(world) && me !in world.procs
      modifies this`world, this`now
      ensures Reachable(world) && KeyStays(old(world), world)
      ensures ok ==> Latest(world, id).None?
      ensures Quiet(old(now), now) ==> Latest(world, id).None?
    {
      Perform(me, Arrive(DeleteSecret(id)));
      var fault := Pause();
      if fault {
        Perform(me, Fail(false));
        return false;
      }
      ok := RemoveFile(id);
    }

    method RemoveFile(id: Identity) returns (ok: bool)
      requires Reachable(world) && me in world.procs && world.procs[me] == Proc(DeleteSecret(id), Begin)
      modifies this`world
      ensures Reachable(world) && KeyStays(old(world), world)
      ensures ok <==> Latest(old(world), id).Some?
      ensures Latest(world, id).None?
    {
      EntryMeans(world, id);
      Perform(me, RemoveEntry);
      ok := Pc() == Done(Deleted);
    }
  }
}
