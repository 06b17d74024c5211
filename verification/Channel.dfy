/** `SecureChannel` (src/channel.rs): counters over a transport, sealing taken symbolically. */
module Channel {
  import opened Wrappers
  import opened Protocol
  import opened Keys
  import opened Redis
  import opened Transport

  const U64_MAX: nat := 0xffff_ffff_ffff_ffff

  // ---------------------------------------------------------------- nonces

  /** The `n` low-order bytes of a counter, most significant first. */
  function BigEndian(counter: nat, n: nat): seq<byte> {
    if n == 0 then [] else BigEndian(counter / 256, n - 1) + [(counter % 256) as byte]
  }

  function FromBigEndian(bytes: seq<byte>): nat {
    if bytes == [] then 0
    else 256 * FromBigEndian(bytes[..|bytes| - 1]) + bytes[|bytes| - 1] as nat
  }

  function Pow256(n: nat): nat { if n == 0 then 1 else 256 * Pow256(n - 1) }

  lemma {:induction false} BigEndianRoundTrip(counter: nat, n: nat)
    requires counter < Pow256(n)
    ensures |BigEndian(counter, n)| == n && FromBigEndian(BigEndian(counter, n)) == counter
  {
    if n > 0 {
      BigEndianRoundTrip(counter / 256, n - 1);
      var bytes := BigEndian(counter, n);
      assert bytes[..|bytes| - 1] == BigEndian(counter / 256, n - 1);
    }
  }

  /** Four zero bytes, then the counter: the 96-bit nonce of section 2.8 of RFC 8439. */
  function Nonce(counter: nat): seq<byte> { [0, 0, 0, 0] + BigEndian(counter, 8) }

  /** No two counters of a channel share a nonce. */
  lemma NoncesDistinct(c: nat, d: nat)
    requires c <= U64_MAX && d <= U64_MAX
    ensures |Nonce(c)| == 12 && (Nonce(c) == Nonce(d) <==> c == d)
  {
    assert Pow256(8) == U64_MAX + 1 by {
      assert Pow256(2) == 0x1_0000;
      assert Pow256(4) == 0x1_0000 * Pow256(2);
      assert Pow256(6) == 0x1_0000 * Pow256(4);
      assert Pow256(8) == 0x1_0000 * Pow256(6);
    }
    BigEndianRoundTrip(c, 8);
    BigEndianRoundTrip(d, 8);
    assert Nonce(c)[4..] == BigEndian(c, 8);
    assert Nonce(d)[4..] == BigEndian(d, 8);
  }

  // ---------------------------------------------------------------- the channel object

  datatype ChannelError = Transport(error: TransportError) | CounterExhausted | Invalid

  class SecureChannel {
    const transport: RedisTransport
    const key: nat
    const sendAad: Aad
    const recvAad: Aad
    var sendCounter: nat
    var recvCounter: nat

    ghost predicate Valid()
      reads this, transport
    {
      transport.Valid() && sendCounter <= U64_MAX && recvCounter <= U64_MAX && sendAad != recvAad
    }

    constructor Client(transport: RedisTransport, key: nat)
      requires transport.Valid()
      ensures Valid() && this.transport == transport && this.key == key
      ensures sendAad == ClientToServer && recvAad == ServerToClient && sendCounter == recvCounter == 0
    {
      this.transport, this.key := transport, key;
      sendAad, recvAad, sendCounter, recvCounter := ClientToServer, ServerToClient, 0, 0;
    }

    constructor Server(transport: RedisTransport, key: nat)
      requires transport.Valid()
      ensures Valid() && this.transport == transport && this.key == key
      ensures sendAad == ServerToClient && recvAad == ClientToServer && sendCounter == recvCounter == 0
    {
      this.transport, this.key := transport, key;
      sendAad, recvAad, sendCounter, recvCounter := ServerToClient, ClientToServer, 0, 0;
    }

    /** Seals under the next counter and places the frame; the counter moves only after the
        frame is placed, and stays at its maximum when it cannot. */
    method Send(value: Plain, length: nat, world: World, wake: Turn) returns (r: Result<(), ChannelError>)
      requires Valid()
      modifies this`sendCounter, transport.redis, transport`wakeQueue
      ensures Valid()
      ensures sendCounter == if r.Ok? then old(sendCounter) + 1 else old(sendCounter)
      ensures length > MAX_FRAME_BYTES ==>
                r == Err(ChannelError.Transport(TooLarge)) && transport.redis.db == old(transport.redis.db)
      ensures length <= MAX_FRAME_BYTES ==>
                var (placed, outcome) := SendLoop(old(transport.redis.db), transport.sendKey, transport.sendReady,
                                                  Sealed(key, sendAad, old(sendCounter), value),
                                                  old(transport.redis.db).now + MESSAGE_TIMEOUT_MS, world, 0);
                match outcome
                case Failed(e) =>
                  r == Err(ChannelError.Transport(e)) && transport.redis.db == placed
                  && transport.wakeQueue == old(transport.wakeQueue)
                case Stored =>
                  var woken := old(transport.wakeQueue).Some?;
                  transport.wakeQueue == None
                  && transport.redis.db == (if !woken then placed
                                         else if wake.fault.LostBefore? then ApplyAll(placed, wake.before)
                                         else PushWake(ApplyAll(placed, wake.before), old(transport.wakeQueue).value,
                                                       transport.sendKey.id))
                  && r == if woken && !wake.fault.NoFault? then Err(ChannelError.Transport(ConnectionLost))
                          else if old(sendCounter) == U64_MAX then Err(CounterExhausted) else Ok(())
    {
      var encrypted := Sealed(key, sendAad, sendCounter, value);
      var sent := transport.SendFrame(encrypted, length, world, wake);
      if sent.Err? {
        return Err(ChannelError.Transport(sent.error));
      }
      if sendCounter == U64_MAX {
        return Err(CounterExhausted);
      }
      sendCounter := sendCounter + 1;
      r := Ok(());
    }

    /** Returns a value only from a frame sealed by the peer under exactly the next counter;
        nothing is acknowledged and the counter does not move. */
    method RecvUnacknowledged(pop: Turn, get: Turn) returns (r: Result<Plain, ChannelError>)
      requires Valid()
      modifies transport.redis, transport`pending, transport`leased
      ensures Valid()
      ensures r.Ok? ==> transport.pending == Some(Sealed(key, recvAad, recvCounter, r.value))
                        && SlotOf(transport.redis.db, transport.recvKey) == transport.pending
      ensures old(transport.pending).Some? ==>
                r == Err(ChannelError.Transport(StillPending)) && transport.redis.db == old(transport.redis.db)
                && transport.pending == old(transport.pending)
      ensures old(transport.pending).None? ==>
                var (db, frame) := Receive(old(transport.redis.db), transport.recvKey, transport.recvReady,
                                           transport.receiveTimeoutSeconds == 0, pop, get);
                transport.redis.db == db
                && r == match frame
                        case Err(e) => Err(ChannelError.Transport(e))
                        case Ok(f) => match OpenFrame(f, key, recvAad, recvCounter)
                                      case None => Err(Invalid)
                                      case Some(value) => Ok(value)
    {
      var encrypted := transport.RecvFrame(pop, get);
      if encrypted.Err? {
        return Err(ChannelError.Transport(encrypted.error));
      }
      var plain := OpenFrame(encrypted.value, key, recvAad, recvCounter);
      r := if plain.Some? then Ok(plain.value) else Err(Invalid);
    }

    /** Deletes the pending frame and only then moves the counter. */
    method Acknowledge(turn: Turn) returns (r: Result<(), ChannelError>)
      requires Valid()
      modifies this`recvCounter, transport.redis, transport`pending, transport`leased
      ensures Valid() && transport.pending == None
      ensures r.Ok? ==> recvCounter == old(recvCounter) + 1
      ensures r.Err? ==> recvCounter == old(recvCounter)
      ensures r == Err(CounterExhausted) ==> old(recvCounter) == U64_MAX
      ensures old(transport.pending).None? ==>
                r == Err(ChannelError.Transport(NothingPending)) && transport.redis.db == old(transport.redis.db)
      ensures old(transport.pending).Some? ==>
                var (db, acked) := Acknowledgement(old(transport.redis.db), transport.recvKey,
                                                   old(transport.pending).value, turn);
                transport.redis.db == db
                && (acked.Ok? <==> r.Ok? || r == Err(CounterExhausted))
    {
      var acked := transport.Acknowledge(turn);
      if acked.Err? {
        return Err(ChannelError.Transport(acked.error));
      }
      if recvCounter == U64_MAX {
        return Err(CounterExhausted);
      }
      recvCounter := recvCounter + 1;
      r := Ok(());
    }

    /** From here on receives wait without a timeout. */
    method WaitIndefinitely()
      requires Valid()
      modifies transport`receiveTimeoutSeconds
      ensures Valid() && transport.receiveTimeoutSeconds == 0
    {
      transport.WaitIndefinitely();
    }

    /** `recv`: receive and acknowledge at once. */
    method Recv(pop: Turn, get: Turn, turn: Turn) returns (r: Result<Plain, ChannelError>)
      requires Valid()
      modifies this`recvCounter, transport.redis, transport`pending, transport`leased
      ensures Valid()
      ensures r.Ok? ==> recvCounter == old(recvCounter) + 1 && transport.pending == None
                        && SlotOf(transport.redis.db, transport.recvKey) != Some(Sealed(key, recvAad, old(recvCounter), r.value))
      ensures r.Err? ==> recvCounter == old(recvCounter)
    {
      var value := RecvUnacknowledged(pop, get);
      if value.Err? {
        return value;
      }
      var acked := Acknowledge(turn);
      if acked.Err? {
        return Err(acked.error);
      }
      r := value;
    }
  }

  // ---------------------------------------------------------------- callers that go on after an error

  /** One call of `send` and whether it succeeded. */
  datatype Attempt = Attempt(value: Plain, ok: bool)

  function NextCounter(counter: nat, a: Attempt): nat { if a.ok then counter + 1 else counter }

  /** What successive calls seal: each under the counter the calls before it have left. */
  function SealedBy(key: nat, aad: Aad, counter: nat, attempts: seq<Attempt>): (frames: seq<Frame>)
    ensures |frames| == |attempts| && forall i :: 0 <= i < |frames| ==> frames[i].Sealed?
    decreases |attempts|
  {
    if attempts == [] then []
    else [Sealed(key, aad, counter, attempts[0].value)] + SealedBy(key, aad, NextCounter(counter, attempts[0]), attempts[1..])
  }

  /** No call succeeds with the counter at its maximum. */
  predicate Countable(counter: nat, attempts: seq<Attempt>)
    decreases |attempts|
  {
    attempts == []
    || (counter <= U64_MAX && (attempts[0].ok ==> counter < U64_MAX) && Countable(NextCounter(counter, attempts[0]), attempts[1..]))
  }

  lemma {:induction false} CountersFromHere(key: nat, aad: Aad, counter: nat, attempts: seq<Attempt>, j: nat)
    requires j < |attempts|
    ensures var c := SealedBy(key, aad, counter, attempts)[j].counter;
            c >= counter && (attempts[0].ok && j > 0 ==> c > counter)
    decreases |attempts|
  {
    if j > 0 {
      CountersFromHere(key, aad, NextCounter(counter, attempts[0]), attempts[1..], j - 1);
    }
  }

  ghost predicate CountersDistinct(frames: seq<Frame>)
    requires forall i :: 0 <= i < |frames| ==> frames[i].Sealed?
  {
    forall i, j :: 0 <= i < j < |frames| ==> frames[i].counter != frames[j].counter
  }

  /** Nobody sends again after a failed send. */
  predicate StopsAtFailure(attempts: seq<Attempt>) { forall i :: 0 <= i < |attempts| - 1 ==> attempts[i].ok }

  lemma FirstAndRest(key: nat, aad: Aad, counter: nat, attempts: seq<Attempt>)
    requires |attempts| > 1
    ensures var frames, rest := SealedBy(key, aad, counter, attempts), SealedBy(key, aad, NextCounter(counter, attempts[0]), attempts[1..]);
            frames[1..] == rest
            && (CountersDistinct(frames) <==> attempts[0].ok && CountersDistinct(rest))
  {
    var frames, rest := SealedBy(key, aad, counter, attempts), SealedBy(key, aad, NextCounter(counter, attempts[0]), attempts[1..]);
    assert frames[1..] == rest;
    assert frames[0].counter == counter && frames[1].counter == NextCounter(counter, attempts[0]);
    forall j | 1 <= j < |frames| ensures attempts[0].ok ==> frames[j].counter > counter {
      CountersFromHere(key, aad, counter, attempts, j);
    }
    if CountersDistinct(frames) {
      assert frames[0].counter != frames[1].counter;
      forall i, j | 0 <= i < j < |rest| ensures rest[i].counter != rest[j].counter {
        assert frames[i + 1] == rest[i] && frames[j + 1] == rest[j];
      }
    }
    if attempts[0].ok && CountersDistinct(rest) {
      forall i, j | 0 <= i < j < |frames| ensures frames[i].counter != frames[j].counter {
        if i > 0 {
          assert frames[i] == rest[i - 1] && frames[j] == rest[j - 1];
        }
      }
    }
  }

  /** Why the callers must stop at the first error: no two values are sealed under one counter,
      and so under one nonce, exactly when nobody sends again after a failed send. */
  lemma {:induction false} CountersDistinctExactly(key: nat, aad: Aad, counter: nat, attempts: seq<Attempt>)
    requires Countable(counter, attempts)
    ensures CountersDistinct(SealedBy(key, aad, counter, attempts)) <==> StopsAtFailure(attempts)
    decreases |attempts|
  {
    if |attempts| > 1 {
      FirstAndRest(key, aad, counter, attempts);
      CountersDistinctExactly(key, aad, NextCounter(counter, attempts[0]), attempts[1..]);
      var rest := attempts[1..];
      assert StopsAtFailure(attempts) <==> attempts[0].ok && StopsAtFailure(rest) by {
        assert forall i :: 0 <= i < |rest| ==> rest[i] == attempts[i + 1];
        if StopsAtFailure(attempts) {
          assert attempts[0].ok;
        }
        if attempts[0].ok && StopsAtFailure(rest) {
          forall i | 0 <= i < |attempts| - 1 ensures attempts[i].ok {
            assert i > 0 ==> rest[i - 1].ok;
          }
        }
      }
    }
  }

  /** A send that finds its slot free places its frame, even if its reply is lost. */
  lemma FreeSlotTakes(db: Db, host: string, id: string, frame: Frame, world: World)
    requires Bounded(db) && Message(host, ToHost, id) !in db.data
    requires world(0).before == [] && !world(0).fault.LostBefore?
    ensures var slot := Message(host, ToHost, id);
            var (after, outcome) := SendLoop(db, slot, Ready(host, ToHost, id), frame, db.now + MESSAGE_TIMEOUT_MS, world, 0);
            after == Redis.Apply(db, Send(host, ToHost, id, frame)) && Bounded(after) && SlotOf(after, slot) == Some(frame)
            && after.data[slot].expires == Some(db.now + MESSAGE_TTL_MS)
            && outcome == if world(0).fault.LostAfter? then Failed(ConnectionLost) else Stored
  {
    var ready := Ready(host, ToHost, id);
    assert ready in db.data ==> Typed(db, ready);
    ActionKeepsBounded(db, Send(host, ToHost, id, frame));
  }

  /** How a frame leaves its slot: acknowledged, or expired. */
  function Frees(host: string, id: string, frame: Frame, acked: bool): Action {
    if acked then Ack(host, ToHost, id, frame) else Elapse(MESSAGE_TTL_MS)
  }

  lemma FrameGoes(db: Db, host: string, id: string, frame: Frame, acked: bool)
    requires Bounded(db) && SlotOf(db, Message(host, ToHost, id)) == Some(frame)
    ensures var after := ApplyAll(db, [Frees(host, id, frame, acked)]);
            Bounded(after) && Message(host, ToHost, id) !in after.data
  {
    var a := Frees(host, id, frame, acked);
    assert Timed(db, Message(host, ToHost, id));
    ApplyOne(db, a);
    ActionKeepsBounded(db, a);
  }

  lemma FirstPlaced(db: Db, frame: Frame, acked: bool, lost: World, host: string, id: string)
    requires Bounded(db) && Message(host, ToHost, id) !in db.data && lost(0) == Turn([], LostAfter, [])
    ensures var slot := Message(host, ToHost, id);
            var (after, outcome) := SendLoop(db, slot, Ready(host, ToHost, id), frame, db.now + MESSAGE_TIMEOUT_MS, lost, 0);
            var later := ApplyAll(after, [Frees(host, id, frame, acked)]);
            outcome == Failed(ConnectionLost) && SlotOf(after, slot) == Some(frame)
            && Bounded(later) && slot !in later.data
  {
    FreeSlotTakes(db, host, id, frame, lost);
    FrameGoes(Redis.Apply(db, Send(host, ToHost, id, frame)), host, id, frame, acked);
  }

  /** And two such frames really reach Redis: the reply to the first send is lost after its frame
      was placed; once that frame is `acked` or has expired the next value is placed under the same
      counter. */
  lemma FailedSendRepeatsCounter(db: Db, key: nat, counter: nat, first: Plain, second: Plain, acked: bool,
                                 lost: World, calm: World, host: string, id: string)
    requires Bounded(db) && Message(host, ToHost, id) !in db.data
    requires lost(0) == Turn([], LostAfter, []) && calm(0) == Turn([], NoFault, [])
    ensures var slot, ready := Message(host, ToHost, id), Ready(host, ToHost, id);
            var frames := SealedBy(key, ClientToServer, counter, [Attempt(first, false), Attempt(second, true)]);
            var f1, f2 := frames[0], frames[1];
            var (db1, outcome1) := SendLoop(db, slot, ready, f1, db.now + MESSAGE_TIMEOUT_MS, lost, 0);
            var later := ApplyAll(db1, [Frees(host, id, f1, acked)]);
            var (db2, outcome2) := SendLoop(later, slot, ready, f2, later.now + MESSAGE_TIMEOUT_MS, calm, 0);
            outcome1 == Failed(ConnectionLost) && SlotOf(db1, slot) == Some(f1)
            && outcome2 == Stored && SlotOf(db2, slot) == Some(f2)
            && f1 == Sealed(key, ClientToServer, counter, first) && f2 == Sealed(key, ClientToServer, counter, second)
  {
    var attempts := [Attempt(first, false), Attempt(second, true)];
    assert attempts[1..] == [Attempt(second, true)];
    var frames := SealedBy(key, ClientToServer, counter, attempts);
    FirstPlaced(db, frames[0], acked, lost, host, id);
    var placed := SendLoop(db, Message(host, ToHost, id), Ready(host, ToHost, id), frames[0], db.now + MESSAGE_TIMEOUT_MS, lost, 0).0;
    FreeSlotTakes(ApplyAll(placed, [Frees(host, id, frames[0], acked)]), host, id, frames[1], calm);
  }
}
