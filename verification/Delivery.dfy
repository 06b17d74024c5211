/** Delivery over one direction of a channel, in every interleaving of a sender, a receiver and
    a store that may lose, replay or invent anything it cannot forge (src/channel.rs:71-121). */
module Delivery {
  import opened Wrappers
  import opened Protocol
  import opened Mailbox
  import opened Channel

  /** `placed`: the frame is in Redis, `send_counter` has not moved yet. */
  datatype Sender = Sender(alive: bool, counter: nat, placed: bool)

  datatype Phase = Ready | Popped | Held(frame: Frame, value: Plain) | Cleared

  datatype Receiver = Receiver(alive: bool, counter: nat, phase: Phase)

  /** The fields after `receiver` are history: frames sealed, values whose frames were placed,
      values handed to the caller, values acknowledged. */
  datatype Lane = Lane(
    key: nat, aad: Aad, sender: Sender, box: Box, receiver: Receiver,
    seals: seq<Frame>, sent: seq<Plain>, delivered: seq<Plain>, accepted: seq<Plain>)

  datatype Step =
    | SendPlace(value: Plain) | SendAdvance | SendFails(value: Plain) | SenderStops
    | Pop | Get | Ack | RecvAdvance | ReceiverStops
    | Store(box: Box)

  function Seal(l: Lane, value: Plain): Frame { Sealed(l.key, l.aad, l.sender.counter, value) }

  /** A frame under this key and direction exists only if the sender placed it. */
  predicate Unforged(l: Lane, f: Frame) {
    f.Sealed? && f.key == l.key && f.aad == l.aad ==> f.counter < |l.sent| && f.plain == l.sent[f.counter]
  }

  /** The caller of a failing operation gives up: both endpoints are fail-stop. */
  predicate Enabled(l: Lane, s: Step) {
    match s
    case SendPlace(_) => l.sender.alive && !l.sender.placed && l.box.slot.None?
    case SendAdvance => l.sender.alive && l.sender.placed
    case SendFails(_) => l.sender.alive && !l.sender.placed
    case SenderStops => l.sender.alive
    case Pop => l.receiver.alive && l.receiver.phase.Ready? && l.box.tokens > 0
    case Get => l.receiver.alive && l.receiver.phase.Popped?
    case Ack => l.receiver.alive && l.receiver.phase.Held?
    case RecvAdvance => l.receiver.alive && l.receiver.phase.Cleared?
    case ReceiverStops => l.receiver.alive
    case Store(box) => box.slot.Some? ==> Unforged(l, box.slot.value)
  }

  function StopReceiver(l: Lane): Lane { l.(receiver := l.receiver.(alive := false)) }

  function Apply(l: Lane, s: Step): Lane
    requires Enabled(l, s)
  {
    match s
    case SendPlace(value) =>
      l.(box := Place(l.box, Seal(l, value)), sender := l.sender.(placed := true),
         seals := l.seals + [Seal(l, value)], sent := l.sent + [value])
    case SendAdvance =>
      if l.sender.counter == U64_MAX then l.(sender := l.sender.(alive := false))
      else l.(sender := l.sender.(counter := l.sender.counter + 1, placed := false))
    case SendFails(value) => l.(sender := l.sender.(alive := false), seals := l.seals + [Seal(l, value)])
    case SenderStops => l.(sender := l.sender.(alive := false))
    case Pop => l.(box := TakeToken(l.box), receiver := l.receiver.(phase := Popped))
    case Get =>
      (match l.box.slot
       case None => StopReceiver(l)
       case Some(f) =>
         match OpenFrame(f, l.key, l.aad, l.receiver.counter)
         case None => StopReceiver(l)
         case Some(value) => l.(receiver := l.receiver.(phase := Held(f, value)), delivered := l.delivered + [value]))
    case Ack =>
      var f, value := l.receiver.phase.frame, l.receiver.phase.value;
      if l.box.slot == Some(f)
      then l.(box := Clear(l.box, f), receiver := l.receiver.(phase := Cleared), accepted := l.accepted + [value])
      else StopReceiver(l)
    case RecvAdvance =>
      if l.receiver.counter == U64_MAX then StopReceiver(l)
      else l.(receiver := l.receiver.(counter := l.receiver.counter + 1, phase := Ready))
    case ReceiverStops => StopReceiver(l)
    case Store(box) => l.(box := box)
  }

  predicate Init(l: Lane) {
    l.sender == Sender(true, 0, false) && l.receiver == Receiver(true, 0, Ready)
    && l.sent == l.delivered == l.accepted == [] && l.seals == []
    && (l.box.slot.Some? ==> Unforged(l, l.box.slot.value))
  }

  /** Frame number `i` was sealed under counter `i`; only the last may never have been placed. */
  ghost predicate SealInv(l: Lane) {
    l.sender.counter <= U64_MAX
    && |l.sent| <= |l.seals| <= |l.sent| + (if l.sender.alive then 0 else 1)
    && (forall i :: 0 <= i < |l.seals| ==> l.seals[i].Sealed? && l.seals[i] == Sealed(l.key, l.aad, i, l.seals[i].plain))
    && (forall i :: 0 <= i < |l.sent| ==> l.seals[i].plain == l.sent[i])
    && |l.seals| <= l.sender.counter + 1
  }

  lemma StepKeepsSeals(l: Lane, s: Step)
    requires Inv(l) && SealInv(l) && Enabled(l, s)
    ensures SealInv(Apply(l, s))
  {
  }

  predicate Inv(l: Lane) {
    |l.sent| == l.sender.counter + (if l.sender.placed then 1 else 0)
    && (l.box.slot.Some? ==> Unforged(l, l.box.slot.value))
    && |l.accepted| == l.receiver.counter + (if l.receiver.phase.Cleared? then 1 else 0)
    && |l.delivered| == |l.accepted| + (if l.receiver.phase.Held? then 1 else 0)
    && l.accepted <= l.delivered <= l.sent
    && (l.receiver.phase.Held? ==> l.delivered == l.accepted + [l.receiver.phase.value])
  }

  lemma StepKeepsInv(l: Lane, s: Step)
    requires Inv(l) && Enabled(l, s)
    ensures Inv(Apply(l, s))
  {
  }

  /** A run: `steps[i]` leads from `lanes[i]` to `lanes[i + 1]`. */
  ghost predicate IsRun(lanes: seq<Lane>, steps: seq<Step>) {
    |lanes| == |steps| + 1 && Init(lanes[0])
    && forall i {:trigger steps[i]} :: 0 <= i < |steps| ==> Enabled(lanes[i], steps[i]) && lanes[i + 1] == Apply(lanes[i], steps[i])
  }

  lemma {:induction false} RunKeepsInv(lanes: seq<Lane>, steps: seq<Step>, n: nat)
    requires IsRun(lanes, steps) && n < |lanes|
    ensures Inv(lanes[n]) && SealInv(lanes[n])
  {
    if n > 0 {
      RunKeepsInv(lanes, steps, n - 1);
      StepKeepsInv(lanes[n - 1], steps[n - 1]);
      StepKeepsSeals(lanes[n - 1], steps[n - 1]);
    }
  }

  /** In every run, whatever the store does, the values handed to the receiving caller and the
      values acknowledged are prefixes of the values whose frames the sender placed: no gap, no
      duplicate, no reordering; at most one value is handed out and not yet acknowledged. */
  lemma ReceivedIsPrefixOfPlaced(lanes: seq<Lane>, steps: seq<Step>, n: nat)
    requires IsRun(lanes, steps) && n < |lanes|
    ensures var l := lanes[n];
            l.accepted <= l.delivered <= l.sent && |l.delivered| <= |l.accepted| + 1
  {
    RunKeepsInv(lanes, steps, n);
  }

  /** In every run no two values are ever sealed under one key, direction and counter, and so
      none under one nonce: not even the value of a send that failed before it was placed. */
  lemma NoCounterReused(lanes: seq<Lane>, steps: seq<Step>, n: nat, i: nat, j: nat)
    requires IsRun(lanes, steps) && n < |lanes| && i < j < |lanes[n].seals|
    ensures var f, g := lanes[n].seals[i], lanes[n].seals[j];
            f.Sealed? && g.Sealed? && f.key == g.key == lanes[n].key && f.aad == g.aad == lanes[n].aad
            && f.counter != g.counter && Nonce(f.counter) != Nonce(g.counter)
  {
    RunKeepsInv(lanes, steps, n);
    NoncesDistinct(i, j);
  }

  /** Prefixes only grow along a run. */
  lemma {:induction false} HistoryGrows(lanes: seq<Lane>, steps: seq<Step>, m: nat, n: nat)
    requires IsRun(lanes, steps) && m <= n < |lanes|
    ensures lanes[m].sent <= lanes[n].sent && lanes[m].accepted <= lanes[n].accepted
    ensures lanes[m].delivered <= lanes[n].delivered
    decreases n - m
  {
    if m < n {
      HistoryGrows(lanes, steps, m, n - 1);
      assert lanes[n] == Apply(lanes[n - 1], steps[n - 1]);
    }
  }

  // ---------------------------------------------------------------- the raw transport

  /** The transport without counters, and without anybody stopping at an error. Frames are
      distinct and are named by the order in which they were placed. `lost` is history: the frame
      whose acknowledgement last failed before it took effect. */
  datatype Raw = Raw(
    placed: nat, slot: Option<nat>, tokens: nat, popped: bool, pending: Option<nat>, got: seq<nat>, lost: Option<nat>)

  /** A command whose reply is lost may have taken effect, like RawAck, or not, like RawAckLost. */
  datatype RawStep =
    | RawPlace
    | RawPop | RawPopLost
    | RawGet | RawGetLost
    | RawAck | RawAckLost
    | RawFade(slotGone: bool, tokensGone: bool)

  predicate RawEnabled(r: Raw, s: RawStep) {
    match s
    case RawPlace => r.slot.None?
    case RawPop => r.tokens > 0 && !r.popped && r.pending.None?
    case RawPopLost => r.tokens > 0 && !r.popped && r.pending.None?
    case RawGet => r.popped
    case RawGetLost => r.popped
    case RawAck => r.pending.Some?
    case RawAckLost => r.pending.Some?
    case RawFade(_, _) => true
  }

  function RawApply(r: Raw, s: RawStep): Raw
    requires RawEnabled(r, s)
  {
    match s
    case RawPlace => r.(placed := r.placed + 1, slot := Some(r.placed), tokens := r.tokens + 1)
    case RawPop => r.(tokens := r.tokens - 1, popped := true)
    case RawPopLost => r.(tokens := r.tokens - 1)
    case RawGet =>
      if r.slot.None? then r.(popped := false)
      else r.(popped := false, pending := r.slot, got := r.got + [r.slot.value])
    case RawGetLost => r.(popped := false)
    case RawAck => r.(pending := None, slot := if r.slot == r.pending then None else r.slot)
    case RawAckLost => r.(pending := None, lost := r.pending)
    case RawFade(s, t) => r.(slot := if s then None else r.slot, tokens := if t then 0 else r.tokens)
  }

  ghost predicate RawRun(states: seq<Raw>, steps: seq<RawStep>) {
    |states| == |steps| + 1 && states[0] == Raw(0, None, 0, false, None, [], None)
    && forall i {:trigger steps[i]} :: 0 <= i < |steps| ==>
         RawEnabled(states[i], steps[i]) && states[i + 1] == RawApply(states[i], steps[i])
  }

  ghost predicate Increasing(s: seq<nat>) { forall i, j :: 0 <= i < j < |s| ==> s[i] < s[j] }

  ghost predicate NonDecreasing(s: seq<nat>) { forall i, j :: 0 <= i < j < |s| ==> s[i] <= s[j] }

  ghost predicate RawInv(r: Raw) {
    NonDecreasing(r.got)
    && (r.slot.Some? ==> r.placed == r.slot.value + 1)
    && (r.got != [] ==> r.got[|r.got| - 1] < r.placed)
    && (r.pending.Some? ==> r.got != [] && r.pending.value == r.got[|r.got| - 1] && !r.popped)
    && (r.lost.Some? ==> r.got != [] && r.lost.value <= r.got[|r.got| - 1])
    && (r.pending.None? && r.got != [] && r.slot == Some(r.got[|r.got| - 1]) ==> r.lost == r.slot)
  }

  lemma RawStepKeepsInv(r: Raw, s: RawStep)
    requires RawInv(r) && RawEnabled(r, s)
    ensures RawInv(RawApply(r, s))
  {
  }

  lemma {:induction false} RawKeepsInv(states: seq<Raw>, steps: seq<RawStep>, n: nat)
    requires RawRun(states, steps) && n < |states|
    ensures RawInv(states[n])
  {
    if n > 0 {
      RawKeepsInv(states, steps, n - 1);
      RawStepKeepsInv(states[n - 1], steps[n - 1]);
    }
  }

  /** Even raw, frames are never received out of order. */
  lemma RawNeverReorders(states: seq<Raw>, steps: seq<RawStep>, n: nat)
    requires RawRun(states, steps) && n < |states|
    ensures NonDecreasing(states[n].got)
    ensures forall i :: i in states[n].got ==> i < states[n].placed
  {
    RawKeepsInv(states, steps, n);
  }

  /** The frame whose acknowledgement was lost is still in the slot. */
  predicate StillThere(r: Raw) { r.slot.Some? && r.slot == r.lost }

  predicate Rereads(r: Raw, s: RawStep) { s.RawGet? && StillThere(r) }

  lemma LongerIncreasing(s: seq<nat>, x: nat)
    requires NonDecreasing(s + [x])
    ensures Increasing(s + [x]) <==> Increasing(s) && (s != [] ==> s[|s| - 1] != x)
  {
    var t, n := s + [x], |s|;
    assert forall i :: 0 <= i < n ==> t[i] == s[i];
    if n > 0 {
      assert t[n - 1] <= t[n] == x;
    }
  }

  lemma RepeatStep(r: Raw, s: RawStep)
    requires RawInv(r) && RawEnabled(r, s) && RawInv(RawApply(r, s))
    ensures Increasing(RawApply(r, s).got) <==> Increasing(r.got) && !Rereads(r, s)
  {
    if s.RawGet? && r.slot.Some? {
      LongerIncreasing(r.got, r.slot.value);
    }
  }

  ghost predicate NeverRereads(states: seq<Raw>, steps: seq<RawStep>, n: nat)
    requires n <= |steps| && |states| == |steps| + 1
  {
    forall i :: 0 <= i < n ==> !Rereads(states[i], steps[i])
  }

  /** A frame is received twice exactly when somebody receives again after an acknowledgement
      that was lost, while the frame is still in the slot. */
  lemma {:induction false} RawRepeatsExactly(states: seq<Raw>, steps: seq<RawStep>, n: nat)
    requires RawRun(states, steps) && n < |states|
    ensures Increasing(states[n].got) <==> NeverRereads(states, steps, n)
  {
    if n > 0 {
      RawRepeatsExactly(states, steps, n - 1);
      RawKeepsInv(states, steps, n - 1);
      RawKeepsInv(states, steps, n);
      var s := steps[n - 1];
      RepeatStep(states[n - 1], s);
      assert NeverRereads(states, steps, n) <==> NeverRereads(states, steps, n - 1) && !Rereads(states[n - 1], s);
    }
  }

  lemma {:induction false} LostMeansFailed(states: seq<Raw>, steps: seq<RawStep>, n: nat)
    requires RawRun(states, steps) && n < |states| && states[n].lost.Some?
    ensures exists i :: 0 <= i < n && steps[i].RawAckLost?
  {
    if !steps[n - 1].RawAckLost? {
      LostMeansFailed(states, steps, n - 1);
    }
  }

  /** What a caller can see to: if nobody reads after a failed acknowledgement, no frame is ever
      received twice, whatever the store does. */
  lemma StoppingPreventsRepeats(states: seq<Raw>, steps: seq<RawStep>, n: nat)
    requires RawRun(states, steps) && n < |states|
    requires forall i, j :: 0 <= i < j < n && steps[i].RawAckLost? ==> !steps[j].RawGet?
    ensures Increasing(states[n].got)
  {
    forall j | 0 <= j < n
      ensures !Rereads(states[j], steps[j])
    {
      if states[j].lost.Some? {
        LostMeansFailed(states, steps, j);
      }
    }
    RawRepeatsExactly(states, steps, n);
  }

  // ---------------------------------------------------------------- frames skipped

  ghost predicate Gapless(got: seq<nat>) {
    forall i, m: nat :: 0 <= i < |got| && m < got[i] ==> m in got
  }

  predicate Reads(r: Raw, s: RawStep) { s.RawGet? && r.slot.Some? }

  /** A frame disappears that nobody has read. */
  predicate LosesUnread(r: Raw, s: RawStep) {
    s.RawFade? && s.slotGone && r.slot.Some? && r.slot.value !in r.got
  }

  ghost predicate LossBefore(states: seq<Raw>, steps: seq<RawStep>, n: nat)
    requires n <= |steps| && |states| == |steps| + 1
  {
    exists i :: 0 <= i < n && LosesUnread(states[i], steps[i])
  }

  /** Every frame placed was read, but for the one in the slot. */
  ghost predicate Covered(r: Raw) { forall m: nat :: m < r.placed ==> m in r.got || r.slot == Some(m) }

  predicate Missing(r: Raw, m: nat) { m < r.placed && m !in r.got && r.slot != Some(m) }

  lemma MissingStays(r: Raw, s: RawStep, m: nat)
    requires RawInv(r) && RawEnabled(r, s) && Missing(r, m)
    ensures Missing(RawApply(r, s), m)
  {
  }

  lemma CoveredStays(r: Raw, s: RawStep)
    requires RawInv(r) && RawEnabled(r, s) && Covered(r)
    ensures if LosesUnread(r, s) then Missing(RawApply(r, s), r.slot.value) else Covered(RawApply(r, s))
  {
    var after := RawApply(r, s);
    forall m: nat | m < after.placed && !LosesUnread(r, s)
      ensures m in after.got || after.slot == Some(m)
    {
      assert m < r.placed ==> m in r.got || r.slot == Some(m);
    }
  }

  /** Where a run stands: something is missing for good, or nothing is. */
  ghost predicate CoverInv(r: Raw, loss: bool) {
    if loss then exists m :: Missing(r, m) else Covered(r)
  }

  lemma CoverStep(r: Raw, s: RawStep, loss: bool)
    requires RawInv(r) && RawEnabled(r, s) && CoverInv(r, loss)
    ensures CoverInv(RawApply(r, s), loss || LosesUnread(r, s))
  {
    if loss {
      var m :| Missing(r, m);
      MissingStays(r, s, m);
    } else {
      CoveredStays(r, s);
    }
  }

  lemma LossNext(states: seq<Raw>, steps: seq<RawStep>, n: nat)
    requires 0 < n <= |steps| && |states| == |steps| + 1
    ensures LossBefore(states, steps, n) <==> LossBefore(states, steps, n - 1) || LosesUnread(states[n - 1], steps[n - 1])
  {
  }

  lemma {:induction false} RawCovers(states: seq<Raw>, steps: seq<RawStep>, n: nat)
    requires RawRun(states, steps) && n < |states|
    ensures CoverInv(states[n], LossBefore(states, steps, n))
  {
    if n > 0 {
      RawCovers(states, steps, n - 1);
      RawKeepsInv(states, steps, n - 1);
      LossNext(states, steps, n);
      CoverStep(states[n - 1], steps[n - 1], LossBefore(states, steps, n - 1));
    }
  }

  lemma GapAppears(r: Raw, m: nat)
    requires RawInv(r) && Missing(r, m) && r.slot.Some?
    ensures !Gapless(r.got + [r.slot.value])
  {
    var got := r.got + [r.slot.value];
    assert got[|r.got|] == r.slot.value && m < got[|r.got|] && m !in got;
  }

  lemma GapStays(r: Raw, s: RawStep)
    requires RawInv(r) && RawEnabled(r, s) && !Gapless(r.got)
    ensures !Gapless(RawApply(r, s).got)
  {
    var i, m: nat :| 0 <= i < |r.got| && m < r.got[i] && m !in r.got;
    var got := RawApply(r, s).got;
    assert r.got[i] <= r.got[|r.got| - 1];
    assert got[i] == r.got[i] && m !in got;
  }

  lemma NoGapAppears(r: Raw)
    requires RawInv(r) && Covered(r) && Gapless(r.got) && r.slot.Some?
    ensures Gapless(r.got + [r.slot.value])
  {
    var got := r.got + [r.slot.value];
    forall i, m: nat | 0 <= i < |got| && m < got[i]
      ensures m in got
    {
      if i < |r.got| {
        assert m < r.got[i];
      } else {
        assert m < r.placed;
      }
    }
  }

  lemma SkipStep(r: Raw, s: RawStep, loss: bool)
    requires RawInv(r) && RawEnabled(r, s) && CoverInv(r, loss)
    ensures Gapless(RawApply(r, s).got) <==> Gapless(r.got) && (Reads(r, s) ==> !loss)
  {
    if !Gapless(r.got) {
      GapStays(r, s);
    } else if Reads(r, s) {
      if loss {
        var m :| Missing(r, m);
        GapAppears(r, m);
      } else {
        NoGapAppears(r);
      }
    }
  }

  ghost predicate NeverReadsAfterLoss(states: seq<Raw>, steps: seq<RawStep>, n: nat)
    requires n <= |steps| && |states| == |steps| + 1
  {
    forall j :: 0 <= j < n && Reads(states[j], steps[j]) ==> !LossBefore(states, steps, j)
  }

  /** Frames are skipped exactly when some frame is read after another one disappeared unread. */
  lemma {:induction false} RawSkipsExactly(states: seq<Raw>, steps: seq<RawStep>, n: nat)
    requires RawRun(states, steps) && n < |states|
    ensures Gapless(states[n].got) <==> NeverReadsAfterLoss(states, steps, n)
  {
    if n > 0 {
      RawSkipsExactly(states, steps, n - 1);
      RawKeepsInv(states, steps, n - 1);
      RawCovers(states, steps, n - 1);
      var s, loss := steps[n - 1], LossBefore(states, steps, n - 1);
      SkipStep(states[n - 1], s, loss);
      assert NeverReadsAfterLoss(states, steps, n)
             <==> NeverReadsAfterLoss(states, steps, n - 1) && (Reads(states[n - 1], s) ==> !loss);
    }
  }

  /** Neither repeated nor skipped: the frames received are exactly the first ones placed. */
  lemma {:induction false} ExactlyOnceInOrder(got: seq<nat>, k: nat)
    requires Increasing(got) && Gapless(got) && k < |got|
    ensures got[k] == k
  {
    if k > 0 {
      ExactlyOnceInOrder(got, k - 1);
      assert got[k - 1] < got[k];
      assert k < got[k] ==> k in got;
      assert forall i :: 0 <= i < k ==> got[i] <= got[k - 1];
    } else {
      assert 0 < got[0] ==> 0 in got;
    }
  }

  /** Both happen: the token of the first frame fetches the second, whose own token fetches it
      again when the acknowledgement in between is lost. */
  lemma RawSkipsAndRepeats() returns (states: seq<Raw>, steps: seq<RawStep>)
    ensures RawRun(states, steps) && states[|steps|].got == [1, 1]
  {
    steps := [RawPlace, RawPop, RawFade(true, false), RawPlace, RawGet, RawAckLost, RawPop, RawGet];
    states := [
      Raw(0, None, 0, false, None, [], None),
      Raw(1, Some(0), 1, false, None, [], None),
      Raw(1, Some(0), 0, true, None, [], None),
      Raw(1, None, 0, true, None, [], None),
      Raw(2, Some(1), 1, true, None, [], None),
      Raw(2, Some(1), 1, false, Some(1), [1], None),
      Raw(2, Some(1), 1, false, None, [1], Some(1)),
      Raw(2, Some(1), 0, true, None, [1], Some(1)),
      Raw(2, Some(1), 0, false, Some(1), [1, 1], Some(1))];
  }
}
