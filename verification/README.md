# A verified model of shex

shex runs commands on a remote host through Redis: a client and the host's handler take turns over
two single-slot mailboxes, in messages sealed under a key both derive at login, and the host runs
the commands in long-lived shells that connections can share. This project models that program in
Dafny and proves what its protocol, its framing of shell output and its local stores promise.

Concurrency is modelled by state machines whose steps are the atomic operations of the program
(one Redis command or script, one file operation, one change of the shared session map), so that a
theorem about runs covers every interleaving. Code that runs step by step is written as classes and
methods in which everybody else acts between any two statements. `Handler.dfy`, `ClientPrograms.dfy`
and `VaultFiles.dfy` perform only steps of their machines, so the theorems about runs hold of that
code. `Refinement.dfy` proves the same of `SecureChannel` over `RedisTransport` and the delivery
machine, which no outsider can upset, and `Duplex.dfy` of both ends' channels together and the
conversation machine, where only the two ends use the connection's mailboxes.

| file | models |
|---|---|
| `Redis.dfy`, `Rendered.dfy`, `Mailbox.dfy` | Redis with expiry and the three scripts under key names, the same under the strings it really sees, one direction of a connection |
| `Transport.dfy`, `Channel.dfy`, `Delivery.dfy`, `Refinement.dfy`, `Happenings.dfy` | `RedisTransport` with its lease thread, `SecureChannel`, what reaches the receiver, and that the first two perform the steps of the third |
| `Protocol.dfy`, `Lockstep.dfy`, `Programs.dfy`, `Conversation.dfy`, `Answers.dfy`, `Requests.dfy`, `ClientPrograms.dfy`, `Duplex.dfy` | the messages, the turns, the client programs, one whole connection, what its replies tell and its requests ask for, and the same over Redis |
| `Sessions.dfy`, `Verdicts.dfy`, `Openings.dfy`, `Handler.dfy`, `Progress.dfy` | the host with any number of connections, what its shared map decides, which sessions a client leaves behind, `handle` statement by statement, termination |
| `Framing.dfy` | `ShellSession::run`, `completion_in`, and the `printf` it relies on |
| `Keys.dfy`, `Ownership.dfy` | key names, startup cleanup, registration of hostnames |
| `Vault.dfy`, `VaultFiles.dfy` | the encrypted file vault: the machine of all processes, and the code of one |
| `Registry.dfy`, `AuthFiles.dfy` | named Redis servers, saved authentication and the remembered session |
| `Wrappers.dfy`, `Sequences.dfy` | `Option`, `Result`, rearranging sequences |

Assumptions that the program itself makes or that lie outside it: sealing is symbolic (a frame opens
only under the key, direction and counter it was sealed with), the login gives both sides the same
fresh key, digests are injective, random identifiers are new, single Redis commands, scripts and
transactions are atomic, and every caller stops at the first error, as all callers in the source do.

## Results that contradict the obvious claim

* The repository's own README.md, lines 236-237, promises that a lease protects a frame while it is
  processed. The first renewal comes 20 seconds after the frame is read, so the promise holds exactly
  when each renewal falls within the life the frame has left (`Redis.LeaseHoldsExactly`); a frame
  read with 20 seconds or less to live, and not acknowledged before they are over, is lost
  (`Redis.LatePickupExpires`).
* The transport without counters can skip a frame (`Transport.TokenCanFetchNextFrame`) and repeat one
  (`Transport.LostAckRepeatsFrame`). `Delivery.RawSkipsExactly` and `Delivery.RawRepeatsExactly` say
  exactly when; it never reorders (`Delivery.RawNeverReorders`). With the counters and callers that
  stop at an error nothing is skipped, repeated or reordered (`Delivery.ReceivedIsPrefixOfPlaced`,
  `Refinement.ChannelDelivers`). Two values share a nonce exactly when a caller sends again after a
  failed send (`Channel.CountersDistinctExactly`), and such frames do reach Redis
  (`Channel.FailedSendRepeatsCounter`).
* Validation of hostnames does not keep key families apart: a valid hostname's record can expire
  (`Rendered.RecordCanExpire`), and a cleanup can take another host's lookups, unread frames and
  record. Exactly which is stated in `Keys.CleanupReaches`, `Redis.SweptExactly`,
  `Keys.WakeCollidesWithHost`, `Sessions.StolenExactly` and `Ownership.OwnershipExactly`; generated
  hostnames are safe (`Keys.KeysInjective`, `Rendered.StringsWellTimed`, `Sessions.NothingStolen`,
  `Ownership.GeneratedHostsAreSafe`).
* A lookup can outlive its session; `Sessions.LeakCauses` names the failures that leak one, and no
  other step does. A deleted session's shell lives on while a connection holds it, and a mapped
  session can have a dead shell, exactly when the shell ended by itself (`Sessions.ShellLifetime`).
* After output beyond 16 MiB the next `run` starts in the middle of the old output
  (`Framing.OverflowDesynchronises`); `Framing.NextRunExactly` says exactly when the next run answers
  for its own command.
* Once neither end of a connection can go on but by failing (`Progress.RestingExactly`), its handler
  waits without a timeout exactly when it is in a session and its client was an `exec` answered with
  an Error, or stopped before its next request, or the last request or the last reply expired unread
  (`Progress.HandlerWaitsExactly`). A client that waits for the reply to a command has no timeout
  either, so both ends then wait for ever (`Progress.StrandedTogether`, `Progress.WaitsForEver`). A
  handler that is not in a session ends at its receive timeout.

## Model

| member | source | states |
|---|---|---|
| Redis.ExpiryAlwaysBounded | src/redis_transport.rs:11-34 | In every run of any clients and hosts whose keys do not coincide, mailboxes, ready lists and wake queues always carry an expiry at most 60 000 ms away, and host records and lookups never carry one |
| Rendered.ApplyCommutes | src/redis_transport.rs:408-430 | For generated hostnames every command under the strings of its keys does to the strings what it does under the names: no two keys of any family touch each other |
| Rendered.StringsWellTimed | src/redis_transport.rs:11-34 | So in every run with generated hostnames the strings of mailboxes, ready lists and wake queues carry an expiry at most 60 000 ms away, and those of host records and lookups none |
| Rendered.RecordCanExpire | src/redis_transport.rs:145-166 | Validation alone is not enough: waking the valid hostname `host` makes the record of the valid hostname `wake` expire |
| Redis.CompareGuardsOthers | src/redis_transport.rs:23-34 | An acknowledgement or renewal with a frame in hand, also from a stale lease thread, cannot remove, replace or prolong anything but that frame |
| Redis.EventsMoveTheSlot | src/redis_transport.rs:15-34 | Every action of anybody places into an empty slot, acknowledges, expires or sweeps away the frame that is there, or leaves the slot alone |
| Redis.FramesConserved | src/redis_transport.rs:15-34 | Over any run, what was in a mailbox plus what was placed is what was acknowledged plus what expired plus what startup cleanups swept away plus what is there at the end |
| Redis.SweptExactly | src/redis_transport.rs:339-366 | A startup cleanup sweeps a frame away if and only if its host's fields, continued with `session`, begin the mailbox's hostname; never between generated hostnames |
| Rendered.StringsConserveFrames | src/redis_transport.rs:15-34 | In every run with generated hostnames, under the strings Redis sees, the frames placed in a mailbox are those acknowledged, those expired and the one still there, and none is swept away |
| Redis.LeftAlone | src/redis_transport.rs:11-22 | A frame nobody touches survives exactly as long as its remaining life exceeds the time that passes |
| Redis.UntouchedUntilExpiry | src/redis_transport.rs:11-34 | Whatever else happens, a key that nobody touches holds what it holds until its time has come, and not longer |
| Redis.SentLasts | src/redis_transport.rs:15-22 | A frame and its ready token each last exactly 60 000 ms from the moment they are placed |
| Redis.CallLasts | src/redis_transport.rs:145-166 | And so does a call in a host's wake queue, with those queued before it |
| Redis.WakesInOrder | src/redis_transport.rs:145-317 | In every run a host is given the connections it was woken for, each once and in the order of the calls, exactly unless its queue expired or was swept away with some of them in it |
| Redis.LeaseHoldsExactly | src/redis_transport.rs:245-272 | A frame stays in its slot through arbitrarily long processing if and only if every renewal comes within the life then left, the first one measured from the pickup |
| Redis.LeaseSuffices | src/redis_transport.rs:11-14 | Renewals at most 20 s plus a delay apart are timely when the frame was read with more life than that, for any delay below 40 s |
| Redis.LatePickupExpires | src/redis_transport.rs:245-258 | A frame read with at most 20 s of life is gone at the first renewal of a punctual lease |
| Mailbox.RedisRefinesBox | src/redis_transport.rs:15-34 | Seen through one mailbox, every Redis action is a placing, a clearing, a token taken, a fading (by time or by a cleanup) or nothing |
| Transport.BlockedSenderSucceeds | src/redis_transport.rs:170-194 | A sender whose slot holds a frame that nobody renews and that expires 5 s before the deadline places its own frame before giving up |
| Transport.SenderOutwaitsAbandonedFrame | src/redis_transport.rs:170-194 | So `send_frame` always outwaits an abandoned frame, whatever is in the slot when it starts |
| Transport.SendLoopExactly | src/redis_transport.rs:174-193 | `send_frame` tries at once and then once in every 20 ms until a command fails, the slot is free, or the answer that it is taken comes at or after the deadline; it places the frame exactly if its last attempt reaches Redis and finds the slot free |
| Transport.OneFrameArrives | src/redis_transport.rs:170-238 | Round trip: a frame placed in an empty mailbox that others leave alone is the one received within 60 s, and once it is acknowledged slot and token list are empty again |
| Transport.TokenCanFetchNextFrame | src/redis_transport.rs:196-219 | A run in which the token of one frame fetches the next |
| Transport.LostAckRepeatsFrame | src/redis_transport.rs:196-238 | And one in which a frame is received again because the acknowledgement was lost before it took effect |
| Transport.Connect | src/redis_transport.rs:96-123 | Refuses an invalid hostname untouched and one without a record; otherwise the client's mailboxes, ready lists and wake queue, derived from one connection id |
| Transport.RedisTransport.Server | src/redis_transport.rs:125-143 | The host's mailboxes are the client's with the roles exchanged |
| Transport.RedisTransport.SendFrame | src/redis_transport.rs:170-194 | The retry loop against a Redis others keep changing equals the specification `SendLoop`; an oversized frame changes nothing; a failed wake leaves the frame placed |
| Transport.RedisTransport.NotifyHost | src/redis_transport.rs:145-166 | The wake is pushed at most once in a transport's life, even when it fails |
| Transport.RedisTransport.RecvFrame | src/redis_transport.rs:196-219 | BLPOP and GET as two steps with others in between; refuses while a frame is pending; a frame returned is pending and leased |
| Transport.RedisTransport.Acknowledge | src/redis_transport.rs:221-238 | Clears the pending frame and its lease in any case, and deletes only that frame |
| Transport.ProcessingLease | src/redis_transport.rs:245-272 | The lease loop holds the frame exactly when its rounds are timely, and stops when a renewal finds it gone |
| Channel.BigEndianRoundTrip | src/channel.rs:65-69 | Big-endian bytes of a counter decode to it |
| Channel.NoncesDistinct | src/channel.rs:65-69 | Nonces have 12 bytes and differ for different counters, as section 2.8 of RFC 8439 requires per key |
| Channel.SecureChannel.Send | src/channel.rs:71-90 | Places the value sealed under the current counter, as `SendLoop` leaves Redis, then wakes the host once; the counter moves only after the placing and stays at its maximum |
| Channel.SecureChannel.RecvUnacknowledged | src/channel.rs:98-112 | Yields a value only from a frame sealed by the peer under exactly the next counter; the counter does not move |
| Channel.SecureChannel.Acknowledge | src/channel.rs:114-121 | The receive counter moves exactly when the deletion succeeded and it is not exhausted; the pending frame is forgotten either way |
| Channel.SecureChannel.Recv | src/channel.rs:92-96 | After success the frame is gone and the counter has moved; after failure the counter has not |
| Channel.CountersDistinctExactly | src/channel.rs:71-90 | Over any sequence of sends no two values are sealed under one counter if and only if nobody sends again after a failed send |
| Channel.FailedSendRepeatsCounter | src/channel.rs:71-90 | Two calls of the send loop, the first losing its reply after its frame was placed, the second once that frame was acknowledged or had expired, that place different values under one counter |
| Delivery.StepKeepsInv | src/channel.rs:71-121 | Every step of sender, receiver and a store that may lose, replay or invent what it cannot forge keeps the counters equal to the histories |
| Delivery.ReceivedIsPrefixOfPlaced | src/channel.rs:71-121 | In every run the values handed out and the values acknowledged are prefixes of the values placed: no gap, duplicate or reordering |
| Delivery.HistoryGrows | src/channel.rs:71-121 | What was placed, handed out or acknowledged stays so |
| Delivery.NoCounterReused | src/channel.rs:71-90 | In every run of senders that stop at an error no two values are sealed under one key, direction and counter |
| Delivery.RawNeverReorders | src/redis_transport.rs:170-238 | Even without counters and with callers that never stop, frames are never received out of order |
| Delivery.RawRepeatsExactly | src/redis_transport.rs:196-238 | A frame is received twice if and only if somebody receives after its acknowledgement was lost while it is still in the slot |
| Delivery.StoppingPreventsRepeats | src/redis_transport.rs:221-238 | So a caller that never receives again after a failed acknowledgement never receives a frame twice |
| Delivery.RawSkipsExactly | src/redis_transport.rs:196-219 | A frame is skipped if and only if some frame is read after another one disappeared unread |
| Delivery.ExactlyOnceInOrder | src/redis_transport.rs:170-238 | Neither repeated nor skipped means that exactly the first frames placed were received, in order |
| Delivery.RawSkipsAndRepeats | src/redis_transport.rs:196-238 | A run without counters that skips one frame and receives the next twice |
| Refinement.OthersAreLegal | src/redis_transport.rs:15-34 | Every command of anybody that forges no frame is a step of the delivery machine's store |
| Refinement.SendLoopIsSteps | src/redis_transport.rs:170-194 | The retry loop, with everything others do meanwhile, is a run of the delivery machine: one placing if it succeeds, a stopped sender if it fails |
| Refinement.ReceiveIsSteps | src/redis_transport.rs:196-219 | BLPOP, GET and opening are its Pop and Get, or a stopped receiver |
| Refinement.AcknowledgementIsSteps | src/redis_transport.rs:221-238 | The compare-and-delete is its Ack, or a stopped receiver |
| Refinement.ChannelDelivers | src/channel.rs:71-121 | So in every run over Redis the values received and acknowledged are prefixes of the values placed, at most one is unacknowledged, and no counter is used twice |
| Refinement.SendOn | src/channel.rs:71-90 | `SecureChannel.Send` is such a run: on success one more value is placed and the channel is again the sending end, on failure the sender has stopped |
| Refinement.ReceiveOn | src/channel.rs:98-112 | `SecureChannel.RecvUnacknowledged` is such a run: it returns the next value handed out, refuses while one is unacknowledged, or the receiver has stopped |
| Refinement.AcknowledgeOn | src/channel.rs:114-121 | `SecureChannel.Acknowledge` is such a run: the value held is accepted and the next can be received, or the receiver has stopped |
| Lockstep.MoveKeepsInv | src/auth.rs:96-136 | Every send, receive, acknowledgement, stop and expiry of either end keeps the turns, the counters and the two mailboxes in step |
| Lockstep.StrictTurns | src/auth.rs:96-136 | From the first login frame on at most one of the two mailboxes is occupied, a sender finds its own slot empty, and a frame found in the slot is the expected one |
| Programs.NeverSurprised | src/main.rs:467-592 | A client program answered in kind never reaches an "unexpected response" branch |
| Programs.RunAfterOpened | src/main.rs:520-592 | No program asks for a command before its session is opened |
| Programs.LastWordIsFinal | src/server.rs:80-117 | After a reply that ends the handler no program asks anything |
| Programs.AsksBounded | src/main.rs:455-592 | Every program asks a bounded number of times |
| Programs.StopsAsking | src/main.rs:520-556 | A program stops without Disconnect only after the host's last word, or as `exec` answered with an Error |
| Programs.TrimEndTrims | src/main.rs:571 | What is left of a line is its longest prefix that does not end in white space, line breaks included |
| Programs.CommandsAreScript | src/main.rs:558-577 | The commands of an interactive session are exactly the input lines so trimmed, in order, blank ones skipped, up to the first that is `exit` |
| Conversation.StepKeepsInv | src/server.rs:57-177 | Every step of client, handler and Redis keeps the conversation's invariant |
| Conversation.ConversationConforms | src/server.rs:70-176 | In every run each request is the one its program chooses and each reply answers it in kind, one reply for each request, and the client is never surprised |
| Conversation.RunOnlyInSession | src/server.rs:100 | The host's bail on a command before Open is never reached |
| Conversation.ExecutionAgreement | src/server.rs:141-152 | The commands handed to `run` for a connection are a prefix of those its client sent, each at most once even when frames expire; when it is the client's turn again they are exactly those it sent |
| Answers.AnswersAgree | src/server.rs:143-152 | In every run, whatever fails or expires, the reply to the k-th command of a connection tells exactly the output and status, or the error, that `run` gave for the k-th command handed to it, which is that command |
| Requests.OpensWhatWasAsked | src/main.rs:236-301 | In every run the first request opens what the user asked for: `exec` the session it was given or a new one, always persistent; `connect` the named one, or a new private one; `close` deletes the one it names |
| Requests.SendsWhatWasAsked | src/main.rs:536-592 | In every run the commands in the log are a prefix of those asked for: the one command of `exec`, or the script of `connect` |
| Requests.LeavesAfterAll | src/main.rs:536-592 | And a client of a session says Disconnect only after all of them |
| Requests.ToldThrough | src/main.rs:536-592 | Before each of its turns every reply after Opened has told the client what `run` gave for the command it answers |
| Duplex.OthersAreLegal | src/redis_transport.rs:15-34 | Every command of anybody that does not send to or take from a connection's two mailboxes, time and cleanups included, is to that connection at most an expiry |
| Duplex.SendLoopIsPlace | src/redis_transport.rs:170-194 | For either end of a connection `send_frame` finds its slot free at the first attempt and is the conversation's move of placing a frame, or the end stops because the command failed |
| Duplex.ReceiveIsPopAndFetch | src/redis_transport.rs:196-219 | BLPOP and GET are its moves of taking the token and the frame; the frame is the one expected, or the end stops |
| Duplex.AcknowledgementIsAck | src/redis_transport.rs:221-238 | The compare-and-delete is its move of acknowledging, or the end stops |
| Duplex.SayOn | src/channel.rs:71-90 | `SecureChannel.Send` of what the conversation has to say: its frame is the next of the conversation, or the end has stopped |
| Duplex.HearOn | src/channel.rs:98-112 | `SecureChannel.RecvUnacknowledged`: the value is the conversation's next, or the end has stopped |
| Duplex.AcceptOn | src/channel.rs:114-121 | `SecureChannel.Acknowledge`: it is the end's turn to speak, or it has stopped |
| Duplex.OneMailboxOccupied | src/redis_transport.rs:170-238 | In every run of such calls, with anybody's commands in between, at most one of the two mailboxes is occupied in Redis |
| Duplex.AgreementOnRedis | src/server.rs:141-152 | And both agreements, on the commands executed and on the answers told, hold over Redis |
| Sessions.StepKeepsInv | src/server.rs:57-177 | Every step of any of any number of connections keeps the ledger, the reference counts and the shell logs |
| Sessions.LookupLedger | src/server.rs:80-136 | In every interleaving a lookup exists exactly for sessions that are mapped, being opened, being deleted, or leaked, unless another process's startup cleanup took it |
| Sessions.StolenExactly | src/redis_transport.rs:339-366 | A lookup is missing that way if and only if a cleanup whose pattern reaches this hostname found it there |
| Sessions.ReachesByPattern | src/redis_transport.rs:344 | What reaching means, on the pattern and on the fields of the hostnames |
| Sessions.NothingStolen | src/redis_transport.rs:392-406 | Between generated hostnames only a second process under the same hostname does that; without one every mapped session has its lookup |
| Sessions.LedgerMeans | src/server.rs:80-136 | A mapped session owns its lookup, and the four reasons exclude each other |
| Sessions.LeakCauses | src/server.rs:81-128 | A lookup is leaked only by a failed spawn, a failed deletion, or a store command that took effect and then failed |
| Sessions.DeletedOnce | src/server.rs:80-95 | No id is deleted successfully twice |
| Sessions.GoneForEver | src/server.rs:104-117 | An id out of the map and not being opened is never obtained by any later connection |
| Sessions.UnmapMakesGone | src/server.rs:80-82 | Removing a session from the map puts it in that state |
| Sessions.ShellLifetime | src/server.rs:20-25 | A living shell is mapped or held by a live handler; an unreferenced one has been killed; a referenced one is dead if and only if it ended by itself |
| Sessions.ExitedExactly | src/server.rs:250-252 | A shell counts as ended by itself if and only if it exited on its own in the run so far |
| Sessions.ReferencesMean | src/server.rs:265-269 | The reference count is the number of live handlers that hold the session plus one for the map; the process lives if and only if it is positive and the shell has not ended by itself |
| Sessions.EphemeralDiesWithConnection | src/server.rs:118-134 | A session opened without persistence never enters the map, is never held by another connection, and lives exactly while its own holds it and it has not ended by itself |
| Sessions.SharedLogMerges | src/server.rs:141-152 | The log of a shared shell is an order-preserving merge of what its connections handed to `run` |
| Verdicts.AnsweredByMap | src/server.rs:80-119 | In every run, whatever other connections do meanwhile, an Open of a named session or a DeleteSession is granted, with that session in the reply, or refused, as the shared map held it or not at a moment when the handler had the request in hand |
| Openings.OpenedLasts | src/server.rs:104-136 | In every run the session that an `exec`, or a `connect` with a name, was answered with is the one named, if any; it is in the map until somebody deletes it, and while it is there its shell lives, whatever becomes of the connection, unless it ended by itself |
| Openings.UnnamedIsPrivate | src/server.rs:118-134 | The session of a `connect` without a name is never mapped, nobody else ever holds it, and its shell lives exactly while its own connection does and it has not ended by itself |
| Handler.SlotIsFree | src/redis_transport.rs:174-190 | A reachable handler's first SET NX always finds its slot free |
| Handler.Connection.Login | src/auth.rs:113-136 | `server_login` and Hello as steps of the machine: they end before the first request, or fail for a reason of the channel |
| Handler.Connection.PreOpen | src/server.rs:70-102 | The pre-open loop performs only steps of the machine, ends because the counter is finite, never meets a command, and fails only on a fault, a frame that did not come or expired, or an exhausted counter |
| Handler.Connection.DeleteSession | src/server.rs:80-95 | Out of the map for good, lookup deleted, answered Deleted, or answered Error when the map did not hold it; then it returns, holding nothing |
| Handler.Connection.CreateSession | src/server.rs:117-134 | As steps of the machine: lookup, shell, map; on success the handler is in the new session, and a persistent one is mapped |
| Handler.Connection.Execute | src/server.rs:143-152 | Runs the command in hand once, while its frame is unacknowledged, and decides on a reply that tells what the shell gave, or on an Error if the shell has ended |
| Handler.Connection.Serve | src/server.rs:142-175 | The reply it places in the log tells what `run` gave for a command, is Pong to a ping and an Error to Open and DeleteSession, which run nothing |
| Handler.Connection.InSession | src/server.rs:139-176 | The open loop performs only steps of the machine; it returns after Disconnect, fails for a fault, an expired frame or an exhausted counter but never for want of a request, or waits for a frame nobody announced; and every reply so far tells what `run` gave |
| Handler.Connection.Handle | src/server.rs:57-177 | `handle` returns after its last word or Disconnect, or fails for a reason of the channel, holding nothing either way, or waits in its session for a frame nobody announced; it has run a prefix of the commands its client sent, and its replies told what `run` gave for them |
| Progress.NeverStuck | src/server.rs:57-177 | Until client and handler are done, some fault-free step is possible whatever other connections have done |
| Progress.CalmStepScores | src/server.rs:57-177 | Every fault-free step raises a score |
| Progress.CalmRunsEnd | src/main.rs:455-592 | So every fault-free run ends within a bound its client program sets |
| Progress.CalmRunsContinue | src/server.rs:57-177 | And continues until nothing is left to do |
| Progress.HandlerReturnsExactly | src/server.rs:57-177 | When client and handler have nothing left to do the handler has returned, unless its client met an unexpected signature or was an `exec` answered with an Error |
| Progress.RestingExactly | src/server.rs:57-177 | Neither end can go on, that is only failures and expiry are left to happen, if and only if the client is gone or blocks and the handler has ended or blocks |
| Progress.HandlerWaitsExactly | src/server.rs:139-176 | In every run, once neither end can go on, the handler waits without a timeout if and only if it lives, is in its session, and the client was an `exec` answered with an Error, or stopped before its next request, or the last request or the last reply expired unread |
| Progress.StrandedTogether | src/main.rs:536-592 | A client that waits without a timeout for the reply to a command never waits alone: a living handler waits too, because the command or its reply expired unread |
| Progress.FadedReplyStrands | src/main.rs:558-589 | From any state with an output placed and unread, its expiry strands both ends |
| Progress.FadedRequestStrands | src/main.rs:536-548 | And so does the expiry of a command placed and unread |
| Progress.WaitsForEver | src/server.rs:139 | And a waiting handler, or both ends, wait so at every later time, unless they fail |
| Progress.BailedExecLeavesWaiting | src/main.rs:549-552 | So an `exec` that bailed on an Error leaves its handler in the session, waiting without a timeout |
| ClientPrograms.Client.Login | src/main.rs:501-518 | Login and Hello as steps of the machine; it fails for a reason of the channel or because another signature was expected |
| ClientPrograms.Client.Exchange | src/main.rs:520-589 | Sends the request the program chooses and takes a reply that answers it in kind, unacknowledged; every failure is the channel's |
| ClientPrograms.Client.OpenSession | src/main.rs:520-534 | Asks Open for what the program's user asked for; succeeds with Opened, is refused by Error, and its third branch is dead |
| ClientPrograms.Client.RunCommand | src/main.rs:536-589 | Takes the reply to its command without a timeout, prints exactly an output's data before acknowledging it; the reply tells what the host's shell gave for that very command |
| ClientPrograms.Client.Execute | src/main.rs:536-556 | When it ends well the host was handed exactly the user's command, and what was printed is what its shell gave for it; an Error ends it without a Disconnect; slow answers never do |
| ClientPrograms.Client.Interactive | src/main.rs:558-592 | When it ends well the host was handed exactly the user's script, every reply told what its shell gave, and exactly the outputs were printed; slow answers never end it |
| ClientPrograms.Client.MeasureLatency | src/main.rs:455-481 | One warm-up and `count` measured pings, each answered by Pong, then Disconnect; it fails only for a reason of the channel |
| ClientPrograms.Client.CloseSession | src/main.rs:327-334 | Succeeds only on Deleted with the same id, and is refused only by Error |
| ClientPrograms.Client.Perform | src/main.rs:213-340 | Every command, against any behaviour of host, Redis and time, performs only steps of the machine and ends done, with exactly the commands its user asked for sent and answered, refused, with an unexpected signature, for a reason of the channel, or blocked for a reply nobody announced |
| Framing.MarkerPrefixIsMarker | src/server.rs:240-246 | The prefix built from a random identifier has RS at its start only, and no line break |
| Framing.MarkerIsUnbordered | src/server.rs:272-278 | The first match of the prefix is the real one: none can straddle the end of the output |
| Framing.StatusRoundTrip | src/server.rs:279-285 | Parsing a printed status gives it back for every i32, and its text holds no marker byte |
| Framing.CompletionFound | src/server.rs:272-286 | A line with output and a printed marker is split exactly there |
| Framing.CompletionMeans | src/server.rs:272-286 | Whatever is recognised really is output, prefix, parsable status and closing byte |
| Framing.RunExact | src/server.rs:240-262 | `run` returns precisely the output and the status and leaves the reader after the marker, for any split into lines, if and only if the whole lines stay within 16 MiB |
| Framing.RunSound | src/server.rs:240-262 | Any successful run consumed its output, its marker and a parsable status |
| Framing.RunsNeverMix | src/server.rs:240-262 | Successive runs each return their own output and status |
| Framing.OverflowLeavesMarker | src/server.rs:255-260 | A run that overflows stops inside its output and leaves the tail and the marker unread |
| Framing.OverflowDesynchronises | src/server.rs:255-260 | So the next run answers with the stale tail |
| Framing.NextRunExactly | src/server.rs:255-260 | The next run answers for its own command if and only if both outputs stay within 16 MiB |
| Framing.ShellSession.Run | src/server.rs:240-262 | Writes the command and its line break and then exactly one more line, which asks the shell's `printf` for the marker; the read loop equals the specification `Reply` |
| Framing.MarkerRequestAsks | src/server.rs:243 | Under any last status the shell's `printf` renders that line to exactly this run's marker with that status, and to nothing else |
| Framing.RunEndToEnd | src/server.rs:240-262 | So if the shell prints some output for the command and then executes any such line, `run` answers with exactly that output and the command's status, and leaves what follows unread |
| Keys.GeneratedHostnames | src/redis_transport.rs:392-406 | Every generated hostname is valid and of the shape word-word:dddd |
| Keys.KeysInjective | src/redis_transport.rs:408-430 | For hostnames of that shape and colon-free ids, no two keys of any families coincide |
| Keys.HostRebuildsKeys | src/redis_transport.rs:125-153 | The id cut from the client's key rebuilds both keys, and the two differ |
| Keys.WakeCollidesWithHost | src/redis_transport.rs:408-414 | A valid hostname's wake queue is a valid hostname's record exactly when its first field is `host` |
| Keys.GlobByFields | src/redis_transport.rs:344 | The cleanup pattern matches exactly the keys whose fields properly continue it |
| Keys.PatternMatches | src/redis_transport.rs:344-392 | Validation keeps every special character out of a hostname, so under Redis's pattern matching the cleanup pattern matches exactly the keys that begin with its literal part |
| Keys.CleanupReaches | src/redis_transport.rs:344 | Which keys of every family of which hosts a cleanup can reach, exactly |
| Keys.CleanupReachesSessions | src/redis_transport.rs:344 | Which session lookups of which hosts it can reach, exactly |
| Keys.CleanupReachesHosts | src/redis_transport.rs:344 | Which host records it can reach, exactly |
| Keys.CleanupIsOwn | src/redis_transport.rs:339-366 | For generated hostnames it reaches the host's own lookups and nothing else |
| Keys.CleanupCanDeleteHostRecord | src/redis_transport.rs:339-366 | Two valid hostnames of which one's cleanup deletes the other's record |
| Ownership.KeySpace.Register | src/redis_transport.rs:281-307 | Registration succeeds only with the record naming this signature, and fails on an invalid name or another owner |
| Ownership.KeySpace.ClearSessionLookups | src/redis_transport.rs:339-366 | Given SCAN's guarantee, when the loop ends without an error every matching key present at its start is gone unless added again; and it never deletes anything else, also while it still runs |
| Ownership.RecordForever | src/redis_transport.rs:281-307 | Among hosts that do not threaten each other a registered record never changes, in any interleaving of registrations, cleanups, lookups, wakes and expiry |
| Ownership.OwnershipExactly | src/redis_transport.rs:281-366 | A hostname has one owner in every run if and only if no hostname in use threatens another |
| Ownership.ThreatByFields | src/redis_transport.rs:344-414 | The threat as a check on the fields of two hostnames |
| Ownership.GeneratedHostsAreSafe | src/redis_transport.rs:392-406 | Generated hostnames never threaten each other |
| Vault.IdentityInjective | src/credential_store.rs:192-204 | Service and user determine the identity and the identity determines them |
| Vault.StepKeepsInv | src/credential_store.rs:206-352 | Every file operation, failure and crash of any process keeps the disk's invariant |
| Vault.LinkedKeyForever | src/credential_store.rs:259-291 | The key file once linked is complete and never changes |
| Vault.KeyAgreement | src/credential_store.rs:259-301 | Any two keys ever obtained, by any processes at any times, are the same 32 bytes |
| Vault.ReadReturnsLatest | src/credential_store.rs:228-250 | A read returns, whole, what was last put there, and fails exactly when nothing is |
| Vault.SetThenGet | src/credential_store.rs:206-250 | A read after a completed write with no other write in between returns what was written |
| Vault.HistoryIsGenuine | src/credential_store.rs:206-226 | Whatever is read at an entry was written for that identity by a process that asked for it |
| VaultFiles.Process.LoadOrCreateFileKey | src/credential_store.rs:259-291 | Exists, temporary, write, link or load, tidy, with others in between: returns the key the file holds, and fails only on a file error or a taken temporary name |
| VaultFiles.Process.LoadFileKey | src/credential_store.rs:294-301 | Returns the linked key, and without a file error fails only when there is none |
| VaultFiles.Process.SetSecret | src/credential_store.rs:206-226 | On success the entry reads back as exactly the secret; otherwise the process ends failed, and what entries hold comes from processes that end stored; without a file error or a taken name it succeeds |
| VaultFiles.Process.WriteEntry | src/credential_store.rs:329-352 | Temporary, write, rename: ends stored, with the entry just replaced by the secret, or failed |
| VaultFiles.Process.GetSecret | src/credential_store.rs:228-250 | Returns exactly what was last put there; nothing only when nothing is there or a file operation fails |
| VaultFiles.Process.DeleteCredential | src/credential_store.rs:252-255 | When it succeeds, or when no file operation fails, the entry is empty |
| Registry.NamesAreNotUrls | src/redis_store.rs:75-80 | No valid name can be taken for a URL |
| Registry.RegistryIsMap | src/redis_store.rs:20-94 | Through any sequence of adds cut short after any write, a name resolves to the URL last stored for it if its marker was written, and is unknown otherwise; a URL resolves to itself if it is one; and nothing else resolves |
| Registry.DefaultIsLastCompleted | src/redis_store.rs:40-73 | Without a reference the last completed add decides; before any, a single name does, none means the local server, several are an error |
| Registry.AlwaysGrounded | src/redis_store.rs:20-38 | Between any two writes of any interleaved adds every marker has its secret and the default its marker |
| Registry.RedisStore.Add | src/redis_store.rs:20-38 | Secret, marker, default in this order, each only after the one before; bad names and URLs change nothing |
| Registry.RedisStore.ResolveOrDefault | src/redis_store.rs:40-73 | The directory loop equals the specification `ResolveDefault` |
| AuthFiles.AuthStore.Save | src/auth_file.rs:108-119 | Loading returns what was saved; a failure changes nothing; other hosts' files stay |
| AuthFiles.AuthStore.CreateForHost | src/auth_file.rs:43-75 | A known host keeps its key; a new one gets its key before its file; no failure changes any file, and a key is left over only when its deletion fails too |
| AuthFiles.LastSessionWasIssued | src/main.rs:265-340 | Over any history a remembered session is one the very host the file is bound to returned in Opened |
| AuthFiles.RememberedIsLastAnswer | src/main.rs:265-302 | Over any history what a file remembers is what the last `exec` written to it was answered with |
| AuthFiles.ExecOpensWhatWasAsked | src/main.rs:275-302 | A successful `exec --past` is answered with that session, an `exec` that names one with the one it names, and any other with one never issued before; afterwards the host has it |
| AuthFiles.CloseMeansOne | src/main.rs:318-325 | A `close` means exactly one session: the one it names, or else the one the last written `exec` on its file was answered with |
| AuthFiles.CloseForgets | src/main.rs:303-340 | A successful close takes the session it means, and no other, from the host, and touches no other host's file; ever after neither the host nor any file bound to it holds the id again, exactly unless the file that remembered it could not be written |
| AuthFiles.ReauthKeepsSession | src/auth_file.rs:49-60 | Over any history in which no `exec` or `close` writes its file, a host's remembered session survives if and only if every authentication meets the same signature under the same URL |

## Left out

- Cryptography (OPAQUE, Argon2, HKDF, ChaCha20-Poly1305, SHA-256): sealing is symbolic and digests are injective.
- Redis networking, TLS, URL syntax, Lua and the internals of SCAN: commands are atomic, the coverage of a full SCAN iteration is a stated condition, and `Covers` is a condition only on the completeness clause of `Ownership.KeySpace.ClearSessionLookups`.
- Ownership.OwnershipExactly: message and ready keys are taken never to be host records, because they hold a random connection id that no hostname in use contains.
- Rendered.StringsWellTimed: connection ids and hashes are taken to hold no colon, since they are hexadecimal.
- Wake queue and accept in the conversation machine: a connection starts when its handler exists; the queue itself is modelled in Redis.dfy and Transport.dfy.
- Receive timeouts in the conversation machine: an endpoint that gives up is an endpoint that stops, which it may do at any moment.
- Lease threads that fail to connect: a lease may renew late or never; `Redis.LeaseHoldsExactly` says what follows.
- Framing.MarkerRequestAsks: of the shell's `printf`, three-digit octal escapes, `\n`, `%d` and literal text are modelled, which is all the line uses.
- Handler.Connection: the id drawn for a new session is one nobody has drawn or draws, as the source assumes of its random ids; an open handler blocked in BLPOP is the outcome `StillWaiting`.
- Programs: JSON, command-line parsing, prompts, exit codes, latency figures and the `from_utf8_lossy` conversion of output.
- ClientPrograms.Client: a failure to read standard input or to print is not modelled; both end the program.
- Framing.ShellSession.Run: writing to the shell's input does not fail half-way, and that a reply fits the 16 MiB frame is not claimed, because encoding can exceed it.
- Vault.StepKeepsInv: two entries' temporary names are taken to differ, since the clean-up after a collision would remove the other writer's file; permission bits are one private flag.
- Keychain back ends and their probing: foreign calls.
- Registry.AlwaysGrounded: each file write is atomic; `fs::write` can truncate a marker when the process dies in it.
- AuthFiles.CloseForgets: a host is told apart as a client tells it, by URL, hostname and signature, so one Redis under two URLs counts as two hosts.
- Duplex.SayOn: covers the sealed frames from Hello on; the login frames are covered at the level of the transport's calls.
- Duplex.OthersAreLegal: connection ids are random, so nobody else sends to or takes from a connection's mailboxes; what happens if somebody does is module Delivery's subject.
- Conversation.ExecutionAgreement: a command handed to `run` in a shell that has ended counts, though nothing executes it.
- AuthFiles.AuthStore.Save: as for the registry, a file is written whole or not at all, and the key store behaves as a map.
- Liveness when the host or Redis fails for good: an unbounded BLPOP makes it false by design.
