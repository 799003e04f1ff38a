# narrowd: verified models of its state machines

narrowd is a single-user SSH daemon. Its cryptography and message parsing come from a library; around
that it has several state machines whose correctness is a matter of whole runs. This project models
them in Dafny and proves what holds on every run.

- **Admission** (`TokenBucket.dfy`, `AdmissionHistory.dfy`, `AdmissionCauses.dfy`, `Admission.dfy`,
  `AdmissionGuards.dfy`).
  `AdmissionHistory` says what the controller must answer, as a function of the history of calls alone:
  no counters, no pruning, no sweeping, no tokens. The class `AdmissionState`, with all of those, is
  proved to give that answer on every call. `AdmissionCauses` says what the answer comes to: every
  rejection has its cause in what happened, and the rate is so many a minute. Guards are objects; the counters are the numbers of guards
  not yet released.
- **Control protocol** (`ExecutorProtocol.dfy`, `ExecutorCalls.dfy`, `RemoteForwards.dfy`,
  `ForwardOutcomes.dfy`, `ForwardRequests.dfy`). Sessions, reader thread, executor loop and accept loops as one transition
  system of twenty kinds of steps. The proofs are inductive invariants over all legal runs: every request
  is in exactly one place and its call waits for it; every forward token has one fate, which fixes it in
  the three maps that know it.
- **Process output** (`FrameCodec.dfy`, `ProcessPipeline.dfy`). From the child's pipes through chunks,
  queue, `select!` loop, frames and bridge to the channel, on every schedule.
- **Before authentication** (`PreauthStream.dfy`, `PreauthSlots.dfy`). The two deadlines as a function of
  the chunks that arrived, and the gauge of unauthenticated connections against the guards.
- **Caches, limiters, paths** (`KeyCache.dfy`, `LogLimiter.dfy`, `LogRotation.dfy`, `PathNormalizer.dfy`).

`Common.dfy` and `Network.dfy` hold shared value types.

## What turned out not to hold

Each of these comes with the exact condition and, where that alone does not show that it happens, with a
run or call on which it does.

- A per-address cap of zero still admits one connection, because the cap is only tested for a known
  address. The bound is max(1, cap): `AdmissionHistory.CapsHold`, `AdmissionHistory.ZeroCapAdmitsOne`.
- The connection rate of an address holds only as long as its entry lives. With a burst of at least one an
  idle address is never rate-limited (`AdmissionHistory.IdleIsNeverRateLimited`), so any number of
  connections can be admitted at one moment if each is released before the next
  (`AdmissionHistory.ChurnIsUnlimited`). Within one lifetime every window obeys the rate
  (`AdmissionHistory.LifetimeIsGenuine`, `TokenBucket.EveryWindowObeysTheBudget`).
- The drain of waiting calls comes too early for a call that enters the map of waiters after the reader
  has stopped: once it is sent it waits for ever. `ExecutorCalls.StrandedExactly` says that these are all,
  `ExecutorCalls.EnteringSettlesIt` what becomes of a call, `ExecutorCalls.CallCanBeStranded` gives a run.
- Listeners can be leaked in three ways. A cancellation whose request cannot be sent leaves its listener
  bound (`ForwardOutcomes.CancelLeakHappens`). If the reader stops while a port is being bound, the call
  ends with an error but the executor binds the port all the same (`ForwardOutcomes.BindLeakHappens`). If
  a forward is asked for after the reader has stopped, the executor binds it for a call that waits for
  ever (`ForwardOutcomes.StrandedLeakHappens`). A leak lasts (`ForwardOutcomes.LeakIsForGood`), and at rest
  the three maps agree exactly if there is none (`ForwardOutcomes.ForwardsAgree`).
- Between binding and registering, a connection to a new forward is closed
  (`ForwardOutcomes.BoundBeforeRegistered`, `ForwardOutcomes.EarlyConnectionIsClosed`);
  `ForwardOutcomes.DispatchIsExact` says exactly when a connection is delivered.
- A client that authenticates in the middle of a poll, just when the timer has fired, gets a login
  timeout all the same (`PreauthStream.PreauthTimedStream.PollRead`). This takes an SSH library that runs
  the session's handler on another thread than the one that polls the stream.
- The frame writer does not check the reader's limit: a stream reads back exactly if every payload is at
  most 1 MiB (`FrameCodec.RoundTrip`).
- A key file that could not be read for a moment stays unloaded until its fingerprint changes
  (`KeyCache.MomentaryFailureSticks`); `RefreshIfDue` says exactly when a check leaves the file's keys
  cached.
- A log rotation that is cut short loses the file handle, and the next flush and the next write that does
  not rotate panic (`LogRotation.PanicAfterFailedRename`); one cut short right after the rename never recovers and deletes
  the rotated file as well (`LogRotation.NoLogAfterFailedOpen`).

## Assumptions

- Operations under one lock are atomic. Times given to the admission controller do not decrease. The log
  limiter needs this only for the lemmas that ask for it.
- Token counts are real numbers; rounding of `f64` is not modelled. Subtracting a window from an instant
  does not underflow.
- Request ids, forward tokens and file lengths stay below 2^64. Control messages fit the 64 KiB that one
  receive takes.
- A handler call runs to completion; a session handles one thing at a time.
- The executor process does not end. When it ends, its listeners go and registrations and handles stay.
- The operating system never binds an address and port that are bound already. An accept loop only ends
  when its forward is cancelled.
- Payload coding is any pair of functions of which the second undoes the first. In the pipeline it also
  keeps an 8 KiB chunk and an exit status within the frame limit.
- Reads of the child's pipes and writes to the stream and the channel do not fail.
- Nobody else touches the two log files. The key file may change at any moment, also between the check
  and the read.

## Model

| member | source | states |
|---|---|---|
| `Network.SubnetsArePrefixes` | src/admission.rs:374-400 | Two addresses are counted in one subnet exactly if they are of one family and share their first 24 bits (IPv4) or 64 bits (IPv6) |
| `TokenBucket.BucketIsExact` | src/admission.rs:339-366 | The bucket grants a token exactly when, from every earlier start point (creation, any try, now), the admissions so far and this one fit burst plus rate times time passed |
| `TokenBucket.BucketKeepsTheRate` | src/admission.rs:347-366 | In whole numbers: a token is granted exactly if the burst is at least one and, from every start point, (admissions with this one - burst) times 60 s is at most the limit per minute times the nanoseconds passed |
| `TokenBucket.EveryWindowKeepsTheRate` | src/admission.rs:347-366 | In whole numbers: between any start point and the end of a log no more were granted than that |
| `TokenBucket.TokensAreTightest` | src/admission.rs:358-366 | After a refill the token count is the smallest remaining credit over all start points, at most the burst |
| `TokenBucket.EveryWindowObeysTheBudget` | src/admission.rs:347-366 | From any start point to the end of any genuine log, at most burst plus rate times time were admitted |
| `TokenBucket.RejectedTriesLeaveNoTrace` | src/admission.rs:347-356 | Deleting the rate-limited tries changes neither the bucket nor any later decision |
| `AdmissionHistory.CapsHold` | src/admission.rs:192-205 | After every event of every faithful history the connections held are within the global cap, the subnet cap and max(1, address cap) |
| `AdmissionHistory.ZeroCapAdmitsOne` | src/admission.rs:196-200 | With an address cap of zero a quiet address is admitted all the same |
| `AdmissionHistory.StaysIdle` | src/admission.rs:319-330 | An address about which nothing needs remembering stays so until its next event, so dropping its entry early cannot be observed |
| `AdmissionHistory.LifetimeIsGenuine` | src/admission.rs:207-218 | What is asked of an entry's bucket during its lifetime is a genuine log, so the bucket's theorems apply to every run |
| `AdmissionHistory.IdleIsNeverRateLimited` | src/admission.rs:207-218 | With a burst of at least one, an address about which nothing is remembered is never rate-limited |
| `AdmissionHistory.ChurnIsUnlimited` | src/admission.rs:248-269 | For every number there is a faithful history with that many admissions of one address at one moment, each released before the next |
| `AdmissionCauses.BannedExactly` | src/admission.rs:239-241 | An address is banned exactly if some failure of it made a ban at t with t <= now < t + duration |
| `AdmissionCauses.StrikesAreCounted` | src/admission.rs:234-239 | The failures that count are those of the address, not older than the cutoff, with no ban at or after them |
| `AdmissionCauses.DecisionHasCause` | src/admission.rs:184-224 | A ban rejection if and only if such a ban runs; each cap rejection only with that cap reached and no earlier one; admission and rate limiting only below all caps |
| `AdmissionCauses.RateLimitHasCause` | src/admission.rs:207-218 | A rate-limited attempt would, with the admissions of its address from some moment on, exceed burst plus limit per minute |
| `AdmissionCauses.RateWhileBusy` | src/admission.rs:207-218 | From an admission on, as long as the address stays busy, no more of its connections are admitted than burst plus limit per minute |
| `Admission.PruneBefore` | src/admission.rs:402-406 | The loop drops from the front exactly the leading times before the cutoff |
| `Admission.PrunedIsWindow` | src/admission.rs:402-406 | On times in order, as many are left as lie in the window, so popping from the front is enough |
| `Admission.PruneKeepsCount` | src/admission.rs:402-406 | Pruning loses nothing that a later, narrower window would count |
| `Admission.RefreshTransientState` | src/admission.rs:319-324 | The entry without failures outside the window and without an expired ban |
| `Admission.RetainPeers` | src/admission.rs:277-281 | The loop keeps, refreshed, exactly the entries that still have something to remember |
| `Admission.RefreshKeeps` | src/admission.rs:319-330 | A refreshed entry still agrees with the history, and it may be removed exactly if the address is idle: no connection, no running ban, no failure in the window |
| `Admission.BucketOfEntry` | src/admission.rs:207-218 | The bucket found in the entry, or made for it, answers as the reference does for the current lifetime |
| `Admission.StrikeKeeps` | src/admission.rs:234-246 | The failures kept in the entry number exactly the failures since the last ban within the window |
| `Admission.BanKeeps` | src/admission.rs:239-242 | A new ban in the entry runs exactly as long as the history says |
| `Admission.SurvivorIsJustified` | src/admission.rs:326-330 | An entry that is kept has a live connection or a failure recent enough to matter |
| `Admission.AdmissionState.constructor` | src/admission.rs:167-176 | A fresh controller agrees with the empty history |
| `Admission.AdmissionState.MaybeCleanupPeers` | src/admission.rs:271-282 | Swept or not, the state agrees with the history, so no entry of a held connection goes; afterwards the last sweep is less than a minute old |
| `Admission.AdmissionState.CleanupPeer` | src/admission.rs:284-294 | The entry of one address is brought up to date or goes, if nothing is lost by it; no other is touched |
| `Admission.AdmissionState.TryAcquire` | src/admission.rs:178-224 | The answer is the reference decision for the history so far: banned exactly while a ban of that address runs, then caps by connections held, then the rate |
| `Admission.AdmissionState.CheckCaps` | src/admission.rs:186-205 | Rejects exactly as the reference does before the rate limiter is asked |
| `Admission.AdmissionState.ConsumeToken` | src/admission.rs:207-224 | Admits or rate-limits as the reference does, and counts the connection in all three scopes |
| `Admission.AdmissionState.RecordAuthFailure` | src/admission.rs:226-246 | True exactly when the failures of the address since its last ban, within the window and with this one, reach the threshold, however entries were pruned or removed in between |
| `Admission.AdmissionState.Release` | src/admission.rs:248-269 | The slot of a held connection goes back in all three scopes; the guards against zero never take effect |
| `AdmissionGuards.AdmissionController.TryAcquireAt` | src/admission.rs:54-71 | A guard is handed out exactly on admission; every rejection has its cause: banned if and only if a ban runs, a cap only if the live guards reach it and no earlier cap, the rate only if the admissions exceed it |
| `AdmissionGuards.AdmissionController.RecordAuthFailureAt` | src/admission.rs:77-80 | True exactly if the failures of the address in the window and after its last ban, with this one, number the threshold or more; no guard is touched |
| `AdmissionGuards.AdmissionGuard.Release` | src/admission.rs:100-107 | Releases once: a second call leaves history, clock and live guards as they are |
| `AdmissionGuards.AdmissionGuard.MarkAuthenticated` | src/admission.rs:95-114 | Consuming a guard, and the drop that follows, together release exactly one slot |
| `AdmissionGuards.CountersAreLiveGuards` | src/admission.rs:178-294 | In every reachable state the global, subnet and address counts are the numbers of unreleased guards, a subnet is listed exactly if it has one, and all are within the caps |
| `AdmissionGuards.PeerStateIsBounded` | src/admission.rs:271-294 | The peer map never has more entries than the global cap plus the addresses that failed within max(ban window, ban duration) plus one sweep interval; with a burst of zero, addresses that tried to connect count too |
| `AdmissionGuards.SeenPeersFailed` | src/admission.rs:326-330 | With a burst of at least one, the addresses counted there are exactly those with a recorded failure in that time |
| `ExecutorCalls.RunKeepsCalls` | src/executor.rs:665-682 | Inductive invariant on every run: waiters, pipeline, mailbox and records fit together |
| `ExecutorCalls.InFlightIsAwaited` | src/executor.rs:665-682 | While the reader runs, the ids in request queue, execution and response queue are distinct and are exactly those of waiting calls |
| `ExecutorCalls.NoCallIsLost` | src/executor.rs:420-473 | A waiting call has its completion at hand or its request still in the pipeline |
| `ExecutorCalls.CallsCompleteOnce` | src/executor.rs:420-473 | A completion stands in every continuation, and an answer is what the executor computed for that very id |
| `ExecutorCalls.DrainReachesEveryWaiter` | src/executor.rs:466-472 | When the reader stops, every registered waiter has its completion and the map is empty |
| `ExecutorCalls.EnteringSettlesIt` | src/executor.rs:665-682 | If the reader runs when a call enters the map of waiters, the call is stranded in no continuation; if the reader has stopped, it is stranded as soon as it is sent, in every continuation |
| `ExecutorCalls.StrandedExactly` | src/executor.rs:665-682 | On every run, a waiting call is stranded if and only if it entered the map of waiters after the reader had stopped |
| `ExecutorCalls.StrandedInEveryContinuation` | src/executor.rs:665-682 | A stranded call waits in every continuation of the run |
| `ExecutorCalls.CallCanBeStranded` | src/executor.rs:665-682 | Such a run exists |
| `RemoteForwards.RunKeepsForwards` | src/executor.rs:582-652 | Inductive invariant on every run, disturbed or not: the fate that the run gives a token fixes it in listeners, registrations and handles |
| `RemoteForwards.StepIsLocal` | src/executor.rs:582-652 | A step that touches one call, one session and one token, and leaves these right, leaves every forward right |
| `ForwardOutcomes.ForwardsAgree` | src/sshd.rs:1059-1158 | When no call can go on and the executor is done, on every run: registrations and handles hold the same tokens, the listeners hold these and exactly the leaked ones, so all agree if and only if no token was leaked; while the reader runs, if and only if no cancellation failed to be sent |
| `ForwardOutcomes.UntilRestSomethingGoesOn` | src/executor.rs:281-322 | As long as the system is not at rest in that sense, a call, the executor or the reader can take a step by itself |
| `ForwardOutcomes.HandlesAreExclusive` | src/sshd.rs:1059-1158 | On every run a handle's token is registered for its session and in no other handle; its listener is on the port of its key, on 127.0.0.1 without gateway ports, else on the address of its key, or 0.0.0.0 if that is empty |
| `ForwardOutcomes.LoopbackOnly` | src/sshd.rs:1070-1078 | Without gateway ports, on every run, every listener is on 127.0.0.1, leaked ones included |
| `ForwardRequests.HandlesMeetTheRequest` | src/sshd.rs:1086-1124 | On every run a handle has the address that was asked for and a port that is not zero, the one asked for unless that was zero |
| `ForwardOutcomes.TokensAreNeverReused` | src/executor.rs:661-663 | A token stands for the session that asked for it in every continuation |
| `ForwardOutcomes.DispatchIsExact` | src/executor.rs:925-947 | A dispatched connection goes to the session that asked for its forward exactly while the forward is registered (call past registering, owned by a session, cancellation not past unregistering), and is closed otherwise |
| `ForwardOutcomes.DeliveriesReachRequester` | src/executor.rs:925-947 | On every run, every connection that was delivered went to the session that asked for its forward |
| `ForwardOutcomes.CancelsSucceed` | src/executor.rs:833-839 | On every run, the executor never finds the token of a cancellation unknown |
| `ForwardOutcomes.LeakedIsUnknown` | src/executor.rs:582-652 | At every moment of every run, a leaked listener is bound and is in no registration and no handle |
| `ForwardOutcomes.LeakIsForGood` | src/executor.rs:633-652 | A leaked listener is leaked in every continuation |
| `ForwardOutcomes.LedgerIsHistory` | src/executor.rs:582-652 | The ledger calls a token lost exactly if a cancellation of it failed to be sent, and cut short exactly if the drain ended the call that was binding it |
| `ForwardOutcomes.CancelLeakHappens` | src/executor.rs:633-682 | A run, with the reader running and at rest in the end, on which a cancellation fails to be sent |
| `ForwardOutcomes.BindLeakHappens` | src/executor.rs:466-473 | A run on which the drain ends a call, the executor binds its port afterwards, and everything is at rest |
| `ForwardOutcomes.StrandedLeakHappens` | src/executor.rs:665-682 | A run, at rest in the end, on which the executor bound a forward for a call that entered after the drain |
| `ForwardOutcomes.BoundBeforeRegistered` | src/executor.rs:591-618 | From binding until registering the listener is there, and each connection to it that is dispatched is closed |
| `ForwardOutcomes.EarlyConnectionIsClosed` | src/executor.rs:795-831 | A run on which a connection to a live listener is closed |
| `FrameCodec.U32RoundTrip` | src/executor.rs:1514-1524 | Reading a big-endian length word gives the length written |
| `FrameCodec.LengthIsBigEndian` | src/executor.rs:1521-1522 | The most significant byte of a length comes first |
| `FrameCodec.ReadFrame` | src/sshd.rs:1294-1316 | A frame at the head of a stream reads as its message, or is refused exactly if its payload exceeds 1 MiB |
| `FrameCodec.RoundTrip` | src/executor.rs:1490-1524 | The frames of any messages read back as those messages and a clean end if and only if no payload exceeds 1 MiB |
| `FrameCodec.Truncation` | src/sshd.rs:1294-1316 | Cut anywhere, a stream gives exactly its complete messages, then a clean end between frames or in a length word, an error in a body |
| `ProcessPipeline.RunKeeps` | src/executor.rs:1344-1408 | Inductive invariant on every schedule, with frames written in any pieces: each byte is in exactly one place, in order |
| `ProcessPipeline.ChannelIsPrefix` | src/sshd.rs:1202-1235 | At every moment the channel has received a prefix of what the child wrote, on each stream |
| `ProcessPipeline.EndToEnd` | src/sshd.rs:1202-1235 | When the bridge is done, the channel has the child's exact output on each stream in pieces of at most 8192 bytes, then one exit status, the child's, then EOF, then close |
| `ProcessPipeline.BridgeNeverFails` | src/sshd.rs:1202-1235 | On no schedule does the bridge meet a broken frame, or take one that is still being written for the end |
| `ProcessPipeline.SomeStepIsEnabled` | src/executor.rs:1344-1408 | Once the child is gone, some task can go on until the bridge is done |
| `ProcessPipeline.SchedulesEnd` | src/executor.rs:1526-1553 | No schedule of the tasks has more turns than a bound fixed by the state |
| `ProcessPipeline.EveryRunCanFinish` | src/sshd.rs:1202-1235 | Once the child is gone, every run can be continued by turns of the tasks until the bridge is done |
| `ProcessPipeline.TaggedIsSuitable` | src/executor.rs:1514-1524 | A payload coding as the results ask for exists |
| `PreauthStream.Deadline` | src/sshd.rs:393-398 | Nothing that arrives moves the deadline past the login deadline |
| `PreauthStream.DeadlineExactly` | src/sshd.rs:424-447 | The chunk with the first newline of all sets min(its time + timeout, login deadline), whatever follows the newline in it; every other chunk leaves or brings back the login deadline |
| `PreauthStream.BannerTimeIsFixed` | src/sshd.rs:424-447 | The first newline sets the key exchange deadline once; any later chunk ends it |
| `PreauthStream.PreauthTimedStream.CurrentDeadline` | src/sshd.rs:393-398 | The deadline kept in the fields is the one that the arrivals give |
| `PreauthStream.PreauthTimedStream.CheckTimeout` | src/sshd.rs:405-422 | A timeout is due exactly when an unauthenticated client is past the deadline, and names what it failed to do |
| `PreauthStream.PreauthTimedStream.NoteClientBytes` | src/sshd.rs:424-447 | After any chunk the fields are those of the longer record of arrivals, and the timer is armed for the key exchange exactly by the chunk with the first newline |
| `PreauthStream.PreauthTimedStream.PollDeadline` | src/sshd.rs:449-460 | The made-up error is returned exactly if the timer has fired, the flag is set by the second look and nothing was due at the first; pending means before the deadline |
| `PreauthStream.PreauthTimedStream.PollRead` | src/sshd.rs:467-492 | A client that stays unauthenticated is cut off at the deadline whatever it sends, and only for a timeout that is due; an authenticated one is never cut off, except by the made-up error exactly if the flag is set during a poll that finds nothing and whose timer has fired |
| `PreauthSlots.PreauthContext.constructor` | src/sshd.rs:306-319 | Wrapping a live guard raises the gauge with the set of holders |
| `PreauthSlots.PreauthContext.TakeGuard` | src/sshd.rs:321-341 | After a context has lost its guard, every other holder still owns a live guard of its own |
| `PreauthSlots.PreauthContext.ReleaseSlot` | src/sshd.rs:324-325 | The slot goes back to the controller while every other holder keeps its own live guard |
| `PreauthSlots.PreauthContext.CloseSlot` | src/metrics.rs:24-31 | The gauge falls by exactly one: the saturating subtraction never saturates |
| `PreauthSlots.PreauthContext.GiveUp` | src/sshd.rs:335-341 | The slot is released and the gauge lowered once, whatever happened before; without a guard neither history, clock, guards nor gauge change |
| `PreauthSlots.PreauthContext.MarkAuthenticated` | src/sshd.rs:321-332 | As on a drop; the drop that follows then finds nothing to give up |
| `PreauthSlots.AuthenticateThenDrop` | src/sshd.rs:321-341 | Authentication and the drop that follows add one release to the history and lower the gauge by one, as a drop alone does |
| `PreauthSlots.BothGiveUp` | src/sshd.rs:321-341 | Two contexts, one dropped and one authenticated, release one slot each |
| `PreauthSlots.GaugeIsCountOfWrapped` | src/sshd.rs:298-341 | Between steps the gauge is the admission count less the guards not wrapped yet |
| `KeyCache.FromText` | src/authorized_keys.rs:257-286 | Loads exactly the contents within the limit whose entries all parse and whose plain keys are distinct; a key is accepted exactly if an entry is that key alone, and ignored is the number of entries with options |
| `KeyCache.Load` | src/authorized_keys.rs:208-232 | Succeeds exactly on a readable file within size and content limits |
| `KeyCache.AuthorizedKeysState.FromFile` | src/authorized_keys.rs:113-133 | Starts with the file's keys and one load |
| `KeyCache.AuthorizedKeysState.FromMissing` | src/authorized_keys.rs:135-153 | Starts with no keys and no load |
| `KeyCache.AuthorizedKeysState.RefreshIfDue` | src/authorized_keys.rs:155-198 | Loads exactly on a due check of a changed, not known failing, readable, small, acceptable file; accepted keys are then and always the plain keys of the last file that loaded, and the generation counts the loads; a due check on a loadable file leaves its keys cached exactly if its fingerprint is not remembered as failing |
| `KeyCache.AuthorizedKeysState.Contains` | src/authorized_keys.rs:241-246 | A key is accepted exactly if it stands alone in an entry of the file that was loaded last |
| `KeyCache.MomentaryFailureSticks` | src/authorized_keys.rs:161-172 | Whatever was loaded before, one failed read of any loadable new file keeps the old keys cached through any number of later checks |
| `LogLimiter.EverySuppressionIsAccountedFor` | src/log_limiter.rs:67-122 | For every key and run, suppressed lines are those reported, those still counted and those dropped with an entry |
| `LogLimiter.OldEntriesAreSpent` | src/log_limiter.rs:102-104 | An entry that was dropped for its age would have let the line through anyway |
| `LogLimiter.SuppressedWithinTheWindow` | src/log_limiter.rs:67-93 | A line is suppressed exactly if it was emitted less than a window ago and its entry was not crowded out since |
| `LogLimiter.SuppressedByElapsedTime` | src/log_limiter.rs:70-92 | The same with a clock that may go back: exactly if its last emission is known and less than a window ago, or in the future |
| `LogLimiter.LastEmitIsLatest` | src/log_limiter.rs:70-92 | The emission that counts is the latest of all: there is one at or after a moment exactly if that one is |
| `LogLimiter.OneLinePerWindow` | src/log_limiter.rs:67-122 | From any moment on, a key that is never crowded out is emitted at most once per window |
| `LogLimiter.Retain` | src/log_limiter.rs:103-104 | Exactly the entries older than the retention go |
| `LogLimiter.OldIsTwoWindows` | src/log_limiter.rs:102-104 | Entries are old exactly after two windows |
| `LogLimiter.SortedByEmission` | src/log_limiter.rs:111-116 | Every key once, longest unemitted first |
| `LogLimiter.Crowd` | src/log_limiter.rs:111-121 | Leaves exactly the allowed number, and no entry that went is younger than one that stays |
| `LogLimiter.Answer` | src/log_limiter.rs:70-92 | Decides and counts as the history says |
| `LogLimiter.LogLimiterState.MaybeCleanup` | src/log_limiter.rs:95-122 | Cleans up exactly past a window or past the limit; no entry that goes is younger than one that stays, and no more than the allowed entries are left |
| `LogLimiter.LogLimiterState.Check` | src/log_limiter.rs:67-93 | The decision is the one the history of checks and drops gives; at most one entry over the limit remains |
| `LogRotation.RotatingLogFile.RotateIfNeeded` | src/logging.rs:73-94 | Under every fault what the files hold is the unbroken end of the log; exactly how far a rotation gets under each fault, and that it loses the handle exactly if it does not get to the end |
| `LogRotation.RotatingLogFile.Write` | src/logging.rs:98-107 | The same for writes; the file stays within max(limit, this write); panics exactly if an earlier rotation was cut short and this write does not rotate |
| `LogRotation.RotatingLogFile.Flush` | src/logging.rs:109-114 | Panics exactly if the handle was lost |
| `LogRotation.PanicAfterFailedRename` | src/logging.rs:81-114 | For every log and limit: after a failed rename, a flush and a write that fits each panic |
| `LogRotation.NoLogAfterFailedOpen` | src/logging.rs:81-104 | For every log and limit: after a failed open no later write arrives, and the first that would rotate deletes the rotated file |
| `PathNormalizer.NormalizePath` | src/sftp.rs:308-328 | The loop leads where following the components one by one leads; when the result is absolute |
| `PathNormalizer.ResolvePath` | src/sftp.rs:43-50 | Absolute input gives one result for every home directory, relative input starts there |
| `PathNormalizer.WalkComposes` | src/sftp.rs:308-328 | Normalising `p` and then `q` is normalising their concatenation |
| `PathNormalizer.RootStartsOver` | src/sftp.rs:314 | What comes before a root component has no say in the result |
| `PathNormalizer.DirectoriesAreFixed` | src/sftp.rs:308-328 | Results are fixed points |
| `PathNormalizer.WalkFromAnywhere` | src/sftp.rs:308-328 | A path without a root drops as many names of its base as it climbs, never above the root, and appends what it resolves to from the root |
| `PathNormalizer.AnyOrderNormalizes` | src/sftp.rs:308-328 | Cancelling `.`, `name/..` and `..` at the root in any order until nothing is left to cancel gives the result |
| `PathNormalizer.SomeOrderNormalizes` | src/sftp.rs:308-328 | Every path can be cancelled to the end |

## Left out

- Peer entries and their buckets are values in the map of `AdmissionState`, not objects changed through a reference into it; nothing else holds such a reference.
- The parser's library (key exchange, authentication, channel windows), the SFTP library and the JSON coding: not part of this repository.
- PTY processes and `run_pty_control`: the same queue and frames as the piped service, with a thread of operating system calls in between.
- Input to a process: one loop in the other direction over the frames modelled here.
- Failing reads and writes in the process pipeline: they end a task, and what is then lost depends on the operating system.
- Cancellation of a handler in the middle of a call, and the end of an accept loop on an error.
- The executor on Windows, which runs in the same process without a control channel, and the Windows service.
- Direct TCP channels and the transfer of file descriptors: one request and one answer, as `OtherRequest` in the protocol.
- `poll_write`, `poll_flush` and `poll_shutdown` of the stream: the same two deadline checks as `poll_read` without the bytes.
- The address and port that a session is told a forwarded connection came in on: copied from the request and the answer.
- SFTP file operations and the handle table: wrappers of file system calls.
- Configuration, sandbox, signals, the other metrics and log texts: long and flat, with nothing to prove about runs.
