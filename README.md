# ProcessInputStream: the read side of a process pipe

This project models `ProcessInputStream`, the class that wraps one readable pipe of a child
process as a single-reader asynchronous byte source. The pipe resource is not known when the
stream is built: it arrives later through a promise (the *start* promise). Until then the
stream is *pending*. Calls made while it is pending are attached to the start promise as
callbacks. Once started, the stream reads through a readability watcher of the event loop.
The watcher is enabled only while a read is outstanding, which is how the stream applies
backpressure.

The model has four modules:

- `StreamTypes` (types.dfy) holds the values: errors, the start outcome, the result of one
  `fread`, the watcher's four states, the queued callbacks, and the read-size constant
  (1024 bytes).
- `InputStreamSpec` (spec.dfy) is the stream as a state machine on values. Its state `St`
  holds the class's fields and the parts of the outside world the stream changes:
  - the watcher as the loop holds it, with its reference bit;
  - every promise `read()` has returned, each unsettled, resolved (`None` is end-of-stream)
    or rejected;
  - the errors thrown inside callbacks, which the loop receives;
  - the calls that release the OS resource.

  Each entry point and each callback is a function from the old state to the new one.
- `ProcessStream.ProcessInputStream` (stream.dfy) is the class. It has the same fields and
  one method per entry point (`Read`, `Close`, `Free`, `GetResource`, `Reference`,
  `Unreference`, `Destruct`) and per callback (`OnStreamResolved`, `OnReadable`). Each
  method updates the fields in place, in the source's order. Each is proved to leave exactly
  the state the matching `InputStreamSpec` function gives.
- `InputStreamSafety` (safety.dfy) defines the events that can happen to a stream, runs of
  events, and an invariant `Inv`. It proves that every event keeps `Inv`, so every state a
  run reaches from construction satisfies it. It then proves the stream's rules from `Inv`.

The event loop and the OS are inputs. The start callback fires when `OnStreamResolved` is
called with the start outcome: an upstream error, a value that is not a stream, or a stream
with its mode string. The readiness callback fires when `OnReadable` is called with the
`fread` result (data, empty at end-of-file, empty not at end-of-file, or `false`). It also
receives a flag saying whether the consumer issues a new `read()` while the data is
delivered.

Behaviour the model follows as the code is written:

- **`resource` is never assigned.** The start callback captures `$resource` by reference
  (lib/ProcessInputStream.php:38, 45) but never stores the stream in it. So `resource`
  stays null:
  - `getResource()` returns null after start;
  - `reference()` and `unreference()` throw "already freed" after start;
  - `__destruct` never frees.

  `Inv` includes `resource.None?`, and `ReachableSafety` states these consequences for
  every reachable state.
- **Null arguments raise.** The file declares `strict_types=1` (line 1). So the deferred
  close callback's `stream_socket_shutdown($resource, …)` on the null resource throws a
  `TypeError`. That stops the callback before it marks the stream unreadable or cancels the
  watcher (lines 140-151). `Loop::cancel`/`enable`/`disable` on a watcher id that was never
  set throw the same way. The model calls this error `NullArgument`. As a result, a
  `close()` issued while pending has no effect on the stream; it only reports an error to
  the loop (`DeferredCallsOnlyReport`). One might expect a `close()` issued while pending
  to take effect once the resource arrives; the code does not do that.
- **Reads take at most 1024 bytes, and empty chunks happen.** The declared
  `DEFAULT_CHUNK_SIZE = 8192` (line 14) is unused. An empty read that is not at
  end-of-file resolves the read with the empty string (lines 73-81). So although an
  8192-byte default is declared, reads take 1024 bytes and can resolve with `''`.
- **A failed start blocks the stream.** The start promise is nulled only on success
  (lines 47-62, 91), so after a failure it stays non-null whatever happens afterwards, and
  `getResource()` keeps saying "not yet acquired" (`FailedStartStays`). A read is rejected
  with the start error, but its slot is never cleared. If no read was outstanding when the
  start failed, the first `read()` afterwards returns a rejected promise and sets the slot.
  Every `read()` after a slot is set throws `PendingReadError`.
- **Repeated `close()` before a successful start is not ignored.** The doc comment of
  `close()` (line 126) says repeated calls are ignored. That holds once started
  (`CloseIsIdempotent`). While pending, each call queues one more close callback; after a
  failed start, each call reports one more error to the loop (`CloseNotIgnoredBeforeStart`).
- **Event-loop semantics.**
  - Enabling or referencing a cancelled watcher throws.
  - Disabling, cancelling or unreferencing it does nothing.
  - Resolving a promise that is already settled throws.
  - A callback attached to a promise that has already settled runs at once.
  - An error thrown inside a callback goes to the loop, not to the caller.

## Model

| member | source | states |
|---|---|---|
| InputStreamSpec.Read | lib/ProcessInputStream.php:96-123 | a read while one is outstanding throws PendingReadError and changes nothing; pending: records the read and queues the watcher's enabling, watcher untouched; failed start: records the read and rejects it with the start error at once; started and unreadable: a new promise already resolved with end-of-stream, no slot, watcher untouched; started and readable: exactly one outstanding read, watcher enabled; the start state never changes |
| InputStreamSpec.Free | lib/ProcessInputStream.php:171-182 | resource null, unreadable, slot empty; the outstanding read is resolved with end-of-stream and no other promise changes; the watcher ends cancelled |
| InputStreamSpec.Close | lib/ProcessInputStream.php:133-166 | pending: only queues the close callback; failed start: runs the close callback at once, which reports a null-argument error to the loop and changes nothing else; started: ends with no resource, unreadable, no outstanding read, releasing a live resource with exactly one OS call (`ReleaseCall`) and making none without one; the start state never changes |
| StreamTypes.ReleaseCall | lib/ProcessInputStream.php:153-161 | a live resource is half-shut (read side) exactly when its meta data is available and its mode contains `+`; otherwise it is closed |
| InputStreamSpec.GetResource | lib/ProcessInputStream.php:188-194 | throws "not yet acquired" exactly while the start promise is non-null, otherwise returns the resource field |
| InputStreamSpec.Reference | lib/ProcessInputStream.php:201-220 | queued while pending; on a failed start the callback runs at once and reports "already freed" to the loop; started without resource throws "already freed" and changes nothing; started with a live watcher sets the reference bit; the start state never changes |
| InputStreamSpec.Unreference | lib/ProcessInputStream.php:227-246 | as Reference, clearing the reference bit; the start state never changes |
| InputStreamSpec.Destruct | lib/ProcessInputStream.php:248-252 | without a resource nothing changes; with one the stream is freed; the start state never changes |
| InputStreamSpec.StartFailure | lib/ProcessInputStream.php:47-62 | the start succeeds exactly for a stream whose mode contains "r" or "+" |
| InputStreamSpec.ResolveStart | lib/ProcessInputStream.php:44-92 | the queue is emptied and the resource untouched; started exactly on a readable stream, which then has a registered watcher; otherwise failed with the start error and no watcher registered |
| InputStreamSpec.RunAction | lib/ProcessInputStream.php:140-151 | a callback on the settled start promise keeps every promise index valid, leaves start, queue and resource alone, never unregisters or registers the watcher, and with no resource changes only promises, watcher and loop errors |
| InputStreamSpec.RunQueue | lib/ProcessInputStream.php:90 | running the queued callbacks in order keeps the same facts as each single callback |
| InputStreamSpec.OnReadable | lib/ProcessInputStream.php:67-86 | the outstanding read is resolved with the data, with the empty string, or with end-of-stream on false or empty-at-end; a resolved chunk has at most 1024 bytes, which is `fread`'s contract for the 1024-byte request at line 71 and is taken as an assumption on the `fread` result; false or empty-at-end leaves the stream unreadable and the watcher cancelled; with no new read the slot is empty and the watcher disabled (or cancelled) |
| InputStreamSafety.QueueOnSuccess | lib/ProcessInputStream.php:106-112 | after a successful start the queued callbacks change no promise and enable the watcher exactly when a read was queued |
| InputStreamSafety.QueueOnFailure | lib/ProcessInputStream.php:106-109 | after a failed start every unsettled read with a queued callback is rejected with the start error; no other promise and not the watcher changes |
| InputStreamSafety.QueueAppend | lib/ProcessInputStream.php:140 | a callback attached last runs after all earlier ones |
| InputStreamSafety.InitKeepsInv | lib/ProcessInputStream.php:28-42 | the new stream satisfies the invariant |
| InputStreamSafety.ReadKeepsInv | lib/ProcessInputStream.php:96-123 | read() keeps the invariant |
| InputStreamSafety.CloseKeepsInv | lib/ProcessInputStream.php:133-182 | close() keeps the invariant |
| InputStreamSafety.ReferenceKeepsInv | lib/ProcessInputStream.php:201-246 | reference() and unreference() keep the invariant |
| InputStreamSafety.ResolveStartKeepsInv | lib/ProcessInputStream.php:44-92 | the start callback keeps the invariant, for every outcome |
| InputStreamSafety.OnReadableKeepsInv | lib/ProcessInputStream.php:67-86 | the readiness callback keeps the invariant, with or without a re-entrant read |
| InputStreamSafety.StepKeepsInv | lib/ProcessInputStream.php:34-252 | every event that can fire keeps the invariant |
| InputStreamSafety.RunKeepsInv | lib/ProcessInputStream.php:34-252 | every run of events keeps the invariant |
| InputStreamSafety.ReachableSafety | lib/ProcessInputStream.php:38-45 | in every reachable state: resource null; every unsettled read is the one in the slot; watcher enabled only while a read is outstanding (exactly then once started); no unsettled read after a failed start; getResource null once started; reference() and unreference() throw "already freed" once started; the destructor does nothing |
| InputStreamSafety.CloseResolvesOutstandingRead | lib/ProcessInputStream.php:171-182 | close() on a started stream resolves the outstanding read with end-of-stream, cancels the watcher, marks it unreadable, and leaves every other read alone |
| InputStreamSafety.CloseIsIdempotent | lib/ProcessInputStream.php:125-133 | a second close() on a started stream changes nothing |
| InputStreamSafety.ClosedStaysClosed | lib/ProcessInputStream.php:113-116 | a started stream that is no longer readable stays started and unreadable, with no read outstanding and the watcher cancelled, after any sequence of events |
| InputStreamSafety.ReadAfterCloseIsEnd | lib/ProcessInputStream.php:113-116 | after close() on a started stream, followed by any sequence of events, a read returns a promise already resolved with end-of-stream and leaves no read outstanding |
| InputStreamSafety.CloseNotIgnoredBeforeStart | lib/ProcessInputStream.php:125-141 | contrary to the doc comment at line 126, a second close() while pending queues a second close callback, and after a failed start each close() reports another error to the loop |
| InputStreamSafety.StartEnablesPendingRead | lib/ProcessInputStream.php:88-91 | on a successful start the read issued while pending stays outstanding and the watcher is enabled exactly when there is one; the watcher is referenced; getResource returns null |
| InputStreamSafety.FailedStartFailsPendingRead | lib/ProcessInputStream.php:106-109 | on a failed start the pending read is rejected with the start error, its slot stays set, the next read throws PendingReadError, and no read stays unsettled |
| InputStreamSafety.FailedStartStays | lib/ProcessInputStream.php:47-109 | after a failed start, every sequence of events keeps the failed start, so getResource keeps throwing "not yet acquired"; if the read slot was set it stays set, so every later read throws PendingReadError |
| InputStreamSafety.DeferredCallsOnlyReport | lib/ProcessInputStream.php:140-141 | close(), reference() and unreference() issued while pending only add one error for the loop once start resolves; the stream is otherwise as if they had not been called |
| InputStreamSafety.ReadinessKeepsWatcherForNewRead | lib/ProcessInputStream.php:79-85 | when the consumer reads again while data is delivered, the slot holds the new read and the watcher stays enabled |
| InputStreamSafety.ReadinessAtEndAnswersNewRead | lib/ProcessInputStream.php:73-81 | at end-of-stream the read resolves with null, a new read is answered with end-of-stream at once, and the watcher is cancelled |
| ProcessStream.ProcessInputStream.constructor | lib/ProcessInputStream.php:34-42 | a new stream: start pending, readable, no resource, no watcher, no read |
| ProcessStream.ProcessInputStream.Read | lib/ProcessInputStream.php:96-123 | performs exactly InputStreamSpec.Read in place |
| ProcessStream.ProcessInputStream.Close | lib/ProcessInputStream.php:133-166 | performs exactly InputStreamSpec.Close in place |
| ProcessStream.ProcessInputStream.Free | lib/ProcessInputStream.php:171-182 | performs exactly InputStreamSpec.Free in place |
| ProcessStream.ProcessInputStream.GetResource | lib/ProcessInputStream.php:188-194 | returns InputStreamSpec.GetResource of the current state |
| ProcessStream.ProcessInputStream.Reference | lib/ProcessInputStream.php:201-220 | performs exactly InputStreamSpec.Reference in place |
| ProcessStream.ProcessInputStream.Unreference | lib/ProcessInputStream.php:227-246 | performs exactly InputStreamSpec.Unreference in place |
| ProcessStream.ProcessInputStream.Destruct | lib/ProcessInputStream.php:248-252 | performs exactly InputStreamSpec.Destruct in place |
| ProcessStream.ProcessInputStream.OnStreamResolved | lib/ProcessInputStream.php:44-92 | runs the queued callbacks one by one in a loop and ends in InputStreamSpec.ResolveStart of the old state |
| ProcessStream.ProcessInputStream.OnReadable | lib/ProcessInputStream.php:67-86 | performs exactly InputStreamSpec.OnReadable in place |
| ProcessStream.ProcessInputStream.RunAction | lib/ProcessInputStream.php:106-112 | performs exactly one queued callback, as InputStreamSpec.RunAction |
| ProcessStream.ProcessInputStream.CloseCallback | lib/ProcessInputStream.php:140-151 | performs the deferred close callback in place; it stops at once without a resource |
| ProcessStream.ProcessInputStream.ReleaseRead | lib/ProcessInputStream.php:144-150 | clears the slot, resolves the read with null and cancels the watcher, stopping at the first error |

## Left out

- OS stream calls (`fread`, `feof`, `is_resource`, `fclose`, `stream_socket_shutdown`,
  `stream_get_meta_data`, `stream_set_blocking`, `stream_set_read_buffer`) are not modelled
  as code. Their results are inputs: the `fread` result, the start outcome and the resource's
  mode. The release calls are recorded as `osCalls`. The blocking and buffer settings at
  lines 64-65 change nothing the model tracks.
- The event loop's scheduling and the internals of the promises are left out. The watcher is
  an abstract state, and every promise is a slot in `promises`. The loop fires callbacks only
  through `OnStreamResolved` and `OnReadable`.
- The consumer's code that runs when a promise settles is modelled only in the readiness
  callback (the `readAgain` flag). Reads issued from inside the start callbacks or from the
  close callback's resolution are not modelled.
- A failed read of `stream_get_meta_data` on a resource closed from outside is modelled by
  `Resource.metaAvailable`. It cannot occur in a reachable state, because `resource` is
  never set.
- lib/Internal/ProcessHandle.php and lib/Internal/Windows/Handle.php only declare fields,
  with the defaults `pid = 0` and `status = STARTING`. They have no behaviour to prove.
- The Windows wrapper handshake, security tokens and process-status transitions are not
  part of this model. No code for them is present here.
- example/watch-live.php is a demo that drives a real process. It is not modelled.
