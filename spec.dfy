/**
 * The process input stream as a state machine on values.
 *
 * `St` holds every field of the stream together with the parts of the outside
 * world the stream changes: the readability watcher in the event loop, the
 * promises handed out by read(), the errors that callbacks report to the loop,
 * and the calls that release the OS resource. Each entry point and callback is
 * a function from the old state to the new one; the class in ProcessStream
 * performs the same steps in place and is proved equal to these functions.
 */
module InputStreamSpec {
  import opened StreamTypes

  datatype St = St(
    start: StartState,
    queue: seq<Action>,                // callbacks queued on the pending start promise
    readDeferred: Option<nat>,         // the outstanding read, as an index into promises
    readable: bool,
    resource: Option<Resource>,
    watcher: Watcher,
    referenced: bool,                  // the watcher's reference bit
    promises: seq<Settlement>,         // every promise read() has returned, in order
    loopErrors: seq<Error>,            // errors thrown inside callbacks, forwarded to the loop
    osCalls: seq<OsCall>)

  /** A state together with what the step returned or threw. */
  datatype Step<T> = Step(state: St, result: Outcome<T>)

  predicate ValidIds(q: seq<Action>, n: nat) {
    forall k :: 0 <= k < |q| && q[k].EnableRead? ==> q[k].id < n
  }

  /** Every promise index the state mentions exists. */
  predicate WellFormed(s: St) {
    (s.readDeferred.Some? ==> s.readDeferred.value < |s.promises|) && ValidIds(s.queue, |s.promises|)
  }

  /** The stream just after construction: start pending, readable, no resource, no watcher. */
  function Init(): St {
    St(StartPending, [], None, true, None, Unregistered, true, [], [], [])
  }

  // ---------------------------------------------------------------------------
  // Primitive steps: settling a promise and the four loop calls on the watcher.

  /** Resolve or fail read promise `id`; a promise that is already settled throws. */
  function Settle(s: St, id: nat, v: Settlement): Step<()>
    requires id < |s.promises|
  {
    if s.promises[id].Unsettled? then Step(s.(promises := s.promises[id := v]), Returned(()))
    else Step(s, Threw(AlreadyResolved))
  }

  function LoopEnable(s: St): Step<()> {
    match s.watcher
    case Unregistered => Step(s, Threw(NullArgument))
    case Cancelled => Step(s, Threw(InvalidWatcher))
    case _ => Step(s.(watcher := Enabled), Returned(()))
  }

  function LoopDisable(s: St): Step<()> {
    match s.watcher
    case Unregistered => Step(s, Threw(NullArgument))
    case Enabled => Step(s.(watcher := Disabled), Returned(()))
    case _ => Step(s, Returned(()))
  }

  function LoopCancel(s: St): Step<()> {
    if s.watcher.Unregistered? then Step(s, Threw(NullArgument))
    else Step(s.(watcher := Cancelled), Returned(()))
  }

  function LoopReference(s: St): Step<()> {
    match s.watcher
    case Unregistered => Step(s, Threw(NullArgument))
    case Cancelled => Step(s, Threw(InvalidWatcher))
    case _ => Step(s.(referenced := true), Returned(()))
  }

  function LoopUnreference(s: St): Step<()> {
    match s.watcher
    case Unregistered => Step(s, Threw(NullArgument))
    case Cancelled => Step(s, Returned(()))
    case _ => Step(s.(referenced := false), Returned(()))
  }

  /** An error thrown inside a callback does not reach the caller: the loop receives it. */
  function Raise(s: St, e: Error): St {
    s.(loopErrors := s.loopErrors + [e])
  }

  function Report(r: Step<()>): St {
    if r.result.Threw? then Raise(r.state, r.result.error) else r.state
  }

  /**
   * Clear the read slot, resolve the read it held with end-of-stream and cancel
   * the watcher; an error stops the remaining steps.
   */
  function ReleaseRead(s: St): Step<()>
    requires WellFormed(s)
  {
    if s.readDeferred.Some? then
      var r := Settle(s.(readDeferred := None), s.readDeferred.value, ResolvedWith(None));
      if r.result.Threw? then r else LoopCancel(r.state)
    else LoopCancel(s)
  }

  // ---------------------------------------------------------------------------
  // Callbacks queued on the start promise, and the start callback.

  /** The callback that close() queues on the pending start promise. */
  function CloseCallback(s: St): Step<()>
    requires WellFormed(s)
  {
    if s.resource.None? then Step(s, Threw(NullArgument))
    else ReleaseRead(s.(osCalls := s.osCalls + [ShutdownRead], readable := false))
  }

  /** Run one queued callback once the start promise has settled; `failure` is its error, if any. */
  function RunAction(s: St, a: Action, failure: Option<Error>): (r: St)
    requires WellFormed(s) && (a.EnableRead? ==> a.id < |s.promises|)
    ensures WellFormed(r) && |r.promises| == |s.promises|
    ensures r.queue == s.queue && r.start == s.start && r.resource == s.resource
    ensures r.watcher.Unregistered? <==> s.watcher.Unregistered?
    ensures s.resource.None? ==> r == s.(promises := r.promises, watcher := r.watcher, loopErrors := r.loopErrors)
  {
    match a
    case EnableRead(id) =>
      if failure.Some? then Report(Settle(s, id, Rejected(failure.value))) else Report(LoopEnable(s))
    case CloseAction => Report(CloseCallback(s))
    case ReferenceAction => if s.resource.None? then Raise(s, AlreadyFreed) else Report(LoopReference(s))
    case UnreferenceAction => if s.resource.None? then Raise(s, AlreadyFreed) else Report(LoopUnreference(s))
  }

  /** The start promise runs its queued callbacks in the order they were attached. */
  function RunQueue(s: St, q: seq<Action>, failure: Option<Error>): (r: St)
    requires WellFormed(s) && ValidIds(q, |s.promises|)
    ensures WellFormed(r) && |r.promises| == |s.promises|
    ensures r.queue == s.queue && r.start == s.start && r.resource == s.resource
    ensures r.watcher.Unregistered? <==> s.watcher.Unregistered?
    ensures s.resource.None? ==> r == s.(promises := r.promises, watcher := r.watcher, loopErrors := r.loopErrors)
    decreases |q|
  {
    if q == [] then s else RunQueue(RunAction(s, q[0], failure), q[1..], failure)
  }

  /** The error with which the start callback fails the start promise, if it does. */
  function StartFailure(outcome: StartOutcome): (e: Option<Error>)
    ensures e.None? <==> outcome.StreamWithMode? && ModeReadable(outcome.mode)
  {
    match outcome
    case UpstreamFailed(reason) => Some(Upstream(reason))
    case NotAStream => Some(ExpectedValidStream)
    case StreamWithMode(mode) => if ModeReadable(mode) then None else Some(ExpectedReadableStream)
  }

  /**
   * The start callback. A failure fails the start promise, whose callbacks then
   * run with the error and which stays non-null for good. Success registers the
   * watcher disabled and referenced, runs the queued callbacks, and nulls the
   * start promise. The stream value is not stored in `resource`.
   */
  function ResolveStart(s: St, outcome: StartOutcome): (r: St)
    requires WellFormed(s) && s.start.StartPending?
    ensures WellFormed(r) && r.queue == [] && r.resource == s.resource
    ensures r.start.Started? <==> outcome.StreamWithMode? && ModeReadable(outcome.mode)
    ensures !r.start.Started? ==> r.start == StartFailed(StartFailure(outcome).value)
    ensures !r.start.Started? ==> (r.watcher.Unregistered? <==> s.watcher.Unregistered?)
    ensures r.start.Started? ==> !r.watcher.Unregistered?
  {
    match StartFailure(outcome)
    case Some(e) => RunQueue(s.(start := StartFailed(e), queue := []), s.queue, Some(e))
    case None => RunQueue(s.(watcher := Disabled, referenced := true, queue := []), s.queue, None).(start := Started)
  }

  // ---------------------------------------------------------------------------
  // Entry points.

  /**
   * read(): at most one outstanding read; a pending stream queues the watcher's
   * enabling on the start promise (or fails at once if start has failed); a
   * started, unreadable stream answers end-of-stream at once.
   */
  function Read(s: St): (r: Step<nat>)
    requires WellFormed(s)
    ensures WellFormed(r.state)
    ensures r.state.start == s.start
    ensures s.readDeferred.Some? ==> r == Step(s, Threw(PendingReadError))
    ensures s.readDeferred.None? ==> r.result == Returned(|s.promises|) || s.start.Started?
    ensures s.readDeferred.None? ==> |r.state.promises| == |s.promises| + 1 && r.state.promises[..|s.promises|] == s.promises
    ensures s.readDeferred.None? && s.start.StartPending? ==>
      && r.state.readDeferred == Some(|s.promises|) && r.state.promises[|s.promises|].Unsettled?
      && r.state.queue == s.queue + [EnableRead(|s.promises|)] && r.state.watcher == s.watcher
    ensures s.readDeferred.None? && s.start.StartFailed? ==>
      && r.state.readDeferred == Some(|s.promises|)
      && r.state.promises[|s.promises|] == Rejected(s.start.error)
    ensures s.readDeferred.None? && s.start.Started? && !s.readable ==>
      && r.result == Returned(|s.promises|) && r.state.readDeferred == None
      && r.state.promises[|s.promises|] == ResolvedWith(None) && r.state.watcher == s.watcher
    ensures s.readDeferred.None? && s.start.Started? && s.readable && (s.watcher.Disabled? || s.watcher.Enabled?) ==>
      && r.result == Returned(|s.promises|) && r.state.readDeferred == Some(|s.promises|)
      && r.state.promises[|s.promises|].Unsettled? && r.state.watcher == Enabled
  {
    if s.readDeferred.Some? then Step(s, Threw(PendingReadError))
    else
      var id := |s.promises|;
      if !s.start.Started? then
        var s1 := s.(promises := s.promises + [Unsettled], readDeferred := Some(id));
        if s.start.StartPending? then Step(s1.(queue := s1.queue + [EnableRead(id)]), Returned(id))
        else Step(RunAction(s1, EnableRead(id), Some(s.start.error)), Returned(id))
      else if !s.readable then
        Step(s.(promises := s.promises + [ResolvedWith(None)]), Returned(id))
      else
        var e := LoopEnable(s.(promises := s.promises + [Unsettled], readDeferred := Some(id)));
        Step(e.state, if e.result.Threw? then Threw(e.result.error) else Returned(id))
  }

  /** free(): drop the resource, mark unreadable, end the outstanding read once, cancel the watcher. */
  function Free(s: St): (r: Step<()>)
    requires WellFormed(s)
    ensures WellFormed(r.state) && r.state.resource.None? && !r.state.readable && r.state.readDeferred.None?
    ensures |r.state.promises| == |s.promises|
    ensures forall i :: 0 <= i < |s.promises| && s.readDeferred != Some(i) ==> r.state.promises[i] == s.promises[i]
    ensures s.readDeferred.Some? && s.promises[s.readDeferred.value].Unsettled? ==>
      r.state.promises[s.readDeferred.value] == ResolvedWith(None)
    ensures (s.readDeferred.None? || s.promises[s.readDeferred.value].Unsettled?) && !s.watcher.Unregistered? ==>
      r.result.Returned? && r.state.watcher == Cancelled
  {
    ReleaseRead(s.(resource := None, readable := false))
  }

  /**
   * close(): queued while start is pending, run at once on a failed start, and
   * on a started stream release the resource (if any) and free.
   */
  function Close(s: St): (r: Step<()>)
    requires WellFormed(s)
    ensures WellFormed(r.state)
    ensures s.start.StartPending? ==> r == Step(s.(queue := s.queue + [CloseAction]), Returned(()))
    ensures s.start.Started? ==> r.state.resource.None? && !r.state.readable && r.state.readDeferred.None?
    ensures r.state.start == s.start
    ensures s.start.StartFailed? && s.resource.None? ==> r == Step(Raise(s, NullArgument), Returned(()))
    ensures s.start.Started? && s.resource.None? ==> r.state.osCalls == s.osCalls
    ensures s.start.Started? && s.resource.Some? ==> r.state.osCalls == s.osCalls + [ReleaseCall(s.resource.value)]
  {
    match s.start
    case StartPending => Step(s.(queue := s.queue + [CloseAction]), Returned(()))
    case StartFailed(e) => Step(RunAction(s, CloseAction, Some(e)), Returned(()))
    case Started =>
      Free(if s.resource.Some? then s.(osCalls := s.osCalls + [ReleaseCall(s.resource.value)]) else s)
  }

  /** getResource(): an error before start has succeeded, the resource field afterwards. */
  function GetResource(s: St): (r: Outcome<Option<Resource>>)
    ensures r.Threw? <==> !s.start.Started?
    ensures r.Threw? ==> r.error == NotYetAcquired
    ensures r.Returned? ==> r.value == s.resource
  {
    if !s.start.Started? then Threw(NotYetAcquired) else Returned(s.resource)
  }

  /** reference(): queued while pending; after start, "already freed" without a resource. */
  function Reference(s: St): (r: Step<()>)
    requires WellFormed(s)
    ensures WellFormed(r.state)
    ensures r.state.start == s.start
    ensures s.start.StartPending? ==> r == Step(s.(queue := s.queue + [ReferenceAction]), Returned(()))
    ensures s.start.StartFailed? && s.resource.None? ==> r == Step(Raise(s, AlreadyFreed), Returned(()))
    ensures s.start.Started? && s.resource.None? ==> r == Step(s, Threw(AlreadyFreed))
    ensures s.start.Started? && s.resource.Some? && (s.watcher.Disabled? || s.watcher.Enabled?) ==>
      r == Step(s.(referenced := true), Returned(()))
  {
    match s.start
    case StartPending => Step(s.(queue := s.queue + [ReferenceAction]), Returned(()))
    case StartFailed(e) => Step(RunAction(s, ReferenceAction, Some(e)), Returned(()))
    case Started => if s.resource.None? then Step(s, Threw(AlreadyFreed)) else LoopReference(s)
  }

  /** unreference(): as reference(), clearing the watcher's reference bit. */
  function Unreference(s: St): (r: Step<()>)
    requires WellFormed(s)
    ensures WellFormed(r.state)
    ensures r.state.start == s.start
    ensures s.start.StartPending? ==> r == Step(s.(queue := s.queue + [UnreferenceAction]), Returned(()))
    ensures s.start.StartFailed? && s.resource.None? ==> r == Step(Raise(s, AlreadyFreed), Returned(()))
    ensures s.start.Started? && s.resource.None? ==> r == Step(s, Threw(AlreadyFreed))
    ensures s.start.Started? && s.resource.Some? && (s.watcher.Disabled? || s.watcher.Enabled?) ==>
      r == Step(s.(referenced := false), Returned(()))
  {
    match s.start
    case StartPending => Step(s.(queue := s.queue + [UnreferenceAction]), Returned(()))
    case StartFailed(e) => Step(RunAction(s, UnreferenceAction, Some(e)), Returned(()))
    case Started => if s.resource.None? then Step(s, Threw(AlreadyFreed)) else LoopUnreference(s)
  }

  /** The destructor frees only a stream that still holds a resource. */
  function Destruct(s: St): (r: Step<()>)
    requires WellFormed(s)
    ensures WellFormed(r.state)
    ensures r.state.start == s.start
    ensures s.resource.None? ==> r == Step(s, Returned(()))
    ensures s.resource.Some? ==> r.state.resource.None? && !r.state.readable && r.state.readDeferred.None?
  {
    if s.resource.Some? then Free(s) else Step(s, Returned(()))
  }

  /** What the readiness callback resolves the read with: null for a failed read or an empty one at the end. */
  function ChunkOf(fr: FreadResult): Option<seq<byte>> {
    match fr
    case Chunk(data) => Some(data)
    case EmptyNotAtEnd => Some([])
    case _ => None
  }

  /**
   * The readiness callback: one fread of at most CHUNK_SIZE bytes; a failed
   * read, or an empty one at end-of-file, marks the stream unreadable and
   * cancels the watcher. The slot is cleared before the read is resolved; the
   * consumer may issue a new read during that resolution (`readAgain`), and the
   * watcher is disabled only if the slot is still empty afterwards.
   */
  function OnReadable(s: St, fr: FreadResult, readAgain: bool): (r: St)
    requires WellFormed(s) && s.start.Started? && s.watcher.Enabled? && s.readDeferred.Some?
    requires FreadWellFormed(fr)
    ensures WellFormed(r) && |r.promises| >= |s.promises|
    ensures var id := s.readDeferred.value;
      s.promises[id].Unsettled? ==> r.promises[id] == ResolvedWith(ChunkOf(fr))
    ensures var id := s.readDeferred.value;
      s.promises[id].Unsettled? && r.promises[id].chunk.Some? ==> |r.promises[id].chunk.value| <= CHUNK_SIZE
    ensures fr.ReadFalse? || fr.EmptyAtEnd? ==> !r.readable && r.watcher == Cancelled
    ensures s.promises[s.readDeferred.value].Unsettled? && !readAgain ==>
      r.readDeferred.None? && r.watcher == (if fr.ReadFalse? || fr.EmptyAtEnd? then Cancelled else Disabled)
  {
    var id := s.readDeferred.value;
    var s1 := if fr.ReadFalse? || fr.EmptyAtEnd? then s.(readable := false, watcher := Cancelled) else s;
    var settled := Settle(s1.(readDeferred := None), id, ResolvedWith(ChunkOf(fr)));
    if settled.result.Threw? then Raise(settled.state, settled.result.error)
    else
      var s2 := settled.state;
      var s3 := if readAgain then Read(s2).state else s2;
      if s3.readDeferred.None? then Report(LoopDisable(s3)) else s3
  }
}
