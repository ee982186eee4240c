/**
 * Safety of the process input stream: an invariant every reachable state
 * satisfies, and the rules that follow from it.
 */
module InputStreamSafety {
  import opened StreamTypes
  import opened InputStreamSpec

  /** Everything that can happen to a stream: a call of an entry point, or a callback firing. */
  datatype Event =
    | ReadCall
    | CloseCall
    | GetResourceCall
    | ReferenceCall
    | UnreferenceCall
    | DestructCall
    | StartResolved(outcome: StartOutcome)
    | Readiness(fread: FreadResult, readAgain: bool)

  /** The stream promise resolves once; the loop fires only an enabled watcher, and only when a read waits. */
  predicate CanFire(s: St, e: Event) {
    match e
    case StartResolved(_) => s.start.StartPending?
    case Readiness(fr, _) =>
      s.start.Started? && s.watcher.Enabled? && s.readDeferred.Some? && FreadWellFormed(fr)
    case _ => true
  }

  function Apply(s: St, e: Event): (r: St)
    requires WellFormed(s) && CanFire(s, e)
    ensures WellFormed(r)
  {
    match e
    case ReadCall => Read(s).state
    case CloseCall => Close(s).state
    case GetResourceCall => s
    case ReferenceCall => Reference(s).state
    case UnreferenceCall => Unreference(s).state
    case DestructCall => Destruct(s).state
    case StartResolved(o) => ResolveStart(s, o)
    case Readiness(fr, again) => OnReadable(s, fr, again)
  }

  /** A run of events; an event that cannot fire in the current state does not happen. */
  function Run(s: St, evs: seq<Event>): (r: St)
    requires WellFormed(s)
    ensures WellFormed(r)
    decreases |evs|
  {
    if evs == [] then s
    else Run(if CanFire(s, evs[0]) then Apply(s, evs[0]) else s, evs[1..])
  }

  /** At most one read is outstanding: every unsettled promise is the one in the read slot. */
  ghost predicate OnlyOutstanding(s: St) {
    forall i :: 0 <= i < |s.promises| && s.promises[i].Unsettled? ==> s.readDeferred == Some(i)
  }

  ghost predicate NoneOutstanding(s: St) {
    forall i :: 0 <= i < |s.promises| ==> !s.promises[i].Unsettled?
  }

  ghost predicate Inv(s: St) {
    && WellFormed(s)
    && s.resource.None?
    && OnlyOutstanding(s)
    && match s.start
       case StartPending =>
         && s.watcher.Unregistered? && s.readable
         && (forall k :: 0 <= k < |s.queue| && s.queue[k].EnableRead? ==> s.readDeferred == Some(s.queue[k].id))
         && (s.readDeferred.Some? ==>
               s.promises[s.readDeferred.value].Unsettled? && EnableRead(s.readDeferred.value) in s.queue)
       case StartFailed(_) =>
         s.watcher.Unregistered? && s.queue == [] && NoneOutstanding(s)
       case Started =>
         && s.queue == [] && !s.watcher.Unregistered?
         && (s.watcher.Enabled? <==> s.readDeferred.Some?)
         && (s.readDeferred.Some? ==> s.promises[s.readDeferred.value].Unsettled?)
         && (s.watcher.Cancelled? <==> !s.readable)
  }

  predicate HasEnableRead(q: seq<Action>) {
    exists k :: 0 <= k < |q| && q[k].EnableRead?
  }

  // ---------------------------------------------------------------------------
  // The queued callbacks, with no resource to act on.

  /** On success the queued callbacks change no promise, and enable the watcher exactly when a read was queued. */
  lemma {:induction false} QueueOnSuccess(s: St, q: seq<Action>)
    requires WellFormed(s) && ValidIds(q, |s.promises|) && s.resource.None?
    requires s.watcher.Disabled? || s.watcher.Enabled?
    ensures RunQueue(s, q, None).promises == s.promises
    ensures RunQueue(s, q, None).watcher == if HasEnableRead(q) then Enabled else s.watcher
    decreases |q|
  {
    if q != [] {
      var s1 := RunAction(s, q[0], None);
      assert s1.watcher == if q[0].EnableRead? then Enabled else s.watcher;
      assert ValidIds(q[1..], |s1.promises|) by {
        forall k | 0 <= k < |q[1..]| && q[1..][k].EnableRead? ensures q[1..][k].id < |s1.promises| {
          assert q[1..][k] == q[k + 1];
        }
      }
      QueueOnSuccess(s1, q[1..]);
      if q[0].EnableRead? {
        assert HasEnableRead(q);
        assert HasEnableRead(q[1..]) ==> RunQueue(s, q, None).watcher == Enabled;
      } else if HasEnableRead(q) {
        var k :| 0 <= k < |q| && q[k].EnableRead?;
        assert q[1..][k - 1] == q[k];
      } else {
        assert !HasEnableRead(q[1..]) by {
          forall k | 0 <= k < |q[1..]| ensures !q[1..][k].EnableRead? {
            assert q[1..][k] == q[k + 1];
          }
        }
      }
    }
  }

  /** On failure every unsettled read whose callback is queued fails with the start error, and nothing else changes. */
  lemma {:induction false} QueueOnFailure(s: St, q: seq<Action>, e: Error)
    requires WellFormed(s) && ValidIds(q, |s.promises|) && s.resource.None?
    ensures RunQueue(s, q, Some(e)).watcher == s.watcher
    ensures forall i :: 0 <= i < |s.promises| ==>
      RunQueue(s, q, Some(e)).promises[i] ==
        if s.promises[i].Unsettled? && EnableRead(i) in q then Rejected(e) else s.promises[i]
    decreases |q|
  {
    if q != [] {
      var s1 := RunAction(s, q[0], Some(e));
      assert ValidIds(q[1..], |s1.promises|) by {
        forall k | 0 <= k < |q[1..]| && q[1..][k].EnableRead? ensures q[1..][k].id < |s1.promises| {
          assert q[1..][k] == q[k + 1];
        }
      }
      QueueOnFailure(s1, q[1..], e);
      assert q == [q[0]] + q[1..];
      forall i | 0 <= i < |s.promises|
        ensures RunQueue(s, q, Some(e)).promises[i] ==
          if s.promises[i].Unsettled? && EnableRead(i) in q then Rejected(e) else s.promises[i]
      {
        if q[0] == EnableRead(i) {
          assert s1.promises[i] == if s.promises[i].Unsettled? then Rejected(e) else s.promises[i];
        } else {
          assert s1.promises[i] == s.promises[i];
          assert EnableRead(i) in q <==> EnableRead(i) in q[1..];
        }
      }
    }
  }

  /** Attaching one more callback runs it after all the others. */
  lemma {:induction false} QueueAppend(s: St, q: seq<Action>, a: Action, failure: Option<Error>)
    requires WellFormed(s) && ValidIds(q + [a], |s.promises|)
    ensures ValidIds(q, |s.promises|) && (a.EnableRead? ==> a.id < |s.promises|)
    ensures RunQueue(s, q + [a], failure) == RunAction(RunQueue(s, q, failure), a, failure)
    decreases |q|
  {
    assert ValidIds(q, |s.promises|) by {
      forall k | 0 <= k < |q| && q[k].EnableRead? ensures q[k].id < |s.promises| {
        assert (q + [a])[k] == q[k];
      }
    }
    assert (q + [a])[|q|] == a;
    if q == [] {
      assert [a][1..] == [];
    } else {
      var s1 := RunAction(s, q[0], failure);
      assert (q + [a])[0] == q[0];
      assert (q + [a])[1..] == q[1..] + [a];
      QueueAppend(s1, q[1..], a, failure);
    }
  }

  // ---------------------------------------------------------------------------
  // Every event keeps the invariant.

  lemma ReadKeepsInv(s: St)
    requires Inv(s)
    ensures Inv(Read(s).state)
  {
  }

  lemma CloseKeepsInv(s: St)
    requires Inv(s)
    ensures Inv(Close(s).state)
  {
  }

  lemma ReferenceKeepsInv(s: St)
    requires Inv(s)
    ensures Inv(Reference(s).state) && Inv(Unreference(s).state)
  {
  }

  lemma ResolveStartKeepsInv(s: St, o: StartOutcome)
    requires Inv(s) && s.start.StartPending?
    ensures Inv(ResolveStart(s, o))
  {
    var r := ResolveStart(s, o);
    match StartFailure(o)
    case Some(e) =>
      QueueOnFailure(s.(start := StartFailed(e), queue := []), s.queue, e);
    case None =>
      var s1 := s.(watcher := Disabled, referenced := true, queue := []);
      QueueOnSuccess(s1, s.queue);
      if s.readDeferred.Some? {
        var k :| 0 <= k < |s.queue| && s.queue[k] == EnableRead(s.readDeferred.value);
        assert HasEnableRead(s.queue);
      }
  }

  lemma OnReadableKeepsInv(s: St, fr: FreadResult, again: bool)
    requires Inv(s) && CanFire(s, Readiness(fr, again))
    ensures Inv(OnReadable(s, fr, again))
  {
  }

  lemma StepKeepsInv(s: St, e: Event)
    requires Inv(s) && CanFire(s, e)
    ensures Inv(Apply(s, e))
  {
    match e
    case ReadCall => ReadKeepsInv(s);
    case CloseCall => CloseKeepsInv(s);
    case GetResourceCall =>
    case ReferenceCall => ReferenceKeepsInv(s);
    case UnreferenceCall => ReferenceKeepsInv(s);
    case DestructCall =>
    case StartResolved(o) => ResolveStartKeepsInv(s, o);
    case Readiness(fr, again) => OnReadableKeepsInv(s, fr, again);
  }

  lemma {:induction false} RunKeepsInv(s: St, evs: seq<Event>)
    requires Inv(s)
    ensures Inv(Run(s, evs))
    decreases |evs|
  {
    if evs != [] {
      var s1 := if CanFire(s, evs[0]) then Apply(s, evs[0]) else s;
      if CanFire(s, evs[0]) {
        StepKeepsInv(s, evs[0]);
      }
      RunKeepsInv(s1, evs[1..]);
    }
  }

  // ---------------------------------------------------------------------------
  // What every reachable stream satisfies.

  lemma InitKeepsInv()
    ensures Inv(Init())
  {
  }

  /**
   * In every state a run of events reaches: the resource is never acquired, so
   * getResource() yields null once started and the destructor does nothing; at
   * most one read is outstanding; the watcher is enabled exactly while a read is
   * outstanding; a failed start leaves no read unsettled.
   */
  lemma {:induction false} ReachableSafety(evs: seq<Event>)
    ensures var s := Run(Init(), evs);
      && s.resource.None?
      && OnlyOutstanding(s)
      && (s.watcher.Enabled? ==> s.readDeferred.Some?)
      && (s.start.Started? ==> (s.watcher.Enabled? <==> s.readDeferred.Some?))
      && (s.start.StartFailed? ==> NoneOutstanding(s))
      && GetResource(s) == (if s.start.Started? then Returned(None) else Threw(NotYetAcquired))
      && Destruct(s) == Step(s, Returned(()))
      && (s.start.Started? ==>
            Reference(s) == Step(s, Threw(AlreadyFreed)) && Unreference(s) == Step(s, Threw(AlreadyFreed)))
  {
    InitKeepsInv();
    RunKeepsInv(Init(), evs);
  }

  // ---------------------------------------------------------------------------
  // close() on a started stream.

  /** Closing resolves the outstanding read with end-of-stream and leaves every other read alone. */
  lemma CloseResolvesOutstandingRead(s: St)
    requires Inv(s) && s.start.Started?
    ensures var c := Close(s);
      && c.result == Returned(())
      && c.state.watcher == Cancelled && !c.state.readable && c.state.readDeferred.None?
      && (s.readDeferred.Some? ==> c.state.promises[s.readDeferred.value] == ResolvedWith(None))
      && |c.state.promises| == |s.promises|
      && forall i :: 0 <= i < |s.promises| && s.readDeferred != Some(i) ==> c.state.promises[i] == s.promises[i]
  {
  }

  /** A second close() changes nothing. */
  lemma CloseIsIdempotent(s: St)
    requires Inv(s) && s.start.Started?
    ensures Close(Close(s).state) == Step(Close(s).state, Returned(()))
  {
  }

  /** Once started and unreadable, a stream stays so whatever happens next, with no read outstanding. */
  lemma {:induction false} ClosedStaysClosed(s: St, evs: seq<Event>)
    requires Inv(s) && s.start.Started? && !s.readable
    ensures var t := Run(s, evs);
      Inv(t) && t.start.Started? && !t.readable && t.readDeferred.None? && t.watcher == Cancelled
    decreases |evs|
  {
    if evs != [] {
      if CanFire(s, evs[0]) {
        StepKeepsInv(s, evs[0]);
      }
      ClosedStaysClosed(if CanFire(s, evs[0]) then Apply(s, evs[0]) else s, evs[1..]);
    }
  }

  /**
   * After close(), and after any events that follow it, every read is answered
   * with end-of-stream at once and leaves nothing outstanding.
   */
  lemma {:induction false} ReadAfterCloseIsEnd(s: St, evs: seq<Event>)
    requires Inv(s) && s.start.Started?
    ensures var c := Run(Close(s).state, evs);
      && Read(c).result == Returned(|c.promises|)
      && Read(c).state.promises == c.promises + [ResolvedWith(None)]
      && Read(c).state.readDeferred.None? && Read(c).state.watcher == Cancelled
  {
    CloseKeepsInv(s);
    ClosedStaysClosed(Close(s).state, evs);
  }

  /**
   * Before a successful start, close() is not ignored when repeated: while
   * pending each call queues another callback, and after a failed start each
   * call reports another error to the loop.
   */
  lemma CloseNotIgnoredBeforeStart(s: St)
    requires Inv(s) && !s.start.Started?
    ensures s.start.StartPending? ==>
      Close(Close(s).state).state.queue == s.queue + [CloseAction, CloseAction]
    ensures s.start.StartFailed? ==>
      Close(Close(s).state).state == Raise(Raise(s, NullArgument), NullArgument)
  {
  }

  // ---------------------------------------------------------------------------
  // Start resolution.

  /** On success the read issued while pending stays outstanding and its watcher is enabled; nothing is acquired. */
  lemma {:induction false} StartEnablesPendingRead(s: St, o: StartOutcome)
    requires Inv(s) && s.start.StartPending? && StartFailure(o).None?
    ensures var r := ResolveStart(s, o);
      && r.start.Started? && r.readDeferred == s.readDeferred && r.promises == s.promises
      && r.readable && r.referenced
      && r.watcher == (if s.readDeferred.Some? then Enabled else Disabled)
      && GetResource(r) == Returned(None)
  {
    var s1 := s.(watcher := Disabled, referenced := true, queue := []);
    QueueOnSuccess(s1, s.queue);
    if s.readDeferred.Some? {
      var k :| 0 <= k < |s.queue| && s.queue[k] == EnableRead(s.readDeferred.value);
      assert HasEnableRead(s.queue);
    } else {
      assert !HasEnableRead(s.queue);
    }
  }

  /**
   * On failure the read issued while pending fails with the start error, but
   * its slot is never cleared: every later read throws PendingReadError.
   */
  lemma {:induction false} FailedStartFailsPendingRead(s: St, o: StartOutcome)
    requires Inv(s) && s.start.StartPending? && StartFailure(o).Some?
    ensures var r := ResolveStart(s, o);
      && r.start == StartFailed(StartFailure(o).value)
      && r.readDeferred == s.readDeferred && r.watcher.Unregistered?
      && (s.readDeferred.Some? ==> r.promises[s.readDeferred.value] == Rejected(StartFailure(o).value))
      && (s.readDeferred.Some? ==> Read(r) == Step(r, Threw(PendingReadError)))
      && NoneOutstanding(r)
  {
    var e := StartFailure(o).value;
    QueueOnFailure(s.(start := StartFailed(e), queue := []), s.queue, e);
  }

  /**
   * A failed start survives every later event, so getResource() keeps throwing;
   * a read slot it has set stays set, so every later read throws.
   */
  lemma {:induction false} FailedStartStays(s: St, evs: seq<Event>)
    requires Inv(s) && s.start.StartFailed?
    ensures var t := Run(s, evs);
      && Inv(t) && t.start == s.start
      && GetResource(t) == Threw(NotYetAcquired)
      && (s.readDeferred.Some? ==>
            t.readDeferred == s.readDeferred && Read(t) == Step(t, Threw(PendingReadError)))
    decreases |evs|
  {
    if evs != [] {
      if CanFire(s, evs[0]) {
        StepKeepsInv(s, evs[0]);
      }
      FailedStartStays(if CanFire(s, evs[0]) then Apply(s, evs[0]) else s, evs[1..]);
    }
  }

  /**
   * close(), reference() and unreference() issued while pending only report an
   * error to the loop once start resolves: the queued callbacks find no resource.
   */
  lemma {:induction false} DeferredCallsOnlyReport(s: St, o: StartOutcome)
    requires Inv(s) && s.start.StartPending?
    ensures ResolveStart(Close(s).state, o) == Raise(ResolveStart(s, o), NullArgument)
    ensures ResolveStart(Reference(s).state, o) == Raise(ResolveStart(s, o), AlreadyFreed)
    ensures ResolveStart(Unreference(s).state, o) == Raise(ResolveStart(s, o), AlreadyFreed)
  {
    match StartFailure(o)
    case Some(e) =>
      var base := s.(start := StartFailed(e), queue := []);
      QueueAppend(base, s.queue, CloseAction, Some(e));
      QueueAppend(base, s.queue, ReferenceAction, Some(e));
      QueueAppend(base, s.queue, UnreferenceAction, Some(e));
    case None =>
      var base := s.(watcher := Disabled, referenced := true, queue := []);
      QueueAppend(base, s.queue, CloseAction, None);
      QueueAppend(base, s.queue, ReferenceAction, None);
      QueueAppend(base, s.queue, UnreferenceAction, None);
  }

  // ---------------------------------------------------------------------------
  // The readiness callback and re-entrant reads.

  /** A read requested while the data is delivered keeps the watcher enabled for the new read. */
  lemma ReadinessKeepsWatcherForNewRead(s: St, fr: FreadResult)
    requires Inv(s) && CanFire(s, Readiness(fr, true))
    requires !(fr.ReadFalse? || fr.EmptyAtEnd?)
    ensures var r := OnReadable(s, fr, true);
      && r.promises[s.readDeferred.value] == ResolvedWith(ChunkOf(fr))
      && r.readDeferred == Some(|s.promises|) && r.promises[|s.promises|].Unsettled?
      && r.watcher == Enabled
  {
  }

  /** A read requested after end-of-stream is answered with end-of-stream at once. */
  lemma ReadinessAtEndAnswersNewRead(s: St, fr: FreadResult)
    requires Inv(s) && CanFire(s, Readiness(fr, true))
    requires fr.ReadFalse? || fr.EmptyAtEnd?
    ensures var r := OnReadable(s, fr, true);
      && r.promises[s.readDeferred.value] == ResolvedWith(None)
      && r.readDeferred.None? && r.promises[|s.promises|] == ResolvedWith(None)
      && r.watcher == Cancelled && !r.readable
  {
  }
}
