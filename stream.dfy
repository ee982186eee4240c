/**
 * The process input stream as an object whose methods update its fields in
 * place: one method per entry point and one per callback. The event loop's
 * view of the watcher, the promises handed out by read(), the errors callbacks
 * report to the loop and the calls that release the OS resource are fields too.
 * Every method is proved to perform exactly the step InputStreamSpec describes.
 */
module ProcessStream {
  import opened StreamTypes
  import Spec = InputStreamSpec

  class ProcessInputStream {
    var startPromise: StartState
    var queue: seq<Action>
    var readDeferred: Option<nat>
    var readable: bool
    var resource: Option<Resource>
    var watcher: Watcher
    var referenced: bool
    var promises: seq<Settlement>
    var loopErrors: seq<Error>
    var osCalls: seq<OsCall>

    function State(): Spec.St
      reads this
    {
      Spec.St(startPromise, queue, readDeferred, readable, resource, watcher, referenced,
              promises, loopErrors, osCalls)
    }

    ghost predicate Valid()
      reads this
    {
      Spec.WellFormed(State())
    }

    /** The stream waits for its resource; `resource` is declared but nothing ever assigns it. */
    constructor ()
      ensures Valid() && State() == Spec.Init()
    {
      startPromise := StartPending;
      queue := [];
      readDeferred := None;
      readable := true;
      resource := None;
      watcher := Unregistered;
      referenced := true;
      promises := [];
      loopErrors := [];
      osCalls := [];
    }

    // -------------------------------------------------------------------------
    // Deferreds and loop calls.

    method Settle(id: nat, v: Settlement) returns (r: Outcome<()>)
      requires id < |promises|
      modifies this
      ensures Spec.Step(State(), r) == Spec.Settle(old(State()), id, v)
    {
      if promises[id].Unsettled? {
        promises := promises[id := v];
        r := Returned(());
      } else {
        r := Threw(AlreadyResolved);
      }
    }

    method LoopEnable() returns (r: Outcome<()>)
      modifies this
      ensures Spec.Step(State(), r) == Spec.LoopEnable(old(State()))
    {
      match watcher
      case Unregistered => r := Threw(NullArgument);
      case Cancelled => r := Threw(InvalidWatcher);
      case _ => watcher := Enabled; r := Returned(());
    }

    method LoopDisable() returns (r: Outcome<()>)
      modifies this
      ensures Spec.Step(State(), r) == Spec.LoopDisable(old(State()))
    {
      r := Returned(());
      match watcher
      case Unregistered => r := Threw(NullArgument);
      case Enabled => watcher := Disabled;
      case _ =>
    }

    method LoopCancel() returns (r: Outcome<()>)
      modifies this
      ensures Spec.Step(State(), r) == Spec.LoopCancel(old(State()))
    {
      if watcher.Unregistered? {
        r := Threw(NullArgument);
      } else {
        watcher := Cancelled;
        r := Returned(());
      }
    }

    method LoopReference() returns (r: Outcome<()>)
      modifies this
      ensures Spec.Step(State(), r) == Spec.LoopReference(old(State()))
    {
      match watcher
      case Unregistered => r := Threw(NullArgument);
      case Cancelled => r := Threw(InvalidWatcher);
      case _ => referenced := true; r := Returned(());
    }

    method LoopUnreference() returns (r: Outcome<()>)
      modifies this
      ensures Spec.Step(State(), r) == Spec.LoopUnreference(old(State()))
    {
      r := Returned(());
      match watcher
      case Unregistered => r := Threw(NullArgument);
      case Cancelled =>
      case _ => referenced := false;
    }

    /** An error thrown inside a callback is handed to the loop. */
    method Report(r: Outcome<()>)
      modifies this
      ensures State() == Spec.Report(Spec.Step(old(State()), r))
    {
      if r.Threw? {
        loopErrors := loopErrors + [r.error];
      }
    }

    method ReleaseRead() returns (r: Outcome<()>)
      requires Valid()
      modifies this
      ensures Spec.Step(State(), r) == Spec.ReleaseRead(old(State()))
    {
      if readDeferred.Some? {
        var deferred := readDeferred.value;
        readDeferred := None;
        r := Settle(deferred, ResolvedWith(None));
        if r.Threw? {
          return;
        }
      }
      r := LoopCancel();
    }

    // -------------------------------------------------------------------------
    // Callbacks attached to the start promise.

    method CloseCallback() returns (r: Outcome<()>)
      requires Valid()
      modifies this
      ensures Spec.Step(State(), r) == Spec.CloseCallback(old(State()))
    {
      if resource.None? {
        r := Threw(NullArgument);
        return;
      }
      osCalls := osCalls + [ShutdownRead];
      readable := false;
      r := ReleaseRead();
    }

    method RunAction(a: Action, failure: Option<Error>)
      requires Valid() && (a.EnableRead? ==> a.id < |promises|)
      modifies this
      ensures State() == Spec.RunAction(old(State()), a, failure)
    {
      var r: Outcome<()>;
      match a
      case EnableRead(id) =>
        if failure.Some? {
          r := Settle(id, Rejected(failure.value));
        } else {
          r := LoopEnable();
        }
        Report(r);
      case CloseAction =>
        r := CloseCallback();
        Report(r);
      case ReferenceAction =>
        if resource.None? {
          Report(Threw(AlreadyFreed));
        } else {
          r := LoopReference();
          Report(r);
        }
      case UnreferenceAction =>
        if resource.None? {
          Report(Threw(AlreadyFreed));
        } else {
          r := LoopUnreference();
          Report(r);
        }
    }

    /**
     * The start callback: fail the start promise, or register the watcher
     * disabled; either way run the queued callbacks in order, and null the
     * start promise only on success.
     */
    method OnStreamResolved(outcome: StartOutcome)
      requires Valid() && startPromise.StartPending?
      modifies this
      ensures Valid() && State() == Spec.ResolveStart(old(State()), outcome)
    {
      var failure := Spec.StartFailure(outcome);
      var callbacks := queue;
      if failure.Some? {
        startPromise := StartFailed(failure.value);
      } else {
        watcher := Disabled;
        referenced := true;
      }
      queue := [];
      ghost var base := State();
      var i := 0;
      while i < |callbacks|
        invariant 0 <= i <= |callbacks|
        invariant Valid() && |promises| == |base.promises|
        invariant Spec.ValidIds(callbacks[i..], |promises|)
        invariant Spec.RunQueue(State(), callbacks[i..], failure) == Spec.RunQueue(base, callbacks, failure)
      {
        assert callbacks[i..][0] == callbacks[i];
        assert callbacks[i..][1..] == callbacks[i + 1..];
        RunAction(callbacks[i], failure);
        i := i + 1;
      }
      if failure.None? {
        startPromise := Started;
      }
    }

    // -------------------------------------------------------------------------
    // Entry points.

    method Read() returns (r: Outcome<nat>)
      requires Valid()
      modifies this
      ensures Valid() && Spec.Step(State(), r) == Spec.Read(old(State()))
    {
      if readDeferred.Some? {
        return Threw(PendingReadError);
      }
      var id := |promises|;
      if !startPromise.Started? {
        promises := promises + [Unsettled];
        readDeferred := Some(id);
        if startPromise.StartPending? {
          queue := queue + [EnableRead(id)];
        } else {
          RunAction(EnableRead(id), Some(startPromise.error));
        }
        return Returned(id);
      }
      if !readable {
        promises := promises + [ResolvedWith(None)];
        return Returned(id);
      }
      promises := promises + [Unsettled];
      readDeferred := Some(id);
      var e := LoopEnable();
      r := if e.Threw? then Threw(e.error) else Returned(id);
    }

    method Free() returns (r: Outcome<()>)
      requires Valid()
      modifies this
      ensures Valid() && Spec.Step(State(), r) == Spec.Free(old(State()))
    {
      resource := None;
      readable := false;
      r := ReleaseRead();
    }

    method Close() returns (r: Outcome<()>)
      requires Valid()
      modifies this
      ensures Valid() && Spec.Step(State(), r) == Spec.Close(old(State()))
    {
      match startPromise
      case StartPending =>
        queue := queue + [CloseAction];
        r := Returned(());
      case StartFailed(e) =>
        RunAction(CloseAction, Some(e));
        r := Returned(());
      case Started =>
        if resource.Some? {
          osCalls := osCalls + [ReleaseCall(resource.value)];
        }
        r := Free();
    }

    method GetResource() returns (r: Outcome<Option<Resource>>)
      ensures r == Spec.GetResource(State())
    {
      if !startPromise.Started? {
        return Threw(NotYetAcquired);
      }
      r := Returned(resource);
    }

    method Reference() returns (r: Outcome<()>)
      requires Valid()
      modifies this
      ensures Valid() && Spec.Step(State(), r) == Spec.Reference(old(State()))
    {
      match startPromise
      case StartPending =>
        queue := queue + [ReferenceAction];
        r := Returned(());
      case StartFailed(e) =>
        RunAction(ReferenceAction, Some(e));
        r := Returned(());
      case Started =>
        if resource.None? {
          return Threw(AlreadyFreed);
        }
        r := LoopReference();
    }

    method Unreference() returns (r: Outcome<()>)
      requires Valid()
      modifies this
      ensures Valid() && Spec.Step(State(), r) == Spec.Unreference(old(State()))
    {
      match startPromise
      case StartPending =>
        queue := queue + [UnreferenceAction];
        r := Returned(());
      case StartFailed(e) =>
        RunAction(UnreferenceAction, Some(e));
        r := Returned(());
      case Started =>
        if resource.None? {
          return Threw(AlreadyFreed);
        }
        r := LoopUnreference();
    }

    method Destruct() returns (r: Outcome<()>)
      requires Valid()
      modifies this
      ensures Valid() && Spec.Step(State(), r) == Spec.Destruct(old(State()))
    {
      r := Returned(());
      if resource.Some? {
        r := Free();
      }
    }

    /**
     * The readiness callback. The consumer that receives the data may call
     * read() again before the callback goes on; `readAgain` says whether it does.
     */
    method OnReadable(fread: FreadResult, readAgain: bool)
      requires Valid() && startPromise.Started? && watcher.Enabled? && readDeferred.Some?
      requires FreadWellFormed(fread)
      modifies this
      ensures Valid() && State() == Spec.OnReadable(old(State()), fread, readAgain)
    {
      if fread.ReadFalse? || fread.EmptyAtEnd? {
        readable := false;
        watcher := Cancelled;
      }
      var temp := readDeferred.value;
      readDeferred := None;
      var settled := Settle(temp, ResolvedWith(Spec.ChunkOf(fread)));
      if settled.Threw? {
        Report(settled);
        return;
      }
      if readAgain {
        var _ := Read();
      }
      if readDeferred.None? {
        var d := LoopDisable();
        Report(d);
      }
    }
  }
}
