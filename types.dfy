/** Values shared by the specification of the process input stream and its class. */
module StreamTypes {

  newtype byte = x: int | 0 <= x < 256

  /** Bytes asked of one `fread` in the readiness callback. */
  const CHUNK_SIZE: nat := 1024

  /** The declared default chunk size; nothing in the stream uses it. */
  const DEFAULT_CHUNK_SIZE: nat := 8192

  datatype Option<T> = None | Some(value: T)

  /** What an entry point does: return a value or throw an error to its caller. */
  datatype Outcome<T> = Returned(value: T) | Threw(error: Error)

  datatype Error =
    | PendingReadError              // a read() while another is outstanding
    | NotYetAcquired                // "Resource has not yet been acquired"
    | AlreadyFreed                  // "Resource has already been freed"
    | ExpectedValidStream           // the start value is not a stream resource
    | ExpectedReadableStream        // the stream's mode has neither "r" nor "+"
    | Upstream(reason: string)      // the stream promise itself failed
    | AlreadyResolved               // a Deferred resolved or failed a second time
    | InvalidWatcher                // enable or reference of a cancelled watcher
    | NullArgument                  // a null passed where a resource or watcher id is required (strict types)

  /** A stream resource: its mode string, and whether its meta data can still be read. */
  datatype Resource = Resource(mode: string, metaAvailable: bool)

  /** The start promise: pending, failed with an error, or resolved (the field is then null). */
  datatype StartState = StartPending | StartFailed(error: Error) | Started

  /** The readability watcher as the event loop holds it. */
  datatype Watcher = Unregistered | Disabled | Enabled | Cancelled

  /** The state of one promise returned by read(): `ResolvedWith(None)` is end-of-stream. */
  datatype Settlement = Unsettled | ResolvedWith(chunk: Option<seq<byte>>) | Rejected(error: Error)

  /** A callback queued on the pending start promise. `EnableRead` belongs to read promise `id`. */
  datatype Action = EnableRead(id: nat) | CloseAction | ReferenceAction | UnreferenceAction

  /** How close() releases a live resource. */
  datatype OsCall = ShutdownRead | Fclose

  /** The result of `fread($stream, 1024)` together with the end-of-file test that follows an empty read. */
  datatype FreadResult = Chunk(data: seq<byte>) | EmptyAtEnd | EmptyNotAtEnd | ReadFalse

  /** What the stream promise resolves with. */
  datatype StartOutcome = UpstreamFailed(reason: string) | NotAStream | StreamWithMode(mode: string)

  /** A chunk is what a non-empty fread of at most CHUNK_SIZE bytes can return. */
  predicate FreadWellFormed(r: FreadResult) {
    r.Chunk? ==> 0 < |r.data| <= CHUNK_SIZE
  }

  /** The readable-mode test of the start callback. */
  predicate ModeReadable(mode: string) {
    'r' in mode || '+' in mode
  }

  /** close() half-shuts a bidirectional resource and closes any other. */
  function ReleaseCall(res: Resource): (c: OsCall)
    ensures c == ShutdownRead <==> res.metaAvailable && '+' in res.mode
  {
    if res.metaAvailable && '+' in res.mode then ShutdownRead else Fclose
  }
}
