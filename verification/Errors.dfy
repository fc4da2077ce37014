/** internal/worker/errors.go and executeWithTimeout: how a handler's error decides a run's fate. */
module Errors {
  import opened Basics
  import opened Statuses
  import opened Protocol

  /** A Go error value: a leaf, the two marker types, fmt.Errorf with %w, and errors.Join. */
  datatype Error =
    | Plain(text: string)
    | RetryableError(err: Error)
    | NonRetryableError(err: Error)
    | Wrapped(prefix: string, err: Error)
    | Joined(errs: seq<Error>)

  function Text(e: Error): string {
    match e
    case Plain(text) => text
    case RetryableError(err) => Text(err)
    case NonRetryableError(err) => Text(err)
    case Wrapped(prefix, err) => prefix + Text(err)
    case Joined(errs) => JoinedText(errs)
  }

  function JoinedText(errs: seq<Error>): string {
    if errs == [] then ""
    else if |errs| == 1 then Text(errs[0])
    else Text(errs[0]) + "\n" + JoinedText(errs[1..])
  }

  /** The texts of several errors, one to a line. */
  lemma {:induction false} JoinedTexts(errs: seq<Error>, more: seq<Error>)
    requires errs != [] && more != []
    ensures JoinedText(errs + more) == JoinedText(errs) + "\n" + JoinedText(more) && JoinedText([errs[0]]) == Text(errs[0])
    decreases |errs|
  {
    if |errs| > 1 {
      JoinedTexts(errs[1..], more);
      assert (errs + more)[1..] == errs[1..] + more;
    } else {
      assert (errs + more)[1..] == more;
    }
  }

  // IsNonRetryable: errors.As along Unwrap, in depth-first order.
  predicate IsNonRetryable(e: Error) {
    match e
    case Plain(_) => false
    case RetryableError(err) => IsNonRetryable(err)
    case NonRetryableError(_) => true
    case Wrapped(_, err) => IsNonRetryable(err)
    case Joined(errs) => exists i :: 0 <= i < |errs| && IsNonRetryable(errs[i])
  }

  // Retryable: nil stays nil.
  function Retryable(e: Option<Error>): (r: Option<Error>)
    ensures r.Some? <==> e.Some?
    ensures r.Some? ==> Text(r.value) == Text(e.value) && IsNonRetryable(r.value) == IsNonRetryable(e.value)
  {
    match e case None => None case Some(err) => Some(RetryableError(err))
  }

  // NonRetryable: nil stays nil.
  function NonRetryable(e: Option<Error>): (r: Option<Error>)
    ensures r.Some? <==> e.Some?
    ensures r.Some? ==> Text(r.value) == Text(e.value) && IsNonRetryable(r.value)
  {
    match e case None => None case Some(err) => Some(NonRetryableError(err))
  }

  /** The errors directly wrapped by e. */
  function Unwrap(e: Error): seq<Error> {
    match e
    case Plain(_) => []
    case RetryableError(err) => [err]
    case NonRetryableError(err) => [err]
    case Wrapped(_, err) => [err]
    case Joined(errs) => errs
  }

  /** chain runs from e to some error it wraps, one Unwrap at a time. */
  predicate IsChain(e: Error, chain: seq<Error>) {
    && chain != [] && chain[0] == e
    && forall i :: 0 <= i < |chain| - 1 ==> chain[i + 1] in Unwrap(chain[i])
  }

  /** Some error wrapped in e, or e itself, is a NonRetryableError. */
  ghost predicate WrapsNonRetryable(e: Error) {
    exists chain: seq<Error> :: IsChain(e, chain) && chain[|chain| - 1].NonRetryableError?
  }

  lemma {:induction false} FoundOnChain(e: Error) returns (chain: seq<Error>)
    requires IsNonRetryable(e)
    ensures IsChain(e, chain) && chain[|chain| - 1].NonRetryableError?
    decreases e
  {
    match e {
      case NonRetryableError(_) =>
        chain := [e];
      case RetryableError(err) =>
        var rest := FoundOnChain(err);
        chain := [e] + rest;
      case Wrapped(_, err) =>
        var rest := FoundOnChain(err);
        chain := [e] + rest;
      case Joined(errs) =>
        var i :| 0 <= i < |errs| && IsNonRetryable(errs[i]);
        var rest := FoundOnChain(errs[i]);
        chain := [e] + rest;
    }
  }

  lemma {:induction false} ChainIsFound(e: Error, chain: seq<Error>)
    requires IsChain(e, chain) && chain[|chain| - 1].NonRetryableError?
    ensures IsNonRetryable(e)
    decreases |chain|
  {
    if |chain| > 1 {
      assert chain[1] in Unwrap(chain[0]);
      ChainIsFound(chain[1], chain[1..]);
    }
  }

  /** An error is non-retryable exactly when a NonRetryableError is wrapped in it, at whatever depth. */
  lemma NonRetryableAtAnyDepth(e: Error)
    ensures IsNonRetryable(e) <==> WrapsNonRetryable(e)
  {
    if IsNonRetryable(e) {
      var chain := FoundOnChain(e);
      assert IsChain(e, chain) && chain[|chain| - 1].NonRetryableError?;
    }
    if WrapsNonRetryable(e) {
      var chain: seq<Error> :| IsChain(e, chain) && chain[|chain| - 1].NonRetryableError?;
      ChainIsFound(e, chain);
    }
  }

  /** Layers put around an error: the retryable marker, or a message with %w. */
  datatype Layer = Marker | Message(prefix: string)

  function Around(layers: seq<Layer>, e: Error): Error {
    if layers == [] then e
    else match layers[0]
      case Marker => RetryableError(Around(layers[1..], e))
      case Message(prefix) => Wrapped(prefix, Around(layers[1..], e))
  }

  /** What the messages of the layers put before the text of the error. */
  function Prefixes(layers: seq<Layer>): string {
    if layers == [] then ""
    else (match layers[0] case Marker => "" case Message(prefix) => prefix) + Prefixes(layers[1..])
  }

  /** Markers do not show in the text; messages come before it, the outermost one first. */
  lemma {:induction false} WrappingPrefixesText(layers: seq<Layer>, text: string)
    ensures Text(Around(layers, Plain(text))) == Prefixes(layers) + text
    decreases |layers|
  {
    if layers != [] { WrappingPrefixesText(layers[1..], text); }
  }

  /** Wrapping never changes the class, not even wrapping with Retryable. */
  lemma {:induction false} WrappingKeepsClass(layers: seq<Layer>, e: Error)
    ensures IsNonRetryable(Around(layers, e)) == IsNonRetryable(e)
    decreases |layers|
  {
    if layers != [] { WrappingKeepsClass(layers[1..], e); }
  }

  // ---- executeWithTimeout ----

  // time.Duration.String for a whole number of seconds.
  function DurationText(seconds: nat): string {
    var h, m, s := seconds / 3600, seconds / 60 % 60, seconds % 60;
    (if h > 0 then Decimal(h) + "h" else "") +
    (if seconds >= 60 then Decimal(m) + "m" else "") +
    Decimal(s) + "s"
  }

  /** The text names hours, minutes and seconds that add up to the duration, without the leading units that are zero. */
  lemma DurationTextReads(seconds: nat) returns (h: nat, m: nat, s: nat)
    ensures seconds == 3600 * h + 60 * m + s && m < 60 && s < 60
    ensures h > 0 ==> DurationText(seconds) == Decimal(h) + "h" + Decimal(m) + "m" + Decimal(s) + "s"
    ensures h == 0 && m > 0 ==> DurationText(seconds) == Decimal(m) + "m" + Decimal(s) + "s"
    ensures h == 0 && m == 0 ==> DurationText(seconds) == Decimal(s) + "s"
  {
    h, m, s := seconds / 3600, seconds / 60 % 60, seconds % 60;
  }

  function EffectiveTimeout(timeoutSeconds: int): nat {
    if timeoutSeconds <= 0 then 300 else timeoutSeconds
  }

  /** What executeWithTimeout returns: once the deadline has passed the handler's own answer, error or
      not, is replaced. */
  function ExecutionError(timeoutSeconds: int, handler: Option<Error>, deadlinePassed: bool): Option<Error> {
    if deadlinePassed
    then Some(Plain("task execution timed out after " + DurationText(EffectiveTimeout(timeoutSeconds))))
    else handler
  }

  function OutcomeOf(e: Option<Error>): Outcome {
    match e
    case None => Done
    case Some(err) => Fault(Text(err), IsNonRetryable(err))
  }

  /** A timeout is an ordinary error, so it is retried: it wraps nothing. */
  lemma TimeoutsAreRetryable(e: Error)
    requires e.Plain?
    ensures !WrapsNonRetryable(e)
  {
    NonRetryableAtAnyDepth(e);
  }

  /** A run with retries left goes to dead exactly when the handler's error wraps a NonRetryableError
      and the deadline had not passed, and then it keeps its retry_count; otherwise it is retried. */
  lemma DeadWithRetriesLeft(now: int, retryCount: nat, maxRetries: nat, timeoutSeconds: int,
                            handler: Option<Error>, deadlinePassed: bool)
    requires retryCount < maxRetries
    requires OutcomeOf(ExecutionError(timeoutSeconds, handler, deadlinePassed)).Fault?
    ensures
      var outcome := OutcomeOf(ExecutionError(timeoutSeconds, handler, deadlinePassed));
      var d := Decide(now, retryCount, maxRetries, outcome.nonRetryable);
      && (d.status == Dead <==> !deadlinePassed && WrapsNonRetryable(handler.value))
      && (d.status == Dead ==> d.retryCount == retryCount)
      && (d.status != Dead ==> d.status == Retrying && d.retryCount == retryCount + 1)
  {
    if !deadlinePassed { NonRetryableAtAnyDepth(handler.value); }
  }
}
