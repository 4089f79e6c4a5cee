/** The error-handling helpers of the examples: `handleSwapOperation`, which
    validates, refuses a known transaction hash and wraps an operation's
    outcome, and `retrySwapOperation`, which calls an operation up to
    `maxRetries` times with a growing wait between failed attempts. */
module Retry {
  import opened Wrappers
  import opened Strings
  import opened SwapModel
  import opened Validation
  import opened Ledger

  // ---------------------------------------------------------------------
  // handleSwapOperation

  /** What the wrapped operation does when it is run: it returns a value or
      throws an error with a message. */
  datatype OpOutcome<R> = Returns(value: R) | Throws(message: string)

  /** Why `handleSwapOperation` failed. */
  datatype HandleError =
    | ValidationRejected(errors: seq<ValidationError>)
    | AlreadyExists
    | OperationThrew(message: string)

  /** The structured response: `{ success: true, data }` or
      `{ success: false, error, ... }`. */
  datatype Handled<R> = HandleOk(data: R) | HandleFailed(error: HandleError)

  const ValidationFailedText: string := "Validation failed"
  const AlreadyExistsText: string := "Transaction already exists"

  /** The `error` text of a failed response. For a validation failure only
      its fixed beginning is modelled; the joined error messages that follow
      it are not. */
  function Message(e: HandleError): string {
    match e
    case ValidationRejected(_) => ValidationFailedText + ": "
    case AlreadyExists => AlreadyExistsText
    case OperationThrew(m) => m
  }

  /** `Swap.findOne({ txhash })` finds a document. */
  predicate Taken(docs: seq<SwapRecord>, d: SwapData) {
    d.txhash.Some? && HasTxHash(docs, d.txhash.value)
  }

  /** `handleSwapOperation(operation, swapData)` over the stored documents;
      `op` is what the operation does if it gets to run. */
  function HandleSwapOperation<R>(docs: seq<SwapRecord>, d: SwapData, op: OpOutcome<R>): (r: Handled<R>)
    ensures r.HandleOk? <==> ValidationErrors(d) == [] && !Taken(docs, d) && op.Returns?
    ensures r.HandleOk? ==> r.data == op.value
    ensures ValidationErrors(d) != [] ==> r == HandleFailed(ValidationRejected(ValidationErrors(d)))
    ensures ValidationErrors(d) == [] && Taken(docs, d) ==> r == HandleFailed(AlreadyExists)
    ensures ValidationErrors(d) == [] && !Taken(docs, d) && op.Throws? ==> r == HandleFailed(OperationThrew(op.message))
  {
    if ValidationErrors(d) != [] then HandleFailed(ValidationRejected(ValidationErrors(d)))
    else if Taken(docs, d) then HandleFailed(AlreadyExists)
    else match op
      case Returns(v) => HandleOk(v)
      case Throws(m) => HandleFailed(OperationThrew(m))
  }

  /** Invalid data and a known transaction hash are refused before the
      operation runs: the response does not depend on the operation. */
  lemma RefusedBeforeOperation<R>(docs: seq<SwapRecord>, d: SwapData, op1: OpOutcome<R>, op2: OpOutcome<R>)
    requires ValidationErrors(d) != [] || Taken(docs, d)
    ensures HandleSwapOperation(docs, d, op1) == HandleSwapOperation(docs, d, op2)
    ensures HandleSwapOperation(docs, d, op1).HandleFailed?
  {
  }

  /** A transaction hash already stored is refused for every valid payload
      that carries it. */
  lemma StoredHashRefused<R>(docs: seq<SwapRecord>, d: SwapData, op: OpOutcome<R>, i: nat)
    requires i < |docs|
    requires ValidationErrors(d) == []
    requires d.txhash == Some(docs[i].txhash)
    ensures HandleSwapOperation(docs, d, op) == HandleFailed(AlreadyExists)
  {
    assert docs[i] in docs;
  }

  /** A validation failure's text mentions "Validation failed". */
  lemma ValidationMessageMarked(errors: seq<ValidationError>)
    ensures Contains(Message(ValidationRejected(errors)), ValidationFailedText)
  {
    PrefixContained(ValidationFailedText, ": ");
  }

  /** A string none of whose characters starts `sub` does not contain it. */
  lemma {:induction false} NotContainedWithoutFirst(s: string, sub: string)
    requires |sub| > 0
    requires forall i :: 0 <= i < |s| ==> s[i] != sub[0]
    ensures !Contains(s, sub)
    decreases |s|
  {
    if |s| > 0 {
      assert s[0] != sub[0];
      NotContainedWithoutFirst(s[1..], sub);
    }
  }

  /** The duplicate-hash text does not mention "Validation failed". */
  lemma AlreadyExistsNotMarked()
    ensures !Contains(Message(AlreadyExists), ValidationFailedText)
  {
    NotContainedWithoutFirst(AlreadyExistsText, ValidationFailedText);
  }

  // ---------------------------------------------------------------------
  // retrySwapOperation

  /** What one call of the retried operation does: it resolves to a response
      with `success: true`, resolves to one with `success: false` and an
      `error` text, or throws. */
  datatype Attempt<V> = Succeeded(value: V) | Unsuccessful(error: string) | Threw(message: string)

  /** How a run of `retrySwapOperation` ends: it returns a successful
      response, rethrows an error, or runs out of attempts and resolves to
      `undefined`. */
  datatype RetryOutcome<V> = Returned(value: V) | Raised(message: string) | NoResult

  /** A run: the number of calls of the operation, the waits in
      milliseconds between them, and the outcome. */
  datatype RetryRun<V> = RetryRun(calls: nat, delays: seq<int>, outcome: RetryOutcome<V>)

  function Then<V>(calls: nat, delays: seq<int>, run: RetryRun<V>): RetryRun<V> {
    RetryRun(calls + run.calls, delays + run.delays, run.outcome)
  }

  /** The wait after a failed attempt `k` that is not the last. */
  function Backoff(k: int): int {
    1000 * k
  }

  /** The response mentions a validation failure. */
  predicate MarksValidation(a: Attempt) {
    a.Unsuccessful? && Contains(a.error, ValidationFailedText)
  }

  /** The attempts from `k` to `maxRetries`, the k-th attempt being
      `op(k)`, as the loop of `retrySwapOperation` runs them. A failure
      that mentions validation is thrown inside the loop's own `try`, so its
      `catch` treats it like any error thrown by the operation: rethrown
      after the last attempt, and otherwise followed by the next attempt
      straight away. */
  function RetryFrom<V>(op: nat -> Attempt<V>, k: nat, maxRetries: int): (run: RetryRun<V>)
    ensures k > maxRetries ==> run == RetryRun(0, [], NoResult)
    ensures k <= maxRetries ==> 1 <= run.calls <= maxRetries - k + 1
    decreases maxRetries - k
  {
    if k > maxRetries then RetryRun(0, [], NoResult)
    else
      match op(k)
      case Succeeded(v) => RetryRun(1, [], Returned(v))
      case Threw(e) =>
        if k == maxRetries then RetryRun(1, [], Raised(e))
        else Then(1, [], RetryFrom(op, k + 1, maxRetries))
      case Unsuccessful(m) =>
        if Contains(m, ValidationFailedText) then
          if k == maxRetries then RetryRun(1, [], Raised(m))
          else Then(1, [], RetryFrom(op, k + 1, maxRetries))
        else if k < maxRetries then Then(1, [Backoff(k)], RetryFrom(op, k + 1, maxRetries))
        else RetryRun(1, [], NoResult)
  }

  /** `retrySwapOperation(operation, swapData, maxRetries)`, the k-th call of
      the operation resolving as `op(k)`; the waits are recorded instead of
      slept. */
  method RetrySwapOperation<V>(op: nat -> Attempt<V>, maxRetries: int) returns (run: RetryRun<V>)
    ensures run == RetryFrom(op, 1, maxRetries)
  {
    var calls: nat := 0;
    var delays: seq<int> := [];
    var attempt: nat := 1;
    while attempt <= maxRetries
      invariant 1 <= attempt
      invariant RetryFrom(op, 1, maxRetries) == Then(calls, delays, RetryFrom(op, attempt, maxRetries))
      decreases maxRetries - attempt
    {
      var result := op(attempt);
      var wait: seq<int> := [];
      match result {
      case Succeeded(v) =>
        return RetryRun(calls + 1, delays, Returned(v));
      case Threw(e) =>
        if attempt == maxRetries {
          return RetryRun(calls + 1, delays, Raised(e));
        }
      case Unsuccessful(m) =>
        if Contains(m, ValidationFailedText) {
          if attempt == maxRetries {
            return RetryRun(calls + 1, delays, Raised(m));
          }
        } else if attempt < maxRetries {
          wait := [Backoff(attempt)];
        } else {
          return RetryRun(calls + 1, delays, NoResult);
        }
      }
      ThenThen(calls, delays, wait, RetryFrom(op, attempt + 1, maxRetries));
      calls, delays := calls + 1, delays + wait;
      attempt := attempt + 1;
    }
    assert delays + [] == delays;
    run := RetryRun(calls, delays, NoResult);
  }

  lemma ThenThen<V>(calls: nat, delays: seq<int>, wait: seq<int>, run: RetryRun<V>)
    ensures Then(calls, delays, Then(1, wait, run)) == Then(calls + 1, delays + wait, run)
  {
    assert (delays + wait) + run.delays == delays + (wait + run.delays);
  }

  /** With no attempts allowed the operation is never called. */
  lemma NoAttempts<V>(op: nat -> Attempt<V>, maxRetries: int)
    requires maxRetries < 1
    ensures RetryFrom(op, 1, maxRetries) == RetryRun(0, [], NoResult)
  {
  }

  /** The first successful attempt ends the run with its response, after
      exactly as many calls as its number. */
  lemma {:induction false} FirstSuccessReturned<V>(op: nat -> Attempt<V>, k: nat, j: nat, maxRetries: int)
    requires k <= j <= maxRetries
    requires op(j).Succeeded?
    requires forall i :: k <= i < j ==> !op(i).Succeeded?
    ensures RetryFrom(op, k, maxRetries).outcome == Returned(op(j).value)
    ensures RetryFrom(op, k, maxRetries).calls == j - k + 1
    decreases j - k
  {
    if k < j {
      FirstSuccessReturned(op, k + 1, j, maxRetries);
    }
  }

  /** Only a successful last attempt, an error of the last attempt, or the
      end of the attempts decides the outcome: a run that raises made every
      allowed call. */
  lemma {:induction false} RaisedOnlyAtLast<V>(op: nat -> Attempt<V>, k: nat, maxRetries: int)
    requires k <= maxRetries
    requires RetryFrom(op, k, maxRetries).outcome.Raised?
    ensures RetryFrom(op, k, maxRetries).calls == maxRetries - k + 1
    ensures op(maxRetries).Threw? || MarksValidation(op(maxRetries))
    decreases maxRetries - k
  {
    if k < maxRetries {
      RaisedOnlyAtLast(op, k + 1, maxRetries);
    }
  }

  /** The text a run rethrows after an attempt: the thrown error, or the
      failure that mentions validation. */
  function RaisedText<V>(a: Attempt<V>): string
    requires a.Threw? || a.Unsuccessful?
  {
    if a.Threw? then a.message else a.error
  }

  /** When no attempt succeeds and the last one throws, or fails with a
      text that mentions validation, the run makes every allowed call and
      rethrows the last attempt's error. */
  lemma {:induction false} LastErrorRaised<V>(op: nat -> Attempt<V>, k: nat, maxRetries: int)
    requires k <= maxRetries
    requires forall i :: k <= i < maxRetries ==> !op(i).Succeeded?
    requires op(maxRetries).Threw? || MarksValidation(op(maxRetries))
    ensures RetryFrom(op, k, maxRetries).calls == maxRetries - k + 1
    ensures RetryFrom(op, k, maxRetries).outcome == Raised(RaisedText(op(maxRetries)))
    decreases maxRetries - k
  {
    if k < maxRetries {
      LastErrorRaised(op, k + 1, maxRetries);
    }
  }

  /** Attempts that all fail without a validation failure wait 1000 ms times
      the attempt's number after each but the last, then end with no
      result. */
  lemma {:induction false} BackoffSchedule<V>(op: nat -> Attempt<V>, k: nat, maxRetries: int)
    requires k <= maxRetries
    requires forall i :: k <= i <= maxRetries ==> op(i).Unsuccessful? && !MarksValidation(op(i))
    ensures RetryFrom(op, k, maxRetries).calls == maxRetries - k + 1
    ensures RetryFrom(op, k, maxRetries).outcome == NoResult
    ensures |RetryFrom(op, k, maxRetries).delays| == maxRetries - k
    ensures forall i :: 0 <= i < maxRetries - k ==> RetryFrom(op, k, maxRetries).delays[i] == Backoff(k + i)
    decreases maxRetries - k
  {
    if k < maxRetries {
      BackoffSchedule(op, k + 1, maxRetries);
      var rest := RetryFrom(op, k + 1, maxRetries);
      assert RetryFrom(op, k, maxRetries).delays == [Backoff(k)] + rest.delays;
    }
  }

  /** As written: validation failures on every attempt are retried, the
      operation is called `maxRetries` times, and only the last failure is
      rethrown. */
  lemma {:induction false} ValidationFailuresRetried<V>(op: nat -> Attempt<V>, k: nat, maxRetries: int, m: string)
    requires k <= maxRetries
    requires Contains(m, ValidationFailedText)
    requires forall i :: k <= i <= maxRetries ==> op(i) == Unsuccessful(m)
    ensures RetryFrom(op, k, maxRetries) == RetryRun(maxRetries - k + 1, [], Raised(m))
    decreases maxRetries - k
  {
    if k < maxRetries {
      ValidationFailuresRetried(op, k + 1, maxRetries, m);
    }
  }

  /** The behaviour the comment "Don't retry validation errors" asks for: a
      failure that mentions validation is rethrown at once. */
  function RetryIntendedFrom<V>(op: nat -> Attempt<V>, k: nat, maxRetries: int): (run: RetryRun<V>)
    ensures k > maxRetries ==> run == RetryRun(0, [], NoResult)
    ensures k <= maxRetries ==> 1 <= run.calls <= maxRetries - k + 1
    decreases maxRetries - k
  {
    if k > maxRetries then RetryRun(0, [], NoResult)
    else
      match op(k)
      case Succeeded(v) => RetryRun(1, [], Returned(v))
      case Threw(e) =>
        if k == maxRetries then RetryRun(1, [], Raised(e))
        else Then(1, [], RetryIntendedFrom(op, k + 1, maxRetries))
      case Unsuccessful(m) =>
        if Contains(m, ValidationFailedText) then RetryRun(1, [], Raised(m))
        else if k < maxRetries then Then(1, [Backoff(k)], RetryIntendedFrom(op, k + 1, maxRetries))
        else RetryRun(1, [], NoResult)
  }

  /** Corrected: the first validation failure is rethrown after the calls
      up to it, with no further call. */
  lemma {:induction false} ValidationFailureNotRetried<V>(op: nat -> Attempt<V>, k: nat, j: nat, maxRetries: int)
    requires k <= j <= maxRetries
    requires MarksValidation(op(j))
    requires forall i :: k <= i < j ==> op(i).Threw?
    ensures RetryIntendedFrom(op, k, maxRetries) == RetryRun(j - k + 1, [], Raised(op(j).error))
    decreases j - k
  {
    if k < j {
      ValidationFailureNotRetried(op, k + 1, j, maxRetries);
    }
  }

  /** The two agree on every run without a validation failure. */
  lemma {:induction false} IntendedAgreesWithoutValidation<V>(op: nat -> Attempt<V>, k: nat, maxRetries: int)
    requires forall i :: k <= i <= maxRetries ==> !MarksValidation(op(i))
    ensures RetryIntendedFrom(op, k, maxRetries) == RetryFrom(op, k, maxRetries)
    decreases maxRetries - k
  {
    if k <= maxRetries {
      IntendedAgreesWithoutValidation(op, k + 1, maxRetries);
    }
  }

  // ---------------------------------------------------------------------
  // createSwapWithRetry

  const DefaultMaxRetries: int := 3

  /** The response of the second `createValidatedSwap` on the stored
      documents: the state change is the one `SwapStore.CreateValidatedSwap`
      makes. */
  function ValidatedOutcome(docs: seq<SwapRecord>, schema: Schema, d: SwapData, now: int): ValidatedResponse {
    if ValidationErrors(d) != [] then ValidationFailed(ValidationErrors(d))
    else match Insert(docs, schema, d, now)
      case Inserted(_, saved) => ValidatedSaved(saved)
      case Rejected(e) => ValidatedSaveFailed(e)
  }

  /** A response of `handleSwapOperation` as one attempt of the retry loop. */
  function AttemptOf<R>(h: Handled<R>): Attempt<Handled<R>> {
    match h
    case HandleOk(_) => Succeeded(h)
    case HandleFailed(e) => Unsuccessful(Message(e))
  }

  /** The attempt `handleSwapOperation(createValidatedSwap, data)` makes.
      `createValidatedSwap` catches its own errors, so the operation always
      returns; a failed attempt changes no document, so every attempt after
      a failed one sees the same documents. */
  function CreateAttempt(docs: seq<SwapRecord>, schema: Schema, d: SwapData, now: int): Attempt<Handled<ValidatedResponse>> {
    AttemptOf(HandleSwapOperation(docs, d, Returns(ValidatedOutcome(docs, schema, d, now))))
  }

  function ConstantOp<V>(a: Attempt<V>): nat -> Attempt<V> {
    (k: nat) => a
  }

  /** `createSwapWithRetry(swapData)`: three attempts of the handled,
      validated creation. */
  function CreateSwapWithRetry(docs: seq<SwapRecord>, schema: Schema, d: SwapData, now: int): RetryRun<Handled<ValidatedResponse>> {
    RetryFrom(ConstantOp(CreateAttempt(docs, schema, d, now)), 1, DefaultMaxRetries)
  }

  /** Invalid data is tried three times, with no wait, and the validation
      failure is then rethrown. */
  lemma CreateWithRetryInvalid(docs: seq<SwapRecord>, schema: Schema, d: SwapData, now: int)
    requires ValidationErrors(d) != []
    ensures CreateSwapWithRetry(docs, schema, d, now) ==
            RetryRun(3, [], Raised(Message(ValidationRejected(ValidationErrors(d)))))
  {
    var op := ConstantOp(CreateAttempt(docs, schema, d, now));
    ValidationMessageMarked(ValidationErrors(d));
    ValidationFailuresRetried(op, 1, DefaultMaxRetries, Message(ValidationRejected(ValidationErrors(d))));
  }

  /** Three attempts that all fail with the same text, which does not
      mention validation, wait 1 s and then 2 s. */
  lemma PlainFailuresThrice<V>(m: string)
    requires !Contains(m, ValidationFailedText)
    ensures RetryFrom(ConstantOp<V>(Unsuccessful(m)), 1, DefaultMaxRetries) == RetryRun(3, [1000, 2000], NoResult)
  {
    var op := ConstantOp<V>(Unsuccessful(m));
    BackoffSchedule(op, 1, DefaultMaxRetries);
    var run := RetryFrom(op, 1, DefaultMaxRetries);
    assert run.delays == [1000, 2000] by {
      assert |run.delays| == 2;
      assert run.delays[0] == Backoff(1) && run.delays[1] == Backoff(2);
    }
  }

  /** A known transaction hash is tried three times, waiting 1 s and then
      2 s, and the run resolves to no result. */
  lemma CreateWithRetryDuplicate(docs: seq<SwapRecord>, schema: Schema, d: SwapData, now: int)
    requires ValidationErrors(d) == [] && Taken(docs, d)
    ensures CreateSwapWithRetry(docs, schema, d, now) == RetryRun(3, [1000, 2000], NoResult)
  {
    assert CreateAttempt(docs, schema, d, now) == Unsuccessful(Message(AlreadyExists));
    AlreadyExistsNotMarked();
    PlainFailuresThrice<Handled<ValidatedResponse>>(Message(AlreadyExists));
  }

  /** Valid data with a new transaction hash takes one attempt, which
      succeeds even when the save inside `createValidatedSwap` failed: its
      `{ success: false }` response is returned as the data of a successful
      one. */
  lemma CreateWithRetryFresh(docs: seq<SwapRecord>, schema: Schema, d: SwapData, now: int)
    requires ValidationErrors(d) == [] && !Taken(docs, d)
    ensures CreateSwapWithRetry(docs, schema, d, now) ==
            RetryRun(1, [], Returned(HandleOk(ValidatedOutcome(docs, schema, d, now))))
    ensures ValidatedOutcome(docs, schema, d, now).ValidatedSaved? <==> Insert(docs, schema, d, now).Inserted?
  {
  }

  /** Corrected: invalid data is refused after one attempt. */
  lemma CreateWithRetryIntendedInvalid(docs: seq<SwapRecord>, schema: Schema, d: SwapData, now: int)
    requires ValidationErrors(d) != []
    ensures RetryIntendedFrom(ConstantOp(CreateAttempt(docs, schema, d, now)), 1, DefaultMaxRetries) ==
            RetryRun(1, [], Raised(Message(ValidationRejected(ValidationErrors(d)))))
  {
    ValidationMessageMarked(ValidationErrors(d));
  }
}
