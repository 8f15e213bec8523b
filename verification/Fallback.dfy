/** Provider answers, and what one pass over a routed list of providers can look like. */
module Fallback {

  /** A Go error chain: a plain error, a wrapper around one, or a RetryableError around one. */
  datatype Error =
    | Plain(msg: string)
    | Wrap(msg: string, inner: Error)
    | RetryableError(retryable: bool, inner: Error)

  datatype Answer = Reference(externalId: string) | Refusal(err: Error)

  /** The errors of the chain that are RetryableErrors, outermost first. */
  function Flags(err: Error): (flags: seq<bool>)
  {
    match err
    case Plain(_) => []
    case Wrap(_, inner) => Flags(inner)
    case RetryableError(b, inner) => [b] + Flags(inner)
  }

  /** The fallback goes on after an error unless its outermost RetryableError says no. */
  predicate IsRetryable(err: Error)
  {
    var flags := Flags(err);
    flags == [] || flags[0]
  }

  /** An error with wrappers around it, the first outermost. */
  function Wrapped(msgs: seq<string>, err: Error): Error {
    if msgs == [] then err else Wrap(msgs[0], Wrapped(msgs[1..], err))
  }

  /** Under its wrappers an error is plain or a RetryableError around anything. */
  ghost predicate Undecided(err: Error) {
    exists msgs, m :: err == Wrapped(msgs, Plain(m))
  }

  ghost predicate Decides(err: Error, retry: bool) {
    exists msgs, inner :: err == Wrapped(msgs, RetryableError(retry, inner))
  }

  lemma {:induction false} WrappersDoNotMatter(msgs: seq<string>, err: Error)
    ensures Flags(Wrapped(msgs, err)) == Flags(err)
  {
    if msgs != [] { WrappersDoNotMatter(msgs[1..], err); }
  }

  lemma {:induction false} Unwrapped(err: Error)
    ensures Undecided(err) || Decides(err, true) || Decides(err, false)
  {
    match err
    case Plain(m) => assert err == Wrapped([], Plain(m));
    case RetryableError(retry, inner) => assert err == Wrapped([], RetryableError(retry, inner));
    case Wrap(msg, inner) =>
      Unwrapped(inner);
      if Undecided(inner) {
        var msgs, m :| inner == Wrapped(msgs, Plain(m));
        assert err == Wrapped([msg] + msgs, Plain(m));
      } else {
        var retry := Decides(inner, true);
        var msgs, e :| inner == Wrapped(msgs, RetryableError(retry, e));
        assert err == Wrapped([msg] + msgs, RetryableError(retry, e));
      }
  }

  /** Exactly one of the three holds of an error, and it is retried unless the third does. */
  lemma RetriedIff(err: Error)
    ensures IsRetryable(err) <==> Undecided(err) || Decides(err, true)
    ensures !IsRetryable(err) <==> Decides(err, false)
  {
    Unwrapped(err);
    forall msgs, m | err == Wrapped(msgs, Plain(m)) ensures IsRetryable(err) {
      WrappersDoNotMatter(msgs, Plain(m));
    }
    forall msgs, retry, inner | err == Wrapped(msgs, RetryableError(retry, inner)) ensures IsRetryable(err) == retry {
      WrappersDoNotMatter(msgs, RetryableError(retry, inner));
    }
  }

  predicate Decisive(a: Answer)
  {
    a.Reference? || !IsRetryable(a.err)
  }

  datatype Attempt = Attempt(provider: string, answer: Answer)

  /** What SendPayoutWithFallback reports. */
  datatype SendResult = SendResult(
    externalId: string,
    usedProvider: string,
    triedProviders: seq<string>,
    success: bool)

  /** Attempts that one pass can make: only the last may be decisive. */
  predicate IsPass(attempts: seq<Attempt>)
  {
    forall i :: 0 <= i < |attempts| - 1 ==> !Decisive(attempts[i].answer)
  }

  function Providers(attempts: seq<Attempt>): (names: seq<string>)
    ensures |names| == |attempts|
    ensures forall i :: 0 <= i < |names| ==> names[i] == attempts[i].provider
  {
    seq(|attempts|, i requires 0 <= i < |attempts| => attempts[i].provider)
  }

  /** The report on a pass: it succeeded exactly when its last attempt did. */
  function Report(attempts: seq<Attempt>): SendResult
  {
    if attempts != [] && attempts[|attempts| - 1].answer.Reference? then
      var last := attempts[|attempts| - 1];
      SendResult(last.answer.externalId, last.provider, Providers(attempts), true)
    else
      SendResult("", "", Providers(attempts), false)
  }

  /** A pass, without the word for it: every attempt but the last was answered with an error that nothing in it
      forbids to retry. */
  lemma PassGoesOn(attempts: seq<Attempt>, k: nat)
    requires IsPass(attempts) && k + 1 < |attempts|
    ensures var a := attempts[k].answer; a.Refusal? && (Undecided(a.err) || Decides(a.err, true))
  {
    if attempts[k].answer.Refusal? { RetriedIff(attempts[k].answer.err); }
  }

  /** What a report says of its pass. */
  lemma ReportSays(attempts: seq<Attempt>)
    ensures var r := Report(attempts);
      && |r.triedProviders| == |attempts|
      && (forall k :: 0 <= k < |attempts| ==> r.triedProviders[k] == attempts[k].provider)
      && (r.success <==> attempts != [] && attempts[|attempts| - 1].answer.Reference?)
      && (r.success ==>
            && r.usedProvider == attempts[|attempts| - 1].provider
            && r.externalId == attempts[|attempts| - 1].answer.externalId)
      && (!r.success ==> r.usedProvider == "" && r.externalId == "")
  {
  }
}
