/** Sending a payout through the routed providers, with fallback, and canceling it with the one that took it. */
module Orchestrator {
  import opened Wrappers
  import opened PayoutDomain
  import opened Fallback
  import opened Registry
  import opened SuccessTracker
  import opened Weights
  import opened Router

  // ---------- which errors are retried

  /** isRetryable: errors.As unwraps the chain down to the first RetryableError; without one the error is
      retried. */
  method AsRetryable(err: Error) returns (retryable: bool)
    ensures retryable == IsRetryable(err)
    ensures forall msgs, m :: err == Wrapped(msgs, Plain(m)) ==> retryable
    ensures forall msgs, flag, inner :: err == Wrapped(msgs, RetryableError(flag, inner)) ==> retryable == flag
  {
    RetriedIff(err);
    var current := err;
    while true
      invariant IsRetryable(current) == IsRetryable(err)
      decreases current
    {
      match current
      case Plain(_) => return true;
      case Wrap(_, inner) => current := inner;
      case RetryableError(flag, _) => return flag;
    }
  }

  // ---------- one pass

  // The samples that a pass leaves in the tracker.
  function Samples(rail: string, attempts: seq<Attempt>): seq<Sample> {
    if attempts == [] then []
    else
      var last := attempts[|attempts| - 1];
      Samples(rail, attempts[..|attempts| - 1]) + [Sample(rail, last.provider, last.answer.Reference?)]
  }

  // Sample k of the pass is at places[k] of the tracker's history. Others record before, between and after.
  ghost predicate Recording(was: seq<Sample>, now: seq<Sample>, rail: string, attempts: seq<Attempt>,
      places: seq<nat>) {
    && was <= now && |places| == |attempts|
    && (forall k, l :: 0 <= k < l < |places| ==> places[k] < places[l])
    && (forall k :: 0 <= k < |places| ==> |was| <= places[k] < |now|)
    && (forall k :: 0 <= k < |places| ==>
          now[places[k]] == Sample(rail, attempts[k].provider, attempts[k].answer.Reference?))
  }

  // ... unless it is quiet: then the pass's samples are all there is.
  ghost predicate Kept(
    was: seq<Sample>, now: seq<Sample>, rail: string, attempts: seq<Attempt>, places: seq<nat>, quiet: bool)
  {
    Recording(was, now, rail, attempts, places) && (quiet ==> now == was + Samples(rail, attempts))
  }

  lemma NothingRecorded(was: seq<Sample>, now: seq<Sample>, rail: string, quiet: bool)
    requires was <= now && (quiet ==> now == was)
    ensures Kept(was, now, rail, [], [], quiet)
  {
  }

  lemma OthersRecord(was: seq<Sample>, now: seq<Sample>, later: seq<Sample>, rail: string, attempts: seq<Attempt>,
    places: seq<nat>, quiet: bool)
    requires Kept(was, now, rail, attempts, places, quiet) && now <= later && (quiet ==> later == now)
    ensures Kept(was, later, rail, attempts, places, quiet)
  {
    hide Samples;
  }

  lemma PassRecords(was: seq<Sample>, now: seq<Sample>, rail: string, attempts: seq<Attempt>, places: seq<nat>,
    quiet: bool, a: Attempt)
    requires Kept(was, now, rail, attempts, places, quiet)
    ensures var later := now + [Sample(rail, a.provider, a.answer.Reference?)];
      Kept(was, later, rail, attempts + [a], places + [|now|], quiet)
  {
    OneMoreAttempt(was, rail, attempts, a);
    hide Samples;
  }

  lemma NoAttempts(rail: string)
    ensures Samples(rail, []) == [] && Report([]) == SendResult("", "", [], false)
  {
  }

  // What one more attempt adds to the samples and to a report that was not a success.
  lemma OneMoreAttempt(before: seq<Sample>, rail: string, attempts: seq<Attempt>, a: Attempt)
    ensures before + Samples(rail, attempts + [a]) ==
      before + Samples(rail, attempts) + [Sample(rail, a.provider, a.answer.Reference?)]
    ensures var tried := Report(attempts).triedProviders + [a.provider];
      Report(attempts + [a]) ==
        if a.answer.Reference? then SendResult(a.answer.externalId, a.provider, tried, true)
        else SendResult("", "", tried, false)
  {
    assert (attempts + [a])[..|attempts|] == attempts;
    assert Providers(attempts + [a]) == Providers(attempts) + [a.provider];
  }

  /** The attempts are the routed providers up to the first decisive answer, or all of them. */
  ghost predicate FirstDecisive(route: seq<Entry>, attempts: seq<Attempt>) {
    && IsPass(attempts)
    && |attempts| <= |route|
    && (forall i :: 0 <= i < |attempts| ==> attempts[i].provider == route[i].meta.provider)
    && (|attempts| < |route| ==> attempts != [] && Decisive(attempts[|attempts| - 1].answer))
  }

  // The first providers of the route have been tried, and none was decisive.
  ghost predicate OpenSoFar(route: seq<Entry>, attempts: seq<Attempt>) {
    && |attempts| <= |route|
    && (forall i :: 0 <= i < |attempts| ==>
          attempts[i].provider == route[i].meta.provider && !Decisive(attempts[i].answer))
  }

  lemma NextAttempt(route: seq<Entry>, attempts: seq<Attempt>, a: Attempt)
    requires OpenSoFar(route, attempts) && |attempts| < |route| && a.provider == route[|attempts|].meta.provider
    ensures if Decisive(a.answer) then FirstDecisive(route, attempts + [a]) else OpenSoFar(route, attempts + [a])
  {
  }

  // Each attempt got the answer of the client at its place in the route, to this payout.
  ghost predicate AnsweredBy(route: seq<Entry>, attempts: seq<Attempt>, payout: Payout,
      sends: (ClientId, Payout, nat) -> Answer) {
    && |attempts| <= |route|
    && forall i :: 0 <= i < |attempts| ==> attempts[i].answer == sends(route[i].client, payout, i)
  }

  lemma AnsweredNext(route: seq<Entry>, attempts: seq<Attempt>, payout: Payout,
      sends: (ClientId, Payout, nat) -> Answer, name: string)
    requires AnsweredBy(route, attempts, payout, sends) && |attempts| < |route|
    ensures var answer := sends(route[|attempts|].client, payout, |attempts|);
      AnsweredBy(route, attempts + [Attempt(name, answer)], payout, sends)
  {
  }

  lemma AllTried(route: seq<Entry>, attempts: seq<Attempt>)
    requires OpenSoFar(route, attempts) && |attempts| == |route|
    ensures FirstDecisive(route, attempts)
  {
  }

  /** The pass went on after an error that is plain under its wrappers, or whose outermost RetryableError allows a
      retry, and it ended before the end of the route only on a success or on an error whose outermost RetryableError
      forbids one. */
  ghost predicate StopsWhereDecided(route: seq<Entry>, attempts: seq<Attempt>) {
    && (forall k :: 0 <= k && k + 1 < |attempts| ==>
          var a := attempts[k].answer; a.Refusal? && (Undecided(a.err) || Decides(a.err, true)))
    && |attempts| <= |route|
    && (|attempts| < |route| ==>
          && attempts != []
          && var a := attempts[|attempts| - 1].answer; a.Refusal? ==> Decides(a.err, false))
  }

  lemma StopsWhere(route: seq<Entry>, attempts: seq<Attempt>)
    requires FirstDecisive(route, attempts)
    ensures StopsWhereDecided(route, attempts)
  {
    forall k | 0 <= k && k + 1 < |attempts|
      ensures var a := attempts[k].answer; a.Refusal? && (Undecided(a.err) || Decides(a.err, true))
    {
      PassGoesOn(attempts, k);
    }
    if attempts != [] && attempts[|attempts| - 1].answer.Refusal? { RetriedIff(attempts[|attempts| - 1].answer.err); }
    hide IsRetryable;
  }

  // The attempts with a provider that ended this way.
  function Attempted(attempts: seq<Attempt>, provider: string, accepted: bool): nat {
    if attempts == [] then 0
    else
      var last := attempts[|attempts| - 1];
      Attempted(attempts[..|attempts| - 1], provider, accepted) +
      if last.provider == provider && last.answer.Reference? == accepted then 1 else 0
  }

  lemma {:induction false} CountConcat(a: seq<Sample>, b: seq<Sample>, s: Sample)
    ensures Count(a + b, s) == Count(a, s) + Count(b, s)
  {
    if b == [] {
      assert a + b == a;
    } else {
      assert (a + b)[..|a + b| - 1] == a + b[..|b| - 1];
      CountConcat(a, b[..|b| - 1], s);
    }
  }

  lemma {:induction false} SamplesCount(rail: string, attempts: seq<Attempt>, provider: string, ok: bool)
    ensures Count(Samples(rail, attempts), Sample(rail, provider, ok)) == Attempted(attempts, provider, ok)
  {
    if attempts != [] {
      var (init, last) := (attempts[..|attempts| - 1], attempts[|attempts| - 1]);
      SamplesCount(rail, init, provider, ok);
      var sample := Sample(rail, last.provider, last.answer.Reference?);
      CountConcat(Samples(rail, init), [sample], Sample(rail, provider, ok));
    }
  }

  /** What a quiet pass adds to a provider's counts, on rails without a colon: one success for each attempt that the
      provider accepted, and one failure for each that it refused. */
  lemma PassIsCounted(was: seq<Sample>, rail: string, attempts: seq<Attempt>, provider: string)
    requires ColonFree(rail) && forall s :: s in was ==> ColonFree(s.rail)
    ensures var (before, after) := (Recorded(was), Recorded(was + Samples(rail, attempts)));
      var key := Key(rail, provider);
      && Lookup(after, key).successes == Lookup(before, key).successes + Attempted(attempts, provider, true)
      && Lookup(after, key).failures == Lookup(before, key).failures + Attempted(attempts, provider, false)
  {
    var now := was + Samples(rail, attempts);
    SamplesOnRail(rail, attempts);
    CountsAreConserved(was, rail, provider);
    CountsAreConserved(now, rail, provider);
    forall ok: bool
      ensures Count(now, Sample(rail, provider, ok)) ==
        Count(was, Sample(rail, provider, ok)) + Attempted(attempts, provider, ok)
    {
      CountConcat(was, Samples(rail, attempts), Sample(rail, provider, ok));
      SamplesCount(rail, attempts, provider, ok);
    }
  }

  lemma {:induction false} SamplesOnRail(rail: string, attempts: seq<Attempt>)
    ensures forall s :: s in Samples(rail, attempts) ==> s.rail == rail
  {
    if attempts != [] { SamplesOnRail(rail, attempts[..|attempts| - 1]); }
  }

  /** The route is a permutation of the rail's active entries. */
  ghost predicate IsRoute(rails: Rails, rail: string, route: seq<Entry>) {
    multiset(route) == multiset(Active(EntriesOf(rails, rail)))
  }

  lemma NothingToTry(rails: Rails, rail: string)
    requires Active(EntriesOf(rails, rail)) == []
    ensures IsRoute(rails, rail, []) && FirstDecisive([], [])
  {
  }

  lemma NothingTried(route: seq<Entry>, payout: Payout, sends: (ClientId, Payout, nat) -> Answer)
    ensures OpenSoFar(route, []) && AnsweredBy(route, [], payout, sends)
  {
  }

  lemma EndOfPass(was: seq<Sample>, now: seq<Sample>, rail: string, attempts: seq<Attempt>, places: seq<nat>,
      quiet: bool)
    requires Kept(was, now, rail, attempts, places, quiet)
    ensures Recording(was, now, rail, attempts, places) && (quiet ==> now == was + Samples(rail, attempts))
  {
  }

  /** So no active provider is skipped by an unsuccessful pass that met no terminal error. */
  lemma ExhaustedPassTriedAll(rails: Rails, rail: string, route: seq<Entry>, attempts: seq<Attempt>, e: Entry)
    requires IsRoute(rails, rail, route) && FirstDecisive(route, attempts)
    requires e in Active(EntriesOf(rails, rail))
    requires forall i :: 0 <= i < |attempts| ==> !Decisive(attempts[i].answer)
    ensures e.meta.provider in Report(attempts).triedProviders && !Report(attempts).success
  {
    assert e in multiset(route);
    var i :| 0 <= i < |route| && route[i] == e;
    assert Report(attempts).triedProviders[i] == e.meta.provider;
  }

  class Service {
    const directory: Directory
    const tracker: Tracker
    const sorter: Sorter
    const algorithm: Algorithm

    ghost predicate Valid()
      reads tracker
    {
      tracker.Valid() && sorter.tracker == tracker
    }

    constructor (directory: Directory, tracker: Tracker, minSamples: int, algorithm: Algorithm)
      requires tracker.Valid()
      ensures Valid() && this.directory == directory && this.tracker == tracker && this.algorithm == algorithm
    {
      this.directory := directory;
      this.tracker := tracker;
      this.sorter := new Sorter(tracker, minSamples);
      this.algorithm := algorithm;
    }

    /** SelectProviders. Intn(n) is `random % n` for an arbitrary number; None is ErrNoProviders. When `quiet`,
        no one else records meanwhile. */
    method SelectProviders(rail: string, random: nat, ghost quiet: bool) returns (route: Option<seq<Entry>>)
      requires Valid()
      modifies tracker
      ensures Valid() && old(tracker.history) <= tracker.history
      ensures quiet ==> tracker.history == old(tracker.history)
      ensures route.None? <==> Active(EntriesOf(directory.rails, rail)) == []
      ensures route.Some? ==> IsRoute(directory.rails, rail, route.value)
      ensures route.Some? && algorithm.Priority? ==> route.value == Active(EntriesOf(directory.rails, rail))
      ensures route.Some? && algorithm.SuccessBased? && quiet ==>
        route.value == old(sorter.CurrentView(rail)).Sort(Active(EntriesOf(directory.rails, rail)), 0)
      ensures route.Some? && algorithm.Weighted? ==>
        var providers := Active(EntriesOf(directory.rails, rail));
        TotalWeight(providers) > 0 && IsWeightedChoice(providers, random % TotalWeight(providers), route.value)
    {
      hide Recorded;
      var providers := directory.GetProviders(rail);
      if providers == [] { return None; }
      match algorithm
      case Priority => return Some(providers);
      case Weighted =>
        EffectiveSumIsPositive(ConfiguredWeights(providers));
        var order := SelectByWeight(providers, random % TotalWeight(providers));
        WeightedChoicePermutes(providers, random % TotalWeight(providers), order);
        return Some(order);
      case SuccessBased =>
        var order := sorter.SelectBySuccessRate(rail, providers, quiet);
        return Some(order);
    }

    // A provider's client; what it answers as attempt i of the pass is up to it.
    method ClientSend(client: ClientId, payout: Payout, i: nat, sends: (ClientId, Payout, nat) -> Answer)
      returns (answer: Answer)
      ensures answer == sends(client, payout, i)
    {
      answer := sends(client, payout, i);
    }

    method ClientCancel(client: ClientId, payout: Payout, fails: (ClientId, Payout) -> bool) returns (failed: bool)
      ensures failed == fails(client, payout)
    {
      failed := fails(client, payout);
    }

    /** What others do meanwhile: record samples, unless `quiet`, and change the registry. */
    method Others(ghost quiet: bool)
      requires Valid()
      modifies tracker, directory
      ensures Valid() && old(tracker.history) <= tracker.history
      ensures quiet ==> tracker.history == old(tracker.history)
      ensures Evolves(old(directory.rails), directory.rails)
    {
      tracker.Others(quiet);
      directory.Others();
    }

    /** SendPayoutWithFallback, where the clients answer `sends`. `rails` is the registry that the route was
        selected from; others change it before and after, and record samples of their own at any time. */
    method SendPayoutWithFallback(payout: Payout, sends: (ClientId, Payout, nat) -> Answer, ghost quiet: bool)
      returns (
        result: SendResult, ghost attempts: seq<Attempt>, ghost route: seq<Entry>, ghost rails: Rails,
        ghost places: seq<nat>)
      requires Valid()
      modifies tracker, directory
      ensures Valid()
      ensures Evolves(old(directory.rails), rails) && Evolves(rails, directory.rails)
      ensures IsRoute(rails, payout.rail, route) && FirstDecisive(route, attempts)
      ensures AnsweredBy(route, attempts, payout, sends) && StopsWhereDecided(route, attempts)
      ensures result == Report(attempts)
      ensures Recording(old(tracker.history), tracker.history, payout.rail, attempts, places)
      ensures quiet ==> tracker.history == old(tracker.history) + Samples(payout.rail, attempts)
    {
      hide Recorded, Samples, Report, IsRetryable, Evolves, Recording, Kept, IsRoute, FirstDecisive, OpenSoFar,
        AnsweredBy, StopsWhereDecided;
      var rail := payout.rail;
      attempts, route, places := [], [], [];
      NoAttempts(rail);
      result := SendResult("", "", [], false);
      Others(quiet);
      rails := directory.rails;
      EvolvesToItself(rails);
      var random: nat := *;
      var selected := SelectProviders(rail, random, quiet);
      NothingRecorded(old(tracker.history), tracker.history, rail, quiet);
      NothingTried(route, payout, sends);
      if selected.None? {
        NothingToTry(rails, rail);
        EndOfPass(old(tracker.history), tracker.history, rail, attempts, places, quiet);
        StopsWhere(route, attempts);
        return;
      }
      var providers := selected.value;
      route := providers;
      NothingTried(route, payout, sends);
      for i := 0 to |providers|
        invariant Valid() && Evolves(rails, directory.rails)
        invariant Kept(old(tracker.history), tracker.history, rail, attempts, places, quiet)
        invariant |attempts| == i && OpenSoFar(route, attempts) && AnsweredBy(route, attempts, payout, sends)
        invariant result == Report(attempts) == SendResult("", "", result.triedProviders, false)
      {
        var name := providers[i].meta.provider;
        result := result.(triedProviders := result.triedProviders + [name]);
        var answer := ClientSend(providers[i].client, payout, i, sends);
        Meanwhile(rails, old(tracker.history), rail, attempts, places, quiet);
        PassRecords(old(tracker.history), tracker.history, rail, attempts, places, quiet, Attempt(name, answer));
        OneMoreAttempt([], rail, attempts, Attempt(name, answer));
        NextAttempt(route, attempts, Attempt(name, answer));
        AnsweredNext(route, attempts, payout, sends, name);
        attempts, places := attempts + [Attempt(name, answer)], places + [|tracker.history|];
        if answer.Reference? {
          tracker.RecordSuccess(rail, name);
          EndOfPass(old(tracker.history), tracker.history, rail, attempts, places, quiet);
          StopsWhere(route, attempts);
          result := result.(externalId := answer.externalId, usedProvider := name, success := true);
          return;
        }
        tracker.RecordFailure(rail, name);
        var retryable := AsRetryable(answer.err);
        if !retryable {
          EndOfPass(old(tracker.history), tracker.history, rail, attempts, places, quiet);
          StopsWhere(route, attempts);
          return;
        }
      }
      AllTried(route, attempts);
      EndOfPass(old(tracker.history), tracker.history, rail, attempts, places, quiet);
      StopsWhere(route, attempts);
    }

    // What others do while a provider is answering leaves the pass's samples where they are.
    method Meanwhile(
      ghost rails: Rails, ghost was: seq<Sample>, ghost rail: string, ghost attempts: seq<Attempt>,
      ghost places: seq<nat>, ghost quiet: bool)
      requires Valid() && Evolves(rails, directory.rails)
      requires Kept(was, tracker.history, rail, attempts, places, quiet)
      modifies tracker, directory
      ensures Valid() && Evolves(rails, directory.rails)
      ensures Kept(was, tracker.history, rail, attempts, places, quiet)
    {
      hide Recorded, Evolves, Recording, Kept;
      Others(quiet);
      EvolvesOn(rails, old(directory.rails), directory.rails);
      OthersRecord(was, old(tracker.history), tracker.history, rail, attempts, places, quiet);
    }

    /** CancelPayout, where the clients' cancels fail as `fails` says: it asks the client registered under the
        payout's provider, on whatever rail, and returns that client's error. */
    method CancelPayout(payout: Payout, fails: (ClientId, Payout) -> bool)
      returns (err: bool, ghost asked: Option<ClientId>)
      ensures CanReturn(directory.rails, payout.provider, asked)
      ensures err == (asked.None? || fails(asked.value, payout))
    {
      var client := directory.GetByProvider(payout.provider);
      asked := client;
      if client.None? { return true, asked; }
      err := ClientCancel(client.value, payout, fails);
    }
  }
}
