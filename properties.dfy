/**
 * What the tracking machine guarantees: the effect of each step, the invariant of
 * every reachable configuration, and what happens over whole runs of events.
 */
module TrackingProperties {
  import opened Wrappers
  import opened Transitions
  import opened Text
  import opened Waybill
  import opened Tracking

  // ---------------------------------------------------------------- one step

  /** An action the table does not list for the current state changes nothing at all. */
  lemma RejectedActionChangesNothing(c: Config, a: Action, p: Payload)
    requires Next(c.state, a).None?
    ensures AfterDispatch(c, a, p) == c
  {
  }

  /** An accepted action moves to the table's entry and merges the payload; no payload keeps the context. */
  lemma AcceptedActionMergesPayload(c: Config, a: Action, p: Payload)
    requires Next(c.state, a).Some?
    ensures AfterDispatch(c, a, p).state == Next(c.state, a).value
    ensures AfterDispatch(c, a, p).ctx == Merge(c.ctx, p)
    ensures p == NoPayload ==> AfterDispatch(c, a, p).ctx == c.ctx
  {
  }

  /** While a lookup is loading, 'track', 'clear' and 'retry' are all rejected. */
  lemma LoadingIgnoresUserActions(c: Config, input: string)
    requires c.state == Loading
    ensures AfterTrack(c, input) == c
    ensures AfterClear(c) == c
    ensures AfterRetry(c) == c
  {
  }

  /** A waybill the pattern rejects: one more failure is counted and the outcome depends on the new count. */
  lemma ResolveRejectsMalformed(c: Config)
    requires c.state == Loading && !ValidWaybill(c.ctx.waybill)
    ensures AfterResolve(c).ctx ==
              c.ctx.(error := Some(InvalidFormat), retryCount := c.ctx.retryCount + 1)
    ensures AfterResolve(c).state ==
              if c.ctx.retryCount + 1 >= c.ctx.maxRetries then State.Timeout else State.Error
    ensures !AfterResolve(c).pending
  {
  }

  /**
   * A waybill the pattern accepts: the count is kept, the fixed record is stored,
   * and the outcome is 'timeout' instead of 'success' once the budget is spent.
   */
  lemma ResolveAcceptsWellFormed(c: Config)
    requires c.state == Loading && ValidWaybill(c.ctx.waybill)
    ensures AfterResolve(c).ctx == c.ctx.(shipment := Some(FixedShipment(c.ctx.waybill)))
    ensures AfterResolve(c).state ==
              if c.ctx.retryCount >= c.ctx.maxRetries then State.Timeout else State.Success
    ensures !AfterResolve(c).pending
  {
  }

  /** 'clear' from any settled state resets every context field but `maxRetries`, which no payload names. */
  lemma ClearResets(c: Config)
    requires c.state != Loading
    ensures AfterClear(c) ==
              Config(Idle, Context("", None, None, 0, c.ctx.maxRetries), c.pending)
  {
  }

  /** Blank input dispatches nothing; otherwise 'track' is accepted only from idle and sets only the waybill. */
  lemma TrackEffect(c: Config, input: string)
    ensures Trim(input) == [] ==> AfterTrack(c, input) == c
    ensures Trim(input) != [] && c.state != Idle ==> AfterTrack(c, input) == c
    ensures Trim(input) != [] && c.state == Idle ==>
              AfterTrack(c, input) == Config(Loading, c.ctx.(waybill := Trim(input)), true)
  {
  }

  // ---------------------------------------------------------------- the invariant

  lemma InitialInv()
    ensures Inv(Initial)
  {
  }

  lemma TrackKeepsInv(c: Config, input: string)
    requires Inv(c)
    ensures Inv(AfterTrack(c, input))
  {
    TrackEffect(c, input);
    TrimSpec(input);
  }

  lemma ClearKeepsInv(c: Config)
    requires Inv(c)
    ensures Inv(AfterClear(c))
  {
    if c.state != Loading {
      ClearResets(c);
      assert AfterClear(c) == Initial;
      InitialInv();
    }
  }

  lemma RetryKeepsInv(c: Config)
    requires Inv(c)
    ensures Inv(AfterRetry(c))
  {
  }

  lemma ResolveKeepsInv(c: Config)
    requires Inv(c) && c.pending
    ensures Inv(AfterResolve(c))
  {
    if ValidWaybill(c.ctx.waybill) {
      ResolveAcceptsWellFormed(c);
    } else {
      ResolveRejectsMalformed(c);
    }
  }

  /** Every event keeps the invariant. */
  lemma ApplyKeepsInv(c: Config, e: Event)
    requires Inv(c)
    ensures Inv(Apply(c, e))
  {
    match e
    case UserTrack(input) => TrackKeepsInv(c, input);
    case UserClear => ClearKeepsInv(c);
    case UserRetry => RetryKeepsInv(c);
    case LookupCompletes =>
      if c.pending {
        ResolveKeepsInv(c);
      }
  }

  lemma {:induction false} RunKeepsInv(c: Config, events: seq<Event>)
    requires Inv(c)
    ensures Inv(Run(c, events))
    decreases |events|
  {
    if events != [] {
      var last := |events| - 1;
      RunKeepsInv(c, events[..last]);
      ApplyKeepsInv(Run(c, events[..last]), events[last]);
    }
  }

  /**
   * Every reachable configuration satisfies `Inv`: in particular idle always has the
   * initial context (so `retryCount == 0`), `maxRetries` stays 3, at most one lookup
   * is pending and only while loading, and a record is held only in success or loading.
   */
  lemma ReachableInv(events: seq<Event>)
    ensures Inv(Run(Initial, events))
  {
    InitialInv();
    RunKeepsInv(Initial, events);
  }

  /**
   * In a reachable configuration the "late success" route of `fetchShipment` cannot be
   * taken: a waybill that matches was never counted as a failure.
   */
  lemma LateSuccessUnreachable(c: Config)
    requires Inv(c) && c.pending && ValidWaybill(c.ctx.waybill)
    ensures AfterResolve(c).state == State.Success
  {
    ResolveAcceptsWellFormed(c);
  }

  /**
   * At most one lookup is pending at a time: a lookup starts only from a configuration
   * with none pending, and while one is pending only its completion changes anything.
   */
  lemma AtMostOneLookup(c: Config, e: Event)
    requires Inv(c)
    ensures c.state != Loading && Apply(c, e).state == Loading ==> !c.pending && Apply(c, e).pending
    ensures c.pending ==> (Apply(c, e) == c <==> e != LookupCompletes)
  {
    if c.pending && e == LookupCompletes {
      assert !Apply(c, e).pending;
    }
  }

  // ---------------------------------------------------------------- runs

  /** One more event at the end of a run. */
  lemma RunSnoc(c: Config, events: seq<Event>, e: Event)
    ensures Run(c, events + [e]) == Apply(Run(c, events), e)
  {
    assert (events + [e])[..|events|] == events;
  }

  /** A run without 'clear' is still one after dropping its last event. */
  lemma NoClearPrefix(events: seq<Event>)
    requires events != [] && NoClear(events)
    ensures NoClear(events[..|events| - 1]) && events[|events| - 1] != UserClear
  {
    var prefix := events[..|events| - 1];
    forall i | 0 <= i < |prefix| ensures prefix[i] != UserClear {
      assert prefix[i] == events[i];
    }
  }

  /** No event but 'clear' lowers the failure count. */
  lemma ApplyKeepsCount(c: Config, e: Event)
    requires e != UserClear
    ensures Apply(c, e).ctx.retryCount >= c.ctx.retryCount
  {
    match e
    case UserTrack(input) =>
    case UserRetry =>
    case LookupCompletes =>
      if c.pending && !ValidWaybill(c.ctx.waybill) {
        assert AfterResolve(c).ctx.retryCount == c.ctx.retryCount + 1;
      }
  }

  /** 'retry' never resets the count: only 'clear' can lower it. */
  lemma {:induction false} RetryCountNeverDecreases(c: Config, events: seq<Event>)
    requires NoClear(events)
    ensures Run(c, events).ctx.retryCount >= c.ctx.retryCount
    decreases |events|
  {
    if events != [] {
      var last := |events| - 1;
      NoClearPrefix(events);
      RetryCountNeverDecreases(c, events[..last]);
      ApplyKeepsCount(Run(c, events[..last]), events[last]);
    }
  }

  /** With the budget spent, an event other than 'clear' leads only to 'timeout' or 'loading'. */
  lemma ExhaustedStep(c: Config, e: Event)
    requires Inv(c) && c.ctx.retryCount >= MaxRetries
    requires c.state == State.Timeout || c.state == Loading
    requires e != UserClear
    ensures Apply(c, e).state == State.Timeout || Apply(c, e).state == Loading
    ensures Apply(c, e).ctx.retryCount >= MaxRetries
  {
    match e
    case UserTrack(input) =>
    case UserRetry =>
    case LookupCompletes =>
      if c.pending {
        ResolveRejectsMalformed(c);
      }
  }

  /**
   * Once the retry budget is spent, every later resolution lands in 'timeout' until a
   * 'clear': the machine only moves between 'timeout' and 'loading', never to 'success'.
   */
  lemma {:induction false} ExhaustedStaysExhausted(c: Config, events: seq<Event>)
    requires Inv(c) && c.ctx.retryCount >= MaxRetries
    requires NoClear(events)
    ensures Run(c, events).state == State.Timeout || Run(c, events).state == Loading
    ensures Run(c, events).ctx.retryCount >= MaxRetries
    decreases |events|
  {
    if events != [] {
      var last := |events| - 1;
      NoClearPrefix(events);
      ExhaustedStaysExhausted(c, events[..last]);
      RunKeepsInv(c, events[..last]);
      ExhaustedStep(Run(c, events[..last]), events[last]);
    } else {
      assert c.state != Idle && c.state != State.Success && c.state != State.Error;
    }
  }

  /** `n` rounds of 'retry' followed by the lookup completing. */
  function RetryRounds(n: nat): seq<Event> {
    if n == 0 then [] else RetryRounds(n - 1) + [UserRetry, LookupCompletes]
  }

  /** The run of 'track' followed by the lookup completing. */
  lemma TrackThenComplete(input: string)
    ensures Run(Initial, [UserTrack(input), LookupCompletes]) ==
              Apply(Apply(Initial, UserTrack(input)), LookupCompletes)
  {
    RunSnoc(Initial, [], UserTrack(input));
    assert [] + [UserTrack(input)] == [UserTrack(input)];
    RunSnoc(Initial, [UserTrack(input)], LookupCompletes);
    assert [UserTrack(input)] + [LookupCompletes] == [UserTrack(input), LookupCompletes];
  }

  /** 'track' from the initial machine with non-blank input starts the lookup of the trimmed input. */
  lemma TrackFromInitial(input: string)
    requires Trim(input) != []
    ensures Apply(Initial, UserTrack(input)) == Config(Loading, InitialContext.(waybill := Trim(input)), true)
  {
    TrackEffect(Initial, input);
  }

  /** The first attempt at a malformed code fails with a count of 1. */
  lemma FirstAttemptMalformed(input: string)
    requires Trim(input) != [] && !ValidWaybill(Trim(input))
    ensures Run(Initial, [UserTrack(input), LookupCompletes]) ==
              Config(State.Error, Context(Trim(input), None, Some(InvalidFormat), 1, MaxRetries), false)
  {
    TrackFromInitial(input);
    var loading := Config(Loading, InitialContext.(waybill := Trim(input)), true);
    ResolveRejectsMalformed(loading);
    assert Apply(loading, LookupCompletes) == AfterResolve(loading);
    TrackThenComplete(input);
  }

  /** A retry round of a settled malformed code counts one more failure. */
  lemma RetryMalformed(c: Config)
    requires c.state == State.Error || c.state == State.Timeout
    requires !c.pending && !ValidWaybill(c.ctx.waybill)
    ensures Apply(Apply(c, UserRetry), LookupCompletes) ==
              Config(if c.ctx.retryCount + 1 >= c.ctx.maxRetries then State.Timeout else State.Error,
                     c.ctx.(error := Some(InvalidFormat), retryCount := c.ctx.retryCount + 1), false)
  {
    var loading := Apply(c, UserRetry);
    assert loading == c.(state := Loading, pending := true);
    ResolveRejectsMalformed(loading);
  }

  /** A run split in two is the second part run from where the first part ends. */
  lemma {:induction false} RunAppend(c: Config, xs: seq<Event>, ys: seq<Event>)
    ensures Run(c, xs + ys) == Run(Run(c, xs), ys)
    decreases |ys|
  {
    if ys == [] {
      assert xs + ys == xs;
    } else {
      var front := ys[..|ys| - 1];
      var e := ys[|ys| - 1];
      assert ys == front + [e];
      assert xs + ys == (xs + front) + [e];
      RunAppend(c, xs, front);
      RunSnoc(c, xs + front, e);
      RunSnoc(Run(c, xs), front, e);
    }
  }

  /** From a first failure, each retry round of the same malformed waybill counts one more. */
  lemma {:induction false} RetryRoundsCount(c: Config, waybill: string, n: nat)
    requires !ValidWaybill(waybill)
    requires c == Config(State.Error, Context(waybill, None, Some(InvalidFormat), 1, MaxRetries), false)
    ensures Run(c, RetryRounds(n)) ==
              Config(if n + 1 >= MaxRetries then State.Timeout else State.Error,
                     Context(waybill, None, Some(InvalidFormat), n + 1, MaxRetries), false)
  {
    if n > 0 {
      RetryRoundsCount(c, waybill, n - 1);
      RetryMalformed(Run(c, RetryRounds(n - 1)));
      RunRound(c, n);
    }
  }

  /** The last retry round of a run of rounds, as two steps. */
  lemma RunRound(c: Config, n: nat)
    requires n > 0
    ensures Run(c, RetryRounds(n)) ==
              Apply(Apply(Run(c, RetryRounds(n - 1)), UserRetry), LookupCompletes)
  {
    var prefix := RetryRounds(n - 1);
    RunSnoc(c, prefix, UserRetry);
    RunSnoc(c, prefix + [UserRetry], LookupCompletes);
    assert RetryRounds(n) == (prefix + [UserRetry]) + [LookupCompletes];
  }

  /**
   * Tracking a malformed code and retrying it `n` times counts `n + 1` failures; the
   * count passes 3 without bound, and from the third failure on the outcome is 'timeout'.
   */
  lemma MalformedCodeCountsEveryAttempt(input: string, n: nat)
    requires Trim(input) != [] && !ValidWaybill(Trim(input))
    ensures Run(Initial, [UserTrack(input), LookupCompletes] + RetryRounds(n)) ==
              Config(if n + 1 >= MaxRetries then State.Timeout else State.Error,
                     Context(Trim(input), None, Some(InvalidFormat), n + 1, MaxRetries), false)
  {
    var start := [UserTrack(input), LookupCompletes];
    FirstAttemptMalformed(input);
    RetryRoundsCount(Run(Initial, start), Trim(input), n);
    RunAppend(Initial, start, RetryRounds(n));
  }

  /** `BAD-1` tracked and retried twice ends in 'timeout' with a count of 3; one more retry counts 4. */
  lemma BadCodeExhaustsRetries()
    ensures Run(Initial, [UserTrack("BAD-1"), LookupCompletes] + RetryRounds(2)).state == State.Timeout
    ensures Run(Initial, [UserTrack("BAD-1"), LookupCompletes] + RetryRounds(2)).ctx.retryCount == 3
    ensures Run(Initial, [UserTrack("BAD-1"), LookupCompletes] + RetryRounds(3)).ctx.retryCount == 4
  {
    TrimKeepsTrimmed("BAD-1");
    MalformedCodesRejected();
    MalformedCodeCountsEveryAttempt("BAD-1", 2);
    MalformedCodeCountsEveryAttempt("BAD-1", 3);
  }

  /**
   * A well-formed code (padded with blanks, or embedded in longer text) goes
   * idle, loading, success and stores the fixed record under the trimmed input.
   */
  lemma WellFormedCodeSucceeds(input: string)
    requires ValidWaybill(Trim(input))
    ensures Run(Initial, [UserTrack(input), LookupCompletes]) ==
              Config(State.Success, InitialContext.(waybill := Trim(input), shipment := Some(FixedShipment(Trim(input)))), false)
  {
    TrackFromInitial(input);
    var loading := Config(Loading, InitialContext.(waybill := Trim(input)), true);
    ResolveAcceptsWellFormed(loading);
    assert Apply(loading, LookupCompletes) == AfterResolve(loading);
    TrackThenComplete(input);
  }

  /**
   * After a success, 'retry' reaches 'loading' while the record is still held, so a
   * record is not confined to the success state.
   */
  lemma RecordSurvivesRetry(input: string)
    requires ValidWaybill(Trim(input))
    ensures Run(Initial, [UserTrack(input), LookupCompletes, UserRetry]).state == Loading
    ensures Run(Initial, [UserTrack(input), LookupCompletes, UserRetry]).ctx.shipment.Some?
  {
    WellFormedCodeSucceeds(input);
    RunSnoc(Initial, [UserTrack(input), LookupCompletes], UserRetry);
    assert [UserTrack(input), LookupCompletes] + [UserRetry] == [UserTrack(input), LookupCompletes, UserRetry];
  }
}
