/**
 * The `trackingMachine` object (script.js:3-188) and the three global actions that
 * drive it (script.js:305-323). `state` and `context` are updated in place as the
 * source does; the ghost flag `pending` marks a lookup started by entering
 * `loading` whose delay has not yet run out. Each method is specified by the
 * matching step function of module `Tracking`.
 */
module TrackingMachine {
  import opened Wrappers
  import opened Transitions
  import opened Text
  import opened Waybill
  import opened Tracking
  import TrackingProperties

  class Machine {
    var state: State
    var context: Context
    ghost var pending: bool

    /** The machine as a value. */
    ghost function Snapshot(): Config
      reads this
    {
      Config(state, context, pending)
    }

    /** The invariant of every configuration the public actions can reach. */
    ghost predicate Valid()
      reads this
    {
      Inv(Snapshot())
    }

    /** The object literal: idle, empty waybill, no record, no error, no retries, a budget of 3. */
    constructor ()
      ensures Snapshot() == Initial
      ensures Valid()
    {
      state := Idle;
      context := InitialContext;
      pending := false;
      TrackingProperties.InitialInv();
    }

    /**
     * `handleState` reduced to its one effect on the machine: rendering `loading`
     * starts `fetchShipment`, whose completion is the later `Resolve` step. The
     * rest only touches the page.
     */
    method HandleState()
      modifies this`pending
      ensures pending == (old(pending) || state == Loading)
    {
      if state == Loading {
        pending := true;
      }
    }

    /**
     * `dispatch(action, payload)`: `accepted` is false exactly when the table has no
     * entry and the source logs an invalid transition instead of changing anything.
     */
    method Dispatch(a: Action, p: Payload) returns (accepted: bool)
      modifies this
      ensures accepted <==> Next(old(state), a).Some?
      ensures accepted ==> state == Next(old(state), a).value && context == Merge(old(context), p)
      ensures !accepted ==> state == old(state) && context == old(context) && pending == old(pending)
      ensures Snapshot() == AfterDispatch(old(Snapshot()), a, p)
    {
      var next := Next(state, a);
      if next.Some? {
        state := next.value;
        context := Merge(context, p);
        HandleState();
        accepted := true;
      } else {
        accepted := false;
      }
    }

    /**
     * The body of `fetchShipment` after its delay. A waybill the pattern rejects is
     * counted as a failure; one it accepts gets the fixed record. The count against
     * `maxRetries` then picks the outcome that is dispatched.
     */
    method Resolve()
      requires Valid() && pending
      modifies this
      ensures Valid()
      ensures Snapshot() == AfterResolve(old(Snapshot()))
      ensures !ValidWaybill(old(context.waybill)) ==>
                context == old(context).(error := Some(InvalidFormat), retryCount := old(context.retryCount) + 1) &&
                state == if context.retryCount >= MaxRetries then State.Timeout else State.Error
      ensures ValidWaybill(old(context.waybill)) ==>
                context == old(context).(shipment := Some(FixedShipment(old(context.waybill)))) &&
                state == State.Success
    {
      ghost var before := Snapshot();
      pending := false;
      var waybill := context.waybill;
      var outcome: Action;
      if !ValidWaybill(waybill) {
        context := context.(error := Some(InvalidFormat));
        context := context.(retryCount := context.retryCount + 1);
        outcome := if context.retryCount >= context.maxRetries then Action.Timeout else Action.Error;
        TrackingProperties.ResolveRejectsMalformed(before);
      } else {
        context := context.(shipment := Some(FixedShipment(waybill)));
        // With the budget spent, even a found shipment is reported as 'timeout'.
        outcome := if context.retryCount >= context.maxRetries then Action.Timeout else Action.Success;
        TrackingProperties.ResolveAcceptsWellFormed(before);
      }
      var accepted := Dispatch(outcome, NoPayload);
      TrackingProperties.ResolveKeepsInv(before);
    }

    /**
     * `trackShipment`, given the value of the waybill input field. Blank input
     * dispatches nothing; otherwise 'track' with the trimmed waybill, accepted only
     * from idle.
     */
    method Track(input: string)
      requires Valid()
      modifies this
      ensures Valid()
      ensures Snapshot() == AfterTrack(old(Snapshot()), input)
      ensures Trim(input) == [] || old(state) != Idle ==>
                state == old(state) && context == old(context) && pending == old(pending)
      ensures Trim(input) != [] && old(state) == Idle ==>
                state == Loading && pending && context == old(context).(waybill := Trim(input))
    {
      var waybill := Trim(input);
      if waybill == [] {
        return;
      }
      ghost var before := Snapshot();
      var accepted := Dispatch(Action.Track, TrackPayload(waybill));
      TrackingProperties.TrackEffect(before, input);
      TrackingProperties.TrackKeepsInv(before, input);
    }

    /** `clearTracking`: back to the initial machine from every state but loading. */
    method Clear()
      requires Valid()
      modifies this
      ensures Valid()
      ensures Snapshot() == AfterClear(old(Snapshot()))
      ensures old(state) != Loading ==> Snapshot() == Initial
      ensures old(state) == Loading ==> Snapshot() == old(Snapshot())
    {
      ghost var before := Snapshot();
      var accepted := Dispatch(Action.Clear, ResetPayload);
      TrackingProperties.ClearKeepsInv(before);
    }

    /** `retry`: from a settled state other than idle, start another lookup without touching the count. */
    method Retry()
      requires Valid()
      modifies this
      ensures Valid()
      ensures Snapshot() == AfterRetry(old(Snapshot()))
      ensures old(state) != Idle && old(state) != Loading ==>
                state == Loading && pending && context == old(context)
      ensures old(state) == Idle || old(state) == Loading ==> Snapshot() == old(Snapshot())
    {
      ghost var before := Snapshot();
      var accepted := Dispatch(Action.Retry, NoPayload);
      TrackingProperties.RetryKeepsInv(before);
    }
  }

  /**
   * A session as a page would drive it: a malformed code tracked and retried twice
   * ends in 'timeout' with three failures, and 'clear' restores the initial machine.
   */
  method MalformedCodeSession()
  {
    var m := new Machine();
    TrimKeepsTrimmed("BAD-1");
    MalformedCodesRejected();
    m.Track("BAD-1");
    m.Resolve();
    assert m.state == State.Error && m.context.retryCount == 1;
    m.Retry();
    m.Resolve();
    m.Retry();
    m.Resolve();
    assert m.state == State.Timeout && m.context.retryCount == 3;
    m.Clear();
    assert m.Snapshot() == Initial;
  }
}
