/**
 * The tracking machine as values: its context record, the shallow payload merge,
 * and one function per step that changes the machine. `TrackingMachine.Machine`
 * performs these steps in place and is specified by them; the lemmas in
 * `TrackingProperties` are stated over them.
 */
module Tracking {
  import opened Wrappers
  import opened Transitions
  import opened Text
  import opened Waybill

  datatype Checkpoint = Checkpoint(status: string, date: string, location: string, details: string)

  /** The shipment record shown on success; `freightType` is the source's `type` property. */
  datatype Shipment = Shipment(
    waybill: string,
    status: string,
    eta: string,
    lastCheckpoint: string,
    carrierRef: string,
    origin: string,
    destination: string,
    carrier: string,
    freightType: string,
    checkpoints: seq<Checkpoint>)

  /** The record the simulated lookup stores for a well-formed waybill (script.js:112-126). */
  function FixedShipment(waybill: string): (r: Shipment)
    ensures r.waybill == waybill
    ensures r.checkpoints == FixedCheckpoints
  {
    Shipment(
      waybill, "In Transit", "August 5, 2025",
      "Port of Singapore, 2025-07-24 09:15 UTC", "MSK-V12345",
      "Shanghai, China", "Los Angeles, CA", "Maersk", "Sea Freight",
      FixedCheckpoints)
  }

  /** The two checkpoints of the simulated record, oldest first. */
  const FixedCheckpoints: seq<Checkpoint> :=
    [Checkpoint("Booked", "2025-07-20", "Shanghai, China", "Shipment booked and processed."),
     Checkpoint("In Transit", "2025-07-24", "Port of Singapore", "Shipment arrived at intermediate port.")]

  /** `trackingMachine.context`; `null` is `None`. */
  datatype Context = Context(
    waybill: string,
    shipment: Option<Shipment>,
    error: Option<string>,
    retryCount: nat,
    maxRetries: nat)

  const MaxRetries: nat := 3
  const InitialContext: Context := Context("", None, None, 0, MaxRetries)
  const InvalidFormat: string := "Invalid waybill format"

  /**
   * The object spread into the context by `dispatch`. A field is `Some` when the
   * payload names it; `shipment: Some(None)` is the payload's `shipment: null`.
   */
  datatype Payload = Payload(
    waybill: Option<string>,
    shipment: Option<Option<Shipment>>,
    error: Option<Option<string>>,
    retryCount: Option<nat>,
    maxRetries: Option<nat>)

  /** No payload at all: `dispatch('retry')`, `dispatch('success')`, ... */
  const NoPayload: Payload := Payload(None, None, None, None, None)

  /** The payload of `clearTracking` (script.js:318). */
  const ResetPayload: Payload := Payload(Some(""), Some(None), Some(None), Some(0), None)

  /** The payload of `trackShipment` (script.js:314). */
  function TrackPayload(waybill: string): Payload {
    NoPayload.(waybill := Some(waybill))
  }

  /** `{ ...context, ...payload }`: a field the payload names takes the payload's value, every other keeps its own. */
  function Merge(c: Context, p: Payload): (r: Context)
    ensures p.waybill.Some? ==> r.waybill == p.waybill.value
    ensures p.waybill.None? ==> r.waybill == c.waybill
    ensures p.shipment.Some? ==> r.shipment == p.shipment.value
    ensures p.shipment.None? ==> r.shipment == c.shipment
    ensures p.error.Some? ==> r.error == p.error.value
    ensures p.error.None? ==> r.error == c.error
    ensures p.retryCount.Some? ==> r.retryCount == p.retryCount.value
    ensures p.retryCount.None? ==> r.retryCount == c.retryCount
    ensures p.maxRetries.Some? ==> r.maxRetries == p.maxRetries.value
    ensures p.maxRetries.None? ==> r.maxRetries == c.maxRetries
  {
    var waybill := if p.waybill.Some? then p.waybill.value else c.waybill;
    var shipment := if p.shipment.Some? then p.shipment.value else c.shipment;
    var error := if p.error.Some? then p.error.value else c.error;
    var retryCount := if p.retryCount.Some? then p.retryCount.value else c.retryCount;
    var maxRetries := if p.maxRetries.Some? then p.maxRetries.value else c.maxRetries;
    Context(waybill, shipment, error, retryCount, maxRetries)
  }

  /**
   * Everything about the machine that a step can change. `pending` records that a
   * lookup has been started by entering `loading` and has not yet completed.
   */
  datatype Config = Config(state: State, ctx: Context, pending: bool)

  const Initial: Config := Config(Idle, InitialContext, false)

  /**
   * `dispatch(action, payload)` (script.js:21-34): a missing table entry changes
   * nothing; otherwise the state moves, the payload is merged, and rendering
   * `loading` starts the lookup (script.js:67-73).
   */
  function AfterDispatch(c: Config, a: Action, p: Payload): (r: Config)
    ensures Next(c.state, a).None? ==> r == c
    ensures Next(c.state, a).Some? ==> r.state == Next(c.state, a).value && r.ctx == Merge(c.ctx, p)
    ensures r.pending <==> c.pending || (Next(c.state, a).Some? && r.state == Loading)
  {
    match Next(c.state, a)
    case None => c
    case Some(t) => Config(t, Merge(c.ctx, p), c.pending || t == Loading)
  }

  /** The part of `fetchShipment` that runs after its delay (script.js:107-141). */
  function AfterResolve(c: Config): (r: Config)
    ensures !r.pending
    ensures r.ctx.waybill == c.ctx.waybill && r.ctx.maxRetries == c.ctx.maxRetries
    ensures c.state == Loading ==> r.state != Loading && r.state != Idle
  {
    var waybill := c.ctx.waybill;
    var done := c.(pending := false);
    if !ValidWaybill(waybill) then
      var ctx := c.ctx.(error := Some(InvalidFormat), retryCount := c.ctx.retryCount + 1);
      var outcome := if ctx.retryCount >= ctx.maxRetries then Action.Timeout else Action.Error;
      AfterDispatch(done.(ctx := ctx), outcome, NoPayload)
    else
      var ctx := c.ctx.(shipment := Some(FixedShipment(waybill)));
      var outcome := if ctx.retryCount >= ctx.maxRetries then Action.Timeout else Action.Success;
      AfterDispatch(done.(ctx := ctx), outcome, NoPayload)
  }

  /** `trackShipment` with the input field holding `input` (script.js:305-315). */
  function AfterTrack(c: Config, input: string): (r: Config)
    ensures r == c || (c.state == Idle && r.state == Loading && r.pending && r.ctx.waybill == Trim(input) && Trim(input) != [])
  {
    var waybill := Trim(input);
    if waybill == [] then c else AfterDispatch(c, Track, TrackPayload(waybill))
  }

  /** `clearTracking` (script.js:317-319). */
  function AfterClear(c: Config): (r: Config)
    ensures c.state == Loading ==> r == c
    ensures c.state != Loading ==> r.state == Idle && r.pending == c.pending
    ensures c.state != Loading ==> r.ctx == c.ctx.(waybill := "", shipment := None, error := None, retryCount := 0)
  {
    AfterDispatch(c, Clear, ResetPayload)
  }

  /** `retry` (script.js:321-323). */
  function AfterRetry(c: Config): (r: Config)
    ensures r.ctx == c.ctx
    ensures r != c ==> c.state in {State.Success, State.Error, State.Timeout} && r.state == Loading && r.pending
  {
    AfterDispatch(c, Retry, NoPayload)
  }

  /** What can happen next: a user action, or the delay of a started lookup running out. */
  datatype Event = UserTrack(input: string) | UserClear | UserRetry | LookupCompletes

  /** A completion with no lookup pending is not an event that can occur, so it changes nothing. */
  function Apply(c: Config, e: Event): Config {
    match e
    case UserTrack(input) => AfterTrack(c, input)
    case UserClear => AfterClear(c)
    case UserRetry => AfterRetry(c)
    case LookupCompletes => if c.pending then AfterResolve(c) else c
  }

  /** The configuration after `events`, applied in order starting from `c`. */
  function Run(c: Config, events: seq<Event>): Config
    decreases |events|
  {
    if events == [] then c else Apply(Run(c, events[..|events| - 1]), events[|events| - 1])
  }

  predicate NoClear(events: seq<Event>) {
    forall i :: 0 <= i < |events| ==> events[i] != UserClear
  }

  /** The waybill is trimmed, the error and the retry count agree, and a failed waybill never gets a record. */
  predicate ContextInv(ctx: Context) {
    ctx.maxRetries == MaxRetries &&
    IsTrimmed(ctx.waybill) &&
    (ctx.error.None? <==> ctx.retryCount == 0) &&
    (ctx.error.Some? ==> ctx.error.value == InvalidFormat) &&
    (ctx.retryCount > 0 ==> !ValidWaybill(ctx.waybill)) &&
    (ctx.shipment.Some? ==> ctx.shipment.value == FixedShipment(ctx.waybill) && ValidWaybill(ctx.waybill))
  }

  /**
   * What holds of every configuration the public actions and the lookup can reach
   * from the initial one (proved in `TrackingProperties.ReachableInv`).
   */
  predicate Inv(c: Config): (ok: bool)
    ensures ok && c.state == State.Success ==> ValidWaybill(c.ctx.waybill) && c.ctx.retryCount == 0 && c.ctx.error.None?
    ensures ok && c.state == State.Error ==> !ValidWaybill(c.ctx.waybill) && c.ctx.error == Some(InvalidFormat)
  {
    ContextInv(c.ctx) &&
    (c.pending <==> c.state == Loading) &&
    (c.state == Idle ==> c.ctx == InitialContext) &&
    (c.state != Idle ==> c.ctx.waybill != []) &&
    (c.ctx.shipment.Some? ==> c.state == State.Success || c.state == Loading) &&
    (c.state == State.Success ==> c.ctx.shipment.Some?) &&
    (c.state == State.Error ==> 0 < c.ctx.retryCount < MaxRetries) &&
    (c.state == State.Timeout ==> c.ctx.retryCount >= MaxRetries)
  }
}
