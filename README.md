# Shipment tracking state machine

A Dafny model of the tracking widget of the GlobalFreight site: the
`trackingMachine` object of `script.js` and the three global actions that drive it
(`trackShipment`, `clearTracking`, `retry`). The machine has five states (`idle`,
`loading`, `success`, `error`, `timeout`) and a context record (`waybill`,
`shipment`, `error`, `retryCount`, `maxRetries`). `dispatch` looks the action up in
a string-keyed transition table, moves the state, shallow-merges a payload over the
context and renders. Rendering `loading` starts `fetchShipment`. After a delay,
that lookup checks the waybill against `/GFRT-\d{6}-[A-Z]{3}/`. A match stores a
fixed shipment record; a mismatch counts one more failure. The outcome dispatched
is `timeout` once `retryCount >= maxRetries`.

Files:

- `wrappers.dfy`: `Option`, standing for `null`.
- `transitions.dfy`: the `State` and `Action` variants and the table `Next`.
- `text.dfy`: `String.prototype.trim` over ECMAScript white space.
- `waybill.dfy`: the unanchored waybill pattern `ValidWaybill`.
- `tracking.dfy`: the model as values. It holds the context, the payload and its
  merge, and one step function per thing that can happen (`AfterDispatch`,
  `AfterResolve`, `AfterTrack`, `AfterClear`, `AfterRetry`). It also holds event runs
  (`Apply`, `Run`) and the invariant `Inv` of reachable configurations.
- `properties.dfy`: lemmas about single steps, the invariant and whole runs.
- `machine.dfy`: the class `Machine`. Its `state` and `context` fields are updated in
  place by `Dispatch`, `Resolve`, `Track`, `Clear` and `Retry`. Each method is
  specified by the matching step function and keeps `Inv`. A ghost flag, `pending`,
  records a lookup that has started and not yet completed.

The delay in `fetchShipment` splits the lookup in two. Entering `loading` sets
`pending`. The rest of `fetchShipment` is the separate step `Resolve` (in runs, the
event `LookupCompletes`), which may happen only while `pending` holds.

What the proofs show about the code:

- A rejected action changes nothing. An accepted one moves to the table entry and
  merges exactly the fields the payload names.
- While `loading`, `track`, `clear` and `retry` are all rejected. Only the lookup's
  own outcome leaves `loading`, so at most one lookup is ever pending
  (`AtMostOneLookup`).
- `retry` never resets `retryCount`. Tracking `BAD-1` and retrying `n` times gives a
  count of `n + 1`, without bound. From the third failure on, the outcome is
  `timeout`, and until `clear` the machine only alternates between `loading` and
  `timeout`.
- In every reachable configuration, `idle` holds the initial context, `maxRetries`
  is 3, and the waybill is trimmed and non-empty outside `idle`. A failure count
  above zero implies a waybill the pattern rejects.
- So the "late success" route of `fetchShipment` (a match found after the budget is
  spent, script.js:128-131) cannot be reached through the public actions: the
  waybill cannot change between `clear`s, and a matching waybill never fails.
  `ResolveAcceptsWellFormed` states what that route does in an arbitrary
  configuration: the record is stored and `timeout` is dispatched.

Properties the code does not have:

- It does not hold that `retryCount <= maxRetries` after every transition.
  `BadCodeExhaustsRetries` reaches a count of 4.
- It does not hold that a record is present exactly in `success`.
  `RecordSurvivesRetry` reaches `loading` with a record still held, because `retry`
  from `success` keeps it.
- The code does not clear `error` on success. In reachable configurations this is
  not observable, because `error` is set exactly when the count is positive.
- A `retry` from `timeout` never reaches `success` before a `clear`
  (`ExhaustedStaysExhausted`).
- `clear` does not work from every state: the `loading` row of the table
  (script.js:15) has no `CLEAR` entry, so `clearTracking` during a lookup changes
  nothing (`LoadingIgnoresUserActions`).

## Model

| member | source | states |
|---|---|---|
| `Transitions.Next` | script.js:13-19 | `loading` is left only by `success`, `error` or `timeout`, each going to its namesake state. `loading` is entered only by `track` from `idle` or `retry` from a settled state. `idle` is reached only by `clear`, from every state but `loading`. |
| `Transitions.EveryStateHasAMove` | script.js:13-19 | no state is terminal: every row of the table has an entry |
| `Text.TrimStartSpec` | script.js:306 | `TrimStart` yields the suffix left after a run of leading white space, and that suffix does not start with white space |
| `Text.TrimEndSpec` | script.js:306 | `TrimEnd` yields the prefix left before a run of trailing white space, and that prefix does not end with white space |
| `Text.TrimSpec` | script.js:306 | `trim()` leaves no white space at either end, and yields the empty string exactly when the input is all white space |
| `Text.TrimKeepsTrimmed` | script.js:306 | a string without white space at either end is returned unchanged |
| `Text.TrimIdempotent` | script.js:306 | trimming twice equals trimming once |
| `Waybill.ValidWaybill` | script.js:108 | the unanchored pattern: some 15-character window reads `GFRT-`, six ASCII digits, `-`, three ASCII capitals; so a match needs at least 15 characters |
| `Waybill.CanonicalCodeAccepted` | script.js:108 | `GFRT-123456-ABC` matches |
| `Waybill.MalformedCodesRejected` | script.js:108 | `BAD-1`, lower-case letters and a five-digit run are rejected |
| `Waybill.EmbeddedCodeAccepted` | script.js:108 | text before and after a matching string never prevents the match |
| `Waybill.ExactLengthIsWholeMatch` | script.js:108 | for a 15-character string, the test is a whole-string match |
| `Tracking.FixedShipment` | script.js:112-126 | the stored record carries the submitted waybill and the fixed two checkpoints |
| `Tracking.Merge` | script.js:26 | shallow merge: each context field named by the payload takes the payload's value, every other keeps its old value |
| `Tracking.AfterDispatch` | script.js:21-34 | a missing table entry changes nothing; otherwise the state becomes the entry and the context the merge with the payload, and entering `loading` starts a lookup. It is the definition every step uses; `RejectedActionChangesNothing` and `AcceptedActionMergesPayload` restate it as lemmas |
| `Tracking.AfterResolve` | script.js:104-142 | completing a lookup leaves no lookup pending, keeps the waybill and `maxRetries`, and from `loading` ends in `success`, `error` or `timeout`; which one, and what is stored, is stated by `ResolveRejectsMalformed` and `ResolveAcceptsWellFormed` |
| `Tracking.AfterTrack` | script.js:305-315 | `trackShipment` either changes nothing or moves from `idle` to `loading` with a lookup pending and the non-empty trimmed input as waybill (details in `TrackEffect`) |
| `Tracking.AfterClear` | script.js:317-319 | `clearTracking` changes nothing in `loading`; elsewhere it goes to `idle` with waybill, record, error and count reset and `maxRetries` kept |
| `Tracking.AfterRetry` | script.js:321-323 | `retry` never changes the context; when it changes anything it goes from `success`, `error` or `timeout` to `loading` with a lookup pending |
| `Tracking.Inv` | script.js:3-188 | the invariant of reachable configurations (proved in `ReachableInv`); it implies that `success` holds a waybill the pattern accepts with no error and count 0, and `error` a waybill it rejects with the format error |
| `TrackingProperties.RejectedActionChangesNothing` | script.js:23-30 | an action without a table entry leaves state, context and the pending lookup unchanged |
| `TrackingProperties.AcceptedActionMergesPayload` | script.js:23-27 | an accepted action sets the state to the table entry and the context to the merge; without a payload the context is unchanged |
| `TrackingProperties.LoadingIgnoresUserActions` | script.js:13-30 | in `loading`, `trackShipment`, `clearTracking` and `retry` change nothing |
| `TrackingProperties.ResolveRejectsMalformed` | script.js:107-141 | for a rejected waybill, `error` becomes `Invalid waybill format` and the count grows by exactly 1, with nothing else changed. The outcome is `timeout` if the new count reaches `maxRetries`, else `error`. The lookup is no longer pending. |
| `TrackingProperties.ResolveAcceptsWellFormed` | script.js:107-133 | for a matching waybill, the fixed record is stored and the count is kept. The outcome is `timeout` if the count already reaches `maxRetries`, else `success`. |
| `TrackingProperties.ClearResets` | script.js:317-319 | `clear` from any state but `loading` gives `idle`, waybill `''`, no record, no error and count 0; `maxRetries` is kept |
| `TrackingProperties.TrackEffect` | script.js:305-315 | blank input after trimming changes nothing. Otherwise `track` is accepted only from `idle`: it enters `loading`, starts a lookup and sets only the waybill, to the trimmed input. |
| `TrackingProperties.InitialInv` | script.js:4-11 | the initial machine satisfies the invariant |
| `TrackingProperties.TrackKeepsInv` | script.js:305-315 | `trackShipment` keeps the invariant |
| `TrackingProperties.ClearKeepsInv` | script.js:317-319 | `clearTracking` keeps the invariant |
| `TrackingProperties.RetryKeepsInv` | script.js:321-323 | `retry` keeps the invariant |
| `TrackingProperties.ResolveKeepsInv` | script.js:104-142 | completing a pending lookup keeps the invariant |
| `TrackingProperties.ApplyKeepsInv` | script.js:305-323 | every public action and every lookup completion keeps the invariant |
| `TrackingProperties.RunKeepsInv` | script.js:305-323 | every run of events from a configuration satisfying the invariant keeps it |
| `TrackingProperties.ReachableInv` | script.js:305-323 | every configuration reachable from the initial one satisfies the invariant. So `idle` has the initial context and count 0, `maxRetries` stays 3, a lookup is pending exactly in `loading`, and a record is held only in `success` or `loading`. |
| `TrackingProperties.LateSuccessUnreachable` | script.js:128-131 | in a reachable configuration, a matching waybill always resolves to `success` |
| `TrackingProperties.RetryCountNeverDecreases` | script.js:321-323 | over any run without `clear`, the failure count never decreases |
| `TrackingProperties.ExhaustedStep` | script.js:128-141 | in a configuration satisfying the invariant, with the count at 3 or more in `timeout` or `loading`, any event but `clear` leads to `timeout` or `loading` with the count still at 3 or more |
| `TrackingProperties.AtMostOneLookup` | script.js:13-30 | in a configuration satisfying the invariant, an event that enters `loading` starts from a configuration with no lookup pending; while a lookup is pending, every event but its completion changes nothing |
| `TrackingProperties.ExhaustedStaysExhausted` | script.js:128-141 | once the count reaches 3, every run without `clear` stays in `timeout` or `loading` with the count at least 3 |
| `TrackingProperties.MalformedCodeCountsEveryAttempt` | script.js:134-141 | tracking a malformed code and retrying it `n` times ends with count `n + 1` and error `Invalid waybill format`. The state is `timeout` from the third failure on, `error` before. |
| `TrackingProperties.BadCodeExhaustsRetries` | script.js:134-141 | `BAD-1` tracked then retried twice ends in `timeout` with count 3; a third retry gives count 4 |
| `TrackingProperties.WellFormedCodeSucceeds` | script.js:112-133 | a matching code goes `idle`, `loading`, `success` and stores the fixed record under the trimmed input |
| `TrackingProperties.RecordSurvivesRetry` | script.js:321-323 | `retry` after a success reaches `loading` with the record still held |
| `TrackingMachine.Machine.constructor` | script.js:4-11 | the machine starts `idle` with the initial context and no pending lookup, and satisfies the invariant |
| `TrackingMachine.Machine.HandleState` | script.js:67-73 | rendering `loading` starts the lookup; other states start nothing |
| `TrackingMachine.Machine.Dispatch` | script.js:21-34 | `accepted` is false exactly when the table has no entry, and then nothing changes. Otherwise the state is the table entry and the context is the merge with the payload. |
| `TrackingMachine.Machine.Resolve` | script.js:104-142 | completes the pending lookup as `AfterResolve` says and keeps the invariant. A rejected waybill adds one failure, sets the error and ends in `error` or `timeout`. A matching one stores the record and ends in `success`. |
| `TrackingMachine.Machine.Track` | script.js:305-315 | blank input changes nothing. Otherwise, from `idle` only, the machine enters `loading` with the trimmed waybill and a pending lookup, and the rest of the context is unchanged. |
| `TrackingMachine.Machine.Clear` | script.js:317-319 | from every state but `loading` the machine becomes the initial one; in `loading` nothing changes |
| `TrackingMachine.Machine.Retry` | script.js:321-323 | from `success`, `error` or `timeout`, enters `loading` with the context, count included, unchanged; from `idle` or `loading` nothing changes |

## Left out

- Rendering: every branch of `handleState` except the start of the lookup when
  `loading` is rendered, and all of `renderShipment`. The renderer only touches the
  page. The model does not raise faults from it; the source catches any such fault
  after the state has been updated, so a fault could not undo a transition.
- The early return of `handleState` when the form or the input element is missing.
  The model assumes the page has both.
- The one-second `setTimeout` in `fetchShipment`. It becomes the separate step
  `Resolve` (the event `LookupCompletes`), which happens only while a lookup is pending.
- The diagnostic `console.error` lines. A rejected transition is reported by
  `Dispatch` returning `accepted == false`.
- The error-message shake animation that `trackShipment` shows for blank input. It
  only touches the page; the model keeps the fact that nothing is dispatched.
- The progress-bar width `(checkpoints.length / 5) * 100`. It is a display-only
  floating-point value.
- Payloads are the objects the source's callers pass: `waybill`, `shipment`,
  `error`, `retryCount`, and also `maxRetries`, which a spread could name. Other
  property names a JavaScript object could carry are not modelled.
- Strings are sequences of Unicode scalar values, not UTF-16 code units. `trim` and
  the pattern only look at characters in the Basic Multilingual Plane, so they
  behave the same.
- `retryCount` is an unbounded natural number. JavaScript's loss of integer
  precision beyond 2^53 is not modelled.
- Navbar and submenu toggles, the headline rotation, the service and case-study
  modals, form submissions, scroll animations, `downloadReport`, `contactSupport` and
  `changeLanguage`. These are page wiring outside the tracking machine.
