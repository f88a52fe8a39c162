/**
 * The five states of the tracking widget and its transition table
 * (`trackingMachine.transitions`, script.js:13-19). The source keys the table by
 * strings; here a state and an action are tagged variants and the table is a total
 * function that answers `None` where the source's lookup yields `undefined`.
 */
module Transitions {
  import opened Wrappers

  datatype State = Idle | Loading | Success | Error | Timeout

  /** The action names the source dispatches: 'track', 'success', 'error', 'timeout', 'retry', 'clear'. */
  datatype Action = Track | Success | Error | Timeout | Retry | Clear

  /** The outcome actions, which only the lookup itself dispatches. */
  predicate IsOutcome(a: Action) {
    a == Action.Success || a == Action.Error || a == Action.Timeout
  }

  /** `transitions[state][action]`: the next state, or `None` when the table has no entry. */
  function Next(s: State, a: Action): (r: Option<State>)
    // Loading is left only by the lookup's own outcome, and each outcome has its namesake state.
    ensures s == Loading ==> (r.Some? <==> IsOutcome(a))
    ensures r == Some(State.Success) <==> s == Loading && a == Action.Success
    ensures r == Some(State.Error) <==> s == Loading && a == Action.Error
    ensures r == Some(State.Timeout) <==> s == Loading && a == Action.Timeout
    // Loading is entered by 'track' from idle and by 'retry' from the three settled states.
    ensures r == Some(Loading) <==>
              (s == Idle && a == Track) || (s != Idle && s != Loading && a == Retry)
    // 'clear' returns to idle from every state except loading, and nothing else reaches idle.
    ensures r == Some(Idle) <==> s != Loading && a == Clear
  {
    match s
    case Idle =>
      (match a
       case Track => Some(Loading)
       case Clear => Some(Idle)
       case _ => None)
    case Loading =>
      (match a
       case Success => Some(State.Success)
       case Error => Some(State.Error)
       case Timeout => Some(State.Timeout)
       case _ => None)
    case Success =>
      (match a
       case Clear => Some(Idle)
       case Retry => Some(Loading)
       case _ => None)
    case Error =>
      (match a
       case Clear => Some(Idle)
       case Retry => Some(Loading)
       case _ => None)
    case Timeout =>
      (match a
       case Retry => Some(Loading)
       case Clear => Some(Idle)
       case _ => None)
  }

  /** No state is terminal: every row of the table has at least one entry. */
  lemma EveryStateHasAMove(s: State)
    ensures exists a :: Next(s, a).Some?
  {
    if s == Loading {
      assert Next(s, Action.Success).Some?;
    } else {
      assert Next(s, Clear).Some?;
    }
  }
}
