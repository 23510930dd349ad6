/** The turn-taking state machine: a transition table that is data, and the actions tied to (previous state, event). */
module StateMachine {
  import opened Wrappers

  /** The two states the default table uses. */
  const IDLE: string := "idle"
  const TALKING: string := "talking"

  /** The events this module's handlers dispatch on. */
  const ASR_COMMIT: string := "ASR_COMMIT"
  const TTS_COMMIT: string := "TTS_COMMIT"
  const SYSTEM_TAKE_TURN: string := "SYSTEM_TAKE_TURN"
  const USER_TAKE_TURN: string := "USER_TAKE_TURN"
  const BOTH_TAKE_TURN: string := "BOTH_TAKE_TURN"
  const SYSTEM_BACKCHANNEL: string := "SYSTEM_BACKCHANNEL"
  const USER_BACKCHANNEL: string := "USER_BACKCHANNEL"

  /** `RemdisState.transition`: state, then event, to the next state. */
  type Table = map<string, map<string, string>>

  /** `transition[state][event]`, or None where Python's lookup raises KeyError. */
  function Lookup(table: Table, state: string, event: string): Option<string>
  {
    if state in table && event in table[state] then Some(table[state][event]) else None
  }

  /** The action the state loop runs after a transition. */
  datatype Action = NoAction | RetractOutput | PublishResponse | Backchannel

  /** The action for the pair (previous state, event); every pair not listed runs nothing. */
  function Dispatch(prev: string, event: string): (a: Action)
    ensures a == RetractOutput <==>
      prev == TALKING && (event == USER_TAKE_TURN || event == BOTH_TAKE_TURN || event == TTS_COMMIT)
    ensures a == PublishResponse <==> prev == IDLE && (event == SYSTEM_TAKE_TURN || event == ASR_COMMIT)
    ensures a == Backchannel <==> prev == IDLE && event == SYSTEM_BACKCHANNEL
  {
    if prev == TALKING then
      if event == USER_TAKE_TURN || event == BOTH_TAKE_TURN || event == TTS_COMMIT then RetractOutput
      else NoAction
    else if prev == IDLE then
      if event == SYSTEM_BACKCHANNEL then Backchannel
      else if event == SYSTEM_TAKE_TURN || event == ASR_COMMIT then PublishResponse
      else NoAction
    else NoAction
  }

  /** Where the table leads: the state reached, and whether a missing entry stopped the loop there. */
  datatype Run = Run(state: string, halted: bool)

  /** The table applied to the events in order, stopping at the first pair with no entry. */
  function RunEvents(table: Table, state: string, events: seq<string>): Run
    decreases |events|
  {
    if events == [] then Run(state, false)
    else match Lookup(table, state, events[0])
      case None => Run(state, true)
      case Some(next) => RunEvents(table, next, events[1..])
  }

  /**
   * Running two batches of events is running the first and, unless it halted,
   * the second from where the first ended; a halt keeps the state it halted in.
   */
  lemma {:induction false} RunEventsAppend(table: Table, state: string, first: seq<string>, second: seq<string>)
    ensures RunEvents(table, state, first + second) ==
      (var r := RunEvents(table, state, first);
       if r.halted then r else RunEvents(table, r.state, second))
    decreases |first|
  {
    if first == [] {
      assert first + second == second;
    } else {
      assert (first + second)[0] == first[0];
      assert (first + second)[1..] == first[1..] + second;
      match Lookup(table, state, first[0])
      case None =>
      case Some(next) => RunEventsAppend(table, next, first[1..], second);
    }
  }
}
