# Turn-taking core of the dialbb dialogue module

This project models the turn-taking logic of the `TEST_DIALBB` dialogue module
(`remdis-sample/modules/dialbb_dialogue.py`) in Dafny, and proves properties of the model.

The module does four things:
- it aggregates streamed speech-recognition IUs into user utterances, with a debounce counter;
- it runs a table-driven state machine over the events `ASR_COMMIT`, `TTS_COMMIT` and the others;
- it publishes a system response, or withdraws one already published (REVOKE);
- it keeps a bounded dialogue history.

The model has two layers.
- `TurnTaking` holds one function per handler over a value snapshot `Dal` of the module's state.
  Their contracts and the lemmas beside them state what the handlers promise.
- `DialbbDialogue.Dialogue` is a class with the module's fields. Its methods update those fields
  in place, as the Python does. Each handler method except `CallbackAsr` is proved to leave
  `View()` equal to its `TurnTaking` function applied to the old state. `CallbackAsr` is a
  single queue append, stated directly as a record update. `StopResponseTwice` is not a
  handler: it is a client showing that two retractions in a row act as one.

Each thread's loop body is one atomic step. The queues (`input_iu_buffer`, `event_queue`,
`llm_buffer`) are sequences. `publish` appends to a `published` log of `(channel, IU)` messages.

The module calls out to several things this file does not define. They are configuration
fields of `TurnTaking.Config`, and the model states no property about their internals:
- the transition table `RemdisState.transition`, as a map from state to event to state;
- `remove_revoked_ius` and `concat_ius_body`, as functions on IU sequences;
- `DialogueProcessor.process`, as a function from a request to a response holding
  `system_utterance` and `session_id`.

`createIU` is also defined elsewhere. The IU id and timestamp it assigns are passed in by the
caller as a `Stamp`.

Where the code does less than its own comments suggest, the model follows the code:
- The comment at line 178 says `send_response` sleeps briefly in case generation starts in the
  meantime. The code does not look at `llm_buffer` again after the sleep: it calls the processor.
- The comment at line 157 says a finished synthesis interrupts the response. But `callback_tts`
  empties `output_iu_buffer` before it enqueues `TTS_COMMIT`. When no other event is pending at
  the callback, the retraction that event triggers republishes nothing (lemma
  `TurnTaking.TtsCommitRetractsNothing`). When an `ASR_COMMIT` is still queued ahead of it, the
  `ASR_COMMIT` step publishes and buffers a new ADD, and the `TTS_COMMIT` step then revokes
  exactly that ADD (lemma `TurnTaking.TtsCommitBehindTurnRetractsIt`).
- A missing table entry raises `KeyError` before the assignment. The `except` clause then
  leaves the state loop, with the event consumed and the state unchanged.
- In `send_response`, `user_utter[-1]` raises `IndexError` when `llm_buffer` and
  `user_utterance_generation` are both empty. This also leaves the state loop. The state has
  already been moved by the table, and nothing is published. The model captures this as
  `ActionFailed` and `running == false`.

## Model

| member | source | states |
|---|---|---|
| `History.Recorded` | remdis-sample/modules/dialbb_dialogue.py:233-236 | recording keeps a suffix of history plus the new entry; at most the single oldest entry is dropped, exactly when the length would exceed `history_length`; the new entry is last; a history within the cap stays within it |
| `History.RecordedIsNewest` | remdis-sample/modules/dialbb_dialogue.py:233-236 | from within the cap, one recording leaves the newest `history_length` entries |
| `History.RecordAllKeepsNewest` | remdis-sample/modules/dialbb_dialogue.py:233-236 | any number of recordings from within the cap leave exactly the newest `history_length` entries in insertion order (FIFO eviction) |
| `History.RecordThreeWithCapTwo` | remdis-sample/modules/dialbb_dialogue.py:233-236 | recording a, b, c with cap 2 yields [b, c] |
| `StateMachine.Dispatch` | remdis-sample/modules/dialbb_dialogue.py:147-168 | retraction exactly for talking with USER_TAKE_TURN, BOTH_TAKE_TURN or TTS_COMMIT; a response exactly for idle with SYSTEM_TAKE_TURN or ASR_COMMIT; a backchannel exactly for idle with SYSTEM_BACKCHANNEL; nothing otherwise |
| `StateMachine.RunEventsAppend` | remdis-sample/modules/dialbb_dialogue.py:137-171 | iterating the table over two batches of events is iterating over the first and, unless a missing entry halted it, over the second from where it ended; a halt keeps its state |
| `TurnTaking.DrainAtRest` | remdis-sample/modules/dialbb_dialogue.py:137-140 | passes of a stopped loop, or of one with an empty event queue, change nothing |
| `TurnTaking.DrainFollowsTable` | remdis-sample/modules/dialbb_dialogue.py:137-171 | with a pass per queued event and no failed response, repeated steps end in the state the table reaches over the queued events in order, stop exactly when an event has no entry (state as it was at that event), and otherwise consume every event; a failed response leaves the loop stopped |
| `TurnTaking.InitialInv` | remdis-sample/modules/dialbb_dialogue.py:25-38 | the initial state (idle, empty buffers and history) satisfies the invariant |
| `TurnTaking.Ingest` | remdis-sample/modules/dialbb_dialogue.py:82-133 | a REVOKE only prunes the working set; empty text only extends it; an ADD never raises an event and is debounced (counter incremented, or reset to 0 with the text accumulated once it reaches the interval); a COMMIT with text always accumulates it, resets the working set, keeps the counter, and raises exactly one ASR_COMMIT iff the end time of the last system utterance is before its timestamp |
| `TurnTaking.Debounce` | remdis-sample/modules/dialbb_dialogue.py:99-104 | over a run of ADDs with text, one utterance is accumulated per `response_generation_interval` fragments, the counter keeps the remainder, the working set keeps all fragments and no event is raised |
| `TurnTaking.RevokeAll` | remdis-sample/modules/dialbb_dialogue.py:206-209 | one message per buffered IU, in buffer order, each the IU re-tagged REVOKE on its own exchange |
| `TurnTaking.RevokeAllSnoc` | remdis-sample/modules/dialbb_dialogue.py:206-209 | retracting one more IU appends exactly its REVOKE message |
| `TurnTaking.Retract` | remdis-sample/modules/dialbb_dialogue.py:205-210 | the output buffer is empty afterwards, the log grows by exactly the REVOKEs of the old buffer, nothing else changes, an empty buffer publishes nothing, and under the invariant every retraction is a REVOKE on the dialogue channel |
| `TurnTaking.RetractIdempotent` | remdis-sample/modules/dialbb_dialogue.py:205-210 | a second retraction in a row has no visible effect |
| `TurnTaking.Respond` | remdis-sample/modules/dialbb_dialogue.py:174-202 | fails exactly when the precomputed buffer and the accumulated utterances are both empty; otherwise consumes a precomputed response first, publishes one ADD on dialogue (and buffers it) iff talking, then always one unbuffered COMMIT whose body is the history's contents, and empties history and utterances; preserves the invariant |
| `TurnTaking.Start` | remdis-sample/modules/dialbb_dialogue.py:239-249 | records the processor's session id, forces talking, queues the opening response behind any waiting one and answers the front one (the opening itself from an empty buffer) with a buffered ADD then the COMMIT, clears history and utterances, and changes nothing else |
| `TurnTaking.Step` | remdis-sample/modules/dialbb_dialogue.py:137-171 | a stopped loop or empty queue changes nothing; otherwise exactly one event is consumed and the state follows the table; a missing entry stops the loop with state unchanged; the action is the dispatch of (previous state, event) and the new state is exactly its effect: `Retract`, `Respond`, or no other change for every other pair (the backchannel's effect is not modelled); a failed response stops the loop without publishing; preserves the invariant |
| `TurnTaking.RetractionStepRepublishesBuffer` | remdis-sample/modules/dialbb_dialogue.py:147-158 | a running step on a known event whose pair dispatches a retraction is an ordinary step that empties the output buffer and republishes all of it as REVOKE |
| `TurnTaking.TtsDone` | remdis-sample/modules/dialbb_dialogue.py:222-230 | only a COMMIT acts: it empties the output buffer, records its timestamp as the end time and enqueues TTS_COMMIT, leaving nothing to retract |
| `TurnTaking.Record` | remdis-sample/modules/dialbb_dialogue.py:233-236 | only the history changes, its last entry is the new one, and the cap invariant is kept |
| `TurnTaking.TtsCommitRetractsNothing` | remdis-sample/modules/dialbb_dialogue.py:222-230 | when no other event is pending at the callback, handling the TTS_COMMIT it raises while talking publishes nothing |
| `TurnTaking.TtsCommitBehindTurnRetractsIt` | remdis-sample/modules/dialbb_dialogue.py:147-168 | with an ASR_COMMIT queued ahead at the callback, the ASR_COMMIT step buffers a new ADD and the TTS_COMMIT step republishes exactly that ADD as REVOKE and returns to idle |
| `TurnTaking.AsrCommitFromIdlePublishesTurn` | remdis-sample/modules/dialbb_dialogue.py:161-168 | from idle, with ASR_COMMIT leading to talking, one step publishes exactly one ADD then one COMMIT and buffers the ADD |
| `DialbbDialogue.Dialogue.constructor` | remdis-sample/modules/dialbb_dialogue.py:12-47 | starts idle with empty queues, buffers and history, end time 0 and empty session id |
| `DialbbDialogue.Dialogue.CallbackAsr` | remdis-sample/modules/dialbb_dialogue.py:213-219 | appends the IU to the recognition queue and changes nothing else |
| `DialbbDialogue.Dialogue.AggregateStep` | remdis-sample/modules/dialbb_dialogue.py:82-133 | takes the first queued IU, if any, and moves the fields exactly as `Ingest` |
| `DialbbDialogue.Dialogue.StateStep` | remdis-sample/modules/dialbb_dialogue.py:137-171 | moves the fields and reports the outcome exactly as `Step` |
| `DialbbDialogue.Dialogue.SendResponse` | remdis-sample/modules/dialbb_dialogue.py:174-202 | succeeds and moves the fields exactly as `Respond`, or fails leaving every field unchanged |
| `DialbbDialogue.Dialogue.StopResponse` | remdis-sample/modules/dialbb_dialogue.py:205-210 | its loop republishes the buffer as `RevokeAll` and then empties it (`Retract`) |
| `DialbbDialogue.Dialogue.CallbackTts` | remdis-sample/modules/dialbb_dialogue.py:222-230 | moves the fields exactly as `TtsDone` |
| `DialbbDialogue.Dialogue.HistoryManagement` | remdis-sample/modules/dialbb_dialogue.py:233-236 | moves the history exactly as `Record` |
| `DialbbDialogue.Dialogue.StartSystemUtterance` | remdis-sample/modules/dialbb_dialogue.py:239-249 | moves the fields exactly as `Start` |
| `DialbbDialogue.Dialogue.StopResponseTwice` | remdis-sample/modules/dialbb_dialogue.py:205-210 | two retractions in a row leave the same state as one |

## Left out

- Threads, blocking `get()` calls, `run` and the `time.sleep` calls: each handler is one atomic step. A blocked `get()` is a step that changes nothing (`Waiting`, or `took == false`). Interleavings are the caller's choice of which step to run next.
- The pub/sub transport (`subscribe`, `publish`, `parse_msg`, `printIU`, the `listen_*_loop` methods) and all printing: publishing is an append to the `published` log.
- `RemdisState.transition`, `remove_revoked_ius`, `concat_ius_body`, `createIU` and `DialogueProcessor.process` are not part of this model. They are parameters, so the model proves nothing about their internals. For example, it does not prove that a REVOKE removes every fragment of its utterance from the working set.
- `send_backchannel` is not defined in the file: the step reports the `Backchannel` action and changes nothing.
- The dialogue processor is a function of its request. A processor that keeps its own session state, is slow, or raises is not modelled; its session id is kept as the module's `sessionId` field.
- Configuration loading, `OPENAI_KEY`, `argparse` and `__main__`; the unused `bc_iu_buffer`, `emo_act_iu_buffer`, `max_message_num_in_context` and `_is_running`.
- The commented-out parallel response generation block, which is dead code.
- Float timestamps are reals that are only compared and copied.
- `StopResponse` works on IU values: Python rewrites each IU dict's `update_type` in place and other references to that dict would see the change; the model republishes a re-tagged copy and then empties the buffer, so that aliasing is not captured.
