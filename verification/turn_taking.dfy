/**
 * The dialogue module's handlers as functions over a snapshot of its state.
 * Each handler of the class in DialbbDialogue is proved to move its fields
 * exactly as the matching function here says.
 */
module TurnTaking {
  import opened Wrappers
  import opened Iu
  import opened History
  import opened StateMachine

  /** `dialbb_user_id`. */
  const USER_ID: string := "user"

  /**
   * What the module is configured with and calls out to: the transition table,
   * `history_length`, `response_generation_interval`, the IU helpers
   * `remove_revoked_ius` and `concat_ius_body`, and the dialogue processor.
   */
  datatype Config = Config(
    table: Table,
    historyLength: int,
    interval: int,
    removeRevoked: seq<IU> -> seq<IU>,
    concatBodies: seq<IU> -> string,
    process: Request -> Response)

  /**
   * The module's state: the conversational state, the output buffer, the history,
   * the accumulated user utterances, the end time of the last system utterance,
   * the event queue, the precomputed-response buffer, the aggregator's working
   * set and counter, the inbound recognition queue, the session identifier,
   * whether the state loop still runs, and the log of everything published.
   */
  datatype Dal = Dal(
    state: string,
    outputBuffer: seq<IU>,
    history: seq<Entry>,
    utterances: seq<string>,
    endTime: real,
    events: seq<string>,
    llmBuffer: seq<Response>,
    memory: seq<IU>,
    newIuCount: int,
    inputQueue: seq<IU>,
    sessionId: string,
    running: bool,
    published: seq<Message>)

  /** The state right after construction. */
  function Initial(): Dal
  {
    Dal(IDLE, [], [], [], 0.0, [], [], [], 0, [], "", true, [])
  }

  /**
   * What every handler keeps: the history within its cap, and the output buffer
   * holding only ADD IUs of this module's own channel.
   */
  predicate Inv(historyLength: int, d: Dal)
  {
    |d.history| <= Cap(historyLength) && OwnAdds(d.outputBuffer)
  }

  /** Every buffered IU is an ADD this module published on its own channel. */
  predicate OwnAdds(buffer: seq<IU>)
  {
    forall i :: 0 <= i < |buffer| ==> buffer[i].updateType == ADD && buffer[i].exchange == DIALOGUE
  }

  lemma InitialInv(historyLength: int)
    ensures Inv(historyLength, Initial())
  {
  }

  // ---------------------------------------------------------------- aggregator

  /** One pass of the aggregator loop on the recognition IU `iu`. */
  function Ingest(cfg: Config, d: Dal, iu: IU): (r: Dal)
    // only the aggregator's working set and counter, the utterances and the events change
    ensures r == d.(memory := r.memory, newIuCount := r.newIuCount, utterances := r.utterances, events := r.events)
    // a REVOKE only prunes the working set
    ensures iu.updateType == REVOKE ==> r == d.(memory := cfg.removeRevoked(d.memory + [iu]))
    // text that concatenates to nothing only extends the working set
    ensures iu.updateType != REVOKE && cfg.concatBodies(d.memory + [iu]) == "" ==>
      r == d.(memory := d.memory + [iu])
    // an ADD never raises an event
    ensures iu.updateType == ADD ==> r.events == d.events
    // an ADD with text is debounced by the fragment counter
    ensures iu.updateType == ADD && cfg.concatBodies(d.memory + [iu]) != "" ==>
      r.memory == d.memory + [iu] &&
      (d.newIuCount + 1 < cfg.interval ==>
        r.newIuCount == d.newIuCount + 1 && r.utterances == d.utterances) &&
      (d.newIuCount + 1 >= cfg.interval ==>
        r.newIuCount == 0 && r.utterances == d.utterances + [cfg.concatBodies(d.memory + [iu])])
    // a COMMIT with text is always accumulated, resets the working set, and raises
    // ASR_COMMIT exactly when it is later than the end of the last system utterance
    ensures iu.updateType == COMMIT && cfg.concatBodies(d.memory + [iu]) != "" ==>
      r.utterances == d.utterances + [cfg.concatBodies(d.memory + [iu])] &&
      r.memory == [] && r.newIuCount == d.newIuCount &&
      |r.events| == |d.events| + (if d.endTime < iu.timestamp then 1 else 0) &&
      r.events[..|d.events|] == d.events &&
      (d.endTime < iu.timestamp ==> r.events[|d.events|] == ASR_COMMIT)
  {
    var memory := d.memory + [iu];
    if iu.updateType == REVOKE then d.(memory := cfg.removeRevoked(memory))
    else
      var text := cfg.concatBodies(memory);
      if text == "" then d.(memory := memory)
      else if iu.updateType == ADD then
        if d.newIuCount + 1 < cfg.interval then d.(memory := memory, newIuCount := d.newIuCount + 1)
        else d.(memory := memory, newIuCount := 0, utterances := d.utterances + [text])
      else
        d.(memory := [], utterances := d.utterances + [text],
           events := if d.endTime < iu.timestamp then d.events + [ASR_COMMIT] else d.events)
  }

  /** The aggregator run over `ius` in arrival order. */
  function IngestAll(cfg: Config, d: Dal, ius: seq<IU>): Dal
    decreases |ius|
  {
    if ius == [] then d else IngestAll(cfg, Ingest(cfg, d, ius[0]), ius[1..])
  }

  /**
   * Debounce: over a run of ADDs that all concatenate to text, one utterance is
   * accumulated per `response_generation_interval` fragments, the counter keeps
   * the remainder, and no event is raised.
   */
  lemma {:induction false} Debounce(cfg: Config, d: Dal, ius: seq<IU>)
    requires 1 <= cfg.interval && 0 <= d.newIuCount < cfg.interval
    requires forall i :: 0 <= i < |ius| ==> ius[i].updateType == ADD
    requires forall i :: 0 < i <= |ius| ==> cfg.concatBodies(d.memory + ius[..i]) != ""
    ensures var r := IngestAll(cfg, d, ius);
      r.memory == d.memory + ius && r.events == d.events &&
      0 <= r.newIuCount < cfg.interval &&
      |d.utterances| <= |r.utterances| &&
      r.utterances[..|d.utterances|] == d.utterances &&
      r.newIuCount + cfg.interval * (|r.utterances| - |d.utterances|) == d.newIuCount + |ius|
    decreases |ius|
  {
    if ius == [] {
      assert d.memory + ius == d.memory;
    } else {
      assert ius[..1] == [ius[0]];
      var next := Ingest(cfg, d, ius[0]);
      assert next.memory == d.memory + [ius[0]];
      forall i | 0 < i <= |ius[1..]|
        ensures cfg.concatBodies(next.memory + ius[1..][..i]) != ""
      {
        assert next.memory + ius[1..][..i] == d.memory + ius[..i + 1];
      }
      Debounce(cfg, next, ius[1..]);
      var r := IngestAll(cfg, next, ius[1..]);
      assert r == IngestAll(cfg, d, ius);
      assert next.memory + ius[1..] == d.memory + ius;
      var k := |r.utterances| - |next.utterances|;
      if d.newIuCount + 1 < cfg.interval {
        assert next.utterances == d.utterances;
      } else {
        assert next.utterances == d.utterances + [cfg.concatBodies(d.memory + [ius[0]])];
        assert r.utterances[..|d.utterances|] == r.utterances[..|next.utterances|][..|d.utterances|];
        assert cfg.interval * (k + 1) == cfg.interval * k + cfg.interval;
      }
    }
  }

  // ---------------------------------------------------------------- responses

  /** Re-tagging one buffered IU as REVOKE and republishing it on its own channel. */
  function Revoke(iu: IU): Message
  {
    Message(iu.exchange, iu.(updateType := REVOKE))
  }

  /** The messages retracting `buffer`: one REVOKE per buffered IU, in buffer order, on that IU's channel. */
  function RevokeAll(buffer: seq<IU>): (out: seq<Message>)
    ensures |out| == |buffer|
    ensures forall k :: 0 <= k < |buffer| ==>
      out[k].channel == buffer[k].exchange && out[k].iu == buffer[k].(updateType := REVOKE)
  {
    if buffer == [] then [] else [Revoke(buffer[0])] + RevokeAll(buffer[1..])
  }

  /** Retracting one more IU appends one REVOKE message. */
  lemma RevokeAllSnoc(buffer: seq<IU>, iu: IU)
    ensures RevokeAll(buffer + [iu]) == RevokeAll(buffer) + [Revoke(iu)]
  {
  }

  /** `stop_response`: retract everything in the output buffer and empty it. */
  function Retract(d: Dal): (r: Dal)
    ensures r.outputBuffer == []
    ensures r == d.(outputBuffer := [], published := r.published)
    ensures |r.published| == |d.published| + |d.outputBuffer|
    ensures r.published[..|d.published|] == d.published
    ensures r.published[|d.published|..] == RevokeAll(d.outputBuffer)
    ensures d.outputBuffer == [] ==> r == d
    // under the invariant, every retraction goes out on this module's own channel
    ensures OwnAdds(d.outputBuffer) ==>
      forall k :: |d.published| <= k < |r.published| ==>
        r.published[k].channel == DIALOGUE && r.published[k].iu.updateType == REVOKE
  {
    d.(published := d.published + RevokeAll(d.outputBuffer), outputBuffer := [])
  }

  /** Retracting twice in a row: the second retraction has no visible effect. */
  lemma RetractIdempotent(d: Dal)
    ensures Retract(Retract(d)) == Retract(d)
  {
  }

  /**
   * The response `send_response` works from: the front of the precomputed buffer,
   * else the processor's answer to the latest accumulated utterance; None where
   * the source's `user_utter[-1]` raises on an empty accumulator.
   */
  function Reply(cfg: Config, d: Dal): Option<Response>
  {
    if d.llmBuffer != [] then Some(d.llmBuffer[0])
    else if d.utterances != [] then
      Some(cfg.process(TurnRequest(USER_ID, d.sessionId, d.utterances[|d.utterances| - 1])))
    else None
  }

  /** `send_response`, or None where it raises before changing anything. */
  function Respond(cfg: Config, d: Dal, add: Stamp, commit: Stamp): (r: Option<Dal>)
    ensures r.None? <==> d.llmBuffer == [] && d.utterances == []
    ensures r.Some? ==>
      var n := r.value;
      |n.published| >= |d.published| &&
      var sent := n.published[|d.published|..];
      // only the output buffer, the precomputed buffer and the turn's bookkeeping change
      n == d.(outputBuffer := n.outputBuffer, llmBuffer := n.llmBuffer, published := n.published,
              history := [], utterances := []) &&
      // a precomputed response is consumed before the processor is asked
      n.llmBuffer == (if d.llmBuffer == [] then [] else d.llmBuffer[1..]) &&
      // one ADD only while talking, then always one COMMIT carrying the history's contents
      n.published[..|d.published|] == d.published &&
      |sent| == (if d.state == TALKING then 2 else 1) &&
      sent[|sent| - 1] == Message(DIALOGUE, CreateIU(commit, Transcript(d.history), DIALOGUE, COMMIT)) &&
      (d.state == TALKING ==>
        sent[0] == Message(DIALOGUE, CreateIU(add, Reply(cfg, d).value.systemUtterance, DIALOGUE, ADD))) &&
      // the ADD, and nothing else, is kept for a later retraction
      n.outputBuffer == d.outputBuffer + (if d.state == TALKING then [sent[0].iu] else [])
    ensures r.Some? && Inv(cfg.historyLength, d) ==> Inv(cfg.historyLength, r.value)
  {
    match Reply(cfg, d)
    case None => None
    case Some(resp) =>
      var addIu := CreateIU(add, resp.systemUtterance, DIALOGUE, ADD);
      var commitIu := CreateIU(commit, Transcript(d.history), DIALOGUE, COMMIT);
      var talking := d.state == TALKING;
      Some(d.(
        llmBuffer := if d.llmBuffer != [] then d.llmBuffer[1..] else d.llmBuffer,
        published := d.published + (if talking then [Message(DIALOGUE, addIu)] else [])
                     + [Message(DIALOGUE, commitIu)],
        outputBuffer := if talking then d.outputBuffer + [addIu] else d.outputBuffer,
        history := [],
        utterances := []))
  }

  /** `start_system_utterance`: ask for the opening turn, queue it, force `talking` and respond. */
  function Start(cfg: Config, d: Dal, add: Stamp, commit: Stamp): (r: Dal)
    ensures r.sessionId == cfg.process(InitialRequest(USER_ID)).sessionId
    ensures r.state == TALKING
    // only the session, the state, the response bookkeeping and the publications change
    ensures r == d.(sessionId := r.sessionId, state := TALKING, llmBuffer := r.llmBuffer,
                    outputBuffer := r.outputBuffer, published := r.published, history := [], utterances := [])
    // the opening response is queued behind any response already waiting, and the front one is answered
    ensures var answered := (d.llmBuffer + [cfg.process(InitialRequest(USER_ID))])[0];
      var front := CreateIU(add, answered.systemUtterance, DIALOGUE, ADD);
      r.llmBuffer == (d.llmBuffer + [cfg.process(InitialRequest(USER_ID))])[1..] &&
      r.outputBuffer == d.outputBuffer + [front] &&
      r.published == d.published +
        [Message(DIALOGUE, front), Message(DIALOGUE, CreateIU(commit, Transcript(d.history), DIALOGUE, COMMIT))]
    ensures d.llmBuffer != [] ==> r.published[|d.published|].iu.body == d.llmBuffer[0].systemUtterance
    // from an empty precomputed buffer the opening utterance is published and buffered, then the COMMIT
    ensures d.llmBuffer == [] ==>
      var opening := CreateIU(add, cfg.process(InitialRequest(USER_ID)).systemUtterance, DIALOGUE, ADD);
      r.llmBuffer == [] &&
      r.outputBuffer == d.outputBuffer + [opening] &&
      r.published == d.published +
        [Message(DIALOGUE, opening), Message(DIALOGUE, CreateIU(commit, Transcript(d.history), DIALOGUE, COMMIT))]
    ensures Inv(cfg.historyLength, d) ==> Inv(cfg.historyLength, r)
  {
    var resp := cfg.process(InitialRequest(USER_ID));
    var primed := d.(sessionId := resp.sessionId, llmBuffer := d.llmBuffer + [resp], state := TALKING);
    Respond(cfg, primed, add, commit).value
  }

  // ---------------------------------------------------------------- state loop

  /** What one pass of the state loop did. */
  datatype Outcome =
    | NotRunning
    | Waiting
    | TransitionError(state: string, event: string)
    | ActionFailed(prev: string, event: string, next: string)
    | Stepped(prev: string, event: string, next: string, action: Action)

  datatype StepResult = StepResult(after: Dal, outcome: Outcome)

  /** One pass of `state_management`: take an event, transition, run the action for (previous state, event). */
  function Step(cfg: Config, d: Dal, add: Stamp, commit: Stamp): (r: StepResult)
    // a stopped loop or an empty queue changes nothing, and only then is no event handled
    ensures !d.running || d.events == [] ==> r.after == d
    ensures r.outcome.NotRunning? <==> !d.running
    ensures r.outcome.Waiting? <==> d.running && d.events == []
    // otherwise exactly the first event is consumed
    ensures d.running && d.events != [] ==> r.after.events == d.events[1..]
    // the state follows the table; a missing entry stops the loop with the state untouched
    ensures d.running && d.events != [] ==>
      var run := RunEvents(cfg.table, d.state, d.events[..1]);
      r.after.state == run.state && (r.outcome.TransitionError? <==> run.halted) &&
      (run.halted ==> r.after == d.(events := d.events[1..], running := false))
    // the action depends only on the previous state and the event
    ensures r.outcome.Stepped? ==>
      d.events != [] &&
      r.outcome.prev == d.state && r.outcome.event == d.events[0] &&
      r.outcome.action == Dispatch(d.state, d.events[0])
    // a retraction republishes the whole output buffer as REVOKE
    ensures r.outcome.Stepped? && r.outcome.action == RetractOutput ==>
      r.after.outputBuffer == [] && r.after.published == d.published + RevokeAll(d.outputBuffer)
    // publishing a response fails only with nothing to respond from, and then stops the loop
    ensures r.outcome.ActionFailed? <==>
      d.running && d.events != [] && Lookup(cfg.table, d.state, d.events[0]).Some? &&
      Dispatch(d.state, d.events[0]) == PublishResponse && d.llmBuffer == [] && d.utterances == []
    ensures r.outcome.ActionFailed? ==> !r.after.running && r.after.published == d.published
    // the whole new state: the table's state, then exactly the dispatched action's effect
    ensures r.outcome.ActionFailed? ==>
      d.events != [] && r.after == d.(events := d.events[1..], state := r.outcome.next, running := false)
    ensures r.outcome.Stepped? ==>
      d.events != [] &&
      var moved := d.(events := d.events[1..], state := r.outcome.next);
      match r.outcome.action
      case RetractOutput => r.after == Retract(moved)
      case PublishResponse => Respond(cfg, moved, add, commit).Some? && r.after == Respond(cfg, moved, add, commit).value
      case _ => r.after == moved
    ensures Inv(cfg.historyLength, d) ==> Inv(cfg.historyLength, r.after)
  {
    if !d.running then StepResult(d, NotRunning)
    else if d.events == [] then StepResult(d, Waiting)
    else
      var event := d.events[0];
      var taken := d.(events := d.events[1..]);
      match Lookup(cfg.table, d.state, event)
      case None => StepResult(taken.(running := false), TransitionError(d.state, event))
      case Some(next) =>
        var moved := taken.(state := next);
        var action := Dispatch(d.state, event);
        if action == RetractOutput then
          StepResult(Retract(moved), Stepped(d.state, event, next, action))
        else if action == PublishResponse then
          match Respond(cfg, moved, add, commit)
          case None => StepResult(moved.(running := false), ActionFailed(d.state, event, next))
          case Some(answered) => StepResult(answered, Stepped(d.state, event, next, action))
        else
          StepResult(moved, Stepped(d.state, event, next, action))
  }

  /**
   * A running step on an event the table knows, whose pair dispatches a
   * retraction, is an ordinary step that republishes the whole output buffer.
   */
  lemma RetractionStepRepublishesBuffer(cfg: Config, d: Dal, add: Stamp, commit: Stamp)
    requires d.running && d.events != [] && Lookup(cfg.table, d.state, d.events[0]).Some?
    requires Dispatch(d.state, d.events[0]) == RetractOutput
    ensures var r := Step(cfg, d, add, commit);
      r.outcome.Stepped? && r.after.outputBuffer == [] &&
      r.after.published == d.published + RevokeAll(d.outputBuffer)
  {
  }

  /** The state loop run for one pass per stamp pair, and whether a response failed on the way. */
  datatype Drained = Drained(after: Dal, actionFailed: bool)

  /**
   * Repeated passes of `state_management`, each stamping the IUs it may create
   * with its own pair; a failed response stops the loop and is reported.
   */
  function Drain(cfg: Config, d: Dal, stamps: seq<(Stamp, Stamp)>): Drained
    decreases |stamps|
  {
    if stamps == [] then Drained(d, false)
    else
      var s := Step(cfg, d, stamps[0].0, stamps[0].1);
      if s.outcome.ActionFailed? then Drained(s.after, true)
      else Drain(cfg, s.after, stamps[1..])
  }

  /** A stopped loop, or one with nothing queued, stays as it is. */
  lemma {:induction false} DrainAtRest(cfg: Config, d: Dal, stamps: seq<(Stamp, Stamp)>)
    requires !d.running || d.events == []
    ensures Drain(cfg, d, stamps) == Drained(d, false)
    decreases |stamps|
  {
    if stamps != [] {
      DrainAtRest(cfg, d, stamps[1..]);
    }
  }

  /**
   * Given a pass for every queued event, and unless a response fails, the loop
   * ends in the state the table reaches over the queued events in order, and it
   * has stopped exactly when some event had no table entry; otherwise every
   * event was consumed.
   */
  lemma {:induction false} DrainFollowsTable(cfg: Config, d: Dal, stamps: seq<(Stamp, Stamp)>)
    requires d.running && |d.events| <= |stamps|
    ensures var r := Drain(cfg, d, stamps);
      var run := RunEvents(cfg.table, d.state, d.events);
      r.actionFailed ==> !r.after.running
    ensures var r := Drain(cfg, d, stamps);
      var run := RunEvents(cfg.table, d.state, d.events);
      !r.actionFailed ==>
        r.after.state == run.state &&
        (r.after.running <==> !run.halted) &&
        (!run.halted ==> r.after.events == [])
    decreases |stamps|
  {
    if d.events == [] {
      DrainAtRest(cfg, d, stamps);
    } else {
      var s := Step(cfg, d, stamps[0].0, stamps[0].1);
      match s.outcome {
        case TransitionError(_, _) =>
          assert s.after == d.(events := d.events[1..], running := false);
          DrainAtRest(cfg, s.after, stamps[1..]);
        case ActionFailed(_, _, _) =>
        case Stepped(_, _, next, _) =>
          assert Lookup(cfg.table, d.state, d.events[0]) == Some(next);
          assert s.after.running && s.after.state == next && s.after.events == d.events[1..];
          DrainFollowsTable(cfg, s.after, stamps[1..]);
        case _ =>
          assert false;
      }
    }
  }

  // ---------------------------------------------------------------- callbacks

  /** `callback_tts`: a synthesis COMMIT empties the output buffer, records the end time and raises TTS_COMMIT. */
  function TtsDone(d: Dal, iu: IU): (r: Dal)
    ensures iu.updateType != COMMIT ==> r == d
    ensures iu.updateType == COMMIT ==>
      r == d.(outputBuffer := [], endTime := iu.timestamp, events := d.events + [TTS_COMMIT]) &&
      // nothing is left for a later retraction to republish
      Retract(r) == r
  {
    if iu.updateType == COMMIT then
      d.(outputBuffer := [], endTime := iu.timestamp, events := d.events + [TTS_COMMIT])
    else d
  }

  /** `history_management`: record one entry in the bounded history. */
  function Record(cfg: Config, d: Dal, role: string, utt: string): (r: Dal)
    ensures r == d.(history := r.history)
    ensures r.history != [] ==> r.history[|r.history| - 1] == Entry(role, utt)
    ensures Inv(cfg.historyLength, d) ==> Inv(cfg.historyLength, r)
  {
    d.(history := Recorded(d.history, Entry(role, utt), cfg.historyLength))
  }

  // ---------------------------------------------------------------- scenarios

  /**
   * The TTS_COMMIT that `callback_tts` raises, when no other event was pending
   * at the callback, retracts nothing while talking: the callback has already
   * emptied the output buffer.
   */
  lemma TtsCommitRetractsNothing(cfg: Config, d: Dal, iu: IU, add: Stamp, commit: Stamp)
    requires d.running && d.events == [] && d.state == TALKING && iu.updateType == COMMIT
    ensures Step(cfg, TtsDone(d, iu), add, commit).after.published == d.published
  {
  }

  /**
   * When an ASR_COMMIT is still queued at the callback, the TTS_COMMIT behind it
   * does retract: the ASR_COMMIT step publishes and buffers a new ADD, and the
   * TTS_COMMIT step republishes exactly that ADD as REVOKE.
   */
  lemma TtsCommitBehindTurnRetractsIt(cfg: Config, d: Dal, iu: IU, add: Stamp, commit: Stamp, add2: Stamp, commit2: Stamp)
    requires d.running && d.state == IDLE && d.events == [ASR_COMMIT]
    requires d.utterances != [] && iu.updateType == COMMIT
    requires Lookup(cfg.table, IDLE, ASR_COMMIT) == Some(TALKING)
    requires Lookup(cfg.table, TALKING, TTS_COMMIT) == Some(IDLE)
    ensures var first := Step(cfg, TtsDone(d, iu), add, commit).after;
      var second := Step(cfg, first, add2, commit2).after;
      |first.outputBuffer| == 1 && first.outputBuffer[0].updateType == ADD &&
      second.published == first.published + [Revoke(first.outputBuffer[0])] &&
      second.outputBuffer == [] && second.state == IDLE
  {
    var t := TtsDone(d, iu);
    assert t.events == [ASR_COMMIT, TTS_COMMIT] && t.outputBuffer == [];
    var first := Step(cfg, t, add, commit).after;
    assert first.events == [TTS_COMMIT] && first.state == TALKING && first.running;
    assert |first.outputBuffer| == 1;
    assert RevokeAll(first.outputBuffer) == [Revoke(first.outputBuffer[0])];
  }

  /**
   * From idle, with a table that sends ASR_COMMIT to talking and an utterance
   * to answer, handling ASR_COMMIT publishes exactly one ADD and one COMMIT,
   * and keeps the ADD for retraction.
   */
  lemma AsrCommitFromIdlePublishesTurn(cfg: Config, d: Dal, add: Stamp, commit: Stamp)
    requires d.running && d.state == IDLE && d.events != [] && d.events[0] == ASR_COMMIT
    requires Lookup(cfg.table, IDLE, ASR_COMMIT) == Some(TALKING)
    requires d.llmBuffer != [] || d.utterances != []
    ensures var r := Step(cfg, d, add, commit);
      r.outcome == Stepped(IDLE, ASR_COMMIT, TALKING, PublishResponse) &&
      r.after.state == TALKING &&
      |r.after.published| == |d.published| + 2 &&
      r.after.published[|d.published|].iu.updateType == ADD &&
      r.after.published[|d.published| + 1].iu.updateType == COMMIT &&
      r.after.outputBuffer == d.outputBuffer + [r.after.published[|d.published|].iu]
  {
  }
}
