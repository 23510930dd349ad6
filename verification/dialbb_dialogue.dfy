/**
 * The dialogue module (TEST_DIALBB) as an object whose handlers update its
 * fields in place. Each handler is one atomic step of the thread that runs it;
 * the queues are sequences, and `published` logs what goes to the transport.
 */
module DialbbDialogue {
  import opened Iu
  import opened History
  import opened StateMachine
  import opened TurnTaking

  class Dialogue {
    const cfg: Config

    var state: string
    var outputIuBuffer: seq<IU>
    var dialogueHistory: seq<Entry>
    var userUtteranceGeneration: seq<string>
    var systemUtteranceEndTime: real
    var eventQueue: seq<string>
    var llmBuffer: seq<Response>
    var iuMemory: seq<IU>          // the aggregator loop's working set
    var newIuCount: int            // the aggregator loop's fragment counter
    var inputIuBuffer: seq<IU>
    var sessionId: string
    var running: bool              // false once the state loop has left its `while`
    var published: seq<Message>

    /** The fields as one value. */
    function View(): Dal
      reads this
    {
      Dal(state, outputIuBuffer, dialogueHistory, userUtteranceGeneration, systemUtteranceEndTime,
          eventQueue, llmBuffer, iuMemory, newIuCount, inputIuBuffer, sessionId, running, published)
    }

    ghost predicate Valid()
      reads this
    {
      Inv(cfg.historyLength, View())
    }

    constructor (cfg: Config)
      ensures Valid()
      ensures this.cfg == cfg && View() == Initial()
    {
      this.cfg := cfg;
      state := IDLE;
      outputIuBuffer := [];
      dialogueHistory := [];
      userUtteranceGeneration := [];
      systemUtteranceEndTime := 0.0;
      eventQueue := [];
      llmBuffer := [];
      iuMemory := [];
      newIuCount := 0;
      inputIuBuffer := [];
      sessionId := "";
      running := true;
      published := [];
    }

    /** `callback_asr`: queue a recognition IU for the aggregator. */
    method CallbackAsr(iu: IU)
      requires Valid()
      modifies this
      ensures Valid()
      ensures View() == old(View()).(inputQueue := old(inputIuBuffer) + [iu])
    {
      inputIuBuffer := inputIuBuffer + [iu];
    }

    /** One pass of `parallel_response_generation`; `took` is false when no IU is waiting. */
    method AggregateStep() returns (took: bool)
      requires Valid()
      modifies this
      ensures Valid()
      ensures took == (old(inputIuBuffer) != [])
      ensures !took ==> View() == old(View())
      ensures took ==>
        View() == Ingest(cfg, old(View()).(inputQueue := old(inputIuBuffer)[1..]), old(inputIuBuffer)[0])
    {
      if inputIuBuffer == [] {
        return false;
      }
      took := true;
      var inputIu := inputIuBuffer[0];
      inputIuBuffer := inputIuBuffer[1..];
      iuMemory := iuMemory + [inputIu];
      if inputIu.updateType == REVOKE {
        iuMemory := cfg.removeRevoked(iuMemory);
        return;
      }
      var userUtterance := cfg.concatBodies(iuMemory);
      if userUtterance == "" {
        return;
      }
      if inputIu.updateType == ADD {
        newIuCount := newIuCount + 1;
        if newIuCount < cfg.interval {
          return;
        }
        newIuCount := 0;
      }
      userUtteranceGeneration := userUtteranceGeneration + [userUtterance];
      if inputIu.updateType == COMMIT {
        if systemUtteranceEndTime < inputIu.timestamp {
          eventQueue := eventQueue + [ASR_COMMIT];
        }
        iuMemory := [];
      }
    }

    /** One pass of `state_management`; `add` and `commit` stamp the IUs a response would create. */
    method StateStep(add: Stamp, commit: Stamp) returns (outcome: Outcome)
      requires Valid()
      modifies this
      ensures Valid()
      ensures StepResult(View(), outcome) == Step(cfg, old(View()), add, commit)
    {
      if !running {
        return NotRunning;
      }
      if eventQueue == [] {
        return Waiting;
      }
      var event := eventQueue[0];
      eventQueue := eventQueue[1..];
      var prevState := state;
      var next := Lookup(cfg.table, state, event);
      if next.None? {
        running := false;
        return TransitionError(prevState, event);
      }
      state := next.value;
      var action := Dispatch(prevState, event);
      if action == RetractOutput {
        StopResponse();
      } else if action == PublishResponse {
        var ok := SendResponse(add, commit);
        if !ok {
          running := false;
          return ActionFailed(prevState, event, state);
        }
      }
      outcome := Stepped(prevState, event, state, action);
    }

    /** `send_response`; `ok` is false where the source raises on an empty utterance accumulator. */
    method SendResponse(add: Stamp, commit: Stamp) returns (ok: bool)
      requires Valid()
      modifies this
      ensures Valid()
      ensures ok == Respond(cfg, old(View()), add, commit).Some?
      ensures View() == if ok then Respond(cfg, old(View()), add, commit).value else old(View())
    {
      var llmResp: Response;
      if llmBuffer == [] {
        if userUtteranceGeneration == [] {
          return false;
        }
        llmResp := cfg.process(TurnRequest(USER_ID, sessionId,
                                           userUtteranceGeneration[|userUtteranceGeneration| - 1]));
      } else {
        llmResp := llmBuffer[0];
        llmBuffer := llmBuffer[1..];
      }
      if state == TALKING {
        var sndIu := CreateIU(add, llmResp.systemUtterance, DIALOGUE, ADD);
        published := published + [Message(DIALOGUE, sndIu)];
        outputIuBuffer := outputIuBuffer + [sndIu];
      }
      var endIu := CreateIU(commit, Transcript(dialogueHistory), DIALOGUE, COMMIT);
      published := published + [Message(DIALOGUE, endIu)];
      dialogueHistory := [];
      userUtteranceGeneration := [];
      ok := true;
    }

    /** `stop_response`: republish every buffered IU as REVOKE, then empty the buffer. */
    method StopResponse()
      requires Valid()
      modifies this
      ensures Valid()
      ensures View() == Retract(old(View()))
    {
      for i := 0 to |outputIuBuffer|
        modifies this`published
        invariant published == old(published) + RevokeAll(outputIuBuffer[..i])
      {
        var iu := outputIuBuffer[i];
        published := published + [Message(iu.exchange, iu.(updateType := REVOKE))];
        assert outputIuBuffer[..i + 1] == outputIuBuffer[..i] + [iu];
        RevokeAllSnoc(outputIuBuffer[..i], iu);
      }
      assert outputIuBuffer[..|outputIuBuffer|] == outputIuBuffer;
      outputIuBuffer := [];
    }

    /** `callback_tts`. */
    method CallbackTts(iu: IU)
      requires Valid()
      modifies this
      ensures Valid()
      ensures View() == TtsDone(old(View()), iu)
    {
      if iu.updateType == COMMIT {
        outputIuBuffer := [];
        systemUtteranceEndTime := iu.timestamp;
        eventQueue := eventQueue + [TTS_COMMIT];
      }
    }

    /** `history_management`. */
    method HistoryManagement(role: string, utt: string)
      requires Valid()
      modifies this
      ensures Valid()
      ensures View() == Record(cfg, old(View()), role, utt)
    {
      dialogueHistory := dialogueHistory + [Entry(role, utt)];
      if |dialogueHistory| > cfg.historyLength {
        dialogueHistory := dialogueHistory[1..];
      }
    }

    /** `start_system_utterance`. */
    method StartSystemUtterance(add: Stamp, commit: Stamp)
      requires Valid()
      modifies this
      ensures Valid()
      ensures View() == Start(cfg, old(View()), add, commit)
    {
      var resp := cfg.process(InitialRequest(USER_ID));
      sessionId := resp.sessionId;
      llmBuffer := llmBuffer + [resp];
      state := TALKING;
      var ok := SendResponse(add, commit);
    }

    /** Retracting twice in a row publishes the buffer once. */
    method StopResponseTwice()
      requires Valid()
      modifies this
      ensures Valid()
      ensures View() == Retract(old(View()))
    {
      StopResponse();
      StopResponse();
    }
  }
}
