/**
 * The voice-and-video call with one agent (`components/CallView.tsx`): the
 * connection state the screen shows, the live-session configuration, and the
 * handler of the messages the live session pushes — transcription fragments
 * collected into a running transcript, audio chunks queued back to back on
 * the output clock, and interruptions that silence everything queued.
 *
 * The browser objects the call holds (the media stream, the frame timer, the
 * audio buffer sources) are opaque handles; the audio clock's current time
 * and a decoded chunk's duration are parameters of the handler.
 */
module CallView {
  import opened Wrappers
  import opened Types
  import opened Js
  import opened Strings
  import opened Sequences
  import Constants
  import PromptService

  /** A time or a duration on the output audio clock, in seconds. */
  type Seconds = r: real | r >= 0.0 witness 0.0

  /** A media stream, as returned by `getUserMedia`. */
  type StreamId = nat

  /** A timer id, as returned by `setInterval` (always positive). */
  type TimerId = n: int | n > 0 witness 1

  /** An audio buffer source node created for one chunk of the agent's speech. */
  type SourceId = nat

  datatype ConnectionState = Connecting | Connected | Error | Ended

  function ConnectionStateValue(c: ConnectionState): string
  {
    match c
    case Connecting => "Connecting"
    case Connected => "Connected"
    case Error => "Error"
    case Ended => "Ended"
  }

  /** The status line under the agent's name: blank once connected, `<state>...` otherwise. */
  function StatusText(c: ConnectionState): (r: string)
    ensures r == "" <==> c == Connected
    ensures c != Connected ==> StartsWith(r, ConnectionStateValue(c)) && r[|r| - 3..] == "..."
  {
    if c != Connected then ConnectionStateValue(c) + "..." else ""
  }

  // ---------------------------------------------------------------------------
  // Session configuration
  // ---------------------------------------------------------------------------

  /** What the call asks of the live session: a voice and a system instruction. */
  datatype LiveConfig = LiveConfig(voiceName: string, systemInstruction: string)

  /** The voice the call speaks with: the agent's own, or Zephyr when it has none. */
  function CallVoice(agent: AgentProfile): (r: string)
    ensures Truthy(agent.voiceName) ==> r == agent.voiceName.value
    ensures !Truthy(agent.voiceName) ==> r == Constants.DefaultVoice
  {
    OrElse(agent.voiceName, Constants.DefaultVoice)
  }

  /** An agent without a voice (absent or empty), or with a prebuilt one, is called with a prebuilt voice. */
  lemma CallVoicePrebuilt(agent: AgentProfile)
    requires !Truthy(agent.voiceName) || agent.voiceName.value in Constants.PrebuiltVoices
    ensures CallVoice(agent) in Constants.PrebuiltVoices
  {
    Constants.DefaultVoiceIsPrebuilt();
  }

  /** The call's voice, and the agent's persona built against an empty roster. */
  function SessionConfig(agent: AgentProfile): LiveConfig
  {
    LiveConfig(CallVoice(agent), PromptService.GenerateSystemPrompt(agent, []))
  }

  /** The persona a call sends tells the agent it is the only one in the conversation. */
  lemma SessionIsSolo(agent: AgentProfile)
    ensures Contains(SessionConfig(agent).systemInstruction, PromptService.OnlyAgentText)
  {
    PromptService.CallPromptIsSolo(agent);
  }

  // ---------------------------------------------------------------------------
  // Live server messages
  // ---------------------------------------------------------------------------

  datatype Transcription = Transcription(text: Option<string>)
  datatype InlineData = InlineData(data: Option<string>)
  datatype Part = Part(inlineData: Option<InlineData>)
  datatype ModelTurn = ModelTurn(parts: Option<seq<Part>>)

  /** The fields of a message's `serverContent` the call reads; absent flags are `false`. */
  datatype ServerContent = ServerContent(
    outputTranscription: Option<Transcription>,
    inputTranscription: Option<Transcription>,
    turnComplete: bool,
    modelTurn: Option<ModelTurn>,
    interrupted: bool)

  datatype LiveServerMessage = LiveServerMessage(serverContent: Option<ServerContent>)

  predicate TurnComplete(m: LiveServerMessage)
  {
    m.serverContent.Some? && m.serverContent.value.turnComplete
  }

  predicate Interrupted(m: LiveServerMessage)
  {
    m.serverContent.Some? && m.serverContent.value.interrupted
  }

  /** What `+=` appends for a transcription: its text, or the word `undefined` when it has none. */
  function Fragment(t: Transcription): string
  {
    if t.text.Some? then t.text.value else "undefined"
  }

  /**
   * The running input and output transcriptions after one message: an output
   * fragment extends the output, otherwise an input fragment extends the input.
   */
  function Accumulate(input: string, output: string, m: LiveServerMessage): (r: (string, string))
    ensures r.0 == input || r.1 == output
    ensures |input| <= |r.0| && r.0[..|input|] == input
    ensures |output| <= |r.1| && r.1[..|output|] == output
    ensures m.serverContent.Some? && m.serverContent.value.outputTranscription.Some? ==> r.0 == input
    ensures m.serverContent.None? ==> r == (input, output)
  {
    if m.serverContent.None? then (input, output)
    else if m.serverContent.value.outputTranscription.Some? then
      (input, output + Fragment(m.serverContent.value.outputTranscription.value))
    else if m.serverContent.value.inputTranscription.Some? then
      (input + Fragment(m.serverContent.value.inputTranscription.value), output)
    else (input, output)
  }

  /**
   * `serverContent?.modelTurn?.parts[0]?.inlineData.data`: absent when there
   * is no model turn or no first part, and a `TypeError` when the turn has no
   * parts list or its first part has no inline data.
   */
  function AudioOf(m: LiveServerMessage): (r: Result<Option<string>, JsError>)
    ensures m.serverContent.None? || m.serverContent.value.modelTurn.None? ==> r == Ok(None)
    ensures m.serverContent.Some? && m.serverContent.value.modelTurn.Some? ==>
      var parts := m.serverContent.value.modelTurn.value.parts;
      && (parts.None? ==> r == Err(UndefinedAccess("0")))
      && (parts.Some? && |parts.value| == 0 ==> r == Ok(None))
      && (parts.Some? && |parts.value| > 0 && parts.value[0].inlineData.None? ==>
            r == Err(UndefinedAccess("data")))
      && (parts.Some? && |parts.value| > 0 && parts.value[0].inlineData.Some? ==>
            r == Ok(parts.value[0].inlineData.value.data))
    ensures r.Err? <==>
      (&& m.serverContent.Some? && m.serverContent.value.modelTurn.Some?
       && var parts := m.serverContent.value.modelTurn.value.parts;
          parts.None? || (|parts.value| > 0 && parts.value[0].inlineData.None?))
  {
    if m.serverContent.None? || m.serverContent.value.modelTurn.None? then Ok(None)
    else
      var parts := m.serverContent.value.modelTurn.value.parts;
      if parts.None? then Err(UndefinedAccess("0"))
      else if |parts.value| == 0 then Ok(None)
      else if parts.value[0].inlineData.None? then Err(UndefinedAccess("data"))
      else Ok(parts.value[0].inlineData.value.data)
  }

  // ---------------------------------------------------------------------------
  // Transcript
  // ---------------------------------------------------------------------------

  /** A transcript entry survives the filter when its text is not blank. */
  function Spoken(t: Transcript): (r: seq<Transcript>)
    ensures r == [] <==> IsBlank(t.text)
  {
    if IsBlank(t.text) then [] else [t]
  }

  /** `ts.filter(t => t.text.trim() !== '')`. */
  function NonBlank(ts: seq<Transcript>): seq<Transcript>
  {
    FlatMap(Spoken, ts)
  }

  predicate AllSpoken(ts: seq<Transcript>)
  {
    forall k :: 0 <= k < |ts| ==> !IsBlank(ts[k].text)
  }

  /** The filter keeps only non-blank entries, each of them taken from the input. */
  lemma {:induction false} NonBlankIsSpoken(ts: seq<Transcript>)
    ensures AllSpoken(NonBlank(ts))
    ensures forall t :: t in NonBlank(ts) ==> t in ts
    decreases |ts|
  {
    if ts != [] {
      var init := ts[..|ts| - 1];
      NonBlankIsSpoken(init);
      assert NonBlank(ts) == NonBlank(init) + Spoken(ts[|ts| - 1]);
    }
  }

  /** The filter leaves a list of non-blank entries as it is. */
  lemma {:induction false} NonBlankOfSpoken(ts: seq<Transcript>)
    requires AllSpoken(ts)
    ensures NonBlank(ts) == ts
    decreases |ts|
  {
    if ts != [] {
      var init := ts[..|ts| - 1];
      NonBlankOfSpoken(init);
      assert init + [ts[|ts| - 1]] == ts;
    }
  }

  /** The transcript after a completed turn: the user's words, then the agent's, blanks dropped. */
  function FlushTurn(prev: seq<Transcript>, input: string, output: string): seq<Transcript>
  {
    NonBlank(prev + [Transcript(You, input), Transcript(Agent, output)])
  }

  /**
   * Filtering the whole list again changes nothing already in it: a completed
   * turn appends the user's line if it is not blank, then the agent's if it
   * is not blank.
   */
  lemma FlushTurnAppends(prev: seq<Transcript>, input: string, output: string)
    requires AllSpoken(prev)
    ensures FlushTurn(prev, input, output)
         == prev + Spoken(Transcript(You, input)) + Spoken(Transcript(Agent, output))
    ensures AllSpoken(FlushTurn(prev, input, output))
  {
    var you, agent := Transcript(You, input), Transcript(Agent, output);
    FlatMapAppend(Spoken, prev, [you, agent]);
    NonBlankOfSpoken(prev);
    TurnPair(you, agent);
    NonBlankIsSpoken(prev + [you, agent]);
  }

  lemma TurnPair(you: Transcript, agent: Transcript)
    ensures NonBlank([you, agent]) == Spoken(you) + Spoken(agent)
  {
    FlatMapAppend(Spoken, [you], [agent]);
    assert [you] + [agent] == [you, agent];
    FlatMapSingle(Spoken, you);
    FlatMapSingle(Spoken, agent);
  }

  // ---------------------------------------------------------------------------
  // Playback queue
  // ---------------------------------------------------------------------------

  /** `Math.max(a, b)`. */
  function Later(a: Seconds, b: Seconds): (r: Seconds)
    ensures r >= a && r >= b && (r == a || r == b)
  {
    if a >= b then a else b
  }

  /** A decoded chunk of the agent's speech: when its message arrived, and how long it plays. */
  datatype Chunk = Chunk(arrival: Seconds, duration: Seconds)

  /**
   * The start times a series of chunks gets when none is interrupted: each
   * starts when the previous one ends, or on arrival if the queue has run dry.
   */
  function QueueStarts(cursor: Seconds, chunks: seq<Chunk>): (starts: seq<Seconds>)
    ensures |starts| == |chunks|
    decreases |chunks|
  {
    if chunks == [] then []
    else
      var start := Later(cursor, chunks[0].arrival);
      [start] + QueueStarts(start + chunks[0].duration, chunks[1..])
  }

  /**
   * Queued chunks never play before they arrive, never start before the
   * cursor, and never overlap: each starts no earlier than its predecessor ends.
   */
  lemma {:induction false} QueueNoOverlap(cursor: Seconds, chunks: seq<Chunk>)
    ensures var starts := QueueStarts(cursor, chunks);
      && (forall i :: 0 <= i < |chunks| ==> starts[i] >= chunks[i].arrival && starts[i] >= cursor)
      && (forall i :: 0 <= i < |chunks| - 1 ==> starts[i] + chunks[i].duration <= starts[i + 1])
    decreases |chunks|
  {
    if chunks != [] {
      var start := Later(cursor, chunks[0].arrival);
      QueueNoOverlap(start + chunks[0].duration, chunks[1..]);
    }
  }

  /** A chunk that arrives while the previous one is still playing starts exactly when it ends. */
  lemma {:induction false} QueueGapless(cursor: Seconds, chunks: seq<Chunk>, i: nat)
    requires i + 1 < |chunks|
    requires chunks[i + 1].arrival <= QueueStarts(cursor, chunks)[i] + chunks[i].duration
    ensures QueueStarts(cursor, chunks)[i + 1] == QueueStarts(cursor, chunks)[i] + chunks[i].duration
    decreases i
  {
    var start := Later(cursor, chunks[0].arrival);
    if i > 0 {
      QueueGapless(start + chunks[0].duration, chunks[1..], i - 1);
    }
  }

  /** Where one chunk went: its source node and its start time. */
  datatype Scheduled = Scheduled(source: SourceId, start: Seconds)

  /** What a handled message did to playback: the chunk it queued, and the sources it stopped. */
  datatype Playback = Playback(scheduled: Option<Scheduled>, stopped: set<SourceId>)

  // ---------------------------------------------------------------------------
  // The call
  // ---------------------------------------------------------------------------

  class CallSession {
    var connection: ConnectionState
    var transcripts: seq<Transcript>
    var currentInput: string
    var currentOutput: string
    /** When the next chunk of speech may start. */
    var nextStartTime: Seconds
    /** The sources queued or playing. */
    var playing: set<SourceId>
    /** How many sources have been created; the next one gets this id. */
    var sourcesCreated: SourceId
    var mediaStream: Option<StreamId>
    var frameInterval: Option<TimerId>

    /** Every transcript line is non-blank, and every playing source was created by this call. */
    predicate Valid()
      reads this
    {
      && AllSpoken(transcripts)
      && (forall s :: s in playing ==> s < sourcesCreated)
    }

    constructor()
      ensures Valid()
      ensures connection == Connecting && transcripts == []
      ensures currentInput == "" && currentOutput == ""
      ensures nextStartTime == 0.0 && playing == {} && sourcesCreated == 0
      ensures mediaStream == None && frameInterval == None
    {
      connection := Connecting;
      transcripts := [];
      currentInput := "";
      currentOutput := "";
      nextStartTime := 0.0;
      playing := {};
      sourcesCreated := 0;
      mediaStream := None;
      frameInterval := None;
    }

    /**
     * `startSession` up to the connect call: the camera and microphone stream
     * is kept when granted; a refused stream, or audio contexts that cannot be
     * created, put the call in the error state.
     */
    method StartSession(media: Result<StreamId, JsError>, audioContexts: Option<JsError>)
      modifies this
      ensures media.Err? ==> connection == Error && mediaStream == old(mediaStream)
      ensures media.Ok? ==> mediaStream == Some(media.value)
      ensures media.Ok? ==> connection == (if audioContexts.Some? then Error else old(connection))
      ensures transcripts == old(transcripts) && currentInput == old(currentInput)
      ensures currentOutput == old(currentOutput) && nextStartTime == old(nextStartTime)
      ensures playing == old(playing) && sourcesCreated == old(sourcesCreated)
      ensures frameInterval == old(frameInterval)
      ensures old(Valid()) ==> Valid()
    {
      if media.Err? {
        connection := Error;
      } else {
        mediaStream := Some(media.value);
        if audioContexts.Some? {
          connection := Error;
        }
      }
    }

    /** The session opened: connected, and sending frames if a drawing context was available. */
    method OnOpen(frameTimer: Option<TimerId>)
      modifies this
      ensures connection == Connected
      ensures frameInterval == (if frameTimer.Some? then frameTimer else old(frameInterval))
      ensures transcripts == old(transcripts) && currentInput == old(currentInput)
      ensures currentOutput == old(currentOutput) && nextStartTime == old(nextStartTime)
      ensures playing == old(playing) && sourcesCreated == old(sourcesCreated)
      ensures mediaStream == old(mediaStream)
      ensures old(Valid()) ==> Valid()
    {
      connection := Connected;
      if frameTimer.Some? {
        frameInterval := frameTimer;
      }
    }

    method OnError()
      modifies this
      ensures connection == Error
      ensures transcripts == old(transcripts) && currentInput == old(currentInput)
      ensures currentOutput == old(currentOutput) && nextStartTime == old(nextStartTime)
      ensures playing == old(playing) && sourcesCreated == old(sourcesCreated)
      ensures mediaStream == old(mediaStream) && frameInterval == old(frameInterval)
      ensures old(Valid()) ==> Valid()
    {
      connection := Error;
    }

    method OnClose()
      modifies this
      ensures connection == Ended
      ensures transcripts == old(transcripts) && currentInput == old(currentInput)
      ensures currentOutput == old(currentOutput) && nextStartTime == old(nextStartTime)
      ensures playing == old(playing) && sourcesCreated == old(sourcesCreated)
      ensures mediaStream == old(mediaStream) && frameInterval == old(frameInterval)
      ensures old(Valid()) ==> Valid()
    {
      connection := Ended;
    }

    /**
     * The transcription step of `onmessage`: a fragment is appended to its
     * running text, and a completed turn moves both running texts into the
     * transcript and clears them.
     */
    method TakeTranscription(m: LiveServerMessage)
      requires AllSpoken(transcripts)
      modifies this
      ensures AllSpoken(transcripts)
      ensures var acc := Accumulate(old(currentInput), old(currentOutput), m);
        if TurnComplete(m) then
          && transcripts == old(transcripts) + Spoken(Transcript(You, acc.0)) + Spoken(Transcript(Agent, acc.1))
          && currentInput == "" && currentOutput == ""
        else
          && transcripts == old(transcripts)
          && currentInput == acc.0 && currentOutput == acc.1
      ensures connection == old(connection) && nextStartTime == old(nextStartTime)
      ensures playing == old(playing) && sourcesCreated == old(sourcesCreated)
      ensures mediaStream == old(mediaStream) && frameInterval == old(frameInterval)
    {
      var acc := Accumulate(currentInput, currentOutput, m);
      currentInput, currentOutput := acc.0, acc.1;
      if TurnComplete(m) {
        FlushTurnAppends(transcripts, currentInput, currentOutput);
        transcripts := FlushTurn(transcripts, currentInput, currentOutput);
        currentInput, currentOutput := "", "";
      }
    }

    /**
     * The audio step of `onmessage`: a new source plays the chunk from the
     * later of the cursor and the current time, and the cursor moves past it.
     */
    method QueueChunk(now: Seconds, duration: Seconds) returns (s: Scheduled)
      requires forall x :: x in playing ==> x < sourcesCreated
      modifies this
      ensures forall x :: x in playing ==> x < sourcesCreated
      ensures s == Scheduled(old(sourcesCreated), Later(old(nextStartTime), now))
      ensures s.start >= now && s.start >= old(nextStartTime) && s.source !in old(playing)
      ensures nextStartTime == s.start + duration
      ensures playing == old(playing) + {s.source} && sourcesCreated == old(sourcesCreated) + 1
      ensures connection == old(connection) && transcripts == old(transcripts)
      ensures currentInput == old(currentInput) && currentOutput == old(currentOutput)
      ensures mediaStream == old(mediaStream) && frameInterval == old(frameInterval)
    {
      nextStartTime := Later(nextStartTime, now);
      s := Scheduled(sourcesCreated, nextStartTime);
      sourcesCreated := sourcesCreated + 1;
      nextStartTime := nextStartTime + duration;
      playing := playing + {s.source};
    }

    /** The interruption step of `onmessage`: every queued source is stopped and the cursor reset. */
    method Interrupt() returns (stopped: set<SourceId>)
      modifies this
      ensures stopped == old(playing) && playing == {} && nextStartTime == 0.0
      ensures sourcesCreated == old(sourcesCreated)
      ensures connection == old(connection) && transcripts == old(transcripts)
      ensures currentInput == old(currentInput) && currentOutput == old(currentOutput)
      ensures mediaStream == old(mediaStream) && frameInterval == old(frameInterval)
      ensures old(Valid()) ==> Valid()
    {
      stopped := playing;
      playing := {};
      nextStartTime := 0.0;
    }

    /**
     * `onmessage`: the transcription step, then the audio step if the message
     * carries audio, then the interruption step if it says so. A malformed
     * model turn throws after the transcription step, so the other two do
     * not happen.
     */
    method OnMessage(m: LiveServerMessage, now: Seconds, duration: Seconds) returns (r: Result<Playback, JsError>)
      requires Valid()
      modifies this
      ensures Valid()
      ensures var acc := Accumulate(old(currentInput), old(currentOutput), m);
        if TurnComplete(m) then
          && transcripts == FlushTurn(old(transcripts), acc.0, acc.1)
          && currentInput == "" && currentOutput == ""
        else
          && transcripts == old(transcripts)
          && currentInput == acc.0 && currentOutput == acc.1
      ensures AudioOf(m).Err? ==>
        && r == Err(AudioOf(m).error)
        && nextStartTime == old(nextStartTime) && playing == old(playing)
        && sourcesCreated == old(sourcesCreated)
      ensures AudioOf(m).Ok? ==> r.Ok?
      ensures r.Ok? ==>
        var audio := Truthy(AudioOf(m).value);
        var start := Later(old(nextStartTime), now);
        var queued := if audio then old(playing) + {old(sourcesCreated)} else old(playing);
        && r.value.scheduled == (if audio then Some(Scheduled(old(sourcesCreated), start)) else None)
        && sourcesCreated == (if audio then old(sourcesCreated) + 1 else old(sourcesCreated))
        && (Interrupted(m) ==> r.value.stopped == queued && playing == {} && nextStartTime == 0.0)
        && (!Interrupted(m) ==>
              && r.value.stopped == {} && playing == queued
              && nextStartTime == (if audio then start + duration else old(nextStartTime)))
      ensures r.Ok? && r.value.scheduled.Some? ==>
        var s := r.value.scheduled.value;
        s.start >= now && s.start >= old(nextStartTime) && s.source !in old(playing)
      ensures connection == old(connection)
      ensures mediaStream == old(mediaStream) && frameInterval == old(frameInterval)
    {
      ghost var acc := Accumulate(currentInput, currentOutput, m);
      TakeTranscription(m);
      assert TurnComplete(m) ==> transcripts == FlushTurn(old(transcripts), acc.0, acc.1) by {
        if TurnComplete(m) {
          FlushTurnAppends(old(transcripts), acc.0, acc.1);
        }
      }
      var audio := AudioOf(m);
      if audio.Err? {
        return Err(audio.error);
      }
      var scheduled: Option<Scheduled> := None;
      if Truthy(audio.value) {
        var s := QueueChunk(now, duration);
        scheduled := Some(s);
      }
      var stopped: set<SourceId> := {};
      if Interrupted(m) {
        stopped := Interrupt();
      }
      return Ok(Playback(scheduled, stopped));
    }

    /** A source finished playing (or was stopped) and leaves the set. */
    method OnSourceEnded(source: SourceId)
      modifies this
      ensures playing == old(playing) - {source}
      ensures connection == old(connection) && transcripts == old(transcripts)
      ensures currentInput == old(currentInput) && currentOutput == old(currentOutput)
      ensures nextStartTime == old(nextStartTime) && sourcesCreated == old(sourcesCreated)
      ensures mediaStream == old(mediaStream) && frameInterval == old(frameInterval)
      ensures old(Valid()) ==> Valid()
    {
      playing := playing - {source};
    }

    /**
     * `cleanup`: clears the frame timer and stops the media stream if there
     * are any, and drops both. Returns what it cleared and what it stopped.
     */
    method Cleanup() returns (clearedTimer: Option<TimerId>, stoppedStream: Option<StreamId>)
      modifies this
      ensures clearedTimer == old(frameInterval) && stoppedStream == old(mediaStream)
      ensures frameInterval == None && mediaStream == None
      ensures connection == old(connection) && transcripts == old(transcripts)
      ensures currentInput == old(currentInput) && currentOutput == old(currentOutput)
      ensures nextStartTime == old(nextStartTime) && playing == old(playing)
      ensures sourcesCreated == old(sourcesCreated)
      ensures old(Valid()) ==> Valid()
    {
      clearedTimer, stoppedStream := None, None;
      if frameInterval.Some? {
        clearedTimer := frameInterval;
        frameInterval := None;
      }
      if mediaStream.Some? {
        stoppedStream := mediaStream;
        mediaStream := None;
      }
    }
  }
}
