/** The interview component: the conversation history, the five-phase turn
    machine, the mic button, the reset button, and the two halves of a chat
    turn: what happens synchronously when a transcript arrives (the user
    message is appended and a request is sent) and what happens when the
    reply arrives (its tokens are spoken, and the answer is appended).

    React's state setters are modelled as assignments applied in order, one
    handler at a time. Each request has an abort controller; request `k` is
    the `k`-th entry of `sent` (the history it carried), and `aborted[k]`
    says whether its controller was aborted. */
module Interview {
  import opened Wrappers
  import opened Text
  import opened Framing
  import opened ClientStream
  import ChatRoute
  import Tts
  import Stt

  type ChatMessage = ChatRoute.ChatMessage

  const Lang: string := "fr-FR"

  /** The transcript sent when the interview starts (its opening bracket
      written apart, so that its first character is known). */
  const OpeningPrompt: string := "[" + "DÉBUT DE L'ENTRETIEN - présente-toi et pose la première question]"

  datatype Phase = Idle | Listening | Thinking | Speaking | Error

  // ---------------------------------------------------------------------
  // The duration display
  // ---------------------------------------------------------------------

  /** `formatDuration(seconds)`: minutes and seconds, each padded with
      zeros to two digits, separated by a colon. */
  function FormatDuration(seconds: nat): (r: string)
    ensures |r| >= 5
  {
    PadStart(Decimal(seconds / 60), 2, '0') + ":" + PadStart(Decimal(seconds % 60), 2, '0')
  }

  /** A number below 100, padded to two digits, reads back as itself. */
  lemma TwoDigits(n: nat)
    requires n < 100
    ensures var p := PadStart(Decimal(n), 2, '0');
      |p| == 2 && AllDigits(p) && DecimalValue(p) == n
  {
    PadZeros(Decimal(n), 2);
  }

  /** Below 100 minutes the display is `MM:SS`, the two fields reading back
      as the whole minutes and the remaining seconds. */
  lemma FormatDurationShape(seconds: nat)
    requires seconds < 6000
    ensures var r := FormatDuration(seconds);
      |r| == 5 && r[2] == ':'
      && AllDigits(r[..2]) && DecimalValue(r[..2]) == seconds / 60
      && AllDigits(r[3..]) && DecimalValue(r[3..]) == seconds % 60
  {
    var minutes, rest := seconds / 60, seconds % 60;
    assert seconds == 60 * minutes + rest && rest < 60;
    assert minutes < 100;
    TwoDigits(minutes);
    TwoDigits(rest);
    var m := PadStart(Decimal(minutes), 2, '0');
    var s := PadStart(Decimal(rest), 2, '0');
    Fields(m, s);
  }

  /** The two fields of `m:s` can be read back. */
  lemma Fields(m: string, s: string)
    requires |m| == 2
    ensures var r := m + ":" + s; |r| == |s| + 3 && r[2] == ':' && r[..2] == m && r[3..] == s
  {
    var r := m + ":" + s;
    assert r[..2] == m;
    assert r[3..] == s;
  }

  // ---------------------------------------------------------------------
  // The component's own state and its transitions
  // ---------------------------------------------------------------------

  datatype UiState = UiState(
    messages: seq<ChatMessage>,
    phase: Phase,
    streamingText: string,
    errorMessage: string,
    started: bool,
    duration: nat,
    sent: seq<seq<ChatMessage>>,
    aborted: seq<bool>,
    pendingIdleResets: nat)

  /** One abort flag per request sent, and at most one request is live:
      every request but the latest was aborted. */
  predicate Controllers(sent: seq<seq<ChatMessage>>, aborted: seq<bool>) {
    |aborted| == |sent|
    && forall k :: 0 <= k < |sent| - 1 ==> aborted[k]
  }

  /** The latest request exists and was not aborted. */
  predicate Live(sent: seq<seq<ChatMessage>>, aborted: seq<bool>) {
    |sent| > 0 && |aborted| == |sent| && !aborted[|sent| - 1]
  }

  /** The reply to `request` is dropped: its controller was aborted (or no
      such request was sent). */
  predicate Cancelled(s: UiState, request: nat) {
    request < |s.aborted| ==> s.aborted[request]
  }

  /** Aborting the current controller, if there is one. */
  function AbortCurrent(s: UiState): (r: UiState)
    ensures r.sent == s.sent && |r.aborted| == |s.aborted|
  {
    if |s.aborted| > 0 then s.(aborted := s.aborted[|s.aborted| - 1 := true]) else s
  }

  /** After the abort no request is live: every reply still to come is dropped. */
  lemma AbortCancelsAll(s: UiState)
    requires Controllers(s.sent, s.aborted)
    ensures var r := AbortCurrent(s);
      Controllers(r.sent, r.aborted) && !Live(r.sent, r.aborted) && forall k :: 0 <= k < |r.sent| ==> Cancelled(r, k)
  {
  }

  /** The synchronous part of `handleFinalTranscript(transcript)`. */
  function Asked(s: UiState, transcript: string): (r: UiState)
    ensures r.sent == s.sent || r.sent == s.sent + [r.messages]
  {
    if IsBlank(transcript) then s
    else
      var messages := s.messages + [ChatRoute.ChatMessage(ChatRoute.User, transcript)];
      var a := AbortCurrent(s);
      a.(messages := messages, phase := Thinking, streamingText := [], sent := s.sent + [messages], aborted := a.aborted + [false])
  }

  /** A blank transcript changes nothing; otherwise exactly one user message
      with the transcript as given is appended, the phase turns to thinking,
      the streaming text is cleared, the previous request is aborted and a
      new one carrying the whole history is sent, the only live one. */
  lemma AskedSends(s: UiState, transcript: string)
    ensures var r := Asked(s, transcript);
      && (IsBlank(transcript) ==> r == s)
      && (!IsBlank(transcript) ==>
        && r.messages == s.messages + [ChatRoute.ChatMessage(ChatRoute.User, transcript)]
        && r.phase == Thinking && r.streamingText == []
        && r.sent == s.sent + [r.messages]
        && (Controllers(s.sent, s.aborted) ==> Live(r.sent, r.aborted)))
      && (Controllers(s.sent, s.aborted) ==> Controllers(r.sent, r.aborted))
      && r.errorMessage == s.errorMessage && r.started == s.started && r.duration == s.duration
  {
  }

  /** The state after the reply to `request` ends with outcome `o`. */
  function Answered(s: UiState, request: nat, o: Outcome): (r: UiState)
    ensures Cancelled(s, request) ==> r == s
  {
    if Cancelled(s, request) then s else Ended(Shown(s, o), o)
  }

  /** A reply never touches the requests, the start flag or the duration;
      it appends at most one message, the assistant's trimmed text, and
      exactly when it is live, not aborted, without error and not blank;
      an error is shown and schedules the return to idle. */
  lemma AnsweredShape(s: UiState, request: nat, o: Outcome)
    ensures var r := Answered(s, request, o);
      && r.sent == s.sent && r.aborted == s.aborted && r.started == s.started && r.duration == s.duration
      && |r.messages| >= |s.messages| && r.messages[..|s.messages|] == s.messages
      && (|r.messages| > |s.messages| <==> !Cancelled(s, request) && !o.silent && o.failure.None? && !IsBlank(TokensText(o.calls)))
      && (|r.messages| > |s.messages| ==> r.messages == s.messages + [ChatRoute.ChatMessage(ChatRoute.Assistant, Trim(TokensText(o.calls)))])
      && (!Cancelled(s, request) && !o.silent && o.failure.Some? ==>
        r.phase == Error && r.errorMessage == o.failure.value && r.pendingIdleResets == s.pendingIdleResets + 1)
      && ((Cancelled(s, request) || o.silent) ==> r.messages == s.messages && r.errorMessage == s.errorMessage)
      && (!Cancelled(s, request) && o.failure.None? && o.reached ==> r.phase == Speaking)
  {
  }

  /** A turn whose body is read to its end without an error payload, and
      whose tokens are not blank, appends the trimmed reply as the
      assistant's message and stays in the speaking phase. */
  lemma CompletedTurnAppends(s: UiState, request: nat, chunks: seq<string>, parse: string -> ClientPayload)
    requires !Cancelled(s, request)
    requires DecodeChunks(chunks, parse).failure.None?
    requires !IsBlank(TokensText(DecodeChunks(chunks, parse).calls))
    ensures var r := Answered(s, request, ReplyOutcome(Body(chunks, Done), parse));
      && r.messages == s.messages + [ChatRoute.ChatMessage(ChatRoute.Assistant, Trim(TokensText(DecodeChunks(chunks, parse).calls)))]
      && r.phase == Speaking && r.streamingText == [] && r.errorMessage == s.errorMessage
  {
    AnsweredShape(s, request, ReplyOutcome(Body(chunks, Done), parse));
  }

  /** A `fetch` rejected by an abort changes nothing: the phase, the
      conversation and the error stay as they were. */
  lemma AbortedFetchChangesNothing(s: UiState, request: nat, thrown: Thrown, parse: string -> ClientPayload)
    requires IsAbort(thrown)
    ensures Answered(s, request, ReplyOutcome(Rejected(thrown), parse)) == s
  {
    var o := ReplyOutcome(Rejected(thrown), parse);
    assert !o.reached && o.calls == [] && o.silent;
    assert TokensText(o.calls) == [];
  }

  /** The speaking effect: a speaking phase while no speech plays becomes idle. */
  function Settled(s: UiState, ttsSpeaking: bool): (r: UiState)
    ensures r.phase == (if s.phase == Speaking && !ttsSpeaking then Idle else s.phase)
    ensures r == s.(phase := r.phase)
  {
    if s.phase == Speaking && !ttsSpeaking then s.(phase := Idle) else s
  }

  /** Once the body is reached, speech has not started yet (it starts only
      at the flush); if the speaking effect runs before the next read, the
      phase turns idle while tokens still stream, and the mic is enabled and
      would start listening. */
  lemma MidStreamSettles(s: UiState, o: Outcome, ttsSpeaking: bool)
    requires o.reached && !ttsSpeaking
    ensures var r := Settled(Shown(s, o), ttsSpeaking);
      && r.phase == Idle && r.streamingText == Shown(s, o).streamingText
      && !MicDisabled(r.phase, ttsSpeaking) && Toggle(r.phase) == StartListening
  {
  }

  /** A `fetch` that rejects with anything but an abort shows its message,
      enters the error phase and schedules the return to idle; nothing is
      spoken or appended. */
  lemma RejectedTurnFails(s: UiState, request: nat, thrown: Thrown, parse: string -> ClientPayload)
    requires !Cancelled(s, request) && !IsAbort(thrown)
    ensures var r := Answered(s, request, ReplyOutcome(Rejected(thrown), parse));
      && r.phase == Error && r.errorMessage == CaughtMessage(thrown)
      && r.pendingIdleResets == s.pendingIdleResets + 1 && r.messages == s.messages
  {
    AnsweredShape(s, request, ReplyOutcome(Rejected(thrown), parse));
  }

  /** While the body is read: speaking once it is reached, and the text
      accumulated so far shown (when there is any). */
  function Shown(s: UiState, o: Outcome): (r: UiState)
    ensures r == s.(phase := r.phase, streamingText := r.streamingText)
  {
    var text := TokensText(o.calls);
    var s1 := if o.reached then s.(phase := Speaking) else s;
    if text != [] then s1.(streamingText := text) else s1
  }

  /** How the reply ends: nothing more when aborted, the error shown, or
      the trimmed text appended as the assistant's message when not blank. */
  function Ended(s: UiState, o: Outcome): (r: UiState)
    ensures r.sent == s.sent && r.aborted == s.aborted
  {
    var text := TokensText(o.calls);
    if o.silent then s
    else if o.failure.Some? then
      s.(errorMessage := o.failure.value, phase := Error, pendingIdleResets := s.pendingIdleResets + 1)
    else if Trim(text) != [] then
      s.(messages := s.messages + [ChatRoute.ChatMessage(ChatRoute.Assistant, Trim(text))], streamingText := [])
    else s
  }

  /** The state setters at the end of `resetInterview()`: an empty
      conversation, idle, no streaming text, not started, no error and a
      zero duration. The
      requests and their controllers are left as they are. */
  function Cleared(s: UiState): (r: UiState)
    ensures r.messages == [] && r.phase == Idle && r.streamingText == [] && !r.started && r.errorMessage == [] && r.duration == 0
    ensures r.sent == s.sent && r.aborted == s.aborted
  {
    s.(messages := [], phase := Idle, streamingText := [], started := false, errorMessage := [], duration := 0)
  }

  /** What the mic button does in a phase. */
  datatype ToggleAction = StopListening | StartListening | Nothing

  function Toggle(phase: Phase): ToggleAction {
    if phase == Listening then StopListening
    else if phase == Idle then StartListening
    else Nothing
  }

  /** `micDisabled`: the mic is off while thinking or while speech plays. */
  function MicDisabled(phase: Phase, ttsSpeaking: bool): bool {
    phase == Thinking || ttsSpeaking
  }

  /** `sendDisabled`: "send now" is off while speech plays. */
  function SendDisabled(ttsSpeaking: bool): bool {
    ttsSpeaking
  }

  /** The mic button is never enabled in a phase where pressing it is
      ignored, except in the error phase and in a speaking phase while no
      speech plays, ended or not yet started (which the speaking effect
      turns to idle). */
  lemma EnabledMicActs(phase: Phase, ttsSpeaking: bool)
    ensures !MicDisabled(phase, ttsSpeaking) && Toggle(phase) == Nothing <==>
      !ttsSpeaking && (phase == Error || phase == Speaking)
    ensures MicDisabled(phase, ttsSpeaking) ==> phase == Thinking || SendDisabled(ttsSpeaking)
  {
  }

  /** As written, pressing the mic while listening with nothing buffered
      changes no state of the component, and leaves the capture stopped with
      an empty buffer: the same situation again, so no further press leaves
      the listening phase. */
  lemma ListeningDeadEnd(s: UiState, c: Stt.CaptureState)
    requires s.phase == Listening && IsBlank(c.finalBuffer)
    ensures Asked(s, Stt.SubmitResult(c)) == s
    ensures var n := Stt.Apply(c, Stt.StopCall).next; IsBlank(n.finalBuffer) && !n.isListening
  {
  }

  /** The listening branch of the mic button with the capture's text, as
      corrected: a blank text returns to idle, any other is asked. Either way
      the listening phase is left. */
  function StopAsked(s: UiState, submitted: string): (r: UiState)
    ensures s.phase == Listening ==> r.phase != Listening
    ensures IsBlank(submitted) ==> r.messages == s.messages && r.sent == s.sent && r.phase == Idle
    ensures !IsBlank(submitted) ==> r == Asked(s, submitted)
  {
    if IsBlank(submitted) then s.(phase := Idle) else Asked(s, submitted)
  }

  // ---------------------------------------------------------------------
  // The component
  // ---------------------------------------------------------------------

  class VoiceInterview {
    var messages: seq<ChatMessage>
    var phase: Phase
    var streamingText: string
    var errorMessage: string
    var started: bool
    var duration: nat
    var sent: seq<seq<ChatMessage>>
    var aborted: seq<bool>
    var pendingIdleResets: nat
    const tts: Tts.SpeechOutput
    const stt: Stt.SpeechCapture

    function Ui(): UiState
      reads this
    {
      UiState(messages, phase, streamingText, errorMessage, started, duration, sent, aborted, pendingIdleResets)
    }

    predicate Valid()
      reads this, tts
    {
      Controllers(sent, aborted) && tts.Valid() && tts.lang == Lang
    }

    predicate LiveRequest()
      reads this
    {
      Live(sent, aborted)
    }

    constructor(sttSupported: bool)
      ensures Valid()
      ensures Ui() == UiState([], Idle, [], [], false, 0, [], [], 0)
      ensures fresh(tts) && fresh(stt)
      ensures tts.State() == Tts.OutputState([], false, false, [])
      ensures stt.State() == Stt.Initial(sttSupported, Lang)
    {
      messages := [];
      phase := Idle;
      streamingText := [];
      errorMessage := [];
      started := false;
      duration := 0;
      sent := [];
      aborted := [];
      pendingIdleResets := 0;
      tts := new Tts.SpeechOutput(Lang);
      stt := new Stt.SpeechCapture(sttSupported, Lang);
    }

    /** `abortControllerRef.current?.abort()`. */
    method Abort()
      requires Valid()
      modifies this
      ensures Ui() == AbortCurrent(old(Ui()))
      ensures Valid() && !LiveRequest()
    {
      AbortCancelsAll(Ui());
      if |aborted| > 0 {
        aborted := aborted[|aborted| - 1 := true];
      }
    }

    /** The part of `handleFinalTranscript` before its first `await`;
        returns the request it sends, if any. */
    method HandleFinalTranscript(transcript: string) returns (request: Option<nat>)
      requires Valid()
      modifies this
      ensures Valid()
      ensures Ui() == Asked(old(Ui()), transcript)
      ensures request == if IsBlank(transcript) then None else Some(|old(sent)|)
      ensures !IsBlank(transcript) ==> LiveRequest()
    {
      if IsBlank(transcript) {
        return None;
      }
      messages := messages + [ChatRoute.ChatMessage(ChatRoute.User, transcript)];
      phase := Thinking;
      streamingText := [];
      var history := messages;
      Abort();
      sent := sent + [history];
      aborted := aborted + [false];
      request := Some(|sent| - 1);
    }

    /** Error path of the catch block: show the message, turn to the error
        phase and schedule the return to idle. */
    method Fail(message: string)
      modifies this
      ensures Ui() == old(Ui()).(errorMessage := message, phase := Error, pendingIdleResets := old(pendingIdleResets) + 1)
    {
      errorMessage := message;
      phase := Error;
      pendingIdleResets := pendingIdleResets + 1;
    }

    /** The inner loop over one chunk's lines. `acc` is the reply's text so far. */
    method ConsumeChunk(chunk: string, parse: string -> ClientPayload, voices: seq<Tts.Voice>, acc: string)
      returns (acc': string, failure: Option<string>)
      requires Valid()
      modifies this`streamingText, tts
      ensures Valid()
      ensures var d := DecodeLines(Lines(chunk), parse);
        && acc' == acc + TokensText(d.calls)
        && failure == d.failure
        && tts.State() == ApplyCalls(old(tts.State()), d.calls, Lang, voices)
        && streamingText == if TokensText(d.calls) == [] then old(streamingText) else acc'
    {
      acc', failure := ConsumeLines(Lines(chunk), parse, voices, acc);
    }

    /** The loop over a chunk's lines, once the chunk is split. */
    method ConsumeLines(lines: seq<string>, parse: string -> ClientPayload, voices: seq<Tts.Voice>, acc: string)
      returns (acc': string, failure: Option<string>)
      requires Valid()
      modifies this`streamingText, tts
      ensures Valid()
      ensures var d := DecodeLines(lines, parse);
        && acc' == acc + TokensText(d.calls)
        && failure == d.failure
        && tts.State() == ApplyCalls(old(tts.State()), d.calls, Lang, voices)
        && streamingText == if TokensText(d.calls) == [] then old(streamingText) else acc'
    {
      ghost var whole := DecodeLines(lines, parse);
      ghost var calls: seq<TtsCall> := [];
      ghost var tts0 := tts.State();
      ghost var st0 := streamingText;
      acc' := acc;
      failure := None;
      var j := 0;
      assert lines[0..] == lines;
      while j < |lines|
        invariant 0 <= j <= |lines|
        invariant Valid()
        invariant Then(Decoded(calls, None), DecodeLines(lines[j..], parse)) == whole
        invariant acc' == acc + TokensText(calls)
        invariant tts.State() == ApplyCalls(tts0, calls, Lang, voices)
        invariant streamingText == if |acc'| == |acc| then st0 else acc'
        invariant failure.None?
      {
        var line := lines[j];
        LinesStep(lines, j, parse, calls);
        var stop;
        ghost var d := DecodeLine(line, parse);
        acc', stop, failure := ConsumeLine(line, parse, voices, acc, st0, tts0, calls, acc');
        calls := calls + d.calls;
        if stop {
          assert d.calls + [] == d.calls;
          return;
        }
        j := j + 1;
      }
      assert lines[j..] == [];
      assert calls + [] == calls;
    }

    /** One line of a chunk: skipped, flushed at `[DONE]`, stopped at an
        `error`, or its token enqueued and shown. `acc0`, `st0` and `tts0`
        are the text, the shown text and the speech state before the chunk,
        and `calls` what the chunk's earlier lines asked of speech. */
    method ConsumeLine(line: string, parse: string -> ClientPayload, voices: seq<Tts.Voice>,
                       ghost acc0: string, ghost st0: string, ghost tts0: Tts.OutputState, ghost calls: seq<TtsCall>, acc: string)
      returns (acc': string, stop: bool, failure: Option<string>)
      requires Valid()
      requires acc == acc0 + TokensText(calls)
      requires tts.State() == ApplyCalls(tts0, calls, Lang, voices)
      requires streamingText == if |acc| == |acc0| then st0 else acc
      modifies this`streamingText, tts
      ensures Valid()
      ensures var d := DecodeLine(line, parse);
        && stop == Stops(line, parse)
        && failure == d.failure
        && acc' == acc0 + TokensText(calls + d.calls)
        && tts.State() == ApplyCalls(tts0, calls + d.calls, Lang, voices)
        && streamingText == if |acc'| == |acc0| then st0 else acc'
    {
      ghost var d := DecodeLine(line, parse);
      acc' := acc;
      stop := false;
      failure := None;
      match Classify(line, parse) {
        case Skip =>
        case DoneLine =>
          tts.Flush(voices);
          stop := true;
        case FailLine(error) =>
          stop := true;
          failure := Some(error);
        case TokenLine(token) =>
          acc' := acc + token;
          streamingText := acc';
          tts.Enqueue(token);
      }
      ApplyOne(old(tts.State()), d.calls, Lang, voices);
      ApplyCallsAppend(tts0, calls, d.calls, Lang, voices);
      TokensTextAppend(calls, d.calls);
      ConcatAssoc(acc0, TokensText(calls), TokensText(d.calls));
    }

    /** The part of `handleFinalTranscript` after its `await`: the reply to
        `request` arrives. An aborted request's reply is dropped. */
    method ReceiveReply(request: nat, reply: Reply, parse: string -> ClientPayload, voices: seq<Tts.Voice>)
      requires Valid() && request < |sent|
      modifies this, tts
      ensures Valid()
      ensures Ui() == Answered(old(Ui()), request, ReplyOutcome(reply, parse))
      ensures tts.State() == if Cancelled(old(Ui()), request) then old(tts.State())
        else ApplyCalls(old(tts.State()), ReplyOutcome(reply, parse).calls, Lang, voices)
    {
      if aborted[request] {
        return;
      }
      match reply {
        case Rejected(t) =>
          if IsAbort(t) {
            return;
          }
          Fail(CaughtMessage(t));
        case NotOk(status, body) =>
          Fail(NotOkMessage(status, body));
        case Body(chunks, end) =>
          ReceiveBody(chunks, end, parse, voices);
      }
    }

    /** A reply whose body was reached. */
    method ReceiveBody(chunks: seq<string>, end: BodyEnd, parse: string -> ClientPayload, voices: seq<Tts.Voice>)
      requires Valid()
      modifies this, tts
      ensures Valid()
      ensures var o := BodyOutcome(DecodeChunks(chunks, parse), end); Ui() == Ended(Shown(old(Ui()), o), o)
      ensures tts.State() == ApplyCalls(old(tts.State()), DecodeChunks(chunks, parse).calls, Lang, voices)
    {
      ghost var d := DecodeChunks(chunks, parse);
      ghost var u0 := Ui();
      phase := Speaking;
      var acc, failure := ReadBody(chunks, parse, voices);
      assert Ui() == Shown(u0, BodyOutcome(d, end));
      Finish(d, acc, failure, end);
    }

    /** After the read loop: the error shown, or the trimmed text appended
        as the assistant's message when it is not blank. */
    method Finish(ghost d: Decoded, acc: string, failure: Option<string>, end: BodyEnd)
      requires acc == TokensText(d.calls) && failure == d.failure
      modifies this
      ensures Ui() == Ended(old(Ui()), BodyOutcome(d, end))
    {
      if failure.Some? {
        Fail(failure.value);
        return;
      }
      match end {
        case Done =>
          var text := Trim(acc);
          if text != [] {
            messages := messages + [ChatRoute.ChatMessage(ChatRoute.Assistant, text)];
            streamingText := [];
          }
        case ReadThrew(t) =>
          if !IsAbort(t) {
            Fail(CaughtMessage(t));
          }
      }
    }

    /** The outer read loop: chunk by chunk until the body is done or a
        payload carries an error. */
    method ReadBody(chunks: seq<string>, parse: string -> ClientPayload, voices: seq<Tts.Voice>)
      returns (acc: string, failure: Option<string>)
      requires Valid()
      modifies this`streamingText, tts
      ensures Valid()
      ensures var d := DecodeChunks(chunks, parse);
        && acc == TokensText(d.calls)
        && failure == d.failure
        && tts.State() == ApplyCalls(old(tts.State()), d.calls, Lang, voices)
        && streamingText == if acc == [] then old(streamingText) else acc
    {
      ghost var whole := DecodeChunks(chunks, parse);
      ghost var calls: seq<TtsCall> := [];
      ghost var tts0 := tts.State();
      ghost var st0 := streamingText;
      acc := [];
      failure := None;
      var i := 0;
      assert chunks[0..] == chunks;
      while i < |chunks|
        invariant 0 <= i <= |chunks|
        invariant Valid()
        invariant Then(Decoded(calls, None), DecodeChunks(chunks[i..], parse)) == whole
        invariant acc == TokensText(calls)
        invariant tts.State() == ApplyCalls(tts0, calls, Lang, voices)
        invariant streamingText == if acc == [] then st0 else acc
      {
        ghost var d := DecodeLines(Lines(chunks[i]), parse);
        ChunksStep(chunks, i, parse, calls);
        var f;
        acc, f := ConsumeChunk(chunks[i], parse, voices, acc);
        ApplyCallsAppend(tts0, calls, d.calls, Lang, voices);
        TokensTextAppend(calls, d.calls);
        calls := calls + d.calls;
        if f.Some? {
          failure := f;
          return;
        }
        i := i + 1;
      }
      assert chunks[i..] == [];
      assert calls + [] == calls;
    }

    /** `handleMicToggle()` as written: from listening, stop the capture
        (which may hand its text to `handleFinalTranscript`); from idle,
        listen; otherwise nothing. A stop with nothing buffered leaves the
        phase at listening with the capture stopped. */
    method HandleMicToggleAsWritten() returns (request: Option<nat>)
      requires Valid()
      modifies this, stt
      ensures Valid()
      ensures Toggle(old(phase)) == StopListening ==>
        && stt.State() == Stt.Apply(old(stt.State()), Stt.StopCall).next
        && Ui() == Asked(old(Ui()), Stt.SubmitResult(old(stt.State())))
      ensures old(phase) == Listening && IsBlank(old(stt.finalBuffer)) ==>
        phase == Listening && !stt.isListening && stt.finalBuffer == [] && request.None?
      ensures Toggle(old(phase)) == StartListening ==>
        stt.State() == Stt.Begin(old(stt.State())) && Ui() == old(Ui()).(phase := Listening) && request.None?
      ensures Toggle(old(phase)) == Nothing ==>
        stt.State() == old(stt.State()) && Ui() == old(Ui()) && request.None?
    {
      request := None;
      if phase == Listening {
        var result, delivered := stt.Stop();
        if delivered.Some? {
          request := HandleFinalTranscript(delivered.value);
        }
      } else if phase == Idle {
        phase := Listening;
        stt.Start();
      }
    }

    /** `handleMicToggle()`, corrected: as written, except that a stop that
        hands over no text returns to idle, so the listening phase is always
        left. */
    method HandleMicToggle() returns (request: Option<nat>)
      requires Valid()
      modifies this, stt
      ensures Valid()
      ensures Toggle(old(phase)) == StopListening ==>
        && stt.State() == Stt.Apply(old(stt.State()), Stt.StopCall).next
        && Ui() == StopAsked(old(Ui()), Stt.SubmitResult(old(stt.State())))
        && phase != Listening && !stt.isListening
      ensures Toggle(old(phase)) == StartListening ==>
        stt.State() == Stt.Begin(old(stt.State())) && Ui() == old(Ui()).(phase := Listening) && request.None?
      ensures Toggle(old(phase)) == Nothing ==>
        stt.State() == old(stt.State()) && Ui() == old(Ui()) && request.None?
    {
      request := None;
      if phase == Listening {
        var result, delivered := stt.Stop();
        if delivered.Some? {
          request := HandleFinalTranscript(delivered.value);
        } else {
          phase := Idle;
        }
      } else if phase == Idle {
        phase := Listening;
        stt.Start();
      }
    }

    /** `startInterview()`: unlock speech, mark the interview started, and
        send the opening prompt. */
    method StartInterview() returns (request: Option<nat>)
      requires Valid()
      modifies this, tts
      ensures Valid()
      ensures tts.State() == Tts.Unlocked(old(tts.State()))
      ensures Ui() == Asked(old(Ui()).(started := true, duration := 0, phase := Thinking), OpeningPrompt)
      ensures request == Some(|old(sent)|) && LiveRequest()
    {
      tts.Unlock();
      started := true;
      duration := 0;
      phase := Thinking;
      assert OpeningPrompt[0] == '[';
      request := HandleFinalTranscript(OpeningPrompt);
    }

    /** The state setters at the end of `resetInterview()`. */
    method Clear()
      modifies this
      ensures Ui() == Cleared(old(Ui()))
    {
      messages := [];
      phase := Idle;
      streamingText := [];
      started := false;
      errorMessage := [];
      duration := 0;
    }

    /** `resetInterview()` as written: the current request is aborted first,
        and the capture is stopped afterwards; the text the capture hands
        over starts a new request that nothing aborts. */
    method ResetAsWritten() returns (request: Option<nat>)
      requires Valid()
      modifies this, tts, stt
      ensures Valid()
      ensures Ui() == Cleared(Asked(AbortCurrent(old(Ui())), Stt.SubmitResult(old(stt.State()))))
      ensures tts.State() == Tts.Stopped(old(tts.State()))
      ensures stt.State() == Stt.Apply(old(stt.State()), Stt.StopCall).next
      ensures request.Some? <==> LiveRequest()
      ensures request.Some? ==> request.value == |sent| - 1
    {
      ghost var u0 := Ui();
      ghost var text := Stt.SubmitResult(stt.State());
      Abort();
      tts.Stop();
      var result, delivered := stt.Stop();
      ghost var st := stt.State();
      assert delivered.Some? <==> !IsBlank(text);
      assert delivered.Some? ==> delivered.value == text;
      request := None;
      if delivered.Some? {
        request := HandleFinalTranscript(delivered.value);
      }
      assert Ui() == Asked(AbortCurrent(u0), text);
      Clear();
      assert stt.State() == st;
    }

    /** `resetInterview()` with the capture stopped before the abort: the
        text it hands over is sent and at once aborted, so no request
        survives the reset. */
    method Reset() returns (request: Option<nat>)
      requires Valid()
      modifies this, tts, stt
      ensures Valid()
      ensures Ui() == Cleared(AbortCurrent(Asked(old(Ui()), Stt.SubmitResult(old(stt.State())))))
      ensures tts.State() == Tts.Stopped(old(tts.State()))
      ensures stt.State() == Stt.Apply(old(stt.State()), Stt.StopCall).next
      ensures !LiveRequest()
    {
      ghost var u0 := Ui();
      ghost var text := Stt.SubmitResult(stt.State());
      var result, delivered := stt.Stop();
      ghost var st := stt.State();
      assert delivered.Some? <==> !IsBlank(text);
      assert delivered.Some? ==> delivered.value == text;
      request := None;
      if delivered.Some? {
        request := HandleFinalTranscript(delivered.value);
      }
      assert Ui() == Asked(u0, text);
      Abort();
      tts.Stop();
      Clear();
      assert stt.State() == st;
    }

    /** The reset as written, then the reply to the request it let through:
        a successful reply lands in the cleared conversation. */
    method ReplyAfterResetAsWritten(reply: Reply, parse: string -> ClientPayload, voices: seq<Tts.Voice>)
      requires Valid() && !IsBlank(stt.finalBuffer)
      modifies this, tts, stt
      ensures Valid()
      ensures var o := ReplyOutcome(reply, parse);
        !o.silent && o.failure.None? && !IsBlank(TokensText(o.calls)) ==>
          messages == [ChatRoute.ChatMessage(ChatRoute.Assistant, Trim(TokensText(o.calls)))] && !started
    {
      var request := ResetAsWritten();
      ghost var u := Ui();
      ReceiveReply(request.value, reply, parse, voices);
      AnsweredShape(u, request.value, ReplyOutcome(reply, parse));
    }

    /** The corrected reset, then the reply to any request sent so far: it
        is dropped, and the conversation stays empty. */
    method ReplyAfterReset(request: nat, reply: Reply, parse: string -> ClientPayload, voices: seq<Tts.Voice>)
      requires Valid()
      modifies this, tts, stt
      ensures Valid()
      ensures messages == [] && phase == Idle && !started && errorMessage == []
    {
      var sentNow := Reset();
      if request < |sent| {
        ReceiveReply(request, reply, parse, voices);
      }
    }

    /** The effect on the speech flag: a speaking phase while no speech
        plays, ended or not yet started, turns to idle. */
    method SettleSpeaking()
      modifies this
      ensures Ui() == Settled(old(Ui()), tts.isSpeaking)
    {
      if phase == Speaking && !tts.isSpeaking {
        phase := Idle;
      }
    }

    /** The 4-second timer scheduled on an error fires: the phase becomes
        idle, whatever it is by then. */
    method IdleTimerFired()
      requires pendingIdleResets > 0
      modifies this
      ensures Ui() == old(Ui()).(phase := Idle, pendingIdleResets := old(pendingIdleResets) - 1)
    {
      phase := Idle;
      pendingIdleResets := pendingIdleResets - 1;
    }

    /** The one-second interval, which runs while the interview is started. */
    method Tick()
      modifies this
      ensures Ui() == if old(started) then old(Ui()).(duration := old(duration) + 1) else old(Ui())
    {
      if started {
        duration := duration + 1;
      }
    }
  }
}
