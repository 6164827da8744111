# Voice interview: a verified model of the turn-taking pipeline

This project models the core of a browser voice-interview app in Dafny and
proves properties of the model. A candidate talks to an AI recruiter:

- speech is captured by a recognizer hook (`lib/useSTT.ts`);
- the transcript goes to a chat proxy (`app/api/chat/route.ts`), which
  forwards the conversation to a language-model provider and re-frames the
  provider's streamed `data:` lines into `{token}` / `[DONE]` / `{error}`
  events;
- the interview component (`components/VoiceInterview.tsx`) reads those
  events, shows the reply as it grows, appends it to the conversation and
  hands it to a speech-output hook (`lib/useTTS.ts`), which sanitises the
  markdown and speaks it in one utterance.

Modules, one per file:

| file | module | models |
|---|---|---|
| Wrappers.dfy | Wrappers | `Option`, and `??` as `GetOr` |
| Text.dfy | Text | `trim`, `\s`, `startsWith`, `split('\n')`, `toString`, `padStart` |
| Framing.dfy | Framing | the `data: <payload>\n\n` framing shared by proxy and client; JSON as parameters |
| ChatRoute.dfy | ChatRoute | `POST /api/chat` |
| ClientStream.dfy | ClientStream | the client's decoding of the event stream, as pure functions |
| Tts.dfy | Tts | `useTTS`: the sanitiser, voice choice, and class `SpeechOutput` |
| Stt.dfy | Stt | `useSTT`: the handlers as functions on a state, and class `SpeechCapture` |
| Interview.dfy | Interview | `VoiceInterview`: the phase machine and class `VoiceInterview` |
| Pipeline.dfy | Pipeline | proxy output read back by the client, end to end |

Style of the model:

- Each hook and the component are classes whose fields are the source's refs
  and state variables. Each method is proved against a pure function of the
  old state (`State() == Flushed(old(State()), …)`), and the properties are
  proved about those functions.
- The loops of the source stay loops:
  - the proxy's chunk and line loops (`ChatRoute.RelayChunks`, `ChatRoute.RelayChunk`);
  - the client's read loop and line loop (`Interview.VoiceInterview.ReadBody`, `Interview.VoiceInterview.ConsumeLines`);
  - the result loop of `onresult` (`Stt.CollectResults`).
- Browser and network effects are explicit:
  - calls on the speech synthesizer and the recognizer are appended to logs;
  - recognizer callbacks, utterance callbacks and timer expiries are methods
    called as events;
  - `fetch` outcomes and JSON parsing are parameters.

## Model

| member | source | states |
|---|---|---|
| Text.Trim | lib/useSTT.ts:66 | `trim()` is empty exactly for blank text, and otherwise starts and ends with a non-space character |
| Text.TrimStartSplits | lib/useSTT.ts:66 | leading trim removes a blank prefix and keeps the rest of the text unchanged |
| Text.TrimEndSplits | lib/useSTT.ts:66 | trailing trim removes a blank suffix and keeps the rest of the text unchanged |
| Text.Lines | components/VoiceInterview.tsx:100 | `split('\n')` is never empty, no piece holds a newline, and joining the pieces with newlines gives the text back |
| Text.LinesOfLine | components/VoiceInterview.tsx:100 | text without a newline splits into itself alone |
| Text.LinesAppend | components/VoiceInterview.tsx:100 | the pieces of `a + "\n" + b` are the pieces of `a` then the pieces of `b` |
| Text.Decimal | components/VoiceInterview.tsx:19 | `toString()` of a natural is a numeral without leading zero that reads back as the number |
| Text.PadStart | components/VoiceInterview.tsx:19 | `padStart(w, c)` reaches width `w` by putting `c` in front and keeps the original as its suffix |
| Text.PadZeros | components/VoiceInterview.tsx:20 | zero-padding a numeral keeps its value |
| Text.LeadingZeros | components/VoiceInterview.tsx:20 | leading zeros do not change the value of a numeral |
| Framing.Payload | app/api/chat/route.ts:66 | `line.slice(6).trim()` has no surrounding whitespace and is shorter than the line after its prefix |
| ChatRoute.BuildRequest | app/api/chat/route.ts:38-47 | the forwarded messages are the system prompt followed by the caller's messages in order; streaming on, 300 tokens at most |
| ChatRoute.UpstreamErrorMessage | app/api/chat/route.ts:50-53 | the error for a non-OK provider response is `Groq API error <status>: <body>`, the status as its decimal numeral; it starts with `Groq API error ` and ends with the provider's body text |
| ChatRoute.DataLines | app/api/chat/route.ts:63 | the filter keeps only lines starting with `data: `, and never adds one |
| ChatRoute.DataLinesAppend | app/api/chat/route.ts:63 | the filter works line by line: the data lines of `a + b` are those of `a` followed by those of `b` |
| ChatRoute.DataLineKept | app/api/chat/route.ts:63 | a data line is kept by the filter, in its place, wherever it stands |
| ChatRoute.PayloadEvents | app/api/chat/route.ts:66-79 | the marker is given exactly for `[DONE]`; an unparseable payload gives nothing; a parsed delta gives one token equal to its content when that is non-empty, and nothing otherwise |
| ChatRoute.LineEvents | app/api/chat/route.ts:63-79 | a line that is not a data line gives no event; a `[DONE]` data line gives the marker; a data line whose delta content is non-empty gives exactly that token; an unparseable payload or an absent or empty content gives nothing |
| ChatRoute.Post | app/api/chat/route.ts:17-99 | the handler's response: a 500 JSON error without the key; otherwise the built request, the relayed events with one error event for anything thrown, and a closed stream |
| ChatRoute.RelayChunks | app/api/chat/route.ts:58-81 | the read loop relays every chunk, in order, each split on its own |
| ChatRoute.RelayChunk | app/api/chat/route.ts:63-80 | one chunk's data lines each give the events of their payload, in order; `[DONE]` emits the marker and the loop continues |
| ChatRoute.ReframeLinesRelayable | app/api/chat/route.ts:65-80 | the line loop only emits non-empty tokens and markers |
| ChatRoute.ReframeChunksRelayable | app/api/chat/route.ts:58-81 | the read loop only emits non-empty tokens and markers |
| ChatRoute.RelayedShape | app/api/chat/route.ts:58-87 | no event carries an empty token, and an error event can only be the last one |
| ChatRoute.ReframeLinesAppend | app/api/chat/route.ts:65-80 | re-framing distributes over concatenation of lines |
| ChatRoute.DoneDoesNotStop | app/api/chat/route.ts:67-70 | a `[DONE]` line emits exactly the marker and the following lines are processed as before |
| ChatRoute.TokenRelayed | app/api/chat/route.ts:63-76 | a data line whose delta content `t` is non-empty is relayed as exactly one token event `t`, in its place among the chunk's events |
| ChatRoute.DoneLine | app/api/chat/route.ts:68 | `data: [DONE]` is a data line whose payload is the marker |
| ChatRoute.NonDataLineIgnored | app/api/chat/route.ts:63 | inserting a line without the `data: ` prefix anywhere changes nothing |
| ClientStream.Classify | components/VoiceInterview.tsx:103-115 | a line without `data: ` is skipped; the marker exactly for `[DONE]`; an unparseable payload is skipped; a non-empty `error` fails with it; otherwise a non-empty `token` is a token line; a payload with neither is skipped |
| ClientStream.DecodeLineShape | components/VoiceInterview.tsx:103-117 | a line makes at most one call, a flush exactly at `[DONE]`, no call when it fails, and stops the line loop exactly then |
| ClientStream.DecodeLinesSound | components/VoiceInterview.tsx:102-118 | a chunk enqueues only non-empty tokens, fails only with non-empty messages and flushes at most once, as its last call, and only without failure |
| ClientStream.DecodeChunksSound | components/VoiceInterview.tsx:95-119 | the whole body enqueues only non-empty tokens and fails only with non-empty messages |
| ClientStream.TokensTextAppend | components/VoiceInterview.tsx:110 | the accumulated text of consecutive calls is the concatenation of their texts |
| ClientStream.NonDataLinesIgnored | components/VoiceInterview.tsx:103 | a line without the `data: ` prefix changes nothing wherever it stands in a chunk |
| ClientStream.SkippedLineIgnored | components/VoiceInterview.tsx:102-118 | a line the reader skips changes nothing wherever it stands in a chunk |
| ClientStream.UnparseableLinesIgnored | components/VoiceInterview.tsx:106-115 | a data line whose payload fails to parse (a `SyntaxError`) changes nothing wherever it stands in a chunk |
| ClientStream.DoneEndsChunk | components/VoiceInterview.tsx:105 | a `[DONE]` line flushes and nothing after it in the chunk is read |
| ClientStream.DoneDoesNotEndStream | components/VoiceInterview.tsx:95-105 | after a chunk that ended at `[DONE]`, the following chunks are still read |
| ClientStream.EnqueuesOnly | lib/useTTS.ts:73-75 | without a flush, the client's calls only add the tokens, in order, to the speech buffer |
| ClientStream.ApplyCallsWellFormed | components/VoiceInterview.tsx:105-112 | the client's enqueues and flushes keep the speech hook's invariant |
| ClientStream.ApplyCallsAppend | components/VoiceInterview.tsx:102-118 | the effect of consecutive calls on the speech hook is their effects in order |
| ClientStream.NotOkMessage | components/VoiceInterview.tsx:85-88 | a non-OK response shows the body's `error`, or `HTTP <status>` with the status as its decimal numeral when the body has none; a body that is not JSON shows the `SyntaxError`'s message |
| ClientStream.ReplyOutcome | components/VoiceInterview.tsx:77-137 | a rejected or non-OK reply reaches no body and makes no call; a rejected fetch is silent exactly when it is an abort and otherwise fails with the caught message; a non-OK reply fails with its message; a body is reached and ends as `BodyOutcome` of its decoding |
| ClientStream.ReplySound | components/VoiceInterview.tsx:95-119 | whatever the reply, only non-empty tokens are enqueued, and a decoded error message is never empty |
| ClientStream.BodyOutcome | components/VoiceInterview.tsx:95-137 | a reached body makes the decoder's calls; an error payload's message wins; a body read to its end without one succeeds; a read that throws is silent exactly on an abort and otherwise fails with the caught message |
| Interview.FormatDurationShape | components/VoiceInterview.tsx:18-22 | below 6000 seconds the display is `MM:SS`, the fields reading back as `seconds / 60` and `seconds % 60` |
| Interview.TwoDigits | components/VoiceInterview.tsx:19-20 | a number below 100 padded to two digits is two digits reading back as the number |
| Interview.AbortCancelsAll | components/VoiceInterview.tsx:74 | after aborting the current controller no request is live and every reply still to come is dropped |
| Interview.AskedSends | components/VoiceInterview.tsx:56-75 | a blank transcript changes nothing; otherwise one user message with the untrimmed transcript is appended, phase thinking, streaming text cleared, and the new request carrying the history is the only live one |
| Interview.AnsweredShape | components/VoiceInterview.tsx:85-137 | a reply appends at most one message, the assistant's trimmed text, exactly when live, not aborted, without error and not blank; an error is shown and schedules idle; an abort changes no message |
| Interview.CompletedTurnAppends | components/VoiceInterview.tsx:95-129 | a body read to its end without an error payload and with non-blank tokens appends the trimmed reply as the assistant's message, clears the streaming text and stays speaking |
| Interview.AbortedFetchChangesNothing | components/VoiceInterview.tsx:131 | a fetch rejected by an abort leaves the state as it was: phase, conversation and error unchanged |
| Interview.RejectedTurnFails | components/VoiceInterview.tsx:131-136 | a fetch rejected by anything but an abort shows the caught message, enters the error phase, schedules idle and appends nothing |
| Interview.Shown | components/VoiceInterview.tsx:93-111 | reading the body changes only the phase and the streaming text |
| Interview.Ended | components/VoiceInterview.tsx:121-137 | how a reply ends never touches the requests or their controllers |
| Interview.Cleared | components/VoiceInterview.tsx:165-170 | the reset's setters: empty conversation, idle, no streaming text, not started, no error, zero duration; controllers untouched |
| Interview.EnabledMicActs | components/VoiceInterview.tsx:149-177 | an enabled mic button is ignored exactly in the error phase and in a speaking phase while no speech plays (ended or not yet started); disabling implies thinking or speech playing |
| Interview.Settled | components/VoiceInterview.tsx:38-42 | the speaking effect: a speaking phase while no speech plays becomes idle; nothing else changes |
| Interview.MidStreamSettles | components/VoiceInterview.tsx:38-42 | once the body is reached and before the flush starts speech, the speaking effect turns the phase idle while the streamed text is still shown, and the mic is enabled and would start listening |
| Interview.VoiceInterview.constructor | components/VoiceInterview.tsx:25-36 | an empty, idle, unstarted interview with fresh hooks |
| Interview.VoiceInterview.Abort | components/VoiceInterview.tsx:74 | aborts the current controller and leaves no live request |
| Interview.VoiceInterview.HandleFinalTranscript | components/VoiceInterview.tsx:56-75 | the synchronous part of a turn, as `Asked`; a non-blank transcript leaves exactly the new request live |
| Interview.VoiceInterview.Fail | components/VoiceInterview.tsx:133-136 | shows the message, enters the error phase and schedules the return to idle |
| Interview.VoiceInterview.ConsumeChunk | components/VoiceInterview.tsx:99-118 | one chunk: the text grows by the decoded tokens, the speech hook receives the decoded calls, and the shown text is the accumulated text once it grew |
| Interview.VoiceInterview.ConsumeLines | components/VoiceInterview.tsx:102-118 | the line loop, against `DecodeLines`, keeping the speech hook's invariant |
| Interview.VoiceInterview.ConsumeLine | components/VoiceInterview.tsx:103-117 | one line: its call on the speech hook, its failure, whether the loop stops |
| Interview.VoiceInterview.ReceiveReply | components/VoiceInterview.tsx:77-137 | the reply to an aborted request is dropped; otherwise the state is `Answered` and the speech hook receives the decoded calls |
| Interview.VoiceInterview.ReceiveBody | components/VoiceInterview.tsx:90-137 | a reached body: speaking, the tokens shown and enqueued, then the end of the reply |
| Interview.VoiceInterview.Finish | components/VoiceInterview.tsx:121-137 | after the loop: the error shown, or the trimmed text appended when not blank |
| Interview.VoiceInterview.ReadBody | components/VoiceInterview.tsx:95-119 | the read loop, against `DecodeChunks`: accumulated text, failure and the speech hook's state |
| Interview.ListeningDeadEnd | components/VoiceInterview.tsx:149-153 | as written, a stop while listening with nothing buffered changes nothing in the component and leaves the capture stopped and empty, so every later press does the same |
| Interview.StopAsked | components/VoiceInterview.tsx:150-151 | corrected listening branch: a blank text returns to idle with the conversation unchanged, any other text is asked; the listening phase is always left |
| Interview.VoiceInterview.HandleMicToggleAsWritten | components/VoiceInterview.tsx:149-158 | from listening the capture is stopped and its text asked, and a stop with nothing buffered leaves the phase at listening; from idle listening starts; otherwise nothing changes |
| Interview.VoiceInterview.HandleMicToggle | components/VoiceInterview.tsx:149-158 | corrected toggle: from listening the capture is stopped and the phase always leaves listening (thinking with the text asked, or idle); from idle listening starts; otherwise nothing changes |
| Interview.VoiceInterview.StartInterview | components/VoiceInterview.tsx:142-147 | unlocks speech, marks the interview started, and sends the opening prompt as the only live request |
| Interview.VoiceInterview.Clear | components/VoiceInterview.tsx:165-170 | the reset's state setters, as `Cleared` (streaming text emptied among them) |
| Interview.VoiceInterview.ResetAsWritten | components/VoiceInterview.tsx:160-171 | the reset in the source's order; a request survives it exactly when the capture handed over text |
| Interview.VoiceInterview.Reset | components/VoiceInterview.tsx:160-171 | the reset with the capture stopped before the abort: no request survives |
| Interview.VoiceInterview.ReplyAfterResetAsWritten | components/VoiceInterview.tsx:160-171 | after the reset as written, a successful reply lands in the cleared conversation |
| Interview.VoiceInterview.ReplyAfterReset | components/VoiceInterview.tsx:160-171 | after the corrected reset, no reply changes the empty, idle conversation |
| Interview.VoiceInterview.SettleSpeaking | components/VoiceInterview.tsx:38-42 | as `Settled`: a speaking phase while no speech plays (ended or not yet started) becomes idle; nothing else changes |
| Interview.VoiceInterview.IdleTimerFired | components/VoiceInterview.tsx:136 | the error delay expires: the phase becomes idle |
| Interview.VoiceInterview.Tick | components/VoiceInterview.tsx:48-54 | the duration counts seconds while the interview is started |
| Stt.Begin | lib/useSTT.ts:74-87 | unsupported: no change; otherwise buffer, stop flag and transcript reset, listening, a recognizer started with the language |
| Stt.Submit | lib/useSTT.ts:61-72 | timer cleared, stop flag set, listening off, buffer emptied; the trimmed buffer is delivered exactly when not blank |
| Stt.SubmitResult | lib/useSTT.ts:66-71 | `stop()` returns the empty string exactly when the buffer is blank |
| Stt.OnResult | lib/useSTT.ts:89-119 | new final texts join the buffer with one space; transcript is `trim(buffer + interim)`; the timer is armed when either is non-blank |
| Stt.OnError | lib/useSTT.ts:121-127 | timer cleared, listening off, buffer kept, nothing delivered |
| Stt.OnEnd | lib/useSTT.ts:129-139 | delivers the trimmed buffer exactly when not stopped by hand and not blank; timer cleared, listening off |
| Stt.Fire | lib/useSTT.ts:112-117 | a pending timer submits unless stopped by hand; one not pending does nothing |
| Stt.SilentAfterStop | lib/useSTT.ts:129-139 | once stopped by hand, no recognizer event or timer delivers anything |
| Stt.StopDeliversOnce | lib/useSTT.ts:145-148 | `stop()` and everything after it up to the next call deliver exactly what `stop()` delivered |
| Stt.DeliversAtMostOnce | lib/useSTT.ts:110-139 | between two calls of `start`/`stop`, at most one text is delivered, provided `onend` is the recognizer's last event (`EndsLast`): `onend` delivers without setting the stop flag, so a later result could deliver again |
| Stt.InterimNotBuffered | lib/useSTT.ts:93-104 | interim results never reach the buffer |
| Stt.SpokenWordDelivered | lib/useSTT.ts:74-117 | a word spoken after `start`, then silence, is delivered once, as itself |
| Stt.WordArmsTimer | lib/useSTT.ts:102-118 | a final result holding a word buffers it and arms the timer |
| Stt.FireSubmits | lib/useSTT.ts:112-117 | an expiring timer not stopped by hand delivers the trimmed buffer |
| Stt.TrimSpaceSuffix | lib/useSTT.ts:103 | a trimmed word followed by the separator space trims back to the word |
| Stt.CollectResults | lib/useSTT.ts:93-100 | the result loop concatenates the final and the interim texts from `resultIndex` on |
| Stt.SpeechCapture.constructor | lib/useSTT.ts:40-46 | the hook's initial state |
| Stt.SpeechCapture.ClearSilenceTimer | lib/useSTT.ts:53-58 | only the timer is cleared |
| Stt.SpeechCapture.SubmitTranscript | lib/useSTT.ts:61-72 | as `Submit`, returning `SubmitResult` |
| Stt.SpeechCapture.Start | lib/useSTT.ts:74-87 | as `Begin` |
| Stt.SpeechCapture.Stop | lib/useSTT.ts:145-148 | sets the stop flag, then submits |
| Stt.SpeechCapture.HandleResult | lib/useSTT.ts:89-119 | as `OnResult` |
| Stt.SpeechCapture.HandleError | lib/useSTT.ts:121-127 | as `OnError` |
| Stt.SpeechCapture.HandleEnd | lib/useSTT.ts:129-139 | as `OnEnd` |
| Stt.SpeechCapture.TimerFired | lib/useSTT.ts:112-117 | as `Fire` |
| Tts.Closing | lib/useTTS.ts:41-43 | a non-greedy `(.*?)d` closes at the first occurrence of `d` with no line terminator before it, and at none when there is no such occurrence |
| Tts.StripDelimited | lib/useTTS.ts:41-43 | the replacement never lengthens the text and leaves text without the delimiter alone |
| Tts.HashRun | lib/useTTS.ts:44 | the run of `#` at the head, counted up to six |
| Tts.StripHeadings | lib/useTTS.ts:44 | deleting heading marks never lengthens the text and leaves text without `#` alone |
| Tts.HeadingMarkDropped | lib/useTTS.ts:44 | one to six `#` followed by a whitespace character are deleted together with that character |
| Tts.Clean | lib/useTTS.ts:40-45 | the sanitised text is no longer than the input and is trimmed |
| Tts.RewrittenAllUntouched | lib/useTTS.ts:40-44 | replacements whose markers do not occur leave the text alone |
| Tts.CleanPlain | lib/useTTS.ts:40-45 | text without `*`, backquote or `#` is only trimmed |
| Tts.StripWrapped | lib/useTTS.ts:41-43 | a delimiter pair on one line is replaced by what it encloses |
| Tts.CleanUnwrapsBold | lib/useTTS.ts:41-45 | `**x**` is spoken as `x` trimmed |
| Tts.CleanBlank | lib/useTTS.ts:37-47 | blank text cleans to nothing |
| Tts.FindLang | lib/useTTS.ts:60 | the first voice with the exact language, or none when no voice has it |
| Tts.FindLangPrefix | lib/useTTS.ts:61 | the first voice whose language starts with the prefix, or none |
| Tts.ChooseVoice | lib/useTTS.ts:58-63 | the first voice with the exact language (`FindLang`), else the first French one (`FindLangPrefix`), else `voices[0]`; none exactly without voices |
| Tts.SpeakCalls | lib/useTTS.ts:36-70 | nothing when the text cleans to nothing; otherwise a cancel, then one audible utterance of the cleaned text with the language and chosen voice |
| Tts.Enqueued | lib/useTTS.ts:73-75 | the chunk is appended to the buffer and nothing is spoken |
| Tts.Flushed | lib/useTTS.ts:78-82 | the buffer is emptied and the calls of `FlushCalls` on it are appended to the log; nothing else changes |
| Tts.FlushCalls | lib/useTTS.ts:79-81 | a blank buffer speaks nothing; any other buffer is spoken as `speak(trim(buffer))` (`SpeakCalls`) |
| Tts.FlushSpeaks | lib/useTTS.ts:78-82 | a flush whose trimmed buffer cleans to something appends one cancel and one audible utterance of the cleaned text, in the hook's language with the chosen voice |
| Tts.Stopped | lib/useTTS.ts:84-89 | cancel, buffer emptied, not speaking; the unlocked flag kept |
| Tts.Unlocked | lib/useTTS.ts:28-34 | the first call plays the silent utterance; a later one changes nothing; buffer and speaking flag kept |
| Tts.CancelThenSpeakAt | lib/useTTS.ts:49-69 | every audible utterance in the log follows a cancel and carries non-empty trimmed text |
| Tts.CancelThenSpeakAppend | lib/useTTS.ts:49-69 | appending calls that start with a cancel or a silent utterance keeps cancel-then-speak |
| Tts.MutedCountAppend | lib/useTTS.ts:28-34 | silent utterances of consecutive logs add up |
| Tts.InitialWellFormed | lib/useTTS.ts:15-18 | the initial state satisfies the invariant |
| Tts.SpeakCallsWellFormed | lib/useTTS.ts:47-69 | what `speak` adds keeps cancel-then-speak, starts with a cancel, plays nothing silent |
| Tts.FlushedWellFormed | lib/useTTS.ts:78-82 | `flush` keeps the invariant |
| Tts.StoppedWellFormed | lib/useTTS.ts:84-89 | `stop` keeps the invariant |
| Tts.UnlockedWellFormed | lib/useTTS.ts:28-34 | `unlock` keeps the invariant |
| Tts.FlushTwice | lib/useTTS.ts:78-82 | a second flush in a row changes nothing |
| Tts.UnlockOnce | lib/useTTS.ts:28-34 | `unlock` is idempotent and plays exactly one silent utterance |
| Tts.SpeechOutput.constructor | lib/useTTS.ts:14-18 | empty buffer, not speaking, locked, nothing played |
| Tts.SpeechOutput.Unlock | lib/useTTS.ts:28-34 | as `Unlocked`, keeping the invariant |
| Tts.SpeechOutput.SpeakText | lib/useTTS.ts:36-70 | appends `SpeakCalls` to the log and changes nothing else |
| Tts.SpeechOutput.Enqueue | lib/useTTS.ts:73-75 | as `Enqueued`, keeping the invariant |
| Tts.SpeechOutput.Flush | lib/useTTS.ts:78-82 | as `Flushed`, keeping the invariant |
| Tts.SpeechOutput.Stop | lib/useTTS.ts:84-89 | as `Stopped`, keeping the invariant |
| Tts.SpeechOutput.UtteranceStarted | lib/useTTS.ts:65 | speaking from the utterance's start |
| Tts.SpeechOutput.UtteranceEnded | lib/useTTS.ts:66-67 | not speaking after the utterance's end or error |
| Pipeline.EventLineSingle | app/api/chat/route.ts:75 | the line of a serialised event holds no newline |
| Pipeline.FrameSplits | app/api/chat/route.ts:75 | a frame at the head of some text splits into the event's line, a blank line, and the pieces of the text |
| Pipeline.EncodeLines | components/VoiceInterview.tsx:100 | splitting the proxy's output gives each event's line followed by a blank line |
| Pipeline.ClassifyEventLine | components/VoiceInterview.tsx:103-113 | the client reads a serialised event back as the marker, its error or its token |
| Pipeline.FrameStep | components/VoiceInterview.tsx:102-118 | a frame's line acts on its own, its blank line is skipped, and the loop goes on unless the line stopped it |
| Pipeline.DecodeFrameLines | components/VoiceInterview.tsx:102-118 | decoding encoded events is reading the events directly (`ClientView`) |
| Pipeline.DecodeEncoded | components/VoiceInterview.tsx:100-118 | round trip: a chunk holding whole frames decodes as `ClientView` of its events |
| Pipeline.DecodeDelivered | components/VoiceInterview.tsx:95-119 | whatever grouping of whole frames the network makes, the client's loops produce `GroupsView` |
| Pipeline.ClientViewOne | components/VoiceInterview.tsx:105-113 | what a chunk holding one event does |
| Pipeline.OnePerChunkView | components/VoiceInterview.tsx:95-119 | events one per chunk with errors last: the client accumulates exactly the proxy's token text and fails exactly on a final non-empty error |
| Pipeline.DoneHidesRestOfChunk | components/VoiceInterview.tsx:105 | tokens written after `[DONE]` in the same chunk are neither shown nor spoken |
| Pipeline.RelayedEnds | app/api/chat/route.ts:82-87 | for a provider stream, an error event is last and is the one for what the read threw |
| Pipeline.StreamedTurn | app/api/chat/route.ts:58-87 | end to end: the reply text is the proxy's token text, and the client fails only when the provider's body threw |
| Pipeline.MissingKeyTurn | app/api/chat/route.ts:20-25 | without the key: 500 with the JSON error, which the client shows without reaching a body |

## Left out

- Rendering is not modelled: JSX, styles, the landing screen, the message bubbles, the status bar and the waveform.
- Browser speech APIs are not modelled. The recognizer and the synthesizer are call logs, and their callbacks are events. `getVoices()` is the `voices` parameter.
- The recognizer's `onerror` logging (`console.error`) has no effect on state and is left out.
- `isSupported` is fixed when the capture hook is created, instead of being set by a mount effect.
- `typeof window === 'undefined'` (server-side rendering) is assumed false. The early returns it guards in `unlock` and `speak` are left out.
- Network plumbing is not modelled: `fetch`, `ReadableStream`, `TextEncoder` and `TextDecoder`. Bodies are given sequences of decoded text chunks. A character cut across two byte chunks is not modelled.
- JSON is not implemented. `JSON.parse` and `JSON.stringify` are function parameters. Only the fields the code reads are modelled: `error`, `token` and `choices[0].delta.content`. A non-string field value is not modelled.
- A payload or error body that parses to JSON `null` is not modelled. Reading `.error` on it throws a `TypeError`, which the client's catch shows as an error. The proxy never emits `null`, so only a foreign server could send one.
- The caller's request body (`req.json()`) is the `messages` parameter. A body that fails to parse is not modelled.
- `temperature: 0.7` is a floating-point setting that is passed through, and is not modelled.
- Wall-clock time is not modelled. The 2-second silence timer is an armed flag. The 4-second error delay is a count of pending returns to idle. The one-second interval is a `Tick` event.
- Message ids, timestamps and `crypto.randomUUID` are opaque and not modelled. A message is its role and content.
- React scheduling is not modelled. Handlers run one at a time, over the current state, with setters applied in order. Stale closures over `messages` and interleaving of overlapping turns are not modelled.
- Interview.VoiceInterview.ReceiveReply: applies a reply in one step, so the speaking effect cannot run between two reads of the body. In the source it can: speech starts only at the flush, so after `setPhase('speaking')` the effect usually turns the phase idle while tokens still stream, and the mic is then enabled. `Interview.MidStreamSettles` states what that step does. The speaking phase in `ReceiveReply`, `ReceiveBody` and `Interview.CompletedTurnAppends` is the handler's own last `setPhase`, not necessarily the phase on screen.
- `scrollIntoView` and the key's value are not modelled. The key is a present/absent flag.
- The system prompt is kept only as its first sentence; its wording is opaque to every property.
- Interview.FormatDurationShape: states the `MM:SS` shape only below 6000 seconds. At 100 minutes or more the minute field has three digits.
- Pipeline.DecodeDelivered and Pipeline.OnePerChunkView: assume that the network delivers whole frames in each chunk. The client does not buffer a frame cut across two chunks, so the model does not say what a cut frame decodes to.
- Pipeline.StreamedTurn: assumes that the serialiser and parser are faithful (`Framing.Faithful`). This covers the serialised text: it stays on one line, is trimmed, differs from `[DONE]` and parses back to its fields.
- Interview.VoiceInterview.HandleMicToggleAsWritten and Interview.VoiceInterview.HandleMicToggle: the button's `disabled` rule is a separate function (`MicDisabled`), as in the source. The handler itself does not check whether speech is playing.

Where the code and the design description differ, the model follows the code:

- `[DONE]` ends only the line loop of its chunk. The client's read loop continues until the body is done (`ClientStream.DoneDoesNotEndStream`).
- The silence timer is re-armed only when the buffer or the interim text is non-blank, not on every recognition update (`Stt.OnResult`).
- "Send now" is not refused by the handler while speech plays. Only the button is disabled.

## Findings

| source | as written | input that shows it | evidently intended | confidence | as-written member | corrected member |
|---|---|---|---|---|---|---|
| components/VoiceInterview.tsx:160-171 | `resetInterview` aborts the current controller before calling `stt.stop()`. `stt.stop()` hands a non-blank buffer to `handleFinalTranscript`, which sends a new request that nothing aborts. | Reset while listening, with words buffered. The new request's successful reply is appended to the cleared conversation. | Stop the capture first, then abort, so that no request survives the reset and the conversation stays empty | high; not executed | Interview.VoiceInterview.ReplyAfterResetAsWritten | Interview.VoiceInterview.ReplyAfterReset |
| components/VoiceInterview.tsx:149-153 | From the listening phase, `handleMicToggle` only calls `stt.stop()`. When nothing is buffered, `stop()` returns `''` and does not call `handleFinalTranscript`, so no one changes the phase (`Interview.ListeningDeadEnd`). | Start listening and say nothing, or let the recognizer end with `no-speech`, then press the mic. The phase stays listening with the recognizer stopped, and every later press does the same; only a reset leaves it. | A stop that hands over no text returns to idle | high; not executed | Interview.VoiceInterview.HandleMicToggleAsWritten | Interview.VoiceInterview.HandleMicToggle |
