/** The speech-capture hook: it starts a continuous recognizer, gathers its
    finalized results in a buffer and its interim results in the displayed
    transcript, and hands the buffered text to the caller's callback once,
    when the speaker stops (a 2-second silence timer), presses "send now",
    or the recognizer ends on its own.

    The recognizer is not modelled; the calls made on it are logged as
    `RecognizerCall`s, and its callbacks (`onresult`, `onerror`, `onend`)
    and the silence timer's expiry are events. The callback given to the hook
    is not called here: each operation returns the text it would be called
    with, if any. */
module Stt {
  import opened Wrappers
  import opened Text

  /** One recognition result: its best alternative's text and whether it is final. */
  datatype Segment = Segment(transcript: string, isFinal: bool)

  /** A call made on the recognizer: creating, configuring (continuous,
      interim results, language) and starting one, or stopping it. */
  datatype RecognizerCall = StartRecognition(lang: string) | StopRecognition

  /** The hook's state. `supported` and `lang` are fixed when the hook is
      created; `hasRecognizer` says whether a recognizer was ever started;
      `timerArmed` whether a silence timer is pending. */
  datatype CaptureState = CaptureState(
    supported: bool,
    lang: string,
    hasRecognizer: bool,
    finalBuffer: string,
    timerArmed: bool,
    manualStop: bool,
    transcript: string,
    isListening: bool,
    backend: seq<RecognizerCall>)

  /** The outcome of one operation: the new state and the text handed to
      the callback, if any. */
  datatype Step = Step(next: CaptureState, delivered: Option<string>)

  /** The hook's state when created. */
  function Initial(supported: bool, lang: string): CaptureState {
    CaptureState(supported, lang, false, [], false, false, [], false, [])
  }

  /** The texts of the final results, in order. */
  function FinalText(segs: seq<Segment>): string {
    if segs == [] then [] else (if segs[0].isFinal then segs[0].transcript else []) + FinalText(segs[1..])
  }

  /** The texts of the interim results, in order. */
  function InterimText(segs: seq<Segment>): string {
    if segs == [] then [] else (if segs[0].isFinal then [] else segs[0].transcript) + InterimText(segs[1..])
  }

  /** The results an event reports as new: those from `resultIndex` on. */
  function NewResults(results: seq<Segment>, resultIndex: nat): seq<Segment> {
    if resultIndex <= |results| then results[resultIndex..] else []
  }

  /** `start()`: nothing when recognition is unsupported; otherwise a new
      recognizer is started and the buffer, the stop flag and the displayed
      transcript are reset. A pending silence timer is left pending. */
  function Begin(s: CaptureState): (r: CaptureState)
    ensures !s.supported ==> r == s
    ensures s.supported ==> r.finalBuffer == [] && !r.manualStop && r.transcript == [] && r.isListening
    ensures s.supported ==> r.backend == s.backend + [StartRecognition(s.lang)]
    ensures r.timerArmed == s.timerArmed
  {
    if !s.supported then s
    else s.(hasRecognizer := true, finalBuffer := [], manualStop := false, transcript := [], isListening := true,
            backend := s.backend + [StartRecognition(s.lang)])
  }

  /** `submitTranscript()`: the timer is cleared, the stop flag set, the
      recognizer stopped, listening ends, and the buffer is emptied; its
      trimmed text goes to the callback when it is not empty. */
  function Submit(s: CaptureState): (r: Step)
    ensures !r.next.timerArmed && r.next.manualStop && !r.next.isListening && r.next.finalBuffer == []
    ensures r.delivered.Some? <==> !IsBlank(s.finalBuffer)
    ensures r.delivered.Some? ==> r.delivered.value == Trim(s.finalBuffer)
    ensures r.next.transcript == s.transcript
  {
    var result := Trim(s.finalBuffer);
    Step(s.(timerArmed := false, manualStop := true, isListening := false, finalBuffer := [],
            backend := s.backend + (if s.hasRecognizer then [StopRecognition] else [])),
         if result != [] then Some(result) else None)
  }

  /** What `submitTranscript()` returns to a caller of `stop()`. */
  function SubmitResult(s: CaptureState): (r: string)
    ensures r == [] <==> IsBlank(s.finalBuffer)
  {
    Trim(s.finalBuffer)
  }

  /** `onresult`: the new final texts join the buffer followed by one space,
      the transcript shows buffer and interim text trimmed, and the silence
      timer is re-armed when either holds something other than whitespace. */
  function OnResult(s: CaptureState, results: seq<Segment>, resultIndex: nat): (r: CaptureState)
    ensures var fin := FinalText(NewResults(results, resultIndex));
      r.finalBuffer == if fin == [] then s.finalBuffer else s.finalBuffer + fin + " "
    ensures r.transcript == Trim(r.finalBuffer + InterimText(NewResults(results, resultIndex)))
    ensures r.timerArmed == (s.timerArmed || !IsBlank(r.finalBuffer) || !IsBlank(InterimText(NewResults(results, resultIndex))))
    ensures r.manualStop == s.manualStop && r.isListening == s.isListening && r.backend == s.backend
  {
    var segs := NewResults(results, resultIndex);
    var fin := FinalText(segs);
    var interim := InterimText(segs);
    var buffer := if fin == [] then s.finalBuffer else s.finalBuffer + fin + " ";
    s.(finalBuffer := buffer, transcript := Trim(buffer + interim),
       timerArmed := s.timerArmed || !IsBlank(buffer) || !IsBlank(interim))
  }

  /** `onerror`: the timer is cleared and listening ends; the buffer is kept
      and nothing is delivered. */
  function OnError(s: CaptureState): (r: CaptureState)
    ensures !r.timerArmed && !r.isListening
    ensures r.finalBuffer == s.finalBuffer && r.manualStop == s.manualStop
  {
    s.(timerArmed := false, isListening := false)
  }

  /** `onend`: unless stopped by hand, a non-blank buffer is delivered and
      emptied; the timer is cleared and listening ends either way. */
  function OnEnd(s: CaptureState): (r: Step)
    ensures !r.next.timerArmed && !r.next.isListening && r.next.manualStop == s.manualStop
    ensures r.delivered.Some? <==> !s.manualStop && !IsBlank(s.finalBuffer)
    ensures r.delivered.Some? ==> r.delivered.value == Trim(s.finalBuffer) && r.next.finalBuffer == []
    ensures r.delivered.None? ==> r.next.finalBuffer == s.finalBuffer
  {
    var deliver := !s.manualStop && !IsBlank(s.finalBuffer);
    Step(s.(finalBuffer := if deliver then [] else s.finalBuffer, timerArmed := false, isListening := false),
         if deliver then Some(Trim(s.finalBuffer)) else None)
  }

  /** The silence timer expires: unless stopped by hand, the transcript is
      submitted. A timer that is not pending does not expire. */
  function Fire(s: CaptureState): (r: Step)
    ensures !s.timerArmed ==> r == Step(s, None)
    ensures s.timerArmed && s.manualStop ==> r == Step(s.(timerArmed := false), None)
    ensures s.timerArmed && !s.manualStop ==> r == Submit(s)
  {
    if !s.timerArmed then Step(s, None)
    else if s.manualStop then Step(s.(timerArmed := false), None)
    else Submit(s)
  }

  // ---------------------------------------------------------------------
  // Runs of events
  // ---------------------------------------------------------------------

  /** What can happen to the hook: a call of `start` or `stop`, a
      recognizer callback, or the silence timer's expiry. */
  datatype Input =
    | StartCall
    | StopCall
    | ResultEvent(results: seq<Segment>, resultIndex: nat)
    | ErrorEvent
    | EndEvent
    | TimerExpired

  function Apply(s: CaptureState, e: Input): Step {
    match e
    case StartCall => Step(Begin(s), None)
    case StopCall => Submit(s.(manualStop := true))
    case ResultEvent(results, i) => Step(OnResult(s, results, i), None)
    case ErrorEvent => Step(OnError(s), None)
    case EndEvent => OnEnd(s)
    case TimerExpired => Fire(s)
  }

  /** The final state and the texts delivered, in order, by a run of inputs. */
  datatype Trace = Trace(last: CaptureState, delivered: seq<string>)

  /** The texts a step hands to the callback: none or one. */
  function Out(step: Step): seq<string> {
    if step.delivered.Some? then [step.delivered.value] else []
  }

  function Run(s: CaptureState, es: seq<Input>): Trace
    decreases |es|
  {
    if es == [] then Trace(s, [])
    else
      var step := Apply(s, es[0]);
      var rest := Run(step.next, es[1..]);
      Trace(rest.last, Out(step) + rest.delivered)
  }

  lemma RunCons(s: CaptureState, e: Input, es: seq<Input>)
    ensures Run(s, [e] + es).delivered == Out(Apply(s, e)) + Run(Apply(s, e).next, es).delivered
  {
    assert ([e] + es)[0] == e && ([e] + es)[1..] == es;
  }

  /** Inputs in which nobody calls `start` or `stop`: only the recognizer
      and the timer act. */
  predicate Unattended(es: seq<Input>) {
    forall k :: 0 <= k < |es| ==> !es[k].StartCall? && !es[k].StopCall?
  }

  /** Once stopped by hand, the hook delivers nothing more until it is started
      again: neither a pending timer nor the recognizer's trailing results and
      `onend` can submit the text a second time. */
  lemma {:induction false} SilentAfterStop(s: CaptureState, es: seq<Input>)
    requires s.manualStop && Unattended(es)
    ensures Run(s, es).delivered == [] && Run(s, es).last.manualStop
    decreases |es|
  {
    if es != [] {
      var step := Apply(s, es[0]);
      assert step.delivered.None? && step.next.manualStop;
      SilentAfterStop(step.next, es[1..]);
    }
  }

  /** `stop()` followed by whatever the recognizer and the timer still do
      delivers exactly what `stop()` delivered. */
  lemma StopDeliversOnce(s: CaptureState, es: seq<Input>)
    requires Unattended(es)
    ensures var t := Run(s, [StopCall] + es);
      t.delivered == (if IsBlank(s.finalBuffer) then [] else [Trim(s.finalBuffer)])
  {
    var step := Apply(s, StopCall);
    assert ([StopCall] + es)[1..] == es;
    SilentAfterStop(step.next, es);
  }

  /** The recognizer's `onend` comes last: nothing follows it. */
  predicate EndsLast(es: seq<Input>) {
    forall k :: 0 <= k < |es| && es[k].EndEvent? ==> k == |es| - 1
  }

  /** Between two calls of `start` or `stop`, at most one text is delivered:
      the silence timer, and then `onend`, cannot both submit. */
  lemma {:induction false} DeliversAtMostOnce(s: CaptureState, es: seq<Input>)
    requires Unattended(es) && EndsLast(es)
    ensures |Run(s, es).delivered| <= 1
    decreases |es|
  {
    if es != [] {
      var step := Apply(s, es[0]);
      var rest := es[1..];
      assert Unattended(rest);
      if step.delivered.Some? {
        if es[0].EndEvent? {
          assert rest == [];
        } else {
          assert step.next.manualStop;
          SilentAfterStop(step.next, rest);
        }
      } else {
        assert EndsLast(rest);
        DeliversAtMostOnce(step.next, rest);
      }
    }
  }

  /** Interim results never reach the buffer: runs that differ only in their
      interim texts leave the same buffer. */
  lemma InterimNotBuffered(s: CaptureState, a: seq<Segment>, b: seq<Segment>, i: nat)
    requires FinalText(NewResults(a, i)) == FinalText(NewResults(b, i))
    ensures OnResult(s, a, i).finalBuffer == OnResult(s, b, i).finalBuffer
  {
  }

  /** A word spoken after `start`, followed by silence, is delivered once. */
  lemma SpokenWordDelivered(s: CaptureState, w: string)
    requires s.supported && w != [] && !IsSpace(w[0]) && !IsSpace(w[|w| - 1])
    ensures Run(s, [StartCall] + [ResultEvent([Segment(w, true)], 0)] + [TimerExpired]).delivered == [w]
  {
    var said := ResultEvent([Segment(w, true)], 0);
    var s1 := Begin(s);
    var s2 := OnResult(s1, [Segment(w, true)], 0);
    assert Run(s2, [TimerExpired]).delivered == [w] by {
      WordArmsTimer(s, w);
      FireSubmits(s2);
      RunCons(s2, TimerExpired, []);
      assert [TimerExpired] + [] == [TimerExpired];
    }
    assert Run(s1, [said] + [TimerExpired]).delivered == [w] by {
      assert Apply(s1, said) == Step(s2, None);
      RunCons(s1, said, [TimerExpired]);
    }
    assert Run(s, [StartCall] + ([said] + [TimerExpired])).delivered == [w] by {
      assert Apply(s, StartCall) == Step(s1, None);
      RunCons(s, StartCall, [said] + [TimerExpired]);
    }
    ConcatAssoc([StartCall], [said], [TimerExpired]);
  }

  /** A final result holding a word arms the timer with the word buffered. */
  lemma WordArmsTimer(s: CaptureState, w: string)
    requires s.supported && w != [] && !IsSpace(w[0]) && !IsSpace(w[|w| - 1])
    ensures var s2 := OnResult(Begin(s), [Segment(w, true)], 0);
      s2.timerArmed && !s2.manualStop && !IsBlank(s2.finalBuffer) && Trim(s2.finalBuffer) == w
  {
    var segs := [Segment(w, true)];
    assert segs[1..] == [];
    assert FinalText(segs) == w;
    assert NewResults(segs, 0) == segs;
    var s2 := OnResult(Begin(s), segs, 0);
    assert s2.finalBuffer == w + " ";
    TrimSpaceSuffix(w);
    assert s2.finalBuffer[0] == w[0];
  }

  /** An expiring timer, not stopped by hand, delivers the trimmed buffer. */
  lemma FireSubmits(s: CaptureState)
    requires s.timerArmed && !s.manualStop && !IsBlank(s.finalBuffer)
    ensures Out(Apply(s, TimerExpired)) == [Trim(s.finalBuffer)]
  {
  }

  /** A trimmed word followed by one space trims back to the word. */
  lemma TrimSpaceSuffix(w: string)
    requires w != [] && !IsSpace(w[0]) && !IsSpace(w[|w| - 1])
    ensures Trim(w + " ") == w
  {
    var t := w + " ";
    assert TrimStart(t) == t;
    assert t[..|t| - 1] == w;
    assert TrimEnd(t) == TrimEnd(w);
    TrimmedIsFixed(w);
  }

  /** The loop of `onresult`: the texts of the results from `resultIndex`
      on, final ones and interim ones each concatenated in order. */
  method CollectResults(results: seq<Segment>, resultIndex: nat) returns (final: string, interim: string)
    ensures final == FinalText(NewResults(results, resultIndex))
    ensures interim == InterimText(NewResults(results, resultIndex))
  {
    interim := [];
    final := [];
    var i := resultIndex;
    ghost var segs := NewResults(results, resultIndex);
    ghost var left := segs;
    while i < |results|
      invariant i >= resultIndex
      invariant i <= |results| ==> left == results[i..]
      invariant i > |results| ==> left == []
      invariant final + FinalText(left) == FinalText(segs)
      invariant interim + InterimText(left) == InterimText(segs)
      decreases |results| - i
    {
      var text := results[i].transcript;
      ghost var f := final;
      ghost var m := interim;
      if results[i].isFinal {
        final := final + text;
        ConcatAssoc(f, text, FinalText(left[1..]));
        ConcatAssoc(m, [], InterimText(left[1..]));
      } else {
        interim := interim + text;
        ConcatAssoc(f, [], FinalText(left[1..]));
        ConcatAssoc(m, text, InterimText(left[1..]));
      }
      assert left[1..] == results[i + 1..];
      left := left[1..];
      i := i + 1;
    }
    assert left == [] by {
      if i <= |results| {
        assert results[i..] == [];
      }
    }
  }

  // ---------------------------------------------------------------------
  // The hook
  // ---------------------------------------------------------------------

  class SpeechCapture {
    const supported: bool
    const lang: string
    var hasRecognizer: bool
    var finalBuffer: string
    var timerArmed: bool
    var manualStop: bool
    var transcript: string
    var isListening: bool
    var backend: seq<RecognizerCall>

    function State(): CaptureState
      reads this
    {
      CaptureState(supported, lang, hasRecognizer, finalBuffer, timerArmed, manualStop, transcript, isListening, backend)
    }

    constructor(supported: bool, lang: string)
      ensures State() == Initial(supported, lang)
    {
      this.supported := supported;
      this.lang := lang;
      hasRecognizer := false;
      finalBuffer := [];
      timerArmed := false;
      manualStop := false;
      transcript := [];
      isListening := false;
      backend := [];
    }

    /** `clearSilenceTimer()`. */
    method ClearSilenceTimer()
      modifies this
      ensures State() == old(State()).(timerArmed := false)
    {
      timerArmed := false;
    }

    method SubmitTranscript() returns (result: string, delivered: Option<string>)
      modifies this
      ensures Step(State(), delivered) == Submit(old(State()))
      ensures result == SubmitResult(old(State()))
    {
      // The buffer is read before the flags change; none of them touches it.
      result := Trim(finalBuffer);
      delivered := if result != [] then Some(result) else None;
      ClearSilenceTimer();
      manualStop := true;
      if hasRecognizer {
        backend := backend + [StopRecognition];
      }
      isListening := false;
      finalBuffer := [];
    }

    method Start()
      modifies this
      ensures State() == Begin(old(State()))
    {
      if !supported {
        return;
      }
      hasRecognizer := true;
      finalBuffer := [];
      manualStop := false;
      transcript := [];
      isListening := true;
      backend := backend + [StartRecognition(lang)];
    }

    /** `stop()`: the "send now" button. */
    method Stop() returns (result: string, delivered: Option<string>)
      modifies this
      ensures Step(State(), delivered) == Apply(old(State()), StopCall)
      ensures result == SubmitResult(old(State()))
    {
      manualStop := true;
      result, delivered := SubmitTranscript();
    }

    /** `onresult`, with the event's result list and `resultIndex`. */
    method HandleResult(results: seq<Segment>, resultIndex: nat)
      modifies this
      ensures State() == OnResult(old(State()), results, resultIndex)
    {
      ghost var s := State();
      var final, interim := CollectResults(results, resultIndex);
      var buffer := finalBuffer;
      if final != [] {
        buffer := buffer + final + " ";
      }
      var speech := !IsBlank(buffer) || !IsBlank(interim);
      finalBuffer := buffer;
      transcript := Trim(buffer + interim);
      if speech {
        ClearSilenceTimer();
        timerArmed := true;
      }
      assert State() == s.(finalBuffer := buffer, transcript := Trim(buffer + interim), timerArmed := s.timerArmed || speech);
    }

    method HandleError()
      modifies this
      ensures State() == OnError(old(State()))
    {
      ClearSilenceTimer();
      isListening := false;
    }

    method HandleEnd() returns (delivered: Option<string>)
      modifies this
      ensures Step(State(), delivered) == OnEnd(old(State()))
    {
      delivered := None;
      if !manualStop && !IsBlank(finalBuffer) {
        var result := Trim(finalBuffer);
        finalBuffer := [];
        delivered := Some(result);
      }
      ClearSilenceTimer();
      isListening := false;
    }

    /** The silence timer's callback. */
    method TimerFired() returns (delivered: Option<string>)
      modifies this
      ensures Step(State(), delivered) == Fire(old(State()))
    {
      if !timerArmed {
        return None;
      }
      timerArmed := false;
      delivered := None;
      if !manualStop {
        var _, d := SubmitTranscript();
        delivered := d;
      }
    }
  }
}
