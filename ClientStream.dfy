/** The browser side of a chat turn, as pure functions: how the interview
    component reads the proxy's event stream (one decoded text chunk at a
    time, each split on its own), which calls it makes on the speech-output
    hook while doing so, and how the whole reply ends: with the accumulated
    text, with an error message, or silently when the request was aborted. */
module ClientStream {
  import opened Wrappers
  import opened Text
  import opened Framing
  import Tts

  /** A call made on the speech-output hook while reading the stream. */
  datatype TtsCall = Enqueue(token: string) | Flush

  /** What reading some lines produced: the hook calls in order and, when
      reading stopped on an `{error}` payload, its message. */
  datatype Decoded = Decoded(calls: seq<TtsCall>, failure: Option<string>)

  /** Reading `a`, then `b` unless `a` stopped on an error. */
  function Then(a: Decoded, b: Decoded): Decoded {
    if a.failure.Some? then a else Decoded(a.calls + b.calls, b.failure)
  }

  /** The text the reply accumulates: the enqueued tokens, in order. */
  function TokensText(calls: seq<TtsCall>): string {
    if calls == [] then [] else (if calls[0].Enqueue? then calls[0].token else []) + TokensText(calls[1..])
  }

  /** Every enqueued token is non-empty and an error message is never empty. */
  predicate Sound(d: Decoded) {
    (forall k :: 0 <= k < |d.calls| && d.calls[k].Enqueue? ==> d.calls[k].token != [])
    && (d.failure.Some? ==> d.failure.value != [])
  }

  /** Within one chunk, a flush can only be the last call, and only when no
      error stopped the reading. */
  predicate FlushLast(d: Decoded) {
    forall k :: 0 <= k < |d.calls| && d.calls[k].Flush? ==> k == |d.calls| - 1 && d.failure.None?
  }

  /** Reading stopped by an error stays stopped; otherwise the calls join. */
  lemma ThenStep(calls: seq<TtsCall>, d: Decoded, r: Decoded)
    ensures Then(Decoded(calls, None), Then(d, r)) ==
      if d.failure.Some? then Decoded(calls + d.calls, d.failure) else Then(Decoded(calls + d.calls, None), r)
  {
    ConcatAssoc(calls, d.calls, r.calls);
  }

  /** What one line of a chunk is to the reader. */
  datatype LineKind = Skip | DoneLine | FailLine(error: string) | TokenLine(token: string)

  /** Lines without the `data: ` prefix, unparseable payloads and payloads
      with neither field are skipped; a `[DONE]` payload, a payload with an
      `error` and one with a `token` are acted on. */
  function Classify(line: string, parse: string -> ClientPayload): (k: LineKind)
    ensures k.FailLine? ==> k.error != []
    ensures k.TokenLine? ==> k.token != []
    ensures !IsDataLine(line) ==> k == Skip
    ensures IsDataLine(line) ==> (k == DoneLine <==> Payload(line) == DoneMarker)
    ensures IsDataLine(line) && Payload(line) != DoneMarker ==>
      var p := parse(Payload(line));
      && (p.Unparseable? ==> k == Skip)
      && (p.Fields? && p.error != [] ==> k == FailLine(p.error))
      && (p.Fields? && p.error == [] && p.token != [] ==> k == TokenLine(p.token))
      && (p.Fields? && p.error == [] && p.token == [] ==> k == Skip)
  {
    if !IsDataLine(line) then Skip
    else
      var data := Payload(line);
      if data == DoneMarker then DoneLine
      else
        match parse(data)
        case Unparseable => Skip
        case Fields(error, token) =>
          if error != [] then FailLine(error)
          else if token != [] then TokenLine(token)
          else Skip
  }

  /** Whether reading stops at this line: a `[DONE]` payload or one with an `error`. */
  predicate Stops(line: string, parse: string -> ClientPayload) {
    Classify(line, parse).DoneLine? || Classify(line, parse).FailLine?
  }

  /** The calls one line makes and the failure it reports. */
  function DecodeLine(line: string, parse: string -> ClientPayload): (r: Decoded)
    ensures |r.calls| <= 1
  {
    match Classify(line, parse)
    case Skip => Decoded([], None)
    case DoneLine => Decoded([Flush], None)
    case FailLine(error) => Decoded([], Some(error))
    case TokenLine(token) => Decoded([Enqueue(token)], None)
  }

  /** The inner loop over one chunk's lines: line by line, until a line
      stops the reading. */
  function DecodeLines(lines: seq<string>, parse: string -> ClientPayload): Decoded {
    if lines == [] then Decoded([], None)
    else
      var d := DecodeLine(lines[0], parse);
      if Stops(lines[0], parse) then d else Then(d, DecodeLines(lines[1..], parse))
  }

  /** The outer loop over the chunks the body delivers, each split on `\n`
      independently; a `[DONE]` ends only its own chunk. */
  function DecodeChunks(chunks: seq<string>, parse: string -> ClientPayload): Decoded {
    if chunks == [] then Decoded([], None)
    else Then(DecodeLines(Lines(chunks[0]), parse), DecodeChunks(chunks[1..], parse))
  }

  /** One turn of the line loop, seen from the calls made so far: a line
      that stops the reading ends it with its own calls and failure; any
      other line adds its calls and the reading goes on with the next line. */
  lemma LinesStep(lines: seq<string>, j: nat, parse: string -> ClientPayload, calls: seq<TtsCall>)
    requires j < |lines|
    ensures var d := DecodeLine(lines[j], parse);
      Then(Decoded(calls, None), DecodeLines(lines[j..], parse)) ==
        if Stops(lines[j], parse) then Decoded(calls + d.calls, d.failure)
        else Then(Decoded(calls + d.calls, None), DecodeLines(lines[j + 1..], parse))
  {
    var d := DecodeLine(lines[j], parse);
    var r := DecodeLines(lines[j + 1..], parse);
    assert lines[j..][0] == lines[j] && lines[j..][1..] == lines[j + 1..];
    DecodeLineShape(lines[j], parse);
    ThenStep(calls, d, r);
  }

  /** One turn of the chunk loop, seen from the calls made so far. */
  lemma ChunksStep(chunks: seq<string>, i: nat, parse: string -> ClientPayload, calls: seq<TtsCall>)
    requires i < |chunks|
    ensures var d := DecodeLines(Lines(chunks[i]), parse);
      Then(Decoded(calls, None), DecodeChunks(chunks[i..], parse)) ==
        if d.failure.Some? then Decoded(calls + d.calls, d.failure)
        else Then(Decoded(calls + d.calls, None), DecodeChunks(chunks[i + 1..], parse))
  {
    var d := DecodeLines(Lines(chunks[i]), parse);
    var r := DecodeChunks(chunks[i + 1..], parse);
    assert chunks[i..][0] == chunks[i] && chunks[i..][1..] == chunks[i + 1..];
    ThenStep(calls, d, r);
  }

  /** One line makes at most one call: a flush exactly when it is `[DONE]`,
      nothing when it fails, and it stops the reading exactly then. */
  lemma DecodeLineShape(line: string, parse: string -> ClientPayload)
    ensures var r := DecodeLine(line, parse);
      && Sound(r)
      && (r.failure.Some? ==> r.calls == [])
      && ((|r.calls| == 1 && r.calls[0].Flush?) || r.failure.Some? <==> Stops(line, parse))
  {
  }

  /** Reading a chunk enqueues only non-empty tokens, reports only
      non-empty errors, and flushes at most once, as its last call. */
  lemma {:induction false} DecodeLinesSound(lines: seq<string>, parse: string -> ClientPayload)
    ensures Sound(DecodeLines(lines, parse)) && FlushLast(DecodeLines(lines, parse))
  {
    if lines != [] {
      var d := DecodeLine(lines[0], parse);
      DecodeLineShape(lines[0], parse);
      if !Stops(lines[0], parse) {
        var rest := DecodeLines(lines[1..], parse);
        DecodeLinesSound(lines[1..], parse);
        var r := Then(d, rest);
        assert forall k :: |d.calls| <= k < |r.calls| ==> r.calls[k] == rest.calls[k - |d.calls|];
      }
    }
  }

  /** Reading the whole body enqueues only non-empty tokens and reports
      only non-empty errors. */
  lemma {:induction false} DecodeChunksSound(chunks: seq<string>, parse: string -> ClientPayload)
    ensures Sound(DecodeChunks(chunks, parse))
  {
    if chunks != [] {
      var first := DecodeLines(Lines(chunks[0]), parse);
      var rest := DecodeChunks(chunks[1..], parse);
      DecodeLinesSound(Lines(chunks[0]), parse);
      DecodeChunksSound(chunks[1..], parse);
      var r := Then(first, rest);
      assert r.failure.None? ==> forall k :: |first.calls| <= k < |r.calls| ==> r.calls[k] == rest.calls[k - |first.calls|];
    }
  }

  lemma {:induction false} TokensTextAppend(a: seq<TtsCall>, b: seq<TtsCall>)
    ensures TokensText(a + b) == TokensText(a) + TokensText(b)
  {
    if a == [] {
      assert a + b == b;
    } else {
      assert (a + b)[1..] == a[1..] + b;
      TokensTextAppend(a[1..], b);
      ConcatAssoc(if a[0].Enqueue? then a[0].token else [], TokensText(a[1..]), TokensText(b));
    }
  }

  /** A skipped line changes nothing, wherever it is in a chunk. */
  lemma {:induction false} SkippedLineIgnored(a: seq<string>, line: string, b: seq<string>, parse: string -> ClientPayload)
    requires Classify(line, parse) == Skip
    ensures DecodeLines(a + [line] + b, parse) == DecodeLines(a + b, parse)
  {
    if a == [] {
      assert a + [line] + b == [line] + b;
      assert ([line] + b)[1..] == b;
      assert a + b == b;
    } else {
      assert (a + [line] + b)[0] == a[0] && (a + b)[0] == a[0];
      assert (a + [line] + b)[1..] == a[1..] + [line] + b;
      assert (a + b)[1..] == a[1..] + b;
      SkippedLineIgnored(a[1..], line, b, parse);
    }
  }

  /** Lines without the `data: ` prefix change nothing, wherever they are. */
  lemma NonDataLinesIgnored(a: seq<string>, line: string, b: seq<string>, parse: string -> ClientPayload)
    requires !IsDataLine(line)
    ensures DecodeLines(a + [line] + b, parse) == DecodeLines(a + b, parse)
  {
    SkippedLineIgnored(a, line, b, parse);
  }

  /** A data line whose payload `JSON.parse` rejects (a `SyntaxError`) is
      skipped: it changes nothing, wherever it is. */
  lemma UnparseableLinesIgnored(a: seq<string>, line: string, b: seq<string>, parse: string -> ClientPayload)
    requires IsDataLine(line) && Payload(line) != DoneMarker && parse(Payload(line)).Unparseable?
    ensures DecodeLines(a + [line] + b, parse) == DecodeLines(a + b, parse)
  {
    SkippedLineIgnored(a, line, b, parse);
  }

  /** A `[DONE]` line ends its chunk: what follows it in the chunk is never read. */
  lemma DoneEndsChunk(line: string, after: seq<string>, parse: string -> ClientPayload)
    requires IsDataLine(line) && Payload(line) == DoneMarker
    ensures DecodeLines([line] + after, parse) == Decoded([Flush], None)
  {
    assert ([line] + after)[0] == line;
  }

  /** ... but not the stream: the chunks after it are read as before. */
  lemma DoneDoesNotEndStream(chunk: string, chunks: seq<string>, parse: string -> ClientPayload)
    requires DecodeLines(Lines(chunk), parse) == Decoded([Flush], None)
    ensures DecodeChunks([chunk] + chunks, parse).calls == [Flush] + DecodeChunks(chunks, parse).calls
  {
    assert ([chunk] + chunks)[0] == chunk && ([chunk] + chunks)[1..] == chunks;
  }

  // ---------------------------------------------------------------------
  // The effect on the speech-output hook
  // ---------------------------------------------------------------------

  /** The hook's state after the given calls, `flush` speaking with `lang`
      and the listed voices. */
  function ApplyCalls(s: Tts.OutputState, calls: seq<TtsCall>, lang: string, voices: seq<Tts.Voice>): Tts.OutputState
    decreases |calls|
  {
    if calls == [] then s
    else
      var next := match calls[0]
        case Enqueue(t) => Tts.Enqueued(s, t)
        case Flush => Tts.Flushed(s, lang, voices);
      ApplyCalls(next, calls[1..], lang, voices)
  }

  lemma {:induction false} ApplyCallsAppend(s: Tts.OutputState, a: seq<TtsCall>, b: seq<TtsCall>, lang: string, voices: seq<Tts.Voice>)
    ensures ApplyCalls(s, a + b, lang, voices) == ApplyCalls(ApplyCalls(s, a, lang, voices), b, lang, voices)
    decreases |a|
  {
    if a == [] {
      assert a + b == b;
    } else {
      assert (a + b)[0] == a[0] && (a + b)[1..] == a[1..] + b;
      var next := match a[0]
        case Enqueue(t) => Tts.Enqueued(s, t)
        case Flush => Tts.Flushed(s, lang, voices);
      ApplyCallsAppend(next, a[1..], b, lang, voices);
    }
  }

  /** At most one call: its effect and its text. */
  lemma ApplyOne(s: Tts.OutputState, calls: seq<TtsCall>, lang: string, voices: seq<Tts.Voice>)
    requires |calls| <= 1
    ensures ApplyCalls(s, calls, lang, voices) ==
      if calls == [] then s
      else match calls[0]
        case Enqueue(t) => Tts.Enqueued(s, t)
        case Flush => Tts.Flushed(s, lang, voices)
    ensures TokensText(calls) == if calls != [] && calls[0].Enqueue? then calls[0].token else []
  {
    if calls != [] {
      assert calls[1..] == [];
      var t := if calls[0].Enqueue? then calls[0].token else [];
      assert t + [] == t;
    }
  }

  /** Without a flush, the calls only add the tokens to the buffer. */
  lemma {:induction false} EnqueuesOnly(s: Tts.OutputState, calls: seq<TtsCall>, lang: string, voices: seq<Tts.Voice>)
    requires forall k :: 0 <= k < |calls| ==> calls[k].Enqueue?
    ensures ApplyCalls(s, calls, lang, voices) == s.(buffer := s.buffer + TokensText(calls))
    decreases |calls|
  {
    if calls == [] {
      assert s.buffer + [] == s.buffer;
    } else {
      EnqueuesOnly(Tts.Enqueued(s, calls[0].token), calls[1..], lang, voices);
      ConcatAssoc(s.buffer, calls[0].token, TokensText(calls[1..]));
    }
  }

  /** The calls keep the hook's invariant. */
  lemma {:induction false} ApplyCallsWellFormed(s: Tts.OutputState, calls: seq<TtsCall>, lang: string, voices: seq<Tts.Voice>)
    requires Tts.WellFormed(s)
    ensures Tts.WellFormed(ApplyCalls(s, calls, lang, voices))
    decreases |calls|
  {
    if calls != [] {
      var next := match calls[0]
        case Enqueue(t) => Tts.Enqueued(s, t)
        case Flush => Tts.Flushed(s, lang, voices);
      if calls[0].Flush? {
        Tts.FlushedWellFormed(s, lang, voices);
      }
      ApplyCallsWellFormed(next, calls[1..], lang, voices);
    }
  }

  // ---------------------------------------------------------------------
  // The outcome of a reply
  // ---------------------------------------------------------------------

  const ConnectionError: string := "Erreur de connexion"
  const AbortErrorName: string := "AbortError"

  /** The body of a non-OK response as `response.json()` reads it: a JSON
      object (its `error` field, `""` when absent or falsy) or text that
      makes it throw a `SyntaxError` with the given message. */
  datatype ErrorBody = JsonBody(error: string) | NotJson(syntaxMessage: string)

  /** How the request to the proxy is answered: `fetch` throws, the response
      is not OK, or a body arrives as decoded text chunks and ends. */
  datatype Reply =
    | Rejected(thrown: Thrown)
    | NotOk(status: nat, body: ErrorBody)
    | Body(chunks: seq<string>, end: BodyEnd)

  /** How reading the body ends: at `done`, or with a thrown value. */
  datatype BodyEnd = Done | ReadThrew(thrown: Thrown)

  predicate IsAbort(t: Thrown) {
    t.ErrorInstance? && t.name == AbortErrorName
  }

  /** The message the catch block shows for a thrown value. */
  function CaughtMessage(t: Thrown): string {
    match t
    case ErrorInstance(_, m) => m
    case NonError => ConnectionError
  }

  /** `error.error || \`HTTP ${status}\``, or the parse failure's message. */
  function NotOkMessage(status: nat, body: ErrorBody): (m: string)
    ensures body.JsonBody? && body.error != [] ==> m == body.error
    ensures body.JsonBody? && body.error == [] ==> m == "HTTP " + Decimal(status) && StartsWith(m, "HTTP ")
    ensures body.NotJson? ==> m == body.syntaxMessage
  {
    match body
    case JsonBody(e) =>
      if e != [] then e
      else
        var m := "HTTP " + Decimal(status);
        assert m[..5] == "HTTP ";
        m
    case NotJson(msg) => msg
  }

  /** The end of a reply: the hook calls made, whether the body was reached
      (the phase then turns to speaking), and either an error message, a
      silent return (the request was aborted), or success. */
  datatype Outcome = Outcome(calls: seq<TtsCall>, reached: bool, failure: Option<string>, silent: bool)

  function ReplyOutcome(reply: Reply, parse: string -> ClientPayload): (r: Outcome)
    ensures r.failure.Some? ==> !r.silent
    ensures !r.reached ==> r.calls == []
    ensures !reply.Body? ==> !r.reached
    ensures reply.Rejected? ==> r.silent == IsAbort(reply.thrown)
    ensures reply.Rejected? ==> r.failure == if IsAbort(reply.thrown) then None else Some(CaughtMessage(reply.thrown))
    ensures reply.NotOk? ==> r.failure == Some(NotOkMessage(reply.status, reply.body))
    ensures reply.Body? ==> r.reached && r.calls == DecodeChunks(reply.chunks, parse).calls
    ensures reply.Body? ==> r == BodyOutcome(DecodeChunks(reply.chunks, parse), reply.end)
  {
    match reply
    case Rejected(t) =>
      if IsAbort(t) then Outcome([], false, None, true) else Outcome([], false, Some(CaughtMessage(t)), false)
    case NotOk(status, body) => Outcome([], false, Some(NotOkMessage(status, body)), false)
    case Body(chunks, end) => BodyOutcome(DecodeChunks(chunks, parse), end)
  }

  /** Whatever the reply, the text spoken and shown grows only by
      non-empty tokens, and an error message shown is never empty. */
  lemma ReplySound(reply: Reply, parse: string -> ClientPayload)
    ensures var r := ReplyOutcome(reply, parse);
      && (forall k :: 0 <= k < |r.calls| && r.calls[k].Enqueue? ==> r.calls[k].token != [])
      && (reply.Body? && r.failure.Some? && r.failure == DecodeChunks(reply.chunks, parse).failure ==> r.failure.value != [])
  {
    if reply.Body? {
      DecodeChunksSound(reply.chunks, parse);
    }
  }

  /** A reply whose body was reached and read as `d`, ending with `end`. */
  function BodyOutcome(d: Decoded, end: BodyEnd): (r: Outcome)
    ensures r.reached && r.calls == d.calls
    ensures r.failure.Some? ==> !r.silent
    ensures d.failure.Some? ==> r.failure == d.failure
    ensures d.failure.None? && end.Done? ==> r.failure.None? && !r.silent
    ensures d.failure.None? && end.ReadThrew? ==>
      && (r.silent <==> IsAbort(end.thrown))
      && r.failure == if IsAbort(end.thrown) then None else Some(CaughtMessage(end.thrown))
  {
    if d.failure.Some? then Outcome(d.calls, true, d.failure, false)
    else
      match end
      case Done => Outcome(d.calls, true, None, false)
      case ReadThrew(t) =>
        if IsAbort(t) then Outcome(d.calls, true, None, true) else Outcome(d.calls, true, Some(CaughtMessage(t)), false)
  }
}
