/** The server-side chat proxy, `POST /api/chat`: it refuses the request when
    the provider key is missing, otherwise forwards the caller's messages
    behind a fixed system prompt with streaming on, and re-frames the
    provider's `data:` lines into the normalized `{token}` / `[DONE]` /
    `{error}` events of module Framing.

    The provider is reached through one awaited `fetch`; its outcome is the
    parameter `upstream`. Parsing a provider line is the parameter `parse`. */
module ChatRoute {
  import opened Wrappers
  import opened Text
  import opened Framing

  const MissingKeyError: string := "GROQ_API_KEY manquant dans .env.local"
  const UpstreamModel: string := "llama-3.3-70b-versatile"
  const MaxTokens: nat := 300
  /** The persona instruction prepended to every conversation; its wording is
      opaque to the model, only its position matters. */
  const SystemPrompt: string := "Tu es un recruteur expert chez ProcessIQ, une startup EdTech qui développe des micro-Software as a Service pour le secteur éducatif."
  const UnknownError: string := "Erreur inconnue"

  datatype Role = System | User | Assistant
  datatype ChatMessage = ChatMessage(role: Role, content: string)

  /** The body sent to the provider (`temperature` is left out). */
  datatype UpstreamRequest = UpstreamRequest(model: string, messages: seq<ChatMessage>, stream: bool, maxTokens: nat)

  /** A parsed provider payload: `Unparseable` when `JSON.parse` throws,
      otherwise `choices?.[0]?.delta?.content`, absent or present. */
  datatype UpstreamPayload = Unparseable | Delta(content: Option<string>)

  /** How reading the provider's body ends: at `done`, or with a thrown value. */
  datatype StreamEnd = Finished | ReadFailed(thrown: Thrown)

  /** The provider's answer to the forwarded request: `fetch` itself threw,
      the response was not OK (status and body text), or a body arrived as
      the given decoded text chunks. */
  datatype Upstream =
    | Rejected(thrown: Thrown)
    | NotOk(status: nat, body: string)
    | Streamed(chunks: seq<string>, end: StreamEnd)

  /** The proxy's response: an immediate JSON error, or an event stream
      (with the request it forwarded, the events it enqueued in order, and
      whether the stream was closed). */
  datatype Response =
    | JsonError(status: nat, error: string)
    | EventStream(request: UpstreamRequest, events: seq<Event>, closed: bool)

  /** The forwarded body: the system prompt, then the caller's messages in the
      caller's order, streaming on, at most 300 tokens. */
  function BuildRequest(messages: seq<ChatMessage>): (r: UpstreamRequest)
    ensures |r.messages| == |messages| + 1
    ensures r.messages[0] == ChatMessage(System, SystemPrompt)
    ensures forall i :: 0 <= i < |messages| ==> r.messages[i + 1] == messages[i]
    ensures r.stream && r.maxTokens == 300
  {
    UpstreamRequest(UpstreamModel, [ChatMessage(System, SystemPrompt)] + messages, true, MaxTokens)
  }

  /** The message of a caught value: an `Error`'s message, else a fixed text. */
  function ThrownMessage(t: Thrown): string {
    match t
    case ErrorInstance(_, m) => m
    case NonError => UnknownError
  }

  /** The message thrown for a non-OK provider response. */
  function UpstreamErrorMessage(status: nat, body: string): (m: string)
    ensures m == "Groq API error " + Decimal(status) + ": " + body
    ensures StartsWith(m, "Groq API error ")
    ensures |body| <= |m| && m[|m| - |body|..] == body
  {
    var m := "Groq API error " + Decimal(status) + ": " + body;
    assert m[..15] == "Groq API error ";
    assert m[|m| - |body|..] == body;
    m
  }

  /** `chunk.split('\n').filter(l => l.startsWith('data: '))`: the data lines,
      in order. */
  function DataLines(lines: seq<string>): (r: seq<string>)
    ensures |r| <= |lines|
    ensures forall k :: 0 <= k < |r| ==> IsDataLine(r[k])
  {
    if lines == [] then []
    else if IsDataLine(lines[0]) then [lines[0]] + DataLines(lines[1..])
    else DataLines(lines[1..])
  }

  /** The filter works line by line: the data lines of `a + b` are those of
      `a` followed by those of `b`. */
  lemma {:induction false} DataLinesAppend(a: seq<string>, b: seq<string>)
    ensures DataLines(a + b) == DataLines(a) + DataLines(b)
  {
    if a == [] {
      assert a + b == b;
    } else {
      assert (a + b)[0] == a[0] && (a + b)[1..] == a[1..] + b;
      DataLinesAppend(a[1..], b);
      if IsDataLine(a[0]) {
        ConcatAssoc([a[0]], DataLines(a[1..]), DataLines(b));
      }
    }
  }

  /** A data line is kept, in its place, wherever it stands. */
  lemma DataLineKept(a: seq<string>, line: string, b: seq<string>)
    requires IsDataLine(line)
    ensures DataLines(a + [line] + b) == DataLines(a) + [line] + DataLines(b)
  {
    DataLinesAppend(a + [line], b);
    DataLinesAppend(a, [line]);
    assert [line][1..] == [];
  }

  /** The events one provider payload turns into: the marker itself, one
      token when the delta content is non-empty, and nothing otherwise
      (an unparseable payload included). */
  function PayloadEvents(data: string, parse: string -> UpstreamPayload): (r: seq<Event>)
    ensures |r| <= 1
    ensures data == DoneMarker <==> r == [DoneEvent]
    ensures data != DoneMarker && parse(data).Unparseable? ==> r == []
    ensures data != DoneMarker && parse(data).Delta? ==>
      r == (if parse(data).content.GetOr("") != "" then [TokenEvent(parse(data).content.GetOr(""))] else [])
    ensures r == [] || r == [DoneEvent] || (r[0].TokenEvent? && r[0].token != "" && parse(data) == Delta(Some(r[0].token)))
  {
    if data == DoneMarker then [DoneEvent]
    else
      match parse(data)
      case Unparseable => []
      case Delta(content) =>
        var token := content.GetOr("");
        if token != "" then [TokenEvent(token)] else []
  }

  /** The events of one line: those of its payload for a data line, none otherwise. */
  function LineEvents(line: string, parse: string -> UpstreamPayload): (r: seq<Event>)
    ensures !IsDataLine(line) ==> r == []
    ensures IsDataLine(line) && Payload(line) == DoneMarker ==> r == [DoneEvent]
    ensures IsDataLine(line) && Payload(line) != DoneMarker && parse(Payload(line)).Delta? ==>
      var t := parse(Payload(line)).content.GetOr("");
      t != "" ==> r == [TokenEvent(t)]
    ensures IsDataLine(line) && Payload(line) != DoneMarker && parse(Payload(line)).Unparseable? ==> r == []
    ensures IsDataLine(line) && Payload(line) != DoneMarker && parse(Payload(line)) in {Delta(None), Delta(Some(""))} ==> r == []
    ensures r == [] || r == [DoneEvent] || (|r| == 1 && r[0].TokenEvent? && r[0].token != "")
  {
    if IsDataLine(line) then PayloadEvents(Payload(line), parse) else []
  }

  /** The events for a run of lines, in line order. */
  function ReframeLines(lines: seq<string>, parse: string -> UpstreamPayload): seq<Event>
  {
    if lines == [] then []
    else LineEvents(lines[0], parse) + ReframeLines(lines[1..], parse)
  }

  /** The events for a sequence of chunks; each chunk is split on its own. */
  function ReframeChunks(chunks: seq<string>, parse: string -> UpstreamPayload): seq<Event>
  {
    if chunks == [] then []
    else ReframeLines(DataLines(Lines(chunks[0])), parse) + ReframeChunks(chunks[1..], parse)
  }

  /** Everything the stream carries for a given provider outcome. */
  function Relayed(upstream: Upstream, parse: string -> UpstreamPayload): seq<Event> {
    match upstream
    case Rejected(t) => [ErrorEvent(ThrownMessage(t))]
    case NotOk(status, body) => [ErrorEvent(UpstreamErrorMessage(status, body))]
    case Streamed(chunks, Finished) => ReframeChunks(chunks, parse)
    case Streamed(chunks, ReadFailed(t)) => ReframeChunks(chunks, parse) + [ErrorEvent(ThrownMessage(t))]
  }

  /** The response of the handler for given inputs. */
  function Handled(keyPresent: bool, messages: seq<ChatMessage>, upstream: Upstream, parse: string -> UpstreamPayload): Response {
    if !keyPresent then JsonError(500, MissingKeyError)
    else EventStream(BuildRequest(messages), Relayed(upstream, parse), true)
  }

  /** `POST`: the missing-key check, then the stream's `start`, which reads
      the provider's chunks, enqueues one event per relevant data line, turns
      anything thrown into a single error event and always closes. */
  method Post(keyPresent: bool, messages: seq<ChatMessage>, upstream: Upstream, parse: string -> UpstreamPayload)
    returns (resp: Response)
    ensures resp == Handled(keyPresent, messages, upstream, parse)
  {
    if !keyPresent {
      return JsonError(500, MissingKeyError);
    }
    var request := BuildRequest(messages);
    var events: seq<Event> := [];
    match upstream {
      case Rejected(t) =>
        events := events + [ErrorEvent(ThrownMessage(t))];
      case NotOk(status, body) =>
        events := events + [ErrorEvent(UpstreamErrorMessage(status, body))];
      case Streamed(chunks, end) =>
        events := RelayChunks(chunks, parse);
        if end.ReadFailed? {
          events := events + [ErrorEvent(ThrownMessage(end.thrown))];
        }
    }
    resp := EventStream(request, events, true);
  }

  /** The read loop: every chunk the provider sends is relayed in order. */
  method RelayChunks(chunks: seq<string>, parse: string -> UpstreamPayload) returns (events: seq<Event>)
    ensures events == ReframeChunks(chunks, parse)
  {
    events := [];
    var i := 0;
    while i < |chunks|
      invariant 0 <= i <= |chunks|
      invariant events + ReframeChunks(chunks[i..], parse) == ReframeChunks(chunks, parse)
    {
      var chunkEvents := RelayChunk(chunks[i], parse);
      assert chunks[i..][1..] == chunks[i + 1..];
      ConcatAssoc(events, chunkEvents, ReframeChunks(chunks[i + 1..], parse));
      events := events + chunkEvents;
      i := i + 1;
    }
  }

  /** One chunk of the read loop: its data lines, each turned into the events
      of its payload; a `[DONE]` line emits the marker and moves on. */
  method RelayChunk(chunk: string, parse: string -> UpstreamPayload) returns (events: seq<Event>)
    ensures events == ReframeLines(DataLines(Lines(chunk)), parse)
  {
    var lines := DataLines(Lines(chunk));
    events := [];
    assert lines[0..] == lines;
    for j := 0 to |lines|
      invariant events + ReframeLines(lines[j..], parse) == ReframeLines(lines, parse)
    {
      ghost var prev := events;
      var data := Payload(lines[j]);
      if data == DoneMarker {
        events := events + [DoneEvent];
        RelayStep(lines, j, prev, events, parse);
        continue;
      }
      var emitted: seq<Event> := [];
      match parse(data) {
        case Unparseable =>
        case Delta(content) =>
          var token := content.GetOr("");
          if token != "" {
            emitted := [TokenEvent(token)];
          }
      }
      events := events + emitted;
      RelayStep(lines, j, prev, events, parse);
    }
  }

  /** One step of the line loop: emitting a line's events moves it from the
      part still to read to the part already emitted. */
  lemma RelayStep(lines: seq<string>, j: nat, prev: seq<Event>, events: seq<Event>, parse: string -> UpstreamPayload)
    requires j < |lines|
    requires prev + ReframeLines(lines[j..], parse) == ReframeLines(lines, parse)
    requires events == prev + LineEvents(lines[j], parse)
    ensures events + ReframeLines(lines[j + 1..], parse) == ReframeLines(lines, parse)
  {
    assert lines[j..][1..] == lines[j + 1..];
    ConcatAssoc(prev, LineEvents(lines[j], parse), ReframeLines(lines[j + 1..], parse));
  }

  /** Events the read loop can produce: non-empty tokens and markers only. */
  predicate Relayable(es: seq<Event>) {
    forall k :: 0 <= k < |es| ==> (es[k].TokenEvent? && es[k].token != "") || es[k].DoneEvent?
  }

  lemma {:induction false} ReframeLinesRelayable(lines: seq<string>, parse: string -> UpstreamPayload)
    ensures Relayable(ReframeLines(lines, parse))
  {
    if lines != [] {
      ReframeLinesRelayable(lines[1..], parse);
    }
  }

  lemma {:induction false} ReframeChunksRelayable(chunks: seq<string>, parse: string -> UpstreamPayload)
    ensures Relayable(ReframeChunks(chunks, parse))
  {
    if chunks != [] {
      ReframeLinesRelayable(DataLines(Lines(chunks[0])), parse);
      ReframeChunksRelayable(chunks[1..], parse);
    }
  }

  /** No event carries an empty token, and an error event can only be the
      last one: the stream ends after it. */
  lemma RelayedShape(upstream: Upstream, parse: string -> UpstreamPayload)
    ensures var es := Relayed(upstream, parse);
      forall k :: 0 <= k < |es| ==>
        (es[k].TokenEvent? ==> es[k].token != "") && (es[k].ErrorEvent? ==> k == |es| - 1)
  {
    if upstream.Streamed? {
      ReframeChunksRelayable(upstream.chunks, parse);
    }
  }

  /** Re-framing distributes over concatenation of the lines. */
  lemma {:induction false} ReframeLinesAppend(a: seq<string>, b: seq<string>, parse: string -> UpstreamPayload)
    ensures ReframeLines(a + b, parse) == ReframeLines(a, parse) + ReframeLines(b, parse)
  {
    if a != [] {
      assert (a + b)[1..] == a[1..] + b;
      ReframeLinesAppend(a[1..], b, parse);
      ConcatAssoc(LineEvents(a[0], parse), ReframeLines(a[1..], parse), ReframeLines(b, parse));
    } else {
      assert a + b == b;
    }
  }

  /** A `[DONE]` line does not stop the relay: it emits the marker and the
      lines after it are processed as before. Any data line whose trimmed
      payload is the marker qualifies, `data: [DONE]` among them (DoneLine). */
  lemma DoneDoesNotStop(before: seq<string>, done: string, after: seq<string>, parse: string -> UpstreamPayload)
    requires IsDataLine(done) && Payload(done) == DoneMarker
    ensures ReframeLines(before + [done] + after, parse)
         == ReframeLines(before, parse) + [DoneEvent] + ReframeLines(after, parse)
  {
    ConcatAssoc(before, [done], after);
    ReframeLinesAppend(before, [done] + after, parse);
    assert ([done] + after)[1..] == after;
    ConcatAssoc(ReframeLines(before, parse), [DoneEvent], ReframeLines(after, parse));
  }

  /** A data line whose delta carries a non-empty content `t` is relayed as
      exactly one token event `t`, in its place among the chunk's lines: the
      filter keeps it and the line loop emits it. */
  lemma TokenRelayed(before: seq<string>, line: string, after: seq<string>, t: string, parse: string -> UpstreamPayload)
    requires IsDataLine(line) && Payload(line) != DoneMarker
    requires parse(Payload(line)) == Delta(Some(t)) && t != ""
    ensures ReframeLines(DataLines(before + [line] + after), parse)
         == ReframeLines(DataLines(before), parse) + [TokenEvent(t)] + ReframeLines(DataLines(after), parse)
  {
    DataLineKept(before, line, after);
    var a, b := DataLines(before), DataLines(after);
    ConcatAssoc(a, [line], b);
    ReframeLinesAppend(a, [line] + b, parse);
    assert ([line] + b)[0] == line && ([line] + b)[1..] == b;
    ConcatAssoc(ReframeLines(a, parse), [TokenEvent(t)], ReframeLines(b, parse));
  }

  /** The line `data: [DONE]` is a data line whose payload is the marker. */
  lemma DoneLine()
    ensures IsDataLine(DataPrefix + DoneMarker) && Payload(DataPrefix + DoneMarker) == DoneMarker
  {
    var done := DataPrefix + DoneMarker;
    assert done[..|DataPrefix|] == DataPrefix;
    assert done[|DataPrefix|..] == DoneMarker;
    TrimmedIsFixed(DoneMarker);
  }

  /** Lines that do not start with `data: ` are dropped by the filter:
      inserting one anywhere changes nothing. */
  lemma {:induction false} NonDataLineIgnored(a: seq<string>, line: string, b: seq<string>)
    requires !IsDataLine(line)
    ensures DataLines(a + [line] + b) == DataLines(a + b)
  {
    if a == [] {
      assert a + [line] + b == [line] + b;
      assert ([line] + b)[1..] == b;
      assert a + b == b;
    } else {
      assert (a + [line] + b)[1..] == a[1..] + [line] + b;
      assert (a + b)[1..] == a[1..] + b;
      NonDataLineIgnored(a[1..], line, b);
    }
  }
}
