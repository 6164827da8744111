/** The two ends of a chat turn put together: the events the proxy writes
    (module ChatRoute, serialised by module Framing) and what the interview
    component makes of them when it reads them back (module ClientStream).

    The network may cut the proxy's output into chunks anywhere; the client
    splits each chunk on its own, so the lemmas here assume that every chunk
    holds whole frames: a group of consecutive events. */
module Pipeline {
  import opened Wrappers
  import opened Text
  import opened Framing
  import opened ClientStream
  import ChatRoute

  /** What the client does with a run of events written in one chunk, read
      directly from the events: a token is enqueued when it is non-empty, an
      error with a non-empty message stops the reading with that message, an
      error with an empty one is ignored, and `[DONE]` flushes and ends the
      chunk, whatever follows it. */
  function ClientView(es: seq<Event>): Decoded {
    if es == [] then Decoded([], None)
    else
      match es[0]
      case DoneEvent => Decoded([Flush], None)
      case ErrorEvent(m) => if m != [] then Decoded([], Some(m)) else ClientView(es[1..])
      case TokenEvent(t) =>
        if t != [] then Then(Decoded([Enqueue(t)], None), ClientView(es[1..])) else ClientView(es[1..])
  }

  /** The pieces `split('\n')` makes of encoded events: each event's line,
      then the empty line that ends the frame, and a last empty piece after
      the final newline. */
  function FrameLines(es: seq<Event>, show: WireObject -> string): (r: seq<string>)
    ensures |r| == 2 * |es| + 1
  {
    if es == [] then [[]] else [DataPrefix + Wire(es[0], show), []] + FrameLines(es[1..], show)
  }

  /** The line of an event holds no newline. */
  lemma EventLineSingle(e: Event, show: WireObject -> string, parse: string -> ClientPayload)
    requires Faithful(show, parse)
    ensures '\n' !in DataPrefix + Wire(e, show)
  {
    var w := Wire(e, show);
    match e
    case DoneEvent =>
    case TokenEvent(t) => assert '\n' !in show(TokenObject(t));
    case ErrorEvent(m) => assert '\n' !in show(ErrorObject(m));
    assert forall i :: 0 <= i < |DataPrefix + w| ==> (DataPrefix + w)[i] != '\n' by {
      forall i | 0 <= i < |DataPrefix + w|
        ensures (DataPrefix + w)[i] != '\n'
      {
        if i >= |DataPrefix| {
          assert (DataPrefix + w)[i] == w[i - |DataPrefix|];
        }
      }
    }
  }

  /** A frame followed by some text is the event's line, a newline, and the
      rest after a second newline. */
  lemma FrameText(e: Event, rest: string, show: WireObject -> string)
    ensures Frame(e, show) + rest == (DataPrefix + Wire(e, show)) + "\n" + ([] + "\n" + rest)
  {
    var line := DataPrefix + Wire(e, show);
    assert "\n\n" == "\n" + "\n";
    ConcatAssoc(line, "\n", "\n");
    ConcatAssoc(line + "\n", "\n", rest);
    ConcatAssoc(line, "\n", "\n" + rest);
  }

  /** A frame at the head of some text splits into the event's line, the
      blank line, and the pieces of the text. */
  lemma FrameSplits(e: Event, rest: string, show: WireObject -> string, parse: string -> ClientPayload)
    requires Faithful(show, parse)
    ensures Lines(Frame(e, show) + rest) == [DataPrefix + Wire(e, show), []] + Lines(rest)
  {
    var line := DataPrefix + Wire(e, show);
    FrameText(e, rest, show);
    EventLineSingle(e, show, parse);
    LinesOfLine(line);
    LinesAppend(line, [] + "\n" + rest);
    LinesAppend([], rest);
    assert Lines([]) == [[]];
  }

  /** Splitting the proxy's output on newlines gives back the event lines,
      each followed by the blank line of its frame. */
  lemma {:induction false} EncodeLines(es: seq<Event>, show: WireObject -> string, parse: string -> ClientPayload)
    requires Faithful(show, parse)
    ensures Lines(Encode(es, show)) == FrameLines(es, show)
  {
    if es != [] {
      FrameSplits(es[0], Encode(es[1..], show), show, parse);
      EncodeLines(es[1..], show, parse);
    }
  }

  /** How the client classifies the line of one event: the serialised
      object survives the trim of the payload and parses back to its fields. */
  lemma ClassifyEventLine(e: Event, show: WireObject -> string, parse: string -> ClientPayload)
    requires Faithful(show, parse)
    ensures var k := Classify(DataPrefix + Wire(e, show), parse);
      match e
      case DoneEvent => k == DoneLine
      case ErrorEvent(m) => k == if m != [] then FailLine(m) else Skip
      case TokenEvent(t) => k == if t != [] then TokenLine(t) else Skip
  {
    var w := Wire(e, show);
    var line := DataPrefix + w;
    assert line[..|DataPrefix|] == DataPrefix;
    assert line[|DataPrefix|..] == w;
    match e
    case DoneEvent =>
      TrimmedIsFixed(DoneMarker);
    case ErrorEvent(m) =>
      assert Trim(show(ErrorObject(m))) == show(ErrorObject(m));
    case TokenEvent(t) =>
      assert Trim(show(TokenObject(t))) == show(TokenObject(t));
  }

  /** Reading nothing first changes nothing. */
  lemma ThenNothing(d: Decoded)
    ensures Then(Decoded([], None), d) == d
  {
    assert [] + d.calls == d.calls;
  }

  /** The blank line that ends a frame is skipped. */
  lemma SkipBlank(tail: seq<string>, parse: string -> ClientPayload)
    ensures DecodeLines([[]] + tail, parse) == DecodeLines(tail, parse)
  {
    assert !IsDataLine([]);
    assert ([[]] + tail)[0] == [] && ([[]] + tail)[1..] == tail;
    ThenNothing(DecodeLines(tail, parse));
  }

  /** One frame at the head of a chunk: its line acts on its own, its blank
      line is skipped, and unless the line stopped the reading it goes on
      with the rest. */
  lemma FrameStep(line: string, tail: seq<string>, parse: string -> ClientPayload)
    ensures DecodeLines([line, []] + tail, parse) ==
      if Stops(line, parse) then DecodeLine(line, parse) else Then(DecodeLine(line, parse), DecodeLines(tail, parse))
  {
    var lines := [line, []] + tail;
    assert lines[0] == line && lines[1..] == [[]] + tail;
    SkipBlank(tail, parse);
  }

  /** The client decodes the lines of encoded events exactly as ClientView
      reads the events. */
  lemma {:induction false} DecodeFrameLines(es: seq<Event>, show: WireObject -> string, parse: string -> ClientPayload)
    requires Faithful(show, parse)
    ensures DecodeLines(FrameLines(es, show), parse) == ClientView(es)
  {
    if es == [] {
      SkipBlank([], parse);
    } else {
      var tail := FrameLines(es[1..], show);
      ClassifyEventLine(es[0], show, parse);
      FrameStep(DataPrefix + Wire(es[0], show), tail, parse);
      DecodeFrameLines(es[1..], show, parse);
      ThenNothing(ClientView(es[1..]));
    }
  }

  /** Round trip: a chunk holding the frames of `es` is decoded as the
      client's reading of `es` itself. */
  lemma DecodeEncoded(es: seq<Event>, show: WireObject -> string, parse: string -> ClientPayload)
    requires Faithful(show, parse)
    ensures DecodeLines(Lines(Encode(es, show)), parse) == ClientView(es)
  {
    EncodeLines(es, show, parse);
    DecodeFrameLines(es, show, parse);
  }

  /** The chunks of a delivery in which every chunk holds one group of
      consecutive events. */
  function Delivered(groups: seq<seq<Event>>, show: WireObject -> string): (r: seq<string>)
    ensures |r| == |groups|
  {
    if groups == [] then [] else [Encode(groups[0], show)] + Delivered(groups[1..], show)
  }

  /** The client's reading of the groups, one chunk each, stopping at the
      first error. */
  function GroupsView(groups: seq<seq<Event>>): Decoded {
    if groups == [] then Decoded([], None) else Then(ClientView(groups[0]), GroupsView(groups[1..]))
  }

  /** Whatever grouping the network makes of whole frames, the client's
      read loops produce the hook calls and the failure of GroupsView. */
  lemma {:induction false} DecodeDelivered(groups: seq<seq<Event>>, show: WireObject -> string, parse: string -> ClientPayload)
    requires Faithful(show, parse)
    ensures DecodeChunks(Delivered(groups, show), parse) == GroupsView(groups)
  {
    if groups != [] {
      var chunks := Delivered(groups, show);
      assert chunks[0] == Encode(groups[0], show);
      assert chunks[1..] == Delivered(groups[1..], show);
      DecodeEncoded(groups[0], show, parse);
      DecodeDelivered(groups[1..], show, parse);
    }
  }

  /** Each event in a chunk of its own. */
  function OnePerChunk(es: seq<Event>): (r: seq<seq<Event>>)
    ensures |r| == |es|
  {
    if es == [] then [] else [[es[0]]] + OnePerChunk(es[1..])
  }

  /** The text of the token events, in order. */
  function ProxyText(es: seq<Event>): string {
    if es == [] then [] else (if es[0].TokenEvent? then es[0].token else []) + ProxyText(es[1..])
  }

  /** Whether an error event appears only as the last event. */
  predicate ErrorLast(es: seq<Event>) {
    forall k :: 0 <= k < |es| && es[k].ErrorEvent? ==> k == |es| - 1
  }

  /** The failure the client reports for events delivered one per chunk:
      the last event's message when it is a non-empty error. */
  function LastFailure(es: seq<Event>): Option<string> {
    if es != [] && es[|es| - 1].ErrorEvent? && es[|es| - 1].message != [] then Some(es[|es| - 1].message) else None
  }

  /** The client's reading of a chunk holding one event. */
  lemma ClientViewOne(e: Event)
    ensures ClientView([e]) ==
      match e
      case DoneEvent => Decoded([Flush], None)
      case ErrorEvent(m) => if m != [] then Decoded([], Some(m)) else Decoded([], None)
      case TokenEvent(t) => if t != [] then Decoded([Enqueue(t)], None) else Decoded([], None)
  {
    assert [e][0] == e && [e][1..] == [];
    if e.TokenEvent? { assert [Enqueue(e.token)] + [] == [Enqueue(e.token)]; }
  }

  /** When every event travels in a chunk of its own and an error can only
      come last, the client accumulates exactly the proxy's token text, and
      fails exactly when the stream ends with a non-empty error. A `[DONE]`
      then only flushes: the tokens after it still arrive. */
  lemma {:induction false} OnePerChunkView(es: seq<Event>)
    requires ErrorLast(es)
    ensures TokensText(GroupsView(OnePerChunk(es)).calls) == ProxyText(es)
    ensures GroupsView(OnePerChunk(es)).failure == LastFailure(es)
  {
    if es != [] {
      var groups := OnePerChunk(es);
      var rest := es[1..];
      assert groups[0] == [es[0]] && groups[1..] == OnePerChunk(rest);
      assert ErrorLast(rest) by {
        forall k | 0 <= k < |rest| && rest[k].ErrorEvent?
          ensures k == |rest| - 1
        {
          assert es[k + 1] == rest[k];
        }
      }
      OnePerChunkView(rest);
      var e := es[0];
      var v := ClientView([e]);
      var r := GroupsView(OnePerChunk(rest));
      ClientViewOne(e);
      assert GroupsView(groups) == Then(v, r);
      assert TokensText(v.calls) == (if e.TokenEvent? then e.token else []) by {
        if v.calls != [] { assert v.calls[1..] == []; assert v.calls[0].Enqueue? ==> v.calls[0].token + [] == v.calls[0].token; }
      }
      if v.failure.None? {
        TokensTextAppend(v.calls, r.calls);
        assert |es| > 1 ==> es[|es| - 1] == rest[|rest| - 1];
      } else {
        assert |es| == 1;
      }
    }
  }

  /** A `[DONE]` inside a chunk hides whatever follows it in that chunk:
      tokens the proxy wrote after the marker are neither shown nor spoken
      when the network delivers them together with it. */
  lemma DoneHidesRestOfChunk(rest: seq<Event>, show: WireObject -> string, parse: string -> ClientPayload)
    requires Faithful(show, parse)
    ensures DecodeChunks([Encode([DoneEvent] + rest, show)], parse) == Decoded([Flush], None)
  {
    DecodeDelivered([[DoneEvent] + rest], show, parse);
    assert Delivered([[DoneEvent] + rest], show) == [Encode([DoneEvent] + rest, show)];
    assert GroupsView([[DoneEvent] + rest]) == Then(ClientView([DoneEvent] + rest), GroupsView([]));
    assert [Flush] + [] == [Flush];
  }

  /** The failure a provider stream ends with, as the client reports it:
      none when the provider's body was read to its end, otherwise the
      proxy's message for what was thrown, unless that message is empty. */
  function StreamFailure(end: ChatRoute.StreamEnd): Option<string> {
    match end
    case Finished => None
    case ReadFailed(t) => var m := ChatRoute.ThrownMessage(t); if m != [] then Some(m) else None
  }

  /** The proxy's events for a provider stream have the error, if any, last,
      and it is the one for what the body's read threw. */
  lemma RelayedEnds(chunks: seq<string>, end: ChatRoute.StreamEnd, upstreamParse: string -> ChatRoute.UpstreamPayload)
    ensures var es := ChatRoute.Relayed(ChatRoute.Streamed(chunks, end), upstreamParse);
      ErrorLast(es) && LastFailure(es) == StreamFailure(end)
  {
    var relayed := ChatRoute.ReframeChunks(chunks, upstreamParse);
    ChatRoute.ReframeChunksRelayable(chunks, upstreamParse);
    ChatRoute.RelayedShape(ChatRoute.Streamed(chunks, end), upstreamParse);
    if end.Finished? {
      assert relayed != [] ==> !relayed[|relayed| - 1].ErrorEvent?;
    } else {
      var es := relayed + [ErrorEvent(ChatRoute.ThrownMessage(end.thrown))];
      assert es[|es| - 1] == ErrorEvent(ChatRoute.ThrownMessage(end.thrown));
    }
  }

  /** End to end, for a provider stream: when the proxy's events reach the
      client one per chunk, the reply text is the concatenation of the
      non-empty tokens the proxy relayed, and the client fails only when the
      provider's body threw, with the proxy's message for it (unless empty). */
  lemma StreamedTurn(chunks: seq<string>, end: ChatRoute.StreamEnd, upstreamParse: string -> ChatRoute.UpstreamPayload,
                     show: WireObject -> string, parse: string -> ClientPayload)
    requires Faithful(show, parse)
    ensures var es := ChatRoute.Relayed(ChatRoute.Streamed(chunks, end), upstreamParse);
      var d := DecodeChunks(Delivered(OnePerChunk(es), show), parse);
      TokensText(d.calls) == ProxyText(es) && d.failure == StreamFailure(end)
  {
    var es := ChatRoute.Relayed(ChatRoute.Streamed(chunks, end), upstreamParse);
    RelayedEnds(chunks, end, upstreamParse);
    DecodeDelivered(OnePerChunk(es), show, parse);
    OnePerChunkView(es);
  }

  /** End to end, without the provider key: the proxy answers 500 with its
      JSON error, and the client shows that message without reaching a body
      or speaking. */
  lemma MissingKeyTurn(messages: seq<ChatRoute.ChatMessage>, upstream: ChatRoute.Upstream,
                       upstreamParse: string -> ChatRoute.UpstreamPayload, parse: string -> ClientPayload)
    ensures var resp := ChatRoute.Handled(false, messages, upstream, upstreamParse);
      && resp == ChatRoute.JsonError(500, ChatRoute.MissingKeyError)
      && ReplyOutcome(NotOk(resp.status, JsonBody(resp.error)), parse)
         == Outcome([], false, Some(ChatRoute.MissingKeyError), false)
  {
    assert ChatRoute.MissingKeyError != [];
  }
}
