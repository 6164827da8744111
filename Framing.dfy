/** The line framing shared by the chat proxy and the browser client: a
    cut-down subset of server-sent events in which every event is one line
    `data: <payload>` followed by a blank line. There is no `event:` or `id:`
    field, no joining of several `data` lines and no buffering of a line cut
    across two network chunks.

    JSON is not implemented: the proxy's `JSON.stringify` is a function
    parameter `show`, the client's `JSON.parse` a function parameter `parse`,
    and `Faithful` states what the round trip of the two must satisfy. */
module Framing {
  import opened Text

  const DataPrefix: string := "data: "
  const DoneMarker: string := "[DONE]"

  /** A line that carries an event: one that starts with `data: `. */
  predicate IsDataLine(line: string) {
    StartsWith(line, DataPrefix)
  }

  /** `line.slice(6).trim()`: what follows the prefix, without surrounding whitespace. */
  function Payload(line: string): (r: string)
    requires IsDataLine(line)
    ensures r == [] || (!IsSpace(r[0]) && !IsSpace(r[|r| - 1]))
    ensures |r| <= |line| - |DataPrefix|
  {
    Trim(line[|DataPrefix|..])
  }

  /** One normalized event of the proxy's output stream. */
  datatype Event = TokenEvent(token: string) | DoneEvent | ErrorEvent(message: string)

  /** The objects the proxy serialises: `{token}` and `{error}`. */
  datatype WireObject = TokenObject(token: string) | ErrorObject(error: string)

  /** What the client reads from a parsed payload: `parsed.error` and
      `parsed.token`, with `""` standing for an absent or falsy field;
      `Unparseable` is a payload on which `JSON.parse` throws a `SyntaxError`. */
  datatype ClientPayload = Unparseable | Fields(error: string, token: string)

  /** A value thrown by an awaited operation: an `Error` (with its `name`
      and `message`) or some other value. */
  datatype Thrown = ErrorInstance(name: string, message: string) | NonError

  /** What the client reads back from a serialised wire object. */
  function Expected(o: WireObject): ClientPayload {
    match o
    case TokenObject(t) => Fields("", t)
    case ErrorObject(m) => Fields(m, "")
  }

  /** What `JSON.stringify` and `JSON.parse` guarantee to one another: the
      serialised text stays on one line, has no surrounding whitespace, is not
      the terminal marker and parses back to its fields. */
  ghost predicate Faithful(show: WireObject -> string, parse: string -> ClientPayload) {
    forall o: WireObject ::
      '\n' !in show(o) && Trim(show(o)) == show(o) && show(o) != DoneMarker && parse(show(o)) == Expected(o)
  }

  /** What follows `data: ` on the line of one event: the marker itself, or
      the serialised object. */
  function Wire(e: Event, show: WireObject -> string): string {
    match e
    case DoneEvent => DoneMarker
    case TokenEvent(t) => show(TokenObject(t))
    case ErrorEvent(m) => show(ErrorObject(m))
  }

  /** The text of one event: `data: <payload>\n\n`. */
  function Frame(e: Event, show: WireObject -> string): string {
    DataPrefix + Wire(e, show) + "\n\n"
  }

  /** The bytes of a whole event sequence, in order. */
  function Encode(es: seq<Event>, show: WireObject -> string): string {
    if es == [] then [] else Frame(es[0], show) + Encode(es[1..], show)
  }
}
