/**
 * Socket.IO framing over Engine.IO v3 as the client reads it: an event frame is
 * the two characters `42` followed by a JSON array whose first element names
 * the event. `JSON.parse` is a parameter: `None` stands for a body it rejects.
 */
module SocketIo {
  import opened Wrappers
  import opened JsValues

  /** The event-frame prefix: Engine.IO "message" (4) carrying Socket.IO "event" (2). */
  const EventPrefix: string := "42"

  predicate StartsWith(s: string, prefix: string)
  {
    |prefix| <= |s| && s[..|prefix|] == prefix
  }

  /** What `decodeSocketIoMessage` returns: `[null, null]`, or `[data[0], data.slice(1)]`. */
  datatype Decoded = Ignored | Event(name: JsValue, args: JsValue)

  /**
   * `data[0]` and `data.slice(1)` with JavaScript's meaning: an array gives its
   * head (or `undefined`) and tail, a string its first character and the rest;
   * on any other value `slice` is not a function, the call throws inside the
   * decoder's `try`, and the result is `[null, null]`.
   */
  function Split(data: JsValue): (r: Decoded)
    ensures r.Event? <==> data.Arr? || data.Str?
    ensures data.Arr? && data.items != [] ==> r == Event(data.items[0], Arr(data.items[1..]))
    ensures data.Str? ==> r.args.Str? && (r.name.Str? ==> |r.name.s| == 1)
  {
    match data
    case Arr(items) =>
      if items == [] then Event(Undefined, Arr([])) else Event(items[0], Arr(items[1..]))
    case Str(s) =>
      if s == "" then Event(Undefined, Str("")) else Event(Str(s[..1]), Str(s[1..]))
    case _ => Ignored
  }

  function Decode(message: string, parse: string -> Option<JsValue>): (r: Decoded)
    ensures !StartsWith(message, EventPrefix) ==> r == Ignored
    ensures StartsWith(message, EventPrefix) && parse(message[2..]).None? ==> r == Ignored
    ensures r.Event? ==> StartsWith(message, EventPrefix) && parse(message[2..]).Some?
    ensures r.Event? && r.name.Str? && |r.name.s| != 1 ==>
              r.args.Arr? && parse(message[2..]).value == Arr([r.name] + r.args.items)
  {
    if StartsWith(message, EventPrefix) then
      match parse(message[2..])
      case None => Ignored
      case Some(data) =>
        var d := Split(data);
        assert data.Arr? && d.Event? && d.name.Str? ==> data.items == [d.name] + d.args.items;
        d
    else
      Ignored
  }

  /** The text of an event frame: the prefix and the serialised array. */
  function EventFrameText(name: string, args: seq<JsValue>, stringify: JsValue -> string): string
  {
    EventPrefix + stringify(Arr([Str(name)] + args))
  }

  /**
   * Whenever parsing inverts serialising on the payload, the decoder reads an
   * event frame back as the event name and its arguments.
   */
  lemma EventRoundTrip(name: string, args: seq<JsValue>,
                       stringify: JsValue -> string, parse: string -> Option<JsValue>)
    requires parse(stringify(Arr([Str(name)] + args))) == Some(Arr([Str(name)] + args))
    ensures Decode(EventFrameText(name, args, stringify), parse) == Event(Str(name), Arr(args))
  {
  }

  /** The Engine.IO pong `3`, like every frame without the event prefix, decodes to nothing. */
  lemma PongIgnored(parse: string -> Option<JsValue>)
    ensures Decode("3", parse) == Ignored
  {
  }
}
