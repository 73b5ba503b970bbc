/**
 * `MouseEventServerMessage`: a mouse event on a computer's screen, sent from the client
 * to the server. After the container id written by its base class it carries the event
 * type as a byte and the button or scroll direction and the two coordinates as VarInts.
 * `ComputerServerMessage`, the base class, is not part of this model; its one field is
 * the container id, written as a VarInt first.
 */
module MouseEventMessages {
  import opened Wrappers
  import opened JavaInt
  import opened Buffers

  const TYPE_CLICK: int := 0
  const TYPE_DRAG: int := 1
  const TYPE_UP: int := 2
  const TYPE_SCROLL: int := 3

  /** The constructor stores its arguments in the matching fields. */
  datatype MouseEventMessage = MouseEventMessage(containerId: int, eventType: int, arg: int, x: int, y: int)

  /** What `toBytes` writes: the container id, then type, arg, x and y, in that order. */
  function Encoding(m: MouseEventMessage): (r: seq<Token>)
    ensures |r| == 5
  {
    [VarIntToken(m.containerId), ByteToken(ToByte(m.eventType)), VarIntToken(m.arg), VarIntToken(m.x), VarIntToken(m.y)]
  }

  /** What the buffer constructor reads from `at`, in the same order, and where it stops; `None` where a read would throw. */
  function Decode(tokens: seq<Token>, at: nat): Option<(MouseEventMessage, nat)> {
    var containerId := VarIntAt(tokens, at);
    var eventType := ByteAt(tokens, at + 1);
    var arg := VarIntAt(tokens, at + 2);
    var x := VarIntAt(tokens, at + 3);
    var y := VarIntAt(tokens, at + 4);
    if containerId.Some? && eventType.Some? && arg.Some? && x.Some? && y.Some? then
      Some((MouseEventMessage(containerId.value, eventType.value, arg.value, x.value, y.value), at + 5))
    else None
  }

  /**
   * Decoding an encoding, wherever it sits in the buffer, gives back the container id,
   * arg, x and y, and the type narrowed to a byte: the type itself whenever it fits in a
   * signed byte, as the four type constants do. Exactly the five tokens are consumed.
   */
  lemma RoundTrip(m: MouseEventMessage, prefix: seq<Token>, rest: seq<Token>)
    ensures Decode(prefix + Encoding(m) + rest, |prefix|) == Some((m.(eventType := ToByte(m.eventType)), |prefix| + 5))
    ensures -128 <= m.eventType < 128 ==> Decode(prefix + Encoding(m) + rest, |prefix|) == Some((m, |prefix| + 5))
  {
    var tokens := prefix + Encoding(m) + rest;
    ReadInside(prefix, Encoding(m), rest, 0);
    ReadInside(prefix, Encoding(m), rest, 1);
    ReadInside(prefix, Encoding(m), rest, 2);
    ReadInside(prefix, Encoding(m), rest, 3);
    ReadInside(prefix, Encoding(m), rest, 4);
  }

  /** Whatever decodes was written by `toBytes`: the tokens read are the message's encoding. */
  lemma DecodedWasEncoded(tokens: seq<Token>, at: nat)
    requires Decode(tokens, at).Some?
    ensures var (m, next) := Decode(tokens, at).value;
      next == at + 5 && next <= |tokens| && tokens[at..next] == Encoding(m) && -128 <= m.eventType < 128
  {
    var (m, next) := Decode(tokens, at).value;
    assert forall k :: 0 <= k < 5 ==> tokens[at..next][k] == Encoding(m)[k];
  }

  /** `toBytes`. */
  method ToBytes(m: MouseEventMessage, buf: Buffer)
    modifies buf
    ensures buf.tokens == old(buf.tokens) + Encoding(m) && buf.readerIndex == old(buf.readerIndex)
  {
    buf.Write(VarIntToken(m.containerId));
    buf.WriteByte(m.eventType);
    buf.Write(VarIntToken(m.arg));
    buf.Write(VarIntToken(m.x));
    buf.Write(VarIntToken(m.y));
  }

  /** The buffer constructor: the message read from the reader index, which moves past it. */
  method FromBytes(buf: Buffer) returns (r: Option<MouseEventMessage>)
    modifies buf
    ensures buf.tokens == old(buf.tokens)
    ensures var d := Decode(old(buf.tokens), old(buf.readerIndex));
      (r.Some? <==> d.Some?) && (r.Some? ==> r.value == d.value.0 && buf.readerIndex == d.value.1)
  {
    var containerId := buf.ReadVarInt();
    if containerId.None? {
      return None;
    }
    var eventType := buf.ReadByte();
    if eventType.None? {
      return None;
    }
    var arg := buf.ReadVarInt();
    if arg.None? {
      return None;
    }
    var x := buf.ReadVarInt();
    if x.None? {
      return None;
    }
    var y := buf.ReadVarInt();
    if y.None? {
      return None;
    }
    r := Some(MouseEventMessage(containerId.value, eventType.value, arg.value, x.value, y.value));
  }

  /** A message written into a new buffer and read back out of it. */
  method Transmit(m: MouseEventMessage) returns (r: Option<MouseEventMessage>)
    ensures r == Some(m.(eventType := ToByte(m.eventType)))
    ensures -128 <= m.eventType < 128 ==> r == Some(m)
  {
    var buf := new Buffer();
    ToBytes(m, buf);
    RoundTrip(m, [], []);
    assert buf.tokens == [] + Encoding(m) + [];
    r := FromBytes(buf);
  }

  datatype MouseAction = Click | Drag | Up | Scroll

  /** One call on the menu's input handler: `mouseClick(arg, x, y)` and its siblings. */
  datatype InputCall = InputCall(action: MouseAction, arg: int, x: int, y: int)

  /** `handle`: the input call for the message's type; any other type does nothing. */
  function Handle(m: MouseEventMessage): (r: Option<InputCall>)
    ensures r.Some? <==> TYPE_CLICK <= m.eventType <= TYPE_SCROLL
    ensures r.Some? ==> r.value.arg == m.arg && r.value.x == m.x && r.value.y == m.y
    ensures r.Some? ==> (r.value.action == Click <==> m.eventType == TYPE_CLICK)
    ensures r.Some? ==> (r.value.action == Drag <==> m.eventType == TYPE_DRAG)
    ensures r.Some? ==> (r.value.action == Up <==> m.eventType == TYPE_UP)
    ensures r.Some? ==> (r.value.action == Scroll <==> m.eventType == TYPE_SCROLL)
  {
    if m.eventType == TYPE_CLICK then Some(InputCall(Click, m.arg, m.x, m.y))
    else if m.eventType == TYPE_DRAG then Some(InputCall(Drag, m.arg, m.x, m.y))
    else if m.eventType == TYPE_UP then Some(InputCall(Up, m.arg, m.x, m.y))
    else if m.eventType == TYPE_SCROLL then Some(InputCall(Scroll, m.arg, m.x, m.y))
    else None
  }

  /**
   * The server makes the call the client meant: a message that reaches it through the
   * buffer is handled as the one sent, whenever the type fits in a byte. A type outside
   * the byte range is narrowed on the way, so that 256, which the client would ignore,
   * arrives as a click.
   */
  lemma TransmittedHandledAlike(m: MouseEventMessage, prefix: seq<Token>, rest: seq<Token>)
    ensures -128 <= m.eventType < 128 ==>
      Decode(prefix + Encoding(m) + rest, |prefix|).Some? && Handle(Decode(prefix + Encoding(m) + rest, |prefix|).value.0) == Handle(m)
    ensures m.eventType == 256 ==>
      Handle(m).None? && Handle(Decode(prefix + Encoding(m) + rest, |prefix|).value.0) == Some(InputCall(Click, m.arg, m.x, m.y))
  {
    RoundTrip(m, prefix, rest);
  }
}
