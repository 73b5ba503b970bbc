/**
 * `UploadResultMessage`: the server's answer to a file upload, sent to the client. It
 * carries the container id and the result, and an error message exactly when the
 * result is an error. The `UploadResult` enum is not part of this model; its constants
 * are taken to be `QUEUED`, `CONSUMED` and `ERROR`, in that order.
 */
module UploadResultMessages {
  import opened Wrappers
  import opened Buffers

  datatype UploadResult = Queued | Consumed | Error

  /** `ordinal()`. */
  function Ordinal(r: UploadResult): (n: nat)
    ensures n < 3
  {
    match r
    case Queued => 0
    case Consumed => 1
    case Error => 2
  }

  /** `values()[n]`. */
  function FromOrdinal(n: nat): (r: UploadResult)
    requires n < 3
    ensures Ordinal(r) == n
  {
    if n == 0 then Queued else if n == 1 then Consumed else Error
  }

  /** Each constant is recovered from its ordinal. */
  lemma OrdinalRoundTrip(r: UploadResult)
    ensures FromOrdinal(Ordinal(r)) == r
  {
  }

  datatype UploadResultMessage = UploadResultMessage(containerId: int, result: UploadResult, errorMessage: Option<string>)

  /** A message the encoder can write: an error result has its message. */
  predicate Writable(m: UploadResultMessage) {
    m.result == Error ==> m.errorMessage.Some?
  }

  /** `queued(container)`: no error message. */
  function QueuedMessage(containerId: int): (m: UploadResultMessage)
    ensures m.containerId == containerId && m.result == Queued && m.errorMessage.None? && Writable(m)
  {
    UploadResultMessage(containerId, Queued, None)
  }

  /** `consumed(container)`: no error message. */
  function ConsumedMessage(containerId: int): (m: UploadResultMessage)
    ensures m.containerId == containerId && m.result == Consumed && m.errorMessage.None? && Writable(m)
  {
    UploadResultMessage(containerId, Consumed, None)
  }

  /** `error(container, errorMessage)`: the message given. */
  function ErrorMessage(containerId: int, errorMessage: string): (m: UploadResultMessage)
    ensures m.containerId == containerId && m.result == Error && m.errorMessage == Some(errorMessage) && Writable(m)
  {
    UploadResultMessage(containerId, Error, Some(errorMessage))
  }

  /** What `toBytes` writes: the container id, the result, and the error component only for an error. */
  function Encoding(m: UploadResultMessage): (r: seq<Token>)
    requires Writable(m)
    ensures |r| == if m.result == Error then 3 else 2
  {
    [VarIntToken(m.containerId), EnumToken(Ordinal(m.result))]
      + (if m.result == Error then [ComponentToken(m.errorMessage.value)] else [])
  }

  /** What the buffer constructor reads from `at` and where it stops; `None` where a read would throw. */
  function Decode(tokens: seq<Token>, at: nat): Option<(UploadResultMessage, nat)> {
    var containerId := VarIntAt(tokens, at);
    var ordinal := EnumAt(tokens, at + 1, 3);
    if containerId.None? || ordinal.None? then None
    else
      var result := FromOrdinal(ordinal.value);
      if result != Error then Some((UploadResultMessage(containerId.value, result, None), at + 2))
      else
        var errorMessage := ComponentAt(tokens, at + 2);
        if errorMessage.None? then None
        else Some((UploadResultMessage(containerId.value, result, errorMessage), at + 3))
  }

  /**
   * A decoded message has an error message exactly when its result is an error, and the
   * reader moves past the error component exactly then.
   */
  lemma DecodedIsWritable(tokens: seq<Token>, at: nat)
    requires Decode(tokens, at).Some?
    ensures var (m, next) := Decode(tokens, at).value;
      && Writable(m)
      && (m.errorMessage.Some? <==> m.result == Error)
      && next == at + (if m.result == Error then 3 else 2)
      && next <= |tokens| && tokens[at..next] == Encoding(m)
  {
    var (m, next) := Decode(tokens, at).value;
    assert forall k :: 0 <= k < next - at ==> tokens[at..next][k] == Encoding(m)[k];
  }

  /**
   * Decoding an encoding, wherever it sits in the buffer, gives back the container id,
   * the result and the error message, and consumes exactly the encoding's tokens.
   */
  lemma RoundTrip(m: UploadResultMessage, prefix: seq<Token>, rest: seq<Token>)
    requires Writable(m)
    requires m.result != Error ==> m.errorMessage.None?
    ensures Decode(prefix + Encoding(m) + rest, |prefix|) == Some((m, |prefix| + |Encoding(m)|))
  {
    var e := Encoding(m);
    ReadInside(prefix, e, rest, 0);
    ReadInside(prefix, e, rest, 1);
    if m.result == Error {
      ReadInside(prefix, e, rest, 2);
    }
    OrdinalRoundTrip(m.result);
  }

  /** `toBytes`. */
  method ToBytes(m: UploadResultMessage, buf: Buffer)
    requires Writable(m)
    modifies buf
    ensures buf.tokens == old(buf.tokens) + Encoding(m) && buf.readerIndex == old(buf.readerIndex)
  {
    buf.Write(VarIntToken(m.containerId));
    buf.Write(EnumToken(Ordinal(m.result)));
    if m.result == Error {
      buf.Write(ComponentToken(m.errorMessage.value));
    }
  }

  /** The buffer constructor: the message read from the reader index, which moves past it. */
  method FromBytes(buf: Buffer) returns (r: Option<UploadResultMessage>)
    modifies buf
    ensures buf.tokens == old(buf.tokens)
    ensures var d := Decode(old(buf.tokens), old(buf.readerIndex));
      (r.Some? <==> d.Some?) && (r.Some? ==> r.value == d.value.0 && buf.readerIndex == d.value.1)
  {
    var containerId := buf.ReadVarInt();
    if containerId.None? {
      return None;
    }
    var ordinal := buf.ReadEnum(3);
    if ordinal.None? {
      return None;
    }
    var result := FromOrdinal(ordinal.value);
    var errorMessage: Option<string> := None;
    if result == Error {
      errorMessage := buf.ReadComponent();
      if errorMessage.None? {
        return None;
      }
    }
    r := Some(UploadResultMessage(containerId.value, result, errorMessage));
  }

  /** Each factory's message, written into a new buffer and read back out of it, arrives unchanged. */
  method Transmit(m: UploadResultMessage) returns (r: Option<UploadResultMessage>)
    requires Writable(m)
    requires m.result != Error ==> m.errorMessage.None?
    ensures r == Some(m)
  {
    var buf := new Buffer();
    ToBytes(m, buf);
    RoundTrip(m, [], []);
    assert buf.tokens == [] + Encoding(m) + [];
    r := FromBytes(buf);
  }

  /**
   * `handle`: the result and error message are passed to the open computer screen when
   * its menu has the message's container id. `screen` is the container id of the
   * current screen's menu when that screen is a computer screen, and `None` otherwise.
   */
  function Handle(m: UploadResultMessage, screen: Option<int>): (r: Option<(UploadResult, Option<string>)>)
    ensures r.Some? <==> screen == Some(m.containerId)
    ensures r.Some? ==> r.value == (m.result, m.errorMessage)
  {
    if screen.Some? && screen.value == m.containerId then Some((m.result, m.errorMessage)) else None
  }
}
