/**
 * `FriendlyByteBuf`, seen one field at a time: a message is written as a sequence of
 * typed tokens (a byte, a VarInt, an enum ordinal, a text component) and read back from
 * a reader index that moves past each token read. The byte-level VarInt and JSON
 * encodings are not part of this model; a read that would throw (past the end, or a
 * token of another kind) gives `None` and leaves the reader index where it was.
 */
module Buffers {
  import opened Wrappers
  import opened JavaInt

  datatype Token =
    | ByteToken(b: SByte)
    | VarIntToken(i: int)
    | EnumToken(ordinal: int)
    | ComponentToken(text: string)

  /** The byte at `at`, if that token is one. */
  function ByteAt(tokens: seq<Token>, at: nat): (r: Option<SByte>)
    ensures r.Some? <==> at < |tokens| && tokens[at].ByteToken?
    ensures r.Some? ==> r.value == tokens[at].b
  {
    if at < |tokens| && tokens[at].ByteToken? then Some(tokens[at].b) else None
  }

  /** The VarInt at `at`, if that token is one. */
  function VarIntAt(tokens: seq<Token>, at: nat): (r: Option<int>)
    ensures r.Some? <==> at < |tokens| && tokens[at].VarIntToken?
    ensures r.Some? ==> r.value == tokens[at].i
  {
    if at < |tokens| && tokens[at].VarIntToken? then Some(tokens[at].i) else None
  }

  /** `readEnum`: the ordinal at `at`, if that token is one and names one of the `count` constants. */
  function EnumAt(tokens: seq<Token>, at: nat, count: nat): (r: Option<nat>)
    ensures r.Some? <==> at < |tokens| && tokens[at].EnumToken? && 0 <= tokens[at].ordinal < count
    ensures r.Some? ==> r.value == tokens[at].ordinal && r.value < count
  {
    if at < |tokens| && tokens[at].EnumToken? && 0 <= tokens[at].ordinal < count then Some(tokens[at].ordinal) else None
  }

  /** The component at `at`, if that token is one. */
  function ComponentAt(tokens: seq<Token>, at: nat): (r: Option<string>)
    ensures r.Some? <==> at < |tokens| && tokens[at].ComponentToken?
    ensures r.Some? ==> r.value == tokens[at].text
  {
    if at < |tokens| && tokens[at].ComponentToken? then Some(tokens[at].text) else None
  }

  /** What was written before and after a message does not change how the message's own tokens are read. */
  lemma {:induction false} ReadInside(prefix: seq<Token>, written: seq<Token>, rest: seq<Token>, k: nat)
    requires k < |written|
    ensures |prefix| + k < |prefix + written + rest|
    ensures (prefix + written + rest)[|prefix| + k] == written[k]
  {
    assert (prefix + written + rest) == prefix + (written + rest);
    assert (written + rest)[k] == written[k];
  }

  class Buffer {
    var tokens: seq<Token>
    var readerIndex: nat

    /** A new, empty buffer. */
    constructor ()
      ensures tokens == [] && readerIndex == 0
    {
      tokens := [];
      readerIndex := 0;
    }

    /** Appends one token; reading is unaffected. */
    method Write(t: Token)
      modifies this
      ensures tokens == old(tokens) + [t] && readerIndex == old(readerIndex)
    {
      tokens := tokens + [t];
    }

    /** `writeByte(int)`: only the low eight bits are written. */
    method WriteByte(v: int)
      modifies this
      ensures tokens == old(tokens) + [ByteToken(ToByte(v))] && readerIndex == old(readerIndex)
    {
      Write(ByteToken(ToByte(v)));
    }

    /** `readByte`. */
    method ReadByte() returns (r: Option<SByte>)
      modifies this
      ensures tokens == old(tokens) && r == ByteAt(tokens, old(readerIndex))
      ensures readerIndex == if r.Some? then old(readerIndex) + 1 else old(readerIndex)
    {
      r := ByteAt(tokens, readerIndex);
      if r.Some? {
        readerIndex := readerIndex + 1;
      }
    }

    /** `readVarInt`. */
    method ReadVarInt() returns (r: Option<int>)
      modifies this
      ensures tokens == old(tokens) && r == VarIntAt(tokens, old(readerIndex))
      ensures readerIndex == if r.Some? then old(readerIndex) + 1 else old(readerIndex)
    {
      r := VarIntAt(tokens, readerIndex);
      if r.Some? {
        readerIndex := readerIndex + 1;
      }
    }

    /** `readEnum` for an enum with `count` constants. */
    method ReadEnum(count: nat) returns (r: Option<nat>)
      modifies this
      ensures tokens == old(tokens) && r == EnumAt(tokens, old(readerIndex), count)
      ensures readerIndex == if r.Some? then old(readerIndex) + 1 else old(readerIndex)
    {
      r := EnumAt(tokens, readerIndex, count);
      if r.Some? {
        readerIndex := readerIndex + 1;
      }
    }

    /** `readComponent`. */
    method ReadComponent() returns (r: Option<string>)
      modifies this
      ensures tokens == old(tokens) && r == ComponentAt(tokens, old(readerIndex))
      ensures readerIndex == if r.Some? then old(readerIndex) + 1 else old(readerIndex)
    {
      r := ComponentAt(tokens, readerIndex);
      if r.Some? {
        readerIndex := readerIndex + 1;
      }
    }
  }
}
