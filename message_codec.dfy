/**
 * The Thrift message class a Chunk is parameterised by, taken abstractly:
 * `msg.write(protocol)` emits the bytes `encode(msg)`, and `msg.read(protocol)`
 * on the unread bytes of a stream either decodes one record, reports end of
 * input (Thrift raises EOFError), or fails with any other error.
 */
module MessageCodec {
  import opened ByteStreams

  datatype Decoded<M> =
    | Record(msg: M, length: nat)  // one message, taking the first `length` bytes
    | EndOfInput                   // EOFError: the stream ends here
    | Malformed                    // any other decoding error

  datatype Codec<!M> = Codec(encode: M -> seq<byte>, decode: seq<byte> -> Decoded<M>)

  /**
   * What every Thrift struct reader does: on no bytes at all it reports end
   * of input, and a decoded record consumes at least one byte and no more
   * than there are.
   */
  ghost predicate Progressing<M>(c: Codec<M>)
  {
    && c.decode([]) == EndOfInput
    && forall s :: c.decode(s).Record? ==> 0 < c.decode(s).length <= |s|
  }

  /** Reading back what `write` produced yields the message and stops exactly at its end. */
  ghost predicate RoundTrips<M(!new)>(c: Codec<M>)
  {
    forall m, rest :: c.decode(c.encode(m) + rest) == Record(m, |c.encode(m)|)
  }

  ghost predicate Lawful<M(!new)>(c: Codec<M>)
  {
    Progressing(c) && RoundTrips(c)
  }

  /** The bytes of `msgs` written one after the other, with no framing between them. */
  function EncodeAll<M>(c: Codec<M>, msgs: seq<M>): (bytes: seq<byte>)
    decreases |msgs|
  {
    if msgs == [] then [] else c.encode(msgs[0]) + EncodeAll(c, msgs[1..])
  }

  /**
   * One pass of a decode loop: the messages decoded in stream order, and
   * whether the pass ended on end of input (`complete`) or on a decoding
   * error raised after those messages.
   */
  datatype Pass<M> = Pass(msgs: seq<M>, complete: bool)

  /** Decode records from the front of `s` until the codec reports end of input or an error. */
  function DecodeStream<M>(c: Codec<M>, s: seq<byte>): (p: Pass<M>)
    requires Progressing(c)
    decreases |s|
  {
    match c.decode(s)
    case EndOfInput => Pass([], true)
    case Malformed => Pass([], false)
    case Record(m, n) =>
      var rest := DecodeStream(c, s[n..]);
      Pass([m] + rest.msgs, rest.complete)
  }

  lemma {:induction false} EncodeAllAppend<M>(c: Codec<M>, a: seq<M>, b: seq<M>)
    ensures EncodeAll(c, a + b) == EncodeAll(c, a) + EncodeAll(c, b)
    decreases |a|
  {
    if a == [] {
      assert a + b == b;
    } else {
      assert (a + b)[1..] == a[1..] + b;
      EncodeAllAppend(c, a[1..], b);
    }
  }

  /**
   * Records written in front of any tail are read back, in order, ahead of
   * whatever the tail decodes to; the pass ends as the tail's pass ends.
   */
  lemma {:induction false} DecodeAfterRecords<M(!new)>(c: Codec<M>, msgs: seq<M>, tail: seq<byte>)
    requires Lawful(c)
    ensures DecodeStream(c, EncodeAll(c, msgs) + tail)
         == Pass(msgs + DecodeStream(c, tail).msgs, DecodeStream(c, tail).complete)
    decreases |msgs|
  {
    if msgs == [] {
      assert EncodeAll(c, msgs) + tail == tail;
    } else {
      var head := c.encode(msgs[0]);
      var rest := EncodeAll(c, msgs[1..]) + tail;
      assert EncodeAll(c, msgs) + tail == head + rest;
      assert c.decode(head + rest) == Record(msgs[0], |head|);
      assert (head + rest)[|head|..] == rest;
      DecodeAfterRecords(c, msgs[1..], tail);
      assert msgs == [msgs[0]] + msgs[1..];
    }
  }

  /** Writing `msgs` and decoding the result yields exactly `msgs`, ending cleanly. */
  lemma {:induction false} DecodeEncodeAll<M(!new)>(c: Codec<M>, msgs: seq<M>)
    requires Lawful(c)
    ensures DecodeStream(c, EncodeAll(c, msgs)) == Pass(msgs, true)
  {
    DecodeAfterRecords(c, msgs, []);
    assert EncodeAll(c, msgs) + [] == EncodeAll(c, msgs);
    assert msgs + [] == msgs;
  }

  /**
   * A trailing fragment the codec reports as end of input (Thrift raises
   * EOFError on a truncated record as well as on an empty stream) ends the
   * pass cleanly: the fragment is dropped without any error.
   */
  lemma TruncatedTailIsSilentlyDropped<M(!new)>(c: Codec<M>, msgs: seq<M>, fragment: seq<byte>)
    requires Lawful(c)
    requires c.decode(fragment) == EndOfInput
    ensures DecodeStream(c, EncodeAll(c, msgs) + fragment) == Pass(msgs, true)
  {
    DecodeAfterRecords(c, msgs, fragment);
    assert msgs + [] == msgs;
  }
}
