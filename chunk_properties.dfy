/**
 * What a Chunk promises across several calls: the constructor's rules,
 * records written then read back, the digest of a closed chunk, the count
 * over repeated passes, and deserialize(serialize(m)).
 */
module ChunkProperties {
  import opened Wrappers
  import opened ByteStreams
  import opened MessageCodec
  import opened ChunkFile

  // ----- the constructor's decision -----

  lemma UnknownModeRejected(path: Option<PathArg>, data: Option<seq<byte>>, fileObj: Option<HandleInfo>, mode: string)
    requires mode !in AllowedModes
    ensures Resolve(path, data, fileObj, mode) == Err(BadMode(mode))
  {
  }

  lemma PathExcludesOtherSources(path: PathArg, data: Option<seq<byte>>, fileObj: Option<HandleInfo>, mode: string)
    requires mode in AllowedModes
    requires data.Some? || fileObj.Some?
    ensures Resolve(Some(path), data, fileObj, mode) == Err(MultipleSources)
  {
  }

  /** An existing path opens only for 'rb' or 'ab', an existing .xz path only for 'rb'; the mode is kept. */
  lemma ExistingPathModes(path: PathArg, mode: string)
    requires path.onDisk.Some?
    ensures var r := Resolve(Some(path), None, None, mode);
      && (r.Ok? <==> (mode == "rb" || (mode == "ab" && !EndsWithXz(path.name))))
      && (r.Ok? ==> r.value == Plan(ParseMode(mode).value, if EndsWithXz(path.name) then XzPipe else ExistingFile))
      && (mode == "wb" ==> r == Err(WouldOverwrite))
      && (mode == "ab" && EndsWithXz(path.name) ==> r == Err(XzNotReadOnly))
  {
  }

  /** A missing path is created for 'wb' or 'ab' and refused for 'rb'. */
  lemma MissingPathModes(path: PathArg, mode: string)
    requires path.onDisk.None?
    ensures var r := Resolve(Some(path), None, None, mode);
      && (r.Ok? <==> (mode == "wb" || mode == "ab"))
      && (r.Ok? ==> r.value == Plan(ParseMode(mode).value, NewFile))
      && (mode == "rb" ==> r == Err(MissingFile))
  {
  }

  /** `Chunk()` with any allowed mode, the default 'rb' included, is an in-memory chunk open for writing. */
  lemma BareChunkWritesToMemory(mode: string)
    requires mode in AllowedModes
    ensures Resolve(None, None, None, mode) == Ok(Plan(Write, NewBuffer))
  {
  }

  /** `data` is read from in 'rb', appended to in 'ab', and refused in 'wb'. */
  lemma DataModes(data: seq<byte>, mode: string)
    ensures var r := Resolve(None, Some(data), None, mode);
      && (mode == "rb" ==> r == Ok(Plan(Read, BufferOver(data))))
      && (mode == "ab" ==> r == Ok(Plan(Append, SeededBuffer(data))))
      && (mode == "wb" ==> r == Err(DataInWriteMode))
  {
  }

  /**
   * The declarative rules determine the decision: a plan that meets them is
   * the one `Resolve` makes.
   */
  lemma ResolveIsDetermined(path: Option<PathArg>, data: Option<seq<byte>>, fileObj: Option<HandleInfo>, mode: string, plan: Plan)
    requires Admissible(path, data, fileObj, mode)
    requires Some(plan.mode) == EffectiveMode(path, data, fileObj, mode)
    requires SourceFits(plan.source, path, data, fileObj, mode)
    ensures Resolve(path, data, fileObj, mode) == Ok(plan)
  {
  }

  // ----- writing -----

  /** Add every message of `msgs`, in order, to a chunk open for writing. */
  method AddAll<M>(c: Chunk<M>, msgs: seq<M>)
    requires c.Valid() && !c.mode.Read?
    modifies c`count, c`outBuffer
    ensures c.Valid()
    ensures c.outBuffer == old(c.outBuffer) + EncodeAll(c.codec, msgs)
    ensures c.count == old(c.count) + |msgs|
  {
    for i := 0 to |msgs|
      invariant c.Valid()
      invariant c.outBuffer == old(c.outBuffer) + EncodeAll(c.codec, msgs[..i])
      invariant c.count == old(c.count) + i
    {
      var _ := c.Add(msgs[i]);
      assert msgs[..i + 1] == msgs[..i] + [msgs[i]];
      EncodeAllAppend(c.codec, msgs[..i], [msgs[i]]);
      assert EncodeAll(c.codec, [msgs[i]]) == c.codec.encode(msgs[i]) + EncodeAll(c.codec, []);
    }
    assert msgs[..|msgs|] == msgs;
  }

  /**
   * Add `msgs` to a chunk just opened for writing and close it: a file gains
   * the records' bytes, an in-memory buffer is freed with them, and either way
   * the frozen digest is the MD5 of exactly the records' bytes, whatever the
   * handle held before.
   */
  method WriteAndClose<M>(c: Chunk<M>, msgs: seq<M>) returns (stored: seq<byte>, digest: Option<Digest>)
    requires c.Valid() && !c.mode.Read? && c.oChunk != null && !c.wrapper.fh.closed
    requires c.wrapper.fed == [] && c.outBuffer == []
    modifies c`count, c`outBuffer, c`snapshot, c`oChunk, c.wrapper`fed, c.wrapper.fh`contents, c.wrapper.fh`pos, c.wrapper.fh`closed
    ensures c.Valid() && c.oChunk == null && c.wrapper.fh.closed
    ensures stored == c.wrapper.fh.contents
    ensures stored == if c.wrapper.fh.durable then old(c.wrapper.fh.contents) + EncodeAll(c.codec, msgs) else []
    ensures digest == c.Md5Hexdigest() && digest == Some(Md5Hex(EncodeAll(c.codec, msgs)))
    ensures c.count == old(c.count) + |msgs|
  {
    AddAll(c, msgs);
    var ok := c.Close();
    assert [] + EncodeAll(c.codec, msgs) == EncodeAll(c.codec, msgs);
    stored := c.wrapper.fh.contents;
    digest := c.Md5Hexdigest();
  }

  /**
   * Write `msgs` to a new file, close it, reopen the file for reading and
   * iterate: the same messages come back in order and the pass ends
   * cleanly; the length is the number of messages; the frozen digest is the
   * MD5 of the file's bytes, and a reader that went through them once
   * reports the same digest. With no messages this is the empty chunk.
   */
  method WriteThenRead<M(!new)>(codec: Codec<M>, name: string, msgs: seq<M>, xzcat: seq<byte> -> seq<byte>)
    returns (stored: seq<byte>, written: Option<Digest>, back: Pass<M>, n: nat, reread: Option<Digest>)
    requires Lawful(codec)
    requires !EndsWithXz(name)
    ensures stored == EncodeAll(codec, msgs)
    ensures written == Some(Md5Hex(stored))
    ensures back == Pass(msgs, true) && n == |msgs|
    ensures reread == written
  {
    MissingPathModes(PathArg(name, None), "wb");
    var w := Chunk<M>.Open(Some(PathArg(name, None)), None, null, "wb", codec, xzcat);
    var writer := w.value;
    stored, written := WriteAndClose(writer, msgs);
    assert stored == EncodeAll(codec, msgs);
    ExistingPathModes(PathArg(name, Some(stored)), "rb");
    var r := Chunk<M>.Open(Some(PathArg(name, Some(stored))), None, null, "rb", codec, xzcat);
    var reader := r.value;
    var p := reader.Iterate();
    back := p.value;
    DecodeEncodeAll(codec, msgs);
    n := reader.Len();
    reread := reader.Md5Hexdigest();
  }

  /**
   * Append `after` to a file that holds `before`: reading the file back
   * yields `before` then `after`, while the digest of the appending chunk
   * covers only the bytes it wrote, not the ones already in the file.
   */
  method AppendToFileThenRead<M(!new)>(codec: Codec<M>, name: string, before: seq<M>, after: seq<M>, xzcat: seq<byte> -> seq<byte>)
    returns (stored: seq<byte>, written: Option<Digest>, back: Pass<M>)
    requires Lawful(codec)
    requires !EndsWithXz(name)
    ensures stored == EncodeAll(codec, before) + EncodeAll(codec, after)
    ensures written == Some(Md5Hex(EncodeAll(codec, after)))
    ensures back == Pass(before + after, true)
  {
    var existing := PathArg(name, Some(EncodeAll(codec, before)));
    ExistingPathModes(existing, "ab");
    var w := Chunk<M>.Open(Some(existing), None, null, "ab", codec, xzcat);
    var writer := w.value;
    stored, written := WriteAndClose(writer, after);
    ExistingPathModes(PathArg(name, Some(stored)), "rb");
    var r := Chunk<M>.Open(Some(PathArg(name, Some(stored))), None, null, "rb", codec, xzcat);
    var reader := r.value;
    var p := reader.Iterate();
    back := p.value;
    EncodeAllAppend(codec, before, after);
    DecodeEncodeAll(codec, before + after);
  }

  /**
   * `Chunk(data=seed, mode='ab')`: the seed is written into the buffer
   * before the digesting wrapper is attached, so the digest covers the
   * records only. The close frees the buffer, seed and records with it:
   * the digest is all that is left of them.
   */
  method AppendToBuffer<M>(codec: Codec<M>, seed: seq<byte>, msgs: seq<M>)
    returns (stored: seq<byte>, digest: Option<Digest>)
    requires Progressing(codec)
    ensures stored == []
    ensures digest == Some(Md5Hex(EncodeAll(codec, msgs)))
  {
    DataModes(seed, "ab");
    var w := Chunk<M>.Open(None, Some(seed), null, "ab", codec, (s: seq<byte>) => s);
    var writer := w.value;
    stored, digest := WriteAndClose(writer, msgs);
  }

  /**
   * `Chunk()`, add, close: the records were only ever in memory, so once the
   * buffer is freed no caller can read them back; the frozen digest of
   * their bytes survives.
   */
  method BareChunkAfterClose<M>(codec: Codec<M>, msgs: seq<M>)
    returns (stored: seq<byte>, closed: bool, digest: Option<Digest>, n: nat)
    requires Progressing(codec)
    ensures stored == [] && closed
    ensures digest == Some(Md5Hex(EncodeAll(codec, msgs)))
    ensures n == |msgs|
  {
    BareChunkWritesToMemory("wb");
    var w := Chunk<M>.Open(None, None, null, "wb", codec, (s: seq<byte>) => s);
    var c := w.value;
    stored, digest := WriteAndClose(c, msgs);
    closed := c.wrapper.fh.closed;
    n := c.Len();
  }

  /**
   * Closing a new file twice: the second close succeeds, changes neither
   * the file nor the digest, and the digest stays that of the bytes written.
   */
  method CloseTwice<M>(codec: Codec<M>, name: string, msgs: seq<M>)
    returns (first: Option<Digest>, second: Option<Digest>, storedFirst: seq<byte>, storedSecond: seq<byte>, secondOk: bool)
    requires Progressing(codec)
    ensures first == Some(Md5Hex(EncodeAll(codec, msgs))) && second == first
    ensures storedFirst == EncodeAll(codec, msgs) && storedSecond == storedFirst
    ensures secondOk
  {
    MissingPathModes(PathArg(name, None), "wb");
    var w := Chunk<M>.Open(Some(PathArg(name, None)), None, null, "wb", codec, (s: seq<byte>) => s);
    var c := w.value;
    storedFirst, first := WriteAndClose(c, msgs);
    secondOk := c.Close();
    second := c.Md5Hexdigest();
    storedSecond := c.wrapper.fh.contents;
  }

  /**
   * The output protocol is never taken down, so `add` after `close` is
   * accepted and counted, but its bytes stay in the transport buffer and
   * never reach the file or the frozen digest.
   */
  method AddAfterClose<M>(codec: Codec<M>, name: string, msgs: seq<M>, late: M)
    returns (accepted: bool, n: nat, stored: seq<byte>, digest: Option<Digest>)
    requires Progressing(codec)
    ensures accepted && n == |msgs| + 1
    ensures stored == EncodeAll(codec, msgs)
    ensures digest == Some(Md5Hex(EncodeAll(codec, msgs)))
  {
    MissingPathModes(PathArg(name, None), "wb");
    var w := Chunk<M>.Open(Some(PathArg(name, None)), None, null, "wb", codec, (s: seq<byte>) => s);
    var c := w.value;
    var _, _ := WriteAndClose(c, msgs);
    accepted := c.Add(late);
    var _ := c.Close();
    n := c.Len();
    stored := c.wrapper.fh.contents;
    digest := c.Md5Hexdigest();
  }

  // ----- reading -----

  /** A read chunk refuses `add`, a write chunk refuses iteration. */
  method ModesAreEnforced<M>(codec: Codec<M>, blob: seq<byte>, msg: M)
    returns (added: bool, iterated: Result<Pass<M>, IterError>)
    requires Progressing(codec)
    ensures !added
    ensures iterated == Err(NotReadable)
  {
    DataModes(blob, "rb");
    var r := Chunk<M>.Open(None, Some(blob), null, "rb", codec, (s: seq<byte>) => s);
    var reader := r.value;
    added := reader.Add(msg);
    BareChunkWritesToMemory("wb");
    var w := Chunk<M>.Open(None, None, null, "wb", codec, (s: seq<byte>) => s);
    var writer := w.value;
    iterated := writer.Iterate();
  }

  /** `s` repeated `k` times. */
  function Repeat(s: seq<byte>, k: nat): seq<byte>
  {
    if k == 0 then [] else Repeat(s, k - 1) + s
  }

  /**
   * `k` full passes over `Chunk(data=blob)`: every pass rewinds and yields
   * the same messages, the count is never reset, so the length is `k`
   * times the number of records; the live digest has absorbed the buffer
   * `k` times over.
   */
  method RepeatedPasses<M>(codec: Codec<M>, blob: seq<byte>, k: nat)
    returns (n: nat, digest: Option<Digest>)
    requires Progressing(codec)
    ensures n == k * |DecodeStream(codec, blob).msgs|
    ensures digest == Some(Md5Hex(Repeat(blob, k)))
  {
    DataModes(blob, "rb");
    var r := Chunk<M>.Open(None, Some(blob), null, "rb", codec, (s: seq<byte>) => s);
    var c := r.value;
    ghost var records := |DecodeStream(codec, blob).msgs|;
    for j := 0 to k
      invariant c.Valid() && c.iChunk == c.wrapper && !c.wrapper.fh.closed && c.wrapper.fh.seekable
      invariant c.wrapper.fh.contents == blob && c.snapshot == None
      invariant c.count == j * records
      invariant c.wrapper.fed == Repeat(blob, j)
    {
      var p := c.Iterate();
      assert (j + 1) * records == j * records + records;
    }
    n := c.Len();
    digest := c.Md5Hexdigest();
  }

  /**
   * An existing .xz path is read through the `xzcat` pipe, which cannot be
   * rewound: the first pass yields the decompressed records, a second pass
   * starts at the end and yields nothing, cleanly.
   */
  method PipeReadsOnce<M>(codec: Codec<M>, name: string, compressed: seq<byte>, xzcat: seq<byte> -> seq<byte>)
    returns (first: Pass<M>, second: Pass<M>, n: nat)
    requires Progressing(codec)
    requires EndsWithXz(name)
    ensures first == DecodeStream(codec, xzcat(compressed))
    ensures second == Pass([], true)
    ensures n == |first.msgs|
  {
    ExistingPathModes(PathArg(name, Some(compressed)), "rb");
    var r := Chunk<M>.Open(Some(PathArg(name, Some(compressed))), None, null, "rb", codec, xzcat);
    var c := r.value;
    var p1 := c.Iterate();
    first := p1.value;
    var p2 := c.Iterate();
    second := p2.value;
    n := c.Len();
  }

  // ----- serialize / deserialize -----

  lemma DeserializeSerialize<M(!new)>(c: Codec<M>, msg: M)
    requires Lawful(c)
    ensures ExactlyOne(DecodeStream(c, Serialize(c, msg))) == Ok(msg)
  {
    DecodeEncodeAll(c, [msg]);
    assert EncodeAll(c, [msg]) == c.encode(msg) + EncodeAll(c, []);
    assert c.encode(msg) + [] == c.encode(msg);
  }

  /** Two records in one blob are refused by deserialize. */
  lemma DeserializeRefusesTwo<M(!new)>(c: Codec<M>, a: M, b: M)
    requires Lawful(c)
    ensures ExactlyOne(DecodeStream(c, Serialize(c, a) + Serialize(c, b))) == Err(NotOneMessage(2))
  {
    DecodeEncodeAll(c, [a, b]);
    assert EncodeAll(c, [a, b]) == c.encode(a) + EncodeAll(c, [b]);
    assert EncodeAll(c, [b]) == c.encode(b) + EncodeAll(c, []);
    assert c.encode(b) + [] == c.encode(b);
  }
}
