# streamcorpus Chunk and EntityType, modelled in Dafny

This project models two parts of the streamcorpus library.

**The `Chunk` container** (`py/src/streamcorpus/_chunk.py`) is a flat file of Thrift records written back to back, with no header, length prefix or index. A chunk is opened in mode `wb`, `ab` or `rb` over one of three sources:
- a path;
- an in-memory buffer (`data`);
- a handle the caller already opened (`file_obj`).

Every byte the chunk moves passes through an `md5_file` wrapper, which folds it into one running MD5. The chunk counts records as they are added or read. The first `close` freezes the digest. Iteration decodes records until the codec reports end of input. `serialize` and `deserialize` convert one message to and from bytes.

**The `EntityType` enum** (`java/src/streamcorpus/EntityType.java`) maps seventeen constants to the integers 0..16, and `findByValue` maps those integers back.

Modules:
- `Wrappers`: `Option` and `Result`.
- `ByteStreams` holds three things:
  - raw handles (`Handle`: a file, a StringIO or the `xzcat` pipe);
  - `md5_file` (`DigestingStream`), whose `fed` field is the running hash's state: the bytes absorbed so far, in order;
  - the symbolic digest `Md5Hex(bytes)`.
- `MessageCodec` describes the message class abstractly.
  - A codec is a pair of functions: `encode(msg)` and `decode(unread bytes)`. The `decode` result is `Record(msg, length)`, `EndOfInput` (Thrift's EOFError) or `Malformed`.
  - The codec laws are hypotheses of the lemmas that use them, not axioms:
    - `Progressing`: an empty stream is end of input, and a record consumes 1..n bytes;
    - `RoundTrips`: decoding what `encode` produced yields the same message.
  - `DecodeStream` is the specification of one decode pass.
- `ChunkFile` contains five pieces:
  - the constructor's decision as the pure function `Resolve`;
  - the `Chunk` class;
  - its `Open` method, which allocates what `Resolve` chose;
  - `add`, `close`, `md5_hexdigest`, `__len__` and `__iter__`;
  - `serialize` and `deserialize`.
- `ChunkProperties`: the constructor's rules one by one, and client methods that prove properties spanning several calls. Examples: write then read back, append, close twice, repeated passes, a pipe source.
- `EntityTypes`: the enum, `getValue` and `findByValue`.

External pieces become inputs:
- Whether a path exists, and the bytes stored there, are fields of `PathArg`.
- The `xzcat` decompressor is a function parameter of `Chunk.Open`.
- The message class is a `Codec` value.

Where the code and the intended design differ, the model follows the code:
- `add` after `close` is accepted and counted, because `_o_protocol` is never cleared. Its bytes never reach the file or the digest (`ChunkProperties.AddAfterClose`).
- `md5_hexdigest` returns None when no wrapper is attached. That case cannot arise: `Chunk.Md5Hexdigest` proves the result is always present.
- A `data` argument passed together with a `file_obj` and no path is silently ignored. It is not rejected as a second source.
- A truncated final record ends iteration without error whenever the codec reports it as end of input (`MessageCodec.TruncatedTailIsSilentlyDropped`).
- `close` closes an in-memory buffer too, which frees it. So the records of `Chunk()` or `Chunk(data=..., mode='ab')` can no longer be read once the chunk is closed; only the digest and the count remain (`ChunkProperties.BareChunkAfterClose`).
- `seek` bypasses the hash. So the live digest of a chunk opened for reading absorbs the data once per pass (`ChunkProperties.RepeatedPasses`).

## Model

| member | source | states |
|---|---|---|
| `ByteStreams.DigestingStream.constructor` | py/src/streamcorpus/_chunk.py:55-57 | the wrapper starts with an empty running hash over the given handle |
| `ByteStreams.DigestingStream.Read` | py/src/streamcorpus/_chunk.py:69-72 | the bytes the handle returns are appended to the hash's input; a failing read absorbs nothing |
| `ByteStreams.DigestingStream.Write` | py/src/streamcorpus/_chunk.py:74-76 | the bytes join the hash's input before they are forwarded, even when the handle then refuses them; otherwise the handle gains exactly those bytes |
| `ByteStreams.DigestingStream.Hexdigest` | py/src/streamcorpus/_chunk.py:78-80 | the digest is that of every byte absorbed so far, in the order absorbed |
| `ByteStreams.Handle.Close` | py/src/streamcorpus/_chunk.py:66-67 | closing marks the handle closed; a file keeps its bytes, while a StringIO or a pipe holds nothing afterwards; closing again is harmless |
| `ByteStreams.Handle.Seek` | py/src/streamcorpus/_chunk.py:249-254 | rewinds a seekable handle; a pipe raises IOError and stays where it is; a closed handle raises ValueError |
| `MessageCodec.EncodeAllAppend` | py/src/streamcorpus/_chunk.py:200-204 | records are stored back to back with no framing, so the bytes of two batches are the concatenation of their bytes |
| `MessageCodec.DecodeAfterRecords` | py/src/streamcorpus/_chunk.py:261-276 | a decode pass over records followed by any tail yields those records in order, then whatever the tail yields, and it ends as the tail's pass ends |
| `MessageCodec.DecodeEncodeAll` | py/src/streamcorpus/_chunk.py:261-276 | decoding the bytes of N written records yields exactly those N records in order and ends on end of input |
| `MessageCodec.TruncatedTailIsSilentlyDropped` | py/src/streamcorpus/_chunk.py:267-276 | a trailing fragment that the codec reports as EOFError ends the pass cleanly; the records before it are kept and the fragment is lost without error |
| `ChunkFile.ModeString` | py/src/streamcorpus/_chunk.py:112 | every mode is one of 'wb', 'ab', 'rb' |
| `ChunkFile.ParseMode` | py/src/streamcorpus/_chunk.py:112-113 | a mode string is accepted exactly when it is in ['wb', 'ab', 'rb'], and it is read back unchanged |
| `ChunkFile.Resolve` | py/src/streamcorpus/_chunk.py:112-195 | the constructor succeeds exactly when the declarative rules hold (`Admissible`); the mode chosen is the requested one, except that a bare `Chunk()` is forced to 'wb'; the source chosen fits the arguments (`SourceFits`) |
| `ChunkFile.Chunk.constructor` | py/src/streamcorpus/_chunk.py:189-198 | 'wb'/'ab' attach the wrapper as output only, 'rb' as input only; the count is 0 and no digest is frozen |
| `ChunkFile.Chunk.Open` | py/src/streamcorpus/_chunk.py:86-198 | fails with `Resolve`'s error when `Resolve` rejects; otherwise opens the chosen source (existing file, xzcat pipe, new file, empty buffer, buffer over `data`, buffer seeded with `data`, or the caller's handle), with the handle contents and position each case implies and nothing yet absorbed by the hash |
| `ChunkFile.Chunk.Add` | py/src/streamcorpus/_chunk.py:200-204 | refused exactly on an 'rb' chunk; otherwise the record's bytes join the transport buffer and the count grows by exactly one |
| `ChunkFile.Chunk.Close` | py/src/streamcorpus/_chunk.py:206-215 | with an output wrapper, flushes the buffer through it, closes the handle (a file then holds the flushed records, an in-memory buffer holds nothing), freezes the digest of every byte written and detaches the wrapper; without one, it changes nothing, so a second close is a no-op |
| `ChunkFile.Chunk.Md5Hexdigest` | py/src/streamcorpus/_chunk.py:217-230 | always present; the frozen digest once it exists, otherwise the live digest of the attached wrapper |
| `ChunkFile.DigestPrecedence` | py/src/streamcorpus/_chunk.py:217-230 | the frozen digest wins; failing that the output wrapper's, then the input wrapper's; None only when all three are absent |
| `ChunkFile.Chunk.Len` | py/src/streamcorpus/_chunk.py:238-240 | `len(chunk)` is the running count of records added and yielded |
| `ChunkFile.Chunk.Iterate` | py/src/streamcorpus/_chunk.py:242-276 | refused on a write chunk; otherwise rewinds (a pipe is read from where it is), absorbs the bytes read into the hash, yields `DecodeStream` of them, and adds the number of records yielded to the count |
| `ChunkFile.DecodeLoop` | py/src/streamcorpus/_chunk.py:261-276 | the `while 1` decode loop yields exactly `DecodeStream` of its input: records in stream order, stopping on EOFError, and a failure flag if another error ends it |
| `ChunkFile.Serialize` | py/src/streamcorpus/_chunk.py:30-38 | the blob for one message is exactly the bytes of a chunk holding that one record |
| `ChunkFile.ExactlyOne` | py/src/streamcorpus/_chunk.py:44-48 | a pass gives a message exactly when it ended cleanly with one record, and that record is the message; a decoding error is reported as such; any other count is reported with the count |
| `ChunkFile.Deserialize` | py/src/streamcorpus/_chunk.py:40-48 | one pass over `Chunk(data=blob)`: the message if the pass yields exactly one record, an error otherwise |
| `ChunkProperties.UnknownModeRejected` | py/src/streamcorpus/_chunk.py:112-113 | any mode outside ['wb', 'ab', 'rb'] is rejected before anything else is looked at |
| `ChunkProperties.PathExcludesOtherSources` | py/src/streamcorpus/_chunk.py:135-137 | a path together with data or file_obj is rejected |
| `ChunkProperties.ExistingPathModes` | py/src/streamcorpus/_chunk.py:138-152 | an existing path opens exactly for 'rb', or for 'ab' when it does not end in .xz; 'wb' would overwrite; an .xz path is read through the pipe |
| `ChunkProperties.MissingPathModes` | py/src/streamcorpus/_chunk.py:153-160 | a missing path is created exactly for 'wb' or 'ab'; 'rb' is rejected |
| `ChunkProperties.BareChunkWritesToMemory` | py/src/streamcorpus/_chunk.py:164-169 | with no path, data or file_obj, the chunk is an in-memory write buffer in mode 'wb', whatever mode was asked for |
| `ChunkProperties.DataModes` | py/src/streamcorpus/_chunk.py:171-181 | `data` is read from in 'rb', seeds an append buffer in 'ab', and raises in 'wb' |
| `ChunkProperties.ResolveIsDetermined` | py/src/streamcorpus/_chunk.py:135-195 | any plan meeting the declarative rules is the one the constructor picks, so those rules fully describe the decision |
| `ChunkProperties.AddAll` | py/src/streamcorpus/_chunk.py:200-204 | adding N messages in order buffers their bytes in that order and adds N to the count |
| `ChunkProperties.WriteAndClose` | py/src/streamcorpus/_chunk.py:200-215 | after adding and closing, a file has gained exactly the records' bytes and an in-memory buffer holds nothing; either way the frozen digest is the MD5 of the records' bytes |
| `ChunkProperties.WriteThenRead` | py/src/streamcorpus/_chunk.py:200-276 | N messages written to a new file and read back come out the same and in order; the pass ends cleanly; the length is N; the frozen digest is the MD5 of the file's bytes, and a reader reports the same digest (N = 0 is the empty chunk) |
| `ChunkProperties.AppendToFileThenRead` | py/src/streamcorpus/_chunk.py:150-215 | appending to an existing file keeps the old records ahead of the new ones when read back; the digest covers only the appended bytes |
| `ChunkProperties.AppendToBuffer` | py/src/streamcorpus/_chunk.py:176-215 | with `data` in mode 'ab', the seed is not part of the digest, and after close the freed buffer holds neither seed nor records |
| `ChunkProperties.BareChunkAfterClose` | py/src/streamcorpus/_chunk.py:164-215 | after `Chunk()`, add and close, the in-memory buffer is closed and holds nothing; the frozen digest of the records and the count remain |
| `ChunkProperties.CloseTwice` | py/src/streamcorpus/_chunk.py:206-230 | a second close of a new file succeeds and changes neither the file's bytes nor the digest |
| `ChunkProperties.AddAfterClose` | py/src/streamcorpus/_chunk.py:200-215 | `add` after `close` is accepted and counted, but its bytes reach neither the file nor the digest |
| `ChunkProperties.ModesAreEnforced` | py/src/streamcorpus/_chunk.py:200-246 | `add` on an 'rb' chunk is refused; iterating a 'wb' chunk is refused |
| `ChunkProperties.RepeatedPasses` | py/src/streamcorpus/_chunk.py:238-276 | after k full passes over N records the length is k*N, since the count is never reset; the live digest has absorbed the data k times |
| `ChunkProperties.PipeReadsOnce` | py/src/streamcorpus/_chunk.py:142-254 | an .xz path is read through an unseekable pipe: the first pass yields the decompressed records, and a second pass yields nothing, cleanly |
| `ChunkProperties.DeserializeSerialize` | py/src/streamcorpus/_chunk.py:30-48 | `deserialize(serialize(m))` is exactly `m` |
| `ChunkProperties.DeserializeRefusesTwo` | py/src/streamcorpus/_chunk.py:44-48 | a blob holding two records is refused by the exactly-one assertion, with count 2 |
| `EntityTypes.GetValue` | java/src/streamcorpus/EntityType.java:45-56 | each constant's value lies in 0..16 and is its position in the declaration |
| `EntityTypes.FindByValue` | java/src/streamcorpus/EntityType.java:62-101 | a constant is found exactly for 0..16, and it is the one declared at that position; null elsewhere |
| `EntityTypes.DeclarationIsComplete` | java/src/streamcorpus/EntityType.java:21-43 | the declaration lists every constant exactly once |
| `EntityTypes.FindByValueInvertsGetValue` | java/src/streamcorpus/EntityType.java:54-101 | `findByValue(v)` returns `e` if and only if `e.getValue() == v` |
| `EntityTypes.GetValueInjective` | java/src/streamcorpus/EntityType.java:21-49 | no two constants share a value |
| `EntityTypes.FindByValueNullOutsideRange` | java/src/streamcorpus/EntityType.java:98-99 | every value outside 0..16 gives null |

## Left out

- `decrypt_and_uncompress` and `compress_and_encrypt` (`_chunk.py:278-386`): both are subprocess plumbing around `gpg` and `xz`, plus `/tmp` key directories named by `uuid` and removed with `shutil.rmtree`. Nothing in them is local logic beyond collecting stderr text.
- The `xzcat` child process: it is the function parameter `xzcat` of `Chunk.Open`. Its stderr, its exit status and its lifetime are not modelled.
- Filesystem calls (`os.path.exists`, `os.makedirs`, `open`): existence and stored bytes are inputs (`PathArg`). Creating parent directories is not modelled. A file is its `Handle` object.
- MD5 itself: a digest is the symbolic term `Md5Hex(bytes)`. Symbolic digests of different byte sequences differ, which real MD5 does not guarantee. No stated property relies on that.
- The Thrift binary protocol and the message schemas (`StreamItem`, `StreamItem_v0_1_0`): they are replaced by an abstract codec. Its laws are hypotheses.
- Chunk.Iterate: the input `TBufferedTransport` reads ahead in 4096-byte blocks. The model reads the rest of the handle in one read through the wrapper instead. After a complete pass both have absorbed the same bytes. After a pass that ends in a decoding error, the model's digest may include bytes the source had not yet read.
- Chunk.Iterate: the source is a lazy generator that adds one to the count per yielded record. The model runs one complete pass, as `list(chunk)` does, and adds the pass's records after its loop. The two agree once a pass is complete. A generator abandoned part way is not modelled.
- Chunk.Add: the output transport is modelled as thrift 0.9's `TBufferedTransport`, which keeps every write until `flush`. So nothing reaches the wrapper before `close`.
- Handle: writes always go to the end of the contents. This is where every handle the constructor opens for writing is positioned. A caller's handle positioned before its end would overwrite in the source.
- Handle: handles that lack `seek`, `flush`, `close` or `mode` attributes, which `md5_file` copies only when present, are not modelled. Flushing the handle itself has no modelled effect. The misspelt attribute `get_value` is never copied from a StringIO and plays no part.
- Resolve: an empty `file_obj.mode` raises IndexError in the source. The model reports it as `HandleModeMismatch`, like a mismatching first letter.
- The `_i_transport`/`_i_protocol` wiring (`_chunk.py:197-198`): it refers to the output fields but is never used, because `__iter__` builds its own transport.
- `__str__` and `__repr__`: text formatting only.
