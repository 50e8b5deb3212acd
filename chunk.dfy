/**
 * The Chunk container of py/src/streamcorpus/_chunk.py: a flat file of
 * Thrift records written back to back, opened in one of three modes over a
 * path, an in-memory buffer or a caller's handle, and read or written through
 * one `md5_file` wrapper.
 */
module ChunkFile {
  import opened Wrappers
  import opened ByteStreams
  import opened MessageCodec

  /** The three open modes, 'wb', 'ab' and 'rb'. */
  datatype Mode = Write | Append | Read

  const AllowedModes: seq<string> := ["wb", "ab", "rb"]

  function ModeString(m: Mode): (s: string)
    ensures s in AllowedModes
  {
    match m
    case Write => "wb"
    case Append => "ab"
    case Read => "rb"
  }

  /** The constructor's `assert mode in allowed_modes`. */
  function ParseMode(s: string): (m: Option<Mode>)
    ensures m.Some? <==> s in AllowedModes
    ensures m.Some? ==> ModeString(m.value) == s
  {
    if s == "wb" then Some(Write)
    else if s == "ab" then Some(Append)
    else if s == "rb" then Some(Read)
    else None
  }

  function EndsWithXz(name: string): bool
  {
    |name| >= 3 && name[|name| - 3..] == ".xz"
  }

  /**
   * A `path` argument together with what the filesystem holds there:
   * `onDisk` is None exactly when `os.path.exists(path)` is false.
   */
  datatype PathArg = PathArg(name: string, onDisk: Option<seq<byte>>)

  /** What the constructor inspects of a `file_obj` argument: its `mode` attribute, if any. */
  datatype HandleInfo = HandleInfo(modeAttr: Option<string>)

  /** Where the bytes of a chunk live once the constructor has decided. */
  datatype Source =
    | ExistingFile           // open(path, mode) on a file that exists
    | XzPipe                 // the stdout of `xzcat path`: readable, not seekable
    | NewFile                // open(path, mode) creating the file
    | NewBuffer              // an empty StringIO to write to
    | BufferOver(data: seq<byte>)    // StringIO(data), positioned at the start
    | SeededBuffer(data: seq<byte>)  // an empty StringIO into which `data` is written
    | CallerHandle           // the caller's file_obj

  datatype Plan = Plan(mode: Mode, source: Source)

  datatype OpenError =
    | BadMode(mode: string)  // mode not in ['wb', 'ab', 'rb']
    | MultipleSources        // path together with data or file_obj
    | WouldOverwrite         // mode 'wb' on an existing path
    | XzNotReadOnly          // mode 'ab' on an existing .xz path
    | MissingFile            // mode 'rb' on a path that does not exist
    | DataInWriteMode        // data with mode 'wb'
    | HandleModeMismatch     // file_obj.mode[0] differs from mode[0]

  /** `file_obj.mode[0] == mode[0]`; an empty mode attribute fails the comparison too. */
  function SameAccess(handleMode: string, mode: string): bool
  {
    |handleMode| > 0 && |mode| > 0 && handleMode[0] == mode[0]
  }

  /** The rules a path argument must obey, stated one by one. */
  ghost predicate PathAccessAllowed(p: PathArg, mode: string)
  {
    && (p.onDisk.Some? ==> mode == "rb" || mode == "ab")
    && (p.onDisk.Some? && EndsWithXz(p.name) ==> mode == "rb")
    && (p.onDisk.None? ==> mode == "wb" || mode == "ab")
  }

  /** The argument combinations the constructor accepts. */
  ghost predicate Admissible(path: Option<PathArg>, data: Option<seq<byte>>, fileObj: Option<HandleInfo>, mode: string)
  {
    && mode in AllowedModes
    && (path.Some? ==> data.None? && fileObj.None? && PathAccessAllowed(path.value, mode))
    && (path.None? && fileObj.None? && data.Some? ==> mode != "wb")
    && (path.None? && fileObj.Some? && fileObj.value.modeAttr.Some? ==> SameAccess(fileObj.value.modeAttr.value, mode))
  }

  /** A bare `Chunk()` writes to memory whatever mode was asked for; otherwise the mode asked for is kept. */
  ghost function EffectiveMode(path: Option<PathArg>, data: Option<seq<byte>>, fileObj: Option<HandleInfo>, mode: string): Option<Mode>
  {
    if path.None? && data.None? && fileObj.None? && mode in AllowedModes then Some(Write) else ParseMode(mode)
  }

  /** Which source goes with which arguments. */
  ghost predicate SourceFits(s: Source, path: Option<PathArg>, data: Option<seq<byte>>, fileObj: Option<HandleInfo>, mode: string)
  {
    match s
    case ExistingFile => path.Some? && path.value.onDisk.Some? && !EndsWithXz(path.value.name)
    case XzPipe => path.Some? && path.value.onDisk.Some? && EndsWithXz(path.value.name)
    case NewFile => path.Some? && path.value.onDisk.None?
    case NewBuffer => path.None? && data.None? && fileObj.None?
    case BufferOver(d) => path.None? && fileObj.None? && data == Some(d) && mode == "rb"
    case SeededBuffer(d) => path.None? && fileObj.None? && data == Some(d) && mode == "ab"
    case CallerHandle => path.None? && fileObj.Some?
  }

  /**
   * The decision `Chunk.__init__` makes before it opens anything: reject the
   * arguments, or choose the effective mode and the source of bytes. A
   * `data` argument next to a `file_obj` (and no path) is ignored, as in the
   * constructor.
   */
  function Resolve(path: Option<PathArg>, data: Option<seq<byte>>, fileObj: Option<HandleInfo>, mode: string): (r: Result<Plan, OpenError>)
    ensures r.Ok? <==> Admissible(path, data, fileObj, mode)
    ensures r.Ok? ==> Some(r.value.mode) == EffectiveMode(path, data, fileObj, mode)
    ensures r.Ok? ==> SourceFits(r.value.source, path, data, fileObj, mode)
  {
    match ParseMode(mode)
    case None => Err(BadMode(mode))
    case Some(m) =>
      if path.Some? then
        if data.Some? || fileObj.Some? then Err(MultipleSources)
        else if path.value.onDisk.Some? then
          if m == Write then Err(WouldOverwrite)
          else if EndsWithXz(path.value.name) then
            if m != Read then Err(XzNotReadOnly) else Ok(Plan(Read, XzPipe))
          else Ok(Plan(m, ExistingFile))
        else if m == Read then Err(MissingFile)
        else Ok(Plan(m, NewFile))
      else if data.None? && fileObj.None? then Ok(Plan(Write, NewBuffer))
      else if fileObj.None? then
        match m
        case Read => Ok(Plan(Read, BufferOver(data.value)))
        case Append => Ok(Plan(Append, SeededBuffer(data.value)))
        case Write => Err(DataInWriteMode)
      else if fileObj.value.modeAttr.Some? && !SameAccess(fileObj.value.modeAttr.value, mode) then
        Err(HandleModeMismatch)
      else Ok(Plan(m, CallerHandle))
  }

  /** The bytes one iteration pass reads: from the start after a seek, else from where the handle is. */
  function PassInput(contents: seq<byte>, pos: nat, seekable: bool): (bytes: seq<byte>)
    requires pos <= |contents|
  {
    if seekable then contents else contents[pos..]
  }

  datatype IterError =
    | NotReadable   // 'cannot iterate over a Chunk open for writing'
    | HandleClosed  // seek on a closed handle raises ValueError

  class Chunk<M> {
    var mode: Mode
    /** `_count`: records added plus records yielded by iteration; never reset. */
    var count: nat
    /** `_md5_hexdigest`: the digest frozen by the first successful close. */
    var snapshot: Option<Digest>
    /** `_o_chunk_fh`: the wrapper while the chunk is open for writing. */
    var oChunk: DigestingStream?
    /** `_i_chunk_fh`: the wrapper of a chunk opened for reading. */
    var iChunk: DigestingStream?
    /** The write buffer of the output TBufferedTransport: bytes not yet flushed to the wrapper. */
    var outBuffer: seq<byte>
    /** The one `md5_file` the constructor creates. */
    const wrapper: DigestingStream
    /** The message class: how records are written and read. */
    const codec: Codec<M>

    ghost predicate Valid()
      reads this, wrapper, wrapper.fh
    {
      && Progressing(codec)
      && wrapper.fh.Valid()
      && (mode.Read? ==> oChunk == null && iChunk == wrapper && snapshot.None? && outBuffer == [])
      && (!mode.Read? ==> iChunk == null && (oChunk == null <==> snapshot.Some?) && (oChunk != null ==> oChunk == wrapper))
    }

    /** The end of `__init__`: attach the wrapper as output (modes 'wb', 'ab') or as input ('rb'). */
    constructor (mode: Mode, wrapper: DigestingStream, codec: Codec<M>)
      requires Progressing(codec) && wrapper.fh.Valid()
      ensures Valid()
      ensures this.mode == mode && this.wrapper == wrapper && this.codec == codec
      ensures count == 0 && snapshot == None && outBuffer == []
      ensures if mode.Read? then oChunk == null && iChunk == wrapper else oChunk == wrapper && iChunk == null
    {
      this.mode := mode;
      this.count := 0;
      this.snapshot := None;
      this.outBuffer := [];
      this.wrapper := wrapper;
      this.codec := codec;
      if mode.Read? {
        this.oChunk := null;
        this.iChunk := wrapper;
      } else {
        this.oChunk := wrapper;
        this.iChunk := null;
      }
    }

    /**
     * `Chunk(path, data, file_obj, mode, message)`: resolve the arguments,
     * open the chosen source and wrap it. The `xzcat` child is represented
     * by the function `xzcat` from the file's bytes to what the pipe yields.
     */
    static method Open(path: Option<PathArg>, data: Option<seq<byte>>, fileObj: Handle?, mode: string,
                       codec: Codec<M>, xzcat: seq<byte> -> seq<byte>)
      returns (r: Result<Chunk<M>, OpenError>)
      requires Progressing(codec)
      requires fileObj != null ==> fileObj.Valid()
      ensures var plan := Resolve(path, data, if fileObj == null then None else Some(HandleInfo(fileObj.modeAttr)), mode);
        && (r.Err? <==> plan.Err?)
        && (r.Err? ==> r.error == plan.error)
        && (r.Ok? ==> r.value.OpenedAs(plan.value, path, fileObj, codec, xzcat))
      ensures r.Ok? ==> fresh(r.value) && fresh(r.value.wrapper) && (fileObj == null ==> fresh(r.value.wrapper.fh))
    {
      var info := if fileObj == null then None else Some(HandleInfo(fileObj.modeAttr));
      var resolved := Resolve(path, data, info, mode);
      if resolved.Err? {
        return Err(resolved.error);
      }
      var plan := resolved.value;
      var fh: Handle;
      match plan.source {
        case ExistingFile =>
          var bytes := path.value.onDisk.value;
          fh := new Handle(bytes, if plan.mode.Read? then 0 else |bytes|, true, true, Some(mode));
        case XzPipe =>
          fh := new Handle(xzcat(path.value.onDisk.value), 0, false, false, Some("rb"));
        case NewFile =>
          fh := new Handle([], 0, true, true, Some(mode));
        case NewBuffer =>
          fh := new Handle([], 0, true, false, None);
        case BufferOver(d) =>
          fh := new Handle(d, 0, true, false, None);
        case SeededBuffer(d) =>
          fh := new Handle([], 0, true, false, None);
          var _ := fh.Write(d);  // written before the wrapper exists, so not digested
        case CallerHandle =>
          fh := fileObj;
      }
      var stream := new DigestingStream(fh);
      var c := new Chunk(plan.mode, stream, codec);
      r := Ok(c);
    }

    /** The state a freshly opened chunk is in, for each kind of source. */
    ghost predicate OpenedAs(plan: Plan, path: Option<PathArg>, fileObj: Handle?, codec: Codec<M>,
                             xzcat: seq<byte> -> seq<byte>)
      reads this, wrapper, wrapper.fh
    {
      && Valid()
      && mode == plan.mode && this.codec == codec
      && count == 0 && snapshot == None && outBuffer == [] && wrapper.fed == []
      && (if mode.Read? then oChunk == null && iChunk == wrapper else oChunk == wrapper && iChunk == null)
      && (plan.source != CallerHandle ==> !wrapper.fh.closed)
      && match plan.source
         case ExistingFile =>
           && path.Some? && path.value.onDisk.Some?
           && wrapper.fh.contents == path.value.onDisk.value && wrapper.fh.seekable && wrapper.fh.durable
           && wrapper.fh.pos == (if mode.Read? then 0 else |wrapper.fh.contents|)
         case XzPipe =>
           && path.Some? && path.value.onDisk.Some?
           && wrapper.fh.contents == xzcat(path.value.onDisk.value) && wrapper.fh.pos == 0 && !wrapper.fh.seekable && !wrapper.fh.durable
         case NewFile => wrapper.fh.contents == [] && wrapper.fh.pos == 0 && wrapper.fh.seekable && wrapper.fh.durable
         case NewBuffer => wrapper.fh.contents == [] && wrapper.fh.pos == 0 && wrapper.fh.seekable && !wrapper.fh.durable
         case BufferOver(d) => wrapper.fh.contents == d && wrapper.fh.pos == 0 && wrapper.fh.seekable && !wrapper.fh.durable
         case SeededBuffer(d) => wrapper.fh.contents == d && wrapper.fh.pos == |d| && wrapper.fh.seekable && !wrapper.fh.durable
         case CallerHandle => wrapper.fh == fileObj
    }

    /** `add(msg)`: only a chunk with an output protocol ('wb', 'ab') accepts it; the record is buffered. */
    method Add(msg: M) returns (ok: bool)
      requires Valid()
      modifies this`count, this`outBuffer
      ensures Valid()
      ensures ok == !mode.Read?
      ensures outBuffer == if ok then old(outBuffer) + codec.encode(msg) else old(outBuffer)
      ensures count == if ok then old(count) + 1 else old(count)
    {
      ok := !mode.Read?;
      if ok {
        outBuffer := outBuffer + codec.encode(msg);
        count := count + 1;
      }
    }

    /**
     * `close()`: with an output wrapper attached, flush the buffered records
     * through it, close the handle, freeze the digest and detach the wrapper;
     * otherwise do nothing. An in-memory handle loses its bytes with the
     * close, so only a file keeps the flushed records. A flush into a handle that is already closed
     * raises: the bytes have reached the digest but not the handle, and
     * nothing is frozen.
     */
    method Close() returns (ok: bool)
      requires Valid()
      modifies this`snapshot, this`oChunk, this`outBuffer, wrapper`fed, wrapper.fh`contents, wrapper.fh`pos, wrapper.fh`closed
      ensures Valid()
      ensures old(oChunk) == null ==> ok && unchanged(this) && unchanged(wrapper) && unchanged(wrapper.fh)
      ensures old(oChunk) != null ==>
        && wrapper.fed == old(wrapper.fed) + old(outBuffer)
        && outBuffer == []
        && wrapper.fh.closed
        && ok == !old(wrapper.fh.closed)
        && wrapper.fh.contents == (if !ok then old(wrapper.fh.contents)
                                   else if wrapper.fh.durable then old(wrapper.fh.contents) + old(outBuffer)
                                   else [])
        && (ok ==> oChunk == null && snapshot == Some(Md5Hex(wrapper.fed)))
        && (!ok ==> oChunk == old(oChunk) && snapshot == old(snapshot))
    {
      ok := true;
      if oChunk != null {
        var pending := outBuffer;
        outBuffer := [];
        ok := oChunk.Write(pending);
        if ok {
          oChunk.fh.Close();
          snapshot := Some(oChunk.Hexdigest());
          oChunk := null;
        }
      }
    }

    /**
     * The `md5_hexdigest` property: the frozen digest after a close,
     * otherwise the live digest of the attached output or input wrapper.
     */
    function Md5Hexdigest(): (d: Option<Digest>)
      requires Valid()
      reads this, wrapper, wrapper.fh
      ensures d.Some?
      ensures snapshot.Some? ==> d == snapshot
      ensures snapshot.None? ==> d == Some(Md5Hex(wrapper.fed))
    {
      DigestPrecedence(snapshot,
                       if oChunk != null then Some(oChunk.Hexdigest()) else None,
                       if iChunk != null then Some(iChunk.Hexdigest()) else None)
    }

    /** `len(chunk)`: the records added plus the records yielded by every pass so far. */
    function Len(): (n: nat)
      reads this
      ensures n == count
    {
      count
    }

    /**
     * One complete pass of `__iter__` (as `list(chunk)` runs it): rewind the
     * handle (an unseekable pipe is read from where it is), read the rest of
     * it through the wrapper and decode records until the codec reports end
     * of input or fails; every record decoded adds one to the count.
     */
    method Iterate() returns (r: Result<Pass<M>, IterError>)
      requires Valid()
      modifies this`count, wrapper`fed, wrapper.fh`pos
      ensures Valid()
      ensures iChunk == null ==>
        r == Err(NotReadable) && count == old(count) && wrapper.fed == old(wrapper.fed) && wrapper.fh.pos == old(wrapper.fh.pos)
      ensures iChunk != null && wrapper.fh.closed ==>
        r == Err(HandleClosed) && count == old(count) && wrapper.fed == old(wrapper.fed) && wrapper.fh.pos == old(wrapper.fh.pos)
      ensures iChunk != null && !wrapper.fh.closed ==>
        var bytes := PassInput(wrapper.fh.contents, old(wrapper.fh.pos), wrapper.fh.seekable);
        && r == Ok(DecodeStream(codec, bytes))
        && count == old(count) + |r.value.msgs|
        && wrapper.fed == old(wrapper.fed) + bytes
        && wrapper.fh.pos == |wrapper.fh.contents|
    {
      if iChunk == null {
        return Err(NotReadable);
      }
      var sought := iChunk.fh.Seek();
      if sought == ClosedError {
        return Err(HandleClosed);
      }
      // an Unseekable outcome is the IOError the loop swallows
      var got := iChunk.Read(None);
      assert got.value == PassInput(wrapper.fh.contents, old(wrapper.fh.pos), wrapper.fh.seekable);
      var pass := DecodeLoop(codec, got.value);
      count := count + |pass.msgs|;
      r := Ok(pass);
    }
  }

  /**
   * The `while 1` loop of `__iter__`: build a message, read it from the
   * stream, yield it; stop on EOFError; any other error propagates.
   */
  method DecodeLoop<M>(codec: Codec<M>, bytes: seq<byte>) returns (pass: Pass<M>)
    requires Progressing(codec)
    ensures pass == DecodeStream(codec, bytes)
  {
    var i := 0;
    var yielded: seq<M> := [];
    var complete := false;
    var done := false;
    while !done
      invariant i <= |bytes|
      invariant !done ==> !complete
      invariant !done ==>
        DecodeStream(codec, bytes) == Pass(yielded + DecodeStream(codec, bytes[i..]).msgs, DecodeStream(codec, bytes[i..]).complete)
      invariant done ==> DecodeStream(codec, bytes) == Pass(yielded, complete)
      decreases !done, |bytes| - i
    {
      match codec.decode(bytes[i..])
      case EndOfInput =>
        assert DecodeStream(codec, bytes[i..]) == Pass([], true);
        assert yielded + [] == yielded;
        done, complete := true, true;
      case Malformed =>
        assert DecodeStream(codec, bytes[i..]) == Pass([], false);
        assert yielded + [] == yielded;
        done := true;
      case Record(m, n) =>
        assert bytes[i..][n..] == bytes[i + n..];
        yielded := yielded + [m];
        i := i + n;
    }
    pass := Pass(yielded, complete);
  }

  /** The precedence of `md5_hexdigest`: frozen digest, then output wrapper, then input wrapper, else None. */
  function DigestPrecedence(snapshot: Option<Digest>, output: Option<Digest>, input: Option<Digest>): (d: Option<Digest>)
    ensures snapshot.Some? ==> d == snapshot
    ensures snapshot.None? && output.Some? ==> d == output
    ensures snapshot.None? && output.None? ==> d == input
    ensures d.None? <==> snapshot.None? && output.None? && input.None?
  {
    if snapshot.Some? then snapshot
    else if output.Some? then output
    else input
  }

  /**
   * `serialize(msg)`: the bytes `msg.write` emits into a fresh buffer, which
   * are exactly what a chunk holding the one record `msg` is made of.
   */
  function Serialize<M>(c: Codec<M>, msg: M): (blob: seq<byte>)
    ensures blob == EncodeAll(c, [msg])
  {
    assert c.encode(msg) + [] == c.encode(msg);
    c.encode(msg)
  }

  datatype DeserializeError =
    | DecodeFailed             // the decoding error propagates out of list(chunk)
    | NotOneMessage(count: nat) // 'got %d messages to deserialize instead of one'

  /** The exactly-one assertion `deserialize` applies to the messages of its one pass. */
  function ExactlyOne<M>(p: Pass<M>): (r: Result<M, DeserializeError>)
    ensures r.Ok? <==> p.complete && |p.msgs| == 1
    ensures r.Ok? ==> [r.value] == p.msgs
    ensures r == Err(DecodeFailed) <==> !p.complete
    ensures r.Err? && p.complete ==> r.error == NotOneMessage(|p.msgs|)
  {
    if !p.complete then Err(DecodeFailed)
    else if |p.msgs| != 1 then Err(NotOneMessage(|p.msgs|))
    else Ok(p.msgs[0])
  }

  /** `deserialize(blob)`: read `Chunk(data=blob)` once and insist on exactly one message. */
  method Deserialize<M>(c: Codec<M>, blob: seq<byte>) returns (r: Result<M, DeserializeError>)
    requires Progressing(c)
    ensures r == ExactlyOne(DecodeStream(c, blob))
  {
    var made := Chunk<M>.Open(None, Some(blob), null, "rb", c, (s: seq<byte>) => s);
    var chunk := made.value;
    var pass := chunk.Iterate();
    r := ExactlyOne(pass.value);
  }
}
