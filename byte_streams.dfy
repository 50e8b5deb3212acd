/**
 * Raw byte handles and the digesting wrapper `md5_file` that a Chunk reads and
 * writes through (py/src/streamcorpus/_chunk.py, class md5_file).
 */
module ByteStreams {
  import opened Wrappers

  newtype byte = x: int | 0 <= x < 256

  /**
   * The hex digest that MD5 computes over `input`. MD5 itself is not modelled:
   * a digest is kept as the symbolic term "MD5 of these bytes", so every
   * property below is about which bytes were fed to the hash, in which order.
   */
  datatype Digest = Md5Hex(input: seq<byte>)

  /** What `seek(0)` on a handle did. */
  datatype SeekOutcome =
    | Rewound      // the position is back at the start
    | Unseekable   // a pipe: the call raises IOError
    | ClosedError  // a closed handle: the call raises ValueError

  /**
   * An open file, an in-memory StringIO or the stdout pipe of a child process.
   * Writes go to the end of the contents; reads advance `pos`. Closing a file
   * leaves its bytes on disk; closing a StringIO frees its buffer (`getvalue`
   * then raises) and closing a pipe drops what was not read, so a handle that
   * is not `durable` holds nothing once it is closed.
   */
  class Handle {
    var contents: seq<byte>
    var pos: nat
    var closed: bool
    const seekable: bool
    /** Whether the bytes outlive `close`: true for a file on disk. */
    const durable: bool
    /** The handle's `mode` attribute, when it has one (files and pipes do, StringIO does not). */
    const modeAttr: Option<string>

    ghost predicate Valid()
      reads this
    {
      && pos <= |contents|
      && (closed && !durable ==> contents == [])
    }

    constructor (contents: seq<byte>, pos: nat, seekable: bool, durable: bool, modeAttr: Option<string>)
      requires pos <= |contents|
      ensures Valid()
      ensures this.contents == contents && this.pos == pos && !closed
      ensures this.seekable == seekable && this.durable == durable && this.modeAttr == modeAttr
    {
      this.contents := contents;
      this.pos := pos;
      this.closed := false;
      this.seekable := seekable;
      this.durable := durable;
      this.modeAttr := modeAttr;
    }

    /** `read(size)`, or `read()` to the end when `size` is None; None when the handle is closed. */
    method Read(size: Option<nat>) returns (r: Option<seq<byte>>)
      requires Valid()
      modifies this`pos
      ensures Valid()
      ensures old(closed) ==> r == None && pos == old(pos)
      ensures !old(closed) ==> pos == ReadEnd(old(pos), size, |contents|) && r == Some(contents[old(pos)..pos])
    {
      if closed {
        r := None;
      } else {
        var start := pos;
        pos := ReadEnd(pos, size, |contents|);
        r := Some(contents[start..pos]);
      }
    }

    /** `write(data)`: false when the handle is closed, which raises ValueError. */
    method Write(data: seq<byte>) returns (ok: bool)
      requires Valid()
      modifies this`contents, this`pos
      ensures Valid()
      ensures ok == !closed
      ensures contents == if ok then old(contents) + data else old(contents)
      ensures pos == if ok then |contents| else old(pos)
    {
      ok := !closed;
      if ok {
        contents := contents + data;
        pos := |contents|;
      }
    }

    /** `seek(0)`. */
    method Seek() returns (outcome: SeekOutcome)
      requires Valid()
      modifies this`pos
      ensures Valid()
      ensures outcome == (if closed then ClosedError else if seekable then Rewound else Unseekable)
      ensures pos == if outcome == Rewound then 0 else old(pos)
    {
      if closed {
        outcome := ClosedError;
      } else if seekable {
        pos := 0;
        outcome := Rewound;
      } else {
        outcome := Unseekable;
      }
    }

    /** `close()`: a durable handle keeps its bytes, any other loses them; closing twice is harmless. */
    method Close()
      requires Valid()
      modifies this`closed, this`contents, this`pos
      ensures Valid()
      ensures closed
      ensures durable ==> contents == old(contents) && pos == old(pos)
      ensures !durable ==> contents == [] && pos == 0
    {
      closed := true;
      if !durable {
        contents := [];
        pos := 0;
      }
    }
  }

  /** Where a read of `size` bytes (None: all) starting at `pos` stops. */
  function ReadEnd(pos: nat, size: Option<nat>, length: nat): (end: nat)
    requires pos <= length
    ensures pos <= end <= length
    ensures size.None? ==> end == length
    ensures size.Some? ==> end - pos == if pos + size.value <= length then size.value else length - pos
  {
    match size
    case None => length
    case Some(n) => if pos + n <= length then pos + n else length
  }

  /**
   * `md5_file`: wraps a handle so that every byte read from it or written to
   * it is folded into one running MD5. `fed` is the state of that running
   * hash: the bytes absorbed so far, in order. `seek`, `flush` and `close`
   * are the handle's own and bypass the hash.
   */
  class DigestingStream {
    const fh: Handle
    var fed: seq<byte>

    constructor (fh: Handle)
      ensures this.fh == fh && fed == []
    {
      this.fh := fh;
      this.fed := [];
    }

    /** `read`: the bytes the handle returns are folded into the hash; a failing read folds in nothing. */
    method Read(size: Option<nat>) returns (r: Option<seq<byte>>)
      requires fh.Valid()
      modifies this`fed, fh`pos
      ensures fh.Valid()
      ensures old(fh.closed) ==> r == None && fh.pos == old(fh.pos) && fed == old(fed)
      ensures !old(fh.closed) ==>
        && fh.pos == ReadEnd(old(fh.pos), size, |fh.contents|)
        && r == Some(fh.contents[old(fh.pos)..fh.pos])
        && fed == old(fed) + r.value
    {
      r := fh.Read(size);
      if r.Some? {
        fed := fed + r.value;
      }
    }

    /**
     * `write`: the bytes are folded into the hash BEFORE they are handed to
     * the handle, so they count even when the handle then refuses them.
     */
    method Write(data: seq<byte>) returns (ok: bool)
      requires fh.Valid()
      modifies this`fed, fh`contents, fh`pos
      ensures fh.Valid()
      ensures fed == old(fed) + data
      ensures ok == !fh.closed
      ensures fh.contents == if ok then old(fh.contents) + data else old(fh.contents)
      ensures fh.pos == if ok then |fh.contents| else old(fh.pos)
    {
      fed := fed + data;
      ok := fh.Write(data);
    }

    /** The `md5_hexdigest` property: the digest of every byte absorbed so far, in order. */
    function Hexdigest(): (d: Digest)
      reads this
      ensures d.input == fed
    {
      Md5Hex(fed)
    }
  }
}
