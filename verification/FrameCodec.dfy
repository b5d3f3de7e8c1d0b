/**
 The AudioSocket wire format: one kind byte, a big-endian 16-bit length, the payload.

 `Pack` and `ReadOne` are the value-level meaning of the writer and the reader; the classes
 below are the asyncio streams they run on.
 */
module FrameCodec {
  import opened Wrappers

  type Byte = x: int | 0 <= x < 256

  const HEADER_BYTES := 3
  const MAX_PAYLOAD := 65536

  const KIND_HANGUP: Byte := 0x00
  const KIND_UUID: Byte := 0x01
  const KIND_AUDIO: Byte := 0x10

  datatype Frame = Frame(kind: Byte, payload: seq<Byte>)

  predicate Sendable(f: Frame) {
    |f.payload| < MAX_PAYLOAD
  }

  function BigEndian16(high: Byte, low: Byte): nat {
    (high as int) * 256 + low
  }

  function Pack(f: Frame): seq<Byte>
    requires Sendable(f)
  {
    [f.kind, |f.payload| / 256, |f.payload| % 256] + f.payload
  }

  function PackAll(fs: seq<Frame>): seq<Byte>
    requires forall i :: 0 <= i < |fs| ==> Sendable(fs[i])
  {
    if fs == [] then [] else Pack(fs[0]) + PackAll(fs[1..])
  }

  /** The first frame of a byte stream and what follows it; None when the stream ends inside it. */
  function ReadOne(s: seq<Byte>): Option<(Frame, seq<Byte>)> {
    if |s| < HEADER_BYTES then None
    else
      var length := BigEndian16(s[1], s[2]);
      if |s| < HEADER_BYTES + length then None
      else Some((Frame(s[0], s[HEADER_BYTES..HEADER_BYTES + length]), s[HEADER_BYTES + length..]))
  }

  /** All frames read until the incomplete-read stop, and the bytes left over then. */
  function ReadAll(s: seq<Byte>): (seq<Frame>, seq<Byte>)
    decreases |s|
  {
    match ReadOne(s)
    case None => ([], s)
    case Some((f, rest)) =>
      var (fs, left) := ReadAll(rest);
      ([f] + fs, left)
  }

  // ----- properties of the codec

  lemma ReadOneOfPacked(f: Frame, rest: seq<Byte>)
    requires Sendable(f)
    ensures ReadOne(Pack(f) + rest) == Some((f, rest))
  {
    var s := Pack(f) + rest;
    var n := |f.payload|;
    assert BigEndian16(s[1], s[2]) == n;
    assert s[HEADER_BYTES..HEADER_BYTES + n] == f.payload;
    assert s[HEADER_BYTES + n..] == rest;
  }

  /** On the wire: the kind, the length with its high byte first, the payload. */
  lemma WireFormat(kind: Byte, high: Byte, low: Byte, payload: seq<Byte>, rest: seq<Byte>)
    requires |payload| == 256 * high + low
    ensures Pack(Frame(kind, payload)) == [kind, high, low] + payload
    ensures ReadOne([kind, high, low] + payload + rest) == Some((Frame(kind, payload), rest))
  {
    ReadOneOfPacked(Frame(kind, payload), rest);
  }

  lemma PackOfReadOne(s: seq<Byte>)
    ensures match ReadOne(s)
            case None => true
            case Some((f, rest)) => Sendable(f) && Pack(f) + rest == s
  {
    match ReadOne(s)
    case None =>
    case Some((f, rest)) =>
      assert s == s[..HEADER_BYTES] + f.payload + rest;
      assert Pack(f)[..HEADER_BYTES] == s[..HEADER_BYTES];
  }

  /** Whatever the bytes are, the frames read and the leftover are exactly the bytes received. */
  lemma {:induction false} ReadAllLosesNothing(s: seq<Byte>)
    ensures forall i :: 0 <= i < |ReadAll(s).0| ==> Sendable(ReadAll(s).0[i])
    ensures PackAll(ReadAll(s).0) + ReadAll(s).1 == s
    ensures ReadOne(ReadAll(s).1) == None
    decreases |s|
  {
    match ReadOne(s)
    case None =>
    case Some((f, rest)) =>
      PackOfReadOne(s);
      ReadAllLosesNothing(rest);
      var (fs, left) := ReadAll(rest);
      PackAllCons(f, fs, left);
  }

  lemma PackAllCons(f: Frame, fs: seq<Frame>, left: seq<Byte>)
    requires Sendable(f) && forall i :: 0 <= i < |fs| ==> Sendable(fs[i])
    ensures forall i :: 0 <= i < |[f] + fs| ==> Sendable(([f] + fs)[i])
    ensures PackAll([f] + fs) + left == Pack(f) + (PackAll(fs) + left)
  {
    assert ([f] + fs)[1..] == fs;
  }

  lemma {:induction false} RoundTrip(fs: seq<Frame>)
    requires forall i :: 0 <= i < |fs| ==> Sendable(fs[i])
    ensures ReadAll(PackAll(fs)) == (fs, [])
  {
    if fs != [] {
      ReadAllCons(fs[0], PackAll(fs[1..]));
      RoundTrip(fs[1..]);
      assert [fs[0]] + fs[1..] == fs;
    }
  }

  /** `k` whole frames fit in the first `n` bytes of the stream, and no more than `k`. */
  ghost predicate WholeFrames(fs: seq<Frame>, n: nat, k: nat)
    requires forall i :: 0 <= i < |fs| ==> Sendable(fs[i])
  {
    && k <= |fs|
    && |PackAll(fs[..k])| <= n
    && (k < |fs| ==> n < |PackAll(fs[..k + 1])|)
  }

  /** A stream cut after any number of bytes yields exactly the maximal prefix of whole frames. */
  lemma {:induction false} PrefixRead(fs: seq<Frame>, n: nat) returns (k: nat)
    requires forall i :: 0 <= i < |fs| ==> Sendable(fs[i])
    requires n <= |PackAll(fs)|
    ensures WholeFrames(fs, n, k)
    ensures ReadAll(PackAll(fs)[..n]).0 == fs[..k]
  {
    if fs == [] {
      k := 0;
    } else {
      var head, tail := Pack(fs[0]), PackAll(fs[1..]);
      PackPrefix(fs, 0);
      if n < |head| {
        k := 0;
        CutInFirst(fs[0], tail, n);
      } else {
        var others := PrefixRead(fs[1..], n - |head|);
        k := others + 1;
        WholeFramesCons(fs, n - |head|, others);
        ReadAllCons(fs[0], tail[..n - |head|]);
        assert (head + tail)[..n] == head + tail[..n - |head|];
        assert fs[..k] == [fs[0]] + fs[1..][..others];
      }
    }
  }

  lemma WholeFramesCons(fs: seq<Frame>, n: nat, k: nat)
    requires fs != [] && forall i :: 0 <= i < |fs| ==> Sendable(fs[i])
    requires WholeFrames(fs[1..], n, k)
    ensures WholeFrames(fs, |Pack(fs[0])| + n, k + 1)
  {
    PackPrefix(fs, k);
    if k + 1 < |fs| {
      PackPrefix(fs, k + 1);
    }
  }

  lemma ReadAllCons(f: Frame, rest: seq<Byte>)
    requires Sendable(f)
    ensures ReadAll(Pack(f) + rest) == ([f] + ReadAll(rest).0, ReadAll(rest).1)
  {
    ReadOneOfPacked(f, rest);
  }

  /** The first k + 1 frames packed: the first, then k of the others. */
  lemma PackPrefix(fs: seq<Frame>, k: nat)
    requires k < |fs| && forall i :: 0 <= i < |fs| ==> Sendable(fs[i])
    ensures PackAll(fs[..k + 1]) == Pack(fs[0]) + PackAll(fs[1..][..k])
  {
    assert fs[..k + 1][1..] == fs[1..][..k];
  }

  lemma CutInFirst(f: Frame, rest: seq<Byte>, n: nat)
    requires Sendable(f) && n < |Pack(f)|
    ensures ReadOne((Pack(f) + rest)[..n]) == None
  {
    var cut := (Pack(f) + rest)[..n];
    assert n >= HEADER_BYTES ==> BigEndian16(cut[1], cut[2]) == |f.payload|;
  }

  /** The count of whole frames is determined by the cut, so `PrefixRead` pins the result down. */
  lemma WholeFramesUnique(fs: seq<Frame>, n: nat, j: nat, k: nat)
    requires forall i :: 0 <= i < |fs| ==> Sendable(fs[i])
    requires WholeFrames(fs, n, j) && WholeFrames(fs, n, k)
    ensures j == k
  {
    if j < k {
      PackAllGrows(fs, j + 1, k);
    } else if k < j {
      PackAllGrows(fs, k + 1, j);
    }
  }

  lemma {:induction false} PackAllAppend(a: seq<Frame>, b: seq<Frame>)
    requires forall i :: 0 <= i < |a| ==> Sendable(a[i])
    requires forall i :: 0 <= i < |b| ==> Sendable(b[i])
    ensures PackAll(a + b) == PackAll(a) + PackAll(b)
  {
    if a == [] {
      assert a + b == b;
    } else {
      assert (a + b)[1..] == a[1..] + b;
      PackAllAppend(a[1..], b);
    }
  }

  lemma PackAllGrows(fs: seq<Frame>, j: nat, k: nat)
    requires forall i :: 0 <= i < |fs| ==> Sendable(fs[i])
    requires j <= k <= |fs|
    ensures |PackAll(fs[..j])| <= |PackAll(fs[..k])|
  {
    assert fs[..k] == fs[..j] + fs[j..k];
    PackAllAppend(fs[..j], fs[j..k]);
  }

  lemma AppendAssociates(a: seq<Byte>, b: seq<Byte>, c: seq<Byte>)
    ensures (a + b) + c == a + (b + c)
  {
  }

  // ----- the streams

  datatype ReadError = IncompleteRead
  datatype WriteError = ConnectionReset | BadFrame

  /** An asyncio stream reader whose peer has sent `buffer` and then closed. */
  class StreamReader {
    var buffer: seq<Byte>

    constructor (bytes: seq<Byte>)
      ensures buffer == bytes
    {
      buffer := bytes;
    }

    /** `readexactly`: a short read consumes what there is and raises. */
    method ReadExactly(n: nat) returns (r: Result<seq<Byte>, ReadError>)
      modifies this
      ensures n <= |old(buffer)| ==> r == Ok(old(buffer)[..n]) && buffer == old(buffer)[n..]
      ensures |old(buffer)| < n ==> r == Err(IncompleteRead) && buffer == []
    {
      if n <= |buffer| {
        r := Ok(buffer[..n]);
        buffer := buffer[n..];
      } else {
        r := Err(IncompleteRead);
        buffer := [];
      }
    }

    method ReadFrame() returns (r: Result<Frame, ReadError>)
      modifies this
      ensures match ReadOne(old(buffer))
              case None => r == Err(IncompleteRead)
              case Some((f, rest)) => r == Ok(f) && buffer == rest
    {
      ghost var s := buffer;
      var header := ReadExactly(HEADER_BYTES);
      if header.Err? {
        return Err(IncompleteRead);
      }
      var kind := header.value[0];
      var length := BigEndian16(header.value[1], header.value[2]);
      var payload: seq<Byte> := [];
      if length != 0 {
        var body := ReadExactly(length);
        if body.Err? {
          return Err(IncompleteRead);
        }
        payload := body.value;
      }
      assert s[HEADER_BYTES..][..length] == s[HEADER_BYTES..HEADER_BYTES + length];
      assert s[HEADER_BYTES..][length..] == s[HEADER_BYTES + length..];
      r := Ok(Frame(kind, payload));
    }
  }

  /** An asyncio stream writer; `closing` is set by the transport or by `close()`. */
  class StreamWriter {
    var closing: bool
    var written: seq<Byte>

    constructor ()
      ensures !closing && written == []
    {
      closing, written := false, [];
    }

    /**
     A frame is written whole or not at all: a closing transport, and kinds and lengths that do not
     pack, raise before the write. A drain that raises does so after it.
     */
    method WriteFrame(kind: int, payload: seq<Byte>, drains: bool) returns (r: Result<(), WriteError>)
      modifies this`written
      ensures var packs := 0 <= kind < 256 && |payload| < MAX_PAYLOAD;
              && (r.Ok? <==> !closing && packs && drains)
              && (r == Err(BadFrame) <==> !closing && !packs)
              && (closing || !packs ==> written == old(written))
              && (!closing && packs ==> written == old(written) + Pack(Frame(kind, payload)))
    {
      if closing {
        return Err(ConnectionReset);
      }
      if !(0 <= kind < 256 && |payload| < MAX_PAYLOAD) {
        return Err(BadFrame);
      }
      written := written + Pack(Frame(kind, payload));
      r := if drains then Ok(()) else Err(ConnectionReset);
    }
  }
}
