// internal/sandbox/executor.go: splitting Docker's multiplexed log stream into stdout and stderr.
module Demux {

  type Byte = b: int | 0 <= b < 256

  /** A frame: stream type, three header bytes nobody reads, and the payload. */
  datatype Frame = Frame(stream: Byte, pad1: Byte, pad2: Byte, pad3: Byte, payload: seq<Byte>)

  const LIMIT: int := 0x1_0000_0000

  /** Four bytes, most significant first. */
  function Size(a: Byte, b: Byte, c: Byte, d: Byte): nat {
    ((a * 256 + b) * 256 + c) * 256 + d
  }

  lemma Digit(high: nat, low: Byte)
    ensures (high * 256 + low) / 256 == high && (high * 256 + low) % 256 == low
  {
  }

  lemma Halved(n: nat, limit: nat)
    requires n < limit * 256
    ensures n / 256 < limit && n == n / 256 * 256 + n % 256
  {
  }

  /** The header announcing n payload bytes. */
  function Header(f: Frame, n: nat): (h: seq<Byte>)
    requires n < LIMIT
    ensures |h| == 8 && h[0] == f.stream && h[1] == f.pad1 && h[2] == f.pad2 && h[3] == f.pad3
    ensures Size(h[4], h[5], h[6], h[7]) == n
    ensures h[4] as int * 0x100_0000 + h[5] as int * 0x1_0000 + h[6] as int * 0x100 + h[7] as int == n
  {
    Halved(n, 0x100_0000);
    var n1 := n / 256;
    Halved(n1, 0x1_0000);
    var n2 := n1 / 256;
    Halved(n2, 0x100);
    [f.stream, f.pad1, f.pad2, f.pad3, n2 / 256, n2 % 256, n1 % 256, n % 256]
  }

  /** A size is written in one way only. */
  lemma HeaderUnique(f: Frame, a: Byte, b: Byte, c: Byte, d: Byte)
    ensures Size(a, b, c, d) < LIMIT
    ensures Header(f, Size(a, b, c, d)) == [f.stream, f.pad1, f.pad2, f.pad3, a, b, c, d]
  {
    Digit(a, b);
    Digit(a * 256 + b, c);
    Digit((a * 256 + b) * 256 + c, d);
  }

  // ---- Frame sequences ----

  datatype Frames = NoFrames | Cons(head: Frame, tail: Frames)

  predicate Small(fs: Frames) {
    fs.NoFrames? || (|fs.head.payload| < LIMIT && Small(fs.tail))
  }

  function Encode(fs: Frames): seq<Byte>
    requires Small(fs)
  {
    match fs
    case NoFrames => []
    case Cons(f, rest) => Header(f, |f.payload|) + f.payload + Encode(rest)
  }

  /** The payloads of one stream, in order. */
  function Payloads(fs: Frames, stream: Byte): seq<Byte> {
    match fs
    case NoFrames => []
    case Cons(f, rest) => (if f.stream == stream then f.payload else []) + Payloads(rest, stream)
  }

  // ---- Reading ----

  /** What the bytes hold: whole frames, then a tail too short for a header, or a last frame whose
      payload breaks off. */
  datatype Reading =
    | Rest(bytes: seq<Byte>)
    | CutOff(frame: Frame, missing: nat)
    | Whole(frame: Frame, after: Reading)

  function Read(data: seq<Byte>): Reading
    decreases |data|
  {
    if |data| < 8 then Rest(data)
    else
      var size := Size(data[4], data[5], data[6], data[7]);
      var body := data[8..];
      if size > |body| then CutOff(Frame(data[0], data[1], data[2], data[3], body), size - |body|)
      else Whole(Frame(data[0], data[1], data[2], data[3], body[..size]), Read(body[size..]))
  }

  /** Exactly the bytes read are these, frame by frame. */
  function Bytes(r: Reading): seq<Byte>
    requires Sound(r)
  {
    match r
    case Rest(bytes) => bytes
    case CutOff(f, missing) => Header(f, |f.payload| + missing) + f.payload
    case Whole(f, after) => Header(f, |f.payload|) + f.payload + Bytes(after)
  }

  predicate Sound(r: Reading) {
    match r
    case Rest(bytes) => |bytes| < 8
    case CutOff(f, missing) => missing > 0 && |f.payload| + missing < LIMIT
    case Whole(f, after) => |f.payload| < LIMIT && Sound(after)
  }

  /** The bytes written to one stream: payloads only, the last one as far as it goes. */
  function Output(r: Reading, stream: Byte): seq<Byte> {
    match r
    case Rest(_) => []
    case CutOff(f, _) => if f.stream == stream then f.payload else []
    case Whole(f, after) => (if f.stream == stream then f.payload else []) + Output(after, stream)
  }

  /** Any bytes at all decompose this way, and nothing of them is lost: putting the parts back
      together gives the input. */
  lemma {:induction false} ReadIsLossless(data: seq<Byte>)
    ensures Sound(Read(data)) && Bytes(Read(data)) == data
    decreases |data|
  {
    if |data| >= 8 {
      var size := Size(data[4], data[5], data[6], data[7]);
      var body := data[8..];
      if size <= |body| {
        ReadIsLossless(body[size..]);
        WholeFrame(data, size, body);
      } else {
        CutFrame(data, size, body);
      }
    }
  }

  lemma WholeFrame(data: seq<Byte>, size: nat, body: seq<Byte>)
    requires |data| >= 8 && body == data[8..] && size == Size(data[4], data[5], data[6], data[7]) <= |body|
    ensures var f := Frame(data[0], data[1], data[2], data[3], body[..size]);
            size < LIMIT && Header(f, size) + f.payload + body[size..] == data
  {
    var f := Frame(data[0], data[1], data[2], data[3], body[..size]);
    HeaderUnique(f, data[4], data[5], data[6], data[7]);
    Reassembled(data, Header(f, size), size);
  }

  lemma CutFrame(data: seq<Byte>, size: nat, body: seq<Byte>)
    requires |data| >= 8 && body == data[8..] && |body| < size == Size(data[4], data[5], data[6], data[7])
    ensures var f := Frame(data[0], data[1], data[2], data[3], body);
            size < LIMIT && Header(f, size) + f.payload == data
  {
    HeaderUnique(Frame(data[0], data[1], data[2], data[3], body), data[4], data[5], data[6], data[7]);
  }

  lemma Reassembled(data: seq<Byte>, header: seq<Byte>, size: nat)
    requires |data| >= 8 + size && |header| == 8 && forall i | 0 <= i < 8 :: header[i] == data[i]
    ensures header + data[8..][..size] + data[8..][size..] == data
  {
  }

  /** Reading an encoding gives back the frames. */
  function AsReading(fs: Frames): Reading {
    match fs
    case NoFrames => Rest([])
    case Cons(f, rest) => Whole(f, AsReading(rest))
  }

  lemma {:induction false} ReadEncoded(fs: Frames)
    requires Small(fs)
    ensures Read(Encode(fs)) == AsReading(fs)
  {
    if fs.Cons? {
      ReadEncoded(fs.tail);
      var f, rest := fs.head, Encode(fs.tail);
      Parts(Header(f, |f.payload|), f.payload, rest);
    }
  }

  lemma Parts(h: seq<Byte>, payload: seq<Byte>, rest: seq<Byte>)
    requires |h| == 8
    ensures var data := h + payload + rest;
            && data[..8] == h && (forall i | 0 <= i < 8 :: data[i] == h[i])
            && data[8..] == payload + rest && data[8..][..|payload|] == payload && data[8..][|payload|..] == rest
  {
    var data := h + payload + rest;
    assert data[8..] == payload + rest;
  }

  lemma {:induction false} OutputOfFrames(fs: Frames, stream: Byte)
    ensures Output(AsReading(fs), stream) == Payloads(fs, stream)
  {
    if fs.Cons? { OutputOfFrames(fs.tail, stream); }
  }

  /** Demultiplexing an encoding yields the payloads of each stream, in order. */
  lemma DemuxEncoded(fs: Frames, stream: Byte)
    requires Small(fs)
    ensures Output(Read(Encode(fs)), stream) == Payloads(fs, stream)
  {
    ReadEncoded(fs);
    OutputOfFrames(fs, stream);
  }

  /** So the encoding determines the frames. */
  lemma EncodeInjective(a: Frames, b: Frames)
    requires Small(a) && Small(b) && Encode(a) == Encode(b)
    ensures a == b
  {
    ReadEncoded(a);
    ReadEncoded(b);
    AsReadingInjective(a, b);
  }

  lemma {:induction false} AsReadingInjective(a: Frames, b: Frames)
    requires AsReading(a) == AsReading(b)
    ensures a == b
  {
    if a.Cons? && b.Cons? { AsReadingInjective(a.tail, b.tail); }
  }

  // ---- The loop ----

  /** One turn of the loop: a payload, cut short if need be, and then the rest. */
  lemma Peel(data: seq<Byte>, size: nat, stream: Byte)
    requires |data| >= 8
    requires var n := Size(data[4], data[5], data[6], data[7]); size == if n > |data| - 8 then |data| - 8 else n
    ensures Output(Read(data), stream)
            == (if data[0] == stream then data[8..][..size] else []) + Output(Read(data[8..][size..]), stream)
  {
  }

  method DemuxDockerStream(input: seq<Byte>) returns (stdout: seq<Byte>, stderr: seq<Byte>)
    ensures stdout == Output(Read(input), 1) && stderr == Output(Read(input), 2)
  {
    stdout, stderr := [], [];
    var data := input;
    while |data| >= 8
      invariant Output(Read(input), 1) == stdout + Output(Read(data), 1)
      invariant Output(Read(input), 2) == stderr + Output(Read(data), 2)
      decreases |data|
    {
      ghost var before := data;
      var streamType := data[0];
      var size := Size(data[4], data[5], data[6], data[7]);
      data := data[8..];
      if size > |data| {
        size := |data|;
      }
      Peel(before, size, 1);
      Peel(before, size, 2);
      Append(stdout, data[..size], Output(Read(data[size..]), 1));
      Append(stderr, data[..size], Output(Read(data[size..]), 2));
      if streamType == 1 {
        stdout := stdout + data[..size];
      } else if streamType == 2 {
        stderr := stderr + data[..size];
      }
      data := data[size..];
    }
  }

  lemma Append(done: seq<Byte>, chunk: seq<Byte>, rest: seq<Byte>)
    ensures done + (chunk + rest) == done + chunk + rest && done + ([] + rest) == done + rest
  {
  }
}
