/** The byte framing of the Windows bridge (internal/bridgeproto/frame.go). */
module FrameCodec {
  import opened Options

  type byte = x: int | 0 <= x < 256
  type uint32 = x: int | 0 <= x < 0x1_0000_0000

  const OPEN: byte := 1
  const DATA: byte := 2
  const CLOSE: byte := 3
  const MAX_PAYLOAD := 0x10_0000
  const HEADER := 9

  datatype Frame = Frame(streamID: uint32, kind: byte, payload: seq<byte>)

  /** The frames that `Write` accepts. */
  predicate ValidFrame(f: Frame) {
    && f.streamID != 0 && (f.kind == OPEN || f.kind == DATA || f.kind == CLOSE)
    && |f.payload| <= MAX_PAYLOAD && (f.kind != DATA ==> f.payload == [])
  }

  // ---------- What the bytes mean ----------

  function BigEndian(v: uint32): (b: seq<byte>)
    ensures |b| == 4
  {
    [v / 0x100_0000, v / 0x1_0000 % 256, v / 0x100 % 256, v % 256]
  }

  function FromBigEndian(b: seq<byte>): uint32
    requires |b| == 4
  {
    (((b[0] as int) * 256 + b[1] as int) * 256 + b[2] as int) * 256 + b[3] as int
  }

  lemma ReadsBack(v: uint32)
    ensures FromBigEndian(BigEndian(v)) == v
  {
  }

  lemma WritesBack(b: seq<byte>)
    requires |b| == 4
    ensures BigEndian(FromBigEndian(b)) == b
  {
    var two := b[0] as int * 256 + b[1] as int;
    var three := two * 256 + b[2] as int;
    var v := FromBigEndian(b);
    assert v / 0x100 == three && v % 256 == b[3];
    assert three / 256 == two && v / 0x100 % 256 == b[2];
    assert v / 0x1_0000 == two && v / 0x1_0000 % 256 == b[1];
    assert v / 0x100_0000 == b[0];
  }

  function Header(f: Frame): (b: seq<byte>)
    requires |f.payload| <= MAX_PAYLOAD
    ensures |b| == HEADER
  {
    BigEndian(f.streamID) + [f.kind] + BigEndian(|f.payload|)
  }

  /** The bytes of a frame on the wire. */
  function Encode(f: Frame): seq<byte>
    requires |f.payload| <= MAX_PAYLOAD
  {
    Header(f) + f.payload
  }

  /** The frame that a stream starts with, and what follows it. */
  datatype Decoded = Decoded(frame: Frame, rest: seq<byte>)

  function Decode(b: seq<byte>): Option<Decoded> {
    if |b| < HEADER then None
    else
      var length := FromBigEndian(b[5..9]);
      if length > MAX_PAYLOAD || |b| < HEADER + length then None
      else
        var frame := Frame(FromBigEndian(b[0..4]), b[4], b[HEADER..HEADER + length]);
        if ValidFrame(frame) then Some(Decoded(frame, b[HEADER + length..])) else None
  }

  /** The bytes of a frame by position: stream ID and length with the most significant byte first, the kind
      between them, and the payload behind them. */
  lemma EncodedBytes(f: Frame)
    requires ValidFrame(f)
    ensures var b := Encode(f);
      && |b| == 9 + |f.payload| && b[9..] == f.payload && b[4] == f.kind
      && f.streamID as int == b[0] as int * 0x100_0000 + b[1] as int * 0x1_0000 + b[2] as int * 0x100 + b[3] as int
      && |f.payload| == b[5] as int * 0x100_0000 + b[6] as int * 0x1_0000 + b[7] as int * 0x100 + b[8] as int
  {
    ReadsBack(f.streamID);
    ReadsBack(|f.payload|);
    var b := Encode(f);
    assert b[0..4] == BigEndian(f.streamID) && b[5..9] == BigEndian(|f.payload|);
    assert b[0] == BigEndian(f.streamID)[0] && b[1] == BigEndian(f.streamID)[1]
      && b[2] == BigEndian(f.streamID)[2] && b[3] == BigEndian(f.streamID)[3];
    assert b[5] == BigEndian(|f.payload|)[0] && b[6] == BigEndian(|f.payload|)[1]
      && b[7] == BigEndian(|f.payload|)[2] && b[8] == BigEndian(|f.payload|)[3];
    hide BigEndian, Encode;
  }

  /** Whatever was written is read back, with nothing of what follows touched. */
  lemma EncodeThenDecode(f: Frame, rest: seq<byte>)
    requires ValidFrame(f)
    ensures Decode(Encode(f) + rest) == Some(Decoded(f, rest))
  {
    var b := Encode(f) + rest;
    ReadsBack(f.streamID);
    ReadsBack(|f.payload|);
    assert b[0..4] == BigEndian(f.streamID) && b[4] == f.kind && b[5..9] == BigEndian(|f.payload|);
    assert b[HEADER..HEADER + |f.payload|] == f.payload;
    assert b[HEADER + |f.payload|..] == rest;
  }

  /** Whatever was read is valid, and writing it again gives the bytes that were consumed. */
  lemma DecodeThenEncode(b: seq<byte>)
    requires Decode(b).Some?
    ensures ValidFrame(Decode(b).value.frame)
    ensures b == Encode(Decode(b).value.frame) + Decode(b).value.rest
  {
    var f := Decode(b).value.frame;
    WritesBack(b[0..4]);
    WritesBack(b[5..9]);
    assert Header(f) == b[..HEADER];
  }

  /** Encodings are prefix-free: a stream cannot be cut into frames in two ways. */
  lemma PrefixFree(f: Frame, g: Frame, a: seq<byte>, b: seq<byte>)
    requires ValidFrame(f) && ValidFrame(g) && Encode(f) + a == Encode(g) + b
    ensures f == g && a == b
  {
    EncodeThenDecode(f, a);
    EncodeThenDecode(g, b);
  }

  predicate AllValid(frames: seq<Frame>) {
    forall i :: 0 <= i < |frames| ==> ValidFrame(frames[i])
  }

  function EncodeAll(frames: seq<Frame>): seq<byte>
    requires AllValid(frames)
  {
    if frames == [] then [] else Encode(frames[0]) + EncodeAll(frames[1..])
  }

  /** The frames of a whole stream; None when it does not end between two frames. */
  function DecodeAll(b: seq<byte>): Option<seq<Frame>>
    decreases |b|
  {
    if b == [] then Some([])
    else
      match Decode(b)
      case None => None
      case Some(first) =>
        if |first.rest| >= |b| then None
        else
          match DecodeAll(first.rest)
          case None => None
          case Some(others) => Some([first.frame] + others)
  }

  lemma {:induction false} EncodeAllThenDecodeAll(frames: seq<Frame>)
    requires AllValid(frames)
    ensures DecodeAll(EncodeAll(frames)) == Some(frames)
  {
    if frames != [] {
      EncodeThenDecode(frames[0], EncodeAll(frames[1..]));
      EncodeAllThenDecodeAll(frames[1..]);
      assert |EncodeAll(frames)| == |Encode(frames[0])| + |EncodeAll(frames[1..])|;
      assert [frames[0]] + frames[1..] == frames;
    }
  }

  lemma {:induction false} DecodeAllThenEncodeAll(b: seq<byte>)
    requires DecodeAll(b).Some?
    ensures AllValid(DecodeAll(b).value) && EncodeAll(DecodeAll(b).value) == b
    decreases |b|
  {
    if b != [] {
      var first := Decode(b).value;
      DecodeThenEncode(b);
      DecodeAllThenEncodeAll(first.rest);
      var frames := DecodeAll(b).value;
      assert frames[1..] == DecodeAll(first.rest).value;
    }
  }

  // ---------- Reading and writing ----------

  /** A byte stream: what has been written and not read yet. */
  class Pipe {
    var bytes: seq<byte>

    constructor ()
      ensures bytes == []
    {
      bytes := [];
    }

    /** `io.ReadFull`: fills the buffer, or fails having used up what there was. */
    method ReadFull(buffer: array<byte>) returns (ok: bool)
      modifies this, buffer
      ensures ok == (buffer.Length <= |old(bytes)|)
      ensures ok ==> buffer[..] == old(bytes)[..buffer.Length] && bytes == old(bytes)[buffer.Length..]
      ensures !ok ==> bytes == []
    {
      ok := buffer.Length <= |bytes|;
      if !ok {
        bytes := [];
        return;
      }
      for i := 0 to buffer.Length
        invariant bytes == old(bytes)
        invariant forall j :: 0 <= j < i ==> buffer[j] == bytes[j]
      {
        buffer[i] := bytes[i];
      }
      assert buffer[..] == bytes[..buffer.Length];
      bytes := bytes[buffer.Length..];
    }

    method Append(data: seq<byte>)
      modifies this
      ensures bytes == old(bytes) + data
    {
      bytes := bytes + data;
    }
  }

  /** `binary.BigEndian.PutUint32`. */
  method PutUint32(header: array<byte>, at: nat, v: uint32)
    requires at + 4 <= header.Length
    modifies header
    ensures header[..] == old(header[..at]) + BigEndian(v) + old(header[at + 4..])
  {
    header[at] := v / 0x100_0000;
    header[at + 1] := v / 0x1_0000 % 256;
    header[at + 2] := v / 0x100 % 256;
    header[at + 3] := v % 256;
  }

  /** `Write` accepts exactly the valid frames, and appends their encoding. */
  method Write(writer: Pipe, frame: Frame) returns (ok: bool)
    modifies writer
    ensures ok == ValidFrame(frame)
    ensures writer.bytes == if ok then old(writer.bytes) + Encode(frame) else old(writer.bytes)
  {
    if frame.streamID == 0 || (frame.kind != OPEN && frame.kind != DATA && frame.kind != CLOSE)
      || |frame.payload| > MAX_PAYLOAD || (frame.kind != DATA && |frame.payload| != 0) {
      return false;
    }
    var header := new byte[HEADER];
    PutUint32(header, 0, frame.streamID);
    header[4] := frame.kind;
    PutUint32(header, 5, |frame.payload|);
    assert header[..] == Header(frame);
    writer.Append(header[..]);
    if |frame.payload| != 0 {
      writer.Append(frame.payload);
    }
    ok := true;
  }

  /** `Read` returns the frame that the stream starts with and consumes exactly its bytes; it fails
      only on a stream that starts with no valid frame. */
  method Read(reader: Pipe) returns (frame: Option<Frame>)
    modifies reader
    ensures frame.Some? <==> Decode(old(reader.bytes)).Some?
    ensures frame.Some? ==>
      frame.value == Decode(old(reader.bytes)).value.frame && reader.bytes == Decode(old(reader.bytes)).value.rest
  {
    var header := new byte[HEADER];
    var ok := reader.ReadFull(header);
    if !ok {
      return None;
    }
    var given := old(reader.bytes);
    assert header[..] == given[..HEADER];
    assert header[0..4] == given[0..4] && header[5..9] == given[5..9];
    var streamID, kind, length := FromBigEndian(header[0..4]), header[4], FromBigEndian(header[5..9]);
    if streamID == 0 || (kind != OPEN && kind != DATA && kind != CLOSE) || length > MAX_PAYLOAD
      || (kind != DATA && length != 0) {
      return None;
    }
    var payload := new byte[length];
    if length != 0 {
      ok := reader.ReadFull(payload);
      if !ok {
        return None;
      }
    }
    assert payload[..] == given[HEADER..HEADER + length];
    frame := Some(Frame(streamID, kind, payload[..]));
  }
}
