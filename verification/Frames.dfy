/**
 * Framing between the Agent and its cellular companion: a 12-byte header and a bounded payload, written in full and
 * read back out of one fixed buffer whatever way the socket splits the stream.
 */
module Frames {

  newtype byte = x: int | 0 <= x < 0x100
  type Word = x: int | 0 <= x < 0x1_0000_0000

  const VERSION: byte := 1
  const MAX_FRAME := 1024 * 1024
  const HEADER := 12
  const CAPACITY := MAX_FRAME + HEADER

  // The request's kind, its id and its payload; the flags of a header are sent as zero and not looked at.
  datatype Frame = Frame(kind: byte, requestID: Word, payload: seq<byte>)

  // ---------------------------------------------------------------- network byte order

  function Big(w: Word): (s: seq<byte>)
    ensures |s| == 4
  {
    [(w / 0x100_0000) as byte, (w / 0x1_0000 % 0x100) as byte, (w / 0x100 % 0x100) as byte, (w % 0x100) as byte]
  }

  function Value(s: seq<byte>): Word
    requires |s| == 4
  {
    s[0] as int * 0x100_0000 + s[1] as int * 0x1_0000 + s[2] as int * 0x100 + s[3] as int
  }

  lemma ValueOfBig(w: Word)
    ensures Value(Big(w)) == w
  {
    var high, low := w / 0x1_0000, w % 0x1_0000;
    assert w == high * 0x1_0000 + low;
    assert w / 0x100_0000 == high / 0x100;
    assert w / 0x100 % 0x100 == low / 0x100;
    assert w % 0x100 == low % 0x100;
  }

  // ---------------------------------------------------------------- one frame, and a stream of them

  function Header(kind: byte, requestID: Word, length: Word): (s: seq<byte>)
    ensures |s| == HEADER
  {
    [VERSION, kind, 0, 0] + Big(requestID) + Big(length)
  }

  function Encode(f: Frame): seq<byte>
    requires |f.payload| < 0x1_0000_0000
  {
    Header(f.kind, f.requestID, |f.payload|) + f.payload
  }

  ghost predicate Sendable(fs: seq<Frame>) {
    forall i | 0 <= i < |fs| :: |fs[i].payload| <= MAX_FRAME
  }

  function EncodeAll(fs: seq<Frame>): seq<byte>
    requires Sendable(fs)
  {
    if fs == [] then [] else Encode(fs[0]) + EncodeAll(fs[1..])
  }

  /** What a stream says so far: whole frames, the bytes after them, and whether those start with a header to refuse. */
  datatype Parsed = Parsed(frames: seq<Frame>, rest: seq<byte>, refused: bool)

  function LengthOf(s: seq<byte>): Word
    requires |s| >= HEADER
  {
    Value(s[8..12])
  }

  predicate Refuses(s: seq<byte>)
    requires |s| >= HEADER
  {
    s[0] != VERSION || LengthOf(s) > MAX_FRAME
  }

  predicate Whole(s: seq<byte>) {
    |s| >= HEADER && !Refuses(s) && |s| >= HEADER + LengthOf(s)
  }

  function FrameAt(s: seq<byte>): Frame
    requires Whole(s)
  {
    Frame(s[1], Value(s[4..8]), s[HEADER..HEADER + LengthOf(s)])
  }

  function Parse(s: seq<byte>): Parsed
    decreases |s|
  {
    if |s| < HEADER then Parsed([], s, false)
    else if Refuses(s) then Parsed([], s, true)
    else if !Whole(s) then Parsed([], s, false)
    else
      var p := Parse(s[HEADER + LengthOf(s)..]);
      p.(frames := [FrameAt(s)] + p.frames)
  }

  lemma HeadIsStable(a: seq<byte>, b: seq<byte>)
    requires |a| >= HEADER
    ensures Refuses(a + b) == Refuses(a) && LengthOf(a + b) == LengthOf(a)
    ensures Whole(a) ==> !Refuses(a) && |a| >= HEADER + LengthOf(a) && Whole(a + b) && FrameAt(a + b) == FrameAt(a) &&
                         (a + b)[HEADER + LengthOf(a)..] == a[HEADER + LengthOf(a)..] + b
  {
    assert (a + b)[8..12] == a[8..12] && (a + b)[4..8] == a[4..8];
    if Whole(a) {
      assert (a + b)[HEADER..HEADER + LengthOf(a)] == a[HEADER..HEADER + LengthOf(a)];
    }
  }

  /** Where the stream is cut does not matter: the second part is read after what the first part left over. */
  lemma {:induction false} ParseContinues(a: seq<byte>, b: seq<byte>)
    ensures var p := Parse(a);
            if p.refused then Parse(a + b).frames == p.frames && Parse(a + b).refused
            else Parse(a + b) == Parse(p.rest + b).(frames := p.frames + Parse(p.rest + b).frames)
    decreases |a|
  {
    hide Refuses, LengthOf, FrameAt, Whole;
    if |a| >= HEADER {
      HeadIsStable(a, b);
      if Whole(a) {
        ParseContinues(a[HEADER + LengthOf(a)..], b);
        var p, q := Parse(a), Parse(a[HEADER + LengthOf(a)..]);
        if !q.refused {
          var r := Parse(q.rest + b);
          assert [FrameAt(a)] + (q.frames + r.frames) == p.frames + r.frames;
        }
      }
    }
  }

  /** Bytes that are not yet a frame never fill the buffer. */
  lemma {:induction false} LeftoverIsShort(s: seq<byte>)
    ensures !Parse(s).refused ==> |Parse(s).rest| < CAPACITY && Parse(Parse(s).rest) == Parsed([], Parse(s).rest, false)
    decreases |s|
  {
    if Whole(s) {
      LeftoverIsShort(s[HEADER + LengthOf(s)..]);
    }
  }

  /** Reading inverts writing. */
  lemma {:induction false} ParseInvertsEncode(fs: seq<Frame>, tail: seq<byte>)
    requires Sendable(fs)
    ensures Parse(EncodeAll(fs) + tail) == Parse(tail).(frames := fs + Parse(tail).frames)
  {
    hide Refuses, LengthOf, FrameAt, Whole, Encode;
    if fs == [] {
      assert EncodeAll(fs) + tail == tail;
      assert fs + Parse(tail).frames == Parse(tail).frames;
    } else {
      var f := fs[0];
      var rest := EncodeAll(fs[1..]) + tail;
      var s := Encode(f) + rest;
      assert EncodeAll(fs) + tail == s;
      EncodedHead(f, rest);
      ParseInvertsEncode(fs[1..], tail);
      assert [f] + (fs[1..] + Parse(tail).frames) == fs + Parse(tail).frames;
    }
  }

  lemma EncodedHead(f: Frame, rest: seq<byte>)
    requires |f.payload| <= MAX_FRAME
    ensures var s := Encode(f) + rest;
            |s| >= HEADER && !Refuses(s) && Whole(s) && FrameAt(s) == f && s[HEADER + LengthOf(s)..] == rest
  {
    var s := Encode(f) + rest;
    assert s[8..12] == Big(|f.payload|) && s[4..8] == Big(f.requestID);
    ValueOfBig(|f.payload|);
    ValueOfBig(f.requestID);
    assert s[HEADER..HEADER + |f.payload|] == f.payload;
  }

  function Concat(chunks: seq<seq<byte>>): seq<byte> {
    if chunks == [] then [] else chunks[0] + Concat(chunks[1..])
  }

  /** Reading chunk by chunk: each is parsed behind what the one before left over, until a header is refused. */
  function Deliver(rest: seq<byte>, chunks: seq<seq<byte>>): Parsed
    decreases |chunks|
  {
    if chunks == [] then Parsed([], rest, false)
    else
      var p := Parse(rest + chunks[0]);
      if p.refused then p
      else
        var q := Deliver(p.rest, chunks[1..]);
        q.(frames := p.frames + q.frames)
  }

  /** Every way of splitting a stream dispatches the frames of the whole stream, and is refused exactly if it is. */
  lemma {:induction false} SplitDoesNotMatter(rest: seq<byte>, chunks: seq<seq<byte>>)
    requires Parse(rest) == Parsed([], rest, false)
    ensures var p, q := Parse(rest + Concat(chunks)), Deliver(rest, chunks);
            q.frames == p.frames && q.refused == p.refused && (!p.refused ==> q == p)
    decreases |chunks|
  {
    hide Parse;
    if chunks == [] {
      assert rest + [] == rest;
    } else {
      var first := rest + chunks[0];
      assert rest + Concat(chunks) == first + Concat(chunks[1..]);
      ParseContinues(first, Concat(chunks[1..]));
      LeftoverIsShort(first);
      if !Parse(first).refused {
        SplitDoesNotMatter(Parse(first).rest, chunks[1..]);
      }
    }
  }

  /** Frames sent arrive, however the socket cut them up. */
  lemma SentFramesArrive(fs: seq<Frame>, chunks: seq<seq<byte>>)
    requires Sendable(fs) && Concat(chunks) == EncodeAll(fs)
    ensures Deliver([], chunks) == Parsed(fs, [], false)
  {
    assert [] + Concat(chunks) == EncodeAll(fs) + [];
    ParseInvertsEncode(fs, []);
    assert fs + [] == fs;
    SplitDoesNotMatter([], chunks);
  }

  lemma SliceOfSlice(s: seq<byte>, a: nat, b: nat, c: nat, d: nat)
    requires a <= b <= |s| && c <= d <= b - a
    ensures s[a..b][c..d] == s[a + c..a + d]
  {
    var x, y := s[a..b][c..d], s[a + c..a + d];
    forall i | 0 <= i < |x| ensures x[i] == y[i] {
      assert x[i] == s[a..b][c + i];
    }
  }

  // ---------------------------------------------------------------- writing

  /** What one write call reports: some bytes taken, an interruption, or an error. */
  datatype Wrote = Took(count: nat) | Interrupted | Failed

  class Sender {
    var wire: seq<byte>

    constructor ()
      ensures wire == []
    {
      wire := [];
    }

    /** write_all, given what the successive calls report; None while they leave something unwritten. */
    method WriteAll(data: seq<byte>, reports: seq<Wrote>) returns (done: bool, left: seq<Wrote>)
      modifies this
      ensures old(wire) <= wire <= old(wire) + data
      ensures done ==> wire == old(wire) + data
      ensures |left| <= |reports|
      ensures !done ==> left == [] || Failed in reports || Took(0) in reports
    {
      var cursor: nat := 0;
      left := reports;
      done := true;
      while cursor < |data| && left != []
        invariant cursor <= |data| && wire == old(wire) + data[..cursor]
        invariant |left| <= |reports|
        invariant done
        invariant forall r | r in left :: r in reports
        decreases |left|
      {
        var report := left[0];
        left := left[1..];
        assert data == data[..cursor] + data[cursor..];
        if report.Interrupted? {
          continue;
        }
        if report.Failed? || report.count == 0 {
          return false, left;
        }
        var written := if report.count <= |data| - cursor then report.count else |data| - cursor;
        assert data[..cursor] + data[cursor..cursor + written] == data[..cursor + written];
        wire := wire + data[cursor..cursor + written];
        cursor := cursor + written;
      }
      done := cursor == |data|;
      assert done ==> data[..cursor] == data;
    }

    /** send_frame: on success exactly the encoding of the frame is on the wire. */
    method SendFrame(f: Frame, reports: seq<Wrote>) returns (done: bool)
      requires |f.payload| < 0x1_0000_0000
      modifies this
      ensures old(wire) <= wire <= old(wire) + Encode(f)
      ensures done ==> wire == old(wire) + Encode(f)
    {
      var left: seq<Wrote>;
      done, left := WriteAll(Header(f.kind, f.requestID, |f.payload|), reports);
      assert old(wire) + Encode(f) == (old(wire) + Header(f.kind, f.requestID, |f.payload|)) + f.payload;
      if done && f.payload != [] {
        done, left := WriteAll(f.payload, left);
      }
    }
  }

  // ---------------------------------------------------------------- reading

  datatype Next = Refuse | Incomplete | Take(frame: Frame, length: nat)

  datatype Read = Bytes(data: seq<byte>) | Again | Closed

  class Receiver {
    const buffer: array<byte>
    var used: nat
    var dispatched: seq<Frame>
    ghost var stream: seq<byte>

    /** Everything read so far is dispatched or still in the buffer. */
    ghost predicate Valid()
      reads this, buffer
    {
      && buffer.Length == CAPACITY && used < CAPACITY
      && !Parse(stream).refused
      && dispatched == Parse(stream).frames
      && buffer[..used] == Parse(stream).rest
    }

    constructor ()
      ensures Valid() && fresh(buffer) && stream == [] && dispatched == []
    {
      buffer := new byte[CAPACITY];
      used, dispatched, stream := 0, [], [];
    }

    /** read_ipc; the socket delivers no more than the free space that is offered to it. */
    method ReadIPC(read: Read) returns (ok: bool)
      requires Valid()
      requires read.Bytes? ==> 0 < |read.data| <= CAPACITY - used
      modifies this, buffer
      ensures read.Bytes? ==> stream == old(stream) + read.data && dispatched == Parse(stream).frames && ok == !Parse(stream).refused
      ensures !read.Bytes? ==> stream == old(stream) && dispatched == old(dispatched) && ok == read.Again?
      ensures ok ==> Valid()
    {
      hide Parse;
      if used == buffer.Length {
        return false;
      }
      if !read.Bytes? {
        return read.Again?;
      }
      Store(read.data);
      ghost var before := Parse(old(stream));
      ParseContinues(old(stream), read.data);
      LeftoverIsShort(old(stream) + read.data);
      assert buffer[..used] == before.rest + read.data;
      ok := DispatchFrames();
    }

    /** The loop over whole frames, and the move of what is left to the front of the buffer. */
    method DispatchFrames() returns (ok: bool)
      requires buffer.Length == CAPACITY && used <= CAPACITY
      modifies this`used, this`dispatched, buffer
      ensures var p := Parse(old(buffer[..used]));
              && dispatched == old(dispatched) + p.frames
              && ok == !p.refused
              && (ok ==> used <= CAPACITY && buffer[..used] == p.rest)
    {
      hide Refuses, LengthOf, FrameAt, Whole;
      var consumed := 0;
      ghost var all := buffer[..used];
      assert all[0..] == all;
      while used - consumed >= HEADER
        invariant 0 <= consumed <= used <= CAPACITY && used == old(used)
        invariant buffer[..used] == all
        invariant Parse(all).refused == Parse(all[consumed..]).refused
        invariant Parse(all).rest == Parse(all[consumed..]).rest
        invariant old(dispatched) + Parse(all).frames == dispatched + Parse(all[consumed..]).frames
      {
        assert buffer[consumed..used] == all[consumed..];
        var next := TakeFrame(consumed);
        if next.Refuse? {
          return false;
        }
        if next.Incomplete? {
          break;
        }
        assert all[consumed..][next.length..] == all[consumed + next.length..];
        dispatched := dispatched + [next.frame];
        consumed := consumed + next.length;
      }
      assert Parse(all[consumed..]) == Parsed([], all[consumed..], false);
      assert buffer[consumed..used] == all[consumed..];
      Discard(consumed);
      ok := true;
    }

    /** The header at an offset of the buffer, and the request behind it once it is complete. */
    method TakeFrame(consumed: nat) returns (next: Next)
      requires buffer.Length == CAPACITY && consumed + HEADER <= used <= CAPACITY
      ensures var view := buffer[consumed..used];
              match next
              case Refuse => Refuses(view)
              case Incomplete => !Refuses(view) && !Whole(view)
              case Take(frame, length) => !Refuses(view) && Whole(view) && frame == FrameAt(view) && HEADER <= length == HEADER + LengthOf(view) <= |view|
    {
      ghost var view := buffer[consumed..used];
      SliceOfSlice(buffer[..], consumed, used, 8, 12);
      SliceOfSlice(buffer[..], consumed, used, 4, 8);
      var length := Value(buffer[consumed + 8..consumed + 12]);
      if buffer[consumed] != VERSION || length > MAX_FRAME {
        return Refuse;
      }
      var frameLength := HEADER + length;
      if used - consumed < frameLength {
        return Incomplete;
      }
      SliceOfSlice(buffer[..], consumed, used, HEADER, frameLength);
      next := Take(Frame(buffer[consumed + 1], Value(buffer[consumed + 4..consumed + 8]), buffer[consumed + HEADER..consumed + frameLength]), frameLength);
    }

    method Store(data: seq<byte>)
      requires buffer.Length == CAPACITY && used + |data| <= CAPACITY
      modifies this`used, this`stream, buffer
      ensures used == old(used) + |data| && stream == old(stream) + data
      ensures buffer[..used] == old(buffer[..used]) + data
    {
      for i := 0 to |data|
        invariant used == old(used) && stream == old(stream)
        invariant forall k | 0 <= k < used :: buffer[k] == old(buffer[k])
        invariant forall k | 0 <= k < i :: buffer[used + k] == data[k]
      {
        buffer[used + i] := data[i];
      }
      used := used + |data|;
      stream := stream + data;
    }

    /** memmove of what is left to the front. */
    method Discard(consumed: nat)
      requires buffer.Length == CAPACITY && consumed <= used <= CAPACITY
      modifies this`used, buffer
      ensures used == old(used) - consumed
      ensures buffer[..used] == old(buffer[consumed..used])
    {
      if consumed > 0 {
        var left := used - consumed;
        for i := 0 to left
          invariant used == old(used)
          invariant forall k | 0 <= k < i :: buffer[k] == old(buffer[consumed + k])
          invariant forall k | i <= k < CAPACITY :: buffer[k] == old(buffer[k])
        {
          buffer[i] := buffer[consumed + i];
        }
        used := left;
      }
    }
  }
}
