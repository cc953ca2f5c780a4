/** Newline-delimited frames out of a byte stream that arrives in arbitrary chunks. */
module FrameDecoding {
  import opened Wrappers

  type Byte = b: int | 0 <= b < 0x100
  const NEWLINE: Byte := 10

  datatype FrameError = FrameTooLarge(limit: nat)

  /** Complete frames, and the bytes after the last newline. */
  datatype Pieces = Pieces(frames: seq<seq<Byte>>, rest: seq<Byte>)

  // ---------- what the frames of a stream are ----------

  predicate LineFree(s: seq<Byte>) {
    NEWLINE !in s
  }

  function Joined(frames: seq<seq<Byte>>): seq<Byte> {
    if frames == [] then [] else frames[0] + [NEWLINE] + Joined(frames[1..])
  }

  /** Newline-free pieces that, each frame ended by a newline, are the stream. */
  ghost predicate PiecesOf(p: Pieces, s: seq<Byte>) {
    LineFree(p.rest) && (forall f :: f in p.frames ==> LineFree(f)) && Joined(p.frames) + p.rest == s
  }

  function Extend(p: Pieces, b: Byte): Pieces {
    if b == NEWLINE then Pieces(p.frames + [p.rest], []) else Pieces(p.frames, p.rest + [b])
  }

  function Split(s: seq<Byte>): (p: Pieces) {
    if s == [] then Pieces([], []) else Extend(Split(s[..|s| - 1]), s[|s| - 1])
  }

  predicate AllFit(frames: seq<seq<Byte>>, limit: nat) {
    forall f :: f in frames ==> |f| <= limit
  }

  predicate Fits(p: Pieces, limit: nat) {
    |p.rest| <= limit && AllFit(p.frames, limit)
  }

  lemma {:induction false} JoinedAppend(a: seq<seq<Byte>>, f: seq<Byte>)
    ensures Joined(a + [f]) == Joined(a) + f + [NEWLINE]
  {
    if a == [] {
      assert a + [f] == [f] && [f][1..] == [];
      assert Joined([]) == [];
    } else {
      JoinedAppend(a[1..], f);
      assert (a + [f])[1..] == a[1..] + [f];
    }
  }

  lemma {:induction false} SplitPieces(s: seq<Byte>)
    ensures PiecesOf(Split(s), s)
  {
    if s == [] {
      assert Joined([]) == [];
    } else {
      var front, b := s[..|s| - 1], s[|s| - 1];
      SplitPieces(front);
      var p := Split(front);
      assert s == front + [b];
      if b == NEWLINE {
        JoinedAppend(p.frames, p.rest);
      }
    }
  }

  lemma NoFrames(p: Pieces, s: seq<Byte>)
    requires PiecesOf(p, s)
    ensures p.frames == [] <==> LineFree(s)
    ensures p.frames == [] ==> p.rest == s
  {
    if p.frames == [] {
      assert s == p.rest;
    } else {
      FirstFrame(p, s);
    }
  }

  /** The pieces of a stream are determined by it. */
  lemma {:induction false} PiecesUnique(p: Pieces, q: Pieces, s: seq<Byte>)
    requires PiecesOf(p, s) && PiecesOf(q, s)
    ensures p == q
    decreases |p.frames|
  {
    NoFrames(p, s);
    NoFrames(q, s);
    if p.frames != [] {
      FirstFrame(p, s);
      FirstFrame(q, s);
      var f, g := p.frames[0], q.frames[0];
      assert |f| == |g| && f == g;
      PiecesUnique(Pieces(p.frames[1..], p.rest), Pieces(q.frames[1..], q.rest), s[|f| + 1..]);
      assert p.frames == [f] + p.frames[1..] && q.frames == [g] + q.frames[1..];
    }
  }

  lemma FirstFrame(p: Pieces, s: seq<Byte>)
    requires PiecesOf(p, s) && p.frames != []
    ensures var f := p.frames[0];
            && |f| < |s| && s[..|f|] == f && s[|f|] == NEWLINE && (forall i :: 0 <= i < |f| ==> s[i] != NEWLINE)
            && PiecesOf(Pieces(p.frames[1..], p.rest), s[|f| + 1..])
  {
    var f := p.frames[0];
    var tail := Joined(p.frames[1..]) + p.rest;
    assert s == (f + [NEWLINE]) + tail;
    assert s[|f| + 1..] == tail;
    assert f in p.frames && LineFree(f);
    assert forall i :: 0 <= i < |f| ==> s[i] == f[i] && f[i] in f;
  }

  // ---------- the decoder ----------

  /** One push: the buffer after it, and its frames or the error. */
  function Pushed(limit: nat, buffer: seq<Byte>, bytes: seq<Byte>): (seq<Byte>, Result<seq<seq<Byte>>, FrameError>) {
    var p := Split(buffer + bytes);
    if Fits(p, limit) then (p.rest, Ok(p.frames)) else ([], Err(FrameTooLarge(limit)))
  }

  class FrameDecoder {
    var buffer: seq<Byte>
    const maxFrameBytes: nat

    /** The buffer never holds a newline and never exceeds the limit. */
    ghost predicate Valid()
      reads this
    {
      LineFree(buffer) && |buffer| <= maxFrameBytes && maxFrameBytes > 0
    }

    constructor (maxFrameBytes: nat)
      requires maxFrameBytes > 0
      ensures Valid() && buffer == [] && this.maxFrameBytes == maxFrameBytes
    {
      buffer := [];
      this.maxFrameBytes := maxFrameBytes;
    }

    method AppendBounded(bytes: seq<Byte>) returns (fits: bool)
      modifies this
      ensures fits == (|old(buffer)| + |bytes| <= maxFrameBytes)
      ensures buffer == if fits then old(buffer) + bytes else old(buffer)
    {
      fits := |buffer| + |bytes| <= maxFrameBytes;
      if fits {
        buffer := buffer + bytes;
      }
    }

    method Push(bytes: seq<Byte>) returns (r: Result<seq<seq<Byte>>, FrameError>)
      requires Valid()
      modifies this
      ensures Valid() && (buffer, r) == Pushed(maxFrameBytes, old(buffer), bytes)
    {
      ghost var held := buffer;
      var frames: seq<seq<Byte>> := [];
      var start := 0;
      hide Scanned, Pushed;
      ScannedNone(buffer, bytes, maxFrameBytes);
      for index := 0 to |bytes|
        invariant start <= index
        invariant Scanned(held + bytes[..index], frames, buffer, bytes[start..index], maxFrameBytes)
      {
        ScannedByte(held, bytes, frames, buffer, start, index, maxFrameBytes);
        if bytes[index] != NEWLINE {
          continue;
        }
        var fits := AppendBounded(bytes[start..index]);
        if !fits {
          buffer := [];
          return Err(FrameTooLarge(maxFrameBytes));
        }
        frames := frames + [buffer];
        buffer := [];
        start := index + 1;
      }
      ScannedAll(held, bytes, frames, buffer, start, maxFrameBytes);
      var fits := AppendBounded(bytes[start..]);
      if !fits {
        buffer := [];
        return Err(FrameTooLarge(maxFrameBytes));
      }
      return Ok(frames);
    }
  }

  // ---------- the scan of one push ----------

  /** Complete frames so far, and the unfinished one in two parts. */
  ghost predicate Scanned(s: seq<Byte>, frames: seq<seq<Byte>>, buffer: seq<Byte>, segment: seq<Byte>, limit: nat) {
    Split(s) == Pieces(frames, buffer + segment) && |buffer| <= limit && AllFit(frames, limit)
  }

  lemma ScannedNone(buffer: seq<Byte>, bytes: seq<Byte>, limit: nat)
    requires LineFree(buffer) && |buffer| <= limit
    ensures Scanned(buffer + bytes[..0], [], buffer, bytes[0..0], limit)
  {
    SplitLineFree(buffer);
    assert buffer + bytes[..0] == buffer && buffer + bytes[0..0] == buffer;
  }

  lemma ScannedByte(held: seq<Byte>, bytes: seq<Byte>, frames: seq<seq<Byte>>, buffer: seq<Byte>, start: nat,
                    index: nat,
                    limit: nat)
    requires start <= index < |bytes| && Scanned(held + bytes[..index], frames, buffer, bytes[start..index], limit)
    ensures bytes[index] != NEWLINE ==>
      Scanned(held + bytes[..index + 1], frames, buffer, bytes[start..index + 1], limit)
    ensures bytes[index] == NEWLINE && |buffer| + (index - start) <= limit ==>
      Scanned(held + bytes[..index + 1], frames + [buffer + bytes[start..index]], [], bytes[index + 1..index + 1],
              limit)
    ensures bytes[index] == NEWLINE && |buffer| + (index - start) > limit ==>
      Pushed(limit, held, bytes) == ([], Err(FrameTooLarge(limit)))
  {
    var s, b := held + bytes[..index], bytes[index];
    var frame := buffer + bytes[start..index];
    SliceNext(held, bytes, buffer, start, index);
    SplitStep(s, b);
    if b == NEWLINE && |frame| > limit {
      hide Split, Pushed;
      PieceTooLong(s + [b], bytes[index + 1..], frame, limit);
      AroundByte(held, bytes, index);
    }
  }

  lemma AroundByte(held: seq<Byte>, bytes: seq<Byte>, index: nat)
    requires index < |bytes|
    ensures held + bytes == ((held + bytes[..index]) + [bytes[index]]) + bytes[index + 1..]
  {
  }

  lemma PieceTooLong(s: seq<Byte>, t: seq<Byte>, frame: seq<Byte>, limit: nat)
    requires frame in Split(s).frames && |frame| > limit
    ensures Pushed(limit, s, t) == ([], Err(FrameTooLarge(limit)))
    ensures forall held, bytes :: held + bytes == s + t ==>
      Pushed(limit, held, bytes) == ([], Err(FrameTooLarge(limit)))
  {
    SplitExtends(s, t);
  }

  lemma SliceNext(held: seq<Byte>, bytes: seq<Byte>, buffer: seq<Byte>, start: nat, index: nat)
    requires start <= index < |bytes|
    ensures held + bytes[..index + 1] == (held + bytes[..index]) + [bytes[index]]
    ensures buffer + bytes[start..index + 1] == (buffer + bytes[start..index]) + [bytes[index]]
    ensures [] + bytes[index + 1..index + 1] == []
  {
  }

  lemma ScannedAll(held: seq<Byte>, bytes: seq<Byte>, frames: seq<seq<Byte>>, buffer: seq<Byte>, start: nat, limit: nat)
    requires start <= |bytes| && Scanned(held + bytes[..|bytes|], frames, buffer, bytes[start..|bytes|], limit)
    ensures Pushed(limit, held, bytes)
         == if |buffer| + (|bytes| - start) <= limit then (buffer + bytes[start..], Ok(frames))
            else ([], Err(FrameTooLarge(limit)))
    ensures LineFree(buffer + bytes[start..])
  {
    assert bytes[..|bytes|] == bytes && bytes[start..|bytes|] == bytes[start..];
    SplitPieces(held + bytes);
  }

  lemma SplitStep(s: seq<Byte>, b: Byte)
    ensures Split(s + [b]) == Extend(Split(s), b)
  {
    assert (s + [b])[..|s|] == s;
  }

  lemma {:induction false} SplitLineFree(s: seq<Byte>)
    requires LineFree(s)
    ensures Split(s) == Pieces([], s)
  {
    if s != [] {
      SplitLineFree(s[..|s| - 1]);
      assert s == s[..|s| - 1] + [s[|s| - 1]];
    }
  }

  /** Frames, once complete, stay. */
  lemma {:induction false} SplitExtends(s: seq<Byte>, t: seq<Byte>)
    ensures var p := Split(s); var q := Split(p.rest + t);
            Split(s + t) == Pieces(p.frames + q.frames, q.rest)
  {
    var p := Split(s);
    if t == [] {
      assert s + t == s && p.rest + t == p.rest;
      SplitPieces(s);
      SplitLineFree(p.rest);
      assert p.frames + [] == p.frames;
    } else {
      var front, b := t[..|t| - 1], t[|t| - 1];
      SplitExtends(s, front);
      assert s + t == (s + front) + [b] && p.rest + t == (p.rest + front) + [b];
      SplitStep(s + front, b);
      SplitStep(p.rest + front, b);
      var q := Split(p.rest + front);
      assert (p.frames + q.frames) + [q.rest] == p.frames + (q.frames + [q.rest]);
    }
  }

  // ---------- chunking ----------

  function Concat(chunks: seq<seq<Byte>>): seq<Byte> {
    if chunks == [] then [] else chunks[0] + Concat(chunks[1..])
  }

  /** All pushes of a connection, which closes at the first error. */
  function PushAll(limit: nat, buffer: seq<Byte>, chunks: seq<seq<Byte>>): Result<Pieces, FrameError>
    decreases |chunks|
  {
    if chunks == [] then Ok(Pieces([], buffer))
    else
      var (after, first) := Pushed(limit, buffer, chunks[0]);
      match first
      case Err(e) => Err(e)
      case Ok(frames) =>
        match PushAll(limit, after, chunks[1..])
        case Err(e) => Err(e)
        case Ok(more) => Ok(Pieces(frames + more.frames, more.rest))
  }

  /** A piece that was too long does not get shorter by what follows it. */
  lemma {:induction false} StaysTooLong(s: seq<Byte>, t: seq<Byte>, limit: nat)
    requires !Fits(Split(s), limit)
    ensures !Fits(Split(s + t), limit)
  {
    if t == [] {
      assert s + t == s;
    } else {
      var front, b := t[..|t| - 1], t[|t| - 1];
      StaysTooLong(s, front, limit);
      assert s + t == (s + front) + [b];
      SplitStep(s + front, b);
      var p := Split(s + front);
      if |p.rest| <= limit {
        var f :| f in p.frames && |f| > limit;
        assert f in Split(s + t).frames;
      } else if b == NEWLINE {
        assert p.rest in Split(s + t).frames;
      }
    }
  }

  lemma {:induction false} PushAllSplits(limit: nat, buffer: seq<Byte>, chunks: seq<seq<Byte>>)
    requires LineFree(buffer) && |buffer| <= limit
    ensures var p := Split(buffer + Concat(chunks));
            PushAll(limit, buffer, chunks) == if Fits(p, limit) then Ok(p) else Err(FrameTooLarge(limit))
    decreases |chunks|
  {
    if chunks == [] {
      assert buffer + [] == buffer;
      SplitLineFree(buffer);
    } else {
      var s, t := buffer + chunks[0], Concat(chunks[1..]);
      assert buffer + Concat(chunks) == s + t;
      var p := Split(s);
      if Fits(p, limit) {
        SplitPieces(s);
        SplitExtends(s, t);
        PushAllSplits(limit, p.rest, chunks[1..]);
        var q := Split(p.rest + t);
        assert Fits(Split(s + t), limit) <==> Fits(q, limit);
      } else {
        StaysTooLong(s, t, limit);
      }
    }
  }

  /** However a byte stream is cut into pushes: if no run between newlines exceeds the limit,
      every push succeeds, the frames are those of the whole stream and the leftover is what
      follows its last newline; otherwise some push fails. */
  lemma ChunkingIsInvisible(limit: nat, chunks: seq<seq<Byte>>, p: Pieces)
    requires PiecesOf(p, Concat(chunks))
    ensures PushAll(limit, [], chunks) == if Fits(p, limit) then Ok(p) else Err(FrameTooLarge(limit))
  {
    SplitPieces(Concat(chunks));
    PiecesUnique(p, Split(Concat(chunks)), Concat(chunks));
    assert [] + Concat(chunks) == Concat(chunks);
    PushAllSplits(limit, [], chunks);
  }
}
