/**
 * The frame-boundary scanner shared by both stream harnesses.
 *
 * A camera answers with a multipart/x-mixed-replace body.  The harness
 * does not parse the parts: it keeps a byte buffer across chunks and
 * repeatedly finds and removes the first occurrence of the seven bytes
 * "--frame".  A marker found at a positive offset closes a frame and is
 * counted; a marker at offset 0 is removed without counting.  The match is
 * a plain substring search, not the CRLF-preceded dash-boundary of
 * section 5.1.1 of RFC 2046.  After the scan the buffer is cut back to its
 * last 512 KiB whenever it has grown beyond 1 MiB.
 *
 * Split is the specification of one scan: it cuts the buffer into the
 * segments that precede each consumed marker and the marker-free rest.
 * ConsumeMarkers is the scanning loop itself, proved against Split.
 */
module FrameScanner {

  type Byte = bv8

  /** The bytes of "--frame". */
  const Marker: seq<Byte> := [0x2D, 0x2D, 0x66, 0x72, 0x61, 0x6D, 0x65]

  /** Above this many bytes the buffer is cut back (1024 * 1024). */
  const MaxBuffer: nat := 1048576

  /** How many trailing bytes survive a cut (512 * 1024). */
  const KeptTail: nat := 524288

  predicate MarkerAt(buf: seq<Byte>, i: int)
  {
    0 <= i && i + |Marker| <= |buf| && buf[i..i + |Marker|] == Marker
  }

  /** Python's `marker in buf`. */
  ghost predicate HasMarker(buf: seq<Byte>)
  {
    exists i :: MarkerAt(buf, i)
  }

  /** First marker at or after `from`, or -1 (Python's `buf.find(marker, from)`). */
  function FindFrom(buf: seq<Byte>, from: nat): (r: int)
    requires from <= |buf|
    ensures r == -1 || (from <= r && MarkerAt(buf, r))
    ensures r == -1 ==> forall i :: from <= i ==> !MarkerAt(buf, i)
    ensures forall i :: from <= i < r ==> !MarkerAt(buf, i)
    decreases |buf| - from
  {
    if from + |Marker| > |buf| then -1
    else if buf[from..from + |Marker|] == Marker then from
    else FindFrom(buf, from + 1)
  }

  /** Python's `buf.find(marker)`: the first marker, or -1 when there is none. */
  function Find(buf: seq<Byte>): (r: int)
    ensures r == -1 <==> !HasMarker(buf)
    ensures r != -1 ==> MarkerAt(buf, r) && forall i :: 0 <= i < r ==> !MarkerAt(buf, i)
  {
    FindFrom(buf, 0)
  }

  /** No marker starts inside `seg` when `seg` is followed by a marker. */
  ghost predicate Delimited(seg: seq<Byte>)
  {
    !HasMarker(seg + Marker[..|Marker| - 1])
  }

  /** Reassembles a buffer from its frame segments and its unscanned rest. */
  function Join(segs: seq<seq<Byte>>, rest: seq<Byte>): seq<Byte>
  {
    if segs == [] then rest else segs[0] + Marker + Join(segs[1..], rest)
  }

  /** Below n, the markers of buf[..n] are exactly the markers of buf that end by n. */
  lemma MarkerInPrefix(buf: seq<Byte>, n: nat, i: int)
    requires n <= |buf|
    ensures MarkerAt(buf[..n], i) <==> MarkerAt(buf, i) && i + |Marker| <= n
  {
    if 0 <= i && i + |Marker| <= n {
      assert buf[..n][i..i + |Marker|] == buf[i..i + |Marker|];
    }
  }

  /**
   * What one run of the scanning loop does to a buffer: the segments in
   * front of every consumed marker, in order, and the marker-free rest.
   * The buffer is exactly the segments, each followed by a marker, then the rest.
   */
  ghost function Split(buf: seq<Byte>): (r: (seq<seq<Byte>>, seq<Byte>))
    ensures Join(r.0, r.1) == buf
    ensures !HasMarker(r.1)
    ensures forall k :: 0 <= k < |r.0| ==> Delimited(r.0[k])
    decreases |buf|
  {
    var p := Find(buf);
    if p < 0 then ([], buf)
    else
      var tail := Split(buf[p + |Marker|..]);
      var seg := buf[..p];
      assert buf[..p + |Marker| - 1] == seg + Marker[..|Marker| - 1];
      assert Delimited(seg) by {
        if HasMarker(buf[..p + |Marker| - 1]) {
          var i :| MarkerAt(buf[..p + |Marker| - 1], i);
          MarkerInPrefix(buf, p + |Marker| - 1, i);
        }
      }
      assert buf == seg + Marker + buf[p + |Marker|..];
      assert ([seg] + tail.0)[1..] == tail.0;
      ([seg] + tail.0, tail.1)
  }

  /** Frames counted for the segments: one per non-empty segment. */
  function CountNonEmpty(segs: seq<seq<Byte>>): (n: nat)
    ensures n <= |segs|
  {
    if segs == [] then 0
    else (if |segs[0]| > 0 then 1 else 0) + CountNonEmpty(segs[1..])
  }

  /** Frames the scanning loop counts on this buffer. */
  ghost function Frames(buf: seq<Byte>): nat
  {
    CountNonEmpty(Split(buf).0)
  }

  /**
   * Split is the only decomposition of a buffer into delimited segments
   * and a marker-free rest: the scan has no other possible outcome.
   */
  lemma {:induction false} SplitUnique(buf: seq<Byte>, segs: seq<seq<Byte>>, rest: seq<Byte>)
    requires Join(segs, rest) == buf
    requires forall k :: 0 <= k < |segs| ==> Delimited(segs[k])
    requires !HasMarker(rest)
    ensures Split(buf) == (segs, rest)
    decreases |segs|
  {
    if segs != [] {
      var s0 := segs[0];
      var more := Join(segs[1..], rest);
      assert buf == s0 + Marker + more;
      assert buf[|s0|..|s0| + |Marker|] == Marker;
      assert MarkerAt(buf, |s0|);
      assert buf[..|s0| + |Marker| - 1] == s0 + Marker[..|Marker| - 1];
      forall i | 0 <= i < |s0| ensures !MarkerAt(buf, i) {
        MarkerInPrefix(buf, |s0| + |Marker| - 1, i);
      }
      assert Find(buf) == |s0|;
      assert buf[|s0| + |Marker|..] == more;
      assert buf[..|s0|] == s0;
      SplitUnique(more, segs[1..], rest);
      assert [s0] + segs[1..] == segs;
    } else {
      assert Find(buf) == -1;
    }
  }

  /** A marker at offset 0 is consumed without counting a frame. */
  lemma LeadingMarkerUncounted(buf: seq<Byte>)
    ensures Frames(Marker + buf) == Frames(buf)
    ensures Split(Marker + buf).1 == Split(buf).1
  {
    var (segs, rest) := Split(buf);
    assert Join([[]] + segs, rest) == Marker + buf by {
      assert ([[]] + segs)[1..] == segs;
    }
    assert Delimited([]) by {
      assert [] + Marker[..|Marker| - 1] == Marker[..|Marker| - 1];
    }
    assert forall k :: 0 < k < |[[]] + segs| ==> ([[]] + segs)[k] == segs[k - 1];
    SplitUnique(Marker + buf, [[]] + segs, rest);
    assert ([[]] + segs)[1..] == segs;
  }

  /** A non-empty delimited segment closed by a marker counts exactly one frame. */
  lemma DelimitedFrameCounted(seg: seq<Byte>, buf: seq<Byte>)
    requires |seg| > 0 && Delimited(seg)
    ensures Frames(seg + Marker + buf) == 1 + Frames(buf)
    ensures Split(seg + Marker + buf).1 == Split(buf).1
  {
    var (segs, rest) := Split(buf);
    assert Join([seg] + segs, rest) == seg + Marker + buf by {
      assert ([seg] + segs)[1..] == segs;
    }
    assert forall k :: 0 < k < |[seg] + segs| ==> ([seg] + segs)[k] == segs[k - 1];
    SplitUnique(seg + Marker + buf, [seg] + segs, rest);
    assert ([seg] + segs)[1..] == segs;
  }

  /** Every counted frame consumed at least one payload byte and a whole marker. */
  lemma {:induction false} JoinLength(segs: seq<seq<Byte>>, rest: seq<Byte>)
    ensures |Join(segs, rest)| >= |rest| + |Marker| * |segs| + CountNonEmpty(segs)
  {
    if segs != [] {
      JoinLength(segs[1..], rest);
    }
  }

  /** A scan can count at most one frame per eight bytes it consumes. */
  lemma FramesBound(buf: seq<Byte>)
    ensures 8 * Frames(buf) <= |buf| - |Split(buf).1|
  {
    var (segs, rest) := Split(buf);
    JoinLength(segs, rest);
  }

  /** A buffer with no marker in it is left alone by the scan. */
  lemma MarkerFreeUntouched(buf: seq<Byte>)
    requires !HasMarker(buf)
    ensures Split(buf) == ([], buf) && Frames(buf) == 0
  {
    SplitUnique(buf, [], buf);
  }

  /** Python's `buf[-KeptTail:]` once the buffer exceeds MaxBuffer. */
  function Truncate(buf: seq<Byte>): (r: seq<Byte>)
    ensures |r| <= MaxBuffer && |r| <= |buf|
    ensures r == buf[|buf| - |r|..]
    ensures |buf| <= MaxBuffer ==> r == buf
    ensures |buf| > MaxBuffer ==> |r| == KeptTail
  {
    if |buf| > MaxBuffer then buf[|buf| - KeptTail..] else buf
  }

  /** A suffix of a marker-free buffer is marker-free. */
  lemma SuffixMarkerFree(buf: seq<Byte>, n: nat)
    requires n <= |buf| && !HasMarker(buf)
    ensures !HasMarker(buf[n..])
  {
    if HasMarker(buf[n..]) {
      var i :| MarkerAt(buf[n..], i);
      assert buf[n..][i..i + |Marker|] == buf[n + i..n + i + |Marker|];
      assert MarkerAt(buf, n + i);
    }
  }

  /**
   * The scanning loop of one chunk: while the buffer holds a marker, drop
   * everything up to and including the first one, counting a frame when
   * that marker was not at offset 0.
   */
  method ConsumeMarkers(buf: seq<Byte>) returns (frames: nat, rest: seq<Byte>)
    ensures frames == Frames(buf)
    ensures rest == Split(buf).1
    ensures !HasMarker(rest)
  {
    frames, rest := 0, buf;
    while Find(rest) >= 0
      invariant frames + Frames(rest) == Frames(buf)
      invariant Split(rest).1 == Split(buf).1
      decreases |rest|
    {
      var pos := Find(rest);
      if pos > 0 {
        frames := frames + 1;
      }
      rest := rest[pos + |Marker|..];
    }
    MarkerFreeUntouched(rest);
  }

  /**
   * What one chunk does to the scanner state: frames counted and the buffer
   * left for the next chunk (scanned, then cut back).
   */
  ghost function ChunkEffect(buf: seq<Byte>, chunk: seq<Byte>): (r: (nat, seq<Byte>))
  {
    (Frames(buf + chunk), Truncate(Split(buf + chunk).1))
  }

  /** The buffer carried between chunks never holds a marker and never exceeds 1 MiB. */
  lemma ChunkLeavesCleanBuffer(buf: seq<Byte>, chunk: seq<Byte>)
    ensures !HasMarker(ChunkEffect(buf, chunk).1)
    ensures |ChunkEffect(buf, chunk).1| <= MaxBuffer
  {
    var rest := Split(buf + chunk).1;
    SuffixMarkerFree(rest, |rest| - |Truncate(rest)|);
  }

  /** An empty chunk on a clean buffer counts nothing and keeps the buffer. */
  lemma EmptyChunkNoFrames(buf: seq<Byte>)
    requires !HasMarker(buf) && |buf| <= MaxBuffer
    ensures ChunkEffect(buf, []) == (0, buf)
  {
    assert buf + [] == buf;
    MarkerFreeUntouched(buf);
  }
}
