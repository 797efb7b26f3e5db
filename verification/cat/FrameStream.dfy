/**
 The reassembler for frames that end in ';': whatever the chunking, the frames of
 the stream, up to the first stretch longer than the bound.
 */
module FrameStream {
  import opened Results
  import opened Wire

  const DEFAULT_MAX_FRAME: nat := 256

  /** Index of the first ';', or the length when there is none. */
  function FirstEnd(s: seq<Byte>): (i: nat)
    ensures i <= |s|
    ensures i < |s| ==> s[i] == SEMICOLON
    ensures forall k | 0 <= k < i :: s[k] != SEMICOLON
  {
    if s == [] || s[0] == SEMICOLON then 0 else 1 + FirstEnd(s[1..])
  }

  /** Whole frames, each with its ';', and what follows the last of them. */
  function SplitFrames(buf: seq<Byte>): (r: (seq<seq<Byte>>, seq<Byte>))
    decreases |buf|
  {
    var i := FirstEnd(buf);
    if i == |buf| then ([], buf)
    else
      var (frames, rest) := SplitFrames(buf[i + 1..]);
      ([buf[..i + 1]] + frames, rest)
  }

  function Concat(frames: seq<seq<Byte>>): seq<Byte> {
    if frames == [] then [] else frames[0] + Concat(frames[1..])
  }

  lemma Associate<T>(a: seq<T>, b: seq<T>, c: seq<T>)
    ensures a + (b + c) == (a + b) + c
  {
  }

  lemma CutAt(s: seq<Byte>, i: nat, more: seq<Byte>)
    requires i <= |s|
    ensures s == s[..i] + s[i..] && s + more == s[..i] + (s[i..] + more)
  {
  }

  lemma ConcatCons(f: seq<Byte>, frames: seq<seq<Byte>>, rest: seq<Byte>)
    ensures Concat([f] + frames) + rest == f + (Concat(frames) + rest)
  {
    assert ([f] + frames)[1..] == frames;
    Associate(f, Concat(frames), rest);
  }

  /** Every byte is in exactly one frame or in the rest, which has no terminator. */
  lemma {:induction false} SplitConserves(buf: seq<Byte>)
    ensures var (frames, rest) := SplitFrames(buf); Concat(frames) + rest == buf && FirstEnd(rest) == |rest|
    decreases |buf|
  {
    var i := FirstEnd(buf);
    if i < |buf| {
      var f, tail := buf[..i + 1], buf[i + 1..];
      SplitConserves(tail);
      ConcatCons(f, SplitFrames(tail).0, SplitFrames(tail).1);
      CutAt(buf, i + 1, []);
    }
  }

  lemma NoEnd(s: seq<Byte>)
    requires FirstEnd(s) == |s|
    ensures SEMICOLON !in s
  {
  }

  /** A frame ends in ';' and has no other. */
  lemma {:induction false} SplitFramesAreWhole(buf: seq<Byte>)
    ensures forall k | 0 <= k < |SplitFrames(buf).0| ::
              var f := SplitFrames(buf).0[k]; f != [] && FirstEnd(f) == |f| - 1
    decreases |buf|
  {
    var i := FirstEnd(buf);
    if i < |buf| {
      SplitFramesAreWhole(buf[i + 1..]);
      EndIsUnique(buf[..i + 1], i);
    }
  }

  lemma EndIsUnique(s: seq<Byte>, i: nat)
    requires i < |s| && s[i] == SEMICOLON && forall k | 0 <= k < i :: s[k] != SEMICOLON
    ensures FirstEnd(s) == i
  {
    if FirstEnd(s) < i {
      assert s[FirstEnd(s)] == SEMICOLON;
    }
  }

  // ---- what the accumulator does with a stream

  /** `lost` is how many bytes the first violation threw away, when there was one. */
  datatype Scanned = Scanned(frames: seq<seq<Byte>>, rest: seq<Byte>, lost: Option<nat>)

  function Scan(s: seq<Byte>, max: int): Scanned
    decreases |s|
  {
    var i := FirstEnd(s);
    if i == |s| then
      if |s| > max then Scanned([], [], Some(|s|)) else Scanned([], s, None)
    else if i + 1 > max then Scanned([], [], Some(|s|))
    else
      var r := Scan(s[i + 1..], max);
      r.(frames := [s[..i + 1]] + r.frames)
  }

  lemma SplitStep(left: seq<Byte>, max: int)
    ensures var (split, rest) := SplitFrames(left);
            if split == [] then
              rest == left
              && Scan(left, max) == if |left| > max then Scanned([], [], Some(|left|)) else Scanned([], left, None)
            else
              && |split[0]| <= |left| && SplitFrames(left[|split[0]|..]) == (split[1..], rest)
              && if |split[0]| > max then Scan(left, max) == Scanned([], [], Some(|left|))
                 else
                   Scan(left, max) ==
                   Scan(left[|split[0]|..], max).(frames := [split[0]] + Scan(left[|split[0]|..], max).frames)
  {
  }

  class FrameAccumulator {
    var buf: seq<Byte>
    const max: int

    constructor (maxFrame: int)
      ensures Valid() && buf == [] && max == if maxFrame <= 0 then DEFAULT_MAX_FRAME else maxFrame
    {
      buf := [];
      max := if maxFrame <= 0 then DEFAULT_MAX_FRAME else maxFrame;
    }

    /** Between pushes: no terminator retained, and no more than the bound. */
    ghost predicate Valid()
      reads this
    {
      0 < max && |buf| <= max && SEMICOLON !in buf
    }

    method Push(chunk: seq<Byte>) returns (frames: seq<seq<Byte>>, lost: Option<nat>)
      requires Valid()
      modifies this
      ensures Valid() && Scanned(frames, buf, lost) == Scan(old(buf) + chunk, max)
    {
      var all := buf + chunk;
      var (split, rest) := SplitFrames(all);
      frames := [];
      var consumed := 0;
      var i := 0;
      ghost var whole, left := Scan(all, max), all;
      while i < |split|
        invariant 0 <= i <= |split| && consumed + |left| == |all|
        invariant SplitFrames(left) == (split[i..], rest)
        invariant whole == Scan(left, max).(frames := frames + Scan(left, max).frames)
      {
        var raw := split[i];
        SplitStep(left, max);
        if |raw| > max {
          buf := [];
          return frames, Some(|all| - consumed);
        }
        left := left[|raw|..];
        assert split[i..][1..] == split[i + 1..];
        Associate(frames, [raw], Scan(left, max).frames);
        frames := frames + [raw];
        consumed := consumed + |raw|;
        i := i + 1;
      }
      SplitStep(left, max);
      SplitConserves(left);
      NoEnd(rest);
      if |rest| > max {
        buf := [];
        return frames, Some(|rest|);
      }
      buf := rest;
      return frames, None;
    }
  }

  /** A push without a violation: frames and retained buffer are the bytes there were. */
  lemma {:induction false} CleanScanConserves(s: seq<Byte>, max: int)
    requires Scan(s, max).lost.None?
    ensures Concat(Scan(s, max).frames) + Scan(s, max).rest == s
    ensures SEMICOLON !in Scan(s, max).rest && |Scan(s, max).rest| <= max
    decreases |s|
  {
    var i := FirstEnd(s);
    if i < |s| {
      CleanScanConserves(s[i + 1..], max);
      var r := Scan(s[i + 1..], max);
      ConcatCons(s[..i + 1], r.frames, r.rest);
      assert s[..i + 1] + s[i + 1..] == s;
    }
  }

  /** A push with one: the frames are a prefix of the bytes, and the loss reported is all the others. */
  lemma {:induction false} ViolationConserves(s: seq<Byte>, max: int)
    requires Scan(s, max).lost.Some?
    ensures var r := Scan(s, max);
            && r.rest == [] && r.lost.value <= |s| && Concat(r.frames) == s[..|s| - r.lost.value]
    decreases |s|
  {
    var i := FirstEnd(s);
    if i < |s| && i + 1 <= max {
      ViolationConserves(s[i + 1..], max);
      var r := Scan(s[i + 1..], max);
      ConcatCons(s[..i + 1], r.frames, []);
      assert Concat([s[..i + 1]] + r.frames) + [] == Concat([s[..i + 1]] + r.frames);
      assert Concat(r.frames) + [] == Concat(r.frames);
      assert s[..|s| - r.lost.value] == s[..i + 1] + s[i + 1..][..|s| - i - 1 - r.lost.value];
    }
  }

  /** Every frame handed out is a whole frame within the bound. */
  lemma {:induction false} ScanFramesAreWhole(s: seq<Byte>, max: int)
    ensures forall k | 0 <= k < |Scan(s, max).frames| ::
              var f := Scan(s, max).frames[k]; 0 < |f| <= max && FirstEnd(f) == |f| - 1
    decreases |s|
  {
    var i := FirstEnd(s);
    if i < |s| && i + 1 <= max {
      ScanFramesAreWhole(s[i + 1..], max);
      EndIsUnique(s[..i + 1], i);
    }
  }

  // ---- any chunking

  lemma FirstEndOfLonger(s: seq<Byte>, more: seq<Byte>)
    ensures FirstEnd(s) < |s| ==> FirstEnd(s + more) == FirstEnd(s)
    ensures FirstEnd(s) == |s| ==> FirstEnd(s + more) == |s| + FirstEnd(more)
  {
    var t := s + more;
    if FirstEnd(s) < |s| {
      EndIsUnique(t, FirstEnd(s));
    } else if FirstEnd(more) < |more| {
      assert forall k | 0 <= k < |s| :: t[k] == s[k];
      EndIsUnique(t, |s| + FirstEnd(more));
    }
  }

  /** A whole frame in front of a stream comes out in front. */
  lemma ScanCons(f: seq<Byte>, tail: seq<Byte>, max: int)
    requires 0 < |f| <= max && FirstEnd(f) == |f| - 1
    ensures Scan(f + tail, max) == Scan(tail, max).(frames := [f] + Scan(tail, max).frames)
  {
    FirstEndOfLonger(f, tail);
    assert (f + tail)[..|f|] == f && (f + tail)[|f|..] == tail;
  }

  lemma NothingWhole(s: seq<Byte>, more: seq<Byte>, max: int)
    requires FirstEnd(s) == |s| || FirstEnd(s) + 1 > max
    ensures var first, whole := Scan(s, max), Scan(s + more, max);
            && first.frames == []
            && if first.lost.Some? then whole == Scanned([], [], Some(|s + more|)) else first.rest == s
  {
    FirstEndOfLonger(s, more);
  }

  /** Scanning on from where a clean scan stopped is scanning the whole; a violation stays one. */
  lemma {:induction false} ScanResumes(s: seq<Byte>, more: seq<Byte>, max: int)
    ensures var first, whole := Scan(s, max), Scan(s + more, max);
            if first.lost.Some? then whole.lost.Some? && whole.frames == first.frames && whole.rest == []
            else whole == Scan(first.rest + more, max).(frames := first.frames + Scan(first.rest + more, max).frames)
    decreases |s|
  {
    var i := FirstEnd(s);
    if i == |s| || i + 1 > max {
      NothingWhole(s, more, max);
    } else {
      var f, tail := s[..i + 1], s[i + 1..];
      EndIsUnique(f, i);
      CutAt(s, i + 1, more);
      ScanCons(f, tail, max);
      ScanCons(f, tail + more, max);
      ScanResumes(tail, more, max);
      Associate([f], Scan(tail, max).frames, Scan(Scan(tail, max).rest + more, max).frames);
    }
  }

  /** Pushes one chunk after another, up to the first violation. */
  function ScanAll(buf: seq<Byte>, chunks: seq<seq<Byte>>, max: int): Scanned
    decreases |chunks|
  {
    if chunks == [] then Scanned([], buf, None)
    else
      var r := Scan(buf + chunks[0], max);
      if r.lost.Some? then r
      else
        var q := ScanAll(r.rest, chunks[1..], max);
        q.(frames := r.frames + q.frames)
  }

  /**
   However the stream is chunked: the same frames up to the first violation, a
   violation if and only if the whole has one, and the same retained buffer.
   */
  lemma {:induction false} ChunkingNeverMatters(buf: seq<Byte>, chunks: seq<seq<Byte>>, max: int)
    requires |buf| <= max && SEMICOLON !in buf
    ensures var split, whole := ScanAll(buf, chunks, max), Scan(buf + Concat(chunks), max);
            split.frames == whole.frames && split.rest == whole.rest && (split.lost.Some? <==> whole.lost.Some?)
    decreases |chunks|
  {
    if chunks == [] {
      assert buf + [] == buf;
      assert FirstEnd(buf) == |buf|;
    } else {
      var r := Scan(buf + chunks[0], max);
      assert buf + Concat(chunks) == (buf + chunks[0]) + Concat(chunks[1..]);
      ScanResumes(buf + chunks[0], Concat(chunks[1..]), max);
      if r.lost.None? {
        CleanScanConserves(buf + chunks[0], max);
        ChunkingNeverMatters(r.rest, chunks[1..], max);
      } else {
        ViolationConserves(buf + chunks[0], max);
      }
    }
  }
}
