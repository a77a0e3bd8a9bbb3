/** Joining a film and its continuation: streamed, length-exact audio with one repaired seam. */
module Chain {
  import opened Basics
  import opened Seam
  import Clock

  const AAC_PADDING := 2048
  const BLOCK := 1024

  /* Trimming and padding a decoded soundtrack to its presentation length. */

  predicate IterRaises(pcm: Pcm, expected: int) {
    !(0 <= expected <= Clock.Emitted(Clock.MAX_FILM))
    || |pcm| - expected > AAC_PADDING || expected - |pcm| > AAC_PADDING
    || (|pcm| < expected && pcm == [])
  }

  function Repeat(x: real, n: nat): Pcm {
    seq(n, _ => x)
  }

  /** The soundtrack trimmed, or its last sample repeated, to the expected length. */
  function Fitted(pcm: Pcm, expected: int): (r: Pcm)
    requires !IterRaises(pcm, expected)
    ensures |r| == expected
    ensures expected <= |pcm| ==> r <= pcm
    ensures |pcm| <= expected ==> pcm <= r
    ensures forall i :: |pcm| <= i < expected ==> r[i] == pcm[|pcm| - 1]
  {
    if |pcm| < expected then pcm + Repeat(pcm[|pcm| - 1], expected - |pcm|) else pcm[..expected]
  }

  /** `_iter_audio`: for every way the decoder cuts its output, the chunks spell the fitted soundtrack. */
  method IterAudio(decoded: seq<Pcm>, expected: int) returns (r: Result<seq<Pcm>>)
    ensures r.Raised? <==> IterRaises(Concat(decoded), expected)
    ensures r.Ok? <==>
      var n := |Concat(decoded)|;
      0 <= expected <= Clock.Emitted(10000) && -2048 <= n - expected <= 2048 && (expected == 0 || n > 0)
    ensures r.Ok? ==> Concat(r.value) == Fitted(Concat(decoded), expected) && |Concat(r.value)| == expected
    ensures r.Ok? ==> forall i :: 0 <= i < |r.value| ==> r.value[i] != []
  {
    if !(0 <= expected <= Clock.Emitted(Clock.MAX_FILM)) {
      return Raised;
    }
    hide Concat, Clock.Emitted;
    var out, produced, last := Trimmed(decoded, expected);
    if produced - expected > AAC_PADDING || expected - produced > AAC_PADDING {
      return Raised;
    }
    if produced < expected {
      if last.None? {
        return Raised;
      }
      var pad := Repeat(last.value, expected - produced);
      ConcatAppend(out, pad);
      out := out + [pad];
    }
    r := Ok(out);
  }

  /** The chunks up to the expected length, how much was decoded, and the last sample kept. */
  method Trimmed(decoded: seq<Pcm>, expected: nat) returns (out: seq<Pcm>, produced: nat, last: Option<real>)
    ensures produced == |Concat(decoded)|
    ensures Concat(out) == Concat(decoded)[..Min(produced, expected)]
    ensures forall j :: 0 <= j < |out| ==> out[j] != []
    ensures last == if Min(produced, expected) == 0 then None else Some(Concat(decoded)[Min(produced, expected) - 1])
  {
    hide Concat;
    out, produced, last := [], 0, None;
    ConcatNothing(decoded);
    for i := 0 to |decoded|
      invariant produced == |Concat(decoded[..i])|
      invariant Concat(out) == Concat(decoded[..i])[..Min(produced, expected)]
      invariant forall j :: 0 <= j < |out| ==> out[j] != []
      invariant last == if Min(produced, expected) == 0 then None else Some(Concat(decoded[..i])[Min(produced, expected) - 1])
    {
      ConcatNext(decoded, i);
      var audio := decoded[i];
      var until := if expected - produced < 0 then 0 else Min(|audio|, expected - produced);
      PrefixGrows(Concat(decoded[..i]), audio, expected, until);
      produced := produced + |audio|;
      if until > 0 {
        var part := audio[..until];
        last := Some(part[|part| - 1]);
        ConcatAppend(out, part);
        out := out + [part];
      }
    }
    assert decoded[..|decoded|] == decoded;
  }

  lemma ConcatNothing(chunks: seq<Pcm>)
    ensures Concat(chunks[..0]) == [] && Concat<real>([]) == []
  {
  }

  lemma ConcatNext(chunks: seq<Pcm>, i: nat)
    requires i < |chunks|
    ensures Concat(chunks[..i + 1]) == Concat(chunks[..i]) + chunks[i]
  {
    assert chunks[..i + 1] == chunks[..i] + [chunks[i]];
    ConcatAppend(chunks[..i], chunks[i]);
  }

  lemma PrefixGrows(before: Pcm, audio: Pcm, expected: nat, until: nat)
    requires until == if expected < |before| then 0 else Min(|audio|, expected - |before|)
    ensures Min(|before| + |audio|, expected) == Min(|before|, expected) + until
    ensures (before + audio)[..Min(|before| + |audio|, expected)] == before[..Min(|before|, expected)] + audio[..until]
  {
  }

  /* The seam needs only the last and the first 320 samples. */

  lemma SmoothingIsLocal(rest: Pcm, tail: Pcm, head: Pcm, ahead: Pcm)
    requires |tail| <= CHAIN_FADE && (|tail| < CHAIN_FADE ==> rest == [])
    requires |head| <= CHAIN_FADE && (|head| < CHAIN_FADE ==> ahead == [])
    ensures ChainTail(rest + tail, head + ahead) == rest + ChainTail(tail, head)
    ensures ChainHead(rest + tail, head + ahead) == ChainHead(tail, head) + ahead
  {
    hide Phase, Faded, Fade;
    var left, right := rest + tail, head + ahead;
    SameFade(rest, tail, head, ahead);
    var n := Fade(CHAIN_FADE, |tail|, |head|);
    if n > 0 {
      var m := Midpoint(tail, head);
      assert Midpoint(left, right) == m;
      var big, small := ChainTail(left, right), ChainTail(tail, head);
      forall i | 0 <= i < |left|
        ensures big[i] == (rest + small)[i]
      {
        if i >= |rest| {
          assert left[i] == tail[i - |rest|] && i - (|left| - n) == i - |rest| - (|tail| - n);
        }
      }
      assert big == rest + small;
      forall i | 0 <= i < |right|
        ensures ChainHead(left, right)[i] == (ChainHead(tail, head) + ahead)[i]
      {
      }
    }
  }

  lemma SameFade(rest: Pcm, tail: Pcm, head: Pcm, ahead: Pcm)
    requires |tail| <= CHAIN_FADE && (|tail| < CHAIN_FADE ==> rest == [])
    requires |head| <= CHAIN_FADE && (|head| < CHAIN_FADE ==> ahead == [])
    ensures
      var n := Fade(CHAIN_FADE, |tail|, |head|);
      n == Fade(CHAIN_FADE, |rest + tail|, |head + ahead|) && n <= |tail| && n <= |head|
  {
  }

  /** Both whole soundtracks smoothed and concatenated. */
  function Joined(parent: Pcm, child: Pcm): Pcm {
    ChainTail(parent, child) + ChainHead(parent, child)
  }

  /** `_smooth_seam` on two small buffers. */
  method Smoothed(tail: Pcm, head: Pcm) returns (left: Pcm, right: Pcm)
    ensures left == ChainTail(tail, head) && right == ChainHead(tail, head)
  {
    var a := new real[|tail|](i requires 0 <= i < |tail| => tail[i]);
    var b := new real[|head|](i requires 0 <= i < |head| => head[i]);
    assert a[..] == tail && b[..] == head;
    SmoothSeam(a, b);
    left, right := a[..], b[..];
  }

  /** The parent's part of `_stream_joined_audio`: everything but the last 320 samples is passed on at once. */
  method StreamParent(blocks: seq<Pcm>) returns (out: seq<Pcm>, tail: Pcm)
    ensures Concat(out) + tail == Concat(blocks)
    ensures |tail| <= CHAIN_FADE && (|tail| < CHAIN_FADE ==> Concat(out) == [])
  {
    hide Concat;
    out, tail := [], [];
    ConcatNothing(blocks);
    for i := 0 to |blocks|
      invariant Concat(out) + tail == Concat(blocks[..i])
      invariant |tail| <= CHAIN_FADE && (|tail| < CHAIN_FADE ==> Concat(out) == [])
    {
      ConcatNext(blocks, i);
      var pending := tail + blocks[i];
      assert Concat(out) + pending == Concat(blocks[..i + 1]);
      if |pending| > CHAIN_FADE {
        var cut := |pending| - CHAIN_FADE;
        ConcatAppend(out, pending[..cut]);
        out := out + [pending[..cut]];
        tail := pending[cut..];
        assert pending == pending[..cut] + tail;
      } else {
        tail := pending;
      }
    }
    assert blocks[..|blocks|] == blocks;
  }

  /** The child's opening: the first 320 samples, what is left of the block that completes them, and how many
      blocks were taken. */
  method StreamOpening(blocks: seq<Pcm>) returns (head: Pcm, ahead: Pcm, taken: nat)
    requires forall i :: 0 <= i < |blocks| ==> blocks[i] != []
    ensures taken <= |blocks| && head + ahead == Concat(blocks[..taken])
    ensures |head| <= CHAIN_FADE && (|head| < CHAIN_FADE ==> ahead == [] && taken == |blocks|)
    ensures blocks != [] ==> head != []
  {
    hide Concat;
    head, ahead, taken := [], [], 0;
    ConcatNothing(blocks);
    while taken < |blocks| && |head| < CHAIN_FADE
      invariant taken <= |blocks| && head + ahead == Concat(blocks[..taken])
      invariant |head| <= CHAIN_FADE && (|head| < CHAIN_FADE ==> ahead == [])
      invariant taken > 0 ==> head != []
    {
      var block := blocks[taken];
      ConcatNext(blocks, taken);
      var need := Min(CHAIN_FADE - |head|, |block|);
      assert block == block[..need] + block[need..];
      head := head + block[..need];
      ahead := block[need..];
      taken := taken + 1;
    }
  }

  predicate JoinRaises(parent: Pcm, child: Pcm, expectedParent: int, expectedChild: int) {
    IterRaises(parent, expectedParent) || IterRaises(child, expectedChild) || expectedChild == 0
  }

  /** `_stream_joined_audio`: for every chunking of both decoders the stream is the smoothed whole; at most 320
      samples of the parent are ever withheld. */
  method StreamJoinedAudio(parent: seq<Pcm>, child: seq<Pcm>, expectedParent: int, expectedChild: int)
    returns (r: Result<seq<Pcm>>)
    ensures r.Raised? <==> JoinRaises(Concat(parent), Concat(child), expectedParent, expectedChild)
    ensures r.Ok? ==> Concat(r.value) == Joined(Fitted(Concat(parent), expectedParent), Fitted(Concat(child), expectedChild))
  {
    hide Concat, ChainTail, ChainHead, Fitted, IterRaises;
    var one := IterAudio(parent, expectedParent);
    var two := IterAudio(child, expectedChild);
    if one.Raised? || two.Raised? {
      return Raised;
    }
    var out, tail := StreamParent(one.value);
    if two.value == [] {
      ConcatNothing(two.value);
      return Raised;
    }
    NonEmpty(two.value);
    var head, ahead, taken := StreamOpening(two.value);
    var left, right := Smoothed(tail, head);
    var rest := two.value[taken..];
    assert two.value == two.value[..taken] + rest;
    ConcatSplit(two.value[..taken], rest);
    ConcatNothing(rest);
    SmoothingIsLocal(Concat(out), tail, head, ahead + Concat(rest));
    assert Concat(two.value) == head + (ahead + Concat(rest));
    var joined := out + (if left == [] then [] else [left]) + [right] + (if ahead == [] then [] else [ahead]) + rest;
    JoinedPieces(out, left, right, ahead, rest);
    r := Ok(joined);
  }

  lemma NonEmpty(chunks: seq<Pcm>)
    requires chunks != [] && forall i :: 0 <= i < |chunks| ==> chunks[i] != []
    ensures Concat(chunks) != []
  {
    assert Concat(chunks) == chunks[0] + Concat(chunks[1..]);
  }

  lemma JoinedPieces(out: seq<Pcm>, left: Pcm, right: Pcm, ahead: Pcm, rest: seq<Pcm>)
    ensures Concat(out + (if left == [] then [] else [left]) + [right] + (if ahead == [] then [] else [ahead]) + rest)
         == Concat(out) + left + (right + (ahead + Concat(rest)))
  {
    var a := if left == [] then [] else [left];
    var b := if ahead == [] then [] else [ahead];
    One(left);
    One(ahead);
    ConcatAppend([], right);
    assert [] + [right] == [right];
    ConcatSplit(out, a);
    ConcatSplit(out + a, [right]);
    ConcatSplit(out + a + [right], b);
    ConcatSplit(out + a + [right] + b, rest);
  }

  lemma One(x: Pcm)
    ensures Concat(if x == [] then [] else [x]) == x
  {
    if x != [] {
      ConcatAppend([], x);
      assert [] + [x] == [x];
    }
  }

  /** `_fixed_audio_blocks`: the same samples in blocks of 1024, except a last, shorter one. */
  method FixedAudioBlocks(chunks: seq<Pcm>) returns (blocks: seq<Pcm>)
    ensures Concat(blocks) == Concat(chunks)
    ensures forall i :: 0 <= i < |blocks| ==> 0 < |blocks[i]| <= BLOCK && (i < |blocks| - 1 ==> |blocks[i]| == BLOCK)
  {
    hide Concat;
    var pending: Pcm := [];
    blocks := [];
    ConcatNothing(chunks);
    for i := 0 to |chunks|
      invariant Concat(blocks) + pending == Concat(chunks[..i]) && |pending| < BLOCK
      invariant forall j :: 0 <= j < |blocks| ==> |blocks[j]| == BLOCK
    {
      ConcatNext(chunks, i);
      ghost var before := pending;
      pending := pending + chunks[i];
      assert Concat(blocks) + pending == (Concat(blocks) + before) + chunks[i];
      while |pending| >= BLOCK
        invariant Concat(blocks) + pending == Concat(chunks[..i + 1])
        invariant forall j :: 0 <= j < |blocks| ==> |blocks[j]| == BLOCK
      {
        ConcatAppend(blocks, pending[..BLOCK]);
        assert pending == pending[..BLOCK] + pending[BLOCK..];
        blocks := blocks + [pending[..BLOCK]];
        pending := pending[BLOCK..];
      }
    }
    assert chunks[..|chunks|] == chunks;
    if pending != [] {
      ConcatAppend(blocks, pending);
      blocks := blocks + [pending];
    }
  }

  /** Audio accounting of `join_native_chain`: the blocks carry exactly the rounded samples of all frames, so the
      length check at the end never fires, and each block is stamped with the samples before it. */
  method JoinAudio(parent: seq<Pcm>, child: seq<Pcm>, parentFrames: int, childFrames: int) returns (r: Result<(seq<Pcm>, seq<int>)>)
    ensures r.Raised? <==>
      (|| !(1 <= parentFrames && 1 <= childFrames && parentFrames + childFrames <= Clock.MAX_FILM)
       || IterRaises(Concat(parent), Clock.Emitted(parentFrames))
       || IterRaises(Concat(child), Clock.Emitted(parentFrames + childFrames) - Clock.Emitted(parentFrames)))
    ensures r.Ok? ==> |Concat(r.value.0)| == Clock.Emitted(parentFrames + childFrames)
    ensures r.Ok? ==> Concat(r.value.0) == Joined(Fitted(Concat(parent), Clock.Emitted(parentFrames)),
                                                  Fitted(Concat(child), Clock.Emitted(parentFrames + childFrames) - Clock.Emitted(parentFrames)))
    ensures r.Ok? ==> |r.value.1| == |r.value.0| && forall i :: 0 <= i < |r.value.0| ==> r.value.1[i] == |Concat(r.value.0[..i])|
  {
    hide Concat, Fitted, IterRaises, Joined, Clock.Emitted;
    if !(1 <= parentFrames <= Clock.MAX_FILM && 1 <= childFrames <= Clock.MAX_FILM && parentFrames + childFrames <= Clock.MAX_FILM) {
      return Raised;
    }
    var expectedParent, expectedTotal := Clock.Emitted(parentFrames), Clock.Emitted(parentFrames + childFrames);
    var joined := StreamJoinedAudio(parent, child, expectedParent, expectedTotal - expectedParent);
    ChildNotEmpty(parentFrames, childFrames);
    if joined.Raised? {
      return Raised;
    }
    var blocks := FixedAudioBlocks(joined.value);
    var cursor, stamps := Stamp(blocks);
    JoinedLength(Fitted(Concat(parent), expectedParent), Fitted(Concat(child), expectedTotal - expectedParent));
    FittedLength(Concat(parent), expectedParent);
    FittedLength(Concat(child), expectedTotal - expectedParent);
    if cursor != expectedTotal {
      assert false;
    }
    r := Ok((blocks, stamps));
  }

  lemma FittedLength(pcm: Pcm, expected: int)
    requires !IterRaises(pcm, expected)
    ensures |Fitted(pcm, expected)| == expected
  {
    hide Clock.Emitted;
  }

  /** Presentation time of each block: the samples before it. */
  method Stamp(blocks: seq<Pcm>) returns (cursor: int, stamps: seq<int>)
    ensures cursor == |Concat(blocks)| && |stamps| == |blocks|
    ensures forall j :: 0 <= j < |blocks| ==> stamps[j] == |Concat(blocks[..j])|
  {
    hide Concat;
    cursor, stamps := 0, [];
    ConcatNothing(blocks);
    for i := 0 to |blocks|
      invariant cursor == |Concat(blocks[..i])| && |stamps| == i
      invariant forall j :: 0 <= j < i ==> stamps[j] == |Concat(blocks[..j])|
    {
      ConcatNext(blocks, i);
      stamps := stamps + [cursor];
      cursor := cursor + |blocks[i]|;
    }
    assert blocks[..|blocks|] == blocks;
  }

  lemma JoinedLength(left: Pcm, right: Pcm)
    ensures |Joined(left, right)| == |left| + |right|
  {
  }

  lemma ChildNotEmpty(parent: int, child: int)
    requires child >= 1
    ensures Clock.Emitted(parent + child) - Clock.Emitted(parent) > 0
  {
    assert 3 * (Clock.Emitted(parent + child) - Clock.Emitted(parent)) == 4000 * child + Clock.SampleError(parent + child) - Clock.SampleError(parent);
  }
}
