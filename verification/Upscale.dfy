/** The learned upscaler's overlapped temporal chunks and their weighted blend, for one coordinate of each frame. */
module Upscale {
  import opened Basics

  /** Frame counts of one call: `frames` in the input, chunks of `chunk`, `overlap` on each side. */
  datatype Shape = Shape(frames: int, chunk: int, overlap: int)
  {
    predicate Valid() { frames > 0 && chunk > 0 && overlap >= 0 }

    predicate Starts(start: int) { 0 <= start < frames }

    function End(start: int): int { Min(frames, start + chunk) }
    function OuterStart(start: int): int { Max(0, start - overlap) }
    function OuterEnd(start: int): int { Min(frames, End(start) + overlap) }
    function Lo(start: int): int { Max(0, OuterStart(start) - overlap) }
    function Hi(start: int): int { Min(frames + 2 * overlap, OuterEnd(start) + overlap) }

    /** Chunk `start` contributes to frame f. */
    predicate Covers(start: int, f: int) { OuterStart(start) <= f < OuterEnd(start) }

    /** Chunk `start` is the one frame f belongs to. */
    predicate Owns(start: int, f: int) { start <= f < End(start) }

    /** Weight of chunk `start` in frame f: 1 inside, a linear ramp over the overlap on each side. */
    function Weight(start: int, f: int): (w: real)
      requires Valid() && Starts(start)
      ensures w >= 0.0 && (w > 0.0 <==> Covers(start, f)) && (Owns(start, f) ==> w == 1.0)
    {
      var a, b := OuterStart(start), OuterEnd(start);
      if !Covers(start, f) then 0.0
      else if f < start then Ratio(f - a + 1, start - a + 1)
      else if f < End(start) then 1.0
      else Ratio(b - f, b - End(start) + 1)
    }

    /** The sum of the weights of the chunks from `start` on. */
    function Weights(start: int, f: int): real
      requires Valid() && start >= 0
      decreases frames - start
    {
      if start >= frames then 0.0 else Weight(start, f) + Weights(start + chunk, f)
    }

    function Part(values: int -> int -> real, start: int, f: int): real
      requires Valid() && Starts(start)
    {
      Weighted(values(start)(f), Weight(start, f))
    }

    /** The sum of their weighted contributions, chunk `start` giving values(start)[f]. */
    function Values(values: int -> int -> real, start: int, f: int): real
      requires Valid() && start >= 0
      decreases frames - start
    {
      if start >= frames then 0.0 else Part(values, start, f) + Values(values, start + chunk, f)
    }
  }

  function Weighted(v: real, w: real): real {
    v * w
  }

  function Ratio(a: int, b: int): (r: real)
    requires 0 < a < b
    ensures 0.0 < r < 1.0
  {
    a as real / b as real
  }

  /* Geometry. */

  function Padded<X>(x: seq<X>, overlap: nat): (r: seq<X>)
    requires x != []
    ensures |r| == |x| + 2 * overlap
    ensures forall f :: 0 <= f < |x| ==> r[overlap + f] == x[f]
  {
    seq(overlap, _ => x[0]) + x + seq(overlap, _ => x[|x| - 1])
  }

  function Segment<X>(x: seq<X>, s: Shape, start: int): (r: seq<X>)
    requires s.Valid() && s.frames == |x| && s.Starts(start)
    ensures |r| == s.Hi(start) - s.Lo(start)
  {
    Padded(x, s.overlap)[s.Lo(start)..s.Hi(start)]
  }

  /** Where frame f of the input sits in the segment of chunk `start`. */
  function At(s: Shape, start: int, f: int): int {
    f + s.overlap - s.Lo(start)
  }

  /** A segment is a stretch of the clip, its first and last frame repeated where it reaches beyond. */
  lemma SegmentIsStretch<X>(x: seq<X>, s: Shape, start: int, k: nat)
    requires s.Valid() && s.frames == |x| && s.Starts(start) && k < |Segment(x, s, start)|
    ensures Segment(x, s, start)[k] == x[Max(0, Min(|x| - 1, s.Lo(start) - s.overlap + k))]
  {
    var p := Padded(x, s.overlap);
    assert Segment(x, s, start)[k] == p[s.Lo(start) + k];
  }

  /** Each view covers exactly its outer range: frame f's value is refined from frame f's own place in the segment. */
  lemma ViewIsAligned<X>(x: seq<X>, s: Shape, start: int, f: int)
    requires s.Valid() && s.frames == |x| && s.Starts(start) && s.Covers(start, f)
    ensures 0 <= At(s, start, f) < |Segment(x, s, start)| && Segment(x, s, start)[At(s, start, f)] == x[f]
  {
    hide Padded;
    var p := Padded(x, s.overlap);
    assert p[s.overlap + f] == x[f];
    assert At(s, start, f) + s.Lo(start) == s.overlap + f;
    assert p[s.Lo(start)..s.Hi(start)][At(s, start, f)] == p[At(s, start, f) + s.Lo(start)];
  }

  /**
   * How much context a segment holds around its view: up to two overlaps before it and never a frame after it,
   * since the padding shifts `lo` and `hi` the same way.
   */
  lemma ContextIsOneSided<X>(x: seq<X>, s: Shape, start: int)
    requires s.Valid() && s.frames == |x| && s.Starts(start)
    ensures At(s, start, s.OuterStart(start)) == Min(2 * s.overlap, s.OuterStart(start) + s.overlap)
    ensures At(s, start, s.OuterEnd(start)) == |Segment(x, s, start)|
  {
  }

  /* The blend. */

  /** Chunk starts reached from `start`. */
  predicate Reaches(s: Shape, start: int, other: int)
    requires s.Valid()
    decreases s.frames - start
  {
    start < s.frames && (start == other || Reaches(s, start + s.chunk, other))
  }

  /** Every frame has its own chunk, which gives it weight 1, so the total is at least 1 and the clamp is inert. */
  lemma {:induction false} TotalWeight(s: Shape, start: int, f: int)
    requires s.Valid() && 0 <= start && f < s.frames
    ensures s.Weights(start, f) >= 0.0
    ensures start <= f ==> s.Weights(start, f) >= 1.0
    decreases s.frames - start
  {
    if start < s.frames {
      TotalWeight(s, start + s.chunk, f);
    }
  }

  /** All chunks from `start` on that cover frame f put it between lo and hi. */
  ghost predicate Between(s: Shape, values: int -> int -> real, start: int, f: int, lo: real, hi: real)
    requires s.Valid()
  {
    forall c :: Reaches(s, start, c) && s.Covers(c, f) ==> lo <= values(c)(f) <= hi
  }

  lemma PartBetween(s: Shape, values: int -> int -> real, start: int, f: int, lo: real, hi: real)
    requires s.Valid() && s.Starts(start) && (s.Covers(start, f) ==> lo <= values(start)(f) <= hi)
    ensures lo * s.Weight(start, f) <= s.Part(values, start, f) <= hi * s.Weight(start, f)
  {
    hide Shape.Weight, Shape.Covers;
    var w, v := s.Weight(start, f), values(start)(f);
    if w == 0.0 {
      assert lo * w == 0.0 && v * w == 0.0 && hi * w == 0.0;
    } else {
      assert s.Covers(start, f) && w > 0.0;
      RealMulLe(lo, v, w);
      RealMulLe(v, hi, w);
    }
  }

  lemma Distribute(a: real, v: real, w: real)
    ensures a * (v + w) == a * v + a * w
  {
  }

  lemma {:induction false} SumsBetween(s: Shape, values: int -> int -> real, start: int, f: int, lo: real, hi: real)
    requires s.Valid() && start >= 0 && Between(s, values, start, f, lo, hi)
    ensures lo * s.Weights(start, f) <= s.Values(values, start, f) <= hi * s.Weights(start, f)
    decreases s.frames - start
  {
    hide Shape.Weight, Shape.Part, Shape.Covers;
    if start < s.frames {
      SumsBetween(s, values, start + s.chunk, f, lo, hi);
      assert Reaches(s, start, start);
      PartBetween(s, values, start, f, lo, hi);
      Distribute(lo, s.Weight(start, f), s.Weights(start + s.chunk, f));
      Distribute(hi, s.Weight(start, f), s.Weights(start + s.chunk, f));
    }
  }

  function Blend(s: Shape, values: int -> int -> real, f: int): real
    requires s.Valid() && 0 <= f < s.frames
  {
    TotalWeight(s, 0, f);
    s.Values(values, 0, f) / s.Weights(0, f)
  }

  /** A blended frame lies between the least and the greatest of the segments that cover it. */
  lemma BlendIsBetween(s: Shape, values: int -> int -> real, f: int, lo: real, hi: real)
    requires s.Valid() && 0 <= f < s.frames && Between(s, values, 0, f, lo, hi)
    ensures lo <= Blend(s, values, f) <= hi
  {
    hide Shape.Weights, Shape.Values, Between;
    TotalWeight(s, 0, f);
    SumsBetween(s, values, 0, f, lo, hi);
    Quotient(lo, s.Values(values, 0, f), hi, s.Weights(0, f));
  }

  lemma Quotient(lo: real, v: real, hi: real, w: real)
    requires w >= 1.0 && lo * w <= v <= hi * w
    ensures lo <= v / w <= hi
  {
    var q := v / w;
    assert q * w == v;
    assert (lo - q) * w <= 0.0 && (q - hi) * w <= 0.0;
  }

  /** The seams disappear exactly where the segments agree: their common value is the blend. */
  lemma AgreementIsKept(s: Shape, values: int -> int -> real, f: int, y: real)
    requires s.Valid() && 0 <= f < s.frames
    requires forall c :: Reaches(s, 0, c) && s.Covers(c, f) ==> values(c)(f) == y
    ensures Blend(s, values, f) == y
  {
    BlendIsBetween(s, values, f, y, y);
  }

  /** A network that keeps the number of frames. */
  ghost predicate KeepsFrames<X(!new)>(refine: seq<X> -> seq<real>) {
    forall x :: |refine(x)| == |x|
  }

  /** What the segment of chunk `start` says of frame f. */
  function Refined<X(!new)>(x: seq<X>, s: Shape, refine: seq<X> -> seq<real>): int -> int -> real
    requires s.Valid() && s.frames == |x| && KeepsFrames(refine)
  {
    start => f =>
      if s.Starts(start) && s.Covers(start, f) then
        ViewIsAligned(x, s, start, f);
        refine(Segment(x, s, start))[At(s, start, f)]
      else 0.0
  }

  /** A network whose value at a frame depends only on the r frames on each side of it, where there are that many. */
  ghost predicate Local<X(!new)>(refine: seq<X> -> seq<real>, r: nat)
    requires KeepsFrames(refine)
  {
    forall x, y, i, j ::
      r <= i < |x| - r && r <= j < |y| - r && x[i - r..i + r + 1] == y[j - r..j + r + 1] ==> refine(x)[i] == refine(y)[j]
  }

  /** The segment of a chunk is the clip itself, padding and all. */
  predicate WholeClip(s: Shape, c: int) {
    s.Lo(c) == s.overlap && s.OuterEnd(c) == s.frames
  }

  /** Frame f has r frames on each side both in the clip and in the segment of chunk c. */
  predicate Surrounded(s: Shape, r: nat, c: int, f: int) {
    r <= f && r <= At(s, c, f) && f + r < s.OuterEnd(c)
  }

  lemma SameWindow<X(!new)>(refine: seq<X> -> seq<real>, r: nat, x: seq<X>, i: int, y: seq<X>, j: int)
    requires KeepsFrames(refine) && Local(refine, r) && r <= i < |x| - r && r <= j < |y| - r
    requires x[i - r..i + r + 1] == y[j - r..j + r + 1]
    ensures refine(x)[i] == refine(y)[j]
  {
  }

  lemma WholeClipIs<X>(x: seq<X>, s: Shape, c: int)
    requires s.Valid() && s.frames == |x| && s.Starts(c) && WholeClip(s, c)
    ensures Segment(x, s, c) == x
  {
    hide Padded;
    var p, seg := Padded(x, s.overlap), Segment(x, s, c);
    assert |seg| == |x|;
    forall k | 0 <= k < |x|
      ensures seg[k] == x[k]
    {
      assert seg[k] == p[s.overlap + k];
    }
  }

  /** There a chunk gives the frame the value of the whole network. */
  lemma SegmentIsWhole<X(!new)>(x: seq<X>, s: Shape, refine: seq<X> -> seq<real>, r: nat, c: int, f: int)
    requires s.Valid() && s.frames == |x| && KeepsFrames(refine) && Local(refine, r)
    requires s.Starts(c) && s.Covers(c, f) && (Surrounded(s, r, c, f) || WholeClip(s, c))
    ensures Refined(x, s, refine)(c)(f) == refine(x)[f]
  {
    hide Padded, Local;
    var p, seg, i := Padded(x, s.overlap), Segment(x, s, c), At(s, c, f);
    ViewIsAligned(x, s, c, f);
    ContextIsOneSided(x, s, c);
    if WholeClip(s, c) {
      WholeClipIs(x, s, c);
    } else {
      var a, b := seg[i - r..i + r + 1], x[f - r..f + r + 1];
      assert |a| == |b|;
      forall k | 0 <= k < |a|
        ensures a[k] == b[k]
      {
        assert a[k] == seg[i - r + k] == p[s.Lo(c) + (i - r + k)] == p[s.overlap + (f - r + k)];
      }
      SameWindow(refine, r, seg, i, x, f);
    }
  }

  /** Every chunk that covers frame f surrounds it by r frames or works on the whole clip. */
  ghost predicate Clear(s: Shape, r: nat, f: int)
    requires s.Valid()
  {
    forall c :: Reaches(s, 0, c) && s.Covers(c, f) ==> Surrounded(s, r, c, f) || WholeClip(s, c)
  }

  /** Then the blend of a network of radius r is the network on the whole clip. */
  lemma BlendIsWhole<X(!new)>(x: seq<X>, s: Shape, refine: seq<X> -> seq<real>, r: nat, f: int)
    requires s.Valid() && s.frames == |x| && KeepsFrames(refine) && Local(refine, r) && 0 <= f < |x| && Clear(s, r, f)
    ensures Blend(s, Refined(x, s, refine), f) == refine(x)[f]
  {
    hide Refined, Local, Blend;
    forall c | Reaches(s, 0, c) && s.Covers(c, f)
      ensures Refined(x, s, refine)(c)(f) == refine(x)[f]
    {
      ReachesStarts(s, 0, c);
      SegmentIsWhole(x, s, refine, r, c, f);
    }
    AgreementIsKept(s, Refined(x, s, refine), f, refine(x)[f]);
  }

  /** Chunking never shows at frame f, whatever network of radius r it is and whatever the clip. */
  ghost predicate Seamless(s: Shape, r: nat, f: int)
    requires s.Valid() && 0 <= f < s.frames
  {
    forall refine: seq<real> -> seq<real>, x: seq<real> ::
      |x| == s.frames && KeepsFrames(refine) && Local(refine, r) ==> Blend(s, Refined(x, s, refine), f) == refine(x)[f]
  }

  /** A clip whose frames are all different. */
  function Ramp(n: nat): (x: seq<real>)
    ensures |x| == n && forall i :: 0 <= i < n ==> x[i] == i as real
  {
    seq(n, i => i as real)
  }

  /** A segment that is not the whole clip shows other frames, or fewer, or more. */
  lemma SegmentDiffers(s: Shape, c: int)
    requires s.Valid() && s.Starts(c) && !WholeClip(s, c)
    ensures Segment(Ramp(s.frames), s, c) != Ramp(s.frames)
  {
    var x := Ramp(s.frames);
    var p, seg := Padded(x, s.overlap), Segment(x, s, c);
    hide Padded;
    assert |seg| > 0 && seg[|seg| - 1] == p[s.Hi(c) - 1] == p[s.overlap + (s.OuterEnd(c) - 1)];
    assert seg[|seg| - 1] == (s.OuterEnd(c) - 1) as real && x[|x| - 1] == (s.frames - 1) as real;
  }

  /** A network of radius r that tells the clip from everything else where it cannot see r frames on each side. */
  function Edge(y: seq<real>, r: nat, clip: seq<real>, there: real, elsewhere: real): (z: seq<real>)
    ensures |z| == |y|
  {
    seq(|y|, i requires 0 <= i < |y| => if r <= i < |y| - r then 1.0 else if y == clip then there else elsewhere)
  }

  function Edges(r: nat, clip: seq<real>, there: real, elsewhere: real): seq<real> -> seq<real> {
    y => Edge(y, r, clip, there, elsewhere)
  }

  lemma EdgesAreLocal(r: nat, clip: seq<real>, there: real, elsewhere: real)
    ensures KeepsFrames(Edges(r, clip, there, elsewhere)) && Local(Edges(r, clip, there, elsewhere), r)
  {
  }

  /** What the network says of frame f in chunk c. */
  lemma EdgesSay(s: Shape, r: nat, there: real, elsewhere: real, c: int, f: int)
    requires s.Valid() && s.Starts(c) && s.Covers(c, f)
    ensures KeepsFrames(Edges(r, Ramp(s.frames), there, elsewhere))
    ensures Refined(Ramp(s.frames), s, Edges(r, Ramp(s.frames), there, elsewhere))(c)(f)
         == if r <= At(s, c, f) && f + r < s.OuterEnd(c) then 1.0 else if WholeClip(s, c) then there else elsewhere
  {
    EdgesAreLocal(r, Ramp(s.frames), there, elsewhere);
    var x := Ramp(s.frames);
    ContextIsOneSided(x, s, c);
    ViewIsAligned(x, s, c, f);
    if WholeClip(s, c) {
      WholeClipIs(x, s, c);
    } else {
      SegmentDiffers(s, c);
    }
    var seg := Segment(x, s, c);
    hide Segment, Local, Ramp;
    assert Edges(r, x, there, elsewhere)(seg)[At(s, c, f)] == Edge(seg, r, x, there, elsewhere)[At(s, c, f)];
  }

  /** One chunk below 1 pulls the weighted sum below the weight. */
  lemma {:induction false} SumBelow(s: Shape, values: int -> int -> real, start: int, f: int, c: int)
    requires s.Valid() && start >= 0 && Between(s, values, start, f, 0.0, 1.0)
    requires Reaches(s, start, c) && s.Covers(c, f) && s.Starts(c) && values(c)(f) == 0.0
    ensures s.Values(values, start, f) < s.Weights(start, f)
    decreases s.frames - start
  {
    hide Shape.Weight, Shape.Covers;
    assert Between(s, values, start + s.chunk, f, 0.0, 1.0);
    if start == c {
      assert s.Weight(c, f) > 0.0 && s.Part(values, c, f) == 0.0;
      SumsBetween(s, values, start + s.chunk, f, 0.0, 1.0);
    } else {
      assert Reaches(s, start, start);
      PartBetween(s, values, start, f, 0.0, 1.0);
      SumBelow(s, values, start + s.chunk, f, c);
    }
  }

  /** One chunk above 0 lifts it above 0. */
  lemma {:induction false} SumAbove(s: Shape, values: int -> int -> real, start: int, f: int, c: int)
    requires s.Valid() && start >= 0 && Between(s, values, start, f, 0.0, 1.0)
    requires Reaches(s, start, c) && s.Covers(c, f) && s.Starts(c) && values(c)(f) == 1.0
    ensures s.Values(values, start, f) > 0.0
    decreases s.frames - start
  {
    hide Shape.Weight, Shape.Covers;
    assert Between(s, values, start + s.chunk, f, 0.0, 1.0);
    if start == c {
      assert s.Weight(c, f) > 0.0 && s.Part(values, c, f) == s.Weight(c, f);
      SumsBetween(s, values, start + s.chunk, f, 0.0, 1.0);
    } else {
      assert Reaches(s, start, start);
      PartBetween(s, values, start, f, 0.0, 1.0);
      SumAbove(s, values, start + s.chunk, f, c);
    }
  }

  lemma Quotients(v: real, w: real)
    requires w >= 1.0
    ensures v < w ==> v / w < 1.0
    ensures v > 0.0 ==> v / w > 0.0
  {
    var q := v / w;
    assert q * w == v;
    assert v < w ==> (1.0 - q) * w > 0.0;
  }

  /** Where some covering chunk neither surrounds the frame nor works on the whole clip, a network of radius r shows it. */
  lemma UnclearIsVisible(s: Shape, r: nat, f: int, c: int)
    requires s.Valid() && 0 <= f < s.frames && Reaches(s, 0, c) && s.Covers(c, f) && !Surrounded(s, r, c, f) && !WholeClip(s, c)
    ensures !Seamless(s, r, f)
  {
    var x := Ramp(s.frames);
    var fits := r <= f < s.frames - r;
    var there, elsewhere := if fits then 1.0 else 0.0, if fits then 0.0 else 1.0;
    var refine := Edges(r, x, there, elsewhere);
    EdgesAreLocal(r, x, there, elsewhere);
    var values := Refined(x, s, refine);
    forall b | Reaches(s, 0, b) && s.Covers(b, f)
      ensures values(b)(f) == if r <= At(s, b, f) && f + r < s.OuterEnd(b) then 1.0 else if WholeClip(s, b) then there else elsewhere
    {
      ReachesStarts(s, 0, b);
      EdgesSay(s, r, there, elsewhere, b, f);
    }
    ReachesStarts(s, 0, c);
    assert refine(x)[f] == if fits then 1.0 else 0.0;
    assert values(c)(f) == if fits then 0.0 else 1.0;
    hide Refined, Local, Edges, At, Shape.OuterEnd, WholeClip, Ramp;
    assert Between(s, values, 0, f, 0.0, 1.0);
    TotalWeight(s, 0, f);
    Quotients(s.Values(values, 0, f), s.Weights(0, f));
    if fits {
      SumBelow(s, values, 0, f, c);
    } else {
      SumAbove(s, values, 0, f, c);
    }
    assert Blend(s, values, f) != refine(x)[f];
  }

  /** Exactly where chunking never shows, for every radius. */
  lemma SeamlessIffClear(s: Shape, r: nat, f: int)
    requires s.Valid() && 0 <= f < s.frames
    ensures Seamless(s, r, f) <==> Clear(s, r, f)
  {
    if Clear(s, r, f) {
      forall refine: seq<real> -> seq<real>, x: seq<real> | |x| == s.frames && KeepsFrames(refine) && Local(refine, r)
        ensures Blend(s, Refined(x, s, refine), f) == refine(x)[f]
      {
        BlendIsWhole(x, s, refine, r, f);
      }
    } else {
      var c :| Reaches(s, 0, c) && s.Covers(c, f) && !(Surrounded(s, r, c, f) || WholeClip(s, c));
      UnclearIsVisible(s, r, f, c);
    }
  }

  /** A chunked clip is seamless throughout for no radius but 0: its first frame already shows. */
  lemma SeamlessOnlyForRadiusZero(s: Shape, r: nat)
    requires s.Valid() && s.frames > s.chunk
    ensures (forall f :: 0 <= f < s.frames ==> Seamless(s, r, f)) <==> r == 0
  {
    hide Seamless;
    if r == 0 {
      forall f | 0 <= f < s.frames
        ensures Seamless(s, r, f)
      {
        SeamlessIffClear(s, r, f);
      }
    } else {
      SeamlessIffClear(s, r, 0);
      assert Reaches(s, 0, 0) && s.Covers(0, 0) && !Surrounded(s, r, 0, 0) && !WholeClip(s, 0);
    }
  }

  /** Chunking never shows at frame f for any network at all. */
  ghost predicate AlwaysSeamless(s: Shape, f: int)
    requires s.Valid() && 0 <= f < s.frames
  {
    forall refine: seq<real> -> seq<real>, x: seq<real> ::
      |x| == s.frames && KeepsFrames(refine) ==> Blend(s, Refined(x, s, refine), f) == refine(x)[f]
  }

  /** Networks that look at all frames, as group normalization does, show it unless only the whole clip covers the frame. */
  lemma AlwaysSeamlessIff(s: Shape, f: int)
    requires s.Valid() && 0 <= f < s.frames
    ensures AlwaysSeamless(s, f) <==> forall c :: Reaches(s, 0, c) && s.Covers(c, f) ==> WholeClip(s, c)
  {
    if c :| Reaches(s, 0, c) && s.Covers(c, f) && !WholeClip(s, c) {
      var r := s.frames + s.overlap + s.overlap;
      assert !Surrounded(s, r, c, f);
      UnclearIsVisible(s, r, f, c);
      assert !AlwaysSeamless(s, f);
    } else {
      forall refine: seq<real> -> seq<real>, x: seq<real> | |x| == s.frames && KeepsFrames(refine)
        ensures Blend(s, Refined(x, s, refine), f) == refine(x)[f]
      {
        forall c | Reaches(s, 0, c) && s.Covers(c, f)
          ensures Refined(x, s, refine)(c)(f) == refine(x)[f]
        {
          ReachesStarts(s, 0, c);
          ViewIsAligned(x, s, c, f);
          WholeClipIs(x, s, c);
        }
        AgreementIsKept(s, Refined(x, s, refine), f, refine(x)[f]);
      }
    }
  }

  lemma {:induction false} ReachesStarts(s: Shape, start: int, c: int)
    requires s.Valid() && Reaches(s, start, c) && start >= 0
    ensures s.Starts(c) && c >= start
    decreases s.frames - start
  {
    if start != c {
      ReachesStarts(s, start + s.chunk, c);
    }
  }

  /* How a seam is crossed. */

  /** The overlap a chunk reaches into before or behind itself, as far as the clip goes. */
  function RampLength(s: Shape, c: int, f: int): int {
    if f < c then Min(s.overlap, c) else Min(s.overlap, s.frames - s.End(c))
  }

  /** How far frame f is into that overlap, counted towards the chunk. */
  function RampPlace(s: Shape, c: int, f: int): int {
    if f < c then RampLength(s, c, f) - (c - f) + 1 else RampLength(s, c, f) - (f - s.End(c))
  }

  /** A chunk covers its own frames and those within an overlap of them. */
  lemma CoversIff(s: Shape, c: int, f: int)
    requires s.Valid() && s.Starts(c) && 0 <= f < s.frames
    ensures s.Covers(c, f) <==> c - s.overlap <= f < c + s.chunk + s.overlap
  {
  }

  /** Across n frames of overlap the weight rises in even steps: the k-th has k of n + 1 shares of the chunk's own. */
  lemma WeightIsEven(s: Shape, c: int, f: int)
    requires s.Valid() && s.Starts(c) && s.Covers(c, f) && !s.Owns(c, f)
    ensures
      var n, k := RampLength(s, c, f), RampPlace(s, c, f);
      1 <= k <= n && s.Weight(c, f) * (n + 1) as real == k as real
  {
  }

  /** The loop reaches the multiples of the chunk length. */
  lemma {:induction false} ReachesMultiple(s: Shape, start: int, i: nat)
    requires s.Valid() && start + i * s.chunk < s.frames
    ensures Reaches(s, start, start + i * s.chunk)
    decreases i
  {
    if i > 0 {
      assert i * s.chunk == s.chunk + (i - 1) * s.chunk;
      MulLe(0, i - 1, s.chunk);
      ReachesMultiple(s, start + s.chunk, i - 1);
    }
  }

  /** The chunk a frame belongs to. */
  function Own(s: Shape, f: int): int
    requires s.Valid()
  {
    f - f % s.chunk
  }

  /** Every frame belongs to exactly one chunk. */
  lemma OwnChunk(s: Shape, f: int, c: int)
    requires s.Valid() && 0 <= f < s.frames
    ensures Reaches(s, 0, Own(s, f)) && s.Starts(Own(s, f)) && s.Owns(Own(s, f), f)
    ensures Reaches(s, 0, c) && s.Owns(c, f) ==> c == Own(s, f)
  {
    var i := f / s.chunk;
    assert f == i * s.chunk + f % s.chunk;
    if i < 0 {
      MulLe(i, -1, s.chunk);
    }
    MulLe(0, i, s.chunk);
    ReachesMultiple(s, 0, i);
    if Reaches(s, 0, c) && s.Owns(c, f) {
      ReachesStarts(s, 0, c);
      OnlyOneOwns(s, 0, Own(s, f), c, f);
    }
  }

  lemma {:induction false} OnlyOneOwns(s: Shape, start: int, c: int, d: int, f: int)
    requires s.Valid() && start >= 0 && Reaches(s, start, c) && Reaches(s, start, d) && s.Owns(c, f) && s.Owns(d, f)
    ensures c == d
    decreases s.frames - start
  {
    if start == c && start != d {
      ReachesStarts(s, start + s.chunk, d);
    } else if start != c && start == d {
      ReachesStarts(s, start + s.chunk, c);
    } else if start != c {
      OnlyOneOwns(s, start + s.chunk, c, d, f);
    }
  }

  /** No chunks but these two cover frame f. */
  ghost predicate OnlyThese(s: Shape, start: int, f: int, c: int, d: int)
    requires s.Valid()
  {
    forall e :: Reaches(s, start, e) && s.Covers(e, f) ==> e == c || e == d
  }

  /** A chunk's share of the sums that are still to come. */
  ghost function WeightFrom(s: Shape, start: int, f: int, c: int): real
    requires s.Valid() && s.Starts(c)
  {
    if Reaches(s, start, c) then s.Weight(c, f) else 0.0
  }

  ghost function PartFrom(s: Shape, values: int -> int -> real, start: int, f: int, c: int): real
    requires s.Valid() && s.Starts(c)
  {
    if Reaches(s, start, c) then s.Part(values, c, f) else 0.0
  }

  lemma {:induction false} SumOfTwo(s: Shape, values: int -> int -> real, start: int, f: int, c: int, d: int)
    requires s.Valid() && start >= 0 && s.Starts(c) && s.Starts(d) && c != d && OnlyThese(s, start, f, c, d)
    ensures s.Weights(start, f) == WeightFrom(s, start, f, c) + WeightFrom(s, start, f, d)
    ensures s.Values(values, start, f) == PartFrom(s, values, start, f, c) + PartFrom(s, values, start, f, d)
    decreases s.frames - start
  {
    hide Shape.Weight, Shape.Covers, Shape.Part;
    if start < s.frames {
      var next := start + s.chunk;
      assert forall e :: Reaches(s, next, e) ==> Reaches(s, start, e);
      SumOfTwo(s, values, next, f, c, d);
      NotReachedAgain(s, start);
      if start != c && start != d {
        assert Reaches(s, start, start);
        assert !s.Covers(start, f) && s.Weight(start, f) == 0.0;
        assert s.Part(values, start, f) == 0.0 by { NoPart(s, values, start, f); }
      }
    }
  }

  lemma NotReachedAgain(s: Shape, start: int)
    requires s.Valid() && start >= 0
    ensures !Reaches(s, start + s.chunk, start)
  {
    if Reaches(s, start + s.chunk, start) {
      ReachesStarts(s, start + s.chunk, start);
    }
  }

  lemma NoPart(s: Shape, values: int -> int -> real, c: int, f: int)
    requires s.Valid() && s.Starts(c) && s.Weight(c, f) == 0.0
    ensures s.Part(values, c, f) == 0.0
  {
    hide Shape.Weight;
  }

  /**
   * Where one neighbour reaches into a chunk, k frames into an overlap of n, the frame is n + 1 shares of what its own
   * chunk says of it and k shares of what the neighbour says.
   */
  lemma SeamIsCrossedEvenly(s: Shape, values: int -> int -> real, f: int, d: int)
    requires s.Valid() && 0 <= f < s.frames && Reaches(s, 0, d) && s.Covers(d, f) && d != Own(s, f)
    requires OnlyThese(s, 0, f, Own(s, f), d)
    ensures
      var n, k := RampLength(s, d, f) as real, RampPlace(s, d, f) as real;
      Blend(s, values, f) * (n + 1.0 + k) == values(Own(s, f))(f) * (n + 1.0) + values(d)(f) * k
  {
    hide *;
    OwnChunk(s, f, d);
    ReachesStarts(s, 0, d);
    TwoSums(s, values, f, Own(s, f), d);
    BlendIs(s, values, f);
    NotOwned(s, f, d);
    WeightIsEven(s, d, f);
    assert s.Weight(d, f) > 0.0;
    Shares(values(Own(s, f))(f), values(d)(f), s.Weight(d, f), RampLength(s, d, f) as real, RampPlace(s, d, f) as real, Blend(s, values, f));
  }

  lemma NotOwned(s: Shape, f: int, d: int)
    requires s.Valid() && 0 <= f < s.frames && Reaches(s, 0, d) && d != Own(s, f)
    ensures !s.Owns(d, f)
  {
    hide Own, Reaches;
    OwnChunk(s, f, d);
  }

  lemma TwoSums(s: Shape, values: int -> int -> real, f: int, c: int, d: int)
    requires s.Valid() && 0 <= f < s.frames && s.Starts(c) && s.Starts(d) && c != d && OnlyThese(s, 0, f, c, d)
    requires Reaches(s, 0, c) && Reaches(s, 0, d) && s.Owns(c, f)
    ensures s.Weights(0, f) == 1.0 + s.Weight(d, f) && s.Values(values, 0, f) == values(c)(f) + values(d)(f) * s.Weight(d, f)
  {
    hide Shape.Weight, Shape.Weights, Shape.Values, OnlyThese, Reaches;
    SumOfTwo(s, values, 0, f, c, d);
  }

  lemma BlendIs(s: Shape, values: int -> int -> real, f: int)
    requires s.Valid() && 0 <= f < s.frames
    ensures s.Weights(0, f) >= 1.0 && Blend(s, values, f) == s.Values(values, 0, f) / s.Weights(0, f)
  {
    TotalWeight(s, 0, f);
  }

  lemma Shares(p: real, q: real, w: real, n: real, k: real, blend: real)
    requires w * (n + 1.0) == k && w > 0.0 && blend == (p + q * w) / (1.0 + w)
    ensures blend * (n + 1.0 + k) == p * (n + 1.0) + q * k
  {
    assert blend * (1.0 + w) == p + q * w;
    calc {
      blend * (n + 1.0 + k);
      blend * (1.0 + w) * (n + 1.0);
      (p + q * w) * (n + 1.0);
      p * (n + 1.0) + q * (w * (n + 1.0));
    }
  }

  /** The weights of one chunk, ramp by ramp. */
  method ChunkWeights(s: Shape, start: int) returns (weight: array<real>)
    requires s.Valid() && s.Starts(start)
    ensures fresh(weight) && weight.Length == s.OuterEnd(start) - s.OuterStart(start)
    ensures forall i :: 0 <= i < weight.Length ==> weight[i] == s.Weight(start, s.OuterStart(start) + i)
  {
    var a, b, end := s.OuterStart(start), s.OuterEnd(start), s.End(start);
    weight := new real[b - a](_ => 1.0);
    if a < start {
      var amount := start - a;
      forall i | 0 <= i < amount {
        weight[i] := Ratio(i + 1, amount + 1);
      }
    }
    if b > end {
      var amount := b - end;
      forall i | 0 <= i < amount {
        weight[b - a - amount + i] := Ratio(amount - i, amount + 1);
      }
    }
  }

  type Frame = seq<real>

  /** A network that turns n frames into n frames of `width` coordinates. */
  ghost predicate Resizes(refine: seq<Frame> -> seq<Frame>, width: nat) {
    forall x :: |refine(x)| == |x| && forall i :: 0 <= i < |x| ==> |refine(x)[i]| == width
  }

  /** One coordinate of what a network gives. */
  ghost function Column(refine: seq<Frame> -> seq<Frame>, width: nat, j: nat): (r: seq<Frame> -> seq<real>)
    requires Resizes(refine, width) && j < width
    ensures KeepsFrames(r)
  {
    (x: seq<Frame>) => seq(|x|, i requires 0 <= i < |x| => refine(x)[i][j])
  }

  /** Coordinate j of what the segments say. */
  ghost function Values(x: seq<Frame>, s: Shape, refine: seq<Frame> -> seq<Frame>, width: nat, j: nat): int -> int -> real
    requires s.Valid() && s.frames == |x| && Resizes(refine, width) && j < width
  {
    Refined(x, s, Column(refine, width, j))
  }

  /** The view a chunk contributes: one frame for each frame of its outer range. */
  method ChunkView(x: seq<Frame>, s: Shape, refine: seq<Frame> -> seq<Frame>, width: nat, start: int) returns (view: seq<Frame>)
    requires s.Valid() && s.frames == |x| && Resizes(refine, width) && s.Starts(start)
    ensures |view| == s.OuterEnd(start) - s.OuterStart(start) && forall i :: 0 <= i < |view| ==> |view[i]| == width
    ensures forall i, j :: 0 <= i < |view| && 0 <= j < width ==> view[i][j] == Values(x, s, refine, width, j)(start)(s.OuterStart(start) + i)
  {
    hide Segment;
    ContextIsOneSided(x, s, start);
    var a, b := s.OuterStart(start), s.OuterEnd(start);
    var refined := refine(Segment(x, s, start));
    assert forall i :: 0 <= i < |refined| ==> |refined[i]| == width;
    view := refined[At(s, start, a)..At(s, start, a) + b - a];
    forall i | 0 <= i < |view|
      ensures |view[i]| == width
    {
      assert view[i] == refined[At(s, start, a) + i];
    }
    forall i, j | 0 <= i < |view| && 0 <= j < width
      ensures view[i][j] == Values(x, s, refine, width, j)(start)(a + i)
    {
      ViewIsAligned(x, s, start, a + i);
      assert view[i] == refined[At(s, start, a + i)];
    }
  }

  /** The sums so far and those still to come make up the sums over all chunks. */
  ghost predicate ValuesSummed(s: Shape, values: seq<int -> int -> real>, start: int, output: array2<real>)
    requires s.Valid() && start >= 0 && output.Length0 == s.frames && |values| == output.Length1
    reads output
  {
    forall f, j :: 0 <= f < s.frames && 0 <= j < output.Length1 ==> output[f, j] + s.Values(values[j], start, f) == s.Values(values[j], 0, f)
  }

  ghost predicate WeightsSummed(s: Shape, start: int, weights: array<real>)
    requires s.Valid() && start >= 0 && weights.Length == s.frames
    reads weights
  {
    forall f :: 0 <= f < s.frames ==> weights[f] + s.Weights(start, f) == s.Weights(0, f)
  }

  lemma PartIs(s: Shape, values: int -> int -> real, start: int, f: int, v: real, w: real)
    requires s.Valid() && s.Starts(start) && w == s.Weight(start, f) && (s.Covers(start, f) ==> v == values(start)(f))
    ensures s.Values(values, start, f) == (if s.Covers(start, f) then Weighted(v, w) else 0.0) + s.Values(values, start + s.chunk, f)
  {
    hide Shape.Weight;
    assert !s.Covers(start, f) ==> s.Part(values, start, f) == 0.0;
  }

  method AddValues(output: array2<real>, s: Shape, start: int, view: seq<Frame>, weight: array<real>, ghost values: seq<int -> int -> real>)
    requires s.Valid() && s.Starts(start) && output.Length0 == s.frames && |values| == output.Length1 && ValuesSummed(s, values, start, output)
    requires |view| == s.OuterEnd(start) - s.OuterStart(start) && forall i :: 0 <= i < |view| ==> |view[i]| == output.Length1
    requires weight.Length == |view| && forall i :: 0 <= i < weight.Length ==> weight[i] == s.Weight(start, s.OuterStart(start) + i)
    requires forall i, j :: 0 <= i < |view| && 0 <= j < output.Length1 ==> view[i][j] == values[j](start)(s.OuterStart(start) + i)
    modifies output
    ensures ValuesSummed(s, values, start + s.chunk, output)
  {
    var a, b := s.OuterStart(start), s.OuterEnd(start);
    assert 0 <= a <= b <= s.frames;
    hide Shape.Weight, Shape.OuterStart, Shape.OuterEnd, Shape.Values, Shape.Part, Weighted;
    forall f, j | a <= f < b && 0 <= j < output.Length1 {
      output[f, j] := output[f, j] + Weighted(view[f - a][j], weight[f - a]);
    }
    forall f, j: nat | 0 <= f < s.frames && j < output.Length1
      ensures output[f, j] + s.Values(values[j], start + s.chunk, f) == s.Values(values[j], 0, f)
    {
      var v := if a <= f < b then view[f - a][j] else 0.0;
      assert a <= f < b ==> weight[f - a] == s.Weight(start, a + (f - a)) && v == values[j](start)(a + (f - a));
      PartIs(s, values[j], start, f, v, s.Weight(start, f));
      assert old(output[f, j]) + s.Values(values[j], start, f) == s.Values(values[j], 0, f);
    }
  }

  method AddWeights(weights: array<real>, s: Shape, start: int, weight: array<real>)
    requires s.Valid() && s.Starts(start) && weights.Length == s.frames && WeightsSummed(s, start, weights) && weights != weight
    requires weight.Length == s.OuterEnd(start) - s.OuterStart(start)
    requires forall i :: 0 <= i < weight.Length ==> weight[i] == s.Weight(start, s.OuterStart(start) + i)
    modifies weights
    ensures WeightsSummed(s, start + s.chunk, weights)
  {
    var a, b := s.OuterStart(start), s.OuterEnd(start);
    assert 0 <= a <= b <= s.frames;
    hide Shape.Weight, Shape.OuterStart, Shape.OuterEnd;
    forall f | a <= f < b {
      weights[f] := weights[f] + weight[f - a];
    }
    forall f | 0 <= f < s.frames
      ensures weights[f] + s.Weights(start + s.chunk, f) == s.Weights(0, f)
    {
      assert a <= f < b ==> weight[f - a] == s.Weight(start, a + (f - a));
      assert !(a <= f < b) ==> s.Weight(start, f) == 0.0;
    }
  }

  /** The division by the clamped weights. */
  method Normalize(s: Shape, output: array2<real>, weights: array<real>, start: int, ghost values: seq<int -> int -> real>) returns (out: seq<Frame>)
    requires s.Valid() && start >= s.frames && output.Length0 == weights.Length == s.frames && |values| == output.Length1
    requires ValuesSummed(s, values, start, output) && WeightsSummed(s, start, weights)
    ensures |out| == s.frames && forall f :: 0 <= f < s.frames ==> |out[f]| == output.Length1
    ensures forall f, j :: 0 <= f < s.frames && 0 <= j < output.Length1 ==> out[f][j] == Blend(s, values[j], f)
  {
    forall f | 0 <= f < s.frames
      ensures weights[f] == s.Weights(0, f) >= 1.0
    {
      TotalWeight(s, 0, f);
    }
    forall f, j: nat | 0 <= f < s.frames && j < output.Length1
      ensures output[f, j] == s.Values(values[j], 0, f)
    {
    }
    hide Shape.Weights, Shape.Values, ValuesSummed, WeightsSummed;
    out := [];
    for f := 0 to s.frames
      invariant |out| == f && forall g :: 0 <= g < f ==> |out[g]| == output.Length1
      invariant forall g, j :: 0 <= g < f && 0 <= j < output.Length1 ==> out[g][j] == Blend(s, values[j], g)
    {
      var w := if weights[f] < 0.00000001 then 0.00000001 else weights[f];
      var frame := seq(output.Length1, j requires 0 <= j < output.Length1 reads output => output[f, j] / w);
      out := out + [frame];
    }
  }

  /**
   * `LatentResizer3D.forward`: a clip that has its target size already is returned as it is, a short one goes through
   * whole, and otherwise every slice is in bounds and each frame is the blend of the segments that cover it.
   */
  method Forward(x: seq<Frame>, size: (int, int, int), target: (int, int, int), refine: seq<Frame> -> seq<Frame>, width: nat, chunk: int, overlap: int)
    returns (out: seq<Frame>)
    requires x != [] && chunk > 0 && overlap >= 0 && Resizes(refine, width)
    ensures |out| == |x|
    ensures size == target ==> out == x
    ensures size != target && |x| <= chunk ==> out == refine(x)
    ensures size != target && |x| > chunk ==>
      var s := Shape(|x|, chunk, overlap);
      Blended(x, s, refine, width, out)
  {
    if size == target {
      return x;
    }
    if |x| <= chunk {
      return refine(x);
    }
    out := Chunked(x, Shape(|x|, chunk, overlap), refine, width);
  }

  /** What the segments say, coordinate by coordinate. */
  ghost function AllValues(x: seq<Frame>, s: Shape, refine: seq<Frame> -> seq<Frame>, width: nat): (r: seq<int -> int -> real>)
    requires s.Valid() && s.frames == |x| && Resizes(refine, width)
    ensures |r| == width && forall j :: 0 <= j < width ==> r[j] == Values(x, s, refine, width, j)
  {
    seq(width, j requires 0 <= j < width => Values(x, s, refine, width, j))
  }

  lemma NothingSummed(s: Shape, values: seq<int -> int -> real>, output: array2<real>, weights: array<real>)
    requires s.Valid() && output.Length0 == weights.Length == s.frames && |values| == output.Length1
    requires forall f, j :: 0 <= f < s.frames && 0 <= j < output.Length1 ==> output[f, j] == 0.0
    requires forall f :: 0 <= f < s.frames ==> weights[f] == 0.0
    ensures ValuesSummed(s, values, 0, output) && WeightsSummed(s, 0, weights)
  {
    hide Shape.Values, Shape.Weights;
  }

  /** Every coordinate of every frame is the blend of what the segments say of it. */
  ghost predicate Blended(x: seq<Frame>, s: Shape, refine: seq<Frame> -> seq<Frame>, width: nat, out: seq<Frame>)
    requires s.Valid() && s.frames == |x| && Resizes(refine, width)
  {
    && |out| == |x| && (forall f :: 0 <= f < |x| ==> |out[f]| == width)
    && forall f, j :: 0 <= f < |x| && 0 <= j < width ==> out[f][j] == Blend(s, Values(x, s, refine, width, j), f)
  }

  lemma BlendedIf(x: seq<Frame>, s: Shape, refine: seq<Frame> -> seq<Frame>, width: nat, values: seq<int -> int -> real>, out: seq<Frame>)
    requires s.Valid() && s.frames == |x| && Resizes(refine, width) && values == AllValues(x, s, refine, width)
    requires |out| == |x| && forall f :: 0 <= f < |x| ==> |out[f]| == width
    requires forall f, j :: 0 <= f < |x| && 0 <= j < width ==> out[f][j] == Blend(s, values[j], f)
    ensures Blended(x, s, refine, width, out)
  {
    hide Blend, Values;
  }

  /** Empty sums. */
  method Buffers(s: Shape, width: nat, ghost values: seq<int -> int -> real>) returns (output: array2<real>, weights: array<real>)
    requires s.Valid() && |values| == width
    ensures fresh(output) && fresh(weights) && output.Length0 == weights.Length == s.frames && output.Length1 == width
    ensures ValuesSummed(s, values, 0, output) && WeightsSummed(s, 0, weights)
  {
    hide ValuesSummed, WeightsSummed;
    output := new real[s.frames, width]((_, _) => 0.0);
    weights := new real[s.frames](_ => 0.0);
    NothingSummed(s, values, output, weights);
  }

  method Chunked(x: seq<Frame>, s: Shape, refine: seq<Frame> -> seq<Frame>, width: nat) returns (out: seq<Frame>)
    requires s.Valid() && s.frames == |x| && Resizes(refine, width)
    ensures Blended(x, s, refine, width, out)
  {
    assert s.chunk > 0;
    hide *;
    ghost var values := AllValues(x, s, refine, width);
    var output, weights := Buffers(s, width, values);
    var start := 0;
    while start < |x|
      invariant 0 <= start
      invariant ValuesSummed(s, values, start, output) && WeightsSummed(s, start, weights)
    {
      AddChunk(x, s, refine, width, start, output, weights, values);
      start := start + s.chunk;
    }
    out := Normalize(s, output, weights, start, values);
    BlendedIf(x, s, refine, width, values, out);
  }

  /** One pass of the loop over chunks. */
  method AddChunk(
    x: seq<Frame>, s: Shape, refine: seq<Frame> -> seq<Frame>, width: nat, start: int, output: array2<real>, weights: array<real>,
    ghost values: seq<int -> int -> real>)
    requires s.Valid() && s.frames == |x| && Resizes(refine, width) && 0 <= start < |x|
    requires output.Length0 == weights.Length == |x| && output.Length1 == width && values == AllValues(x, s, refine, width)
    requires ValuesSummed(s, values, start, output) && WeightsSummed(s, start, weights)
    modifies output, weights
    ensures start + s.chunk >= 0 && ValuesSummed(s, values, start + s.chunk, output) && WeightsSummed(s, start + s.chunk, weights)
  {
    hide Values, ValuesSummed, WeightsSummed, Shape.Weight, Shape.OuterStart, Shape.OuterEnd, AllValues;
    var view := ChunkView(x, s, refine, width, start);
    var weight := ChunkWeights(s, start);
    AddValues(output, s, start, view, weight, values);
    AddWeights(weights, s, start, weight);
  }
}
