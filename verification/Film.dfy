/** What a finished film consists of: every frame and every sample traced back to the window that decoded it. */
module Film {
  import opened Basics
  import opened Seam
  import opened Contexts
  import opened SegmentCache
  import opened Render
  import opened StepIdentity
  import Clock

  /** What the loop holds before window i of an uninterrupted run. */
  ghost function Before(job: Job, configs: seq<Config>, i: nat): Memory
    requires job.Lawful() && i <= |configs| <= job.segments
  {
    UninterruptedConsistent(job, configs[..i]);
    Uninterrupted(job, configs[..i]).value
  }

  ghost function WindowAt(job: Job, configs: seq<Config>, i: nat): Window
    requires job.Lawful() && i < |configs| <= job.segments
  {
    var m := Before(job, configs, i);
    job.sample(configs[i], i, m.high, m.low)
  }

  /** Absolute frame at which window i starts. */
  ghost function StartAt(job: Job, configs: seq<Config>, i: nat): int
    requires job.Lawful() && i < |configs| <= job.segments
  {
    var m := Before(job, configs, i);
    Clock.WindowStart(ClocksOf(job, m.cursor, m.audioCursor, m.high))
  }

  /** One more window. */
  lemma NextWindow(job: Job, configs: seq<Config>, i: nat)
    requires job.Lawful() && i < |configs| <= job.segments
    ensures
      var m, w := Before(job, configs, i), WindowAt(job, configs, i);
      var r := Sampled(job, m, w);
      && Consistent(job, m) && m.part == i
      && r.Ok? && Before(job, configs, i + 1) == r.value.0 == Next(job, m, r.value.1)
      && PayloadOk(job, ClocksOf(job, m.cursor, m.audioCursor, m.high), m.high, w, r.value.1)
      && PayloadOf(job, ClocksOf(job, m.cursor, m.audioCursor, m.high), m.high, w) == Ok(r.value.1)
  {
    hide Job.Lawful, Consistent, Sampled, Start, Next, PayloadOk, Storable, PayloadOf;
    assert configs[..i + 1][..i] == configs[..i] && configs[..i + 1][i] == configs[i];
    UninterruptedConsistent(job, configs[..i]);
    SampledIsConsistent(job, Before(job, configs, i), configs[i]);
  }

  /* Frames. */

  /** Frame f of the film is the frame of window i at the same absolute position. */
  ghost predicate Placed(job: Job, configs: seq<Config>, i: nat, film: seq<Frame>, f: int)
    requires job.Lawful() && i < |configs| <= job.segments
  {
    var at := job.SourceFrames() + f - StartAt(job, configs, i);
    0 <= f < |film| && 0 <= at < job.frames == |WindowAt(job, configs, i).video.frames| && film[f] == WindowAt(job, configs, i).video.frames[at]
  }

  /** The frames a window adds are in place, and the ones before stay. */
  lemma NewFramesArePlaced(job: Job, configs: seq<Config>, i: nat, f: int)
    requires job.Lawful() && i < |configs| <= job.segments && PlanCursor(job, i) <= f < PlanCursor(job, i + 1)
    ensures Placed(job, configs, i, Before(job, configs, i + 1).frames, f)
  {
    hide *;
    NextWindow(job, configs, i);
    var m, w := Before(job, configs, i), WindowAt(job, configs, i);
    var p := Sampled(job, m, w).value.1;
    WindowLength(job, configs, i);
    PlanPlace(job, m);
    PlanCursorStep(job, i);
    Appended(job, m, w, p, f);
    StartUnfold(job, configs, i);
    PlacedUnfold(job, configs, i, Before(job, configs, i + 1).frames, f);
  }

  lemma PlacedUnfold(job: Job, configs: seq<Config>, i: nat, film: seq<Frame>, f: int)
    requires job.Lawful() && i < |configs| <= job.segments
    requires
      var at := job.SourceFrames() + f - StartAt(job, configs, i);
      0 <= f < |film| && 0 <= at < job.frames == |WindowAt(job, configs, i).video.frames| && film[f] == WindowAt(job, configs, i).video.frames[at]
    ensures Placed(job, configs, i, film, f)
  {
    hide Job.Lawful, WindowAt, StartAt;
  }

  /** The frames a payload adds, by position. */
  lemma Appended(job: Job, m: Memory, w: Window, p: Payload, f: int)
    requires |m.frames| == m.cursor <= f < m.cursor + job.frames - (if m.high.None? then 0 else Clock.OVERLAP)
    requires |w.video.frames| == job.frames > Clock.OVERLAP
    requires PayloadOk(job, ClocksOf(job, m.cursor, m.audioCursor, m.high), m.high, w, p)
    ensures f < |Next(job, m, p).frames|
    ensures Next(job, m, p).frames[f] == w.video.frames[f - m.cursor + if m.high.None? then 0 else Clock.OVERLAP]
  {
    hide AudioOk, TailOk, LowOk, LowTail, Clock.Wanted, Append;
  }

  lemma PlanPlace(job: Job, m: Memory)
    requires Consistent(job, m)
    ensures |m.frames| == m.cursor == PlanCursor(job, m.part) && (m.high.None? <==> m.part == 0 && job.source.None?)
    ensures m.high.None? ==> m.cursor == 0 && job.SourceFrames() == 0
    ensures Clock.OVERLAP == 22
  {
  }

  lemma StartUnfold(job: Job, configs: seq<Config>, i: nat)
    requires job.Lawful() && i < |configs| <= job.segments
    ensures
      var m := Before(job, configs, i);
      StartAt(job, configs, i) == if m.high.None? then 0 else job.SourceFrames() + m.cursor - Clock.OVERLAP
  {
    hide Job.Lawful, Before;
  }

  lemma WindowLength(job: Job, configs: seq<Config>, i: nat)
    requires job.Lawful() && i < |configs| <= job.segments
    ensures |WindowAt(job, configs, i).video.frames| == job.frames > Clock.OVERLAP
  {
    var m := Before(job, configs, i);
    hide Before, CanvasOk, ValidPair, Job.WindowLatents;
    assert job.Returns(job.sample(configs[i], i, m.high, m.low));
    PlanPositive(job);
  }

  lemma LaterFramesKeep(job: Job, configs: seq<Config>, i: nat)
    requires job.Lawful() && i < |configs| <= job.segments
    ensures Before(job, configs, i).frames <= Before(job, configs, i + 1).frames
  {
    NextWindow(job, configs, i);
    hide Sampled, PayloadOf, Before, WindowAt, Consistent, PayloadOk, Job.Lawful;
  }

  /** The film is its windows with each overlap dropped once: every frame is where its window puts it. */
  lemma {:induction false} FilmIsItsWindows(job: Job, configs: seq<Config>, n: nat, i: nat, f: int)
    requires job.Lawful() && i < n <= |configs| <= job.segments && PlanCursor(job, i) <= f < PlanCursor(job, i + 1)
    ensures Placed(job, configs, i, Before(job, configs, n).frames, f)
    decreases n
  {
    hide Before, WindowAt, StartAt, PlanCursor, Job.Lawful;
    if n == i + 1 {
      NewFramesArePlaced(job, configs, i, f);
    } else {
      FilmIsItsWindows(job, configs, n - 1, i, f);
      LaterFramesKeep(job, configs, n - 1);
    }
  }

  /* Tails. */

  /** The tails a window leaves: the ends of its own latents, and of its preview's or the shrunk video of its own. */
  ghost predicate TailsOf(job: Job, w: Window, high: Context, low: Context) {
    && Ends(w.latents.video, high.video) && Ends(w.latents.audio, high.audio)
    && (w.low.Some? ==> Ends(w.low.value.video, low.video) && Ends(w.low.value.audio, low.audio))
    && (w.low.None? ==> low.audio == high.audio && low.video == job.shrink(high.video))
  }

  lemma PayloadTails(job: Job, c: Clock.Clocks, high: Option<Context>, w: Window, p: Payload)
    requires PayloadOf(job, c, high, w) == Ok(p)
    ensures TailsOf(job, w, p.high, p.low)
  {
    var start, delivered := Clock.WindowStart(c), c.source + Clock.NextCursor(c, job.frames);
    assert Capture(w.latents, HIGH_PLANE, start, delivered) == Some(p.high);
    assert LowTail(job, c, w, p.high) == Some(p.low);
    hide PayloadOf, Capture, Ends;
    CaptureIsValid(w.latents, HIGH_PLANE, start, delivered);
    if w.low.Some? {
      CaptureIsValid(w.low.value, LOW_PLANE, start, delivered);
    }
  }

  /** After every window the loop holds the tails of exactly that window, shaped and placed where it ends. */
  lemma TailsAreItsWindows(job: Job, configs: seq<Config>, i: nat)
    requires job.Lawful() && i < |configs| <= job.segments
    ensures
      var m, w := Before(job, configs, i + 1), WindowAt(job, configs, i);
      && m.high.Some? && m.low.Some? && TailsOf(job, w, m.high.value, m.low.value) && (w.low.Some? <==> job.twoPass)
      && ValidPair(m.high.value, m.low.value, job.SourceFrames() + m.cursor)
      && Ticks(m.high.value.audio) == Ticks(m.low.value.audio) && 36 <= Ticks(m.high.value.audio) <= 37
  {
    hide *;
    NextWindow(job, configs, i);
    var m, w := Before(job, configs, i), WindowAt(job, configs, i);
    var p := Sampled(job, m, w).value.1;
    PayloadTails(job, ClocksOf(job, m.cursor, m.audioCursor, m.high), m.high, w, p);
    NextTails(job, m, p);
    BeforeConsistent(job, configs, i + 1);
    ConsistentTails(job, Before(job, configs, i + 1));
    WindowPasses(job, configs, i);
  }

  lemma NextTails(job: Job, m: Memory, p: Payload)
    ensures Next(job, m, p).high == Some(p.high) && Next(job, m, p).low == Some(p.low)
  {
    hide Append;
  }

  lemma BeforeConsistent(job: Job, configs: seq<Config>, i: nat)
    requires job.Lawful() && i <= |configs| <= job.segments
    ensures Consistent(job, Before(job, configs, i)) && Before(job, configs, i).part == i
  {
    hide Consistent, Job.Lawful, Uninterrupted;
    UninterruptedConsistent(job, configs[..i]);
  }

  lemma WindowPasses(job: Job, configs: seq<Config>, i: nat)
    requires job.Lawful() && i < |configs| <= job.segments
    ensures WindowAt(job, configs, i).low.Some? <==> job.twoPass
  {
    var m := Before(job, configs, i);
    hide Before, CanvasOk, ValidPair, Job.WindowLatents;
    assert job.Returns(job.sample(configs[i], i, m.high, m.low));
  }

  /* Samples. */

  /** A chunk of the finished soundtrack, from the piece itself and its neighbours: their seams, and nothing else. */
  function Sample(previous: Option<Pcm>, pcm: Pcm, next: Option<Pcm>, k: nat): real
    requires k < |pcm| && Long(pcm) && (previous.Some? ==> Long(previous.value)) && (next.Some? ==> Long(next.value))
  {
    if previous.Some? && k < WINDOW_FADE then WindowHead(previous.value, pcm)[k]
    else if next.Some? && k >= |pcm| - WINDOW_FADE then WindowTail(pcm, next.value)[k]
    else pcm[k]
  }

  /** Long enough that its two seams do not touch. */
  predicate Long(pcm: Pcm) {
    |pcm| >= 2 * WINDOW_FADE
  }

  ghost predicate Exactly(chunk: Pcm, previous: Option<Pcm>, pcm: Pcm, next: Option<Pcm>)
    requires Long(pcm) && (previous.Some? ==> Long(previous.value)) && (next.Some? ==> Long(next.value))
  {
    |chunk| == |pcm| && forall k :: 0 <= k < |pcm| ==> chunk[k] == Sample(previous, pcm, next, k)
  }

  /** A seam looks only at the last 160 samples on its left, so an earlier seam of the same chunk does not disturb it. */
  lemma SeamIgnoresHead(chunk: Pcm, previous: Option<Pcm>, pcm: Pcm, next: Pcm)
    requires Long(pcm) && Long(next) && (previous.Some? ==> Long(previous.value)) && Exactly(chunk, previous, pcm, None)
    ensures Exactly(SeamedLeft(chunk, next), previous, pcm, Some(next))
    ensures Exactly(SeamedRight(chunk, next), Some(pcm), next, None)
  {
    hide Phase, Shifted;
    assert chunk[|chunk| - 1] == pcm[|pcm| - 1];
    var left, right := SeamedLeft(chunk, next), SeamedRight(chunk, next);
    forall k | 0 <= k < |pcm|
      ensures left[k] == Sample(previous, pcm, Some(next), k)
    {
      assert k >= WINDOW_FADE ==> chunk[k] == pcm[k];
    }
    assert forall k :: 0 <= k < |next| ==> right[k] == WindowHead(chunk, next)[k] == WindowHead(pcm, next)[k];
    assert forall k :: WINDOW_FADE <= k < |next| ==> WindowHead(pcm, next)[k] == next[k];
  }

  /** Every chunk is exactly its piece with the seams to its neighbours among the first n. */
  ghost predicate ChunksExactly(chunks: seq<Pcm>, pieces: seq<Pcm>) {
    && |chunks| == |pieces| && (forall i :: 0 <= i < |pieces| ==> Long(pieces[i]))
    && forall i :: 0 <= i < |pieces| ==> Exactly(chunks[i], Previous(pieces, i), pieces[i], Following(pieces, i))
  }

  function Previous(pieces: seq<Pcm>, i: nat): Option<Pcm>
    requires i < |pieces|
  {
    if i == 0 then None else Some(pieces[i - 1])
  }

  function Following(pieces: seq<Pcm>, i: nat): Option<Pcm>
    requires i < |pieces|
  {
    if i + 1 == |pieces| then None else Some(pieces[i + 1])
  }

  lemma AppendExactly(chunks: seq<Pcm>, pieces: seq<Pcm>, pcm: Pcm)
    requires ChunksExactly(chunks, pieces) && Long(pcm)
    ensures ChunksExactly(Append(chunks, pcm), pieces + [pcm])
  {
    hide Exactly, SeamedLeft, SeamedRight;
    var all, more := pieces + [pcm], Append(chunks, pcm);
    var last := |chunks| - 1;
    if chunks == [] {
      assert Exactly(pcm, None, pcm, None) by { Alone(pcm); }
    } else {
      assert Exactly(chunks[last], Previous(pieces, last), pieces[last], None);
      SeamIgnoresHead(chunks[last], Previous(pieces, last), pieces[last], pcm);
    }
    forall i | 0 <= i < |all|
      ensures Long(all[i])
    {
    }
    forall i | 0 <= i < |all|
      ensures Exactly(more[i], Previous(all, i), all[i], Following(all, i))
    {
      if i < last {
        assert more[i] == chunks[i] && Previous(all, i) == Previous(pieces, i) && Following(all, i) == Following(pieces, i);
      }
    }
  }

  lemma Alone(pcm: Pcm)
    requires Long(pcm)
    ensures Exactly(pcm, None, pcm, None)
  {
  }

  /** The PCM window i offers to the cache. */
  ghost function PieceAt(job: Job, configs: seq<Config>, i: nat): Pcm
    requires job.Lawful() && i < |configs| <= job.segments
  {
    NextWindow(job, configs, i);
    Sampled(job, Before(job, configs, i), WindowAt(job, configs, i)).value.1.pcm
  }

  lemma ChunksGrow(job: Job, configs: seq<Config>, i: nat)
    requires job.Lawful() && i < |configs| <= job.segments
    ensures |Before(job, configs, i).chunks| == i
    ensures Before(job, configs, i + 1).chunks == Append(Before(job, configs, i).chunks, PieceAt(job, configs, i))
  {
    NextWindow(job, configs, i);
    hide Sampled, PayloadOf, Before, WindowAt, PayloadOk, Job.Lawful, Append, Clock.Aligned, PlanCursor, Concat, Predecessor, ValidPair;
  }

  /** The pieces of the first n windows. */
  ghost function Pieces(job: Job, configs: seq<Config>, n: nat): (r: seq<Pcm>)
    requires job.Lawful() && n <= |configs| <= job.segments
    ensures |r| == n
  {
    if n == 0 then [] else Pieces(job, configs, n - 1) + [PieceAt(job, configs, n - 1)]
  }

  lemma PieceIsLong(job: Job, configs: seq<Config>, i: nat)
    requires job.Lawful() && i < |configs| <= job.segments
    ensures Long(PieceAt(job, configs, i))
  {
    NextWindow(job, configs, i);
    PieceUnfold(job, configs, i);
    PlanLong(job);
    var m, w := Before(job, configs, i), WindowAt(job, configs, i);
    var c := ClocksOf(job, m.cursor, m.audioCursor, m.high);
    hide Before, WindowAt, Sampled, PayloadOf, Next, TailOk, LowOk, LowTail, Clock.Emitted, Consistent, Generated, WindowRaises, PieceAt, Job.Lawful;
    var next := Clock.NextCursor(c, job.frames);
    assert 3 * Clock.Emitted(next) == 4000 * next + Clock.SampleError(next);
    assert 3 * Clock.Emitted(c.cursor) == 4000 * c.cursor + Clock.SampleError(c.cursor);
  }

  /**
   * The soundtrack is the windows' pieces end to end, to the sample: next to a cut each sample is the seam repair of
   * the two decoded pieces, and every other sample is decoded, the film's first and last ones included.
   */
  lemma {:induction false} SoundtrackIsItsWindows(job: Job, configs: seq<Config>, n: nat)
    requires job.Lawful() && n <= |configs| <= job.segments
    ensures ChunksExactly(Before(job, configs, n).chunks, Pieces(job, configs, n))
  {
    if n == 0 {
      NothingYet(job, configs);
    } else {
      SoundtrackIsItsWindows(job, configs, n - 1);
      hide Before, PieceAt, Job.Lawful, Append, ChunksExactly;
      ChunksGrow(job, configs, n - 1);
      PieceIsLong(job, configs, n - 1);
      AppendExactly(Before(job, configs, n - 1).chunks, Pieces(job, configs, n - 1), PieceAt(job, configs, n - 1));
    }
  }

  lemma NothingYet(job: Job, configs: seq<Config>)
    requires job.Lawful() && |configs| <= job.segments
    ensures Before(job, configs, 0).chunks == []
  {
    hide Job.Lawful;
    assert configs[..0] == [];
  }

  /** So every cut keeps exactly one 161st of the jump between the two decoded pieces. */
  lemma CutKeepsOneShare(chunks: seq<Pcm>, pieces: seq<Pcm>, i: nat)
    requires ChunksExactly(chunks, pieces) && i + 1 < |pieces|
    ensures JumpDivided(pieces[i], pieces[i + 1], chunks[i], chunks[i + 1], WINDOW_FADE)
  {
    var left, right := pieces[i], pieces[i + 1];
    assert Exactly(chunks[i], Previous(pieces, i), left, Some(right));
    assert Exactly(chunks[i + 1], Some(left), right, Following(pieces, i + 1));
    assert chunks[i][|left| - 1] == Sample(Previous(pieces, i), left, Some(right), |left| - 1) == WindowTail(left, right)[|left| - 1];
    assert chunks[i + 1][0] == Sample(Some(left), right, Following(pieces, i + 1), 0) == WindowHead(left, right)[0];
    hide WindowTail, WindowHead, Exactly, Sample;
    WindowSeam(left, right);
  }

  /** A piece is its window's decoded audio from the first sample behind the shared ticks on. */
  lemma PieceIsDecoded(job: Job, configs: seq<Config>, i: nat, k: nat)
    requires job.Lawful() && i < |configs| <= job.segments && k < |PieceAt(job, configs, i)|
    ensures
      var m, pcm := Before(job, configs, i), WindowAt(job, configs, i).pcm;
      var at := k + if m.high.None? then 0 else Clock.Samples(Ticks(m.high.value.audio));
      pcm != [] && PieceAt(job, configs, i)[k] == pcm[if at < |pcm| then at else |pcm| - 1]
  {
    hide *;
    NextWindow(job, configs, i);
    PieceUnfold(job, configs, i);
    var m, w := Before(job, configs, i), WindowAt(job, configs, i);
    PayloadPcm(job, ClocksOf(job, m.cursor, m.audioCursor, m.high), m.high, w, Sampled(job, m, w).value.1, k);
  }

  lemma PieceUnfold(job: Job, configs: seq<Config>, i: nat)
    requires job.Lawful() && i < |configs| <= job.segments
    ensures
      var r := Sampled(job, Before(job, configs, i), WindowAt(job, configs, i));
      r.Ok? && r.value.1.pcm == PieceAt(job, configs, i)
  {
    NextWindow(job, configs, i);
    hide Sampled, Before, WindowAt, Job.Lawful;
  }

  lemma PayloadPcm(job: Job, c: Clock.Clocks, high: Option<Context>, w: Window, p: Payload, k: nat)
    requires PayloadOf(job, c, high, w) == Ok(p) && k < |p.pcm|
    ensures
      var at := k + if high.None? then 0 else Clock.Samples(Ticks(high.value.audio));
      w.pcm != [] && p.pcm[k] == w.pcm[if at < |w.pcm| then at else |w.pcm| - 1]
  {
    var wanted := Clock.Wanted(c, job.frames);
    var generated := Generated(high, w.pcm);
    assert !WindowRaises(generated, wanted) && p.pcm == Normalize(generated, wanted);
    hide PayloadOf, Capture, LowTail, Clock.Wanted, Normalize, Ticks;
  }
}
