/** The rolling render: overlapping windows, sampled or recovered, and the run that never crashes. */
module Render {
  import opened Basics
  import opened Contexts
  import opened Disk
  import opened Seam
  import opened SegmentCache
  import opened StepIdentity
  import Clock

  /** What the pipeline returns for one window; a two-pass window keeps the latents of its low-resolution preview. */
  datatype Window = Window(video: Video, pcm: Pcm, latents: Latents, low: Option<Latents>)

  /** The predecessor film of a continuation. */
  datatype Source = Source(high: Context, low: Context, totalFrames: int)

  /** A render request. `sample` is the window sampled under the settings of its passes (attempt, tiling,
      library versions) for a part and the tails it continues; `shrink` is the low-resolution tail of a single-pass window. */
  datatype Job = Job(
    frames: int, segments: int, twoPass: bool, height: nat, width: nat,
    model: string, request: string, refineSteps: nat, source: Option<Source>,
    sample: (Config, nat, Option<Context>, Option<Context>) -> Window, shrink: Rows -> Rows, stateBytes: nat)
  {
    function SourceFrames(): int { if source.None? then 0 else source.value.totalFrames }

    /** Assumed of the pipeline: F frames of the job's canvas, one audio latent per 40-Hz tick of F frames,
        800 samples per latent, and the latent geometry of the model. */
    predicate Returns(w: Window) {
      && |w.video.frames| == frames && w.video.height == height && w.video.width == width
      && |w.pcm| == Clock.Samples(Clock.AudioOrigin(frames))
      && WindowLatents(w.latents, HIGH_PLANE)
      && (w.low.Some? <==> twoPass) && (w.low.Some? ==> WindowLatents(w.low.value, LOW_PLANE))
    }

    predicate WindowLatents(x: Latents, plane: nat) {
      && |x.video| == 24 && Grid(x.video, 24, |x.video[0]|) && |x.video[0]| >= 7 * plane
      && AudioShaped(x.audio) && Ticks(x.audio) == Clock.AudioOrigin(frames)
    }

    /** The preview of a window depends on nothing but the part and the low-resolution tail. */
    ghost predicate PreviewsFixed() {
      forall c1, c2, part, h1, h2, low :: sample(c1, part, h1, low).low == sample(c2, part, h2, low).low
    }

    ghost predicate Lawful() {
      && Clock.FramePlan(frames, segments).Some?
      && SourceFrames() + Clock.FramePlan(frames, segments).value - (if source.None? then 0 else Clock.OVERLAP) <= Clock.MAX_FILM
      && height > 0 && width > 0 && CanvasOk(1, height, width)
      && 128 <= stateBytes <= MAX_FILE_BYTES
      && (source.Some? ==>
            && ValidPair(source.value.high, source.value.low, source.value.totalFrames)
            && Ticks(source.value.high.audio) == Ticks(source.value.low.audio)
            && 36 <= Ticks(source.value.high.audio) <= 37)
      && (forall config, part, high, low :: Returns(sample(config, part, high, low)))
      && (forall rows :: Grid(rows, 24, 7 * HIGH_PLANE) ==> Grid(shrink(rows), 24, 7 * LOW_PLANE))
    }
  }

  /** What the loop holds between two windows. */
  datatype Memory = Memory(
    part: nat, cursor: int, audioCursor: int, frames: seq<Frame>, chunks: seq<Pcm>,
    high: Option<Context>, low: Option<Context>)

  function Start(job: Job): Memory {
    if job.source.None? then Memory(0, 0, 0, [], [], None, None)
    else Memory(0, 0, 0, [], [], Some(job.source.value.high), Some(job.source.value.low))
  }

  function ClocksOf(job: Job, cursor: int, audioCursor: int, high: Option<Context>): Clock.Clocks {
    Clock.Clocks(job.SourceFrames(), cursor, audioCursor, if high.None? then None else Some(Ticks(high.value.audio)))
  }

  function Overlap(high: Option<Context>): int {
    if high.None? then 0 else Clock.OVERLAP
  }

  function NewFrames(job: Job, high: Option<Context>): int {
    job.frames - Overlap(high)
  }

  /** The decoded audio after the ticks the window shares with its predecessor. */
  function Generated(high: Option<Context>, pcm: Pcm): Pcm {
    var trim := if high.None? then 0 else Clock.Samples(Ticks(high.value.audio));
    if trim <= |pcm| then pcm[trim..] else []
  }

  /** The frames after the overlap. */
  function NewVideo(job: Job, high: Option<Context>, w: Window): Video {
    Video(if Overlap(high) <= |w.video.frames| then w.video.frames[Overlap(high)..] else [], w.video.height, w.video.width)
  }

  /** The low-resolution tail: the preview's own, or the shrunk tail of a single-pass window. */
  function LowTail(job: Job, c: Clock.Clocks, w: Window, tail: Context): Option<Context> {
    if w.low.None? then Some(tail.(video := job.shrink(tail.video)))
    else Capture(w.low.value, LOW_PLANE, Clock.WindowStart(c), c.source + Clock.NextCursor(c, job.frames))
  }

  /** The window's own contribution, independent of what was assembled before it. */
  function PayloadOf(job: Job, c: Clock.Clocks, high: Option<Context>, w: Window): Result<Payload> {
    var next := Clock.NextCursor(c, job.frames);
    if |w.video.frames| != job.frames || NewFrames(job, high) < 0 || next < 0 then Raised
    else
      var generated := Generated(high, w.pcm);
      var wanted := Clock.Wanted(c, job.frames);
      if WindowRaises(generated, wanted) then Raised
      else
        match Capture(w.latents, HIGH_PLANE, Clock.WindowStart(c), c.source + next)
        case None => Raised
        case Some(tail) =>
          match LowTail(job, c, w, tail)
          case None => Raised
          case Some(low) => Ok(Payload(NewVideo(job, high, w), Normalize(generated, wanted), tail, low))
  }

  /** Append a window's PCM, repairing the seam with the chunk before it in place. */
  function Append(chunks: seq<Pcm>, pcm: Pcm): seq<Pcm> {
    if chunks == [] then [pcm]
    else
      var last := chunks[|chunks| - 1];
      chunks[..|chunks| - 1] + [SeamedLeft(last, pcm), SeamedRight(last, pcm)]
  }

  /** The loop body for a sampled window: the new memory and what is offered to the cache. */
  function Sampled(job: Job, m: Memory, w: Window): Result<(Memory, Payload)> {
    var c := ClocksOf(job, m.cursor, m.audioCursor, m.high);
    match PayloadOf(job, c, m.high, w)
    case Raised => Raised
    case Ok(p) =>
      if WindowRaises(p.pcm, Clock.Wanted(c, job.frames)) then Raised
      else
        var slice := Normalize(p.pcm, Clock.Wanted(c, job.frames));
        Ok((Memory(m.part + 1, Clock.NextCursor(c, job.frames), m.audioCursor + |slice|,
                   m.frames + p.video.frames, Append(m.chunks, slice), Some(p.high), Some(p.low)), p))
  }

  /** The loop body for a window recovered from the cache. */
  function Recovered(job: Job, m: Memory, p: Payload): Result<Memory> {
    var count := NewFrames(job, m.high);
    if count < 0 || p.video.height != job.height || p.video.width != job.width then Raised
    else
      var expected := Clock.Emitted(m.cursor + count) - Clock.Emitted(m.cursor);
      if |p.pcm| != expected || WindowRaises(p.pcm, expected) then Raised
      else
        var slice := Normalize(p.pcm, expected);
        Ok(Memory(m.part + 1, m.cursor + count, m.audioCursor + |slice|,
                  m.frames + p.video.frames, Append(m.chunks, slice), Some(p.high), Some(p.low)))
  }

  /** The run that never crashes, with the configuration each window was sampled under. */
  function Uninterrupted(job: Job, configs: seq<Config>): Result<Memory> {
    if configs == [] then Ok(Start(job))
    else
      match Uninterrupted(job, configs[..|configs| - 1])
      case Raised => Raised
      case Ok(m) =>
        match Sampled(job, m, job.sample(configs[|configs| - 1], m.part, m.high, m.low))
        case Raised => Raised
        case Ok(r) => Ok(r.0)
  }

  /* What every window finds. */

  /** Frames delivered by the first `part` windows. */
  function PlanCursor(job: Job, part: nat): int {
    Clock.WindowsFrames(if job.source.None? then job.frames else job.frames - Clock.OVERLAP, job.frames, part)
  }

  ghost predicate Consistent(job: Job, m: Memory) {
    && m.cursor == PlanCursor(job, m.part) && |m.frames| == m.cursor && |m.chunks| == m.part
    && m.audioCursor == |Concat(m.chunks)|
    && (m.high.Some? <==> job.source.Some? || m.part > 0)
    && Clock.Aligned(ClocksOf(job, m.cursor, m.audioCursor, m.high), job.frames)
    && (m.high.Some? ==> m.low.Some? && ValidPair(m.high.value, m.low.value, job.SourceFrames() + m.cursor))
    && Predecessor(m.high, m.low)
  }

  lemma ConsistentStart(job: Job)
    requires job.Lawful()
    ensures Consistent(job, Start(job))
  {
    hide Clock.FramePlan, CanvasOk, Clock.TailTicks, Job.Returns, ValidPair, Predecessor, Grid;
    PlanPositive(job);
    if job.source.Some? {
      var x := job.source.value;
      PairIsPredecessor(x.high, x.low, x.totalFrames);
    } else {
      NothingIsPredecessor();
    }
    assert Clock.Emitted(0) == 0;
    hide Clock.Emitted;
  }

  lemma NothingIsPredecessor()
    ensures Predecessor(None, None)
  {
  }

  lemma PlanPositive(job: Job)
    requires Clock.FramePlan(job.frames, job.segments).Some?
    ensures Clock.FramePlan(job.frames, job.segments).value >= job.frames > Clock.OVERLAP && job.segments >= 1
  {
    assert (job.segments - 1) * (job.frames - Clock.OVERLAP) >= 0;
  }

  /** Clocks of a memory whose tail is `high`, inside a run. */
  ghost predicate OnRun(job: Job, c: Clock.Clocks, high: Option<Context>) {
    && job.frames > Clock.OVERLAP
    && Clock.Aligned(c, job.frames)
    && c == ClocksOf(job, c.cursor, c.audioCursor, high)
  }

  /** The audio of a window: on the clock, and within one latent of what was decoded. */
  ghost predicate AudioOk(job: Job, c: Clock.Clocks, high: Option<Context>, w: Window) {
    var next := Clock.NextCursor(c, job.frames);
    && next == c.cursor + NewFrames(job, high) && 0 <= c.cursor < next
    && Clock.Wanted(c, job.frames) == Clock.Emitted(next) - Clock.Emitted(c.cursor) >= 0
    && !WindowRaises(Generated(high, w.pcm), Clock.Wanted(c, job.frames))
  }

  /** The tail of a window: shaped, at its place on both clocks, 36 or 37 ticks. */
  ghost predicate TailOk(job: Job, c: Clock.Clocks, tail: Context) {
    var next := Clock.NextCursor(c, job.frames);
    && Shaped(tail, HIGH_PLANE)
    && tail.frameOrigin == c.source + next - Clock.OVERLAP
    && tail.audioOrigin == Clock.AudioOrigin(tail.frameOrigin)
    && (Ticks(tail.audio) == 36 || Ticks(tail.audio) == 37)
    && Clock.Aligned(ClocksOf(job, next, Clock.Emitted(next), Some(tail)), job.frames)
  }

  /** The low tail is shaped, at the same place and as long as the high one. */
  ghost predicate LowOk(high: Context, low: Context) {
    && Shaped(low, LOW_PLANE) && Ticks(low.audio) == Ticks(high.audio)
    && low.frameOrigin == high.frameOrigin && low.audioOrigin == high.audioOrigin
  }

  ghost predicate PayloadOk(job: Job, c: Clock.Clocks, high: Option<Context>, w: Window, p: Payload) {
    && AudioOk(job, c, high, w) && TailOk(job, c, p.high)
    && LowTail(job, c, w, p.high) == Some(p.low) && LowOk(p.high, p.low)
    && p.video == NewVideo(job, high, w) && |p.video.frames| == NewFrames(job, high)
    && p.video.height == job.height && p.video.width == job.width
    && |p.pcm| == Clock.Wanted(c, job.frames)
  }

  lemma AudioNeverRaises(job: Job, c: Clock.Clocks, high: Option<Context>, w: Window)
    requires |w.pcm| == Clock.Samples(Clock.AudioOrigin(job.frames)) && OnRun(job, c, high)
    ensures AudioOk(job, c, high, w)
  {
    hide Clock.AudioOrigin, Clock.Emitted, Clock.TailTicks, Clock.Aligned;
    Clock.WindowAudio(c, job.frames);
    Clock.AlignedReady(c, job.frames);
    assert |Generated(high, w.pcm)| == Clock.Decoded(c, job.frames);
  }

  /** A captured tail: shaped, at its place on the clocks, as long as the clocks say. */
  ghost predicate Captured(job: Job, c: Clock.Clocks, plane: nat, tail: Option<Context>) {
    var delivered := c.source + Clock.NextCursor(c, job.frames);
    && tail.Some? && Shaped(tail.value, plane)
    && tail.value.frameOrigin == delivered - Clock.OVERLAP
    && tail.value.audioOrigin == Clock.AudioOrigin(tail.value.frameOrigin)
    && Clock.ContextTicks(Clock.WindowStart(c), job.frames, delivered) == Some(Ticks(tail.value.audio))
  }

  lemma TailNeverRaises(job: Job, c: Clock.Clocks, high: Option<Context>, x: Latents, plane: nat)
    requires job.WindowLatents(x, plane) && OnRun(job, c, high)
    ensures Captured(job, c, plane, Capture(x, plane, Clock.WindowStart(c), c.source + Clock.NextCursor(c, job.frames)))
  {
    hide Clock.AudioOrigin, Clock.Emitted, Clock.TailTicks, Clock.Aligned, Clock.Decoded, Clock.Wanted;
    Clock.WindowStaysAligned(c, job.frames);
    var next := Clock.NextCursor(c, job.frames);
    assert Clock.ContextTicks(Clock.WindowStart(c), job.frames, c.source + next).Some?;
    assert Capture(x, plane, Clock.WindowStart(c), c.source + next).Some?;
    CaptureIsValid(x, plane, Clock.WindowStart(c), c.source + next);
  }

  lemma HighTailOk(job: Job, c: Clock.Clocks, high: Option<Context>, w: Window)
    requires job.Returns(w) && OnRun(job, c, high)
    ensures
      var tail := Capture(w.latents, HIGH_PLANE, Clock.WindowStart(c), c.source + Clock.NextCursor(c, job.frames));
      tail.Some? && TailOk(job, c, tail.value)
  {
    hide Clock.AudioOrigin, Clock.Emitted, Clock.TailTicks, Clock.Aligned, Clock.Decoded, Clock.Wanted, Capture, Shaped, Ticks, Grid, AudioShaped,
      Clock.ContextTicks;
    Clock.WindowStaysAligned(c, job.frames);
    TailNeverRaises(job, c, high, w.latents, HIGH_PLANE);
    var next := Clock.NextCursor(c, job.frames);
    var tail := Capture(w.latents, HIGH_PLANE, Clock.WindowStart(c), c.source + next);
    assert Clock.Window(c, job.frames).value == ClocksOf(job, next, Clock.Emitted(next), tail);
  }

  lemma LowTailOk(job: Job, c: Clock.Clocks, high: Option<Context>, w: Window)
    requires job.Lawful() && job.Returns(w) && OnRun(job, c, high)
    ensures
      var tail := Capture(w.latents, HIGH_PLANE, Clock.WindowStart(c), c.source + Clock.NextCursor(c, job.frames));
      tail.Some? && LowTail(job, c, w, tail.value).Some? && LowOk(tail.value, LowTail(job, c, w, tail.value).value)
  {
    hide Clock.AudioOrigin, Clock.Emitted, Clock.TailTicks, Clock.Aligned, Clock.Decoded, Clock.Wanted, Capture, Ticks, AudioShaped, CanvasOk,
      Clock.ContextTicks, ValidPair, Grid, OnRun;
    TailNeverRaises(job, c, high, w.latents, HIGH_PLANE);
    if w.low.Some? {
      TailNeverRaises(job, c, high, w.low.value, LOW_PLANE);
    }
  }

  /** No check of the source fires for a window, and its tails and PCM are on the clocks. */
  lemma PayloadNeverRaises(job: Job, c: Clock.Clocks, high: Option<Context>, w: Window)
    requires job.Lawful() && job.Returns(w) && OnRun(job, c, high)
    ensures PayloadOf(job, c, high, w).Ok? && PayloadOk(job, c, high, w, PayloadOf(job, c, high, w).value)
  {
    hide Clock.AudioOrigin, Clock.Emitted, Clock.Aligned, Clock.Wanted, Clock.TailTicks, Capture, WindowRaises, Generated, TailOk,
      LowTail, LowOk, Job.Lawful;
    AudioNeverRaises(job, c, high, w);
    HighTailOk(job, c, high, w);
    LowTailOk(job, c, high, w);
  }

  lemma PlanCursorStep(job: Job, part: nat)
    ensures PlanCursor(job, part + 1) == PlanCursor(job, part) + (if part == 0 && job.source.None? then job.frames else job.frames - Clock.OVERLAP)
  {
  }

  lemma PlanCursorBound(job: Job, part: nat)
    requires job.Lawful() && part <= job.segments
    ensures job.SourceFrames() + PlanCursor(job, part) <= Clock.MAX_FILM
  {
    var step, first := job.frames - Clock.OVERLAP, if job.source.None? then job.frames else job.frames - Clock.OVERLAP;
    PlanPositive(job);
    if part > 0 {
      Clock.WindowsFramesClosed(first, job.frames, part);
      hide *;
      MulLe(part - 1, job.segments - 1, step);
      PlanTotal(job);
      assert PlanCursor(job, part) == first + (part - 1) * step by { PlanUnfold(job, part); }
    }
  }

  lemma PlanUnfold(job: Job, part: nat)
    requires part > 0
    ensures PlanCursor(job, part) == (if job.source.None? then job.frames else job.frames - Clock.OVERLAP) + (part - 1) * (job.frames - Clock.OVERLAP)
  {
    Clock.WindowsFramesClosed(if job.source.None? then job.frames else job.frames - Clock.OVERLAP, job.frames, part);
  }

  lemma PlanTotal(job: Job)
    requires job.Lawful()
    ensures
      var first := if job.source.None? then job.frames else job.frames - Clock.OVERLAP;
      job.SourceFrames() + first + (job.segments - 1) * (job.frames - Clock.OVERLAP) <= Clock.MAX_FILM
  {
    hide Job.Returns, CanvasOk, ValidPair, Grid;
  }

  lemma NormalizeSame(pcm: Pcm)
    ensures !WindowRaises(pcm, |pcm|) && Normalize(pcm, |pcm|) == pcm
  {
  }

  lemma SeamKeepsLengths(left: Pcm, right: Pcm)
    ensures |SeamedLeft(left, right)| == |left| && |SeamedRight(left, right)| == |right|
  {
  }

  /** Repairing a seam never changes the length of the soundtrack. */
  lemma AppendLength(chunks: seq<Pcm>, pcm: Pcm)
    ensures |Append(chunks, pcm)| == |chunks| + 1
    ensures |Concat(Append(chunks, pcm))| == |Concat(chunks)| + |pcm|
  {
    if chunks == [] {
      ConcatAppend([], pcm);
      assert [] + [pcm] == [pcm];
    } else {
      var init, last := chunks[..|chunks| - 1], chunks[|chunks| - 1];
      var left, right := SeamedLeft(last, pcm), SeamedRight(last, pcm);
      SeamKeepsLengths(last, pcm);
      ConcatAppend(init, last);
      ConcatAppend(init, left);
      ConcatAppend(init + [left], right);
      assert chunks == init + [last] && Append(chunks, pcm) == init + [left] + [right];
    }
  }

  lemma ConsistentOnRun(job: Job, m: Memory)
    requires job.Lawful() && Consistent(job, m)
    ensures OnRun(job, ClocksOf(job, m.cursor, m.audioCursor, m.high), m.high) && m.audioCursor == Clock.Emitted(m.cursor)
    ensures m.cursor >= 0
  {
    hide Clock.FramePlan, CanvasOk, Clock.TailTicks, Job.Returns, ValidPair, Predecessor, Grid, Clock.Emitted, PlanCursor, Concat;
    PlanPositive(job);
  }

  /** The tails of a window are valid for a film that ends with it. */
  lemma TailsValid(job: Job, c: Clock.Clocks, high: Option<Context>, w: Window, p: Payload)
    requires job.Lawful() && OnRun(job, c, high) && PayloadOk(job, c, high, w, p)
    requires c.source + c.cursor + NewFrames(job, high) <= Clock.MAX_FILM
    ensures
      var total := c.source + Clock.NextCursor(c, job.frames);
      ValidPair(p.high, p.low, total) && Predecessor(Some(p.high), Some(p.low))
  {
    hide Clock.FramePlan, CanvasOk, Clock.TailTicks, Job.Returns, Clock.Emitted, Clock.Aligned, Clock.AudioOrigin, WindowRaises, Clock.Wanted, Predecessor, Generated;
    Clock.AlignedReady(c, job.frames);
    PlanPositive(job);
    PlanLong(job);
    var total := c.source + Clock.NextCursor(c, job.frames);
    assert Shaped(p.low, LOW_PLANE);
    assert total > Clock.OVERLAP;
    assert ValidPair(p.high, p.low, total);
    PairIsPredecessor(p.high, p.low, total);
  }

  lemma PlanLong(job: Job)
    requires Clock.FramePlan(job.frames, job.segments).Some?
    ensures 120 <= job.frames <= 360
  {
  }

  /** What `save_segment` is offered is always storable. */
  lemma PayloadStorable(job: Job, c: Clock.Clocks, high: Option<Context>, w: Window, p: Payload)
    requires job.Lawful() && PayloadOk(job, c, high, w, p)
    requires ValidPair(p.high, p.low, c.source + Clock.NextCursor(c, job.frames))
    ensures Storable(p, c.source + Clock.NextCursor(c, job.frames))
  {
    hide Clock.FramePlan, Clock.TailTicks, Job.Returns, Clock.Emitted, Clock.Aligned, Clock.AudioOrigin, WindowRaises, Generated, ValidPair, TailOk, Grid;
    PlanLong(job);
    var next := Clock.NextCursor(c, job.frames);
    assert 3 * Clock.Emitted(next) == 4000 * next + Clock.SampleError(next);
    assert 3 * Clock.Emitted(c.cursor) == 4000 * c.cursor + Clock.SampleError(c.cursor);
    assert 98 <= next - c.cursor <= 360;
  }

  /** The next memory of a sampled window. */
  function Next(job: Job, m: Memory, p: Payload): Memory {
    Memory(m.part + 1, m.cursor + NewFrames(job, m.high), m.audioCursor + |p.pcm|,
           m.frames + p.video.frames, Append(m.chunks, p.pcm), Some(p.high), Some(p.low))
  }

  /** Sampling a window never raises; it offers a storable payload and leaves a consistent memory. */
  lemma SampledIsConsistent(job: Job, m: Memory, config: Config)
    requires job.Lawful() && Consistent(job, m) && m.part < job.segments
    ensures
      var c := ClocksOf(job, m.cursor, m.audioCursor, m.high);
      var w := job.sample(config, m.part, m.high, m.low);
      var r := Sampled(job, m, w);
      && r.Ok? && PayloadOf(job, c, m.high, w) == Ok(r.value.1)
      && r.value.0 == Next(job, m, r.value.1)
      && Consistent(job, r.value.0)
      && PayloadOk(job, c, m.high, w, r.value.1)
      && Storable(r.value.1, job.SourceFrames() + r.value.0.cursor)
  {
    hide *;
    ConsistentOnRun(job, m);
    SampleReturns(job, config, m.part, m.high, m.low);
    var c := ClocksOf(job, m.cursor, m.audioCursor, m.high);
    var w := job.sample(config, m.part, m.high, m.low);
    PayloadNeverRaises(job, c, m.high, w);
    var p := PayloadOf(job, c, m.high, w).value;
    SampledIsNext(job, m, w, p);
    NextConsistent(job, m, w, p);
  }

  lemma SampleReturns(job: Job, config: Config, part: nat, high: Option<Context>, low: Option<Context>)
    requires job.Lawful()
    ensures job.Returns(job.sample(config, part, high, low))
  {
  }

  lemma SampledIsNext(job: Job, m: Memory, w: Window, p: Payload)
    requires PayloadOf(job, ClocksOf(job, m.cursor, m.audioCursor, m.high), m.high, w) == Ok(p)
    requires PayloadOk(job, ClocksOf(job, m.cursor, m.audioCursor, m.high), m.high, w, p)
    ensures Sampled(job, m, w) == Ok((Next(job, m, p), p))
  {
    hide PayloadOf, Normalize, WindowRaises, Append, Clock.Emitted, Clock.Wanted, TailOk, Generated;
    NormalizeSame(p.pcm);
  }

  lemma NextConsistent(job: Job, m: Memory, w: Window, p: Payload)
    requires job.Lawful() && Consistent(job, m) && m.part < job.segments
    requires PayloadOk(job, ClocksOf(job, m.cursor, m.audioCursor, m.high), m.high, w, p)
    ensures Consistent(job, Next(job, m, p)) && Storable(p, job.SourceFrames() + Next(job, m, p).cursor)
  {
    hide Job.Lawful, Clock.TailTicks, Clock.Emitted, Clock.Aligned, Clock.AudioOrigin, WindowRaises, Predecessor, ValidPair, Storable,
      PlanCursor, Append, Generated, Concat, Shaped, OnRun;
    var c := ClocksOf(job, m.cursor, m.audioCursor, m.high);
    ConsistentOnRun(job, m);
    PlanCursorBound(job, m.part + 1);
    PlanCursorStep(job, m.part);
    AppendLength(m.chunks, p.pcm);
    assert m.cursor + NewFrames(job, m.high) == PlanCursor(job, m.part + 1);
    TailsValid(job, c, m.high, w, p);
    PayloadStorable(job, c, m.high, w, p);
  }

  /** A cached payload replays to exactly the memory its sampled window led to: the cache holds the PCM before
      the seam repair, so the repair is applied once. */
  lemma RecoveredIsSampled(job: Job, m: Memory, config: Config)
    requires job.Lawful() && Consistent(job, m) && m.part < job.segments
    ensures
      var r := Sampled(job, m, job.sample(config, m.part, m.high, m.low));
      r.Ok? && Recovered(job, m, r.value.1) == Ok(r.value.0)
  {
    hide *;
    SampledIsConsistent(job, m, config);
    var w := job.sample(config, m.part, m.high, m.low);
    RecoveredIsNext(job, m, w, Sampled(job, m, w).value.1);
  }

  lemma RecoveredIsNext(job: Job, m: Memory, w: Window, p: Payload)
    requires PayloadOk(job, ClocksOf(job, m.cursor, m.audioCursor, m.high), m.high, w, p)
    ensures Recovered(job, m, p) == Ok(Next(job, m, p))
  {
    hide Normalize, WindowRaises, Append, Clock.Emitted, TailOk, Generated;
    NormalizeSame(p.pcm);
  }

  /** The uninterrupted run never raises. */
  lemma {:induction false} UninterruptedConsistent(job: Job, configs: seq<Config>)
    requires job.Lawful() && |configs| <= job.segments
    ensures Uninterrupted(job, configs).Ok?
    ensures Consistent(job, Uninterrupted(job, configs).value) && Uninterrupted(job, configs).value.part == |configs|
  {
    hide Job.Lawful, Consistent, Sampled, Start, Next, PayloadOk, Storable;
    if configs == [] {
      ConsistentStart(job);
      StartsAtZero(job);
    } else {
      UninterruptedConsistent(job, configs[..|configs| - 1]);
      var m := Uninterrupted(job, configs[..|configs| - 1]).value;
      SampledIsConsistent(job, m, configs[|configs| - 1]);
      NextPart(job, m, Sampled(job, m, job.sample(configs[|configs| - 1], m.part, m.high, m.low)).value.1);
    }
  }

  lemma StartsAtZero(job: Job)
    ensures Start(job).part == 0
  {
  }

  lemma NextPart(job: Job, m: Memory, p: Payload)
    ensures Next(job, m, p).part == m.part + 1
  {
  }

  /** A finished film has exactly the planned frames and the rounded samples of those frames. */
  lemma FilmHasExactDuration(job: Job, configs: seq<Config>)
    requires job.Lawful() && |configs| == job.segments
    ensures Uninterrupted(job, configs).Ok?
    ensures
      var m := Uninterrupted(job, configs).value;
      var planned := Clock.FramePlan(job.frames, job.segments).value - (if job.source.None? then 0 else Clock.OVERLAP);
      && |m.frames| == m.cursor == planned
      && |Concat(m.chunks)| == m.audioCursor == Clock.Emitted(planned)
      && m.high.Some? && m.low.Some? && ValidPair(m.high.value, m.low.value, job.SourceFrames() + planned)
  {
    hide *;
    UninterruptedConsistent(job, configs);
    ConsistentEnd(job, Uninterrupted(job, configs).value);
  }

  lemma ConsistentEnd(job: Job, m: Memory)
    requires job.Lawful() && Consistent(job, m) && m.part == job.segments
    ensures
      var planned := Clock.FramePlan(job.frames, job.segments).value - (if job.source.None? then 0 else Clock.OVERLAP);
      && |m.frames| == m.cursor == planned
      && |Concat(m.chunks)| == m.audioCursor == Clock.Emitted(planned)
      && m.high.Some? && m.low.Some? && ValidPair(m.high.value, m.low.value, job.SourceFrames() + planned)
  {
    hide Clock.Emitted, Clock.AudioOrigin, Clock.Aligned, PlanCursor, Predecessor, ValidPair, Concat, CanvasOk, Job.Returns, Grid;
    ConsistentOnRun(job, m);
    PlanPositive(job);
    PlanUnfold(job, job.segments);
  }

  /* What a restart may find in memory: the state of some uninterrupted run. */

  ghost predicate Valid(job: Job, m: Memory) {
    exists configs: seq<Config> :: |configs| == m.part <= job.segments && Uninterrupted(job, configs) == Ok(m)
  }

  lemma ValidConsistent(job: Job, m: Memory)
    requires job.Lawful() && Valid(job, m)
    ensures Consistent(job, m) && m.part <= job.segments
  {
    var configs: seq<Config> :| |configs| == m.part <= job.segments && Uninterrupted(job, configs) == Ok(m);
    hide Uninterrupted, Consistent, Job.Lawful;
    UninterruptedConsistent(job, configs);
  }

  lemma ValidStart(job: Job)
    requires job.Lawful()
    ensures Valid(job, Start(job))
  {
    PlanPositive(job);
    StartsAtZero(job);
    assert Uninterrupted(job, []) == Ok(Start(job));
  }

  lemma ValidNext(job: Job, m: Memory, config: Config)
    requires job.Lawful() && Valid(job, m) && m.part < job.segments
    ensures
      var r := Sampled(job, m, job.sample(config, m.part, m.high, m.low));
      r.Ok? && Valid(job, r.value.0) && r.value.0.part == m.part + 1
  {
    var configs: seq<Config> :| |configs| == m.part <= job.segments && Uninterrupted(job, configs) == Ok(m);
    hide *;
    ValidConsistent(job, m);
    SampledIsConsistent(job, m, config);
    var r := Sampled(job, m, job.sample(config, m.part, m.high, m.low)).value;
    NextPart(job, m, r.1);
    UninterruptedStep(job, configs, config, m);
    ValidWitness(job, configs + [config], r.0);
  }

  lemma UninterruptedStep(job: Job, configs: seq<Config>, config: Config, m: Memory)
    requires Uninterrupted(job, configs) == Ok(m)
    requires Sampled(job, m, job.sample(config, m.part, m.high, m.low)).Ok?
    ensures Uninterrupted(job, configs + [config]) == Ok(Sampled(job, m, job.sample(config, m.part, m.high, m.low)).value.0)
  {
    hide Sampled;
    assert (configs + [config])[..|configs|] == configs;
  }

  lemma ValidWitness(job: Job, configs: seq<Config>, m: Memory)
    requires |configs| == m.part <= job.segments && Uninterrupted(job, configs) == Ok(m)
    ensures Valid(job, m)
  {
    hide Uninterrupted;
  }

  /** Two-pass windows with such previews: whatever settings refined them, two runs hold the same low-resolution tail at every part. */
  lemma {:induction false} SameLowTail(job: Job, x: seq<Config>, y: seq<Config>)
    requires job.Lawful() && job.twoPass && job.PreviewsFixed() && |x| == |y| <= job.segments
    ensures Uninterrupted(job, x).Ok? && Uninterrupted(job, y).Ok?
    ensures Uninterrupted(job, x).value.low == Uninterrupted(job, y).value.low
  {
    hide Job.Lawful, Consistent, Sampled, Start, Next, PayloadOk, Storable, PayloadOf;
    UninterruptedConsistent(job, x);
    UninterruptedConsistent(job, y);
    if x != [] {
      var x0, y0 := x[..|x| - 1], y[..|y| - 1];
      SameLowTail(job, x0, y0);
      UninterruptedConsistent(job, x0);
      UninterruptedConsistent(job, y0);
      SameLowNext(job, Uninterrupted(job, x0).value, x[|x| - 1], Uninterrupted(job, y0).value, y[|y| - 1]);
    }
  }

  lemma SameLowNext(job: Job, a: Memory, c1: Config, b: Memory, c2: Config)
    requires job.Lawful() && job.twoPass && job.PreviewsFixed() && Consistent(job, a) && Consistent(job, b) && a.part == b.part < job.segments && a.low == b.low
    ensures
      var ra, rb := Sampled(job, a, job.sample(c1, a.part, a.high, a.low)), Sampled(job, b, job.sample(c2, b.part, b.high, b.low));
      ra.Ok? && rb.Ok? && ra.value.0.low == rb.value.0.low
  {
    hide *;
    SampledIsConsistent(job, a, c1);
    SampledIsConsistent(job, b, c2);
    var wa, wb := job.sample(c1, a.part, a.high, a.low), job.sample(c2, b.part, b.high, b.low);
    PreviewLow(job, a, wa, Sampled(job, a, wa).value.1);
    PreviewLow(job, b, wb, Sampled(job, b, wb).value.1);
    SamePlace(job, a, b);
    SamePreview(job, a.part, c1, a.high, c2, b.high, a.low);
  }

  lemma SamePreview(job: Job, part: nat, c1: Config, h1: Option<Context>, c2: Config, h2: Option<Context>, low: Option<Context>)
    requires job.Lawful() && job.twoPass && job.PreviewsFixed()
    ensures job.sample(c1, part, h1, low).low == job.sample(c2, part, h2, low).low && job.sample(c1, part, h1, low).low.Some?
  {
    hide Job.WindowLatents, ValidPair, Grid, CanvasOk;
    assert job.Returns(job.sample(c1, part, h1, low));
  }

  /** Where a memory's next window sits on the clocks. */
  function Place(job: Job, m: Memory): (int, int) {
    var c := ClocksOf(job, m.cursor, m.audioCursor, m.high);
    (Clock.WindowStart(c), c.source + Clock.NextCursor(c, job.frames))
  }

  lemma SamePlace(job: Job, a: Memory, b: Memory)
    requires Consistent(job, a) && Consistent(job, b) && a.part == b.part
    ensures Place(job, a) == Place(job, b)
  {
    hide PlanCursor, Clock.Aligned, ValidPair, Predecessor, Concat;
  }

  lemma PreviewLow(job: Job, m: Memory, w: Window, p: Payload)
    requires PayloadOk(job, ClocksOf(job, m.cursor, m.audioCursor, m.high), m.high, w, p)
    ensures w.low.Some? ==> Capture(w.low.value, LOW_PLANE, Place(job, m).0, Place(job, m).1) == Some(p.low)
    ensures Next(job, m, p).low == Some(p.low)
  {
    hide AudioOk, TailOk, LowOk, Capture;
  }

  /** Were the repaired chunk cached instead, a restart would repair the same seam twice, and that changes the
      soundtrack exactly when there is a jump at the seam. */
  lemma SmoothedCacheDiffersIff(left: Pcm, right: Pcm)
    requires left != [] && right != []
    ensures Append([left], SeamedRight(left, right)) != Append([left], right) <==> left[|left| - 1] != right[0]
  {
    hide SeamedLeft, SeamedRight;
    NoJumpNoRepair(left, right);
    JumpRepairedAgain(left, right);
    var once := SeamedRight(left, right);
    assert Append([left], once)[1] == SeamedRight(left, once) && Append([left], right)[1] == once;
  }

  /** The tails of a finished film are a lawful source for the next one: contexts pass over any number of continuations. */
  lemma FilmCanBeContinued(job: Job, configs: seq<Config>)
    requires job.Lawful() && 0 < |configs| <= job.segments
    ensures Uninterrupted(job, configs).Ok?
    ensures
      var m := Uninterrupted(job, configs).value;
      && m.high.Some? && m.low.Some? && ValidPair(m.high.value, m.low.value, job.SourceFrames() + m.cursor)
      && Ticks(m.high.value.audio) == Ticks(m.low.value.audio) && 36 <= Ticks(m.high.value.audio) <= 37
  {
    hide *;
    UninterruptedConsistent(job, configs);
    ConsistentTails(job, Uninterrupted(job, configs).value);
  }

  lemma ConsistentTails(job: Job, m: Memory)
    requires Consistent(job, m) && m.part > 0
    ensures
      && m.high.Some? && m.low.Some? && ValidPair(m.high.value, m.low.value, job.SourceFrames() + m.cursor)
      && Ticks(m.high.value.audio) == Ticks(m.low.value.audio) && 36 <= Ticks(m.high.value.audio) <= 37
  {
    hide Clock.AudioOrigin, Clock.Emitted, Clock.Aligned, PlanCursor, ValidPair, Concat, Ticks, OnClock;
    Clock.AlignedReady(ClocksOf(job, m.cursor, m.audioCursor, m.high), job.frames);
  }
}
