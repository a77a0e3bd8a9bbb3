/** The 24-fps video clock, the 40-Hz audio-latent clock and the 32-kHz sample clock. */
module Clock {
  import opened Basics

  const OVERLAP := 22
  const MAX_SEGMENTS := 8
  /** Frames of the longest film that can be joined. */
  const MAX_FILM := 10000

  /** Samples of some audio latents. */
  function Samples(latents: int): int {
    800 * latents
  }

  const SAMPLES_PER_LATENT := 800

  /** Nearest 40-Hz tick of an absolute frame position. */
  function AudioOrigin(frame: int): int {
    (5 * frame + 1) / 3
  }

  /** Nearest sample (halves round up) of a frame count. */
  function Emitted(frames: int): int {
    (frames * 32000 + 12) / 24
  }

  /** Frames of a film of overlapping windows; None where the source raises. */
  function FramePlan(frames: int, segments: int): Option<int> {
    if !(120 <= frames <= 360) || (frames - 5) % 17 != 0 || !(1 <= segments <= MAX_SEGMENTS) then None
    else Some(frames + (segments - 1) * (frames - OVERLAP))
  }

  /** What the rolling loop knows of its clocks between two windows. */
  datatype Clocks = Clocks(
    source: int,           // frames of the chain before this run
    cursor: int,           // frames delivered by this run
    audioCursor: int,      // samples delivered by this run
    ticks: Option<int>)    // audio latents of the context carried to the next window
  {
    function Total(): int { source + cursor }
  }

  const FIRST_RUN := Clocks(0, 0, 0, None)

  /** Samples decoded for the new part of a window of `frames` frames. */
  function Decoded(c: Clocks, frames: int): int {
    var trim := if c.ticks.Some? then c.ticks.value else 0;
    if trim <= AudioOrigin(frames) then Samples(AudioOrigin(frames) - trim) else 0
  }

  function NextCursor(c: Clocks, frames: int): int {
    c.cursor + frames - (if c.ticks.Some? then OVERLAP else 0)
  }

  /** Samples the window has to contribute to stay on the 32-kHz clock. */
  function Wanted(c: Clocks, frames: int): int {
    Emitted(NextCursor(c, frames)) - c.audioCursor
  }

  /** Absolute frame at which the window starts; negative where `audio_origin` raises. */
  function WindowStart(c: Clocks): int {
    if c.ticks.None? then 0 else c.Total() - OVERLAP
  }

  /** Audio ticks kept as context after the window, or None where `capture_context` raises. */
  function ContextTicks(start: int, frames: int, delivered: int): Option<int> {
    if start < 0 || delivered < OVERLAP then None
    else
      var first := AudioOrigin(delivered - OVERLAP) - AudioOrigin(start);
      if first < 0 || first >= AudioOrigin(frames) then None
      else if AudioOrigin(frames) - first > 64 then None
      else Some(AudioOrigin(frames) - first)
  }

  /** One window of the loop on its clocks alone; Raised where any check of the source fires. */
  function Window(c: Clocks, frames: int): Result<Clocks> {
    var next := NextCursor(c, frames);
    if next < 0 then Raised
    else
      var wanted := Wanted(c, frames);
      var decoded := Decoded(c, frames);
      if wanted < 0 || decoded - wanted > SAMPLES_PER_LATENT || wanted - decoded > SAMPLES_PER_LATENT
         || (decoded < wanted && decoded == 0) then Raised
      else
        match ContextTicks(WindowStart(c), frames, c.source + next)
        case None => Raised
        case Some(t) => Ok(Clocks(c.source, next, c.audioCursor + wanted, Some(t)))
  }

  function Windows(c: Clocks, frames: int, count: nat): Result<Clocks> {
    if count == 0 then Ok(c)
    else
      match Windows(c, frames, count - 1)
      case Raised => Raised
      case Ok(c') => Window(c', frames)
  }

  /** A continuation restarts its own cursors and keeps the tail context. */
  function Continue(c: Clocks): Clocks {
    Clocks(c.Total(), 0, 0, c.ticks)
  }

  datatype Run = Run(frames: int, segments: nat)

  /** A chain of runs, each continuing the film of the one before. */
  function Chain(c: Clocks, runs: seq<Run>): Result<Clocks>
    decreases |runs|
  {
    if runs == [] then Ok(c)
    else
      match Windows(Continue(c), runs[0].frames, runs[0].segments)
      case Raised => Raised
      case Ok(c') => Chain(c', runs[1..])
  }

  /** Frames delivered by `count` windows of which the first delivers `first`. */
  function WindowsFrames(first: int, frames: int, count: nat): int {
    if count == 0 then 0
    else if count == 1 then first
    else WindowsFrames(first, frames, count - 1) + frames - OVERLAP
  }

  /** Every window drops its overlap once; only the very first window of the film keeps its `head`. */
  function ChainFrames(head: int, runs: seq<Run>): int
    decreases |runs|
  {
    if runs == [] then 0
    else WindowsFrames(runs[0].frames - head, runs[0].frames, runs[0].segments) + ChainFrames(OVERLAP, runs[1..])
  }

  ghost predicate Plannable(runs: seq<Run>) {
    forall r :: r in runs ==> r.frames > OVERLAP && r.segments >= 1
  }

  /** Overlap the next window drops. */
  function Head(c: Clocks): int {
    if c.ticks.Some? then OVERLAP else 0
  }

  /** A film a run can start from: nothing, or more than an overlap of frames and a 36- or 37-tick tail. */
  predicate Ready(c: Clocks) {
    c.source >= 0 && c.cursor >= 0 &&
    match c.ticks
    case None => c.Total() == 0
    case Some(t) => c.Total() > OVERLAP && (t == 36 || t == 37)
  }

  /** Inside a run of windows of `frames` frames: the samples delivered are those of the frames delivered,
      and a tail left by this run is the one its window leaves at its place. */
  ghost predicate Aligned(c: Clocks, frames: int) {
    && Ready(c)
    && c.audioCursor == Emitted(c.cursor)
    && (c.cursor > 0 ==> c.ticks.Some? && OVERLAP < frames <= c.Total() && c.ticks.value == TailTicks(c.Total() - frames, frames))
  }

  /** Thirds of a tick by which the nearest tick misses a frame: a function of the frame modulo 3. */
  function TickError(frame: int): (e: int)
    ensures 3 * AudioOrigin(frame) == 5 * frame + e && -1 <= e <= 1
  {
    assert frame == 3 * (frame / 3) + frame % 3;
    assert AudioOrigin(frame) == 5 * (frame / 3) + (5 * (frame % 3) + 1) / 3;
    if frame % 3 == 0 then 0 else if frame % 3 == 1 then 1 else -1
  }

  /** Thirds of a sample by which the nearest sample misses a frame count. */
  function SampleError(frame: int): (e: int)
    ensures 3 * Emitted(frame) == 4000 * frame + e && -1 <= e <= 1
  {
    assert frame == 3 * (frame / 3) + frame % 3;
    assert Emitted(frame) == 4000 * (frame / 3) + ((frame % 3) * 32000 + 12) / 24;
    if frame % 3 == 0 then 0 else if frame % 3 == 1 then -1 else 1
  }

  /** Ticks a window of `frames` frames starting at `start` leaves for its last 22 frames. */
  function TailTicks(start: int, frames: int): int {
    AudioOrigin(frames) - (AudioOrigin(start + frames - OVERLAP) - AudioOrigin(start))
  }

  /** A captured audio context is 36 or 37 ticks, whatever the window and wherever it starts. */
  lemma ContextIs36Or37(start: int, frames: int)
    requires frames > OVERLAP
    ensures TailTicks(start, frames) in {36, 37}
  {
    var e := TickError(frames) - TickError(start + frames - OVERLAP) + TickError(start);
    assert 3 * TailTicks(start, frames) == 110 + e;
    assert e in {1, -2};
  }

  /** First window of a continuation: a tail of 36 or 37 ticks, left by windows of any other length. */
  lemma FirstWindowNear(ticks: int, frames: int)
    requires frames > OVERLAP && (ticks == 36 || ticks == 37)
    ensures
      var decoded := Samples(AudioOrigin(frames) - ticks);
      -534 <= decoded - Emitted(frames - OVERLAP) <= 800
  {
    hide AudioOrigin, Emitted;
    var e := 3 * ticks - 110;
    var decoded := Samples(AudioOrigin(frames) - ticks);
    assert 3 * AudioOrigin(frames) == 5 * frames + TickError(frames);
    assert 3 * Emitted(frames - OVERLAP) == 4000 * (frames - OVERLAP) + SampleError(frames - OVERLAP);
    assert 3 * (decoded - Emitted(frames - OVERLAP)) == 800 * (TickError(frames) - e) - SampleError(frames - OVERLAP);
    assert TickError(frames) == 1 ==> SampleError(frames - OVERLAP) == 0;
  }

  /** Later windows of a run: the tail is exactly the one a window of the same length left. */
  lemma LaterWindowNear(cursor: int, start: int, frames: int)
    requires frames > OVERLAP
    ensures
      var decoded := Samples(AudioOrigin(frames) - TailTicks(start, frames));
      -534 <= decoded - (Emitted(cursor + frames - OVERLAP) - Emitted(cursor)) <= 534
  {
    hide AudioOrigin, Emitted;
    var ticks := TickError(start + frames - OVERLAP) - TickError(start);
    var samples := SampleError(cursor + frames - OVERLAP) - SampleError(cursor);
    var decoded := Samples(AudioOrigin(frames) - TailTicks(start, frames));
    assert 3 * (decoded - (Emitted(cursor + frames - OVERLAP) - Emitted(cursor))) == 800 * ticks - samples;
    assert -2 <= ticks <= 2 && -2 <= samples <= 2;
  }

  /** A window never trips a check, and keeps both clocks aligned. */
  lemma WindowStaysAligned(c: Clocks, frames: int)
    requires Aligned(c, frames) && frames > OVERLAP
    ensures -SAMPLES_PER_LATENT <= Decoded(c, frames) - Wanted(c, frames) <= SAMPLES_PER_LATENT
    ensures
      var start := if c.ticks.Some? then c.Total() - OVERLAP else 0;
      var next := c.cursor + frames - (if c.ticks.Some? then OVERLAP else 0);
      && TailTicks(start, frames) in {36, 37}
      && Window(c, frames) == Ok(Clocks(c.source, next, Emitted(next), Some(TailTicks(start, frames))))
      && Aligned(Window(c, frames).value, frames)
  {
    hide AudioOrigin, Emitted, TailTicks, Decoded, ContextTicks;
    var start := if c.ticks.Some? then c.Total() - OVERLAP else 0;
    ContextIs36Or37(start, frames);
    WindowAudio(c, frames);
    TailCaptured(start, frames);
    assert WindowStart(c) == start && c.source + NextCursor(c, frames) == start + frames;
  }

  lemma TailCaptured(start: int, frames: int)
    requires 0 <= start && frames > OVERLAP
    ensures TailTicks(start, frames) >= 0
    ensures ContextTicks(start, frames, start + frames) == Some(TailTicks(start, frames))
  {
    ContextIs36Or37(start, frames);
    var first := AudioOrigin(start + frames - OVERLAP) - AudioOrigin(start);
    assert 0 <= first;
    assert TailTicks(start, frames) == AudioOrigin(frames) - first;
  }

  lemma WindowAudio(c: Clocks, frames: int)
    requires Aligned(c, frames) && frames > OVERLAP
    ensures 0 <= Wanted(c, frames)
    ensures Decoded(c, frames) > 0
    ensures -SAMPLES_PER_LATENT <= Decoded(c, frames) - Wanted(c, frames) <= SAMPLES_PER_LATENT
  {
    hide AudioOrigin, Emitted, TailTicks;
    assert 3 * Emitted(c.cursor) == 4000 * c.cursor + SampleError(c.cursor);
    assert 3 * AudioOrigin(frames) == 5 * frames + TickError(frames);
    var next := NextCursor(c, frames);
    assert 3 * Emitted(next) == 4000 * next + SampleError(next);
    if c.ticks.None? {
      assert c.cursor == 0 && next == frames;
    } else if c.cursor == 0 {
      FirstWindowNear(c.ticks.value, frames);
    } else {
      LaterWindowNear(c.cursor, c.Total() - frames, frames);
    }
  }

  lemma {:induction false} WindowsFramesClosed(first: int, frames: int, count: nat)
    requires count > 0
    ensures WindowsFrames(first, frames, count) == first + (count - 1) * (frames - OVERLAP)
  {
    if count > 1 {
      WindowsFramesClosed(first, frames, count - 1);
      assert (count - 1) * (frames - OVERLAP) == (count - 2) * (frames - OVERLAP) + (frames - OVERLAP);
    }
  }

  lemma {:induction false} WindowsStayAligned(c: Clocks, frames: int, count: nat)
    requires Aligned(c, frames) && frames > OVERLAP && c.cursor == 0
    ensures Windows(c, frames, count).Ok?
    ensures
      var c' := Windows(c, frames, count).value;
      && (count == 0 ==> c' == c)
      && (count > 0 ==> c'.ticks.Some?)
      && Aligned(c', frames)
      && c'.Total() == c.Total() + WindowsFrames(frames - Head(c), frames, count)
  {
    hide AudioOrigin, Emitted, Window, TailTicks, Aligned;
    if count > 0 {
      WindowsStayAligned(c, frames, count - 1);
      var before := Windows(c, frames, count - 1).value;
      WindowStaysAligned(before, frames);
      assert Windows(c, frames, count) == Window(before, frames);
    }
  }

  lemma ContinueAligned(c: Clocks, frames: int)
    requires Ready(c)
    ensures Aligned(Continue(c), frames)
  {
    hide AudioOrigin, TailTicks;
    assert Emitted(0) == 0;
  }

  lemma AlignedReady(c: Clocks, frames: int)
    requires Aligned(c, frames)
    ensures Ready(c) && c.audioCursor == Emitted(c.cursor)
  {
  }

  /** Over chains of any length, with windows of any lengths, no clock check ever fires: the samples
      delivered are the rounded samples of the frames delivered, every context is 36 or 37 ticks,
      and each window's frames are delivered once, less the overlap. */
  lemma {:induction false} ChainNeverDiverges(c: Clocks, runs: seq<Run>)
    requires Ready(c) && Plannable(runs)
    ensures Chain(c, runs).Ok?
    ensures
      var c' := Chain(c, runs).value;
      && (runs != [] ==> c'.audioCursor == Emitted(c'.cursor) && c'.ticks.Some?)
      && Ready(c')
      && c'.Total() == c.Total() + ChainFrames(Head(c), runs)
    decreases |runs|
  {
    hide AudioOrigin, Emitted, Windows, TailTicks, WindowsFrames, Aligned;
    if runs != [] {
      var r := runs[0];
      assert r in runs;
      assert ChainFrames(Head(c), runs) == WindowsFrames(r.frames - Head(c), r.frames, r.segments) + ChainFrames(OVERLAP, runs[1..]);
      ContinueAligned(c, r.frames);
      WindowsStayAligned(Continue(c), r.frames, r.segments);
      var c' := Windows(Continue(c), r.frames, r.segments).value;
      AlignedReady(c', r.frames);
      ChainNeverDiverges(c', runs[1..]);
      assert Head(c') == OVERLAP && Head(Continue(c)) == Head(c);
    }
  }

  /** A film of one window. */
  lemma FirstFilm(frames: int)
    requires frames > OVERLAP
    ensures Windows(FIRST_RUN, frames, 1) == Ok(Clocks(0, frames, Emitted(frames), Some(TailTicks(0, frames))))
  {
    hide AudioOrigin, TailTicks, Emitted, Window, Aligned;
    ContinueAligned(FIRST_RUN, frames);
    assert Continue(FIRST_RUN) == FIRST_RUN;
    WindowStaysAligned(FIRST_RUN, frames);
    assert Windows(FIRST_RUN, frames, 0) == Ok(FIRST_RUN);
    assert Windows(FIRST_RUN, frames, 1) == Window(FIRST_RUN, frames);
  }

  lemma TightNumbers()
    ensures TailTicks(0, 158) == 36 && AudioOrigin(124) == 207 && Emitted(124 - OVERLAP) == 136000
  {
    assert AudioOrigin(158) == 263 && AudioOrigin(136) == 227 && AudioOrigin(0) == 0;
  }

  /** The first window of a continuation decodes (audio_origin(F) - ticks) latents for Emitted(F - 22) samples. */
  lemma ContinuationAudio(c: Clocks, ticks: int, frames: int)
    requires c.ticks == Some(ticks) && 0 <= ticks <= AudioOrigin(frames)
    ensures Decoded(Continue(c), frames) - Wanted(Continue(c), frames) == Samples(AudioOrigin(frames) - ticks) - Emitted(frames - OVERLAP)
  {
    hide AudioOrigin, Emitted;
  }

  /** The one-latent tolerance is exactly tight: a 158-frame film continued by a 124-frame window meets it. */
  lemma ToleranceIsTight()
    ensures FramePlan(158, 1).Some? && FramePlan(124, 1).Some?
    ensures Windows(FIRST_RUN, 158, 1).Ok?
    ensures
      var c := Continue(Windows(FIRST_RUN, 158, 1).value);
      Decoded(c, 124) - Wanted(c, 124) == SAMPLES_PER_LATENT
  {
    hide AudioOrigin, Emitted, TailTicks, Windows, Decoded, Wanted, Continue;
    TightNumbers();
    FirstFilm(158);
    ContinuationAudio(Windows(FIRST_RUN, 158, 1).value, 36, 124);
  }

  /** A film of one run has the frames of the plan. */
  lemma PlanIsChain(frames: int, segments: int)
    requires FramePlan(frames, segments).Some?
    ensures ChainFrames(0, [Run(frames, segments)]) == FramePlan(frames, segments).value
  {
    var runs := [Run(frames, segments)];
    WindowsFramesClosed(frames, frames, segments);
    assert runs[1..] == [] && ChainFrames(OVERLAP, runs[1..]) == 0;
  }

  /** Joining a child of `child` frames: its piece is within one sample of its own clock. */
  lemma ChildWithinOneSample(parent: int, child: int)
    ensures -1 <= (Emitted(parent + child) - Emitted(parent)) - Emitted(child) <= 1
  {
    assert 3 * ((Emitted(parent + child) - Emitted(parent)) - Emitted(child))
           == SampleError(parent + child) - SampleError(parent) - SampleError(child);
  }

  function Sum(parts: seq<int>): int {
    if parts == [] then 0 else parts[0] + Sum(parts[1..])
  }

  /** Samples of the pieces that continuations of the given frame counts append to a film of `parent` frames. */
  function PieceSamples(parent: int, children: seq<int>): int
    decreases |children|
  {
    if children == [] then 0
    else (Emitted(parent + children[0]) - Emitted(parent)) + PieceSamples(parent + children[0], children[1..])
  }

  /** Over any number of continuations the audio telescopes to the rounded samples of all frames. */
  lemma {:induction false} PiecesTelescope(parent: int, children: seq<int>)
    ensures Emitted(parent) + PieceSamples(parent, children) == Emitted(parent + Sum(children))
    decreases |children|
  {
    hide Emitted;
    if children != [] {
      PiecesTelescope(parent + children[0], children[1..]);
      assert parent + Sum(children) == parent + children[0] + Sum(children[1..]);
    }
  }
}
