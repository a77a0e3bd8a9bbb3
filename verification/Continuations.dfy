/** A film and any number of continuations, each starting from the reloaded tails of the one before and joined to it. */
module Continuations {
  import opened Basics
  import opened Disk
  import opened Seam
  import opened Contexts
  import opened SegmentCache
  import opened Render
  import opened StepIdentity
  import opened ContextStore
  import Chain
  import Clock

  /** One render: a job without its source, the settings of its windows, and what its snapshot is saved under. */
  datatype Take = Take(job: Job, configs: seq<Config>, owner: Owner, identity: string, bytes: nat, id: nat)
  {
    /** Everything a render needs but a source. */
    ghost predicate Ready() {
      && job.(source := None).Lawful() && |configs| == job.segments
      && |owner.videoSha| == 64 && (identity == "" || Hex(identity)) && 128 <= bytes <= MAX_FILE_BYTES
    }
    function Run(): Clock.Run
      requires job.segments >= 0
    {
      Clock.Run(job.frames, job.segments)
    }
  }

  /** The published film: the source its next continuation starts from, all frames and the whole soundtrack. */
  datatype Film = Film(source: Option<Source>, frames: seq<Frame>, audio: Pcm)

  const NOTHING := Film(None, [], [])

  /** A film whose soundtrack has the rounded samples of its frames and whose tails are those of its end. */
  ghost predicate Good(f: Film) {
    match f.source
    case None => f.frames == [] && f.audio == []
    case Some(x) =>
      && x.totalFrames == |f.frames| && |f.audio| == Clock.Emitted(|f.frames|) && ValidPair(x.high, x.low, x.totalFrames)
      && Ticks(x.high.audio) == Ticks(x.low.audio) && 36 <= Ticks(x.high.audio) <= 37
  }

  function Head(f: Film): int {
    if f.source.None? then 0 else Clock.OVERLAP
  }

  /** The soundtrack of the chain: the new one, or both joined. */
  function JoinedAudio(f: Film, pcm: Pcm, frames: nat): Result<Pcm> {
    if f.source.None? then Ok(pcm)
    else
      var parent, total := Clock.Emitted(|f.frames|), Clock.Emitted(|f.frames| + frames);
      if |f.frames| + frames > Clock.MAX_FILM || Chain.IterRaises(f.audio, parent) || Chain.IterRaises(pcm, total - parent) then Raised
      else Ok(Chain.Joined(Chain.Fitted(f.audio, parent), Chain.Fitted(pcm, total - parent)))
  }

  /** The tails saved with a film and loaded for the next one. */
  function Reloaded(t: Take, high: Context, low: Context, total: int): Result<Source> {
    match Snapshotted(Stored(high, low, total, t.identity), t.owner, t.bytes)
    case Raised => Raised
    case Ok(snapshot) =>
      match LoadContext(Renamed(map[], t.id, (), snapshot), t.owner, Some(t.identity))
      case Raised => Raised
      case Ok(x) => Ok(Source(x.high, x.low, x.totalFrames))
  }

  /** A film continued by one render. */
  function Extended(f: Film, t: Take): Result<Film> {
    var job := t.job.(source := f.source);
    match Uninterrupted(job, t.configs)
    case Raised => Raised
    case Ok(m) =>
      if m.high.None? || m.low.None? then Raised
      else
        match JoinedAudio(f, Concat(m.chunks), |m.frames|)
        case Raised => Raised
        case Ok(audio) =>
          match Reloaded(t, m.high.value, m.low.value, |f.frames| + |m.frames|)
          case Raised => Raised
          case Ok(source) => Ok(Film(Some(source), f.frames + m.frames, audio))
  }

  function Continued(f: Film, takes: seq<Take>): Result<Film>
    decreases |takes|
  {
    if takes == [] then Ok(f)
    else
      match Extended(f, takes[0])
      case Raised => Raised
      case Ok(f') => Continued(f', takes[1..])
  }

  ghost predicate AllReady(takes: seq<Take>) {
    forall i :: 0 <= i < |takes| ==> takes[i].Ready()
  }

  ghost function Runs(takes: seq<Take>): seq<Clock.Run>
    requires AllReady(takes)
    decreases |takes|
  {
    if takes == [] then []
    else
      ReadySegments(takes[0]);
      [takes[0].Run()] + Runs(takes[1..])
  }

  lemma ReadySegments(t: Take)
    requires t.Ready()
    ensures t.job.segments >= 1 && t.job.frames > Clock.OVERLAP
  {
    PlanPositive(t.job.(source := None));
  }

  /** A good film is a lawful source. */
  lemma LawfulWithSource(f: Film, t: Take)
    requires Good(f) && t.Ready()
    requires |f.frames| + Clock.FramePlan(t.job.frames, t.job.segments).value - Head(f) <= Clock.MAX_FILM
    ensures t.job.(source := f.source).Lawful()
  {
    hide Clock.FramePlan, CanvasOk, ValidPair, Job.Returns, Grid;
    var a, b := t.job.(source := None), t.job.(source := f.source);
    forall config, part, high, low
      ensures b.Returns(b.sample(config, part, high, low))
    {
      assert a.Returns(a.sample(config, part, high, low));
      SameReturns(t.job, f.source, a.sample(config, part, high, low));
    }
  }

  lemma SameReturns(job: Job, source: Option<Source>, w: Window)
    requires job.(source := None).Returns(w)
    ensures job.(source := source).Returns(w)
  {
    hide Grid, AudioShaped, Ticks, Clock.AudioOrigin;
  }

  /** Saved tails are loaded back as they were. */
  lemma ReloadedIsExact(t: Take, high: Context, low: Context, total: int)
    requires t.Ready() && ValidPair(high, low, total)
    ensures Reloaded(t, high, low, total) == Ok(Source(high, low, total))
  {
    hide ValidPair, Job.Lawful;
    var s := Stored(high, low, total, t.identity);
    var x := Snapshotted(s, t.owner, t.bytes);
    assert x.Ok?;
    ReloadIsExact(map[], s, t.owner, t.bytes, t.id, t.bytes + 1, t.owner, Some(t.identity));
    assert WriteTrace(map[], t.id, (), x.value, t.bytes)[t.bytes + 1] == Renamed(map[], t.id, (), x.value);
  }

  /** A new soundtrack is within a sample of its place, so the join never raises and comes out exact. */
  lemma JoinIsExact(f: Film, pcm: Pcm, frames: nat)
    requires Good(f) && |pcm| == Clock.Emitted(frames) && 98 <= frames && |f.frames| + frames <= Clock.MAX_FILM
    ensures JoinedAudio(f, pcm, frames).Ok? && |JoinedAudio(f, pcm, frames).value| == Clock.Emitted(|f.frames| + frames)
  {
    hide ValidPair, Ticks, Clock.Emitted, Chain.Fitted, Chain.Joined;
    if f.source.Some? {
      var n := |f.frames|;
      var parent, total := Clock.Emitted(n), Clock.Emitted(n + frames);
      Clock.ChildWithinOneSample(n, frames);
      Ordered(n, frames);
      Chain.FittedLength(f.audio, parent);
      Chain.FittedLength(pcm, total - parent);
      Chain.JoinedLength(Chain.Fitted(f.audio, parent), Chain.Fitted(pcm, total - parent));
    }
  }

  lemma Ordered(parent: nat, child: nat)
    requires 98 <= child && parent + child <= Clock.MAX_FILM
    ensures 0 <= Clock.Emitted(parent) <= Clock.Emitted(Clock.MAX_FILM) && 0 < Clock.Emitted(child)
    ensures 0 <= Clock.Emitted(parent + child) - Clock.Emitted(parent) <= Clock.Emitted(Clock.MAX_FILM)
  {
    hide Clock.Emitted;
    assert 3 * Clock.Emitted(parent) == 4000 * parent + Clock.SampleError(parent);
    assert 3 * Clock.Emitted(child) == 4000 * child + Clock.SampleError(child);
    assert 3 * Clock.Emitted(parent + child) == 4000 * (parent + child) + Clock.SampleError(parent + child);
    assert 3 * Clock.Emitted(Clock.MAX_FILM) == 4000 * Clock.MAX_FILM + Clock.SampleError(Clock.MAX_FILM);
  }

  /** One continuation: the film stays good and grows by its windows less one overlap each. */
  lemma ExtendedIsGood(f: Film, t: Take)
    requires Good(f) && t.Ready()
    requires |f.frames| + Clock.FramePlan(t.job.frames, t.job.segments).value - Head(f) <= Clock.MAX_FILM
    ensures Extended(f, t).Ok? && Good(Extended(f, t).value) && Extended(f, t).value.source.Some?
    ensures |Extended(f, t).value.frames| == |f.frames| + Clock.FramePlan(t.job.frames, t.job.segments).value - Head(f)
  {
    hide *;
    var job := t.job.(source := f.source);
    LawfulWithSource(f, t);
    ReadyParts(f, t);
    FilmHasExactDuration(job, t.configs);
    FilmCanBeContinued(job, t.configs);
    var m := Uninterrupted(job, t.configs).value;
    JoinIsExact(f, Concat(m.chunks), |m.frames|);
    ReloadedIsExact(t, m.high.value, m.low.value, |f.frames| + |m.frames|);
    ExtendedUnfold(f, t, m);
  }

  lemma ReadyParts(f: Film, t: Take)
    requires Good(f) && t.Ready()
    ensures
      var job := t.job.(source := f.source);
      && |t.configs| == job.segments > 0 && job.SourceFrames() == |f.frames|
      && 120 <= job.frames <= 360 && Clock.FramePlan(job.frames, job.segments).Some?
      && Clock.FramePlan(job.frames, job.segments).value >= job.frames
      && (job.source.None? <==> f.source.None?) && Head(f) == (if job.source.None? then 0 else Clock.OVERLAP) && Clock.OVERLAP == 22
  {
    PlanPositive(t.job.(source := None));
    PlanLong(t.job.(source := None));
  }

  lemma ExtendedUnfold(f: Film, t: Take, m: Memory)
    requires Uninterrupted(t.job.(source := f.source), t.configs) == Ok(m) && m.high.Some? && m.low.Some?
    requires JoinedAudio(f, Concat(m.chunks), |m.frames|).Ok?
    requires |JoinedAudio(f, Concat(m.chunks), |m.frames|).value| == Clock.Emitted(|f.frames| + |m.frames|)
    requires Reloaded(t, m.high.value, m.low.value, |f.frames| + |m.frames|) == Ok(Source(m.high.value, m.low.value, |f.frames| + |m.frames|))
    requires ValidPair(m.high.value, m.low.value, |f.frames| + |m.frames|)
    requires Ticks(m.high.value.audio) == Ticks(m.low.value.audio) && 36 <= Ticks(m.high.value.audio) <= 37
    ensures Extended(f, t).Ok? && Good(Extended(f, t).value) && Extended(f, t).value.source.Some?
    ensures |Extended(f, t).value.frames| == |f.frames| + |m.frames|
  {
    hide Uninterrupted, JoinedAudio, Reloaded, ValidPair, Ticks, Clock.Emitted, Concat;
  }

  /**
   * Over any number of continuations of any lengths, up to the limit of a join: every render finds a lawful source,
   * every snapshot reloads as it was saved, no join raises, the frames are the windows less one overlap each, and
   * the soundtrack has exactly the rounded samples of all frames.
   */
  lemma {:induction false} ChainIsExact(f: Film, takes: seq<Take>)
    requires Good(f) && AllReady(takes)
    requires |f.frames| + Clock.ChainFrames(Head(f), Runs(takes)) <= Clock.MAX_FILM
    ensures Continued(f, takes).Ok? && Good(Continued(f, takes).value)
    ensures |Continued(f, takes).value.frames| == |f.frames| + Clock.ChainFrames(Head(f), Runs(takes))
    decreases |takes|
  {
    hide Good, Extended, Clock.FramePlan, Take.Ready;
    if takes != [] {
      var t, rest := takes[0], takes[1..];
      assert t.Ready();
      ReadySegments(t);
      RunsTail(Head(f), takes);
      RunLength(Head(f), t);
      MoreFrames(rest);
      ExtendedIsGood(f, t);
      var f' := Extended(f, t).value;
      assert Head(f') == Clock.OVERLAP;
      ChainIsExact(f', rest);
    }
  }

  lemma RunsTail(head: int, takes: seq<Take>)
    requires AllReady(takes) && takes != []
    ensures AllReady(takes[1..]) && takes[0].job.segments >= 0
    ensures Clock.ChainFrames(head, Runs(takes))
         == Clock.WindowsFrames(takes[0].job.frames - head, takes[0].job.frames, takes[0].job.segments) + Clock.ChainFrames(Clock.OVERLAP, Runs(takes[1..]))
  {
    hide Take.Ready, Clock.WindowsFrames, Clock.ChainFrames;
    AllReadyTail(takes);
    ReadySegments(takes[0]);
    var runs, rest := Runs(takes), Runs(takes[1..]);
    assert runs == [takes[0].Run()] + rest;
    FirstRun(head, takes[0].Run(), rest);
  }

  lemma AllReadyTail(takes: seq<Take>)
    requires AllReady(takes) && takes != []
    ensures takes[0].Ready() && AllReady(takes[1..])
  {
    hide Take.Ready;
  }

  lemma FirstRun(head: int, run: Clock.Run, rest: seq<Clock.Run>)
    ensures Clock.ChainFrames(head, [run] + rest)
         == Clock.WindowsFrames(run.frames - head, run.frames, run.segments) + Clock.ChainFrames(Clock.OVERLAP, rest)
  {
    hide Clock.WindowsFrames;
    assert ([run] + rest)[1..] == rest;
  }

  /** The frames of one run. */
  lemma RunLength(head: int, t: Take)
    requires t.Ready() && t.job.segments >= 1
    ensures Clock.FramePlan(t.job.frames, t.job.segments).Some?
    ensures Clock.WindowsFrames(t.job.frames - head, t.job.frames, t.job.segments)
         == Clock.FramePlan(t.job.frames, t.job.segments).value - head
  {
    Clock.WindowsFramesClosed(t.job.frames - head, t.job.frames, t.job.segments);
  }

  lemma {:induction false} MoreFrames(takes: seq<Take>)
    requires AllReady(takes)
    ensures Clock.ChainFrames(Clock.OVERLAP, Runs(takes)) >= 0
    decreases |takes|
  {
    hide Take.Ready, Clock.FramePlan;
    if takes != [] {
      RunsTail(Clock.OVERLAP, takes);
      assert takes[0].Ready();
      ReadySegments(takes[0]);
      RunLength(Clock.OVERLAP, takes[0]);
      PlanAtLeast(takes[0]);
      MoreFrames(takes[1..]);
    }
  }

  lemma PlanAtLeast(t: Take)
    requires t.Ready()
    ensures Clock.FramePlan(t.job.frames, t.job.segments).Some? && Clock.FramePlan(t.job.frames, t.job.segments).value >= Clock.OVERLAP > 0
  {
    PlanPositive(t.job.(source := None));
  }

  /* What the chain contains. */

  /** The memory a take's render ends with. */
  function Rendered(f: Film, t: Take): Result<Memory> {
    Uninterrupted(t.job.(source := f.source), t.configs)
  }

  /** The new film holds the old one's frames and then the render's, and the old one's samples up to the seam and then
      the render's behind it; the seam reaches 320 samples to each side, and a first film has none. */
  ghost predicate Grown(f: Film, frames: seq<Frame>, pcm: Pcm, f': Film) {
    var at := |f.audio|;
    && f'.frames == f.frames + frames
    && at <= |f'.audio| && (f.source.None? ==> f'.audio == pcm)
    && (forall j :: 0 <= j < at - CHAIN_FADE ==> f'.audio[j] == f.audio[j])
    && (forall j :: at + CHAIN_FADE <= j < |f'.audio| && j - at < |pcm| ==> f'.audio[j] == pcm[j - at])
  }

  /** Within the seam each sample is faded evenly towards the midpoint of the cut. */
  ghost predicate Cut(parent: Pcm, pcm: Pcm, joined: Pcm, k: nat)
    requires k < CHAIN_FADE <= |parent| && CHAIN_FADE <= |pcm| && |parent| + CHAIN_FADE <= |joined|
  {
    var at, mid := |parent|, Midpoint(parent, pcm);
    var x, y := parent[at - CHAIN_FADE + k], pcm[k];
    && Share(joined[at - CHAIN_FADE + k] - x, mid - x, k + 1, CHAIN_FADE + 1)
    && Share(joined[at + k] - y, mid - y, CHAIN_FADE - k, CHAIN_FADE + 1)
  }

  lemma JoinedContents(parent: Pcm, child: Pcm)
    ensures |Chain.Joined(parent, child)| == |parent| + |child|
    ensures forall j :: 0 <= j < |parent| - CHAIN_FADE ==> Chain.Joined(parent, child)[j] == parent[j]
    ensures forall j :: CHAIN_FADE <= j < |child| ==> Chain.Joined(parent, child)[|parent| + j] == child[j]
  {
    ChainLengths(parent, child);
    if parent != [] && child != [] {
      ChainSeam(parent, child);
      hide ChainTail, ChainHead, JumpDivided;
    }
  }

  lemma JoinedCut(parent: Pcm, child: Pcm, k: nat)
    requires k < CHAIN_FADE <= |parent| && CHAIN_FADE <= |child|
    ensures |ChainTail(parent, child)| == |parent| && |ChainHead(parent, child)| == |child|
    ensures TailFades(parent, child, CHAIN_FADE, k) && HeadFades(parent, child, CHAIN_FADE, k)
    ensures Chain.Joined(parent, child)[|parent| - CHAIN_FADE + k] == ChainTail(parent, child)[|parent| - CHAIN_FADE + k]
    ensures Chain.Joined(parent, child)[|parent| + k] == ChainHead(parent, child)[k]
  {
    ChainSeamIsEven(parent, child, k);
    hide ChainTail, ChainHead, TailFades, HeadFades;
  }

  lemma FittedSame(pcm: Pcm, expected: int)
    requires !Chain.IterRaises(pcm, expected) && |pcm| == expected
    ensures Chain.Fitted(pcm, expected) == pcm
  {
    hide Chain.IterRaises;
  }

  lemma GoodIsLong(f: Film)
    requires Good(f) && f.source.Some?
    ensures |f.audio| >= CHAIN_FADE && |f.audio| == Clock.Emitted(|f.frames|)
  {
    hide Clock.Emitted, Ticks, Clock.AudioOrigin;
    assert 3 * Clock.Emitted(|f.frames|) == 4000 * |f.frames| + Clock.SampleError(|f.frames|);
  }

  /** The joined soundtrack, sample by sample. */
  lemma JoinedAudioContents(f: Film, frames: seq<Frame>, pcm: Pcm, source: Option<Source>)
    requires Good(f) && JoinedAudio(f, pcm, |frames|).Ok?
    ensures Grown(f, frames, pcm, Film(source, f.frames + frames, JoinedAudio(f, pcm, |frames|).value))
  {
    hide *;
    if f.source.Some? {
      var child := JoinedParts(f, |frames|, pcm);
      JoinGrows(f, frames, pcm, child, source);
    } else {
      StartGrows(f, frames, pcm, source);
    }
  }

  lemma StartGrows(f: Film, frames: seq<Frame>, pcm: Pcm, source: Option<Source>)
    requires Good(f) && f.source.None? && JoinedAudio(f, pcm, |frames|).Ok?
    ensures Grown(f, frames, pcm, Film(source, f.frames + frames, JoinedAudio(f, pcm, |frames|).value))
  {
    hide ValidPair, Ticks, Clock.Emitted, Chain.Fitted, Chain.Joined, Chain.IterRaises;
  }

  /** The old soundtrack and what is appended to it. */
  lemma JoinedParts(f: Film, frames: nat, pcm: Pcm) returns (child: Pcm)
    requires Good(f) && f.source.Some? && JoinedAudio(f, pcm, frames).Ok?
    ensures JoinedAudio(f, pcm, frames).value == Chain.Joined(f.audio, child)
    ensures forall j :: 0 <= j < |pcm| && j < |child| ==> child[j] == pcm[j]
  {
    hide Clock.Emitted, Good, Chain.Fitted, Chain.Joined, Chain.IterRaises;
    GoodIsLong(f);
    var parent, total := Clock.Emitted(|f.frames|), Clock.Emitted(|f.frames| + frames);
    FittedSame(f.audio, parent);
    child := Chain.Fitted(pcm, total - parent);
  }

  lemma JoinGrows(f: Film, frames: seq<Frame>, pcm: Pcm, child: Pcm, source: Option<Source>)
    requires f.source.Some? && forall j :: 0 <= j < |pcm| && j < |child| ==> child[j] == pcm[j]
    ensures Grown(f, frames, pcm, Film(source, f.frames + frames, Chain.Joined(f.audio, child)))
  {
    hide Chain.Joined;
    JoinedContents(f.audio, child);
    var at, joined := |f.audio|, Chain.Joined(f.audio, child);
    forall j | at + CHAIN_FADE <= j < |joined| && j - at < |pcm|
      ensures joined[j] == pcm[j - at]
    {
      assert joined[at + (j - at)] == child[j - at];
    }
  }

  /** A fitted soundtrack starts like the one it is made of, so the cut reads the same from both. */
  lemma FittedCut(parent: Pcm, pcm: Pcm, child: Pcm, k: nat)
    requires k < CHAIN_FADE <= |parent| && CHAIN_FADE <= |pcm| && CHAIN_FADE <= |child|
    requires child[0] == pcm[0] && child[k] == pcm[k]
    ensures |parent| + CHAIN_FADE <= |Chain.Joined(parent, child)| && Cut(parent, pcm, Chain.Joined(parent, child), k)
  {
    hide Chain.Joined, Share, ChainTail, ChainHead;
    JoinedContents(parent, child);
    JoinedCut(parent, child, k);
  }

  lemma FittedStart(pcm: Pcm, expected: int, k: nat)
    requires !Chain.IterRaises(pcm, expected) && k < CHAIN_FADE <= |pcm| && CHAIN_FADE <= expected
    ensures |Chain.Fitted(pcm, expected)| == expected
    ensures Chain.Fitted(pcm, expected)[0] == pcm[0] && Chain.Fitted(pcm, expected)[k] == pcm[k]
  {
    hide Chain.IterRaises;
    Chain.FittedLength(pcm, expected);
  }

  lemma JoinedAudioCut(f: Film, frames: seq<Frame>, pcm: Pcm, k: nat)
    requires Good(f) && f.source.Some? && JoinedAudio(f, pcm, |frames|).Ok? && k < CHAIN_FADE <= |pcm|
    requires Clock.Emitted(|f.frames| + |frames|) - Clock.Emitted(|f.frames|) >= CHAIN_FADE
    ensures |f.audio| >= CHAIN_FADE && |f.audio| + CHAIN_FADE <= |JoinedAudio(f, pcm, |frames|).value|
    ensures Cut(f.audio, pcm, JoinedAudio(f, pcm, |frames|).value, k)
  {
    hide Clock.Emitted, Good, Chain.Fitted, Chain.Joined, Chain.IterRaises, Cut;
    GoodIsLong(f);
    var parent, total := Clock.Emitted(|f.frames|), Clock.Emitted(|f.frames| + |frames|);
    FittedSame(f.audio, parent);
    FittedStart(pcm, total - parent, k);
    FittedCut(f.audio, pcm, Chain.Fitted(pcm, total - parent), k);
  }

  /** One continuation, by contents. */
  lemma ExtendedContents(f: Film, t: Take)
    requires Good(f) && Extended(f, t).Ok?
    ensures Rendered(f, t).Ok?
    ensures
      var m := Rendered(f, t).value;
      Grown(f, m.frames, Concat(m.chunks), Extended(f, t).value)
  {
    hide Uninterrupted, JoinedAudio, Reloaded, Good, Grown;
    var m := Rendered(f, t).value;
    JoinedAudioContents(f, m.frames, Concat(m.chunks), Extended(f, t).value.source);
  }

  lemma ExtendedCut(f: Film, t: Take, k: nat)
    requires Good(f) && f.source.Some? && t.Ready() && k < CHAIN_FADE
    requires |f.frames| + Clock.FramePlan(t.job.frames, t.job.segments).value - Head(f) <= Clock.MAX_FILM
    ensures Extended(f, t).Ok? && Rendered(f, t).Ok?
    ensures
      var pcm, f' := Concat(Rendered(f, t).value.chunks), Extended(f, t).value;
      CHAIN_FADE <= |f.audio| && CHAIN_FADE <= |pcm| && |f.audio| + CHAIN_FADE <= |f'.audio| && Cut(f.audio, pcm, f'.audio, k)
  {
    hide *;
    ExtendedIsGood(f, t);
    var job := t.job.(source := f.source);
    LawfulWithSource(f, t);
    ReadyParts(f, t);
    FilmHasExactDuration(job, t.configs);
    RenderedIs(f, t);
    var m := Rendered(f, t).value;
    LongEnough(|f.frames|, |m.frames|);
    ExtendedParts(f, t);
    JoinedAudioCut(f, m.frames, Concat(m.chunks), k);
  }

  lemma RenderedIs(f: Film, t: Take)
    ensures Rendered(f, t) == Uninterrupted(t.job.(source := f.source), t.configs)
  {
    hide Uninterrupted;
  }

  lemma ExtendedParts(f: Film, t: Take)
    requires Extended(f, t).Ok?
    ensures Rendered(f, t).Ok?
    ensures
      var m := Rendered(f, t).value;
      && JoinedAudio(f, Concat(m.chunks), |m.frames|).Ok?
      && Extended(f, t).value == Film(Extended(f, t).value.source, f.frames + m.frames, JoinedAudio(f, Concat(m.chunks), |m.frames|).value)
  {
    hide Uninterrupted, JoinedAudio, Reloaded, Concat;
  }

  lemma LongEnough(parent: nat, child: nat)
    requires 98 <= child
    ensures Clock.Emitted(child) >= CHAIN_FADE && Clock.Emitted(parent + child) - Clock.Emitted(parent) >= CHAIN_FADE
  {
    hide Clock.Emitted;
    assert 3 * Clock.Emitted(parent) == 4000 * parent + Clock.SampleError(parent);
    assert 3 * Clock.Emitted(child) == 4000 * child + Clock.SampleError(child);
    assert 3 * Clock.Emitted(parent + child) == 4000 * (parent + child) + Clock.SampleError(parent + child);
  }

  /** Later continuations keep all frames, and all samples but the last 320. */
  ghost predicate Kept(f: Film, f': Film) {
    && f.frames <= f'.frames && |f.audio| <= |f'.audio|
    && forall j :: 0 <= j < |f.audio| - CHAIN_FADE ==> f'.audio[j] == f.audio[j]
  }

  lemma GrownIsKept(f: Film, frames: seq<Frame>, pcm: Pcm, f': Film)
    requires Grown(f, frames, pcm, f')
    ensures Kept(f, f')
  {
  }

  lemma KeptThrough(f: Film, g: Film, h: Film)
    requires Kept(f, g) && Kept(g, h)
    ensures Kept(f, h)
  {
  }

  lemma {:induction false} ChainKeeps(f: Film, takes: seq<Take>)
    requires Good(f) && AllReady(takes) && |f.frames| + Clock.ChainFrames(Head(f), Runs(takes)) <= Clock.MAX_FILM
    ensures Continued(f, takes).Ok? && Kept(f, Continued(f, takes).value)
    decreases |takes|
  {
    hide Good, Extended, Take.Ready, Kept, Grown;
    if takes == [] {
      assert Kept(f, f) by { KeptItself(f); }
    } else {
      var f' := FirstTake(f, takes);
      ExtendedContents(f, takes[0]);
      var m := Rendered(f, takes[0]).value;
      GrownIsKept(f, m.frames, Concat(m.chunks), f');
      ChainKeeps(f', takes[1..]);
      KeptThrough(f, f', Continued(f', takes[1..]).value);
    }
  }

  lemma KeptItself(f: Film)
    ensures Kept(f, f)
  {
  }

  /** The first take of a chain, and what is left for the others. */
  lemma FirstTake(f: Film, takes: seq<Take>) returns (f': Film)
    requires Good(f) && AllReady(takes) && takes != [] && |f.frames| + Clock.ChainFrames(Head(f), Runs(takes)) <= Clock.MAX_FILM
    ensures Extended(f, takes[0]) == Ok(f') && Good(f') && AllReady(takes[1..])
    ensures |f'.frames| + Clock.ChainFrames(Head(f'), Runs(takes[1..])) <= Clock.MAX_FILM
    ensures |f.frames| + Clock.FramePlan(takes[0].job.frames, takes[0].job.segments).value - Head(f) <= Clock.MAX_FILM
    ensures takes[0].Ready()
  {
    hide Good, Extended, Clock.FramePlan, Take.Ready;
    var t, rest := takes[0], takes[1..];
    AllReadyTail(takes);
    ReadySegments(t);
    RunsTail(Head(f), takes);
    RunLength(Head(f), t);
    MoreFrames(rest);
    ExtendedIsGood(f, t);
    f' := Extended(f, t).value;
    assert Head(f') == Clock.OVERLAP;
  }

  /** The film before take i. */
  ghost function FilmBefore(f: Film, takes: seq<Take>, i: nat): Result<Film>
    requires i <= |takes|
  {
    Continued(f, takes[..i])
  }

  /** What one take leaves of itself in the film of all takes. */
  ghost predicate InPlace(f: Film, m: Memory, all: Film, last: bool) {
    var at, pcm := |f.audio|, Concat(m.chunks);
    && |f.frames| + |m.frames| <= |all.frames| && all.frames[|f.frames|..|f.frames| + |m.frames|] == m.frames
    && at == Clock.Emitted(|f.frames|)
    && (forall k ::
          && 0 <= k < |pcm| && (f.source.Some? ==> CHAIN_FADE <= k)
          && at + k < Clock.Emitted(|f.frames| + |m.frames|) - (if last then 0 else CHAIN_FADE)
          ==> at + k < |all.audio| && all.audio[at + k] == pcm[k])
  }

  lemma GrownInPlace(f: Film, m: Memory, f': Film, all: Film, last: bool)
    requires Good(f) && Good(f') && f'.source.Some? && Grown(f, m.frames, Concat(m.chunks), f') && (if last then all == f' else Kept(f', all))
    ensures InPlace(f, m, all, last)
  {
    GoodLengths(f);
    GoodLengths(f');
    hide Good, Clock.Emitted, Concat;
    assert f'.frames == f.frames + m.frames;
    assert all.frames[..|f'.frames|] == f'.frames;
    assert all.frames[|f.frames|..|f.frames| + |m.frames|] == f'.frames[|f.frames|..];
  }

  lemma GoodLengths(f: Film)
    requires Good(f)
    ensures |f.audio| == Clock.Emitted(|f.frames|)
  {
    assert Clock.Emitted(0) == 0;
    hide Clock.Emitted, ValidPair, Ticks;
  }

  /**
   * Every take is in place in the film of all takes: its frames behind those before it, and its samples behind the
   * rounded samples of those frames, but for the 320 at each cut.
   */
  lemma {:induction false} TakesAreInPlace(f: Film, takes: seq<Take>, i: nat)
    requires Good(f) && AllReady(takes) && i < |takes| && |f.frames| + Clock.ChainFrames(Head(f), Runs(takes)) <= Clock.MAX_FILM
    ensures Continued(f, takes).Ok? && FilmBefore(f, takes, i).Ok? && Rendered(FilmBefore(f, takes, i).value, takes[i]).Ok?
    ensures
      var before := FilmBefore(f, takes, i).value;
      InPlace(before, Rendered(before, takes[i]).value, Continued(f, takes).value, i == |takes| - 1)
    decreases i
  {
    hide Good, Extended, Take.Ready, Kept, Grown, InPlace, Rendered;
    var f' := FirstTake(f, takes);
    var rest := takes[1..];
    if i == 0 {
      assert takes[..0] == [];
      ExtendedContents(f, takes[0]);
      ExtendedSource(f, takes[0]);
      ChainKeeps(f', rest);
      GrownInPlace(f, Rendered(f, takes[0]).value, f', Continued(f', rest).value, i == |takes| - 1);
    } else {
      TakesAreInPlace(f', rest, i - 1);
      assert takes[..i][0] == takes[0] && takes[..i][1..] == rest[..i - 1];
    }
  }

  lemma ExtendedSource(f: Film, t: Take)
    requires Extended(f, t).Ok?
    ensures Extended(f, t).value.source.Some?
  {
    hide Uninterrupted, JoinedAudio, Reloaded;
  }

  /** The tails one continuation leaves are those its render ended with. */
  lemma ExtendedTails(f: Film, t: Take)
    requires Good(f) && t.Ready()
    requires |f.frames| + Clock.FramePlan(t.job.frames, t.job.segments).value - Head(f) <= Clock.MAX_FILM
    ensures Extended(f, t).Ok? && Rendered(f, t).Ok?
    ensures
      var m := Rendered(f, t).value;
      && m.high.Some? && m.low.Some?
      && Extended(f, t).value.source == Some(Source(m.high.value, m.low.value, |f.frames| + |m.frames|))
  {
    hide *;
    ExtendedIsGood(f, t);
    var job := t.job.(source := f.source);
    LawfulWithSource(f, t);
    ReadyParts(f, t);
    FilmHasExactDuration(job, t.configs);
    FilmCanBeContinued(job, t.configs);
    RenderedIs(f, t);
    var m := Rendered(f, t).value;
    ReloadedIsExact(t, m.high.value, m.low.value, |f.frames| + |m.frames|);
    SourceUnfold(f, t, m);
  }

  lemma SourceUnfold(f: Film, t: Take, m: Memory)
    requires Uninterrupted(t.job.(source := f.source), t.configs) == Ok(m) && m.high.Some? && m.low.Some? && Extended(f, t).Ok?
    ensures Extended(f, t).value.source.Some?
    ensures Reloaded(t, m.high.value, m.low.value, |f.frames| + |m.frames|) == Ok(Extended(f, t).value.source.value)
  {
    hide Uninterrupted, JoinedAudio, Reloaded, Concat;
  }

  /** So every take continues the tails that the render before it ended with. */
  lemma {:induction false} TakesHandOverTails(f: Film, takes: seq<Take>, i: nat)
    requires Good(f) && AllReady(takes) && i < |takes| && |f.frames| + Clock.ChainFrames(Head(f), Runs(takes)) <= Clock.MAX_FILM
    ensures FilmBefore(f, takes, i).Ok? && Rendered(FilmBefore(f, takes, i).value, takes[i]).Ok? && FilmBefore(f, takes, i + 1).Ok?
    ensures
      var before := FilmBefore(f, takes, i).value;
      var m := Rendered(before, takes[i]).value;
      && m.high.Some? && m.low.Some?
      && FilmBefore(f, takes, i + 1).value.source == Some(Source(m.high.value, m.low.value, |before.frames| + |m.frames|))
    decreases i
  {
    hide Good, Extended, Take.Ready, Rendered;
    var f' := FirstTake(f, takes);
    if i == 0 {
      assert takes[..0] == [] && takes[..1][0] == takes[0] && takes[..1][1..] == [];
      assert Continued(f, takes[..1]) == Continued(f', []) == Ok(f');
      ExtendedTails(f, takes[0]);
    } else {
      var rest := takes[1..];
      TakesHandOverTails(f', rest, i - 1);
      assert takes[..i][0] == takes[0] && takes[..i][1..] == rest[..i - 1];
      assert takes[..i + 1][0] == takes[0] && takes[..i + 1][1..] == rest[..i];
    }
  }

  /** A whole chain from its first film on. */
  lemma EveryChainIsExact(takes: seq<Take>)
    requires takes != [] && AllReady(takes) && Clock.ChainFrames(0, Runs(takes)) <= Clock.MAX_FILM
    ensures
      var r, frames := Continued(NOTHING, takes), Clock.ChainFrames(0, Runs(takes));
      && r.Ok? && |r.value.frames| == frames && |r.value.audio| == Clock.Emitted(frames)
      && r.value.source.Some? && r.value.source.value.totalFrames == frames
      && ValidPair(r.value.source.value.high, r.value.source.value.low, frames)
  {
    hide *;
    NothingIsGood();
    ChainIsExact(NOTHING, takes);
    ChainNotEmpty(takes);
    FramesMeanSource(Continued(NOTHING, takes).value);
  }

  lemma NothingIsGood()
    ensures Good(NOTHING) && Head(NOTHING) == 0 && NOTHING.frames == []
  {
  }

  lemma ChainNotEmpty(takes: seq<Take>)
    requires takes != [] && AllReady(takes)
    ensures Clock.ChainFrames(0, Runs(takes)) > 0
  {
    hide *;
    AllReadyTail(takes);
    RunsTail(0, takes);
    ReadySegments(takes[0]);
    RunLength(0, takes[0]);
    PlanAtLeast(takes[0]);
    MoreFrames(takes[1..]);
  }

  lemma FramesMeanSource(f: Film)
    requires Good(f) && |f.frames| > 0
    ensures f.source.Some? && f.source.value.totalFrames == |f.frames| && |f.audio| == Clock.Emitted(|f.frames|)
    ensures ValidPair(f.source.value.high, f.source.value.low, |f.frames|)
  {
    hide ValidPair, Clock.Emitted;
  }
}
