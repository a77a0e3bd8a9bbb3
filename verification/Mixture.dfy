/**
 * A history that delivers no uninterrupted film: a preview is lost while the refinement of it holds a step, and the
 * next attempt samples another preview under other settings.
 */
module Mixture {
  import opened Basics
  import opened Disk
  import opened Contexts
  import opened SegmentCache
  import opened Render
  import opened Prefix
  import opened StepStore
  import opened StepIdentity
  import opened Recovery
  import Example
  import MemoryPlan
  import Clock

  /* An engine whose previews show which settings they were sampled under. */

  /** The requested tiles, and the emergency tiles of the next attempt. */
  const PLAIN := Settings(Some(MemoryPlan.StreamCpu), MemoryPlan.Knobs(MemoryPlan.AutoTiles, 0, 0, 256), "0.35.1", "2.8.0")
  const TILED := Settings(Some(MemoryPlan.StreamCpu), MemoryPlan.Knobs(MemoryPlan.Force, 128, 2, 128), "0.35.1", "2.8.0")

  datatype Tone = Dark | Light
  {
    function Byte(): int { if Dark? then 0 else 1 }
  }

  function ToneUnder(s: Settings): Tone {
    if s == TILED then Light else Dark
  }

  function BlockOf(t: Tone): Block {
    Block([[if t.Dark? then 0.0 else 1.0]], [])
  }

  function ToneOf(b: Block): (t: Tone) {
    if b == BlockOf(Light) then Light else Dark
  }

  lemma ToneRead(t: Tone)
    ensures ToneOf(BlockOf(t)) == t
  {
    assert BlockOf(Dark).latents[0][0] == 0.0 && BlockOf(Light).latents[0][0] == 1.0;
  }

  function Fill(rows: nat, width: nat, t: Tone): (r: Rows)
    ensures |r| == rows && Grid(r, rows, width)
    ensures forall i, j :: 0 <= i < rows && 0 <= j < width ==> r[i][j] == t.Byte()
  {
    seq(rows, _ => seq(width, _ => t.Byte()))
  }

  function LowLatents(t: Tone): Latents {
    Latents(Fill(24, 7 * LOW_PLANE, t), Example.Zeros(64, 828))
  }

  /** A window whose frames have the tone of its block. */
  function ToneWindow(t: Tone): Window {
    Window(Video(seq(124, _ => [t.Byte()]), 32, 32), seq(165600, _ => 0.0), Example.Still(HIGH_PLANE), None)
  }

  function ShownWindow(frames: Tone, low: Tone): Window {
    ToneWindow(frames).(low := Some(LowLatents(low)))
  }

  function ToneJob(): Job {
    Job(124, 1, true, 32, 32, "model", "request", 3, None,
        (c: Config, _, _, _) => ShownWindow(ToneUnder(c.preview), ToneUnder(c.preview)), _ => Example.Zeros(24, 7 * LOW_PLANE), 128)
  }

  /** One step that changes nothing. */
  function OneStep(b: Block): Sampler {
    Sampler("stage", 1, 0, 0, 0, b, (_, x) => x, None)
  }

  ghost function ToneEngine(): Engine {
    Engine(
      ToneJob(), (s, _, _) => OneStep(BlockOf(ToneUnder(s))),
      (_, _, _, p: Option<Block>) => OneStep(if p.None? then BlockOf(Dark) else p.value),
      b => ToneWindow(ToneOf(b)), b => LowLatents(ToneOf(b)), 128, 128,
      iset s: Settings | |s.diffusers| == 6)
  }

  lemma OneStepFacts(b: Block)
    ensures OneStep(b).Lawful() && OneStep(b).Trajectory(0) == b && OneStep(b).Trajectory(1) == b && EndOf(OneStep(b)) == b
  {
    assert OneStep(b).Lawful();
    assert OneStep(b).Trajectory(0) == b;
  }

  lemma WindowReturns(frames: Tone, low: Tone)
    ensures ToneJob().Returns(ShownWindow(frames, low))
  {
    hide Grid, AudioShaped, Ticks, Example.Still, Job.WindowLatents, Fill, Example.Zeros;
    assert Clock.AudioOrigin(124) == 207;
    hide Clock.AudioOrigin;
    LatentsReturn(Example.Still(HIGH_PLANE), HIGH_PLANE);
    LatentsReturn(LowLatents(low), LOW_PLANE) by { LowShaped(low); }
  }

  lemma LowShaped(t: Tone)
    ensures Grid(LowLatents(t).video, 24, 7 * LOW_PLANE) && AudioShaped(LowLatents(t).audio) && Ticks(LowLatents(t).audio) == 207
  {
    hide Fill;
  }

  lemma LatentsReturn(x: Latents, plane: nat)
    requires Grid(x.video, 24, 7 * plane) && AudioShaped(x.audio) && Ticks(x.audio) == 207
    ensures ToneJob().WindowLatents(x, plane)
  {
    assert Clock.AudioOrigin(124) == 207;
    hide Clock.AudioOrigin, AudioShaped, Ticks;
    assert |x.video| == 24 && |x.video[0]| == 7 * plane;
  }

  lemma JobIsLawful()
    ensures ToneJob().Lawful()
  {
    hide Job.Returns, Example.Zeros, ToneUnder;
    forall config: Config, part: nat, high: Option<Context>, low: Option<Context>
      ensures ToneJob().Returns(ToneJob().sample(config, part, high, low))
    {
      WindowReturns(ToneUnder(config.preview), ToneUnder(config.preview));
    }
    assert Clock.FramePlan(124, 1) == Some(124);
    hide ShownWindow;
  }

  lemma EngineIsLawful()
    ensures ToneEngine().Lawful() && ToneEngine().job.twoPass && ToneEngine().job.segments == 1
    ensures PLAIN in ToneEngine().known && TILED in ToneEngine().known
  {
    JobIsLawful();
    EqualLengthsAreDistinct(6);
    hide Job.Lawful, OneStep, Sampler.Lawful, EndOf, BlockOf, ToneWindow, LowLatents;
    var e := ToneEngine();
    forall b
      ensures OneStep(b).Lawful() && EndOf(OneStep(b)) == b
    {
      OneStepFacts(b);
    }
    assert e.SamplersLawful();
    forall config: Config, part: nat, high: Option<Context>, low: Option<Context>
      ensures e.job.sample(config, part, high, low)
        == e.Shown(EndOf(e.sampler(config.refine, part, high, e.PreviewUnder(config.preview, part, low))), e.PreviewUnder(config.preview, part, low))
    {
      ToneRead(ToneUnder(config.preview));
    }
  }

  /* Paths of events. */

  ghost predicate Reaches(e: Engine, a: World, b: World)
    requires e.Lawful()
  {
    exists worlds, events :: Path(e, worlds, events) && worlds[0] == a && worlds[|events|] == b
  }

  lemma Here(e: Engine, a: World)
    requires e.Lawful()
    ensures Reaches(e, a, a)
  {
    hide Engine.Lawful;
    assert Path(e, [a], []);
  }

  lemma Further(e: Engine, a: World, b: World, event: Event, c: World)
    requires e.Lawful() && Reaches(e, a, b) && Step(e, b, event, c)
    ensures Reaches(e, a, c)
  {
    hide Engine.Lawful, Step;
    var worlds, events :| Path(e, worlds, events) && worlds[0] == a && worlds[|events|] == b;
    var w, v := worlds + [c], events + [event];
    forall i | 0 <= i < |v|
      ensures Step(e, w[i], v[i], w[i + 1])
    {
      assert i < |events| ==> Step(e, worlds[i], events[i], worlds[i + 1]);
    }
    assert Path(e, w, v);
  }

  /** All pending disk operations carried out. */
  lemma {:induction false} WorkedOff(e: Engine, a: World, d: Disks, todo: seq<Disks>, next: Process)
    requires e.Lawful() && Reaches(e, a, World(d, Busy(todo, next)))
    ensures Reaches(e, a, World(LastOf(d, todo), next))
    decreases |todo|
  {
    hide Engine.Lawful, Reaches, Step;
    var b := World(d, Busy(todo, next));
    var c := if todo == [] then World(d, next) else World(todo[0], Busy(todo[1..], next));
    OtherStep(e, b, Work, c);
    Further(e, a, b, Work, c);
    if todo != [] {
      WorkedOff(e, a, todo[0], todo[1..], next);
    }
  }

  /* The sessions. */

  /** Nothing cached for the first window. */
  predicate Uncached(d: Disks) {
    Read(d.cache, State(0)) == None
  }

  predicate NoSteps(d: Disks, stage: Stage) {
    Read(d.Steps(stage, 0), 0) == None && Read(d.Steps(stage, 0), 1) == None
  }

  function First(): Memory {
    Start(ToneJob())
  }

  lemma FirstFacts()
    ensures First().part == 0 && First().high == None && First().low == None && First() == Start(ToneEngine().job)
  {
  }

  lemma NothingCached(e: Engine, d: Disks, m: Memory)
    requires Uncached(d) && m.part == 0
    ensures Load(d.cache, m.part, InputsFor(e.job, m), NewFrames(e.job, m.high)) == Raised
  {
    hide InputsFor, NewFrames;
  }

  lemma DiscardedFacts(d: Disks)
    ensures
      var d' := LastOf(d, CacheOps(d, DiscardTrace(d.cache, 0)));
      Uncached(d') && d'.steps == d.steps && d'.previews == d.previews
  {
    ClearedUncommitted(d.cache, 0);
    UncommittedUnlink(d.cache, Unlinked(d.cache, State(0)), 0, Rgb(0));
    UncommittedUnlink(d.cache, Unlinked(Unlinked(d.cache, State(0)), Rgb(0)), 0, PcmData(0));
  }

  /** Start a session that finds no cached window. */
  lemma Started(e: Engine, a: World, d: Disks, s: Settings) returns (d': Disks)
    requires e == ToneEngine() && e.Lawful() && s in e.known && Reaches(e, a, World(d, Dead)) && Uncached(d)
    ensures Reaches(e, a, World(d', Seeking(s, First()))) && Uncached(d') && d'.steps == d.steps && d'.previews == d.previews
  {
    EngineIsLawful();
    FirstFacts();
    hide *;
    var m := First();
    OtherStep(e, World(d, Dead), Launch(s), World(d, Looking(s, m)));
    Further(e, a, World(d, Dead), Launch(s), World(d, Looking(s, m)));
    NothingCached(e, d, m);
    var ops := CacheOps(d, DiscardTrace(d.cache, 0));
    var w := World(d, Busy(ops, Seeking(s, m)));
    LookMiss(e, d, World(d, Looking(s, m)).process, w);
    StageStep(e, World(d, Looking(s, m)), Look, w);
    Further(e, a, World(d, Looking(s, m)), Look, w);
    WorkedOff(e, a, d, ops, Seeking(s, m));
    DiscardedFacts(d);
    d' := LastOf(d, ops);
  }

  lemma LookMiss(e: Engine, d: Disks, p: Process, w: World)
    requires p.Looking? && e.job.twoPass && p.m.part == 0 && Load(d.cache, p.m.part, InputsFor(e.job, p.m), NewFrames(e.job, p.m.high)) == Raised
    requires w == World(d, Busy(CacheOps(d, DiscardTrace(d.cache, 0)), Seeking(p.settings, p.m)))
    ensures LookStep(e, d, p, w)
  {
    hide Load, InputsFor, NewFrames, CacheOps, DiscardTrace;
  }

  lemma UnlinkedFacts(d: Disks)
    ensures
      var d' := LastOf(d, PreviewOps(d, [Unlinked(d.previews, 0)]));
      d'.cache == d.cache && d'.steps == d.steps
  {
  }

  /** Find no preview and go on to sample one. */
  lemma SoughtInVain(e: Engine, a: World, d: Disks, s: Settings) returns (d': Disks)
    requires e == ToneEngine() && e.Lawful() && Reaches(e, a, World(d, Seeking(s, First()))) && LoadPreview(e, d.previews, First()) == None
    ensures Reaches(e, a, World(d', Resuming(s, Preview, First(), None))) && d'.cache == d.cache && d'.steps == d.steps
  {
    FirstFacts();
    hide *;
    var m := First();
    var ops := PreviewOps(d, [Unlinked(d.previews, 0)]);
    var w := World(d, Busy(ops, Resuming(s, Preview, m, None)));
    SeekMiss(e, d, World(d, Seeking(s, m)).process, w);
    StageStep(e, World(d, Seeking(s, m)), Seek, w);
    Further(e, a, World(d, Seeking(s, m)), Seek, w);
    WorkedOff(e, a, d, ops, Resuming(s, Preview, m, None));
    UnlinkedFacts(d);
    d' := LastOf(d, ops);
  }

  lemma SeekMiss(e: Engine, d: Disks, p: Process, w: World)
    requires p.Seeking? && p.m.part == 0 && LoadPreview(e, d.previews, p.m) == None
    requires w == World(d, Busy(PreviewOps(d, [Unlinked(d.previews, 0)]), Resuming(p.settings, Preview, p.m, None)))
    ensures SeekStep(e, d, p, w)
  {
    hide LoadPreview, PreviewOps;
  }

  /** The block a stage of the first window runs on. */
  function StageBlock(stage: Stage, s: Settings, preview: Option<Block>): Block {
    if stage.Preview? then BlockOf(ToneUnder(s)) else if preview.None? then BlockOf(Dark) else preview.value
  }

  lemma RunningIs(stage: Stage, s: Settings, preview: Option<Block>)
    ensures ToneEngine().Running(stage, s, First(), preview) == OneStep(StageBlock(stage, s, preview))
    ensures ToneEngine().stepBytes == 128
  {
    hide OneStep, BlockOf, ToneUnder, ToneJob;
  }

  /** The key of a stage does not depend on what it runs on. */
  ghost function StageKey(stage: Stage, s: Settings): Key {
    Key(ToneEngine().Identity(stage, s, First()), "stage", 1, 0, 1, 0)
  }

  predicate Small(b: Block) {
    |b.latents| == 1 && |b.audio| == 0
  }

  lemma KeyIs(e: Engine, stage: Stage, s: Settings, preview: Option<Block>)
    requires e == ToneEngine() && e.Lawful() && Small(StageBlock(stage, s, preview))
    ensures e.RunPlan(stage, s, First(), preview).key == StageKey(stage, s)
  {
    RunningIs(stage, s, preview);
    hide Engine.Lawful, Engine.Identity, ToneEngine, StageBlock;
  }

  /** Resume a stage without an acceptable step. */
  lemma ResumedFresh(e: Engine, a: World, d: Disks, stage: Stage, preview: Option<Block>, s: Settings)
    requires e == ToneEngine() && e.Lawful() && Reaches(e, a, World(d, Resuming(s, stage, First(), preview))) && NoSteps(d, stage)
    requires Small(StageBlock(stage, s, preview))
    ensures Reaches(e, a, World(d, Sampling(s, stage, First(), preview, 0, StageBlock(stage, s, preview))))
  {
    FirstFacts();
    KeyIs(e, stage, s, preview);
    RunningIs(stage, s, preview);
    hide *;
    var b := StageBlock(stage, s, preview);
    OneStepFacts(b);
    var p := Resuming(s, stage, First(), preview);
    FreshBlock(d.Steps(stage, 0), b, StageKey(stage, s));
    var w := World(d, Sampling(s, stage, First(), preview, 0, b));
    ResumeIs(e, d, p, w);
    StageStep(e, World(d, p), Resume, w);
    Further(e, a, World(d, p), Resume, w);
  }

  lemma FreshBlock(d: Slots, b: Block, key: Key)
    requires Read(d, 0) == None && Read(d, 1) == None && OneStep(b).Lawful() && Small(b) && key.videoRows == 1 && key.audioRows == 0
    ensures Best(d, key) == 0 && ResumeBlock(OneStep(b), key, d) == b
  {
  }

  lemma ResumeIs(e: Engine, d: Disks, p: Process, w: World)
    requires e.Lawful() && p.Resuming? && p.m.part == 0
    requires e.Running(p.stage, p.settings, p.m, p.preview).Lawful()
    requires
      var slots, key := d.Steps(p.stage, 0), e.RunPlan(p.stage, p.settings, p.m, p.preview).key;
      var run := e.Running(p.stage, p.settings, p.m, p.preview);
      && key.videoRows == |run.init.latents| - run.cv && key.audioRows == |run.init.audio| - run.ca
      && w == World(d, Sampling(p.settings, p.stage, p.m, p.preview, Best(slots, key), ResumeBlock(run, key, slots)))
    ensures ResumeStep(e, d, p, w)
  {
    hide Engine.Lawful, Engine.Running, Engine.RunPlan, ResumeBlock, Best;
  }

  ghost function StepSlot(stage: Stage, s: Settings, b: Block): Slot {
    SlotFor(StageKey(stage, s), 1, b, 128)
  }

  /** The disks after the only step of a stage is committed. */
  ghost function Stepped(d: Disks, stage: Stage, s: Settings, b: Block): Disks {
    d.(steps := d.steps[(stage, 0) := Renamed(d.Steps(stage, 0), 0, 1, StepSlot(stage, s, b))])
  }

  lemma SteppedFacts(d: Disks, stage: Stage, s: Settings, b: Block)
    ensures
      var d' := Stepped(d, stage, s, b);
      && d'.cache == d.cache && d'.previews == d.previews
      && Read(d'.Steps(stage, 0), 1) == Some(StepSlot(stage, s, b)) && Read(d'.Steps(stage, 0), 0) == Read(d.Steps(stage, 0), 0)
      && forall other: Stage :: other != stage ==> d'.Steps(other, 0) == d.Steps(other, 0)
    ensures
      var trace := WriteTrace(d.Steps(stage, 0), 0, 1, StepSlot(stage, s, b), 128);
      LastOf(d, StepOps(d, stage, 0, trace)) == Stepped(d, stage, s, b)
  {
    hide StepSlot;
    RenamedReads(d.Steps(stage, 0), 0, 1, StepSlot(stage, s, b));
    var trace := WriteTrace(d.Steps(stage, 0), 0, 1, StepSlot(stage, s, b), 128);
    assert |trace| == 130 && trace[129] == Renamed(d.Steps(stage, 0), 0, 1, StepSlot(stage, s, b));
  }

  /** Take and commit the only step of a stage. */
  lemma Denoised(e: Engine, a: World, d: Disks, stage: Stage, preview: Option<Block>, s: Settings)
    requires e == ToneEngine() && e.Lawful() && Small(StageBlock(stage, s, preview))
    requires Reaches(e, a, World(d, Sampling(s, stage, First(), preview, 0, StageBlock(stage, s, preview))))
    ensures
      var b := StageBlock(stage, s, preview);
      Reaches(e, a, World(Stepped(d, stage, s, b), Sampling(s, stage, First(), preview, 1, b)))
  {
    FirstFacts();
    KeyIs(e, stage, s, preview);
    RunningIs(stage, s, preview);
    hide *;
    var b := StageBlock(stage, s, preview);
    var p := Sampling(s, stage, First(), preview, 0, b);
    var ops := StepOps(d, stage, 0, WriteTrace(d.Steps(stage, 0), 0, 1, StepSlot(stage, s, b), 128));
    var next := Sampling(s, stage, First(), preview, 1, b);
    var w := World(d, Busy(ops, next));
    DenoiseIs(e, d, p, b, StageKey(stage, s), w);
    StageStep(e, World(d, p), Denoise(0), w);
    Further(e, a, World(d, p), Denoise(0), w);
    WorkedOff(e, a, d, ops, next);
    SteppedFacts(d, stage, s, b);
  }

  lemma DenoiseIs(e: Engine, d: Disks, p: Process, b: Block, key: Key, w: World)
    requires e.Lawful() && p.Sampling? && p.m.part == 0 && p.k == 0 && p.block == b && e.stepBytes == 128
    requires e.Running(p.stage, p.settings, p.m, p.preview) == OneStep(b) && e.RunPlan(p.stage, p.settings, p.m, p.preview).key == key
    requires w == World(d, Busy(StepOps(d, p.stage, 0, WriteTrace(d.Steps(p.stage, 0), 0, 1, SlotFor(key, 1, b, 128), 128)),
                                Sampling(p.settings, p.stage, p.m, p.preview, 1, b)))
    ensures DenoiseStep(e, d, p, 0, w)
  {
    OneStepFacts(b);
    SavedWhole(b);
    hide Engine.Lawful, Engine.Running, Engine.RunPlan, StepOps, WriteTrace, SlotFor, Sampler.Lawful, Sampler.Saved;
  }

  lemma SavedWhole(b: Block)
    ensures OneStep(b).Saved(b) == b && OneStep(b).Resumed(b) == b
  {
  }

  /** Save the preview and go on to refine it. */
  lemma Kept(e: Engine, a: World, d: Disks, s: Settings) returns (d': Disks)
    requires e == ToneEngine() && e.Lawful()
    requires Reaches(e, a, World(d, Sampling(s, Preview, First(), None, 1, BlockOf(ToneUnder(s)))))
    ensures Reaches(e, a, World(d', Resuming(s, Main, First(), Some(BlockOf(ToneUnder(s))))))
    ensures d'.cache == d.cache && NoSteps(d', Preview) && d'.Steps(Main, 0) == d.Steps(Main, 0)
    ensures LoadPreview(e, d'.previews, First()) == Some(BlockOf(ToneUnder(s)))
  {
    FirstFacts();
    RunningIs(Preview, s, None);
    hide *;
    var b := BlockOf(ToneUnder(s));
    var p := Sampling(s, Preview, First(), None, 1, b);
    var next := Resuming(s, Main, First(), Some(b));
    var ops := KeepOps(e, d, First(), b, 0);
    var w := World(d, Busy(ops, next));
    KeepIs(e, d, p, w);
    StageStep(e, World(d, p), Keep(0), w);
    Further(e, a, World(d, p), Keep(0), w);
    WorkedOff(e, a, d, ops, next);
    KeptFacts(e, d, First(), b);
    d' := LastOf(d, ops);
  }

  lemma KeepIs(e: Engine, d: Disks, p: Process, w: World)
    requires p.Sampling? && p.stage == Preview && p.k == 1
    requires exists b :: e.Running(p.stage, p.settings, p.m, p.preview) == OneStep(b)
    requires w == World(d, Busy(KeepOps(e, d, p.m, p.block, 0), Resuming(p.settings, Main, p.m, Some(p.block))))
    ensures KeepStep(e, d, p, 0, w)
  {
    hide KeepOps, Engine.Running;
  }

  lemma KeptFacts(e: Engine, d: Disks, m: Memory, b: Block)
    requires m.part == 0
    ensures
      var d' := LastOf(d, KeepOps(e, d, m, b, 0));
      && d'.cache == d.cache && NoSteps(d', Preview) && d'.Steps(Main, 0) == d.Steps(Main, 0)
      && LoadPreview(e, d'.previews, m) == Some(b)
  {
    KeepUnfold(e, d, m, b, 0);
    var saved := PreviewOps(d, WriteTrace(d.previews, 0, 0, PreviewFile(e.PreviewIdentity(m), b, Sha256(b)), e.previewBytes));
    var d1 := LastOf(d, saved);
    assert d1.cache == d.cache && d1.steps == d.steps;
    KeptReads(d.previews, 0, 0, PreviewFile(e.PreviewIdentity(m), b, Sha256(b)), e.previewBytes);
    assert LoadPreview(e, d1.previews, m) == Some(b);
    hide KeepOps, PreviewOps, WriteTrace;
    var clear := ClearOps(d1, Preview, 0);
    assert |clear| == 2;
    assert LastOf(d, saved + clear) == clear[1];
  }

  /** A crash, and the preview file gone before the next session. */
  lemma LostPreview(e: Engine, a: World, d: Disks, p: Process)
    requires e.Lawful() && Reaches(e, a, World(d, p))
    ensures Reaches(e, a, World(d.(previews := map[]), Dead))
  {
    hide Engine.Lawful, Reaches, Step;
    OtherStep(e, World(d, p), Crash, World(d, Dead));
    Further(e, a, World(d, p), Crash, World(d, Dead));
    var d' := d.(previews := map[]);
    assert Worn(d, d');
    OtherStep(e, World(d, Dead), Decay, World(d', Dead));
    Further(e, a, World(d, Dead), Decay, World(d', Dead));
  }

  /** Resume a refinement from the step of another preview. */
  lemma ResumedStale(e: Engine, a: World, d: Disks, preview: Block, b: Block)
    requires e == ToneEngine() && e.Lawful() && Reaches(e, a, World(d, Resuming(PLAIN, Main, First(), Some(preview))))
    requires Small(preview) && Small(b) && Read(d.Steps(Main, 0), 0) == None && Read(d.Steps(Main, 0), 1) == Some(StepSlot(Main, PLAIN, b))
    ensures Reaches(e, a, World(d, Sampling(PLAIN, Main, First(), Some(preview), 1, b)))
  {
    FirstFacts();
    assert StageBlock(Main, PLAIN, Some(preview)) == preview;
    KeyIs(e, Main, PLAIN, Some(preview));
    RunningIs(Main, PLAIN, Some(preview));
    hide *;
    OneStepFacts(preview);
    var p := Resuming(PLAIN, Main, First(), Some(preview));
    StaleBlock(d.Steps(Main, 0), preview, b);
    var w := World(d, Sampling(PLAIN, Main, First(), Some(preview), 1, b));
    ResumeIs(e, d, p, w);
    StageStep(e, World(d, p), Resume, w);
    Further(e, a, World(d, p), Resume, w);
  }

  lemma StaleBlock(d: Slots, preview: Block, b: Block)
    requires Read(d, 0) == None && Read(d, 1) == Some(StepSlot(Main, PLAIN, b)) && OneStep(preview).Lawful() && Small(preview) && Small(b)
    ensures
      var key := StageKey(Main, PLAIN);
      key.videoRows == 1 && key.audioRows == 0 && Best(d, key) == 1 && ResumeBlock(OneStep(preview), key, d) == b
  {
    hide Engine.Identity, ToneEngine;
    var key := StageKey(Main, PLAIN);
    assert Level(d, 0, key) == 0 && Level(d, 1, key) == 1;
    assert StepStore.Rows(d, 1, key) == b;
    hide StageKey;
  }

  /* What it delivers. */

  /** The memory after the window of a block and a preview. */
  function After(frames: Tone, low: Tone): Memory {
    match Sampled(ToneJob(), First(), ShownWindow(frames, low))
    case Raised => First()
    case Ok(r) => r.0
  }

  /** The frames and the low tail of a window show the tones of its block and its preview. */
  lemma WindowShows(frames: Tone, low: Tone)
    ensures
      var r := Sampled(ToneJob(), First(), ShownWindow(frames, low));
      && r.Ok? && r.value.0.part == 1 && |r.value.0.frames| > 0 && r.value.0.frames[0] == [frames.Byte()]
      && r.value.0.low.Some? && |r.value.0.low.value.video| > 0 && |r.value.0.low.value.video[0]| > 0
      && r.value.0.low.value.video[0][0] == low.Byte()
  {
    JobIsLawful();
    WindowReturns(frames, low);
    FirstFacts();
    var job, m, w := ToneJob(), First(), ShownWindow(frames, low);
    ConsistentStart(job);
    ConsistentOnRun(job, m);
    var c := ClocksOf(job, m.cursor, m.audioCursor, m.high);
    PayloadNeverRaises(job, c, m.high, w);
    var p := PayloadOf(job, c, m.high, w).value;
    SampledIsNext(job, m, w, p);
    PayloadShows(job, m, w, p, frames, low);
  }

  lemma PayloadShows(job: Job, m: Memory, w: Window, p: Payload, frames: Tone, low: Tone)
    requires m == First() && w == ShownWindow(frames, low)
    requires PayloadOk(job, ClocksOf(job, m.cursor, m.audioCursor, m.high), m.high, w, p)
    ensures
      var n := Next(job, m, p);
      && n.part == 1 && |n.frames| > 0 && n.frames[0] == [frames.Byte()]
      && n.low.Some? && |n.low.value.video| > 0 && |n.low.value.video[0]| > 0 && n.low.value.video[0][0] == low.Byte()
  {
    FirstFacts();
    NextShows(job, m, w, p, frames);
    hide *;
    PreviewLow(job, m, w, p);
    LowIs(frames, low);
    CaptureIsValid(LowLatents(low), LOW_PLANE, Place(job, m).0, Place(job, m).1);
    LowByte(p.low, low);
  }

  lemma LowIs(frames: Tone, low: Tone)
    ensures ShownWindow(frames, low).low == Some(LowLatents(low))
  {
    hide LowLatents;
  }

  lemma NextShows(job: Job, m: Memory, w: Window, p: Payload, frames: Tone)
    requires m == First() && w.video == ToneWindow(frames).video
    requires PayloadOk(job, ClocksOf(job, m.cursor, m.audioCursor, m.high), m.high, w, p)
    ensures Next(job, m, p).part == 1 && |Next(job, m, p).frames| > 0 && Next(job, m, p).frames[0] == [frames.Byte()]
  {
    hide AudioOk, TailOk, LowOk, LowTail, Append, Clock.Wanted;
    FirstFacts();
    assert First().frames == [];
    hide First, ToneJob;
    assert p.video == NewVideo(job, m.high, w);
    assert NewVideo(job, m.high, w).frames == w.video.frames;
  }

  lemma LowByte(c: Context, t: Tone)
    requires Shaped(c, LOW_PLANE) && Ends(LowLatents(t).video, c.video)
    ensures |c.video| > 0 && |c.video[0]| > 0 && c.video[0][0] == t.Byte()
  {
    hide AudioShaped, Ticks;
    var row := LowLatents(t).video[0];
    assert |c.video[0]| == 7 * LOW_PLANE == |row|;
    assert row[|row| - |c.video[0]|..] == c.video[0];
    assert row[..] == row;
  }

  /** Decode and finish the window. */
  lemma Finished(e: Engine, a: World, d: Disks, frames: Tone, low: Tone) returns (w: World)
    requires e == ToneEngine() && e.Lawful() && Reaches(e, a, World(d, Sampling(PLAIN, Main, First(), Some(BlockOf(low)), 1, BlockOf(frames))))
    ensures Reaches(e, a, w) && w.process == Done(After(frames, low))
  {
    EngineIsLawful();
    FirstFacts();
    WindowShows(frames, low);
    assert Sampled(ToneJob(), First(), ShownWindow(frames, low)).value.0 == After(frames, low);
    ShownIs(frames, low);
    RunningIs(Main, PLAIN, Some(BlockOf(low)));
    hide *;
    var p := Sampling(PLAIN, Main, First(), Some(BlockOf(low)), 1, BlockOf(frames));
    var r := Sampled(ToneJob(), First(), ShownWindow(frames, low)).value;
    var ops := FinishOps(e, d, First(), r.1, true, NoFault, (0, 0, 0));
    var b := World(d, Busy(ops, Looking(PLAIN, r.0)));
    FinishIs(e, d, p, r, b);
    StageStep(e, World(d, p), Finish(true, NoFault, (0, 0, 0)), b);
    Further(e, a, World(d, p), Finish(true, NoFault, (0, 0, 0)), b);
    WorkedOff(e, a, d, ops, Looking(PLAIN, r.0));
    var d' := LastOf(d, ops);
    w := World(d', Done(r.0));
    OtherStep(e, World(d', Looking(PLAIN, r.0)), End, w);
    Further(e, a, World(d', Looking(PLAIN, r.0)), End, w);
  }

  lemma ShownIs(frames: Tone, low: Tone)
    ensures ToneEngine().Shown(BlockOf(frames), Some(BlockOf(low))) == ShownWindow(frames, low) && ToneEngine().job == ToneJob()
  {
    ToneRead(frames);
    ToneRead(low);
    hide BlockOf, ToneOf, LowLatents, ToneJob, ToneWindow;
  }

  lemma FinishIs(e: Engine, d: Disks, p: Process, r: (Memory, Payload), w: World)
    requires p.Sampling? && p.stage == Main && p.k == 1 && exists b :: e.Running(p.stage, p.settings, p.m, p.preview) == OneStep(b)
    requires Sampled(e.job, p.m, e.Shown(p.block, p.preview)) == Ok(r)
    requires w == World(d, Busy(FinishOps(e, d, p.m, r.1, true, NoFault, (0, 0, 0)), Looking(p.settings, r.0)))
    ensures FinishStep(e, d, p, true, NoFault, (0, 0, 0), w)
  {
    hide FinishOps, Engine.Running, Sampled, Engine.Shown;
  }

  /** No uninterrupted run shows one preview in its frames and another in its tail. */
  lemma NotUninterrupted(configs: seq<Config>)
    requires |configs| == 1
    ensures Uninterrupted(ToneJob(), configs) != Ok(After(Dark, Light))
  {
    var t := ToneUnder(configs[0].preview);
    assert configs[..0] == [];
    assert Uninterrupted(ToneJob(), []) == Ok(First());
    assert ToneJob().sample(configs[0], First().part, First().high, First().low) == ShownWindow(t, t);
    hide Sampled, ShownWindow, ToneJob;
    WindowShows(t, t);
    WindowShows(Dark, Light);
    assert Uninterrupted(ToneJob(), configs) == Ok(After(t, t));
  }

  /** A preview sampled from scratch, up to where its refinement resumes. */
  lemma Previewed(e: Engine, a: World, d: Disks, s: Settings) returns (d': Disks)
    requires e == ToneEngine() && e.Lawful() && s in e.known
    requires Reaches(e, a, World(d, Dead)) && Uncached(d) && NoSteps(d, Preview) && d.previews == map[]
    ensures Reaches(e, a, World(d', Resuming(s, Main, First(), Some(BlockOf(ToneUnder(s))))))
    ensures Uncached(d') && NoSteps(d', Preview) && d'.Steps(Main, 0) == d.Steps(Main, 0)
    ensures LoadPreview(e, d'.previews, First()) == Some(BlockOf(ToneUnder(s)))
  {
    var b := BlockOf(ToneUnder(s));
    assert Small(b) && StageBlock(Preview, s, None) == b;
    assert LoadPreview(e, map[], First()) == None;
    hide *;
    var d1 := Started(e, a, d, s);
    var d2 := SoughtInVain(e, a, d1, s);
    SameSteps(d, d2);
    ResumedFresh(e, a, d2, Preview, None, s);
    Denoised(e, a, d2, Preview, None, s);
    SteppedFacts(d2, Preview, s, b);
    d' := Kept(e, a, Stepped(d2, Preview, s, b), s);
    SameCache(d2, d');
    SameCache(d1, d2);
  }

  lemma SameSteps(d: Disks, d': Disks)
    requires d'.steps == d.steps
    ensures forall stage :: d'.Steps(stage, 0) == d.Steps(stage, 0)
    ensures NoSteps(d, Preview) ==> NoSteps(d', Preview)
  {
  }

  lemma SameCache(d: Disks, d': Disks)
    requires d'.cache == d.cache
    ensures Uncached(d) <==> Uncached(d')
  {
  }

  lemma Listed(e: Engine, a: World, b: World) returns (worlds: seq<World>, events: seq<Event>)
    requires e.Lawful() && Reaches(e, a, b)
    ensures Path(e, worlds, events) && worlds[0] == a && worlds[|events|] == b
  {
    hide Engine.Lawful, Step;
    worlds, events :| Path(e, worlds, events) && worlds[0] == a && worlds[|events|] == b;
  }

  /** Run out of memory after the light preview, and start again under the first settings: the light preview is found. */
  lemma Restarted(e: Engine, a: World, d: Disks, preview: Block) returns (d': Disks)
    requires e == ToneEngine() && e.Lawful() && PLAIN in e.known && Uncached(d) && LoadPreview(e, d.previews, First()) == Some(preview)
    requires Reaches(e, a, World(d, Resuming(TILED, Main, First(), Some(preview))))
    ensures Reaches(e, a, World(d', Resuming(PLAIN, Main, First(), Some(preview)))) && d'.steps == d.steps
  {
    hide *;
    var p := Resuming(TILED, Main, First(), Some(preview));
    OtherStep(e, World(d, p), Crash, World(d, Dead));
    Further(e, a, World(d, p), Crash, World(d, Dead));
    d' := Started(e, a, d, PLAIN);
    var q := Seeking(PLAIN, First());
    var w := World(d', Resuming(PLAIN, Main, First(), Some(preview)));
    SeekHit(e, d', q, preview, w);
    StageStep(e, World(d', q), Seek, w);
    Further(e, a, World(d', q), Seek, w);
  }

  lemma SeekHit(e: Engine, d: Disks, p: Process, preview: Block, w: World)
    requires p.Seeking? && LoadPreview(e, d.previews, p.m) == Some(preview) && w == World(d, Resuming(p.settings, Main, p.m, Some(preview)))
    ensures SeekStep(e, d, p, w)
  {
    hide LoadPreview;
  }

  /** The whole history: a dark preview and one refinement step of it under the first settings, a crash and the preview
      lost; a light preview under the emergency tiles, out of memory; back under the first settings, the stale step. */
  lemma MixedEnd(e: Engine, a: World, d: Disks) returns (w: World)
    requires e == ToneEngine() && e.Lawful() && PLAIN in e.known && TILED in e.known && Reaches(e, a, World(d, Dead))
    requires Uncached(d) && NoSteps(d, Preview) && NoSteps(d, Main) && d.previews == map[]
    ensures Reaches(e, a, w) && w.process == Done(After(Dark, Light))
  {
    var dark, light := BlockOf(Dark), BlockOf(Light);
    assert Small(dark) && Small(light) && StageBlock(Main, PLAIN, Some(dark)) == dark;
    assert ToneUnder(PLAIN) == Dark && ToneUnder(TILED) == Light;
    hide *;
    var d1 := Previewed(e, a, d, PLAIN);
    SameMain(d, d1);
    ResumedFresh(e, a, d1, Main, Some(dark), PLAIN);
    Denoised(e, a, d1, Main, Some(dark), PLAIN);
    var d2 := Stepped(d1, Main, PLAIN, dark);
    SteppedFacts(d1, Main, PLAIN, dark);
    LostPreview(e, a, d2, Sampling(PLAIN, Main, First(), Some(dark), 1, dark));
    var d3 := d2.(previews := map[]);
    SameCache(d1, d3);
    SteppedRest(d1, d3, dark);
    var d4 := Previewed(e, a, d3, TILED);
    var d5 := Restarted(e, a, d4, light);
    SameSteps(d4, d5);
    ResumedStale(e, a, d5, light, dark);
    w := Finished(e, a, d5, Dark, Light);
  }

  lemma SameMain(d: Disks, d': Disks)
    requires d'.Steps(Main, 0) == d.Steps(Main, 0) && NoSteps(d, Main)
    ensures NoSteps(d', Main)
  {
  }

  lemma SteppedRest(d: Disks, d': Disks, b: Block)
    requires d' == Stepped(d, Main, PLAIN, b).(previews := map[]) && NoSteps(d, Preview) && NoSteps(d, Main)
    ensures NoSteps(d', Preview) && Read(d'.Steps(Main, 0), 0) == None && Read(d'.Steps(Main, 0), 1) == Some(StepSlot(Main, PLAIN, b))
  {
    SteppedFacts(d, Main, PLAIN, b);
    hide StepSlot, Stepped;
  }

  /** A lawful engine and a finished history of it, from empty disks, that delivers no uninterrupted film; so it is not safe. */
  lemma SomeHistoryIsMixed() returns (e: Engine, worlds: seq<World>, events: seq<Event>)
    ensures e.Lawful() && History(e, worlds, events) && worlds[|events|].process.Done?
    ensures forall configs: seq<Config> :: |configs| == e.job.segments ==> Uninterrupted(e.job, configs) != Ok(worlds[|events|].process.m)
    ensures !SafeHistory(e, AtResume, worlds, events)
  {
    EngineIsLawful();
    e := ToneEngine();
    assert e.job == ToneJob();
    FreshDisksHonest(e, AtResume);
    var d0 := Disks(map[], map[], map[]);
    var a := World(d0, Dead);
    assert Uncached(d0) && NoSteps(d0, Preview) && NoSteps(d0, Main);
    assert forall t: Tone :: Small(BlockOf(t)) && StageBlock(Main, PLAIN, Some(BlockOf(t))) == BlockOf(t);
    assert ToneUnder(PLAIN) == Dark && ToneUnder(TILED) == Light;
    hide Engine.Lawful, Step, Honest, Reaches, Sampled, Uninterrupted, Uncached, NoSteps, BlockOf, ToneUnder, First, StageBlock, Small,
      ToneJob, ToneEngine, ShownWindow, Stepped;
    Here(e, a);
    var w := MixedEnd(e, a, d0);
    worlds, events := Listed(e, a, w);
    forall configs: seq<Config> | |configs| == e.job.segments
      ensures Uninterrupted(e.job, configs) != Ok(worlds[|events|].process.m)
    {
      NotUninterrupted(configs);
    }
    hide SafeHistory;
    if SafeHistory(e, AtResume, worlds, events) {
      EveryHistoryIsUninterrupted(e, worlds, events, |events|);
      assert false;
    }
  }
}
