/** An engine that meets every assumption of the main theorem, so that the theorem speaks of something. */
module Example {
  import opened Basics
  import opened Contexts
  import opened SegmentCache
  import opened Render
  import opened Prefix
  import opened StepStore
  import opened StepIdentity
  import opened Recovery
  import Clock

  function Zeros(rows: nat, width: nat): (r: Rows)
    ensures |r| == rows && Grid(r, rows, width)
  {
    seq(rows, _ => seq(width, _ => 0))
  }

  /** The latents of a 124-frame window. */
  function Still(plane: nat): (x: Latents)
    ensures Grid(x.video, 24, 7 * plane) && AudioShaped(x.audio) && Ticks(x.audio) == 207
  {
    Latents(Zeros(24, 7 * plane), Zeros(64, 828))
  }

  /** A still, silent window of 124 frames. */
  function StillWindow(): Window {
    Window(Video(seq(124, _ => []), 32, 32), seq(165600, _ => 0.0), Still(HIGH_PLANE), Some(Still(LOW_PLANE)))
  }

  function StillJob(): Job {
    Job(124, 2, true, 32, 32, "model", "request", 3, None, (_, _, _, _) => StillWindow(), _ => Zeros(24, 7 * LOW_PLANE), 128)
  }

  /** A sampler that denoises nothing, in three steps. */
  function StillSampler(): Sampler {
    Sampler("still", 3, 0, 0, 0, Block([], []), (_, b) => b, None)
  }

  ghost function StillEngine(): Engine {
    Engine(StillJob(), (_, _, _) => StillSampler(), (_, _, _, _) => StillSampler(), _ => StillWindow(), _ => Still(LOW_PLANE), 128, 128,
           iset s: Settings | |s.diffusers| == 6)
  }

  lemma StillWindowReturns()
    ensures StillJob().Returns(StillWindow())
  {
    hide Grid, AudioShaped, Ticks, Still;
    assert Clock.AudioOrigin(124) == 207;
    hide Clock.AudioOrigin;
    StillLatents(HIGH_PLANE);
    StillLatents(LOW_PLANE);
  }

  lemma StillLatents(plane: nat)
    ensures StillJob().WindowLatents(Still(plane), plane)
  {
    assert Clock.AudioOrigin(124) == 207;
    hide Clock.AudioOrigin, AudioShaped, Ticks, Zeros;
    var x := Still(plane);
    assert |x.video| == 24 && |x.video[0]| == 7 * plane;
  }

  lemma StillJobIsLawful()
    ensures StillJob().Lawful()
  {
    hide Job.Returns, Zeros;
    StillWindowReturns();
    assert Clock.FramePlan(124, 2) == Some(226);
    hide StillWindow;
  }

  /** A lawful two-pass engine whose previews do not depend on the settings exists, and its disks start honest. */
  lemma LawfulEngineExists()
    ensures StillEngine().Lawful() && StillEngine().PreviewsFixed() && Honest(StillEngine(), AtKeep, Disks(map[], map[], map[]))
  {
    StillJobIsLawful();
    EqualLengthsAreDistinct(6);
    assert StillSampler().Lawful();
    hide Job.Lawful, StillJob, StillSampler, StillWindow, Sampler.Lawful;
    assert StillEngine().Lawful();
    FreshDisksHonest(StillEngine(), AtKeep);
  }
}
