/** Every crash/restart history of the rolling render, over both of its stores. */
module Recovery {
  import opened Basics
  import opened Decimal
  import opened Disk
  import opened Contexts
  import opened SegmentCache
  import opened Render
  import opened Prefix
  import opened StepStore
  import opened StepIdentity
  import Clock

  /** The stages of a window: the only or the refining pass, and the low-resolution preview before it. */
  datatype Stage = Main | Preview

  /** Where a lawful sampler ends. */
  ghost function EndOf(s: Sampler): Block
    requires s.Lawful()
  {
    s.Trajectory(s.total)
  }

  /** What a preview file is saved for. */
  datatype PreviewKey = PreviewKey(request: string, part: nat, tail: Option<Digest<seq<Byte>>>)

  /**
   * The render together with its step-by-step samplers: the window of a job is the decoded end of the trajectory
   * its sampler follows under the same settings, part and tail, from the preview if there is one; the latents of
   * the preview come with it. `known` are the settings its processes ever run under, no two of the same text.
   */
  datatype Engine = Engine(
    job: Job, previewer: (Settings, nat, Option<Context>) -> Sampler,
    sampler: (Settings, nat, Option<Context>, Option<Block>) -> Sampler,
    decode: Block -> Window, latents: Block -> Latents, stepBytes: nat, previewBytes: nat, known: iset<Settings>)
  {
    ghost predicate SamplersLawful() {
      && (forall settings, part, low :: previewer(settings, part, low).Lawful())
      && (forall settings, part, high, preview :: sampler(settings, part, high, preview).Lawful())
    }

    /** The preview of a part sampled under some settings: none in a single pass. */
    ghost function PreviewUnder(settings: Settings, part: nat, low: Option<Context>): Option<Block>
      requires SamplersLawful()
    {
      if job.twoPass then Some(EndOf(previewer(settings, part, low))) else None
    }

    /** The window of a denoised block and the preview it was refined from. */
    function Shown(block: Block, preview: Option<Block>): Window {
      decode(block).(low := if preview.None? then None else Some(latents(preview.value)))
    }

    ghost predicate Lawful() {
      && job.Lawful() && 128 <= stepBytes <= MAX_FILE_BYTES && SamplersLawful() && Distinct(known)
      && (forall config: Config, part, high, low :: job.sample(config, part, high, low)
           == Shown(EndOf(sampler(config.refine, part, high, PreviewUnder(config.preview, part, low))), PreviewUnder(config.preview, part, low)))
    }

    /** Previews do not depend on the settings they are sampled under. */
    ghost predicate PreviewsFixed()
      requires SamplersLawful()
    {
      forall s1, s2, part, low :: EndOf(previewer(s1, part, low)) == EndOf(previewer(s2, part, low))
    }

    /** The sampler of a stage of the window after m, given the preview at hand. */
    function Running(stage: Stage, settings: Settings, m: Memory, preview: Option<Block>): Sampler {
      if stage.Preview? then previewer(settings, m.part, m.low) else sampler(settings, m.part, m.high, preview)
    }

    /** What the step checkpoints of a stage are bound to; the preview is not part of it. */
    function Identity(stage: Stage, settings: Settings, m: Memory): StepIdentity.Identity {
      Sha256(StageStream(job.request, StageName(stage, m.part), job.model, TailDigest(if stage.Preview? then m.low else m.high), settings))
    }

    function StageName(stage: Stage, part: nat): string {
      "temporal_" + Number(part) + (if stage.Preview? then "_preview" else if job.twoPass then "_refine" else "")
    }

    ghost function RunPlan(stage: Stage, settings: Settings, m: Memory, preview: Option<Block>): StepStore.Plan
      requires Lawful()
    {
      PlanOf(Running(stage, settings, m, preview), Identity(stage, settings, m), stepBytes)
    }

    function PreviewIdentity(m: Memory): Digest<PreviewKey> {
      Sha256(PreviewKey(job.request, m.part, TailDigest(m.low)))
    }
  }

  function TailDigest(tail: Option<Context>): Option<Digest<seq<Byte>>> {
    if tail.None? then None else Some(Sha256(Stream(tail.value)))
  }

  /** A saved preview: its identity, its latents and their digest. */
  datatype PreviewFile = PreviewFile(identity: Digest<PreviewKey>, block: Block, payload: Digest<Block>)

  type Previews = Dir<nat, PreviewFile>

  /** What a window is cached for. */
  function InputsFor(job: Job, m: Memory): Inputs {
    Inputs(job.model, Sha256(StageKey(job.request, job.refineSteps, m.part)), ContextHash(m.high, m.low),
           job.SourceFrames() + m.cursor + NewFrames(job, m.high))
  }

  datatype Disks = Disks(cache: Cache, steps: map<(Stage, nat), Slots>, previews: Previews)
  {
    function Steps(stage: Stage, part: nat): Slots { if (stage, part) in steps then steps[(stage, part)] else map[] }
  }

  /* Honest disks. */

  ghost predicate MatchesSample(job: Job, m: Memory, config: Config, marker: Marker) {
    var r := Sampled(job, m, job.sample(config, m.part, m.high, m.low));
    r.Ok? && marker == MarkerOf(r.value.1, InputsFor(job, m), job.stateBytes)
  }

  /** Whoever may ask for this marker would get a window sampled for exactly his predecessor. */
  ghost predicate HonestMarker(job: Job, part: nat, marker: Marker) {
    forall m :: Valid(job, m) && m.part == part && part < job.segments && marker.inputs == InputsFor(job, m) ==>
      exists config :: MatchesSample(job, m, config, marker)
  }

  /** The block may be the preview of the window after m, under some settings. */
  ghost predicate Possible(e: Engine, m: Memory, preview: Option<Block>)
    requires e.Lawful()
  {
    exists settings :: preview == e.PreviewUnder(settings, m.part, m.low)
  }

  /** A preview file passes its own payload digest. */
  predicate Sealed(f: PreviewFile) {
    f.payload == Sha256(f.block)
  }

  /** `load_preview` for the window after m. */
  function LoadPreview(e: Engine, d: Previews, m: Memory): Option<Block> {
    match Read(d, m.part)
    case None => None
    case Some(f) => if Sealed(f) && f.identity == e.PreviewIdentity(m) then Some(f.block) else None
  }

  /** Previews that differ with the settings: then a refinement has to start from the right one. */
  ghost predicate Loose(e: Engine)
    requires e.Lawful()
  {
    e.job.twoPass && !e.PreviewsFixed()
  }

  /** Where a history takes care that no refinement goes on from steps of another preview: when a preview is saved, or
      when a refinement resumes. */
  datatype Guard = AtKeep | AtResume

  /** What a refinement of the window after m starts from: no preview in a single pass, otherwise the saved one,
      or any possible one where they are all the same. */
  ghost predicate Current(e: Engine, d: Previews, m: Memory, preview: Option<Block>)
    requires e.Lawful()
  {
    Possible(e, m, preview) && (Loose(e) ==> LoadPreview(e, d, m) == preview)
  }

  /** What a stage may be resumed with, as far as the disks have to answer for it. */
  ghost predicate Held(e: Engine, g: Guard, d: Previews, stage: Stage, m: Memory, preview: Option<Block>)
    requires e.Lawful()
  {
    if stage.Preview? then preview.None? else Current(e, d, m, preview) && (Loose(e) ==> g.AtKeep?)
  }

  /** What a process carries through a stage. */
  ghost predicate Carried(e: Engine, g: Guard, d: Previews, stage: Stage, m: Memory, preview: Option<Block>)
    requires e.Lawful()
  {
    if stage.Preview? then preview.None? else Possible(e, m, preview) && (Loose(e) && g.AtKeep? ==> LoadPreview(e, d, m) == preview)
  }

  /** The disks answer for the slots of a stage. */
  ghost predicate Answered(e: Engine, g: Guard, stage: Stage)
    requires e.Lawful()
  {
    stage.Main? && Loose(e) ==> g.AtKeep?
  }

  lemma HeldIsCarried(e: Engine, g: Guard, d: Previews, stage: Stage, m: Memory, preview: Option<Block>)
    requires e.Lawful()
    ensures Held(e, g, d, stage, m, preview) <==> Carried(e, g, d, stage, m, preview) && Answered(e, g, stage)
  {
    hide Engine.Lawful, Possible, Loose, LoadPreview;
  }

  /** The slots of a stage tell the truth to everyone who may resume it with the previews on disk. */
  ghost predicate HonestSlots(e: Engine, g: Guard, stage: Stage, part: nat, d: Slots, previews: Previews)
    requires e.Lawful()
  {
    forall settings, m, preview :: settings in e.known && Valid(e.job, m) && m.part == part && Held(e, g, previews, stage, m, preview) ==>
      Truthful(d, e.RunPlan(stage, settings, m, preview))
  }

  /** Whoever may accept this preview file gets a preview of his own part and tail. */
  ghost predicate HonestPreview(e: Engine, part: nat, f: PreviewFile)
    requires e.Lawful()
  {
    forall m :: Valid(e.job, m) && m.part == part && f.identity == e.PreviewIdentity(m) ==> Possible(e, m, Some(f.block))
  }

  ghost predicate HonestPreviews(e: Engine, d: Previews)
    requires e.Lawful()
  {
    forall part, f :: Read(d, part) == Some(f) && Sealed(f) && e.job.twoPass ==> HonestPreview(e, part, f)
  }

  /** The state file passes its own payload digest. */
  predicate Intact(marker: Marker) {
    marker.payloadSha == Sha256(marker.tensors)
  }

  ghost predicate HonestCache(job: Job, d: Cache) {
    forall part, marker :: Read(d, State(part)) == Some(StateContent(marker)) && Intact(marker) ==> HonestMarker(job, part, marker)
  }

  ghost predicate Honest(e: Engine, g: Guard, d: Disks)
    requires e.Lawful()
  {
    && HonestCache(e.job, d.cache) && HonestPreviews(e, d.previews)
    && forall stage, part :: HonestSlots(e, g, stage, part, d.Steps(stage, part), d.previews)
  }

  /** Two valid memories about to sample the same part for the same inputs agree on everything a window depends on. */
  lemma SameInputs(job: Job, a: Memory, b: Memory)
    requires job.Lawful() && Valid(job, a) && Valid(job, b) && a.part == b.part
    requires InputsFor(job, a) == InputsFor(job, b)
    ensures a.high == b.high && a.low == b.low && a.cursor == b.cursor && a.audioCursor == b.audioCursor
  {
    ValidConsistent(job, a);
    ValidConsistent(job, b);
    ConsistentOnRun(job, a);
    ConsistentOnRun(job, b);
    hide Job.Lawful, Valid, Clock.Emitted, Clock.AudioOrigin, Clock.Aligned, OnRun, PlanCursor, Predecessor, ValidPair, Concat;
    PairStreamInjective(a.high, a.low, b.high, b.low);
  }

  lemma MarkerIsHonest(job: Job, m: Memory, config: Config, marker: Marker)
    requires job.Lawful() && Valid(job, m) && m.part < job.segments && MatchesSample(job, m, config, marker)
    ensures HonestMarker(job, m.part, marker)
  {
    forall other | Valid(job, other) && other.part == m.part && marker.inputs == InputsFor(job, other)
      ensures MatchesSample(job, other, config, marker)
    {
      hide Valid;
      SameInputs(job, m, other);
      SamePayload(job, m, other, config);
    }
  }

  lemma SamePayload(job: Job, a: Memory, b: Memory, config: Config)
    requires job.Lawful() && Valid(job, a) && Valid(job, b) && a.part == b.part < job.segments
    requires a.high == b.high && a.low == b.low && a.cursor == b.cursor && a.audioCursor == b.audioCursor
    ensures
      var ra, rb := Sampled(job, a, job.sample(config, a.part, a.high, a.low)), Sampled(job, b, job.sample(config, b.part, b.high, b.low));
      ra.Ok? && rb.Ok? && ra.value.1 == rb.value.1
  {
    hide *;
    ValidConsistent(job, a);
    ValidConsistent(job, b);
    SampledIsConsistent(job, a, config);
    SampledIsConsistent(job, b, config);
  }

  /** A window loaded from an honest cache leads to the memory of a sampled one. */
  lemma HitIsValid(job: Job, d: Cache, m: Memory, p: Payload)
    requires job.Lawful() && Valid(job, m) && m.part < job.segments && HonestCache(job, d)
    requires Load(d, m.part, InputsFor(job, m), NewFrames(job, m.high)) == Ok(p)
    ensures Recovered(job, m, p).Ok? && Valid(job, Recovered(job, m, p).value) && Recovered(job, m, p).value.part == m.part + 1
  {
    var state := Read(d, State(m.part));
    var marker := state.value.marker;
    assert marker.inputs == InputsFor(job, m);
    assert HonestMarker(job, m.part, marker);
    var config :| MatchesSample(job, m, config, marker);
    var r := Sampled(job, m, job.sample(config, m.part, m.high, m.low)).value;
    assert state == Some(StateContent(MarkerOf(r.1, InputsFor(job, m), job.stateBytes)));
    hide *;
    ValidConsistent(job, m);
    SampledIsConsistent(job, m, config);
    TailOrigins(job, m, config);
    LoadIsCommitted(d, m.part, r.1, InputsFor(job, m), job.stateBytes, InputsFor(job, m), NewFrames(job, m.high));
    RecoveredIsSampled(job, m, config);
    ValidNext(job, m, config);
  }

  lemma TailOrigins(job: Job, m: Memory, config: Config)
    requires job.Lawful() && Consistent(job, m) && m.part < job.segments
    ensures
      var r := Sampled(job, m, job.sample(config, m.part, m.high, m.low));
      r.Ok? && r.value.1.low.frameOrigin == r.value.1.high.frameOrigin && r.value.1.low.audioOrigin == r.value.1.high.audioOrigin
  {
    hide *;
    SampledIsConsistent(job, m, config);
    var w := job.sample(config, m.part, m.high, m.low);
    LowFollowsHigh(job, ClocksOf(job, m.cursor, m.audioCursor, m.high), m.high, w, Sampled(job, m, w).value.1);
  }

  lemma LowFollowsHigh(job: Job, c: Clock.Clocks, high: Option<Context>, w: Window, p: Payload)
    requires PayloadOk(job, c, high, w, p)
    ensures p.low.frameOrigin == p.high.frameOrigin && p.low.audioOrigin == p.high.audioOrigin
  {
  }

  /* Every disk operation keeps the disks honest. */

  function WriteFor(job: Job, m: Memory, p: Payload, ids: (nat, nat, nat)): Write {
    Write(m.part, p, InputsFor(job, m), job.stateBytes, ids)
  }

  lemma UncommittedHonest(job: Job, d: Cache, d': Cache, part: nat)
    requires HonestCache(job, d) && Uncommitted(d, d', part)
    ensures HonestCache(job, d')
  {
    hide HonestMarker;
    forall q, marker | Read(d', State(q)) == Some(StateContent(marker)) && Intact(marker)
      ensures HonestMarker(job, q, marker)
    {
      assert State(q).part == q;
      assert Read(d, State(q)) == Some(StateContent(marker));
    }
  }

  lemma CommittedHonest(job: Job, d: Cache, w: Write)
    requires HonestCache(job, d) && HonestMarker(job, w.part, MarkerOf(w.payload, w.inputs, w.stateBytes))
    ensures HonestCache(job, w.Committed(d))
  {
    CommittedReads(d, w);
    hide HonestMarker, Write.Committed;
    forall q, marker | Read(w.Committed(d), State(q)) == Some(StateContent(marker)) && Intact(marker)
      ensures HonestMarker(job, q, marker)
    {
      assert State(q).part == q;
      if q != w.part {
        assert Read(d, State(q)) == Some(StateContent(marker));
      }
    }
  }

  lemma SaveHonest(job: Job, d: Cache, w: Write, fault: Fault, i: nat)
    requires HonestCache(job, d) && HonestMarker(job, w.part, MarkerOf(w.payload, w.inputs, w.stateBytes))
    requires i < |SaveTrace(d, w, fault)|
    ensures HonestCache(job, SaveTrace(d, w, fault)[i])
  {
    SaveUncommitted(d, w, fault);
    hide SaveTrace, HonestCache, HonestMarker, Write.Committed, Uncommitted;
    var t := SaveTrace(d, w, fault);
    if fault.NoFault? && i == |t| - 1 {
      CommittedHonest(job, d, w);
    } else {
      assert fault.NoFault? ==> t[..|t| - 1][i] == t[i];
      assert Uncommitted(d, t[i], w.part);
      UncommittedHonest(job, d, t[i], w.part);
    }
  }

  lemma DiscardHonest(job: Job, d: Cache, part: nat, i: nat)
    requires HonestCache(job, d) && i < 3
    ensures HonestCache(job, DiscardTrace(d, part)[i])
  {
    ClearedUncommitted(d, part);
    UncommittedUnlink(d, Unlinked(d, State(part)), part, Rgb(part));
    UncommittedUnlink(d, Unlinked(Unlinked(d, State(part)), Rgb(part)), part, PcmData(part));
    hide HonestCache;
    UncommittedHonest(job, d, DiscardTrace(d, part)[i], part);
  }

  /** The tails of a valid memory are on the clock. */
  lemma ValidOnClock(job: Job, m: Memory)
    requires job.Lawful() && Valid(job, m)
    ensures m.high.Some? ==> OnClock(m.high.value, HIGH_PLANE)
    ensures m.low.Some? ==> OnClock(m.low.value, LOW_PLANE)
  {
    ValidConsistent(job, m);
    hide Job.Lawful, Valid, Clock.Emitted, Clock.AudioOrigin, Clock.Aligned, PlanCursor, ValidPair, Concat, Shaped, Digits;
  }

  lemma TailDigestInjective(a: Option<Context>, b: Option<Context>, plane: nat)
    requires (a.Some? ==> OnClock(a.value, plane)) && (b.Some? ==> OnClock(b.value, plane)) && TailDigest(a) == TailDigest(b)
    ensures a == b
  {
    hide OnClock, Stream;
    if a.Some? && b.Some? {
      PrefixStreamInjective(a.value, b.value, plane);
    }
  }

  /** Fixed previews make the low-resolution latents of a window independent of the settings. */
  lemma FixedLow(e: Engine)
    requires e.Lawful() && e.PreviewsFixed()
    ensures e.job.PreviewsFixed()
  {
    hide Job.Lawful, Sampler.Lawful, EndOf;
    forall c1: Config, c2: Config, part: nat, h1, h2, low
      ensures e.job.sample(c1, part, h1, low).low == e.job.sample(c2, part, h2, low).low
    {
      assert e.PreviewUnder(c1.preview, part, low) == e.PreviewUnder(c2.preview, part, low);
    }
  }

  /** Two refinements of one part under the same previews on disk start from the same preview, if from the same tail. */
  lemma SameCurrent(e: Engine, d: Previews, a: Memory, p: Option<Block>, b: Memory, q: Option<Block>)
    requires e.Lawful() && Valid(e.job, a) && Valid(e.job, b) && a.part == b.part
    requires Current(e, d, a, p) && Current(e, d, b, q)
    ensures p == q
  {
    if e.job.twoPass && e.PreviewsFixed() {
      FixedLowTail(e, a, b);
    }
    hide Engine.Lawful, Valid, EndOf, Engine.PreviewIdentity;
    var s :| p == e.PreviewUnder(s, a.part, a.low);
    var t :| q == e.PreviewUnder(t, b.part, b.low);
    assert e.PreviewsFixed() ==> e.PreviewUnder(s, a.part, a.low) == e.PreviewUnder(t, a.part, a.low);
  }

  lemma FixedLowTail(e: Engine, a: Memory, b: Memory)
    requires e.Lawful() && e.job.twoPass && e.PreviewsFixed() && Valid(e.job, a) && Valid(e.job, b) && a.part == b.part
    ensures a.low == b.low
  {
    FixedLow(e);
    var x: seq<Config> :| |x| == a.part <= e.job.segments && Uninterrupted(e.job, x) == Ok(a);
    var y: seq<Config> :| |y| == b.part <= e.job.segments && Uninterrupted(e.job, y) == Ok(b);
    assert e.job.Lawful();
    hide *;
    SameLowTail(e.job, x, y);
  }

  /** Checkpoints of different stages, tails or settings never pass for one another; where they do, the plans agree. */
  lemma IdentityBindsPlan(
    e: Engine, g: Guard, d: Previews, stage: Stage, s1: Settings, m1: Memory, p1: Option<Block>, s2: Settings, m2: Memory, p2: Option<Block>)
    requires e.Lawful() && s1 in e.known && s2 in e.known && Valid(e.job, m1) && Valid(e.job, m2) && m1.part == m2.part
    requires Held(e, g, d, stage, m1, p1) && Held(e, g, d, stage, m2, p2)
    requires e.Identity(stage, s1, m1) == e.Identity(stage, s2, m2)
    ensures e.RunPlan(stage, s1, m1, p1) == e.RunPlan(stage, s2, m2, p2)
  {
    assert e.job.Lawful();
    ValidOnClock(e.job, m1);
    ValidOnClock(e.job, m2);
    if stage.Main? {
      SameCurrent(e, d, m1, p1, m2, p2);
    }
    assert Distinct(e.known);
    hide Valid, OnClock, Stream, Job.Lawful, PlanOf, Engine.Lawful, Current, StageStream;
    var t1, t2 := if stage.Preview? then m1.low else m1.high, if stage.Preview? then m2.low else m2.high;
    StageStreamInjective(e.StageName(stage, m1.part), e.job.model, e.job.request, TailDigest(t1), s1, e.job.request, TailDigest(t2), s2);
    TailDigestInjective(t1, t2, if stage.Preview? then LOW_PLANE else HIGH_PLANE);
  }

  /** Replacing one slot by a file that is foreign to the plan, or tells its truth. */
  lemma TruthfulUpdate(d: Slots, d': Slots, p: StepStore.Plan, n: nat)
    requires Truthful(d, p) && n < 2 && Read(d', 1 - n) == Read(d, 1 - n)
    requires Level(d', n, p.key) == 0
          || (Level(d', n, p.key) % 2 == n && StepStore.Rows(d', n, p.key) == p.truth(Level(d', n, p.key)))
    ensures Truthful(d', p)
  {
    assert Level(d', 1 - n, p.key) == Level(d, 1 - n, p.key);
    assert Level(d, 1 - n, p.key) > 0 ==> StepStore.Rows(d', 1 - n, p.key) == StepStore.Rows(d, 1 - n, p.key);
    hide Level, StepStore.Rows;
  }

  lemma CommitTruthful(
    e: Engine, g: Guard, previews: Previews, stage: Stage, d: Slots, d': Slots,
    s1: Settings, m1: Memory, p1: Option<Block>, k: nat, s2: Settings, m2: Memory, p2: Option<Block>)
    requires e.Lawful() && s1 in e.known && s2 in e.known && Valid(e.job, m1) && Valid(e.job, m2) && m1.part == m2.part
    requires Held(e, g, previews, stage, m1, p1) && Held(e, g, previews, stage, m2, p2)
    requires Truthful(d, e.RunPlan(stage, s2, m2, p2))
    requires Read(d', (k + 1) % 2) == Some(e.RunPlan(stage, s1, m1, p1).Slot(k + 1))
    requires Read(d', 1 - (k + 1) % 2) == Read(d, 1 - (k + 1) % 2)
    ensures Truthful(d', e.RunPlan(stage, s2, m2, p2))
  {
    hide *;
    var p, q := e.RunPlan(stage, s1, m1, p1), e.RunPlan(stage, s2, m2, p2);
    var n := (k + 1) % 2;
    PlanIdentity(e, stage, s1, m1, p1);
    PlanIdentity(e, stage, s2, m2, p2);
    if p.key == q.key {
      IdentityBindsPlan(e, g, previews, stage, s1, m1, p1, s2, m2, p2);
      SlotTruth(p, d', n, k + 1);
    } else {
      ForeignSlot(p, q, d', n, k + 1);
    }
    TruthfulUpdate(d, d', q, n);
  }

  lemma PlanIdentity(e: Engine, stage: Stage, settings: Settings, m: Memory, preview: Option<Block>)
    requires e.Lawful()
    ensures e.RunPlan(stage, settings, m, preview).key.identity == e.Identity(stage, settings, m)
  {
    hide Engine.Identity;
  }

  lemma SlotTruth(p: StepStore.Plan, d: Slots, n: nat, step: nat)
    requires Read(d, n) == Some(p.Slot(step)) && n == step % 2
    ensures Level(d, n, p.key) == 0 || (Level(d, n, p.key) == step && StepStore.Rows(d, n, p.key) == p.truth(step))
  {
  }

  lemma ForeignSlot(p: StepStore.Plan, q: StepStore.Plan, d: Slots, n: nat, step: nat)
    requires Read(d, n) == Some(p.Slot(step)) && p.key != q.key
    ensures Level(d, n, q.key) == 0
  {
  }

  /** Every directory of a step commit keeps the slots honest for everyone who may read them. */
  lemma CommitHonest(e: Engine, g: Guard, previews: Previews, stage: Stage, d: Slots, settings: Settings, m: Memory, preview: Option<Block>, k: nat, id: nat, i: nat)
    requires e.Lawful() && settings in e.known && Valid(e.job, m) && Held(e, g, previews, stage, m, preview)
    requires HonestSlots(e, g, stage, m.part, d, previews) && i < e.stepBytes + 2
    ensures HonestSlots(e, g, stage, m.part,
      WriteTrace(d, id, (k + 1) % 2, e.RunPlan(stage, settings, m, preview).Slot(k + 1), e.stepBytes)[i], previews)
  {
    hide Engine.Lawful, Valid, Held, Engine.RunPlan, Truthful, WriteTrace;
    WriteLength(d, id, (k + 1) % 2, e.RunPlan(stage, settings, m, preview).Slot(k + 1), e.stepBytes);
    forall s2, m2, p2 | s2 in e.known && Valid(e.job, m2) && m2.part == m.part && Held(e, g, previews, stage, m2, p2)
      ensures Truthful(WriteTrace(d, id, (k + 1) % 2, e.RunPlan(stage, settings, m, preview).Slot(k + 1), e.stepBytes)[i], e.RunPlan(stage, s2, m2, p2))
    {
      assert Truthful(d, e.RunPlan(stage, s2, m2, p2));
      CommitTruthfulAt(e, g, previews, stage, d, settings, m, preview, k, id, i, s2, m2, p2);
    }
  }

  lemma CommitTruthfulAt(
    e: Engine, g: Guard, previews: Previews, stage: Stage, d: Slots, s1: Settings, m1: Memory, p1: Option<Block>,
    k: nat, id: nat, i: nat, s2: Settings, m2: Memory, p2: Option<Block>)
    requires e.Lawful() && s1 in e.known && s2 in e.known && Valid(e.job, m1) && Valid(e.job, m2) && m1.part == m2.part && i < e.stepBytes + 2
    requires Held(e, g, previews, stage, m1, p1) && Held(e, g, previews, stage, m2, p2)
    requires Truthful(d, e.RunPlan(stage, s2, m2, p2))
    ensures Truthful(WriteTrace(d, id, (k + 1) % 2, e.RunPlan(stage, s1, m1, p1).Slot(k + 1), e.stepBytes)[i], e.RunPlan(stage, s2, m2, p2))
  {
    hide *;
    var f := e.RunPlan(stage, s1, m1, p1).Slot(k + 1);
    WriteLength(d, id, (k + 1) % 2, f, e.stepBytes);
    var d' := WriteTrace(d, id, (k + 1) % 2, f, e.stepBytes)[i];
    WriteIsAtomic(d, id, (k + 1) % 2, f, e.stepBytes, i, 0);
    WriteIsAtomic(d, id, (k + 1) % 2, f, e.stepBytes, i, 1);
    if i == e.stepBytes + 1 {
      CommitTruthful(e, g, previews, stage, d, d', s1, m1, p1, k, s2, m2, p2);
    } else {
      SameReads(d, d', e.RunPlan(stage, s2, m2, p2));
    }
  }

  lemma WriteLength(d: Slots, id: nat, n: nat, f: Slot, size: nat)
    ensures |WriteTrace(d, id, n, f, size)| == size + 2
  {
  }

  /** A slot that vanished or cannot be accepted keeps the slots honest. */
  lemma DecayHonest(e: Engine, g: Guard, stage: Stage, part: nat, d: Slots, d': Slots, previews: Previews)
    requires e.Lawful() && HonestSlots(e, g, stage, part, d, previews)
    requires forall n :: 0 <= n < 2 ==> Read(d', n) == Read(d, n) || Unreadable(Read(d', n))
    ensures HonestSlots(e, g, stage, part, d', previews)
  {
    forall settings, m, preview | settings in e.known && Valid(e.job, m) && m.part == part && Held(e, g, previews, stage, m, preview)
      ensures Truthful(d', e.RunPlan(stage, settings, m, preview))
    {
      var p := e.RunPlan(stage, settings, m, preview);
      assert Truthful(d, p);
      hide Engine.Lawful, Engine.RunPlan, Truthful, HonestSlots, Valid, Held;
      forall n | 0 <= n < 2
        ensures Level(d', n, p.key) == 0 || Read(d', n) == Read(d, n)
      {
        assert Read(d', n) == Read(d, n) || Unreadable(Read(d', n));
      }
      DecayedTruthful(d, d', p);
    }
  }

  /** Every preview that can be accepted could be accepted before. */
  ghost predicate NoNewPreviews(e: Engine, d: Previews, d': Previews) {
    forall m :: LoadPreview(e, d', m) == None || LoadPreview(e, d', m) == LoadPreview(e, d, m)
  }

  lemma FewerPreviewsHonest(e: Engine, g: Guard, stage: Stage, part: nat, d: Slots, previews: Previews, previews': Previews)
    requires e.Lawful() && HonestSlots(e, g, stage, part, d, previews) && NoNewPreviews(e, previews, previews')
    ensures HonestSlots(e, g, stage, part, d, previews')
  {
    forall settings, m, preview | settings in e.known && Valid(e.job, m) && m.part == part && Held(e, g, previews', stage, m, preview)
      ensures Truthful(d, e.RunPlan(stage, settings, m, preview))
    {
      assert Held(e, g, previews, stage, m, preview) by { FewerPreviewsHeld(e, g, stage, m, preview, previews, previews'); }
    }
  }

  lemma FewerPreviewsHeld(e: Engine, g: Guard, stage: Stage, m: Memory, preview: Option<Block>, d: Previews, d': Previews)
    requires e.Lawful() && NoNewPreviews(e, d, d') && Held(e, g, d', stage, m, preview)
    ensures Held(e, g, d, stage, m, preview)
  {
    hide Engine.Lawful, LoadPreview;
    if stage.Main? && e.job.twoPass {
      PossibleIsSome(e, m, preview);
    }
  }

  lemma PossibleIsSome(e: Engine, m: Memory, preview: Option<Block>)
    requires e.Lawful() && Possible(e, m, preview)
    ensures preview.Some? <==> e.job.twoPass
  {
    hide Engine.Lawful;
  }

  /** Whoever accepts a preview sampled for m has the same tail, so he might have sampled it. */
  lemma PreviewIsHonest(e: Engine, m: Memory, f: PreviewFile)
    requires e.Lawful() && Valid(e.job, m) && f.identity == e.PreviewIdentity(m) && Possible(e, m, Some(f.block))
    ensures HonestPreview(e, m.part, f)
  {
    forall other | Valid(e.job, other) && other.part == m.part && f.identity == e.PreviewIdentity(other)
      ensures Possible(e, other, Some(f.block))
    {
      SameLow(e, m, other);
    }
  }

  lemma SameLow(e: Engine, a: Memory, b: Memory)
    requires e.Lawful() && Valid(e.job, a) && Valid(e.job, b) && e.PreviewIdentity(a) == e.PreviewIdentity(b)
    ensures a.low == b.low && a.part == b.part
  {
    assert e.job.Lawful();
    ValidOnClock(e.job, a);
    ValidOnClock(e.job, b);
    hide Valid, OnClock, Engine.Lawful, Job.Lawful, TailDigest;
    TailDigestInjective(a.low, b.low, LOW_PLANE);
  }

  lemma PreviewWriteHonest(e: Engine, d: Previews, m: Memory, f: PreviewFile, id: nat, i: nat)
    requires e.Lawful() && HonestPreviews(e, d) && Valid(e.job, m) && f.identity == e.PreviewIdentity(m) && Possible(e, m, Some(f.block))
    requires i < e.previewBytes + 2
    ensures HonestPreviews(e, WriteTrace(d, id, m.part, f, e.previewBytes)[i])
    ensures i <= e.previewBytes ==> NoNewPreviews(e, d, WriteTrace(d, id, m.part, f, e.previewBytes)[i])
  {
    PreviewIsHonest(e, m, f);
    hide Engine.Lawful, HonestPreview, Valid, WriteTrace, Possible, Engine.PreviewIdentity;
    var d' := WriteTrace(d, id, m.part, f, e.previewBytes)[i];
    forall part: nat
      ensures Read(d', part) == if i == e.previewBytes + 1 && part == m.part then Some(f) else Read(d, part)
    {
      WriteIsAtomic(d, id, m.part, f, e.previewBytes, i, part);
    }
  }

  /** The part's refinement slots hold no step that a refinement of this preview, under any settings, would accept. */
  ghost predicate KeepFree(e: Engine, d: Slots, m: Memory, block: Block)
    requires e.Lawful()
  {
    forall settings, m' :: settings in e.known && Valid(e.job, m') && m'.part == m.part && m'.low == m.low ==> Best(d, e.RunPlan(Main, settings, m', Some(block)).key) == 0
  }

  /** Every step the part's refinement slots would offer to a refinement of this preview is a step of it. */
  ghost predicate OwnSteps(e: Engine, d: Slots, m: Memory, block: Block)
    requires e.Lawful()
  {
    forall settings, m' :: settings in e.known && Valid(e.job, m') && m'.part == m.part && m'.low == m.low ==> Truthful(d, e.RunPlan(Main, settings, m', Some(block)))
  }

  /** Slots without a step to offer have none of another preview. */
  lemma FreeIsOwn(e: Engine, d: Slots, m: Memory, block: Block)
    requires e.Lawful() && KeepFree(e, d, m, block)
    ensures OwnSteps(e, d, m, block)
  {
    hide Engine.Lawful, Engine.RunPlan, Best, Truthful, Valid;
    forall settings, m' | settings in e.known && Valid(e.job, m') && m'.part == m.part && m'.low == m.low
      ensures Truthful(d, e.RunPlan(Main, settings, m', Some(block)))
    {
      NoStepTruthful(d, e.RunPlan(Main, settings, m', Some(block)));
    }
  }

  /** A new preview over slots that hold no step of another one is harmless. */
  lemma NewPreviewHonest(e: Engine, g: Guard, d: Slots, stage: Stage, part: nat, previews: Previews, previews': Previews, m: Memory, block: Block)
    requires e.Lawful() && HonestSlots(e, g, stage, part, d, previews) && Valid(e.job, m)
    requires forall q: nat :: q != m.part ==> Read(previews', q) == Read(previews, q)
    requires Read(previews', m.part) == Some(PreviewFile(e.PreviewIdentity(m), block, Sha256(block)))
    requires stage == Main && part == m.part && Loose(e) && g.AtKeep? ==> OwnSteps(e, d, m, block)
    ensures HonestSlots(e, g, stage, part, d, previews')
  {
    forall settings, m', preview | settings in e.known && Valid(e.job, m') && m'.part == part && Held(e, g, previews', stage, m', preview)
      ensures Truthful(d, e.RunPlan(stage, settings, m', preview))
    {
      if stage == Main && part == m.part && Loose(e) {
        PossibleIsSome(e, m', preview);
        assert LoadPreview(e, previews', m') == preview;
        SameLow(e, m, m');
        assert preview == Some(block);
      } else {
        assert Held(e, g, previews, stage, m', preview) by { OtherPartHeld(e, g, stage, m', preview, previews, previews', m.part); }
      }
    }
  }

  lemma OtherPartHeld(e: Engine, g: Guard, stage: Stage, m: Memory, preview: Option<Block>, d: Previews, d': Previews, part: nat)
    requires e.Lawful() && Held(e, g, d', stage, m, preview)
    requires forall q: nat :: q != part ==> Read(d', q) == Read(d, q)
    requires stage.Main? && m.part == part ==> !Loose(e)
    ensures Held(e, g, d, stage, m, preview)
  {
    hide Engine.Lawful, Possible;
  }

  lemma NoStepTruthful(d: Slots, p: StepStore.Plan)
    requires Best(d, p.key) == 0
    ensures Truthful(d, p)
  {
    hide Level, StepStore.Rows;
    forall n | 0 <= n < 2
      ensures Level(d, n, p.key) == 0
    {
      assert n == 0 || n == 1;
    }
  }

  /** A preview that vanished or fails its own digest is harmless. */
  lemma PreviewDecayHonest(e: Engine, d: Previews, d': Previews)
    requires e.Lawful() && HonestPreviews(e, d)
    requires forall part :: Read(d', part) == Read(d, part) || Read(d', part).None? || !Sealed(Read(d', part).value)
    ensures HonestPreviews(e, d') && NoNewPreviews(e, d, d')
  {
    hide Engine.Lawful, HonestPreview, Engine.PreviewIdentity;
    forall m: Memory
      ensures LoadPreview(e, d', m) == None || LoadPreview(e, d', m) == LoadPreview(e, d, m)
    {
      assert Read(d', m.part) == Read(d, m.part) || Read(d', m.part).None? || !Sealed(Read(d', m.part).value);
    }
  }

  /** A slot file that is missing, torn, or fails its own payload digest. */
  predicate Unreadable(f: Option<Slot>) {
    f.None? || f.value.payload != Sha256(f.value.rows)
  }

  /* The state machine. */

  /** The process, with the settings it was launched under: absent, at the top of the loop, looking for a preview, about to sample a stage, denoising it, in
      the middle of disk operations with the disks they will leave still to come, or finished. */
  datatype Process =
    | Dead
    | Looking(settings: Settings, m: Memory)
    | Seeking(settings: Settings, m: Memory)
    | Resuming(settings: Settings, stage: Stage, m: Memory, preview: Option<Block>)
    | Sampling(settings: Settings, stage: Stage, m: Memory, preview: Option<Block>, k: nat, block: Block)
    | Busy(todo: seq<Disks>, next: Process)
    | Done(m: Memory)

  datatype World = World(disks: Disks, process: Process)

  datatype Event =
    | Crash | Decay | Launch(settings: Settings) | Look | Seek | Resume | Denoise(id: nat) | Keep(id: nat)
    | Finish(bypass: bool, fault: Fault, ids: (nat, nat, nat)) | Work | End

  function CacheOps(d: Disks, trace: seq<Cache>): seq<Disks> {
    seq(|trace|, i requires 0 <= i < |trace| => d.(cache := trace[i]))
  }

  function StepOps(d: Disks, stage: Stage, part: nat, trace: seq<Slots>): seq<Disks> {
    seq(|trace|, i requires 0 <= i < |trace| => d.(steps := d.steps[(stage, part) := trace[i]]))
  }

  function PreviewOps(d: Disks, trace: seq<Previews>): seq<Disks> {
    seq(|trace|, i requires 0 <= i < |trace| => d.(previews := trace[i]))
  }

  /** Between two sessions any data file may change, and any marker, preview or checkpoint may be lost or damaged. */
  ghost predicate Worn(d: Disks, d': Disks) {
    && (forall part :: var f := Read(d'.cache, State(part));
          f == Read(d.cache, State(part)) || f.None? || !f.value.StateContent? || !Intact(f.value.marker))
    && (forall part :: Read(d'.previews, part) == Read(d.previews, part) || Read(d'.previews, part).None? || !Sealed(Read(d'.previews, part).value))
    && (forall stage, part, n :: 0 <= n < 2 ==>
          Read(d'.Steps(stage, part), n) == Read(d.Steps(stage, part), n) || Unreadable(Read(d'.Steps(stage, part), n)))
  }

  lemma ResumedFits(s: Sampler, key: Key, d: Slots, n: nat)
    requires s.Lawful() && Level(d, n, key) > 0
    requires key.videoRows == |s.init.latents| - s.cv && key.audioRows == |s.init.audio| - s.ca
    ensures s.SameSize(s.Resumed(StepStore.Rows(d, n, key)))
    ensures s.guard.Some? ==> s.guard.value.FitsBlock(s.Resumed(StepStore.Rows(d, n, key)))
  {
  }

  /** The block a restarted stage continues with. */
  ghost function ResumeBlock(s: Sampler, key: Key, d: Slots): Block
    requires s.Lawful() && key.videoRows == |s.init.latents| - s.cv && key.audioRows == |s.init.audio| - s.ca
  {
    if Best(d, key) == 0 then s.Protect(s.init)
    else
      var n := if Level(d, 1, key) > Level(d, 0, key) then 1 else 0;
      ResumedFits(s, key, d, n);
      s.Protect(s.Resumed(StepStore.Rows(d, n, key)))
  }

  /** Clearing the checkpoints of a stage. */
  function ClearOps(d: Disks, stage: Stage, part: nat): seq<Disks> {
    var slots := d.Steps(stage, part);
    StepOps(d, stage, part, [Unlinked(slots, 0), Unlinked(Unlinked(slots, 0), 1)])
  }

  /** The disks after some operations. */
  function LastOf(d: Disks, ops: seq<Disks>): Disks {
    if ops == [] then d else ops[|ops| - 1]
  }

  /** The disk operations after a window is sampled: save or bypass, then clear the stage's checkpoints. */
  function FinishOps(e: Engine, d: Disks, m: Memory, p: Payload, bypass: bool, fault: Fault, ids: (nat, nat, nat)): seq<Disks> {
    var saved := if bypass then [] else CacheOps(d, SaveTrace(d.cache, WriteFor(e.job, m, p, ids), fault));
    saved + ClearOps(LastOf(d, saved), Main, m.part)
  }

  /** The disk operations after a preview is sampled: save it, then clear its checkpoints. */
  function KeepOps(e: Engine, d: Disks, m: Memory, block: Block, id: nat): seq<Disks> {
    var saved := PreviewOps(d, WriteTrace(d.previews, id, m.part, PreviewFile(e.PreviewIdentity(m), block, Sha256(block)), e.previewBytes));
    saved + ClearOps(LastOf(d, saved), Preview, m.part)
  }

  /** Recover the window at the top of the loop, or discard what is cached and go on to sample it. */
  ghost predicate LookStep(e: Engine, d: Disks, p: Process, w': World)
    requires p.Looking?
  {
    var m := p.m;
    match Load(d.cache, m.part, InputsFor(e.job, m), NewFrames(e.job, m.high))
    case Raised => w' == World(d, Busy(CacheOps(d, DiscardTrace(d.cache, m.part)), Sought(e, p.settings, m)))
    case Ok(payload) =>
      match Recovered(e.job, m, payload)
      case Raised => w' == World(d, Dead)
      case Ok(m') => w' == World(d, Looking(p.settings, m'))
  }

  /** What follows a window that is not cached: a preview in two passes, the only pass otherwise. */
  function Sought(e: Engine, settings: Settings, m: Memory): Process {
    if e.job.twoPass then Seeking(settings, m) else Resuming(settings, Main, m, None)
  }

  /** Reuse a saved preview of this very window, or remove what is there and go on to sample the preview. */
  ghost predicate SeekStep(e: Engine, d: Disks, p: Process, w': World)
    requires p.Seeking?
  {
    match LoadPreview(e, d.previews, p.m)
    case Some(block) => w' == World(d, Resuming(p.settings, Main, p.m, Some(block)))
    case None => w' == World(d, Busy(PreviewOps(d, [Unlinked(d.previews, p.m.part)]), Resuming(p.settings, Preview, p.m, None)))
  }

  /** Load the latest checkpoint of the stage. */
  ghost predicate ResumeStep(e: Engine, d: Disks, p: Process, w': World)
    requires e.Lawful() && p.Resuming?
  {
    var slots, key := d.Steps(p.stage, p.m.part), e.RunPlan(p.stage, p.settings, p.m, p.preview).key;
    w' == World(d, Sampling(p.settings, p.stage, p.m, p.preview, Best(slots, key),
                            ResumeBlock(e.Running(p.stage, p.settings, p.m, p.preview), key, slots)))
  }

  /** One denoising step and its commit. */
  ghost predicate DenoiseStep(e: Engine, d: Disks, p: Process, id: nat, w': World)
    requires e.Lawful() && p.Sampling?
  {
    var s, m := e.Running(p.stage, p.settings, p.m, p.preview), p.m;
    && p.k < s.total && s.SameSize(p.block)
    && (var block := s.Protect(s.step(p.k, p.block));
        var slot := SlotFor(e.RunPlan(p.stage, p.settings, m, p.preview).key, p.k + 1, s.Saved(block), e.stepBytes);
        w' == World(d, Busy(StepOps(d, p.stage, m.part, WriteTrace(d.Steps(p.stage, m.part), id, (p.k + 1) % 2, slot, e.stepBytes)),
                            Sampling(p.settings, p.stage, m, p.preview, p.k + 1, block))))
  }

  /** Save a completely denoised preview and go on to refine it. */
  ghost predicate KeepStep(e: Engine, d: Disks, p: Process, id: nat, w': World)
    requires p.Sampling?
  {
    && p.stage == Preview && p.k == e.Running(p.stage, p.settings, p.m, p.preview).total
    && w' == World(d, Busy(KeepOps(e, d, p.m, p.block, id), Resuming(p.settings, Main, p.m, Some(p.block))))
  }

  /** Decode, assemble and cache a completely denoised window. */
  ghost predicate FinishStep(e: Engine, d: Disks, p: Process, bypass: bool, fault: Fault, ids: (nat, nat, nat), w': World)
    requires p.Sampling?
  {
    && p.stage == Main && p.k == e.Running(p.stage, p.settings, p.m, p.preview).total
    && match Sampled(e.job, p.m, e.Shown(p.block, p.preview))
       case Raised => w' == World(d, Dead)
       case Ok(r) => w' == World(d, Busy(FinishOps(e, d, p.m, r.1, bypass, fault, ids), Looking(p.settings, r.0)))
  }

  ghost predicate Step(e: Engine, w: World, event: Event, w': World)
    requires e.Lawful()
  {
    var d, p := w.disks, w.process;
    match event
    case Crash => w' == World(d, Dead)
    case Decay => p.Dead? && w'.process.Dead? && Worn(d, w'.disks)
    case Launch(settings) => p.Dead? && settings in e.known && w' == World(d, Looking(settings, Start(e.job)))
    case Look => p.Looking? && p.m.part < e.job.segments && LookStep(e, d, p, w')
    case Seek => p.Seeking? && SeekStep(e, d, p, w')
    case Resume => p.Resuming? && ResumeStep(e, d, p, w')
    case Denoise(id) => p.Sampling? && DenoiseStep(e, d, p, id, w')
    case Keep(id) => p.Sampling? && KeepStep(e, d, p, id, w')
    case Finish(bypass, fault, ids) => p.Sampling? && FinishStep(e, d, p, bypass, fault, ids, w')
    case Work => p.Busy? && w' == (if p.todo == [] then World(d, p.next) else World(p.todo[0], Busy(p.todo[1..], p.next)))
    case End => p.Looking? && p.m.part == e.job.segments && w' == World(d, Done(p.m))
  }

  /* The invariant of every history. */

  ghost predicate AllHonest(e: Engine, g: Guard, todo: seq<Disks>)
    requires e.Lawful()
  {
    forall i :: 0 <= i < |todo| ==> Honest(e, g, todo[i])
  }

  /** A window in the making: of a valid memory, and with a possible preview once it is refined. */
  ghost predicate StageOk(e: Engine, g: Guard, d: Previews, settings: Settings, stage: Stage, m: Memory, preview: Option<Block>)
    requires e.Lawful()
  {
    && settings in e.known && Valid(e.job, m) && m.part < e.job.segments
    && Carried(e, g, d, stage, m, preview) && (stage.Preview? ==> e.job.twoPass)
  }

  ghost predicate ProcessOk(e: Engine, g: Guard, d: Disks, p: Process)
    requires e.Lawful()
    decreases p
  {
    match p
    case Dead => true
    case Looking(settings, m) => settings in e.known && Valid(e.job, m)
    case Seeking(settings, m) => settings in e.known && Valid(e.job, m) && m.part < e.job.segments && e.job.twoPass
    case Resuming(settings, stage, m, preview) => StageOk(e, g, d.previews, settings, stage, m, preview)
    case Sampling(settings, stage, m, preview, k, block) =>
      var s := e.Running(stage, settings, m, preview);
      StageOk(e, g, d.previews, settings, stage, m, preview) && k <= s.total && block == s.Trajectory(k)
    case Busy(todo, next) => AllHonest(e, g, todo) && next != Dead && ProcessOk(e, g, LastOf(d, todo), next)
    case Done(m) => Valid(e.job, m) && m.part == e.job.segments
  }

  ghost predicate Inv(e: Engine, g: Guard, w: World)
    requires e.Lawful()
  {
    Honest(e, g, w.disks) && ProcessOk(e, g, w.disks, w.process)
  }

  /** The checkpoint a stage would resume from, if any, is a point of the trajectory it is about to follow. */
  ghost predicate OnCourse(e: Engine, d: Disks, p: Process)
    requires e.Lawful() && p.Resuming?
  {
    var s, slots := e.Running(p.stage, p.settings, p.m, p.preview), d.Steps(p.stage, p.m.part);
    var key := e.RunPlan(p.stage, p.settings, p.m, p.preview).key;
    Best(slots, key) <= s.total && ResumeBlock(s, key, slots) == s.Trajectory(Best(slots, key))
  }

  /** No refinement goes on from steps of another preview: none resumes from one, or, to be sure of that, no preview is
      saved while its part's slots hold one. */
  ghost predicate Safe(e: Engine, g: Guard, w: World, event: Event)
    requires e.Lawful()
  {
    Loose(e) ==>
      match g
      case AtResume => event.Resume? && w.process.Resuming? && w.process.stage == Main ==> OnCourse(e, w.disks, w.process)
      case AtKeep => event.Keep? && w.process.Sampling? ==>
        OwnSteps(e, w.disks.Steps(Main, w.process.m.part), w.process.m, w.process.block)
  }

  lemma CacheOpsHonest(e: Engine, g: Guard, d: Disks, trace: seq<Cache>)
    requires e.Lawful() && Honest(e, g, d) && forall i :: 0 <= i < |trace| ==> HonestCache(e.job, trace[i])
    ensures AllHonest(e, g, CacheOps(d, trace)) && LastOf(d, CacheOps(d, trace)).previews == d.previews
  {
    hide Engine.Lawful, HonestCache, HonestSlots, HonestPreviews;
    forall i | 0 <= i < |trace|
      ensures Honest(e, g, CacheOps(d, trace)[i])
    {
      var d' := CacheOps(d, trace)[i];
      assert d'.steps == d.steps && d'.previews == d.previews && HonestCache(e.job, trace[i]);
      assert forall stage, part :: d'.Steps(stage, part) == d.Steps(stage, part);
    }
  }

  lemma PreviewOpsHonest(e: Engine, g: Guard, d: Disks, trace: seq<Previews>)
    requires e.Lawful() && Honest(e, g, d) && forall i :: 0 <= i < |trace| ==> HonestPreviews(e, trace[i])
    requires forall i, stage, part :: 0 <= i < |trace| ==> HonestSlots(e, g, stage, part, d.Steps(stage, part), trace[i])
    ensures AllHonest(e, g, PreviewOps(d, trace))
  {
    hide Engine.Lawful, HonestCache, HonestSlots, HonestPreviews;
    forall i | 0 <= i < |trace|
      ensures Honest(e, g, PreviewOps(d, trace)[i])
    {
      var d' := PreviewOps(d, trace)[i];
      assert d'.steps == d.steps && d'.previews == trace[i] && HonestPreviews(e, trace[i]);
      assert forall stage, part :: d'.Steps(stage, part) == d.Steps(stage, part);
    }
  }

  lemma StepOpsHonest(e: Engine, g: Guard, d: Disks, stage: Stage, part: nat, trace: seq<Slots>)
    requires e.Lawful() && Honest(e, g, d) && forall i :: 0 <= i < |trace| ==> HonestSlots(e, g, stage, part, trace[i], d.previews)
    ensures AllHonest(e, g, StepOps(d, stage, part, trace)) && LastOf(d, StepOps(d, stage, part, trace)).previews == d.previews
  {
    hide Engine.Lawful, HonestCache, HonestSlots, HonestPreviews;
    forall i | 0 <= i < |trace|
      ensures Honest(e, g, StepOps(d, stage, part, trace)[i])
    {
      var d' := StepOps(d, stage, part, trace)[i];
      forall s: Stage, q: nat
        ensures HonestSlots(e, g, s, q, d'.Steps(s, q), d'.previews)
      {
        assert (s, q) != (stage, part) ==> d'.Steps(s, q) == d.Steps(s, q);
        assert HonestSlots(e, g, stage, part, trace[i], d.previews) && HonestSlots(e, g, s, q, d.Steps(s, q), d.previews);
      }
    }
  }

  lemma WornHonest(e: Engine, g: Guard, d: Disks, d': Disks)
    requires e.Lawful() && Honest(e, g, d) && Worn(d, d')
    ensures Honest(e, g, d')
  {
    hide Engine.Lawful, HonestMarker, HonestSlots, HonestPreviews, NoNewPreviews;
    forall part, marker | Read(d'.cache, State(part)) == Some(StateContent(marker)) && Intact(marker)
      ensures HonestMarker(e.job, part, marker)
    {
      assert Read(d.cache, State(part)) == Read(d'.cache, State(part));
    }
    PreviewDecayHonest(e, d.previews, d'.previews);
    forall stage, part
      ensures HonestSlots(e, g, stage, part, d'.Steps(stage, part), d'.previews)
    {
      assert HonestSlots(e, g, stage, part, d.Steps(stage, part), d.previews);
      DecayHonest(e, g, stage, part, d.Steps(stage, part), d'.Steps(stage, part), d.previews);
      FewerPreviewsHonest(e, g, stage, part, d'.Steps(stage, part), d.previews, d'.previews);
    }
  }

  lemma DiscardOpsHonest(e: Engine, g: Guard, d: Disks, part: nat)
    requires e.Lawful() && Honest(e, g, d)
    ensures AllHonest(e, g, CacheOps(d, DiscardTrace(d.cache, part)))
    ensures LastOf(d, CacheOps(d, DiscardTrace(d.cache, part))).previews == d.previews
  {
    hide Engine.Lawful, HonestCache, HonestSlots, HonestPreviews, DiscardTrace;
    DiscardLength(d.cache, part);
    forall i | 0 <= i < 3
      ensures HonestCache(e.job, DiscardTrace(d.cache, part)[i])
    {
      DiscardHonest(e.job, d.cache, part, i);
    }
    CacheOpsHonest(e, g, d, DiscardTrace(d.cache, part));
  }

  lemma DiscardLength(d: Cache, part: nat)
    ensures |DiscardTrace(d, part)| == 3
  {
  }

  /** Truthful slots resume on the trajectory, at the best step. */
  lemma ResumeTruthful(s: Sampler, identity: StepIdentity.Identity, bytes: nat, d: Slots)
    requires s.Lawful() && Truthful(d, PlanOf(s, identity, bytes))
    ensures
      var key := PlanOf(s, identity, bytes).key;
      Best(d, key) <= s.total && ResumeBlock(s, key, d) == s.Trajectory(Best(d, key))
  {
    var key := PlanOf(s, identity, bytes).key;
    var k := Best(d, key);
    BestBounded(d, key);
    assert key.total == s.total;
    TruthfulRows(d, s, identity, bytes);
    if k > 0 {
      var n := if Level(d, 1, key) > Level(d, 0, key) then 1 else 0;
      assert StepStore.Rows(d, n, key) == s.Saved(s.Trajectory(k));
      ResumeIsExact(s, k);
    }
  }

  lemma RunningLawful(e: Engine, stage: Stage, settings: Settings, m: Memory, preview: Option<Block>)
    requires e.Lawful()
    ensures e.Running(stage, settings, m, preview).Lawful()
  {
    hide Sampler.Lawful, Job.Lawful;
  }

  lemma HonestTruthful(e: Engine, g: Guard, d: Disks, settings: Settings, stage: Stage, m: Memory, preview: Option<Block>)
    requires e.Lawful() && Honest(e, g, d) && StageOk(e, g, d.previews, settings, stage, m, preview) && Answered(e, g, stage)
    ensures Truthful(d.Steps(stage, m.part), e.RunPlan(stage, settings, m, preview))
  {
    HeldIsCarried(e, g, d.previews, stage, m, preview);
    hide Engine.Lawful, Valid, Truthful, HonestCache, HonestPreviews, Engine.RunPlan, Held, Carried, Answered;
    assert HonestSlots(e, g, stage, m.part, d.Steps(stage, m.part), d.previews);
  }

  /** A denoising step advances along the trajectory and commits a true checkpoint. */
  lemma DenoiseOk(e: Engine, g: Guard, d: Disks, settings: Settings, stage: Stage, m: Memory, preview: Option<Block>, k: nat, id: nat)
    requires e.Lawful() && Honest(e, g, d) && StageOk(e, g, d.previews, settings, stage, m, preview) && k < e.Running(stage, settings, m, preview).total
    ensures
      var s := e.Running(stage, settings, m, preview);
      && s.Lawful() && s.SameSize(s.Trajectory(k)) && s.SameSize(s.step(k, s.Trajectory(k)))
      && s.Protect(s.step(k, s.Trajectory(k))) == s.Trajectory(k + 1)
      && (var slot := SlotFor(e.RunPlan(stage, settings, m, preview).key, k + 1, s.Saved(s.Trajectory(k + 1)), e.stepBytes);
          var ops := StepOps(d, stage, m.part, WriteTrace(d.Steps(stage, m.part), id, (k + 1) % 2, slot, e.stepBytes));
          AllHonest(e, g, ops) && LastOf(d, ops).previews == d.previews)
  {
    var s := e.Running(stage, settings, m, preview);
    RunningLawful(e, stage, settings, m, preview);
    TrajectoryStep(s, k);
    PlanSlot(s, e.Identity(stage, settings, m), e.stepBytes, k + 1);
    var slot := e.RunPlan(stage, settings, m, preview).Slot(k + 1);
    assert slot == SlotFor(e.RunPlan(stage, settings, m, preview).key, k + 1, s.Saved(s.Trajectory(k + 1)), e.stepBytes);
    hide *;
    StageValid(e, g, d.previews, settings, stage, m, preview);
    CommitOpsHonest(e, g, d, stage, m, preview, settings, k, id);
  }

  lemma StageValid(e: Engine, g: Guard, d: Previews, settings: Settings, stage: Stage, m: Memory, preview: Option<Block>)
    requires e.Lawful() && StageOk(e, g, d, settings, stage, m, preview)
    ensures settings in e.known && Valid(e.job, m) && m.part < e.job.segments && e.job.Lawful() && Carried(e, g, d, stage, m, preview)
  {
    hide Carried, Valid;
  }

  lemma CommitOpsHonest(e: Engine, g: Guard, d: Disks, stage: Stage, m: Memory, preview: Option<Block>, settings: Settings, k: nat, id: nat)
    requires e.Lawful() && Honest(e, g, d) && settings in e.known && Valid(e.job, m) && Carried(e, g, d.previews, stage, m, preview)
    ensures
      var ops := StepOps(d, stage, m.part,
        WriteTrace(d.Steps(stage, m.part), id, (k + 1) % 2, e.RunPlan(stage, settings, m, preview).Slot(k + 1), e.stepBytes));
      AllHonest(e, g, ops) && LastOf(d, ops).previews == d.previews
  {
    hide Engine.Lawful, Engine.RunPlan, HonestSlots, Valid, WriteTrace, HonestCache, HonestPreviews, Held, Carried, Answered;
    var t := WriteTrace(d.Steps(stage, m.part), id, (k + 1) % 2, e.RunPlan(stage, settings, m, preview).Slot(k + 1), e.stepBytes);
    WriteLength(d.Steps(stage, m.part), id, (k + 1) % 2, e.RunPlan(stage, settings, m, preview).Slot(k + 1), e.stepBytes);
    forall i | 0 <= i < |t|
      ensures HonestSlots(e, g, stage, m.part, t[i], d.previews)
    {
      if Answered(e, g, stage) {
        HeldIsCarried(e, g, d.previews, stage, m, preview);
        CommitHonest(e, g, d.previews, stage, d.Steps(stage, m.part), settings, m, preview, k, id, i);
      } else {
        NothingToAnswer(e, g, stage, m.part, t[i], d.previews);
      }
    }
    StepOpsHonest(e, g, d, stage, m.part, t);
  }

  lemma NothingToAnswer(e: Engine, g: Guard, stage: Stage, part: nat, d: Slots, previews: Previews)
    requires e.Lawful() && !Answered(e, g, stage)
    ensures HonestSlots(e, g, stage, part, d, previews)
  {
    hide Engine.Lawful, Valid, Truthful, Current, Loose;
  }

  lemma ClearOpsHonest(e: Engine, g: Guard, d: Disks, stage: Stage, part: nat)
    requires e.Lawful() && Honest(e, g, d)
    ensures AllHonest(e, g, ClearOps(d, stage, part)) && ClearOps(d, stage, part) != [] && LastOf(d, ClearOps(d, stage, part)).previews == d.previews
  {
    hide Engine.Lawful, HonestSlots, HonestCache, HonestPreviews, AllHonest;
    var slots := d.Steps(stage, part);
    assert HonestSlots(e, g, stage, part, slots, d.previews);
    DecayHonest(e, g, stage, part, slots, Unlinked(slots, 0), d.previews);
    DecayHonest(e, g, stage, part, slots, Unlinked(Unlinked(slots, 0), 1), d.previews);
    StepOpsHonest(e, g, d, stage, part, [Unlinked(slots, 0), Unlinked(Unlinked(slots, 0), 1)]);
  }

  lemma AllHonestConcat(e: Engine, g: Guard, d: Disks, a: seq<Disks>, b: seq<Disks>)
    requires e.Lawful() && Honest(e, g, d) && AllHonest(e, g, a)
    ensures Honest(e, g, LastOf(d, a)) && LastOf(d, a + b) == LastOf(LastOf(d, a), b)
    ensures AllHonest(e, g, b) ==> AllHonest(e, g, a + b)
  {
    hide Engine.Lawful, Honest;
    assert b == [] ==> a + b == a;
  }

  /** Saving a sampled window, with or without a full disk, and clearing its checkpoints. */
  lemma FinishOpsHonest(e: Engine, g: Guard, d: Disks, m: Memory, config: Config, p: Payload, bypass: bool, fault: Fault, ids: (nat, nat, nat))
    requires e.Lawful() && Honest(e, g, d) && Valid(e.job, m) && m.part < e.job.segments
    requires Sampled(e.job, m, e.job.sample(config, m.part, m.high, m.low)).Ok?
    requires Sampled(e.job, m, e.job.sample(config, m.part, m.high, m.low)).value.1 == p
    ensures AllHonest(e, g, FinishOps(e, d, m, p, bypass, fault, ids))
  {
    var w := WriteFor(e.job, m, p, ids);
    var saved := if bypass then [] else CacheOps(d, SaveTrace(d.cache, w, fault));
    assert e.job.Lawful();
    assert MatchesSample(e.job, m, config, MarkerOf(p, InputsFor(e.job, m), e.job.stateBytes));
    MarkerIsHonest(e.job, m, config, MarkerOf(p, InputsFor(e.job, m), e.job.stateBytes));
    hide Engine.Lawful, Job.Lawful, Valid, Sampled, HonestMarker, HonestCache, HonestSlots, HonestPreviews, SaveTrace, MatchesSample, MarkerOf, InputsFor,
      ClearOps;
    if !bypass {
      forall i | 0 <= i < |SaveTrace(d.cache, w, fault)|
        ensures HonestCache(e.job, SaveTrace(d.cache, w, fault)[i])
      {
        SaveHonest(e.job, d.cache, w, fault, i);
      }
      CacheOpsHonest(e, g, d, SaveTrace(d.cache, w, fault));
    }
    AllHonestConcat(e, g, d, saved, ClearOps(LastOf(d, saved), Main, m.part));
    ClearOpsHonest(e, g, LastOf(d, saved), Main, m.part);
  }

  /** Saving a preview and clearing its checkpoints: honest at every operation, and then the saved preview is accepted. */
  lemma KeepOpsHonest(e: Engine, g: Guard, d: Disks, m: Memory, block: Block, id: nat)
    requires e.Lawful() && Honest(e, g, d) && Valid(e.job, m) && Possible(e, m, Some(block))
    requires Loose(e) && g.AtKeep? ==> OwnSteps(e, d.Steps(Main, m.part), m, block)
    ensures AllHonest(e, g, KeepOps(e, d, m, block, id))
    ensures LoadPreview(e, LastOf(d, KeepOps(e, d, m, block, id)).previews, m) == Some(block)
  {
    var f := PreviewFile(e.PreviewIdentity(m), block, Sha256(block));
    var t := WriteTrace(d.previews, id, m.part, f, e.previewBytes);
    KeepTraceHonest(e, g, d, m, block, id);
    KeptReads(d.previews, id, m.part, f, e.previewBytes);
    var ops := PreviewOps(d, t);
    assert LastOf(d, ops).previews == t[e.previewBytes + 1];
    assert LoadPreview(e, LastOf(d, ops).previews, m) == Some(block);
    hide *;
    AllHonestConcat(e, g, d, ops, ClearOps(LastOf(d, ops), Preview, m.part));
    ClearOpsHonest(e, g, LastOf(d, ops), Preview, m.part);
    KeepUnfold(e, d, m, block, id);
  }

  lemma KeepUnfold(e: Engine, d: Disks, m: Memory, block: Block, id: nat)
    ensures
      var saved := PreviewOps(d, WriteTrace(d.previews, id, m.part, PreviewFile(e.PreviewIdentity(m), block, Sha256(block)), e.previewBytes));
      KeepOps(e, d, m, block, id) == saved + ClearOps(LastOf(d, saved), Preview, m.part)
  {
  }

  lemma KeptReads(d: Previews, id: nat, n: nat, f: PreviewFile, size: nat)
    ensures |WriteTrace(d, id, n, f, size)| == size + 2 && Read(WriteTrace(d, id, n, f, size)[size + 1], n) == Some(f)
    ensures forall m: nat :: m != n ==> Read(WriteTrace(d, id, n, f, size)[size + 1], m) == Read(d, m)
  {
    WriteIsAtomic(d, id, n, f, size, size + 1, n);
    forall m: nat | m != n
      ensures Read(WriteTrace(d, id, n, f, size)[size + 1], m) == Read(d, m)
    {
      WriteIsAtomic(d, id, n, f, size, size + 1, m);
    }
  }

  lemma KeepTraceHonest(e: Engine, g: Guard, d: Disks, m: Memory, block: Block, id: nat)
    requires e.Lawful() && Honest(e, g, d) && Valid(e.job, m) && Possible(e, m, Some(block))
    requires Loose(e) && g.AtKeep? ==> OwnSteps(e, d.Steps(Main, m.part), m, block)
    ensures AllHonest(e, g, PreviewOps(d, WriteTrace(d.previews, id, m.part, PreviewFile(e.PreviewIdentity(m), block, Sha256(block)), e.previewBytes)))
  {
    hide Engine.Lawful, Valid, HonestCache, HonestSlots, HonestPreviews, WriteTrace, Loose, Possible, OwnSteps, NoNewPreviews;
    var f := PreviewFile(e.PreviewIdentity(m), block, Sha256(block));
    var t := WriteTrace(d.previews, id, m.part, f, e.previewBytes);
    KeptReads(d.previews, id, m.part, f, e.previewBytes);
    forall i | 0 <= i < |t|
      ensures HonestPreviews(e, t[i])
    {
      PreviewWriteHonest(e, d.previews, m, f, id, i);
    }
    forall i, stage: Stage, part: nat | 0 <= i < |t|
      ensures HonestSlots(e, g, stage, part, d.Steps(stage, part), t[i])
    {
      assert HonestSlots(e, g, stage, part, d.Steps(stage, part), d.previews);
      if i <= e.previewBytes {
        PreviewWriteHonest(e, d.previews, m, f, id, i);
        FewerPreviewsHonest(e, g, stage, part, d.Steps(stage, part), d.previews, t[i]);
      } else {
        NewPreviewHonest(e, g, d.Steps(stage, part), stage, part, d.previews, t[i], m, block);
      }
    }
    PreviewOpsHonest(e, g, d, t);
  }

  lemma LookKeepsInv(e: Engine, g: Guard, d: Disks, p: Process, w': World)
    requires e.Lawful() && Honest(e, g, d) && p.Looking? && ProcessOk(e, g, d, p) && p.m.part < e.job.segments && LookStep(e, d, p, w')
    ensures Inv(e, g, w') && w'.process != Dead
  {
    hide *;
    var m := p.m;
    var found := Load(d.cache, m.part, InputsFor(e.job, m), NewFrames(e.job, m.high));
    HonestParts(e, g, d);
    LookingParts(e, g, d, p);
    if found.Ok? {
      HitIsValid(e.job, d.cache, m, found.value);
      LookHit(e, d, p, w');
      LookingOk(e, g, d, p.settings, Recovered(e.job, m, found.value).value);
    } else {
      LookMissed(e, d, p, w');
      MissOk(e, g, d, p);
      BusyOk(e, g, d, w'.process.todo, w'.process.next);
    }
  }

  lemma LookingParts(e: Engine, g: Guard, d: Disks, p: Process)
    requires e.Lawful() && p.Looking? && ProcessOk(e, g, d, p)
    ensures p.settings in e.known && Valid(e.job, p.m)
  {
    hide Engine.Lawful, Valid;
  }

  lemma LookingOk(e: Engine, g: Guard, d: Disks, settings: Settings, m: Memory)
    requires e.Lawful() && Honest(e, g, d) && settings in e.known && Valid(e.job, m)
    ensures Inv(e, g, World(d, Looking(settings, m)))
  {
    hide Engine.Lawful, Valid, Honest;
  }

  lemma BusyOk(e: Engine, g: Guard, d: Disks, todo: seq<Disks>, next: Process)
    requires e.Lawful() && Honest(e, g, d) && AllHonest(e, g, todo) && next != Dead && ProcessOk(e, g, LastOf(d, todo), next)
    ensures Inv(e, g, World(d, Busy(todo, next)))
  {
    hide Engine.Lawful, Honest, AllHonest, LastOf;
  }

  lemma LookHit(e: Engine, d: Disks, p: Process, w': World)
    requires p.Looking? && LookStep(e, d, p, w')
    requires Load(d.cache, p.m.part, InputsFor(e.job, p.m), NewFrames(e.job, p.m.high)).Ok?
    requires Recovered(e.job, p.m, Load(d.cache, p.m.part, InputsFor(e.job, p.m), NewFrames(e.job, p.m.high)).value).Ok?
    ensures w' == World(d, Looking(p.settings, Recovered(e.job, p.m, Load(d.cache, p.m.part, InputsFor(e.job, p.m), NewFrames(e.job, p.m.high)).value).value))
  {
    hide Load, Recovered, InputsFor, NewFrames;
  }

  lemma LookMissed(e: Engine, d: Disks, p: Process, w': World)
    requires p.Looking? && LookStep(e, d, p, w')
    requires Load(d.cache, p.m.part, InputsFor(e.job, p.m), NewFrames(e.job, p.m.high)).Raised?
    ensures w' == World(d, Busy(CacheOps(d, DiscardTrace(d.cache, p.m.part)), Sought(e, p.settings, p.m)))
  {
    hide Load, InputsFor, NewFrames, CacheOps, DiscardTrace;
  }

  lemma MissOk(e: Engine, g: Guard, d: Disks, p: Process)
    requires e.Lawful() && Honest(e, g, d) && p.Looking? && ProcessOk(e, g, d, p) && p.m.part < e.job.segments
    ensures
      var ops := CacheOps(d, DiscardTrace(d.cache, p.m.part));
      AllHonest(e, g, ops) && ProcessOk(e, g, LastOf(d, ops), Sought(e, p.settings, p.m)) && Sought(e, p.settings, p.m) != Dead
  {
    DiscardOpsHonest(e, g, d, p.m.part);
    if !e.job.twoPass {
      NoPreview(e, p.m);
    }
    hide Engine.Lawful, Valid, Honest, AllHonest, DiscardTrace, CacheOps, Loose, Possible, LoadPreview;
  }

  lemma NoPreview(e: Engine, m: Memory)
    requires e.Lawful() && !e.job.twoPass
    ensures Possible(e, m, None) && !Loose(e)
  {
    assert e.SamplersLawful();
    hide Engine.Lawful;
    var any: Settings :| true;
    assert e.PreviewUnder(any, m.part, m.low) == None;
  }

  lemma HonestParts(e: Engine, g: Guard, d: Disks)
    requires e.Lawful() && Honest(e, g, d)
    ensures e.job.Lawful() && HonestCache(e.job, d.cache)
  {
  }

  lemma SeekKeepsInv(e: Engine, g: Guard, d: Disks, p: Process, w': World)
    requires e.Lawful() && Honest(e, g, d) && p.Seeking? && ProcessOk(e, g, d, p) && SeekStep(e, d, p, w')
    ensures Inv(e, g, w') && w'.process != Dead
  {
    hide Valid, HonestSlots, HonestCache, AllHonest, Engine.Lawful, Possible, PreviewOps, Loose;
    var m := p.m;
    var f := Read(d.previews, m.part);
    if LoadPreview(e, d.previews, m).Some? {
      assert HonestPreview(e, m.part, f.value);
    } else {
      UnlinkHonest(e, g, d, m.part);
      var ops := PreviewOps(d, [Unlinked(d.previews, m.part)]);
      assert ProcessOk(e, g, LastOf(d, ops), Resuming(p.settings, Preview, m, None));
      assert ProcessOk(e, g, d, w'.process);
    }
  }

  lemma UnlinkHonest(e: Engine, g: Guard, d: Disks, part: nat)
    requires e.Lawful() && Honest(e, g, d)
    ensures AllHonest(e, g, PreviewOps(d, [Unlinked(d.previews, part)]))
  {
    hide Engine.Lawful, HonestPreviews, HonestSlots, HonestCache, NoNewPreviews, AllHonest;
    var t := [Unlinked(d.previews, part)];
    PreviewDecayHonest(e, d.previews, t[0]);
    forall i, stage: Stage, q: nat | 0 <= i < |t|
      ensures HonestSlots(e, g, stage, q, d.Steps(stage, q), t[i])
    {
      assert HonestSlots(e, g, stage, q, d.Steps(stage, q), d.previews);
      FewerPreviewsHonest(e, g, stage, q, d.Steps(stage, q), d.previews, t[i]);
    }
    PreviewOpsHonest(e, g, d, t);
  }

  /** Slots the disks answer for put a stage on its course. */
  lemma AnsweredOnCourse(e: Engine, g: Guard, d: Disks, p: Process)
    requires e.Lawful() && Honest(e, g, d) && p.Resuming? && ProcessOk(e, g, d, p) && Answered(e, g, p.stage)
    ensures OnCourse(e, d, p)
  {
    RunningLawful(e, p.stage, p.settings, p.m, p.preview);
    hide Engine.Lawful, Valid, Honest, Truthful, Best, ResumeBlock, PlanOf, StageOk, Answered;
    HonestTruthful(e, g, d, p.settings, p.stage, p.m, p.preview);
    ResumeTruthful(e.Running(p.stage, p.settings, p.m, p.preview), e.Identity(p.stage, p.settings, p.m), e.stepBytes, d.Steps(p.stage, p.m.part));
  }

  lemma ResumeKeepsInv(e: Engine, g: Guard, d: Disks, p: Process, w': World)
    requires e.Lawful() && Honest(e, g, d) && p.Resuming? && ProcessOk(e, g, d, p) && ResumeStep(e, d, p, w') && Safe(e, g, World(d, p), Resume)
    ensures Inv(e, g, w') && w'.process != Dead
  {
    hide Engine.Lawful, Valid, Honest, Best, ResumeBlock, PlanOf, StageOk, Loose, Engine.RunPlan, Engine.Running;
    if Answered(e, g, p.stage) {
      AnsweredOnCourse(e, g, d, p);
    }
    assert OnCourse(e, d, p);
  }

  lemma DenoiseKeepsInv(e: Engine, g: Guard, d: Disks, p: Process, id: nat, w': World)
    requires e.Lawful() && Honest(e, g, d) && p.Sampling? && ProcessOk(e, g, d, p) && DenoiseStep(e, d, p, id, w')
    ensures Inv(e, g, w') && w'.process != Dead
  {
    hide Engine.Lawful, Valid, Honest, AllHonest, Engine.RunPlan, Engine.Running, StepOps, WriteTrace, SlotFor, Sampler.Lawful, Sampler.Saved, Sampler.Protect,
      StageOk, LastOf;
    DenoiseOk(e, g, d, p.settings, p.stage, p.m, p.preview, p.k, id);
    var next := Sampling(p.settings, p.stage, p.m, p.preview, p.k + 1, e.Running(p.stage, p.settings, p.m, p.preview).Trajectory(p.k + 1));
    assert ProcessOk(e, g, LastOf(d, w'.process.todo), next);
  }

  lemma KeepKeepsInv(e: Engine, g: Guard, d: Disks, p: Process, id: nat, w': World)
    requires e.Lawful() && Honest(e, g, d) && p.Sampling? && ProcessOk(e, g, d, p) && KeepStep(e, d, p, id, w')
    requires Safe(e, g, World(d, p), Keep(id))
    ensures Inv(e, g, w') && w'.process != Dead
  {
    hide Valid, Honest, AllHonest, KeepOps, Job.Lawful, Sampler.Lawful, Sampler.Trajectory, OwnSteps, Loose, LastOf, LoadPreview, Possible;
    PreviewEnd(e, g, d, p);
    hide Engine.Lawful;
    KeepOpsHonest(e, g, d, p.m, p.block, id);
    assert ProcessOk(e, g, LastOf(d, w'.process.todo), Resuming(p.settings, Main, p.m, Some(p.block)));
  }

  lemma PreviewEnd(e: Engine, g: Guard, d: Disks, p: Process)
    requires e.Lawful() && p.Sampling? && ProcessOk(e, g, d, p) && p.stage == Preview && p.k == e.Running(p.stage, p.settings, p.m, p.preview).total
    ensures Possible(e, p.m, Some(p.block))
  {
    hide Valid, Job.Lawful, Sampler.Lawful, Sampler.Trajectory;
    assert e.PreviewUnder(p.settings, p.m.part, p.m.low) == Some(p.block);
  }

  /** A denoised window is the sample of some settings for its preview and its own settings. */
  lemma WindowEnd(e: Engine, g: Guard, d: Disks, p: Process) returns (config: Config)
    requires e.Lawful() && p.Sampling? && ProcessOk(e, g, d, p) && p.stage == Main && p.k == e.Running(p.stage, p.settings, p.m, p.preview).total
    ensures e.job.sample(config, p.m.part, p.m.high, p.m.low) == e.Shown(p.block, p.preview)
  {
    hide Valid, Job.Lawful, Sampler.Lawful, Sampler.Trajectory;
    var settings :| p.preview == e.PreviewUnder(settings, p.m.part, p.m.low);
    config := Config(settings, p.settings);
    assert e.job.sample(config, p.m.part, p.m.high, p.m.low)
      == e.Shown(EndOf(e.sampler(config.refine, p.m.part, p.m.high, e.PreviewUnder(config.preview, p.m.part, p.m.low))),
                 e.PreviewUnder(config.preview, p.m.part, p.m.low));
  }

  lemma FinishKeepsInv(e: Engine, g: Guard, d: Disks, p: Process, bypass: bool, fault: Fault, ids: (nat, nat, nat), w': World)
    requires e.Lawful() && Honest(e, g, d) && p.Sampling? && ProcessOk(e, g, d, p) && FinishStep(e, d, p, bypass, fault, ids, w')
    ensures Inv(e, g, w') && w'.process != Dead
  {
    hide Valid, Honest, AllHonest, FinishOps, Sampled, Sampler.Trajectory, Job.Lawful, Sampler.Lawful, LastOf;
    var m := p.m;
    var config := WindowEnd(e, g, d, p);
    StageValid(e, g, d.previews, p.settings, p.stage, m, p.preview);
    hide Engine.Lawful;
    ValidNext(e.job, m, config);
    FinishOpsHonest(e, g, d, m, config, Sampled(e.job, m, e.Shown(p.block, p.preview)).value.1, bypass, fault, ids);
    assert ProcessOk(e, g, LastOf(d, w'.process.todo), Looking(p.settings, Sampled(e.job, m, e.Shown(p.block, p.preview)).value.0));
  }

  /** Every safe event keeps the invariant, and only a crash ends a process. */
  lemma StepKeepsInv(e: Engine, g: Guard, w: World, event: Event, w': World)
    requires e.Lawful() && Inv(e, g, w) && Step(e, w, event, w') && Safe(e, g, w, event)
    ensures Inv(e, g, w')
    ensures w'.process == Dead && w.process != Dead ==> event == Crash
  {
    hide Valid, Honest, AllHonest, LookStep, SeekStep, ResumeStep, DenoiseStep, KeepStep, FinishStep, Worn, Job.Lawful, LastOf, Safe;
    assert e.job.Lawful();
    hide Engine.Lawful;
    var d, p := w.disks, w.process;
    match event
    case Crash =>
    case Decay =>
      WornHonest(e, g, d, w'.disks);
    case Launch(settings) =>
      ValidStart(e.job);
    case Look =>
      LookKeepsInv(e, g, d, p, w');
    case Seek =>
      SeekKeepsInv(e, g, d, p, w');
    case Resume =>
      ResumeKeepsInv(e, g, d, p, w');
    case Denoise(id) =>
      DenoiseKeepsInv(e, g, d, p, id, w');
    case Keep(id) =>
      KeepKeepsInv(e, g, d, p, id, w');
    case Finish(bypass, fault, ids) =>
      FinishKeepsInv(e, g, d, p, bypass, fault, ids, w');
    case Work =>
      WorkHonest(e, g, d, p);
    case End =>
  }

  lemma WorkHonest(e: Engine, g: Guard, d: Disks, p: Process)
    requires e.Lawful() && p.Busy? && AllHonest(e, g, p.todo)
    ensures p.todo != [] ==> Honest(e, g, p.todo[0]) && AllHonest(e, g, p.todo[1..]) && LastOf(p.todo[0], p.todo[1..]) == LastOf(d, p.todo)
    ensures p.todo == [] ==> LastOf(d, p.todo) == d
  {
    hide Engine.Lawful, Honest;
  }

  /* How far a process still has to go: parts, then the stages of a part, then steps, then disk operations. */

  function PartsLeft(e: Engine, p: Process): nat {
    match p
    case Busy(_, next) => PartsLeft(e, next)
    case Dead => 0
    case Done(_) => 0
    case _ => if p.m.part < e.job.segments then e.job.segments - p.m.part else 0
  }

  function StagesLeft(p: Process): nat {
    match p
    case Busy(_, next) => StagesLeft(next)
    case Looking(_, _) => 6
    case Seeking(_, _) => 5
    case Resuming(_, stage, _, _) => if stage.Preview? then 4 else 2
    case Sampling(_, stage, _, _, _, _) => if stage.Preview? then 3 else 1
    case _ => 0
  }

  function StepsLeft(e: Engine, p: Process): nat {
    match p
    case Busy(_, next) => StepsLeft(e, next)
    case Sampling(settings, stage, m, preview, k, _) =>
      var total := e.Running(stage, settings, m, preview).total;
      if k < total then total - k else 0
    case _ => 0
  }

  function OpsLeft(p: Process): nat {
    if p.Busy? then |p.todo| + 1 + OpsLeft(p.next) else 0
  }

  ghost predicate Closer(e: Engine, p': Process, p: Process) {
    || PartsLeft(e, p') < PartsLeft(e, p)
    || (&& PartsLeft(e, p') == PartsLeft(e, p)
        && (|| StagesLeft(p') < StagesLeft(p)
            || (&& StagesLeft(p') == StagesLeft(p)
                && (|| StepsLeft(e, p') < StepsLeft(e, p)
                    || (StepsLeft(e, p') == StepsLeft(e, p) && OpsLeft(p') < OpsLeft(p))))))
  }

  /** A live process is never stuck: until it is done it has a next event that is not a crash and takes it closer. */
  lemma Progress(e: Engine, g: Guard, w: World) returns (event: Event, w': World)
    requires e.Lawful() && Inv(e, g, w) && w.process != Dead && !w.process.Done?
    ensures Step(e, w, event, w') && !event.Crash? && w'.process != Dead && Closer(e, w'.process, w.process)
    ensures event.Resume? ==> w.process.Resuming?
    ensures !event.Keep? || w.process.Sampling?
  {
    hide *;
    InvParts(e, g, w);
    var d, p := w.disks, w.process;
    match p
    case Looking(settings, m) =>
      if m.part == e.job.segments {
        event, w' := End, World(d, Done(m));
        OtherStep(e, w, event, w');
        EndCloser(e, p, w'.process);
      } else {
        event, w' := Look, LookNext(e, d, p);
        LookKeepsInv(e, g, d, p, w');
        StageStep(e, w, event, w');
        LookCloser(e, d, p, w');
      }
    case Seeking(settings, m) =>
      event, w' := Seek, SeekNext(e, d, p);
      StageStep(e, w, event, w');
      SeekCloser(e, d, p, w');
    case Resuming(settings, stage, m, preview) =>
      event, w' := Resume, ResumeNext(e, d, p);
      StageStep(e, w, event, w');
      ResumeCloser(e, d, p, w');
    case Sampling(settings, stage, m, preview, k, block) =>
      if k < e.Running(stage, settings, m, preview).total {
        event, w' := Denoise(0), DenoiseNext(e, g, d, p);
        DenoiseCloser(e, d, p, w');
      } else if stage == Preview {
        event, w' := Keep(0), KeepNext(e, d, p);
        KeepCloser(e, d, p, w');
      } else {
        event, w' := Finish(true, NoFault, (0, 0, 0)), FinishNext(e, d, p);
        FinishKeepsInv(e, g, d, p, true, NoFault, (0, 0, 0), w');
        FinishCloser(e, d, p, w');
      }
      StageStep(e, w, event, w');
    case Busy(todo, next) =>
      event := Work;
      w' := if todo == [] then World(d, next) else World(todo[0], Busy(todo[1..], next));
      OtherStep(e, w, event, w');
      WorkCloser(e, todo, next, w'.process);
  }

  lemma BusyLeft(e: Engine, p: Process)
    requires p.Busy?
    ensures PartsLeft(e, p) == PartsLeft(e, p.next) && StagesLeft(p) == StagesLeft(p.next) && StepsLeft(e, p) == StepsLeft(e, p.next)
  {
  }

  lemma EndCloser(e: Engine, p: Process, p': Process)
    requires p.Looking? && p'.Done?
    ensures Closer(e, p', p)
  {
  }

  lemma LookCloser(e: Engine, d: Disks, p: Process, w': World)
    requires p.Looking? && p.m.part < e.job.segments && LookStep(e, d, p, w') && w'.process != Dead
    ensures Closer(e, w'.process, p)
  {
    if w'.process.Busy? {
      BusyLeft(e, w'.process);
    }
    hide Load, InputsFor, NewFrames, CacheOps, DiscardTrace;
    var found := Load(d.cache, p.m.part, InputsFor(e.job, p.m), NewFrames(e.job, p.m.high));
    if found.Ok? {
      RecoveredPart(e.job, p.m, found.value);
    }
  }

  lemma RecoveredPart(job: Job, m: Memory, p: Payload)
    ensures Recovered(job, m, p).Ok? ==> Recovered(job, m, p).value.part == m.part + 1
  {
    hide Append, Clock.Emitted;
  }

  lemma SampledPart(job: Job, m: Memory, w: Window)
    ensures Sampled(job, m, w).Ok? ==> Sampled(job, m, w).value.0.part == m.part + 1
  {
    hide PayloadOf, Append, Clock.Wanted, Clock.NextCursor;
  }

  lemma SeekCloser(e: Engine, d: Disks, p: Process, w': World)
    requires p.Seeking? && SeekStep(e, d, p, w')
    ensures Closer(e, w'.process, p)
  {
    if w'.process.Busy? {
      BusyLeft(e, w'.process);
    }
    hide LoadPreview, PreviewOps;
  }

  lemma ResumeCloser(e: Engine, d: Disks, p: Process, w': World)
    requires e.Lawful() && p.Resuming? && ResumeStep(e, d, p, w')
    ensures Closer(e, w'.process, p)
  {
    hide Engine.Lawful, Best, ResumeBlock, Engine.RunPlan, Engine.Running;
  }

  lemma DenoiseCloser(e: Engine, d: Disks, p: Process, w': World)
    requires e.Lawful() && p.Sampling? && DenoiseStep(e, d, p, 0, w')
    ensures Closer(e, w'.process, p)
  {
    if w'.process.Busy? {
      BusyLeft(e, w'.process);
    }
    hide Engine.Lawful, Engine.RunPlan, Engine.Running, StepOps, WriteTrace, SlotFor, Sampler.Saved, Sampler.Protect;
  }

  lemma KeepCloser(e: Engine, d: Disks, p: Process, w': World)
    requires p.Sampling? && KeepStep(e, d, p, 0, w')
    ensures Closer(e, w'.process, p)
  {
    if w'.process.Busy? {
      BusyLeft(e, w'.process);
    }
    hide KeepOps, Engine.Running;
  }

  lemma FinishCloser(e: Engine, d: Disks, p: Process, w': World)
    requires p.Sampling? && p.m.part < e.job.segments && FinishStep(e, d, p, true, NoFault, (0, 0, 0), w') && w'.process != Dead
    ensures Closer(e, w'.process, p)
  {
    if w'.process.Busy? {
      BusyLeft(e, w'.process);
    }
    SampledPart(e.job, p.m, e.Shown(p.block, p.preview));
    hide FinishOps, Engine.Running, Sampled, Engine.Shown;
  }

  lemma WorkCloser(e: Engine, todo: seq<Disks>, next: Process, p': Process)
    requires p' == if todo == [] then next else Busy(todo[1..], next)
    ensures Closer(e, p', Busy(todo, next))
  {
  }

  lemma InvParts(e: Engine, g: Guard, w: World)
    requires e.Lawful() && Inv(e, g, w)
    ensures Honest(e, g, w.disks) && ProcessOk(e, g, w.disks, w.process)
    ensures w.process.Looking? ==> w.process.m.part <= e.job.segments
    ensures w.process.Busy? ==> w.process.next != Dead
    ensures w.process.Sampling? ==>
      && w.process.m.part < e.job.segments
      && w.process.k <= e.Running(w.process.stage, w.process.settings, w.process.m, w.process.preview).total
  {
    hide Honest, Carried, AllHonest;
  }

  lemma StageStep(e: Engine, w: World, event: Event, w': World)
    requires e.Lawful()
    requires
      var d, p := w.disks, w.process;
      match event
      case Look => p.Looking? && p.m.part < e.job.segments && LookStep(e, d, p, w')
      case Seek => p.Seeking? && SeekStep(e, d, p, w')
      case Resume => p.Resuming? && ResumeStep(e, d, p, w')
      case Denoise(id) => p.Sampling? && DenoiseStep(e, d, p, id, w')
      case Keep(id) => p.Sampling? && KeepStep(e, d, p, id, w')
      case Finish(bypass, fault, ids) => p.Sampling? && FinishStep(e, d, p, bypass, fault, ids, w')
      case _ => false
    ensures Step(e, w, event, w')
  {
    hide LookStep, SeekStep, ResumeStep, DenoiseStep, KeepStep, FinishStep;
  }

  lemma OtherStep(e: Engine, w: World, event: Event, w': World)
    requires e.Lawful()
    requires
      var d, p := w.disks, w.process;
      match event
      case Crash => w' == World(d, Dead)
      case Decay => p.Dead? && w'.process.Dead? && Worn(d, w'.disks)
      case Launch(settings) => p.Dead? && settings in e.known && w' == World(d, Looking(settings, Start(e.job)))
      case Work => p.Busy? && w' == (if p.todo == [] then World(d, p.next) else World(p.todo[0], Busy(p.todo[1..], p.next)))
      case End => p.Looking? && p.m.part == e.job.segments && w' == World(d, Done(p.m))
      case _ => false
    ensures Step(e, w, event, w')
  {
    hide Worn;
  }

  ghost function KeepNext(e: Engine, d: Disks, p: Process): (w': World)
    requires p.Sampling? && p.stage == Preview && p.k == e.Running(p.stage, p.settings, p.m, p.preview).total
    ensures KeepStep(e, d, p, 0, w') && w'.process != Dead
  {
    World(d, Busy(KeepOps(e, d, p.m, p.block, 0), Resuming(p.settings, Main, p.m, Some(p.block))))
  }

  ghost function LookNext(e: Engine, d: Disks, p: Process): (w': World)
    requires p.Looking?
    ensures LookStep(e, d, p, w')
  {
    match Load(d.cache, p.m.part, InputsFor(e.job, p.m), NewFrames(e.job, p.m.high))
    case Raised => World(d, Busy(CacheOps(d, DiscardTrace(d.cache, p.m.part)), Sought(e, p.settings, p.m)))
    case Ok(payload) =>
      match Recovered(e.job, p.m, payload)
      case Raised => World(d, Dead)
      case Ok(m') => World(d, Looking(p.settings, m'))
  }

  ghost function SeekNext(e: Engine, d: Disks, p: Process): (w': World)
    requires p.Seeking?
    ensures SeekStep(e, d, p, w') && w'.process != Dead
  {
    match LoadPreview(e, d.previews, p.m)
    case Some(block) => World(d, Resuming(p.settings, Main, p.m, Some(block)))
    case None => World(d, Busy(PreviewOps(d, [Unlinked(d.previews, p.m.part)]), Resuming(p.settings, Preview, p.m, None)))
  }

  ghost function ResumeNext(e: Engine, d: Disks, p: Process): (w': World)
    requires e.Lawful() && p.Resuming?
    ensures ResumeStep(e, d, p, w') && w'.process != Dead
  {
    var slots, key := d.Steps(p.stage, p.m.part), e.RunPlan(p.stage, p.settings, p.m, p.preview).key;
    World(d, Sampling(p.settings, p.stage, p.m, p.preview, Best(slots, key), ResumeBlock(e.Running(p.stage, p.settings, p.m, p.preview), key, slots)))
  }

  ghost function DenoiseNext(e: Engine, g: Guard, d: Disks, p: Process): (w': World)
    requires e.Lawful() && p.Sampling? && ProcessOk(e, g, d, p) && p.k < e.Running(p.stage, p.settings, p.m, p.preview).total
    ensures DenoiseStep(e, d, p, 0, w') && w'.process != Dead
  {
    var s, m := e.Running(p.stage, p.settings, p.m, p.preview), p.m;
    TrajectoryStep(s, p.k);
    var block := s.Protect(s.step(p.k, p.block));
    var slot := SlotFor(e.RunPlan(p.stage, p.settings, m, p.preview).key, p.k + 1, s.Saved(block), e.stepBytes);
    World(d, Busy(StepOps(d, p.stage, m.part, WriteTrace(d.Steps(p.stage, m.part), 0, (p.k + 1) % 2, slot, e.stepBytes)),
                  Sampling(p.settings, p.stage, m, p.preview, p.k + 1, block)))
  }

  ghost function FinishNext(e: Engine, d: Disks, p: Process): (w': World)
    requires p.Sampling? && p.stage == Main && p.k == e.Running(p.stage, p.settings, p.m, p.preview).total
    ensures FinishStep(e, d, p, true, NoFault, (0, 0, 0), w')
  {
    match Sampled(e.job, p.m, e.Shown(p.block, p.preview))
    case Raised => World(d, Dead)
    case Ok(r) => World(d, Busy(FinishOps(e, d, p.m, r.1, true, NoFault, (0, 0, 0)), Looking(p.settings, r.0)))
  }

  /* Histories. */

  /** Worlds linked by events. */
  ghost predicate Path(e: Engine, worlds: seq<World>, events: seq<Event>)
    requires e.Lawful()
  {
    |worlds| == |events| + 1 && forall i :: 0 <= i < |events| ==> Step(e, worlds[i], events[i], worlds[i + 1])
  }

  /** A history: a path from a dead process over disks that are honest but for refinement slots that nothing answers for. */
  ghost predicate History(e: Engine, worlds: seq<World>, events: seq<Event>)
    requires e.Lawful()
  {
    Path(e, worlds, events) && worlds[0].process == Dead && Honest(e, AtResume, worlds[0].disks)
  }

  ghost predicate SafeHistory(e: Engine, g: Guard, worlds: seq<World>, events: seq<Event>)
    requires e.Lawful() && |worlds| == |events| + 1
  {
    forall i :: 0 <= i < |events| ==> Safe(e, g, worlds[i], events[i])
  }

  lemma {:induction false} HistoryInv(e: Engine, g: Guard, worlds: seq<World>, events: seq<Event>, i: nat)
    requires e.Lawful() && Path(e, worlds, events) && Inv(e, g, worlds[0]) && SafeHistory(e, g, worlds, events) && i < |worlds|
    ensures Inv(e, g, worlds[i])
  {
    hide Engine.Lawful, Step, Safe, Inv;
    if i > 0 {
      HistoryInv(e, g, worlds, events, i - 1);
      assert Step(e, worlds[i - 1], events[i - 1], worlds[i]);
      assert Safe(e, g, worlds[i - 1], events[i - 1]);
      StepKeepsInv(e, g, worlds[i - 1], events[i - 1], worlds[i]);
    }
  }

  /** Every history is safe in a single pass, and where previews do not depend on the settings. */
  lemma SafeUnlessLoose(e: Engine, worlds: seq<World>, events: seq<Event>)
    requires e.Lawful() && History(e, worlds, events) && !Loose(e)
    ensures SafeHistory(e, AtResume, worlds, events)
  {
    hide Engine.Lawful, Step, Loose, OnCourse, Honest;
  }

  /** A history is safe if no refinement that resumes finds a step it would accept. */
  lemma FreeIsSafe(e: Engine, worlds: seq<World>, events: seq<Event>)
    requires e.Lawful() && History(e, worlds, events)
    requires forall i :: 0 <= i < |events| && events[i].Resume? && worlds[i].process.Resuming? && worlds[i].process.stage == Main ==>
      NoStepToTake(e, worlds[i].disks, worlds[i].process)
    ensures SafeHistory(e, AtResume, worlds, events)
  {
    hide Engine.Lawful, Step, Loose, OnCourse, Honest, NoStepToTake;
    forall i | 0 <= i < |events|
      ensures Safe(e, AtResume, worlds[i], events[i])
    {
      if events[i].Resume? && worlds[i].process.Resuming? && worlds[i].process.stage == Main {
        FreshOnCourse(e, worlds[i].disks, worlds[i].process);
      }
    }
  }

  ghost predicate NoStepToTake(e: Engine, d: Disks, p: Process)
    requires e.Lawful() && p.Resuming?
  {
    Best(d.Steps(p.stage, p.m.part), e.RunPlan(p.stage, p.settings, p.m, p.preview).key) == 0
  }

  lemma FreshOnCourse(e: Engine, d: Disks, p: Process)
    requires e.Lawful() && p.Resuming? && NoStepToTake(e, d, p)
    ensures OnCourse(e, d, p)
  {
    RunningLawful(e, p.stage, p.settings, p.m, p.preview);
    var s, slots := e.Running(p.stage, p.settings, p.m, p.preview), d.Steps(p.stage, p.m.part);
    hide Engine.Lawful, Engine.Running, Best, PlanOf, Sampler.Lawful;
    PlanRows(s, e.Identity(p.stage, p.settings, p.m), e.stepBytes);
    FreshResume(s, PlanOf(s, e.Identity(p.stage, p.settings, p.m), e.stepBytes).key, slots);
  }

  lemma PlanRows(s: Sampler, identity: StepIdentity.Identity, bytes: nat)
    requires s.Lawful()
    ensures
      var key := PlanOf(s, identity, bytes).key;
      key.videoRows == |s.init.latents| - s.cv && key.audioRows == |s.init.audio| - s.ca && key.total == s.total
  {
  }

  /** A history is safe if no preview is ever saved while its part's refinement slots hold a step of another one that
      some run could take for its own. */
  lemma OwnIsSafe(e: Engine, worlds: seq<World>, events: seq<Event>)
    requires e.Lawful() && History(e, worlds, events) && Honest(e, AtKeep, worlds[0].disks) && SafeHistory(e, AtKeep, worlds, events)
    ensures SafeHistory(e, AtResume, worlds, events)
  {
    hide Engine.Lawful, Step, Loose, OnCourse, Honest, Safe;
    assert Inv(e, AtKeep, worlds[0]) by { DeadIsOk(e, AtKeep, worlds[0]); }
    forall i | 0 <= i < |events|
      ensures Safe(e, AtResume, worlds[i], events[i])
    {
      HistoryInv(e, AtKeep, worlds, events, i);
      KeptIsOnCourse(e, worlds[i], events[i]);
    }
  }

  /** So it is if previews are saved only while the part's refinement slots hold no step that some run would accept. */
  lemma KeepFreeIsSafe(e: Engine, worlds: seq<World>, events: seq<Event>)
    requires e.Lawful() && History(e, worlds, events) && Honest(e, AtKeep, worlds[0].disks)
    requires forall i :: 0 <= i < |events| && events[i].Keep? && worlds[i].process.Sampling? ==>
      KeepFree(e, worlds[i].disks.Steps(Main, worlds[i].process.m.part), worlds[i].process.m, worlds[i].process.block)
    ensures SafeHistory(e, AtResume, worlds, events)
  {
    hide Engine.Lawful, Step, OwnSteps, KeepFree, Honest, Loose;
    forall i | 0 <= i < |events|
      ensures Safe(e, AtKeep, worlds[i], events[i])
    {
      if events[i].Keep? && worlds[i].process.Sampling? {
        FreeIsOwn(e, worlds[i].disks.Steps(Main, worlds[i].process.m.part), worlds[i].process.m, worlds[i].process.block);
      }
    }
    OwnIsSafe(e, worlds, events);
  }

  lemma DeadIsOk(e: Engine, g: Guard, w: World)
    requires e.Lawful() && w.process == Dead && Honest(e, g, w.disks)
    ensures Inv(e, g, w)
  {
    hide Engine.Lawful, Honest;
  }

  lemma KeptIsOnCourse(e: Engine, w: World, event: Event)
    requires e.Lawful() && Inv(e, AtKeep, w)
    ensures Safe(e, AtResume, w, event)
  {
    if event.Resume? && w.process.Resuming? && w.process.stage == Main {
      hide Engine.Lawful, Honest, OnCourse, Loose, Valid;
      AnsweredOnCourse(e, AtKeep, w.disks, w.process);
    }
  }

  /** Empty disks are honest. */
  lemma FreshDisksHonest(e: Engine, g: Guard)
    requires e.Lawful()
    ensures Honest(e, g, Disks(map[], map[], map[]))
  {
    hide Engine.Lawful;
  }

  /**
   * Every crash/restart history that finishes, whatever settings its processes ran under, delivers the frames, the
   * repaired soundtrack and the tails of a run that never crashed and never read the cache, as long as no refinement
   * resumes from steps of another preview than its own.
   */
  lemma EveryHistoryIsUninterrupted(e: Engine, worlds: seq<World>, events: seq<Event>, i: nat)
    requires e.Lawful() && History(e, worlds, events) && SafeHistory(e, AtResume, worlds, events) && i < |worlds| && worlds[i].process.Done?
    ensures exists configs: seq<Config> :: |configs| == e.job.segments && Uninterrupted(e.job, configs) == Ok(worlds[i].process.m)
  {
    hide Step, Honest, Engine.Lawful, Safe;
    DeadIsOk(e, AtResume, worlds[0]);
    HistoryInv(e, AtResume, worlds, events, i);
    hide Uninterrupted;
  }

  /** A refinement is about to go on from steps of another preview. */
  ghost predicate OffCourse(e: Engine, w: World)
    requires e.Lawful()
  {
    Loose(e) && w.process.Resuming? && w.process.stage == Main && !OnCourse(e, w.disks, w.process)
  }

  /** From every world of a safe history a live process finishes if it does not crash, unless a refinement comes to
      resume from steps of another preview. */
  lemma {:induction false} Completes(e: Engine, w: World) returns (worlds: seq<World>, events: seq<Event>)
    requires e.Lawful() && Inv(e, AtResume, w) && w.process != Dead
    ensures Path(e, worlds, events) && worlds[0] == w && (forall i :: 0 <= i < |events| ==> !events[i].Crash?)
    ensures worlds[|events|].process.Done? || OffCourse(e, worlds[|events|])
    decreases PartsLeft(e, w.process), StagesLeft(w.process), StepsLeft(e, w.process), OpsLeft(w.process)
  {
    hide Engine.Lawful, Step, Inv, OffCourse, Path;
    if w.process.Done? || OffCourse(e, w) {
      worlds, events := [w], [];
      PathHere(e, w);
    } else {
      var event, w' := Progress(e, AtResume, w);
      SafeIfOnCourse(e, w, event);
      StepKeepsInv(e, AtResume, w, event, w');
      var rest, more := Completes(e, w');
      worlds, events := [w] + rest, [event] + more;
      PathPrepend(e, w, event, rest, more);
    }
  }

  lemma SafeIfOnCourse(e: Engine, w: World, event: Event)
    requires e.Lawful() && !OffCourse(e, w)
    ensures Safe(e, AtResume, w, event)
  {
    hide Engine.Lawful, Loose, OnCourse;
  }

  lemma PathHere(e: Engine, w: World)
    requires e.Lawful()
    ensures Path(e, [w], [])
  {
    hide Engine.Lawful, Step;
  }

  lemma PathPrepend(e: Engine, w: World, event: Event, worlds: seq<World>, events: seq<Event>)
    requires e.Lawful() && Path(e, worlds, events) && Step(e, w, event, worlds[0])
    ensures Path(e, [w] + worlds, [event] + events) && ([w] + worlds)[|events| + 1] == worlds[|events|]
  {
    hide Engine.Lawful, Step;
    var a, b := [w] + worlds, [event] + events;
    forall i | 0 <= i < |b|
      ensures Step(e, a[i], b[i], a[i + 1])
    {
      assert i > 0 ==> Step(e, worlds[i - 1], events[i - 1], worlds[i]);
    }
  }

  /** In a single pass, and where previews do not depend on the settings, every history can be finished from wherever
      it stands, under any known settings if it has to be launched again, and then is an uninterrupted film. */
  lemma EveryHistoryCanFinish(e: Engine, settings: Settings, worlds: seq<World>, events: seq<Event>) returns (more: seq<World>, next: seq<Event>)
    requires e.Lawful() && History(e, worlds, events) && !Loose(e) && settings in e.known
    ensures Path(e, more, next) && more[0] == worlds[|events|] && (forall i :: 0 <= i < |next| ==> !next[i].Crash?)
    ensures more[|next|].process.Done?
    ensures exists configs: seq<Config> :: |configs| == e.job.segments && Uninterrupted(e.job, configs) == Ok(more[|next|].process.m)
  {
    SafeUnlessLoose(e, worlds, events);
    hide Step, Honest, Engine.Lawful, Safe, Inv, Loose, SafeHistory;
    assert Inv(e, AtResume, worlds[0]) by { DeadIsOk(e, AtResume, worlds[0]); }
    HistoryInv(e, AtResume, worlds, events, |events|);
    var w := worlds[|events|];
    if w.process == Dead {
      var w' := World(w.disks, Looking(settings, Start(e.job)));
      OtherStep(e, w, Launch(settings), w');
      SafeIfTight(e, w, Launch(settings));
      StepKeepsInv(e, AtResume, w, Launch(settings), w');
      var rest, after := Completes(e, w');
      more, next := [w] + rest, [Launch(settings)] + after;
      PathPrepend(e, w, Launch(settings), rest, after);
    } else {
      more, next := Completes(e, w);
    }
    TightFinish(e, more, next);
  }

  lemma SafeIfTight(e: Engine, w: World, event: Event)
    requires e.Lawful() && !Loose(e)
    ensures Safe(e, AtResume, w, event) && !OffCourse(e, w)
  {
    hide Engine.Lawful, Loose, OnCourse;
  }

  lemma TightFinish(e: Engine, worlds: seq<World>, events: seq<Event>)
    requires e.Lawful() && !Loose(e) && Path(e, worlds, events) && Inv(e, AtResume, worlds[0])
    requires worlds[|events|].process.Done? || OffCourse(e, worlds[|events|])
    ensures worlds[|events|].process.Done?
    ensures exists configs: seq<Config> :: |configs| == e.job.segments && Uninterrupted(e.job, configs) == Ok(worlds[|events|].process.m)
  {
    hide Step, Honest, Engine.Lawful, Safe, Loose, OffCourse, Uninterrupted;
    forall i | 0 <= i < |events|
      ensures Safe(e, AtResume, worlds[i], events[i])
    {
      SafeIfTight(e, worlds[i], events[i]);
    }
    SafeIfTight(e, worlds[|events|], Work);
    HistoryInv(e, AtResume, worlds, events, |events|);
  }

  lemma {:induction false} ConfigsDoNotMatter(job: Job, a: seq<Config>, b: seq<Config>)
    requires |a| == |b| && forall c1, c2, part, high, low :: job.sample(c1, part, high, low) == job.sample(c2, part, high, low)
    ensures Uninterrupted(job, a) == Uninterrupted(job, b)
  {
    if a != [] {
      ConfigsDoNotMatter(job, a[..|a| - 1], b[..|b| - 1]);
      hide Sampled;
    }
  }

  /** With samplers that do not depend on the settings there is one film: any two histories that finish deliver the
      same frames, soundtrack and tails, however often and wherever they crashed. */
  lemma AnyTwoHistoriesAgree(e: Engine, w1: seq<World>, e1: seq<Event>, i: nat, w2: seq<World>, e2: seq<Event>, j: nat)
    requires e.Lawful() && !Loose(e)
    requires forall c1, c2, part, high, low :: e.job.sample(c1, part, high, low) == e.job.sample(c2, part, high, low)
    requires History(e, w1, e1) && i < |w1| && w1[i].process.Done?
    requires History(e, w2, e2) && j < |w2| && w2[j].process.Done?
    ensures w1[i].process.m == w2[j].process.m
  {
    SafeUnlessLoose(e, w1, e1);
    SafeUnlessLoose(e, w2, e2);
    hide SafeHistory;
    EveryHistoryIsUninterrupted(e, w1, e1, i);
    EveryHistoryIsUninterrupted(e, w2, e2, j);
    hide Engine.Lawful, History, Uninterrupted;
    var a: seq<Config> :| |a| == e.job.segments && Uninterrupted(e.job, a) == Ok(w1[i].process.m);
    var b: seq<Config> :| |b| == e.job.segments && Uninterrupted(e.job, b) == Ok(w2[j].process.m);
    ConfigsDoNotMatter(e.job, a, b);
  }

  /* Why previews must be saved safely: a refinement checkpoint is not bound to its preview. */

  /** n more steps of a sampler. */
  ghost function RunOn(t: Sampler, k: nat, block: Block, n: nat): Block
    requires t.Lawful() && t.SameSize(block)
    decreases n
  {
    if n == 0 then block
    else
      KeepsConditions(t, t.step(k, block));
      RunOn(t, k + 1, t.Protect(t.step(k, block)), n - 1)
  }

  /** Two refinements that start from different previews and are otherwise alike. */
  ghost predicate OtherStart(s: Sampler, t: Sampler) {
    && t == s.(init := t.init) && s.SameSize(t.init)
    && s.cv <= |s.init.latents| && t.init.latents[..s.cv] == s.init.latents[..s.cv]
    && s.ca <= |s.init.audio| && t.init.audio[..s.ca] == s.init.audio[..s.ca]
  }

  lemma {:induction false} RunOnFollows(s: Sampler, t: Sampler, k: nat, n: nat)
    requires s.Lawful() && t.Lawful() && OtherStart(s, t)
    ensures t.SameSize(s.Trajectory(k)) && RunOn(t, k, s.Trajectory(k), n) == s.Trajectory(k + n)
    decreases n
  {
    if n > 0 {
      TrajectoryStep(s, k);
      RunOnFollows(s, t, k + 1, n - 1);
    }
  }

  /**
   * Slots written while refining preview p are accepted while refining preview q of the same part, tail and
   * configuration. If they hold any step, the stage then ends with p's window although its low-resolution tail is
   * q's; only without one does it end with q's window.
   */
  lemma RefinementIsNotBoundToPreview(e: Engine, config: Settings, m: Memory, p: Block, q: Block, d: Slots)
    requires e.SamplersLawful()
    requires OtherStart(e.sampler(config, m.part, m.high, Some(p)), e.sampler(config, m.part, m.high, Some(q)))
    requires Truthful(d, PlanOf(e.sampler(config, m.part, m.high, Some(p)), e.Identity(Main, config, m), e.stepBytes))
    ensures
      var s, t := e.sampler(config, m.part, m.high, Some(p)), e.sampler(config, m.part, m.high, Some(q));
      var key := PlanOf(t, e.Identity(Main, config, m), e.stepBytes).key;
      && t.SameSize(ResumeBlock(t, key, d)) && Best(d, key) <= t.total
      && RunOn(t, Best(d, key), ResumeBlock(t, key, d), t.total - Best(d, key)) == EndOf(if Best(d, key) > 0 then s else t)
  {
    var s, t := e.sampler(config, m.part, m.high, Some(p)), e.sampler(config, m.part, m.high, Some(q));
    assert s.Lawful() && t.Lawful();
    StaleSlots(s, t, e.Identity(Main, config, m), e.stepBytes, d);
  }

  lemma StaleSlots(s: Sampler, t: Sampler, identity: StepIdentity.Identity, bytes: nat, d: Slots)
    requires s.Lawful() && t.Lawful() && OtherStart(s, t) && Truthful(d, PlanOf(s, identity, bytes))
    ensures
      var key := PlanOf(t, identity, bytes).key;
      && t.SameSize(ResumeBlock(t, key, d)) && Best(d, key) <= t.total
      && RunOn(t, Best(d, key), ResumeBlock(t, key, d), t.total - Best(d, key)) == EndOf(if Best(d, key) > 0 then s else t)
  {
    hide *;
    SameKey(s, t, identity, bytes);
    var key := PlanOf(t, identity, bytes).key;
    ResumeTruthful(s, identity, bytes, d);
    var k := Best(d, key);
    if k > 0 {
      SameResume(s, t, key, d);
      RunOnFollows(s, t, k, t.total - k);
      assert EndOf(s) == s.Trajectory(s.total) by { EndUnfold(s); }
    } else {
      FreshResume(t, key, d);
      SameStart(t);
      RunOnFollows(t, t, 0, t.total);
      assert EndOf(t) == t.Trajectory(t.total) by { EndUnfold(t); }
    }
  }

  lemma EndUnfold(s: Sampler)
    requires s.Lawful()
    ensures EndOf(s) == s.Trajectory(s.total)
  {
  }

  lemma SameKey(s: Sampler, t: Sampler, identity: StepIdentity.Identity, bytes: nat)
    requires s.Lawful() && t.Lawful() && OtherStart(s, t)
    ensures PlanOf(t, identity, bytes).key == PlanOf(s, identity, bytes).key && t.total == s.total
    ensures PlanOf(s, identity, bytes).key.videoRows == |s.init.latents| - s.cv && PlanOf(s, identity, bytes).key.audioRows == |s.init.audio| - s.ca
    ensures PlanOf(t, identity, bytes).key.videoRows == |t.init.latents| - t.cv && PlanOf(t, identity, bytes).key.audioRows == |t.init.audio| - t.ca
  {
  }

  lemma FreshResume(t: Sampler, key: Key, d: Slots)
    requires t.Lawful() && Best(d, key) == 0
    requires key.videoRows == |t.init.latents| - t.cv && key.audioRows == |t.init.audio| - t.ca
    ensures ResumeBlock(t, key, d) == t.Trajectory(0)
  {
    hide Best;
  }

  lemma SameStart(t: Sampler)
    requires t.Lawful()
    ensures OtherStart(t, t)
  {
  }

  lemma SameResume(s: Sampler, t: Sampler, key: Key, d: Slots)
    requires s.Lawful() && t.Lawful() && OtherStart(s, t) && Best(d, key) > 0
    requires key.videoRows == |s.init.latents| - s.cv && key.audioRows == |s.init.audio| - s.ca
    ensures ResumeBlock(t, key, d) == ResumeBlock(s, key, d)
  {
    hide Level, StepStore.Rows, Restored, Bound.FitsBlock;
    var n := if Level(d, 1, key) > Level(d, 0, key) then 1 else 0;
    assert t.Resumed(StepStore.Rows(d, n, key)) == s.Resumed(StepStore.Rows(d, n, key));
  }

  /* What the cache does not tell apart. */

  /** Two jobs may ask for the same cached window exactly when these agree; how many passes they take is not among them. */
  lemma InputsAliasIff(a: Job, m: Memory, b: Job, n: Memory)
    requires a.Lawful() && Valid(a, m) && b.Lawful() && Valid(b, n)
    ensures InputsFor(a, m) == InputsFor(b, n) <==>
      (&& a.model == b.model && a.request == b.request && a.refineSteps == b.refineSteps
       && m.part == n.part && m.high == n.high && m.low == n.low
       && a.SourceFrames() + m.cursor + NewFrames(a, m.high) == b.SourceFrames() + n.cursor + NewFrames(b, n.high))
  {
    hide *;
    ValidPredecessor(a, m);
    ValidPredecessor(b, n);
    InputsParts(a, m);
    InputsParts(b, n);
    if PairStream(m.high, m.low) == PairStream(n.high, n.low) {
      PairStreamInjective(m.high, m.low, n.high, n.low);
    }
  }

  lemma ValidPredecessor(job: Job, m: Memory)
    requires job.Lawful() && Valid(job, m)
    ensures Predecessor(m.high, m.low)
  {
    ValidConsistent(job, m);
    hide Job.Lawful, Valid, Clock.Emitted, Clock.AudioOrigin, Clock.Aligned, PlanCursor, Predecessor, ValidPair, Concat;
  }

  lemma InputsParts(job: Job, m: Memory)
    ensures InputsFor(job, m) == Inputs(
      job.model, Sha256(StageKey(job.request, job.refineSteps, m.part)), Sha256(PairStream(m.high, m.low)),
      job.SourceFrames() + m.cursor + NewFrames(job, m.high))
  {
    hide PairStream;
  }

  /** So the first window a single-pass job commits is loaded, as it is, by a two-pass job of the same request over the
      same cache, whose own window would have another low-resolution tail; and the other way round. */
  lemma PassesShareTheCache(a: Job, b: Job, config: Config, d: Cache, ids: (nat, nat, nat))
    requires a.Lawful() && b.Lawful() && a.twoPass != b.twoPass
    requires a.model == b.model && a.request == b.request && a.refineSteps == b.refineSteps && a.frames == b.frames && a.source == b.source
    ensures
      var r := Sampled(a, Start(a), a.sample(config, 0, Start(a).high, Start(a).low));
      && r.Ok?
      && Load(WriteFor(a, Start(a), r.value.1, ids).Committed(d), 0, InputsFor(b, Start(b)), NewFrames(b, Start(b).high)) == Ok(r.value.1)
  {
    hide *;
    ConsistentStart(a);
    SameStarts(a, b);
    LawfulSizes(a);
    var m := Start(a);
    SampledIsConsistent(a, m, config);
    var r := Sampled(a, m, a.sample(config, 0, m.high, m.low)).value;
    var w := WriteFor(a, m, r.1, ids);
    WriteParts(a, m, r.1, ids);
    PayloadSize(a, m, a.sample(config, 0, m.high, m.low), r.1);
    NextCursorIs(a, m, r.1);
    CommittedReads(d, w);
    MarkerIs(w);
    CommittedLoads(w.Committed(d), 0, r.1, InputsFor(a, m), a.stateBytes, InputsFor(b, m), NewFrames(b, m.high));
  }

  lemma SameStarts(a: Job, b: Job)
    requires a.model == b.model && a.request == b.request && a.refineSteps == b.refineSteps && a.frames == b.frames && a.source == b.source
    ensures Start(a) == Start(b) && InputsFor(a, Start(a)) == InputsFor(b, Start(b)) && Start(a).part == 0
    ensures NewFrames(a, Start(a).high) == NewFrames(b, Start(b).high)
  {
    hide ContextHash;
  }

  lemma LawfulSizes(a: Job)
    requires a.Lawful()
    ensures 128 <= a.stateBytes <= MAX_FILE_BYTES && a.height > 0 && a.width > 0 && a.segments >= 1
  {
    PlanPositive(a);
  }

  lemma WriteParts(job: Job, m: Memory, p: Payload, ids: (nat, nat, nat))
    ensures
      var w := WriteFor(job, m, p, ids);
      w.part == m.part && w.payload == p && w.inputs == InputsFor(job, m) && w.stateBytes == job.stateBytes
    ensures InputsFor(job, m).totalFrames == job.SourceFrames() + m.cursor + NewFrames(job, m.high)
  {
    hide ContextHash;
  }

  lemma MarkerIs(w: Write)
    ensures w.Marker() == StateContent(MarkerOf(w.payload, w.inputs, w.stateBytes))
  {
    hide MarkerOf;
  }

  lemma NextCursorIs(job: Job, m: Memory, p: Payload)
    ensures Next(job, m, p).cursor == m.cursor + NewFrames(job, m.high)
  {
  }

  lemma PayloadSize(job: Job, m: Memory, w: Window, p: Payload)
    requires PayloadOk(job, ClocksOf(job, m.cursor, m.audioCursor, m.high), m.high, w, p)
    ensures p.video.height == job.height && p.video.width == job.width && |p.video.frames| == NewFrames(job, m.high)
  {
    hide AudioOk, TailOk, LowOk, LowTail;
  }
}
