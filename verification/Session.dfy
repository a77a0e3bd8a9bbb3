/** One session of the rolling render as the source runs it: audio chunks are arrays, each seam is repaired in
    place in the previous chunk, and the cache is read and written along the way. */
module Session {
  import opened Basics
  import opened Seam
  import opened Contexts
  import opened Disk
  import opened SegmentCache
  import opened Render
  import opened StepIdentity
  import Recovery
  import Clock

  type Chunk = array<real>

  ghost predicate Distinct(chunks: seq<Chunk>) {
    forall i, j :: 0 <= i < j < |chunks| ==> chunks[i] != chunks[j]
  }

  ghost function Contents(chunks: seq<Chunk>): seq<Pcm>
    reads chunks
  {
    if chunks == [] then [] else Contents(chunks[..|chunks| - 1]) + [chunks[|chunks| - 1][..]]
  }

  lemma {:induction false} ContentsAt(chunks: seq<Chunk>)
    ensures |Contents(chunks)| == |chunks|
    ensures forall i :: 0 <= i < |chunks| ==> Contents(chunks)[i] == chunks[i][..]
  {
    if chunks != [] {
      ContentsAt(chunks[..|chunks| - 1]);
    }
  }

  /** Append a window's PCM to the chunks; the seam repair changes the last chunk in place and no other. */
  method AppendWindow(chunks: seq<Chunk>, pcm: Pcm, desired: int) returns (r: Result<seq<Chunk>>)
    requires Distinct(chunks)
    modifies if chunks == [] then {} else {chunks[|chunks| - 1]}
    ensures r.Raised? <==> WindowRaises(pcm, desired)
    ensures r.Ok? ==> |r.value| == |chunks| + 1 && r.value[..|chunks|] == chunks && fresh(r.value[|chunks|])
    ensures r.Ok? ==> Contents(r.value) == Append(old(Contents(chunks)), Normalize(pcm, desired))
  {
    ghost var before := Contents(chunks);
    ContentsAt(chunks);
    var last: array?<real> := null;
    if chunks != [] {
      last := chunks[|chunks| - 1];
    }
    var window := TemporalAudioWindow(last, pcm, desired);
    if window.Raised? {
      return Raised;
    }
    var all := chunks + [window.value];
    ContentsAt(all);
    ghost var wanted := Append(before, Normalize(pcm, desired));
    assert |wanted| == |all|;
    forall i | 0 <= i < |all|
      ensures Contents(all)[i] == wanted[i]
    {
      if i < |chunks| - 1 {
        assert all[i] == chunks[i] && chunks[i] != chunks[|chunks| - 1];
      }
    }
    r := Ok(all);
  }

  /** The loop's variables. */
  datatype Vars = Vars(cursor: int, audioCursor: int, frames: seq<Frame>, chunks: seq<Chunk>, high: Option<Context>, low: Option<Context>)

  ghost function View(part: nat, v: Vars): Memory
    reads v.chunks
  {
    Memory(part, v.cursor, v.audioCursor, v.frames, Contents(v.chunks), v.high, v.low)
  }

  /** The cached branch of the loop. */
  method RecoverWindow(job: Job, part: nat, v: Vars, p: Payload) returns (r: Result<Vars>)
    requires Distinct(v.chunks)
    modifies if v.chunks == [] then {} else {v.chunks[|v.chunks| - 1]}
    ensures r.Ok? <==> Recovered(job, old(View(part, v)), p).Ok?
    ensures r.Ok? ==> View(part + 1, r.value) == Recovered(job, old(View(part, v)), p).value
    ensures r.Ok? ==> |r.value.chunks| == |v.chunks| + 1 && r.value.chunks[..|v.chunks|] == v.chunks && fresh(r.value.chunks[|v.chunks|])
  {
    hide Append, Normalize, WindowRaises, Clock.Emitted, Contents;
    var count := NewFrames(job, v.high);
    if count < 0 || p.video.height != job.height || p.video.width != job.width {
      return Raised;
    }
    var expected := Clock.Emitted(v.cursor + count) - Clock.Emitted(v.cursor);
    if |p.pcm| != expected {
      return Raised;
    }
    var chunks := AppendWindow(v.chunks, p.pcm, expected);
    if chunks.Raised? {
      return Raised;
    }
    NormalizedLength(p.pcm, expected);
    r := Ok(Vars(v.cursor + count, v.audioCursor + expected, v.frames + p.video.frames, chunks.value, Some(p.high), Some(p.low)));
  }

  lemma NormalizedLength(pcm: Pcm, desired: int)
    requires !WindowRaises(pcm, desired)
    ensures desired >= 0 && |Normalize(pcm, desired)| == desired
  {
  }

  /** The sampled branch of the loop: the cached PCM is a separate array from the one whose seam is repaired. */
  method SampleWindow(job: Job, part: nat, v: Vars, w: Window) returns (r: Result<(Vars, Payload)>)
    requires Distinct(v.chunks)
    modifies if v.chunks == [] then {} else {v.chunks[|v.chunks| - 1]}
    ensures r.Ok? <==> Sampled(job, old(View(part, v)), w).Ok?
    ensures r.Ok? ==> View(part + 1, r.value.0) == Sampled(job, old(View(part, v)), w).value.0
    ensures r.Ok? ==> r.value.1 == Sampled(job, old(View(part, v)), w).value.1
    ensures r.Ok? ==> |r.value.0.chunks| == |v.chunks| + 1 && r.value.0.chunks[..|v.chunks|] == v.chunks && fresh(r.value.0.chunks[|v.chunks|])
  {
    hide Append, Normalize, WindowRaises, Clock.Emitted, Contents, Capture, Generated, Clock.Wanted, LowTail;
    var c := ClocksOf(job, v.cursor, v.audioCursor, v.high);
    var next := Clock.NextCursor(c, job.frames);
    if |w.video.frames| != job.frames || NewFrames(job, v.high) < 0 || next < 0 {
      return Raised;
    }
    var wanted := Clock.Wanted(c, job.frames);
    var cachePcm := TemporalAudioWindow(null, Generated(v.high, w.pcm), wanted);
    if cachePcm.Raised? {
      return Raised;
    }
    var pcm := cachePcm.value[..];
    var chunks := AppendWindow(v.chunks, pcm, wanted);
    if chunks.Raised? {
      return Raised;
    }
    NormalizedLength(pcm, wanted);
    var tail := Capture(w.latents, HIGH_PLANE, Clock.WindowStart(c), c.source + next);
    if tail.None? {
      return Raised;
    }
    var lowTail := LowTail(job, c, w, tail.value);
    if lowTail.None? {
      return Raised;
    }
    var low := lowTail.value;
    var p := Payload(NewVideo(job, v.high, w), cachePcm.value[..], tail.value, low);
    assert cachePcm.value[..] == pcm;
    r := Ok((Vars(next, v.audioCursor + wanted, v.frames + p.video.frames, chunks.value, Some(tail.value), Some(low)), p));
  }

  ghost predicate AllHonest(job: Job, log: seq<Cache>, from: nat) {
    forall i :: from <= i < |log| ==> Recovery.HonestCache(job, log[i])
  }

  /** A session that is not interrupted: whichever windows it finds in the cache, however many saves fail or are
      bypassed, it delivers the film of an uninterrupted run, and every directory it passes through is honest. */
  method RenderTemporalVideo(job: Job, store: Store, config: nat -> Config, free: nat -> nat, fault: nat -> Fault, ids: nat -> (nat, nat, nat))
    returns (v: Vars, soundtrack: Pcm)
    requires job.Lawful() && Recovery.HonestCache(job, store.dir.files)
    modifies store.dir
    ensures job.segments >= 0 && Valid(job, View(job.segments, v)) && soundtrack == Concat(Contents(v.chunks))
    ensures Recovery.HonestCache(job, store.dir.files) && AllHonest(job, store.dir.log, |old(store.dir.log)|)
  {
    hide *;
    ghost var log := |store.dir.log|;
    var m := Start(job);
    v := Vars(m.cursor, m.audioCursor, m.frames, [], m.high, m.low);
    StartView(job, v);
    ValidStart(job);
    Segments(job);
    NothingLogged(job, store.dir.log);
    for part := 0 to job.segments
      invariant Valid(job, View(part, v))
      invariant Distinct(v.chunks) && fresh(v.chunks)
      invariant Recovery.HonestCache(job, store.dir.files)
      invariant log <= |store.dir.log| && AllHonest(job, store.dir.log, log)
    {
      v := RenderWindow(job, store, part, v, config(part), free(part), fault(part), ids(part), log);
    }
    soundtrack := Joined(v.chunks);
  }

  lemma StartView(job: Job, v: Vars)
    requires v == Vars(Start(job).cursor, Start(job).audioCursor, Start(job).frames, [], Start(job).high, Start(job).low)
    ensures View(0, v) == Start(job) && Distinct(v.chunks)
  {
  }

  lemma NothingLogged(job: Job, log: seq<Cache>)
    ensures AllHonest(job, log, |log|)
  {
  }

  lemma Segments(job: Job)
    requires job.Lawful()
    ensures job.segments >= 0
  {
  }

  lemma HonestLog(job: Job, log: seq<Cache>, more: seq<Cache>, from: nat)
    requires AllHonest(job, log, from) && from <= |log| && AllHonest(job, more, 0)
    ensures AllHonest(job, log + more, from)
  {
    hide Recovery.HonestCache;
  }

  /** `numpy.concatenate` of the chunks. */
  method Joined(chunks: seq<Chunk>) returns (pcm: Pcm)
    ensures pcm == Concat(Contents(chunks))
  {
    pcm := [];
    assert Concat(Contents(chunks[..0])) == [];
    for i := 0 to |chunks|
      invariant pcm == Concat(Contents(chunks[..i]))
    {
      ghost var done := chunks[..i + 1];
      assert done[..|done| - 1] == chunks[..i];
      ConcatAppend(Contents(chunks[..i]), chunks[i][..]);
      pcm := pcm + chunks[i][..];
    }
    assert chunks[..|chunks|] == chunks;
  }

  lemma ViewInputs(job: Job, part: nat, v: Vars, inputs: Inputs)
    requires inputs == Inputs(job.model, Sha256(StageKey(job.request, job.refineSteps, part)), ContextHash(v.high, v.low),
                              job.SourceFrames() + v.cursor + NewFrames(job, v.high))
    ensures inputs == Recovery.InputsFor(job, View(part, v))
    ensures View(part, v).part == part && View(part, v).high == v.high && View(part, v).low == v.low && View(part, v).cursor == v.cursor
  {
  }

  lemma StillDistinct(chunks: seq<Chunk>, more: seq<Chunk>)
    requires Distinct(chunks) && |more| == |chunks| + 1 && more[..|chunks|] == chunks && more[|chunks|] !in chunks
    ensures Distinct(more)
  {
    assert forall i :: 0 <= i < |chunks| ==> more[i] == more[..|chunks|][i];
  }

  lemma DiscardLog(job: Job, d: Cache, part: nat, log: seq<Cache>, from: nat)
    requires Recovery.HonestCache(job, d) && AllHonest(job, log, from) && from <= |log|
    ensures Recovery.HonestCache(job, Discarded(d, part))
    ensures AllHonest(job, log + DiscardTrace(d, part), from)
  {
    hide Recovery.HonestCache;
    forall i | 0 <= i < 3
      ensures Recovery.HonestCache(job, DiscardTrace(d, part)[i])
    {
      Recovery.DiscardHonest(job, d, part, i);
    }
    assert DiscardTrace(d, part)[2] == Discarded(d, part);
    HonestLog(job, log, DiscardTrace(d, part), from);
  }

  lemma SaveLog(job: Job, d: Cache, m: Memory, config: Config, w: Write, fault: Fault, log: seq<Cache>, from: nat)
    requires job.Lawful() && Valid(job, m) && m.part < job.segments && Recovery.HonestCache(job, d)
    requires Sampled(job, m, job.sample(config, m.part, m.high, m.low)).Ok?
    requires w == Write(m.part, Sampled(job, m, job.sample(config, m.part, m.high, m.low)).value.1, Recovery.InputsFor(job, m), job.stateBytes, w.ids)
    requires AllHonest(job, log, from) && from <= |log|
    ensures Storable(w.payload, w.inputs.totalFrames) && !TooLarge(w, fault)
    ensures Recovery.HonestCache(job, SaveEnd(d, w, fault))
    ensures AllHonest(job, log + SaveTrace(d, w, fault), from)
  {
    assert w.stateBytes <= MAX_FILE_BYTES;
    assert Recovery.MatchesSample(job, m, config, MarkerOf(w.payload, w.inputs, w.stateBytes));
    hide Recovery.HonestCache, SaveTrace, SaveEnd, Recovery.MatchesSample, Recovery.HonestMarker, Storable;
    Recovery.MarkerIsHonest(job, m, config, MarkerOf(w.payload, w.inputs, w.stateBytes));
    forall i | 0 <= i < |SaveTrace(d, w, fault)|
      ensures Recovery.HonestCache(job, SaveTrace(d, w, fault)[i])
    {
      Recovery.SaveHonest(job, d, w, fault, i);
    }
    SaveEndsTrace(d, w, fault);
    HonestLog(job, log, SaveTrace(d, w, fault), from);
    SampledStorable(job, m, config);
  }

  lemma SampledStorable(job: Job, m: Memory, config: Config)
    requires job.Lawful() && Valid(job, m) && m.part < job.segments
    ensures
      var r := Sampled(job, m, job.sample(config, m.part, m.high, m.low));
      r.Ok? && Storable(r.value.1, Recovery.InputsFor(job, m).totalFrames)
  {
    hide Job.Lawful, Valid, Sampled, Consistent, PayloadOk, Storable;
    ValidConsistent(job, m);
    SampledIsConsistent(job, m, config);
  }

  /** One pass of the loop over parts. */
  method RenderWindow(job: Job, store: Store, part: nat, v: Vars, config: Config, free: nat, fault: Fault, ids: (nat, nat, nat), ghost from: nat)
    returns (v': Vars)
    requires job.Lawful() && part < job.segments && Valid(job, View(part, v)) && Distinct(v.chunks)
    requires Recovery.HonestCache(job, store.dir.files) && from <= |store.dir.log| && AllHonest(job, store.dir.log, from)
    modifies store.dir, if v.chunks == [] then {} else {v.chunks[|v.chunks| - 1]}
    ensures Valid(job, View(part + 1, v')) && Distinct(v'.chunks)
    ensures |v'.chunks| == |v.chunks| + 1 && v'.chunks[..|v.chunks|] == v.chunks && fresh(v'.chunks[|v.chunks|])
    ensures Recovery.HonestCache(job, store.dir.files) && from <= |store.dir.log| && AllHonest(job, store.dir.log, from)
  {
    hide *;
    ghost var m := View(part, v);
    var inputs := Inputs(job.model, Sha256(StageKey(job.request, job.refineSteps, part)), ContextHash(v.high, v.low),
                         job.SourceFrames() + v.cursor + NewFrames(job, v.high));
    ViewInputs(job, part, v, inputs);
    var found := Load(store.dir.files, part, inputs, NewFrames(job, v.high));
    if found.Ok? {
      Recovery.HitIsValid(job, store.dir.files, m, found.value);
      var r := RecoverWindow(job, part, v, found.value);
      v' := r.value;
      StillDistinct(v.chunks, v'.chunks);
      return;
    }
    ghost var before := store.dir.files;
    DiscardLog(job, store.dir.files, part, store.dir.log, from);
    store.DiscardSegment(part);
    var w := job.sample(config, part, v.high, v.low);
    ValidNext(job, m, config);
    var r := SampleWindow(job, part, v, w);
    v' := r.value.0;
    StillDistinct(v.chunks, v'.chunks);
    var write := Write(part, r.value.1, inputs, job.stateBytes, ids);
    SaveLog(job, store.dir.files, m, config, write, fault, store.dir.log, from);
    var saved := store.SaveSegment(write, free, fault);
  }
}
