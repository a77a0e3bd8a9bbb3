/** The crash-safe cache of finished windows: two data files and a commit marker, written last, per part. */
module SegmentCache {
  import opened Basics
  import opened Decimal
  import opened Disk
  import opened Contexts
  import opened Seam

  const SCHEMA := "little-monkey-vdn-segment-cache-v1"
  const MAX_FRAMES := 360
  const MAX_CANVAS_PIXELS := 1032192
  const MAX_AUDIO_SAMPLES := 600000
  const MAX_JOB_CACHE_BYTES := 12884901888
  const MIN_DISK_RESERVE_BYTES := 1073741824

  type Frame = seq<Byte>
  datatype Video = Video(frames: seq<Frame>, height: nat, width: nat)
  {
    function Bytes(): nat { |frames| * (height * width * 3) }
  }

  /** What a finished window contributes: new frames, un-smoothed PCM, and both tails. */
  datatype Payload = Payload(video: Video, pcm: Pcm, high: Context, low: Context)

  /** What the stage hash binds. */
  datatype StageKey = StageKey(request: string, refineSteps: nat, part: nat)

  /** The inputs a window was sampled for. */
  datatype Inputs = Inputs(model: string, request: Digest<StageKey>, predecessor: Digest<seq<Byte>>, totalFrames: int)

  /** The state file: tensors and metadata. */
  datatype Marker = Marker(
    schema: string, inputs: Inputs, frameOrigin: nat, audioOrigin: nat,
    frames: nat, height: nat, width: nat, samples: nat,
    videoSha: Digest<Video>, audioSha: Digest<Pcm>,
    tensors: Tensors, payloadSha: Digest<Tensors>, bytes: nat)

  datatype Entry = Rgb(part: nat) | PcmData(part: nat) | State(part: nat)
  datatype Content = RgbContent(video: Video) | PcmContent(pcm: Pcm) | StateContent(marker: Marker)

  type Cache = Dir<Entry, Content>

  predicate CanvasOk(frames: nat, height: nat, width: nat) {
    1 <= frames <= MAX_FRAMES && height * width <= MAX_CANVAS_PIXELS && height % 32 == 0 && width % 32 == 0
  }

  /** What `save_segment` accepts without raising. */
  predicate Storable(p: Payload, total: int) {
    && CanvasOk(|p.video.frames|, p.video.height, p.video.width)
    && 1 <= |p.pcm| <= MAX_AUDIO_SAMPLES
    && ValidPair(p.high, p.low, total)
  }

  function MarkerFor(p: Payload, inputs: Inputs, videoSha: Digest<Video>, audioSha: Digest<Pcm>, bytes: nat): Marker {
    var tensors := (p.high.video, p.high.audio, p.low.video, p.low.audio);
    Marker(SCHEMA, inputs, p.high.frameOrigin, p.high.audioOrigin,
           |p.video.frames|, p.video.height, p.video.width, |p.pcm|,
           videoSha, audioSha, tensors, Sha256(tensors), bytes)
  }

  function MarkerOf(p: Payload, inputs: Inputs, bytes: nat): Marker {
    MarkerFor(p, inputs, Sha256(p.video), Sha256(p.pcm), bytes)
  }

  function High(m: Marker): Context {
    Context(m.tensors.0, m.tensors.1, m.frameOrigin, m.audioOrigin)
  }

  function Low(m: Marker): Context {
    Context(m.tensors.2, m.tensors.3, m.frameOrigin, m.audioOrigin)
  }

  /** `_read` of the state file, and every check of it that does not look at the data files. */
  predicate Accepts(m: Marker, inputs: Inputs, frames: int) {
    && 128 <= m.bytes <= MAX_FILE_BYTES && m.schema == SCHEMA && m.payloadSha == Sha256(m.tensors)
    && m.inputs == inputs
    && m.frames == frames && CanvasOk(m.frames, m.height, m.width) && m.height > 0 && m.width > 0
    && 1 <= m.samples <= MAX_AUDIO_SAMPLES
    && ValidPair(High(m), Low(m), inputs.totalFrames)
  }

  /** `load_segment`. */
  function Load(d: Cache, part: nat, inputs: Inputs, frames: int): Result<Payload> {
    var state, rgb, pcm := Read(d, State(part)), Read(d, Rgb(part)), Read(d, PcmData(part));
    if state.None? || !state.value.StateContent? || !Accepts(state.value.marker, inputs, frames)
       || rgb.None? || !rgb.value.RgbContent? || pcm.None? || !pcm.value.PcmContent? then Raised
    else
      var m, v, a := state.value.marker, rgb.value.video, pcm.value.pcm;
      if |v.frames| == m.frames && v.height == m.height && v.width == m.width && |a| == m.samples
         && Sha256(v) == m.videoSha && Sha256(a) == m.audioSha
      then Ok(Payload(v, a, High(m), Low(m))) else Raised
  }

  /** Whatever became of the data files, a marker only ever yields the payload it was written for. */
  lemma LoadIsCommitted(d: Cache, part: nat, p: Payload, written: Inputs, bytes: nat, inputs: Inputs, frames: int)
    requires Read(d, State(part)) == Some(StateContent(MarkerOf(p, written, bytes)))
    requires p.low.frameOrigin == p.high.frameOrigin && p.low.audioOrigin == p.high.audioOrigin
    ensures Load(d, part, inputs, frames) == Raised || Load(d, part, inputs, frames) == Ok(p)
    ensures Load(d, part, inputs, frames).Ok? ==> inputs == written && frames == |p.video.frames|
  {
  }

  /** A committed window loads back exactly when it is asked for with its own inputs and length. */
  lemma CommittedLoads(d: Cache, part: nat, p: Payload, written: Inputs, bytes: nat, inputs: Inputs, frames: int)
    requires Storable(p, written.totalFrames) && p.video.height > 0 && p.video.width > 0
    requires 128 <= bytes <= MAX_FILE_BYTES
    requires Read(d, State(part)) == Some(StateContent(MarkerOf(p, written, bytes)))
    requires Read(d, Rgb(part)) == Some(RgbContent(p.video)) && Read(d, PcmData(part)) == Some(PcmContent(p.pcm))
    ensures Load(d, part, inputs, frames) ==
      if inputs == written && frames == |p.video.frames| then Ok(p) else Raised
  {
    var m := MarkerOf(p, written, bytes);
    assert High(m) == p.high && Low(m) == p.low;
  }

  lemma LoadReads(d: Cache, d': Cache, part: nat, inputs: Inputs, frames: int)
    requires forall e :: e in {State(part), Rgb(part), PcmData(part)} ==> Read(d', e) == Read(d, e)
    ensures Load(d', part, inputs, frames) == Load(d, part, inputs, frames)
  {
    assert Read(d', State(part)) == Read(d, State(part));
    assert Read(d', Rgb(part)) == Read(d, Rgb(part));
    assert Read(d', PcmData(part)) == Read(d, PcmData(part));
  }

  /* Saving: the directories in order. */

  /** A full disk met while writing one of the files. */
  datatype Fault = NoFault | RgbFull(done: nat) | PcmFull(done: nat) | StateFull(done: nat)

  datatype Write = Write(part: nat, payload: Payload, inputs: Inputs, stateBytes: nat, ids: (nat, nat, nat))
  {
    function PcmBytes(): nat { 8 * |payload.pcm| }
    function Marker(): Content { StateContent(MarkerOf(payload, inputs, stateBytes)) }
    /** After the stale marker is gone, after the frames, after the PCM, after the marker. */
    function Cleared(d: Cache): Cache { Unlinked(d, State(part)) }
    function WithRgb(d: Cache): Cache { Renamed(Cleared(d), ids.0, Rgb(part), RgbContent(payload.video)) }
    function WithPcm(d: Cache): Cache { Renamed(WithRgb(d), ids.1, PcmData(part), PcmContent(payload.pcm)) }
    function Committed(d: Cache): Cache { Renamed(WithPcm(d), ids.2, State(part), Marker()) }
    function RgbTrace(d: Cache): seq<Cache> { WriteTrace(Cleared(d), ids.0, Rgb(part), RgbContent(payload.video), payload.video.Bytes()) }
    function PcmTrace(d: Cache): seq<Cache> { WriteTrace(WithRgb(d), ids.1, PcmData(part), PcmContent(payload.pcm), PcmBytes()) }
    function StateTrace(d: Cache): seq<Cache> { WriteTrace(WithPcm(d), ids.2, State(part), Marker(), stateBytes) }
  }

  function Discarded(d: Cache, part: nat): Cache {
    Unlinked(Unlinked(Unlinked(d, State(part)), Rgb(part)), PcmData(part))
  }

  /** The marker goes first. */
  function DiscardTrace(d: Cache, part: nat): seq<Cache> {
    [Unlinked(d, State(part)), Unlinked(Unlinked(d, State(part)), Rgb(part)), Discarded(d, part)]
  }

  function SaveTrace(d: Cache, w: Write, fault: Fault): seq<Cache> {
    [w.Cleared(d)] +
    match fault
    case NoFault => w.RgbTrace(d) + w.PcmTrace(d) + w.StateTrace(d)
    case RgbFull(k) => FailTrace(w.Cleared(d), w.ids.0, k) + DiscardTrace(w.Cleared(d) - {Temp(w.ids.0)}, w.part)
    case PcmFull(k) => w.RgbTrace(d) + FailTrace(w.WithRgb(d), w.ids.1, k) + DiscardTrace(w.WithRgb(d) - {Temp(w.ids.1)}, w.part)
    case StateFull(k) =>
      w.RgbTrace(d) + w.PcmTrace(d) + FailTrace(w.WithPcm(d), w.ids.2, k) + DiscardTrace(w.WithPcm(d) - {Temp(w.ids.2)}, w.part)
  }

  /** The directory a save that returns leaves. */
  function SaveEnd(d: Cache, w: Write, fault: Fault): Cache {
    match fault
    case NoFault => w.Committed(d)
    case RgbFull(_) => Discarded(w.Cleared(d) - {Temp(w.ids.0)}, w.part)
    case PcmFull(_) => Discarded(w.WithRgb(d) - {Temp(w.ids.1)}, w.part)
    case StateFull(_) => Discarded(w.WithPcm(d) - {Temp(w.ids.2)}, w.part)
  }

  /** Same files for the other parts, and no marker for this one. */
  ghost predicate Uncommitted(d: Cache, d': Cache, part: nat) {
    Read(d', State(part)) == None && forall e: Entry :: e.part != part ==> Read(d', e) == Read(d, e)
  }

  lemma UncommittedUnlink(d: Cache, d': Cache, part: nat, e: Entry)
    requires Uncommitted(d, d', part) && e.part == part
    ensures Uncommitted(d, Unlinked(d', e), part)
  {
    forall x: Entry | x.part != part || x == State(part)
      ensures Read(Unlinked(d', e), x) == Read(d', x) || (x == e && Read(Unlinked(d', e), x) == None)
    {
      assert Final(x) in Unlinked(d', e) <==> Final(x) in d' && x != e;
    }
  }

  lemma UncommittedWrite(d: Cache, d': Cache, part: nat, id: nat, e: Entry, f: Content, size: nat, k: nat)
    requires Uncommitted(d, d', part) && e.part == part && k < size + 2
    requires e != State(part) || k <= size
    ensures Uncommitted(d, WriteTrace(d', id, e, f, size)[k], part)
  {
    WriteIsAtomic(d', id, e, f, size, k, State(part));
    forall x: Entry | x.part != part
      ensures Read(WriteTrace(d', id, e, f, size)[k], x) == Read(d, x)
    {
      WriteIsAtomic(d', id, e, f, size, k, x);
    }
  }

  lemma UncommittedTemp(d: Cache, d': Cache, part: nat, id: nat, done: nat, k: nat)
    requires Uncommitted(d, d', part) && k < done + 2
    ensures Uncommitted(d, FailTrace(d', id, done)[k], part)
  {
    var x := FailTrace(d', id, done)[k];
    forall e: Entry
      ensures Read(x, e) == Read(d', e)
    {
      assert Final(e) in x <==> Final(e) in d';
    }
  }

  ghost predicate AllUncommitted(d: Cache, trace: seq<Cache>, part: nat) {
    forall i :: 0 <= i < |trace| ==> Uncommitted(d, trace[i], part)
  }

  lemma ClearedUncommitted(d: Cache, part: nat)
    ensures Uncommitted(d, Unlinked(d, State(part)), part)
  {
    forall e: Entry | e.part != part
      ensures Read(Unlinked(d, State(part)), e) == Read(d, e)
    {
      assert Final(e) in Unlinked(d, State(part)) <==> Final(e) in d;
    }
  }

  lemma DiscardUncommitted(d: Cache, d': Cache, part: nat)
    requires Uncommitted(d, d', part)
    ensures AllUncommitted(d, DiscardTrace(d', part), part)
  {
    UncommittedUnlink(d, d', part, State(part));
    UncommittedUnlink(d, Unlinked(d', State(part)), part, Rgb(part));
    UncommittedUnlink(d, Unlinked(Unlinked(d', State(part)), Rgb(part)), part, PcmData(part));
  }

  lemma RgbUncommitted(d: Cache, w: Write)
    ensures AllUncommitted(d, w.RgbTrace(d), w.part) && Uncommitted(d, w.WithRgb(d), w.part)
  {
    ClearedUncommitted(d, w.part);
    var n := w.payload.video.Bytes();
    hide Unlinked, Uncommitted, Renamed;
    forall k | 0 <= k < n + 2
      ensures Uncommitted(d, w.RgbTrace(d)[k], w.part)
    {
      UncommittedWrite(d, w.Cleared(d), w.part, w.ids.0, Rgb(w.part), RgbContent(w.payload.video), n, k);
    }
    assert w.RgbTrace(d)[n + 1] == w.WithRgb(d);
  }

  lemma PcmUncommitted(d: Cache, w: Write)
    ensures AllUncommitted(d, w.PcmTrace(d), w.part) && Uncommitted(d, w.WithPcm(d), w.part)
  {
    RgbUncommitted(d, w);
    var n := w.PcmBytes();
    hide Unlinked, Uncommitted, Renamed, Write.WithRgb;
    forall k | 0 <= k < n + 2
      ensures Uncommitted(d, w.PcmTrace(d)[k], w.part)
    {
      UncommittedWrite(d, w.WithRgb(d), w.part, w.ids.1, PcmData(w.part), PcmContent(w.payload.pcm), n, k);
    }
    assert w.PcmTrace(d)[n + 1] == w.WithPcm(d);
  }

  /** Writing the marker leaves the part uncommitted until the rename, which publishes marker and data together. */
  lemma StateUncommitted(d: Cache, w: Write)
    ensures |w.StateTrace(d)| == w.stateBytes + 2
    ensures AllUncommitted(d, w.StateTrace(d)[..w.stateBytes + 1], w.part)
    ensures w.StateTrace(d)[w.stateBytes + 1] == w.Committed(d)
  {
    PcmUncommitted(d, w);
    hide Uncommitted, Write.WithPcm;
    forall k | 0 <= k < w.stateBytes + 1
      ensures Uncommitted(d, w.StateTrace(d)[k], w.part)
    {
      UncommittedWrite(d, w.WithPcm(d), w.part, w.ids.2, State(w.part), w.Marker(), w.stateBytes, k);
    }
  }

  lemma CommittedReads(d: Cache, w: Write)
    ensures Read(w.Committed(d), State(w.part)) == Some(w.Marker())
    ensures Read(w.Committed(d), Rgb(w.part)) == Some(RgbContent(w.payload.video))
    ensures Read(w.Committed(d), PcmData(w.part)) == Some(PcmContent(w.payload.pcm))
    ensures forall e: Entry :: e.part != w.part ==> Read(w.Committed(d), e) == Read(d, e)
  {
    RenamedRead(w.Cleared(d), w.ids.0, Rgb(w.part), RgbContent(w.payload.video));
    RenamedRead(w.WithRgb(d), w.ids.1, PcmData(w.part), PcmContent(w.payload.pcm));
    RenamedRead(w.WithPcm(d), w.ids.2, State(w.part), w.Marker());
    PcmUncommitted(d, w);
  }

  lemma RenamedRead(d: Cache, id: nat, e: Entry, f: Content)
    ensures forall x: Entry :: Read(Renamed(d, id, e, f), x) == if x == e then Some(f) else Read(d, x)
  {
    forall x: Entry
      ensures Read(Renamed(d, id, e, f), x) == if x == e then Some(f) else Read(d, x)
    {
      WriteIsAtomic(d, id, e, f, 0, 1, x);
    }
  }

  lemma FaultUncommitted(d: Cache, d': Cache, part: nat, id: nat, done: nat)
    requires Uncommitted(d, d', part)
    ensures AllUncommitted(d, FailTrace(d', id, done) + DiscardTrace(d' - {Temp(id)}, part), part)
  {
    forall k | 0 <= k < done + 2
      ensures Uncommitted(d, FailTrace(d', id, done)[k], part)
    {
      UncommittedTemp(d, d', part, id, done, k);
    }
    assert FailTrace(d', id, done)[done + 1] == d' - {Temp(id)};
    DiscardUncommitted(d, d' - {Temp(id)}, part);
  }

  /** Every directory of a save but the last one of a save that succeeds is uncommitted. */
  lemma SaveUncommitted(d: Cache, w: Write, fault: Fault)
    ensures
      var t := SaveTrace(d, w, fault);
      && |t| > 0
      && (fault.NoFault? ==> AllUncommitted(d, t[..|t| - 1], w.part) && t[|t| - 1] == w.Committed(d))
      && (!fault.NoFault? ==> AllUncommitted(d, t, w.part))
  {
    ClearedUncommitted(d, w.part);
    RgbUncommitted(d, w);
    PcmUncommitted(d, w);
    StateUncommitted(d, w);
    hide Uncommitted, Write.RgbTrace, Write.PcmTrace, Write.StateTrace, Write.WithRgb, Write.WithPcm, FailTrace, DiscardTrace, Unlinked;
    match fault
    case NoFault =>
      var t := SaveTrace(d, w, fault);
      assert t[..|t| - 1] == [w.Cleared(d)] + w.RgbTrace(d) + w.PcmTrace(d) + w.StateTrace(d)[..w.stateBytes + 1];
    case RgbFull(k) =>
      FaultUncommitted(d, w.Cleared(d), w.part, w.ids.0, k);
    case PcmFull(k) =>
      FaultUncommitted(d, w.WithRgb(d), w.part, w.ids.1, k);
      assert SaveTrace(d, w, fault) == [w.Cleared(d)] + w.RgbTrace(d)
        + (FailTrace(w.WithRgb(d), w.ids.1, k) + DiscardTrace(w.WithRgb(d) - {Temp(w.ids.1)}, w.part));
    case StateFull(k) =>
      FaultUncommitted(d, w.WithPcm(d), w.part, w.ids.2, k);
      assert SaveTrace(d, w, fault) == [w.Cleared(d)] + w.RgbTrace(d) + w.PcmTrace(d)
        + (FailTrace(w.WithPcm(d), w.ids.2, k) + DiscardTrace(w.WithPcm(d) - {Temp(w.ids.2)}, w.part));
  }

  lemma SaveEndsTrace(d: Cache, w: Write, fault: Fault)
    ensures |SaveTrace(d, w, fault)| > 0 && SaveTrace(d, w, fault)[|SaveTrace(d, w, fault)| - 1] == SaveEnd(d, w, fault)
  {
    SaveUncommitted(d, w, fault);
  }

  lemma UncommittedLoads(d: Cache, d': Cache, part: nat, q: nat, inputs: Inputs, frames: int)
    requires Uncommitted(d, d', part)
    ensures Load(d', q, inputs, frames) == if q == part then Raised else Load(d, q, inputs, frames)
  {
    if q != part {
      LoadReads(d, d', q, inputs, frames);
    }
  }

  /** Whatever prefix of a save a crash leaves, and whatever fault it meets: the other parts load as before,
      this part loads nothing until the marker is published, and then exactly the saved payload for exactly
      the saved inputs. */
  lemma SaveIsAtomic(d: Cache, w: Write, fault: Fault, i: nat, q: nat, inputs: Inputs, frames: int)
    requires Storable(w.payload, w.inputs.totalFrames) && w.payload.video.height > 0 && w.payload.video.width > 0
    requires 128 <= w.stateBytes <= MAX_FILE_BYTES
    requires i < |SaveTrace(d, w, fault)|
    ensures
      Load(SaveTrace(d, w, fault)[i], q, inputs, frames) ==
        if q != w.part then Load(d, q, inputs, frames)
        else if fault.NoFault? && i == |SaveTrace(d, w, fault)| - 1 && inputs == w.inputs && frames == |w.payload.video.frames|
        then Ok(w.payload) else Raised
  {
    SaveUncommitted(d, w, fault);
    CommittedReads(d, w);
    hide SaveTrace, Write.Committed, Storable, Load;
    var t := SaveTrace(d, w, fault);
    if fault.NoFault? && i == |t| - 1 {
      if q == w.part {
        CommittedLoads(t[i], q, w.payload, w.inputs, w.stateBytes, inputs, frames);
      } else {
        LoadReads(d, t[i], q, inputs, frames);
      }
    } else {
      assert Uncommitted(d, t[i], w.part) by {
        assert fault.NoFault? ==> t[..|t| - 1][i] == t[i];
      }
      UncommittedLoads(d, t[i], w.part, q, inputs, frames);
    }
  }

  /** Discarding never makes anything loadable, and leaves the other parts alone. */
  lemma DiscardIsSafe(d: Cache, part: nat, i: nat, q: nat, inputs: Inputs, frames: int)
    requires i < 3
    ensures
      Load(DiscardTrace(d, part)[i], q, inputs, frames) == if q == part then Raised else Load(d, q, inputs, frames)
  {
    ClearedUncommitted(d, part);
    UncommittedUnlink(d, Unlinked(d, State(part)), part, Rgb(part));
    UncommittedUnlink(d, Unlinked(Unlinked(d, State(part)), Rgb(part)), part, PcmData(part));
    UncommittedLoads(d, DiscardTrace(d, part)[i], part, q, inputs, frames);
  }

  /* The byte budget of the directory. */

  function ContentBytes(c: Content): nat {
    match c
    case RgbContent(v) => v.Bytes()
    case PcmContent(pcm) => 8 * |pcm|
    case StateContent(m) => m.bytes
  }

  function FileBytes(f: File<Content>): nat {
    match f
    case Whole(c) => ContentBytes(c)
    case Partial(k) => k
  }

  ghost function DirBytes(d: Cache): nat {
    if d == map[] then 0
    else
      var n :| n in d;
      FileBytes(d[n]) + DirBytes(d - {n})
  }

  lemma {:induction false} BytesRemove(d: Cache, n: Name<Entry>)
    requires n in d
    ensures DirBytes(d) == FileBytes(d[n]) + DirBytes(d - {n})
    decreases |d|
  {
    var m :| m in d && DirBytes(d) == FileBytes(d[m]) + DirBytes(d - {m});
    if m != n {
      BytesRemove(d - {m}, n);
      BytesRemove(d - {n}, m);
      assert d - {m} - {n} == d - {n} - {m};
    }
  }

  lemma BytesSet(d: Cache, n: Name<Entry>, f: File<Content>)
    ensures DirBytes(d[n := f]) == DirBytes(d - {n}) + FileBytes(f)
    ensures DirBytes(d - {n}) <= DirBytes(d)
  {
    BytesRemove(d[n := f], n);
    assert d[n := f] - {n} == d - {n};
    if n in d {
      BytesRemove(d, n);
    } else {
      assert d - {n} == d;
    }
  }

  ghost predicate Within(trace: seq<Cache>, bytes: nat) {
    forall i :: 0 <= i < |trace| ==> DirBytes(trace[i]) <= bytes
  }

  lemma WriteBytes(d: Cache, id: nat, e: Entry, f: Content)
    ensures Within(WriteTrace(d, id, e, f, ContentBytes(f)), DirBytes(d) + ContentBytes(f))
    ensures DirBytes(Renamed(d, id, e, f)) <= DirBytes(d) + ContentBytes(f)
  {
    var n := ContentBytes(f);
    BytesSet(d, Temp(id), Whole(f));
    BytesSet(d - {Temp(id)}, Final(e), Whole(f));
    assert DirBytes(Renamed(d, id, e, f)) <= DirBytes(d) + n;
    hide ContentBytes, DirBytes;
    var t := WriteTrace(d, id, e, f, n);
    forall k | 0 <= k < n + 2
      ensures DirBytes(t[k]) <= DirBytes(d) + n
    {
      if k < n {
        BytesSet(d, Temp(id), Partial(k));
        assert t[k] == d[Temp(id) := Partial(k)];
      } else if k == n {
        assert t[k] == d[Temp(id) := Whole(f)];
      } else {
        assert t[k] == Renamed(d, id, e, f);
      }
    }
  }

  lemma FailBytes(d: Cache, id: nat, done: nat)
    ensures Within(FailTrace(d, id, done), DirBytes(d) + done)
    ensures DirBytes(d - {Temp(id)}) <= DirBytes(d)
  {
    forall k | 0 <= k <= done
      ensures DirBytes(d[Temp(id) := Partial(k)]) <= DirBytes(d) + done
    {
      BytesSet(d, Temp(id), Partial(k));
    }
    BytesSet(d, Temp(id), Partial(0));
  }

  lemma UnlinkBytes(d: Cache, e: Entry)
    ensures DirBytes(Unlinked(d, e)) <= DirBytes(d)
  {
    BytesSet(d, Final(e), Partial(0));
  }

  lemma DiscardBytes(d: Cache, part: nat)
    ensures Within(DiscardTrace(d, part), DirBytes(d))
  {
    UnlinkBytes(d, State(part));
    UnlinkBytes(Unlinked(d, State(part)), Rgb(part));
    UnlinkBytes(Unlinked(Unlinked(d, State(part)), Rgb(part)), PcmData(part));
  }

  /** Bytes of a full disk are met before the file is complete. */
  predicate FaultFits(w: Write, fault: Fault) {
    match fault
    case NoFault => true
    case RgbFull(k) => k <= w.payload.video.Bytes()
    case PcmFull(k) => k <= w.PcmBytes()
    case StateFull(k) => k <= w.stateBytes
  }

  /** No directory of a save, finished, failed or interrupted anywhere, exceeds the old one by more than the new files. */
  lemma SaveBytes(d: Cache, w: Write, fault: Fault)
    requires FaultFits(w, fault)
    ensures Within(SaveTrace(d, w, fault), DirBytes(d) + w.payload.video.Bytes() + w.PcmBytes() + w.stateBytes)
  {
    hide DirBytes, Write.RgbTrace, Write.PcmTrace, Write.StateTrace, Write.Cleared, Write.WithRgb, Write.WithPcm,
      FailTrace, DiscardTrace, Video.Bytes, Write.PcmBytes, Within;
    var all := DirBytes(d) + w.payload.video.Bytes() + w.PcmBytes() + w.stateBytes;
    StageBytes(d, w);
    WithinMore([w.Cleared(d)], DirBytes(d), all);
    WithinMore(w.RgbTrace(d), DirBytes(d) + w.payload.video.Bytes(), all);
    WithinMore(w.PcmTrace(d), DirBytes(d) + w.payload.video.Bytes() + w.PcmBytes(), all);
    match fault
    case NoFault =>
      WithinConcat(w.RgbTrace(d), w.PcmTrace(d), all);
      WithinConcat(w.RgbTrace(d) + w.PcmTrace(d), w.StateTrace(d), all);
      WithinConcat([w.Cleared(d)], w.RgbTrace(d) + w.PcmTrace(d) + w.StateTrace(d), all);
    case RgbFull(k) =>
      FaultBytes(w.Cleared(d), w.part, w.ids.0, k, [w.Cleared(d)], all);
      assert SaveTrace(d, w, fault) == [w.Cleared(d)] + FailTrace(w.Cleared(d), w.ids.0, k) + DiscardTrace(w.Cleared(d) - {Temp(w.ids.0)}, w.part);
    case PcmFull(k) =>
      WithinConcat([w.Cleared(d)], w.RgbTrace(d), all);
      FaultBytes(w.WithRgb(d), w.part, w.ids.1, k, [w.Cleared(d)] + w.RgbTrace(d), all);
      assert SaveTrace(d, w, fault) == [w.Cleared(d)] + w.RgbTrace(d)
        + FailTrace(w.WithRgb(d), w.ids.1, k) + DiscardTrace(w.WithRgb(d) - {Temp(w.ids.1)}, w.part);
    case StateFull(k) =>
      WithinConcat([w.Cleared(d)], w.RgbTrace(d), all);
      WithinConcat([w.Cleared(d)] + w.RgbTrace(d), w.PcmTrace(d), all);
      FaultBytes(w.WithPcm(d), w.part, w.ids.2, k, [w.Cleared(d)] + w.RgbTrace(d) + w.PcmTrace(d), all);
      assert SaveTrace(d, w, fault) == [w.Cleared(d)] + w.RgbTrace(d) + w.PcmTrace(d)
        + FailTrace(w.WithPcm(d), w.ids.2, k) + DiscardTrace(w.WithPcm(d) - {Temp(w.ids.2)}, w.part);
  }

  lemma StageBytes(d: Cache, w: Write)
    ensures
      var rgb, pcm := w.payload.video.Bytes(), w.PcmBytes();
      && DirBytes(w.Cleared(d)) <= DirBytes(d)
      && DirBytes(w.WithRgb(d)) <= DirBytes(d) + rgb
      && DirBytes(w.WithPcm(d)) <= DirBytes(d) + rgb + pcm
      && Within([w.Cleared(d)], DirBytes(d))
      && Within(w.RgbTrace(d), DirBytes(d) + rgb)
      && Within(w.PcmTrace(d), DirBytes(d) + rgb + pcm)
      && Within(w.StateTrace(d), DirBytes(d) + rgb + pcm + w.stateBytes)
  {
    hide DirBytes, Within, WriteTrace, Renamed, Unlinked, Video.Bytes;
    var rgb, pcm := w.payload.video.Bytes(), w.PcmBytes();
    UnlinkBytes(d, State(w.part));
    assert Within([w.Cleared(d)], DirBytes(d)) by { WithinOne(w.Cleared(d), DirBytes(d)); }
    WriteBytes(w.Cleared(d), w.ids.0, Rgb(w.part), RgbContent(w.payload.video));
    WithinMore(w.RgbTrace(d), DirBytes(w.Cleared(d)) + rgb, DirBytes(d) + rgb);
    WriteBytes(w.WithRgb(d), w.ids.1, PcmData(w.part), PcmContent(w.payload.pcm));
    WithinMore(w.PcmTrace(d), DirBytes(w.WithRgb(d)) + pcm, DirBytes(d) + rgb + pcm);
    WriteBytes(w.WithPcm(d), w.ids.2, State(w.part), w.Marker());
    WithinMore(w.StateTrace(d), DirBytes(w.WithPcm(d)) + w.stateBytes, DirBytes(d) + rgb + pcm + w.stateBytes);
  }

  lemma WithinOne(d: Cache, bytes: nat)
    requires DirBytes(d) <= bytes
    ensures Within([d], bytes)
  {
  }

  lemma WithinMore(t: seq<Cache>, bytes: nat, more: nat)
    requires Within(t, bytes) && bytes <= more
    ensures Within(t, more)
  {
  }

  lemma WithinConcat(a: seq<Cache>, b: seq<Cache>, bytes: nat)
    requires Within(a, bytes) && Within(b, bytes)
    ensures Within(a + b, bytes)
  {
  }

  lemma FaultBytes(d: Cache, part: nat, id: nat, done: nat, before: seq<Cache>, bytes: nat)
    requires Within(before, bytes) && DirBytes(d) + done <= bytes
    ensures Within(before + FailTrace(d, id, done) + DiscardTrace(d - {Temp(id)}, part), bytes)
  {
    FailBytes(d, id, done);
    DiscardBytes(d - {Temp(id)}, part);
    hide FailTrace, DiscardTrace, DirBytes;
    assert Within(FailTrace(d, id, done), bytes) && Within(DiscardTrace(d - {Temp(id)}, part), bytes);
    WithinConcat(before, FailTrace(d, id, done), bytes);
    WithinConcat(before + FailTrace(d, id, done), DiscardTrace(d - {Temp(id)}, part), bytes);
  }

  /** Where `save_segment` gives up before touching the directory. */
  ghost predicate Bypassed(d: Cache, w: Write, free: nat) {
    var required := w.payload.video.Bytes() + w.PcmBytes();
    DirBytes(d) + required + MAX_FILE_BYTES > MAX_JOB_CACHE_BYTES || free < required + MIN_DISK_RESERVE_BYTES
  }

  /** By how much a state file is over the 64 MiB that were set aside for it. */
  function Excess(w: Write): nat {
    if w.stateBytes > MAX_FILE_BYTES then w.stateBytes - MAX_FILE_BYTES else 0
  }

  /** A save that goes ahead stays inside the 12 GiB budget at every moment, whatever interrupts it, but for what its
      state file is too large. */
  lemma SaveKeepsBudget(d: Cache, w: Write, free: nat, fault: Fault, i: nat)
    requires !Bypassed(d, w, free) && FaultFits(w, fault) && i < |SaveTrace(d, w, fault)|
    ensures DirBytes(SaveTrace(d, w, fault)[i]) <= MAX_JOB_CACHE_BYTES + Excess(w)
    ensures MAX_JOB_CACHE_BYTES + Excess(w) == 12884901888 + Max(0, w.stateBytes - 67108864)
  {
    SaveBytes(d, w, fault);
  }

  /** It also leaves 1 GiB of the reported space free at every moment, but for the state file, which is not counted. */
  lemma SaveKeepsReserve(d: Cache, w: Write, free: nat, fault: Fault, i: nat)
    requires !Bypassed(d, w, free) && FaultFits(w, fault) && i < |SaveTrace(d, w, fault)|
    ensures DirBytes(SaveTrace(d, w, fault)[i]) + 1073741824 <= DirBytes(d) + free + w.stateBytes
  {
    SaveBytes(d, w, fault);
  }

  /** A state file over 64 MiB is refused after it was written to a temporary file. */
  predicate TooLarge(w: Write, fault: Fault) {
    fault == NoFault && w.stateBytes > MAX_FILE_BYTES
  }

  /** The directories of a save whose state file is refused. */
  function RefusedTrace(d: Cache, w: Write): seq<Cache> {
    [w.Cleared(d)] + w.RgbTrace(d) + w.PcmTrace(d) + FailTrace(w.WithPcm(d), w.ids.2, w.stateBytes)
  }

  lemma RefusedBytes(d: Cache, w: Write, free: nat)
    requires !Bypassed(d, w, free)
    ensures Within(RefusedTrace(d, w), MAX_JOB_CACHE_BYTES + Excess(w))
  {
    hide DirBytes, Write.RgbTrace, Write.PcmTrace, Write.Cleared, Write.WithRgb, Write.WithPcm, FailTrace, Video.Bytes, Write.PcmBytes, Within;
    var all := MAX_JOB_CACHE_BYTES + Excess(w);
    StageBytes(d, w);
    FailBytes(w.WithPcm(d), w.ids.2, w.stateBytes);
    WithinMore([w.Cleared(d)], DirBytes(d), all);
    WithinMore(w.RgbTrace(d), DirBytes(d) + w.payload.video.Bytes(), all);
    WithinMore(w.PcmTrace(d), DirBytes(d) + w.payload.video.Bytes() + w.PcmBytes(), all);
    WithinMore(FailTrace(w.WithPcm(d), w.ids.2, w.stateBytes), DirBytes(w.WithPcm(d)) + w.stateBytes, all);
    WithinConcat([w.Cleared(d)], w.RgbTrace(d), all);
    WithinConcat([w.Cleared(d)] + w.RgbTrace(d), w.PcmTrace(d), all);
    WithinConcat([w.Cleared(d)] + w.RgbTrace(d) + w.PcmTrace(d), FailTrace(w.WithPcm(d), w.ids.2, w.stateBytes), all);
  }

  lemma RefusedUncommitted(d: Cache, w: Write, i: nat)
    requires i < |RefusedTrace(d, w)|
    ensures Uncommitted(d, RefusedTrace(d, w)[i], w.part)
  {
    ClearedUncommitted(d, w.part);
    RgbUncommitted(d, w);
    PcmUncommitted(d, w);
    var a, b, c := |w.RgbTrace(d)|, |w.PcmTrace(d)|, FailTrace(w.WithPcm(d), w.ids.2, w.stateBytes);
    hide Uncommitted, Write.RgbTrace, Write.PcmTrace, Write.WithPcm, FailTrace;
    if i > a + b {
      FailLength(w.WithPcm(d), w.ids.2, w.stateBytes);
      UncommittedTemp(d, w.WithPcm(d), w.part, w.ids.2, w.stateBytes, i - 1 - a - b);
      assert RefusedTrace(d, w)[i] == c[i - 1 - a - b];
    } else if i > a {
      AllUncommittedAt(d, w.PcmTrace(d), w.part, i - 1 - a);
      assert RefusedTrace(d, w)[i] == w.PcmTrace(d)[i - 1 - a];
    } else if i > 0 {
      AllUncommittedAt(d, w.RgbTrace(d), w.part, i - 1);
      assert RefusedTrace(d, w)[i] == w.RgbTrace(d)[i - 1];
    }
  }

  lemma FailLength(d: Cache, id: nat, done: nat)
    ensures |FailTrace(d, id, done)| == done + 2
  {
  }

  /* Sequences of saves and discards, each stopped anywhere. */

  datatype Op = SaveOp(w: Write, free: nat, fault: Fault) | DiscardOp(part: nat)
  {
    predicate Fits() {
      SaveOp? ==> FaultFits(w, fault)
    }

    function Over(): nat {
      if SaveOp? && Storable(w.payload, w.inputs.totalFrames) then Excess(w) else 0
    }

    /** The directories the operation passes through; none where it raises or gives up first. */
    ghost function Trace(d: Cache): seq<Cache> {
      match this
      case SaveOp(w, free, fault) =>
        if !Storable(w.payload, w.inputs.totalFrames) || Bypassed(d, w, free) then []
        else if TooLarge(w, fault) then RefusedTrace(d, w)
        else SaveTrace(d, w, fault)
      case DiscardOp(part) => DiscardTrace(d, part)
    }
  }

  /** An operation that a crash may stop after some of its directories. */
  datatype Use = Use(op: Op, stop: nat)
  {
    ghost function Reached(d: Cache): Cache {
      var n := if stop < |op.Trace(d)| then stop else |op.Trace(d)|;
      if n == 0 then d else op.Trace(d)[n - 1]
    }

    /** A save that ran to its end and committed. */
    ghost predicate Completes(d: Cache) {
      op.SaveOp? && op.fault.NoFault? && !TooLarge(op.w, op.fault) && op.Trace(d) != [] && stop >= |op.Trace(d)|
    }
  }

  /** The directory after a sequence of uses, and the saves that completed. */
  ghost function Play(uses: seq<Use>): (Cache, seq<Write>) {
    if uses == [] then (map[], [])
    else
      var (d, done) := Play(uses[..|uses| - 1]);
      var use := uses[|uses| - 1];
      (use.Reached(d), if use.Completes(d) then done + [use.op.w] else done)
  }

  lemma TraceBytes(d: Cache, op: Op, bytes: nat)
    requires op.Fits() && DirBytes(d) <= bytes && MAX_JOB_CACHE_BYTES + op.Over() <= bytes
    ensures Within(op.Trace(d), bytes)
  {
    hide SaveTrace, RefusedTrace, DirBytes, DiscardTrace, Bypassed, Storable;
    match op
    case SaveOp(w, free, fault) =>
      if op.Trace(d) != [] {
        if TooLarge(w, fault) {
          RefusedBytes(d, w, free);
        } else {
          forall i | 0 <= i < |op.Trace(d)|
            ensures DirBytes(op.Trace(d)[i]) <= bytes
          {
            SaveKeepsBudget(d, w, free, fault, i);
          }
        }
      }
    case DiscardOp(part) =>
      DiscardBytes(d, part);
  }

  /** No sequence of saves and discards, however each is stopped, takes the directory over its 12 GiB by more than the
      largest state file is over its 64 MiB: not at all, if none is. */
  lemma {:induction false} BudgetHolds(uses: seq<Use>, excess: nat)
    requires forall i :: 0 <= i < |uses| ==> uses[i].op.Fits() && uses[i].op.Over() <= excess
    ensures DirBytes(Play(uses).0) <= MAX_JOB_CACHE_BYTES + excess
  {
    hide Op.Trace, Op.Fits, Op.Over;
    if uses != [] {
      BudgetHolds(uses[..|uses| - 1], excess);
      TraceBytes(Play(uses[..|uses| - 1]).0, uses[|uses| - 1].op, MAX_JOB_CACHE_BYTES + excess);
    }
  }

  /** Bytes of the four tensors of a state file; the rest of it is its header. */
  function TensorBytes(p: Payload): nat {
    |Concat(p.high.video)| + |Concat(p.high.audio)| + |Concat(p.low.video)| + |Concat(p.low.audio)|
  }

  /** Two validated tails take less than 3.5 MB. */
  lemma TensorsAreSmall(p: Payload, total: int)
    requires Storable(p, total)
    ensures TensorBytes(p) <= 3419648
  {
    hide CanvasOk, Concat, Grid, Ticks;
    StreamLength(p.high, HIGH_PLANE);
    StreamLength(p.low, LOW_PLANE);
  }

  /** With headers of at most 60 MiB, which hold names, digests and numbers, the budget holds as it stands. */
  lemma BudgetIsPlain(uses: seq<Use>)
    requires forall i :: 0 <= i < |uses| ==> uses[i].op.Fits()
    requires forall i :: 0 <= i < |uses| && uses[i].op.SaveOp? ==> uses[i].op.w.stateBytes <= TensorBytes(uses[i].op.w.payload) + 62914560
    ensures DirBytes(Play(uses).0) <= MAX_JOB_CACHE_BYTES
  {
    hide TensorBytes, Storable, Op.Fits, Play, DirBytes;
    forall i | 0 <= i < |uses|
      ensures uses[i].op.Over() == 0
    {
      var op := uses[i].op;
      if op.SaveOp? && Storable(op.w.payload, op.w.inputs.totalFrames) {
        TensorsAreSmall(op.w.payload, op.w.inputs.totalFrames);
      }
    }
    BudgetHolds(uses, 0);
  }

  /** Every marker on disk is that of a completed save of a storable payload. */
  ghost predicate Vouched(d: Cache, done: seq<Write>) {
    forall part, c :: Read(d, State(part)) == Some(c) ==>
      exists w :: w in done && w.part == part && w.Marker() == c && Storable(w.payload, w.inputs.totalFrames)
  }

  lemma UncommittedVouched(d: Cache, d': Cache, part: nat, done: seq<Write>)
    requires Vouched(d, done) && Uncommitted(d, d', part)
    ensures Vouched(d', done)
  {
    hide Storable, Write.Marker;
    forall q, c | Read(d', State(q)) == Some(c)
      ensures exists w :: w in done && w.part == q && w.Marker() == c && Storable(w.payload, w.inputs.totalFrames)
    {
      assert State(q).part == q;
      assert Read(d, State(q)) == Some(c);
    }
  }

  lemma CommittedVouched(d: Cache, w: Write, done: seq<Write>)
    requires Vouched(d, done) && Storable(w.payload, w.inputs.totalFrames)
    ensures Vouched(w.Committed(d), done + [w])
  {
    CommittedReads(d, w);
    hide Storable, Write.Marker, Write.Committed;
    forall q, c | Read(w.Committed(d), State(q)) == Some(c)
      ensures exists x :: x in done + [w] && x.part == q && x.Marker() == c && Storable(x.payload, x.inputs.totalFrames)
    {
      assert State(q).part == q;
      if q == w.part {
        assert w in done + [w];
      } else {
        assert Read(d, State(q)) == Some(c);
        var x :| x in done && x.part == q && x.Marker() == c && Storable(x.payload, x.inputs.totalFrames);
        assert x in done + [w];
      }
    }
  }

  lemma SaveVouched(d: Cache, w: Write, fault: Fault, n: nat, done: seq<Write>)
    requires Vouched(d, done) && Storable(w.payload, w.inputs.totalFrames) && 0 < n <= |SaveTrace(d, w, fault)|
    ensures
      var t := SaveTrace(d, w, fault);
      Vouched(t[n - 1], if fault.NoFault? && n == |t| then done + [w] else done)
  {
    SaveUncommitted(d, w, fault);
    hide *;
    var t := SaveTrace(d, w, fault);
    if fault.NoFault? && n == |t| {
      CommittedVouched(d, w, done);
    } else {
      assert fault.NoFault? ==> t[..|t| - 1][n - 1] == t[n - 1];
      AllUncommittedAt(d, if fault.NoFault? then t[..|t| - 1] else t, w.part, n - 1);
      UncommittedVouched(d, t[n - 1], w.part, done);
    }
  }

  lemma AllUncommittedAt(d: Cache, trace: seq<Cache>, part: nat, i: nat)
    requires AllUncommitted(d, trace, part) && i < |trace|
    ensures Uncommitted(d, trace[i], part)
  {
  }

  lemma DiscardVouched(d: Cache, part: nat, n: nat, done: seq<Write>)
    requires Vouched(d, done) && 0 < n <= 3
    ensures |DiscardTrace(d, part)| == 3 && Vouched(DiscardTrace(d, part)[n - 1], done)
  {
    ClearedUncommitted(d, part);
    UncommittedUnlink(d, Unlinked(d, State(part)), part, Rgb(part));
    UncommittedUnlink(d, Unlinked(Unlinked(d, State(part)), Rgb(part)), part, PcmData(part));
    hide Vouched, Uncommitted;
    UncommittedVouched(d, DiscardTrace(d, part)[n - 1], part, done);
  }

  lemma UseVouched(d: Cache, use: Use, done: seq<Write>)
    requires Vouched(d, done)
    ensures Vouched(use.Reached(d), if use.Completes(d) then done + [use.op.w] else done)
  {
    hide SaveTrace, RefusedTrace, DiscardTrace, Vouched, Storable, Bypassed;
    var t := use.op.Trace(d);
    var n := if use.stop < |t| then use.stop else |t|;
    if n > 0 {
      match use.op
      case SaveOp(w, free, fault) =>
        if TooLarge(w, fault) {
          RefusedUncommitted(d, w, n - 1);
          UncommittedVouched(d, t[n - 1], w.part, done);
        } else {
          SaveVouched(d, w, fault, n, done);
        }
      case DiscardOp(part) =>
        DiscardVouched(d, part, if n <= 3 then n else 3, done);
    }
  }

  lemma {:induction false} PlayVouched(uses: seq<Use>)
    ensures Vouched(Play(uses).0, Play(uses).1)
  {
    if uses != [] {
      hide Vouched, Use.Reached, Use.Completes;
      PlayVouched(uses[..|uses| - 1]);
      UseVouched(Play(uses[..|uses| - 1]).0, uses[|uses| - 1], Play(uses[..|uses| - 1]).1);
    }
  }

  /**
   * After any sequence of saves and discards, each stopped anywhere, a window that loads is exactly the four-part
   * payload of one completed save for that part, model, request, predecessor and length.
   */
  lemma LoadedWasSaved(uses: seq<Use>, part: nat, inputs: Inputs, frames: int, p: Payload)
    requires Load(Play(uses).0, part, inputs, frames) == Ok(p)
    ensures exists w :: w in Play(uses).1 && w.part == part && w.payload == p && w.inputs == inputs && |p.video.frames| == frames
  {
    PlayVouched(uses);
    var d := Play(uses).0;
    var c := Read(d, State(part)).value;
    var w :| w in Play(uses).1 && w.part == part && w.Marker() == c && Storable(w.payload, w.inputs.totalFrames);
    SameOrigins(w.payload, w.inputs.totalFrames);
    hide Play, Load, Storable;
    LoadIsCommitted(d, part, w.payload, w.inputs, w.stateBytes, inputs, frames);
  }

  lemma SameOrigins(p: Payload, total: int)
    requires Storable(p, total)
    ensures p.low.frameOrigin == p.high.frameOrigin && p.low.audioOrigin == p.high.audioOrigin
  {
  }

  class Store {
    const dir: Directory<Entry, Content>

    constructor (dir: Directory<Entry, Content>)
      ensures this.dir == dir
    {
      this.dir := dir;
    }

    /** Bytes of every file of the directory, temporary ones included. */
    method Used() returns (used: nat)
      ensures used == DirBytes(dir.files)
    {
      var rest := dir.files;
      used := 0;
      while rest != map[]
        invariant used + DirBytes(rest) == DirBytes(dir.files)
        decreases |rest|
      {
        var n :| n in rest;
        BytesRemove(rest, n);
        used := used + FileBytes(rest[n]);
        rest := rest - {n};
      }
    }

    method DiscardSegment(part: nat)
      modifies dir
      ensures dir.files == Discarded(old(dir.files), part)
      ensures dir.log == old(dir.log) + DiscardTrace(old(dir.files), part)
    {
      dir.Unlink(State(part));
      dir.Unlink(Rgb(part));
      dir.Unlink(PcmData(part));
    }

    /** `save_segment`. `free` is what the disk reports; `fault` is where it turns out to be full. */
    method SaveSegment(w: Write, free: nat, fault: Fault) returns (r: Result<bool>)
      modifies dir
      ensures r.Raised? <==> (!Storable(w.payload, w.inputs.totalFrames) || (!Bypassed(old(dir.files), w, free) && TooLarge(w, fault)))
      ensures r.Raised? && !Storable(w.payload, w.inputs.totalFrames) ==> dir.files == old(dir.files) && dir.log == old(dir.log)
      ensures r.Raised? && Storable(w.payload, w.inputs.totalFrames) ==>
        Uncommitted(old(dir.files), dir.files, w.part) && dir.log == old(dir.log) + RefusedTrace(old(dir.files), w)
      ensures r.Ok? && Bypassed(old(dir.files), w, free) ==> r == Ok(false) && dir.files == old(dir.files) && dir.log == old(dir.log)
      ensures r.Ok? && !Bypassed(old(dir.files), w, free) ==> r == Ok(fault == NoFault) && dir.log == old(dir.log) + SaveTrace(old(dir.files), w, fault)
      ensures r.Ok? && !Bypassed(old(dir.files), w, free) ==> dir.files == SaveEnd(old(dir.files), w, fault)
      ensures r == Ok(true) ==> dir.files == w.Committed(old(dir.files))
    {
      if !Storable(w.payload, w.inputs.totalFrames) {
        return Raised;
      }
      var required := w.payload.video.Bytes() + w.PcmBytes();
      var used := Used();
      if used + required + MAX_FILE_BYTES > MAX_JOB_CACHE_BYTES || free < required + MIN_DISK_RESERVE_BYTES {
        return Ok(false);
      }
      r := WriteFiles(w, fault);
    }

    /** The part of `save_segment` that touches the directory. */
    method WriteFiles(w: Write, fault: Fault) returns (r: Result<bool>)
      modifies dir
      ensures r.Raised? <==> TooLarge(w, fault)
      ensures r.Raised? ==> Uncommitted(old(dir.files), dir.files, w.part) && dir.log == old(dir.log) + RefusedTrace(old(dir.files), w)
      ensures r.Ok? ==> r == Ok(fault == NoFault) && dir.log == old(dir.log) + SaveTrace(old(dir.files), w, fault)
      ensures r.Ok? ==> dir.files == SaveEnd(old(dir.files), w, fault)
      ensures r == Ok(true) ==> dir.files == w.Committed(old(dir.files))
    {
      hide WriteTrace, FailTrace, DiscardTrace, Renamed, Unlinked, Read, Uncommitted, Discarded;
      ghost var d, log := dir.files, dir.log;
      dir.Unlink(State(w.part));
      if fault.RgbFull? {
        FailAndDiscard(w.part, w.ids.0, fault.done);
        return Ok(false);
      }
      dir.WriteAtomic(w.ids.0, Rgb(w.part), RgbContent(w.payload.video), w.payload.video.Bytes());
      assert dir.files == w.WithRgb(d);
      ghost var log1 := dir.log;
      assert log1 == log + ([w.Cleared(d)] + w.RgbTrace(d));
      if fault.PcmFull? {
        FailAndDiscard(w.part, w.ids.1, fault.done);
        assert dir.log == log + SaveTrace(d, w, fault);
        return Ok(false);
      }
      dir.WriteAtomic(w.ids.1, PcmData(w.part), PcmContent(w.payload.pcm), w.PcmBytes());
      assert dir.files == w.WithPcm(d);
      ghost var log2 := dir.log;
      assert log2 == log + ([w.Cleared(d)] + w.RgbTrace(d) + w.PcmTrace(d));
      r := WriteState(w, fault, d, log);
    }

    /** The marker, written last; its hashes are those of the files on disk. */
    method WriteState(w: Write, fault: Fault, ghost d: Cache, ghost log: seq<Cache>) returns (r: Result<bool>)
      requires dir.files == w.WithPcm(d) && dir.log == log + ([w.Cleared(d)] + w.RgbTrace(d) + w.PcmTrace(d))
      requires !fault.RgbFull? && !fault.PcmFull?
      modifies dir
      ensures r.Raised? <==> TooLarge(w, fault)
      ensures r.Raised? ==> Uncommitted(d, dir.files, w.part) && dir.log == log + RefusedTrace(d, w)
      ensures r.Ok? ==> r == Ok(fault == NoFault) && dir.log == log + SaveTrace(d, w, fault)
      ensures r.Ok? ==> dir.files == SaveEnd(d, w, fault)
      ensures r == Ok(true) ==> dir.files == w.Committed(d)
    {
      hide WriteTrace, FailTrace, DiscardTrace, Renamed, Unlinked, Read, Uncommitted, Discarded;
      ghost var before := dir.log;
      if fault.StateFull? {
        FailAndDiscard(w.part, w.ids.2, fault.done);
        assert dir.log == log + SaveTrace(d, w, fault);
        return Ok(false);
      }
      WithPcmReads(d, w);
      if w.stateBytes > MAX_FILE_BYTES {
        dir.WriteFails(w.ids.2, w.stateBytes);
        TempInvisible(d, w.WithPcm(d), w.part, w.ids.2);
        RefusedLog(log, d, w, dir.log);
        return Raised;
      }
      var video, pcm := Read(dir.files, Rgb(w.part)), Read(dir.files, PcmData(w.part));
      var marker := MarkerFor(w.payload, w.inputs, Sha256(video.value.video), Sha256(pcm.value.pcm), w.stateBytes);
      assert StateContent(marker) == w.Marker();
      dir.WriteAtomic(w.ids.2, State(w.part), StateContent(marker), w.stateBytes);
      assert dir.log == before + w.StateTrace(d);
      assert dir.log == log + SaveTrace(d, w, fault);
      return Ok(true);
    }

    /** A write that meets a full disk, and the discard that follows. */
    method FailAndDiscard(part: nat, id: nat, done: nat)
      modifies dir
      ensures dir.files == Discarded(old(dir.files) - {Temp(id)}, part)
      ensures dir.log == old(dir.log) + (FailTrace(old(dir.files), id, done) + DiscardTrace(old(dir.files) - {Temp(id)}, part))
    {
      hide FailTrace, DiscardTrace, Discarded;
      dir.WriteFails(id, done);
      DiscardSegment(part);
    }
  }

  lemma RefusedLog(log: seq<Cache>, d: Cache, w: Write, now: seq<Cache>)
    requires now == log + ([w.Cleared(d)] + w.RgbTrace(d) + w.PcmTrace(d)) + FailTrace(w.WithPcm(d), w.ids.2, w.stateBytes)
    ensures now == log + RefusedTrace(d, w)
  {
    hide Write.RgbTrace, Write.PcmTrace, FailTrace;
  }

  lemma TempInvisible(d: Cache, d': Cache, part: nat, id: nat)
    requires Uncommitted(d, d', part)
    ensures Uncommitted(d, d' - {Temp(id)}, part)
  {
    UncommittedTemp(d, d', part, id, 0, 1);
    assert FailTrace(d', id, 0)[1] == d' - {Temp(id)};
  }

  lemma WithPcmReads(d: Cache, w: Write)
    ensures Uncommitted(d, w.WithPcm(d), w.part)
    ensures Read(w.WithPcm(d), Rgb(w.part)) == Some(RgbContent(w.payload.video))
    ensures Read(w.WithPcm(d), PcmData(w.part)) == Some(PcmContent(w.payload.pcm))
  {
    PcmUncommitted(d, w);
    RenamedRead(w.Cleared(d), w.ids.0, Rgb(w.part), RgbContent(w.payload.video));
    RenamedRead(w.WithRgb(d), w.ids.1, PcmData(w.part), PcmContent(w.payload.pcm));
  }
}
