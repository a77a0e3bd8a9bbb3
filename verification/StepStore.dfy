/** Completed-step recovery: two alternating checkpoint slots under the denoising loop. */
module StepStore {
  import opened Basics
  import opened Disk
  import opened Prefix
  import opened StepIdentity
  import Contexts

  const SCHEMA := "little-monkey-h3-denoising-step-v1"

  /* The denoising loop that never crashes. */

  /** The sampler of one stage; `schedule` stands for the digest of its timesteps and sigmas. `step` is one update of both schedulers; `cv` and `ca` are the conditioning
      rows, which are rebuilt on restart and not saved. */
  datatype Sampler = Sampler(
    stage: string, total: nat, schedule: nat, cv: nat, ca: nat, init: Block, step: (nat, Block) -> Block, guard: Option<Bound>)
  {
    predicate SameSize(b: Block) {
      |b.latents| == |init.latents| && |b.audio| == |init.audio|
    }

    /** Assumed of the library: a step keeps the row counts and the conditioning rows. */
    ghost predicate Lawful() {
      && total >= 1 && cv <= |init.latents| && ca <= |init.audio|
      && (guard.Some? ==> guard.value.FitsBlock(init) && guard.value.videoStart == cv && guard.value.audioStart == ca)
      && forall k, b :: SameSize(b) ==>
           && SameSize(step(k, b))
           && step(k, b).latents[..cv] == b.latents[..cv] && step(k, b).audio[..ca] == b.audio[..ca]
    }

    function Protect(b: Block): Block
      requires guard.Some? ==> guard.value.FitsBlock(b)
    {
      if guard.None? then b else Restored(guard.value, b)
    }

    /** The block after k uninterrupted steps. */
    ghost function Trajectory(k: nat): (b: Block)
      requires Lawful()
      ensures SameSize(b) && b.latents[..cv] == init.latents[..cv] && b.audio[..ca] == init.audio[..ca]
    {
      if k == 0 then KeepsConditions(this, init); Protect(init)
      else
        var b := step(k - 1, Trajectory(k - 1));
        KeepsConditions(this, b);
        Protect(b)
    }

    /** The rows a checkpoint holds. */
    function Saved(b: Block): Block
      requires cv <= |b.latents| && ca <= |b.audio|
    {
      Block(b.latents[cv..], b.audio[ca..])
    }

    /** The block a restart rebuilds from a checkpoint. */
    function Resumed(x: Block): Block
      requires cv <= |init.latents| && ca <= |init.audio|
    {
      Block(init.latents[..cv] + x.latents, init.audio[..ca] + x.audio)
    }
  }

  lemma KeepsConditions(s: Sampler, b: Block)
    requires s.cv <= |s.init.latents| && s.ca <= |s.init.audio| && s.SameSize(b)
    requires s.guard.Some? ==> s.guard.value.FitsBlock(s.init) && s.guard.value.videoStart == s.cv && s.guard.value.audioStart == s.ca
    ensures s.SameSize(s.Protect(b))
    ensures s.Protect(b).latents[..s.cv] == b.latents[..s.cv] && s.Protect(b).audio[..s.ca] == b.audio[..s.ca]
  {
    if s.guard.Some? {
      RestoreProtects(s.guard.value, b);
    }
  }

  /** At every step of the loop the prefix rows hold the saved prefix. */
  lemma TrajectoryProtected(s: Sampler, k: nat)
    requires s.Lawful() && s.guard.Some?
    ensures s.guard.value.FitsBlock(s.Trajectory(k)) && Protected(s.guard.value, s.Trajectory(k))
  {
    RestoreProtects(s.guard.value, if k == 0 then s.init else s.step(k - 1, s.Trajectory(k - 1)));
  }

  /** Rebuilding the block from the rows of a checkpoint, and restoring the prefix, loses nothing. */
  lemma ResumeIsExact(s: Sampler, k: nat)
    requires s.Lawful()
    ensures
      var b := s.Resumed(s.Saved(s.Trajectory(k)));
      s.SameSize(b) && s.Protect(b) == s.Trajectory(k)
  {
    var t := s.Trajectory(k);
    assert t.latents == t.latents[..s.cv] + t.latents[s.cv..] && t.audio == t.audio[..s.ca] + t.audio[s.ca..];
    assert s.Resumed(s.Saved(t)) == t;
    if s.guard.Some? {
      TrajectoryProtected(s, k);
      ProtectedIffFixed(s.guard.value, t);
    }
  }

  /* Checkpoint files. */

  /** Everything a checkpoint must agree with. */
  datatype Key = Key(identity: Identity, stage: string, total: nat, schedule: nat, videoRows: nat, audioRows: nat)

  /** `completed` is the number Python's `int` reads from the metadata, if any. */
  datatype Meta = Meta(schema: string, key: Key, completed: Option<int>)

  datatype Slot = Slot(meta: Meta, rows: Block, payload: Contexts.Digest<Block>, bytes: nat)

  type Slots = Dir<nat, Slot>

  function VerifyMeta(m: Meta, key: Key): Option<nat> {
    if m.schema != SCHEMA || m.key != key || m.completed.None? then None
    else if 1 <= m.completed.value <= key.total then Some(m.completed.value) else None
  }

  /** The completed step of an acceptable slot file, 0 for a missing, torn, foreign or damaged one. */
  function Level(d: Slots, n: nat, key: Key): nat {
    match Read(d, n)
    case None => 0
    case Some(f) =>
      match VerifyMeta(f.meta, key)
      case None => 0
      case Some(step) =>
        if 128 <= f.bytes <= MAX_FILE_BYTES && |f.rows.latents| == key.videoRows && |f.rows.audio| == key.audioRows
           && f.payload == Contexts.Sha256(f.rows)
        then step else 0
  }

  function Best(d: Slots, key: Key): nat {
    if Level(d, 1, key) > Level(d, 0, key) then Level(d, 1, key) else Level(d, 0, key)
  }

  function Rows(d: Slots, n: nat, key: Key): Block
    requires Level(d, n, key) > 0
  {
    Read(d, n).value.rows
  }

  function SlotFor(key: Key, completed: nat, rows: Block, bytes: nat): Slot {
    Slot(Meta(SCHEMA, key, Some(completed)), rows, Contexts.Sha256(rows), bytes)
  }

  /** A slot is accepted exactly when it is what a save of some step under the same key writes, whole and undamaged. */
  lemma LevelIff(d: Slots, n: nat, key: Key, k: nat)
    requires k > 0
    ensures Level(d, n, key) == k <==>
      && Read(d, n).Some? && k <= key.total
      && var f := Read(d, n).value;
         && f == SlotFor(key, k, f.rows, f.bytes) && 128 <= f.bytes <= MAX_FILE_BYTES
         && |f.rows.latents| == key.videoRows && |f.rows.audio| == key.audioRows
  {
  }

  /** What the slots of a stage are about: its key, the saved rows of the uncrashed run after each step,
      and the size of a checkpoint file. */
  datatype Plan = Plan(key: Key, truth: nat -> Block, bytes: nat)
  {
    ghost predicate Sound() {
      && 128 <= bytes <= MAX_FILE_BYTES
      && forall k :: |truth(k).latents| == key.videoRows && |truth(k).audio| == key.audioRows
    }
    function Slot(step: nat): Slot { SlotFor(key, step, truth(step), bytes) }
  }

  /** Every acceptable slot holds the point of the uncrashed trajectory it claims, in the slot of its parity. */
  ghost predicate Truthful(d: Slots, p: Plan) {
    forall n :: 0 <= n < 2 && Level(d, n, p.key) > 0 ==>
      Level(d, n, p.key) % 2 == n && Rows(d, n, p.key) == p.truth(Level(d, n, p.key))
  }

  /** The directory after `count` more steps were committed, starting after step k. */
  function After(d: Slots, p: Plan, ids: nat -> nat, k: nat, count: nat): Slots {
    if count == 0 then d
    else Renamed(After(d, p, ids, k, count - 1), ids(k + count), (k + count) % 2, p.Slot(k + count))
  }

  /** The directory a crash leaves: after `count` commits, `at` operations into the next one. */
  function Crashed(d: Slots, p: Plan, ids: nat -> nat, k: nat, count: nat, at: nat): Slots
    requires at <= p.bytes + 2
  {
    var before := After(d, p, ids, k, count);
    var step := k + count + 1;
    if at == 0 then before else WriteTrace(before, ids(step), step % 2, p.Slot(step), p.bytes)[at - 1]
  }

  /** Both slots are good and hold the last two steps. */
  predicate Redundant(d: Slots, key: Key) {
    var k := Best(d, key);
    k >= 1 && Level(d, k % 2, key) == k && Level(d, 1 - k % 2, key) == k - 1
  }

  /** A good slot of the best step sits in the slot of its parity, and the other slot is behind. */
  lemma BestSlot(d: Slots, p: Plan)
    requires Truthful(d, p)
    ensures var k := Best(d, p.key); Level(d, k % 2, p.key) == k && Level(d, 1 - k % 2, p.key) <= k
    ensures var k := Best(d, p.key); k > 0 ==> Level(d, 1 - k % 2, p.key) < k && Rows(d, k % 2, p.key) == p.truth(k)
  {
    hide Level, Rows;
    var k := Best(d, p.key);
    assert k == Level(d, 0, p.key) || k == Level(d, 1, p.key);
  }

  lemma BestBounded(d: Slots, key: Key)
    ensures Best(d, key) <= key.total
  {
  }

  /** One commit of the step after the best one. */
  lemma CommitLevels(d: Slots, d': Slots, p: Plan, step: nat)
    requires p.Sound() && Truthful(d, p) && step == Best(d, p.key) + 1 <= p.key.total
    requires Read(d', step % 2) == Some(p.Slot(step)) && Read(d', 1 - step % 2) == Read(d, 1 - step % 2)
    ensures Truthful(d', p) && Best(d', p.key) == step && Redundant(d', p.key)
  {
    BestSlot(d, p);
    var n := step % 2;
    assert Level(d', n, p.key) == step && Rows(d', n, p.key) == p.truth(step);
    assert Level(d', 1 - n, p.key) == Level(d, 1 - n, p.key) == step - 1;
    assert step > 1 ==> Rows(d', 1 - n, p.key) == Rows(d, 1 - n, p.key);
    hide Level, Rows, Read;
  }

  lemma SameReads(d: Slots, d': Slots, p: Plan)
    requires Truthful(d, p)
    requires Read(d', 0) == Read(d, 0) && Read(d', 1) == Read(d, 1)
    ensures Truthful(d', p) && Best(d', p.key) == Best(d, p.key) && (Redundant(d, p.key) ==> Redundant(d', p.key))
  {
    assert Level(d', 0, p.key) == Level(d, 0, p.key) && Level(d', 1, p.key) == Level(d, 1, p.key);
    hide Level, Read;
  }

  /** Commits keep the slots truthful, count up the best step one by one, and leave two good slots. */
  lemma {:induction false} AfterLevels(d: Slots, p: Plan, ids: nat -> nat, count: nat)
    requires p.Sound() && Truthful(d, p) && Best(d, p.key) + count <= p.key.total
    ensures
      var d' := After(d, p, ids, Best(d, p.key), count);
      && Truthful(d', p) && Best(d', p.key) == Best(d, p.key) + count
      && (count > 0 ==> Redundant(d', p.key))
  {
    hide Truthful, Best, Redundant, Renamed, Read;
    if count > 0 {
      AfterLevels(d, p, ids, count - 1);
      var step := Best(d, p.key) + count;
      var before := After(d, p, ids, Best(d, p.key), count - 1);
      RenamedReads(before, ids(step), step % 2, p.Slot(step));
      CommitLevels(before, Renamed(before, ids(step), step % 2, p.Slot(step)), p, step);
    }
  }

  lemma RenamedReads(d: Slots, id: nat, n: nat, f: Slot)
    requires n < 2
    ensures Read(Renamed(d, id, n, f), n) == Some(f)
    ensures Read(Renamed(d, id, n, f), 1 - n) == Read(d, 1 - n)
  {
    WriteIsAtomic(d, id, n, f, 0, 1, n);
    WriteIsAtomic(d, id, n, f, 0, 1, 1 - n);
  }

  /** Whatever a crash interrupts, the slots stay truthful and only the step in flight is lost. */
  lemma CrashCostsOneStep(d: Slots, p: Plan, ids: nat -> nat, count: nat, at: nat)
    requires p.Sound() && Truthful(d, p)
    requires at <= p.bytes + 2 && Best(d, p.key) + count + (if at == 0 then 0 else 1) <= p.key.total
    ensures
      var d' := Crashed(d, p, ids, Best(d, p.key), count, at);
      && Truthful(d', p)
      && Best(d', p.key) == Best(d, p.key) + count + (if at == p.bytes + 2 then 1 else 0)
      && (count > 0 || at == p.bytes + 2 ==> Redundant(d', p.key))
  {
    hide Truthful, Best, Redundant, Renamed, Read, After, WriteTrace;
    var k := Best(d, p.key);
    AfterLevels(d, p, ids, count);
    if at > 0 {
      var before := After(d, p, ids, k, count);
      var step := k + count + 1;
      var d' := Crashed(d, p, ids, k, count, at);
      WriteIsAtomic(before, ids(step), step % 2, p.Slot(step), p.bytes, at - 1, 0);
      WriteIsAtomic(before, ids(step), step % 2, p.Slot(step), p.bytes, at - 1, 1);
      if at == p.bytes + 2 {
        CommitLevels(before, d', p, step);
      } else {
        SameReads(before, d', p);
      }
    }
  }

  /** What lies on disk at the next start: any slot may have been lost or damaged meanwhile. */
  ghost predicate Decayed(d: Slots, d': Slots, key: Key) {
    forall n :: 0 <= n < 2 ==> Level(d', n, key) == 0 || Read(d', n) == Read(d, n)
  }

  /** Losing one slot of two good ones costs at most one more step, and none if it is the older slot. */
  lemma OneDamagedSlotCostsOneStep(d: Slots, d': Slots, key: Key, damaged: nat)
    requires Redundant(d, key) && damaged < 2
    requires Read(d', 1 - damaged) == Read(d, 1 - damaged) && Decayed(d, d', key)
    ensures Best(d, key) - 1 <= Best(d', key) <= Best(d, key)
    ensures damaged != Best(d, key) % 2 ==> Best(d', key) == Best(d, key)
  {
    assert Level(d', 1 - damaged, key) == Level(d, 1 - damaged, key);
    assert Level(d', damaged, key) == 0 || Level(d', damaged, key) == Level(d, damaged, key);
    hide Level, Read;
  }

  lemma DecayedTruthful(d: Slots, d': Slots, p: Plan)
    requires Truthful(d, p) && Decayed(d, d', p.key)
    ensures Truthful(d', p)
  {
    forall n | 0 <= n < 2 && Level(d', n, p.key) > 0
      ensures Level(d', n, p.key) % 2 == n && Rows(d', n, p.key) == p.truth(Level(d', n, p.key))
    {
      assert Level(d', n, p.key) == Level(d, n, p.key);
    }
  }

  /** A session that crashed after `count` commits, `at` operations into the next, and what was found later. */
  datatype Session = Session(ids: nat -> nat, count: nat, at: nat, found: Slots)

  ghost predicate Lived(d: Slots, history: seq<Session>, p: Plan)
    decreases |history|
  {
    if history == [] then true
    else
      var h := history[0];
      && h.at <= p.bytes + 2 && Best(d, p.key) + h.count + (if h.at == 0 then 0 else 1) <= p.key.total
      && Decayed(Crashed(d, p, h.ids, Best(d, p.key), h.count, h.at), h.found, p.key)
      && Lived(h.found, history[1..], p)
  }

  /** After every history of crashes, restarts and decay, the slots are truthful. */
  lemma {:induction false} HistoryTruthful(d: Slots, history: seq<Session>, p: Plan)
    requires p.Sound() && Truthful(d, p) && Lived(d, history, p)
    ensures Truthful(if history == [] then d else history[|history| - 1].found, p)
    decreases |history|
  {
    hide Truthful, Best, Crashed, Decayed;
    if history != [] {
      var h := history[0];
      CrashCostsOneStep(d, p, h.ids, h.count, h.at);
      DecayedTruthful(Crashed(d, p, h.ids, Best(d, p.key), h.count, h.at), h.found, p);
      HistoryTruthful(h.found, history[1..], p);
    }
  }

  /* The sampler and its store together. */

  ghost function PlanOf(s: Sampler, identity: Identity, bytes: nat): Plan
    requires s.Lawful()
  {
    Plan(Key(identity, s.stage, s.total, s.schedule, |s.init.latents| - s.cv, |s.init.audio| - s.ca),
         (k: nat) => s.Saved(s.Trajectory(k)), bytes)
  }

  lemma PlanSlot(s: Sampler, identity: Identity, bytes: nat, k: nat)
    requires s.Lawful()
    ensures
      var p := PlanOf(s, identity, bytes);
      && p.Slot(k) == SlotFor(p.key, k, s.Saved(s.Trajectory(k)), bytes)
      && p.key == Key(identity, s.stage, s.total, s.schedule, |s.init.latents| - s.cv, |s.init.audio| - s.ca) && p.bytes == bytes
      && |s.Saved(s.Trajectory(k)).latents| == p.key.videoRows && |s.Saved(s.Trajectory(k)).audio| == p.key.audioRows
  {
  }

  /** A directory a crash of the session that starts from `d` after step k can leave. */
  ghost predicate CrashPoint(x: Slots, d: Slots, p: Plan, ids: nat -> nat, k: nat) {
    exists count: nat, at: nat :: k + count < p.key.total && at <= p.bytes + 2 && x == Crashed(d, p, ids, k, count, at)
  }

  lemma CommitPoint(d: Slots, p: Plan, ids: nat -> nat, k: nat, count: nat, i: nat)
    requires k + count < p.key.total && i < p.bytes + 2
    ensures
      var step := k + count + 1;
      CrashPoint(WriteTrace(After(d, p, ids, k, count), ids(step), step % 2, p.Slot(step), p.bytes)[i], d, p, ids, k)
  {
    assert Crashed(d, p, ids, k, count, i + 1)
        == WriteTrace(After(d, p, ids, k, count), ids(k + count + 1), (k + count + 1) % 2, p.Slot(k + count + 1), p.bytes)[i];
  }

  lemma TrajectoryStep(s: Sampler, k: nat)
    requires s.Lawful()
    ensures s.SameSize(s.step(k, s.Trajectory(k)))
    ensures s.guard.Some? ==> s.guard.value.FitsBlock(s.step(k, s.Trajectory(k)))
    ensures s.cv <= |s.Trajectory(k + 1).latents| && s.ca <= |s.Trajectory(k + 1).audio|
    ensures s.Trajectory(k + 1) == s.Protect(s.step(k, s.Trajectory(k)))
  {
  }

  lemma AfterStep(d: Slots, p: Plan, ids: nat -> nat, k: nat, count: nat)
    ensures After(d, p, ids, k, count + 1)
         == Renamed(After(d, p, ids, k, count), ids(k + count + 1), (k + count + 1) % 2, p.Slot(k + count + 1))
    ensures |WriteTrace(After(d, p, ids, k, count), ids(k + count + 1), (k + count + 1) % 2, p.Slot(k + count + 1), p.bytes)| == p.bytes + 2
  {
  }

  lemma AfterNothing(d: Slots, p: Plan, ids: nat -> nat, k: nat)
    ensures After(d, p, ids, k, 0) == d
  {
  }

  lemma TruthfulRows(d: Slots, s: Sampler, identity: Identity, bytes: nat)
    requires s.Lawful() && Truthful(d, PlanOf(s, identity, bytes))
    ensures
      var key := PlanOf(s, identity, bytes).key;
      && key == Key(identity, s.stage, s.total, s.schedule, |s.init.latents| - s.cv, |s.init.audio| - s.ca)
      && forall n :: 0 <= n < 2 && Level(d, n, key) > 0 ==> Rows(d, n, key) == s.Saved(s.Trajectory(Level(d, n, key)))
  {
    hide Level, Rows;
  }

  class NativeStepStore {
    const key: Key
    const dir: Directory<nat, Slot>

    constructor (key: Key, dir: Directory<nat, Slot>)
      ensures this.key == key && this.dir == dir
    {
      this.key := key;
      this.dir := dir;
    }

    /** The greatest acceptable slot. */
    method Latest() returns (best: Option<(nat, Block)>)
      ensures best.None? <==> Best(dir.files, key) == 0
      ensures best.Some? ==> best.value.0 == Best(dir.files, key)
      ensures best.Some? ==> exists n :: 0 <= n < 2 && Level(dir.files, n, key) == best.value.0 && Rows(dir.files, n, key) == best.value.1
    {
      best := None;
      for slot := 0 to 2
        invariant best.None? <==> forall n :: 0 <= n < slot ==> Level(dir.files, n, key) == 0
        invariant best.Some? ==> exists n :: 0 <= n < slot && Level(dir.files, n, key) == best.value.0 && best.value.0 > 0 && Rows(dir.files, n, key) == best.value.1
        invariant best.Some? ==> forall n :: 0 <= n < slot ==> Level(dir.files, n, key) <= best.value.0
      {
        var step := Level(dir.files, slot, key);
        if step > 0 && (best.None? || step > best.value.0) {
          best := Some((step, Rows(dir.files, slot, key)));
        }
      }
    }

    /** Commit a completed step into the slot of its parity. */
    method Save(completed: int, rows: Block, bytes: nat, id: nat) returns (r: Result<()>)
      modifies dir
      ensures r.Ok? <==> 1 <= completed <= key.total && |rows.latents| == key.videoRows && |rows.audio| == key.audioRows && bytes <= MAX_FILE_BYTES
      ensures r.Ok? ==> dir.files == Renamed(old(dir.files), id, completed % 2, SlotFor(key, completed, rows, bytes))
      ensures r.Ok? ==> dir.log == old(dir.log) + WriteTrace(old(dir.files), id, completed % 2, SlotFor(key, completed, rows, bytes), bytes)
      ensures r.Raised? ==> forall n :: Read(dir.files, n) == Read(old(dir.files), n)
    {
      if !(1 <= completed <= key.total) || |rows.latents| != key.videoRows || |rows.audio| != key.audioRows {
        return Raised;
      }
      if bytes > MAX_FILE_BYTES {
        dir.WriteFails(id, bytes);
        return Raised;
      }
      dir.WriteAtomic(id, completed % 2, SlotFor(key, completed, rows, bytes), bytes);
      r := Ok(());
    }

    method Clear()
      modifies dir
      ensures dir.files == Unlinked(Unlinked(old(dir.files), 0), 1)
      ensures dir.log == old(dir.log) + [Unlinked(old(dir.files), 0), dir.files]
    {
      dir.Unlink(0);
      dir.Unlink(1);
    }

    /** The denoising loop over the store. From any truthful slots it ends with the uncrashed block, and every
        directory it passes through is a crash point of the session. */
    method RunWithCheckpoints(s: Sampler, identity: Identity, bytes: nat, ids: nat -> nat) returns (block: Block)
      requires s.Lawful() && 128 <= bytes <= MAX_FILE_BYTES
      requires key == Key(identity, s.stage, s.total, s.schedule, |s.init.latents| - s.cv, |s.init.audio| - s.ca)
      requires Truthful(dir.files, PlanOf(s, identity, bytes))
      modifies dir
      ensures block == s.Trajectory(s.total)
      ensures
        var k := Best(old(dir.files), key);
        dir.files == After(old(dir.files), PlanOf(s, identity, bytes), ids, k, s.total - k)
      ensures
        var k := Best(old(dir.files), key);
        forall i :: |old(dir.log)| <= i < |dir.log| ==>
          CrashPoint(dir.log[i], old(dir.files), PlanOf(s, identity, bytes), ids, k)
    {
      hide *;
      ghost var p := PlanOf(s, identity, bytes);
      ghost var d, log := dir.files, dir.log;
      PlanSlot(s, identity, bytes, 0);
      var start;
      block, start := Resume(s, identity, bytes);
      AfterNothing(d, p, ids, start);
      for index := start to s.total
        invariant block == s.Trajectory(index)
        invariant dir.files == After(d, p, ids, start, index - start)
        invariant |log| <= |dir.log|
        invariant forall i :: |log| <= i < |dir.log| ==> CrashPoint(dir.log[i], d, p, ids, start)
      {
        ghost var before := |dir.log|;
        PlanSlot(s, identity, bytes, index + 1);
        block := CommitStep(s, identity, bytes, ids, d, start, index, block);
        forall i | before <= i < |dir.log|
          ensures CrashPoint(dir.log[i], d, p, ids, start)
        {
          CommitPoint(d, p, ids, start, index - start, i - before);
        }
      }
    }

    /** Load the latest checkpoint, or the initial block, and restore the prefix. */
    method Resume(s: Sampler, identity: Identity, bytes: nat) returns (block: Block, start: nat)
      requires s.Lawful()
      requires key == Key(identity, s.stage, s.total, s.schedule, |s.init.latents| - s.cv, |s.init.audio| - s.ca)
      requires Truthful(dir.files, PlanOf(s, identity, bytes))
      ensures start == Best(dir.files, key) <= s.total && block == s.Trajectory(start)
    {
      hide Level, Best, Truthful, Rows, PlanOf;
      var snapshot := Latest();
      start := 0;
      block := s.init;
      BestBounded(dir.files, key);
      if snapshot.Some? {
        start := snapshot.value.0;
        TruthfulRows(dir.files, s, identity, bytes);
        block := s.Resumed(snapshot.value.1);
        ResumeIsExact(s, start);
      }
      block := s.Protect(block);
    }

    /** One denoising step, the prefix restored, and its commit. */
    method CommitStep(s: Sampler, identity: Identity, bytes: nat, ids: nat -> nat,
                      ghost d: Slots, ghost start: nat, index: nat, block: Block)
      returns (next: Block)
      requires s.Lawful() && 128 <= bytes <= MAX_FILE_BYTES && start <= index < s.total
      requires key == Key(identity, s.stage, s.total, s.schedule, |s.init.latents| - s.cv, |s.init.audio| - s.ca)
      requires block == s.Trajectory(index)
      requires dir.files == After(d, PlanOf(s, identity, bytes), ids, start, index - start)
      modifies dir
      ensures next == s.Trajectory(index + 1)
      ensures dir.files == After(d, PlanOf(s, identity, bytes), ids, start, index + 1 - start)
      ensures
        var before := After(d, PlanOf(s, identity, bytes), ids, start, index - start);
        var trace := WriteTrace(before, ids(index + 1), (index + 1) % 2, PlanOf(s, identity, bytes).Slot(index + 1), bytes);
        |dir.log| == |old(dir.log)| + bytes + 2 && dir.log == old(dir.log) + trace
    {
      hide *;
      PlanSlot(s, identity, bytes, index + 1);
      TrajectoryStep(s, index);
      AfterStep(d, PlanOf(s, identity, bytes), ids, start, index - start);
      next := s.Protect(s.step(index, block));
      var saved := Save(index + 1, s.Saved(next), bytes, ids(index + 1));
    }
  }
}
