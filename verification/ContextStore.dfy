/** The snapshot of a finished film's tails, from which the next film continues. */
module ContextStore {
  import opened Basics
  import opened Disk
  import opened Contexts

  const SCHEMA := "little-monkey-h3-av-tail-v1"

  /** Who the snapshot belongs to. */
  datatype Owner = Owner(videoSha: string, model: string, job: string)

  datatype Snapshot = Snapshot(
    schema: string, owner: Owner, totalFrames: int, frameOrigin: nat, audioOrigin: nat, identity: string,
    tensors: Tensors, payloadSha: Digest<Tensors>, bytes: nat)

  /** What a continuation starts from. */
  datatype Stored = Stored(high: Context, low: Context, totalFrames: int, identity: string)

  type Folder = Dir<(), Snapshot>

  predicate Hex(s: string) {
    |s| == 64 && forall i :: 0 <= i < |s| ==> '0' <= s[i] <= '9' || 'a' <= s[i] <= 'f'
  }

  /** `save_context` up to the write; Raised where it raises. The low tail's origins are not stored. */
  function Snapshotted(s: Stored, owner: Owner, bytes: nat): Result<Snapshot> {
    if !ValidPair(s.high, s.low, s.totalFrames) || (s.identity != "" && !Hex(s.identity)) || bytes > MAX_FILE_BYTES then Raised
    else
      var tensors := (s.high.video, s.high.audio, s.low.video, s.low.audio);
      Ok(Snapshot(SCHEMA, owner, s.totalFrames, s.high.frameOrigin, s.high.audioOrigin, s.identity, tensors, Sha256(tensors), bytes))
  }

  /** `load_context`: both tails take their origins from the same metadata. */
  function LoadContext(d: Folder, owner: Owner, identity: Option<string>): Result<Stored> {
    match Read(d, ())
    case None => Raised
    case Some(x) =>
      if !(128 <= x.bytes <= MAX_FILE_BYTES) || x.schema != SCHEMA || x.payloadSha != Sha256(x.tensors) then Raised
      else if |owner.videoSha| != 64 || x.owner != owner || (identity.Some? && x.identity != identity.value) then Raised
      else
        var high := Context(x.tensors.0, x.tensors.1, x.frameOrigin, x.audioOrigin);
        var low := Context(x.tensors.2, x.tensors.3, x.frameOrigin, x.audioOrigin);
        if !ValidPair(high, low, x.totalFrames) then Raised
        else Ok(Stored(high, low, x.totalFrames, x.identity))
  }

  /** Whatever moment a crash interrupts the write at, the next film finds the old snapshot or exactly the new
      tails, and the new ones only under their own video, model, job and identity. */
  lemma ReloadIsExact(d: Folder, s: Stored, owner: Owner, bytes: nat, id: nat, k: nat, reader: Owner, identity: Option<string>)
    requires Snapshotted(s, owner, bytes).Ok? && 128 <= bytes && k < bytes + 2
    ensures
      LoadContext(WriteTrace(d, id, (), Snapshotted(s, owner, bytes).value, bytes)[k], reader, identity) ==
        if k <= bytes then LoadContext(d, reader, identity)
        else if |reader.videoSha| == 64 && reader == owner && (identity.Some? ==> identity.value == s.identity) then Ok(s)
        else Raised
  {
    hide ValidPair;
    var x := Snapshotted(s, owner, bytes).value;
    WriteIsAtomic(d, id, (), x, bytes, k, ());
    OriginsAgree(s.high, s.low, s.totalFrames);
    var low := Context(x.tensors.2, x.tensors.3, x.frameOrigin, x.audioOrigin);
    assert low == s.low;
  }

  /** What loads is exactly what saving it would have written: loading and saving are inverse to each other. */
  lemma LoadIsInverse(d: Folder, s: Stored, owner: Owner, identity: Option<string>)
    requires s.identity == "" || Hex(s.identity)
    ensures LoadContext(d, owner, identity) == Ok(s) <==>
      && |owner.videoSha| == 64 && (identity.Some? ==> identity.value == s.identity) && Read(d, ()).Some?
      && var x := Read(d, ()).value;
         128 <= x.bytes && Snapshotted(s, owner, x.bytes) == Ok(x)
  {
    hide ValidPair, Hex;
    if ValidPair(s.high, s.low, s.totalFrames) {
      OriginsAgree(s.high, s.low, s.totalFrames);
    }
    if Read(d, ()).Some? {
      var x := Read(d, ()).value;
      assert x.tensors == (x.tensors.0, x.tensors.1, x.tensors.2, x.tensors.3);
      if LoadContext(d, owner, identity) == Ok(s) {
        assert ValidPair(s.high, s.low, s.totalFrames);
        assert x == Snapshot(SCHEMA, owner, s.totalFrames, s.high.frameOrigin, s.high.audioOrigin, s.identity, x.tensors, Sha256(x.tensors), x.bytes);
      }
    }
  }

  lemma OriginsAgree(high: Context, low: Context, total: int)
    requires ValidPair(high, low, total)
    ensures low.frameOrigin == high.frameOrigin && low.audioOrigin == high.audioOrigin
  {
  }

  class Store {
    const dir: Directory<(), Snapshot>

    constructor (dir: Directory<(), Snapshot>)
      ensures this.dir == dir
    {
      this.dir := dir;
    }

    method SaveContext(s: Stored, owner: Owner, bytes: nat, id: nat) returns (r: Result<()>)
      modifies dir
      ensures r.Ok? <==> Snapshotted(s, owner, bytes).Ok?
      ensures r.Ok? ==> dir.log == old(dir.log) + WriteTrace(old(dir.files), id, (), Snapshotted(s, owner, bytes).value, bytes)
      ensures r.Ok? ==> Read(dir.files, ()) == Some(Snapshotted(s, owner, bytes).value)
      ensures r.Raised? ==> dir.files == old(dir.files) || dir.files == old(dir.files) - {Temp(id)}
    {
      if !ValidPair(s.high, s.low, s.totalFrames) || (s.identity != "" && !Hex(s.identity)) {
        return Raised;
      }
      if bytes > MAX_FILE_BYTES {
        dir.WriteFails(id, bytes);
        return Raised;
      }
      var x := Snapshotted(s, owner, bytes).value;
      dir.WriteAtomic(id, (), x, bytes);
      r := Ok(());
    }
  }
}
