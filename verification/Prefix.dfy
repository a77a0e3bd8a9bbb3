/** The protected AV prefix of a continued window inside the denoising loop. */
module Prefix {
  import opened Basics

  type Row = seq<real>

  /** The packed rows being denoised. */
  datatype Block = Block(latents: seq<Row>, audio: seq<Row>)

  /** Clean rows of the previous window: video, then the ticks of the left and of the right audio channel. */
  datatype Guard = Guard(video: seq<Row>, audio: seq<Row>)
  {
    function Ticks(): nat { |audio| / 2 }
  }

  /** A guard attached to a block: where its rows go. */
  datatype Bound = Bound(guard: Guard, videoStart: nat, audioStart: nat, stride: nat)
  {
    function VideoEnd(): nat { videoStart + |guard.video| }
    function Ticks(): nat { guard.Ticks() }
    /** Both channels' ranges lie inside the block, and each leaves rows to generate. */
    predicate Fits(latents: nat, audio: nat) {
      && VideoEnd() < latents
      && |guard.audio| == 2 * Ticks()
      && Ticks() < stride
      && audioStart + 2 * stride <= audio
    }
    predicate FitsBlock(b: Block) { Fits(|b.latents|, |b.audio|) }
    predicate ProtectsVideo(i: int) { videoStart <= i < VideoEnd() }
    predicate ProtectsLeft(i: int) { audioStart <= i < audioStart + Ticks() }
    predicate ProtectsRight(i: int) { audioStart + stride <= i < audioStart + stride + Ticks() }
  }

  /** `bind`, before it restores; Raised for offsets the source refuses. */
  function Bind(guard: Guard, block: Block, videoStart: int, audioStart: int): (r: Result<Bound>)
    requires |guard.audio| % 2 == 0
    ensures r.Ok? ==> r.value.FitsBlock(block) && r.value.guard == guard
    ensures r.Ok? ==> r.value.audioStart + 2 * r.value.stride == |block.audio|
  {
    if videoStart < 0 || audioStart < 0 || |block.latents| <= videoStart + |guard.video|
       || (|block.audio| - audioStart) % 2 != 0 then Raised
    else
      var stride := (|block.audio| - audioStart) / 2;
      if stride <= guard.Ticks() then Raised
      else Ok(Bound(guard, videoStart, audioStart, stride))
  }

  /** The offsets are accepted exactly when both prefixes leave rows to generate, in both audio channels alike. */
  lemma BindIff(guard: Guard, block: Block, videoStart: int, audioStart: int)
    requires |guard.audio| % 2 == 0
    ensures
      var r := Bind(guard, block, videoStart, audioStart);
      && (r.Ok? <==>
           && 0 <= videoStart && videoStart + |guard.video| < |block.latents|
           && 0 <= audioStart && audioStart + |guard.audio| < |block.audio| && (|block.audio| - audioStart) % 2 == 0)
      && (r.Ok? ==> r.value.videoStart == videoStart && r.value.audioStart == audioStart)
  {
  }

  function Splice(s: seq<Row>, at: nat, rows: seq<Row>): seq<Row>
    requires at + |rows| <= |s|
  {
    s[..at] + rows + s[at + |rows|..]
  }

  /** The block after `restore`. */
  function Restored(g: Bound, b: Block): Block
    requires g.FitsBlock(b)
  {
    Block(Splice(b.latents, g.videoStart, g.guard.video),
          Splice(Splice(b.audio, g.audioStart, g.guard.audio[..g.Ticks()]),
                 g.audioStart + g.stride, g.guard.audio[g.Ticks()..]))
  }

  /** Every protected row holds the saved prefix. */
  ghost predicate Protected(g: Bound, b: Block)
    requires g.FitsBlock(b)
  {
    && b.latents[g.videoStart..g.VideoEnd()] == g.guard.video
    && b.audio[g.audioStart..g.audioStart + g.Ticks()] == g.guard.audio[..g.Ticks()]
    && b.audio[g.audioStart + g.stride..g.audioStart + g.stride + g.Ticks()] == g.guard.audio[g.Ticks()..]
  }

  /** No row is protected for two channels at once. */
  lemma ChannelsDisjoint(g: Bound, i: int)
    requires g.Ticks() < g.stride
    ensures !(g.ProtectsLeft(i) && g.ProtectsRight(i))
  {
  }

  /** Restoring protects every prefix row and touches no other row. */
  lemma RestoreProtects(g: Bound, b: Block)
    requires g.FitsBlock(b)
    ensures g.FitsBlock(Restored(g, b))
    ensures |Restored(g, b).latents| == |b.latents| && |Restored(g, b).audio| == |b.audio|
    ensures Protected(g, Restored(g, b))
    ensures forall i :: 0 <= i < |b.latents| && !g.ProtectsVideo(i) ==> Restored(g, b).latents[i] == b.latents[i]
    ensures forall i :: 0 <= i < |b.audio| && !g.ProtectsLeft(i) && !g.ProtectsRight(i) ==>
      Restored(g, b).audio[i] == b.audio[i]
  {
    hide Splice;
    SpliceReads(b.latents, g.videoStart, g.guard.video);
    var left := Splice(b.audio, g.audioStart, g.guard.audio[..g.Ticks()]);
    SpliceReads(b.audio, g.audioStart, g.guard.audio[..g.Ticks()]);
    SpliceReads(left, g.audioStart + g.stride, g.guard.audio[g.Ticks()..]);
    var r := Restored(g, b).audio;
    assert r[g.audioStart..g.audioStart + g.Ticks()] == left[g.audioStart..g.audioStart + g.Ticks()];
  }

  /** Which saved row a protected row gets. */
  lemma RestoredRow(g: Bound, b: Block, i: nat)
    requires g.FitsBlock(b)
    ensures g.ProtectsVideo(i) ==>
      i < |Restored(g, b).latents| && g.videoStart <= i < g.videoStart + |g.guard.video| && Restored(g, b).latents[i] == g.guard.video[i - g.videoStart]
    ensures g.ProtectsLeft(i) ==>
      var k := i - g.audioStart;
      i < |Restored(g, b).audio| && 0 <= k < g.Ticks() && Restored(g, b).audio[i] == g.guard.audio[k]
    ensures g.ProtectsRight(i) ==>
      var k := i - g.audioStart - g.stride;
      i < |Restored(g, b).audio| && 0 <= k < g.Ticks() && Restored(g, b).audio[i] == g.guard.audio[g.Ticks() + k]
  {
    hide Restored, Guard.Ticks;
    RestoreProtects(g, b);
    var r := Restored(g, b);
    if g.ProtectsVideo(i) {
      assert r.latents[g.videoStart..g.VideoEnd()][i - g.videoStart] == r.latents[i];
    }
    if g.ProtectsLeft(i) {
      assert r.audio[g.audioStart..g.audioStart + g.Ticks()][i - g.audioStart] == r.audio[i];
    }
    if g.ProtectsRight(i) {
      var at := g.audioStart + g.stride;
      assert r.audio[at..at + g.Ticks()][i - at] == r.audio[i];
    }
  }

  lemma SpliceReads(s: seq<Row>, at: nat, rows: seq<Row>)
    requires at + |rows| <= |s|
    ensures |Splice(s, at, rows)| == |s|
    ensures Splice(s, at, rows)[at..at + |rows|] == rows
    ensures forall i :: 0 <= i < |s| && !(at <= i < at + |rows|) ==> Splice(s, at, rows)[i] == s[i]
    ensures s[at..at + |rows|] == rows ==> Splice(s, at, rows) == s
  {
  }

  /** A block is protected exactly when restoring it changes nothing. */
  lemma ProtectedIffFixed(g: Bound, b: Block)
    requires g.FitsBlock(b)
    ensures Protected(g, b) <==> Restored(g, b) == b
  {
    hide Splice;
    if Restored(g, b) == b {
      RestoreProtects(g, b);
    }
    if Protected(g, b) {
      SpliceReads(b.latents, g.videoStart, g.guard.video);
      SpliceReads(b.audio, g.audioStart, g.guard.audio[..g.Ticks()]);
      SpliceReads(b.audio, g.audioStart + g.stride, g.guard.audio[g.Ticks()..]);
    }
  }

  lemma RestoreIdempotent(g: Bound, b: Block)
    requires g.FitsBlock(b)
    ensures g.FitsBlock(Restored(g, b)) && Restored(g, Restored(g, b)) == Restored(g, b)
  {
    RestoreProtects(g, b);
    ProtectedIffFixed(g, Restored(g, b));
  }

  lemma SpliceTwice(s: seq<Row>, at: nat, rows: seq<Row>)
    requires at + |rows| <= |s|
    ensures |Splice(s, at, rows)| == |s| && Splice(Splice(s, at, rows), at, rows) == Splice(s, at, rows)
  {
    SpliceReads(s, at, rows);
    SpliceReads(Splice(s, at, rows), at, rows);
  }

  /** `restore` overwrites the three row ranges of the block in place, and the video range of the rows the model was
      last called with, if any, which may be the block's own. */
  method Restore(g: Bound, latents: array<Row>, audio: array<Row>, current: array?<Row>)
    requires latents != audio && g.Fits(latents.Length, audio.Length)
    requires current != null ==> current != audio && current.Length > g.VideoEnd()
    modifies latents, audio, if current == null then {} else {current}
    ensures Block(latents[..], audio[..]) == Restored(g, Block(old(latents[..]), old(audio[..])))
    ensures current != null ==> current[..] == Splice(old(current[..]), g.videoStart, g.guard.video)
  {
    hide Splice;
    ghost var l, a := latents[..], audio[..];
    var t := g.Ticks();
    SpliceTwice(l, g.videoStart, g.guard.video);
    SpliceReads(a, g.audioStart, g.guard.audio[..t]);
    Overwrite(latents, g.videoStart, g.guard.video);
    Overwrite(audio, g.audioStart, g.guard.audio[..t]);
    Overwrite(audio, g.audioStart + g.stride, g.guard.audio[t..]);
    if current != null {
      Overwrite(current, g.videoStart, g.guard.video);
    }
  }

  method Overwrite(rows: array<Row>, at: nat, values: seq<Row>)
    requires at + |values| <= rows.Length
    modifies rows
    ensures rows[..] == Splice(old(rows[..]), at, values)
  {
    ghost var before := rows[..];
    for k := 0 to |values|
      invariant rows[..] == before[..at] + values[..k] + before[at + k..]
    {
      rows[at + k] := values[k];
    }
  }

  /* The clocks of the rows. */

  ghost predicate Increasing(s: seq<real>) {
    forall i, j :: 0 <= i < j < |s| ==> s[i] < s[j]
  }

  /** Insert into a strictly increasing sequence, once. */
  function Insert(s: seq<real>, x: real): (r: seq<real>)
    requires Increasing(s)
    ensures Increasing(r)
    ensures forall y :: y in r <==> y in s || y == x
  {
    if s == [] then [x]
    else if x < s[0] then [x] + s
    else if x == s[0] then s
    else
      var rest := Insert(s[1..], x);
      assert forall y :: y in s <==> y == s[0] || y in s[1..];
      assert forall i :: 0 <= i < |rest| ==> rest[i] in rest;
      assert forall y :: y in [s[0]] + rest <==> y == s[0] || y in rest;
      [s[0]] + rest
  }

  /** `torch.unique(sorted=True)`: the distinct values in increasing order. */
  function Unique(values: seq<real>): (r: seq<real>)
    ensures Increasing(r)
    ensures forall y :: y in r <==> y in values
  {
    if values == [] then []
    else
      assert forall y :: y in values <==> y == values[0] || y in values[1..];
      Insert(Unique(values[1..]), values[0])
  }

  function IndexOf(s: seq<real>, x: real): (i: nat)
    requires x in s
    ensures i < |s| && s[i] == x
  {
    if s[0] == x then 0 else 1 + IndexOf(s[1..], x)
  }

  /** Rows the prefix protects, as positions in the packed sequence. */
  ghost predicate ProtectedRow(g: Bound, videoRows: seq<nat>, audioRows: seq<nat>, row: nat) {
    || (exists k :: 0 <= k < |videoRows| && g.ProtectsVideo(k) && videoRows[k] == row)
    || (exists k :: 0 <= k < |audioRows| && (g.ProtectsLeft(k) || g.ProtectsRight(k)) && audioRows[k] == row)
  }

  /** Through the new table protected rows read time 1 and every other row its old time; the table is increasing. */
  ghost predicate TimesRebuilt(
    g: Bound, times: seq<real>, index: seq<nat>, videoRows: seq<nat>, audioRows: seq<nat>, table: seq<real>, inverse: seq<nat>)
    requires forall i :: 0 <= i < |index| ==> index[i] < |times|
  {
    && |inverse| == |index| && Increasing(table)
    && (forall i :: 0 <= i < |index| ==> inverse[i] < |table|)
    && (forall i :: 0 <= i < |index| && ProtectedRow(g, videoRows, audioRows, i) ==> table[inverse[i]] == 1.0)
    && (forall i :: 0 <= i < |index| && !ProtectedRow(g, videoRows, audioRows, i) ==> table[inverse[i]] == times[index[i]])
  }

  /** The time part of the `before` hook: protected rows get the clean time 1, every other row keeps its own
      time, and the table the model indexes is rebuilt as the distinct times in increasing order. */
  method RebuildTimes(g: Bound, times: seq<real>, index: seq<nat>, videoRows: seq<nat>, audioRows: seq<nat>)
    returns (r: Result<(seq<real>, seq<nat>)>)
    requires g.Ticks() < g.stride
    requires forall i :: 0 <= i < |index| ==> index[i] < |times|
    requires forall i :: 0 <= i < |videoRows| ==> videoRows[i] < |index|
    requires forall i :: 0 <= i < |audioRows| ==> audioRows[i] < |index|
    ensures r.Raised? <==> |videoRows| <= g.VideoEnd() || |audioRows| < g.audioStart + 2 * g.stride
    ensures r.Ok? ==> TimesRebuilt(g, times, index, videoRows, audioRows, r.value.0, r.value.1)
  {
    if |videoRows| <= g.VideoEnd() || |audioRows| < g.audioStart + 2 * g.stride {
      return Raised;
    }
    var rowTimes := seq(|index|, i requires 0 <= i < |index| => times[index[i]]);
    ghost var original := rowTimes;
    ghost var done: set<nat> := {};
    for k := g.videoStart to g.VideoEnd()
      invariant |rowTimes| == |index|
      invariant forall i :: 0 <= i < |index| ==> rowTimes[i] == if i in done then 1.0 else original[i]
      invariant forall i :: i in done <==> exists j :: 0 <= j < |videoRows| && g.videoStart <= j < k && videoRows[j] == i
    {
      rowTimes := rowTimes[videoRows[k] := 1.0];
      done := done + {videoRows[k]};
    }
    ghost var video := done;
    for k := g.audioStart to g.audioStart + 2 * g.stride
      invariant |rowTimes| == |index|
      invariant forall i :: 0 <= i < |index| ==> rowTimes[i] == if i in done then 1.0 else original[i]
      invariant forall i :: i in done <==> (i in video
        || exists j :: 0 <= j < |audioRows| && j < k && (g.ProtectsLeft(j) || g.ProtectsRight(j)) && audioRows[j] == i)
    {
      if g.ProtectsLeft(k) || g.ProtectsRight(k) {
        rowTimes := rowTimes[audioRows[k] := 1.0];
        done := done + {audioRows[k]};
      }
    }
    assert forall i :: 0 <= i < |index| ==> (i in done <==> ProtectedRow(g, videoRows, audioRows, i));
    var table := Unique(rowTimes);
    assert forall i :: 0 <= i < |rowTimes| ==> rowTimes[i] in table;
    r := Ok((table, seq(|index|, i requires 0 <= i < |index| => IndexOf(table, rowTimes[i]))));
  }

  /** The whole `before` hook: the model's own rows hold the prefix, and the times are rebuilt around it. */
  method Before(
    g: Bound, video: array<Row>, audio: array<Row>, times: seq<real>, index: seq<nat>, videoRows: seq<nat>, audioRows: seq<nat>)
    returns (r: Result<(seq<real>, seq<nat>)>)
    requires video != audio && |videoRows| == video.Length && |audioRows| == audio.Length
    requires g.Ticks() < g.stride && |g.guard.audio| == 2 * g.Ticks()
    requires forall i :: 0 <= i < |index| ==> index[i] < |times|
    requires forall i :: 0 <= i < |videoRows| ==> videoRows[i] < |index|
    requires forall i :: 0 <= i < |audioRows| ==> audioRows[i] < |index|
    modifies video, audio
    ensures r.Ok? <==> g.Fits(video.Length, audio.Length)
    ensures r.Raised? ==> video[..] == old(video[..]) && audio[..] == old(audio[..])
    ensures r.Ok? ==> Block(video[..], audio[..]) == Restored(g, Block(old(video[..]), old(audio[..])))
    ensures r.Ok? ==> TimesRebuilt(g, times, index, videoRows, audioRows, r.value.0, r.value.1)
  {
    r := RebuildTimes(g, times, index, videoRows, audioRows);
    if r.Ok? {
      Restore(g, video, audio, null);
    }
  }
}
