/** Incremental video decoding: one clip and one pending overlap at a time, against the batch timeline. */
module StreamDecode {
  import opened Basics

  /** A Python slice of a prefix: at most n items. */
  function Take<T>(s: seq<T>, n: nat): (r: seq<T>)
    ensures |r| == if n < |s| then n else |s|
    ensures r <= s
  {
    if n < |s| then s[..n] else s
  }

  /** A Python slice of a suffix: all but the first n items, if that many exist. */
  function Skip<T>(s: seq<T>, n: nat): seq<T> {
    if n < |s| then s[n..] else []
  }

  function Map<A, B>(f: A -> B, s: seq<A>): (r: seq<B>)
    ensures |r| == |s| && forall i :: 0 <= i < |s| ==> r[i] == f(s[i])
  {
    seq(|s|, i requires 0 <= i < |s| => f(s[i]))
  }

  /** Chunk geometry: `chunk` tokens a clip, `drop` dropped at the end, `overlap` tokens shared with the next clip. */
  datatype Geometry = Geometry(chunk: int, drop: int, overlap: int)
  {
    predicate Valid() { chunk > 0 && drop >= 0 && overlap >= 0 }

    function Dropping(): int { if drop > 0 then 1 else 0 }

    /** Number of clips for a latent of the given length. */
    function Clips(tokens: int): int
      requires Valid()
    {
      var total := tokens + drop;
      (total + (-total) % chunk) / chunk - Dropping()
    }

    /** Every clip starts inside the latent. */
    predicate Inside(tokens: int)
      requires Valid()
    {
      forall i :: 0 <= i < Clips(tokens) ==> Start(i) < tokens
    }

    function Start(i: int): int { i * chunk }
  }

  /** The number of clips is the least whose chunks hold all tokens and the dropped ones. */
  lemma ClipsRoundUp(g: Geometry, tokens: nat)
    requires g.Valid()
    ensures
      var n := g.Clips(tokens) + g.Dropping();
      n * g.chunk - g.chunk < tokens + g.drop <= n * g.chunk
  {
    RoundUp(tokens + g.drop, g.chunk);
  }

  lemma RoundUp(total: int, chunk: int)
    requires chunk > 0
    ensures
      var n := (total + (-total) % chunk) / chunk;
      n * chunk - chunk < total <= n * chunk
  {
    var r := (-total) % chunk;
    var q := (-total) / chunk;
    assert -total == q * chunk + r;
    assert total + r == (-q) * chunk;
    Exact(-q, chunk);
  }

  lemma Exact(q: int, chunk: int)
    requires chunk > 0
    ensures q * chunk / chunk == q
  {
    var n := q * chunk / chunk;
    assert q * chunk == n * chunk + q * chunk % chunk;
    assert (q - n) * chunk == q * chunk % chunk;
    if q - n >= 1 {
      MulLe(1, q - n, chunk);
    } else if q - n <= -1 {
      MulLe(q - n, -1, chunk);
    }
  }

  /** For latents of every length all clips start inside them exactly when no more than a chunk is dropped. */
  lemma InsideIffSmallDrop(g: Geometry)
    requires g.Valid()
    ensures (forall tokens: nat :: g.Inside(tokens)) <==> g.drop <= g.chunk
  {
    if g.drop <= g.chunk {
      forall tokens: nat
        ensures g.Inside(tokens)
      {
        SmallDropInside(g, tokens);
      }
    } else {
      LargeDropOutside(g);
    }
  }

  lemma SmallDropInside(g: Geometry, tokens: nat)
    requires g.Valid() && g.drop <= g.chunk
    ensures g.Inside(tokens)
  {
    hide Geometry.Clips;
    forall i | 0 <= i < g.Clips(tokens)
      ensures g.Start(i) < tokens
    {
      ClipsRoundUp(g, tokens);
      var n := g.Clips(tokens) + g.Dropping();
      MulLe(i + 1 + g.Dropping(), n, g.chunk);
      assert (i + 1 + g.Dropping()) * g.chunk == g.Start(i) + g.chunk + g.Dropping() * g.chunk;
    }
  }

  /** With a larger drop, a latent of exactly one chunk gets a second, empty clip. */
  lemma LargeDropOutside(g: Geometry)
    requires g.Valid() && g.drop > g.chunk
    ensures !g.Inside(g.chunk)
  {
    hide Geometry.Clips;
    ClipsRoundUp(g, g.chunk);
    if g.Clips(g.chunk) < 2 {
      MulLe(g.Clips(g.chunk) + 1, 2, g.chunk);
      assert false;
    }
    assert g.Start(1) == g.chunk;
  }

  /** The last clip reaches the last token whenever overlap and drop make up a chunk. */
  lemma LastClipReachesEnd(g: Geometry, tokens: nat)
    requires g.Valid() && g.overlap + g.drop >= g.chunk && g.Clips(tokens) > 0
    ensures g.Start(g.Clips(tokens) - 1) + g.chunk + g.overlap >= tokens
  {
    hide Geometry.Clips;
    ClipsRoundUp(g, tokens);
    var n := g.Clips(tokens);
    assert (n - 1) * g.chunk + g.chunk == n * g.chunk && (n + 1) * g.chunk == n * g.chunk + g.chunk;
  }

  /** The decoder: latent tokens X to frames F, blending of an overlap into the next clip, colour conversion to pixels. */
  datatype Vae<!X, !F, !P> = Vae(
    g: Geometry, window: nat, prePadding: nat, decode: seq<X> -> seq<F>, blend: (seq<F>, seq<F>) -> seq<F>, rgb: F -> P)
  {
    /** The tokens of clip i, the last one repeated when the latent ends inside the clip. */
    function Tokens(latents: seq<X>, i: nat): (r: seq<X>)
      requires g.Valid() && 0 <= g.Start(i) < |latents|
      ensures |r| == g.chunk + g.overlap
      ensures forall k :: 0 <= k < |r| ==>
        r[k] == latents[if g.Start(i) + k < |latents| then g.Start(i) + k else |latents| - 1]
    {
      var clip := Take(latents[g.Start(i)..], g.chunk + g.overlap);
      clip + seq(g.chunk + g.overlap - |clip|, _ => clip[|clip| - 1])
    }

    /** The frames of window j of a decoded clip, without the pre-padding. */
    function Window(clip: seq<F>, j: nat): seq<F> {
      Skip(Take(Skip(clip, j * window), window), prePadding)
    }

    function Main(latents: seq<X>, i: nat): seq<F>
      requires g.Valid() && 0 <= g.Start(i) < |latents|
    {
      Window(decode(Tokens(latents, i)), 0)
    }

    function Tail(latents: seq<X>, i: nat): seq<F>
      requires g.Valid() && 0 <= g.Start(i) < |latents|
    {
      Window(decode(Tokens(latents, i)), 1)
    }

    /** What clip i adds to the film: its main window, the previous clip's overlap blended in. */
    function Piece(latents: seq<X>, i: nat): seq<F>
      requires g.Valid() && (forall k :: 0 <= k <= i ==> 0 <= g.Start(k) < |latents|)
    {
      if i > 0 && g.drop > 0 then blend(Tail(latents, i - 1), Main(latents, i)) else Main(latents, i)
    }

    /** The first n pieces. */
    function Pieces(latents: seq<X>, n: nat): seq<F>
      requires g.Valid() && (forall k :: 0 <= k < n ==> 0 <= g.Start(k) < |latents|)
    {
      if n == 0 then [] else Pieces(latents, n - 1) + Piece(latents, n - 1)
    }

    /** The batch timeline: all pieces, then the overlap of the last clip. */
    function Timeline(latents: seq<X>): seq<F>
      requires Decodable(latents)
    {
      var n := g.Clips(|latents|);
      Pieces(latents, n) + if g.drop > 0 then Tail(latents, n - 1) else []
    }

    /** At least one clip, and none past the end of the latent. */
    predicate Decodable(latents: seq<X>) {
      g.Valid() && g.Clips(|latents|) > 0 && forall k :: 0 <= k < g.Clips(|latents|) ==> 0 <= g.Start(k) < |latents|
    }
  }

  lemma TakeMore<T>(done: seq<T>, piece: seq<T>, limit: nat)
    ensures Take(done + piece, limit) == Take(done, limit) + Take(piece, limit - |Take(done, limit)|)
  {
    if |done| < limit {
      assert Take(done + piece, limit) == done + Take(piece, limit - |done|);
    }
  }

  lemma MapConcat<A, B>(f: A -> B, s: seq<A>, t: seq<A>)
    ensures Map(f, s + t) == Map(f, s) + Map(f, t)
  {
  }

  /* What the timeline holds. */

  /** Items a to b of a sequence, as far as they exist. */
  ghost predicate IsSlice<T>(r: seq<T>, s: seq<T>, a: nat, b: nat) {
    && |r| == Max(0, Min(b, |s|) - a)
    && forall k :: 0 <= k < |r| ==> r[k] == s[a + k]
  }

  lemma WindowIsSlice<X, F, P>(vae: Vae<X, F, P>, clip: seq<F>, j: nat)
    ensures IsSlice(vae.Window(clip, j), clip, j * vae.window + vae.prePadding, (j + 1) * vae.window)
  {
    var first := j * vae.window;
    MulLe(0, j, vae.window);
    assert (j + 1) * vae.window == first + vae.window;
    var rest := Skip(clip, first);
    assert forall k :: 0 <= k < |rest| ==> rest[k] == clip[first + k];
    assert forall k :: 0 <= k < |Take(rest, vae.window)| ==> Take(rest, vae.window)[k] == rest[k];
  }

  /**
   * Clip i adds the decoded frames of its first window behind the pre-padding, with those of the second window of the
   * clip before it blended in from the left.
   */
  lemma PieceIsDecoded<X, F, P>(vae: Vae<X, F, P>, latents: seq<X>, i: nat)
    requires vae.g.Valid() && forall k :: 0 <= k <= i ==> 0 <= vae.g.Start(k) < |latents|
    ensures i == 0 || vae.g.drop == 0 ==> IsSlice(vae.Piece(latents, i), vae.decode(vae.Tokens(latents, i)), vae.prePadding, vae.window)
    ensures i > 0 && vae.g.drop > 0 ==>
      exists tail, main ::
        && vae.Piece(latents, i) == vae.blend(tail, main)
        && IsSlice(tail, vae.decode(vae.Tokens(latents, i - 1)), vae.window + vae.prePadding, 2 * vae.window)
        && IsSlice(main, vae.decode(vae.Tokens(latents, i)), vae.prePadding, vae.window)
  {
    hide Vae.Window, Vae.Tokens, IsSlice;
    WindowIsSlice(vae, vae.decode(vae.Tokens(latents, i)), 0);
    if i > 0 {
      WindowIsSlice(vae, vae.decode(vae.Tokens(latents, i - 1)), 1);
      assert vae.g.drop > 0 ==> vae.Piece(latents, i) == vae.blend(vae.Tail(latents, i - 1), vae.Main(latents, i));
    }
  }

  /** The timeline holds the pieces one behind the other, and then the second window of the last clip, if there is one. */
  lemma TimelineIsPieces<X, F, P>(vae: Vae<X, F, P>, latents: seq<X>, i: nat)
    requires vae.Decodable(latents) && i < vae.g.Clips(|latents|)
    ensures
      var film, first := vae.Timeline(latents), |vae.Pieces(latents, i)|;
      var end := first + |vae.Piece(latents, i)|;
      && end <= |film| && film[first..end] == vae.Piece(latents, i)
      && (i == 0 ==> first == 0)
      && (i > 0 ==> first == |vae.Pieces(latents, i - 1)| + |vae.Piece(latents, i - 1)|)
      && (i == vae.g.Clips(|latents|) - 1 ==>
           if vae.g.drop == 0 then end == |film|
           else IsSlice(film[end..], vae.decode(vae.Tokens(latents, i)), vae.window + vae.prePadding, 2 * vae.window))
  {
    hide Geometry.Clips, Vae.Window, Vae.Tokens, Vae.Piece, IsSlice;
    var n, film := vae.g.Clips(|latents|), vae.Timeline(latents);
    PiecesPrefix(vae, latents, i + 1, n);
    var done, piece := vae.Pieces(latents, i), vae.Piece(latents, i);
    assert vae.Pieces(latents, i + 1) == done + piece;
    assert film[|done|..|done| + |piece|] == piece;
    if i == n - 1 {
      WindowIsSlice(vae, vae.decode(vae.Tokens(latents, i)), 1);
      assert vae.g.drop > 0 ==> film == done + piece + vae.Tail(latents, i);
      assert vae.g.drop > 0 ==> film[|done| + |piece|..] == vae.Tail(latents, i);
    }
  }

  lemma {:induction false} PiecesPrefix<X, F, P>(vae: Vae<X, F, P>, latents: seq<X>, i: nat, n: nat)
    requires vae.g.Valid() && i <= n && (forall k :: 0 <= k < n ==> 0 <= vae.g.Start(k) < |latents|)
    ensures vae.Pieces(latents, i) <= vae.Pieces(latents, n)
  {
    hide Vae.Piece;
    if i < n {
      PiecesPrefix(vae, latents, i, n - 1);
    }
  }

  /** Tokens a to b of the latents, the last one repeated past their end. */
  function Run<X>(latents: seq<X>, a: nat, b: nat): (r: seq<X>)
    requires latents != [] && a <= b
    ensures |r| == b - a && forall k :: 0 <= k < b - a ==> r[k] == latents[if a + k < |latents| then a + k else |latents| - 1]
  {
    seq(b - a, k requires 0 <= k < b - a => latents[if a + k < |latents| then a + k else |latents| - 1])
  }

  /** The frames of tokens that are decoded one by one. */
  function Frames<X, F>(each: X -> seq<F>, tokens: seq<X>): seq<F> {
    Concat(Map(each, tokens))
  }

  lemma FramesAppend<X, F>(each: X -> seq<F>, s: seq<X>, t: seq<X>)
    ensures Frames(each, s + t) == Frames(each, s) + Frames(each, t)
  {
    MapConcat(each, s, t);
    ConcatSplit(Map(each, s), Map(each, t));
  }

  lemma FramesRun<X, F>(each: X -> seq<F>, latents: seq<X>, a: nat, b: nat, c: nat)
    requires latents != [] && a <= b <= c
    ensures Frames(each, Run(latents, a, c)) == Frames(each, Run(latents, a, b)) + Frames(each, Run(latents, b, c))
  {
    assert Run(latents, a, c) == Run(latents, a, b) + Run(latents, b, c);
    FramesAppend(each, Run(latents, a, b), Run(latents, b, c));
  }

  /** Every token gives `ratio` frames. */
  ghost predicate Even<X(!new), F>(each: X -> seq<F>, ratio: nat) {
    forall x :: |each(x)| == ratio
  }

  lemma {:induction false} FramesLength<X(!new), F>(each: X -> seq<F>, ratio: nat, tokens: seq<X>)
    requires Even(each, ratio)
    ensures |Frames(each, tokens)| == |tokens| * ratio
  {
    if tokens != [] {
      FramesLength(each, ratio, tokens[1..]);
      assert Map(each, tokens)[1..] == Map(each, tokens[1..]);
      assert |Map(each, tokens)[0]| == ratio;
      assert |tokens| * ratio == ratio + (|tokens| - 1) * ratio;
    }
  }

  /** A decoder that works token by token in windows of one chunk, and a blend that keeps frames it is given twice. */
  ghost predicate TokenWise<X(!new), F(!new), P(!new)>(vae: Vae<X, F, P>, each: X -> seq<F>, ratio: nat) {
    && vae.g.Valid() && vae.window == vae.g.chunk * ratio && Even(each, ratio)
    && (forall tokens :: vae.decode(tokens) == Frames(each, tokens))
    && forall a, b :: a <= b ==> vae.blend(a, b) == b
  }

  /** How many tokens the second window of a clip shows. */
  function Shared(g: Geometry): int {
    Min(g.overlap, g.chunk)
  }

  lemma TokensAreRun<X, F, P>(vae: Vae<X, F, P>, latents: seq<X>, i: nat)
    requires vae.g.Valid() && 0 <= vae.g.Start(i) < |latents|
    ensures vae.Tokens(latents, i) == Run(latents, vae.g.Start(i), vae.g.Start(i) + vae.g.chunk + vae.g.overlap)
  {
  }

  /** The two windows of a clip, in tokens. */
  lemma TokenWindows<X(!new), F(!new), P(!new)>(vae: Vae<X, F, P>, each: X -> seq<F>, ratio: nat, latents: seq<X>, i: nat)
    requires TokenWise(vae, each, ratio) && 0 <= vae.g.Start(i) < |latents|
    ensures
      var a := vae.g.Start(i);
      var b := a + vae.g.chunk;
      && vae.Main(latents, i) == Skip(Frames(each, Run(latents, a, b)), vae.prePadding)
      && vae.Tail(latents, i) == Skip(Frames(each, Run(latents, b, b + Shared(vae.g))), vae.prePadding)
  {
    hide Vae.Tokens, Vae.Window, Frames, Run, Even, Skip;
    TokensAreRun(vae, latents, i);
    var a := vae.g.Start(i);
    var b, c := a + vae.g.chunk, a + vae.g.chunk + vae.g.overlap;
    var d := b + Shared(vae.g);
    FramesRun(each, latents, a, b, c);
    FramesRun(each, latents, b, d, c);
    FramesLength(each, ratio, Run(latents, a, b));
    SharedLength(each, ratio, latents, vae.g, b);
    TwoWindows(vae, Frames(each, Run(latents, a, b)), Frames(each, Run(latents, b, d)), Frames(each, Run(latents, d, c)));
  }

  /** The shared tokens fill a window, or there are no more. */
  lemma SharedLength<X(!new), F(!new)>(each: X -> seq<F>, ratio: nat, latents: seq<X>, g: Geometry, b: nat)
    requires Even(each, ratio) && g.Valid() && latents != []
    ensures Shared(g) >= 0 && |Frames(each, Run(latents, b, b + Shared(g)))| == Shared(g) * ratio <= g.chunk * ratio
    ensures Shared(g) * ratio < g.chunk * ratio ==> Frames(each, Run(latents, b + Shared(g), b + g.overlap)) == []
  {
    hide Frames, Run, Even;
    var d := b + Shared(g);
    FramesLength(each, ratio, Run(latents, b, d));
    FramesLength(each, ratio, Run(latents, d, b + g.overlap));
    MulLe(Shared(g), g.chunk, ratio);
    if Shared(g) < g.chunk {
      assert d == b + g.overlap;
      assert 0 * ratio == 0;
    }
  }

  /** A clip cut into its two windows. */
  lemma TwoWindows<X, F, P>(vae: Vae<X, F, P>, main: seq<F>, tail: seq<F>, rest: seq<F>)
    requires |main| == vae.window && |tail| <= vae.window && (|tail| < vae.window ==> rest == [])
    ensures vae.Window(main + (tail + rest), 0) == Skip(main, vae.prePadding)
    ensures vae.Window(main + (tail + rest), 1) == Skip(tail, vae.prePadding)
  {
    var clip := main + (tail + rest);
    assert 0 * vae.window == 0 && 1 * vae.window == vae.window;
    assert Skip(clip, 0) == clip;
    assert Take(clip, vae.window) == main;
    assert Skip(clip, vae.window) == tail + rest;
    assert Take(tail + rest, vae.window) == tail;
  }

  /** The overlap of a clip is how the next one starts, so the blend changes nothing. */
  lemma TokenPiece<X(!new), F(!new), P(!new)>(vae: Vae<X, F, P>, each: X -> seq<F>, ratio: nat, latents: seq<X>, i: nat)
    requires TokenWise(vae, each, ratio) && forall k :: 0 <= k <= i ==> 0 <= vae.g.Start(k) < |latents|
    ensures vae.Piece(latents, i) == Skip(Frames(each, Run(latents, vae.g.Start(i), vae.g.Start(i) + vae.g.chunk)), vae.prePadding)
  {
    hide Vae.Main, Vae.Tail, Frames, Run;
    TokenWindows(vae, each, ratio, latents, i);
    if i > 0 {
      TokenWindows(vae, each, ratio, latents, i - 1);
      var a := vae.g.Start(i);
      assert vae.g.Start(i - 1) + vae.g.chunk == a;
      FramesRun(each, latents, a, a + Shared(vae.g), a + vae.g.chunk);
      SkipPrefix(Frames(each, Run(latents, a, a + Shared(vae.g))), Frames(each, Run(latents, a, a + vae.g.chunk)), vae.prePadding);
    }
  }

  lemma SkipPrefix<T>(s: seq<T>, t: seq<T>, n: nat)
    requires s <= t
    ensures Skip(s, n) <= Skip(t, n)
  {
  }

  /** How many frames a window keeps. */
  function Kept<X, F, P>(vae: Vae<X, F, P>): nat {
    if vae.prePadding < vae.window then vae.window - vae.prePadding else 0
  }

  /** Frame k of window i shows what the decoded latents have there behind the pre-padding. */
  ghost predicate Shows<X, F, P>(vae: Vae<X, F, P>, film: seq<F>, decoded: seq<F>, i: nat, k: nat) {
    var at, from := i * Kept(vae) + k, i * vae.window + vae.prePadding + k;
    0 <= at < |film| && 0 <= from < |decoded| && film[at] == decoded[from]
  }

  ghost predicate AllShow<X, F, P>(vae: Vae<X, F, P>, film: seq<F>, decoded: seq<F>, n: nat, kept: nat) {
    forall i: nat, k: nat :: i < n && k < kept ==> Shows(vae, film, decoded, i, k)
  }

  lemma ShowsMore<X, F, P>(vae: Vae<X, F, P>, film: seq<F>, decoded: seq<F>, film': seq<F>, decoded': seq<F>, i: nat, k: nat)
    requires Shows(vae, film, decoded, i, k) && film <= film' && decoded <= decoded'
    ensures Shows(vae, film', decoded', i, k)
  {
  }

  /** A last piece shows its window. */
  lemma ShowsLast<X, F, P>(vae: Vae<X, F, P>, film: seq<F>, decoded: seq<F>, frames: seq<F>, i: nat, k: nat)
    requires |film| == i * Kept(vae) && |decoded| == i * vae.window && k < |Skip(frames, vae.prePadding)|
    ensures Shows(vae, film + Skip(frames, vae.prePadding), decoded + frames, i, k)
  {
  }

  lemma AllShowMore<X, F, P>(vae: Vae<X, F, P>, film: seq<F>, decoded: seq<F>, frames: seq<F>, n: nat, kept: nat)
    requires |film| == n * Kept(vae) && |decoded| == n * vae.window && AllShow(vae, film, decoded, n, kept)
    ensures AllShow(vae, film + Skip(frames, vae.prePadding), decoded + frames, n, kept)
    ensures forall k: nat :: k < |Skip(frames, vae.prePadding)| ==>
      Shows(vae, film + Skip(frames, vae.prePadding), decoded + frames, n, k)
    ensures |Skip(frames, vae.prePadding)| == kept ==> AllShow(vae, film + Skip(frames, vae.prePadding), decoded + frames, n + 1, kept)
  {
    hide Shows, Skip;
    var film', decoded' := film + Skip(frames, vae.prePadding), decoded + frames;
    forall i: nat, k: nat | i < n && k < kept
      ensures Shows(vae, film', decoded', i, k)
    {
      ShowsMore(vae, film, decoded, film', decoded', i, k);
    }
    forall k: nat | k < |Skip(frames, vae.prePadding)|
      ensures Shows(vae, film', decoded', n, k)
    {
      ShowsLast(vae, film, decoded, frames, n, k);
    }
  }

  lemma {:induction false} PiecesShow<X(!new), F(!new), P(!new)>(
    vae: Vae<X, F, P>, each: X -> seq<F>, ratio: nat, latents: seq<X>, n: nat)
    requires TokenWise(vae, each, ratio) && latents != [] && forall k :: 0 <= k < n ==> 0 <= vae.g.Start(k) < |latents|
    ensures 0 <= vae.g.Start(n) && |vae.Pieces(latents, n)| == n * Kept(vae)
    ensures |Frames(each, Run(latents, 0, vae.g.Start(n)))| == n * vae.window
    ensures AllShow(vae, vae.Pieces(latents, n), Frames(each, Run(latents, 0, vae.g.Start(n))), n, Kept(vae))
    ensures vae.prePadding == 0 ==> vae.Pieces(latents, n) == Frames(each, Run(latents, 0, vae.g.Start(n)))
  {
    hide Vae.Piece, Frames, Run, Shows, Even;
    MulLe(0, n, vae.g.chunk);
    FramesLength(each, ratio, Run(latents, 0, vae.g.Start(n)));
    assert n * vae.g.chunk * ratio == n * vae.window;
    if n == 0 {
      assert Kept(vae) * 0 == 0;
    } else {
      PiecesShow(vae, each, ratio, latents, n - 1);
      TokenPiece(vae, each, ratio, latents, n - 1);
      OnePieceMore(vae, each, ratio, latents, n - 1);
    }
  }

  lemma OnePieceMore<X(!new), F(!new), P(!new)>(
    vae: Vae<X, F, P>, each: X -> seq<F>, ratio: nat, latents: seq<X>, n: nat)
    requires TokenWise(vae, each, ratio) && latents != [] && forall k :: 0 <= k <= n ==> 0 <= vae.g.Start(k) < |latents|
    requires |vae.Pieces(latents, n)| == n * Kept(vae) && |Frames(each, Run(latents, 0, vae.g.Start(n)))| == n * vae.window
    requires AllShow(vae, vae.Pieces(latents, n), Frames(each, Run(latents, 0, vae.g.Start(n))), n, Kept(vae))
    requires vae.Piece(latents, n) == Skip(Frames(each, Run(latents, vae.g.Start(n), vae.g.Start(n) + vae.g.chunk)), vae.prePadding)
    ensures vae.g.Start(n + 1) >= 0 && |vae.Pieces(latents, n + 1)| == (n + 1) * Kept(vae)
    ensures AllShow(vae, vae.Pieces(latents, n + 1), Frames(each, Run(latents, 0, vae.g.Start(n + 1))), n + 1, Kept(vae))
    ensures vae.prePadding == 0 && vae.Pieces(latents, n) == Frames(each, Run(latents, 0, vae.g.Start(n))) ==>
      vae.Pieces(latents, n + 1) == Frames(each, Run(latents, 0, vae.g.Start(n + 1)))
  {
    hide *;
    NextPiece(vae, each, ratio, latents, n);
    var a := vae.g.Start(n);
    var b := a + vae.g.chunk;
    FramesRun(each, latents, 0, a, b);
    var film, decoded, frames := vae.Pieces(latents, n), Frames(each, Run(latents, 0, a)), Frames(each, Run(latents, a, b));
    FramesLength(each, ratio, Run(latents, a, b));
    KeptLength(vae, frames);
    assert (n + 1) * Kept(vae) == n * Kept(vae) + Kept(vae);
    AllShowMore(vae, film, decoded, frames, n, Kept(vae));
  }

  lemma NextPiece<X(!new), F(!new), P(!new)>(vae: Vae<X, F, P>, each: X -> seq<F>, ratio: nat, latents: seq<X>, n: nat)
    requires TokenWise(vae, each, ratio) && forall k :: 0 <= k <= n ==> 0 <= vae.g.Start(k) < |latents|
    ensures vae.g.Valid() && vae.g.chunk > 0 && vae.g.Start(n + 1) == vae.g.Start(n) + vae.g.chunk && vae.g.chunk * ratio == vae.window && Even(each, ratio)
    ensures vae.Pieces(latents, n + 1) == vae.Pieces(latents, n) + vae.Piece(latents, n)
  {
    hide Vae.Piece, Even;
  }

  lemma KeptLength<X, F, P>(vae: Vae<X, F, P>, frames: seq<F>)
    ensures |frames| == vae.window ==> |Skip(frames, vae.prePadding)| == Kept(vae)
    ensures vae.prePadding == 0 ==> Skip(frames, vae.prePadding) == frames
  {
  }

  /** The tokens the timeline shows. */
  function Shown(g: Geometry, tokens: int): int
    requires g.Valid()
  {
    g.Start(g.Clips(tokens)) + if g.drop > 0 then Shared(g) else 0
  }

  /**
   * For a decoder that works token by token, the timeline is the decoded latents in order, extended by the last token,
   * but for the pre-padding each window loses.
   */
  lemma TimelineIsDecoded<X(!new), F(!new), P(!new)>(vae: Vae<X, F, P>, each: X -> seq<F>, ratio: nat, latents: seq<X>)
    requires TokenWise(vae, each, ratio) && vae.Decodable(latents)
    ensures Shown(vae.g, |latents|) >= 0
    ensures
      var n, film := vae.g.Clips(|latents|), vae.Timeline(latents);
      var tail := if vae.g.drop > 0 then Max(0, Shared(vae.g) * ratio - vae.prePadding) else 0;
      var decoded := Frames(each, Run(latents, 0, Shown(vae.g, |latents|)));
      && |film| == n * Kept(vae) + tail
      && AllShow(vae, film, decoded, n, Kept(vae))
      && (forall k: nat :: k < tail ==> Shows(vae, film, decoded, n, k))
      && (vae.prePadding == 0 ==> film == decoded)
  {
    hide Geometry.Clips, Geometry.Start, Vae.Pieces, Vae.Timeline, Vae.Decodable, TokenWise, Even, Frames, Run, Shows, AllShow, Shown, Shared, Kept, Skip;
    TimelineParts(vae, each, ratio, latents);
    var n := vae.g.Clips(|latents|);
    PiecesShow(vae, each, ratio, latents, n);
    var a, b := vae.g.Start(n), Shown(vae.g, |latents|);
    FramesRun(each, latents, 0, a, b);
    var frames := Frames(each, Run(latents, a, b));
    FramesLength(each, ratio, Run(latents, a, b));
    KeptLength(vae, frames);
    SkipLength(frames, vae.prePadding);
    AllShowMore(vae, vae.Pieces(latents, n), Frames(each, Run(latents, 0, a)), frames, n, Kept(vae));
  }

  lemma SkipLength<T>(s: seq<T>, n: nat)
    ensures |Skip(s, n)| == Max(0, |s| - n)
  {
  }

  /** The pieces and the last tail, in tokens. */
  lemma TimelineParts<X(!new), F(!new), P(!new)>(vae: Vae<X, F, P>, each: X -> seq<F>, ratio: nat, latents: seq<X>)
    requires TokenWise(vae, each, ratio) && vae.Decodable(latents)
    ensures latents != [] && vae.g.Valid() && Even(each, ratio) && forall k :: 0 <= k < vae.g.Clips(|latents|) ==> 0 <= vae.g.Start(k) < |latents|
    ensures
      var n, b := vae.g.Clips(|latents|), Shown(vae.g, |latents|);
      && n > 0 && 0 <= vae.g.Start(n) <= b && b - vae.g.Start(n) == (if vae.g.drop > 0 then Shared(vae.g) else 0)
      && vae.Timeline(latents) == vae.Pieces(latents, n) + Skip(Frames(each, Run(latents, vae.g.Start(n), b)), vae.prePadding)
  {
    hide *;
    DecodableParts(vae, latents);
    TokenWiseParts(vae, each, ratio);
    var n := vae.g.Clips(|latents|);
    TokenWindows(vae, each, ratio, latents, n - 1);
    NoFrames(each, latents, vae.g.Start(n), vae.prePadding);
  }

  lemma DecodableParts<X, F, P>(vae: Vae<X, F, P>, latents: seq<X>)
    requires vae.Decodable(latents)
    ensures latents != [] && vae.g.Valid() && forall k :: 0 <= k < vae.g.Clips(|latents|) ==> 0 <= vae.g.Start(k) < |latents|
    ensures
      var n := vae.g.Clips(|latents|);
      && n > 0 && 0 <= vae.g.Start(n - 1) && vae.g.Start(n - 1) + vae.g.chunk == vae.g.Start(n) && Shared(vae.g) >= 0 && vae.g.chunk > 0
      && Shown(vae.g, |latents|) - vae.g.Start(n) == (if vae.g.drop > 0 then Shared(vae.g) else 0)
      && vae.Timeline(latents) == vae.Pieces(latents, n) + if vae.g.drop > 0 then vae.Tail(latents, n - 1) else []
  {
    hide Geometry.Clips, Vae.Pieces, Vae.Tail;
    assert 0 <= vae.g.Start(0) < |latents|;
  }

  lemma TokenWiseParts<X(!new), F(!new), P(!new)>(vae: Vae<X, F, P>, each: X -> seq<F>, ratio: nat)
    requires TokenWise(vae, each, ratio)
    ensures Even(each, ratio)
  {
    hide Even;
  }

  lemma NoFrames<X, F>(each: X -> seq<F>, latents: seq<X>, a: nat, n: nat)
    requires latents != []
    ensures Skip(Frames(each, Run(latents, a, a)), n) == []
  {
  }

  /** Without pre-padding, the film starts with all decoded latents whenever overlap and drop make up a chunk or nothing is dropped. */
  lemma TimelineHoldsAll<X(!new), F(!new), P(!new)>(vae: Vae<X, F, P>, each: X -> seq<F>, ratio: nat, latents: seq<X>)
    requires TokenWise(vae, each, ratio) && vae.Decodable(latents) && vae.prePadding == 0
    requires vae.g.drop == 0 || vae.g.overlap + vae.g.drop >= vae.g.chunk
    ensures Frames(each, latents) <= vae.Timeline(latents)
  {
    hide Geometry.Clips, Vae.Timeline, Frames, Shows;
    TimelineIsDecoded(vae, each, ratio, latents);
    ClipsRoundUp(vae.g, |latents|);
    var n, b := vae.g.Clips(|latents|), Shown(vae.g, |latents|);
    assert (n + 1) * vae.g.chunk == n * vae.g.chunk + vae.g.chunk;
    assert |latents| <= b;
    assert latents != [] by { assert 0 <= vae.g.Start(0) < |latents|; }
    assert Run(latents, 0, |latents|) == latents;
    FramesRun(each, latents, 0, |latents|, b);
  }

  /** What has been delivered once the frames `done` of the film have been offered. */
  ghost predicate Delivered<F, P>(rgb: F -> P, chunks: seq<seq<P>>, delivered: nat, done: seq<F>, expected: nat) {
    delivered == |Take(done, expected)| && Concat(chunks) == Map(rgb, Take(done, expected))
  }

  lemma DeliverMore<F, P>(rgb: F -> P, chunks: seq<seq<P>>, delivered: nat, done: seq<F>, piece: seq<F>, expected: nat)
    requires Delivered(rgb, chunks, delivered, done, expected)
    ensures delivered <= expected
    ensures
      var more := Map(rgb, Take(piece, expected - delivered));
      && Delivered(rgb, chunks + [more], delivered + |more|, done + piece, expected)
      && (more == [] ==> Delivered(rgb, chunks, delivered, done + piece, expected))
  {
    var part := Take(piece, expected - delivered);
    TakeMore(done, piece, expected);
    MapConcat(rgb, Take(done, expected), part);
    ConcatAppend(chunks, Map(rgb, part));
    assert Concat(chunks) + [] == Concat(chunks);
  }

  /**
   * `iter_h3_video_rgb_chunks`: the chunks yielded, and whether the iteration then ends normally.
   * It never yields more than `expected` frames, and ends normally exactly when it has yielded that many.
   */
  method IterVideoChunks<X, F, P>(vae: Vae<X, F, P>, latents: seq<X>, expected: int) returns (chunks: seq<seq<P>>, ok: bool)
    requires vae.g.Valid()
    ensures ok <==> 1 <= expected <= 360 && vae.Decodable(latents) && |vae.Timeline(latents)| >= expected
    ensures 1 <= expected <= 360 && vae.Decodable(latents) ==>
      Concat(chunks) == Map(vae.rgb, Take(vae.Timeline(latents), expected))
    ensures !(1 <= expected <= 360) || vae.g.Clips(|latents|) <= 0 ==> chunks == []
    ensures |Concat(chunks)| <= (if expected < 0 then 0 else expected) && (ok ==> |Concat(chunks)| == expected)
  {
    hide Geometry.Clips, Vae.Main, Vae.Tail;
    chunks := [];
    if expected < 1 || expected > 360 {
      return chunks, false;
    }
    var n := vae.g.Clips(|latents|);
    if n <= 0 {
      return chunks, false;
    }
    var pending: Option<seq<F>> := None;
    var delivered: nat := 0;
    var i := 0;
    while i < n
      invariant 0 <= i <= n
      invariant forall k :: 0 <= k < i ==> 0 <= vae.g.Start(k) < |latents|
      invariant pending == if i > 0 && vae.g.drop > 0 then Some(vae.Tail(latents, i - 1)) else None
      invariant Delivered(vae.rgb, chunks, delivered, vae.Pieces(latents, i), expected)
    {
      var start := vae.g.Start(i);
      assert start >= 0 by { MulLe(0, i, vae.g.chunk); }
      if start >= |latents| {
        return chunks, false;
      }
      var frames := if pending.Some? then vae.blend(pending.value, vae.Main(latents, i)) else vae.Main(latents, i);
      DeliverMore(vae.rgb, chunks, delivered, vae.Pieces(latents, i), frames, expected);
      var chunk := Map(vae.rgb, Take(frames, expected - delivered));
      if |chunk| > 0 {
        chunks := chunks + [chunk];
        delivered := delivered + |chunk|;
      }
      if vae.g.drop > 0 {
        pending := Some(vae.Tail(latents, i));
      }
      i := i + 1;
    }
    assert vae.Decodable(latents);
    if pending.Some? {
      DeliverMore(vae.rgb, chunks, delivered, vae.Pieces(latents, n), pending.value, expected);
    }
    if pending.Some? && delivered < expected {
      var chunk := Map(vae.rgb, Take(pending.value, expected - delivered));
      chunks := chunks + [chunk];
      delivered := delivered + |chunk|;
    }
    assert vae.Pieces(latents, n) + [] == vae.Pieces(latents, n);
    ok := delivered == expected;
  }
}
