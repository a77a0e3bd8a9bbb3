/** Decimal text as Python's `str` writes a natural number. */
module Decimal {
  type Byte = b: int | 0 <= b < 256

  function Str(n: nat): seq<Byte> {
    if n < 10 then [48 + n] else Str(n / 10) + [48 + n % 10]
  }

  /** What decimal digits say. */
  function Value(s: seq<Byte>): int {
    if s == [] then 0 else 10 * Value(s[..|s| - 1]) + s[|s| - 1] as int - 48
  }

  /** Only digits, and those of the number. */
  lemma {:induction false} StrReadsBack(n: nat)
    ensures Value(Str(n)) == n && forall i :: 0 <= i < |Str(n)| ==> 48 <= Str(n)[i] <= 57
  {
    var s := Str(n);
    if n < 10 {
      assert s[..0] == [];
    } else {
      StrReadsBack(n / 10);
      assert s[..|s| - 1] == Str(n / 10);
    }
  }

  lemma {:induction false} StrInjective(a: nat, b: nat)
    requires Str(a) == Str(b)
    ensures a == b
  {
    StrNonEmpty(a / 10);
    StrNonEmpty(b / 10);
    var s := Str(a);
    if a >= 10 && b >= 10 {
      assert Str(a / 10) == s[..|s| - 1] == Str(b / 10);
      assert s[|s| - 1] == 48 + a % 10 == 48 + b % 10;
      StrInjective(a / 10, b / 10);
    }
  }

  lemma StrNonEmpty(n: nat)
    ensures |Str(n)| >= 1
  {
  }

  /** Ten times as large is at most one digit longer, and larger is never shorter. */
  lemma {:induction false} StrLength(a: nat, b: nat)
    requires a <= b <= 10 * a + 9
    ensures |Str(a)| <= |Str(b)| <= |Str(a)| + 1
  {
    StrNonEmpty(b / 10);
    if a >= 10 {
      StrLength(a / 10, b / 10);
    } else if b >= 10 {
      assert b / 10 < 10;
    }
  }
}

/** High- and low-resolution AV tails: capture, validation, and the byte stream their digest is taken of. */
module Contexts {
  import opened Basics
  import opened Decimal
  import Clock

  /** SHA-256, taken to be injective. */
  datatype Digest<T> = Sha256(content: T)

  /** A float32 tensor as rows of bytes: 24 latent channels of video, or 2 x 32 channels of audio. */
  type Rows = seq<seq<Byte>>

  /** Bytes of one latent frame of one channel: 48 x 84 and 24 x 42 float32. */
  const HIGH_PLANE := 16128
  const LOW_PLANE := 4032

  /** The tensors of a file with both tails: high video, high audio, low video, low audio. */
  type Tensors = (Rows, Rows, Rows, Rows)

  datatype Latents = Latents(video: Rows, audio: Rows)
  datatype Context = Context(video: Rows, audio: Rows, frameOrigin: nat, audioOrigin: nat)

  predicate Grid(rows: Rows, count: nat, width: nat) {
    |rows| == count && forall i :: 0 <= i < |rows| ==> |rows[i]| == width
  }

  /** Length of the time axis of an audio tensor. */
  function Ticks(audio: Rows): nat {
    if audio == [] then 0 else |audio[0]| / 4
  }

  predicate AudioShaped(audio: Rows) {
    Grid(audio, 64, 4 * Ticks(audio))
  }

  predicate Shaped(c: Context, plane: nat) {
    Grid(c.video, 24, 7 * plane) && AudioShaped(c.audio)
  }

  /** `validate_context`: both tails cover the last 22 frames of a film of `total` frames. */
  predicate ValidPair(high: Context, low: Context, total: int) {
    && total > Clock.OVERLAP
    && Shaped(high, HIGH_PLANE) && Shaped(low, LOW_PLANE)
    && 1 <= Ticks(high.audio) <= 64 && 1 <= Ticks(low.audio) <= 64
    && high.frameOrigin == low.frameOrigin == total - Clock.OVERLAP
    && high.audioOrigin == low.audioOrigin == Clock.AudioOrigin(high.frameOrigin)
  }

  function TailRows(rows: Rows, from: nat): Rows
    requires forall i :: 0 <= i < |rows| ==> from <= |rows[i]|
  {
    seq(|rows|, i requires 0 <= i < |rows| => rows[i][from..])
  }

  /** `capture_context`; None where it raises. */
  function Capture(latents: Latents, plane: nat, start: int, delivered: int): Option<Context> {
    var next := delivered - Clock.OVERLAP;
    if latents.video == [] || !Grid(latents.video, 24, |latents.video[0]|)
       || |latents.video[0]| < 7 * plane || !AudioShaped(latents.audio) || next < 0 || start < 0 then None
    else
      var tick := Clock.AudioOrigin(next) - Clock.AudioOrigin(start);
      if tick < 0 || tick >= Ticks(latents.audio) || Ticks(latents.audio) - tick > 64 then None
      else
        Some(Context(TailRows(latents.video, |latents.video[0]| - 7 * plane),
                     TailRows(latents.audio, 4 * tick), next, Clock.AudioOrigin(next)))
  }

  /** A captured tail has the shape and the origins `validate_context` asks for, and exactly the bytes
      that end the window. */
  lemma CaptureIsValid(latents: Latents, plane: nat, start: int, delivered: int)
    requires Capture(latents, plane, start, delivered).Some?
    ensures
      var c := Capture(latents, plane, start, delivered).value;
      && Shaped(c, plane)
      && Ticks(c.audio) == Ticks(latents.audio) - (Clock.AudioOrigin(delivered - Clock.OVERLAP) - Clock.AudioOrigin(start))
      && 1 <= Ticks(c.audio) <= 64
      && c.frameOrigin == delivered - Clock.OVERLAP
      && c.audioOrigin == Clock.AudioOrigin(c.frameOrigin)
      && Ends(latents.video, c.video) && Ends(latents.audio, c.audio)
  {
  }

  /** Every row of `tail` is the end of the row of `rows` with the same number. */
  ghost predicate Ends(rows: Rows, tail: Rows) {
    && |rows| == |tail|
    && forall i :: 0 <= i < |rows| ==> |tail[i]| <= |rows[i]| && rows[i][|rows[i]| - |tail[i]|..] == tail[i]
  }

  const NONE: seq<Byte> := [110, 111, 110, 101]

  /** What one context feeds to the digest: tensors, then both origins in decimal, without separators. */
  function Stream(c: Context): seq<Byte> {
    Concat(c.video) + Concat(c.audio) + Str(c.frameOrigin) + Str(c.audioOrigin)
  }

  function OptStream(c: Option<Context>): seq<Byte> {
    if c.None? then NONE else Stream(c.value)
  }

  /** What `native_context_hash` feeds to its digest. */
  function PairStream(high: Option<Context>, low: Option<Context>): seq<Byte> {
    OptStream(high) + OptStream(low)
  }

  function ContextHash(high: Option<Context>, low: Option<Context>): Digest<seq<Byte>> {
    Sha256(PairStream(high, low))
  }

  function Digits(frameOrigin: nat): nat {
    |Str(frameOrigin)| + |Str(Clock.AudioOrigin(frameOrigin))|
  }

  /** One context with its origins on the clock and fewer than 256 digits of them. */
  ghost predicate OnClock(c: Context, plane: nat) {
    && Shaped(c, plane)
    && c.audioOrigin == Clock.AudioOrigin(c.frameOrigin)
    && Digits(c.frameOrigin) < 256
  }

  /** A predecessor: nothing, or a high and a low tail of the same instant and the same audio length. */
  ghost predicate Predecessor(high: Option<Context>, low: Option<Context>) {
    || (high.None? && low.None?)
    || (&& high.Some? && low.Some?
        && OnClock(high.value, HIGH_PLANE) && OnClock(low.value, LOW_PLANE)
        && high.value.frameOrigin == low.value.frameOrigin
        && Ticks(high.value.audio) == Ticks(low.value.audio))
  }

  lemma {:induction false} GridLength(rows: Rows, count: nat, width: nat)
    requires Grid(rows, count, width)
    ensures |Concat(rows)| == count * width
    decreases count
  {
    if count > 0 {
      GridLength(rows[1..], count - 1, width);
      assert count * width == (count - 1) * width + width;
    }
  }

  lemma {:induction false} GridInjective(a: Rows, b: Rows, count: nat, width: nat)
    requires Grid(a, count, width) && Grid(b, count, width)
    requires Concat(a) == Concat(b)
    ensures a == b
    decreases count
  {
    if count > 0 {
      SplitEqual(a[0], Concat(a[1..]), b[0], Concat(b[1..]));
      GridInjective(a[1..], b[1..], count - 1, width);
      assert a == [a[0]] + a[1..] && b == [b[0]] + b[1..];
    }
  }

  lemma SplitEqual<T>(a: seq<T>, b: seq<T>, c: seq<T>, d: seq<T>)
    requires a + b == c + d && |a| == |c|
    ensures a == c && b == d
  {
    assert (a + b)[..|a|] == a && (c + d)[..|c|] == c;
    assert (a + b)[|a|..] == b && (c + d)[|c|..] == d;
  }

  /** `audio_origin` fixes where the frame digits end: their count is half the digits, rounded down. */
  lemma DigitSplit(frameOrigin: nat)
    ensures |Str(frameOrigin)| == Digits(frameOrigin) / 2
    ensures Digits(frameOrigin) >= 2
  {
    StrNonEmpty(frameOrigin);
    StrLength(frameOrigin, Clock.AudioOrigin(frameOrigin));
  }

  lemma StreamLength(c: Context, plane: nat)
    requires Shaped(c, plane)
    ensures |Concat(c.video)| == 24 * (7 * plane)
    ensures |Concat(c.audio)| == 256 * Ticks(c.audio)
  {
    GridLength(c.video, 24, 7 * plane);
    GridLength(c.audio, 64, 4 * Ticks(c.audio));
  }

  /** With the tick and digit counts known, one context is read back from its stream. */
  lemma StreamInjective(a: Context, b: Context, plane: nat)
    requires OnClock(a, plane) && OnClock(b, plane)
    requires Ticks(a.audio) == Ticks(b.audio) && Digits(a.frameOrigin) == Digits(b.frameOrigin)
    requires Stream(a) == Stream(b)
    ensures a == b
  {
    StreamLength(a, plane);
    StreamLength(b, plane);
    DigitSplit(a.frameOrigin);
    DigitSplit(b.frameOrigin);
    hide Str, Concat, Digits, Clock.AudioOrigin;
    SplitEqual(Concat(a.video) + Concat(a.audio) + Str(a.frameOrigin), Str(a.audioOrigin),
               Concat(b.video) + Concat(b.audio) + Str(b.frameOrigin), Str(b.audioOrigin));
    SplitEqual(Concat(a.video) + Concat(a.audio), Str(a.frameOrigin),
               Concat(b.video) + Concat(b.audio), Str(b.frameOrigin));
    SplitEqual(Concat(a.video), Concat(a.audio), Concat(b.video), Concat(b.audio));
    GridInjective(a.video, b.video, 24, 7 * plane);
    GridInjective(a.audio, b.audio, 64, 4 * Ticks(a.audio));
    StrInjective(a.frameOrigin, b.frameOrigin);
  }

  /** The digest a sampler prefix is bound to determines the context. */
  lemma PrefixStreamInjective(a: Context, b: Context, plane: nat)
    requires OnClock(a, plane) && OnClock(b, plane)
    requires Stream(a) == Stream(b)
    ensures a == b
  {
    StreamLength(a, plane);
    StreamLength(b, plane);
    DigitSplit(a.frameOrigin);
    DigitSplit(b.frameOrigin);
    assert 256 * Ticks(a.audio) + Digits(a.frameOrigin) == 256 * Ticks(b.audio) + Digits(b.frameOrigin);
    StreamInjective(a, b, plane);
  }

  /** Without any separator, the stream of `native_context_hash` determines both contexts: its length fixes
      the tick count and the digit count, and `audio_origin` fixes the digit split. */
  lemma PairStreamInjective(h1: Option<Context>, l1: Option<Context>, h2: Option<Context>, l2: Option<Context>)
    requires Predecessor(h1, l1) && Predecessor(h2, l2)
    requires PairStream(h1, l1) == PairStream(h2, l2)
    ensures h1 == h2 && l1 == l2
  {
    PairLength(h1, l1);
    PairLength(h2, l2);
    hide Stream, Digits, Clock.AudioOrigin;
    if h1.Some? && h2.Some? {
      var a, b := h1.value, h2.value;
      assert 512 * Ticks(a.audio) + 2 * Digits(a.frameOrigin) == 512 * Ticks(b.audio) + 2 * Digits(b.frameOrigin);
      SplitEqual(Stream(a), Stream(l1.value), Stream(b), Stream(l2.value));
      StreamInjective(a, b, HIGH_PLANE);
      StreamInjective(l1.value, l2.value, LOW_PLANE);
    }
  }

  lemma PairLength(high: Option<Context>, low: Option<Context>)
    requires Predecessor(high, low)
    ensures high.None? ==> |PairStream(high, low)| == 8
    ensures high.Some? ==>
      && 2 <= Digits(high.value.frameOrigin) < 256
      && |Stream(high.value)| == 2709504 + 256 * Ticks(high.value.audio) + Digits(high.value.frameOrigin)
      && |PairStream(high, low)| == 3386880 + 512 * Ticks(high.value.audio) + 2 * Digits(high.value.frameOrigin)
  {
    if high.Some? {
      StreamLength(high.value, HIGH_PLANE);
      StreamLength(low.value, LOW_PLANE);
      DigitSplit(high.value.frameOrigin);
    }
  }

  /** Films of up to 99999 frames are far below the digit bound. */
  lemma ShortOrigins(frameOrigin: nat)
    requires frameOrigin <= 99999
    ensures Digits(frameOrigin) < 256
  {
    StrLength(frameOrigin / 10, frameOrigin);
    StrLength(frameOrigin / 100, frameOrigin / 10);
    StrLength(frameOrigin / 1000, frameOrigin / 100);
    StrLength(frameOrigin / 10000, frameOrigin / 1000);
    StrLength(frameOrigin, Clock.AudioOrigin(frameOrigin));
  }

  /** A validated pair of tails of the same length is a predecessor whose digest determines it. */
  lemma PairIsPredecessor(high: Context, low: Context, total: int)
    requires ValidPair(high, low, total) && Ticks(high.audio) == Ticks(low.audio) && total <= 99999
    ensures Predecessor(Some(high), Some(low)) && total > Clock.OVERLAP
  {
    hide Clock.AudioOrigin, Digits, Grid, Ticks;
    ShortOrigins(high.frameOrigin);
  }
}
