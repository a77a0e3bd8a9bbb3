/** Length-preserving repair of the audio seam between two windows, and between a film and its continuation.

    Samples are those of one channel: the source applies the same arithmetic to both channels. */
module Seam {
  import opened Basics
  import Clock

  const WINDOW_FADE := 160
  const CHAIN_FADE := 320

  type Pcm = seq<real>

  function Fade(limit: nat, left: nat, right: nat): (n: nat)
    ensures n <= limit && n <= left && n <= right && (n == limit || n == left || n == right)
  {
    Min(limit, Min(left, right))
  }

  /** Inner points of an even ramp from 0 to 1 with n inner points. */
  function Phase(k: nat, n: nat): real {
    (k + 1) as real / (n + 1) as real
  }

  /** As far from the last sample on the left as from the first on the right. */
  function Midpoint(left: Pcm, right: Pcm): (m: real)
    requires left != [] && right != []
    ensures m - left[|left| - 1] == right[0] - m
  {
    (left[|left| - 1] + right[0]) / 2.0
  }

  /** `x` moved by the share `s` of `shift`. */
  function Shifted(x: real, shift: real, s: real): real {
    x + shift * s
  }

  /** `x` moved by the share `s` of its way to `m`. */
  function Faded(x: real, m: real, s: real): real {
    x + (m - x) * s
  }

  /* Seam between windows: both edges are shifted towards the midpoint. */

  function WindowTail(left: Pcm, right: Pcm): Pcm
    requires left != [] && right != []
  {
    var n := Fade(WINDOW_FADE, |left|, |right|);
    var shift := Midpoint(left, right) - left[|left| - 1];
    seq(|left|, i requires 0 <= i < |left| =>
      if i < |left| - n then left[i] else Shifted(left[i], shift, Phase(i - (|left| - n), n)))
  }

  function WindowHead(left: Pcm, right: Pcm): Pcm
    requires left != [] && right != []
  {
    var n := Fade(WINDOW_FADE, |left|, |right|);
    var shift := Midpoint(left, right) - right[0];
    seq(|right|, i requires 0 <= i < |right| =>
      if i < n then Shifted(right[i], shift, 1.0 - Phase(i, n)) else right[i])
  }

  /* Seam between films: both edges are faded into the midpoint. */

  function ChainTail(left: Pcm, right: Pcm): Pcm {
    var n := Fade(CHAIN_FADE, |left|, |right|);
    if n == 0 then left
    else
      seq(|left|, i requires 0 <= i < |left| =>
        if i < |left| - n then left[i]
        else Faded(left[i], Midpoint(left, right), Phase(i - (|left| - n), n)))
  }

  function ChainHead(left: Pcm, right: Pcm): Pcm {
    var n := Fade(CHAIN_FADE, |left|, |right|);
    if n == 0 then right
    else
      seq(|right|, i requires 0 <= i < |right| =>
        if i < n then Faded(right[i], Midpoint(left, right), 1.0 - Phase(i, n)) else right[i])
  }

  lemma PhaseEnds(n: nat)
    requires n > 0
    ensures Phase(n - 1, n) == 1.0 - Phase(0, n)
    ensures (1.0 - Phase(n - 1, n)) * (n + 1) as real == 1.0
    ensures forall k :: 0 <= k < n ==> 0.0 < Phase(k, n) < 1.0
  {
    var d := (n + 1) as real;
    assert 1.0 / d * d == 1.0;
    assert Phase(n - 1, n) == (d - 1.0) / d;
    assert (d - 1.0) / d == 1.0 - 1.0 / d;
    forall k | 0 <= k < n
      ensures 0.0 < Phase(k, n) < 1.0
    {
      PhaseInside((k + 1) as real, d);
    }
  }

  lemma PhaseInside(x: real, d: real)
    requires 0.0 < x < d
    ensures 0.0 < x / d < 1.0
  {
    var q := x / d;
    assert q * d == x;
    if q <= 0.0 {
      RealMulLe(q, 0.0, d);
    } else if q >= 1.0 {
      RealMulLe(1.0, q, d);
    }
  }

  /** Two ends moved the same share `s` of the way to their midpoint keep the share `1 - s` of the jump. */
  lemma JumpShrinks(p: real, q: real, s: real)
    ensures Faded(q, (p + q) / 2.0, s) - Faded(p, (p + q) / 2.0, s) == (q - p) * (1.0 - s)
  {
    var h := (q - p) / 2.0;
    assert (p + q) / 2.0 - q == -h && (p + q) / 2.0 - p == h;
    assert (-h) * s == -(h * s);
    assert (q - p) * (1.0 - s) == (q - p) - (q - p) * s;
    assert (q - p) * s == h * s + h * s;
  }

  ghost predicate SameOutside(before: Pcm, after: Pcm, lo: int, hi: int) {
    |after| == |before| && forall i :: 0 <= i < |before| && !(lo <= i < hi) ==> after[i] == before[i]
  }

  /** `part` is exactly one `count`-th of `whole`. */
  ghost predicate Divided(part: real, whole: real, count: nat) {
    part * count as real == whole
  }

  /** The jump at the cut before and after a repair. */
  ghost predicate JumpDivided(left: Pcm, right: Pcm, left': Pcm, right': Pcm, n: nat) {
    left != [] && right != [] && left' != [] && right' != [] &&
    Divided(right'[0] - left'[|left'| - 1], right[0] - left[|left| - 1], n + 1)
  }

  /** With n ramp points, one (n+1)-th of the jump is left. */
  lemma JumpLeft(p: real, q: real, n: nat)
    requires n > 0
    ensures Phase(n - 1, n) == 1.0 - Phase(0, n)
    ensures
      var m := (p + q) / 2.0;
      Divided(Faded(q, m, 1.0 - Phase(0, n)) - Faded(p, m, Phase(n - 1, n)), q - p, n + 1)
  {
    PhaseEnds(n);
    var s, d := Phase(n - 1, n), (n + 1) as real;
    JumpShrinks(p, q, s);
    hide Phase, Faded;
    assert ((q - p) * (1.0 - s)) * d == (q - p) * ((1.0 - s) * d);
  }

  /** Repairing a window seam keeps both lengths, moves only the n samples next to the cut, and leaves
      exactly one (n+1)-th of the jump. */
  lemma WindowSeam(left: Pcm, right: Pcm)
    requires left != [] && right != []
    ensures
      var n := Fade(WINDOW_FADE, |left|, |right|);
      && SameOutside(left, WindowTail(left, right), |left| - n, |left|)
      && SameOutside(right, WindowHead(left, right), 0, n)
      && JumpDivided(left, right, WindowTail(left, right), WindowHead(left, right), n)
  {
    var n := Fade(WINDOW_FADE, |left|, |right|);
    hide Phase, Divided;
    var p, q := left[|left| - 1], right[0];
    JumpLeft(p, q, n);
    var m := Midpoint(left, right);
    assert Shifted(p, m - p, Phase(n - 1, n)) == Faded(p, m, Phase(n - 1, n));
    assert Shifted(q, m - q, 1.0 - Phase(0, n)) == Faded(q, m, 1.0 - Phase(0, n));
    hide Faded, Shifted;
  }

  /** `part` is exactly `k` of `count` equal shares of `whole`. */
  ghost predicate Share(part: real, whole: real, k: nat, count: nat) {
    part * count as real == whole * k as real
  }

  /** The repair rises and falls evenly: towards the cut every sample moves one (n+1)-th of the shift further. */
  lemma WindowSeamIsEven(left: Pcm, right: Pcm, k: nat)
    requires left != [] && right != [] && k < Fade(WINDOW_FADE, |left|, |right|)
    ensures
      var n := Fade(WINDOW_FADE, |left|, |right|);
      var l, r := Midpoint(left, right) - left[|left| - 1], Midpoint(left, right) - right[0];
      && Share(WindowTail(left, right)[|left| - n + k] - left[|left| - n + k], l, k + 1, n + 1)
      && Share(WindowHead(left, right)[k] - right[k], r, n - k, n + 1)
  {
    hide Phase, Share;
    var n := Fade(WINDOW_FADE, |left|, |right|);
    var l, r := Midpoint(left, right) - left[|left| - 1], Midpoint(left, right) - right[0];
    var i := |left| - n + k;
    hide Shifted;
    assert WindowTail(left, right)[i] == Shifted(left[i], l, Phase(k, n));
    assert WindowHead(left, right)[k] == Shifted(right[k], r, 1.0 - Phase(k, n));
    ShiftedShare(left[i], l, k, n);
    ShiftedShare(right[k], r, k, n);
  }

  lemma ShiftedShare(x: real, shift: real, k: nat, n: nat)
    requires k < n
    ensures Share(Shifted(x, shift, Phase(k, n)) - x, shift, k + 1, n + 1)
    ensures Share(Shifted(x, shift, 1.0 - Phase(k, n)) - x, shift, n - k, n + 1)
  {
    ShareOf(shift, k, n);
    hide Share, Phase;
    assert Shifted(x, shift, Phase(k, n)) - x == shift * Phase(k, n);
    assert Shifted(x, shift, 1.0 - Phase(k, n)) - x == shift * (1.0 - Phase(k, n));
  }

  lemma ShareOf(shift: real, k: nat, n: nat)
    requires k < n
    ensures Share(shift * Phase(k, n), shift, k + 1, n + 1)
    ensures Share(shift * (1.0 - Phase(k, n)), shift, n - k, n + 1)
  {
    var d, x := (n + 1) as real, Phase(k, n);
    assert x * d == (k + 1) as real;
    assert (shift * x) * d == shift * (x * d);
    assert (1.0 - x) * d == d - x * d == (n - k) as real;
    assert (shift * (1.0 - x)) * d == shift * ((1.0 - x) * d);
  }

  lemma FadedBetween(x: real, m: real, s: real)
    requires 0.0 < s < 1.0
    ensures x <= Faded(x, m, s) <= m || m <= Faded(x, m, s) <= x
  {
    var d := m - x;
    assert Faded(x, m, s) == x + s * d;
    if d >= 0.0 {
      RealMulLe(0.0, s, d);
      RealMulLe(s, 1.0, d);
    } else {
      RealMulLe(0.0, s, -d);
      RealMulLe(s, 1.0, -d);
      assert s * (-d) == -(s * d);
    }
  }

  ghost predicate Towards(before: Pcm, after: Pcm, m: real) {
    |after| == |before| &&
    forall i :: 0 <= i < |before| ==> before[i] <= after[i] <= m || m <= after[i] <= before[i] || after[i] == before[i]
  }

  /** The same for a film seam. */
  lemma ChainSeam(left: Pcm, right: Pcm)
    requires left != [] && right != []
    ensures
      var n := Fade(CHAIN_FADE, |left|, |right|);
      && SameOutside(left, ChainTail(left, right), |left| - n, |left|)
      && SameOutside(right, ChainHead(left, right), 0, n)
      && JumpDivided(left, right, ChainTail(left, right), ChainHead(left, right), n)
  {
    hide Phase, Faded, Divided;
    var n := Fade(CHAIN_FADE, |left|, |right|);
    JumpLeft(left[|left| - 1], right[0], n);
  }

  /** Sample k of the n on the left of a film seam moved k+1 of n+1 shares of its own way to the midpoint. */
  ghost predicate TailFades(left: Pcm, right: Pcm, n: nat, k: nat)
    requires left != [] && right != [] && k < n <= |left| && |ChainTail(left, right)| == |left|
  {
    var x := left[|left| - n + k];
    Share(ChainTail(left, right)[|left| - n + k] - x, Midpoint(left, right) - x, k + 1, n + 1)
  }

  ghost predicate HeadFades(left: Pcm, right: Pcm, n: nat, k: nat)
    requires left != [] && right != [] && k < n <= |right| && |ChainHead(left, right)| == |right|
  {
    Share(ChainHead(left, right)[k] - right[k], Midpoint(left, right) - right[k], n - k, n + 1)
  }

  lemma ChainLengths(left: Pcm, right: Pcm)
    ensures |ChainTail(left, right)| == |left| && |ChainHead(left, right)| == |right|
    ensures Fade(CHAIN_FADE, |left|, |right|) <= |left| && Fade(CHAIN_FADE, |left|, |right|) <= |right|
  {
  }

  /** A film seam fades evenly: towards the cut each of the n samples moves one more share of its own way to the midpoint. */
  lemma ChainSeamIsEven(left: Pcm, right: Pcm, k: nat)
    requires left != [] && right != [] && k < Fade(CHAIN_FADE, |left|, |right|)
    ensures |ChainTail(left, right)| == |left| && |ChainHead(left, right)| == |right|
    ensures Fade(CHAIN_FADE, |left|, |right|) <= |left| && Fade(CHAIN_FADE, |left|, |right|) <= |right|
    ensures TailFades(left, right, Fade(CHAIN_FADE, |left|, |right|), k) && HeadFades(left, right, Fade(CHAIN_FADE, |left|, |right|), k)
  {
    hide *;
    ChainLengths(left, right);
    TailAt(left, right, k);
    HeadAt(left, right, k);
  }

  lemma TailAt(left: Pcm, right: Pcm, k: nat)
    requires left != [] && right != [] && k < Fade(CHAIN_FADE, |left|, |right|) <= |left| && |ChainTail(left, right)| == |left|
    ensures TailFades(left, right, Fade(CHAIN_FADE, |left|, |right|), k)
  {
    var n, m := Fade(CHAIN_FADE, |left|, |right|), Midpoint(left, right);
    hide Phase, Faded, Share, Midpoint;
    assert ChainTail(left, right)[|left| - n + k] == Faded(left[|left| - n + k], m, Phase(k, n));
    FadedShare(left[|left| - n + k], m, k, n);
  }

  lemma HeadAt(left: Pcm, right: Pcm, k: nat)
    requires left != [] && right != [] && k < Fade(CHAIN_FADE, |left|, |right|) <= |right| && |ChainHead(left, right)| == |right|
    ensures HeadFades(left, right, Fade(CHAIN_FADE, |left|, |right|), k)
  {
    var n, m := Fade(CHAIN_FADE, |left|, |right|), Midpoint(left, right);
    hide Phase, Faded, Share, Midpoint;
    assert ChainHead(left, right)[k] == Faded(right[k], m, 1.0 - Phase(k, n));
    FadedShare(right[k], m, k, n);
  }

  lemma FadedShare(x: real, m: real, k: nat, n: nat)
    requires k < n
    ensures Share(Faded(x, m, Phase(k, n)) - x, m - x, k + 1, n + 1)
    ensures Share(Faded(x, m, 1.0 - Phase(k, n)) - x, m - x, n - k, n + 1)
  {
    ShareOf(m - x, k, n);
    hide Share, Phase;
    assert Faded(x, m, Phase(k, n)) - x == (m - x) * Phase(k, n);
    assert Faded(x, m, 1.0 - Phase(k, n)) - x == (m - x) * (1.0 - Phase(k, n));
  }

  /** A film seam keeps every sample between its old value and the midpoint: nothing overshoots. */
  lemma ChainSeamStaysBetween(left: Pcm, right: Pcm)
    requires left != [] && right != []
    ensures Towards(left, ChainTail(left, right), Midpoint(left, right))
    ensures Towards(right, ChainHead(left, right), Midpoint(left, right))
  {
    var n := Fade(CHAIN_FADE, |left|, |right|);
    PhaseEnds(n);
    hide Phase, Faded;
    var m := Midpoint(left, right);
    forall i | |left| - n <= i < |left|
      ensures var y := ChainTail(left, right)[i]; left[i] <= y <= m || m <= y <= left[i]
    {
      FadedBetween(left[i], m, Phase(i - (|left| - n), n));
    }
    forall i | 0 <= i < n
      ensures var y := ChainHead(left, right)[i]; right[i] <= y <= m || m <= y <= right[i]
    {
      FadedBetween(right[i], m, 1.0 - Phase(i, n));
    }
  }

  /* In-place forms. */

  /** The in-place seam repair inside `temporal_audio_window`. */
  method RepairWindowSeam(left: array<real>, right: array<real>)
    requires left != right && left.Length > 0 && right.Length > 0
    modifies left, right
    ensures left[..] == WindowTail(old(left[..]), old(right[..]))
    ensures right[..] == WindowHead(old(left[..]), old(right[..]))
  {
    hide Phase, Shifted, Faded;
    ghost var l, r := left[..], right[..];
    var n := Fade(WINDOW_FADE, left.Length, right.Length);
    var last, first := left[left.Length - 1], right[0];
    var mid := (last + first) / 2.0;
    var start := left.Length - n;
    for k := 0 to n
      invariant right[..] == r
      invariant forall i :: 0 <= i < left.Length ==> left[i] == (if start <= i < start + k then WindowTail(l, r)[i] else l[i])
    {
      left[start + k] := Shifted(left[start + k], mid - last, Phase(k, n));
    }
    for k := 0 to n
      invariant left[..] == WindowTail(l, r)
      invariant forall i :: 0 <= i < right.Length ==> right[i] == (if i < k then WindowHead(l, r)[i] else r[i])
    {
      right[k] := Shifted(right[k], mid - first, 1.0 - Phase(k, n));
    }
  }

  /** `_smooth_seam`. */
  method SmoothSeam(left: array<real>, right: array<real>)
    requires left != right
    modifies left, right
    ensures left[..] == ChainTail(old(left[..]), old(right[..]))
    ensures right[..] == ChainHead(old(left[..]), old(right[..]))
  {
    hide Phase, Shifted, Faded;
    ghost var l, r := left[..], right[..];
    var n := Fade(CHAIN_FADE, left.Length, right.Length);
    if n == 0 {
      return;
    }
    var mid := (left[left.Length - 1] + right[0]) / 2.0;
    var start := left.Length - n;
    for k := 0 to n
      invariant right[..] == r
      invariant forall i :: 0 <= i < left.Length ==> left[i] == (if start <= i < start + k then ChainTail(l, r)[i] else l[i])
    {
      left[start + k] := Faded(left[start + k], mid, Phase(k, n));
    }
    for k := 0 to n
      invariant left[..] == ChainTail(l, r)
      invariant forall i :: 0 <= i < right.Length ==> right[i] == (if i < k then ChainHead(l, r)[i] else r[i])
    {
      right[k] := Faded(right[k], mid, 1.0 - Phase(k, n));
    }
  }

  /* The whole of `temporal_audio_window`. */

  predicate WindowRaises(generated: Pcm, desired: int) {
    desired < 0
    || |generated| - desired > Clock.SAMPLES_PER_LATENT || desired - |generated| > Clock.SAMPLES_PER_LATENT
    || (|generated| < desired && generated == [])
  }

  /** Trim, or repeat the last sample, to the wanted length. */
  function Normalize(generated: Pcm, desired: nat): (r: Pcm)
    requires !WindowRaises(generated, desired)
    ensures |r| == desired
    ensures desired <= |generated| ==> r <= generated
    ensures |generated| <= desired ==> generated <= r
    ensures forall i :: |generated| <= i < desired ==> r[i] == generated[|generated| - 1]
  {
    if |generated| < desired
    then generated + seq(desired - |generated|, _ => generated[|generated| - 1])
    else generated[..desired]
  }

  /** The previous window after the seam with `next`, if any. */
  function SeamedLeft(previous: Pcm, next: Pcm): Pcm {
    if previous == [] || next == [] then previous else WindowTail(previous, next)
  }

  function SeamedRight(previous: Pcm, next: Pcm): Pcm {
    if previous == [] || next == [] then next else WindowHead(previous, next)
  }

  /** Without a jump there is nothing to repair. */
  lemma NoJumpNoRepair(left: Pcm, right: Pcm)
    requires left != [] && right != []
    ensures left[|left| - 1] == right[0] ==> SeamedRight(left, right) == right
  {
    hide Phase;
    if left[|left| - 1] == right[0] {
      var once := SeamedRight(left, right);
      forall i | 0 <= i < |right|
        ensures once[i] == right[i]
      {
        NoShift(right[i], 1.0 - Phase(i, Fade(WINDOW_FADE, |left|, |right|)));
      }
    }
  }

  lemma NoShift(x: real, s: real)
    ensures Shifted(x, 0.0, s) == x
  {
  }

  /** A jump is never repaired completely, so repairing it again changes the first sample again. */
  lemma JumpRepairedAgain(left: Pcm, right: Pcm)
    requires left != [] && right != []
    ensures left[|left| - 1] != right[0] ==> SeamedRight(left, SeamedRight(left, right)) != SeamedRight(left, right)
  {
    var p, q := left[|left| - 1], right[0];
    if p != q {
      var once := SeamedRight(left, right);
      HeadStart(left, right);
      HeadStart(left, once);
      PhaseEnds(Fade(WINDOW_FADE, |left|, |right|));
      hide Phase, Faded, WindowHead;
      RepairedAgain(p, q, 1.0 - Phase(0, Fade(WINDOW_FADE, |left|, |right|)));
      assert SeamedRight(left, once)[0] != once[0];
    }
  }

  /** The first sample behind a cut moves towards the midpoint. */
  lemma HeadStart(left: Pcm, right: Pcm)
    requires left != [] && right != []
    ensures
      var n := Fade(WINDOW_FADE, |left|, |right|);
      && n > 0 && |WindowHead(left, right)| == |right|
      && WindowHead(left, right)[0] == Faded(right[0], (left[|left| - 1] + right[0]) / 2.0, 1.0 - Phase(0, n))
  {
    var n, m, q := Fade(WINDOW_FADE, |left|, |right|), Midpoint(left, right), right[0];
    hide Phase;
    assert WindowHead(left, right)[0] == Shifted(q, m - q, 1.0 - Phase(0, n));
    ShiftIsFade(q, m, 1.0 - Phase(0, n));
  }

  lemma ShiftIsFade(x: real, m: real, s: real)
    ensures Shifted(x, m - x, s) == Faded(x, m, s)
  {
  }

  lemma RepairedAgain(p: real, q: real, s: real)
    requires p != q && 0.0 < s < 1.0
    ensures
      var x := Faded(q, (p + q) / 2.0, s);
      Faded(x, (p + x) / 2.0, s) != x
  {
    var x := Faded(q, (p + q) / 2.0, s);
    var h := (p - q) / 2.0;
    assert x == q + h * s;
    assert p - x == h * (2.0 - s);
    NonZero(h, 2.0 - s);
    NonZero((p - x) / 2.0, s);
    assert Faded(x, (p + x) / 2.0, s) - x == ((p - x) / 2.0) * s;
  }

  lemma NonZero(a: real, b: real)
    requires a != 0.0 && b != 0.0
    ensures a * b != 0.0
  {
  }

  method TemporalAudioWindow(previous: array?<real>, generated: Pcm, desired: int) returns (r: Result<array<real>>)
    modifies if previous == null then {} else {previous}
    ensures r.Ok? <==> desired >= 0 && -800 <= |generated| - desired <= 800 && (desired == 0 || generated != [])
    ensures r.Ok? <==> !WindowRaises(generated, desired)
    ensures r.Raised? && previous != null ==> previous[..] == old(previous[..])
    ensures r.Ok? ==> fresh(r.value)
    ensures r.Ok? && previous == null ==> r.value[..] == Normalize(generated, desired)
    ensures r.Ok? && previous != null ==>
      && previous[..] == SeamedLeft(old(previous[..]), Normalize(generated, desired))
      && r.value[..] == SeamedRight(old(previous[..]), Normalize(generated, desired))
  {
    if WindowRaises(generated, desired) {
      return Raised;
    }
    var samples := Normalize(generated, desired);
    var result := new real[desired](i requires 0 <= i < desired => samples[i]);
    assert result[..] == samples;
    if previous != null && previous.Length > 0 && result.Length > 0 {
      RepairWindowSeam(previous, result);
    }
    r := Ok(result);
  }
}
