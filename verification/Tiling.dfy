/** Full-context attention computed in head groups and query tiles, and the token-tiled feed-forward. */
module Tiling {
  import opened Basics

  type Vec = seq<real>

  datatype Kind = Q | K | V

  /* Tile sizes. */

  /** Scratch memory for attention: 15% of what is free, between 4 and 256 MiB. */
  function Scratch(free: int): int {
    Min(268435456, Max(4194304, free * 15 / 100))
  }

  /** Rounded down, where it is between the limits. */
  lemma ScratchShare(free: int)
    ensures
      var s := Scratch(free);
      && 4194304 <= s <= 268435456 && (s < 268435456 ==> 15 * free < 100 * (s + 1)) && (s > 4194304 ==> 100 * s <= 15 * free)
  {
  }

  function HeadTile(heads: int, scratch: int, perHead: int, cap: int): (h: int)
    requires heads > 0 && perHead > 0 && cap >= 0
    ensures 1 <= h <= Min(heads, 8) && (cap > 0 ==> h <= cap)
  {
    var h := Min(Min(heads, Max(1, scratch / perHead)), 8);
    if cap > 0 then Min(h, cap) else h
  }

  function QueryTile(tokens: int, scratch: int, perQuery: int, cap: int): (q: int)
    requires tokens > 0 && perQuery > 0 && cap >= 0
    ensures 1 <= q <= Min(tokens, 2048) && (cap > 0 ==> q <= cap)
  {
    var q := Max(1, Min(Min(tokens, 2048), scratch / perQuery));
    if cap > 0 then Min(q, cap) else q
  }

  /** `tile_policy`: query tile and head group. Both are at least 1, so every tiling loop advances. */
  function TilePolicy(tokens: int, heads: int, dim: int, free: int, queryOverride: int, headsOverride: int): (r: Result<(int, int)>)
    ensures r.Raised? <==> tokens <= 0 || heads <= 0 || dim <= 0 || free <= 0 || queryOverride < 0 || headsOverride < 0
    ensures r.Ok? ==> 1 <= r.value.0 <= Min(tokens, 2048) && 1 <= r.value.1 <= Min(heads, 8)
    ensures r.Ok? && queryOverride > 0 ==> r.value.0 <= queryOverride
    ensures r.Ok? && headsOverride > 0 ==> r.value.1 <= headsOverride
  {
    if tokens <= 0 || heads <= 0 || dim <= 0 || free <= 0 || queryOverride < 0 || headsOverride < 0 then Raised
    else
      var scratch := Scratch(free);
      var perHead := 2 * tokens * dim * 4;
      Positive(tokens, dim);
      var h := HeadTile(heads, scratch, perHead, headsOverride);
      Ok((QueryTile(tokens, scratch, Max(1, 8 * h * dim), queryOverride), h))
  }

  lemma Positive(tokens: int, dim: int)
    requires tokens > 0 && dim > 0
    ensures 2 * tokens * dim * 4 > 0
  {
    assert tokens * dim > 0;
    assert 2 * tokens * dim * 4 == 8 * (tokens * dim);
  }

  /**
   * The tiles fit the scratch memory unless they are single heads or queries, and they are the largest that do
   * within their limits and overrides.
   */
  lemma TilesFillScratch(tokens: int, heads: int, dim: int, free: int, queryOverride: int, headsOverride: int)
    requires TilePolicy(tokens, heads, dim, free, queryOverride, headsOverride).Ok?
    ensures
      var (q, h) := TilePolicy(tokens, heads, dim, free, queryOverride, headsOverride).value;
      && (h == 1 || h * (2 * tokens * dim * 4) <= Scratch(free))
      && (q == 1 || q * (8 * h * dim) <= Scratch(free))
      && (h == Min(heads, 8) || (headsOverride > 0 && h == headsOverride) || (h + 1) * (2 * tokens * dim * 4) > Scratch(free))
      && (q == Min(tokens, 2048) || (queryOverride > 0 && q == queryOverride) || (q + 1) * (8 * h * dim) > Scratch(free))
  {
    hide *;
    Positive(tokens, dim);
    TilesUnfold(tokens, heads, dim, free, queryOverride, headsOverride);
    HeadTileFills(heads, Scratch(free), 2 * tokens * dim * 4, headsOverride);
    var (q, h) := TilePolicy(tokens, heads, dim, free, queryOverride, headsOverride).value;
    QueryTileFills(tokens, Scratch(free), 8 * h * dim, queryOverride);
  }

  lemma TilesUnfold(tokens: int, heads: int, dim: int, free: int, queryOverride: int, headsOverride: int)
    requires TilePolicy(tokens, heads, dim, free, queryOverride, headsOverride).Ok?
    ensures tokens > 0 && heads > 0 && dim > 0 && queryOverride >= 0 && headsOverride >= 0 && 2 * tokens * dim * 4 > 0
    ensures
      var (q, h) := TilePolicy(tokens, heads, dim, free, queryOverride, headsOverride).value;
      && h == HeadTile(heads, Scratch(free), 2 * tokens * dim * 4, headsOverride)
      && 8 * h * dim > 0 && q == QueryTile(tokens, Scratch(free), 8 * h * dim, queryOverride)
  {
    hide Scratch, HeadTile, QueryTile;
    Positive(tokens, dim);
    var (q, h) := TilePolicy(tokens, heads, dim, free, queryOverride, headsOverride).value;
    Positive(h, dim);
    assert 8 * h * dim == 2 * h * dim * 4;
  }

  lemma HeadTileFills(heads: int, scratch: int, perHead: int, cap: int)
    requires heads > 0 && perHead > 0 && cap >= 0
    ensures
      var h := HeadTile(heads, scratch, perHead, cap);
      && (h == 1 || h * perHead <= scratch)
      && (h == Min(heads, 8) || (cap > 0 && h == cap) || (h + 1) * perHead > scratch)
  {
    var h, most := HeadTile(heads, scratch, perHead, cap), scratch / perHead;
    Largest(scratch, perHead);
    if h <= most {
      MulLe(h, most, perHead);
    } else {
      MulLe(most + 1, h + 1, perHead);
    }
  }

  lemma QueryTileFills(tokens: int, scratch: int, perQuery: int, cap: int)
    requires tokens > 0 && perQuery > 0 && cap >= 0
    ensures
      var q := QueryTile(tokens, scratch, perQuery, cap);
      && (q == 1 || q * perQuery <= scratch)
      && (q == Min(tokens, 2048) || (cap > 0 && q == cap) || (q + 1) * perQuery > scratch)
  {
    var q, most := QueryTile(tokens, scratch, perQuery, cap), scratch / perQuery;
    Largest(scratch, perQuery);
    if q <= most {
      MulLe(q, most, perQuery);
    } else {
      MulLe(most + 1, q + 1, perQuery);
    }
  }

  lemma Largest(s: int, size: int)
    requires size > 0
    ensures (s / size) * size <= s < (s / size + 1) * size
  {
  }

  /* Projections: rows lo..hi of one of the three projections of a token, in the four forms the code uses. */

  function Dot(a: Vec, b: Vec): real {
    if a == [] || b == [] then 0.0 else a[0] * b[0] + Dot(a[1..], b[1..])
  }

  /** The sum of the products, place by place. */
  lemma {:induction false} DotAppend(a: Vec, b: Vec, x: real, y: real)
    requires |a| == |b|
    ensures Dot(a + [x], b + [y]) == Dot(a, b) + x * y
  {
    if a == [] {
      assert Dot([], []) == 0.0 && (a + [x])[1..] == [] && (b + [y])[1..] == [];
    } else {
      assert (a + [x])[1..] == a[1..] + [x] && (b + [y])[1..] == b[1..] + [y];
      DotAppend(a[1..], b[1..], x, y);
    }
  }

  /** A linear layer: one weight row and one bias entry per output; a missing bias is a zero one. */
  datatype Layer = Layer(weight: seq<Vec>, bias: Vec)
  {
    predicate Wide(n: nat) { |weight| == n && |bias| == n }

    function Apply(x: Vec): (y: Vec)
      requires |bias| == |weight|
      ensures |y| == |weight|
    {
      seq(|weight|, r requires 0 <= r < |weight| => Dot(x, weight[r]) + bias[r])
    }

    /** `_plain_linear_rows`: only some of the rows. */
    function Rows(x: Vec, lo: nat, hi: nat): Vec
      requires lo <= hi <= |weight| && |bias| == |weight|
    {
      Layer(weight[lo..hi], bias[lo..hi]).Apply(x)
    }
  }

  /** The projections of an attention block; `sliceable` layers expose their weight rows. */
  datatype Projection =
    | Separate(q: Layer, k: Layer, v: Layer, sliceable: bool)
    | Fused(qkv: Layer, sliceable: bool)
  {
    predicate Wide(n: nat) {
      match this
      case Separate(q, k, v, _) => q.Wide(n) && k.Wide(n) && v.Wide(n)
      case Fused(qkv, _) => qkv.Wide(3 * n)
    }

    function Pick(kind: Kind): Layer
      requires Separate?
    {
      match kind
      case Q => q
      case K => k
      case V => v
    }

    /** The whole projection of one token. */
    function Row(n: nat, kind: Kind, x: Vec): (y: Vec)
      requires Wide(n)
      ensures |y| == n
    {
      match this
      case Separate(_, _, _, _) => Pick(kind).Apply(x)
      case Fused(qkv, _) => qkv.Apply(x)[Offset(kind, n)..Offset(kind, n) + n]
    }

    /** `project`: rows lo..hi, by sliced weights or by slicing the whole output. */
    function Project(n: nat, kind: Kind, x: Vec, lo: nat, hi: nat): Vec
      requires Wide(n) && lo <= hi <= n
    {
      var at := Offset(kind, n);
      match this
      case Separate(_, _, _, sliceable) => if sliceable then Pick(kind).Rows(x, lo, hi) else Pick(kind).Apply(x)[lo..hi]
      case Fused(qkv, sliceable) => if sliceable then qkv.Rows(x, at + lo, at + hi) else qkv.Apply(x)[at + lo..at + hi]
    }

    /** The fused layer with the same weights. */
    function Fuse(): Projection
      requires Separate?
    {
      Fused(Layer(q.weight + k.weight + v.weight, q.bias + k.bias + v.bias), sliceable)
    }
  }

  function Offset(kind: Kind, n: nat): (at: nat)
    ensures at <= 2 * n
  {
    match kind
    case Q => 0
    case K => n
    case V => 2 * n
  }

  lemma RowsAreSlice(layer: Layer, x: Vec, lo: nat, hi: nat)
    requires lo <= hi <= |layer.weight| && |layer.bias| == |layer.weight|
    ensures layer.Rows(x, lo, hi) == layer.Apply(x)[lo..hi]
  {
    hide Dot;
    var part := Layer(layer.weight[lo..hi], layer.bias[lo..hi]);
    forall r | 0 <= r < hi - lo
      ensures part.Apply(x)[r] == layer.Apply(x)[lo..hi][r]
    {
      assert part.weight[r] == layer.weight[lo + r] && part.bias[r] == layer.bias[lo + r];
    }
  }

  lemma SliceOfSlice<T>(v: seq<T>, lo: nat, hi: nat, from: nat, to: nat)
    requires lo <= hi <= |v| && from <= to && lo + to <= hi
    ensures v[lo..hi][from..to] == v[lo + from..lo + to]
  {
    var a, b := v[lo..hi][from..to], v[lo + from..lo + to];
    assert |a| == |b|;
    forall i | 0 <= i < |a|
      ensures a[i] == b[i]
    {
      assert a[i] == v[lo..hi][from + i] == v[lo + (from + i)];
    }
  }

  /** Sliced weight rows and sliced outputs agree, separate or fused. */
  lemma ProjectIsSlice(p: Projection, n: nat, kind: Kind, x: Vec, lo: nat, hi: nat)
    requires p.Wide(n) && lo <= hi <= n
    ensures p.Project(n, kind, x, lo, hi) == p.Row(n, kind, x)[lo..hi]
  {
    hide Dot, Layer.Apply, Layer.Rows;
    match p
    case Separate(_, _, _, sliceable) =>
      if sliceable {
        RowsAreSlice(p.Pick(kind), x, lo, hi);
      }
    case Fused(qkv, sliceable) =>
      var at := Offset(kind, n);
      SliceOfSlice(qkv.Apply(x), at, at + n, lo, hi);
      if sliceable {
        RowsAreSlice(qkv, x, at + lo, at + hi);
      }
  }

  /** Fusing the three layers changes no projection. */
  lemma FusedAgrees(p: Projection, n: nat, kind: Kind, x: Vec)
    requires p.Separate? && p.Wide(n)
    ensures p.Fuse().Wide(n) && p.Fuse().Row(n, kind, x) == p.Row(n, kind, x)
  {
    hide Dot;
    var layer, fused, at := p.Pick(kind), p.Fuse().qkv, Offset(kind, n);
    forall r | 0 <= r < n
      ensures fused.Apply(x)[at + r] == layer.Apply(x)[r]
    {
      assert fused.weight[at + r] == layer.weight[r] && fused.bias[at + r] == layer.bias[r];
    }
  }

  /** Which layer and which of its rows a projection reads. */
  lemma RowReads(p: Projection, n: nat, x: Vec, r: nat)
    requires p.Wide(n) && r < n
    ensures p.Separate? ==>
      && p.Row(n, Q, x)[r] == Dot(x, p.q.weight[r]) + p.q.bias[r]
      && p.Row(n, K, x)[r] == Dot(x, p.k.weight[r]) + p.k.bias[r]
      && p.Row(n, V, x)[r] == Dot(x, p.v.weight[r]) + p.v.bias[r]
    ensures p.Fused? ==>
      && p.Row(n, Q, x)[r] == Dot(x, p.qkv.weight[r]) + p.qkv.bias[r]
      && p.Row(n, K, x)[r] == Dot(x, p.qkv.weight[n + r]) + p.qkv.bias[n + r]
      && p.Row(n, V, x)[r] == Dot(x, p.qkv.weight[2 * n + r]) + p.qkv.bias[2 * n + r]
  {
    hide Dot;
  }

  /** Fused, separate, sliced or whole: every form computes the same rows. */
  lemma ProjectionsAgree(p: Projection, n: nat, kind: Kind, x: Vec, lo: nat, hi: nat)
    requires p.Separate? && p.Wide(n) && lo <= hi <= n
    ensures p.Fuse().Wide(n)
    ensures p.Fuse().Project(n, kind, x, lo, hi) == p.Project(n, kind, x, lo, hi) == p.Row(n, kind, x)[lo..hi]
  {
    hide *;
    FusedAgrees(p, n, kind, x);
    ProjectIsSlice(p, n, kind, x, lo, hi);
    ProjectIsSlice(p.Fuse(), n, kind, x, lo, hi);
  }

  /* Attention. Norm, rotation, the attention kernel and the output layers are the library's, each acting on one token. */

  datatype Attention = Attention(
    heads: nat, dim: nat, projection: Projection, norm: (Kind, Vec) -> Vec, rotary: Option<seq<Vec>>, rotate: (Vec, Vec) -> Vec,
    attend: (Vec, seq<Vec>, seq<Vec>) -> Vec, output: Vec -> Vec)
  {
    predicate Lawful(tokens: nat) {
      projection.Wide(heads * dim) && (rotary.Some? ==> |rotary.value| == tokens)
    }

    function Rotated(t: nat, v: Vec): Vec
      requires rotary.Some? ==> t < |rotary.value|
    {
      if rotary.Some? then rotate(v, rotary.value[t]) else v
    }

    /** The part of the whole projection of a token that belongs to head h. */
    function Head(kind: Kind, v: Vec, h: nat): Vec
      requires projection.Wide(heads * dim) && h < heads
    {
      HeadFits(h, heads, dim);
      projection.Row(heads * dim, kind, v)[h * dim..(h + 1) * dim]
    }

    /** Head h of token t attending to every position. */
    function Cell(x: seq<Vec>, t: nat, h: nat): Vec
      requires Lawful(|x|) && t < |x| && h < heads
    {
      attend(
        Rotated(t, norm(Q, Head(Q, x[t], h))),
        seq(|x|, i requires 0 <= i < |x| => Rotated(i, norm(K, Head(K, x[i], h)))),
        seq(|x|, i requires 0 <= i < |x| => Head(V, x[i], h)))
    }

    function Merged(x: seq<Vec>, t: nat): seq<Vec>
      requires Lawful(|x|) && t < |x|
    {
      seq(heads, h requires 0 <= h < heads => Cell(x, t, h))
    }

    /** Untiled attention: every head of every token, then the output layers. */
    function Full(x: seq<Vec>): seq<Vec>
      requires Lawful(|x|)
    {
      seq(|x|, t requires 0 <= t < |x| => output(Concat(Merged(x, t))))
    }
  }

  lemma Distribute(a: nat, b: nat, d: nat)
    ensures (a + b) * d == a * d + b * d && 0 <= a * d <= (a + b) * d
  {
  }

  lemma HeadFits(h: nat, heads: nat, dim: nat)
    requires h < heads
    ensures 0 <= h * dim <= (h + 1) * dim <= heads * dim
  {
    Distribute(h + 1, heads - h - 1, dim);
    Distribute(h, 1, dim);
  }

  lemma GroupFits(first: nat, last: nat, heads: nat, dim: nat)
    requires first <= last <= heads
    ensures 0 <= first * dim <= last * dim <= heads * dim
    ensures last * dim - first * dim == (last - first) * dim
  {
    Distribute(first, last - first, dim);
    Distribute(last, heads - last, dim);
  }

  /** The heads cut a projection into its parts, in order. */
  lemma {:induction false} HeadsPartitionRow(a: Attention, kind: Kind, v: Vec, n: nat)
    requires a.projection.Wide(a.heads * a.dim) && n <= a.heads
    ensures 0 <= n * a.dim <= a.heads * a.dim
    ensures Concat(seq(n, h requires 0 <= h < n => a.Head(kind, v, h))) == a.projection.Row(a.heads * a.dim, kind, v)[..n * a.dim]
  {
    GroupFits(0, n, a.heads, a.dim);
    hide Projection.Row, Projection.Wide;
    var row := a.projection.Row(a.heads * a.dim, kind, v);
    var heads := seq(n, h requires 0 <= h < n => a.Head(kind, v, h));
    if n > 0 {
      HeadsPartitionRow(a, kind, v, n - 1);
      HeadFits(n - 1, a.heads, a.dim);
      var front := seq(n - 1, h requires 0 <= h < n - 1 => a.Head(kind, v, h));
      assert heads == front + [a.Head(kind, v, n - 1)];
      ConcatAppend(front, a.Head(kind, v, n - 1));
      assert row[..n * a.dim] == row[..(n - 1) * a.dim] + row[(n - 1) * a.dim..n * a.dim];
    } else {
      assert n * a.dim == 0;
    }
  }

  /**
   * What the kernel is given for head h of token t, shown by kernels that hand one argument back: the token's own
   * query, normed and rotated by its own place, each token's key likewise, and each token's plain value.
   */
  lemma KernelSees(a: Attention, x: seq<Vec>, t: nat, h: nat, i: nat)
    requires a.Lawful(|x|) && t < |x| && h < a.heads && i < |x|
    ensures
      var query, key, value :=
        a.(attend := (q, k, v) => q), a.(attend := (q, k, v) => if i < |k| then k[i] else []), a.(attend := (q, k, v) => if i < |v| then v[i] else []);
      && query.Cell(x, t, h) == a.Rotated(t, a.norm(Q, a.Head(Q, x[t], h)))
      && key.Cell(x, t, h) == a.Rotated(i, a.norm(K, a.Head(K, x[i], h)))
      && value.Cell(x, t, h) == a.Head(V, x[i], h)
    ensures a.(attend := (q, k, v) => [|k| as real, |v| as real]).Cell(x, t, h) == [|x| as real, |x| as real]
  {
    var key := a.(attend := (q, k, v) => if i < |k| then k[i] else []);
    hide Attention.Rotated, Attention.Head, Projection.Wide;
    assert key.Head(K, x[i], h) == a.Head(K, x[i], h) && key.Rotated(i, a.norm(K, a.Head(K, x[i], h))) == a.Rotated(i, a.norm(K, a.Head(K, x[i], h))) by {
      SameParts(a, key, K, x[i], h, i);
    }
  }

  lemma SameParts(a: Attention, b: Attention, kind: Kind, v: Vec, h: nat, i: nat)
    requires b == a.(attend := b.attend, output := b.output) && a.projection.Wide(a.heads * a.dim) && h < a.heads && (a.rotary.Some? ==> i < |a.rotary.value|)
    ensures b.Head(kind, v, h) == a.Head(kind, v, h) && forall u :: b.Rotated(i, u) == a.Rotated(i, u)
  {
  }

  /** The output layers are given the heads of a token side by side, in order. */
  lemma OutputSees(a: Attention, x: seq<Vec>, t: nat, h: nat, r: nat)
    requires a.Lawful(|x|) && t < |x| && h < a.heads && r < a.dim && forall q, k, v :: |a.attend(q, k, v)| == a.dim
    ensures
      var row := a.(output := v => v).Full(x)[t];
      && |row| == a.heads * a.dim && 0 <= h * a.dim + r < |row|
      && |a.Cell(x, t, h)| == a.dim && row[h * a.dim + r] == a.Cell(x, t, h)[r]
  {
    hide Attention.Rotated, Attention.Head, Projection.Wide, Attention.Cell;
    var b := a.(output := v => v);
    assert b.Full(x)[t] == Concat(b.Merged(x, t));
    forall g: nat | g < a.heads
      ensures b.Merged(x, t)[g] == a.Cell(x, t, g) && |a.Cell(x, t, g)| == a.dim
    {
      SameCell(a, b, x, t, g);
    }
    ConcatAt(b.Merged(x, t), a.dim, h, r);
  }

  lemma SameCell(a: Attention, b: Attention, x: seq<Vec>, t: nat, h: nat)
    requires b == a.(output := b.output) && a.Lawful(|x|) && t < |x| && h < a.heads && forall q, k, v :: |a.attend(q, k, v)| == a.dim
    ensures b.Cell(x, t, h) == a.Cell(x, t, h) && |a.Cell(x, t, h)| == a.dim
  {
    hide Projection.Wide, Projection.Row, Attention.Head, Attention.Rotated;
    forall kind: Kind, i: nat | i < |x|
      ensures b.Head(kind, x[i], h) == a.Head(kind, x[i], h) && forall u :: b.Rotated(i, u) == a.Rotated(i, u)
    {
      SameParts(a, b, kind, x[i], h, i);
    }
    var q := a.Rotated(t, a.norm(Q, a.Head(Q, x[t], h)));
    var k := seq(|x|, i requires 0 <= i < |x| => a.Rotated(i, a.norm(K, a.Head(K, x[i], h))));
    var v := seq(|x|, i requires 0 <= i < |x| => a.Head(V, x[i], h));
    assert k == seq(|x|, i requires 0 <= i < |x| => b.Rotated(i, b.norm(K, b.Head(K, x[i], h))));
    assert v == seq(|x|, i requires 0 <= i < |x| => b.Head(V, x[i], h));
    assert |a.attend(q, k, v)| == a.dim;
  }

  lemma {:induction false} ConcatAt(parts: seq<Vec>, dim: nat, h: nat, r: nat)
    requires h < |parts| && r < dim && forall g :: 0 <= g < |parts| ==> |parts[g]| == dim
    ensures |Concat(parts)| == |parts| * dim && 0 <= h * dim + r < |Concat(parts)| && Concat(parts)[h * dim + r] == parts[h][r]
  {
    var rest := parts[1..];
    assert |Concat(rest)| == |rest| * dim by {
      if rest == [] {
        assert Concat(rest) == [] && 0 * dim == 0;
      } else {
        ConcatAt(rest, dim, 0, r);
      }
    }
    Distribute(1, |rest|, dim);
    if h == 0 {
      assert h * dim == 0;
    } else {
      ConcatAt(rest, dim, h - 1, r);
      Distribute(1, h - 1, dim);
    }
  }

  /** `unflatten`: head g of a projected head group. */
  function GroupHead(v: Vec, dim: nat, size: nat, g: nat): Vec
    requires |v| == size * dim && g < size
  {
    HeadFits(g, size, dim);
    v[g * dim..(g + 1) * dim]
  }

  function GroupRow(a: Attention, kind: Kind, x: Vec, first: nat, last: nat): (v: Vec)
    requires a.projection.Wide(a.heads * a.dim) && first <= last <= a.heads
    ensures |v| == (last - first) * a.dim
  {
    GroupFits(first, last, a.heads, a.dim);
    ProjectIsSlice(a.projection, a.heads * a.dim, kind, x, first * a.dim, last * a.dim);
    a.projection.Project(a.heads * a.dim, kind, x, first * a.dim, last * a.dim)
  }

  /** A head of a head group is that head of the whole projection. */
  lemma GroupHeadIsHead(a: Attention, kind: Kind, x: Vec, first: nat, last: nat, g: nat)
    requires a.projection.Wide(a.heads * a.dim) && first + g < last <= a.heads
    ensures GroupHead(GroupRow(a, kind, x, first, last), a.dim, last - first, g) == a.Head(kind, x, first + g)
  {
    hide Projection.Row, Projection.Project, Projection.Wide;
    var d := a.dim;
    GroupFits(first, last, a.heads, d);
    HeadFits(g, last - first, d);
    HeadFits(first + g, a.heads, d);
    Distribute(first, g, d);
    Distribute(first, g + 1, d);
    ProjectIsSlice(a.projection, a.heads * d, kind, x, first * d, last * d);
    SliceOfSlice(a.projection.Row(a.heads * d, kind, x), first * d, last * d, g * d, (g + 1) * d);
  }

  /** What a head group keeps of the whole context: one row per position for each of its heads. */
  ghost predicate IsKeys(a: Attention, x: seq<Vec>, first: nat, last: nat, keys: seq<seq<Vec>>)
    requires a.Lawful(|x|) && first <= last <= a.heads
  {
    && |keys| == last - first
    && forall g :: 0 <= g < last - first ==>
         keys[g] == seq(|x|, i requires 0 <= i < |x| => a.Rotated(i, a.norm(K, a.Head(K, x[i], first + g))))
  }

  ghost predicate IsValues(a: Attention, x: seq<Vec>, first: nat, last: nat, values: seq<seq<Vec>>)
    requires a.Lawful(|x|) && first <= last <= a.heads
  {
    && |values| == last - first
    && forall g :: 0 <= g < last - first ==> values[g] == seq(|x|, i requires 0 <= i < |x| => a.Head(V, x[i], first + g))
  }

  /** `kv_for_group`: a projection of all tokens, tile by tile when only the whole layer can be called. */
  method KvForGroup(a: Attention, kind: Kind, x: seq<Vec>, first: nat, last: nat, tile: nat) returns (rows: seq<Vec>)
    requires a.Lawful(|x|) && first <= last <= a.heads && tile > 0
    ensures |rows| == |x| && forall t :: 0 <= t < |x| ==> rows[t] == GroupRow(a, kind, x[t], first, last)
  {
    if a.projection.sliceable {
      rows := seq(|x|, t requires 0 <= t < |x| => GroupRow(a, kind, x[t], first, last));
      return;
    }
    rows := [];
    var offset := 0;
    while offset < |x|
      invariant offset >= 0 && |rows| == Min(offset, |x|)
      invariant forall t :: 0 <= t < |rows| ==> rows[t] == GroupRow(a, kind, x[t], first, last)
    {
      var piece := x[offset..Min(|x|, offset + tile)];
      rows := rows + seq(|piece|, i requires 0 <= i < |piece| => GroupRow(a, kind, piece[i], first, last));
      offset := offset + tile;
    }
  }

  method GroupKeys(a: Attention, x: seq<Vec>, first: nat, last: nat, tile: nat) returns (keys: seq<seq<Vec>>)
    requires a.Lawful(|x|) && first <= last <= a.heads && tile > 0
    ensures IsKeys(a, x, first, last, keys)
  {
    hide GroupRow, GroupHead, Projection.Wide, Attention.Head;
    var rows := KvForGroup(a, K, x, first, last, tile);
    keys := seq(last - first, g requires 0 <= g < last - first =>
      seq(|x|, i requires 0 <= i < |x| => a.Rotated(i, a.norm(K, GroupHead(rows[i], a.dim, last - first, g)))));
    forall g, i | 0 <= g < last - first && 0 <= i < |x|
      ensures keys[g][i] == a.Rotated(i, a.norm(K, a.Head(K, x[i], first + g)))
    {
      GroupHeadIsHead(a, K, x[i], first, last, g);
    }
  }

  method GroupValues(a: Attention, x: seq<Vec>, first: nat, last: nat, tile: nat) returns (values: seq<seq<Vec>>)
    requires a.Lawful(|x|) && first <= last <= a.heads && tile > 0
    ensures IsValues(a, x, first, last, values)
  {
    hide GroupRow, GroupHead, Projection.Wide, Attention.Head;
    var rows := KvForGroup(a, V, x, first, last, tile);
    values := seq(last - first, g requires 0 <= g < last - first =>
      seq(|x|, i requires 0 <= i < |x| => GroupHead(rows[i], a.dim, last - first, g)));
    forall g, i | 0 <= g < last - first && 0 <= i < |x|
      ensures values[g][i] == a.Head(V, x[i], first + g)
    {
      GroupHeadIsHead(a, V, x[i], first, last, g);
    }
  }

  /** One query tile against the whole context, with its own slice of the rotary table; head-major like the kernel's result. */
  method AttendTile(a: Attention, x: seq<Vec>, first: nat, last: nat, begin: nat, end: nat, keys: seq<seq<Vec>>, values: seq<seq<Vec>>)
    returns (result: seq<seq<Vec>>)
    requires a.Lawful(|x|) && first <= last <= a.heads && begin <= end <= |x|
    requires IsKeys(a, x, first, last, keys) && IsValues(a, x, first, last, values)
    ensures |result| == last - first
    ensures forall g :: 0 <= g < last - first ==> |result[g]| == end - begin
    ensures forall g, i :: 0 <= g < last - first && 0 <= i < end - begin ==> result[g][i] == a.Cell(x, begin + i, first + g)
  {
    hide GroupRow, GroupHead, Projection.Wide, Attention.Head;
    var tile := x[begin..end];
    var table := if a.rotary.Some? then a.rotary.value[begin..end] else [];
    var turn := (i: int, v: Vec) requires a.rotary.Some? ==> 0 <= i < |table| => if a.rotary.Some? then a.rotate(v, table[i]) else v;
    result := seq(last - first, g requires 0 <= g < last - first =>
      seq(end - begin, i requires 0 <= i < end - begin =>
        a.attend(turn(i, a.norm(Q, GroupHead(GroupRow(a, Q, tile[i], first, last), a.dim, last - first, g))), keys[g], values[g])));
    forall g, i | 0 <= g < last - first && 0 <= i < end - begin
      ensures result[g][i] == a.Cell(x, begin + i, first + g)
    {
      assert tile[i] == x[begin + i];
      assert a.rotary.Some? ==> table[i] == a.rotary.value[begin + i];
      GroupHeadIsHead(a, Q, tile[i], first, last, g);
    }
  }

  /* The tile loops. */

  datatype Rect = Rect(begin: int, end: int, first: int, last: int)
  {
    predicate Has(t: int, h: int) { begin <= t < end && first <= h < last }
  }

  /** How many of the assignments wrote cell (t, h). */
  function Writes(rects: seq<Rect>, t: int, h: int): nat {
    if rects == [] then 0
    else Writes(rects[..|rects| - 1], t, h) + if rects[|rects| - 1].Has(t, h) then 1 else 0
  }

  lemma WritesAppend(rects: seq<Rect>, r: Rect, t: int, h: int)
    ensures Writes(rects + [r], t, h) == Writes(rects, t, h) + if r.Has(t, h) then 1 else 0
  {
    assert (rects + [r])[..|rects|] == rects;
  }

  /** The merged buffer after the head groups below `first` and, in the group up to `last`, the queries below `begin`. */
  ghost predicate Filled(a: Attention, x: seq<Vec>, merged: array2<Vec>, rects: seq<Rect>, begin: int, first: int, last: int)
    requires a.Lawful(|x|) && merged.Length0 == |x| && merged.Length1 == a.heads
    reads merged
  {
    && (forall t, h :: 0 <= t < |x| && 0 <= h < a.heads && (h < first || (h < last && t < begin)) ==> merged[t, h] == a.Cell(x, t, h))
    && (forall t, h :: 0 <= t < |x| && 0 <= h < a.heads ==>
          Writes(rects, t, h) == if h < first || (h < last && t < begin) then 1 else 0)
  }

  method FillGroup(a: Attention, x: seq<Vec>, merged: array2<Vec>, first: nat, last: nat, tile: nat, ghost before: seq<Rect>)
    returns (ghost rects: seq<Rect>)
    requires a.Lawful(|x|) && first < last <= a.heads && tile > 0
    requires merged.Length0 == |x| && merged.Length1 == a.heads
    requires Filled(a, x, merged, before, 0, first, first)
    modifies merged
    ensures Filled(a, x, merged, rects, 0, last, last)
  {
    hide Projection.Wide, Attention.Cell, IsKeys, IsValues, Writes;
    var keys := GroupKeys(a, x, first, last, tile);
    var values := GroupValues(a, x, first, last, tile);
    rects := before;
    var begin := 0;
    while begin < |x|
      invariant 0 <= begin
      invariant Filled(a, x, merged, rects, begin, first, last)
    {
      var end := Min(|x|, begin + tile);
      var result := AttendTile(a, x, first, last, begin, end, keys, values);
      forall t, h | begin <= t < end && first <= h < last {
        merged[t, h] := result[h - first][t - begin];
      }
      forall t, h | 0 <= t < |x| && 0 <= h < a.heads
        ensures Writes(rects + [Rect(begin, end, first, last)], t, h)
             == Writes(rects, t, h) + if Rect(begin, end, first, last).Has(t, h) then 1 else 0
      {
        WritesAppend(rects, Rect(begin, end, first, last), t, h);
      }
      rects := rects + [Rect(begin, end, first, last)];
      begin := begin + tile;
    }
  }

  /** `native_h3_attention` writes every (token, head) cell exactly once and equals untiled attention, whatever the tiles. */
  method NativeH3Attention(a: Attention, x: seq<Vec>, free: int, queryChunk: int, headChunk: int)
    returns (out: Result<seq<Vec>>, ghost rects: seq<Rect>)
    requires a.Lawful(|x|)
    ensures out.Raised? <==> x == [] || a.heads == 0 || a.dim == 0 || free <= 0 || queryChunk < 0 || headChunk < 0
    ensures out.Ok? ==> out.value == a.Full(x)
    ensures out.Ok? ==> forall t, h :: 0 <= t < |x| && 0 <= h < a.heads ==> Writes(rects, t, h) == 1
  {
    hide Projection.Wide, Attention.Cell, Attention.Merged;
    rects := [];
    var policy := TilePolicy(|x|, a.heads, a.dim, free, queryChunk, headChunk);
    if policy.Raised? {
      return Raised, rects;
    }
    var (tile, group) := policy.value;
    var merged := new Vec[|x|, a.heads]((_, _) => []);
    var first := 0;
    while first < a.heads
      invariant 0 <= first
      invariant Filled(a, x, merged, rects, 0, first, first)
    {
      var last := Min(a.heads, first + group);
      rects := FillGroup(a, x, merged, first, last, tile, rects);
      first := first + group;
    }
    var projected := ProjectOut(a, x, merged, tile);
    out := Ok(projected);
  }

  function Cells(merged: array2<Vec>, t: nat): (r: seq<Vec>)
    requires t < merged.Length0
    reads merged
  {
    seq(merged.Length1, h requires 0 <= h < merged.Length1 reads merged => merged[t, h])
  }

  /** `flatten(2, 3)`: the heads of one token side by side. */
  function Flattened(merged: array2<Vec>, t: nat): Vec
    requires t < merged.Length0
    reads merged
  {
    Concat(Cells(merged, t))
  }

  /** The output layers, token tile by token tile. */
  method ProjectOut(a: Attention, x: seq<Vec>, merged: array2<Vec>, tile: nat) returns (out: seq<Vec>)
    requires a.Lawful(|x|) && tile > 0 && merged.Length0 == |x| && merged.Length1 == a.heads
    requires forall t, h :: 0 <= t < |x| && 0 <= h < a.heads ==> merged[t, h] == a.Cell(x, t, h)
    ensures out == a.Full(x)
  {
    hide Projection.Wide, Attention.Cell;
    var projected := new Vec[|x|];
    var begin := 0;
    while begin < |x|
      invariant 0 <= begin
      invariant forall t :: 0 <= t < |x| && t < begin ==> projected[t] == a.output(Concat(a.Merged(x, t)))
    {
      var end := Min(|x|, begin + tile);
      forall t | begin <= t < end {
        projected[t] := a.output(Flattened(merged, t));
      }
      forall t | begin <= t < end
        ensures projected[t] == a.output(Concat(a.Merged(x, t)))
      {
        assert Cells(merged, t) == a.Merged(x, t);
      }
      begin := begin + tile;
    }
    out := projected[..];
  }

  /* The feed-forward. */

  ghost predicate KeepsTokens(forward: seq<Vec> -> seq<Vec>) {
    forall x :: |forward(x)| == |x|
  }

  /** A layer that treats every token on its own. */
  ghost predicate TokenWise(forward: seq<Vec> -> seq<Vec>) {
    forall x, y :: forward(x + y) == forward(x) + forward(y)
  }

  /** The layer applied to one tile after the other. */
  function Tiled(forward: seq<Vec> -> seq<Vec>, x: seq<Vec>, chunk: nat): seq<Vec>
    requires chunk > 0
  {
    if |x| <= chunk then forward(x) else forward(x[..chunk]) + Tiled(forward, x[chunk..], chunk)
  }

  /** `tiled_forward`: short inputs go through whole, others tile by tile into one buffer. */
  method TiledForward(forward: seq<Vec> -> seq<Vec>, x: seq<Vec>, chunk: nat) returns (out: seq<Vec>)
    requires chunk > 0 && KeepsTokens(forward)
    ensures out == Tiled(forward, x, chunk)
  {
    if |x| <= chunk {
      return forward(x);
    }
    hide *;
    var buffer := new Vec[|x|];
    var offset := 0;
    NoTile(forward, x, chunk, buffer[..0]);
    while offset < |x|
      invariant 0 <= offset <= |x| && TilesDone(forward, x, chunk, offset, buffer[..offset])
    {
      offset := FillTile(forward, x, chunk, offset, buffer);
    }
    AllTiles(forward, x, chunk, buffer[..offset]);
    out := buffer[..offset];
  }

  /** One tile of the buffer. */
  method FillTile(forward: seq<Vec> -> seq<Vec>, x: seq<Vec>, chunk: nat, offset: nat, buffer: array<Vec>) returns (end: nat)
    requires chunk > 0 && KeepsTokens(forward) && offset < |x| == buffer.Length && TilesDone(forward, x, chunk, offset, buffer[..offset])
    modifies buffer
    ensures offset < end <= |x| && TilesDone(forward, x, chunk, end, buffer[..end])
  {
    hide *;
    end := if offset + chunk < |x| then offset + chunk else |x|;
    ghost var done := buffer[..offset];
    var tile := x[offset..end];
    var piece := forward(tile);
    TokensKept(forward, tile);
    NextTile(forward, x, chunk, offset, end, done);
    Place(buffer, offset, piece);
  }

  /** The tiles before token n are done, and those after it make up the rest. */
  ghost predicate TilesDone(forward: seq<Vec> -> seq<Vec>, x: seq<Vec>, chunk: nat, n: nat, done: seq<Vec>)
    requires chunk > 0
  {
    if n < |x| then done + Tiled(forward, x[n..], chunk) == Tiled(forward, x, chunk) else n == |x| && done == Tiled(forward, x, chunk)
  }

  lemma NoTile(forward: seq<Vec> -> seq<Vec>, x: seq<Vec>, chunk: nat, none: seq<Vec>)
    requires chunk > 0 && |x| > chunk && none == []
    ensures TilesDone(forward, x, chunk, 0, none)
  {
    hide Tiled;
    assert x[0..] == x;
  }

  lemma AllTiles(forward: seq<Vec> -> seq<Vec>, x: seq<Vec>, chunk: nat, done: seq<Vec>)
    requires chunk > 0 && TilesDone(forward, x, chunk, |x|, done)
    ensures done == Tiled(forward, x, chunk)
  {
    hide Tiled;
  }

  lemma TokensKept(forward: seq<Vec> -> seq<Vec>, x: seq<Vec>)
    requires KeepsTokens(forward)
    ensures |forward(x)| == |x|
  {
  }

  method Place(buffer: array<Vec>, at: nat, piece: seq<Vec>)
    requires at + |piece| <= buffer.Length
    modifies buffer
    ensures buffer[..at + |piece|] == old(buffer[..at]) + piece
  {
    forall i | at <= i < at + |piece| {
      buffer[i] := piece[i - at];
    }
    assert buffer[..at] == old(buffer[..at]) && buffer[at..at + |piece|] == piece;
  }

  lemma NextTile(forward: seq<Vec> -> seq<Vec>, x: seq<Vec>, chunk: nat, offset: nat, end: nat, done: seq<Vec>)
    requires chunk > 0 && offset < |x| && TilesDone(forward, x, chunk, offset, done) && end == if offset + chunk < |x| then offset + chunk else |x|
    ensures TilesDone(forward, x, chunk, end, done + forward(x[offset..end]))
  {
    var rest := x[offset..];
    if end == |x| {
      assert rest == x[offset..end];
    } else {
      assert rest[..chunk] == x[offset..end] && rest[chunk..] == x[end..];
      assert Tiled(forward, rest, chunk) == forward(x[offset..end]) + Tiled(forward, x[end..], chunk);
    }
    hide Tiled;
  }

  lemma {:induction false} TiledIsWhole(forward: seq<Vec> -> seq<Vec>, x: seq<Vec>, chunk: nat)
    requires chunk > 0 && TokenWise(forward)
    ensures Tiled(forward, x, chunk) == forward(x)
  {
    if |x| > chunk {
      TiledIsWhole(forward, x[chunk..], chunk);
      assert x[..chunk] + x[chunk..] == x;
    }
  }

  /** Tiling with single tokens, wherever the input is cut. */
  lemma {:induction false} SingleTokens(forward: seq<Vec> -> seq<Vec>, x: seq<Vec>, y: seq<Vec>)
    requires KeepsTokens(forward)
    ensures Tiled(forward, x + y, 1) == Tiled(forward, x, 1) + Tiled(forward, y, 1)
  {
    assert forward([]) == [];
    if x == [] {
      assert x + y == y;
    } else if y == [] {
      assert x + y == x;
    } else {
      var z := x + y;
      assert z[..1] == x[..1] && z[1..] == x[1..] + y;
      SingleTokens(forward, x[1..], y);
      assert |x| == 1 ==> x[..1] == x && x[1..] == [] && [] + y == y;
    }
  }

  /** Tiles of every size give what the whole layer gives, for every input, if and only if it treats tokens on their own. */
  lemma TilingIsInvisibleIff(forward: seq<Vec> -> seq<Vec>)
    requires KeepsTokens(forward)
    ensures (forall x, chunk: nat :: chunk > 0 ==> Tiled(forward, x, chunk) == forward(x)) <==> TokenWise(forward)
  {
    if TokenWise(forward) {
      forall x, chunk: nat | chunk > 0
        ensures Tiled(forward, x, chunk) == forward(x)
      {
        TiledIsWhole(forward, x, chunk);
      }
    } else {
      var x, y :| forward(x + y) != forward(x) + forward(y);
      SingleTokens(forward, x, y);
      if Tiled(forward, x + y, 1) == forward(x + y) && Tiled(forward, x, 1) == forward(x) && Tiled(forward, y, 1) == forward(y) {
        assert false;
      }
    }
  }
}
