/**
  The hypersphere-centre initialisation of test.py (`init_center_c`).

  The training data is a sequence of videos, each a sequence of batches.
  The encoder turns a batch into a flat tensor of reals that is reshaped
  into clips of `clipSize` = P * D entries (690 patches by 128 features in
  the program).  The centre is the mean clip over every batch of every
  video, with entries that lie strictly inside (-eps, eps) and are not
  zero pushed out to -eps or +eps.

  Tensors are flat sequences (or arrays) in row-major order: entry `e` of
  a clip is patch `e / D`, feature `e % D`.
 */
module CenterC {
  import opened Results

  /** Why `init_center_c` produces no centre. */
  datatype InitError =
    | ShapeMismatch  // an encoder output cannot be viewed as [-1, P, D]
    | NoSamples      // no clip was seen, so the mean is 0 / 0

  function Abs(x: real): real
  {
    if x < 0.0 then -x else x
  }

  // ---------------------------------------------------------------------
  // Dead-zone clamp
  // ---------------------------------------------------------------------

  /** The first masked assignment: small negative entries become -eps. */
  function NegMask(x: real, eps: real): real
  {
    if Abs(x) < eps && x < 0.0 then -eps else x
  }

  /** The second masked assignment: small positive entries become +eps. */
  function PosMask(x: real, eps: real): real
  {
    if Abs(x) < eps && x > 0.0 then eps else x
  }

  /** One entry after both masked assignments, in the program's order. */
  function Clamp(x: real, eps: real): (r: real)
    ensures Abs(x) >= eps ==> r == x
    ensures 0.0 < x < eps ==> r == eps
    ensures -eps < x < 0.0 ==> r == -eps
    ensures x == 0.0 ==> r == 0.0
    ensures (r < 0.0 <==> x < 0.0) && (r > 0.0 <==> x > 0.0)
    ensures r == 0.0 || Abs(r) >= eps
  {
    PosMask(NegMask(x, eps), eps)
  }

  /** The clamp applied to every entry of a tensor. */
  function ClampAll(s: seq<real>, eps: real): seq<real>
  {
    seq(|s|, i requires 0 <= i < |s| => Clamp(s[i], eps))
  }

  /** Clamping a second time changes nothing. */
  lemma ClampIdempotent(s: seq<real>, eps: real)
    ensures ClampAll(ClampAll(s, eps), eps) == ClampAll(s, eps)
  {
  }

  // ---------------------------------------------------------------------
  // Clip sums, counts and shapes
  // ---------------------------------------------------------------------

  /** Sum over every whole clip of `z` of that clip's entry `e`. */
  function ColumnSum(z: seq<real>, clipSize: nat, e: nat): real
    requires e < clipSize
    decreases |z|
  {
    if |z| < clipSize then 0.0 else z[e] + ColumnSum(z[clipSize..], clipSize, e)
  }

  /** Entry `e` summed over every clip of every batch of `batches`. */
  function BatchesSum<X>(batches: seq<X>, net: X -> seq<real>, clipSize: nat, e: nat): real
    requires e < clipSize
  {
    if batches == [] then 0.0
    else
      var last := |batches| - 1;
      BatchesSum(batches[..last], net, clipSize, e) + ColumnSum(net(batches[last]), clipSize, e)
  }

  /** Entry `e` summed over every clip of every batch of every video. */
  function VideosSum<X>(videos: seq<seq<X>>, net: X -> seq<real>, clipSize: nat, e: nat): real
    requires e < clipSize
  {
    if videos == [] then 0.0
    else
      var last := |videos| - 1;
      VideosSum(videos[..last], net, clipSize, e) + BatchesSum(videos[last], net, clipSize, e)
  }

  /** The number of clips the reshape makes of each batch's output, added up. */
  function BatchesClips<X>(batches: seq<X>, net: X -> seq<real>, clipSize: nat): nat
    requires 0 < clipSize
  {
    if batches == [] then 0
    else
      var last := |batches| - 1;
      BatchesClips(batches[..last], net, clipSize) + |net(batches[last])| / clipSize
  }

  /** The number of clips over every video. */
  function VideosClips<X>(videos: seq<seq<X>>, net: X -> seq<real>, clipSize: nat): nat
    requires 0 < clipSize
  {
    if videos == [] then 0
    else
      var last := |videos| - 1;
      VideosClips(videos[..last], net, clipSize) + BatchesClips(videos[last], net, clipSize)
  }

  /** Every batch's output can be viewed as whole clips. */
  predicate BatchesShaped<X>(batches: seq<X>, net: X -> seq<real>, clipSize: nat)
    requires 0 < clipSize
  {
    forall b | 0 <= b < |batches| :: |net(batches[b])| % clipSize == 0
  }

  predicate WellShaped<X>(videos: seq<seq<X>>, net: X -> seq<real>, clipSize: nat)
    requires 0 < clipSize
  {
    forall v | 0 <= v < |videos| :: BatchesShaped(videos[v], net, clipSize)
  }

  /** The accumulator divided by the counter. */
  function MeanClip<X>(videos: seq<seq<X>>, net: X -> seq<real>, clipSize: nat): seq<real>
    requires 0 < clipSize && 0 < VideosClips(videos, net, clipSize)
  {
    var n := VideosClips(videos, net, clipSize) as real;
    seq(clipSize, e requires 0 <= e < clipSize => VideosSum(videos, net, clipSize, e) / n)
  }

  /** The centre `init_center_c` returns. */
  function Center<X>(videos: seq<seq<X>>, net: X -> seq<real>, clipSize: nat, eps: real): seq<real>
    requires 0 < clipSize && 0 < VideosClips(videos, net, clipSize)
  {
    ClampAll(MeanClip(videos, net, clipSize), eps)
  }

  // ---------------------------------------------------------------------
  // Reference definition: the stream of every encoder output, in order
  // ---------------------------------------------------------------------

  function BatchStream<X>(batches: seq<X>, net: X -> seq<real>): seq<real>
  {
    if batches == [] then []
    else
      var last := |batches| - 1;
      BatchStream(batches[..last], net) + net(batches[last])
  }

  /** Every encoder output of every video, concatenated in reading order. */
  function Stream<X>(videos: seq<seq<X>>, net: X -> seq<real>): seq<real>
  {
    if videos == [] then []
    else
      var last := |videos| - 1;
      Stream(videos[..last], net) + BatchStream(videos[last], net)
  }

  // Solver hint: one step of distributivity, proved without a body.
  lemma MulDistributes(a: int, b: int, k: int)
    ensures (a - b) * k == a * k - b * k
  {
  }

  // Solver hint: a positive multiple of k is at least k, proved without a body.
  lemma MulAtLeast(d: nat, k: nat)
    requires 1 <= d
    ensures d * k >= k
  {
  }

  /** Euclidean division is unique: `q * k + r` with `0 <= r < k` divides as `q` remainder `r`. */
  lemma DivUnique(y: int, k: nat, q: int, r: int)
    requires 0 < k && 0 <= r < k && y == q * k + r
    ensures y / k == q && y % k == r
  {
    var q', r' := y / k, y % k;
    assert y == q' * k + r' && 0 <= r' < k;
    assert q' * k - q * k == r - r';
    if q' > q {
      MulDistributes(q', q, k);
      MulAtLeast(q' - q, k);
    } else if q' < q {
      MulDistributes(q, q', k);
      MulAtLeast(q - q', k);
    }
  }

  /** Division facts for adding a whole number of clips. */
  lemma AddWholeClips(a: nat, b: nat, clipSize: nat)
    requires 0 < clipSize && a % clipSize == 0
    ensures (a + b) / clipSize == a / clipSize + b / clipSize
    ensures (a + b) % clipSize == b % clipSize
  {
    var q, qb, rb := a / clipSize, b / clipSize, b % clipSize;
    assert a == q * clipSize;
    assert b == qb * clipSize + rb;
    assert a + b == (q + qb) * clipSize + rb;
    DivUnique(a + b, clipSize, q + qb, rb);
  }

  /** Summing a stream split at a clip boundary is summing both parts. */
  lemma {:induction false} ColumnSumAppend(a: seq<real>, b: seq<real>, clipSize: nat, e: nat)
    requires e < clipSize && |a| % clipSize == 0
    ensures ColumnSum(a + b, clipSize, e) == ColumnSum(a, clipSize, e) + ColumnSum(b, clipSize, e)
    decreases |a|
  {
    if |a| == 0 {
      assert a + b == b;
    } else {
      assert |a| >= clipSize;
      AddWholeClips(clipSize, |a| - clipSize, clipSize);
      assert (a + b)[clipSize..] == a[clipSize..] + b;
      ColumnSumAppend(a[clipSize..], b, clipSize, e);
    }
  }

  /** Over well-shaped batches, the per-batch sums and counts are those of the concatenated stream. */
  lemma {:induction false} BatchStreamSum<X>(batches: seq<X>, net: X -> seq<real>, clipSize: nat)
    requires 0 < clipSize && BatchesShaped(batches, net, clipSize)
    ensures |BatchStream(batches, net)| % clipSize == 0
    ensures BatchesClips(batches, net, clipSize) == |BatchStream(batches, net)| / clipSize
    ensures forall e :: 0 <= e < clipSize ==>
              BatchesSum(batches, net, clipSize, e) == ColumnSum(BatchStream(batches, net), clipSize, e)
  {
    if batches != [] {
      var last := |batches| - 1;
      var init := batches[..last];
      var z := net(batches[last]);
      assert BatchesShaped(init, net, clipSize) by {
        forall b | 0 <= b < |init| ensures |net(init[b])| % clipSize == 0 {
          assert init[b] == batches[b];
        }
      }
      assert |z| % clipSize == 0;
      BatchStreamSum(init, net, clipSize);
      var s := BatchStream(init, net);
      AddWholeClips(|s|, |z|, clipSize);
      AddWholeClips(|z|, 0, clipSize);
      forall e | 0 <= e < clipSize
        ensures BatchesSum(batches, net, clipSize, e) == ColumnSum(s + z, clipSize, e)
      {
        ColumnSumAppend(s, z, clipSize, e);
      }
    }
  }

  /** Over well-shaped videos, the accumulated sums and count are those of the concatenated stream. */
  lemma {:induction false} StreamSum<X>(videos: seq<seq<X>>, net: X -> seq<real>, clipSize: nat)
    requires 0 < clipSize && WellShaped(videos, net, clipSize)
    ensures |Stream(videos, net)| % clipSize == 0
    ensures VideosClips(videos, net, clipSize) == |Stream(videos, net)| / clipSize
    ensures forall e :: 0 <= e < clipSize ==>
              VideosSum(videos, net, clipSize, e) == ColumnSum(Stream(videos, net), clipSize, e)
  {
    if videos != [] {
      var last := |videos| - 1;
      var init := videos[..last];
      assert WellShaped(init, net, clipSize) by {
        forall v | 0 <= v < |init| ensures BatchesShaped(init[v], net, clipSize) {
          assert init[v] == videos[v];
        }
      }
      StreamSum(init, net, clipSize);
      BatchStreamSum(videos[last], net, clipSize);
      var s, t := Stream(init, net), BatchStream(videos[last], net);
      AddWholeClips(|s|, |t|, clipSize);
      forall e | 0 <= e < clipSize
        ensures VideosSum(videos, net, clipSize, e) == ColumnSum(s + t, clipSize, e)
      {
        ColumnSumAppend(s, t, clipSize, e);
      }
    }
  }

  /**
    The mean does not depend on how the clips are split into batches and
    videos: two well-shaped datasets whose encoder outputs concatenate to
    the same stream give the same mean and the same centre.
   */
  lemma BatchingInvariance<X, Y>(a: seq<seq<X>>, netA: X -> seq<real>,
                                 b: seq<seq<Y>>, netB: Y -> seq<real>,
                                 clipSize: nat, eps: real)
    requires 0 < clipSize
    requires WellShaped(a, netA, clipSize) && WellShaped(b, netB, clipSize)
    requires Stream(a, netA) == Stream(b, netB)
    ensures VideosClips(a, netA, clipSize) == VideosClips(b, netB, clipSize)
    ensures 0 < VideosClips(a, netA, clipSize) ==>
              MeanClip(a, netA, clipSize) == MeanClip(b, netB, clipSize) &&
              Center(a, netA, clipSize, eps) == Center(b, netB, clipSize, eps)
  {
    StreamSum(a, netA, clipSize);
    StreamSum(b, netB, clipSize);
  }

  /** `n` copies of the clip `u`, one after another. */
  function Repeat(u: seq<real>, n: nat): seq<real>
  {
    if n == 0 then [] else u + Repeat(u, n - 1)
  }

  lemma {:induction false} RepeatLength(u: seq<real>, n: nat)
    ensures |Repeat(u, n)| == n * |u|
  {
    if n > 0 {
      RepeatLength(u, n - 1);
    }
  }

  /** `n` copies of a clip hold `n` whole clips. */
  lemma RepeatClips(u: seq<real>, n: nat)
    requires 0 < |u|
    ensures |Repeat(u, n)| % |u| == 0 && |Repeat(u, n)| / |u| == n
  {
    RepeatLength(u, n);
    DivUnique(n * |u|, |u|, n, 0);
  }

  lemma {:induction false} ColumnSumRepeat(u: seq<real>, n: nat, e: nat)
    requires e < |u|
    ensures ColumnSum(Repeat(u, n), |u|, e) == n as real * u[e]
  {
    if n > 0 {
      ColumnSumRepeat(u, n - 1, e);
      var rest := Repeat(u, n - 1);
      assert (u + rest)[|u|..] == rest;
    }
  }

  // Solver hint: dividing n * x by n gives x back, proved without a body.
  lemma DivideBack(total: real, count: real, x: real)
    requires 0.0 < count && total == count * x
    ensures total / count == x
  {
  }

  /** When every clip in the data is the same clip `u`, the count is `n` and every entry sums to `n` times `u`'s. */
  lemma SumOfIdenticalClips<X>(videos: seq<seq<X>>, net: X -> seq<real>, u: seq<real>, n: nat)
    requires 0 < |u| && WellShaped(videos, net, |u|)
    requires Stream(videos, net) == Repeat(u, n)
    ensures VideosClips(videos, net, |u|) == n
    ensures forall e :: 0 <= e < |u| ==> VideosSum(videos, net, |u|, e) == n as real * u[e]
  {
    StreamSum(videos, net, |u|);
    RepeatClips(u, n);
    forall e | 0 <= e < |u| ensures VideosSum(videos, net, |u|, e) == n as real * u[e] {
      ColumnSumRepeat(u, n, e);
    }
  }

  /** When every clip in the data is the same clip `u`, the mean is `u`. */
  lemma MeanOfIdenticalClips<X>(videos: seq<seq<X>>, net: X -> seq<real>, u: seq<real>, n: nat)
    requires 0 < |u| && WellShaped(videos, net, |u|)
    requires 0 < n && Stream(videos, net) == Repeat(u, n)
    ensures 0 < VideosClips(videos, net, |u|) && MeanClip(videos, net, |u|) == u
  {
    SumOfIdenticalClips(videos, net, u, n);
    var m := MeanClip(videos, net, |u|);
    forall e | 0 <= e < |u| ensures m[e] == u[e] {
      DivideBack(VideosSum(videos, net, |u|, e), n as real, u[e]);
    }
  }

  // ---------------------------------------------------------------------
  // The imperative routine
  // ---------------------------------------------------------------------

  /** `c += torch.sum(z.view(-1, P, D), dim=0)`: add every clip of `z` into `c`. */
  method AddBatch(c: array<real>, z: seq<real>)
    requires 0 < c.Length && |z| % c.Length == 0
    modifies c
    ensures forall e :: 0 <= e < c.Length ==> c[e] == old(c[e]) + ColumnSum(z, c.Length, e)
  {
    var k := c.Length;
    var base := 0;
    while base + k <= |z|
      invariant 0 <= base <= |z|
      invariant forall e :: 0 <= e < k ==>
                  c[e] + ColumnSum(z[base..], k, e) == old(c[e]) + ColumnSum(z, k, e)
      decreases |z| - base
    {
      ghost var before := c[..];
      for e := 0 to k
        invariant forall j :: 0 <= j < e ==> c[j] == before[j] + z[base + j]
        invariant forall j :: e <= j < k ==> c[j] == before[j]
      {
        c[e] := c[e] + z[base + e];
      }
      assert z[base..][k..] == z[base + k..];
      base := base + k;
    }
  }

  /** `c /= n_samples`. */
  method DivideAll(c: array<real>, n: nat)
    requires 0 < n
    modifies c
    ensures forall e :: 0 <= e < c.Length ==> c[e] == old(c[e]) / n as real
  {
    for e := 0 to c.Length
      invariant forall j :: 0 <= j < e ==> c[j] == old(c[j]) / n as real
      invariant forall j :: e <= j < c.Length ==> c[j] == old(c[j])
    {
      c[e] := c[e] / n as real;
    }
  }

  /** The two masked assignments, one pass each, in the program's order. */
  method ClampInPlace(c: array<real>, eps: real)
    modifies c
    ensures c[..] == ClampAll(old(c[..]), eps)
  {
    for i := 0 to c.Length
      invariant forall j :: 0 <= j < i ==> c[j] == NegMask(old(c[j]), eps)
      invariant forall j :: i <= j < c.Length ==> c[j] == old(c[j])
    {
      if Abs(c[i]) < eps && c[i] < 0.0 {
        c[i] := -eps;
      }
    }
    for i := 0 to c.Length
      invariant forall j :: 0 <= j < i ==> c[j] == PosMask(NegMask(old(c[j]), eps), eps)
      invariant forall j :: i <= j < c.Length ==> c[j] == NegMask(old(c[j]), eps)
    {
      if Abs(c[i]) < eps && c[i] > 0.0 {
        c[i] := eps;
      }
    }
  }

  /**
    The nested loop of `init_center_c`: walk the videos and their batches
    in order, add each batch's clip count to the counter and its clips into
    the accumulator `c`.  A batch whose output is not a whole number of
    clips stops the walk (`ok` false), as the failing reshape does.
   */
  method Accumulate<X>(videos: seq<seq<X>>, net: X -> seq<real>, c: array<real>)
    returns (ok: bool, nSamples: nat)
    requires 0 < c.Length
    modifies c
    ensures ok == WellShaped(videos, net, c.Length)
    ensures ok ==> nSamples == VideosClips(videos, net, c.Length)
    ensures ok ==> forall e :: 0 <= e < c.Length ==> c[e] == old(c[e]) + VideosSum(videos, net, c.Length, e)
  {
    var k := c.Length;
    nSamples := 0;
    for v := 0 to |videos|
      invariant WellShaped(videos[..v], net, k)
      invariant nSamples == VideosClips(videos[..v], net, k)
      invariant forall e :: 0 <= e < k ==> c[e] == old(c[e]) + VideosSum(videos[..v], net, k, e)
    {
      var batches := videos[v];
      for b := 0 to |batches|
        invariant BatchesShaped(batches[..b], net, k)
        invariant nSamples == VideosClips(videos[..v], net, k) + BatchesClips(batches[..b], net, k)
        invariant forall e :: 0 <= e < k ==>
                    c[e] == old(c[e]) + VideosSum(videos[..v], net, k, e) + BatchesSum(batches[..b], net, k, e)
      {
        var z := net(batches[b]);
        if |z| % k != 0 {
          assert !BatchesShaped(videos[v], net, k);
          return false, nSamples;
        }
        nSamples := nSamples + |z| / k;
        AddBatch(c, z);
        assert batches[..b + 1][..b] == batches[..b];
      }
      assert batches[..|batches|] == batches;
      assert videos[..v + 1][..v] == videos[..v];
      assert WellShaped(videos[..v + 1], net, k) by {
        forall w | 0 <= w < v + 1 ensures BatchesShaped(videos[w], net, k) {
          if w < v {
            assert videos[w] == videos[..v][w];
          }
        }
      }
    }
    assert videos[..|videos|] == videos;
    ok := true;
  }

  /**
    `init_center_c`: accumulate from a zero [P, D] tensor, divide by the
    clip count and clamp.  A batch of the wrong shape ends in
    ShapeMismatch; a walk that sees no clip ends in NoSamples.
   */
  method InitCenterC<X>(videos: seq<seq<X>>, net: X -> seq<real>, patches: nat, features: nat, eps: real)
    returns (r: Result<seq<real>, InitError>)
    requires 0 < patches && 0 < features
    ensures r == Err(ShapeMismatch) <==> !WellShaped(videos, net, patches * features)
    ensures r == Err(NoSamples) <==>
              WellShaped(videos, net, patches * features) && VideosClips(videos, net, patches * features) == 0
    ensures r.Ok? ==> 0 < VideosClips(videos, net, patches * features) &&
                      r.value == Center(videos, net, patches * features, eps)
  {
    var k := patches * features;
    var c := new real[k](_ => 0.0);
    var ok, nSamples := Accumulate(videos, net, c);
    if !ok {
      return Err(ShapeMismatch);
    }
    if nSamples == 0 {
      return Err(NoSamples);
    }
    DivideAll(c, nSamples);
    assert c[..] == MeanClip(videos, net, k);
    ClampInPlace(c, eps);
    r := Ok(c[..]);
  }
}
