/** The RMS level monitor (`run_rms_monitor`): sample batches arrive on the
    monitor's channel; even positions of a batch count as the left channel and
    odd positions as the right; the sums of squares and one shared sample count
    are kept in 64-bit integers, and whenever the count reaches a tenth of a
    second of samples, the mean squares are published and the window restarts.
    The square root taken for display is not part of this model: a level is
    published as the integer mean square it is taken of. */
module RmsMonitor {
  import opened Common

  /** The largest square of a 16-bit sample, (-32768) * (-32768). */
  const MAX_SQUARE: nat := 0x4000_0000
  /** The longest window: u32::MAX / 10. */
  const MAX_WINDOW: nat := 429496729

  /** The accumulator: samples counted (both channels) and the two sums of squares. */
  datatype Window = Window(nsamples: int64, sumL: int64, sumR: int64)

  /** A published reading: the integer mean squares, left and right. */
  datatype Level = Level(meanSquareL: int, meanSquareR: int)

  const EMPTY := Window(0, 0, 0)

  /** Samples per update, a tenth of a second: `sample_rate * channels`,
      a u32 product that wraps, divided by 10. */
  function SamplesPerUpdate(wd: WavData): (spu: nat)
    ensures spu <= MAX_WINDOW
  {
    ((wd.sampleRate * wd.channels) % 0x1_0000_0000) / 10
  }

  lemma SamplesPerUpdateAt44100Stereo()
    ensures SamplesPerUpdate(WavData(F32, 44100, 2)) == 8820
  {
  }

  /** The number of samples between two publications; a window of length 0
      publishes after every sample. */
  function Period(spu: nat): (p: nat)
    ensures p >= 1 && (spu >= 1 ==> p == spu)
  {
    if spu == 0 then 1 else spu
  }

  /** What holds of the accumulator between two samples: fewer samples than a
      period, non-negative sums, and sums no larger than the count of samples
      times the largest square (so the 64-bit sums never overflow). */
  ghost predicate WindowInv(w: Window, spu: nat) {
    && 0 <= w.nsamples < Period(spu)
    && 0 <= w.sumL && 0 <= w.sumR
    && w.sumL + w.sumR <= w.nsamples * MAX_SQUARE
  }

  ghost predicate LevelInRange(l: Level) {
    0 <= l.meanSquareL <= MAX_SQUARE && 0 <= l.meanSquareR <= MAX_SQUARE
  }

  /** Multiplying by a positive factor keeps the order. */
  lemma MulMonotone(a: int, b: int, n: int)
    requires n > 0 && a <= b
    ensures a * n <= b * n
  {
  }

  lemma SquareBound(s: int16)
    ensures 0 <= s as int * s as int <= MAX_SQUARE
  {
    var a: int := if s < 0 then -(s as int) else s as int;
    assert a * a == s as int * s as int;
    if a > 0 {
      MulMonotone(0, a, a);
      MulMonotone(a, 0x8000, a);
      MulMonotone(a, 0x8000, 0x8000);
    }
  }

  /** The square of a sample, as the 64-bit product the monitor adds up. */
  function Square(s: int16): (sq: nat)
    ensures sq <= MAX_SQUARE
  {
    SquareBound(s);
    s as int * s as int
  }

  lemma Distribute(p: int, a: int, b: int)
    ensures p * (a + b) == p * a + p * b
  {
  }

  /** A mean of values each at most `m` is at most `m`. */
  lemma MeanBound(sum: int, n: int, m: nat)
    requires n > 0 && 0 <= sum <= n * m
    ensures 0 <= sum / n <= m
  {
    var q := sum / n;
    assert q * n <= sum;
    if m + 1 <= q {
      MulMonotone(m + 1, q, n);
      assert false;
    }
  }

  /** One sample at position `n` of its batch. */
  function Accumulate(w: Window, n: nat, sample: int16, spu: nat): (r: (Window, Option<Level>))
    requires spu <= MAX_WINDOW && WindowInv(w, spu)
    ensures WindowInv(r.0, spu)
    ensures r.1.Some? <==> w.nsamples + 1 >= spu
    ensures r.1.Some? ==> r.0 == EMPTY && LevelInRange(r.1.value)
    ensures r.1.None? ==> r.0.nsamples == w.nsamples + 1
  {
    var square := Square(sample);
    var nsamples: int64 := w.nsamples + 1;
    var sumL: int64 := if n % 2 == 0 then w.sumL + square else w.sumL;
    var sumR: int64 := if n % 2 == 0 then w.sumR else w.sumR + square;
    if nsamples >= spu then
      MeanBound(sumL, nsamples, MAX_SQUARE);
      MeanBound(sumR, nsamples, MAX_SQUARE);
      (EMPTY, Some(Level(sumL / nsamples, sumR / nsamples)))
    else
      (Window(nsamples, sumL, sumR), None)
  }

  /** The readings after `level`, if any, is published. */
  function Record(published: seq<Level>, level: Option<Level>): seq<Level> {
    if level.Some? then published + [level.value] else published
  }

  /** The accumulator and the readings published after the first `k` samples
      of `batch`. */
  function Feed(w: Window, batch: seq<int16>, spu: nat, k: nat): (r: (Window, seq<Level>))
    requires k <= |batch| && spu <= MAX_WINDOW && WindowInv(w, spu)
    ensures WindowInv(r.0, spu)
  {
    if k == 0 then (w, [])
    else
      var (before, published) := Feed(w, batch, spu, k - 1);
      var (after, level) := Accumulate(before, k - 1, batch[k - 1], spu);
      (after, Record(published, level))
  }

  ghost predicate AllInRange(levels: seq<Level>) {
    forall i :: 0 <= i < |levels| ==> LevelInRange(levels[i])
  }

  lemma AppendInRange(a: seq<Level>, b: seq<Level>)
    requires AllInRange(a) && AllInRange(b)
    ensures AllInRange(a + b)
  {
    forall i | 0 <= i < |a + b| ensures LevelInRange((a + b)[i]) {
      if i >= |a| {
        assert (a + b)[i] == b[i - |a|];
      }
    }
  }

  /** Every reading published while feeding a batch is in range. */
  lemma {:induction false} FeedInRange(w: Window, batch: seq<int16>, spu: nat, k: nat)
    requires k <= |batch| && spu <= MAX_WINDOW && WindowInv(w, spu)
    ensures AllInRange(Feed(w, batch, spu, k).1)
  {
    if k > 0 {
      FeedInRange(w, batch, spu, k - 1);
      var (before, published) := Feed(w, batch, spu, k - 1);
      var level := Accumulate(before, k - 1, batch[k - 1], spu).1;
      if level.Some? {
        assert AllInRange([level.value]);
        AppendInRange(published, [level.value]);
      }
      FeedStep(w, batch, spu, k);
    }
  }

  /** Every sample fed is accounted for: those in the window plus one period
      per published reading. */
  lemma {:induction false} FeedCounts(w: Window, batch: seq<int16>, spu: nat, k: nat)
    requires k <= |batch| && spu <= MAX_WINDOW && WindowInv(w, spu)
    ensures var r := Feed(w, batch, spu, k);
            r.0.nsamples + Period(spu) * |r.1| == w.nsamples + k
  {
    if k > 0 {
      FeedCounts(w, batch, spu, k - 1);
      var (before, published) := Feed(w, batch, spu, k - 1);
      var (after, level) := Accumulate(before, k - 1, batch[k - 1], spu);
      assert level.Some? ==> before.nsamples + 1 == Period(spu);
      Distribute(Period(spu), |published|, if level.Some? then 1 else 0);
    }
  }

  /** Consumes one batch from the monitor channel. */
  method ConsumeBatch(w: Window, samples: seq<int16>, spu: nat) returns (w': Window, published: seq<Level>)
    requires spu <= MAX_WINDOW && WindowInv(w, spu)
    ensures (w', published) == Feed(w, samples, spu, |samples|)
    ensures WindowInv(w', spu)
    ensures forall i :: 0 <= i < |published| ==> LevelInRange(published[i])
  {
    var nsamples: int64, sumL: int64, sumR: int64 := w.nsamples, w.sumL, w.sumR;
    published := [];
    for n := 0 to |samples|
      invariant Window(nsamples, sumL, sumR) == Feed(w, samples, spu, n).0
      invariant published == Feed(w, samples, spu, n).1
    {
      ghost var step := Accumulate(Window(nsamples, sumL, sumR), n, samples[n], spu);
      ghost var before := published;
      var square := Square(samples[n]);
      nsamples := nsamples + 1;
      if n % 2 == 0 {
        sumL := sumL + square;
      } else {
        sumR := sumR + square;
      }
      if nsamples >= spu {
        published := published + [Level(sumL / nsamples, sumR / nsamples)];
        nsamples, sumL, sumR := 0, 0, 0;
      }
      assert Window(nsamples, sumL, sumR) == step.0 && published == Record(before, step.1);
    }
    w' := Window(nsamples, sumL, sumR);
    FeedInRange(w, samples, spu, |samples|);
  }

  function TotalLength(batches: seq<seq<int16>>): nat {
    if batches == [] then 0 else TotalLength(batches[..|batches| - 1]) + |batches[|batches| - 1]|
  }

  /** The accumulator and the readings after consuming `batches` from a fresh window. */
  function FeedAll(batches: seq<seq<int16>>, spu: nat): (r: (Window, seq<Level>))
    requires spu <= MAX_WINDOW
    ensures WindowInv(r.0, spu)
    ensures forall i :: 0 <= i < |r.1| ==> LevelInRange(r.1[i])
    ensures r.0.nsamples + Period(spu) * |r.1| == TotalLength(batches)
  {
    if batches == [] then (EMPTY, [])
    else
      var last := batches[|batches| - 1];
      var (w, published) := FeedAll(batches[..|batches| - 1], spu);
      var (w', more) := Feed(w, last, spu, |last|);
      FeedCounts(w, last, spu, |last|);
      FeedInRange(w, last, spu, |last|);
      assert |published + more| == |published| + |more|;
      Distribute(Period(spu), |published|, |more|);
      (w', published + more)
  }

  /** The monitor thread, over the batches it receives until its channel closes. */
  method RunRmsMonitor(wd: WavData, batches: seq<seq<int16>>) returns (published: seq<Level>)
    ensures published == FeedAll(batches, SamplesPerUpdate(wd)).1
    ensures forall i :: 0 <= i < |published| ==> LevelInRange(published[i])
  {
    var samplesPerUpdate := SamplesPerUpdate(wd);
    var w := EMPTY;
    published := [];
    for j := 0 to |batches|
      invariant (w, published) == FeedAll(batches[..j], samplesPerUpdate)
    {
      assert batches[..j + 1][..j] == batches[..j];
      var more;
      w, more := ConsumeBatch(w, batches[j], samplesPerUpdate);
      published := published + more;
    }
    assert batches[..|batches|] == batches;
  }

  /** Sum of the squares at the positions below `k` with the given parity. */
  function SquaresAt(batch: seq<int16>, k: nat, parity: nat): int
    requires k <= |batch|
  {
    if k == 0 then 0
    else SquaresAt(batch, k - 1, parity)
         + if (k - 1) % 2 == parity then Square(batch[k - 1]) else 0
  }

  /** Feeding `k` samples is feeding `k - 1` and then accumulating one more. */
  lemma FeedStep(w: Window, batch: seq<int16>, spu: nat, k: nat)
    requires 1 <= k <= |batch| && spu <= MAX_WINDOW && WindowInv(w, spu)
    ensures var (before, published) := Feed(w, batch, spu, k - 1);
            var (after, level) := Accumulate(before, k - 1, batch[k - 1], spu);
            Feed(w, batch, spu, k) == (after, Record(published, level))
  {
  }

  /** A sample that completes the window publishes each channel's sum, this
      sample included, over the count of samples of both channels. */
  lemma AccumulateReading(w: Window, n: nat, sample: int16, spu: nat, left: int, right: int)
    requires spu <= MAX_WINDOW && WindowInv(w, spu) && w.nsamples + 1 == spu
    requires left == w.sumL + if n % 2 == 0 then Square(sample) else 0
    requires right == w.sumR + if n % 2 == 1 then Square(sample) else 0
    ensures Accumulate(w, n, sample, spu).1 == Some(Level(left / spu, right / spu))
  {
  }

  lemma SquaresAtLast(batch: seq<int16>, k: nat, parity: nat)
    requires 1 <= k <= |batch|
    ensures SquaresAt(batch, k, parity) ==
            SquaresAt(batch, k - 1, parity) + if (k - 1) % 2 == parity then Square(batch[k - 1]) else 0
  {
  }

  /** Until a reading is due, the left sum is the sum of squares at even
      positions of the batch and the right sum that at odd positions. */
  lemma {:induction false} SumsByParity(batch: seq<int16>, spu: nat, k: nat)
    requires k <= |batch| && spu <= MAX_WINDOW && k < spu
    ensures var r := Feed(EMPTY, batch, spu, k);
            && r.1 == []
            && r.0.nsamples == k
            && r.0.sumL == SquaresAt(batch, k, 0)
            && r.0.sumR == SquaresAt(batch, k, 1)
  {
    if k > 0 {
      SumsByParity(batch, spu, k - 1);
      FeedCounts(EMPTY, batch, spu, k);
      SquaresAtLast(batch, k, 0);
      SquaresAtLast(batch, k, 1);
    }
  }

  /** The first reading of a batch that fills a window is the mean of the
      squares at even positions and the mean of those at odd positions, both
      taken over the whole window. */
  lemma FirstReading(batch: seq<int16>, spu: nat)
    requires 1 <= spu <= |batch| && spu <= MAX_WINDOW
    ensures Feed(EMPTY, batch, spu, spu).1 ==
            [Level(SquaresAt(batch, spu, 0) / spu, SquaresAt(batch, spu, 1) / spu)]
  {
    SumsByParity(batch, spu, spu - 1);
    ReadingFromParity(batch, spu);
    FeedStep(EMPTY, batch, spu, spu);
  }

  /** The sample that completes a window holding the parity sums of the rest
      publishes the parity sums of the whole window over its length. */
  lemma ReadingFromParity(batch: seq<int16>, spu: nat)
    requires 1 <= spu <= |batch| && spu <= MAX_WINDOW
    requires var r := Feed(EMPTY, batch, spu, spu - 1);
             && r.0.nsamples == spu - 1
             && r.0.sumL == SquaresAt(batch, spu - 1, 0)
             && r.0.sumR == SquaresAt(batch, spu - 1, 1)
    ensures Accumulate(Feed(EMPTY, batch, spu, spu - 1).0, spu - 1, batch[spu - 1], spu).1 ==
            Some(Level(SquaresAt(batch, spu, 0) / spu, SquaresAt(batch, spu, 1) / spu))
  {
    SquaresAtLast(batch, spu, 0);
    SquaresAtLast(batch, spu, 1);
    var before := Feed(EMPTY, batch, spu, spu - 1).0;
    AccumulateReading(before, spu - 1, batch[spu - 1], spu, SquaresAt(batch, spu, 0), SquaresAt(batch, spu, 1));
  }

  /** Integer division is determined by the quotient-remainder decomposition. */
  lemma DivUnique(x: int, d: int, q: int, r: int)
    requires d > 0 && x == d * q + r && 0 <= r < d
    ensures x / d == q
  {
    var q', r' := x / d, x % d;
    assert d * q' + r' == x;
    if q' < q {
      MulMonotone(q' + 1, q, d);
      assert false;
    } else if q < q' {
      MulMonotone(q + 1, q', d);
      assert false;
    }
  }

  lemma HalfOfMultiple(m: int, x: nat)
    requires m > 0
    ensures (m * x) / (2 * m) == x / 2
  {
    var q, r := x / 2, x % 2;
    assert m * x == (2 * m) * q + m * r;
    DivUnique(m * x, 2 * m, q, m * r);
  }

  function Constant(a: int16, n: nat): (s: seq<int16>)
    ensures |s| == n && forall i :: 0 <= i < n ==> s[i] == a
  {
    seq(n, _ => a)
  }

  /** `j` times `x`, as repeated addition. */
  function Times(j: nat, x: int): int {
    if j == 0 then 0 else Times(j - 1, x) + x
  }

  lemma {:induction false} TimesIsProduct(j: nat, x: int)
    ensures Times(j, x) == j * x
  {
    if j > 0 {
      TimesIsProduct(j - 1, x);
      Distribute(x, j - 1, 1);
    }
  }

  /** In `2 * j` samples of constant amplitude, each parity holds `j` squares. */
  lemma {:induction false} ConstantSquares(a: int16, n: nat, j: nat)
    requires 2 * j <= n
    ensures SquaresAt(Constant(a, n), 2 * j, 0) == Times(j, Square(a))
    ensures SquaresAt(Constant(a, n), 2 * j, 1) == Times(j, Square(a))
  {
    if j > 0 {
      ConstantSquares(a, n, j - 1);
      var c := Constant(a, n);
      SquaresAtLast(c, 2 * j, 0);
      SquaresAtLast(c, 2 * j, 1);
      SquaresAtLast(c, 2 * j - 1, 0);
      SquaresAtLast(c, 2 * j - 1, 1);
      assert (2 * j - 1) % 2 == 1 && (2 * j - 2) % 2 == 0;
    }
  }

  /** A window of constant amplitude `a` on both channels publishes a mean
      square of a*a/2, not a*a: the sum of one channel is divided by the count
      of samples of both. */
  lemma ConstantAmplitudeHalvesLevel(a: int16, spu: nat)
    requires 2 <= spu <= MAX_WINDOW && spu % 2 == 0
    ensures Feed(EMPTY, Constant(a, spu), spu, spu).1 == [Level(Square(a) / 2, Square(a) / 2)]
  {
    var m := spu / 2;
    FirstReading(Constant(a, spu), spu);
    ConstantSquares(a, spu, m);
    TimesIsProduct(m, Square(a));
    HalfOfMultiple(m, Square(a));
    assert 2 * m == spu;
  }
}
