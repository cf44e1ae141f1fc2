/**
 * Which bin of the polyphase filter bank carries which channel: up to four
 * channels on the real side from bin 0 up, the rest from the top bin down.
 * The transmitter spreads its channels over the bins, the receiver collects
 * them again.
 */
module PfbBins {
  import opened Constants

  datatype Complex = Complex(re: real, im: real)

  const ZERO := Complex(0.0, 0.0)

  /** The configurations that start: 1 to 7 channels, fewer than the 4 to 40 bins. */
  predicate Startable(active: nat, pfb: nat) {
    1 <= active <= MAX_MMDVM_CHANNELS && 3 < pfb <= MAX_PFB_CHANNELS && active < pfb
  }

  function Min(a: int, b: int): int { if a < b then a else b }

  function FillReal(active: nat, pfb: nat): nat
    requires pfb > 1
  {
    Min(Min(pfb / 2 - 1, 4), active)
  }

  function Bin(active: nat, pfb: nat, p: nat): int
    requires pfb > 1
  {
    var fill := FillReal(active, pfb);
    if p < fill then p else pfb - 1 - (p - fill)
  }

  /**
   * The map itself: channels 0 to 3 that lie below the last bin of the real
   * side keep their number, the rest go down from the top bin without a gap.
   */
  lemma BinMap(active: nat, pfb: nat, p: nat)
    requires Startable(active, pfb) && p < active
    ensures p < 4 && p + 1 < pfb / 2 ==> Bin(active, pfb, p) == p
    ensures !(p < 4 && p + 1 < pfb / 2) ==>
              && p > 0
              && Bin(active, pfb, p) ==
                 if p - 1 < 4 && p < pfb / 2 then pfb - 1 else Bin(active, pfb, p - 1) - 1
  {
  }

  /** The channel a bin carries, or `active` for an unused bin. */
  function ChannelOf(active: nat, pfb: nat, b: nat): nat
    requires Startable(active, pfb) && b < pfb
  {
    var fill := FillReal(active, pfb);
    if b < fill then b else if fill + (pfb - 1 - b) < active then fill + (pfb - 1 - b) else active
  }

  /** Bins are in range, no two channels share one, and each bin knows its channel. */
  lemma BinsAreInjective(active: nat, pfb: nat, p: nat, q: nat)
    requires Startable(active, pfb) && p < active && q < active
    ensures 0 <= Bin(active, pfb, p) < pfb
    ensures Bin(active, pfb, p) == Bin(active, pfb, q) <==> p == q
    ensures ChannelOf(active, pfb, Bin(active, pfb, p)) == p
  {
    assert FillReal(active, pfb) <= pfb / 2 - 1;
  }

  lemma UsedBins(active: nat, pfb: nat, b: nat)
    requires Startable(active, pfb) && b < pfb
    ensures ChannelOf(active, pfb, b) <= active
    ensures ChannelOf(active, pfb, b) < active ==> Bin(active, pfb, ChannelOf(active, pfb, b)) == b
  {
  }

  /** The middle bin, which wraps between the two sides, is used exactly when only one bin is left over. */
  lemma MiddleBinIff(active: nat, pfb: nat)
    requires Startable(active, pfb)
    ensures (exists p :: 0 <= p < active && Bin(active, pfb, p) == pfb / 2) <==> active == pfb - 1
  {
    if active == pfb - 1 {
      assert Bin(active, pfb, ChannelOf(active, pfb, pfb / 2)) == pfb / 2;
    }
  }

  /** From ten bins up, the sample rates in use, it never is. */
  lemma MiddleBinFree(active: nat, pfb: nat, p: nat)
    requires Startable(active, pfb) && pfb >= 10 && p < active
    ensures Bin(active, pfb, p) != pfb / 2
  {
    MiddleBinIff(active, pfb);
  }

  function Scale(x: Complex, dacScaling: real, active: nat): Complex
    requires active > 0
  {
    Complex(x.re * dacScaling / active as real, x.im * dacScaling / active as real)
  }

  /** A channel's share of the DAC: as many of them as there are active channels make up the whole scaling. */
  lemma ScaleShares(x: Complex, dacScaling: real, active: nat)
    requires active > 0
    ensures Scale(x, dacScaling, active).re * active as real == x.re * dacScaling
    ensures Scale(x, dacScaling, active).im * active as real == x.im * dacScaling
  {
  }

  /** What the synthesiser should be given for sample i: each channel in its bin and zero in the unused ones. */
  function Column(active: nat, pfb: nat, samples: seq<seq<Complex>>, dacScaling: real, i: nat): (c: seq<Complex>)
    requires Startable(active, pfb) && |samples| == active
    requires forall p :: 0 <= p < active ==> i < |samples[p]|
    ensures |c| == pfb
  {
    seq(pfb, b requires 0 <= b < pfb =>
      var p := ChannelOf(active, pfb, b);
      if p < active then Scale(samples[p][i], dacScaling, active) else ZERO)
  }

  /** A bin of no channel holds zero. */
  lemma ColumnElsewhere(active: nat, pfb: nat, samples: seq<seq<Complex>>, dacScaling: real, i: nat, b: nat)
    requires Startable(active, pfb) && |samples| == active && b < pfb
    requires forall p :: 0 <= p < active ==> i < |samples[p]|
    requires forall p :: 0 <= p < active ==> Bin(active, pfb, p) != b
    ensures Column(active, pfb, samples, dacScaling, i)[b] == Complex(0.0, 0.0)
  {
    UsedBins(active, pfb, b);
    hide Bin, ChannelOf, Scale;
  }

  /** What the receiver collects for channel p from the bins of one column. */
  function Collected(active: nat, pfb: nat, column: seq<Complex>, p: nat): Complex
    requires Startable(active, pfb) && |column| >= pfb && p < active
  {
    BinsAreInjective(active, pfb, p, p);
    column[Bin(active, pfb, p)]
  }

  /** The round trip: collecting from a spread column gives back every channel's own scaled sample. */
  lemma CollectUndoesSpread(active: nat, pfb: nat, samples: seq<seq<Complex>>, dacScaling: real, i: nat, p: nat)
    requires Startable(active, pfb) && |samples| == active && p < active
    requires forall c :: 0 <= c < active ==> i < |samples[c]|
    ensures Collected(active, pfb, Column(active, pfb, samples, dacScaling, i), p)
         == Scale(samples[p][i], dacScaling, active)
  {
    BinsAreInjective(active, pfb, p, p);
  }

  /** The bins hold channels 0 to n - 1 of sample i, and zero where no channel ever goes. */
  ghost predicate SpreadUpTo(active: nat, pfb: nat, samples: seq<seq<Complex>>, dacScaling: real, i: nat, n: nat,
                             bins: seq<Complex>)
    requires Startable(active, pfb) && |samples| == active && n <= active
    requires forall p :: 0 <= p < active ==> i < |samples[p]|
  {
    && |bins| >= pfb
    && forall b :: 0 <= b < pfb ==>
         var p := ChannelOf(active, pfb, b);
         && (p == active ==> bins[b] == ZERO)
         && (p < n ==> bins[b] == Scale(samples[p][i], dacScaling, active))
  }

  /** One pass over the channels for one sample, into the bins left by the sample before. */
  method SpreadSample(active: nat, pfb: nat, samples: seq<seq<Complex>>, dacScaling: real, i: nat,
                      channels: array<Complex>)
    requires Startable(active, pfb) && |samples| == active && channels.Length == MAX_PFB_CHANNELS
    requires forall p :: 0 <= p < active ==> i < |samples[p]|
    requires SpreadUpTo(active, pfb, samples, dacScaling, i, 0, channels[..])
    modifies channels
    ensures channels[..pfb] == Column(active, pfb, samples, dacScaling, i)
  {
    var fillReal := FillReal(active, pfb);
    for k := 0 to fillReal
      invariant SpreadUpTo(active, pfb, samples, dacScaling, i, k, channels[..])
    {
      channels[k] := Scale(samples[k][i], dacScaling, active);
    }
    var m, p := pfb - 1, fillReal;
    while p < active
      invariant fillReal <= p <= active && m == pfb - 1 - (p - fillReal) && m >= 0
      invariant SpreadUpTo(active, pfb, samples, dacScaling, i, p, channels[..])
    {
      channels[m] := Scale(samples[p][i], dacScaling, active);
      m, p := m - 1, p + 1;
    }
    assert channels[..pfb] == Column(active, pfb, samples, dacScaling, i);
  }

  /** All samples of a slot, through one array of bins that is never cleared. */
  method SpreadSlot(active: nat, pfb: nat, samples: seq<seq<Complex>>, dacScaling: real)
    returns (columns: seq<seq<Complex>>)
    requires Startable(active, pfb) && |samples| == active
    requires forall p :: 0 <= p < active ==> |samples[p]| == TX_INTERP_OUT_SIZE
    ensures |columns| == TX_INTERP_OUT_SIZE
    ensures forall i :: 0 <= i < TX_INTERP_OUT_SIZE ==> columns[i] == Column(active, pfb, samples, dacScaling, i)
  {
    var channels := new Complex[MAX_PFB_CHANNELS](_ => ZERO);
    columns := [];
    for i := 0 to TX_INTERP_OUT_SIZE
      invariant |columns| == i
      invariant forall b :: 0 <= b < pfb && ChannelOf(active, pfb, b) == active ==> channels[b] == ZERO
      invariant forall j :: 0 <= j < i ==> columns[j] == Column(active, pfb, samples, dacScaling, j)
    {
      SpreadSample(active, pfb, samples, dacScaling, i, channels);
      assert forall b :: 0 <= b < pfb ==> channels[..pfb][b] == channels[b];
      columns := columns + [channels[..pfb]];
    }
  }

  /** The receiver's transpose and rearrangement: row p of the result is channel p's bin over the whole block. */
  method Rearrange(active: nat, pfb: nat, channelized1: array2<Complex>) returns (rearranged: array2<Complex>)
    requires Startable(active, pfb)
    requires channelized1.Length0 == RX_INTERP_IN_SIZE && channelized1.Length1 == MAX_PFB_CHANNELS
    ensures rearranged.Length0 == MAX_PFB_CHANNELS && rearranged.Length1 == RX_INTERP_IN_SIZE
    ensures forall p, j :: 0 <= p < active && 0 <= j < RX_INTERP_IN_SIZE ==>
              0 <= Bin(active, pfb, p) < pfb && rearranged[p, j] == channelized1[j, Bin(active, pfb, p)]
  {
    var channelized2 := new Complex[MAX_PFB_CHANNELS, RX_INTERP_IN_SIZE]((_, _) => ZERO);
    rearranged := new Complex[MAX_PFB_CHANNELS, RX_INTERP_IN_SIZE]((_, _) => ZERO);
    for i := 0 to pfb
      invariant forall b, j :: 0 <= b < i && 0 <= j < RX_INTERP_IN_SIZE ==> channelized2[b, j] == channelized1[j, b]
    {
      for j := 0 to RX_INTERP_IN_SIZE
        invariant forall b, h :: 0 <= b < i && 0 <= h < RX_INTERP_IN_SIZE ==>
                    channelized2[b, h] == channelized1[h, b]
        invariant forall h :: 0 <= h < j ==> channelized2[i, h] == channelized1[h, i]
      {
        channelized2[i, j] := channelized1[j, i];
      }
    }
    var fillReal := FillReal(active, pfb);
    for k := 0 to fillReal
      invariant forall p, j :: 0 <= p < k && 0 <= j < RX_INTERP_IN_SIZE ==> rearranged[p, j] == channelized2[p, j]
      modifies rearranged
    {
      CopyRow(channelized2, k, rearranged, k);
    }
    var m, p := pfb - 1, fillReal;
    while p < active
      invariant fillReal <= p <= active && m == pfb - 1 - (p - fillReal) && m >= 0
      invariant forall q, j :: 0 <= q < p && 0 <= j < RX_INTERP_IN_SIZE ==>
                  rearranged[q, j] == channelized2[Bin(active, pfb, q), j]
      modifies rearranged
    {
      CopyRow(channelized2, m, rearranged, p);
      m, p := m - 1, p + 1;
    }
    forall q | 0 <= q < active
      ensures 0 <= Bin(active, pfb, q) < pfb
    {
      BinsAreInjective(active, pfb, q, q);
    }
  }

  method CopyRow(from: array2<Complex>, m: nat, to: array2<Complex>, p: nat)
    requires from != to && from.Length1 == to.Length1 == RX_INTERP_IN_SIZE && m < from.Length0 && p < to.Length0
    modifies to
    ensures forall q, j :: 0 <= q < to.Length0 && 0 <= j < RX_INTERP_IN_SIZE ==>
              to[q, j] == if q == p then from[m, j] else old(to[q, j])
  {
    for j := 0 to RX_INTERP_IN_SIZE
      invariant forall q, h :: 0 <= q < to.Length0 && 0 <= h < RX_INTERP_IN_SIZE ==>
                  to[q, h] == if q == p && h < j then from[m, h] else old(to[q, h])
    {
      to[p, j] := from[m, j];
    }
  }
}
