/**
 * The blockwise resampler loops over a filter kernel with state. What the
 * kernel computes is left open; that it turns a block of n samples into one
 * of m is all that is asked of it.
 */
module Resampling {
  import opened Constants

  type Kernel<!S, !C> = (S, seq<C>) -> (S, seq<C>)

  ghost predicate Turns<S(!new), C(!new)>(kernel: Kernel<S, C>, n: nat, m: nat) {
    forall s: S, block: seq<C> :: |block| == n ==> |kernel(s, block).1| == m
  }

  datatype Run<S, C> = Run(state: S, out: seq<C>)

  /** The q-th block of n samples, counting from 1. */
  function BlockAt<C>(input: seq<C>, n: nat, q: nat): seq<C>
    requires q > 0 && q * n <= |input|
  {
    BlockFits(q, n);
    input[(q - 1) * n..(q - 1) * n + n]
  }

  /** The first q blocks of n samples, one after the other through the kernel. */
  function Blocks<S, C>(kernel: Kernel<S, C>, s: S, input: seq<C>, n: nat, q: nat): Run<S, C>
    requires q * n <= |input|
  {
    if q == 0 then Run(s, []) else
    BlockFits(q, n);
    var before := Blocks(kernel, s, input, n, q - 1);
    var (state, out) := kernel(before.state, BlockAt(input, n, q));
    Run(state, before.out + out)
  }

  lemma NextBlock<S, C>(kernel: Kernel<S, C>, s: S, input: seq<C>, n: nat, q: nat)
    requires q * n + n <= |input|
    ensures (q + 1) * n == q * n + n
    ensures var before := Blocks(kernel, s, input, n, q);
            var after := kernel(before.state, input[q * n..q * n + n]);
            Blocks(kernel, s, input, n, q + 1) == Run(after.0, before.out + after.1)
  {
    BlockFits(q + 1, n);
  }

  lemma BlockFits(q: nat, n: nat)
    requires q > 0
    ensures (q - 1) * n + n == q * n && (q - 1) * n <= q * n
  {
  }

  lemma {:induction false} BlocksLength<S(!new), C(!new)>(kernel: Kernel<S, C>, s: S, input: seq<C>, n: nat,
                                                            m: nat, q: nat)
    requires q * n <= |input| && Turns(kernel, n, m)
    ensures |Blocks(kernel, s, input, n, q).out| == q * m
  {
    if q == 0 {
    } else {
      BlockFits(q, n);
      BlockFits(q, m);
      BlocksLength(kernel, s, input, n, m, q - 1);
    }
  }

  /** Block i took the filter from its i-th state to the next and came out as the i-th m samples. */
  ghost predicate FilteredAt<S, C>(kernel: Kernel<S, C>, states: seq<S>, input: seq<C>, out: seq<C>,
                                   n: nat, m: nat, i: nat)
    requires i + 1 < |states|
  {
    && i * n + n <= |input| && i * m + m <= |out|
    && kernel(states[i], input[i * n..i * n + n]) == (states[i + 1], out[i * m..i * m + m])
  }

  ghost predicate FilteredUpTo<S, C>(kernel: Kernel<S, C>, states: seq<S>, input: seq<C>, out: seq<C>,
                                     n: nat, m: nat, q: nat)
  {
    |states| == q + 1 && forall i :: 0 <= i < q ==> FilteredAt(kernel, states, input, out, n, m, i)
  }

  /** The filter went from s to t through one state after another, one block at each step. */
  ghost predicate Filtered<S(!new), C>(kernel: Kernel<S, C>, s: S, t: S, input: seq<C>, out: seq<C>,
                                       n: nat, m: nat, q: nat)
  {
    exists states: seq<S> ::
      FilteredUpTo(kernel, states, input, out, n, m, q) && states[0] == s && states[q] == t
  }

  lemma FilteredStays<S, C>(kernel: Kernel<S, C>, states: seq<S>, more: seq<S>, input: seq<C>, out: seq<C>,
                            longer: seq<C>, n: nat, m: nat, i: nat)
    requires i + 1 < |states| && states <= more && out <= longer
    requires FilteredAt(kernel, states, input, out, n, m, i)
    ensures FilteredAt(kernel, more, input, longer, n, m, i)
  {
    var at := i * m;
    assert longer[at..at + m] == out[at..at + m];
  }

  lemma FilteredMore<S(!new), C(!new)>(kernel: Kernel<S, C>, states: seq<S>, input: seq<C>, out: seq<C>,
                                       n: nat, m: nat, q: nat)
    requires FilteredUpTo(kernel, states, input, out, n, m, q) && Turns(kernel, n, m)
    requires q * n + n <= |input| && |out| == q * m
    ensures var (state, chunk) := kernel(states[q], input[q * n..q * n + n]);
            FilteredUpTo(kernel, states + [state], input, out + chunk, n, m, q + 1)
  {
    LastFiltered(kernel, states, input, out, n, m, q);
    hide FilteredAt, Turns;
    var (state, chunk) := kernel(states[q], input[q * n..q * n + n]);
    forall i | 0 <= i < q
      ensures FilteredAt(kernel, states + [state], input, out + chunk, n, m, i)
    {
      FilteredStays(kernel, states, states + [state], input, out, out + chunk, n, m, i);
    }
  }

  lemma LastFiltered<S(!new), C(!new)>(kernel: Kernel<S, C>, states: seq<S>, input: seq<C>, out: seq<C>,
                                       n: nat, m: nat, q: nat)
    requires |states| == q + 1 && Turns(kernel, n, m) && q * n + n <= |input| && |out| == q * m
    ensures var (state, chunk) := kernel(states[q], input[q * n..q * n + n]);
            FilteredAt(kernel, states + [state], input, out + chunk, n, m, q)
  {
    var at, to := q * n, q * m;
    var (state, chunk) := kernel(states[q], input[at..at + n]);
    assert |chunk| == m;
    assert (out + chunk)[to..to + m] == chunk;
  }

  /** Which is what the fold over blocks says, without a fold. */
  lemma {:induction false} BlocksFilter<S(!new), C(!new)>(kernel: Kernel<S, C>, s: S, input: seq<C>, n: nat,
                                                            m: nat, q: nat)
    returns (states: seq<S>)
    requires q * n <= |input| && Turns(kernel, n, m)
    ensures FilteredUpTo(kernel, states, input, Blocks(kernel, s, input, n, q).out, n, m, q)
    ensures states[0] == s && states[q] == Blocks(kernel, s, input, n, q).state
  {
    if q == 0 {
      states := [s];
    } else {
      BlockFits(q, n);
      NextBlock(kernel, s, input, n, q - 1);
      BlocksLength(kernel, s, input, n, m, q - 1);
      hide Blocks, FilteredUpTo, Turns;
      states := BlocksFilter(kernel, s, input, n, m, q - 1);
      var out := Blocks(kernel, s, input, n, q - 1).out;
      UpToLength(kernel, states, input, out, n, m, q - 1);
      FilteredMore(kernel, states, input, out, n, m, q - 1);
      states := states + [Blocks(kernel, s, input, n, q).state];
    }
  }

  lemma UpToLength<S, C>(kernel: Kernel<S, C>, states: seq<S>, input: seq<C>, out: seq<C>, n: nat, m: nat, q: nat)
    requires FilteredUpTo(kernel, states, input, out, n, m, q)
    ensures |states| == q + 1
  {
  }

  lemma BlocksAreFiltered<S(!new), C(!new)>(kernel: Kernel<S, C>, s: S, input: seq<C>, n: nat, m: nat, q: nat)
    requires q * n <= |input| && Turns(kernel, n, m)
    ensures var run := Blocks(kernel, s, input, n, q); Filtered(kernel, s, run.state, input, run.out, n, m, q)
  {
    var states := BlocksFilter(kernel, s, input, n, m, q);
    hide Blocks, Turns, FilteredAt;
  }

  /** Only the blocks consumed matter. */
  lemma {:induction false} BlocksPrefix<S, C>(kernel: Kernel<S, C>, s: S, a: seq<C>, b: seq<C>, n: nat, q: nat)
    requires q * n <= |a|
    ensures q * n <= |a + b| && Blocks(kernel, s, a + b, n, q) == Blocks(kernel, s, a, n, q)
  {
    if q == 0 {
    } else {
      BlockFits(q, n);
      BlocksPrefix(kernel, s, a, b, n, q - 1);
      assert BlockAt(a + b, n, q) == BlockAt(a, n, q);
    }
  }

  lemma BlockOfSecond<C>(a: seq<C>, b: seq<C>, n: nat, p: nat, q: nat)
    requires |a| == p * n && q > 0 && q * n <= |b|
    ensures (p + q) * n <= |a + b| && BlockAt(a + b, n, p + q) == BlockAt(b, n, q)
  {
    Product(p + q, p, q, n);
    Product(p + q - 1, p, q - 1, n);
    BlockFits(q, n);
    BlockFits(p + q, n);
    Shifted(a, b, (q - 1) * n, n);
  }

  lemma Shifted<C>(a: seq<C>, b: seq<C>, at: nat, n: nat)
    requires at + n <= |b|
    ensures (a + b)[|a| + at..|a| + at + n] == b[at..at + n]
  {
  }

  lemma Product(x: nat, p: nat, q: nat, n: nat)
    requires x == p + q
    ensures x * n == p * n + q * n
  {
  }

  /**
   * Streaming: cutting a stream at a block boundary and resampling the parts
   * one after the other gives the output and the filter state of one call.
   */
  lemma {:induction false} Streaming<S, C>(kernel: Kernel<S, C>, s: S, a: seq<C>, b: seq<C>, n: nat, p: nat, q: nat)
    requires |a| == p * n && q * n <= |b|
    ensures (p + q) * n <= |a + b|
    ensures var first := Blocks(kernel, s, a, n, p);
            var second := Blocks(kernel, first.state, b, n, q);
            Blocks(kernel, s, a + b, n, p + q) == Run(second.state, first.out + second.out)
    decreases q
  {
    if q == 0 {
      BlocksPrefix(kernel, s, a, b, n, p);
    } else {
      BlockFits(q, n);
      Streaming(kernel, s, a, b, n, p, q - 1);
      BlockOfSecond(a, b, n, p, q);
      assert p + q - 1 == p + (q - 1);
      hide BlockAt;
    }
  }

  class Resampler<S(!new), C(0, !new)> {
    const decim: nat
    const interp: nat
    const activeChannels: nat

    /** The kernels of the up- and downsampling filters, and each channel's filter state. */
    const upKernel: Kernel<S, C>
    const downKernel: Kernel<S, C>
    const upsampler: array<S>
    const downsampler: array<S>

    ghost predicate Valid()
      reads this
    {
      && decim > 0 && interp > 0 && activeChannels <= MAX_MMDVM_CHANNELS
      && upsampler.Length == downsampler.Length == activeChannels
      && upsampler != downsampler
    }

    constructor (interp: nat, decim: nat, upKernel: Kernel<S, C>, downKernel: Kernel<S, C>, rest: S,
                 activeChannels: nat)
      requires decim > 0 && interp > 0 && activeChannels <= MAX_MMDVM_CHANNELS
      ensures Valid() && fresh(upsampler) && fresh(downsampler)
      ensures this.interp == interp && this.decim == decim && this.activeChannels == activeChannels
      ensures this.upKernel == upKernel && this.downKernel == downKernel
      ensures forall c :: 0 <= c < activeChannels ==> upsampler[c] == rest && downsampler[c] == rest
    {
      this.interp, this.decim, this.activeChannels := interp, decim, activeChannels;
      this.upKernel, this.downKernel := upKernel, downKernel;
      upsampler := new S[activeChannels](_ => rest);
      downsampler := new S[activeChannels](_ => rest);
    }

    /** One block: copied in, run through the filter, copied out. */
    method RunBlock(kernel: Kernel<S, C>, filters: array<S>, channel: nat, n: nat, m: nat,
                    inSamples: array<C>, from: nat, outSamples: array<C>, to: nat, inBuf: array<C>, outBuf: array<C>)
      requires channel < filters.Length && Turns(kernel, n, m) && inBuf.Length == n && outBuf.Length == m
      requires from + n <= inSamples.Length && to + m <= outSamples.Length
      requires inBuf != inSamples && inBuf != outSamples && outBuf != inSamples && outBuf != outSamples
      requires inBuf != outBuf && inSamples != outSamples
      requires {filters as object} !! {inSamples as object, outSamples, inBuf, outBuf}
      modifies filters, outSamples, inBuf, outBuf
      ensures (filters[channel], outSamples[to..to + m])
           == kernel(old(filters[channel]), old(inSamples[from..from + n]))
      ensures outSamples[..to] == old(outSamples[..to]) && outSamples[to + m..] == old(outSamples[to + m..])
      ensures filters[..] == old(filters[..])[channel := filters[channel]]
      ensures inSamples[..] == old(inSamples[..])
    {
      ghost var block := inSamples[from..from + n];
      forall k | 0 <= k < n { inBuf[k] := inSamples[from + k]; }
      assert inBuf[..] == block;
      var (state, out) := kernel(filters[channel], inBuf[..]);
      filters[channel] := state;
      forall k | 0 <= k < m { outBuf[k] := out[k]; }
      forall k | 0 <= k < m { outSamples[to + k] := outBuf[k]; }
      assert outSamples[to..to + m] == out;
    }

    /** The loop over whole blocks of n inputs and m outputs that upsample and downsample share. */
    method RunBlocks(kernel: Kernel<S, C>, filters: array<S>, channel: nat, n: nat, m: nat,
                     inSamples: array<C>, blocks: nat, outSamples: array<C>)
      requires channel < filters.Length && Turns(kernel, n, m)
      requires inSamples != outSamples && {filters as object} !! {inSamples as object, outSamples}
      requires blocks * n <= inSamples.Length && blocks * m <= outSamples.Length
      modifies filters, outSamples
      ensures Run(filters[channel], outSamples[..blocks * m])
           == Blocks(kernel, old(filters[channel]), inSamples[..], n, blocks)
      ensures outSamples[blocks * m..] == old(outSamples[blocks * m..])
      ensures filters[..] == old(filters[..])[channel := filters[channel]]
    {
      ghost var s0, input, output := filters[channel], inSamples[..], outSamples[..];
      assert Blocks(kernel, s0, input, n, 0) == Run(s0, []);
      hide Turns, Blocks;
      var inBuf, outBuf := new C[n], new C[m];
      for i := 0 to blocks
        invariant i * n <= |input| && i * m <= outSamples.Length && inSamples[..] == input
        invariant Run(filters[channel], outSamples[..i * m]) == Blocks(kernel, s0, input, n, i)
        invariant outSamples[i * m..] == output[i * m..]
        invariant filters[..] == old(filters[..])[channel := filters[channel]]
      {
        Room(i, blocks, n, |input|);
        Room(i, blocks, m, outSamples.Length);
        var from, to := i * n, i * m;
        NextBlock(kernel, s0, input, n, i);
        assert inSamples[from..from + n] == input[from..from + n];
        assert outSamples[to + m..] == output[to + m..];
        RunBlock(kernel, filters, channel, n, m, inSamples, from, outSamples, to, inBuf, outBuf);
        assert outSamples[..to + m] == outSamples[..to] + outSamples[to..to + m];
      }
    }

    method Upsample(channel: nat, inSamples: array<C>, numSamples: nat, outSamples: array<C>)
      requires Valid() && channel < activeChannels && Turns(upKernel, decim, interp)
      requires inSamples != outSamples && {upsampler as object} !! {inSamples as object, outSamples}
      requires numSamples <= inSamples.Length && numSamples / decim * interp <= outSamples.Length
      modifies upsampler, outSamples
      ensures numSamples / decim * decim <= numSamples
      ensures Run(upsampler[channel], outSamples[..numSamples / decim * interp])
           == Blocks(upKernel, old(upsampler[channel]), inSamples[..], decim, numSamples / decim)
      ensures outSamples[numSamples / decim * interp..] == old(outSamples[numSamples / decim * interp..])
      ensures upsampler[..] == old(upsampler[..])[channel := upsampler[channel]]
      ensures Filtered(upKernel, old(upsampler[channel]), upsampler[channel], inSamples[..],
                       outSamples[..numSamples / decim * interp], decim, interp, numSamples / decim)
    {
      Fits(numSamples, decim);
      BlocksAreFiltered(upKernel, upsampler[channel], inSamples[..], decim, interp, numSamples / decim);
      hide Filtered;
      RunBlocks(upKernel, upsampler, channel, decim, interp, inSamples, numSamples / decim, outSamples);
    }

    /** Interpolation and decimation change places on the way down. */
    method Downsample(channel: nat, inSamples: array<C>, numSamples: nat, outSamples: array<C>)
      requires Valid() && channel < activeChannels && Turns(downKernel, interp, decim)
      requires inSamples != outSamples && {downsampler as object} !! {inSamples as object, outSamples}
      requires numSamples <= inSamples.Length && numSamples / interp * decim <= outSamples.Length
      modifies downsampler, outSamples
      ensures numSamples / interp * interp <= numSamples
      ensures Run(downsampler[channel], outSamples[..numSamples / interp * decim])
           == Blocks(downKernel, old(downsampler[channel]), inSamples[..], interp, numSamples / interp)
      ensures outSamples[numSamples / interp * decim..] == old(outSamples[numSamples / interp * decim..])
      ensures downsampler[..] == old(downsampler[..])[channel := downsampler[channel]]
      ensures Filtered(downKernel, old(downsampler[channel]), downsampler[channel], inSamples[..],
                       outSamples[..numSamples / interp * decim], interp, decim, numSamples / interp)
    {
      Fits(numSamples, interp);
      BlocksAreFiltered(downKernel, downsampler[channel], inSamples[..], interp, decim, numSamples / interp);
      hide Filtered;
      RunBlocks(downKernel, downsampler, channel, interp, decim, inSamples, numSamples / interp, outSamples);
    }
  }

  lemma Fits(x: nat, n: nat)
    requires n > 0
    ensures x / n * n <= x
  {
  }

  lemma Room(i: nat, blocks: nat, n: nat, size: nat)
    requires i < blocks && blocks * n <= size
    ensures (i + 1) * n == i * n + n <= size
  {
    Product(blocks, i + 1, blocks - i - 1, n);
    Product(i + 1, i, 1, n);
  }

  /** The program's sizes: a slot of 720 samples becomes 750 to transmit, 75 received ones the 72 of a block. */
  lemma SlotSizes<S(!new), C(!new)>(up: Kernel<S, C>, down: Kernel<S, C>, s: S, slot: seq<C>, block: seq<C>)
    requires Turns(up, DECIMATION, INTERPOLATION) && Turns(down, INTERPOLATION, DECIMATION)
    requires |slot| == SAMPLES_PER_SLOT && |block| == RX_INTERP_IN_SIZE
    ensures |Blocks(up, s, slot, DECIMATION, SAMPLES_PER_SLOT / DECIMATION).out| == TX_INTERP_OUT_SIZE
    ensures |Blocks(down, s, block, INTERPOLATION, RX_INTERP_IN_SIZE / INTERPOLATION).out| == RX_SAMP_OUT_SIZE
  {
    BlocksLength(up, s, slot, DECIMATION, INTERPOLATION, SAMPLES_PER_SLOT / DECIMATION);
    BlocksLength(down, s, block, INTERPOLATION, DECIMATION, RX_INTERP_IN_SIZE / INTERPOLATION);
  }
}
