/**
 * What processSamples makes of the slots taken from the buffers: FM
 * modulation, silence for idle channels, upsampling, and the spread over the
 * filter bank's bins. The modulator and the filters are kernels with state.
 */
module TransmitPath {
  import opened Constants
  import opened PfbBins
  import opened Resampling

  type Modulator<!M> = (M, seq<real>) -> (M, seq<Complex>)

  ghost predicate Modulates<M(!new)>(modulate: Modulator<M>) {
    forall m: M, slot: seq<real> :: |slot| == SAMPLES_PER_SLOT ==> |modulate(m, slot).1| == SAMPLES_PER_SLOT
  }

  class TransmitPath<M(!new), F(!new)> {
    const active: nat
    const pfb: nat
    const dacScaling: real
    const modulate: Modulator<M>
    const modulators: array<M>
    const resampler: Resampler<F, Complex>

    ghost predicate Valid()
      reads this, resampler
    {
      && Startable(active, pfb) && resampler.Valid() && Modulates(modulate)
      && resampler.interp == INTERPOLATION && resampler.decim == DECIMATION && resampler.activeChannels == active
      && Turns(resampler.upKernel, DECIMATION, INTERPOLATION)
      && modulators.Length == active && {modulators as object} !! {resampler.upsampler as object}
    }

    constructor (active: nat, pfb: nat, dacScaling: real, modulate: Modulator<M>, start: M,
                 resampler: Resampler<F, Complex>)
      requires Startable(active, pfb) && resampler.Valid() && Modulates(modulate)
      requires resampler.interp == INTERPOLATION && resampler.decim == DECIMATION && resampler.activeChannels == active
      requires Turns(resampler.upKernel, DECIMATION, INTERPOLATION)
      ensures Valid() && fresh(modulators) && this.resampler == resampler
      ensures this.active == active && this.pfb == pfb && this.dacScaling == dacScaling && this.modulate == modulate
    {
      this.active, this.pfb, this.dacScaling, this.modulate := active, pfb, dacScaling, modulate;
      this.resampler := resampler;
      modulators := new M[active](_ => start);
    }

    /** One channel: its slot modulated, zeroed if the channel is idle, and upsampled. */
    method ProcessChannel(i: nat, slot: seq<real>, idle: bool)
      returns (samples: seq<Complex>, ghost baseband: seq<Complex>)
      requires Valid() && i < active && |slot| == SAMPLES_PER_SLOT
      modifies modulators, resampler.upsampler
      ensures |baseband| == SAMPLES_PER_SLOT
      ensures !idle ==> baseband == modulate(old(modulators[i]), slot).1
      ensures idle ==> forall k :: 0 <= k < SAMPLES_PER_SLOT ==> baseband[k] == Complex(0.0, 0.0)
      ensures Run(resampler.upsampler[i], samples)
           == Blocks(resampler.upKernel, old(resampler.upsampler[i]), baseband,
                     DECIMATION, SAMPLES_PER_SLOT / DECIMATION)
      ensures |samples| == TX_INTERP_OUT_SIZE
      ensures modulators[..] == old(modulators[..])[i := modulate(old(modulators[i]), slot).0]
      ensures resampler.upsampler[..] == old(resampler.upsampler[..])[i := resampler.upsampler[i]]
    {
      ghost var f := resampler.upsampler[i];
      var (phase, modulated) := modulate(modulators[i], slot);
      modulators[i] := phase;
      var freqModulated := new Complex[SAMPLES_PER_SLOT](k requires 0 <= k < SAMPLES_PER_SLOT => modulated[k]);
      if idle {
        for j := 0 to SAMPLES_PER_SLOT
          invariant forall k :: 0 <= k < j ==> freqModulated[k] == Complex(0.0, 0.0)
          modifies freqModulated
        {
          freqModulated[j] := ZERO;
        }
      }
      baseband := freqModulated[..];
      var resampled := new Complex[TX_INTERP_OUT_SIZE](_ => ZERO);
      BlocksLength(resampler.upKernel, f, baseband, DECIMATION, INTERPOLATION, SAMPLES_PER_SLOT / DECIMATION);
      resampler.Upsample(i, freqModulated, SAMPLES_PER_SLOT, resampled);
      samples := resampled[..];
      assert resampled[..SAMPLES_PER_SLOT / DECIMATION * INTERPOLATION] == samples;
    }

    /**
     * Every channel's slot, then every column: each channel's upsampled stream
     * in its own bin. A live channel's stream is its modulated slot, an idle
     * one's 720 zeros; the modulator steps over the slot either way.
     */
    method ProcessSamples(slots: seq<seq<real>>, idle: seq<bool>)
      returns (columns: seq<seq<Complex>>, ghost streams: seq<seq<Complex>>)
      requires Valid() && |slots| == |idle| == active
      requires forall c :: 0 <= c < active ==> |slots[c]| == SAMPLES_PER_SLOT
      modifies modulators, resampler.upsampler
      ensures |streams| == active && |columns| == TX_INTERP_OUT_SIZE
      ensures forall c :: 0 <= c < active ==>
                |streams[c]| == TX_INTERP_OUT_SIZE && modulators[c] == modulate(old(modulators[c]), slots[c]).0
      ensures forall c :: 0 <= c < active && !idle[c] ==>
                Run(resampler.upsampler[c], streams[c])
                == Blocks(resampler.upKernel, old(resampler.upsampler[c]), modulate(old(modulators[c]), slots[c]).1,
                          DECIMATION, SAMPLES_PER_SLOT / DECIMATION)
      ensures forall c, silence: seq<Complex> ::
                0 <= c < active && idle[c] && |silence| == SAMPLES_PER_SLOT
                && (forall k :: 0 <= k < SAMPLES_PER_SLOT ==> silence[k] == Complex(0.0, 0.0)) ==>
                Run(resampler.upsampler[c], streams[c])
                == Blocks(resampler.upKernel, old(resampler.upsampler[c]), silence,
                          DECIMATION, SAMPLES_PER_SLOT / DECIMATION)
      ensures forall i :: 0 <= i < TX_INTERP_OUT_SIZE ==> columns[i] == Column(active, pfb, streams, dacScaling, i)
    {
      var channelizerSamples: seq<seq<Complex>> := [];
      ghost var basebands: seq<seq<Complex>> := [];
      for i := 0 to active
        invariant |channelizerSamples| == |basebands| == i
        invariant forall c :: 0 <= c < i ==>
                    && |channelizerSamples[c]| == TX_INTERP_OUT_SIZE && |basebands[c]| == SAMPLES_PER_SLOT
                    && Run(resampler.upsampler[c], channelizerSamples[c])
                    == Blocks(resampler.upKernel, old(resampler.upsampler[c]), basebands[c],
                              DECIMATION, SAMPLES_PER_SLOT / DECIMATION)
                    && modulators[c] == modulate(old(modulators[c]), slots[c]).0
        invariant forall c :: 0 <= c < i && !idle[c] ==> basebands[c] == modulate(old(modulators[c]), slots[c]).1
        invariant forall c, k :: 0 <= c < i && idle[c] && 0 <= k < SAMPLES_PER_SLOT ==>
                    basebands[c][k] == Complex(0.0, 0.0)
        invariant forall c :: i <= c < active ==>
                    modulators[c] == old(modulators[c]) && resampler.upsampler[c] == old(resampler.upsampler[c])
      {
        var samples;
        ghost var baseband;
        samples, baseband := ProcessChannel(i, slots[i], idle[i]);
        channelizerSamples := channelizerSamples + [samples];
        basebands := basebands + [baseband];
      }
      streams := channelizerSamples;
      columns := SpreadSlot(active, pfb, channelizerSamples, dacScaling);
      forall c, silence: seq<Complex> | 0 <= c < active && idle[c] && |silence| == SAMPLES_PER_SLOT
                                        && forall k :: 0 <= k < SAMPLES_PER_SLOT ==> silence[k] == Complex(0.0, 0.0)
        ensures silence == basebands[c]
      {
      }
    }
  }
}
