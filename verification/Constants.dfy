/** The compile-time constants of Constants.h. Times are in nanoseconds. */
module Constants {
  const SLOT_TIME := 30_000_000
  const TIME_PER_SAMPLE := 41_667
  const SAMPLES_PER_SLOT := 720
  const MMDVM_MARK_POSITION := 710

  const MAX_MMDVM_CHANNELS := 7
  const MAX_PFB_CHANNELS := 40
  const PFB_FILTER_DELAY := 48
  const RESAMPLER_FILTER_DELAY := 24
  const TOTAL_FILTER_DELAY := (2 * RESAMPLER_FILTER_DELAY + 2 * PFB_FILTER_DELAY) * TIME_PER_SAMPLE

  const TX_INTERP_OUT_SIZE := 750
  const RX_INTERP_IN_SIZE := 75
  const RX_SAMP_OUT_SIZE := 72

  const INTERPOLATION := 25
  const DECIMATION := 24

  /** The air time of one received block: 75 device columns at 25 kHz. */
  const BLOCK_TIME := 3_000_000

  const MARK_SLOT1 := 0x08
  const MARK_SLOT2 := 0x04
  const MARK_NONE := 0x00
}
