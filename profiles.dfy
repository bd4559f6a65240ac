/**
 * The two EnCodec variants the encoder preloads, how the model selection
 * string picks one (gui.py:178), and the sample rate an input is transcoded
 * to (gui.py:168).
 */
module Profiles {

  datatype Variant = Khz24 | Khz48

  /** The radio-button value that selects the 48 kHz model. */
  const Choice48: string := "48kHz"

  /** `models[48] if selected_model.get() == "48kHz" else models[24]`: any other text picks 24 kHz. */
  function SelectVariant(choice: string): Variant {
    if choice == Choice48 then Khz48 else Khz24
  }

  /** The native sample rate of each variant, `model.sample_rate`. */
  function SampleRate(v: Variant): (rate: nat)
    ensures rate == 24000 || rate == 48000
  {
    match v
    case Khz24 => 24000
    case Khz48 => 48000
  }

  /** The channel count of each variant, `model.channels`: mono at 24 kHz, stereo at 48 kHz. */
  function Channels(v: Variant): (count: nat)
    ensures count == 1 || count == 2
  {
    match v
    case Khz24 => 1
    case Khz48 => 2
  }

  /** The `-ar` argument passed to ffmpeg when the input is transcoded. */
  function TranscodeRate(choice: string): nat {
    if choice == Choice48 then 48000 else 24000
  }

  /**
   * The transcoder resamples to exactly the rate of the model the worker then
   * selects, and the 48 kHz model is used precisely for the "48kHz" choice.
   */
  lemma TranscodeRateIsModelRate(choice: string)
    ensures TranscodeRate(choice) == SampleRate(SelectVariant(choice))
    ensures SelectVariant(choice) == Khz48 <==> choice == Choice48
    ensures TranscodeRate(choice) == 48000 <==> choice == Choice48
  {
  }
}
