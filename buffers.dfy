/** The audio buffer the program builds from the brightness signal: one
    channel at a fixed sample rate, replaced as a whole on every image load. */
module Buffers {

  /** The sample rate the program plays and exports at, in Hz. */
  const SampleRate: nat := 88200

  /** The program builds mono buffers. */
  const Channels: nat := 1

  datatype AudioBuffer = AudioBuffer(channels: nat, sampleRate: nat, samples: seq<real>)

  /** The buffer built around a freshly transcoded signal. */
  function Build(samples: seq<real>): (b: AudioBuffer)
    ensures b.channels == 1 && b.sampleRate == 88200
    ensures b.samples == samples
  {
    AudioBuffer(Channels, SampleRate, samples)
  }
}
