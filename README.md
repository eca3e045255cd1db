# img2audio core, modelled in Dafny

The program reads a PNG image as a waveform. Every RGBA pixel becomes one
bipolar sample: the mean of its colour channels, scaled to [-1, 1]. The
samples form a mono buffer at 88200 Hz. A sink plays the buffer while a red
playhead sweeps across the window. The playhead's rate is derived so that it
reaches the right edge when the buffer ends. Key presses reload the image,
start or stop playback, and cycle the playback speed through 1, 1/2 and 1/4.
Another key exports the buffer as a 16-bit WAV file.

This project models that core with `f32` read as exact `real`:

- `Brightness` (brightness.dfy): the per-pixel formula, the transcoded signal
  as a function, and the push-loop that builds it (`CalculateBrightness`).
  It also proves row-major order for images.
- `Buffers` (buffers.dfy): the audio buffer value, one channel at 88200 Hz.
- `Pcm` (pcm.dfy): Rust's float-to-`i16` cast, which truncates toward zero
  and saturates; the per-sample quantiser; the constant WAV header; and the
  export loop (`SaveToFile`), which yields the header and the sequence of
  16-bit values written.
- `Transport` (transport.dfy): the main loop's mutable state. `Player` is a
  class with one method per per-frame update, and each method is proved equal
  to a pure transition (`Tick`, `Reload`, `Toggle`, `PressSpeed`, `Frame`).
  The properties are proved about those transitions.

Frame time, window width and buffer duration are inputs. Decoded pixels are an
input too. The sink is two fields: whether it holds queued audio, and its speed.

Some facts about the program that shape the model:

- The program has only the bipolar mode; the unipolar formula is commented
  out (src/main.rs:176).
- The speed key steps through three fixed values and leaves any other speed
  alone (src/main.rs:113-122); there is no range to clamp to.
- Export multiplies each sample by 32767 and casts it with `as i16`
  (src/main.rs:199). The cast truncates toward zero and saturates at the
  `i16` bounds; nothing rounds or clamps before it.
- The export header is a constant (src/main.rs:188-193), not read from the
  buffer.
- Export writes whatever the buffer holds, so an empty buffer gives an empty
  file, not an error.

## Model

| member | source | states |
|---|---|---|
| `Brightness.PixelSample` | src/main.rs:172-178 | a pixel's sample is 2(r+g+b)/765 - 1 and lies in [-1, 1] |
| `Brightness.Transcode` | src/main.rs:171-179 | the signal has one sample per pixel, the i-th being the i-th pixel's sample, all in [-1, 1] |
| `Brightness.CalculateBrightness` | src/main.rs:168-185 | the vector built by the push loop is exactly the transcoded signal |
| `Brightness.BlackAndWhite` | src/main.rs:172-178 | black maps to -1 and white to 1, whatever the alpha |
| `Brightness.AlphaIgnored` | src/main.rs:172-178 | changing alpha never changes the sample |
| `Brightness.PixelSampleMonotone` | src/main.rs:172-178 | a channel-wise brighter pixel gives a sample no smaller; equal channel sums give equal samples |
| `Brightness.TranscodeAppend` | src/main.rs:171-179 | the signal of a concatenation is the concatenation of the signals (order preserved) |
| `Brightness.TranscodeSlice` | src/main.rs:171-179 | each slice of the signal is the signal of the same slice of pixels |
| `Brightness.RowIsContiguous` | src/main.rs:31-33 | row y of a row-major image fills samples y*width to (y+1)*width of the signal |
| `Brightness.ImageSignalLength` | src/main.rs:31-33 | an image's signal has exactly width*height samples |
| `Buffers.Build` | src/main.rs:38-39 | the buffer built around a signal is mono at 88200 Hz and holds exactly that signal |
| `Pcm.TruncateTowardZero` | src/main.rs:199 | the float-to-int cast drops the fraction toward zero, on both sides of 0 |
| `Pcm.CastToI16` | src/main.rs:199 | the cast result is an i16; at or above 32767 it is 32767, at or below -32768 it is -32768, in between it is the truncation |
| `Pcm.Quantize` | src/main.rs:199 | a quantised sample is an i16, and lies in [-32767, 32767] for a sample in [-1, 1] |
| `Pcm.QuantizeFixedPoints` | src/main.rs:199 | 0, 1 and -1 quantise to 0, 32767 and -32767 |
| `Pcm.TruncateMonotone` | src/main.rs:199 | truncation toward zero is monotone |
| `Pcm.QuantizeMonotone` | src/main.rs:199 | quantisation is monotone non-decreasing |
| `Pcm.QuantizeOdd` | src/main.rs:199 | inside [-1, 1], negating a sample negates its quantised value |
| `Pcm.QuantizeRoundTrip` | src/main.rs:199 | dividing a quantised sample by 32767 gives back the sample to within 1/32767 |
| `Pcm.QuantizeAll` | src/main.rs:197-200 | one 16-bit value per sample, in sample order |
| `Pcm.ExportSpecMatchesBuffer` | src/main.rs:188-193 | the header's channel count and rate equal the buffer's; its 16-bit signed format has exactly the quantiser's range |
| `Pcm.SaveToFile` | src/main.rs:187-202 | export writes the constant header and then exactly the quantised samples, in buffer order |
| `Pcm.ExportRoundTrip` | src/main.rs:197-200 | for a signal in [-1, 1], every exported value read back is within 1/32767 of its sample |
| `Pcm.ExportExtremes` | src/main.rs:197-200 | exporting [0, 1, -1] writes [0, 32767, -32767] |
| `Pcm.ExportImage` | src/main.rs:168-200 | an exported image has one value per pixel, all in [-32767, 32767]; black pixels export as -32767 and white as 32767 |
| `Transport.Initial` | src/main.rs:32-51 | at start-up: not playing, empty sink at speed 1, playhead at 0, rate times duration equals the window width, buffer is the mono 88200 Hz buffer of the transcoded image |
| `Transport.Increment` | src/main.rs:65 | a frame's playhead step is non-negative when the rate, the sink speed and the frame time are, and zero for a zero-length frame |
| `Transport.Tick` | src/main.rs:64-73 | a tick changes nothing when not playing, never starts playback, and never touches the sink, rate or buffer |
| `Transport.Reload` | src/main.rs:75-99 | a reload leaves the transport stopped, the sink empty and the playhead at 0; it keeps the sink speed, installs the new image's buffer and sets the rate so rate times duration equals the width |
| `Transport.Toggle` | src/main.rs:101-111 | the play key negates the play flag, flips the sink between empty and queued, rewinds the playhead, and changes nothing else |
| `Transport.CycleSpeed` | src/main.rs:113-122 | the step goes 1 to 1/2, 1/2 to 1/4 and 1/4 to 1; the preset set is closed under it, and every other speed stays put |
| `Transport.PressSpeed` | src/main.rs:113-122 | the speed key changes only the sink speed, to the cycled value |
| `Transport.Drain` | src/main.rs:104 | the sink finishing its audio empties it and changes nothing else |
| `Transport.Frame` | src/main.rs:53-150 | one loop pass, with the sink possibly drained before it: the sink is untouched unless it drained, an image loaded or the play key was pressed; a reload without the play key leaves the transport stopped at 0; the play key always leaves the playhead at 0; without the speed key the speed is unchanged |
| `Transport.TickAdvances` | src/main.rs:64-68 | while playing left of the edge, a tick adds one increment, so the playhead never moves back and overshoots the edge by less than one increment |
| `Transport.TickStopsAtEdge` | src/main.rs:69-72 | a tick at or past the edge stops playback and resets the playhead to 0 |
| `Transport.InitialSane` | src/main.rs:44-51 | the start-up state satisfies the frame invariant |
| `Transport.FramePreservesSane` | src/main.rs:64-122 | every frame keeps the speed a preset and the rate non-negative, and keeps the playhead between 0 and less than one maximal increment past the edge |
| `Transport.CycleSpeedPeriod` | src/main.rs:115-121 | three speed presses return to the starting speed; two never do for a preset |
| `Transport.ToggleTwice` | src/main.rs:101-111 | two play presses restore everything but the playhead, which is rewound |
| `Transport.RunAdvancesLinearly` | src/main.rs:64-68 | from 0, n frames of a fixed increment put the playhead at n increments while it stays left of the edge |
| `Transport.PlaybackEnds` | src/main.rs:64-73 | with a positive increment, the first frame reaching the edge lands less than one increment past it, and the next frame stops playback and rewinds |
| `Transport.OneSecondAcrossOneHundredPixels` | src/main.rs:47-73 | a 1 s buffer in a 100 px window: rate 100 px/s, playhead at 50 after 0.5 s and 100 after 1 s, then stopped at 0 |
| `Transport.PlayKeyAtEdgeQueuesAudioWithPlayheadStopped` | src/main.rs:64-111 | a play key pressed in the frame where the playhead reaches the edge and the audio has ended clears the flag and queues the buffer: audio plays while the playhead stays at 0 |
| `Transport.Player.constructor` | src/main.rs:29-51 | the initial fields are the state `Initial` describes |
| `Transport.Player.TickPlayhead` | src/main.rs:64-73 | the in-place tick produces the state `Tick` describes |
| `Transport.Player.ReloadImage` | src/main.rs:75-99 | the in-place reload produces the state `Reload` describes |
| `Transport.Player.TogglePlayback` | src/main.rs:101-111 | the in-place play key produces the state `Toggle` describes |
| `Transport.Player.CycleSinkSpeed` | src/main.rs:113-122 | the in-place speed key produces the state `PressSpeed` describes |
| `Transport.Player.AudioFinished` | src/main.rs:104 | the sink draining in place produces the state `Drain` describes |
| `Transport.Player.RunFrame` | src/main.rs:53-150 | one in-place pass of the main loop produces the state `Frame` describes |

## Left out

- Window set-up, texture drawing, the playhead line, the debug overlay and the
  debug key (src/main.rs:7-15, 59-62, 124-138, 153-166): presentation only.
- File dialogs and PNG decoding (src/main.rs:23-29, 80-89): foreign I/O.
  Decoded pixels are an input.
- The audio output stream and the sink's playback thread: foreign and
  concurrent. The sink is an empty flag plus a speed. When its audio ends is
  not computed: each frame takes a `drained` input saying whether the sink
  finished its queue since the previous frame. Stopping the sink is taken to
  empty it at once.
- How the audio library computes a buffer's duration (nanosecond truncation,
  conversion to `f32`): the duration is an input. It must be positive, which
  holds because PNG images have at least one pixel.
- Transport.Reload, Transport.Player.ReloadImage: require a positive
  duration. The program would divide by zero and get an infinite rate for an
  empty image.
- WAV file creation and the RIFF byte layout (src/main.rs:196): file I/O. The
  model keeps the header fields and the sequence of 16-bit values.
- Single-precision rounding everywhere: in the brightness formula, in
  `sample * 32767`, and in the playhead's accumulated drift. Values are exact
  reals.
- Pcm.CastToI16: NaN inputs, which Rust casts to 0, do not exist among reals.
- The buffer leaked as a static slice, `.await`, the `unwrap` panics and the
  exit key (src/main.rs:146-149, 182): no behaviour to verify.
- The commented-out high-pass filter and unipolar formula (src/main.rs:40,
  176): dead code.
