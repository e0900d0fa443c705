# transform_frame: a verified model

This project models `caspar::core::transform_frame` from
`core/processor/transform_frame.cpp`. A `transform_frame` wraps an immutable
rendered frame (`draw_frame`). It adds two things: a shader transform
(position, uv rectangle, video mode, alpha) and an audio volume applied to a
buffer of 16-bit samples.

The model is in two files:

- `audio_gain.dfy` (module `AudioGain`) holds the per-sample formula of line 48,
  `(short)(((int)s * volume) >> 8)`. `ToShort` models the `short` cast and
  `Shr8` the `>> 8` shift, taken as an arithmetic shift (floor division by 256). `Rescaled` is a
  reference definition of a whole rescaled buffer. `ScaleBlock`/`ScaleBlocks`
  describe the `tbb::parallel_for` body run over sub-ranges.
- `transform_frame.dfy` (module `TransformFrame`) holds the state.
  `Implementation` is the class behind `impl_`. `TransformFrame` is the public
  object, and it owns an `Implementation` through its `impl` field.
  `FrameState` is the value of an `Implementation`'s fields.
  `AfterAudioVolume` is the pure specification that the in-place method
  `Implementation.AudioVolume` is proved against.

Samples are the subset type `Sample` (-32768..32767) and volumes the subset type
`Byte` (0..255), so their ranges are part of the types. Transform doubles are
`real` values that are stored and never computed on. `video_mode::type` is an
opaque identifier.

What the code does, which the model follows:

- Scaling is eager inside `audio_volume` (lines 34-51). `audio_data()` never
  rescales; it only returns the buffer (line 84).
- With an override, no pristine copy is kept. A second volume change rescales
  the already-scaled buffer (lines 40-48; `OverrideCompounds`,
  `CompoundingExample`).
- Without an override, the buffer is empty until the first real volume change
  (lines 20, 22, 41). Setting the volume back to 255 gives the frame's audio
  scaled by 255/256, not the original samples.
- `shader_transform`'s header is not part of this model, so its default values
  are assumed: `DefaultTransform` is position (0,0), uv (0,0,1,1), mode unset,
  alpha 1.

## Model

| member | source | states |
|---|---|---|
| `AudioGain.ToShort` | core/processor/transform_frame.cpp:48 | the `short` cast, taken as two's-complement wrap-around, agrees with its argument modulo 2^16, and is the identity on values already in 16-bit range |
| `AudioGain.Shr8` | core/processor/transform_frame.cpp:48 | `>> 8` gives the floor of x/256: 256·r ≤ x < 256·r + 256 |
| `AudioGain.ScaleSampleBounds` | core/processor/transform_frame.cpp:48 | the `int` product of a sample and a volume cannot overflow 32 bits; the shifted value lies between min(s,0) and max(s,0), so it fits in 16 bits; volume 0 gives 0 |
| `AudioGain.ScaleSample` | core/processor/transform_frame.cpp:48 | one sample after the loop body: the `short` cast loses nothing, so the result is exactly floor(s·v/256), between min(s,0) and max(s,0), and 0 at volume 0 |
| `AudioGain.Rescaled` | core/processor/transform_frame.cpp:42-50 | rescaling a buffer keeps its length |
| `AudioGain.RescaledAt` | core/processor/transform_frame.cpp:47-48 | sample n of the rescaled buffer is the formula applied to input sample n alone |
| `AudioGain.RescaledBounds` | core/processor/transform_frame.cpp:48 | each rescaled sample equals the exact shifted product, lies between 0 and its input, and is 0 at volume 0 |
| `AudioGain.FullVolumeAttenuates` | core/processor/transform_frame.cpp:48 | volume 255 is not unity gain: 32767 becomes 32639 and -32768 becomes -32640 |
| `AudioGain.ShiftRoundsDown` | core/processor/transform_frame.cpp:48 | the shift rounds toward negative infinity: -1 at volume 255 stays -1, and 1 becomes 0 |
| `AudioGain.ScaleBlock` | core/processor/transform_frame.cpp:45-49 | the body over one `blocked_range` rescales exactly the indices inside the range and keeps every other index |
| `AudioGain.ScaleBlocks` | core/processor/transform_frame.cpp:42-50 | running blocks one after another keeps the buffer length |
| `AudioGain.ScaleBlocksAt` | core/processor/transform_frame.cpp:42-50 | after pairwise disjoint blocks in any order, an index covered by a block is rescaled exactly once; an uncovered index is untouched |
| `AudioGain.PartitionIndependence` | core/processor/transform_frame.cpp:42-50 | disjoint blocks that cover the buffer, run in any order, give the same buffer as the sequential loop |
| `TransformFrame.NewState` | core/processor/transform_frame.cpp:20 | a frame-only construction has no override, an empty buffer, volume 255 and the default transform |
| `TransformFrame.NewStateWithAudio` | core/processor/transform_frame.cpp:21 | construction with audio sets the override, and the given audio becomes the buffer, at volume 255 |
| `TransformFrame.Consistent` | core/processor/transform_frame.cpp:20-22 | the reachable-state invariant: without an override, at any volume other than 255, the buffer is the frame's audio rescaled by that volume |
| `TransformFrame.AfterAudioVolume` | core/processor/transform_frame.cpp:34-51 | the volume becomes the new value; the override flag, transform and frame never change; the same volume changes nothing; a real change gives a buffer as long as the override buffer, or as the frame's audio without an override |
| `TransformFrame.NewStatesConsistent` | core/processor/transform_frame.cpp:20-22 | every constructor's state satisfies the invariant `Consistent` |
| `TransformFrame.AfterAudioVolumeConsistent` | core/processor/transform_frame.cpp:34-51 | a volume change keeps `Consistent`: without an override, the buffer is either the empty initial one at volume 255 or the frame's audio rescaled by the current volume |
| `TransformFrame.AfterAudioVolumeAt` | core/processor/transform_frame.cpp:39-48 | after a real change, sample n is floor(old[n]·v/256) with an override and floor(frameAudio[n]·v/256) without one, and in both cases lies between 0 and that source sample |
| `TransformFrame.ReloadIgnoresHistory` | core/processor/transform_frame.cpp:40-41 | without an override, the buffer after a change depends only on the frame's audio and the last volume, not on any earlier one |
| `TransformFrame.OverrideCompounds` | core/processor/transform_frame.cpp:40-48 | with an override, two changes give the buffer rescaled twice, compounding |
| `TransformFrame.CompoundingExample` | core/processor/transform_frame.cpp:40-48 | an override [32767] set to 128 and then to 255 holds [16319], while rescaling the source at 255 would give [32639] |
| `TransformFrame.OverridePrecedence` | core/processor/transform_frame.cpp:40-41 | with an override, the frame's own audio never affects the result of a volume change |
| `TransformFrame.HalfVolumeExample` | core/processor/transform_frame.cpp:39-48 | a frame with samples [100, -100, 32767, -32768] set to volume 128 holds [50, -50, 16383, -16384] |
| `TransformFrame.Implementation.constructor` | core/processor/transform_frame.cpp:20 | builds `NewState(frame)` |
| `TransformFrame.Implementation.WithAudio` | core/processor/transform_frame.cpp:21 | builds `NewStateWithAudio(frame, audio)` |
| `TransformFrame.Implementation.FromMoved` | core/processor/transform_frame.cpp:22 | a moved-in frame gives the same state as the by-reference constructor |
| `TransformFrame.Implementation.Copy` | core/processor/transform_frame.cpp:63 | the member-wise copy has exactly the other's state |
| `TransformFrame.Implementation.AudioVolume` | core/processor/transform_frame.cpp:34-51 | the in-place loop leaves exactly `AfterAudioVolume(old state, volume)` and keeps `Consistent` |
| `TransformFrame.TransformFrame.constructor` | core/processor/transform_frame.cpp:60 | a fresh `impl` holding `NewState(frame)` |
| `TransformFrame.TransformFrame.WithAudio` | core/processor/transform_frame.cpp:61 | a fresh `impl` holding `NewStateWithAudio(frame, audio)` |
| `TransformFrame.TransformFrame.FromMoved` | core/processor/transform_frame.cpp:62 | a fresh `impl` holding `NewState(frame)` |
| `TransformFrame.TransformFrame.Copy` | core/processor/transform_frame.cpp:63 | a fresh `impl` with the other's state |
| `TransformFrame.TransformFrame.Assign` | core/processor/transform_frame.cpp:64-69 | after copy-and-swap, the object holds a fresh `impl` with the other's old state, also when assigned to itself |
| `TransformFrame.TransformFrame.AudioVolume` | core/processor/transform_frame.cpp:79 | forwards to the implementation: the new state is `AfterAudioVolume(old state, volume)` |
| `TransformFrame.TransformFrame.Translate` | core/processor/transform_frame.cpp:80 | only the transform's position changes |
| `TransformFrame.TransformFrame.Texcoord` | core/processor/transform_frame.cpp:81 | only the transform's uv rectangle changes |
| `TransformFrame.TransformFrame.VideoMode` | core/processor/transform_frame.cpp:82 | only the transform's mode changes |
| `TransformFrame.TransformFrame.Alpha` | core/processor/transform_frame.cpp:83 | only the transform's alpha changes |
| `TransformFrame.TransformFrame.AudioData` | core/processor/transform_frame.cpp:84 | returns the stored buffer unchanged and does no scaling; without an override at volume 255, a non-empty buffer is the frame's audio rescaled by 255 |
| `TransformFrame.CopyIsIndependent` | core/processor/transform_frame.cpp:63 | one scenario: changing a copy's transform and volume leaves the original as it was, and changing the original afterwards leaves the copy as it was; the general guarantee is `Copy`'s `fresh(impl)` with the mutators' `modifies impl` |
| `TransformFrame.AssignIsIndependent` | core/processor/transform_frame.cpp:64-69 | one scenario: after `b = a`, changing `b` leaves `a` as it was, and changing `a` leaves `b` as it was; the general guarantee is `Assign`'s `fresh(impl)` with the mutators' `modifies impl` |

## Left out

- `draw`, `begin_write`, `end_write` (lines 24-32, 76-78): they only forward to `frame_shader` and `draw_frame_access`, whose code is not part of this model.
- Move constructor and move assignment (lines 70-75): they transfer the `impl_` pointer and leave the source null. That is ownership, not behaviour of the frame.
- The parallelism of `tbb::parallel_for` (lines 42-50): the loop is modelled sequentially. `PartitionIndependence` shows that any split of the range into disjoint blocks, run in any order, gives the same result. Concurrent execution itself is not modelled.
- The GL, pixel-format and pixel-buffer-object includes (lines 8-10): they are not used in this file's logic.
- Floating-point behaviour of the transform fields: they are only stored, so they are modelled as `real` values and never computed on.
- `draw_frame` is modelled only by its audio samples. Its pixel content and its own `audio_data()` implementation are not part of this model.
- TransformFrame.TransformFrame.AudioData: returns the buffer's contents as a value. The source returns a `const std::vector<short>&` into the live buffer (line 84), so a held reference sees later rescaling by `audio_volume` and dangles once copy assignment swaps `impl_` away; that aliasing is not modelled.
- AudioGain.Shr8: assumes `>>` on a negative `int` is an arithmetic shift. That is what the usual compilers do, but before C++20 it is implementation-defined.
- AudioGain.ScaleSampleBounds: assumes `int` is 32 bits wide when it states that the product cannot overflow. The C++ standard only guarantees 16 bits.
- AudioGain.ToShort: the out-of-range branch is taken as two's-complement wrap-around. Before C++20 that conversion is implementation-defined. Line 48 never reaches it, because `ScaleSample` proves the shifted value is always in 16-bit range.
