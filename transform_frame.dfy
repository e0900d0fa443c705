/** `caspar::core::transform_frame`: a rendered frame carried together with a
    shader transform and an adjustable audio volume. The object holds its
    state behind an owned pointer (`impl_`), modelled here as the class
    `Implementation` referenced from `TransformFrame`. */
module TransformFrame {
  import opened AudioGain

  /** `video_mode::type`: an opaque broadcast-standard identifier. */
  datatype VideoStandard = Unset | Standard(id: nat)

  /** `shader_transform`: stored by this component and never computed on, so
      its doubles are opaque values here. */
  datatype ShaderTransform = ShaderTransform(
    pos: (real, real),
    uv: (real, real, real, real),
    mode: VideoStandard,
    alpha: real)

  /** The default-constructed `shader_transform`. */
  const DefaultTransform := ShaderTransform((0.0, 0.0), (0.0, 0.0, 1.0, 1.0), Unset, 1.0)

  /** `draw_frame`: an immutable frame; only its audio matters here. */
  datatype DrawFrame = DrawFrame(audio: seq<Sample>)

  /** The fields of `transform_frame::implementation`. */
  datatype FrameState = FrameState(
    overrideAudio: bool,
    audioData: seq<Sample>,
    transform: ShaderTransform,
    audioVolume: Byte,
    frame: DrawFrame)

  /** The state built from a frame alone, whether copied or moved in. */
  function NewState(frame: DrawFrame): (st: FrameState)
    ensures !st.overrideAudio && st.audioData == [] && st.audioVolume == 255
    ensures st.transform == DefaultTransform && st.frame == frame
  {
    FrameState(false, [], DefaultTransform, 255, frame)
  }

  /** The state built from a frame and an audio vector that overrides the
      frame's own audio. */
  function NewStateWithAudio(frame: DrawFrame, audio: seq<Sample>): (st: FrameState)
    ensures st.overrideAudio && st.audioData == audio && st.audioVolume == 255
    ensures st.transform == DefaultTransform && st.frame == frame
  {
    FrameState(true, audio, DefaultTransform, 255, frame)
  }

  /** The state after `audio_volume(volume)`. A real change rescales the
      current buffer when the audio is overridden, and a fresh copy of the
      frame's audio otherwise. */
  function AfterAudioVolume(st: FrameState, volume: Byte): (r: FrameState)
    ensures r.audioVolume == volume
    ensures r.overrideAudio == st.overrideAudio && r.transform == st.transform && r.frame == st.frame
    ensures volume == st.audioVolume ==> r == st
    ensures volume != st.audioVolume ==>
              |r.audioData| == if st.overrideAudio then |st.audioData| else |st.frame.audio|
  {
    if volume == st.audioVolume then st
    else st.(audioVolume := volume, audioData := Rescaled(if st.overrideAudio then st.audioData else st.frame.audio, volume))
  }

  /** The invariant every reachable state keeps: without an override, the
      buffer is either still the empty one of construction (at volume 255) or
      the frame's audio rescaled by the current volume. */
  ghost predicate Consistent(st: FrameState)
    ensures Consistent(st) && !st.overrideAudio && st.audioVolume != 255 ==>
              st.audioData == Rescaled(st.frame.audio, st.audioVolume)
  {
    !st.overrideAudio ==>
      (st.audioVolume == 255 && st.audioData == []) || st.audioData == Rescaled(st.frame.audio, st.audioVolume)
  }

  lemma NewStatesConsistent(frame: DrawFrame, audio: seq<Sample>)
    ensures Consistent(NewState(frame)) && Consistent(NewStateWithAudio(frame, audio))
  {
  }

  lemma AfterAudioVolumeConsistent(st: FrameState, volume: Byte)
    requires Consistent(st)
    ensures Consistent(AfterAudioVolume(st, volume))
  {
  }

  /** On a real change, sample `n` of the new buffer is the shifted product
      of sample `n` of the old buffer (with an override) or of the frame's
      audio (without one), and lies between 0 and that sample. */
  lemma AfterAudioVolumeAt(st: FrameState, volume: Byte, n: nat)
    requires volume != st.audioVolume
    requires n < if st.overrideAudio then |st.audioData| else |st.frame.audio|
    ensures st.overrideAudio ==>
              var s, r := st.audioData[n], AfterAudioVolume(st, volume).audioData[n];
              r == Shr8(s * volume) && if s < 0 then s <= r <= 0 else 0 <= r <= s
    ensures !st.overrideAudio ==>
              var s, r := st.frame.audio[n], AfterAudioVolume(st, volume).audioData[n];
              r == Shr8(s * volume) && if s < 0 then s <= r <= 0 else 0 <= r <= s
  {
    RescaledBounds(if st.overrideAudio then st.audioData else st.frame.audio, volume, n);
  }

  /** Without an override, the buffer after a change depends only on the
      frame's audio and the new volume, never on an earlier volume. */
  lemma ReloadIgnoresHistory(st: FrameState, v1: Byte, v2: Byte)
    requires !st.overrideAudio && v2 != v1
    ensures AfterAudioVolume(AfterAudioVolume(st, v1), v2).audioData == Rescaled(st.frame.audio, v2)
  {
  }

  /** With an override, no pristine copy is kept: a second change rescales
      the already rescaled buffer. */
  lemma OverrideCompounds(st: FrameState, v1: Byte, v2: Byte)
    requires st.overrideAudio && v1 != st.audioVolume && v2 != v1
    ensures AfterAudioVolume(AfterAudioVolume(st, v1), v2).audioData ==
              Rescaled(Rescaled(st.audioData, v1), v2)
  {
  }

  /** Compounding loses precision: an override of [32767] set to 128 and then
      to 255 holds [16319], not the [32639] that 255 gives from the source. */
  lemma CompoundingExample(frame: DrawFrame)
    ensures var st := NewStateWithAudio(frame, [32767]);
            AfterAudioVolume(AfterAudioVolume(st, 128), 255).audioData == [16319] &&
            Rescaled([32767], 255) == [32639]
  {
    var st := NewStateWithAudio(frame, [32767]);
    assert AfterAudioVolume(st, 128).audioData == [16383] by {
      assert ScaleSample(32767, 128) == 16383;
    }
    assert ScaleSample(16383, 255) == 16319;
    FullVolumeAttenuates();
  }

  /** With an override, the buffer never depends on the frame's own audio. */
  lemma OverridePrecedence(st: FrameState, other: DrawFrame, volume: Byte)
    requires st.overrideAudio
    ensures AfterAudioVolume(st.(frame := other), volume) == AfterAudioVolume(st, volume).(frame := other)
  {
  }

  /** A frame of four samples set to volume 128. */
  lemma HalfVolumeExample()
    ensures AfterAudioVolume(NewState(DrawFrame([100, -100, 32767, -32768])), 128).audioData ==
              [50, -50, 16383, -16384]
  {
    var s: seq<Sample> := [100, -100, 32767, -32768];
    assert s[1..] == [-100, 32767, -32768];
    assert s[2..] == [32767, -32768];
    assert s[3..] == [-32768];
    assert ScaleSample(100, 128) == 50;
    assert ScaleSample(-100, 128) == -50;
    assert ScaleSample(32767, 128) == 16383;
    assert ScaleSample(-32768, 128) == -16384;
  }

  /** The state behind `impl_`. */
  class Implementation {
    var overrideAudio: bool
    var audioData: seq<Sample>
    var transform: ShaderTransform
    var audioVolume: Byte
    var frame: DrawFrame

    ghost function State(): FrameState
      reads this
    {
      FrameState(overrideAudio, audioData, transform, audioVolume, frame)
    }

    ghost predicate Valid()
      reads this
    {
      Consistent(State())
    }

    /** From a frame held by reference. */
    constructor (frame: DrawFrame)
      ensures Valid() && State() == NewState(frame)
    {
      this.frame := frame;
      audioVolume := 255;
      overrideAudio := false;
      audioData := [];
      transform := DefaultTransform;
    }

    /** From a frame and an audio vector overriding the frame's audio. */
    constructor WithAudio(frame: DrawFrame, audio: seq<Sample>)
      ensures Valid() && State() == NewStateWithAudio(frame, audio)
    {
      this.frame := frame;
      audioVolume := 255;
      audioData := audio;
      overrideAudio := true;
      transform := DefaultTransform;
    }

    /** From a frame moved in; the frame is an immutable value, so this builds
        the same state as the by-reference constructor. */
    constructor FromMoved(frame: DrawFrame)
      ensures Valid() && State() == NewState(frame)
    {
      this.frame := frame;
      audioVolume := 255;
      overrideAudio := false;
      audioData := [];
      transform := DefaultTransform;
    }

    /** The implicit member-wise copy constructor. */
    constructor Copy(other: Implementation)
      requires other.Valid()
      ensures Valid() && State() == other.State()
    {
      overrideAudio := other.overrideAudio;
      audioData := other.audioData;
      transform := other.transform;
      audioVolume := other.audioVolume;
      frame := other.frame;
    }

    /** Sets the volume and rescales the buffer in place, eagerly. */
    method AudioVolume(volume: Byte)
      requires Valid()
      modifies this
      ensures Valid()
      ensures State() == AfterAudioVolume(old(State()), volume)
    {
      if volume == audioVolume {
        return;
      }
      audioVolume := volume;
      if !overrideAudio {
        audioData := frame.audio;
      }
      ghost var source := audioData;
      var n := 0;
      while n < |audioData|
        invariant 0 <= n <= |audioData| == |source|
        invariant forall i :: 0 <= i < n ==> audioData[i] == ScaleSample(source[i], volume)
        invariant forall i :: n <= i < |audioData| ==> audioData[i] == source[i]
        invariant audioVolume == volume && source == if old(overrideAudio) then old(audioData) else old(frame).audio
        invariant overrideAudio == old(overrideAudio) && transform == old(transform) && frame == old(frame)
      {
        audioData := audioData[n := ScaleSample(audioData[n], audioVolume)];
        n := n + 1;
      }
      forall i | 0 <= i < |source|
        ensures audioData[i] == Rescaled(source, volume)[i]
      {
        RescaledAt(source, volume, i);
      }
      AfterAudioVolumeConsistent(old(State()), volume);
    }
  }

  /** `transform_frame`: the public object, owning its `Implementation`. */
  class TransformFrame {
    var impl: Implementation

    ghost function State(): FrameState
      reads this, impl
    {
      impl.State()
    }

    ghost predicate Valid()
      reads this, impl
    {
      impl.Valid()
    }

    constructor (frame: DrawFrame)
      ensures Valid() && fresh(impl) && State() == NewState(frame)
    {
      impl := new Implementation(frame);
    }

    constructor WithAudio(frame: DrawFrame, audio: seq<Sample>)
      ensures Valid() && fresh(impl) && State() == NewStateWithAudio(frame, audio)
    {
      impl := new Implementation.WithAudio(frame, audio);
    }

    constructor FromMoved(frame: DrawFrame)
      ensures Valid() && fresh(impl) && State() == NewState(frame)
    {
      impl := new Implementation.FromMoved(frame);
    }

    /** The copy constructor: a new `implementation` copied from the other's. */
    constructor Copy(other: TransformFrame)
      requires other.Valid()
      ensures Valid() && fresh(impl) && State() == other.State()
    {
      impl := new Implementation.Copy(other.impl);
    }

    /** Copy assignment: copy into a temporary, then swap the pointers; the
        old state goes away with the temporary. Self-assignment is safe. */
    method Assign(other: TransformFrame)
      requires other.Valid()
      modifies this
      ensures Valid() && fresh(impl) && State() == old(other.State())
    {
      var temp := new TransformFrame.Copy(other);
      temp.impl, impl := impl, temp.impl;
    }

    method AudioVolume(volume: Byte)
      requires Valid()
      modifies impl
      ensures Valid()
      ensures State() == AfterAudioVolume(old(State()), volume)
    {
      impl.AudioVolume(volume);
    }

    method Translate(x: real, y: real)
      requires Valid()
      modifies impl
      ensures Valid()
      ensures State() == old(State()).(transform := old(State()).transform.(pos := (x, y)))
    {
      impl.transform := impl.transform.(pos := (x, y));
    }

    method Texcoord(left: real, top: real, right: real, bottom: real)
      requires Valid()
      modifies impl
      ensures Valid()
      ensures State() == old(State()).(transform := old(State()).transform.(uv := (left, top, right, bottom)))
    {
      impl.transform := impl.transform.(uv := (left, top, right, bottom));
    }

    method VideoMode(mode: VideoStandard)
      requires Valid()
      modifies impl
      ensures Valid()
      ensures State() == old(State()).(transform := old(State()).transform.(mode := mode))
    {
      impl.transform := impl.transform.(mode := mode);
    }

    method Alpha(value: real)
      requires Valid()
      modifies impl
      ensures Valid()
      ensures State() == old(State()).(transform := old(State()).transform.(alpha := value))
    {
      impl.transform := impl.transform.(alpha := value);
    }

    /** The stored buffer as it is; reading never rescales. */
    method AudioData() returns (data: seq<Sample>)
      requires Valid()
      ensures data == State().audioData
      ensures !State().overrideAudio && State().audioVolume == 255 && data != [] ==>
                data == Rescaled(State().frame.audio, 255)
    {
      data := impl.audioData;
    }
  }

  /** A copy then evolves on its own: changes to the copy leave the original
      untouched, and changes to the original leave the copy untouched. This is
      one scenario; the general guarantee is `fresh(impl)` in `Copy` together
      with the `modifies impl` frame of every mutator, which is all this
      method's proof uses. */
  method CopyIsIndependent(a: TransformFrame, volume: Byte, x: real, y: real, alpha: real)
    returns (b: TransformFrame)
    requires a.Valid()
    modifies a.impl
    ensures fresh(b) && fresh(b.impl) && a.impl == old(a.impl)
    ensures a.Valid() && b.Valid()
    ensures a.State() == old(a.State()).(transform := old(a.State()).transform.(alpha := alpha))
    ensures b.State() ==
              AfterAudioVolume(old(a.State()).(transform := old(a.State()).transform.(pos := (x, y))), volume)
  {
    b := new TransformFrame.Copy(a);
    b.Translate(x, y);
    b.AudioVolume(volume);
    assert a.State() == old(a.State());
    ghost var copied := b.State();
    a.Alpha(alpha);
    assert b.State() == copied;
  }

  /** After `b = a`, changes to `b` leave `a` untouched, and the reverse. As
      for copies, the general guarantee is `fresh(impl)` in `Assign` with the
      `modifies impl` frame of every mutator; this is one scenario of it. */
  method AssignIsIndependent(a: TransformFrame, b: TransformFrame, volume: Byte, mode: VideoStandard)
    requires a.Valid() && b.Valid() && a != b
    modifies a.impl, b
    ensures a.impl == old(a.impl) && fresh(b.impl)
    ensures a.Valid() && b.Valid()
    ensures a.State() == AfterAudioVolume(old(a.State()), volume)
    ensures b.State() == old(a.State()).(transform := old(a.State()).transform.(mode := mode))
  {
    b.Assign(a);
    b.VideoMode(mode);
    assert a.State() == old(a.State());
    ghost var afterAssign := b.State();
    a.AudioVolume(volume);
    assert b.State() == afterAssign;
  }
}
