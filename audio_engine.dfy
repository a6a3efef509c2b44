/** The synthesis side of the theremin (server/audio_engine.py): a tone
    made of five weighted harmonics, normalised by the fixed sum of the
    weights and scaled by the volume; silence buffers; the audio callback
    that chooses between them; the parameter store; and the downsampled
    waveform shown on the dashboard.

    Real arithmetic stands for numpy's floats. The sine function is a
    parameter; the bounds proved about the output hold for every function
    with sin(0) = 0 and values in [-1, 1] (`IsSine`). */
module AudioEngine {

  /** SAMPLE_RATE, in Hz. */
  const SampleRate: nat := 44100
  /** CHUNK_DURATION, in seconds: the length of one callback block. */
  const ChunkDuration: real := 0.05
  /** The 20 ms render used for the dashboard waveform. */
  const VizDuration: real := 0.02
  /** The dashboard keeps every 20th sample of that render. */
  const VizStride: nat := 20
  /** The number of zeros shown while silent. */
  const SilentPoints: nat := 50
  /** The double nearest to pi, numpy's `np.pi`. */
  const Pi: real := 3.141592653589793

  /** HARMONIC_RATIOS: (frequency multiplier, amplitude weight) pairs. */
  const HarmonicRatios: seq<(real, real)> :=
    [(1.0, 1.00), (2.0, 0.80), (3.0, 1.75), (4.0, 0.25), (5.0, 0.18)]

  /** What the model assumes of `np.sin`. */
  ghost predicate IsSine(f: real -> real)
  {
    f(0.0) == 0.0 && forall x :: -1.0 <= f(x) <= 1.0
  }

  function Abs(x: real): real
  {
    if x < 0.0 then -x else x
  }

  // ---------------------------------------------------------------------
  // Buffer lengths and sample times

  /** `int(SAMPLE_RATE * duration)`: truncation, which for a non-negative
      product is the floor. */
  function NumSamples(duration: real): nat
    requires duration >= 0.0
  {
    ((SampleRate as real) * duration).Floor
  }

  /** CHUNK_SIZE, the block size the stream is opened with. */
  const ChunkSize: nat := NumSamples(ChunkDuration)

  /** The two buffer lengths the engine uses. */
  lemma BufferLengths()
    ensures ChunkSize == 2205
    ensures NumSamples(VizDuration) == 882
  {
    assert (SampleRate as real) * ChunkDuration == 2205.0;
    assert (SampleRate as real) * VizDuration == 882.0;
  }

  /** `np.linspace(0, duration, n, endpoint=False)` with
      n = int(SAMPLE_RATE * duration): sample i is taken at i * duration / n. */
  function SampleTimes(duration: real): (t: seq<real>)
    requires duration >= 0.0
    ensures |t| == NumSamples(duration)
  {
    var n := NumSamples(duration);
    seq(n, i requires 0 <= i < n => duration * (i as real) / (n as real))
  }

  /** Every buffer starts at t = 0; when SAMPLE_RATE * duration is a whole
      number (as it is for both durations the engine uses) sample i is taken
      at exactly i / SAMPLE_RATE. */
  lemma SampleTimesAtRate(duration: real, i: nat)
    requires duration >= 0.0
    requires (SampleRate as real) * duration == NumSamples(duration) as real
    requires i < NumSamples(duration)
    ensures SampleTimes(duration)[i] == (i as real) / (SampleRate as real)
    ensures i == 0 ==> SampleTimes(duration)[i] == 0.0
  {
    var n := NumSamples(duration) as real;
    var sr := SampleRate as real;
    assert duration == n / sr;
    calc {
      SampleTimes(duration)[i];
      duration * (i as real) / n;
      (n / sr) * (i as real) / n;
      (i as real) / sr;
    }
  }

  // ---------------------------------------------------------------------
  // The tone

  /** One harmonic (harmonic_mult, amplitude_mult) at one instant:
      `amplitude_mult * np.sin(2 * np.pi * harmonic_freq * t)` with
      `harmonic_freq = frequency * harmonic_mult`. */
  function HarmonicTerm(h: (real, real), frequency: real, t: real, sin: real -> real): real
  {
    h.1 * sin(2.0 * Pi * (frequency * h.0) * t)
  }

  /** The running `waveform += amp * sin(2 pi f mult t)` over a list of
      harmonics, added in list order, at one instant t. */
  function HarmonicSum(hs: seq<(real, real)>, frequency: real, t: real, sin: real -> real): real
  {
    if hs == [] then 0.0
    else
      HarmonicSum(hs[..|hs| - 1], frequency, t, sin)
        + HarmonicTerm(hs[|hs| - 1], frequency, t, sin)
  }

  /** Adding harmonic k to the sum of the first k. */
  lemma HarmonicSumStep(hs: seq<(real, real)>, k: nat, frequency: real, t: real, sin: real -> real)
    requires k < |hs|
    ensures HarmonicSum(hs[..k + 1], frequency, t, sin)
            == HarmonicSum(hs[..k], frequency, t, sin) + HarmonicTerm(hs[k], frequency, t, sin)
  {
    assert hs[..k + 1][..k] == hs[..k];
    assert hs[..k + 1][k] == hs[k];
  }

  /** `sum([amp for _, amp in HARMONIC_RATIOS])`, added in list order. */
  function AmplitudeSum(hs: seq<(real, real)>): real
  {
    if hs == [] then 0.0 else AmplitudeSum(hs[..|hs| - 1]) + hs[|hs| - 1].1
  }

  /** The fixed normalisation divisor is 3.98 and every weight is positive. */
  lemma MaxAmplitude()
    ensures AmplitudeSum(HarmonicRatios) == 3.98
    ensures forall k :: 0 <= k < |HarmonicRatios| ==> HarmonicRatios[k].1 > 0.0
  {
    var hs := HarmonicRatios;
    assert hs[..1][..0] == [];
    assert hs[..2][..1] == hs[..1];
    assert hs[..3][..2] == hs[..2];
    assert hs[..4][..3] == hs[..3];
    assert hs[..4] == hs[..|hs| - 1];
    assert AmplitudeSum(hs[..1]) == 1.00;
    assert AmplitudeSum(hs[..2]) == 1.80;
    assert AmplitudeSum(hs[..3]) == 3.55;
    assert AmplitudeSum(hs[..4]) == 3.80;
  }

  /** With non-negative weights, and |sin| <= 1, the harmonic sum never
      exceeds the sum of the weights in magnitude. */
  lemma {:induction false} HarmonicSumBounded(hs: seq<(real, real)>, frequency: real, t: real, sin: real -> real)
    requires IsSine(sin)
    requires forall k :: 0 <= k < |hs| ==> hs[k].1 >= 0.0
    ensures -AmplitudeSum(hs) <= HarmonicSum(hs, frequency, t, sin) <= AmplitudeSum(hs)
  {
    if hs != [] {
      var init := hs[..|hs| - 1];
      assert forall k :: 0 <= k < |init| ==> init[k].1 >= 0.0 by {
        forall k | 0 <= k < |init| ensures init[k].1 >= 0.0 {
          assert init[k] == hs[k];
        }
      }
      HarmonicSumBounded(init, frequency, t, sin);
      TermBounded(hs[|hs| - 1], frequency, t, sin);
    }
  }

  /** At t = 0 every harmonic is sin(0) = 0. */
  lemma {:induction false} HarmonicSumAtZero(hs: seq<(real, real)>, frequency: real, sin: real -> real)
    requires IsSine(sin)
    ensures HarmonicSum(hs, frequency, 0.0, sin) == 0.0
  {
    if hs != [] {
      HarmonicSumAtZero(hs[..|hs| - 1], frequency, sin);
      assert 2.0 * Pi * (frequency * hs[|hs| - 1].0) * 0.0 == 0.0;
      assert HarmonicTerm(hs[|hs| - 1], frequency, 0.0, sin) == 0.0;
    }
  }

  /** One output sample: the harmonic sum divided by the fixed divisor,
      times the volume. */
  function ToneSample(frequency: real, volume: real, t: real, sin: real -> real): real
  {
    MaxAmplitude();
    HarmonicSum(HarmonicRatios, frequency, t, sin) / AmplitudeSum(HarmonicRatios) * volume
  }

  /** The buffer `generate_tone(frequency, volume, duration)` returns. */
  function Tone(frequency: real, volume: real, duration: real, sin: real -> real): (w: seq<real>)
    requires duration >= 0.0
    ensures |w| == NumSamples(duration)
  {
    var t := SampleTimes(duration);
    seq(|t|, i requires 0 <= i < |t| => ToneSample(frequency, volume, t[i], sin))
  }

  /** Dividing by the fixed divisor keeps every sample within the volume:
      no clipping beyond |volume|. */
  lemma ToneSampleBounded(frequency: real, volume: real, t: real, sin: real -> real)
    requires IsSine(sin)
    ensures Abs(ToneSample(frequency, volume, t, sin)) <= Abs(volume)
  {
    MaxAmplitude();
    HarmonicSumBounded(HarmonicRatios, frequency, t, sin);
    var q := HarmonicSum(HarmonicRatios, frequency, t, sin) / 3.98;
    assert -1.0 <= q <= 1.0;
    UnitScale(q, volume);
  }

  /** One weighted harmonic stays within its weight. */
  lemma TermBounded(h: (real, real), frequency: real, t: real, sin: real -> real)
    requires IsSine(sin)
    requires h.1 >= 0.0
    ensures -h.1 <= HarmonicTerm(h, frequency, t, sin) <= h.1
  {
    WeightBound(h.1, sin(2.0 * Pi * (frequency * h.0) * t));
  }

  /** A weight times a value in [-1, 1] stays within the weight. */
  lemma WeightBound(amp: real, s: real)
    requires amp >= 0.0 && -1.0 <= s <= 1.0
    ensures -amp <= amp * s <= amp
  {
    assert amp * (s + 1.0) >= 0.0;
    assert amp * (1.0 - s) >= 0.0;
  }

  /** |q * v| <= |v| when |q| <= 1. */
  lemma UnitScale(q: real, v: real)
    requires -1.0 <= q <= 1.0
    ensures Abs(q * v) <= Abs(v)
  {
    if v >= 0.0 {
      assert -v <= q * v <= v;
    } else {
      assert v <= q * v <= -v;
    }
  }

  /** Every sample of a tone buffer lies within [-|volume|, |volume|]. */
  lemma ToneBounded(frequency: real, volume: real, duration: real, sin: real -> real)
    requires IsSine(sin)
    requires duration >= 0.0
    ensures forall i :: 0 <= i < |Tone(frequency, volume, duration, sin)| ==>
              Abs(Tone(frequency, volume, duration, sin)[i]) <= Abs(volume)
  {
    var w := Tone(frequency, volume, duration, sin);
    var t := SampleTimes(duration);
    forall i | 0 <= i < |w|
      ensures Abs(w[i]) <= Abs(volume)
    {
      ToneSampleBounded(frequency, volume, t[i], sin);
    }
  }

  /** Every buffer restarts its phase at t = 0, so its first sample is 0
      whatever the frequency and volume. */
  lemma ToneStartsAtZero(frequency: real, volume: real, duration: real, sin: real -> real)
    requires IsSine(sin)
    requires duration >= 0.0
    requires NumSamples(duration) > 0
    ensures Tone(frequency, volume, duration, sin)[0] == 0.0
  {
    assert SampleTimes(duration)[0] == 0.0;
    HarmonicSumAtZero(HarmonicRatios, frequency, sin);
    assert Tone(frequency, volume, duration, sin)[0] == ToneSample(frequency, volume, 0.0, sin);
    MaxAmplitude();
    assert ToneSample(frequency, volume, 0.0, sin) == 0.0 / 3.98 * volume;
  }

  /** `generate_tone`: start from silence, add each weighted harmonic in
      turn, divide by the sum of the weights, multiply by the volume. */
  method GenerateTone(frequency: real, volume: real, duration: real, sin: real -> real)
    returns (waveform: seq<real>)
    requires duration >= 0.0
    ensures waveform == Tone(frequency, volume, duration, sin)
  {
    var t := SampleTimes(duration);
    waveform := seq(|t|, _ => 0.0);
    for k := 0 to |HarmonicRatios|
      invariant |waveform| == |t|
      invariant forall i :: 0 <= i < |t| ==>
                  waveform[i] == HarmonicSum(HarmonicRatios[..k], frequency, t[i], sin)
    {
      var harmonic := HarmonicRatios[k];
      var harmonicWave := seq(|t|, i requires 0 <= i < |t| => HarmonicTerm(harmonic, frequency, t[i], sin));
      ghost var before := waveform;
      waveform := seq(|t|, i requires 0 <= i < |t| => waveform[i] + harmonicWave[i]);
      forall i | 0 <= i < |t|
        ensures waveform[i] == HarmonicSum(HarmonicRatios[..k + 1], frequency, t[i], sin)
      {
        HarmonicSumStep(HarmonicRatios, k, frequency, t[i], sin);
        assert waveform[i] == before[i] + harmonicWave[i];
      }
    }
    assert HarmonicRatios[..|HarmonicRatios|] == HarmonicRatios;
    var maxAmplitude := AmplitudeSum(HarmonicRatios);
    MaxAmplitude();
    ghost var summed := waveform;
    waveform := seq(|t|, i requires 0 <= i < |t| => waveform[i] / maxAmplitude);
    ghost var normalised := waveform;
    waveform := seq(|t|, i requires 0 <= i < |t| => waveform[i] * volume);
    forall i | 0 <= i < |t|
      ensures waveform[i] == Tone(frequency, volume, duration, sin)[i]
    {
      assert waveform[i] == summed[i] / maxAmplitude * volume;
    }
  }

  // ---------------------------------------------------------------------
  // Silence, the callback and the dashboard waveform

  /** `generate_silence(duration)`. */
  function GenerateSilence(duration: real): seq<real>
    requires duration >= 0.0
  {
    seq(NumSamples(duration), _ => 0.0)
  }

  /** A silence buffer has int(SAMPLE_RATE * duration) samples, all zero:
      2205 of them for one callback block. */
  lemma SilenceShape(duration: real)
    requires duration >= 0.0
    ensures |GenerateSilence(duration)| == NumSamples(duration)
    ensures forall i :: 0 <= i < |GenerateSilence(duration)| ==> GenerateSilence(duration)[i] == 0.0
    ensures |GenerateSilence(ChunkDuration)| == 2205
  {
    BufferLengths();
  }

  /** The engine's three parameters, read as one triple. */
  datatype Params = Params(frequency: real, volume: real, playing: bool)

  /** The condition under which the callback and the dashboard render a
      tone rather than silence. */
  predicate Audible(p: Params)
  {
    p.playing && p.frequency > 0.0
  }

  /** The block the callback's `try` body renders. */
  function Chunk(p: Params, sin: real -> real): seq<real>
  {
    if Audible(p) then Tone(p.frequency, p.volume, ChunkDuration, sin)
    else GenerateSilence(ChunkDuration)
  }

  /** What the callback leaves in an output buffer of `frames` samples: the
      block, or `frames` zeros when rendering raised (`fault`) or the block
      does not fit the buffer. */
  function CallbackOutput(frames: nat, fault: bool, p: Params, sin: real -> real): seq<real>
  {
    if !fault && |Chunk(p, sin)| == frames then Chunk(p, sin) else seq(frames, _ => 0.0)
  }

  /** The callback always fills exactly the requested number of frames; it
      renders the tone only when playing with a positive frequency (and
      nothing failed), and otherwise outputs zeros; no sample exceeds the
      volume in magnitude. */
  lemma CallbackOutputShape(frames: nat, fault: bool, p: Params, sin: real -> real)
    requires IsSine(sin)
    ensures |CallbackOutput(frames, fault, p, sin)| == frames
    ensures !fault && frames == 2205 && Audible(p) ==>
              CallbackOutput(frames, fault, p, sin) == Tone(p.frequency, p.volume, ChunkDuration, sin)
    ensures fault || !Audible(p) || frames != 2205 ==>
              forall i :: 0 <= i < frames ==> CallbackOutput(frames, fault, p, sin)[i] == 0.0
    ensures forall i :: 0 <= i < frames ==> Abs(CallbackOutput(frames, fault, p, sin)[i]) <= Abs(p.volume)
  {
    BufferLengths();
    ToneBounded(p.frequency, p.volume, ChunkDuration, sin);
  }

  /** `waveform[::k]`: every k-th element, starting with the first. */
  function EveryNth(s: seq<real>, k: nat): seq<real>
    requires k > 0
    decreases |s|
  {
    if s == [] then []
    else if |s| <= k then [s[0]]
    else [s[0]] + EveryNth(s[k..], k)
  }

  /** `s[::k]` has ceil(|s| / k) elements: the least count that, taken
      k apart, covers the whole of s. */
  lemma {:induction false} EveryNthLength(s: seq<real>, k: nat)
    requires k > 0
    ensures s == [] ==> EveryNth(s, k) == []
    ensures s != [] ==> (|EveryNth(s, k)| - 1) * k < |s| <= |EveryNth(s, k)| * k
  {
    if |s| > k {
      var rest := s[k..];
      EveryNthLength(rest, k);
      var m := |EveryNth(rest, k)|;
      assert |EveryNth(s, k)| == m + 1;
      assert (m - 1) * k + k == m * k;
      assert m * k + k == (m + 1) * k;
    }
  }

  /** Element i of `s[::k]` is s[k * i]. */
  lemma {:induction false} EveryNthAt(s: seq<real>, k: nat, i: nat)
    requires k > 0
    requires i < |EveryNth(s, k)|
    ensures k * i < |s| && EveryNth(s, k)[i] == s[k * i]
  {
    if i > 0 {
      assert |s| > k;
      EveryNthAt(s[k..], k, i - 1);
      assert k * i == k + k * (i - 1);
    }
  }

  /** What `get_current_waveform` returns for parameters p. */
  function Waveform(p: Params, sin: real -> real): seq<real>
  {
    if Audible(p) then EveryNth(Tone(p.frequency, p.volume, VizDuration, sin), VizStride)
    else seq(SilentPoints, _ => 0.0)
  }

  /** While audible the dashboard gets 45 points, point i being sample 20 i
      of an 882-sample render; otherwise 50 zeros. */
  lemma WaveformShape(p: Params, sin: real -> real)
    ensures Audible(p) ==>
              |Waveform(p, sin)| == 45 &&
              forall i :: 0 <= i < 45 ==>
                Waveform(p, sin)[i] == Tone(p.frequency, p.volume, VizDuration, sin)[20 * i]
    ensures !Audible(p) ==> Waveform(p, sin) == seq(50, _ => 0.0)
  {
    BufferLengths();
    if Audible(p) {
      var w := Tone(p.frequency, p.volume, VizDuration, sin);
      EveryNthLength(w, VizStride);
      assert |Waveform(p, sin)| == 45;
      forall i | 0 <= i < 45
        ensures Waveform(p, sin)[i] == w[20 * i]
      {
        EveryNthAt(w, VizStride, i);
      }
    }
  }

  // ---------------------------------------------------------------------
  // The engine's module-level state

  /** The module globals of server/audio_engine.py that the callback reads
      and `update_audio_params` writes, with the sine function the
      synthesiser evaluates. */
  class Engine {
    var currentFrequency: real
    var currentVolume: real
    var isPlaying: bool
    const sine: real -> real

    /** The parameters as one triple. */
    function Current(): Params
      reads this
    {
      Params(currentFrequency, currentVolume, isPlaying)
    }

    /** The initial values of the globals: 440 Hz, volume 0.5, silent. */
    constructor (sin: real -> real)
      ensures Current() == Params(440.0, 0.5, false) && sine == sin
    {
      currentFrequency := 440.0;
      currentVolume := 0.5;
      isPlaying := false;
      sine := sin;
    }

    /** `update_audio_params`: the three parameters become exactly the
        arguments; nothing else changes. */
    method UpdateAudioParams(frequency: real, volume: real, playing: bool)
      modifies this
      ensures Current() == Params(frequency, volume, playing)
    {
      currentFrequency := frequency;
      currentVolume := volume;
      isPlaying := playing;
    }

    /** `audio_callback`: render the block and copy it into `outdata`; if
        rendering raised (`synthFault`) or the block does not fit, write
        zeros instead. The number of frames is `outdata`'s length. */
    method AudioCallback(outdata: array<real>, synthFault: bool)
      modifies outdata
      ensures outdata[..] == CallbackOutput(outdata.Length, synthFault, Current(), sine)
    {
      var failed := synthFault;
      if !failed {
        var chunk: seq<real>;
        if isPlaying && currentFrequency > 0.0 {
          chunk := GenerateTone(currentFrequency, currentVolume, ChunkDuration, sine);
        } else {
          chunk := GenerateSilence(ChunkDuration);
        }
        if |chunk| == outdata.Length {
          forall i | 0 <= i < outdata.Length {
            outdata[i] := chunk[i];
          }
        } else {
          failed := true;
        }
      }
      if failed {
        forall i | 0 <= i < outdata.Length {
          outdata[i] := 0.0;
        }
      }
    }

    /** `get_current_waveform`. */
    method GetCurrentWaveform() returns (samples: seq<real>)
      ensures samples == Waveform(Current(), sine)
    {
      if isPlaying && currentFrequency > 0.0 {
        var waveform := GenerateTone(currentFrequency, currentVolume, VizDuration, sine);
        samples := EveryNth(waveform, VizStride);
      } else {
        samples := seq(SilentPoints, _ => 0.0);
      }
    }
  }
}
