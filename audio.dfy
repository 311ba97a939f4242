/** The audio side of isolated.py and sound.py: the tone parameters derived from a
    particle's kinetic energy, the stereo split of a waveform, and the number of samples of
    one tone. The sine synthesis itself, the int16 conversion and playback are not part of
    this model; the waveform is an input. */
module Audio {
  import opened Geometry

  /** `BASE_FREQUENCIES`, one base pitch per lobe, in Hz. */
  const BASE_FREQUENCIES: seq<real> := [220.0, 330.0, 440.0]
  const SAMPLE_RATE: nat := 44100
  /** Length of one tone, in seconds. */
  const DURATION: real := 0.05
  /** Hz added per unit of kinetic energy. */
  const PITCH_PER_ENERGY: real := 300.0
  /** Volume per unit of kinetic energy, before the cap at 1. */
  const GAIN_PER_ENERGY: real := 8.0

  /** The parameters with which one tone is generated and played. */
  datatype Tone = Tone(frequency: real, volume: real, pan: real)

  /** `base + kinetic_energy * 300`. */
  function Frequency(base: real, energy: real): (f: real)
    ensures energy >= 0.0 ==> f >= base
    ensures energy > 0.0 ==> f > base
  {
    base + energy * PITCH_PER_ENERGY
  }

  /** The energy a frequency stands for: recovers the energy from `Frequency`. */
  function EnergyOfFrequency(base: real, f: real): real
  {
    (f - base) / PITCH_PER_ENERGY
  }

  lemma FrequencyRoundTrip(base: real, energy: real)
    ensures EnergyOfFrequency(base, Frequency(base, energy)) == energy
  {
  }

  /** The pitch rises strictly with energy. */
  lemma FrequencyStrictlyMonotone(base: real, e1: real, e2: real)
    ensures e1 < e2 <==> Frequency(base, e1) < Frequency(base, e2)
  {
  }

  /** `min(1.0, kinetic_energy * 8)`. */
  function Volume(energy: real): (v: real)
    ensures v <= 1.0 && v <= energy * GAIN_PER_ENERGY
    ensures v == 1.0 || v == energy * GAIN_PER_ENERGY
    ensures energy >= 0.0 ==> 0.0 <= v
  {
    if energy * GAIN_PER_ENERGY < 1.0 then energy * GAIN_PER_ENERGY else 1.0
  }

  /** The volume saturates exactly from energy 1/8 on. */
  lemma VolumeSaturates(energy: real)
    ensures Volume(energy) == 1.0 <==> energy >= 1.0 / GAIN_PER_ENERGY
  {
  }

  /** `lobe_idx / 2`: lobe 0 plays left, lobe 1 centre, lobe 2 right. */
  function LobePan(idx: nat): (p: real)
    requires idx < 3
    ensures 0.0 <= p <= 1.0
    ensures p == 0.0 || p == 0.5 || p == 1.0
  {
    (idx as real) / 2.0
  }

  /** The tone isolated.py plays for a particle of lobe `idx` with kinetic energy `e`. */
  function LobeTone(idx: nat, energy: real): (t: Tone)
    requires idx < 3
    ensures energy >= 0.0 ==> t.frequency >= BASE_FREQUENCIES[idx] && 0.0 <= t.volume <= 1.0
    ensures 0.0 <= t.pan <= 1.0
  {
    Tone(Frequency(BASE_FREQUENCIES[idx], energy), Volume(energy), LobePan(idx))
  }

  /** A tone no lower than the lowest base pitch, at a volume in [0, 1], panned to the
      left, the centre or the right. */
  ghost predicate Audible(t: Tone)
  {
    && t.frequency >= BASE_FREQUENCIES[0]
    && 0.0 <= t.volume <= 1.0
    && (t.pan == 0.0 || t.pan == 0.5 || t.pan == 1.0)
  }

  /** Every tone isolated.py requests for a particle is audible. */
  lemma LobeToneAudible(idx: nat, energy: real)
    requires idx < 3 && energy >= 0.0
    ensures Audible(LobeTone(idx, energy))
  {
    assert BASE_FREQUENCIES[idx] >= BASE_FREQUENCIES[0];
  }

  /** One stereo sample frame: the columns of `column_stack((left, right))`. */
  datatype Frame = Frame(left: real, right: real)

  /** `left = waveform * (1 - pan)`, `right = waveform * pan`. */
  function Stereo(waveform: seq<real>, pan: real): (r: seq<Frame>)
    ensures |r| == |waveform|
    ensures forall i :: 0 <= i < |r| ==> r[i].left + r[i].right == waveform[i]
  {
    seq(|waveform|, i requires 0 <= i < |waveform| =>
        Frame(waveform[i] * (1.0 - pan), waveform[i] * pan))
  }

  lemma ScaledNonneg(m: real, p: real)
    requires 0.0 <= m && 0.0 <= p <= 1.0
    ensures 0.0 <= m * p <= m
  {
    assert m * p <= m * 1.0;
  }

  lemma NegatedProduct(w: real, p: real)
    ensures (-w) * p == -(w * p)
  {
  }

  lemma ScaledDown(w: real, p: real)
    requires 0.0 <= p <= 1.0
    ensures Abs(w * p) <= Abs(w)
  {
    if w >= 0.0 {
      ScaledNonneg(w, p);
    } else {
      ScaledNonneg(-w, p);
      NegatedProduct(w, p);
    }
  }

  /** With a pan in [0, 1] neither channel is louder than the waveform, and the pan is
      recovered from the right channel wherever the waveform is not silent. */
  lemma StereoBounded(waveform: seq<real>, pan: real)
    requires 0.0 <= pan <= 1.0
    ensures forall i :: 0 <= i < |waveform| ==>
              Abs(Stereo(waveform, pan)[i].left) <= Abs(waveform[i])
              && Abs(Stereo(waveform, pan)[i].right) <= Abs(waveform[i])
    ensures forall i :: 0 <= i < |waveform| && waveform[i] != 0.0 ==>
              Stereo(waveform, pan)[i].right / waveform[i] == pan
  {
    var r := Stereo(waveform, pan);
    forall i | 0 <= i < |waveform|
      ensures Abs(r[i].left) <= Abs(waveform[i]) && Abs(r[i].right) <= Abs(waveform[i])
    {
      ScaledDown(waveform[i], 1.0 - pan);
      ScaledDown(waveform[i], pan);
    }
  }

  /** Python's `int(x)`: truncation toward zero. */
  function Truncate(x: real): (n: int)
    ensures Abs(n as real) <= Abs(x) < Abs(n as real) + 1.0
    ensures (n >= 0) == (x > -1.0)
  {
    if x >= 0.0 then x.Floor else -((-x).Floor)
  }

  /** `int(SAMPLE_RATE * duration)`, the number of samples of one tone. */
  function SampleCount(duration: real): int
  {
    Truncate(SAMPLE_RATE as real * duration)
  }

  /** Every tone has 2205 sample frames in each channel. */
  lemma ToneLength(waveform: seq<real>, pan: real)
    requires |waveform| == SampleCount(DURATION)
    ensures SampleCount(DURATION) == 2205
    ensures |Stereo(waveform, pan)| == 2205
  {
    assert SAMPLE_RATE as real * DURATION == 2205.0;
  }
}
