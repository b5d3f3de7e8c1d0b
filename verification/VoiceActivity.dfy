/**
 The energy-based voice activity detector, over real arithmetic.

 `Step` is one call of the detector; `StateAt` is the state after a run of them. The theorems
 say what a whole run means: the hangover counter is a sliding window over the energetic frames,
 and the noise floor is an exponential average of the non-speech energies.
 */
module VoiceActivity {
  import opened FrameCodec

  datatype VadConfig = VadConfig(speechRatioDb: real, hangoverFrames: nat, noiseAdaptRate: real)

  datatype VadState = VadState(noiseFloor: real, hangover: nat)

  datatype VadResult = VadResult(isSpeech: bool, energyDb: real, noiseFloorDb: real, snrDb: real)

  const INITIAL_FLOOR := -60.0
  const SILENCE_DB := -96.0
  const INITIAL := VadState(INITIAL_FLOOR, 0)

  /** The RMS energy of a non-empty frame in dBFS: a square root and a logarithm, left open. */
  type EnergyFunction = seq<int> -> real

  function Energy(rms: EnergyFunction, samples: seq<int>): real {
    if samples == [] then SILENCE_DB else rms(samples)
  }

  predicate Above(cfg: VadConfig, s: VadState, e: real) {
    e - s.noiseFloor >= cfg.speechRatioDb
  }

  /** One step of the exponential moving average. */
  function Blend(a: real, x: real, y: real): real {
    a * x + (1.0 - a) * y
  }

  function Step(cfg: VadConfig, s: VadState, e: real): (bool, VadState) {
    if Above(cfg, s, e) then (true, s.(hangover := cfg.hangoverFrames))
    else if s.hangover > 0 then (true, s.(hangover := s.hangover - 1))
    else (false, s.(noiseFloor := Blend(cfg.noiseAdaptRate, s.noiseFloor, e)))
  }

  // ----- PCM frames

  function Signed16(low: Byte, high: Byte): int {
    var v := BigEndian16(high, low);
    if v < 32768 then v else v - 65536
  }

  /** Little-endian 16-bit samples; an odd last byte is ignored. */
  function Unpack(raw: seq<Byte>): (samples: seq<int>)
    ensures |samples| == |raw| / 2
    ensures forall i :: 0 <= i < |samples| ==> -32768 <= samples[i] < 32768
    ensures forall i :: 0 <= i < |samples| ==>
              var low, high := raw[2 * i] as int, raw[2 * i + 1] as int;
              samples[i] == low + 256 * high - if high < 128 then 0 else 65536
  {
    if |raw| < 2 then [] else [Signed16(raw[0], raw[1])] + Unpack(raw[2..])
  }

  function FrameEnergy(rms: EnergyFunction, raw: seq<Byte>): real {
    Energy(rms, Unpack(raw))
  }

  function StepFrame(cfg: VadConfig, rms: EnergyFunction, s: VadState, raw: seq<Byte>): (bool, VadState) {
    if |raw| < 2 then (false, s) else Step(cfg, s, FrameEnergy(rms, raw))
  }

  // ----- runs

  /** The state in which energy `n` of the run is judged. */
  function StateAt(cfg: VadConfig, es: seq<real>, n: nat): VadState
    requires n <= |es|
  {
    if n == 0 then INITIAL else Step(cfg, StateAt(cfg, es, n - 1), es[n - 1]).1
  }

  predicate Speech(cfg: VadConfig, es: seq<real>, i: nat)
    requires i < |es|
  {
    Step(cfg, StateAt(cfg, es, i), es[i]).0
  }

  predicate Energetic(cfg: VadConfig, es: seq<real>, i: nat)
    requires i < |es|
  {
    es[i] - StateAt(cfg, es, i).noiseFloor >= cfg.speechRatioDb
  }

  /** What the counter remembers: the distance to the last energetic frame, if it is in the window. */
  lemma {:induction false} HangoverMeaning(cfg: VadConfig, es: seq<real>, i: nat)
    requires i <= |es|
    ensures var c := StateAt(cfg, es, i).hangover;
            var h := cfg.hangoverFrames;
            && (c > 0 ==> c <= h && h - c < i && Energetic(cfg, es, i - 1 - (h - c))
                          && forall m :: i - 1 - (h - c) < m < i ==> !Energetic(cfg, es, m))
            && (c == 0 ==> forall m :: 0 <= m < i && i - h <= m ==> !Energetic(cfg, es, m))
  {
    if i > 0 {
      HangoverMeaning(cfg, es, i - 1);
    }
  }

  /** Frame i is speech iff some frame of the window [i - hangoverFrames, i] was energetic. */
  lemma SpeechIsWindow(cfg: VadConfig, es: seq<real>, i: nat)
    requires i < |es|
    ensures Speech(cfg, es, i) <==>
            exists j: nat :: i - cfg.hangoverFrames <= j <= i && Energetic(cfg, es, j)
  {
    HangoverMeaning(cfg, es, i);
    var c := StateAt(cfg, es, i).hangover;
    if Energetic(cfg, es, i) {
      assert i - cfg.hangoverFrames <= i <= i;
    } else if c > 0 {
      assert Energetic(cfg, es, i - 1 - (cfg.hangoverFrames - c));
    }
  }

  /** Speech frames leave the floor alone; a non-speech frame moves it unless it already agrees. */
  lemma FloorMovesOnNonSpeech(cfg: VadConfig, es: seq<real>, i: nat)
    requires i < |es| && cfg.noiseAdaptRate != 1.0
    ensures StateAt(cfg, es, i + 1).noiseFloor != StateAt(cfg, es, i).noiseFloor
            <==> !Speech(cfg, es, i) && es[i] != StateAt(cfg, es, i).noiseFloor
  {
    BlendFixpoint(cfg.noiseAdaptRate, StateAt(cfg, es, i).noiseFloor, es[i]);
  }

  lemma BlendFixpoint(a: real, x: real, y: real)
    requires a != 1.0
    ensures Blend(a, x, y) == x <==> x == y
  {
    BlendGap(a, x, y);
    if x != y {
      MulNonZero(1.0 - a, y - x);
    }
  }

  lemma MulPositive(x: real, y: real)
    requires x > 0.0 && y > 0.0
    ensures x * y > 0.0
  {
  }

  lemma MulNonZero(x: real, y: real)
    requires x != 0.0 && y != 0.0
    ensures x * y != 0.0
  {
    MulPositive(if x > 0.0 then x else -x, if y > 0.0 then y else -y);
    assert (-x) * y == -(x * y) && x * (-y) == -(x * y) && (-x) * (-y) == x * y;
  }

  lemma BlendGap(a: real, x: real, y: real)
    ensures Blend(a, x, y) - x == (1.0 - a) * (y - x)
    ensures Blend(a, x, y) - y == a * (x - y)
  {
    MulDistributes(a, x, y);
    assert (1.0 - a) * y == y - a * y;
  }

  // ----- frames of bytes: short frames are invisible

  function FrameState(cfg: VadConfig, rms: EnergyFunction, frames: seq<seq<Byte>>, n: nat): VadState
    requires n <= |frames|
  {
    if n == 0 then INITIAL
    else StepFrame(cfg, rms, FrameState(cfg, rms, frames, n - 1), frames[n - 1]).1
  }

  /** The energies of the frames of at least two bytes among the first `n`. */
  function Energies(rms: EnergyFunction, frames: seq<seq<Byte>>, n: nat): seq<real>
    requires n <= |frames|
  {
    if n == 0 then []
    else if |frames[n - 1]| < 2 then Energies(rms, frames, n - 1)
    else Energies(rms, frames, n - 1) + [FrameEnergy(rms, frames[n - 1])]
  }

  lemma {:induction false} StateAtPrefix(cfg: VadConfig, a: seq<real>, b: seq<real>, n: nat)
    requires n <= |a| && a <= b
    ensures StateAt(cfg, a, n) == StateAt(cfg, b, n)
  {
    if n > 0 {
      StateAtPrefix(cfg, a, b, n - 1);
      assert b[n - 1] == a[n - 1];
    }
  }

  lemma {:induction false} ShortFramesInvisible(cfg: VadConfig, rms: EnergyFunction, frames: seq<seq<Byte>>, n: nat)
    requires n <= |frames|
    ensures var es := Energies(rms, frames, n);
            FrameState(cfg, rms, frames, n) == StateAt(cfg, es, |es|)
  {
    if n > 0 {
      ShortFramesInvisible(cfg, rms, frames, n - 1);
      var before, es := Energies(rms, frames, n - 1), Energies(rms, frames, n);
      StateAtPrefix(cfg, before, es, |before|);
    }
  }

  /** The verdict on a byte frame: the window theorem, counted over the frames of at least two bytes. */
  lemma FrameSpeechIsWindow(cfg: VadConfig, rms: EnergyFunction, frames: seq<seq<Byte>>, i: nat)
    requires i < |frames|
    ensures var es := Energies(rms, frames, i + 1);
            var verdict := StepFrame(cfg, rms, FrameState(cfg, rms, frames, i), frames[i]).0;
            verdict <==>
            && |frames[i]| >= 2
            && exists j: nat :: |es| - 1 - cfg.hangoverFrames <= j < |es| && Energetic(cfg, es, j)
  {
    if |frames[i]| >= 2 {
      var before, es := Energies(rms, frames, i), Energies(rms, frames, i + 1);
      ShortFramesInvisible(cfg, rms, frames, i);
      StateAtPrefix(cfg, before, es, |before|);
      SpeechIsWindow(cfg, es, |es| - 1);
    }
  }

  // ----- the noise floor

  function Pow(a: real, n: nat): real {
    if n == 0 then 1.0 else a * Pow(a, n - 1)
  }

  /** The sum of (1 - a) * a^(n-1-k) * xs[k] over the n elements of xs. */
  function Weighted(a: real, xs: seq<real>): real {
    if xs == [] then 0.0
    else (1.0 - a) * Pow(a, |xs| - 1) * xs[0] + Weighted(a, xs[1..])
  }

  /** The closed form of the exponential average that starts at -60. */
  function Ema(a: real, xs: seq<real>): real {
    Pow(a, |xs|) * INITIAL_FLOOR + Weighted(a, xs)
  }

  /** The energies of the non-speech frames among the first `n`, in order. */
  function NonSpeech(cfg: VadConfig, es: seq<real>, n: nat): seq<real>
    requires n <= |es|
  {
    if n == 0 then []
    else NonSpeech(cfg, es, n - 1) + if Speech(cfg, es, n - 1) then [] else [es[n - 1]]
  }

  lemma {:induction false} WeightedAppend(a: real, xs: seq<real>, x: real)
    ensures Weighted(a, xs + [x]) == Blend(a, Weighted(a, xs), x)
  {
    if xs == [] {
      assert ([] + [x])[1..] == [];
      assert Weighted(a, [x]) == (1.0 - a) * 1.0 * x + Weighted(a, []);
    } else {
      assert (xs + [x])[1..] == xs[1..] + [x];
      WeightedAppend(a, xs[1..], x);
      var p, w := Pow(a, |xs| - 1), Weighted(a, xs[1..]);
      assert Pow(a, |xs|) == a * p;
      Regroup(a, p, xs[0], w, (1.0 - a) * x);
    }
  }

  lemma Regroup(a: real, p: real, y: real, w: real, z: real)
    ensures (1.0 - a) * (a * p) * y + (a * w + z) == a * ((1.0 - a) * p * y + w) + z
  {
    var q := (1.0 - a) * p * y;
    assert (1.0 - a) * (a * p) * y == a * q;
    assert a * (q + w) == a * q + a * w;
  }

  lemma EmaAppend(a: real, xs: seq<real>, x: real)
    ensures Ema(a, xs + [x]) == Blend(a, Ema(a, xs), x)
  {
    WeightedAppend(a, xs, x);
    var p, w := Pow(a, |xs|), Weighted(a, xs);
    assert a * (p * INITIAL_FLOOR + w) == (a * p) * INITIAL_FLOOR + a * w;
  }

  /** The floor is the closed-form exponential average of -60 and the non-speech energies. */
  lemma {:induction false} FloorClosedForm(cfg: VadConfig, es: seq<real>, n: nat)
    requires n <= |es|
    ensures var a := cfg.noiseAdaptRate;
            var xs := NonSpeech(cfg, es, n);
            StateAt(cfg, es, n).noiseFloor == Ema(a, xs)
  {
    if n > 0 {
      FloorClosedForm(cfg, es, n - 1);
      var a, xs := cfg.noiseAdaptRate, NonSpeech(cfg, es, n - 1);
      if !Speech(cfg, es, n - 1) {
        EmaAppend(a, xs, es[n - 1]);
      } else {
        assert NonSpeech(cfg, es, n) == xs;
      }
    }
  }

  lemma MulNonNegative(x: real, y: real)
    requires x >= 0.0 && y >= 0.0
    ensures x * y >= 0.0
  {
  }

  lemma Convex(a: real, x: real, y: real, lo: real, hi: real)
    requires 0.0 <= a <= 1.0 && lo <= x <= hi && lo <= y <= hi
    ensures lo <= Blend(a, x, y) <= hi
  {
    MulNonNegative(a, x - lo);
    MulNonNegative(1.0 - a, y - lo);
    MulNonNegative(a, hi - x);
    MulNonNegative(1.0 - a, hi - y);
    MulDistributes(a, x, lo);
    MulDistributes(1.0 - a, y, lo);
    MulDistributes(a, hi, x);
    MulDistributes(1.0 - a, hi, y);
    Affine(a, lo);
    Affine(a, hi);
  }

  lemma MulDistributes(a: real, x: real, y: real)
    ensures a * (x - y) == a * x - a * y
  {
  }

  lemma Affine(a: real, x: real)
    ensures a * x + (1.0 - a) * x == x
  {
  }

  /** The floor never leaves the range of -60 and the non-speech energies. */
  lemma {:induction false} FloorBounded(cfg: VadConfig, es: seq<real>, n: nat, lo: real, hi: real)
    requires n <= |es| && 0.0 <= cfg.noiseAdaptRate <= 1.0
    requires lo <= INITIAL_FLOOR <= hi
    requires forall x :: x in NonSpeech(cfg, es, n) ==> lo <= x <= hi
    ensures lo <= StateAt(cfg, es, n).noiseFloor <= hi
  {
    if n > 0 {
      var before, after := NonSpeech(cfg, es, n - 1), NonSpeech(cfg, es, n);
      assert forall x :: x in before ==> x in after;
      FloorBounded(cfg, es, n - 1, lo, hi);
      if !Speech(cfg, es, n - 1) {
        assert after == before + [es[n - 1]] && es[n - 1] in after;
        Convex(cfg.noiseAdaptRate, StateAt(cfg, es, n - 1).noiseFloor, es[n - 1], lo, hi);
      }
    }
  }

  /** One non-speech frame raises the floor by less than (1 - a) times the speech ratio. */
  lemma FloorRisesSlowly(cfg: VadConfig, es: seq<real>, i: nat)
    requires i < |es| && cfg.noiseAdaptRate < 1.0 && !Speech(cfg, es, i)
    ensures StateAt(cfg, es, i + 1).noiseFloor - StateAt(cfg, es, i).noiseFloor
            < (1.0 - cfg.noiseAdaptRate) * cfg.speechRatioDb
  {
    var a, f, e := cfg.noiseAdaptRate, StateAt(cfg, es, i).noiseFloor, es[i];
    BlendGap(a, f, e);
    MulStrict(1.0 - a, e - f, cfg.speechRatioDb);
  }

  lemma MulStrict(x: real, y: real, z: real)
    requires x > 0.0 && y < z
    ensures x * y < x * z
  {
  }

  /** `n` frames of one energy, from a state of one's choosing. */
  function Constant(cfg: VadConfig, s: VadState, e: real, n: nat): VadState {
    if n == 0 then s else Step(cfg, Constant(cfg, s, e, n - 1), e).1
  }

  /** With the hangover drained, a constant quiet energy attracts the floor at exactly the rate a. */
  lemma {:induction false} FloorConverges(cfg: VadConfig, s: VadState, e: real, n: nat)
    requires 0.0 <= cfg.noiseAdaptRate <= 1.0 && cfg.speechRatioDb > 0.0
    requires s.hangover == 0 && !Above(cfg, s, e)
    ensures var t := Constant(cfg, s, e, n);
            && t.hangover == 0 && !Step(cfg, t, e).0
            && t.noiseFloor - e == Pow(cfg.noiseAdaptRate, n) * (s.noiseFloor - e)
  {
    if n > 0 {
      FloorConverges(cfg, s, e, n - 1);
      var t := Constant(cfg, s, e, n - 1);
      QuietStep(cfg, t, e);
      Associate(cfg.noiseAdaptRate, Pow(cfg.noiseAdaptRate, n - 1), s.noiseFloor - e);
    }
  }

  /** One quiet frame shrinks the distance to its energy and leaves that energy below the threshold. */
  lemma QuietStep(cfg: VadConfig, t: VadState, e: real)
    requires 0.0 <= cfg.noiseAdaptRate <= 1.0 && cfg.speechRatioDb > 0.0
    requires t.hangover == 0 && !Above(cfg, t, e)
    ensures var u := Step(cfg, t, e).1;
            && u.hangover == 0 && !Above(cfg, u, e)
            && u.noiseFloor - e == cfg.noiseAdaptRate * (t.noiseFloor - e)
  {
    BlendGap(cfg.noiseAdaptRate, t.noiseFloor, e);
    Shrinks(cfg.noiseAdaptRate, t.noiseFloor - e, cfg.speechRatioDb);
  }

  lemma Associate(x: real, y: real, z: real)
    ensures x * (y * z) == (x * y) * z
  {
  }

  lemma Shrinks(a: real, x: real, bound: real)
    requires 0.0 <= a <= 1.0 && -x < bound && 0.0 < bound
    ensures -(a * x) < bound
  {
    if x >= 0.0 {
      MulNonNegative(a, x);
    } else {
      MulNonNegative(1.0 - a, -x);
      assert a * x == x + (1.0 - a) * (-x);
    }
  }

  // ----- the detector object

  class EnergyVad {
    const config: VadConfig
    const rms: EnergyFunction
    var noiseFloor: real
    var hangover: nat

    function State(): VadState
      reads this
    {
      VadState(noiseFloor, hangover)
    }

    constructor (config: VadConfig, rms: EnergyFunction)
      ensures this.config == config && this.rms == rms && State() == INITIAL
    {
      this.config, this.rms := config, rms;
      noiseFloor, hangover := INITIAL_FLOOR, 0;
    }

    method ProcessPcm16Bytes(raw: seq<Byte>) returns (r: VadResult)
      modifies this
      ensures (r.isSpeech, State()) == StepFrame(config, rms, old(State()), raw)
      ensures r.noiseFloorDb == noiseFloor
      ensures |raw| < 2 ==> r == VadResult(false, -96.0, old(noiseFloor), -96.0) && State() == old(State())
      ensures |raw| >= 2 ==> r.energyDb == rms(Unpack(raw)) && r.snrDb == r.energyDb - old(noiseFloor)
    {
      if |raw| < 2 {
        return VadResult(false, SILENCE_DB, noiseFloor, SILENCE_DB);
      }
      r := ProcessSamples(Unpack(raw));
    }

    method ProcessSamples(samples: seq<int>) returns (r: VadResult)
      modifies this
      ensures (r.isSpeech, State()) == Step(config, old(State()), Energy(rms, samples))
      ensures r.energyDb == if samples == [] then -96.0 else rms(samples)
      ensures r.noiseFloorDb == noiseFloor
      ensures r.snrDb == r.energyDb - old(noiseFloor)
    {
      var energyDb := SILENCE_DB;
      if samples != [] {
        energyDb := rms(samples);
      }
      var snrDb := energyDb - noiseFloor;
      var isSpeech;
      if snrDb >= config.speechRatioDb {
        hangover := config.hangoverFrames;
        isSpeech := true;
      } else if hangover > 0 {
        hangover := hangover - 1;
        isSpeech := true;
      } else {
        isSpeech := false;
        noiseFloor := Blend(config.noiseAdaptRate, noiseFloor, energyDb);
      }
      r := VadResult(isSpeech, energyDb, noiseFloor, snrDb);
    }

    method Reset()
      modifies this
      ensures State() == INITIAL
    {
      noiseFloor, hangover := INITIAL_FLOOR, 0;
    }
  }
}
