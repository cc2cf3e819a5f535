/** The recognition anchor: a fixed 10930.81 Hz reference, a resonance score
    against it and its first nine harmonics, and the threshold that triggers
    recognition. */
module Recognition {
  import opened Numerics

  const AnchorFrequency: real := 10930.81
  const RecognitionThreshold: real := 0.85
  const SampleRate: int := 44100

  /** Harmonics 1..9 of the anchor are scored; a frequency matches harmonic
      `h` when it is within 1 Hz of `h` times the anchor. */
  const HarmonicCount: nat := 9

  datatype Resonator = Resonator(frequency: real, amplitude: real, active: bool)

  datatype Anchor = Anchor(active: bool, amplitude: real, resonators: seq<Resonator>)

  const Fresh: Anchor := Anchor(false, 1.0, [])

  function Activate(a: Anchor): (a': Anchor)
    ensures a'.active && a'.amplitude == 1.0 && a'.resonators == a.resonators
  {
    a.(active := true, amplitude := 1.0)
  }

  function Deactivate(a: Anchor): (a': Anchor)
    ensures !a'.active && a'.amplitude == 0.0 && a'.resonators == a.resonators
  {
    a.(active := false, amplitude := 0.0)
  }

  /** Appends one active resonator; existing ones are untouched. */
  function AddResonator(a: Anchor, frequency: real, amplitude: real): (a': Anchor)
    ensures |a'.resonators| == |a.resonators| + 1
    ensures a'.resonators[..|a.resonators|] == a.resonators
    ensures a'.resonators[|a.resonators|] == Resonator(frequency, amplitude, true)
    ensures a'.active == a.active && a'.amplitude == a.amplitude
  {
    a.(resonators := a.resonators + [Resonator(frequency, amplitude, true)])
  }

  predicate MatchesHarmonic(f: real, h: nat) {
    Abs(f - AnchorFrequency * h as real) < 1.0
  }

  /** The harmonic loop from harmonic `h` on, keeping the best score so far. */
  function HarmonicScan(f: real, h: nat, best: real): (r: real)
    requires h >= 1
    ensures r >= best
    decreases HarmonicCount + 1 - h
  {
    if h > HarmonicCount then best
    else HarmonicScan(f, h + 1, if MatchesHarmonic(f, h) then Max(best, 1.0 / h as real) else best)
  }

  /** The best `1/h` over the harmonics `f` matches, 0 if none. */
  function HarmonicScore(f: real): real {
    HarmonicScan(f, 1, 0.0)
  }

  /** The harmonic windows are 2 Hz wide and 10930.81 Hz apart, so a
      frequency matches at most one harmonic. */
  lemma MatchIsUnique(f: real, h: nat, j: nat)
    requires MatchesHarmonic(f, h) && MatchesHarmonic(f, j)
    ensures h == j
  {
  }

  lemma {:induction false} ScanWithoutMatch(f: real, h: nat, best: real)
    requires h >= 1
    requires forall j :: h <= j <= HarmonicCount ==> !MatchesHarmonic(f, j)
    ensures HarmonicScan(f, h, best) == best
    decreases HarmonicCount + 1 - h
  {
    if h <= HarmonicCount {
      ScanWithoutMatch(f, h + 1, best);
    }
  }

  lemma {:induction false} ScanWithMatch(f: real, h: nat, best: real, m: nat)
    requires 1 <= h <= m <= HarmonicCount && MatchesHarmonic(f, m)
    ensures HarmonicScan(f, h, best) == Max(best, 1.0 / m as real)
    decreases HarmonicCount + 1 - h
  {
    if h == m {
      forall j | h + 1 <= j <= HarmonicCount
        ensures !MatchesHarmonic(f, j)
      {
        if MatchesHarmonic(f, j) {
          MatchIsUnique(f, m, j);
        }
      }
      ScanWithoutMatch(f, h + 1, Max(best, 1.0 / m as real));
    } else {
      if MatchesHarmonic(f, h) {
        MatchIsUnique(f, m, h);
      }
      ScanWithMatch(f, h + 1, best, m);
    }
  }

  /** The harmonic score is `1/h` for the one harmonic `h` in 1..9 that `f`
      matches, and 0 when it matches none. */
  lemma HarmonicScoreCharacterized(f: real)
    ensures forall h :: 1 <= h <= HarmonicCount && MatchesHarmonic(f, h) ==>
              HarmonicScore(f) == 1.0 / h as real
    ensures (forall h :: 1 <= h <= HarmonicCount ==> !MatchesHarmonic(f, h)) ==>
              HarmonicScore(f) == 0.0
  {
    forall h | 1 <= h <= HarmonicCount && MatchesHarmonic(f, h)
      ensures HarmonicScore(f) == 1.0 / h as real
    {
      ScanWithMatch(f, 1, 0.0, h);
    }
    if forall h :: 1 <= h <= HarmonicCount ==> !MatchesHarmonic(f, h) {
      ScanWithoutMatch(f, 1, 0.0);
    }
  }

  lemma {:induction false} HarmonicScanAtMostOne(f: real, h: nat, best: real)
    requires h >= 1 && 0.0 <= best <= 1.0
    ensures 0.0 <= HarmonicScan(f, h, best) <= 1.0
    decreases HarmonicCount + 1 - h
  {
    if h <= HarmonicCount {
      assert 1.0 / h as real <= 1.0;
      HarmonicScanAtMostOne(f, h + 1,
        if MatchesHarmonic(f, h) then Max(best, 1.0 / h as real) else best);
    }
  }

  /** `min/max` of the input and the anchor, decayed by the distance. */
  function BaseResonance(t: Transcendentals, f: real): (r: real)
    requires Valid(t)
    ensures f > 0.0 ==> 0.0 < r <= 1.0
  {
    var ratio := Min(f, AnchorFrequency) / Max(f, AnchorFrequency);
    var decay := t.exp(-Abs(f - AnchorFrequency) / 1000.0);
    if f > 0.0 then
      MinOverMaxInUnit(f, AnchorFrequency);
      ProductInUnit(ratio, decay);
      ratio * decay
    else ratio * decay
  }

  /** The resonance score of `f` against the anchor: 0 while the anchor is
      inactive, otherwise the larger of the harmonic score and the base
      resonance. */
  function CheckResonance(a: Anchor, t: Transcendentals, f: real): (r: real)
    requires Valid(t)
    ensures !a.active ==> r == 0.0
    ensures a.active ==> r == Max(HarmonicScore(f), BaseResonance(t, f))
    ensures a.active && f > 0.0 ==> 0.0 < r <= 1.0
  {
    if !a.active then 0.0
    else
      HarmonicScanAtMostOne(f, 1, 0.0);
      Max(HarmonicScore(f), BaseResonance(t, f))
  }

  /** The anchor frequency itself resonates perfectly. */
  lemma AnchorResonatesFully(a: Anchor, t: Transcendentals)
    requires Valid(t) && a.active
    ensures CheckResonance(a, t, AnchorFrequency) == 1.0
  {
    assert Abs(AnchorFrequency - AnchorFrequency) / 1000.0 == 0.0;
    assert -(Abs(AnchorFrequency - AnchorFrequency) / 1000.0) == 0.0;
    HarmonicScoreCharacterized(AnchorFrequency);
    assert MatchesHarmonic(AnchorFrequency, 1);
  }

  /** Recognition fires when the resonance reaches 0.85. */
  function TriggerRecognition(a: Anchor, t: Transcendentals, f: real): (fired: bool)
    requires Valid(t)
    ensures fired <==> CheckResonance(a, t, f) >= RecognitionThreshold
    ensures !a.active ==> !fired
  {
    CheckResonance(a, t, f) >= RecognitionThreshold
  }

  /** The pulse generator activates the anchor if needed and produces
      `int(duration * 44100)` samples; a negative count yields none. Only
      the sample count is modelled. */
  function GeneratePulse(a: Anchor, duration: real): (r: (Anchor, nat))
    ensures r.0.active
    ensures a.active ==> r.0 == a
    ensures !a.active ==> r.0 == Activate(a)
    ensures duration >= 0.0 ==>
              r.1 as real <= duration * SampleRate as real < r.1 as real + 1.0
    ensures duration * SampleRate as real < 1.0 ==> r.1 == 0
  {
    var a' := if a.active then a else Activate(a);
    var n := Truncate(duration * SampleRate as real);
    (a', if n < 0 then 0 else n)
  }
}
