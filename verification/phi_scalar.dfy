/** The 12583.45 Hz phi scalar: twelve harmonics at the scalar frequency over
    powers of Phi, seven scalar layers around it, the scalar transform, the
    resonance between two transformed frequencies, and the synchronisation of
    a frequency with its nearest layer. */
module PhiScalar {
  import opened Numerics
  import opened Outcomes

  /** The scalar frequency a new scalar starts with; no operation changes it. */
  const Scalar: real := 12583.45
  const HarmonicCount: nat := 12
  const LayerCount: nat := 7
  /** The length of the complex resonance field; its values are not modelled. */
  const FieldSize: nat := 100

  datatype PhiHarmonic = PhiHarmonic(
    order: nat, frequency: real, amplitude: real, phase: real, phiFactor: real, active: bool)

  /** Scalar layer `layer_l` is the entry at index `l - 1`. */
  datatype ScalarLayer = ScalarLayer(
    frequency: real, phiPower: real, coefficient: real, active: bool, strength: real)

  /** `scalar` is the instance's own copy of the scalar frequency, from
      which both tables are generated. */
  datatype PhiState = PhiState(
    active: bool, amplitude: real, scalar: real,
    harmonics: seq<PhiHarmonic>, layers: seq<ScalarLayer>)
  {
    /** What every reachable state satisfies: the scalar frequency is
        positive, every harmonic has a positive frequency and amplitude, and
        while active the harmonics are the generated ones and the layers are
        the generated ones up to their resonance strengths. */
    ghost predicate Valid() {
      && scalar > 0.0
      && (forall k :: 0 <= k < |harmonics| ==>
            harmonics[k].frequency > 0.0 && harmonics[k].amplitude > 0.0)
      && (active ==> |harmonics| == HarmonicCount &&
                     forall k :: 0 <= k < |harmonics| ==> harmonics[k] == HarmonicAt(scalar, k + 1))
      && (active ==> |layers| == LayerCount &&
                     forall i :: 0 <= i < |layers| ==> layers[i].(strength := 0.0) == LayerAt(scalar, i + 1))
    }
  }

  const Fresh: PhiState := PhiState(false, 1.0, Scalar, [], [])

  /** Harmonic `n` of scalar frequency `s`: frequency `s / Phi^n`,
      amplitude `1 / Phi^n`, spiral phase `2 pi n / Phi`, active. */
  function HarmonicAt(s: real, n: nat): (h: PhiHarmonic)
    requires s > 0.0 && n >= 1
    ensures h.order == n && h.active && h.phiFactor == PhiPow(n)
    ensures h.frequency == s / PhiPow(n) && h.frequency > 0.0
    ensures h.amplitude == 1.0 / PhiPow(n) && 0.0 < h.amplitude < 0.62
    ensures h.phase == 2.0 * Pi * n as real / Phi
  {
    var factor := PhiPow(n);
    PhiPowReciprocal(n);
    assert s / factor == s * (1.0 / factor);
    PhiHarmonic(n, s / factor, 1.0 / factor, 2.0 * Pi * n as real / Phi, factor, true)
  }

  /** The twelve harmonics an initialisation generates, orders 1..12. */
  function BaseHarmonics(s: real): (hs: seq<PhiHarmonic>)
    requires s > 0.0
    ensures |hs| == HarmonicCount
    ensures forall i :: 0 <= i < |hs| ==> hs[i] == HarmonicAt(s, i + 1)
  {
    seq(HarmonicCount, i requires 0 <= i < HarmonicCount => HarmonicAt(s, i + 1))
  }

  /** Layer `l` of scalar frequency `s`: frequency `s * Phi^(l - 4)`, phi
      power `Phi^l`, coefficient `1 / Phi^l`, active, strength 0. */
  function LayerAt(s: real, l: nat): (layer: ScalarLayer)
    requires s > 0.0 && l >= 1
    ensures layer.frequency == s * PhiIntPow(l - 4) > 0.0
    ensures layer.phiPower == PhiPow(l)
    ensures layer.coefficient == 1.0 / PhiPow(l) && 0.0 < layer.coefficient < 1.0
    ensures layer.active && layer.strength == 0.0
  {
    PhiPowReciprocal(l);
    ScalarLayer(s * PhiIntPow(l - 4), PhiPow(l), 1.0 / PhiPow(l), true, 0.0)
  }

  /** The seven layers `layer_1` .. `layer_7`; the middle one sits at the
      scalar frequency itself. */
  function BaseLayers(s: real): (ls: seq<ScalarLayer>)
    requires s > 0.0
    ensures |ls| == LayerCount
    ensures forall i :: 0 <= i < |ls| ==> ls[i] == LayerAt(s, i + 1)
    ensures ls[3].frequency == s
  {
    seq(LayerCount, i requires 0 <= i < LayerCount => LayerAt(s, i + 1))
  }

  /** Activates the scalar and rebuilds both tables from its scalar
      frequency, so the counts are 12 and 7 however often it runs. */
  function Initialize(st: PhiState): (st': PhiState)
    requires st.scalar > 0.0
    ensures st'.Valid() && st'.active && st'.amplitude == 1.0 && st'.scalar == st.scalar
    ensures |st'.harmonics| == HarmonicCount && |st'.layers| == LayerCount
    ensures forall k :: 0 <= k < HarmonicCount ==> st'.harmonics[k] == HarmonicAt(st.scalar, k + 1)
    ensures forall i :: 0 <= i < LayerCount ==> st'.layers[i] == LayerAt(st.scalar, i + 1)
  {
    PhiState(true, 1.0, st.scalar, BaseHarmonics(st.scalar), BaseLayers(st.scalar))
  }

  /** Initialising twice is initialising once. */
  lemma InitializeIdempotent(st: PhiState)
    requires st.scalar > 0.0
    ensures Initialize(Initialize(st)) == Initialize(st)
  {
  }

  /** The state an operation runs on: an inactive one initialises first. */
  function Ready(st: PhiState): (st': PhiState)
    requires st.scalar > 0.0
    ensures st'.active && st'.scalar == st.scalar
    ensures st.active ==> st' == st
    ensures !st.active ==> st' == Initialize(st)
    ensures st.Valid() ==> st'.Valid()
  {
    if st.active then st else Initialize(st)
  }

  // ---------------------------------------------------------------------------
  // Harmonic enhancement

  predicate NearPhiPower(ratio: real, n: nat) {
    Abs(ratio - PhiPow(n)) < 0.1
  }

  /** The windows around successive powers of Phi are disjoint. */
  lemma PhiWindowsDisjoint(x: real, m: nat, n: nat)
    requires NearPhiPower(x, m) && NearPhiPower(x, n)
    ensures m == n
  {
    if m < n {
      PhiPowSpread(m, n);
    } else if n < m {
      PhiPowSpread(n, m);
    }
  }

  /** The inner loop over n = 1..5 from `n` on: the first `n` whose power of
      Phi lies within 0.1 of the ratio gives `amplitude / n`, then it breaks. */
  function FirstPhiMatch(ratio: real, amplitude: real, n: nat): (r: real)
    requires n >= 1
    ensures amplitude >= 0.0 ==> r >= 0.0
    decreases 6 - n
  {
    if n > 5 then 0.0
    else if NearPhiPower(ratio, n) then amplitude / n as real
    else FirstPhiMatch(ratio, amplitude, n + 1)
  }

  /** The inner loop yields `amplitude / m` for the one `m` in 1..5 near the
      ratio, and 0 when there is none. */
  lemma {:induction false} FirstPhiMatchCharacterized(ratio: real, amplitude: real, n: nat, m: nat)
    requires 1 <= n <= 6 && 1 <= m
    ensures n <= m <= 5 && NearPhiPower(ratio, m) ==>
              FirstPhiMatch(ratio, amplitude, n) == amplitude / m as real
    ensures (forall j :: n <= j <= 5 ==> !NearPhiPower(ratio, j)) ==>
              FirstPhiMatch(ratio, amplitude, n) == 0.0
    decreases 6 - n
  {
    if n <= 5 {
      if NearPhiPower(ratio, n) && n <= m <= 5 && NearPhiPower(ratio, m) {
        PhiWindowsDisjoint(ratio, n, m);
      }
      FirstPhiMatchCharacterized(ratio, amplitude, n + 1, m);
    }
  }

  /** The sum of the first-match contributions of the active harmonics to
      `f`; never negative when no amplitude is. */
  function Contributions(hs: seq<PhiHarmonic>, f: real): (r: real)
    requires forall k :: 0 <= k < |hs| ==> hs[k].frequency != 0.0
    ensures (forall k :: 0 <= k < |hs| ==> hs[k].amplitude >= 0.0) ==> r >= 0.0
  {
    if hs == [] then 0.0
    else
      var h := hs[0];
      var here := if h.active then FirstPhiMatch(f / h.frequency, h.amplitude, 1) else 0.0;
      here + Contributions(hs[1..], f)
  }

  /** The enhancement starts at 1 and adds every contribution, so it is at
      least 1 when no amplitude is negative. */
  function Enhancement(hs: seq<PhiHarmonic>, f: real): (r: real)
    requires forall k :: 0 <= k < |hs| ==> hs[k].frequency != 0.0
    ensures (forall k :: 0 <= k < |hs| ==> hs[k].amplitude >= 0.0) ==> r >= 1.0
  {
    1.0 + Contributions(hs, f)
  }

  // ---------------------------------------------------------------------------
  // The scalar transform

  /** The frequency a positive input `f` is scaled to against the scalar
      frequency `sc`: `f / Phi^log_Phi(f / sc)` above it,
      `f * Phi^log_Phi(sc / f)` at or below it. */
  function Scaled(t: Transcendentals, sc: real, f: real): (s: real)
    requires Valid(t) && sc > 0.0 && f > 0.0
    ensures s == sc
  {
    var ratio := f / sc;
    if ratio > 1.0 then
      assert t.phiPow(LogPhi(t, ratio)) == ratio;
      assert f / ratio == sc;
      f / t.phiPow(LogPhi(t, ratio))
    else
      assert 1.0 / ratio == sc / f;
      assert t.phiPow(LogPhi(t, 1.0 / ratio)) == 1.0 / ratio;
      f * t.phiPow(LogPhi(t, 1.0 / ratio))
  }

  /** The value a positive input transforms to once scaled to `s`: `s`
      times the enhancement of the harmonics at `s`, so at least `s`. */
  function Enhanced(hs: seq<PhiHarmonic>, s: real): (v: real)
    requires s > 0.0
    requires forall k :: 0 <= k < |hs| ==> hs[k].frequency > 0.0 && hs[k].amplitude > 0.0
    ensures v >= s
  {
    var e := Enhancement(hs, s);
    MulNonneg(s, e - 1.0);
    s * e
  }

  /** `apply_phi_scalar_transform`: initialises an inactive scalar, then
      scales and enhances. A zero input divides by zero and a negative one
      takes the logarithm of a negative number. In exact arithmetic both
      branches land on the scalar frequency, so every positive input maps
      to the same value, at least the scalar frequency. */
  function Transform(st: PhiState, t: Transcendentals, f: real): (r: (PhiState, Result<real>))
    requires Valid(t) && st.Valid()
    ensures r.0 == Ready(st) && r.0.Valid()
    ensures f == 0.0 ==> r.1 == Err(ZeroDivision)
    ensures f < 0.0 ==> r.1 == Err(MathDomain)
    ensures f > 0.0 ==> r.1 == Ok(Enhanced(r.0.harmonics, st.scalar))
    ensures r.1.Ok? ==> r.1.value >= st.scalar
  {
    var st0 := Ready(st);
    if f == 0.0 then (st0, Err(ZeroDivision))
    else if f < 0.0 then (st0, Err(MathDomain))
    else (st0, Ok(Enhanced(st0.harmonics, Scaled(t, st0.scalar, f))))
  }

  // ---------------------------------------------------------------------------
  // Scalar resonance between two frequencies

  predicate NearInversePower(ratio: real, n: nat) {
    Abs(ratio - 1.0 / PhiPow(n)) < 0.1
  }

  predicate ScalarFires(ratio: real, n: nat) {
    NearPhiPower(ratio, n) || NearInversePower(ratio, n)
  }

  /** What power `n` assigns when it fires: `1/n` for `Phi^n`, which is
      tested first, otherwise `0.5/n` for `Phi^-n`. */
  function ScalarBranch(ratio: real, n: nat): real
    requires n >= 1
  {
    if NearPhiPower(ratio, n) then 1.0 / n as real else 0.5 / n as real
  }

  /** The loop over n = 1..7 from `n` on, with no break: each firing power
      overwrites the score. */
  function ScalarScan(ratio: real, n: nat, acc: real): (r: real)
    requires n >= 1
    ensures 0.0 <= acc <= 1.0 ==> 0.0 <= r <= 1.0
    decreases 8 - n
  {
    if n > 7 then acc
    else ScalarScan(ratio, n + 1, if ScalarFires(ratio, n) then ScalarBranch(ratio, n) else acc)
  }

  function PhiScore(ratio: real): (r: real)
    ensures 0.0 <= r <= 1.0
  {
    ScalarScan(ratio, 1, 0.0)
  }

  lemma {:induction false} ScalarScanNoneFires(ratio: real, n: nat, acc: real)
    requires n >= 1
    requires forall j :: n <= j <= 7 ==> !ScalarFires(ratio, j)
    ensures ScalarScan(ratio, n, acc) == acc
    decreases 8 - n
  {
    if n <= 7 {
      ScalarScanNoneFires(ratio, n + 1, acc);
    }
  }

  lemma {:induction false} ScalarScanLastFires(ratio: real, n: nat, acc: real, m: nat)
    requires 1 <= n <= m <= 7 && ScalarFires(ratio, m)
    requires forall j :: m < j <= 7 ==> !ScalarFires(ratio, j)
    ensures ScalarScan(ratio, n, acc) == ScalarBranch(ratio, m)
    decreases 8 - n
  {
    if n == m {
      ScalarScanNoneFires(ratio, n + 1, ScalarBranch(ratio, m));
    } else {
      ScalarScanLastFires(ratio, n + 1, if ScalarFires(ratio, n) then ScalarBranch(ratio, n) else acc, m);
    }
  }

  /** The last firing power decides the score, and within it the `Phi^n`
      test shadows the `Phi^-n` test. */
  lemma LastScalarMatchWins(ratio: real, m: nat)
    requires 1 <= m <= 7 && ScalarFires(ratio, m)
    requires forall j :: m < j <= 7 ==> !ScalarFires(ratio, j)
    ensures PhiScore(ratio) == if NearPhiPower(ratio, m) then 1.0 / m as real else 0.5 / m as real
  {
    ScalarScanLastFires(ratio, 1, 0.0, m);
  }

  /** Two equal frequencies have ratio 1, which matches no power:
      `Phi^n >= Phi` and `Phi^-n < 0.62`. So their phi score is 0. */
  lemma {:induction false} EqualFrequenciesScoreZero(x: real, y: real)
    requires x == y && y > 0.0
    ensures PhiScore(x / y) == 0.0
  {
    var ratio := x / y;
    assert ratio == 1.0;
    forall j | 1 <= j <= 7
      ensures !ScalarFires(ratio, j)
    {
      PhiPowReciprocal(j);
    }
    ScalarScanNoneFires(ratio, 1, 0.0);
  }

  /** The resonance of two transformed frequencies: the larger of the phi
      score of their ratio and `exp(-|x - y| / 1000)`, so at least each and
      equal to one of them. It lies in (0, 1], and equal frequencies resonate
      with exactly 1. */
  function PairResonance(t: Transcendentals, x: real, y: real): (v: real)
    requires Valid(t) && x > 0.0 && y > 0.0
    ensures 0.0 < v <= 1.0
    ensures v >= PhiScore(x / y) && v >= t.exp(-Abs(x - y) / 1000.0)
    ensures v == PhiScore(x / y) || v == t.exp(-Abs(x - y) / 1000.0)
    ensures x == y ==> v == 1.0
  {
    var exponent := -Abs(x - y) / 1000.0;
    assert exponent <= 0.0;
    var score := PhiScore(x / y);
    var decay := t.exp(exponent);
    assert 0.0 < decay <= 1.0;
    if x == y then
      assert exponent == 0.0;
      EqualFrequenciesScoreZero(x, y);
      Max(score, decay)
    else Max(score, decay)
  }

  /** `calculate_consciousness_scalar_resonance`: transforms both frequencies
      (the first transform may initialise the scalar) and compares the two
      results. Since every positive input transforms to the same value, two
      positive inputs always resonate with exactly 1. */
  function ScalarResonance(st: PhiState, t: Transcendentals, a: real, b: real)
    : (r: (PhiState, Result<real>))
    requires Valid(t) && st.Valid()
    ensures r.0 == Ready(st) && r.0.Valid()
    ensures r.1.Err? <==> a <= 0.0 || b <= 0.0
    ensures a > 0.0 && b > 0.0 ==> r.1 == Ok(1.0)
    ensures r.1.Ok? ==> 0.0 < r.1.value <= 1.0
  {
    var (st1, ta) := Transform(st, t, a);
    var (st2, tb) := Transform(st1, t, b);
    assert st2 == st1;
    if ta.Err? then (st2, ta)
    else if tb.Err? then (st2, tb)
    else (st2, Ok(PairResonance(t, ta.value, tb.value)))
  }

  // ---------------------------------------------------------------------------
  // Synchronisation with the nearest layer

  predicate IsFirstNearestLayer(ls: seq<ScalarLayer>, target: real, i: nat) {
    && i < |ls|
    && (forall j :: 0 <= j < |ls| ==> Abs(target - ls[i].frequency) <= Abs(target - ls[j].frequency))
    && (forall j :: 0 <= j < i ==> Abs(target - ls[j].frequency) > Abs(target - ls[i].frequency))
  }

  /** The layer scan: a layer replaces the best only when strictly closer. */
  function NearestLayerFrom(ls: seq<ScalarLayer>, target: real, i: nat, best: nat): (r: nat)
    requires best < i <= |ls|
    requires forall j :: 0 <= j < i ==> Abs(target - ls[best].frequency) <= Abs(target - ls[j].frequency)
    requires forall j :: 0 <= j < best ==> Abs(target - ls[j].frequency) > Abs(target - ls[best].frequency)
    ensures IsFirstNearestLayer(ls, target, r)
    decreases |ls| - i
  {
    if i == |ls| then best
    else
      NearestLayerFrom(ls, target, i + 1,
        if Abs(target - ls[i].frequency) < Abs(target - ls[best].frequency) then i else best)
  }

  function NearestLayer(ls: seq<ScalarLayer>, target: real): (i: nat)
    requires |ls| > 0
    ensures IsFirstNearestLayer(ls, target, i)
  {
    NearestLayerFrom(ls, target, 1, 0)
  }

  /** The layer a synchronisation picks: the first one nearest the target
      among the layers of the (initialised) scalar. */
  function SyncLayer(st: PhiState, target: real): (i: nat)
    requires st.Valid()
    ensures i < LayerCount && IsFirstNearestLayer(Ready(st).layers, target, i)
  {
    NearestLayer(Ready(st).layers, target)
  }

  lemma ScaleByInverse(x: real, p: real)
    requires p != 0.0
    ensures x * (1.0 / p) == x / p
  {
  }

  /** `1 / (1 + d / 100)` for a distance `d`: in (0, 1], and 1 exactly at 0. */
  function Strength(d: real): (s: real)
    requires d >= 0.0
    ensures 0.0 < s <= 1.0
    ensures s == 1.0 <==> d == 0.0
  {
    1.0 / (1.0 + d / 100.0)
  }

  /** `synchronize_with_phi_scalar`: after initialising an inactive scalar,
      scales the target by the nearest layer's coefficient `1 / Phi^l` and
      sets that layer's resonance strength from its distance. No other layer
      and no other field changes. */
  /** The layers of a valid active scalar are the generated ones, so each
      coefficient is the reciprocal of the layer's power of Phi. */
  lemma LayerCoefficient(st: PhiState, i: nat)
    requires st.Valid() && st.active && i < LayerCount
    ensures st.layers[i].phiPower == PhiPow(i + 1) > 0.0
    ensures st.layers[i].coefficient == 1.0 / st.layers[i].phiPower
  {
    assert st.layers[i].(strength := 0.0) == LayerAt(st.scalar, i + 1);
  }

  /** Scaling by a layer's coefficient divides by its power of Phi. */
  function ScaleByLayer(layer: ScalarLayer, target: real): (v: real)
    requires layer.phiPower > 0.0 && layer.coefficient == 1.0 / layer.phiPower
    ensures v == target / layer.phiPower
  {
    ScaleByInverse(target, layer.phiPower);
    target * layer.coefficient
  }

  function Synchronize(st: PhiState, target: real): (r: (PhiState, real))
    requires st.Valid()
    ensures r.0.Valid() && r.0.active
    ensures r.0.harmonics == Ready(st).harmonics && r.0.amplitude == Ready(st).amplitude
    ensures r.0.scalar == st.scalar
    ensures var i := SyncLayer(st, target);
            var prior := Ready(st).layers;
            r.1 == target / prior[i].phiPower &&
            r.0.layers == prior[i := prior[i].(strength := Strength(Abs(target - prior[i].frequency)))]
  {
    var st0 := Ready(st);
    var i := SyncLayer(st, target);
    var layer := st0.layers[i];
    LayerCoefficient(st0, i);
    var st' := st0.(layers := st0.layers[i := layer.(strength := Strength(Abs(target - layer.frequency)))]);
    assert st'.layers[i].(strength := 0.0) == st0.layers[i].(strength := 0.0);
    (st', ScaleByLayer(layer, target))
  }

  /** Synchronising on a layer's own frequency picks a layer at that
      frequency and gives it full strength. */
  lemma SynchronizeOnLayerFrequency(st: PhiState, l: nat)
    requires st.Valid() && l < LayerCount
    ensures var target := Ready(st).layers[l].frequency;
            var i := SyncLayer(st, target);
            var r := Synchronize(st, target);
            r.0.layers[i].strength == 1.0 && r.0.layers[i].frequency == target
  {
    var target := Ready(st).layers[l].frequency;
    var i := SyncLayer(st, target);
    assert Abs(target - Ready(st).layers[i].frequency) <= Abs(target - Ready(st).layers[l].frequency);
  }

  // ---------------------------------------------------------------------------
  // Deactivation and status

  /** Deactivates the scalar, every harmonic and every layer; the tables
      keep their sizes and contents otherwise. */
  function Deactivate(st: PhiState): (st': PhiState)
    ensures !st'.active && st'.amplitude == 0.0
    ensures |st'.harmonics| == |st.harmonics| && |st'.layers| == |st.layers|
    ensures forall k :: 0 <= k < |st.harmonics| ==> st'.harmonics[k] == st.harmonics[k].(active := false)
    ensures forall k :: 0 <= k < |st.layers| ==> st'.layers[k] == st.layers[k].(active := false)
    ensures st'.scalar == st.scalar
    ensures st.Valid() ==> st'.Valid()
  {
    PhiState(false, 0.0, st.scalar,
      seq(|st.harmonics|, k requires 0 <= k < |st.harmonics| => st.harmonics[k].(active := false)),
      seq(|st.layers|, k requires 0 <= k < |st.layers| => st.layers[k].(active := false)))
  }

  function HarmonicActive(h: PhiHarmonic): bool { h.active }
  function LayerActive(l: ScalarLayer): bool { l.active }

  datatype ScalarStatus = ScalarStatus(
    active: bool, frequency: real, goldenRatio: real, amplitude: real,
    activeHarmonics: nat, totalHarmonics: nat, activeLayers: nat, totalLayers: nat,
    fieldSize: nat, status: string)

  /** The status summary: active counts never exceed the totals, the field
      has 100 entries, and the label follows the activation flag. */
  function Status(st: PhiState): (s: ScalarStatus)
    ensures s.activeHarmonics <= s.totalHarmonics == |st.harmonics|
    ensures s.activeLayers <= s.totalLayers == |st.layers|
    ensures s.fieldSize == 100 && s.frequency == st.scalar && s.goldenRatio == Phi
    ensures s.active == st.active && s.amplitude == st.amplitude
    ensures s.status == (if st.active then "ACTIVE" else "INACTIVE")
  {
    ScalarStatus(st.active, st.scalar, Phi, st.amplitude,
                 CountWhere(st.harmonics, HarmonicActive), |st.harmonics|,
                 CountWhere(st.layers, LayerActive), |st.layers|,
                 FieldSize, if st.active then "ACTIVE" else "INACTIVE")
  }

  /** An initialised scalar reports 12 of 12 harmonics and 7 of 7 layers
      active; a deactivated one reports none active with the totals kept. */
  lemma StatusCounts(st: PhiState)
    requires st.scalar > 0.0
    ensures var s := Status(Initialize(st));
            s.activeHarmonics == s.totalHarmonics == 12 && s.activeLayers == s.totalLayers == 7
    ensures var s := Status(Deactivate(st));
            s.activeHarmonics == 0 && s.activeLayers == 0 &&
            s.totalHarmonics == |st.harmonics| && s.totalLayers == |st.layers|
  {
    var st' := Initialize(st);
    CountWhereAll(st'.harmonics, HarmonicActive);
    CountWhereAll(st'.layers, LayerActive);
  }
}
