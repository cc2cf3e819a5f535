/** The planetary resonance grid: the seven Schumann resonances, eight
    planetary frequencies, the 7 x 8 resonance matrix between them, the
    alignment score of a set of planetary positions, and the coupling of a
    consciousness frequency to the nearest Schumann resonance. */
module Grid {
  import opened Numerics
  import opened Outcomes

  /** The Schumann resonances of the Earth, in Hz. */
  const Schumann: seq<real> := [7.83, 14.3, 20.8, 27.3, 33.8, 39.0, 45.0]

  /** The planets in the order the frequency table lists them, with their
      frequencies at the same index. */
  const PlanetNames: seq<string> :=
    ["earth", "moon", "mars", "jupiter", "saturn", "venus", "mercury", "sun"]
  const PlanetFrequencies: seq<real> :=
    [7.83, 28.0, 144.72, 183.58, 147.85, 221.23, 141.27, 126.22]

  const IntegrationThreshold: real := 0.8
  const PulseSampleRate: int := 100

  datatype Harmonic = Harmonic(frequency: real, amplitude: real, phase: real, active: bool, order: nat)

  datatype PlanetaryGrid = PlanetaryGrid(
    active: bool,
    alignment: real,
    earthAmplitude: real,
    harmonics: seq<Harmonic>,
    matrix: seq<seq<real>>)
  {
    /** The matrix is 7 x 8 and every harmonic's order names one of its rows. */
    ghost predicate Valid() {
      && |matrix| == |Schumann|
      && (forall i :: 0 <= i < |matrix| ==> |matrix[i]| == |PlanetFrequencies|)
      && (forall k :: 0 <= k < |harmonics| ==> 1 <= harmonics[k].order <= |Schumann|)
    }
  }

  const ZeroMatrix: seq<seq<real>> :=
    seq(|Schumann|, i => seq(|PlanetFrequencies|, j => 0.0))

  const Fresh: PlanetaryGrid := PlanetaryGrid(false, 0.0, 1.0, [], ZeroMatrix)

  /** The position of a planet in the frequency table, if it is listed. */
  function PlanetIndex(name: string): (r: Option<nat>)
    ensures r.None? <==> name !in PlanetNames
    ensures r.Some? ==> r.value < |PlanetNames| && PlanetNames[r.value] == name
  {
    IndexFrom(name, 0)
  }

  function IndexFrom(name: string, i: nat): (r: Option<nat>)
    requires i <= |PlanetNames|
    requires name !in PlanetNames[..i]
    ensures r.None? <==> name !in PlanetNames
    ensures r.Some? ==> r.value < |PlanetNames| && PlanetNames[r.value] == name
    decreases |PlanetNames| - i
  {
    if i == |PlanetNames| then
      assert PlanetNames[..i] == PlanetNames;
      None
    else if PlanetNames[i] == name then Some(i)
    else
      assert PlanetNames[..i + 1] == PlanetNames[..i] + [PlanetNames[i]];
      IndexFrom(name, i + 1)
  }

  /** The seven harmonics an initialisation appends: the Schumann frequency,
      amplitude 1/(i + 1), phase 0, active, order i + 1. */
  function SchumannHarmonics(): (hs: seq<Harmonic>)
    ensures |hs| == |Schumann|
    ensures forall i :: 0 <= i < |hs| ==>
              hs[i] == Harmonic(Schumann[i], 1.0 / (i + 1) as real, 0.0, true, i + 1)
  {
    seq(|Schumann|, i requires 0 <= i < |Schumann| =>
      Harmonic(Schumann[i], 1.0 / (i + 1) as real, 0.0, true, i + 1))
  }

  // ---------------------------------------------------------------------------
  // The resonance matrix

  predicate NearInteger(ratio: real, h: nat) {
    Abs(ratio - h as real) < 0.1
  }

  predicate NearSubharmonic(ratio: real, h: nat)
    requires h >= 1
  {
    Abs(ratio - 1.0 / h as real) < 0.1
  }

  /** Whether harmonic `h` assigns the running score, by either test. */
  predicate Fires(ratio: real, h: nat)
    requires h >= 1
  {
    NearInteger(ratio, h) || NearSubharmonic(ratio, h)
  }

  /** What harmonic `h` assigns when it fires: `1/h` from the integer test,
      otherwise `h/10` from the subharmonic test. */
  function BranchValue(ratio: real, h: nat): real
    requires h >= 1
  {
    if NearInteger(ratio, h) then 1.0 / h as real else h as real / 10.0
  }

  /** The loop over harmonics 1..9 from `h` on. There is no break, so each
      firing harmonic overwrites the score; it stays within [0, 1]. */
  function ResonanceScan(ratio: real, h: nat, acc: real): (r: real)
    requires h >= 1
    ensures 0.0 <= acc <= 1.0 ==> 0.0 <= r <= 1.0
    decreases 10 - h
  {
    if h > 9 then acc
    else ResonanceScan(ratio, h + 1, if Fires(ratio, h) then BranchValue(ratio, h) else acc)
  }

  function HarmonicResonance(ratio: real): (r: real)
    ensures 0.0 <= r <= 1.0
  {
    ResonanceScan(ratio, 1, 0.0)
  }

  lemma {:induction false} ScanNoneFires(ratio: real, h: nat, acc: real)
    requires h >= 1
    requires forall j :: h <= j <= 9 ==> !Fires(ratio, j)
    ensures ResonanceScan(ratio, h, acc) == acc
    decreases 10 - h
  {
    if h <= 9 {
      ScanNoneFires(ratio, h + 1, acc);
    }
  }

  /** The last firing harmonic decides the score. */
  lemma {:induction false} ScanLastFires(ratio: real, h: nat, acc: real, m: nat)
    requires 1 <= h <= m <= 9 && Fires(ratio, m)
    requires forall j :: m < j <= 9 ==> !Fires(ratio, j)
    ensures ResonanceScan(ratio, h, acc) == BranchValue(ratio, m)
    decreases 10 - h
  {
    if h == m {
      ScanNoneFires(ratio, h + 1, BranchValue(ratio, m));
    } else {
      ScanLastFires(ratio, h + 1, if Fires(ratio, h) then BranchValue(ratio, h) else acc, m);
    }
  }

  /** The score is set by the last harmonic in 1..9 that fires, and is 0 when
      none does. */
  lemma LastMatchWins(ratio: real, m: nat)
    requires 1 <= m <= 9 && Fires(ratio, m)
    requires forall j :: m < j <= 9 ==> !Fires(ratio, j)
    ensures HarmonicResonance(ratio) == BranchValue(ratio, m)
  {
    ScanLastFires(ratio, 1, 0.0, m);
  }

  /** For a ratio of at least 1 the subharmonic test never decides: for h = 1
      it coincides with the integer test, and for h >= 2 it needs a ratio
      below 0.6. */
  lemma SubharmonicBranchDead(ratio: real, h: nat)
    requires ratio >= 1.0 && h >= 1
    ensures Fires(ratio, h) ==> NearInteger(ratio, h)
    ensures Fires(ratio, h) ==> BranchValue(ratio, h) == 1.0 / h as real
  {
    if h >= 2 {
      assert 1.0 / h as real <= 0.5;
    }
  }

  /** The integer windows are 0.2 wide and 1 apart: at most one fires. */
  lemma IntegerWindowsDisjoint(ratio: real, h: nat, j: nat)
    requires NearInteger(ratio, h) && NearInteger(ratio, j)
    ensures h == j
  {
  }

  /** For a ratio of at least 1 the score is `1/h` for the one integer `h`
      in 1..9 within 0.1 of the ratio, and 0 when there is none. */
  lemma HarmonicResonanceCharacterized(ratio: real)
    requires ratio >= 1.0
    ensures forall h :: 1 <= h <= 9 && NearInteger(ratio, h) ==>
              HarmonicResonance(ratio) == 1.0 / h as real
    ensures (forall h :: 1 <= h <= 9 ==> !NearInteger(ratio, h)) ==>
              HarmonicResonance(ratio) == 0.0
  {
    forall h | 1 <= h <= 9 && NearInteger(ratio, h)
      ensures HarmonicResonance(ratio) == 1.0 / h as real
    {
      forall j | h < j <= 9
        ensures !Fires(ratio, j)
      {
        SubharmonicBranchDead(ratio, j);
        if NearInteger(ratio, j) {
          IntegerWindowsDisjoint(ratio, h, j);
        }
      }
      LastMatchWins(ratio, h);
    }
    if forall h :: 1 <= h <= 9 ==> !NearInteger(ratio, h) {
      forall j | 1 <= j <= 9
        ensures !Fires(ratio, j)
      {
        SubharmonicBranchDead(ratio, j);
      }
      ScanNoneFires(ratio, 1, 0.0);
    }
  }

  /** One matrix cell: the larger of the harmonic score of `max/min` and the
      distance decay `exp(-|s - p| / 100)`. */
  function Cell(t: Transcendentals, s: real, p: real): (r: real)
    requires Valid(t)
    requires s > 0.0 && p > 0.0
    ensures 0.0 < r <= 1.0
    ensures r >= HarmonicResonance(Max(s, p) / Min(s, p))
    ensures r >= t.exp(-Abs(s - p) / 100.0)
  {
    assert -Abs(s - p) / 100.0 <= 0.0;
    Max(HarmonicResonance(Max(s, p) / Min(s, p)), t.exp(-Abs(s - p) / 100.0))
  }

  lemma MaxOverMinAtLeastOne(a: real, b: real)
    requires a > 0.0 && b > 0.0
    ensures Max(a, b) / Min(a, b) >= 1.0
  {
    var lo, hi := Min(a, b), Max(a, b);
    assert hi >= lo;
    assert hi / lo >= lo / lo == 1.0;
  }

  /** Equal frequencies resonate fully. */
  lemma EqualFrequenciesResonateFully(t: Transcendentals, s: real)
    requires Valid(t) && s > 0.0
    ensures Cell(t, s, s) == 1.0
  {
    assert Max(s, s) / Min(s, s) == 1.0;
    assert NearInteger(1.0, 1);
    HarmonicResonanceCharacterized(1.0);
  }

  /** The resonance matrix: row i for Schumann resonance i, column j for
      planet j, every cell in (0, 1]. */
  function ResonanceMatrix(t: Transcendentals): (m: seq<seq<real>>)
    requires Valid(t)
    ensures |m| == |Schumann|
    ensures forall i :: 0 <= i < |m| ==> |m[i]| == |PlanetFrequencies|
    ensures forall i, j :: 0 <= i < |Schumann| && 0 <= j < |PlanetFrequencies| ==>
              m[i][j] == Cell(t, Schumann[i], PlanetFrequencies[j]) && 0.0 < m[i][j] <= 1.0
  {
    assert forall i :: 0 <= i < |Schumann| ==> Schumann[i] > 0.0;
    assert forall j :: 0 <= j < |PlanetFrequencies| ==> PlanetFrequencies[j] > 0.0;
    seq(|Schumann|, i requires 0 <= i < |Schumann| =>
      seq(|PlanetFrequencies|, j requires 0 <= j < |PlanetFrequencies| =>
        Cell(t, Schumann[i], PlanetFrequencies[j])))
  }

  // ---------------------------------------------------------------------------
  // Initialisation, deactivation, status

  /** Activates the grid, appends the seven Schumann harmonics without
      clearing earlier ones, and recomputes the matrix. */
  function Initialize(g: PlanetaryGrid, t: Transcendentals): (g': PlanetaryGrid)
    requires Valid(t)
    ensures g'.active && g'.earthAmplitude == 1.0 && g'.alignment == g.alignment
    ensures g'.harmonics == g.harmonics + SchumannHarmonics()
    ensures g'.matrix == ResonanceMatrix(t)
    ensures g.Valid() ==> g'.Valid()
  {
    g.(active := true, earthAmplitude := 1.0,
       harmonics := g.harmonics + SchumannHarmonics(),
       matrix := ResonanceMatrix(t))
  }

  /** The grid an operation runs on: an inactive one initialises first. */
  function Ready(g: PlanetaryGrid, t: Transcendentals): (g': PlanetaryGrid)
    requires Valid(t)
    ensures g'.active && g'.alignment == g.alignment
    ensures g.active ==> g' == g
    ensures !g.active ==> g' == Initialize(g, t)
    ensures g.Valid() ==> g'.Valid()
  {
    if g.active then g else Initialize(g, t)
  }

  /** Deactivates the grid and every harmonic; nothing else changes. */
  function Deactivate(g: PlanetaryGrid): (g': PlanetaryGrid)
    ensures !g'.active && g'.earthAmplitude == 0.0
    ensures g'.alignment == g.alignment && g'.matrix == g.matrix
    ensures |g'.harmonics| == |g.harmonics|
    ensures forall k :: 0 <= k < |g.harmonics| ==> g'.harmonics[k] == g.harmonics[k].(active := false)
    ensures g.Valid() ==> g'.Valid()
  {
    g.(active := false, earthAmplitude := 0.0,
       harmonics := seq(|g.harmonics|, k requires 0 <= k < |g.harmonics| =>
                          g.harmonics[k].(active := false)))
  }

  function IsActive(h: Harmonic): bool { h.active }

  datatype GridStatus = GridStatus(
    active: bool, alignment: real, earthAmplitude: real,
    activeHarmonics: nat, totalHarmonics: nat, threshold: real, status: string)

  /** The status summary: active harmonics never exceed the total, and the
      label follows the activation flag. */
  function Status(g: PlanetaryGrid): (s: GridStatus)
    ensures s.activeHarmonics <= s.totalHarmonics == |g.harmonics|
    ensures s.status == (if g.active then "ACTIVE" else "INACTIVE")
    ensures s.active == g.active && s.alignment == g.alignment
    ensures s.earthAmplitude == g.earthAmplitude && s.threshold == IntegrationThreshold
  {
    GridStatus(g.active, g.alignment, g.earthAmplitude, CountWhere(g.harmonics, IsActive),
               |g.harmonics|, IntegrationThreshold, if g.active then "ACTIVE" else "INACTIVE")
  }

  /** Each initialisation adds seven active harmonics; a deactivation leaves
      none active. */
  lemma InitializeAddsSevenActive(g: PlanetaryGrid, t: Transcendentals)
    requires Valid(t)
    ensures Status(Initialize(g, t)).activeHarmonics == Status(g).activeHarmonics + 7
    ensures Status(Initialize(g, t)).totalHarmonics == Status(g).totalHarmonics + 7
    ensures Status(Deactivate(g)).activeHarmonics == 0
  {
    CountWhereAppend(g.harmonics, SchumannHarmonics(), IsActive);
    CountWhereAll(SchumannHarmonics(), IsActive);
  }

  // ---------------------------------------------------------------------------
  // Planetary alignment

  /** A position folded onto [0, 90] degrees: Python's `% 180`, then the
      reflection of angles above 90. 0 and 180 degrees fold to 0. */
  function FoldAngle(position: real): (a: real)
    ensures 0.0 <= a <= 90.0
    ensures a == FloorMod(position, 180.0) || a == 180.0 - FloorMod(position, 180.0)
  {
    var m := FloorMod(position, 180.0);
    if m > 90.0 then 180.0 - m else m
  }

  lemma FloorModShift(x: real, d: real)
    requires d > 0.0
    ensures FloorMod(x + d, d) == FloorMod(x, d)
  {
    var y := x / d;
    var q := y.Floor;
    assert d / d == 1.0;
    assert (x + d) / d == x / d + d / d;
    assert q as real <= y < q as real + 1.0;
    assert (y + 1.0).Floor == q + 1;
    assert (q + 1) as real * d == q as real * d + d;
  }

  /** Folding is periodic with a half turn. */
  lemma FoldAngleHalfTurn(position: real)
    ensures FoldAngle(position + 180.0) == FoldAngle(position)
  {
    FloorModShift(position, 180.0);
  }

  /** The largest planetary frequency, Venus's, which the weights divide by. */
  const MaxPlanetFrequency: real := 221.23

  lemma VenusIsHeaviest()
    ensures PlanetNames[5] == "venus" && PlanetFrequencies[5] == MaxPlanetFrequency
    ensures forall k :: 0 <= k < |PlanetFrequencies| ==> 0.0 < PlanetFrequencies[k] <= MaxPlanetFrequency
  {
  }

  /** A planet's frequency over the largest planetary frequency. */
  function PlanetWeight(index: nat): (w: real)
    requires index < |PlanetFrequencies|
    ensures 0.0 < w <= 1.0
  {
    VenusIsHeaviest();
    PlanetFrequencies[index] / MaxPlanetFrequency
  }

  /** The weighted alignment of one planet: `cos` of the folded angle in
      radians, scaled by the planet's frequency over the largest one. */
  function PlanetFactor(t: Transcendentals, index: nat, position: real): (r: real)
    requires Valid(t) && index < |PlanetFrequencies|
    ensures 0.0 <= r <= 1.0
  {
    var angle := FoldAngle(position);
    var c := t.cos(angle * Pi / 180.0);
    var w := PlanetWeight(index);
    assert 0.0 <= angle * Pi / 180.0 <= Pi / 2.0;
    MulNonneg(c, w);
    MulNonneg(1.0 - c, w);
    c * w
  }

  /** The factors of the listed planets in input order; unknown names are skipped. */
  function KnownFactors(t: Transcendentals, positions: seq<(string, real)>): (fs: seq<real>)
    requires Valid(t)
    ensures |fs| <= |positions|
    ensures forall k :: 0 <= k < |fs| ==> 0.0 <= fs[k] <= 1.0
  {
    if positions == [] then []
    else
      var rest := KnownFactors(t, positions[1..]);
      match PlanetIndex(positions[0].0)
      case None => rest
      case Some(j) => [PlanetFactor(t, j, positions[0].1)] + rest
  }

  lemma {:induction false} KnownFactorsAppend(t: Transcendentals, a: seq<(string, real)>, b: seq<(string, real)>)
    requires Valid(t)
    ensures KnownFactors(t, a + b) == KnownFactors(t, a) + KnownFactors(t, b)
  {
    if a == [] {
      assert a + b == b;
    } else {
      assert (a + b)[1..] == a[1..] + b;
      KnownFactorsAppend(t, a[1..], b);
    }
  }

  /** Without a listed planet there are no factors. */
  lemma {:induction false} NoListedPlanetNoFactors(t: Transcendentals, positions: seq<(string, real)>)
    requires Valid(t)
    requires forall k :: 0 <= k < |positions| ==> positions[k].0 !in PlanetNames
    ensures KnownFactors(t, positions) == []
  {
    if positions != [] {
      assert positions[0].0 !in PlanetNames;
      NoListedPlanetNoFactors(t, positions[1..]);
    }
  }

  function Sum(s: seq<real>): real {
    if s == [] then 0.0 else s[0] + Sum(s[1..])
  }

  lemma {:induction false} SumInUnitBox(s: seq<real>)
    requires forall k :: 0 <= k < |s| ==> 0.0 <= s[k] <= 1.0
    ensures 0.0 <= Sum(s) <= |s| as real
  {
    if s != [] {
      SumInUnitBox(s[1..]);
    }
  }

  /** The arithmetic mean of values in [0, 1] lies in [0, 1]. */
  function Mean(s: seq<real>): (r: real)
    requires |s| > 0
    requires forall k :: 0 <= k < |s| ==> 0.0 <= s[k] <= 1.0
    ensures 0.0 <= r <= 1.0
    ensures r * |s| as real == Sum(s)
  {
    SumInUnitBox(s);
    Sum(s) / |s| as real
  }

  /** The mean of the known planets' factors, 0 when none is known, stored
      as the grid's alignment after initialising an inactive grid. */
  function CalculateAlignment(g: PlanetaryGrid, t: Transcendentals, positions: seq<(string, real)>)
    : (r: (PlanetaryGrid, real))
    requires Valid(t)
    ensures 0.0 <= r.1 <= 1.0
    ensures r.0 == Ready(g, t).(alignment := r.1)
    ensures g.Valid() ==> r.0.Valid()
  {
    var fs := KnownFactors(t, positions);
    var mean := if fs == [] then 0.0 else Mean(fs);
    (Ready(g, t).(alignment := mean), mean)
  }

  /** With no listed planet among the positions the alignment is 0. */
  lemma NoListedPlanetNoAlignment(g: PlanetaryGrid, t: Transcendentals, positions: seq<(string, real)>)
    requires Valid(t)
    requires forall k :: 0 <= k < |positions| ==> positions[k].0 !in PlanetNames
    ensures CalculateAlignment(g, t, positions).1 == 0.0
  {
    NoListedPlanetNoFactors(t, positions);
  }

  /** Positions of planets the table does not list do not move the alignment. */
  lemma UnknownPlanetIgnored(g: PlanetaryGrid, t: Transcendentals, positions: seq<(string, real)>,
                             name: string, position: real)
    requires Valid(t) && name !in PlanetNames
    ensures CalculateAlignment(g, t, positions + [(name, position)]) == CalculateAlignment(g, t, positions)
  {
    KnownFactorsAppend(t, positions, [(name, position)]);
    assert KnownFactors(t, [(name, position)]) == [];
    assert KnownFactors(t, positions) + [] == KnownFactors(t, positions);
  }

  /** Venus at 0 degrees alone gives full alignment: cos 0 = 1 and Venus has
      the largest frequency. */
  lemma VenusConjunctionAlignsFully(g: PlanetaryGrid, t: Transcendentals)
    requires Valid(t)
    ensures CalculateAlignment(g, t, [("venus", 0.0)]).1 == 1.0
  {
    assert FloorMod(0.0, 180.0) == 0.0;
    assert FoldAngle(0.0) * Pi / 180.0 == 0.0;
    assert PlanetWeight(5) == 1.0;
    assert PlanetFactor(t, 5, 0.0) == 1.0;
    assert PlanetIndex("venus") == Some(5);
    var fs := KnownFactors(t, [("venus", 0.0)]);
    assert fs == [1.0];
    assert Sum(fs) == 1.0;
  }

  // ---------------------------------------------------------------------------
  // Integration with a consciousness frequency

  predicate IsFirstNearest(f: real, i: nat)
  {
    && i < |Schumann|
    && (forall j :: 0 <= j < |Schumann| ==> Abs(Schumann[i] - f) <= Abs(Schumann[j] - f))
    && (forall j :: 0 <= j < i ==> Abs(Schumann[j] - f) > Abs(Schumann[i] - f))
  }

  /** The scan behind Python's `min(..., key=...)`: a later candidate replaces
      the best only when strictly closer, so the first minimiser is kept. */
  function NearestFrom(f: real, i: nat, best: nat): (r: nat)
    requires best < i <= |Schumann|
    requires forall j :: 0 <= j < i ==> Abs(Schumann[best] - f) <= Abs(Schumann[j] - f)
    requires forall j :: 0 <= j < best ==> Abs(Schumann[j] - f) > Abs(Schumann[best] - f)
    ensures IsFirstNearest(f, r)
    decreases |Schumann| - i
  {
    if i == |Schumann| then best
    else NearestFrom(f, i + 1, if Abs(Schumann[i] - f) < Abs(Schumann[best] - f) then i else best)
  }

  /** The index of the first Schumann resonance closest to `f`. */
  function NearestSchumann(f: real): (i: nat)
    ensures IsFirstNearest(f, i)
  {
    NearestFrom(f, 1, 0)
  }

  /** `exp(-|f / s - 1|)` for the nearest Schumann resonance `s`. */
  function Coupling(t: Transcendentals, f: real): (c: real)
    requires Valid(t)
    ensures 0.0 < c <= 1.0
  {
    var s := Schumann[NearestSchumann(f)];
    assert s > 0.0;
    t.exp(-Abs(f / s - 1.0))
  }

  /** A zero frequency couples weakly: its coupling is `exp(-1) <= 1/2`. So
      the strong branch, which divides by the frequency, never sees zero. */
  lemma ZeroCouplesWeakly(t: Transcendentals)
    requires Valid(t)
    ensures Coupling(t, 0.0) <= 0.5 < IntegrationThreshold
  {
    var s := Schumann[NearestSchumann(0.0)];
    assert s > 0.0;
    assert -Abs(0.0 / s - 1.0) == -1.0;
  }

  /** A Schumann resonance is its own nearest match and couples fully. */
  lemma SchumannCouplesFully(t: Transcendentals, k: nat)
    requires Valid(t) && k < |Schumann|
    ensures Coupling(t, Schumann[k]) == 1.0
  {
    var f := Schumann[k];
    NearestOfSchumann(f, k);
    SelfRatio(t, f, Schumann[NearestSchumann(f)]);
  }

  /** The nearest resonance to a Schumann resonance is that resonance. */
  lemma NearestOfSchumann(f: real, k: nat)
    requires k < |Schumann| && f == Schumann[k]
    ensures Schumann[NearestSchumann(f)] == f
  {
    var i := NearestSchumann(f);
    assert IsFirstNearest(f, i);
    assert Abs(Schumann[i] - f) <= Abs(Schumann[k] - f) == 0.0;
  }

  lemma SelfRatio(t: Transcendentals, f: real, s: real)
    requires Valid(t) && s == f && s > 0.0
    ensures t.exp(-Abs(f / s - 1.0)) == 1.0
  {
    assert f / s == 1.0;
    assert -Abs(f / s - 1.0) == 0.0;
  }

  /** The total amplitude of the active harmonics. */
  function ActiveAmplitude(hs: seq<Harmonic>): (r: real)
  {
    if hs == [] then 0.0
    else (if hs[0].active then Abs(hs[0].amplitude) else 0.0) + ActiveAmplitude(hs[1..])
  }

  /** One harmonic's share `a * s` for a sine value `s`: at most `|a|`. */
  function ModulationTerm(a: real, s: real): (r: real)
    requires -1.0 <= s <= 1.0
    ensures Abs(r) <= Abs(a)
  {
    AbsProductBound(s, a);
    assert a * s == s * a;
    a * s
  }

  /** `sum amplitude * 0.1 * sin(2 pi frequency / f)` over the active
      harmonics; bounded by a tenth of their total amplitude. */
  function Modulation(t: Transcendentals, hs: seq<Harmonic>, f: real): (r: real)
    requires Valid(t) && f != 0.0
    ensures Abs(r) <= 0.1 * ActiveAmplitude(hs)
  {
    if hs == [] then 0.0
    else
      var h := hs[0];
      var here :=
        if h.active then ModulationTerm(h.amplitude * 0.1, t.sin(2.0 * Pi * h.frequency / f))
        else 0.0;
      var rest := Modulation(t, hs[1..], f);
      assert Abs(here + rest) <= Abs(here) + Abs(rest);
      here + rest
  }

  /** The strong branch: `f (1 + 0.3 alignment)` plus the harmonic modulation. */
  function StrongIntegration(t: Transcendentals, alignment: real, hs: seq<Harmonic>, f: real): (r: real)
    requires Valid(t) && f != 0.0
    ensures Abs(r - f * (1.0 + alignment * 0.3)) <= 0.1 * ActiveAmplitude(hs)
  {
    f * (1.0 + alignment * 0.3) + Modulation(t, hs, f)
  }

  /** The weak branch: `f (1 + coupling / 10)`, between `f` and `1.1 f` for
      a nonnegative `f` and a coupling in (0, 1]. */
  function WeakIntegration(c: real, f: real): (r: real)
    requires 0.0 < c <= 1.0
    ensures f >= 0.0 ==> f <= r <= 1.1 * f
  {
    assert f >= 0.0 ==> f * (c * 0.1) >= 0.0 && f * (0.1 - c * 0.1) >= 0.0 by {
      if f >= 0.0 {
        MulNonneg(f, c * 0.1);
        MulNonneg(f, 0.1 - c * 0.1);
      }
    }
    f * (1.0 + c * 0.1)
  }

  /** Integrates `f` with the grid after initialising an inactive one: the
      strong branch exactly when the coupling reaches 0.8, the weak one
      otherwise. No frequency makes it fail, since zero couples weakly. */
  function Integrate(g: PlanetaryGrid, t: Transcendentals, f: real): (r: (PlanetaryGrid, real))
    requires Valid(t)
    ensures r.0 == Ready(g, t)
    ensures Coupling(t, f) >= IntegrationThreshold ==>
              f != 0.0 && r.1 == StrongIntegration(t, r.0.alignment, r.0.harmonics, f)
    ensures Coupling(t, f) < IntegrationThreshold ==> r.1 == WeakIntegration(Coupling(t, f), f)
  {
    var g0 := Ready(g, t);
    var c := Coupling(t, f);
    if c >= IntegrationThreshold then
      ZeroCouplesWeakly(t);
      (g0, StrongIntegration(t, g0.alignment, g0.harmonics, f))
    else
      (g0, WeakIntegration(c, f))
  }

  /** Integrating 0 Hz yields 0 Hz. */
  lemma IntegrateZero(g: PlanetaryGrid, t: Transcendentals)
    requires Valid(t)
    ensures Integrate(g, t, 0.0).1 == 0.0
  {
    ZeroCouplesWeakly(t);
  }

  // ---------------------------------------------------------------------------
  // Synchronisation with a planetary cycle

  /** Re-phases every harmonic, active or not, whose matrix cell for the
      planet exceeds 0.5, to `cycle_phase * 2 pi * cell`. */
  function Rephase(hs: seq<Harmonic>, matrix: seq<seq<real>>, j: nat, cyclePhase: real)
    : (hs': seq<Harmonic>)
    requires forall k :: 0 <= k < |hs| ==> 1 <= hs[k].order <= |matrix|
    requires forall i :: 0 <= i < |matrix| ==> j < |matrix[i]|
    ensures |hs'| == |hs|
    ensures forall k :: 0 <= k < |hs| ==>
              var cell := matrix[hs[k].order - 1][j];
              hs'[k] == if cell > 0.5 then hs[k].(phase := cyclePhase * 2.0 * Pi * cell) else hs[k]
  {
    seq(|hs|, k requires 0 <= k < |hs| =>
      var cell := matrix[hs[k].order - 1][j];
      if cell > 0.5 then hs[k].(phase := cyclePhase * 2.0 * Pi * cell) else hs[k])
  }

  /** An unknown planet is refused with no change. A known planet succeeds
      and only the phases of the strongly resonant harmonics change. The
      grid is not initialised first. */
  function Synchronize(g: PlanetaryGrid, planet: string, cyclePhase: real): (r: (PlanetaryGrid, bool))
    requires g.Valid()
    ensures r.1 <==> planet in PlanetNames
    ensures !r.1 ==> r.0 == g
    ensures r.0.Valid()
    ensures r.0.active == g.active && r.0.alignment == g.alignment
    ensures r.0.earthAmplitude == g.earthAmplitude && r.0.matrix == g.matrix
    ensures |r.0.harmonics| == |g.harmonics|
    ensures forall k :: 0 <= k < |g.harmonics| ==>
              r.0.harmonics[k] == g.harmonics[k].(phase := r.0.harmonics[k].phase)
    ensures r.1 ==>
              var j := PlanetIndex(planet).value;
              forall k :: 0 <= k < |g.harmonics| ==>
                var cell := g.matrix[g.harmonics[k].order - 1][j];
                r.0.harmonics[k].phase ==
                  if cell > 0.5 then cyclePhase * 2.0 * Pi * cell else g.harmonics[k].phase
  {
    match PlanetIndex(planet)
    case None => (g, false)
    case Some(j) => (g.(harmonics := Rephase(g.harmonics, g.matrix, j, cyclePhase)), true)
  }

  /** Synchronising twice with the same planet and phase is synchronising once. */
  lemma SynchronizeIdempotent(g: PlanetaryGrid, planet: string, cyclePhase: real)
    requires g.Valid()
    ensures Synchronize(Synchronize(g, planet, cyclePhase).0, planet, cyclePhase)
            == Synchronize(g, planet, cyclePhase)
  {
    var once := Synchronize(g, planet, cyclePhase).0;
    var twice := Synchronize(once, planet, cyclePhase).0;
    if planet in PlanetNames {
      forall k | 0 <= k < |g.harmonics|
        ensures twice.harmonics[k] == once.harmonics[k]
      {
      }
      assert twice.harmonics == once.harmonics;
    }
  }

  /** On a freshly initialised grid, the Earth cycle re-phases the fundamental
      Schumann harmonic fully, since 7.83 Hz is both. */
  lemma EarthCycleRephasesFundamental(t: Transcendentals, cyclePhase: real)
    requires Valid(t)
    ensures var g := Initialize(Fresh, t);
            var r := Synchronize(g, "earth", cyclePhase);
            r.1 && r.0.harmonics[0].phase == cyclePhase * 2.0 * Pi
  {
    var g := Initialize(Fresh, t);
    EqualFrequenciesResonateFully(t, 7.83);
    assert g.harmonics[0].order == 1;
    assert g.matrix[0][0] == 1.0;
    assert PlanetIndex("earth") == Some(0);
  }

  /** The Earth pulse initialises an inactive grid and has
      `int(duration * 100)` samples; only the sample count is modelled. */
  function EarthPulse(g: PlanetaryGrid, t: Transcendentals, duration: real): (r: (PlanetaryGrid, nat))
    requires Valid(t)
    ensures r.0 == Ready(g, t)
    ensures duration >= 0.0 ==>
              r.1 as real <= duration * PulseSampleRate as real < r.1 as real + 1.0
    ensures duration * PulseSampleRate as real < 1.0 ==> r.1 == 0
  {
    var n := Truncate(duration * PulseSampleRate as real);
    (Ready(g, t), if n < 0 then 0 else n)
  }
}
