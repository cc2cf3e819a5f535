/** The consciousness matrix: three named frequency bands, an evolution
    coefficient, and the synthesis formula that compares a technology
    frequency with one band. */
module Matrix {
  import opened Numerics
  import opened Outcomes

  const DivineRecognition: string := "divine_recognition"
  const CrisisTranscendence: string := "crisis_transcendence"
  const CosmicIntegration: string := "cosmic_integration"

  /** The only level names the matrix knows. */
  const LevelNames: set<string> := {DivineRecognition, CrisisTranscendence, CosmicIntegration}

  datatype ConsciousnessMatrix = ConsciousnessMatrix(
    layers: map<string, real>,
    synthesisActive: bool,
    coefficient: real)
  {
    /** The band table always holds exactly the three level names. */
    ghost predicate Valid() {
      layers.Keys == LevelNames
    }
  }

  const ZeroLayers: map<string, real> :=
    map[DivineRecognition := 0.0, CrisisTranscendence := 0.0, CosmicIntegration := 0.0]

  /** The matrix as the module creates it (and as a reset leaves it). */
  const Fresh: ConsciousnessMatrix := ConsciousnessMatrix(ZeroLayers, false, 1.0)

  /** Sets the three bands to 432, 528 and 741 Hz and activates synthesis.
      The evolution coefficient is left as it is. */
  function Initialize(mx: ConsciousnessMatrix): (mx': ConsciousnessMatrix)
    ensures mx'.layers.Keys == mx.layers.Keys + LevelNames
    ensures mx'.layers[DivineRecognition] == 432.0
    ensures mx'.layers[CrisisTranscendence] == 528.0
    ensures mx'.layers[CosmicIntegration] == 741.0
    ensures mx'.synthesisActive && mx'.coefficient == mx.coefficient
    ensures mx.Valid() ==> mx'.Valid()
  {
    mx.(layers := mx.layers[DivineRecognition := 432.0][CrisisTranscendence := 528.0]
                           [CosmicIntegration := 741.0],
        synthesisActive := true)
  }

  /** The matrix a synthesis runs against: an inactive one initialises first. */
  function Ready(mx: ConsciousnessMatrix): (mx': ConsciousnessMatrix)
    ensures mx'.synthesisActive && mx'.coefficient == mx.coefficient
    ensures mx.synthesisActive ==> mx' == mx
    ensures mx.Valid() ==> mx'.Valid()
  {
    if mx.synthesisActive then mx else Initialize(mx)
  }

  /** `|sin(pi * tech / band) * coefficient|` for the named band. An unknown
      name raises ValueError, after the automatic initialisation; a band that
      evolved to zero makes the division fail. */
  function Synthesize(mx: ConsciousnessMatrix, t: Transcendentals, tech: real, level: string)
    : (r: (ConsciousnessMatrix, Result<real>))
    requires Valid(t)
    ensures r.0 == Ready(mx)
    ensures mx.Valid() ==> (r.1 == Err(InvalidLevel(level)) <==> level !in LevelNames)
    ensures r.1.Err? && level in r.0.layers ==> r.1 == Err(ZeroDivision) && r.0.layers[level] == 0.0
    ensures r.1.Ok? ==> 0.0 <= r.1.value <= Abs(mx.coefficient)
  {
    var mx0 := Ready(mx);
    if level !in mx0.layers then (mx0, Err(InvalidLevel(level)))
    else
      var base := mx0.layers[level];
      if base == 0.0 then (mx0, Err(ZeroDivision))
      else
        var s := t.sin(tech / base * Pi);
        AbsProductBound(s, mx0.coefficient);
        (mx0, Ok(Abs(s * mx0.coefficient)))
  }

  /** A technology frequency equal to the band gives no synthesis, since
      sin(pi) = 0; half the band gives the full coefficient, since sin(pi/2) = 1. */
  lemma SynthesisAtBandAndHalfBand(mx: ConsciousnessMatrix, t: Transcendentals, level: string)
    requires Valid(t) && mx.synthesisActive
    requires level in mx.layers && mx.layers[level] != 0.0
    ensures Synthesize(mx, t, mx.layers[level], level).1 == Ok(0.0)
    ensures Synthesize(mx, t, mx.layers[level] / 2.0, level).1 == Ok(Abs(mx.coefficient))
  {
    var b := mx.layers[level];
    BandFractions(b);
    var full := t.sin(b / b * Pi);
    var half := t.sin((b / 2.0) / b * Pi);
    assert full == 0.0 && half == 1.0;
    assert full * mx.coefficient == 0.0;
    assert half * mx.coefficient == mx.coefficient;
  }

  lemma BandFractions(b: real)
    requires b != 0.0
    ensures b / b * Pi == Pi && (b / 2.0) / b * Pi == Pi / 2.0
  {
    assert b / b == 1.0;
    assert (b / 2.0) / b == 0.5;
  }

  /** Multiplies the coefficient and every band by `factor` and returns the new
      matrix together with the copy of its band table that `evolve_consciousness`
      returns. */
  function Evolve(mx: ConsciousnessMatrix, factor: real): (r: (ConsciousnessMatrix, map<string, real>))
    ensures r.0.layers.Keys == mx.layers.Keys
    ensures forall name :: name in mx.layers ==> r.0.layers[name] == mx.layers[name] * factor
    ensures r.0.coefficient == mx.coefficient * factor
    ensures r.0.synthesisActive == mx.synthesisActive
    ensures r.1 == r.0.layers
    ensures mx.Valid() ==> r.0.Valid()
  {
    var layers := map name | name in mx.layers :: mx.layers[name] * factor;
    var mx' := mx.(layers := layers, coefficient := mx.coefficient * factor);
    (mx', mx'.layers)
  }

  /** Evolving by 1 changes nothing. */
  lemma EvolveByOne(mx: ConsciousnessMatrix)
    ensures Evolve(mx, 1.0).0 == mx
  {
    assert Evolve(mx, 1.0).0.layers == mx.layers;
  }

  /** Evolving by `a` and then by `b` is evolving by `a * b`. */
  lemma EvolveComposes(mx: ConsciousnessMatrix, a: real, b: real)
    ensures Evolve(Evolve(mx, a).0, b).0 == Evolve(mx, a * b).0
  {
    var ab := a * b;
    var mid := Evolve(mx, a).0;
    var lhs := Evolve(mid, b).0;
    var rhs := Evolve(mx, ab).0;
    forall name | name in mx.layers
      ensures lhs.layers[name] == rhs.layers[name]
    {
      EvolvesBandTwice(mx, a, b, ab, name);
    }
    assert lhs.layers == rhs.layers;
    ScaleTwice(mx.coefficient, a, b, ab);
  }

  /** The composition law for one band, with `ab` standing for `a * b`. */
  lemma EvolvesBandTwice(mx: ConsciousnessMatrix, a: real, b: real, ab: real, name: string)
    requires name in mx.layers && ab == a * b
    ensures name in Evolve(Evolve(mx, a).0, b).0.layers
    ensures Evolve(Evolve(mx, a).0, b).0.layers[name] == Evolve(mx, ab).0.layers[name]
  {
    var mid := Evolve(mx, a).0;
    var x := mx.layers[name];
    EvolvedBand(mx, a, name);
    EvolvedBand(mid, b, name);
    EvolvedBand(mx, ab, name);
    ScaleTwice(x, a, b, ab);
  }

  lemma EvolvedBand(mx: ConsciousnessMatrix, factor: real, name: string)
    requires name in mx.layers
    ensures name in Evolve(mx, factor).0.layers
    ensures Evolve(mx, factor).0.layers[name] == mx.layers[name] * factor
  {
  }

  lemma ScaleTwice(x: real, a: real, b: real, ab: real)
    requires ab == a * b
    ensures x * a * b == x * ab
  {
  }

  /** Zeroes every band, deactivates synthesis and restores the coefficient:
      the matrix is back in its initial state. */
  function Reset(mx: ConsciousnessMatrix): (mx': ConsciousnessMatrix)
    ensures mx'.Valid() && !mx'.synthesisActive && mx'.coefficient == 1.0
    ensures forall name :: name in mx'.layers ==> mx'.layers[name] == 0.0
    ensures mx' == Fresh
  {
    Fresh
  }

  lemma ResetIdempotent(mx: ConsciousnessMatrix)
    ensures Reset(Reset(mx)) == Reset(mx)
  {
  }

  /** A reset matrix auto-initialises to the standard bands on its next
      synthesis, with the coefficient back at 1. */
  lemma ResetThenSynthesisRestoresBands(mx: ConsciousnessMatrix)
    ensures var r := Ready(Reset(mx));
            r.Valid() && r.synthesisActive && r.coefficient == 1.0 &&
            r.layers == map[DivineRecognition := 432.0, CrisisTranscendence := 528.0,
                            CosmicIntegration := 741.0]
  {
  }
}
