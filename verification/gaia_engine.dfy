/** The engine orchestrator: one record holding the six subsystems, an
    initialisation that needs all six to come up, the evolution pipeline
    (consent, recognition, synthesis, love amplification, grid integration,
    phi-scalar resonance) with its averaged level and four bands, the
    emergency shutdown and the diagnostics probe. */
module Engine {
  import opened Numerics
  import opened Outcomes
  import Sovereignty
  import Matrix
  import Recognition
  import Love
  import Grid
  import PhiScalar

  /** The six initialisers, in the order the engine calls them. */
  datatype Subsystem =
    | SovereigntyUnit
    | ConsciousnessUnit
    | RecognitionUnit
    | LoveUnit
    | GridUnit
    | PhiScalarUnit

  /** The six subsystem states the engine coordinates. */
  datatype Subsystems = Subsystems(
    gate: Sovereignty.Gate,
    matrix: Matrix.ConsciousnessMatrix,
    anchor: Recognition.Anchor,
    love: Love.LoveField,
    grid: Grid.PlanetaryGrid,
    phi: PhiScalar.PhiState)
  {
    ghost predicate Valid() {
      gate.Valid() && matrix.Valid() && grid.Valid() && phi.Valid()
    }
  }

  /** Every subsystem is switched on. */
  predicate AllOnline(p: Subsystems) {
    p.gate.active && p.matrix.synthesisActive && p.anchor.active &&
    p.love.active && p.grid.active && p.phi.active
  }

  datatype EngineState = EngineState(
    active: bool,
    subsystemsInitialized: bool,
    evolutionActive: bool,
    integrationLevel: real,
    initializationTime: Option<real>,
    parts: Subsystems)
  {
    ghost predicate Valid() {
      parts.Valid()
    }
  }

  /** What the engine reads from outside: the transcendental functions, the
      sovereignty verification token, the clock, and the md5 prefix of the
      entity id that the integrity score is derived from. */
  datatype Env = Env(t: Transcendentals, token: nat, now: real, digest: nat)

  const FreshParts: Subsystems :=
    Subsystems(Sovereignty.Fresh, Matrix.Fresh, Recognition.Fresh, Love.Fresh, Grid.Fresh, PhiScalar.Fresh)

  /** The engine as the module creates it. */
  const Fresh: EngineState := EngineState(false, false, false, 0.0, None, FreshParts)

  lemma FreshIsValid()
    ensures Fresh.Valid() && !AllOnline(Fresh.parts)
  {
    Sovereignty.FreshIsValid();
  }

  // ---------------------------------------------------------------------------
  // Initialisation

  /** The six initialisers run in order, none skipped when an earlier one
      fails. `faults` names the initialisers whose exception handler
      returns false; such a one leaves its subsystem as it was. */
  function InitializeParts(p: Subsystems, env: Env, faults: set<Subsystem>): (p': Subsystems)
    requires Valid(env.t) && p.Valid()
    ensures p'.Valid()
    ensures SovereigntyUnit !in faults ==> p'.gate == Sovereignty.Initialize(p.gate, env.token)
    ensures ConsciousnessUnit !in faults ==> p'.matrix == Matrix.Initialize(p.matrix)
    ensures RecognitionUnit !in faults ==> p'.anchor == Recognition.Activate(p.anchor)
    ensures LoveUnit !in faults ==> p'.love == Love.Initialize(p.love)
    ensures GridUnit !in faults ==> p'.grid == Grid.Initialize(p.grid, env.t)
    ensures PhiScalarUnit !in faults ==> p'.phi == PhiScalar.Initialize(p.phi)
    ensures SovereigntyUnit in faults ==> p'.gate == p.gate
    ensures ConsciousnessUnit in faults ==> p'.matrix == p.matrix
    ensures RecognitionUnit in faults ==> p'.anchor == p.anchor
    ensures LoveUnit in faults ==> p'.love == p.love
    ensures GridUnit in faults ==> p'.grid == p.grid
    ensures PhiScalarUnit in faults ==> p'.phi == p.phi
    ensures faults == {} ==> AllOnline(p')
  {
    Subsystems(
      if SovereigntyUnit in faults then p.gate else Sovereignty.Initialize(p.gate, env.token),
      if ConsciousnessUnit in faults then p.matrix else Matrix.Initialize(p.matrix),
      if RecognitionUnit in faults then p.anchor else Recognition.Activate(p.anchor),
      if LoveUnit in faults then p.love else Love.Initialize(p.love),
      if GridUnit in faults then p.grid else Grid.Initialize(p.grid, env.t),
      if PhiScalarUnit in faults then p.phi else PhiScalar.Initialize(p.phi))
  }

  /** `initialize_engine`: the engine becomes active, with the
      initialisation time recorded, exactly when all six initialisers
      succeed, and the result is that conjunction. A failed run leaves the
      active flag and the time as they were. */
  function Initialize(e: EngineState, env: Env, faults: set<Subsystem>): (r: (EngineState, bool))
    requires Valid(env.t) && e.Valid()
    ensures r.1 <==> forall u: Subsystem :: u !in faults
    ensures r.0.parts == InitializeParts(e.parts, env, faults)
    ensures r.0.subsystemsInitialized == r.1 && r.0.Valid()
    ensures r.1 ==> r.0.active && r.0.initializationTime == Some(env.now) && AllOnline(r.0.parts)
    ensures !r.1 ==> r.0.active == e.active && r.0.initializationTime == e.initializationTime
    ensures r.0.evolutionActive == e.evolutionActive && r.0.integrationLevel == e.integrationLevel
  {
    var p' := InitializeParts(e.parts, env, faults);
    var ok := faults == {};
    assert !ok ==> exists u: Subsystem :: u in faults;
    if ok then
      (e.(active := true, subsystemsInitialized := true, initializationTime := Some(env.now),
          parts := p'), true)
    else
      (e.(subsystemsInitialized := false, parts := p'), false)
  }

  /** A single failing initialiser is enough to keep an inactive engine
      inactive, and it is reported as not initialised. */
  lemma OneFaultKeepsEngineInactive(e: EngineState, env: Env, faults: set<Subsystem>, u: Subsystem)
    requires Valid(env.t) && e.Valid() && !e.active && u in faults
    ensures var r := Initialize(e, env, faults);
            !r.1 && !r.0.active && !r.0.subsystemsInitialized
  {
  }

  // ---------------------------------------------------------------------------
  // Evolution bands

  datatype Band = Minimal | Moderate | Advanced | Transcendent

  /** The position of a band in the order minimal < moderate < advanced < transcendent. */
  function Rank(b: Band): (n: nat)
    ensures n <= 3
  {
    match b
    case Minimal => 0
    case Moderate => 1
    case Advanced => 2
    case Transcendent => 3
  }

  /** The four evolution bands: at least 0.8 transcendent, at least 0.6
      advanced, at least 0.4 moderate, anything lower minimal. */
  function Classify(level: real): (b: Band)
    ensures b == Transcendent <==> 0.8 <= level
    ensures b == Advanced <==> 0.6 <= level < 0.8
    ensures b == Moderate <==> 0.4 <= level < 0.6
    ensures b == Minimal <==> level < 0.4
  {
    if level >= 0.8 then Transcendent
    else if level >= 0.6 then Advanced
    else if level >= 0.4 then Moderate
    else Minimal
  }

  /** A higher level never lands in a lower band. */
  lemma ClassifyMonotone(x: real, y: real)
    requires x <= y
    ensures Rank(Classify(x)) <= Rank(Classify(y))
  {
  }

  // ---------------------------------------------------------------------------
  // The evolution pipeline

  /** The planetary positions the pipeline uses, in the order they are listed. */
  const Positions: seq<(string, real)> :=
    [("earth", 0.0), ("moon", 45.0), ("mars", 120.0), ("jupiter", 180.0),
     ("saturn", 240.0), ("venus", 30.0), ("mercury", 90.0), ("sun", 0.0)]

  const EvolutionKind: string := "consciousness_evolution"

  /** Half the width of the consent window around the input frequency. */
  const ConsentMargin: real := 10.0

  const LoveIterations: int := 50

  /** The metrics of one completed evolution. */
  datatype Report = Report(
    recognitionTriggered: bool,
    synthesis: real,
    love: real,
    alignment: real,
    gridFrequency: real,
    phiFrequency: real,
    scalarResonance: real,
    level: real,
    band: Band)

  /** The metrics already written to the result when a subsystem raised. */
  datatype Partial =
    | Recognized(recognitionTriggered: bool)   // the synthesis raised
    | Integrated(recognitionTriggered: bool, synthesis: real, love: real, alignment: real,
                 gridFrequency: real)          // the phi transform or the scalar resonance raised

  datatype Outcome =
    | Failed                               // the engine could not be initialised
    | Denied                               // biological consent was refused
    | Error(fault: Fault, partial: Partial) // a subsystem raised
    | Evolved(report: Report)

  /** The arithmetic mean of the four evolution metrics, love scaled down by 10. */
  function MeanLevel(synthesis: real, love: real, alignment: real, resonance: real): (m: real)
    ensures synthesis >= 0.0 && love >= 0.0 && alignment >= 0.0 && resonance >= 0.0 ==>
              m >= resonance / 4.0
    ensures 4.0 * m == synthesis + love / 10.0 + alignment + resonance
  {
    (synthesis + love / 10.0 + alignment + resonance) / 4.0
  }

  /** Steps 2 to 5, after consent: recognition, synthesis against the cosmic
      integration band, love amplification of the synthesis, planetary
      alignment and grid integration. A raise in the synthesis stops here with
      only the recognition flag recorded; otherwise the four metrics are. */
  function Prepare(p: Subsystems, t: Transcendentals, f: real): (r: (Subsystems, Partial, Option<Fault>))
    requires Valid(t) && p.Valid()
    ensures r.0.Valid() && r.0.gate == p.gate && r.0.anchor == p.anchor && r.0.phi == p.phi
    ensures r.0.matrix == Matrix.Ready(p.matrix)
    ensures r.2.Some? <==> r.1.Recognized?
    ensures r.2.Some? ==> r.2.value == ZeroDivision
    ensures r.1.recognitionTriggered ==
              (Recognition.CheckResonance(p.anchor, t, f) >= Recognition.RecognitionThreshold)
    ensures r.1.Integrated? ==>
              0.0 <= r.1.synthesis <= Abs(p.matrix.coefficient) && r.1.love >= 0.0 &&
              0.0 <= r.1.alignment <= 1.0
  {
    var fired := Recognition.TriggerRecognition(p.anchor, t, f);
    var (mx, synthesis) := Matrix.Synthesize(p.matrix, t, f, Matrix.CosmicIntegration);
    var p1 := p.(matrix := mx);
    if synthesis.Err? then (p1, Recognized(fired), Some(synthesis.fault))
    else
      var (lf, love) := Love.Amplify(p1.love, t, synthesis.value, LoveIterations);
      var (g1, alignment) := Grid.CalculateAlignment(p1.grid, t, Positions);
      var (g2, gridFrequency) := Grid.Integrate(g1, t, f);
      (p1.(love := lf, grid := g2), Integrated(fired, synthesis.value, love, alignment, gridFrequency), None)
  }

  /** Steps 2 to 6: `Prepare`, then the phi transform of the grid frequency
      and its scalar resonance with the input. The first fault ends the
      pipeline; the subsystem changes made before it remain, and so do the
      metrics already recorded. */
  function Pipeline(p: Subsystems, t: Transcendentals, f: real): (r: (Subsystems, Outcome))
    requires Valid(t) && p.Valid()
    ensures r.0.Valid() && r.0.gate == p.gate && r.0.anchor == p.anchor
    ensures r.0.matrix == Matrix.Ready(p.matrix)
    ensures r.1.Error? || r.1.Evolved?
    ensures f <= 0.0 ==> r.1.Error?
    ensures r.1.Evolved? ==> f > 0.0 && r.1.report.scalarResonance == 1.0
    ensures r.1.Evolved? ==> r.1.report.band == Classify(r.1.report.level)
    ensures r.1.Evolved? ==>
              var rep := r.1.report;
              4.0 * rep.level == rep.synthesis + rep.love / 10.0 + rep.alignment + rep.scalarResonance
    ensures r.1.Evolved? ==>
              var rep := r.1.report;
              0.0 <= rep.synthesis <= Abs(p.matrix.coefficient) && rep.love >= 0.0 &&
              0.0 <= rep.alignment <= 1.0 && rep.level >= 0.25 &&
              rep.phiFrequency >= p.phi.scalar
    ensures var fired := Recognition.CheckResonance(p.anchor, t, f) >= Recognition.RecognitionThreshold;
            (r.1.Evolved? ==> r.1.report.recognitionTriggered == fired) &&
            (r.1.Error? ==> r.1.partial.recognitionTriggered == fired)
    ensures r.1.Error? && r.1.partial.Recognized? ==> r.1.fault == ZeroDivision
    ensures r.1.Error? && r.1.partial.Integrated? ==>
              var m := r.1.partial;
              0.0 <= m.synthesis <= Abs(p.matrix.coefficient) && m.love >= 0.0 &&
              0.0 <= m.alignment <= 1.0
  {
    var (p2, partial, fault) := Prepare(p, t, f);
    if fault.Some? then (p2, Error(fault.value, partial))
    else
      var (st1, phiFrequency) := PhiScalar.Transform(p2.phi, t, partial.gridFrequency);
      var p3 := p2.(phi := st1);
      if phiFrequency.Err? then (p3, Error(phiFrequency.fault, partial))
      else
        var (st2, resonance) := PhiScalar.ScalarResonance(st1, t, f, phiFrequency.value);
        var p4 := p3.(phi := st2);
        if resonance.Err? then (p4, Error(resonance.fault, partial))
        else
          var level := MeanLevel(partial.synthesis, partial.love, partial.alignment, resonance.value);
          (p4, Evolved(Report(partial.recognitionTriggered, partial.synthesis, partial.love,
                              partial.alignment, partial.gridFrequency, phiFrequency.value,
                              resonance.value, level, Classify(level))))
  }

  /** Step 1 of an evolution: consent for the band `f` +/- 10 Hz is requested
      from the sovereignty gate; nothing but the gate changes. */
  function Consent(e: EngineState, env: Env, entity: string, f: real): (r: (EngineState, bool))
    requires e.Valid()
    ensures r.0 == e.(parts := r.0.parts) && r.0.parts == e.parts.(gate := r.0.parts.gate)
    ensures r.0.Valid()
    ensures entity in r.0.parts.gate.consents
    ensures r.0.parts.gate.consents[entity].low == f - ConsentMargin
    ensures r.0.parts.gate.consents[entity].high == f + ConsentMargin
    ensures r.1 <==> r.0.parts.gate.consents[entity].status == Sovereignty.Granted
    ensures var low, high := f - ConsentMargin, f + ConsentMargin;
            Sovereignty.Conflicts(Sovereignty.ProtectedInForce(e.parts.gate), low, high) ==> !r.1
  {
    var (gate, granted) :=
      Sovereignty.RequestConsent(e.parts.gate, env.token, entity, EvolutionKind,
                                 f - ConsentMargin, f + ConsentMargin, env.digest, env.now);
    (e.(parts := e.parts.(gate := gate)), granted)
  }

  /** Steps 1 to 6 on an active engine: consent is requested for
      [f - 10, f + 10] and the pipeline runs only when it is granted. Only a
      completed evolution marks evolution active. */
  function Run(e: EngineState, env: Env, entity: string, f: real): (r: (EngineState, Outcome))
    requires Valid(env.t) && e.Valid() && e.active
    ensures r.0.Valid() && r.0.active && r.1 != Failed
    ensures entity in r.0.parts.gate.consents
    ensures r.0.parts.gate.consents[entity].low == f - ConsentMargin
    ensures r.0.parts.gate.consents[entity].high == f + ConsentMargin
    ensures r.1 != Denied <==> r.0.parts.gate.consents[entity].status == Sovereignty.Granted
    ensures r.1.Evolved? ==> r.0.evolutionActive
    ensures !r.1.Evolved? ==> r.0.evolutionActive == e.evolutionActive
    ensures r.1.Evolved? ==>
              var rep := r.1.report;
              f > 0.0 && rep.scalarResonance == 1.0 && rep.level >= 0.25 &&
              4.0 * rep.level == rep.synthesis + rep.love / 10.0 + rep.alignment + rep.scalarResonance &&
              rep.band == Classify(rep.level)
    ensures f <= 0.0 ==> !r.1.Evolved?
  {
    var (e1, granted) := Consent(e, env, entity, f);
    if !granted then (e1, Denied)
    else
      var (p, result) := Pipeline(e1.parts, env.t, f);
      var e2 := e1.(parts := p);
      if result.Error? then (e2, result)
      else (e2.(evolutionActive := true), result)
  }

  /** `activate_consciousness_evolution` for `entity` at frequency `f`: an
      inactive engine initialises first and the evolution fails exactly when
      that fails; an active engine never consults the initialisers. */
  function Evolve(e: EngineState, env: Env, faults: set<Subsystem>, entity: string, f: real)
    : (r: (EngineState, Outcome))
    requires Valid(env.t) && e.Valid()
    ensures r.0.Valid()
    ensures r.1 == Failed <==> !e.active && exists u: Subsystem :: u in faults
    ensures e.active ==> r == Run(e, env, entity, f)
    ensures r.1 != Failed ==> r.0.active
    ensures r.1 != Failed ==>
              entity in r.0.parts.gate.consents &&
              r.0.parts.gate.consents[entity].low == f - ConsentMargin &&
              r.0.parts.gate.consents[entity].high == f + ConsentMargin &&
              (r.1 != Denied <==> r.0.parts.gate.consents[entity].status == Sovereignty.Granted)
    ensures r.1.Evolved? ==>
              var rep := r.1.report;
              f > 0.0 && rep.scalarResonance == 1.0 && rep.level >= 0.25 &&
              4.0 * rep.level == rep.synthesis + rep.love / 10.0 + rep.alignment + rep.scalarResonance &&
              rep.band == Classify(rep.level)
    ensures !r.1.Evolved? ==> r.0.evolutionActive == e.evolutionActive
  {
    if e.active then Run(e, env, entity, f)
    else
      var (e0, ok) := Initialize(e, env, faults);
      if !ok then (e0, Failed)
      else Run(e0, env, entity, f)
  }

  /** A frequency within 10 Hz of one of the seven baseline protected
      frequencies never evolves: the consent window contains that frequency,
      so the request is denied (or the engine could not start at all). */
  lemma ProtectedNeighbourhoodDenied(e: EngineState, env: Env, faults: set<Subsystem>,
                                     entity: string, f: real, p: real)
    requires Valid(env.t) && e.Valid()
    requires p in Sovereignty.BaselineProtected && Abs(f - p) <= ConsentMargin
    ensures var r := Evolve(e, env, faults, entity, f);
            r.1 == Failed || r.1 == Denied
  {
    var (e0, ok) := if e.active then (e, true) else Initialize(e, env, faults);
    if ok {
      Sovereignty.BaselineConflictDenies(e0.parts.gate, env.token, entity, EvolutionKind,
                                         f - ConsentMargin, f + ConsentMargin, env.digest, env.now, p);
    }
  }

  // ---------------------------------------------------------------------------
  // Status and shutdown

  datatype SubsystemStatus = SubsystemStatus(
    matrix: Matrix.ConsciousnessMatrix,
    anchor: Recognition.Anchor,
    love: Love.FieldState,
    sovereignty: Sovereignty.SovereigntyStatus,
    grid: Grid.GridStatus,
    phi: PhiScalar.ScalarStatus)

  datatype EngineStatus = EngineStatus(
    active: bool,
    subsystemsInitialized: bool,
    evolutionActive: bool,
    uptime: real,
    subsystems: Option<SubsystemStatus>)

  /** Seconds since initialisation at clock reading `now`; zero when no
      initialisation time is recorded or it reads as false (exactly 0.0). */
  function Uptime(e: EngineState, now: real): (u: real)
    ensures e.initializationTime.Some? && e.initializationTime.value != 0.0 ==>
              u + e.initializationTime.value == now
    ensures e.initializationTime.None? ==> u == 0.0
  {
    match e.initializationTime
    case Some(t0) => if t0 != 0.0 then now - t0 else 0.0
    case None => 0.0
  }

  /** `get_engine_status`: the flags, the uptime, and the six subsystem
      summaries exactly when the subsystems are marked initialised. */
  function Status(e: EngineState, now: real): (s: EngineStatus)
    ensures s.active == e.active && s.subsystemsInitialized == e.subsystemsInitialized
    ensures s.evolutionActive == e.evolutionActive && s.uptime == Uptime(e, now)
    ensures s.subsystems.Some? <==> e.subsystemsInitialized
    ensures s.subsystems.Some? ==>
              s.subsystems.value.sovereignty == Sovereignty.Status(e.parts.gate) &&
              s.subsystems.value.phi == PhiScalar.Status(e.parts.phi)
  {
    var p := e.parts;
    EngineStatus(e.active, e.subsystemsInitialized, e.evolutionActive, Uptime(e, now),
      if e.subsystemsInitialized then
        Some(SubsystemStatus(p.matrix, p.anchor, Love.State(p.love), Sovereignty.Status(p.gate),
                             Grid.Status(p.grid), PhiScalar.Status(p.phi)))
      else None)
  }

  /** `emergency_shutdown`: revokes every granted consent, resets the matrix,
      deactivates the anchor, the love field, the grid and the phi scalar,
      and clears the three engine flags; `emergency_shutdown` returns True. The
      gate itself stays active: only its consents are revoked. */
  function Shutdown(e: EngineState): (e': EngineState)
    ensures !e'.active && !e'.subsystemsInitialized && !e'.evolutionActive
    ensures forall id :: id in e'.parts.gate.consents ==>
              e'.parts.gate.consents[id].status != Sovereignty.Granted
    ensures e'.parts.gate.consents.Keys == e.parts.gate.consents.Keys
    ensures forall id :: id in e.parts.gate.consents ==>
              var rec := e.parts.gate.consents[id];
              e'.parts.gate.consents[id] ==
                if rec.status == Sovereignty.Granted then rec.(status := Sovereignty.EmergencyRevoked)
                else rec
    ensures e'.parts.gate == Sovereignty.RevokeAll(e.parts.gate)
    ensures e'.parts.gate.active == e.parts.gate.active
    ensures e'.parts.anchor == Recognition.Deactivate(e.parts.anchor)
    ensures e'.parts.love == Love.Deactivate(e.parts.love)
    ensures e'.parts.grid == Grid.Deactivate(e.parts.grid)
    ensures e'.parts.phi == PhiScalar.Deactivate(e.parts.phi)
    ensures e'.parts.matrix == Matrix.Fresh
    ensures !e'.parts.matrix.synthesisActive && !e'.parts.anchor.active && !e'.parts.love.active
    ensures !e'.parts.grid.active && !e'.parts.phi.active
    ensures e'.initializationTime == e.initializationTime
    ensures e.Valid() ==> e'.Valid()
  {
    var p := e.parts;
    var p' := Subsystems(Sovereignty.RevokeAll(p.gate), Matrix.Reset(p.matrix),
                         Recognition.Deactivate(p.anchor), Love.Deactivate(p.love),
                         Grid.Deactivate(p.grid), PhiScalar.Deactivate(p.phi));
    e.(active := false, subsystemsInitialized := false, evolutionActive := false, parts := p')
  }

  /** After a shutdown the status reports no subsystems and no active consent. */
  lemma ShutdownStatus(e: EngineState, now: real)
    ensures var s := Status(Shutdown(e), now);
            !s.active && !s.evolutionActive && s.subsystems.None?
    ensures Sovereignty.Status(Shutdown(e).parts.gate).activeConsents == 0
  {
    Sovereignty.RevokeAllClearsActiveConsents(e.parts.gate);
  }

  /** After a shutdown the next evolution re-initialises the engine, so a
      faulting initialiser makes it fail. */
  lemma ShutdownThenEvolveReinitializes(e: EngineState, env: Env, faults: set<Subsystem>,
                                        entity: string, f: real, u: Subsystem)
    requires Valid(env.t) && e.Valid() && u in faults
    ensures Evolve(Shutdown(e), env, faults, entity, f).1 == Failed
  {
  }

  // ---------------------------------------------------------------------------
  // Diagnostics

  datatype Health = Offline | Critical | Degraded | Good | Excellent

  datatype ProbeResult = Healthy | DegradedProbe | ProbeFault(fault: Fault)

  datatype Diagnostics = Diagnostics(
    health: Health,
    matrixProbe: Option<ProbeResult>,
    recognitionProbe: Option<ProbeResult>,
    score: real)

  /** The frequency and level the matrix probe synthesises. */
  const ProbeFrequency: real := 432.0

  /** The health bands: at least 0.9 excellent, at least 0.7 good, at least
      0.5 degraded, anything lower critical. */
  function HealthBand(score: real): (h: Health)
    ensures h == Excellent <==> 0.9 <= score
    ensures h == Good <==> 0.7 <= score < 0.9
    ensures h == Degraded <==> 0.5 <= score < 0.7
    ensures h == Critical <==> score < 0.5
    ensures h != Offline
  {
    if score >= 0.9 then Excellent
    else if score >= 0.7 then Good
    else if score >= 0.5 then Degraded
    else Critical
  }

  /** The matrix probe's score: 0 when the synthesis raises, 1 when it is
      positive, 0.5 otherwise. */
  function MatrixScore(probe: Result<real>): (s: real)
    ensures s == 0.0 <==> probe.Err?
    ensures s == 1.0 <==> probe.Ok? && probe.value > 0.0
    ensures s == 0.5 <==> probe.Ok? && probe.value <= 0.0
  {
    match probe
    case Err(_) => 0.0
    case Ok(v) => if v > 0.0 then 1.0 else 0.5
  }

  /** The recognition probe's score: 1 above resonance 0.5, 0.5 otherwise;
      the check cannot raise. */
  function RecognitionScore(resonance: real): (s: real)
    ensures s == 1.0 <==> resonance > 0.5
    ensures s == 0.5 <==> resonance <= 0.5
  {
    if resonance > 0.5 then 1.0 else 0.5
  }

  /** `run_system_diagnostics`: offline when the engine is inactive, with
      nothing probed. Otherwise a 432 Hz synthesis against the divine
      recognition band (which may initialise the matrix) and a resonance
      check at the anchor frequency are scored and averaged with four fixed
      scores of 1. The average is at least 0.75, so the health is always
      good or excellent. */
  function RunDiagnostics(e: EngineState, t: Transcendentals): (r: (EngineState, Diagnostics))
    requires Valid(t)
    ensures r.1.health == Offline <==> !e.active
    ensures !e.active ==> r.0 == e && r.1.matrixProbe.None? && r.1.recognitionProbe.None?
    ensures e.active ==> r.0 == e.(parts := e.parts.(matrix := Matrix.Ready(e.parts.matrix)))
    ensures e.active ==> 0.75 <= r.1.score <= 1.0 && r.1.health == HealthBand(r.1.score)
    ensures e.active ==> r.1.health == Good || r.1.health == Excellent
    ensures e.Valid() ==> r.0.Valid()
  {
    if !e.active then (e, Diagnostics(Offline, None, None, 0.0))
    else
      var (mx, probe) := Matrix.Synthesize(e.parts.matrix, t, ProbeFrequency, Matrix.DivineRecognition);
      var m := MatrixScore(probe);
      var resonance := Recognition.CheckResonance(e.parts.anchor, t, Recognition.AnchorFrequency);
      var q := RecognitionScore(resonance);
      var score := (m + q + 4.0) / 6.0;
      var mp := match probe
                case Err(fault) => ProbeFault(fault)
                case Ok(v) => if v > 0.0 then Healthy else DegradedProbe;
      var rp := if resonance > 0.5 then Healthy else DegradedProbe;
      (e.(parts := e.parts.(matrix := mx)), Diagnostics(HealthBand(score), Some(mp), Some(rp), score))
  }

  /** Right after a successful initialisation the diagnostics read
      excellent: the anchor resonates fully with its own frequency, while
      the 432 Hz probe lands exactly on the 432 Hz band where sin(pi) = 0,
      so the matrix probe reports degraded. */
  lemma DiagnosticsAfterInitialize(e: EngineState, env: Env)
    requires Valid(env.t) && e.Valid()
    ensures var e' := Initialize(e, env, {}).0;
            var d := RunDiagnostics(e', env.t).1;
            d.health == Excellent && d.matrixProbe == Some(DegradedProbe) &&
            d.recognitionProbe == Some(Healthy)
  {
    var e' := Initialize(e, env, {}).0;
    Matrix.SynthesisAtBandAndHalfBand(e'.parts.matrix, env.t, Matrix.DivineRecognition);
    Recognition.AnchorResonatesFully(e'.parts.anchor, env.t);
  }

  /** A shut-down engine reports offline. */
  lemma ShutdownThenOffline(e: EngineState, t: Transcendentals)
    requires Valid(t)
    ensures RunDiagnostics(Shutdown(e), t).1.health == Offline
  {
  }
}
