# GAIA-TEQUMSA engine core in Dafny

This project models the core of the GAIA-TEQUMSA consciousness evolution engine.
It covers the six subsystems and the orchestrator that drives them:

- the biological sovereignty gate, which handles consent requests, protected frequencies, violations and emergency revocation;
- the consciousness matrix, with its three bands, synthesis, evolution and reset;
- the recognition pulse, a 10930.81 Hz anchor with a resonance score and a trigger threshold;
- the love coefficient field, with its Fibonacci layers, amplification, resonance and harmonic series;
- the planetary grid harmonics, with Schumann harmonics, the resonance matrix, planetary alignment, grid integration and cycle synchronisation;
- the phi scalar, with its phi harmonics, scalar layers, transform, scalar resonance and layer synchronisation;
- the engine, which covers initialisation of all six subsystems, the evolution pipeline with its averaged level and four bands, status, emergency shutdown and diagnostics.

Each subsystem is an immutable record. Its operations are pure functions that return the new record together with the result.
An operation that auto-initialises an inactive subsystem does so through that module's `Ready` in the matrix, love, grid and phi scalar modules.
`Sovereignty.RequestConsent` and `Recognition.GeneratePulse` initialise inline instead, as does `Engine.Evolve` for an inactive engine.
Python exceptions become a `Result` whose `Err` carries a `Fault`. The faults are an unknown level name, a division by zero and a math domain error.

Frequencies are exact `real`s. `sin`, `cos`, `exp`, `log` and real-exponent powers of Phi are fields of a `Transcendentals` record.
Every member that uses them requires `Valid(t)`. That predicate lists every fact the model assumes of them, and nothing else:

- `-1 <= sin(x) <= 1` for every `x`, with `sin(pi/2) = 1` and `sin(pi) = 0`;
- `0 <= cos(x) <= 1` for `0 <= x <= pi/2`, with `cos(0) = 1`;
- `exp(x) > 0` for every `x`, `exp(x) <= 1` for `x <= 0`, `exp(-1) <= 1/2` and `exp(0) = 1`;
- `log(x) > 0` for `x > 1`, and `log(Phi) > 0`;
- `phiPow(y) > 0` for every `y`, and `phiPow(y) >= 1` for `y >= 0`;
- `phiPow(log(r)/log(Phi)) = r` for `r > 0`.

Integer powers of Phi are computed exactly by `Numerics.PhiPow`.
The clock, the md5 prefix of an entity id, Python's salted `hash()` and the sovereignty token are parameters.
The engine bundles them in `Engine.Env`.
An initialiser that would fail is named in a `faults` set.

The gate, the matrix, the grid, the phi scalar and the engine each have a ghost `Valid` predicate. It holds of the module's `Fresh` record, and every operation preserves it.
The love field and the recognition anchor need none: every record of their types is a legal state.
Members that take a state require it, and it therefore holds of every state the program can reach.

## Model

| member | source | states |
|---|---|---|
| Sovereignty.Initialize | sovereignty_protocols.py:25-48 | The gate becomes active, and the protected set is reset to exactly the seven baseline frequencies, dropping emergency additions. Consents and violations are kept. |
| Sovereignty.AssessIntegrity | sovereignty_protocols.py:108-127 | The integrity score lies in [0.7, 1]. A hash residue of at least 30 gives exactly 1, at least 25 always passes 0.95, and below 15 always fails. |
| Sovereignty.RequestConsent | sovereignty_protocols.py:56-106 | An inactive gate initialises first. A protected frequency inside [low, high] (inclusive) denies the request with status denied_protected_frequency, whatever the integrity. Otherwise consent is granted iff the integrity reaches 0.95. The returned bool equals "stored status is granted". Only this entity's record is written, and every other record is unchanged. |
| Sovereignty.RequestRecordsIntegrityOutcome | sovereignty_protocols.py:73-105 | The stored record names the requesting entity and its intervention type. Without a protected-frequency conflict, its status is granted when the integrity reaches 0.95 and denied_low_integrity otherwise. |
| Sovereignty.BaselineConflictDenies | sovereignty_protocols.py:81-91 | On any reachable gate, an interval containing one of the seven baseline frequencies is denied for that reason. |
| Sovereignty.LastRequestWins | sovereignty_protocols.py:87-106 | After two requests for the same entity, the consent map equals the map the second request alone would have produced. |
| Sovereignty.EmergencyActivation | sovereignty_protocols.py:155-164 | The entity's record, if present, becomes emergency revoked, and other records are untouched. Exactly one frequency in [0, 1000) is added to the protected set. |
| Sovereignty.MonitorViolation | sovereignty_protocols.py:129-153 | Exactly one violation record is appended, and earlier records stay intact. A severity above 0.7 runs the emergency protocol; any other severity leaves consents and the protected set alone. |
| Sovereignty.MonitorCountsCritical | sovereignty_protocols.py:139-153 | The critical count in the status grows by one exactly when the new severity exceeds 0.7. |
| Sovereignty.EnforceBoundaries | sovereignty_protocols.py:175-198 | The result is false iff some protected frequency is closer than 0.5 Hz, or the frequency is below 0.1 or above 50000. |
| Sovereignty.RevokeAll | sovereignty_protocols.py:214-219 | Every granted record becomes emergency revoked. Other statuses and the key set are untouched, and afterwards no record is granted. |
| Sovereignty.RevokeAllIdempotent | sovereignty_protocols.py:214-219 | Revoking twice is revoking once. |
| Sovereignty.RevokeAllClearsActiveConsents | sovereignty_protocols.py:214-219 | After revocation the status counts no active consent. |
| Sovereignty.Deactivate | sovereignty_protocols.py:221-224 | The gate becomes inactive, and consents, violations, protected set and token are kept. |
| Sovereignty.VerifyIntegrity | sovereignty_protocols.py:166-173 | The check is false on an inactive gate and false when no token is stored. It is true on an active gate holding a token. |
| Sovereignty.Status | sovereignty_protocols.py:200-212 | The active consents never exceed the total, which is the number of records. The critical violations never exceed the recorded ones. |
| Matrix.Initialize | consciousness_matrix.py:26-38 | The three bands are set to 432, 528 and 741 Hz and synthesis becomes active. The coefficient is unchanged and the key set stays the three level names. |
| Matrix.Synthesize | consciousness_matrix.py:40-65 | An inactive matrix initialises first. An unknown level name fails with InvalidLevel exactly when it is not one of the three. A failing known level means its band is 0 and the division failed. A result lies in [0, abs(coefficient)]. |
| Matrix.SynthesisAtBandAndHalfBand | consciousness_matrix.py:59-65 | A technology frequency equal to the band synthesises to 0, and half the band synthesises to abs(coefficient). |
| Matrix.Evolve | consciousness_matrix.py:67-82 | The coefficient and every band are scaled by the factor, and the key set and the synthesis flag are kept. The returned map equals the new band table. |
| Matrix.EvolveByOne | consciousness_matrix.py:77-82 | Evolving by 1 is the identity. |
| Matrix.EvolveComposes | consciousness_matrix.py:77-82 | Evolving by a and then by b equals evolving by a*b. |
| Matrix.Reset | consciousness_matrix.py:92-100 | Every band is 0, synthesis is inactive and the coefficient is 1, which is the state the module starts in. |
| Matrix.ResetIdempotent | consciousness_matrix.py:92-100 | Resetting twice is resetting once. |
| Matrix.ResetThenSynthesisRestoresBands | consciousness_matrix.py:92-100 | A reset matrix auto-initialises to exactly the three standard bands with coefficient 1. |
| Recognition.Activate | recognition_pulse.py:26-35 | The anchor becomes active with amplitude 1, and the resonators are untouched. |
| Recognition.Deactivate | recognition_pulse.py:140-144 | The anchor becomes inactive with amplitude 0, and the resonators are untouched. |
| Recognition.AddResonator | recognition_pulse.py:114-127 | Exactly one active resonator is appended, and the earlier ones are kept. |
| Recognition.HarmonicScoreCharacterized | recognition_pulse.py:84-88 | The harmonic score is 1/h for the one harmonic h in 1..9 within 1 Hz, and 0 when there is none. |
| Recognition.MatchIsUnique | recognition_pulse.py:85-88 | At most one harmonic window contains a frequency. |
| Recognition.CheckResonance | recognition_pulse.py:67-93 | An inactive anchor scores 0. An active one scores the larger of the harmonic score and the ratio-times-decay base term, and that lies in (0, 1] for a positive input. |
| Recognition.AnchorResonatesFully | recognition_pulse.py:81-93 | The anchor frequency itself scores exactly 1. |
| Recognition.TriggerRecognition | recognition_pulse.py:95-112 | Recognition fires iff the resonance reaches 0.85, so it never fires while the anchor is inactive. |
| Recognition.GeneratePulse | recognition_pulse.py:47-52 | An inactive anchor is activated. The pulse has int(duration*44100) samples, and none for a duration under one sample. |
| Love.Fibonacci | love_coefficient.py:48-60 | The result is empty for n <= 0, and otherwise has n entries, each the Fibonacci number F(i) with F(0) = F(1) = 1. |
| Love.FirstTenFibonacci | love_coefficient.py:48-60 | The first ten entries are 1, 1, 2, 3, 5, 8, 13, 21, 34, 55. |
| Love.BaseLayers | love_coefficient.py:32-40 | There are ten layers: level i, coefficient F(i)/55 in (0, 1] with the last exactly 1, frequency 528*F(i)/100, all active. |
| Love.Initialize | love_coefficient.py:25-46 | The field becomes active with amplitude 1. Ten layers are appended after the existing ones, which are never cleared. |
| Love.InitializeAddsTenActive | love_coefficient.py:33-40 | Every re-initialisation adds ten to both the active and the total layer counts. |
| Love.Amplify | love_coefficient.py:62-105 | An inactive field initialises first. With no iterations the input is returned unchanged, and a nonnegative input stays nonnegative. |
| Love.ConvergedFirstStepReturnsInput | love_coefficient.py:95-99 | When the first step already converges, the loop breaks before assigning, so the input itself is returned. |
| Love.Resonance | love_coefficient.py:107-127 | Zero frequencies or a zero sum raise a division error. Otherwise the result lies in [0, Phi], inside the [0, 10] cap. |
| Love.HarmonicSeries | love_coefficient.py:129-155 | There are exactly max(harmonics, 0) values. The n-th is n*base*Phi**(1/n) + 528/n, and it is at least n*base + 528/n for a nonnegative base. |
| Love.IntegrateUniversalLove | love_coefficient.py:157-179 | The result is f shifted up by 52.8*Phi, and f = 0 divides by zero. |
| Love.State | love_coefficient.py:181-191 | The active layers never exceed the total, and the label follows the activation flag. |
| Love.Deactivate | love_coefficient.py:193-199 | The field becomes inactive with amplitude 0, and every layer becomes inactive with the count unchanged. |
| Love.DeactivateSilencesAllLayers | love_coefficient.py:193-199 | A deactivated field reports no active layers and the status INACTIVE. |
| Grid.SchumannHarmonics | grid_harmonics.py:48-56 | There are seven harmonics: the Schumann frequency, amplitude 1/(i+1), phase 0, active, order i+1. |
| Grid.Initialize | grid_harmonics.py:41-65 | The grid becomes active with earth amplitude 1. The seven harmonics are appended without clearing earlier ones, and the matrix is recomputed. |
| Grid.InitializeAddsSevenActive | grid_harmonics.py:48-56 | Each initialisation adds seven active harmonics, and a deactivation leaves none active. |
| Grid.LastMatchWins | grid_harmonics.py:72-80 | With no break in the loop, the last firing harmonic in 1..9 decides the score. |
| Grid.SubharmonicBranchDead | grid_harmonics.py:72-80 | For a max/min ratio, which is at least 1, only the integer test can fire. |
| Grid.HarmonicResonanceCharacterized | grid_harmonics.py:72-80 | For a ratio of at least 1, the score is 1/h for the one integer h within 0.1, and 0 otherwise. |
| Grid.Cell | grid_harmonics.py:83-85 | A cell lies in (0, 1] and is at least both the harmonic score and the distance decay. |
| Grid.EqualFrequenciesResonateFully | grid_harmonics.py:72-85 | Equal frequencies give a cell of exactly 1. |
| Grid.ResonanceMatrix | grid_harmonics.py:67-85 | The matrix is 7 x 8, and cell (i, j) is the cell of Schumann frequency i against planet j. |
| Grid.FoldAngle | grid_harmonics.py:108-110 | Every position folds into [0, 90] degrees. |
| Grid.FoldAngleHalfTurn | grid_harmonics.py:108-110 | Folding is periodic with a half turn. |
| Grid.PlanetWeight | grid_harmonics.py:115 | A weight lies in (0, 1], since Venus has the largest planetary frequency. |
| Grid.VenusIsHeaviest | grid_harmonics.py:21-30 | Venus's 221.23 Hz is the largest planetary frequency. |
| Grid.CalculateAlignment | grid_harmonics.py:87-121 | An inactive grid initialises first. The alignment lies in [0, 1] and is stored in the grid. |
| Grid.NoListedPlanetNoAlignment | grid_harmonics.py:102-121 | With no known planet the alignment is 0. |
| Grid.UnknownPlanetIgnored | grid_harmonics.py:102-104 | Appending an unknown planet changes neither the alignment nor the grid. |
| Grid.VenusConjunctionAlignsFully | grid_harmonics.py:102-121 | Venus alone at 0 degrees gives alignment 1. |
| Grid.NearestSchumann | grid_harmonics.py:137-138 | The first Schumann frequency at minimal distance is picked. |
| Grid.Coupling | grid_harmonics.py:137-142 | The coupling to the nearest Schumann resonance lies in (0, 1]. |
| Grid.ZeroCouplesWeakly | grid_harmonics.py:137-160 | 0 Hz couples at most 1/2, so the strong branch, which divides by the frequency, never sees zero. |
| Grid.SchumannCouplesFully | grid_harmonics.py:137-142 | A Schumann frequency couples with exactly 1. |
| Grid.Integrate | grid_harmonics.py:123-160 | An inactive grid initialises first. The strong branch is taken iff the coupling reaches 0.8, and the weak branch otherwise. No input fails. |
| Grid.StrongIntegration | grid_harmonics.py:144-157 | The result is within a tenth of the active amplitude of f*(1 + 0.3*alignment). |
| Grid.WeakIntegration | grid_harmonics.py:158-160 | For a nonnegative f the result lies between f and 1.1*f. |
| Grid.IntegrateZero | grid_harmonics.py:137-160 | Integrating 0 Hz gives 0 Hz. |
| Grid.Synchronize | grid_harmonics.py:200-232 | An unknown planet returns false with no state change. A known planet returns true. Each harmonic whose matrix cell for that planet exceeds 0.5 gets the phase cycle_phase·2π·cell, and every other harmonic keeps its phase. No other field changes. |
| Grid.SynchronizeIdempotent | grid_harmonics.py:211-232 | Synchronising twice with the same planet and phase is synchronising once. |
| Grid.EarthCycleRephasesFundamental | grid_harmonics.py:211-232 | On a fresh grid the Earth cycle re-phases the 7.83 Hz harmonic to cycle_phase * 2 pi. |
| Grid.EarthPulse | grid_harmonics.py:172-176 | An inactive grid initialises first, and the pulse has int(duration*100) samples. |
| Grid.Status | grid_harmonics.py:234-248 | The active harmonics never exceed the total, and the label follows the activation flag. |
| Grid.Deactivate | grid_harmonics.py:250-256 | The grid becomes inactive with amplitude 0, and every harmonic becomes inactive with the count unchanged. |
| PhiScalar.HarmonicAt | phi_scalar.py:51-75 | Harmonic n has frequency scalar/Phi^n, amplitude 1/Phi^n in (0, 0.62), phase 2*pi*n/Phi, and is active. |
| PhiScalar.LayerAt | phi_scalar.py:77-91 | Layer l has frequency scalar*Phi^(l-4), phi power Phi^l, coefficient 1/Phi^l in (0, 1), and is active. |
| PhiScalar.BaseLayers | phi_scalar.py:79-91 | There are seven layers, and the middle one sits at the scalar frequency. |
| PhiScalar.Initialize | phi_scalar.py:30-49 | The scalar becomes active, and the tables are rebuilt as exactly 12 harmonics and 7 layers, replacing the old ones. |
| PhiScalar.InitializeIdempotent | phi_scalar.py:30-49 | Re-initialising changes nothing, so the counts stay 12 and 7. |
| PhiScalar.FirstPhiMatchCharacterized | phi_scalar.py:142-147 | The inner loop yields amplitude/m for the first m in 1..5 with Phi^m within 0.1 of the ratio, and 0 when there is none. |
| PhiScalar.PhiWindowsDisjoint | phi_scalar.py:143-145 | At most one power of Phi lies within 0.1 of a ratio. |
| PhiScalar.Enhancement | phi_scalar.py:132-151 | The enhancement is at least 1 when no amplitude is negative. |
| PhiScalar.Scaled | phi_scalar.py:115-125 | In exact arithmetic both branches scale a positive input to the scalar frequency. |
| PhiScalar.Transform | phi_scalar.py:101-130 | An inactive scalar initialises first. Zero divides by zero, and a negative input is a math domain error. A positive input maps to the scalar frequency times its enhancement, which is at least the scalar frequency. |
| PhiScalar.LastScalarMatchWins | phi_scalar.py:218-226 | The last firing power in 1..7 decides the score, and within it the Phi^n test shadows the Phi^-n test. |
| PhiScalar.EqualFrequenciesScoreZero | phi_scalar.py:218-226 | Ratio 1 matches no power, so the phi score is 0. |
| PhiScalar.PairResonance | phi_scalar.py:218-231 | The resonance of two positive frequencies is at least the phi score of their ratio and at least exp(-\|x-y\|/1000), and equals one of the two. It lies in (0, 1], and is 1 when they are equal. |
| PhiScalar.ScalarResonance | phi_scalar.py:198-231 | The call fails iff an input is not positive. Two positive inputs resonate with exactly 1, because both transform to the same value. |
| PhiScalar.NearestLayer | phi_scalar.py:247-255 | The first layer at minimal distance from the target is picked. |
| PhiScalar.Strength | phi_scalar.py:262 | A strength lies in (0, 1], and is 1 exactly at distance 0. |
| PhiScalar.Synchronize | phi_scalar.py:233-266 | The result is target/Phi^l for the picked layer. Only that layer's strength changes, and the harmonics and scalar are kept. |
| PhiScalar.SynchronizeOnLayerFrequency | phi_scalar.py:247-264 | A target equal to a layer's frequency picks a layer at that frequency and gives it strength 1. |
| PhiScalar.Deactivate | phi_scalar.py:286-294 | The scalar, every harmonic and every layer become inactive, and the counts are unchanged. |
| PhiScalar.Status | phi_scalar.py:268-284 | The active counts never exceed the totals, the field size is 100, and the frequency is the scalar frequency. |
| PhiScalar.StatusCounts | phi_scalar.py:268-294 | An initialised scalar reports 12 of 12 harmonics and 7 of 7 layers. A deactivated one reports none active with the totals kept. |
| Engine.InitializeParts | gaia_tequmsa_engine.py:42-64 | Every initialiser runs in order, none is skipped after a failure, and a failing one leaves its subsystem as it was. |
| Engine.Initialize | gaia_tequmsa_engine.py:34-82 | The result is true iff all six initialisers succeed. The engine then becomes active with the time recorded and all six subsystems online. A failed run leaves the active flag and the time unchanged. |
| Engine.OneFaultKeepsEngineInactive | gaia_tequmsa_engine.py:67-78 | One failing initialiser keeps an inactive engine inactive and not initialised. |
| Engine.Classify | gaia_tequmsa_engine.py:181-188 | The level gets exactly one band: at least 0.8 transcendent, at least 0.6 advanced, at least 0.4 moderate, and below that minimal. |
| Engine.ClassifyMonotone | gaia_tequmsa_engine.py:181-188 | A higher level never gets a lower band. |
| Engine.MeanLevel | gaia_tequmsa_engine.py:170-177 | The level is the mean of synthesis, love/10, alignment and resonance, and at least a quarter of the resonance. |
| Engine.Consent | gaia_tequmsa_engine.py:109-114 | Consent is requested for the band f-10 to f+10 and recorded under the entity with those bounds. Only the gate changes. The step reports success iff the recorded status is granted, and a band that overlaps a protected frequency is never granted. |
| Engine.Prepare | gaia_tequmsa_engine.py:121-157 | Recognition, synthesis against the cosmic integration band, love amplification, alignment and grid integration run in order. Only a synthesis raise stops this stage, and it is a division by zero. The recorded recognition flag is whether the anchor resonance reaches 0.85, and the other metrics lie in their subsystems' ranges. |
| Engine.Pipeline | gaia_tequmsa_engine.py:121-194 | Steps 2 to 6 run in order, and the first raise ends the run with an error. An error keeps the metrics already recorded. A raise in the synthesis keeps only the recognition flag, and its fault is a division by zero. A later raise also keeps the synthesis, love, alignment and grid frequency, each in its range. A non-positive frequency always ends in an error. A completed run has scalar resonance 1, a level that is the mean of the four metrics and at least 0.25, the band of that level, and each metric within its subsystem's range. |
| Engine.Run | gaia_tequmsa_engine.py:108-196 | Consent is requested for [f-10, f+10] and stored under the entity. The outcome is denied iff the stored status is not granted. Only a completed evolution sets evolution active. |
| Engine.Evolve | gaia_tequmsa_engine.py:84-198 | The outcome is failed iff the engine was inactive and some initialiser failed. Otherwise it is denied, error, or evolved with one of the four bands, and the engine is active. |
| Engine.ProtectedNeighbourhoodDenied | gaia_tequmsa_engine.py:110-119 | A frequency within 10 Hz of a baseline protected frequency never evolves: it is failed or denied. |
| Engine.Uptime | gaia_tequmsa_engine.py:209 | The uptime is the time since initialisation, and 0 when no time is recorded. |
| Engine.Status | gaia_tequmsa_engine.py:200-224 | The three flags are reported, and the subsystem summaries are present iff the subsystems are marked initialised. |
| Engine.Shutdown | gaia_tequmsa_engine.py:226-251 | All three flags are cleared. Every granted consent becomes emergency revoked, and every other record is unchanged. The gate keeps its active flag. The matrix is reset. The anchor, love field, grid and phi scalar are each exactly their module's deactivated state: inactive, amplitude 0, and every layer and harmonic inactive. |
| Engine.ShutdownStatus | gaia_tequmsa_engine.py:226-251 | After a shutdown the status shows no subsystems and no active consent. |
| Engine.ShutdownThenEvolveReinitializes | gaia_tequmsa_engine.py:96-99 | After a shutdown the next evolution re-initialises, so a failing initialiser makes it fail. |
| Engine.HealthBand | gaia_tequmsa_engine.py:299-307 | The score gets exactly one health band: at least 0.9 excellent, at least 0.7 good, at least 0.5 degraded, and below that critical. |
| Engine.MatrixScore | gaia_tequmsa_engine.py:272-278 | The probe scores 0 iff the synthesis raised, 1 iff it was positive, and 0.5 otherwise. |
| Engine.RecognitionScore | gaia_tequmsa_engine.py:281-287 | The probe scores 1 iff the resonance exceeds 0.5, and 0.5 otherwise. |
| Engine.RunDiagnostics | gaia_tequmsa_engine.py:253-313 | The report is offline iff the engine is inactive. Otherwise the score is the mean of the six scores, at least 0.75, so the health is good or excellent and never degraded or critical. |
| Engine.DiagnosticsAfterInitialize | gaia_tequmsa_engine.py:271-294 | Right after a successful initialisation the health is excellent, with the matrix probe degraded because sin(pi) = 0 and the recognition probe healthy. |
| Engine.ShutdownThenOffline | gaia_tequmsa_engine.py:263-266 | A shut-down engine reports offline. |

## Left out

- Sample values of the three pulse generators and the complex resonance field are not modelled. Only the sample counts and the field size of 100 are kept, because the values are floating-point waveforms with nothing discrete to state.
- `print` output, timestamps in result records and the SHA-256 sovereignty hash string are not modelled. The hash is an opaque `nat` token, and the md5 prefix and salted `hash()` are parameters.
- Engine.Evolve: the result does not echo the entity id, the input frequency or a timestamp. One clock reading, `Env.now`, serves the initialisation time and the integrity jitter.
- Engine.InitializeParts: a failing initialiser leaves its subsystem unchanged. A partial mutation made before an exception is not modelled, because none of the initialisers can raise once their inputs are modelled.
- Engine.Pipeline: an error carries the `Fault` constructor in place of the text of `str(e)`. The metrics written before the raise are kept.
- Engine.Shutdown: the boolean result, always true, is dropped. The exception path cannot be reached in the model.
- Engine.Status: the matrix and anchor summaries are the records themselves. `get_matrix_state` and `get_anchor_status` only copy their fields.
- Engine.RunDiagnostics: the outer exception path that reports critical is not modelled, because no modelled operation in the try block can raise there.
- Love.Amplify: states only the zero-iteration and sign facts, not the value. The iteration has no convergence guarantee to state.
- PhiScalar.Scaled: holds in exact arithmetic. In IEEE floats the scaled value is only close to the scalar frequency, and so the scalar resonance is only close to 1.
- Engine.DiagnosticsAfterInitialize: relies on sin(pi) = 0. In IEEE floats sin(pi) is about 1.2e-16 > 0, and the matrix probe would report healthy. The health would still be excellent.
- Sovereignty.EnforceBoundaries: the order in which Python iterates over the protected set is left open, and the result does not depend on it.
- Floating-point rounding in general is not modelled: every constant is the decimal the source writes, read as an exact real.
- The HTTP relay (metaverse-sync/real_time_api.py), the console demo (demo.py) and core-engine/recognition_pulse.py are not part of this model.
- The numeric values of `sin`, `cos`, `exp`, `log` and real powers of Phi are not modelled. Only the facts listed in `Valid(t)` are used.
