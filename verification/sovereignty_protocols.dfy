/** The consent and boundary gate: a map from entity to its latest consent
    record, the set of protected biological frequencies, and an append-only
    log of autonomy violations. */
module Sovereignty {
  import opened Numerics
  import opened Outcomes

  datatype ConsentStatus =
    | Pending
    | Granted
    | DeniedProtectedFrequency
    | DeniedLowIntegrity
    | EmergencyRevoked

  /** One consent request as stored; `integrity` is present exactly on the
      records that were granted when written. */
  datatype ConsentRecord = ConsentRecord(
    entityId: string,
    interventionType: string,
    low: real,
    high: real,
    status: ConsentStatus,
    integrity: Option<real>)

  datatype Violation = Violation(entityId: string, violationType: string, severity: real)

  /** Minimum integrity for a grant. */
  const IntegrityThreshold: real := 0.95

  /** Brain-wave, heart and breathing frequencies installed by initialisation. */
  const BaselineProtected: set<real> := {8.0, 13.0, 30.0, 4.0, 0.5, 72.0, 1.2}

  /** Frequencies closer than this to a protected one are blocked. */
  const Tolerance: real := 0.5
  const MinSafeFrequency: real := 0.1
  const MaxSafeFrequency: real := 50000.0

  /** Violations strictly above this severity trigger the emergency protocol. */
  const CriticalSeverity: real := 0.7

  datatype Gate = Gate(
    active: bool,
    consents: map<string, ConsentRecord>,
    violations: seq<Violation>,
    protected: set<real>,
    token: Option<nat>)
  {
    /** What every reachable gate satisfies: once active, the seven baseline
        frequencies are protected; each record is filed under its own entity;
        a granted record carries the integrity that passed the threshold. */
    ghost predicate Valid() {
      && (active ==> BaselineProtected <= protected)
      && (forall id :: id in consents ==> consents[id].entityId == id)
      && (forall id :: id in consents && consents[id].status == Granted ==>
            consents[id].integrity.Some? && consents[id].integrity.value >= IntegrityThreshold)
    }
  }

  /** The gate as the module creates it. */
  const Fresh: Gate := Gate(false, map[], [], {}, None)

  lemma FreshIsValid()
    ensures Fresh.Valid()
  {
  }

  /** Activates the gate, resets the protected set to the baseline (dropping
      frequencies added by emergencies) and stores the verification token,
      which `_generate_sovereignty_hash` derives from the clock. */
  function Initialize(g: Gate, token: nat): (g': Gate)
    ensures g'.active && g'.protected == BaselineProtected && g'.token == Some(token)
    ensures g'.consents == g.consents && g'.violations == g.violations
    ensures g.Valid() ==> g'.Valid()
  {
    g.(active := true, protected := BaselineProtected, token := Some(token))
  }

  /** The protected set a request is checked against: a request on an
      inactive gate initialises it first. */
  function ProtectedInForce(g: Gate): set<real> {
    if g.active then g.protected else BaselineProtected
  }

  /** Some protected frequency lies in the closed interval [low, high]. */
  predicate Conflicts(protected: set<real>, low: real, high: real) {
    exists p :: p in protected && low <= p <= high
  }

  /** The simulated integrity score: the md5 prefix of the entity id modulo
      100 as a base, plus 0.7, plus a clock jitter in [0, 0.1), capped at 1. */
  function AssessIntegrity(digest: nat, now: real): (score: real)
    ensures 0.7 <= score <= 1.0
    ensures digest % 100 >= 30 ==> score == 1.0
    ensures digest % 100 >= 25 ==> score >= IntegrityThreshold
    ensures digest % 100 < 15 ==> score < IntegrityThreshold
  {
    var base := (digest % 100) as real / 100.0;
    var jitter := 0.1 * FloorMod(now, 10.0) / 10.0;
    Min(1.0, base + 0.7 + jitter)
  }

  /** Writes `rec` as the record of its entity (last request wins). */
  function File(g: Gate, rec: ConsentRecord): Gate {
    g.(consents := g.consents[rec.entityId := rec])
  }

  /** A consent request for `entity` over [low, high]: denied when a protected
      frequency lies in the interval, otherwise granted iff the integrity
      score reaches the threshold. Either way the new record replaces the
      entity's previous one. Returns the new gate and whether consent was
      granted. */
  function RequestConsent(g: Gate, token: nat, entity: string, kind: string,
                          low: real, high: real, digest: nat, now: real): (r: (Gate, bool))
    ensures r.0.active
    ensures r.0.protected == ProtectedInForce(g) && r.0.violations == g.violations
    ensures r.0.consents.Keys == g.consents.Keys + {entity}
    ensures forall id :: id in g.consents && id != entity ==> r.0.consents[id] == g.consents[id]
    ensures r.1 <==> r.0.consents[entity].status == Granted
    ensures Conflicts(ProtectedInForce(g), low, high) ==>
              !r.1 && r.0.consents[entity].status == DeniedProtectedFrequency
    ensures !Conflicts(ProtectedInForce(g), low, high) ==>
              (r.1 <==> AssessIntegrity(digest, now) >= IntegrityThreshold)
    ensures r.0.consents[entity].low == low && r.0.consents[entity].high == high
    ensures g.Valid() ==> r.0.Valid()
  {
    var g0 := if g.active then g else Initialize(g, token);
    if Conflicts(g0.protected, low, high) then
      (File(g0, ConsentRecord(entity, kind, low, high, DeniedProtectedFrequency, None)), false)
    else
      var score := AssessIntegrity(digest, now);
      var rec :=
        if score >= IntegrityThreshold then ConsentRecord(entity, kind, low, high, Granted, Some(score))
        else ConsentRecord(entity, kind, low, high, DeniedLowIntegrity, None);
      (File(g0, rec), rec.status == Granted)
  }

  /** On a valid gate, any request whose interval contains one of the seven
      baseline frequencies is denied for that reason, whatever the integrity. */
  lemma BaselineConflictDenies(g: Gate, token: nat, entity: string, kind: string,
                               low: real, high: real, digest: nat, now: real, p: real)
    requires g.Valid()
    requires p in BaselineProtected && low <= p <= high
    ensures var r := RequestConsent(g, token, entity, kind, low, high, digest, now);
            !r.1 && r.0.consents[entity].status == DeniedProtectedFrequency
  {
    assert p in ProtectedInForce(g);
  }

  /** The stored record names the entity and the intervention type of the
      request; without a conflict, a score below the threshold is recorded as
      a low-integrity denial and any other as a grant. */
  lemma RequestRecordsIntegrityOutcome(g: Gate, token: nat, entity: string, kind: string,
                                       low: real, high: real, digest: nat, now: real)
    ensures var rec := RequestConsent(g, token, entity, kind, low, high, digest, now).0.consents[entity];
            rec.entityId == entity && rec.interventionType == kind
    ensures !Conflicts(ProtectedInForce(g), low, high) ==>
              var rec := RequestConsent(g, token, entity, kind, low, high, digest, now).0.consents[entity];
              rec.status == if AssessIntegrity(digest, now) >= IntegrityThreshold
                            then Granted else DeniedLowIntegrity
  {
  }

  /** Two requests for the same entity: the second record is all that remains,
      and it is exactly what the second request would have written anyway. */
  lemma LastRequestWins(g: Gate, token: nat, entity: string,
                        kind1: string, low1: real, high1: real,
                        kind2: string, low2: real, high2: real,
                        digest: nat, now1: real, now2: real)
    ensures var g1 := RequestConsent(g, token, entity, kind1, low1, high1, digest, now1).0;
            var g2 := RequestConsent(g1, token, entity, kind2, low2, high2, digest, now2).0;
            var h := RequestConsent(g, token, entity, kind2, low2, high2, digest, now2).0;
            g2.consents[entity] == h.consents[entity] && g2.consents == h.consents
  {
    var g1 := RequestConsent(g, token, entity, kind1, low1, high1, digest, now1).0;
    assert ProtectedInForce(g1) == ProtectedInForce(g);
  }

  /** Marks the entity's record (if any) as emergency revoked and protects one
      more frequency derived from the entity's salted hash modulo 1000. */
  function EmergencyActivation(g: Gate, entity: string, saltedHash: int): (g': Gate)
    ensures g'.consents.Keys == g.consents.Keys
    ensures entity in g.consents ==>
              g'.consents[entity] == g.consents[entity].(status := EmergencyRevoked)
    ensures forall id :: id in g.consents && id != entity ==> g'.consents[id] == g.consents[id]
    ensures exists p :: 0.0 <= p < 1000.0 && g'.protected == g.protected + {p}
    ensures g'.active == g.active && g'.violations == g.violations
    ensures g.Valid() ==> g'.Valid()
  {
    var consents :=
      if entity in g.consents then g.consents[entity := g.consents[entity].(status := EmergencyRevoked)]
      else g.consents;
    var p := (saltedHash % 1000) as real;
    g.(consents := consents, protected := g.protected + {p})
  }

  /** Appends one violation record; a severity above 0.7 also runs the
      emergency protocol for the entity. The gate need not be active. */
  function MonitorViolation(g: Gate, entity: string, kind: string, severity: real,
                            saltedHash: int): (g': Gate)
    ensures |g'.violations| == |g.violations| + 1
    ensures g'.violations[..|g.violations|] == g.violations
    ensures g'.violations[|g.violations|] == Violation(entity, kind, severity)
    ensures severity <= CriticalSeverity ==> g'.consents == g.consents && g'.protected == g.protected
    ensures severity > CriticalSeverity ==>
              g' == EmergencyActivation(g.(violations := g'.violations), entity, saltedHash)
    ensures g'.active == g.active
    ensures g.Valid() ==> g'.Valid()
  {
    var logged := g.(violations := g.violations + [Violation(entity, kind, severity)]);
    if severity > CriticalSeverity then EmergencyActivation(logged, entity, saltedHash) else logged
  }

  /** A frequency passes the boundaries when it is at least 0.5 Hz away from
      every protected frequency and lies in [0.1, 50000]. */
  ghost predicate WithinBoundaries(protected: set<real>, f: real) {
    && (forall p :: p in protected ==> Abs(f - p) >= Tolerance)
    && MinSafeFrequency <= f <= MaxSafeFrequency
  }

  /** Scans the protected set in some order, stopping at the first frequency
      within tolerance, then checks the safe range. */
  method EnforceBoundaries(g: Gate, f: real) returns (ok: bool)
    ensures ok <==> WithinBoundaries(g.protected, f)
  {
    var remaining := g.protected;
    while exists x :: x in remaining
      invariant remaining <= g.protected
      invariant forall p :: p in g.protected && p !in remaining ==> Abs(f - p) >= Tolerance
      decreases remaining
    {
      var p :| p in remaining;
      if Abs(f - p) < Tolerance {
        return false;
      }
      remaining := remaining - {p};
    }
    ok := MinSafeFrequency <= f <= MaxSafeFrequency;
  }

  function Revoked(c: ConsentRecord): ConsentRecord {
    if c.status == Granted then c.(status := EmergencyRevoked) else c
  }

  /** Emergency revocation: every granted record becomes emergency revoked;
      other records, the key set and the rest of the gate stay as they were. */
  function RevokeAll(g: Gate): (g': Gate)
    ensures g'.consents.Keys == g.consents.Keys
    ensures forall id :: id in g.consents && g.consents[id].status == Granted ==>
              g'.consents[id] == g.consents[id].(status := EmergencyRevoked)
    ensures forall id :: id in g.consents && g.consents[id].status != Granted ==>
              g'.consents[id] == g.consents[id]
    ensures forall id :: id in g'.consents ==> g'.consents[id].status != Granted
    ensures g'.active == g.active && g'.violations == g.violations && g'.protected == g.protected
    ensures g.Valid() ==> g'.Valid()
  {
    g.(consents := map id | id in g.consents :: Revoked(g.consents[id]))
  }

  lemma RevokeAllIdempotent(g: Gate)
    ensures RevokeAll(RevokeAll(g)) == RevokeAll(g)
  {
    var once := RevokeAll(g);
    var twice := RevokeAll(once);
    assert twice.consents == once.consents;
  }

  /** Sets the gate inactive; nothing else changes. */
  function Deactivate(g: Gate): (g': Gate)
    ensures !g'.active && g'.consents == g.consents && g'.violations == g.violations
    ensures g'.protected == g.protected && g'.token == g.token
    ensures g.Valid() ==> g'.Valid()
  {
    g.(active := false)
  }

  /** The token check: true when the gate is active and holds a token. */
  function VerifyIntegrity(g: Gate): (ok: bool)
    ensures ok ==> g.active
    ensures g.active && g.token.Some? ==> ok
    ensures g.token.None? ==> !ok
  {
    g.active && g.token.Some?
  }

  function GrantedIds(consents: map<string, ConsentRecord>): set<string> {
    set id | id in consents && consents[id].status == Granted
  }

  /** Number of violations with severity above 0.7. */
  function CriticalCount(vs: seq<Violation>): (n: nat)
    ensures n <= |vs|
  {
    if vs == [] then 0
    else CriticalCount(vs[..|vs| - 1]) + (if vs[|vs| - 1].severity > CriticalSeverity then 1 else 0)
  }

  lemma {:induction false} SubsetCardinality<T>(a: set<T>, b: set<T>)
    requires a <= b
    ensures |a| <= |b|
    decreases b
  {
    if a != {} {
      var x :| x in a;
      SubsetCardinality(a - {x}, b - {x});
    }
  }

  datatype SovereigntyStatus = SovereigntyStatus(
    active: bool,
    threshold: real,
    activeConsents: nat,
    totalConsents: nat,
    violationsRecorded: nat,
    criticalViolations: nat,
    protectedCount: nat,
    token: Option<nat>)

  function Status(g: Gate): (s: SovereigntyStatus)
    ensures s.activeConsents <= s.totalConsents == |g.consents|
    ensures s.criticalViolations <= s.violationsRecorded == |g.violations|
    ensures s.active == g.active && s.threshold == IntegrityThreshold
  {
    SubsetCardinality(GrantedIds(g.consents), g.consents.Keys);
    SovereigntyStatus(g.active, IntegrityThreshold, |GrantedIds(g.consents)|, |g.consents|,
                      |g.violations|, CriticalCount(g.violations), |g.protected|, g.token)
  }

  /** After an emergency revocation no consent is counted as active. */
  lemma RevokeAllClearsActiveConsents(g: Gate)
    ensures Status(RevokeAll(g)).activeConsents == 0
  {
    assert GrantedIds(RevokeAll(g).consents) == {};
  }

  /** A violation above the critical severity adds exactly one to the
      critical count; any other adds nothing to it. */
  lemma {:induction false} MonitorCountsCritical(g: Gate, entity: string, kind: string,
                                                severity: real, saltedHash: int)
    ensures var s := Status(MonitorViolation(g, entity, kind, severity, saltedHash));
            s.violationsRecorded == |g.violations| + 1 &&
            s.criticalViolations ==
              Status(g).criticalViolations + (if severity > CriticalSeverity then 1 else 0)
  {
    var g' := MonitorViolation(g, entity, kind, severity, saltedHash);
    assert g'.violations[..|g'.violations| - 1] == g.violations;
  }
}
