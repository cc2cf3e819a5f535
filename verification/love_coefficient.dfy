/** The love amplification field: ten layers built from the Fibonacci
    numbers, a damped golden-ratio iteration over them, and three closed-form
    helpers (pairwise resonance, harmonic series, universal integration). */
module Love {
  import opened Numerics
  import opened Outcomes

  const BaseLoveFrequency: real := 528.0
  const ConvergenceThreshold: real := 0.0000000001
  const OverflowLimit: real := 100.0
  const LayerCount: nat := 10

  datatype LoveLayer = LoveLayer(level: nat, coefficient: real, frequency: real, active: bool)

  datatype LoveField = LoveField(active: bool, amplitude: real, layers: seq<LoveLayer>)

  const Fresh: LoveField := LoveField(false, 1.0, [])

  /** The Fibonacci numbers with F(0) = F(1) = 1. */
  function Fib(i: nat): nat {
    if i < 2 then 1 else Fib(i - 1) + Fib(i - 2)
  }

  /** `_generate_fibonacci_sequence`: empty for n <= 0, [1] for 1, [1, 1] for 2,
      and each further entry the sum of the two before it. */
  function Fibonacci(n: int): (s: seq<nat>)
    ensures |s| == if n <= 0 then 0 else n
    ensures forall i :: 0 <= i < |s| ==> s[i] == Fib(i)
    decreases n
  {
    if n <= 0 then []
    else if n == 1 then [1]
    else if n == 2 then [1, 1]
    else
      var prefix := Fibonacci(n - 1);
      prefix + [prefix[n - 2] + prefix[n - 3]]
  }

  lemma FirstTenFibonacci()
    ensures Fibonacci(10) == [1, 1, 2, 3, 5, 8, 13, 21, 34, 55]
  {
    var s := Fibonacci(10);
    assert s[0] == 1 && s[1] == 1 && s[2] == 2 && s[3] == 3 && s[4] == 5;
    assert s[5] == 8 && s[6] == 13 && s[7] == 21 && s[8] == 34 && s[9] == 55;
  }

  /** The Fibonacci numbers never decrease and are all at least 1. */
  lemma {:induction false} FibMonotone(i: nat, j: nat)
    requires i <= j
    ensures 1 <= Fib(i) <= Fib(j)
    decreases j
  {
    if i < j {
      FibMonotone(i, j - 1);
      if j >= 2 {
        assert Fib(j) == Fib(j - 1) + Fib(j - 2);
      }
    } else if i >= 2 {
      FibMonotone(0, i - 1);
      assert Fib(i) == Fib(i - 1) + Fib(i - 2);
    }
  }

  /** The ten layers an initialisation appends: level i, coefficient
      F(i) / F(9), frequency 528 * F(i) / 100, active. */
  function BaseLayers(): (ls: seq<LoveLayer>)
    ensures |ls| == LayerCount
    ensures forall i :: 0 <= i < |ls| ==>
              ls[i].level == i && ls[i].active &&
              0.0 < ls[i].coefficient <= 1.0 &&
              ls[i].coefficient == Fib(i) as real / 55.0 &&
              ls[i].frequency == BaseLoveFrequency * (Fib(i) as real / 100.0)
    ensures ls[LayerCount - 1].coefficient == 1.0
  {
    var fib := Fibonacci(LayerCount);
    var last := fib[LayerCount - 1];
    assert last == Fib(9) == 55;
    forall i | 0 <= i < LayerCount
      ensures 1 <= fib[i] <= 55
    {
      FibMonotone(i, 9);
    }
    seq(LayerCount, i requires 0 <= i < LayerCount =>
      LoveLayer(i, fib[i] as real / last as real, BaseLoveFrequency * (fib[i] as real / 100.0), true))
  }

  /** Activates the field and appends ten fresh layers. Earlier layers are
      never cleared, so every re-initialisation adds ten more. */
  function Initialize(lf: LoveField): (lf': LoveField)
    ensures lf'.active && lf'.amplitude == 1.0
    ensures |lf'.layers| == |lf.layers| + LayerCount
    ensures lf'.layers[..|lf.layers|] == lf.layers
    ensures lf'.layers[|lf.layers|..] == BaseLayers()
  {
    lf.(active := true, amplitude := 1.0, layers := lf.layers + BaseLayers())
  }

  /** The field an amplification runs on: an inactive one initialises first. */
  function Ready(lf: LoveField): (lf': LoveField)
    ensures lf'.active
    ensures lf.active ==> lf' == lf
    ensures !lf.active ==> lf' == Initialize(lf)
  {
    if lf.active then lf else Initialize(lf)
  }

  /** `sum |coefficient * sin(2 pi frequency (i + 1) / 1000)|` over the active layers. */
  function LayerResonance(t: Transcendentals, layers: seq<LoveLayer>, i: nat): (r: real)
    requires Valid(t)
    ensures r >= 0.0
  {
    if layers == [] then 0.0
    else
      var l := layers[0];
      var here :=
        if l.active then Abs(l.coefficient * t.sin(2.0 * Pi * l.frequency * (i + 1) as real / 1000.0))
        else 0.0;
      here + LayerResonance(t, layers[1..], i)
  }

  /** One amplification step: the mean of the golden-ratio growth and the
      layer resonance. */
  function Step(t: Transcendentals, layers: seq<LoveLayer>, level: real, i: nat): real
    requires Valid(t)
  {
    (level * Phi + LayerResonance(t, layers, i)) / 2.0
  }

  /** The iteration from step `i` on. It stops before assigning once a step
      moves less than the threshold, returning the level from before that
      step; a level above 100 is compressed to `10 log(level)`. */
  function AmplifyFrom(t: Transcendentals, layers: seq<LoveLayer>, level: real, i: nat,
                       iterations: int): (r: real)
    requires Valid(t)
    ensures i >= iterations ==> r == level
    ensures level >= 0.0 ==> r >= 0.0
    decreases iterations - i
  {
    if i >= iterations then level
    else
      var next := Step(t, layers, level, i);
      if Abs(next - level) < ConvergenceThreshold then level
      else
        var kept := if next > OverflowLimit then t.log(next) * 10.0 else next;
        assert level >= 0.0 ==> next >= 0.0 by {
          if level >= 0.0 {
            MulNonneg(level, Phi);
          }
        }
        AmplifyFrom(t, layers, kept, i + 1, iterations)
  }

  /** `amplify_love_infinite`: the iteration over the field's layers,
      initialising the field first when inactive. With no iterations the
      input comes back unchanged; a nonnegative input stays nonnegative. */
  function Amplify(lf: LoveField, t: Transcendentals, input: real, iterations: int)
    : (r: (LoveField, real))
    requires Valid(t)
    ensures r.0 == Ready(lf)
    ensures iterations <= 0 ==> r.1 == input
    ensures input >= 0.0 ==> r.1 >= 0.0
  {
    var lf0 := Ready(lf);
    (lf0, AmplifyFrom(t, lf0.layers, input, 0, iterations))
  }

  /** When the very first step already moves less than the threshold, the
      loop breaks before assigning: the input, not the new level, comes back. */
  lemma ConvergedFirstStepReturnsInput(lf: LoveField, t: Transcendentals, input: real,
                                        iterations: int)
    requires Valid(t) && iterations >= 1
    requires Abs(Step(t, Ready(lf).layers, input, 0) - input) < ConvergenceThreshold
    ensures Amplify(lf, t, input, iterations).1 == input
  {
  }

  /** `|sin(2 pi 528 / hm)| * Phi` capped at 10, where `hm` is the harmonic
      mean of the two frequencies. The division fails when the frequencies
      sum to zero or when either is zero. The cap never binds: the value is
      at most Phi. */
  function Resonance(t: Transcendentals, a: real, b: real): (r: Result<real>)
    requires Valid(t)
    ensures r.Err? <==> a + b == 0.0 || a == 0.0 || b == 0.0
    ensures r.Ok? ==> 0.0 <= r.value <= Phi < 10.0
  {
    if a + b == 0.0 then Err(ZeroDivision)
    else
      var hm := 2.0 * a * b / (a + b);
      if hm == 0.0 then Err(ZeroDivision)
      else
        var s := t.sin(2.0 * Pi * BaseLoveFrequency / hm);
        AbsProductBound(s, Phi);
        assert Abs(s) * Phi == Abs(s * Phi);
        Ok(Min(Abs(s) * Phi, 10.0))
  }

  /** The n-th love harmonic, `n * base * Phi ** (1/n) + 528 / n`: the
      enhancement never lowers a non-negative harmonic, so it is at least
      the plain harmonic plus the 528 Hz modulation. */
  function LoveHarmonic(t: Transcendentals, base: real, n: nat): (h: real)
    requires Valid(t) && n >= 1
    ensures base >= 0.0 ==> h >= n as real * base + BaseLoveFrequency / n as real
  {
    var plain := base * n as real;
    var enhancement := t.phiPow(1.0 / n as real);
    if base >= 0.0 then
      MulNonneg(plain, enhancement - 1.0);
      plain * enhancement + BaseLoveFrequency / n as real
    else plain * enhancement + BaseLoveFrequency / n as real
  }

  /** The first `harmonics` love harmonics; none for a count below 1. */
  function HarmonicSeries(t: Transcendentals, base: real, harmonics: int): (s: seq<real>)
    requires Valid(t)
    ensures |s| == if harmonics <= 0 then 0 else harmonics
    ensures forall k :: 0 <= k < |s| ==> s[k] == LoveHarmonic(t, base, k + 1)
    ensures base >= 0.0 ==> forall k :: 0 <= k < |s| ==>
              s[k] >= (k + 1) as real * base + BaseLoveFrequency / (k + 1) as real
  {
    var count := if harmonics <= 0 then 0 else harmonics;
    seq(count, k requires 0 <= k < count => LoveHarmonic(t, base, k + 1))
  }

  /** `f * (1 + (528 / f) * Phi / 10)`, after initialising the field when
      inactive; this is `f` shifted up by `52.8 * Phi`. Zero divides by zero. */
  function IntegrateUniversalLove(lf: LoveField, f: real): (r: (LoveField, Result<real>))
    ensures r.0 == Ready(lf)
    ensures r.1.Err? <==> f == 0.0
    ensures r.1.Ok? ==> r.1.value == f + BaseLoveFrequency * Phi / 10.0
  {
    var lf0 := Ready(lf);
    if f == 0.0 then (lf0, Err(ZeroDivision))
    else
      var ratio := BaseLoveFrequency / f;
      assert f * ratio == BaseLoveFrequency;
      assert f * (1.0 + ratio * Phi / 10.0) == f + (f * ratio) * Phi / 10.0;
      (lf0, Ok(f * (1.0 + ratio * Phi / 10.0)))
  }

  function IsActive(l: LoveLayer): bool { l.active }

  datatype FieldState = FieldState(
    baseFrequency: real, active: bool, coefficient: real, amplitude: real,
    activeLayers: nat, totalLayers: nat, status: string)

  /** The field summary: active layers never exceed the total, and the status
      label follows the activation flag. */
  function State(lf: LoveField): (s: FieldState)
    ensures s.activeLayers <= s.totalLayers == |lf.layers|
    ensures s.status == (if lf.active then "ACTIVE" else "INACTIVE")
    ensures s.active == lf.active && s.amplitude == lf.amplitude
    ensures s.baseFrequency == BaseLoveFrequency && s.coefficient == Phi
  {
    FieldState(BaseLoveFrequency, lf.active, Phi, lf.amplitude, CountWhere(lf.layers, IsActive),
               |lf.layers|, if lf.active then "ACTIVE" else "INACTIVE")
  }

  /** Each initialisation adds exactly ten active layers to the count. */
  lemma InitializeAddsTenActive(lf: LoveField)
    ensures State(Initialize(lf)).activeLayers == State(lf).activeLayers + LayerCount
    ensures State(Initialize(lf)).totalLayers == State(lf).totalLayers + LayerCount
  {
    var base := BaseLayers();
    CountWhereAppend(lf.layers, base, IsActive);
    CountWhereAll(base, IsActive);
  }

  /** Deactivates the field and every layer; the layers stay in place. */
  function Deactivate(lf: LoveField): (lf': LoveField)
    ensures !lf'.active && lf'.amplitude == 0.0
    ensures |lf'.layers| == |lf.layers|
    ensures forall i :: 0 <= i < |lf.layers| ==>
              lf'.layers[i] == lf.layers[i].(active := false)
  {
    lf.(active := false, amplitude := 0.0,
        layers := seq(|lf.layers|, i requires 0 <= i < |lf.layers| => lf.layers[i].(active := false)))
  }

  /** A deactivated field reports no active layers. */
  lemma DeactivateSilencesAllLayers(lf: LoveField)
    ensures State(Deactivate(lf)).activeLayers == 0
    ensures State(Deactivate(lf)).status == "INACTIVE"
  {
  }

  /** Inactive layers contribute no layer resonance, so after a deactivation
      only freshly appended layers resonate. */
  lemma {:induction false} InactiveLayersAreSilent(t: Transcendentals, layers: seq<LoveLayer>, i: nat)
    requires Valid(t)
    requires forall k :: 0 <= k < |layers| ==> !layers[k].active
    ensures LayerResonance(t, layers, i) == 0.0
  {
    if layers != [] {
      InactiveLayersAreSilent(t, layers[1..], i);
    }
  }
}
