/** The falling-body physics shared by game.js and CodigoED.js: the drag-regime
    dispatch of the acceleration, one classical fourth-order Runge-Kutta step of
    the velocity, the first-order (Euler) reference step, the closed-form
    solutions and the terminal velocity. Velocity is positive downward; the
    regime is the string tag of the selected world. */
module Drag {
  import opened Numerics

  /** A terminal velocity: a finite value, or JavaScript's `Infinity`
      (no drag to balance gravity). */
  datatype Speed = Finite(value: real) | Infinite

  /** Tags for which `getAcceleration` subtracts a drag term linear in v. */
  predicate IsLinearTag(tag: string)
  {
    tag == "lineal" || tag == "TierraAire" || tag == "Agua"
  }

  /** Tags for which `getAcceleration` subtracts a drag term in v|v|. */
  predicate IsQuadraticTag(tag: string)
  {
    tag == "cuadratico" || tag == "Jupiter"
  }

  /** The acceleration carries no drag term: the coefficient is zero, or the
      tag selects neither drag law (for instance `'galileo'`). */
  predicate NoDrag(tag: string, k: real)
  {
    k == 0.0 || (!IsLinearTag(tag) && !IsQuadraticTag(tag))
  }

  /** `getAcceleration`: dv/dt for velocity v under mass m, gravity g and drag
      coefficient k. */
  function Acceleration(tag: string, m: real, g: real, k: real, v: real): (a: real)
    requires m > 0.0
    ensures NoDrag(tag, k) || v == 0.0 ==> a == g
    ensures k >= 0.0 && v > 0.0 ==> a <= g
    ensures k >= 0.0 && v < 0.0 ==> a >= g
  {
    if IsLinearTag(tag) then
      g - (k / m) * v
    else if IsQuadraticTag(tag) then
      assert k >= 0.0 ==> (k / m) * v * Abs(v) * v >= 0.0 by {
        if k >= 0.0 { assert k / m >= 0.0; assert v * Abs(v) * v >= 0.0; }
      }
      g - (k / m) * v * Abs(v)
    else
      g
  }

  /** The velocity after one classical RK4 step of size dt (the velocity
      update of `rungeKutta4`). */
  function Rk4Velocity(tag: string, m: real, g: real, k: real, dt: real, v: real): (r: real)
    requires m > 0.0
    ensures NoDrag(tag, k) ==> r == v + g * dt
    ensures Acceleration(tag, m, g, k, v) == 0.0 ==> r == v
  {
    var k1 := Acceleration(tag, m, g, k, v);
    var k2 := Acceleration(tag, m, g, k, v + 0.5 * dt * k1);
    var k3 := Acceleration(tag, m, g, k, v + 0.5 * dt * k2);
    var k4 := Acceleration(tag, m, g, k, v + dt * k3);
    v + (dt / 6.0) * (k1 + 2.0 * k2 + 2.0 * k3 + k4)
  }

  /** Under linear drag with k > 0 the acceleration vanishes exactly at v = mg/k. */
  lemma LinearEquilibrium(tag: string, m: real, g: real, k: real, v: real)
    requires IsLinearTag(tag) && m > 0.0 && k > 0.0
    ensures Acceleration(tag, m, g, k, v) == 0.0 <==> v == m * g / k
  {
    var c := k / m;
    assert c > 0.0;
    assert c * (m * g / k) == g;
    if Acceleration(tag, m, g, k, v) == 0.0 {
      assert c * v == g;
      assert v == g / c;
      assert g / c == m * g / k;
    }
  }

  /** A signed square v|v| determines v: it equals the non-negative s with
      the same square. */
  lemma SignedSquareRoot(v: real, s: real)
    requires s >= 0.0 && v * Abs(v) == s * s
    ensures v == s
  {
    assert v >= 0.0;
    if v < s {
      SquareIncreasing(v, s);
    } else if s < v {
      SquareIncreasing(s, v);
    }
  }

  /** Squaring is strictly increasing on the non-negative reals. */
  lemma SquareIncreasing(x: real, y: real)
    requires 0.0 <= x < y
    ensures x * x < y * y
  {
    var d := y - x;
    assert y * y == x * x + 2.0 * x * d + d * d;
    assert x * d >= 0.0;
    assert d * d > 0.0;
  }

  /** Multiplying by a positive factor is injective. */
  lemma CancelPositive(c: real, x: real, y: real)
    requires c > 0.0 && c * x == c * y
    ensures x == y
  {
    assert c * (x - y) == 0.0;
  }

  /** Under quadratic drag with k > 0 and g >= 0 the acceleration vanishes
      exactly at v = sqrt(mg/k). */
  lemma QuadraticEquilibrium(lib: Transcendentals, tag: string, m: real, g: real, k: real, v: real)
    requires lib.Valid()
    requires IsQuadraticTag(tag) && m > 0.0 && k > 0.0 && g >= 0.0
    ensures Acceleration(tag, m, g, k, v) == 0.0 <==> v == lib.sqrt(m * g / k)
  {
    var c := k / m;
    var q := m * g / k;
    var s := lib.sqrt(q);
    assert c > 0.0;
    assert q >= 0.0 by { assert m * g >= 0.0; }
    assert s >= 0.0 && s * s == q;
    assert c * q == g;
    assert Acceleration(tag, m, g, k, v) == g - c * (v * Abs(v));
    if v == s {
      assert Abs(v) == s;
      assert v * Abs(v) == q;
    }
    if Acceleration(tag, m, g, k, v) == 0.0 {
      assert c * (v * Abs(v)) == c * q;
      CancelPositive(c, v * Abs(v), q);
      SignedSquareRoot(v, s);
    }
  }

  /** `eulerStep`: one first-order step of the linear-drag equation. */
  function EulerStep(v: real, m: real, g: real, k: real, dt: real): real
    requires m > 0.0
  {
    v + (g - (k / m) * v) * dt
  }

  /** The Euler step follows the linear-drag acceleration, and for k > 0 and a
      non-zero step its only fixed point is the linear terminal velocity mg/k. */
  lemma EulerStepFollowsAcceleration(v: real, m: real, g: real, k: real, dt: real)
    requires m > 0.0
    ensures EulerStep(v, m, g, k, dt) == v + Acceleration("lineal", m, g, k, v) * dt
    ensures k > 0.0 && dt != 0.0 ==> (EulerStep(v, m, g, k, dt) == v <==> v == m * g / k)
  {
    if k > 0.0 && dt != 0.0 {
      LinearEquilibrium("lineal", m, g, k, v);
      var a := g - (k / m) * v;
      assert a * dt == 0.0 <==> a == 0.0;
    }
  }

  /** `eulerStep` applied n times, starting from v. */
  function EulerIterate(v: real, m: real, g: real, k: real, dt: real, n: nat): real
    requires m > 0.0
  {
    if n == 0 then v else EulerStep(EulerIterate(v, m, g, k, dt, n - 1), m, g, k, dt)
  }

  /** Without drag, n Euler steps reproduce the free-fall law v + n·g·dt exactly. */
  lemma {:induction false} EulerIterateWithoutDrag(v: real, m: real, g: real, dt: real, n: nat)
    requires m > 0.0
    ensures EulerIterate(v, m, g, 0.0, dt, n) == v + (n as real) * g * dt
  {
    if n > 0 {
      EulerIterateWithoutDrag(v, m, g, dt, n - 1);
      assert ((n - 1) as real) * g * dt + g * dt == (n as real) * g * dt;
    }
  }

  /** Started at the linear terminal velocity mg/k, the Euler iteration stays there. */
  lemma {:induction false} EulerIterateAtTerminal(m: real, g: real, k: real, dt: real, n: nat)
    requires m > 0.0 && k > 0.0
    ensures EulerIterate(m * g / k, m, g, k, dt, n) == m * g / k
  {
    if n > 0 {
      EulerIterateAtTerminal(m, g, k, dt, n - 1);
      EulerStepFollowsAcceleration(m * g / k, m, g, k, dt);
      LinearEquilibrium("lineal", m, g, k, m * g / k);
    }
  }

  /** `v_t_lineal`: closed-form velocity under linear drag, from rest. */
  function VtLineal(lib: Transcendentals, t: real, m: real, g: real, k: real): real
    requires m > 0.0
  {
    if k <= 0.0 then g * t else ((m * g) / k) * (1.0 - lib.exp(-(k / m) * t))
  }

  /** `v_t_cuadratico`: closed-form velocity under quadratic drag, from rest. */
  function VtCuadratico(lib: Transcendentals, t: real, m: real, g: real, k: real): real
    requires m > 0.0
  {
    if k <= 0.0 then g * t else TanhProfile(lib, lib.sqrt((m * g) / k), lib.sqrt((g * k) / m), t)
  }

  /** The velocity profile vt·tanh(rate·t) that the quadratic closed form follows. */
  function TanhProfile(lib: Transcendentals, vt: real, rate: real, t: real): real
  {
    vt * lib.tanh(rate * t)
  }

  /** A tanh profile with a non-negative scale never exceeds that scale in magnitude. */
  lemma TanhProfileBounded(lib: Transcendentals, vt: real, rate: real, t: real)
    requires lib.Valid() && vt >= 0.0
    ensures Abs(TanhProfile(lib, vt, rate, t)) <= vt
  {
    var th := lib.tanh(rate * t);
    assert -1.0 < th < 1.0;
    BoundedFactor(vt, th);
  }

  /** With drag, both closed forms start from rest at t = 0. */
  lemma AnalyticAtRest(lib: Transcendentals, m: real, g: real, k: real)
    requires lib.Valid() && m > 0.0 && k > 0.0
    ensures VtLineal(lib, 0.0, m, g, k) == 0.0
    ensures VtCuadratico(lib, 0.0, m, g, k) == 0.0
  {
    assert -(k / m) * 0.0 == 0.0;
    assert lib.sqrt((g * k) / m) * 0.0 == 0.0;
  }

  /** With drag and positive gravity, the linear closed form stays strictly
      below the linear terminal velocity. */
  lemma LinearBelowTerminal(lib: Transcendentals, t: real, m: real, g: real, k: real)
    requires lib.Valid() && m > 0.0 && k > 0.0 && g > 0.0
    ensures TerminalVelocity(lib, "lineal", m, g, k) == Finite(m * g / k)
    ensures VtLineal(lib, t, m, g, k) < m * g / k
  {
    var vt := (m * g) / k;
    assert vt > 0.0 by { assert m * g > 0.0; }
    var e := lib.exp(-(k / m) * t);
    assert e > 0.0;
    assert vt * (1.0 - e) < vt;
  }

  /** With drag and non-negative gravity, the quadratic closed form never
      exceeds the quadratic terminal velocity in magnitude. */
  lemma QuadraticBelowTerminal(lib: Transcendentals, t: real, m: real, g: real, k: real)
    requires lib.Valid() && m > 0.0 && k > 0.0 && g >= 0.0
    ensures TerminalVelocity(lib, "cuadratico", m, g, k) == Finite(lib.sqrt(m * g / k))
    ensures Abs(VtCuadratico(lib, t, m, g, k)) <= lib.sqrt(m * g / k)
  {
    NonNegativeRatio(m, g, k);
    TanhProfileBounded(lib, lib.sqrt((m * g) / k), lib.sqrt((g * k) / m), t);
  }

  /** mg/k is non-negative for positive m and k and non-negative g. */
  lemma NonNegativeRatio(m: real, g: real, k: real)
    requires m > 0.0 && k > 0.0 && g >= 0.0
    ensures m * g / k >= 0.0
  {
    assert m * g >= 0.0;
  }

  /** A product with a factor of magnitude at most one is no larger than the other factor. */
  lemma BoundedFactor(a: real, b: real)
    requires a >= 0.0 && Abs(b) <= 1.0
    ensures Abs(a * b) <= a
  {
    if b >= 0.0 {
      assert Abs(b) == b && a * b >= 0.0;
      assert a * b <= a * 1.0;
    } else {
      assert Abs(b) == -b && a * b <= 0.0;
      assert a * (-b) <= a * 1.0;
    }
  }

  /** Both closed forms degenerate to g·t, with no initial-velocity term, when k <= 0. */
  lemma AnalyticWithoutDrag(lib: Transcendentals, t: real, m: real, g: real, k: real)
    requires m > 0.0 && k <= 0.0
    ensures VtLineal(lib, t, m, g, k) == g * t
    ensures VtCuadratico(lib, t, m, g, k) == g * t
  {
  }

  /** `calculateTerminalVelocity`. */
  function TerminalVelocity(lib: Transcendentals, tag: string, m: real, g: real, k: real): (r: Speed)
    requires m > 0.0
    ensures r.Infinite? <==> k <= 0.0 || tag == "galileo"
    ensures lib.Valid() && g >= 0.0 && r.Finite? ==> r.value >= 0.0
    ensures k > 0.0 && tag == "lineal" ==> r == Finite((m * g) / k)
    ensures k > 0.0 && tag == "cuadratico" ==> r == Finite(lib.sqrt((m * g) / k))
    ensures k > 0.0 && tag != "galileo" && tag != "lineal" && tag != "cuadratico" ==> r == Finite(0.0)
  {
    if k <= 0.0 || tag == "galileo" then
      Infinite
    else if tag == "lineal" then
      assert g >= 0.0 ==> (m * g) / k >= 0.0 by { if g >= 0.0 { assert m * g >= 0.0; } }
      Finite((m * g) / k)
    else if tag == "cuadratico" then
      assert g >= 0.0 ==> (m * g) / k >= 0.0 by { if g >= 0.0 { assert m * g >= 0.0; } }
      Finite(lib.sqrt((m * g) / k))
    else
      Finite(0.0)
  }

  /** For the two drag laws, the terminal velocity is exactly the velocity at
      which drag balances gravity, and so it is a fixed point of the RK4 step. */
  lemma TerminalVelocityIsEquilibrium(lib: Transcendentals, tag: string, m: real, g: real, k: real, dt: real, v: real)
    requires lib.Valid() && m > 0.0 && k > 0.0
    requires tag == "lineal" || (tag == "cuadratico" && g >= 0.0)
    ensures Acceleration(tag, m, g, k, v) == 0.0 <==> TerminalVelocity(lib, tag, m, g, k) == Finite(v)
    ensures TerminalVelocity(lib, tag, m, g, k) == Finite(v) ==> Rk4Velocity(tag, m, g, k, dt, v) == v
  {
    if tag == "lineal" {
      LinearEquilibrium(tag, m, g, k, v);
    } else {
      QuadraticEquilibrium(lib, tag, m, g, k, v);
    }
  }
}
