/** The simulation state of game.js: the world table, the global `gameState`
    (configuration and the falling object), `simulationHistory`, one RK4 step,
    the shot that starts a fall, the per-tick update and the comparative series
    built for the report.

    Sign convention: `y` is the remaining height above ground, starting at
    `y0` and decreasing by v·dt each step; velocity is positive downward. */
module Game {
  import opened Wrappers
  import opened Numerics
  import opened Worlds
  import Drag

  /** Physical constants of game.js. */
  const TimeStep: real := 0.01
  const KAnalytic: real := 0.015
  const GGravity: real := 9.81

  /** Step of the synthesized time grid and of the Euler reference curve. */
  const GridStep: real := 0.1
  const EulerStepSize: real := 0.1

  /** `WORLD_SETTINGS` of game.js. */
  const WorldSettings: map<string, World> := map[
    "TierraAire" := World(GGravity, KAnalytic, "lineal"),
    "TierraSinAire" := World(9.81, 0.0, "galileo"),
    "Luna" := World(1.62, 0.0, "galileo"),
    "Agua" := World(9.81, 5.0, "lineal"),
    "Jupiter" := World(24.79, 0.1, "cuadratico"),
    "Personalizado" := World(GGravity, 0.0, "lineal")
  ]

  /** The regime tag of the selected world: always one of the three tags the
      table uses, `'lineal'` when no known world is selected. */
  function Modelo(selected: Option<string>): (tag: string)
    ensures tag == "lineal" || tag == "galileo" || tag == "cuadratico"
    ensures selected.None? || selected.value !in WorldSettings ==> tag == "lineal"
    ensures selected.Some? && selected.value in WorldSettings ==> tag == WorldSettings[selected.value].modelo
  {
    ModeloOf(WorldSettings, selected)
  }

  /** One recorded point of `simulationHistory`. */
  datatype Sample = Sample(t: real, v: real)

  /** An entry of the Laplace series: `null`, or the Laplace curve evaluated
      at time t (the curve's formula is not part of this model). */
  datatype LaplacePoint = NoLaplace | LaplaceAt(t: real)

  /** What `generateComparativeData` returns. Labels are the times the chart
      labels are printed from. */
  datatype Report = Report(
    labels: seq<real>,
    simulated: seq<real>,
    galileo: seq<real>,
    vtAnalytic: Drag.Speed,
    laplace: seq<LaplacePoint>,
    euler: seq<Option<real>>)

  /** All five series of a report have the same length. */
  predicate SameLength(r: Report)
  {
    |r.simulated| == |r.labels| && |r.galileo| == |r.labels| &&
    |r.laplace| == |r.labels| && |r.euler| == |r.labels|
  }

  /** Sample times strictly increase along the history. */
  ghost predicate Chronological(h: seq<Sample>)
  {
    forall i, j :: 0 <= i < j < |h| ==> h[i].t < h[j].t
  }

  /** Every sample lies on the free-fall line v = v0 + g·t. */
  ghost predicate OnFreeFallLine(h: seq<Sample>, v0: real, g: real)
  {
    forall i :: 0 <= i < |h| ==> h[i].v == v0 + g * h[i].t
  }

  /** Appending a sample on the free-fall line keeps the history on it. */
  lemma ExtendOnFreeFallLine(h: seq<Sample>, s: Sample, v0: real, g: real)
    requires OnFreeFallLine(h, v0, g) && s.v == v0 + g * s.t
    ensures OnFreeFallLine(h + [s], v0, g)
  {
  }

  /** Series read off a history on the free-fall line coincide with the
      free-fall series at the same times. */
  lemma FreeFallSeriesAgree(h: seq<Sample>, simulated: seq<real>, galileo: seq<real>, v0: real, g: real)
    requires OnFreeFallLine(h, v0, g)
    requires |simulated| == |h| && |galileo| == |h|
    requires forall i :: 0 <= i < |h| ==> simulated[i] == h[i].v && galileo[i] == g * h[i].t + v0
    ensures simulated == galileo
  {
    forall i | 0 <= i < |h| ensures simulated[i] == galileo[i] {
      assert h[i].v == v0 + g * h[i].t;
    }
  }

  /** Appending a sample later than every recorded one keeps the history chronological. */
  lemma ExtendHistory(h: seq<Sample>, s: Sample)
    requires Chronological(h)
    requires forall i :: 0 <= i < |h| ==> h[i].t < s.t
    ensures Chronological(h + [s])
  {
  }

  /** In a chronological history whose times do not exceed t, every sample
      is strictly earlier than t once the last one is. */
  lemma LastIsLatest(h: seq<Sample>, t: real)
    requires Chronological(h) && |h| > 0
    requires forall i :: 0 <= i < |h| ==> h[i].t <= t
    requires h[|h| - 1].t != t
    ensures forall i :: 0 <= i < |h| ==> h[i].t < t
  {
    forall i | 0 <= i < |h| ensures h[i].t < t {
      if i < |h| - 1 {
        assert h[i].t < h[|h| - 1].t;
      }
    }
  }

  /** The number of grid times i·GridStep, i = 0, 1, ..., that do not exceed horizon. */
  function GridCount(horizon: real): nat
  {
    if horizon < 0.0 then 0 else (horizon / GridStep).Floor + 1
  }

  /** GridCount counts exactly the grid times within the horizon. */
  lemma GridCountExact(horizon: real, i: nat)
    ensures i < GridCount(horizon) <==> (i as real) * GridStep <= horizon
  {
    if horizon >= 0.0 {
      var f := (horizon / GridStep).Floor;
      assert f as real <= horizon / GridStep < f as real + 1.0;
      assert horizon / GridStep == horizon * 10.0;
      assert (i as real) * GridStep <= horizon <==> (i as real) <= horizon * 10.0;
    }
  }

  /** The sampling test `Math.floor(tiempo * 100) % 10 === 0` on the n-th
      step's time n·TimeStep is "n is a multiple of 10". */
  lemma SampleCadence(n: nat)
    ensures ((n as real * TimeStep) * 100.0).Floor % 10 == 0 <==> n % 10 == 0
  {
    assert (n as real * TimeStep) * 100.0 == n as real;
  }

  class GameState {
    /** Configuration, fixed for the life of one configured game. */
    const currentScreen: string
    const selectedWorld: Option<string>
    const masa: real
    const g: real
    const k: real
    const y0: real
    const v0: real

    /** `gameState.objeto` */
    var x: real
    var y: real
    var v: real
    var tiempo: real
    var cayendo: bool
    var impactado: bool

    /** `simulationHistory` */
    var history: seq<Sample>

    /** The regime tag looked up from the selected world. */
    const tag: string

    /** Number of RK4 steps taken since the last shot. */
    ghost var steps: nat

    /** The fall carries no drag term. */
    predicate NoDrag()
    {
      Drag.NoDrag(tag, k)
    }

    ghost predicate Valid()
      reads this
    {
      && masa > 0.0
      && tiempo == (steps as real) * TimeStep
      && Chronological(history)
      && (forall i :: 0 <= i < |history| ==> history[i].t <= tiempo)
      && (impactado ==> !cayendo && y == 0.0)
      && (NoDrag() ==> v == v0 + g * tiempo)
      && (NoDrag() ==> OnFreeFallLine(history, v0, g))
    }

    /** The state once a configuration has been accepted: the object waits at
        the release height with the initial velocity. */
    constructor (screen: string, world: Option<string>, masa: real, g: real, k: real, y0: real, v0: real)
      requires masa > 0.0
      ensures Valid()
      ensures currentScreen == screen && selectedWorld == world && tag == Modelo(world)
      ensures this.masa == masa && this.g == g && this.k == k && this.y0 == y0 && this.v0 == v0
      ensures x == 0.0 && y == y0 && v == v0 && tiempo == 0.0
      ensures !cayendo && !impactado && history == [] && steps == 0
    {
      currentScreen := screen;
      selectedWorld := world;
      tag := Modelo(world);
      this.masa := masa;
      this.g := g;
      this.k := k;
      this.y0 := y0;
      this.v0 := v0;
      x := 0.0;
      y := y0;
      v := v0;
      tiempo := 0.0;
      cayendo := false;
      impactado := false;
      history := [];
      steps := 0;
    }

    /** `rungeKutta4`: one RK4 step of the velocity, then the height drops by
        the new velocity times the step and the clock advances. */
    method RungeKutta4()
      requires Valid() && cayendo
      modifies this
      ensures Valid()
      ensures v == Drag.Rk4Velocity(tag, masa, g, k, TimeStep, old(v))
      ensures y == old(y) - v * TimeStep
      ensures tiempo == old(tiempo) + TimeStep && steps == old(steps) + 1
      ensures x == old(x) && cayendo == old(cayendo) && impactado == old(impactado)
      ensures history == old(history)
      ensures NoDrag() ==> v == old(v) + g * TimeStep
    {
      var k1 := Drag.Acceleration(tag, masa, g, k, v);
      var k2 := Drag.Acceleration(tag, masa, g, k, v + 0.5 * TimeStep * k1);
      var k3 := Drag.Acceleration(tag, masa, g, k, v + 0.5 * TimeStep * k2);
      var k4 := Drag.Acceleration(tag, masa, g, k, v + TimeStep * k3);
      v := v + (TimeStep / 6.0) * (k1 + 2.0 * k2 + 2.0 * k3 + k4);
      var deltaY := v * TimeStep;
      y := y - deltaY;
      tiempo := tiempo + TimeStep;
      steps := steps + 1;
    }

    /** `handleShot`: starts a fall, but only from rest on the game screen and
        before any impact; otherwise nothing changes. */
    method HandleShot(canvasWidth: real)
      requires Valid()
      modifies this
      ensures Valid()
      ensures !old(cayendo) && currentScreen == "game" && !old(impactado) ==>
                && y == y0 && v == v0 && tiempo == 0.0 && history == []
                && cayendo && !impactado && x == canvasWidth / 2.0 && steps == 0
      ensures !(!old(cayendo) && currentScreen == "game" && !old(impactado)) ==> unchanged(this)
    {
      if !cayendo && currentScreen == "game" && !impactado {
        y := y0;
        v := v0;
        tiempo := 0.0;
        steps := 0;
        history := [];
        cayendo := true;
        impactado := false;
        x := canvasWidth / 2.0;
      }
    }

    /** The airborne branch of `gameLoop`: one RK4 step, then a sample when
        the step count is a multiple of ten. */
    method Fly()
      requires Valid() && cayendo
      modifies this
      ensures Valid()
      ensures v == Drag.Rk4Velocity(tag, masa, g, k, TimeStep, old(v))
      ensures y == old(y) - v * TimeStep
      ensures tiempo == old(tiempo) + TimeStep && steps == old(steps) + 1
      ensures x == old(x) && cayendo && impactado == old(impactado)
      ensures history == old(history) + (if steps % 10 == 0 then [Sample(tiempo, v)] else [])
    {
      ghost var before := tiempo;
      RungeKutta4();
      SampleCadence(steps);
      if (tiempo * 100.0).Floor % 10 == 0 {
        assert forall i :: 0 <= i < |history| ==> history[i].t <= before < tiempo;
        ExtendHistory(history, Sample(tiempo, v));
        if NoDrag() {
          ExtendOnFreeFallLine(history, Sample(tiempo, v), v0, g);
        }
        history := history + [Sample(tiempo, v)];
      }
    }

    /** The landing branch of `gameLoop`: the object stops at ground level and
        the final sample is appended when the history is non-empty and does not
        already end at the current time. */
    method Land()
      requires Valid() && cayendo
      modifies this
      ensures Valid()
      ensures !cayendo && impactado && y == 0.0
      ensures x == old(x) && v == old(v) && tiempo == old(tiempo) && steps == old(steps)
      ensures history == old(history) +
                (if |old(history)| > 0 && old(history)[|old(history)| - 1].t != tiempo
                 then [Sample(tiempo, v)] else [])
    {
      var h := history;
      if |h| > 0 && h[|h| - 1].t != tiempo {
        LastIsLatest(h, tiempo);
        ExtendHistory(h, Sample(tiempo, v));
        if NoDrag() {
          ExtendOnFreeFallLine(h, Sample(tiempo, v), v0, g);
        }
        h := h + [Sample(tiempo, v)];
      }
      cayendo, y, impactado := false, 0.0, true;
      history := h;
    }

    /** The state update of one `gameLoop` tick: while airborne, one RK4 step
        and a sample every tenth step; on reaching the ground, the landing and
        a final sample when it adds a new time; at rest, nothing. */
    method GameLoop()
      requires Valid()
      modifies this
      ensures Valid()
      ensures old(history) <= history
      ensures !old(cayendo) ==> unchanged(this)
      ensures old(cayendo) && old(y) > 0.0 ==>
                && v == Drag.Rk4Velocity(tag, masa, g, k, TimeStep, old(v))
                && y == old(y) - v * TimeStep
                && tiempo == old(tiempo) + TimeStep && steps == old(steps) + 1
                && x == old(x) && cayendo && !impactado
                && history == old(history) + (if steps % 10 == 0 then [Sample(tiempo, v)] else [])
      ensures old(cayendo) && old(y) <= 0.0 ==>
                && !cayendo && impactado && y == 0.0
                && x == old(x) && v == old(v) && tiempo == old(tiempo) && steps == old(steps)
                && history == old(history) +
                     (if |old(history)| > 0 && old(history)[|old(history)| - 1].t != tiempo
                      then [Sample(tiempo, v)] else [])
    {
      if cayendo {
        if y > 0.0 {
          Fly();
        } else {
          Land();
        }
      }
    }

    /** The Laplace series entry at time t: present only for the linear tag in
        the `'TierraAire'` world. */
    function LaplaceEntry(t: real): LaplacePoint
    {
      if tag == "lineal" && selectedWorld == Some("TierraAire") then LaplaceAt(t) else NoLaplace
    }

    /** The closed-form placeholder for the simulated curve at time t. */
    function Synthesized(lib: Transcendentals, t: real): real
      requires masa > 0.0
    {
      if Drag.IsLinearTag(tag) then Drag.VtLineal(lib, t, masa, g, k)
      else if Drag.IsQuadraticTag(tag) then Drag.VtCuadratico(lib, t, masa, g, k)
      else g * t + v0
    }

    /** The first loop of `generateComparativeData`: one entry per recorded
        sample, with no Euler values. */
    method HistorySeries(vtAnalytic: Drag.Speed) returns (r: Report)
      requires Valid()
      ensures SameLength(r) && r.vtAnalytic == vtAnalytic
      ensures |r.labels| == |history|
      ensures forall i :: 0 <= i < |history| ==>
                && r.labels[i] == history[i].t
                && r.simulated[i] == history[i].v
                && r.galileo[i] == g * history[i].t + v0
                && r.laplace[i] == LaplaceEntry(history[i].t)
                && r.euler[i] == None
    {
      var labels: seq<real> := [];
      var simulated: seq<real> := [];
      var galileo: seq<real> := [];
      var laplace: seq<LaplacePoint> := [];
      var euler: seq<Option<real>> := [];
      var isLaplaceScenario := selectedWorld == Some("TierraAire");
      var isLinearModel := tag == "lineal";
      var n := 0;
      while n < |history|
        invariant 0 <= n <= |history|
        invariant |labels| == n && |simulated| == n && |galileo| == n && |laplace| == n && |euler| == n
        invariant forall i :: 0 <= i < n ==>
                    && labels[i] == history[i].t
                    && simulated[i] == history[i].v
                    && galileo[i] == g * history[i].t + v0
                    && laplace[i] == LaplaceEntry(history[i].t)
                    && euler[i] == None
      {
        var point := history[n];
        labels := labels + [point.t];
        simulated := simulated + [point.v];
        galileo := galileo + [g * point.t + v0];
        if isLinearModel && isLaplaceScenario {
          laplace := laplace + [LaplaceAt(point.t)];
        } else {
          laplace := laplace + [NoLaplace];
        }
        euler := euler + [None];
        n := n + 1;
      }
      r := Report(labels, simulated, galileo, vtAnalytic, laplace, euler);
    }

    /** The second loop of `generateComparativeData`: one entry per grid time
        i·0.1 up to the horizon, the simulated curve taken from the closed form
        of the regime and the Euler curve advanced one step per entry. */
    method GridSeries(lib: Transcendentals, horizon: real, vtAnalytic: Drag.Speed) returns (r: Report)
      requires Valid()
      ensures SameLength(r) && r.vtAnalytic == vtAnalytic
      ensures |r.labels| == GridCount(horizon)
      ensures forall i :: 0 <= i < |r.labels| ==>
                && r.labels[i] == (i as real) * GridStep
                && r.simulated[i] == Synthesized(lib, r.labels[i])
                && r.galileo[i] == g * r.labels[i] + v0
                && r.laplace[i] == LaplaceEntry(r.labels[i])
                && r.euler[i] == EulerEntry(i)
    {
      var labels: seq<real> := [];
      var simulated: seq<real> := [];
      var galileo: seq<real> := [];
      var laplace: seq<LaplacePoint> := [];
      var euler: seq<Option<real>> := [];
      var isLaplaceScenario := selectedWorld == Some("TierraAire");
      var isLinearModel := tag == "lineal";
      var time := 0.0;
      var vEuler := v0;
      var i: nat := 0;
      while time <= horizon
        invariant time == (i as real) * GridStep
        invariant i <= GridCount(horizon)
        invariant |labels| == i && |simulated| == i && |galileo| == i && |laplace| == i && |euler| == i
        invariant isLinearModel ==> vEuler == Drag.EulerIterate(v0, masa, g, k, EulerStepSize, i)
        invariant forall j :: 0 <= j < i ==> labels[j] == (j as real) * GridStep
        invariant forall j :: 0 <= j < i ==> simulated[j] == Synthesized(lib, labels[j])
        invariant forall j :: 0 <= j < i ==> galileo[j] == g * labels[j] + v0
        invariant forall j :: 0 <= j < i ==> laplace[j] == LaplaceEntry(labels[j])
        invariant forall j :: 0 <= j < i ==> euler[j] == EulerEntry(j)
        decreases GridCount(horizon) - i
      {
        GridCountExact(horizon, i);
        var eulerPoint: Option<real>;
        if isLinearModel {
          vEuler := Drag.EulerStep(vEuler, masa, g, k, EulerStepSize);
          eulerPoint := Some(vEuler);
        } else {
          eulerPoint := None;
        }
        var simulatedPoint: real;
        if isLinearModel || tag == "TierraAire" || tag == "Agua" {
          simulatedPoint := Drag.VtLineal(lib, time, masa, g, k);
        } else if tag == "cuadratico" || tag == "Jupiter" {
          simulatedPoint := Drag.VtCuadratico(lib, time, masa, g, k);
        } else {
          simulatedPoint := g * time + v0;
        }
        var laplacePoint := if isLinearModel && isLaplaceScenario then LaplaceAt(time) else NoLaplace;
        assert eulerPoint == EulerEntry(i) && simulatedPoint == Synthesized(lib, time);
        labels := labels + [time];
        galileo := galileo + [g * time + v0];
        euler := euler + [eulerPoint];
        simulated := simulated + [simulatedPoint];
        laplace := laplace + [laplacePoint];
        time := time + GridStep;
        i := i + 1;
      }
      GridCountExact(horizon, i);
      r := Report(labels, simulated, galileo, vtAnalytic, laplace, euler);
    }

    /** The Euler series entry at grid index i: under the `'lineal'` tag, the
        Euler iterate i + 1 steps of 0.1 s from v0, otherwise `null`. */
    function EulerEntry(i: nat): Option<real>
      requires masa > 0.0
    {
      if tag == "lineal" then Some(Drag.EulerIterate(v0, masa, g, k, EulerStepSize, i + 1)) else None
    }

    /** `generateComparativeData`: the chart series, taken from the recorded
        history when there is one, and otherwise synthesized on the 0.1 s grid
        up to 1.5 times totalTime. It changes nothing. */
    method GenerateComparativeData(lib: Transcendentals, totalTime: real) returns (r: Report)
      requires Valid()
      ensures SameLength(r)
      ensures r.vtAnalytic == Drag.TerminalVelocity(lib, tag, masa, g, k)
      ensures |history| > 0 ==>
                && |r.labels| == |history|
                && forall i :: 0 <= i < |history| ==>
                     && r.labels[i] == history[i].t
                     && r.simulated[i] == history[i].v
                     && r.galileo[i] == g * history[i].t + v0
                     && r.laplace[i] == LaplaceEntry(history[i].t)
                     && r.euler[i] == None
      ensures |history| > 0 && NoDrag() ==> r.simulated == r.galileo
      ensures |history| == 0 ==>
                && |r.labels| == GridCount(totalTime * 1.5)
                && forall i :: 0 <= i < |r.labels| ==>
                     && r.labels[i] == (i as real) * GridStep
                     && r.simulated[i] == Synthesized(lib, r.labels[i])
                     && r.galileo[i] == g * r.labels[i] + v0
                     && r.laplace[i] == LaplaceEntry(r.labels[i])
                     && r.euler[i] == EulerEntry(i)
    {
      var vtAnalytic := Drag.TerminalVelocity(lib, tag, masa, g, k);
      r := HistorySeries(vtAnalytic);
      if |history| == 0 {
        r := GridSeries(lib, totalTime * 1.5, vtAnalytic);
      } else if NoDrag() {
        FreeFallSeriesAgree(history, r.simulated, r.galileo, v0, g);
      }
    }
  }
}
