/** The near-duplicate simulation engine of CodigoED.js: its own world table,
    its global `gameState` with the falling object, the acceleration lookup
    through the selected world and one RK4 step whose step size is supplied
    from outside the file. The physics itself is the shared one of `Drag`. */
module CodigoED {
  import opened Wrappers
  import opened Numerics
  import opened Worlds
  import Drag
  import Game

  /** `WORLD_SETTINGS` of CodigoED.js. */
  const WorldSettings: map<string, World> := map[
    "TierraAire" := World(9.8, 0.05, "lineal"),
    "TierraSinAire" := World(9.8, 0.0, "galileo"),
    "Luna" := World(1.62, 0.0, "galileo"),
    "Agua" := World(9.8, 5.0, "lineal"),
    "Jupiter" := World(24.79, 0.1, "cuadratico"),
    "Personalizado" := World(9.8, 0.0, "lineal")
  ]

  /** The regime tag of the selected world, `'lineal'` when no known world is
      selected. */
  function Modelo(selected: Option<string>): (tag: string)
    ensures tag == "lineal" || tag == "galileo" || tag == "cuadratico"
    ensures selected.None? || selected.value !in WorldSettings ==> tag == "lineal"
    ensures selected.Some? && selected.value in WorldSettings ==> tag == WorldSettings[selected.value].modelo
  {
    ModeloOf(WorldSettings, selected)
  }

  /** Both files assign every world the same drag regime; only the numbers of
      gravity and drag differ between the two tables. */
  lemma SameRegimesAsGame(selected: Option<string>)
    ensures Modelo(selected) == Game.Modelo(selected)
    ensures selected.Some? ==> (selected.value in WorldSettings <==> selected.value in Game.WorldSettings)
  {
  }

  /** `getAcceleration` of CodigoED.js, world by world: the linear law for an
      unselected or unknown world and for TierraAire, Agua and Personalizado,
      the quadratic law for Jupiter, and bare gravity for the worlds without
      friction. */
  lemma AccelerationByWorld(selected: Option<string>, m: real, g: real, k: real, v: real)
    requires m > 0.0
    ensures selected.None? || selected.value !in WorldSettings ==>
              Drag.Acceleration(Modelo(selected), m, g, k, v) == g - (k / m) * v
    ensures selected == Some("TierraAire") || selected == Some("Agua") || selected == Some("Personalizado") ==>
              Drag.Acceleration(Modelo(selected), m, g, k, v) == g - (k / m) * v
    ensures selected == Some("Jupiter") ==>
              Drag.Acceleration(Modelo(selected), m, g, k, v) == g - (k / m) * v * Abs(v)
    ensures selected == Some("TierraSinAire") || selected == Some("Luna") ==>
              Drag.Acceleration(Modelo(selected), m, g, k, v) == g
  {
    if selected.Some? && selected.value in WorldSettings {
      var name := selected.value;
      assert Modelo(selected) == WorldSettings[name].modelo;
      if name == "Jupiter" {
        assert Modelo(selected) == "cuadratico";
      } else if name == "TierraSinAire" || name == "Luna" {
        assert Modelo(selected) == "galileo";
      } else if name == "TierraAire" || name == "Agua" || name == "Personalizado" {
        assert Modelo(selected) == "lineal";
      }
    }
  }

  /** Worked example: TierraAire with a 0.1 kg object has terminal velocity
      0.1·9.8/0.05 = 19.6 m/s. */
  lemma TierraAireTerminalVelocity(lib: Transcendentals)
    ensures Drag.TerminalVelocity(lib, Modelo(Some("TierraAire")), 0.1, WorldSettings["TierraAire"].g,
                                  WorldSettings["TierraAire"].k) == Drag.Finite(19.6)
  {
    assert Modelo(Some("TierraAire")) == "lineal";
    assert (0.1 * 9.8) / 0.05 == 19.6;
  }

  /** Worked example: Jupiter with a 0.1 kg object has a non-negative terminal
      velocity whose square is 0.1·24.79/0.1 = 24.79. */
  lemma JupiterTerminalVelocity(lib: Transcendentals)
    requires lib.Valid()
    ensures var vt := Drag.TerminalVelocity(lib, Modelo(Some("Jupiter")), 0.1, WorldSettings["Jupiter"].g,
                                            WorldSettings["Jupiter"].k);
            vt.Finite? && vt.value >= 0.0 && vt.value * vt.value == 24.79
  {
    assert Modelo(Some("Jupiter")) == "cuadratico";
    assert (0.1 * 24.79) / 0.1 == 24.79;
    assert lib.sqrt(24.79) * lib.sqrt(24.79) == 24.79;
  }

  /** The global `gameState` of CodigoED.js. No code in the file changes the
      configuration, so it is fixed for the life of the object; the falling
      object `objeto` is what `rungeKutta4` updates. */
  class GameState {
    const currentScreen: string
    const selectedWorld: Option<string>
    const g: real
    const k: real
    const masa: real
    const y0: real
    const v0: real

    /** `gameState.objeto` */
    var x: real
    var y: real
    var v: real
    var tiempo: real
    var cayendo: bool

    /** The literal initial `gameState`: menu screen, no world, Earth gravity
        without friction, a 0.1 kg object released from 100 m at rest, and the
        object record all zeros and not falling. */
    constructor ()
      ensures currentScreen == "menu" && selectedWorld == None
      ensures g == 9.8 && k == 0.0 && masa == 0.1 && y0 == 100.0 && v0 == 0.0
      ensures x == 0.0 && y == 0.0 && v == 0.0 && tiempo == 0.0 && !cayendo
    {
      currentScreen := "menu";
      selectedWorld := None;
      g := 9.8;
      k := 0.0;
      masa := 0.1;
      y0 := 100.0;
      v0 := 0.0;
      x := 0.0;
      y := 0.0;
      v := 0.0;
      tiempo := 0.0;
      cayendo := false;
    }

    /** A `gameState` whose configuration was set from outside this file, with
        the object record as the literal gives it. */
    constructor Configured(screen: string, world: Option<string>, g: real, k: real, masa: real, y0: real, v0: real)
      ensures currentScreen == screen && selectedWorld == world
      ensures this.g == g && this.k == k && this.masa == masa && this.y0 == y0 && this.v0 == v0
      ensures x == 0.0 && y == 0.0 && v == 0.0 && tiempo == 0.0 && !cayendo
    {
      currentScreen := screen;
      selectedWorld := world;
      this.g := g;
      this.k := k;
      this.masa := masa;
      this.y0 := y0;
      this.v0 := v0;
      x := 0.0;
      y := 0.0;
      v := 0.0;
      tiempo := 0.0;
      cayendo := false;
    }

    /** `rungeKutta4`: one RK4 step of the velocity under the selected world's
        regime, then the height drops by the new velocity times the step and the
        clock advances by exactly one step. The four-stage velocity stencil is
        the shared `Drag.Rk4Velocity`; `timeStep` is the `TIME_STEP` that
        CodigoED.js uses without defining. */
    method RungeKutta4(timeStep: real)
      requires masa > 0.0
      modifies this
      ensures v == Drag.Rk4Velocity(Modelo(selectedWorld), masa, g, k, timeStep, old(v))
      ensures y == old(y) - v * timeStep
      ensures tiempo == old(tiempo) + timeStep
      ensures x == old(x) && cayendo == old(cayendo)
      ensures k == 0.0 ==> v == old(v) + g * timeStep
    {
      var next := Drag.Rk4Velocity(Modelo(selectedWorld), masa, g, k, timeStep, v);
      var deltaY := next * timeStep;
      v, y, tiempo := next, y - deltaY, tiempo + timeStep;
    }
  }
}
