/** The `SolarSystem` object of js/main.js seen as one state machine: the
    simulation, the camera rig, the remembered hover target and the theme,
    driven by the inputs its event handlers and animation loop receive. */
module SolarSystem {
  import opened Basics
  import Planets
  import Camera
  import Hover
  import Simulation
  import Theme

  datatype App = App(
    sim: Simulation.State,
    camera: Camera.Controls,
    hovered: Option<string>,
    theme: Theme.Theme)

  /** Everything that can happen to the object: a slider moved, one of the
      three buttons pressed, a mouse event on the canvas (a move carries the
      ray-cast hit list, nearest first), or an animation frame with its
      elapsed time. */
  datatype Input =
    | SliderInput(planet: string, value: real)
    | PauseClick
    | ResetClick(randoms: seq<real>)
    | ThemeClick
    | MouseDown(x: real, y: real)
    | MouseUp
    | MouseMove(x: real, y: real, hits: seq<string>)
    | Wheel(deltaY: real)
    | Frame(delta: real)

  /** The new state, and what the info panel was asked to do. */
  datatype Reaction = Reaction(app: App, notice: Hover.Notice)

  /** What the environment guarantees about an input for `n` planets: a reset
      draws one `Math.random()` value per planet, and the ray cast is made
      against the planet meshes only, so every hit is a planet name. */
  predicate Fits(n: nat, input: Input) {
    match input
    case ResetClick(randoms) => Simulation.ValidRandoms(randoms, n)
    case MouseMove(_, _, hits) => forall k :: 0 <= k < |hits| ==> Planets.Named(Planets.Table, hits[k])
    case _ => true
  }

  /** What holds in every reachable state: the zoom radius is in bounds, the
      ambient light matches the theme, the planets are the eight of the
      table with only their multipliers possibly changed, and the remembered
      hover target, if any, is one of them. */
  predicate Inv(a: App) {
    && Camera.RadiusInBounds(a.camera)
    && Theme.Consistent(a.theme)
    && |a.sim.planets| == |Planets.Table|
    && (forall i :: 0 <= i < |Planets.Table| ==>
          a.sim.planets[i].data == Planets.Table[i].(speedMultiplier := a.sim.planets[i].data.speedMultiplier))
    && (a.hovered.Some? ==> Planets.Named(Planets.Table, a.hovered.value))
  }

  /** The object as the constructor leaves it: the invariant holds, nothing
      is hovered, the simulation runs with every planet at a starting angle
      in [0, 2 pi), the theme is dark, and the camera sits at radius 80 with
      phi still 0, outside its band. */
  function Start(randoms: seq<real>): (a: App)
    requires Simulation.ValidRandoms(randoms, |Planets.Table|)
    ensures Inv(a)
    ensures a.hovered.None? && !a.sim.isPaused && a.theme.isDarkMode
    ensures forall i :: 0 <= i < |a.sim.planets| ==> 0.0 <= a.sim.planets[i].angle < 2.0 * Pi
    ensures a.camera.radius == Camera.HomeRadius && a.camera.theta == 0.0 && a.camera.phi == 0.0
    ensures !a.camera.isMouseDown && !Camera.PhiInBand(a.camera)
    ensures a.sim == Simulation.Initial(randoms) && a.camera == Camera.Initial() && a.theme == Theme.Initial()
  {
    App(Simulation.Initial(randoms), Camera.Initial(), None, Theme.Initial())
  }

  /** In a state of the invariant, every planet name of the table names a
      planet of the simulation. */
  lemma NamedInSimulation(a: App, name: string)
    requires Inv(a)
    requires Planets.Named(Planets.Table, name)
    ensures Planets.Named(Simulation.DataOf(a.sim.planets), name)
  {
    var i :| 0 <= i < |Planets.Table| && Planets.Table[i].name == name;
    assert Simulation.DataOf(a.sim.planets)[i].name == name;
  }

  /** One input. Each input is handed to the component it addresses and
      touches nothing else: the slider, pause button and animation frame
      drive the simulation, the theme button the theme, and the mouse the
      camera rig; only a pointer move talks to the info panel, through the
      hover check; a reset brings the camera home, sets every multiplier to
      1 and every rotation to 0, and resumes the simulation. */
  function Handle(a: App, input: Input): (r: Reaction)
    requires Fits(|a.sim.planets|, input)
    ensures |r.app.sim.planets| == |a.sim.planets|
    ensures !input.MouseMove? ==> r.notice.Silent? && r.app.hovered == a.hovered
    ensures (input.SliderInput? || input.PauseClick? || input.Frame?) ==> r.app.(sim := a.sim) == a
    ensures input.ThemeClick? ==> r.app.(theme := a.theme) == a
    ensures (input.MouseDown? || input.MouseUp? || input.Wheel?) ==> r.app.(camera := a.camera) == a
    ensures input.MouseMove? ==> r.app.sim == a.sim && r.app.theme == a.theme
    ensures input.ResetClick? ==>
      r.app.sim == Simulation.Reset(a.sim, input.randoms) && r.app.camera == Camera.ResetView(a.camera)
    ensures input.SliderInput? ==> r.app.sim == Simulation.SetSpeed(a.sim, input.planet, input.value)
    ensures input.PauseClick? ==> r.app.sim == Simulation.TogglePause(a.sim)
    ensures input.PauseClick? ==> r.app.sim.isPaused == !a.sim.isPaused
    ensures input.Frame? ==> r.app.sim == Simulation.Advance(a.sim, input.delta)
    ensures input.ThemeClick? ==> r.app.theme == Theme.Toggle(a.theme)
    ensures input.ThemeClick? ==> r.app.theme.isDarkMode == !a.theme.isDarkMode
    ensures input.MouseDown? ==> r.app.camera == Camera.MouseDown(a.camera, input.x, input.y)
    ensures input.MouseUp? ==> r.app.camera == Camera.MouseUp(a.camera)
    ensures input.Wheel? ==> r.app.camera == Camera.Wheel(a.camera, input.deltaY)
    ensures input.MouseMove? ==> r.app.camera == Camera.MouseMove(a.camera, input.x, input.y)
    ensures input.MouseMove? && a.camera.isMouseDown ==> Camera.PhiInBand(r.app.camera)
    ensures input.MouseMove? ==>
      && r.app.hovered == Hover.CheckHover(Simulation.DataOf(a.sim.planets), a.hovered, input.hits).hovered
      && r.notice == Hover.CheckHover(Simulation.DataOf(a.sim.planets), a.hovered, input.hits).notice
    ensures input.ResetClick? ==>
      && r.app.camera.theta == 0.0 && r.app.camera.phi == Pi / 2.0
      && r.app.camera.radius == Camera.HomeRadius
      && Camera.PhiInBand(r.app.camera)
      && !r.app.sim.isPaused
      && (forall i :: 0 <= i < |a.sim.planets| ==>
            && r.app.sim.planets[i].data.speedMultiplier == 1.0
            && r.app.sim.planets[i].rotationAngle == 0.0
            && 0.0 <= r.app.sim.planets[i].angle < 2.0 * Pi)
      && r.app.theme == a.theme && r.app.hovered == a.hovered
  {
    match input
    case SliderInput(name, v) => Reaction(a.(sim := Simulation.SetSpeed(a.sim, name, v)), Hover.Silent)
    case PauseClick => Reaction(a.(sim := Simulation.TogglePause(a.sim)), Hover.Silent)
    case ResetClick(randoms) =>
      Reaction(a.(sim := Simulation.Reset(a.sim, randoms), camera := Camera.ResetView(a.camera)), Hover.Silent)
    case ThemeClick => Reaction(a.(theme := Theme.Toggle(a.theme)), Hover.Silent)
    case MouseDown(x, y) => Reaction(a.(camera := Camera.MouseDown(a.camera, x, y)), Hover.Silent)
    case MouseUp => Reaction(a.(camera := Camera.MouseUp(a.camera)), Hover.Silent)
    case MouseMove(x, y, hits) =>
      var outcome := Hover.CheckHover(Simulation.DataOf(a.sim.planets), a.hovered, hits);
      Reaction(a.(camera := Camera.MouseMove(a.camera, x, y), hovered := outcome.hovered), outcome.notice)
    case Wheel(deltaY) => Reaction(a.(camera := Camera.Wheel(a.camera, deltaY)), Hover.Silent)
    case Frame(delta) => Reaction(a.(sim := Simulation.Advance(a.sim, delta)), Hover.Silent)
  }

  /** In a state of the invariant, a pointer move talks to the info panel
      exactly when the nearest hit changes: it shows a planet exactly when
      the nearest hit differs from the remembered one, with that planet's
      title and description, and hides the panel exactly when nothing is
      hit but a planet was remembered. */
  lemma MouseMoveNotices(a: App, x: real, y: real, hits: seq<string>)
    requires Fits(|a.sim.planets|, MouseMove(x, y, hits))
    requires Inv(a)
    ensures var r := Handle(a, MouseMove(x, y, hits));
      && r.app.hovered == (if |hits| > 0 then Some(hits[0]) else None)
      && (r.notice.Show? <==> |hits| > 0 && a.hovered != Some(hits[0]))
      && (r.notice.Show? ==>
            && r.notice.name == hits[0]
            && r.notice.title == Hover.Capitalize(hits[0])
            && exists i :: Planets.IsFirstNamed(Planets.Table, i, hits[0]) && r.notice.info == Planets.Table[i].info)
      && (r.notice.Hide? <==> |hits| == 0 && a.hovered.Some?)
  {
    if |hits| > 0 {
      NamedInSimulation(a, hits[0]);
    }
  }

  /** Every input preserves the invariant. */
  lemma HandleKeepsInvariant(a: App, input: Input)
    requires Fits(|a.sim.planets|, input)
    ensures Inv(a) ==> Inv(Handle(a, input).app)
  {
    if !Inv(a) { return; }
    var b := Handle(a, input).app;
    assert |b.sim.planets| == |Planets.Table|;
    forall i | 0 <= i < |Planets.Table|
      ensures b.sim.planets[i].data == Planets.Table[i].(speedMultiplier := b.sim.planets[i].data.speedMultiplier)
    {
      assert b.sim.planets[i].data == a.sim.planets[i].data.(speedMultiplier := b.sim.planets[i].data.speedMultiplier);
    }
  }

  /** A sequence of inputs, first to last. The number of planets never
      changes, and the invariant holds after every one of them. */
  function Run(a: App, inputs: seq<Input>): (r: App)
    requires forall k :: 0 <= k < |inputs| ==> Fits(|a.sim.planets|, inputs[k])
    ensures |r.sim.planets| == |a.sim.planets|
    ensures Inv(a) ==> Inv(r)
    decreases |inputs|
  {
    if inputs == [] then a
    else
      HandleKeepsInvariant(a, inputs[0]);
      Run(Handle(a, inputs[0]).app, inputs[1..])
  }

  /** Every state reachable from start-up satisfies the invariant; in
      particular the zoom radius is in [20, 200] and the ambient light
      matches the theme. */
  lemma ReachableStatesKeepInvariant(randoms: seq<real>, inputs: seq<Input>)
    requires Simulation.ValidRandoms(randoms, |Planets.Table|)
    requires forall k :: 0 <= k < |inputs| ==> Fits(|Planets.Table|, inputs[k])
    ensures Inv(Run(Start(randoms), inputs))
    ensures Camera.RadiusInBounds(Run(Start(randoms), inputs).camera)
  {
  }

  /** From start-up, moving earth's slider to 2 and then drawing one frame
      of one second moves earth by 0.03 * 2 * 1 = 0.06 and mars, whose
      multiplier is still 1, by 0.024. */
  lemma EarthDoubledMarsUnchanged(randoms: seq<real>)
    requires Simulation.ValidRandoms(randoms, |Planets.Table|)
    ensures var a := Start(randoms);
      var b := Handle(Handle(a, SliderInput("earth", 2.0)).app, Frame(1.0)).app;
      && b.sim.planets[2].angle == a.sim.planets[2].angle + 0.06
      && b.sim.planets[3].angle == a.sim.planets[3].angle + 0.024
  {
    var a := Start(randoms);
    var a1 := Handle(a, SliderInput("earth", 2.0)).app;
    assert a1.sim == Simulation.SetSpeed(a.sim, "earth", 2.0);
    assert Handle(a1, Frame(1.0)).app.sim == Simulation.Advance(a1.sim, 1.0);
    Simulation.EarthDoubled(a.sim);
  }
}
