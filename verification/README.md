# Solar system: the state machines behind the 3D view

This project is a Dafny model of the behaviour inside the `SolarSystem` class
of `js/main.js`. That class is a Three.js animation of a sun and eight planets
in circular orbits. The class is mostly scene construction. Inside it are four
small state machines, and the model covers those as pure transition functions
over `real` (not IEEE doubles):

- **Camera rig** (`camera.dfy`, module `Camera`). This is the `cameraControls` record and the
  mousedown, mouseup, mousemove and wheel handlers. A drag turns theta and
  phi by 0.01 per pixel and clamps phi into [0.1, pi - 0.1]. The wheel moves the
  radius by 0.01 per unit and clamps it into [20, 200]. A reset brings the
  view home.
- **Hover tracker** (`hover.dfy`, module `Hover`). This is `checkHover` and the title
  `showPlanetInfo` builds. It remembers the nearest hit planet and raises a
  Show notice (name, capitalised title, description) or a Hide notice.
- **Orbital simulation** (`simulation.dfy`, module `Simulation`). This covers the per-planet
  orbital and self-rotation angles, the pause flag, the per-frame update in
  `animate` (including the sun and starfield spin), the speed sliders, the
  pause button and the planet part of `resetSimulation`.
- **Theme** (`theme.dfy`, module `Theme`). This is `toggleTheme`: a flag whose flip also
  sets the ambient light to 0.4 (dark) or 0.6 (light).

The planet table and the lookup by name live in `planets.dfy` (module
`Planets`). The clamp `Math.max(lo, Math.min(hi, x))`, `Option` and the
constant pi live in `basics.dfy` (module `Basics`). `solar_system.dfy` (module
`SolarSystem`) ties the parts together into one machine driven by every
input the object receives. It proves an invariant over arbitrary input
sequences: the radius stays in bounds, the ambient light matches the theme,
the planets stay the eight of the table, and the hover target is one of them.

Two facts about the camera code are easy to miss, and the model states both:

- Phi starts at 0 (js/main.js:33), outside [0.1, pi - 0.1]. It enters that
  band only at the first drag step or reset (`Camera.PhiBandOnceSettled`).
  Until a button press or a reset it stays at 0 (`Camera.InitialPhiOutsideBand`).
- From radius 80, a wheel delta of 5000 moves the radius by 50, to 130. No
  clamping happens (`Camera.WheelFromHome`).

Pi is the constant `Basics.Pi`, written as 3.141592653589793: the decimal of
the double `Math.PI`. The proofs depend only on its being positive and on
0.1 < pi - 0.1.

## Model

| member | source | states |
|---|---|---|
| Basics.Clamp | js/main.js:299 | The clamped value never falls below the lower bound. With ordered bounds it lies between them. It equals the input when the input is in range, and is pinned to the bound the input overshoots otherwise. |
| Camera.Initial | js/main.js:25-34 | The controls start with no button held, the latched position and target at (0, 0), theta 0 and radius 80, inside [20, 200]. Phi starts at 0, outside the band [0.1, pi - 0.1]. |
| Camera.MouseDown | js/main.js:281-285 | A press sets the drag flag and latches the pointer position. The camera placement (radius, theta, phi, target) does not change. |
| Camera.MouseUp | js/main.js:287-289 | A release clears only the drag flag. The latched position and the camera placement are unchanged. |
| Camera.MouseMove | js/main.js:291-303 | While dragging: theta grows by exactly 0.01 times the horizontal delta. Phi always lands in the band. It moves by exactly 0.01 times the vertical delta when that stays in the band, and is otherwise pinned to 0.1 or pi - 0.1, whichever it overshot. The latched position becomes the event's position and the radius is untouched. Without a button held, nothing changes. |
| Camera.Wheel | js/main.js:313-317 | After a wheel step the radius is in [20, 200]. It is the old radius plus 0.01 times the delta when that is in range, and otherwise the bound it overshoots. Nothing but the radius changes. |
| Camera.ResetView | js/main.js:370-373 | The reset puts theta at 0, phi at pi/2 and radius at 80. That point lies inside both bounds. The drag bookkeeping is left alone. |
| Camera.Step | js/main.js:281-317 | Every camera event keeps the radius in bounds and keeps phi in the band once it is there. A reset, or a move while dragging, puts phi in the band. Every other event leaves phi unchanged. |
| Camera.RunKeepsRadius | js/main.js:313-316 | No sequence of camera events takes an in-bounds radius out of [20, 200]. |
| Camera.RadiusAlwaysInBounds | js/main.js:31 | From the initial controls, the radius is in [20, 200] after every event sequence. |
| Camera.RunKeepsPhiBand | js/main.js:296-299 | Once phi is in [0.1, pi - 0.1], no event sequence takes it out. |
| Camera.PhiBandOnceSettled | js/main.js:291-303 | If any event in a sequence is a reset or a drag step, phi is in the band at the end of the sequence. |
| Camera.PhiFrozenWithoutDragOrReset | js/main.js:281-303 | Without a button press or a reset, no drag can start, so phi never moves. |
| Camera.InitialPhiOutsideBand | js/main.js:33 | From the initial controls, phi is exactly 0, and so outside the band, after any sequence without a press or a reset. So the band is not an invariant from the start. |
| Camera.WheelFromHome | js/main.js:313-316 | From radius 80, a wheel delta of 5000 gives exactly 130. Deltas of 20000 and -10000 are pinned to 200 and 20. |
| Planets.FindByName | js/main.js:256 | The lookup finds nothing exactly when no entry has the name. Otherwise it returns the first entry with that name. |
| Planets.FindDistinct | js/main.js:344 | With distinct names, looking up an entry's name gives back that entry's position. |
| Planets.TableNamesDistinct | js/main.js:37-118 | The table has eight planets, and their names are pairwise distinct. So a name (and its mesh) identifies one planet. |
| Hover.UpperAscii | js/main.js:346 | An ASCII lower-case letter becomes the upper-case letter 32 code points below it. Every other character is unchanged. |
| Hover.Capitalize | js/main.js:346 | The title has the name's length. Its first character is upper-cased and the rest is the name unchanged. An empty name gives an empty title. |
| Hover.CapitalizeIdempotent | js/main.js:346 | Capitalizing a title again changes nothing. |
| Hover.CapitalizeRoundTrip | js/main.js:346 | For a name that starts with a lower-case letter, the title starts with an upper-case letter. Lowering that letter gives the name back. |
| Hover.ShowInfo | js/main.js:343-350 | A name missing from the table shows nothing. A known name shows that name, its capitalised title and the description of the first entry with that name. |
| Hover.CheckHover | js/main.js:325-341 | Afterwards the remembered planet is the nearest hit, or nothing when there are no hits. Show is raised exactly when the nearest hit is a known planet that differs from the remembered one. It carries the hit's name, its capitalised title and the description of the first table entry with that name. Hide is raised exactly when there are no hits and a planet was remembered. |
| Hover.CheckHoverSettles | js/main.js:329-340 | A second check with the same hits raises nothing and remembers the same planet. |
| Hover.NearestHitThenLeave | js/main.js:329-340 | With earth hit before mars, earth is remembered and shown as "Earth" with its description. A following move with no hits raises exactly one Hide, and a further one raises nothing. |
| Simulation.StartAngle | js/main.js:198 | A `Math.random()` value in [0, 1) maps to a starting angle in [0, 2 pi). |
| Simulation.CreatePlanets | js/main.js:180-201 | Each planet carries its table entry, starts with rotation 0 and starts at the angle its random value gives. With valid random values every angle is in [0, 2 pi). |
| Simulation.Initial | js/main.js:180-201 | At start-up the simulation is not paused (js/main.js:23) and nothing has spun yet. The planets carry exactly the table entries in order. Every rotation angle is 0, and every orbital angle is 2 pi times its random value, so it lies in [0, 2 pi). |
| Simulation.Orbit | js/main.js:430-435 | One planet's orbital angle grows by baseSpeed times speedMultiplier times delta, and its rotation angle by rotationSpeed times delta. Its table entry is unchanged. `Simulation.OrbitCompose` shows that two such moves add up. |
| Simulation.AdvancePlanets | js/main.js:428-437 | Each planet's orbital angle grows by baseSpeed times speedMultiplier times delta, and its rotation angle by rotationSpeed times delta. No table entry, and not the number of planets, changes. |
| Simulation.Advance | js/main.js:418-441 | A paused frame changes nothing at all. An unpaused frame moves every planet by exactly its speed times delta, turns the sun by 0.005 and the stars by 0.0001, and leaves the planet list, distances and multipliers alone. |
| Simulation.PausedFramesChangeNothing | js/main.js:421 | Any number of frames, with any elapsed times, leave a paused simulation unchanged. |
| Simulation.FramesCompose | js/main.js:430-435 | Two frames of d1 and d2 put every planet where one frame of d1 + d2 would. Planet motion depends only on total elapsed time. |
| Simulation.AdvancePlanetsCompose | js/main.js:428-437 | Running the planet update for d1 and then for d2 gives the same planets as running it once for d1 + d2. |
| Simulation.OrbitCompose | js/main.js:430-435 | One planet moved for d1 and then for d2 ends up where one move of d1 + d2 puts it, in both orbital and rotation angle. |
| Simulation.TogglePause | js/main.js:265-268 | The pause button flips the flag and changes nothing else. |
| Simulation.TogglePauseTwice | js/main.js:266 | Pressing pause twice restores the state. |
| Simulation.SetSpeed | js/main.js:253-262 | The first planet with the slider's name gets the new multiplier. Every other planet, the pause flag and the spins are unchanged. An unknown name changes nothing. |
| Simulation.SetSpeedByUniqueName | js/main.js:256-258 | With distinct names, a slider changes the multiplier of exactly the planet with that name. |
| Simulation.ResetPlanets | js/main.js:358-362 | Every planet gets multiplier 1, rotation 0 and the starting angle of its random value. The rest of its entry is unchanged. |
| Simulation.Reset | js/main.js:356-362 | After a reset every multiplier is 1, every rotation angle is 0 and every orbital angle is 2 pi times its random value, so it lies in [0, 2 pi). The simulation is unpaused whatever it was before (js/main.js:376-379). The sun and star spin are kept. |
| Simulation.ResetThenFrame | js/main.js:356-380 | A reset resumes even a paused simulation. For every planet, the next frame moves it from 2 pi times its random value by baseSpeed times delta (multiplier 1), and its rotation from 0 by rotationSpeed times delta. |
| Simulation.EarthDoubled | js/main.js:58-77 | From the table, doubling earth's multiplier and running one frame of one second moves earth by 0.06 and mars by 0.024. |
| Theme.Initial | js/main.js:228 | The scene starts in dark mode, the flag the constructor sets at js/main.js:24. The ambient light is created at intensity 0.4, which matches dark mode. |
| Theme.Toggle | js/main.js:382-397 | The toggle flips the mode and sets the ambient intensity to 0.4 in dark mode and 0.6 in light mode, whatever it was before. |
| Theme.ToggleTwice | js/main.js:383 | Toggling twice restores a theme whose intensity matched its mode. |
| Theme.ToggleTimesFrom | js/main.js:382-397 | After any number of toggles the intensity matches the mode. The mode has flipped exactly when the number is odd. |
| Theme.ToggleTimesParity | js/main.js:386-396 | From start-up the scene is dark, with ambient 0.4, exactly after an even number of toggles. |
| SolarSystem.Start | js/main.js:21-34 | The object starts in a state of the invariant. Nothing is hovered, the simulation runs with every planet at a starting angle in [0, 2 pi), and the theme is dark. The camera sits at radius 80 and theta 0 with no button held, and phi is 0, outside its band. The simulation, camera rig and theme are exactly their components' start-up states: every multiplier 1, every rotation 0, no spin, the latched position at (0, 0), and ambient 0.4. |
| SolarSystem.Handle | js/main.js:251-317 | Every input is handed to the component it addresses and changes nothing else. The slider sets the named planet's multiplier, the pause button flips the pause flag, a frame advances the simulation and the theme button flips the theme. A press, release or wheel step updates the camera rig as its handler does, and a move while dragging puts phi in the band. Only a pointer move raises notices, and it remembers the target and raises the notice the hover check gives against the simulation's planets. A reset brings the camera home (phi in band), resets every multiplier and rotation, sets every angle to 2 pi times its random value, in [0, 2 pi), and resumes. Reset is exactly `Simulation.Reset` and `Camera.ResetView`, so the drag bookkeeping and the sun and star spin are kept. |
| SolarSystem.MouseMoveNotices | js/main.js:324-341 | In a state of the invariant, a pointer move remembers the nearest hit. It shows a planet exactly when the nearest hit differs from the remembered one, with that planet's name, title and table description. It hides the panel exactly when nothing is hit but something was remembered. |
| SolarSystem.HandleKeepsInvariant | js/main.js:251-317 | Every input, from any state of the invariant, leads to a state of the invariant: radius in bounds, ambient intensity matching the theme, the eight table planets with only their multipliers changed, and a hover target that is one of them. |
| SolarSystem.Run | js/main.js:251-323 | A sequence of inputs never changes the number of planets and preserves the invariant after every step. |
| SolarSystem.ReachableStatesKeepInvariant | js/main.js:313-316 | Every state reachable from start-up satisfies the invariant. In particular the zoom radius is in [20, 200]. |
| SolarSystem.EarthDoubledMarsUnchanged | js/main.js:253-262 | Starting the object, moving earth's slider to 2 and drawing one frame of one second moves earth by 0.06 and mars by 0.024. |

## Left out

- Scene construction (starfield, sun, glow, planet meshes, orbit lines, lights; js/main.js:133-243) is library object creation with random positions, with no behaviour to state.
- `updateCamera` (spherical to Cartesian) and the planet positions `cos(angle) * distance` are trigonometry over floats. The model keeps the angles they are computed from.
- The ray cast (`setFromCamera`, `intersectObjects`) is foreign geometry. Its result enters the model as the list of hit planet names, nearest first. The pointer's normalised-device-coordinate conversion is only an input to it.
- `THREE.Clock.getDelta` is foreign: each frame's elapsed time is a parameter. The clock is skipped while paused, and its semantics are not visible here. So the model makes no claim about the first elapsed time after a resume, which may include the paused interval.
- `Math.random()` is not modelled. Its values are parameters, one per planet, in [0, 1).
- The `requestAnimationFrame` loop, the event-listener registration, and DOM text, style, slider and button-label updates are I/O plumbing. So are the page background and renderer clear colour of the theme switch.
- `onWindowResize` is viewport plumbing.
- `parseFloat` of the slider value is not modelled. The slider's value enters as a real.
- Arithmetic is over `real`, not IEEE doubles: rounding, NaN and infinities are not modelled.
- The hover tracker compares mesh objects. The model compares planet names, which `Planets.TableNamesDistinct` shows identify the meshes.
- Hover.Capitalize: models `toUpperCase` for ASCII letters only. Other characters are left unchanged, whereas JavaScript also upper-cases non-ASCII letters (and may lengthen some). All planet names are lower-case ASCII.
- Basics.Pi: the double `Math.PI` is written as its shortest decimal, so the model's pi is that rational number rather than the real pi.
