/** The orbital simulation of js/main.js: per-planet orbit and spin angles,
    the pause flag, the per-frame update inside `animate`, the speed slider,
    the pause button and the planet part of `resetSimulation`. Positions on
    screen are cos/sin of these angles and are not part of this model. */
module Simulation {
  import opened Basics
  import opened Planets

  /** One element of `planets`: the shared table entry (whose
      `speedMultiplier` is the only field that ever changes), the orbital
      angle and the self-rotation angle. */
  datatype Planet = Planet(data: PlanetData, angle: real, rotationAngle: real)

  /** The simulation: the planets, the pause flag, and the decorative spin
      of the sun and of the starfield. */
  datatype State = State(planets: seq<Planet>, isPaused: bool, sunSpin: real, starSpin: real)

  /** Radians the sun and the starfield turn per drawn frame (not per second). */
  const SunSpinStep: real := 0.005
  const StarSpinStep: real := 0.0001

  /** A value `Math.random()` can return. */
  predicate IsUnitRandom(r: real) {
    0.0 <= r < 1.0
  }

  /** One random value per planet. */
  predicate ValidRandoms(randoms: seq<real>, n: nat) {
    |randoms| == n && forall i :: 0 <= i < |randoms| ==> IsUnitRandom(randoms[i])
  }

  /** The table entries of the planets, in order. */
  function DataOf(ps: seq<Planet>): (ds: seq<PlanetData>)
    ensures |ds| == |ps|
    ensures forall i :: 0 <= i < |ps| ==> ds[i] == ps[i].data
  {
    seq(|ps|, i requires 0 <= i < |ps| => ps[i].data)
  }

  /** `Math.random() * Math.PI * 2`: a uniform random value mapped onto a
      full turn, so it lands in [0, 2 pi). */
  function StartAngle(random: real): (a: real)
    ensures IsUnitRandom(random) ==> 0.0 <= a < 2.0 * Pi
  {
    random * Pi * 2.0
  }

  /** The planets as `createPlanets` leaves them: each at a random starting
      angle in [0, 2 pi), without self-rotation, carrying its table entry. */
  function CreatePlanets(table: seq<PlanetData>, randoms: seq<real>): (ps: seq<Planet>)
    requires |randoms| == |table|
    ensures |ps| == |table|
    ensures forall i :: 0 <= i < |table| ==>
      ps[i].data == table[i] && ps[i].rotationAngle == 0.0 && ps[i].angle == StartAngle(randoms[i])
    ensures ValidRandoms(randoms, |table|) ==>
      forall i :: 0 <= i < |table| ==> 0.0 <= ps[i].angle < 2.0 * Pi
  {
    seq(|table|, i requires 0 <= i < |table| => Planet(table[i], StartAngle(randoms[i]), 0.0))
  }

  /** The simulation at start-up: not paused, nothing spun yet, every planet
      at the starting angle its random value gives. */
  function Initial(randoms: seq<real>): (s: State)
    requires |randoms| == |Table|
    ensures !s.isPaused
    ensures s.sunSpin == 0.0 && s.starSpin == 0.0
    ensures DataOf(s.planets) == Table
    ensures forall i :: 0 <= i < |s.planets| ==>
      s.planets[i].rotationAngle == 0.0 && s.planets[i].angle == StartAngle(randoms[i])
    ensures ValidRandoms(randoms, |Table|) ==>
      forall i :: 0 <= i < |s.planets| ==> 0.0 <= s.planets[i].angle < 2.0 * Pi
  {
    State(CreatePlanets(Table, randoms), false, 0.0, 0.0)
  }

  /** `qs` is `ps` after `delta` seconds of motion: each orbital angle moved
      by base speed times multiplier times delta, each rotation angle by
      rotation speed times delta, and every table entry untouched. */
  predicate Advanced(ps: seq<Planet>, qs: seq<Planet>, delta: real) {
    && |qs| == |ps|
    && forall i :: 0 <= i < |ps| ==>
      && qs[i].data == ps[i].data
      && qs[i].angle == ps[i].angle + ps[i].data.baseSpeed * ps[i].data.speedMultiplier * delta
      && qs[i].rotationAngle == ps[i].rotationAngle + ps[i].data.rotationSpeed * delta
  }

  /** The two increments `animate` applies to one planet. */
  function Orbit(p: Planet, delta: real): (q: Planet)
    ensures q.data == p.data
    ensures q.angle - p.angle == p.data.baseSpeed * p.data.speedMultiplier * delta
    ensures q.rotationAngle - p.rotationAngle == p.data.rotationSpeed * delta
  {
    p.(angle := p.angle + p.data.baseSpeed * p.data.speedMultiplier * delta,
       rotationAngle := p.rotationAngle + p.data.rotationSpeed * delta)
  }

  /** The `forEach` over the planets in `animate`. */
  function AdvancePlanets(ps: seq<Planet>, delta: real): (qs: seq<Planet>)
    ensures Advanced(ps, qs, delta)
    decreases |ps|
  {
    if ps == [] then []
    else
      var rest := AdvancePlanets(ps[1..], delta);
      AdvancedCons(ps, rest, delta);
      [Orbit(ps[0], delta)] + rest
  }

  /** Moving the first planet and the rest separately moves them all. */
  lemma AdvancedCons(ps: seq<Planet>, rest: seq<Planet>, delta: real)
    requires ps != []
    requires Advanced(ps[1..], rest, delta)
    ensures Advanced(ps, [Orbit(ps[0], delta)] + rest, delta)
  {
    var qs := [Orbit(ps[0], delta)] + rest;
    forall i | 0 <= i < |ps|
      ensures qs[i].data == ps[i].data
      ensures qs[i].angle == ps[i].angle + ps[i].data.baseSpeed * ps[i].data.speedMultiplier * delta
      ensures qs[i].rotationAngle == ps[i].rotationAngle + ps[i].data.rotationSpeed * delta
    {
      if i > 0 {
        assert qs[i] == rest[i - 1] && ps[i] == ps[1..][i - 1];
      }
    }
  }

  /** One frame of `animate` with elapsed time `delta`. A paused simulation
      does not change at all; otherwise every planet moves by exactly its
      speed times delta, the sun and the stars turn by their fixed per-frame
      step, and the pause flag stays off. */
  function Advance(s: State, delta: real): (r: State)
    ensures s.isPaused ==> r == s
    ensures !s.isPaused ==>
      && Advanced(s.planets, r.planets, delta)
      && !r.isPaused
      && r.sunSpin == s.sunSpin + SunSpinStep
      && r.starSpin == s.starSpin + StarSpinStep
  {
    if s.isPaused then s
    else State(AdvancePlanets(s.planets, delta), s.isPaused,
               s.sunSpin + SunSpinStep, s.starSpin + StarSpinStep)
  }

  /** Frames one after another, with their elapsed times. */
  function AdvanceAll(s: State, deltas: seq<real>): State
    decreases |deltas|
  {
    if deltas == [] then s else AdvanceAll(Advance(s, deltas[0]), deltas[1..])
  }

  /** However many frames pass while paused, and whatever their elapsed
      times, nothing changes. */
  lemma {:induction false} PausedFramesChangeNothing(s: State, deltas: seq<real>)
    requires s.isPaused
    ensures AdvanceAll(s, deltas) == s
    decreases |deltas|
  {
    if deltas != [] {
      PausedFramesChangeNothing(Advance(s, deltas[0]), deltas[1..]);
    }
  }

  /** Planet motion depends only on elapsed time, not on how it is split
      into frames: two frames of d1 and d2 put every planet where one frame
      of d1 + d2 would. (The sun and stars, which turn per frame, do not
      have this property.) */
  lemma FramesCompose(s: State, d1: real, d2: real)
    requires !s.isPaused
    ensures Advance(Advance(s, d1), d2).planets == Advance(s, d1 + d2).planets
  {
    AdvancePlanetsCompose(s.planets, d1, d2);
  }

  lemma {:induction false} AdvancePlanetsCompose(ps: seq<Planet>, d1: real, d2: real)
    ensures AdvancePlanets(AdvancePlanets(ps, d1), d2) == AdvancePlanets(ps, d1 + d2)
    decreases |ps|
  {
    if ps != [] {
      var once := AdvancePlanets(ps, d1);
      assert once[0] == Orbit(ps[0], d1) && once[1..] == AdvancePlanets(ps[1..], d1);
      OrbitCompose(ps[0], d1, d2);
      AdvancePlanetsCompose(ps[1..], d1, d2);
    }
  }

  /** One planet moved for d1 and then for d2 is where it would be after d1 + d2. */
  lemma OrbitCompose(p: Planet, d1: real, d2: real)
    ensures Orbit(Orbit(p, d1), d2) == Orbit(p, d1 + d2)
  {
    var k := p.data.baseSpeed * p.data.speedMultiplier;
    var q := Orbit(p, d1);
    assert q.data == p.data;
    assert q.angle == p.angle + k * d1;
    Distribute(k, d1, d2);
    Distribute(p.data.rotationSpeed, d1, d2);
    assert Orbit(q, d2).angle == p.angle + k * (d1 + d2);
  }

  lemma Distribute(k: real, d1: real, d2: real)
    ensures k * d1 + k * d2 == k * (d1 + d2)
  {
  }

  /** The pause button: the flag flips and nothing else changes. */
  function TogglePause(s: State): (r: State)
    ensures r.isPaused != s.isPaused
    ensures r.(isPaused := s.isPaused) == s
  {
    s.(isPaused := !s.isPaused)
  }

  /** Pressing the pause button twice restores the state. */
  lemma TogglePauseTwice(s: State)
    ensures TogglePause(TogglePause(s)) == s
  {
  }

  /** A planet with its multiplier replaced. */
  function WithMultiplier(p: Planet, v: real): Planet {
    p.(data := p.data.(speedMultiplier := v))
  }

  /** A speed slider for `name` moved to `v`: the first planet with that name
      (the one `find` returns) gets multiplier `v`, every other planet and
      the rest of the state are untouched, and an unknown name changes
      nothing. */
  function SetSpeed(s: State, name: string, v: real): (r: State)
    ensures r.isPaused == s.isPaused && r.sunSpin == s.sunSpin && r.starSpin == s.starSpin
    ensures |r.planets| == |s.planets|
    ensures forall i :: 0 <= i < |s.planets| ==>
      r.planets[i] == (if IsFirstNamed(DataOf(s.planets), i, name) then WithMultiplier(s.planets[i], v) else s.planets[i])
    ensures !Named(DataOf(s.planets), name) ==> r == s
  {
    match FindByName(DataOf(s.planets), name)
    case None => s
    case Some(i) => s.(planets := s.planets[i := WithMultiplier(s.planets[i], v)])
  }

  /** With distinct names, a slider changes the multiplier of exactly the
      planet of that name. */
  lemma SetSpeedByUniqueName(s: State, name: string, v: real)
    requires DistinctNames(DataOf(s.planets))
    ensures forall i :: 0 <= i < |s.planets| ==>
      SetSpeed(s, name, v).planets[i] ==
        (if s.planets[i].data.name == name then WithMultiplier(s.planets[i], v) else s.planets[i])
  {
    var ds := DataOf(s.planets);
    forall i | 0 <= i < |s.planets| && s.planets[i].data.name == name
      ensures IsFirstNamed(ds, i, name)
    {
      forall j | 0 <= j < i
        ensures ds[j].name != name
      {
        assert ds[j].name != ds[i].name;
      }
    }
  }

  /** The `forEach` of `resetSimulation` over the planets. */
  function ResetPlanets(ps: seq<Planet>, randoms: seq<real>): (qs: seq<Planet>)
    requires |randoms| == |ps|
    ensures |qs| == |ps|
    ensures forall i :: 0 <= i < |ps| ==>
      && qs[i].data == ps[i].data.(speedMultiplier := 1.0)
      && qs[i].rotationAngle == 0.0
      && qs[i].angle == StartAngle(randoms[i])
    decreases |ps|
  {
    if ps == [] then []
    else
      [ps[0].(angle := StartAngle(randoms[0]), data := ps[0].data.(speedMultiplier := 1.0), rotationAngle := 0.0)]
      + ResetPlanets(ps[1..], randoms[1..])
  }

  /** The planet part of `resetSimulation`: every multiplier back to 1,
      every rotation angle to 0, every orbital angle to a fresh random point
      of [0, 2 pi), and the simulation running again whether or not it was
      paused. The sun and star spin are not reset. */
  function Reset(s: State, randoms: seq<real>): (r: State)
    requires |randoms| == |s.planets|
    ensures !r.isPaused
    ensures |r.planets| == |s.planets|
    ensures forall i :: 0 <= i < |s.planets| ==>
      && r.planets[i].data == s.planets[i].data.(speedMultiplier := 1.0)
      && r.planets[i].rotationAngle == 0.0
      && r.planets[i].angle == 2.0 * Pi * randoms[i]
    ensures ValidRandoms(randoms, |s.planets|) ==>
      forall i :: 0 <= i < |s.planets| ==> 0.0 <= r.planets[i].angle < 2.0 * Pi
    ensures r.sunSpin == s.sunSpin && r.starSpin == s.starSpin
  {
    State(ResetPlanets(s.planets, randoms), false, s.sunSpin, s.starSpin)
  }

  /** A reset resumes even a paused simulation: the very next frame moves
      planet `i` from its fresh starting angle at multiplier 1, and its
      rotation from 0. */
  lemma ResetThenFrame(s: State, randoms: seq<real>, delta: real, i: nat)
    requires |randoms| == |s.planets|
    requires i < |s.planets|
    ensures |Advance(Reset(s, randoms), delta).planets| == |s.planets|
    ensures Advance(Reset(s, randoms), delta).planets[i].angle == 2.0 * Pi * randoms[i] + s.planets[i].data.baseSpeed * delta
    ensures Advance(Reset(s, randoms), delta).planets[i].rotationAngle == s.planets[i].data.rotationSpeed * delta
  {
    var r := Reset(s, randoms);
    var t := Advance(r, delta);
    var p, q, u := s.planets[i], r.planets[i], t.planets[i];
    assert A: q.data == p.data.(speedMultiplier := 1.0) && q.rotationAngle == 0.0 && q.angle == 2.0 * Pi * randoms[i];
    assert B: u.angle == q.angle + q.data.baseSpeed * q.data.speedMultiplier * delta
           && u.rotationAngle == q.rotationAngle + q.data.rotationSpeed * delta;
    FrameFromReset(p, q, u, 2.0 * Pi * randoms[i], delta);
  }

  /** One planet `p` reset to `q` at angle `a0`, then moved to `u`. */
  lemma FrameFromReset(p: Planet, q: Planet, u: Planet, a0: real, delta: real)
    requires q.data == p.data.(speedMultiplier := 1.0) && q.rotationAngle == 0.0 && q.angle == a0
    requires u.angle == q.angle + q.data.baseSpeed * q.data.speedMultiplier * delta
    requires u.rotationAngle == q.rotationAngle + q.data.rotationSpeed * delta
    ensures u.angle == a0 + p.data.baseSpeed * delta
    ensures u.rotationAngle == p.data.rotationSpeed * delta
  {
    UnitMultiplier(p.data.baseSpeed, delta);
  }

  lemma UnitMultiplier(k: real, delta: real)
    ensures k * 1.0 * delta == k * delta
  {
  }

  /** Starting from the table, doubling earth's multiplier and then running
      one frame of one second moves earth by 0.03 * 2 * 1 = 0.06 and mars,
      whose multiplier is still 1, by 0.024. */
  lemma EarthDoubled(s: State)
    requires DataOf(s.planets) == Table
    requires !s.isPaused
    ensures |s.planets| == 8
    ensures var t := Advance(SetSpeed(s, "earth", 2.0), 1.0);
      && t.planets[2].angle == s.planets[2].angle + 0.06
      && t.planets[3].angle == s.planets[3].angle + 0.024
  {
    TableNamesDistinct();
    SetSpeedByUniqueName(s, "earth", 2.0);
    var m := SetSpeed(s, "earth", 2.0);
    assert s.planets[2].data == Table[2];
    assert s.planets[3].data == Table[3];
    assert Table[2].name == "earth";
    assert Table[3].name != "earth" by {
      assert Table[3].name[0] != "earth"[0];
    }
    assert m.planets[2] == WithMultiplier(s.planets[2], 2.0);
    assert m.planets[3] == s.planets[3];
  }
}
