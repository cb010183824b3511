/** The orbit-and-zoom camera rig of js/main.js: the `cameraControls` record
    and the mousedown, mouseup, mousemove and wheel handlers that change it,
    together with the camera part of `resetSimulation`. The camera position
    itself is recomputed from (radius, theta, phi) every frame and is not
    part of this model. */
module Camera {
  import opened Basics

  /** The `cameraControls` record: the pointer position latched at the last
      drag step, whether a button is held, the (never used) target, and the
      spherical coordinates of the camera around the origin. */
  datatype Controls = Controls(
    mouseX: real, mouseY: real, isMouseDown: bool,
    targetX: real, targetY: real,
    radius: real, theta: real, phi: real)

  /** Radians of orbit per pixel of drag. */
  const DragGain: real := 0.01
  /** Distance units of zoom per unit of wheel delta. */
  const ZoomGain: real := 0.01
  const MinRadius: real := 20.0
  const MaxRadius: real := 200.0
  const HomeRadius: real := 80.0
  /** How far phi is kept from either pole by a drag step. */
  const PoleMargin: real := 0.1

  predicate RadiusInBounds(c: Controls) {
    MinRadius <= c.radius <= MaxRadius
  }

  predicate PhiInBand(c: Controls) {
    PoleMargin <= c.phi <= Pi - PoleMargin
  }

  /** The placement that the per-frame camera update reads is the same. */
  predicate SameView(a: Controls, b: Controls) {
    && a.radius == b.radius && a.theta == b.theta && a.phi == b.phi
    && a.targetX == b.targetX && a.targetY == b.targetY
  }

  /** The drag bookkeeping is the same. */
  predicate SamePointer(a: Controls, b: Controls) {
    a.mouseX == b.mouseX && a.mouseY == b.mouseY && a.isMouseDown == b.isMouseDown
  }

  /** The record as the constructor leaves it. The radius starts inside its
      bounds, but phi starts at the pole, outside the band a drag keeps it in. */
  function Initial(): (c: Controls)
    ensures RadiusInBounds(c) && c.radius == HomeRadius
    ensures !c.isMouseDown && c.mouseX == 0.0 && c.mouseY == 0.0
    ensures c.theta == 0.0 && c.phi == 0.0 && c.targetX == 0.0 && c.targetY == 0.0
    ensures !PhiInBand(c)
  {
    Controls(0.0, 0.0, false, 0.0, 0.0, HomeRadius, 0.0, 0.0)
  }

  /** Pressing a button latches the pointer and starts a drag; the camera
      does not move. */
  function MouseDown(c: Controls, x: real, y: real): (r: Controls)
    ensures r.isMouseDown && r.mouseX == x && r.mouseY == y
    ensures SameView(c, r)
  {
    c.(isMouseDown := true, mouseX := x, mouseY := y)
  }

  /** Releasing the button ends the drag and touches nothing else. */
  function MouseUp(c: Controls): (r: Controls)
    ensures !r.isMouseDown
    ensures r.mouseX == c.mouseX && r.mouseY == c.mouseY
    ensures SameView(c, r)
  {
    c.(isMouseDown := false)
  }

  /** A pointer move. While dragging, theta follows the horizontal delta
      exactly, phi follows the vertical delta but is clamped into the band,
      and the new position is latched; otherwise the record is unchanged. */
  function MouseMove(c: Controls, x: real, y: real): (r: Controls)
    ensures c.isMouseDown ==>
      && r.theta == c.theta + (x - c.mouseX) * DragGain
      && PhiInBand(r)
      && (PoleMargin <= c.phi + (y - c.mouseY) * DragGain <= Pi - PoleMargin ==>
            r.phi == c.phi + (y - c.mouseY) * DragGain)
      && (c.phi + (y - c.mouseY) * DragGain < PoleMargin ==> r.phi == PoleMargin)
      && (c.phi + (y - c.mouseY) * DragGain > Pi - PoleMargin ==> r.phi == Pi - PoleMargin)
      && r.mouseX == x && r.mouseY == y && r.isMouseDown
      && r.radius == c.radius && r.targetX == c.targetX && r.targetY == c.targetY
    ensures !c.isMouseDown ==> r == c
  {
    if c.isMouseDown then
      var deltaX := x - c.mouseX;
      var deltaY := y - c.mouseY;
      var phi := Clamp(PoleMargin, Pi - PoleMargin, c.phi + deltaY * DragGain);
      c.(theta := c.theta + deltaX * DragGain, phi := phi, mouseX := x, mouseY := y)
    else
      c
  }

  /** A wheel step moves the radius by the scaled delta and clamps it into
      [MinRadius, MaxRadius]; nothing but the radius changes. */
  function Wheel(c: Controls, deltaY: real): (r: Controls)
    ensures RadiusInBounds(r)
    ensures MinRadius <= c.radius + deltaY * ZoomGain <= MaxRadius ==>
      r.radius == c.radius + deltaY * ZoomGain
    ensures c.radius + deltaY * ZoomGain < MinRadius ==> r.radius == MinRadius
    ensures c.radius + deltaY * ZoomGain > MaxRadius ==> r.radius == MaxRadius
    ensures r.(radius := c.radius) == c
  {
    c.(radius := Clamp(MinRadius, MaxRadius, c.radius + deltaY * ZoomGain))
  }

  /** The camera part of `resetSimulation`: the view returns home, which lies
      inside both bounds; the drag bookkeeping is left alone. */
  function ResetView(c: Controls): (r: Controls)
    ensures r.theta == 0.0 && r.phi == Pi / 2.0 && r.radius == HomeRadius
    ensures PhiInBand(r) && RadiusInBounds(r)
    ensures SamePointer(c, r) && r.targetX == c.targetX && r.targetY == c.targetY
  {
    c.(theta := 0.0, phi := Pi / 2.0, radius := HomeRadius)
  }

  /** The inputs that reach the camera rig. */
  datatype Event =
    | DownAt(x: real, y: real)
    | Up
    | MoveTo(x: real, y: real)
    | Scroll(deltaY: real)
    | Reset

  /** The events after which phi is certainly in the band: a reset, or a
      move while a button is held. */
  predicate Settles(c: Controls, e: Event) {
    e.Reset? || (e.MoveTo? && c.isMouseDown)
  }

  /** One event. The radius bound and the phi band are both preserved, a
      settling event puts phi in the band, and every other event leaves phi
      where it was. */
  function Step(c: Controls, e: Event): (r: Controls)
    ensures RadiusInBounds(c) ==> RadiusInBounds(r)
    ensures e.Scroll? ==> RadiusInBounds(r)
    ensures PhiInBand(c) ==> PhiInBand(r)
    ensures Settles(c, e) ==> PhiInBand(r)
    ensures !Settles(c, e) ==> r.phi == c.phi
  {
    match e
    case DownAt(x, y) => MouseDown(c, x, y)
    case Up => MouseUp(c)
    case MoveTo(x, y) => MouseMove(c, x, y)
    case Scroll(deltaY) => Wheel(c, deltaY)
    case Reset => ResetView(c)
  }

  /** A sequence of events, first to last. */
  function Run(c: Controls, es: seq<Event>): Controls
    decreases |es|
  {
    if es == [] then c else Run(Step(c, es[0]), es[1..])
  }

  lemma {:induction false} RunAppend(c: Controls, a: seq<Event>, b: seq<Event>)
    ensures Run(c, a + b) == Run(Run(c, a), b)
    decreases |a|
  {
    if a == [] {
      assert a + b == b;
    } else {
      assert (a + b)[0] == a[0];
      assert (a + b)[1..] == a[1..] + b;
      RunAppend(Step(c, a[0]), a[1..], b);
    }
  }

  /** No sequence of events takes the radius out of its bounds. */
  lemma {:induction false} RunKeepsRadius(c: Controls, es: seq<Event>)
    requires RadiusInBounds(c)
    ensures RadiusInBounds(Run(c, es))
    decreases |es|
  {
    if es != [] {
      RunKeepsRadius(Step(c, es[0]), es[1..]);
    }
  }

  /** The radius is in bounds in every state reachable from the start. */
  lemma RadiusAlwaysInBounds(es: seq<Event>)
    ensures RadiusInBounds(Run(Initial(), es))
  {
    RunKeepsRadius(Initial(), es);
  }

  /** Once phi is in the band, no sequence of events takes it out. */
  lemma {:induction false} RunKeepsPhiBand(c: Controls, es: seq<Event>)
    requires PhiInBand(c)
    ensures PhiInBand(Run(c, es))
    decreases |es|
  {
    if es != [] {
      RunKeepsPhiBand(Step(c, es[0]), es[1..]);
    }
  }

  /** If some event of the sequence settles phi (a reset, or a drag step),
      phi is in the band at the end, whatever came before or after. */
  lemma PhiBandOnceSettled(c: Controls, es: seq<Event>, i: nat)
    requires i < |es|
    requires Settles(Run(c, es[..i]), es[i])
    ensures PhiInBand(Run(c, es))
  {
    var before := Run(c, es[..i]);
    assert es == es[..i] + es[i..];
    RunAppend(c, es[..i], es[i..]);
    assert es[i..][0] == es[i];
    RunKeepsPhiBand(Step(before, es[i]), es[i..][1..]);
  }

  /** Without a button press or a reset, phi never moves: no drag can start,
      so every move is an idle move. */
  lemma {:induction false} PhiFrozenWithoutDragOrReset(c: Controls, es: seq<Event>)
    requires !c.isMouseDown
    requires forall i :: 0 <= i < |es| ==> !es[i].DownAt? && !es[i].Reset?
    ensures Run(c, es).phi == c.phi
    decreases |es|
  {
    if es != [] {
      var next := Step(c, es[0]);
      assert !next.isMouseDown && next.phi == c.phi;
      PhiFrozenWithoutDragOrReset(next, es[1..]);
    }
  }

  /** The phi band is not an invariant from the start: until the first press
      or reset, phi stays at its initial value 0, outside the band. */
  lemma InitialPhiOutsideBand(es: seq<Event>)
    requires forall i :: 0 <= i < |es| ==> !es[i].DownAt? && !es[i].Reset?
    ensures Run(Initial(), es).phi == 0.0
    ensures !PhiInBand(Run(Initial(), es))
  {
    PhiFrozenWithoutDragOrReset(Initial(), es);
  }

  /** A wheel delta of 5000 from the home radius moves the camera out by
      exactly 50, to 130, which needs no clamping; a delta of 20000 would
      overshoot and is pinned to the upper bound. */
  lemma WheelFromHome()
    ensures Wheel(Initial(), 5000.0).radius == 130.0
    ensures Wheel(Initial(), 20000.0).radius == MaxRadius
    ensures Wheel(Initial(), -10000.0).radius == MinRadius
  {
  }
}
