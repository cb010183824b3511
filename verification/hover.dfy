/** The hover tracker of js/main.js: `checkHover`, which remembers the planet
    under the pointer and raises show/hide notices, and the title that
    `showPlanetInfo` derives from a planet's name. The ray cast is outside
    the model; its result arrives as the list of hit planet names, nearest
    first. */
module Hover {
  import opened Basics
  import opened Planets

  /** What one hover check asks the info panel to do. */
  datatype Notice =
    | Show(name: string, title: string, info: string)
    | Hide
    | Silent

  /** The remembered planet after a check, and the notice it raised. */
  datatype Outcome = Outcome(hovered: Option<string>, notice: Notice)

  predicate IsLowerAscii(c: char) {
    'a' <= c <= 'z'
  }

  predicate IsUpperAscii(c: char) {
    'A' <= c <= 'Z'
  }

  /** `toUpperCase` on one ASCII character. */
  function UpperAscii(c: char): (u: char)
    ensures IsLowerAscii(c) ==> IsUpperAscii(u) && u as int == c as int - 32
    ensures !IsLowerAscii(c) ==> u == c
  {
    if IsLowerAscii(c) then (c as int - 32) as char else c
  }

  /** `toLowerCase` on one ASCII character. */
  function LowerAscii(c: char): (l: char)
    ensures IsUpperAscii(c) ==> IsLowerAscii(l) && l as int == c as int + 32
    ensures !IsUpperAscii(c) ==> l == c
  {
    if IsUpperAscii(c) then (c as int + 32) as char else c
  }

  /** `name.charAt(0).toUpperCase() + name.slice(1)`: the same length, the
      first character upper-cased, the rest untouched; the empty name stays
      empty. */
  function Capitalize(name: string): (t: string)
    ensures |t| == |name|
    ensures |name| > 0 ==> t[0] == UpperAscii(name[0]) && t[1..] == name[1..]
  {
    if name == [] then [] else [UpperAscii(name[0])] + name[1..]
  }

  /** Capitalizing a title again changes nothing. */
  lemma CapitalizeIdempotent(name: string)
    ensures Capitalize(Capitalize(name)) == Capitalize(name)
  {
  }

  /** For a name that starts with a lower-case letter, as every planet name
      does, lowering the title's first letter gives the name back. */
  lemma CapitalizeRoundTrip(name: string)
    requires |name| > 0 && IsLowerAscii(name[0])
    ensures IsUpperAscii(Capitalize(name)[0])
    ensures [LowerAscii(Capitalize(name)[0])] + Capitalize(name)[1..] == name
  {
    var t := Capitalize(name);
    assert [LowerAscii(t[0])] + t[1..] == [name[0]] + name[1..];
  }

  /** `showPlanetInfo`: look the name up in the table and, if it is there,
      show its title and description. */
  function ShowInfo(table: seq<PlanetData>, name: string): (n: Notice)
    ensures !Named(table, name) ==> n.Silent?
    ensures Named(table, name) ==>
      && n.Show?
      && n.name == name
      && n.title == Capitalize(name)
      && (exists i :: IsFirstNamed(table, i, name) && n.info == table[i].info)
  {
    match FindByName(table, name)
    case None => Silent
    case Some(i) => Show(name, Capitalize(name), table[i].info)
  }

  /** `checkHover`, given the hit list of one pointer move. Afterwards the
      remembered planet is the nearest hit, or nothing when there is no hit.
      A Show notice is raised exactly when the nearest hit is a known planet
      that differs from the one remembered before, and a Hide notice exactly
      when there is no hit but a planet was remembered. */
  function CheckHover(table: seq<PlanetData>, hovered: Option<string>, hits: seq<string>): (r: Outcome)
    ensures r.hovered == (if |hits| > 0 then Some(hits[0]) else None)
    ensures r.notice.Show? <==>
      |hits| > 0 && hovered != Some(hits[0]) && Named(table, hits[0])
    ensures r.notice.Show? ==>
      && r.notice.name == hits[0] && r.notice.title == Capitalize(hits[0])
      && (exists i :: IsFirstNamed(table, i, hits[0]) && r.notice.info == table[i].info)
    ensures r.notice.Hide? <==> |hits| == 0 && hovered.Some?
  {
    if |hits| > 0 then
      var planet := hits[0];
      if hovered != Some(planet) then Outcome(Some(planet), ShowInfo(table, planet))
      else Outcome(hovered, Silent)
    else if hovered.Some? then Outcome(None, Hide)
    else Outcome(None, Silent)
  }

  /** A second check with the same hits raises nothing and remembers the
      same planet. */
  lemma CheckHoverSettles(table: seq<PlanetData>, hovered: Option<string>, hits: seq<string>)
    ensures var once := CheckHover(table, hovered, hits);
      CheckHover(table, once.hovered, hits) == Outcome(once.hovered, Silent)
  {
  }

  /** With earth hit nearer than mars, earth is shown under its title; a
      following move with no hit raises exactly one Hide, and a further one
      raises nothing. */
  lemma NearestHitThenLeave()
    ensures var first := CheckHover(Table, None, ["earth", "mars"]);
      && first.hovered == Some("earth")
      && first.notice == Show("earth", "Earth", Table[2].info)
      && CheckHover(Table, first.hovered, []) == Outcome(None, Hide)
      && CheckHover(Table, None, []) == Outcome(None, Silent)
  {
    TableNamesDistinct();
    FindDistinct(Table, 2);
  }
}
