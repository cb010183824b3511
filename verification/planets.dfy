/** The fixed planet table of js/main.js (`planetData`) and the lookup by
    name that the slider handler and the info panel both perform with
    `Array.find`. */
module Planets {
  import opened Basics

  /** One entry of `planetData`. Every field is fixed at start-up except
      `speedMultiplier`, which the speed sliders and the reset overwrite. */
  datatype PlanetData = PlanetData(
    name: string, color: int, distance: real, size: real,
    baseSpeed: real, speedMultiplier: real, rotationSpeed: real, info: string)

  const Table: seq<PlanetData> := [
    PlanetData("mercury", 0x8C7853, 12.0, 0.4, 0.05, 1.0, 0.01,
      "Mercury: Closest planet to the Sun. Orbital period: 88 Earth days."),
    PlanetData("venus", 0xFFC649, 16.0, 0.7, 0.035, 1.0, 0.008,
      "Venus: Hottest planet in our solar system. Orbital period: 225 Earth days."),
    PlanetData("earth", 0x6B93D6, 20.0, 0.8, 0.03, 1.0, 0.02,
      "Earth: Our home planet. Orbital period: 365 Earth days."),
    PlanetData("mars", 0xC1440E, 25.0, 0.6, 0.024, 1.0, 0.018,
      "Mars: The Red Planet. Orbital period: 687 Earth days."),
    PlanetData("jupiter", 0xD8CA9D, 32.0, 1.5, 0.013, 1.0, 0.04,
      "Jupiter: Largest planet in our solar system. Orbital period: 12 Earth years."),
    PlanetData("saturn", 0xFAD5A5, 40.0, 1.2, 0.009, 1.0, 0.038,
      "Saturn: Known for its beautiful rings. Orbital period: 29 Earth years."),
    PlanetData("uranus", 0x4FD0E7, 48.0, 1.0, 0.006, 1.0, 0.03,
      "Uranus: Tilted sideways. Orbital period: 84 Earth years."),
    PlanetData("neptune", 0x4B70DD, 56.0, 0.9, 0.004, 1.0, 0.032,
      "Neptune: Windiest planet in our solar system. Orbital period: 165 Earth years.")
  ]

  /** Some entry carries this name. */
  predicate Named(table: seq<PlanetData>, name: string) {
    exists i :: 0 <= i < |table| && table[i].name == name
  }

  /** Entry `i` carries this name and no earlier entry does: the entry
      `Array.find` returns. */
  predicate IsFirstNamed(table: seq<PlanetData>, i: int, name: string) {
    && 0 <= i < |table|
    && table[i].name == name
    && forall j :: 0 <= j < i ==> table[j].name != name
  }

  predicate DistinctNames(table: seq<PlanetData>) {
    forall i, j :: 0 <= i < j < |table| ==> table[i].name != table[j].name
  }

  /** `table.find(p => p.name === name)`, returning the position: the first
      entry with that name, or nothing exactly when no entry has it. */
  function FindByName(table: seq<PlanetData>, name: string): (r: Option<nat>)
    ensures r.None? <==> !Named(table, name)
    ensures r.Some? ==> IsFirstNamed(table, r.value, name)
    decreases |table|
  {
    if table == [] then None
    else if table[0].name == name then Some(0)
    else match FindByName(table[1..], name)
      case None => None
      case Some(i) => Some(i + 1)
  }

  /** When names are distinct, the entry found for a name is the only entry
      with that name. */
  lemma FindDistinct(table: seq<PlanetData>, i: nat)
    requires DistinctNames(table)
    requires i < |table|
    ensures FindByName(table, table[i].name) == Some(i)
  {
  }

  /** The eight planet names are pairwise distinct, so a name identifies a
      planet (and its mesh) uniquely. */
  lemma TableNamesDistinct()
    ensures |Table| == 8
    ensures DistinctNames(Table)
  {
    forall i, j | 0 <= i < j < |Table|
      ensures Table[i].name != Table[j].name
    {
      assert Table[i].name[0] != Table[j].name[0] || Table[i].name[1] != Table[j].name[1];
    }
  }
}
