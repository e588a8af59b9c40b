/** The garden manager with a water tank: plants are added by name (a missing
    name is refused), watered five units at a time from a tank of 100 that never
    goes negative, and checked for healthy water and sunlight levels. */
module GardenManagement {
  import opened Wrappers
  import Numerals
  import Seqs

  /** The exception hierarchy: `WaterError` and `PlantError` are both a
      `GardenError`; each carries its message. */
  datatype GardenError =
    | GeneralError(message: string)
    | WaterError(message: string)
    | PlantError(message: string)

  class Plant {
    const name: string
    var waterLevel: int
    const sunlightLevel: int

    constructor (name: string, waterLevel: int, sunlightLevel: int)
      ensures this.name == name && this.waterLevel == waterLevel && this.sunlightLevel == sunlightLevel
    {
      this.name := name;
      this.waterLevel := waterLevel;
      this.sunlightLevel := sunlightLevel;
    }
  }

  /** The health test of one plant: the first failing check raises, in the
      order water too low, water too high, sunlight too low, sunlight too high. */
  function Health(water: int, sun: int): (r: Result<(), GardenError>)
    ensures r.Ok? <==> 1 <= water <= 10 && 2 <= sun <= 12
    ensures r.Err? && r.error.WaterError? <==> water < 1 || water > 10
    ensures r.Err? && r.error.PlantError? <==> 1 <= water <= 10 && (sun < 2 || sun > 12)
    ensures r.Err? ==> !r.error.GeneralError?
  {
    var w := Numerals.IntToString(water);
    var s := Numerals.IntToString(sun);
    if water < 1 then Err(WaterError("Water level " + w + " is too low (min 1)"))
    else if water > 10 then Err(WaterError("Water level " + w + " is too high (max 10)"))
    else if sun < 2 then Err(PlantError("Sunlight hours " + s + " is too low (min 2)"))
    else if sun > 12 then Err(PlantError("Sunlight hours " + s + " is too high (max 2)"))
    else Ok(())
  }

  /** The line `check_plant_health` reports for one plant. */
  function HealthLine(name: string, water: int, sun: int): (line: string)
    ensures Health(water, sun).Ok? ==>
      (line == name + ": healthy (water: " + Numerals.IntToString(water) + ", sun: " + Numerals.IntToString(sun) + ")")
    ensures Health(water, sun).Err? ==> line == "Error checking " + name + ": " + Health(water, sun).error.message
  {
    match Health(water, sun)
    case Ok(_) => name + ": healthy (water: " + Numerals.IntToString(water) + ", sun: " + Numerals.IntToString(sun) + ")"
    case Err(e) => "Error checking " + name + ": " + e.message
  }

  /** One report line per plant, in order. */
  function HealthLines(ps: seq<Plant>): (lines: seq<string>)
    reads set p | p in ps
    ensures |lines| == |ps|
    ensures forall i :: 0 <= i < |ps| ==> lines[i] == HealthLine(ps[i].name, ps[i].waterLevel, ps[i].sunlightLevel)
  {
    if ps == [] then [] else [HealthLine(ps[0].name, ps[0].waterLevel, ps[0].sunlightLevel)] + HealthLines(ps[1..])
  }

  function Min(a: int, b: int): int
  {
    if a <= b then a else b
  }

  class GardenManager {
    var plants: seq<Plant>
    var tank: int

    /** The tank is never negative, and each plant object is listed once. */
    ghost predicate Valid()
      reads this
    {
      tank >= 0 && Seqs.Distinct(plants)
    }

    constructor ()
      ensures Valid() && plants == [] && tank == 100
    {
      plants := [];
      tank := 100;
    }

    /** `get_water`: an amount in (0, tank] is taken from the tank and returned;
        any other amount raises and leaves the tank as it was. */
    method GetWater(amount: int) returns (r: Result<int, GardenError>)
      requires Valid()
      modifies this
      ensures Valid() && plants == old(plants)
      ensures 0 < amount <= old(tank) ==> r == Ok(amount) && tank == old(tank) - amount
      ensures !(0 < amount <= old(tank)) ==> r == Err(GeneralError("Not enough water in tank")) && tank == old(tank)
    {
      if amount <= tank && amount > 0 {
        tank := tank - amount;
        r := Ok(amount);
      } else {
        r := Err(GeneralError("Not enough water in tank"));
      }
    }

    /** `add_plant`: a missing name raises PlantError, which is caught, and the
        list is unchanged; otherwise a new plant is appended. */
    method AddPlant(name: Option<string>, water: int, sun: int) returns (r: Result<(), GardenError>)
      requires Valid()
      modifies this
      ensures Valid() && tank == old(tank)
      ensures name.None? ==> r == Err(PlantError("Plant name cannot be empty!")) && plants == old(plants)
      ensures name.Some? ==> r.Ok? && |plants| == |old(plants)| + 1 && plants[..|old(plants)|] == old(plants)
      ensures name.Some? ==> var p := plants[|plants| - 1];
        fresh(p) && p.name == name.value && p.waterLevel == water && p.sunlightLevel == sun
    {
      if name.None? {
        r := Err(PlantError("Plant name cannot be empty!"));
      } else {
        var p := new Plant(name.value, water, sun);
        plants := plants + [p];
        r := Ok(());
      }
    }

    /** `water_plant`: the plants are visited in order and each takes 5 from the
        tank while at least 5 is left, so exactly the first `tank / 5` plants
        gain 5 and the tank loses 5 for each of them. */
    method WaterPlant()
      requires Valid()
      modifies this, set p | p in plants
      ensures Valid() && plants == old(plants)
      ensures tank == old(tank) - 5 * Min(|plants|, old(tank) / 5)
      ensures forall i :: 0 <= i < |plants| ==>
        plants[i].waterLevel == old(plants[i].waterLevel) + (if i < old(tank) / 5 then 5 else 0)
      ensures forall i :: 0 <= i < |plants| ==> plants[i].sunlightLevel == old(plants[i].sunlightLevel)
    {
      var i := 0;
      while i < |plants|
        invariant 0 <= i <= |plants|
        invariant Valid() && plants == old(plants)
        invariant tank == old(tank) - 5 * Min(i, old(tank) / 5)
        invariant forall j :: 0 <= j < i ==>
          plants[j].waterLevel == old(plants[j].waterLevel) + (if j < old(tank) / 5 then 5 else 0)
        invariant forall j :: i <= j < |plants| ==> plants[j].waterLevel == old(plants[j].waterLevel)
      {
        ghost var q := old(tank) / 5;
        assert i < q ==> tank >= 5;
        assert i >= q ==> tank < 5;
        var r := GetWater(5);
        if r.Ok? {
          plants[i].waterLevel := plants[i].waterLevel + r.value;
        }
        i := i + 1;
      }
    }

    /** `check_plant_health`: one line per plant; nothing changes. */
    function CheckPlantHealth(): (lines: seq<string>)
      reads this, set p | p in plants
      ensures |lines| == |plants|
      ensures forall i :: 0 <= i < |plants| ==>
        lines[i] == HealthLine(plants[i].name, plants[i].waterLevel, plants[i].sunlightLevel)
    {
      HealthLines(plants)
    }
  }

  /** The boundary values are healthy, one past them is not, and the water checks
      come before the sunlight checks. */
  lemma HealthBoundaries(water: int, sun: int)
    ensures Health(1, 2).Ok? && Health(10, 12).Ok?
    ensures Health(0, 8).Err? && Health(11, 8).Err? && Health(5, 1).Err? && Health(5, 13).Err?
    ensures (water < 1 || water > 10) ==> Health(water, sun).error.WaterError?
  {
  }

  /** The demonstration: tomato (water 0) and lettuce (water 10) are added, the
      nameless plant is refused, both are watered from the full tank, only the
      tomato is then healthy, and a request for 100 units fails. */
  method ManagementDemo() returns (waters: seq<int>, tank: int, healthy: seq<bool>, recovery: Result<int, GardenError>)
    ensures waters == [5, 15] && tank == 90
    ensures healthy == [true, false]
    ensures recovery.Err?
  {
    var manager := new GardenManager();
    var _ := manager.AddPlant(Some("tomato"), 0, 8);
    var _ := manager.AddPlant(Some("lettuce"), 10, 8);
    var _ := manager.AddPlant(None, 5, 8);
    assert |manager.plants| == 2;
    manager.WaterPlant();
    var tomato := manager.plants[0];
    var lettuce := manager.plants[1];
    waters := [tomato.waterLevel, lettuce.waterLevel];
    tank := manager.tank;
    healthy := [Health(tomato.waterLevel, tomato.sunlightLevel).Ok?, Health(lettuce.waterLevel, lettuce.sunlightLevel).Ok?];
    recovery := manager.GetWater(100);
  }
}
