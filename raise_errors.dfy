/** The plant health checker that raises ValueError: a missing name first,
    then the water and sunlight ranges in a fixed order. */
module RaiseErrors {
  import opened Wrappers
  import Numerals

  /** `check_plant_health`: the healthy message, or the message of the
      ValueError raised by the first failing check. */
  function CheckPlantHealth(name: Option<string>, water: int, sun: int): (r: Result<string, string>)
    ensures r.Ok? <==> name.Some? && 1 <= water <= 10 && 2 <= sun <= 12
    ensures r.Ok? ==> r.value == "Plant '" + name.value + "' is healthy!"
    ensures name.None? ==> r == Err("Plant name cannot be empty")
  {
    if name.None? then Err("Plant name cannot be empty")
    else if water < 1 then Err("Water level " + Numerals.IntToString(water) + " is too low (min 1)")
    else if water > 10 then Err("Water level " + Numerals.IntToString(water) + " is too high (max 10)")
    else if sun < 2 then Err("Sunlight hours " + Numerals.IntToString(sun) + " is too low (min 2)")
    else if sun > 12 then Err("Sunlight hours " + Numerals.IntToString(sun) + " is too high (max 2)")
    else Ok("Plant '" + name.value + "' is healthy!")
  }

  /** Which check failed: the first one in the order name, water low, water
      high, sunlight low, sunlight high. */
  datatype Failure = NoName | WaterLow | WaterHigh | SunLow | SunHigh

  function FirstFailure(name: Option<string>, water: int, sun: int): Option<Failure>
  {
    if name.None? then Some(NoName)
    else if water < 1 then Some(WaterLow)
    else if water > 10 then Some(WaterHigh)
    else if sun < 2 then Some(SunLow)
    else if sun > 12 then Some(SunHigh)
    else None
  }

  /** The message names the value that failed and the bound it broke (the
      sunlight upper bound is written "(max 2)"). */
  function FailureMessage(f: Failure, water: int, sun: int): string
  {
    match f
    case NoName => "Plant name cannot be empty"
    case WaterLow => "Water level " + Numerals.IntToString(water) + " is too low (min 1)"
    case WaterHigh => "Water level " + Numerals.IntToString(water) + " is too high (max 10)"
    case SunLow => "Sunlight hours " + Numerals.IntToString(sun) + " is too low (min 2)"
    case SunHigh => "Sunlight hours " + Numerals.IntToString(sun) + " is too high (max 2)"
  }

  /** The checker raises exactly when some check fails, with the message of the
      first failing check; a missing name hides every range error. */
  lemma CheckOrder(name: Option<string>, water: int, sun: int)
    ensures CheckPlantHealth(name, water, sun).Err? <==> FirstFailure(name, water, sun).Some?
    ensures FirstFailure(name, water, sun).Some? ==>
      CheckPlantHealth(name, water, sun).error == FailureMessage(FirstFailure(name, water, sun).value, water, sun)
    ensures name.None? ==> FirstFailure(name, water, sun) == Some(NoName)
    ensures name.Some? && water < 1 ==> FirstFailure(name, water, sun) == Some(WaterLow)
  {
  }

  /** The boundary values 1 and 10 for water and 2 and 12 for sunlight pass. */
  lemma Boundaries(name: string)
    ensures CheckPlantHealth(Some(name), 1, 2).Ok? && CheckPlantHealth(Some(name), 10, 12).Ok?
    ensures CheckPlantHealth(Some(name), 0, 5).Err? && CheckPlantHealth(Some(name), 11, 5).Err?
    ensures CheckPlantHealth(Some(name), 5, 1).Err? && CheckPlantHealth(Some(name), 5, 13).Err?
  {
  }

  /** Too much sun is reported with the text "(max 2)". */
  lemma SunTooHighMessage(name: string, sun: int)
    requires sun > 12
    ensures var r := CheckPlantHealth(Some(name), 5, sun);
      r.Err? && r.error == "Sunlight hours " + Numerals.IntToString(sun) + " is too high (max 2)"
  {
  }
}
