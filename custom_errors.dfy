/** Custom garden exceptions with fixed messages, and the two checks that raise
    them. */
module CustomErrors {
  import opened Wrappers

  /** `WaterError` and `PlantError`, both kinds of `GardenError`. */
  datatype GardenError = WaterError | PlantError

  /** The message each exception class passes to `GardenError`. */
  function Message(e: GardenError): string
  {
    match e
    case WaterError => "Not enough water in the tank!"
    case PlantError => "The tomato plant is wilting!"
  }

  /** `get_water`: raises WaterError for a volume of at most 50, and otherwise
      returns None (the subtraction only changes a local). */
  function GetWater(volume: int): (r: Option<GardenError>)
    ensures r.Some? <==> volume <= 50
    ensures r.Some? ==> r.value == WaterError
  {
    if volume <= 50 then Some(WaterError) else None
  }

  /** `get_plant_status`: raises PlantError for a non-positive water level, and
      otherwise returns None. */
  function GetPlantStatus(level: int): (r: Option<GardenError>)
    ensures r.Some? <==> level <= 0
    ensures r.Some? ==> r.value == PlantError
  {
    if level <= 0 then Some(PlantError) else None
  }

  /** The demonstration: a level of -5 and a volume of 20 both raise, each with
      its own message. */
  lemma ErrorsDemo()
    ensures GetPlantStatus(-5) == Some(PlantError) && Message(PlantError) == "The tomato plant is wilting!"
    ensures GetWater(20) == Some(WaterError) && Message(WaterError) == "Not enough water in the tank!"
  {
  }
}
