/** The seed inventory line: the seed type in title case, the quantity and the
    text of its unit, or a fixed message for an unknown unit. */
module SeedInventory {
  import opened Wrappers
  import Numerals
  import Strings

  /** The text printed after the quantity for each known unit. */
  function UnitText(unit: string): (r: Option<string>)
    ensures r.Some? <==> unit == "packets" || unit == "grams" || unit == "area"
  {
    if unit == "packets" then Some("packets available")
    else if unit == "grams" then Some("grams total")
    else if unit == "area" then Some("square meters")
    else None
  }

  /** `ft_seed_inventory`: the line it prints, returned. */
  function SeedLine(seedType: string, quantity: int, unit: string): (line: string)
    ensures UnitText(unit).None? ==> line == "Unknown unit type"
    ensures UnitText(unit).Some? ==> Strings.Title(seedType) + " seeds: " <= line
  {
    match UnitText(unit)
    case None => "Unknown unit type"
    case Some(text) =>
      var head := Strings.Title(seedType) + " seeds: ";
      head + (if unit == "area" then "covers " else "") + Numerals.IntToString(quantity) + " " + text
  }

  /** For an unknown unit neither the seed type nor the quantity matters. */
  lemma UnknownUnitIgnoresSeed(s1: string, q1: int, s2: string, q2: int, unit: string)
    requires unit != "packets" && unit != "grams" && unit != "area"
    ensures SeedLine(s1, q1, unit) == SeedLine(s2, q2, unit) == "Unknown unit type"
  {
  }

  /** Packets are counted as available. */
  lemma PacketsLine(seedType: string, quantity: int, unit: string)
    requires unit == "packets"
    ensures SeedLine(seedType, quantity, unit)
      == Strings.Title(seedType) + " seeds: " + Numerals.IntToString(quantity) + " " + "packets available"
  {
  }

  /** Grams are a total. */
  lemma GramsLine(seedType: string, quantity: int, unit: string)
    requires unit == "grams"
    ensures SeedLine(seedType, quantity, unit)
      == Strings.Title(seedType) + " seeds: " + Numerals.IntToString(quantity) + " " + "grams total"
  {
  }

  /** Only an area puts "covers " before the quantity. */
  lemma AreaLine(seedType: string, quantity: int, unit: string)
    requires unit == "area"
    ensures SeedLine(seedType, quantity, unit)
      == Strings.Title(seedType) + " seeds: " + "covers " + Numerals.IntToString(quantity) + " " + "square meters"
  {
  }
}
