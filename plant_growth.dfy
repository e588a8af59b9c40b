/** A plant whose height and age in days grow; ageing a plant also makes it
    grow by the same number. */
module PlantGrowth {

  class Plant {
    const name: string
    var height: int
    var days: int

    constructor (name: string, height: int, days: int)
      ensures this.name == name && this.height == height && this.days == days
    {
      this.name := name;
      this.height := height;
      this.days := days;
    }

    /** `grow`: the height goes up by `h`. */
    method Grow(h: int)
      modifies this
      ensures height == old(height) + h && days == old(days)
    {
      height := height + h;
    }

    /** `age`: the age and the height both go up by `d`. */
    method Age(d: int)
      modifies this
      ensures days == old(days) + d && height == old(height) + d
    {
      days := days + d;
      Grow(d);
    }

    /** `get_info`: the height, reading nothing else. */
    function GetInfo(): (h: int)
      reads this
      ensures h == height
    {
      height
    }
  }

  /** The difference in reported height before and after ageing by `d` days
      is `d`, whatever the plant. */
  method GrowthOver(plant: Plant, d: int) returns (growth: int)
    modifies plant
    ensures growth == d
    ensures plant.days == old(plant.days) + d && plant.height == old(plant.height) + d
  {
    growth := plant.GetInfo();
    plant.Age(d);
    growth := plant.GetInfo() - growth;
  }

  /** The demonstration: a rose of 20cm aged by 6 days has grown 6cm. */
  method WeekDemo() returns (growth: int, height: int, days: int)
    ensures growth == 6 && height == 26 && days == 36
  {
    var plant := new Plant("Rose", 20, 30);
    growth := GrowthOver(plant, 6);
    height := plant.height;
    days := plant.days;
  }
}
