/** The secure plant: height and age are private and change only through
    setters that refuse negative values. The constructor does not validate. */
module GardenSecurity {

  class SecurePlant {
    const name: string
    var height: int
    var age: int

    /** The initial values are stored as given, negative ones included. */
    constructor (name: string, height: int, age: int)
      ensures this.name == name && this.height == height && this.age == age
    {
      this.name := name;
      this.age := age;
      this.height := height;
    }

    /** `set_height`: a negative height is rejected and nothing changes; any
        other height is stored. The age is never touched. */
    method SetHeight(h: int)
      modifies this
      ensures h < 0 ==> height == old(height)
      ensures h >= 0 ==> height == h
      ensures age == old(age)
      ensures old(height) >= 0 ==> height >= 0
    {
      if h >= 0 {
        height := h;
      }
    }

    /** `set_age`: a negative age is rejected and nothing changes; any other
        age is stored. The height is never touched. */
    method SetAge(a: int)
      modifies this
      ensures a < 0 ==> age == old(age)
      ensures a >= 0 ==> age == a
      ensures height == old(height)
      ensures old(age) >= 0 ==> age >= 0
    {
      if a >= 0 {
        age := a;
      }
    }

    function GetHeight(): (h: int)
      reads this
      ensures h == height
    {
      height
    }

    function GetAge(): (a: int)
      reads this
      ensures a == age
    {
      age
    }
  }

  /** The demonstration: a rose of 25cm and 30 days keeps both after the
      attempt to set its height to -5. */
  method SecurityDemo() returns (height: int, age: int)
    ensures height == 25 && age == 30
  {
    var plant := new SecurePlant("Rose", 25, 30);
    plant.SetHeight(-5);
    height := plant.GetHeight();
    age := plant.GetAge();
  }

  /** Setting both fields to valid values and then attempting invalid ones
      leaves the valid ones in place, whatever the plant was created with. */
  method GuardedUpdates(initialHeight: int, initialAge: int, h: int, a: int) returns (height: int, age: int)
    ensures h >= 0 ==> height == h
    ensures h < 0 ==> height == initialHeight
    ensures a >= 0 ==> age == a
    ensures a < 0 ==> age == initialAge
  {
    var plant := new SecurePlant("Plant", initialHeight, initialAge);
    plant.SetHeight(h);
    plant.SetAge(a);
    plant.SetHeight(-1);
    plant.SetAge(-1);
    height := plant.GetHeight();
    age := plant.GetAge();
  }
}
