/** The plant factory: one plant per `(name, height, days)` record, in order. */
module PlantFactory {

  datatype Plant = Plant(name: string, height: int, days: int)

  /** `create_plants`: each tuple becomes a plant with its components. */
  function CreatePlants(data: seq<(string, int, int)>): (plants: seq<Plant>)
    ensures |plants| == |data|
    ensures forall i :: 0 <= i < |data| ==>
      plants[i].name == data[i].0 && plants[i].height == data[i].1 && plants[i].days == data[i].2
  {
    if data == [] then [] else [Plant(data[0].0, data[0].1, data[0].2)] + CreatePlants(data[1..])
  }

  /** The factory works element by element: creating from two batches is
      creating from each and concatenating the results. */
  lemma {:induction false} CreatePlantsAppend(a: seq<(string, int, int)>, b: seq<(string, int, int)>)
    ensures CreatePlants(a + b) == CreatePlants(a) + CreatePlants(b)
  {
    if a != [] {
      assert (a + b)[1..] == a[1..] + b;
      CreatePlantsAppend(a[1..], b);
    }
  }

  /** The demonstration creates five plants. */
  lemma FactoryDemo()
    ensures |CreatePlants([("Rose", 25, 30), ("Oak", 200, 365), ("Cactus", 5, 90),
                           ("Sunflower", 80, 45), ("Fern", 15, 120)])| == 5
  {
  }
}
