/** The garden analytics system: plants (regular, flowering and prize-winning)
    that grow one centimetre at a time, gardens that collect plants and count
    additions and growth, and a manager that keys gardens by name and scores them
    by the kinds of their plants. */
module GardenAnalytics {
  import opened Wrappers
  import Seqs

  /** The exact class of a plant, with the fields the subclasses add. */
  datatype PlantKind =
    | Regular
    | Flowering(color: string)
    | Prize(color: string, points: int)

  class Plant {
    const name: string
    const age: int
    const kind: PlantKind
    var height: int

    constructor (name: string, height: int, age: int, kind: PlantKind)
      ensures this.name == name && this.height == height && this.age == age && this.kind == kind
    {
      this.name := name;
      this.height := height;
      this.age := age;
      this.kind := kind;
    }

    /** `grow`: one centimetre taller. */
    method Grow()
      modifies this
      ensures height == old(height) + 1
    {
      height := height + 1;
    }
  }

  /** The class attribute `Garden.total_gardens`, kept in an object of its own. */
  class GardenCounter {
    var totalGardens: nat

    constructor ()
      ensures totalGardens == 0
    {
      totalGardens := 0;
    }
  }

  class Garden {
    const name: string
    const owner: string
    var plants: seq<Plant>
    var plantsAdded: nat
    var totalGrowth: nat

    /** A new garden is empty, and the class counter goes up by one. */
    constructor (name: string, owner: string, counter: GardenCounter)
      modifies counter
      ensures this.name == name && this.owner == owner
      ensures plants == [] && plantsAdded == 0 && totalGrowth == 0
      ensures counter.totalGardens == old(counter.totalGardens) + 1
    {
      this.name := name;
      this.owner := owner;
      plants := [];
      plantsAdded := 0;
      totalGrowth := 0;
      counter.totalGardens := counter.totalGardens + 1;
    }

    /** `add_plant`: the plant goes last and the addition is counted. */
    method AddPlant(plant: Plant)
      modifies this
      ensures plants == old(plants) + [plant]
      ensures plantsAdded == old(plantsAdded) + 1 && totalGrowth == old(totalGrowth)
    {
      plants := plants + [plant];
      plantsAdded := plantsAdded + 1;
    }

    /** `grow_all`: every listed plant grows once per listing, and the total
        growth goes up by the number of plants. */
    method GrowAll()
      modifies this, set p | p in plants
      ensures plants == old(plants) && plantsAdded == old(plantsAdded)
      ensures totalGrowth == old(totalGrowth) + |plants|
      ensures forall p :: p in plants ==> p.height == old(p.height) + multiset(plants)[p]
    {
      var i := 0;
      while i < |plants|
        invariant 0 <= i <= |plants|
        invariant plants == old(plants) && plantsAdded == old(plantsAdded)
        invariant totalGrowth == old(totalGrowth) + i
        invariant forall p :: p in plants ==> p.height == old(p.height) + multiset(plants[..i])[p]
      {
        assert plants[..i + 1] == plants[..i] + [plants[i]];
        plants[i].Grow();
        totalGrowth := totalGrowth + 1;
        i := i + 1;
      }
      assert plants[..i] == plants;
    }
  }

  datatype GardenStats = GardenStats(regular: nat, flowering: nat, prizeFlowers: nat)

  predicate IsPrize(p: Plant) { p.kind.Prize? }
  predicate IsFlowering(p: Plant) { p.kind.Flowering? }
  predicate IsRegular(p: Plant) { p.kind.Regular? }

  /** The counts by exact class; every plant is in exactly one of them. */
  function Classify(plants: seq<Plant>): (stats: GardenStats)
    ensures stats.regular + stats.flowering + stats.prizeFlowers == |plants|
    ensures stats.prizeFlowers == Seqs.Count(plants, IsPrize)
    ensures stats.flowering == Seqs.Count(plants, IsFlowering)
    ensures stats.regular == Seqs.Count(plants, IsRegular)
  {
    if plants == [] then GardenStats(0, 0, 0)
    else Tally(Classify(plants[1..]), plants[0])
  }

  /** One more plant in its class's count. */
  function Tally(stats: GardenStats, p: Plant): GardenStats
  {
    match p.kind
    case Prize(_, _) => stats.(prizeFlowers := stats.prizeFlowers + 1)
    case Flowering(_) => stats.(flowering := stats.flowering + 1)
    case Regular => stats.(regular := stats.regular + 1)
  }

  /** `GardenManager.get_stats`: the classifying loop. */
  method GetStats(garden: Garden) returns (stats: GardenStats)
    ensures stats == Classify(garden.plants)
  {
    stats := GardenStats(0, 0, 0);
    var plants := garden.plants;
    var i := |plants|;
    while i > 0
      invariant 0 <= i <= |plants|
      invariant stats == Classify(plants[i..])
    {
      i := i - 1;
      assert plants[i..][1..] == plants[i + 1..];
      match plants[i].kind
      case Prize(_, _) => stats := stats.(prizeFlowers := stats.prizeFlowers + 1);
      case Flowering(_) => stats := stats.(flowering := stats.flowering + 1);
      case Regular => stats := stats.(regular := stats.regular + 1);
    }
  }

  /** `GardenManager.garden_score`: every plant adds between 10 (regular) and 100
      (prize flower) points, so an empty garden scores 0 and each plant raises
      the score. */
  function GardenScore(stats: GardenStats): (score: int)
    ensures 10 * (stats.regular + stats.flowering + stats.prizeFlowers) <= score
    ensures score <= 100 * (stats.regular + stats.flowering + stats.prizeFlowers)
  {
    stats.regular * 10 + stats.flowering * 50 + stats.prizeFlowers * 100
  }

  /** What one plant adds to its garden's score. */
  function Weight(p: Plant): nat
  {
    match p.kind
    case Regular => 10
    case Flowering(_) => 50
    case Prize(_, _) => 100
  }

  function WeightSum(plants: seq<Plant>): nat
  {
    if plants == [] then 0 else Weight(plants[0]) + WeightSum(plants[1..])
  }

  /** The score of a garden is the sum of its plants' weights: 10 per regular
      plant, 50 per flowering plant, 100 per prize flower. */
  lemma {:induction false} ScoreIsWeightSum(plants: seq<Plant>)
    ensures GardenScore(Classify(plants)) == WeightSum(plants)
  {
    if plants != [] {
      var rest := Classify(plants[1..]);
      assert Classify(plants) == Tally(rest, plants[0]);
      ScoreIsWeightSum(plants[1..]);
      TallyScore(rest, plants[0]);
    }
  }

  lemma TallyScore(stats: GardenStats, p: Plant)
    ensures GardenScore(Tally(stats, p)) == GardenScore(stats) + Weight(p)
  {
  }

  class GardenManager {
    var gardens: map<string, Garden>

    constructor ()
      ensures gardens == map[]
    {
      gardens := map[];
    }

    /** `add_garden`: keyed by name; a garden with the same name is replaced. */
    method AddGarden(garden: Garden)
      modifies this
      ensures gardens == old(gardens)[garden.name := garden]
    {
      gardens := gardens[garden.name := garden];
    }

    /** `create_garden_network`: the gardens added in order. */
    method CreateGardenNetwork(gs: seq<Garden>)
      modifies this
      ensures gardens == AddAll(old(gardens), gs)
    {
      var i := 0;
      while i < |gs|
        invariant 0 <= i <= |gs|
        invariant gardens == AddAll(old(gardens), gs[..i])
      {
        assert gs[..i + 1][..i] == gs[..i];
        AddGarden(gs[i]);
        i := i + 1;
      }
      assert gs[..i] == gs;
    }

    /** `get_garden`: the garden of that name, or None. */
    function GetGarden(name: string): (r: Option<Garden>)
      reads this
      ensures name in gardens <==> r.Some?
      ensures r.Some? ==> r.value == gardens[name]
    {
      if name in gardens then Some(gardens[name]) else None
    }
  }

  /** The gardens keyed by name after adding `gs` in order to `m`. */
  function AddAll(m: map<string, Garden>, gs: seq<Garden>): map<string, Garden>
  {
    if gs == [] then m else AddAll(m, gs[..|gs| - 1])[gs[|gs| - 1].name := gs[|gs| - 1]]
  }

  /** After adding a list of gardens, each name maps to the last garden of that
      name in the list, and every other name keeps its old garden. */
  lemma AddAllLastWins(m: map<string, Garden>, gs: seq<Garden>)
    ensures forall i :: 0 <= i < |gs| && (forall j :: i < j < |gs| ==> gs[j].name != gs[i].name) ==>
      gs[i].name in AddAll(m, gs) && AddAll(m, gs)[gs[i].name] == gs[i]
    ensures forall n :: (forall j :: 0 <= j < |gs| ==> gs[j].name != n) ==>
      (n in AddAll(m, gs) <==> n in m) && (n in m ==> AddAll(m, gs)[n] == m[n])
  {
    forall i | 0 <= i < |gs| && (forall j :: i < j < |gs| ==> gs[j].name != gs[i].name)
      ensures gs[i].name in AddAll(m, gs) && AddAll(m, gs)[gs[i].name] == gs[i]
    {
      AddAllLast(m, gs, i);
    }
    forall n | (forall j :: 0 <= j < |gs| ==> gs[j].name != n)
      ensures (n in AddAll(m, gs) <==> n in m) && (n in m ==> AddAll(m, gs)[n] == m[n])
    {
      AddAllOthers(m, gs, n);
    }
  }

  /** The last garden of a name is the one kept under it. */
  lemma {:induction false} AddAllLast(m: map<string, Garden>, gs: seq<Garden>, i: int)
    requires 0 <= i < |gs|
    requires forall j :: i < j < |gs| ==> gs[j].name != gs[i].name
    ensures gs[i].name in AddAll(m, gs) && AddAll(m, gs)[gs[i].name] == gs[i]
  {
    var init := gs[..|gs| - 1];
    var last := gs[|gs| - 1];
    assert AddAll(m, gs) == AddAll(m, init)[last.name := last];
    if i < |gs| - 1 {
      assert last.name != gs[i].name;
      assert init[i] == gs[i];
      assert forall j :: i < j < |init| ==> init[j] == gs[j];
      AddAllLast(m, init, i);
    }
  }

  /** A name no added garden carries keeps its old garden, or stays absent. */
  lemma {:induction false} AddAllOthers(m: map<string, Garden>, gs: seq<Garden>, n: string)
    requires forall j :: 0 <= j < |gs| ==> gs[j].name != n
    ensures (n in AddAll(m, gs) <==> n in m) && (n in m ==> AddAll(m, gs)[n] == m[n])
  {
    if gs != [] {
      var init := gs[..|gs| - 1];
      assert forall j :: 0 <= j < |init| ==> init[j] == gs[j];
      AddAllOthers(m, init, n);
    }
  }

  /** The demonstration: Alice's garden gets an oak, a rose and a sunflower, all
      grow once; three additions, one of each kind, and a score of 160. */
  method AliceDemo() returns (heights: seq<int>, added: nat, growth: nat, stats: GardenStats, score: int)
    ensures heights == [101, 26, 51] && added == 3 && growth == 3
    ensures stats == GardenStats(1, 1, 1) && score == 160
  {
    var alice, oak, rose, sunflower := PlantAlice();
    alice.GrowAll();
    assert oak in alice.plants && rose in alice.plants && sunflower in alice.plants;
    heights := [oak.height, rose.height, sunflower.height];
    added := alice.plantsAdded;
    growth := alice.totalGrowth;
    stats := GetStats(alice);
    OneOfEach(alice.plants);
    score := GardenScore(stats);
  }

  /** Alice's garden with its three plants, before any growth. */
  method PlantAlice() returns (alice: Garden, oak: Plant, rose: Plant, sunflower: Plant)
    ensures fresh(alice) && fresh(oak) && fresh(rose) && fresh(sunflower)
    ensures alice.plants == [oak, rose, sunflower] && alice.plantsAdded == 3 && alice.totalGrowth == 0
    ensures multiset(alice.plants)[oak] == 1 && multiset(alice.plants)[rose] == 1 && multiset(alice.plants)[sunflower] == 1
    ensures oak.height == 100 && rose.height == 25 && sunflower.height == 50
    ensures oak.kind.Regular? && rose.kind.Flowering? && sunflower.kind.Prize?
  {
    var counter := new GardenCounter();
    alice := new Garden("Alice's garden", "Alice", counter);
    oak := new Plant("Oak Tree", 100, 365, Regular);
    rose := new Plant("Rose", 25, 50, Flowering("red"));
    sunflower := new Plant("Sunflower", 50, 70, Prize("yellow", 10));
    alice.AddPlant(oak);
    alice.AddPlant(rose);
    alice.AddPlant(sunflower);
    assert oak != rose && oak != sunflower && rose != sunflower;
  }

  /** A regular plant, a flowering plant and a prize flower count one of each. */
  lemma OneOfEach(plants: seq<Plant>)
    requires |plants| == 3 && plants[0].kind.Regular? && plants[1].kind.Flowering? && plants[2].kind.Prize?
    ensures Classify(plants) == GardenStats(1, 1, 1)
  {
    assert plants[1..][1..][1..] == [];
  }
}
