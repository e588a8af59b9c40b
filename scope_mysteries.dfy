/** Closures over mutable state: each closure and the variables it captures
    become an object whose fields are those variables. */
module ScopeMysteries {
  import PyValues
  import Strings
  import Seqs

  /** `mage_counter()`: the captured `counter`, and `inc` as `Call`. */
  class MageCounter {
    var counter: int

    constructor()
      ensures counter == 0
    {
      counter := 0;
    }

    /** Adds one to the count and returns it. */
    method Call() returns (r: int)
      modifies this
      ensures counter == old(counter) + 1 && r == counter
    {
      counter := counter + 1;
      r := counter;
    }
  }

  /** `k` calls of a fresh counter return 1, 2, ..., k. */
  method CountCalls(k: nat) returns (rs: seq<int>)
    ensures |rs| == k && forall i :: 0 <= i < k ==> rs[i] == i + 1
  {
    var c := new MageCounter();
    rs := [];
    while |rs| < k
      invariant |rs| <= k && c.counter == |rs|
      invariant forall i :: 0 <= i < |rs| ==> rs[i] == i + 1
    {
      var r := c.Call();
      rs := rs + [r];
    }
  }

  /** Two counters share nothing: calling one leaves the other's count. */
  method Independent(c1: MageCounter, c2: MageCounter) returns (r: int)
    requires c1 != c2
    modifies c1
    ensures r == old(c1.counter) + 1 && c2.counter == old(c2.counter)
  {
    r := c1.Call();
  }

  /** `spell_accumulator(initial_power)`: the captured `power`. */
  class SpellAccumulator {
    var power: int

    constructor(initialPower: int)
      ensures power == initialPower
    {
      power := initialPower;
    }

    /** Adds the amount to the running power and returns the new total. */
    method Call(amount: int) returns (r: int)
      modifies this
      ensures power == old(power) + amount && r == power
    {
      power := power + amount;
      r := power;
    }
  }

  /** Calls with the given amounts return the running totals from the
      initial power. */
  method RunningTotals(initialPower: int, amounts: seq<int>) returns (rs: seq<int>)
    ensures |rs| == |amounts|
    ensures forall i :: 0 <= i < |rs| ==> rs[i] == initialPower + Seqs.Sum(amounts[..i + 1])
  {
    var acc := new SpellAccumulator(initialPower);
    rs := [];
    while |rs| < |amounts|
      invariant |rs| <= |amounts| && acc.power == initialPower + Seqs.Sum(amounts[..|rs|])
      invariant forall i :: 0 <= i < |rs| ==> rs[i] == initialPower + Seqs.Sum(amounts[..i + 1])
    {
      Seqs.PrefixSnoc(amounts, |rs|);
      Seqs.SumSnoc(amounts[..|rs|], amounts[|rs|]);
      var r := acc.Call(amounts[|rs|]);
      rs := rs + [r];
    }
  }

  /** `enchantment_factory(enchantment_type)`: the returned `enchant`. */
  function EnchantmentFactory(enchantmentType: string): (enchant: string -> string)
    ensures forall itemName :: (enchant(itemName) ==
      Strings.Capitalize(enchantmentType) + " " + Strings.Capitalize(itemName))
  {
    itemName => Strings.Capitalize(enchantmentType) + " " + Strings.Capitalize(itemName)
  }

  /** The enchantment is separated from the item by the one space at the
      position of the enchantment's length. */
  lemma EnchantmentShape(enchantmentType: string, itemName: string)
    ensures var e := EnchantmentFactory(enchantmentType)(itemName);
      |e| == |enchantmentType| + 1 + |itemName| && e[|enchantmentType|] == ' '
      && e[..|enchantmentType|] == Strings.Capitalize(enchantmentType)
      && e[|enchantmentType| + 1..] == Strings.Capitalize(itemName)
  {
    var e := EnchantmentFactory(enchantmentType)(itemName);
    var a := Strings.Capitalize(enchantmentType);
    assert e == a + " " + Strings.Capitalize(itemName);
    assert e[..|a|] == a;
    assert e[|a| + 1..] == Strings.Capitalize(itemName);
  }

  /** `memory_vault()`: the captured `data` dict, with `store` and `recall`. */
  class MemoryVault {
    var data: map<string, PyValues.Value>

    constructor()
      ensures data == map[]
    {
      data := map[];
    }

    /** Stores the value under the key, replacing any earlier one. */
    method Store(key: string, value: PyValues.Value)
      modifies this
      ensures data == old(data)[key := value]
    {
      data := data[key := value];
    }

    /** `data.get(key) or "Memory not found"`. */
    function Recall(key: string): (v: PyValues.Value)
      reads this
      ensures key in data && PyValues.Truthy(data[key]) ==> v == data[key]
      ensures !(key in data && PyValues.Truthy(data[key])) ==> v == PyValues.VStr("Memory not found")
    {
      if key in data && PyValues.Truthy(data[key]) then data[key] else PyValues.VStr("Memory not found")
    }
  }

  /** A stored truthy value is recalled; a falsy one reads as not found; a
      second vault does not see it. */
  method StoreThenRecall(key: string, value: PyValues.Value) returns (mine: PyValues.Value, other: PyValues.Value)
    ensures PyValues.Truthy(value) ==> mine == value
    ensures !PyValues.Truthy(value) ==> mine == PyValues.VStr("Memory not found")
    ensures other == PyValues.VStr("Memory not found")
  {
    var v1 := new MemoryVault();
    var v2 := new MemoryVault();
    v1.Store(key, value);
    mine := v1.Recall(key);
    other := v2.Recall(key);
  }

  /** Storing twice under one key keeps only the second value. */
  method Overwrite(key: string, first: PyValues.Value, second: PyValues.Value) returns (v: PyValues.Value)
    requires PyValues.Truthy(second)
    ensures v == second
  {
    var vault := new MemoryVault();
    vault.Store(key, first);
    vault.Store(key, second);
    v := vault.Recall(key);
  }
}
