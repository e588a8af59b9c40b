/** Player inventories: each maps an item name to its quantity, type, rarity and
    unit value, in insertion order. The totals are accumulator loops; the potion
    transfer and the "richest" and "most items" choices are the logic of the
    inventory report. */
module InventorySystem {
  import opened Wrappers
  import Seqs

  datatype Item = Item(qty: int, kind: string, rarity: string, value: int)

  /** A dictionary from item names to items, as its entries in insertion order. */
  type Inventory = seq<(string, Item)>

  /** The gold value of the entries: the sum of quantity times unit value. */
  function Value(inv: Inventory): int
  {
    if inv == [] then 0
    else Value(inv[..|inv| - 1]) + inv[|inv| - 1].1.qty * inv[|inv| - 1].1.value
  }

  /** The number of items: the sum of the quantities. */
  function Count(inv: Inventory): int
  {
    if inv == [] then 0 else Count(inv[..|inv| - 1]) + inv[|inv| - 1].1.qty
  }

  /** `inventory_value`: the accumulator loop over the values. */
  method InventoryValue(inv: Inventory) returns (total: int)
    ensures total == Value(inv)
  {
    total := 0;
    var i := 0;
    while i < |inv|
      invariant 0 <= i <= |inv|
      invariant total == Value(inv[..i])
    {
      assert inv[..i + 1][..i] == inv[..i];
      total := total + inv[i].1.qty * inv[i].1.value;
      i := i + 1;
    }
    assert inv[..i] == inv;
  }

  /** `item_count`: the accumulator loop over the quantities. */
  method ItemCount(inv: Inventory) returns (count: int)
    ensures count == Count(inv)
  {
    count := 0;
    var i := 0;
    while i < |inv|
      invariant 0 <= i <= |inv|
      invariant count == Count(inv[..i])
    {
      assert inv[..i + 1][..i] == inv[..i];
      count := count + inv[i].1.qty;
      i := i + 1;
    }
    assert inv[..i] == inv;
  }

  /** The item types present, each once, in order of first appearance. */
  function Types(inv: Inventory): (ts: seq<string>)
    ensures Seqs.Distinct(ts)
    ensures forall t :: t in ts <==> exists i :: 0 <= i < |inv| && inv[i].1.kind == t
  {
    if inv == [] then []
    else
      var init := inv[..|inv| - 1];
      var k := inv[|inv| - 1].1.kind;
      assert forall i :: 0 <= i < |init| ==> init[i] == inv[i];
      if k in Types(init) then Types(init) else Types(init) + [k]
  }

  /** One more entry adds its type to the types present. */
  lemma TypesSnoc(init: Inventory, e: (string, Item))
    ensures forall t :: t in Types(init + [e]) <==> t in Types(init) || t == e.1.kind
  {
    assert (init + [e])[..|init + [e]| - 1] == init;
  }

  /** The total quantity of the items of one type. */
  function TypeTotal(inv: Inventory, t: string): int
  {
    if inv == [] then 0
    else TypeTotal(inv[..|inv| - 1], t) + (if inv[|inv| - 1].1.kind == t then inv[|inv| - 1].1.qty else 0)
  }

  /** One more entry adds its quantity to the total of its own type only. */
  lemma TypeTotalSnoc(init: Inventory, e: (string, Item))
    ensures forall t :: TypeTotal(init + [e], t) == TypeTotal(init, t) + (if e.1.kind == t then e.1.qty else 0)
  {
    assert (init + [e])[..|init + [e]| - 1] == init;
  }

  /** A type with no item has a total of zero. */
  lemma {:induction false} TypeTotalAbsent(inv: Inventory, t: string)
    requires forall i :: 0 <= i < |inv| ==> inv[i].1.kind != t
    ensures TypeTotal(inv, t) == 0
  {
    if inv != [] {
      TypeTotalAbsent(inv[..|inv| - 1], t);
    }
  }

  /** `categories`: a dictionary from exactly the types present to the total
      quantity of that type. */
  method Categories(inv: Inventory) returns (cats: map<string, int>)
    ensures TalliesTypes(cats, inv)
  {
    cats := map[];
    var i := 0;
    while i < |inv|
      invariant 0 <= i <= |inv|
      invariant TalliesTypes(cats, inv[..i])
    {
      cats := AddToCategory(cats, inv[i], inv[..i]);
      Seqs.PrefixSnoc(inv, i);
      i := i + 1;
    }
    assert inv[..i] == inv;
  }

  /** The loop body of `categories`: the entry's quantity is added under its type,
      which starts at 0 when new. */
  method AddToCategory(cats: map<string, int>, e: (string, Item), ghost prefix: Inventory) returns (cats': map<string, int>)
    requires TalliesTypes(cats, prefix)
    ensures TalliesTypes(cats', prefix + [e])
  {
    var updated := cats;
    var cat := e.1.kind;
    if cat !in updated {
      updated := updated[cat := 0];
    }
    updated := updated[cat := updated[cat] + e.1.qty];
    CategoriesStep(prefix, e, cats, updated);
    cats' := updated;
  }

  /** `cats` maps exactly the types of `inv` to their total quantities. */
  ghost predicate TalliesTypes(cats: map<string, int>, inv: Inventory)
  {
    (forall t :: t in cats <==> t in Types(inv)) &&
    (forall t :: t in cats ==> cats[t] == TypeTotal(inv, t))
  }

  /** Adding one entry's quantity under its type keeps the tally. */
  lemma CategoriesStep(prefix: Inventory, e: (string, Item), cats: map<string, int>, cats': map<string, int>)
    requires TalliesTypes(cats, prefix)
    requires cats' == cats[e.1.kind := (if e.1.kind in cats then cats[e.1.kind] else 0) + e.1.qty]
    ensures TalliesTypes(cats', prefix + [e])
  {
    TypesSnoc(prefix, e);
    TypeTotalSnoc(prefix, e);
    if e.1.kind !in cats {
      assert forall j :: 0 <= j < |prefix| ==> prefix[j].1.kind != e.1.kind;
      TypeTotalAbsent(prefix, e.1.kind);
    }
  }

  /** The sum of the type totals over a list of types. */
  function SumTotals(ts: seq<string>, inv: Inventory): int
  {
    if ts == [] then 0 else SumTotals(ts[..|ts| - 1], inv) + TypeTotal(inv, ts[|ts| - 1])
  }

  /** One more entry adds its quantity to the sum over distinct types exactly
      when its type is among them. */
  lemma {:induction false} SumTotalsStep(ts: seq<string>, init: Inventory, e: (string, Item))
    requires Seqs.Distinct(ts)
    ensures SumTotals(ts, init + [e]) == SumTotals(ts, init) + (if e.1.kind in ts then e.1.qty else 0)
  {
    var inv := init + [e];
    assert inv[..|inv| - 1] == init;
    if ts != [] {
      var front := ts[..|ts| - 1];
      assert forall t :: t in front ==> t in ts;
      assert e.1.kind in ts <==> e.1.kind in front || e.1.kind == ts[|ts| - 1];
      assert ts[|ts| - 1] !in front;
      SumTotalsStep(front, init, e);
    }
  }

  /** The totals of all categories add up to the item count. */
  lemma {:induction false} CategoriesSumToCount(inv: Inventory)
    ensures SumTotals(Types(inv), inv) == Count(inv)
  {
    if inv != [] {
      var init := inv[..|inv| - 1];
      var e := inv[|inv| - 1];
      assert inv == init + [e];
      CategoriesSumToCount(init);
      SumTotalsStep(Types(init), init, e);
      if e.1.kind !in Types(init) {
        var ts := Types(init) + [e.1.kind];
        assert Types(inv) == ts;
        assert ts[..|ts| - 1] == Types(init);
        assert forall i :: 0 <= i < |init| ==> init[i].1.kind != e.1.kind;
        TypeTotalAbsent(init, e.1.kind);
        assert TypeTotal(inv, e.1.kind) == e.1.qty;
      } else {
        assert Types(inv) == Types(init);
      }
    }
  }

  /** The entry for a name, if any (the first, as names are dictionary keys). */
  function Lookup(inv: Inventory, name: string): Option<Item>
  {
    if inv == [] then None
    else if inv[0].0 == name then Some(inv[0].1)
    else Lookup(inv[1..], name)
  }

  /** `dict.get` finds nothing iff no entry has the name, and otherwise an
      entry of that name. */
  lemma {:induction false} LookupFinds(inv: Inventory, name: string)
    ensures Lookup(inv, name).None? <==> forall i :: 0 <= i < |inv| ==> inv[i].0 != name
    ensures Lookup(inv, name).Some? ==> (name, Lookup(inv, name).value) in inv
  {
    if inv != [] {
      LookupFinds(inv[1..], name);
      assert forall i :: 1 <= i < |inv| ==> inv[i] == inv[1..][i - 1];
    }
  }

  /** The inventory with the entries named `name` given a new quantity. */
  function SetQty(inv: Inventory, name: string, qty: int): (r: Inventory)
    ensures |r| == |inv|
  {
    if inv == [] then []
    else [if inv[0].0 == name then (name, inv[0].1.(qty := qty)) else inv[0]] + SetQty(inv[1..], name, qty)
  }

  /** Setting a quantity keeps every name, leaves the entries of other names
      alone and changes only the quantity of the named ones. */
  lemma {:induction false} SetQtyEntries(inv: Inventory, name: string, qty: int)
    ensures var r := SetQty(inv, name, qty);
      forall i :: 0 <= i < |inv| ==>
        && r[i].0 == inv[i].0
        && (inv[i].0 != name ==> r[i] == inv[i])
        && (inv[i].0 == name ==> r[i].1 == inv[i].1.(qty := qty))
  {
    if inv != [] {
      SetQtyEntries(inv[1..], name, qty);
      var r := SetQty(inv, name, qty);
      assert forall i :: 1 <= i < |inv| ==> r[i] == SetQty(inv[1..], name, qty)[i - 1] && inv[i] == inv[1..][i - 1];
    }
  }

  /** Changing the quantity of an entry changes what a lookup finds and nothing else. */
  lemma {:induction false} LookupSetQty(inv: Inventory, name: string, qty: int, other: string)
    ensures Lookup(SetQty(inv, name, qty), name) ==
      (if Lookup(inv, name).Some? then Some(Lookup(inv, name).value.(qty := qty)) else None)
    ensures other != name ==> Lookup(SetQty(inv, name, qty), other) == Lookup(inv, other)
  {
    if inv != [] {
      LookupSetQty(inv[1..], name, qty, other);
    }
  }

  /** Lookup in an inventory with one more entry at the end. */
  lemma {:induction false} LookupAppend(inv: Inventory, e: (string, Item), name: string)
    ensures Lookup(inv + [e], name) ==
      (if Lookup(inv, name).Some? then Lookup(inv, name) else if e.0 == name then Some(e.1) else None)
  {
    if inv == [] {
      assert ([] + [e])[1..] == [];
    } else {
      assert (inv + [e])[1..] == inv[1..] + [e];
      LookupAppend(inv[1..], e, name);
    }
  }

  /** How many items of a name an inventory holds. */
  function Held(inv: Inventory, name: string): int
  {
    match Lookup(inv, name)
    case Some(item) => item.qty
    case None => 0
  }

  /** Giving `amount` items of a name: it succeeds iff the giver has an entry
      with at least `amount`; the receiver's entry grows by `amount`, or
      `entry` is added at the end when the receiver has none. */
  function Give(from: Inventory, to: Inventory, name: string, amount: int, entry: Item): (r: (Inventory, Inventory, bool))
    ensures r.2 <==> Lookup(from, name).Some? && Lookup(from, name).value.qty >= amount
    ensures !r.2 ==> r.0 == from && r.1 == to
    ensures r.2 && Lookup(to, name).None? ==> r.1 == to + [(name, entry)]
  {
    var a := Lookup(from, name);
    if a.Some? && a.value.qty >= amount then
      var b := Lookup(to, name);
      var to' := if b.Some? then SetQty(to, name, b.value.qty + amount) else to + [(name, entry)];
      (SetQty(from, name, a.value.qty - amount), to', true)
    else (from, to, false)
  }

  /** The two inventories after a successful gift. */
  lemma GiveSuccess(from: Inventory, to: Inventory, name: string, amount: int, entry: Item)
    requires Give(from, to, name, amount, entry).2
    ensures Give(from, to, name, amount, entry).0 == SetQty(from, name, Held(from, name) - amount)
    ensures Lookup(to, name).Some? ==> Give(from, to, name, amount, entry).1 == SetQty(to, name, Held(to, name) + amount)
  {
  }

  /** A successful gift moves exactly `amount` items when the new entry holds
      that many, so the two players' holdings together are conserved. */
  lemma GiveMoves(from: Inventory, to: Inventory, name: string, amount: int, entry: Item)
    requires entry.qty == amount
    ensures var r := Give(from, to, name, amount, entry);
      r.2 ==> Held(r.0, name) == Held(from, name) - amount && Held(r.1, name) == Held(to, name) + amount
    ensures var r := Give(from, to, name, amount, entry);
      Held(r.0, name) + Held(r.1, name) == Held(from, name) + Held(to, name)
  {
    var r := Give(from, to, name, amount, entry);
    if r.2 {
      GiveSuccess(from, to, name, amount, entry);
      LookupSetQty(from, name, Held(from, name) - amount, name);
      if Lookup(to, name).Some? {
        LookupSetQty(to, name, Held(to, name) + amount, name);
      } else {
        LookupAppend(to, (name, entry), name);
      }
    }
  }

  /** No entry of another name changes in the giver's inventory. */
  lemma GiveFrameFrom(from: Inventory, to: Inventory, name: string, amount: int, entry: Item, n: string)
    requires n != name
    ensures Lookup(Give(from, to, name, amount, entry).0, n) == Lookup(from, n)
  {
    if Give(from, to, name, amount, entry).2 {
      GiveSuccess(from, to, name, amount, entry);
      LookupSetQty(from, name, Held(from, name) - amount, n);
    }
  }

  /** No entry of another name changes in the receiver's inventory. */
  lemma GiveFrameTo(from: Inventory, to: Inventory, name: string, amount: int, entry: Item, n: string)
    requires n != name
    ensures Lookup(Give(from, to, name, amount, entry).1, n) == Lookup(to, n)
  {
    if Give(from, to, name, amount, entry).2 {
      GiveSuccess(from, to, name, amount, entry);
      if Lookup(to, name).Some? {
        LookupSetQty(to, name, Held(to, name) + amount, n);
      } else {
        LookupAppend(to, (name, entry), n);
      }
    }
  }

  /** The potion record given to a player who had none. */
  const NewPotion := Item(2, "consumable", "common", 50)

  /** The transaction "Alice gives Bob 2 potions". */
  function GivePotions(alice: Inventory, bob: Inventory): (r: (Inventory, Inventory, bool))
    ensures r.2 <==> Lookup(alice, "potion").Some? && Lookup(alice, "potion").value.qty >= 2
    ensures r.2 ==> Held(r.0, "potion") == Held(alice, "potion") - 2 && Held(r.1, "potion") == Held(bob, "potion") + 2
    ensures Held(r.0, "potion") + Held(r.1, "potion") == Held(alice, "potion") + Held(bob, "potion")
    ensures !r.2 ==> r.0 == alice && r.1 == bob
    ensures r.2 && Lookup(bob, "potion").None? ==> r.1 == bob + [("potion", NewPotion)]
    ensures forall n :: n != "potion" ==> Lookup(r.0, n) == Lookup(alice, n) && Lookup(r.1, n) == Lookup(bob, n)
  {
    GiveMoves(alice, bob, "potion", 2, NewPotion);
    forall n | n != "potion"
      ensures var r := Give(alice, bob, "potion", 2, NewPotion);
        Lookup(r.0, n) == Lookup(alice, n) && Lookup(r.1, n) == Lookup(bob, n)
    {
      GiveFrameFrom(alice, bob, "potion", 2, NewPotion, n);
      GiveFrameTo(alice, bob, "potion", 2, NewPotion, n);
    }
    Give(alice, bob, "potion", 2, NewPotion)
  }

  /** The running best of a scan with a strict `>` starting from -1: the best
      value so far and the index where it was first reached. */
  function Best(vals: seq<int>): (int, Option<nat>)
  {
    if vals == [] then (-1, None)
    else
      var (m, at) := Best(vals[..|vals| - 1]);
      if vals[|vals| - 1] > m then (vals[|vals| - 1], Some(|vals| - 1)) else (m, at)
  }

  /** The scan finds the maximum (at least -1) and the first index reaching it, so
      ties go to the earlier player; no index is chosen only when every value is
      at most -1. */
  lemma {:induction false} BestIsFirstMaximum(vals: seq<int>)
    ensures Best(vals).0 >= -1
    ensures forall j :: 0 <= j < |vals| ==> vals[j] <= Best(vals).0
    ensures Best(vals).1.None? ==> Best(vals).0 == -1
    ensures Best(vals).1.None? <==> forall j :: 0 <= j < |vals| ==> vals[j] <= -1
    ensures Best(vals).1.Some? ==> var i := Best(vals).1.value;
      i < |vals| && vals[i] == Best(vals).0 && forall j :: 0 <= j < i ==> vals[j] < vals[i]
  {
    if vals != [] {
      var init := vals[..|vals| - 1];
      BestIsFirstMaximum(init);
      assert forall j :: 0 <= j < |init| ==> init[j] == vals[j];
    }
  }

  /** One more value replaces the running best only when strictly greater. */
  lemma BestStep(vals: seq<int>, i: nat)
    requires i < |vals|
    ensures Best(vals[..i + 1]) ==
      if vals[i] > Best(vals[..i]).0 then (vals[i], Some(i)) else Best(vals[..i])
  {
    assert vals[..i + 1][..i] == vals[..i];
  }

  function Values(players: seq<(string, Inventory)>): (vals: seq<int>)
    ensures |vals| == |players| && forall i :: 0 <= i < |players| ==> vals[i] == Value(players[i].1)
  {
    if players == [] then [] else [Value(players[0].1)] + Values(players[1..])
  }

  function Counts(players: seq<(string, Inventory)>): (counts: seq<int>)
    ensures |counts| == |players| && forall i :: 0 <= i < |players| ==> counts[i] == Count(players[i].1)
  {
    if players == [] then [] else [Count(players[0].1)] + Counts(players[1..])
  }

  function NameAt(players: seq<(string, Inventory)>, at: Option<nat>): Option<string>
  {
    if at.Some? && at.value < |players| then Some(players[at.value].0) else None
  }

  /** One step of a strict-`>` scan: player `i`, whose number is `v`, takes the
      lead only when `v` beats the best so far. */
  method Consider(ghost vals: seq<int>, players: seq<(string, Inventory)>, i: nat, v: int,
                  best: int, ghost at: Option<nat>, leader: Option<string>)
    returns (best': int, ghost at': Option<nat>, leader': Option<string>)
    requires i < |vals| == |players| && vals[i] == v
    requires (best, at) == Best(vals[..i]) && leader == NameAt(players, at)
    requires at.Some? ==> at.value < i
    ensures (best', at') == Best(vals[..i + 1]) && leader' == NameAt(players, at')
    ensures at'.Some? ==> at'.value <= i
  {
    BestStep(vals, i);
    if v > best {
      best', at', leader' := v, Some(i), Some(players[i].0);
    } else {
      best', at', leader' := best, at, leader;
    }
  }

  /** The analytics loop: the most valuable player and the player with the
      most items, each with its number, by a strict-`>` scan from -1. */
  method Leaders(players: seq<(string, Inventory)>)
    returns (richest: Option<string>, maxValue: int, mostItems: Option<string>, maxItems: int)
    ensures (maxValue, richest) == (Best(Values(players)).0, NameAt(players, Best(Values(players)).1))
    ensures (maxItems, mostItems) == (Best(Counts(players)).0, NameAt(players, Best(Counts(players)).1))
  {
    richest, mostItems := None, None;
    maxValue, maxItems := -1, -1;
    ghost var valueAt: Option<nat> := None;
    ghost var countAt: Option<nat> := None;
    var i := 0;
    while i < |players|
      invariant 0 <= i <= |players|
      invariant (maxValue, valueAt) == Best(Values(players)[..i]) && richest == NameAt(players, valueAt)
      invariant (maxItems, countAt) == Best(Counts(players)[..i]) && mostItems == NameAt(players, countAt)
      invariant valueAt.Some? ==> valueAt.value < i
      invariant countAt.Some? ==> countAt.value < i
    {
      var val := InventoryValue(players[i].1);
      var cnt := ItemCount(players[i].1);
      maxValue, valueAt, richest := Consider(Values(players), players, i, val, maxValue, valueAt, richest);
      maxItems, countAt, mostItems := Consider(Counts(players), players, i, cnt, maxItems, countAt, mostItems);
      i := i + 1;
    }
    assert Values(players)[..i] == Values(players);
    assert Counts(players)[..i] == Counts(players);
  }
}
