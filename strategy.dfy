/** `AggressiveStrategy`: sorts the hand in place (creatures first, then by cost)
    and greedily plays every card that still fits in a budget of 5 mana. */
module Strategy {
  import opened Sorting
  import opened AnyCards

  /** The mana budget of one turn. */
  const Budget: int := 5

  /** The sort key `(0 if creature else 1, cost)`. */
  function TurnKey(c: AnyCard): Key
  {
    Key(if c.Creature? then 0 else 1, Cost(c))
  }

  /** The damage a played card adds: a creature its attack, a spell its cost. */
  function Damage(c: AnyCard): int
  {
    match c
    case Creature(x) => x.attack
    case Spell(x) => x.cost
    case _ => 0
  }

  /** The `actions` dictionary while the hand is scanned. */
  datatype Plan = Plan(played: seq<string>, manaUsed: int, damage: int, targets: seq<string>)

  /** Whether a card is played once `used` mana has been spent. */
  predicate Fits(c: AnyCard, used: int)
  {
    Cost(c) <= Budget - used
  }

  /** One iteration of the scan. */
  function Step(p: Plan, c: AnyCard): Plan
  {
    if Fits(c, p.manaUsed) then
      Plan(p.played + [Name(c)], p.manaUsed + Cost(c), p.damage + Damage(c),
        p.targets + (if c.Creature? || c.Spell? then ["Enemy Player"] else []))
    else p
  }

  /** The scan over the (already sorted) hand. */
  function Scan(hand: seq<AnyCard>): Plan
  {
    if hand == [] then Plan([], 0, 0, []) else Step(Scan(hand[..|hand| - 1]), hand[|hand| - 1])
  }

  /** The cards the scan plays, as an independent definition: a card is played iff
      its cost fits in what the earlier played cards left of the budget. */
  function Chosen(hand: seq<AnyCard>): seq<AnyCard>
  {
    if hand == [] then []
    else
      var before := Chosen(hand[..|hand| - 1]);
      before + (if Cost(hand[|hand| - 1]) <= Budget - TotalCost(before) then [hand[|hand| - 1]] else [])
  }

  function TotalCost(cards: seq<AnyCard>): int
  {
    if cards == [] then 0 else TotalCost(cards[..|cards| - 1]) + Cost(cards[|cards| - 1])
  }

  function TotalDamage(cards: seq<AnyCard>): int
  {
    if cards == [] then 0 else TotalDamage(cards[..|cards| - 1]) + Damage(cards[|cards| - 1])
  }

  function Names(cards: seq<AnyCard>): (names: seq<string>)
    ensures |names| == |cards|
  {
    if cards == [] then [] else Names(cards[..|cards| - 1]) + [Name(cards[|cards| - 1])]
  }

  predicate Attacks(c: AnyCard)
  {
    c.Creature? || c.Spell?
  }

  /** The scan agrees with the independent definition: it plays the chosen cards in
      hand order, spends exactly their cost and deals exactly their damage. */
  lemma {:induction false} ScanPlaysChosen(hand: seq<AnyCard>)
    ensures Scan(hand).played == Names(Chosen(hand))
    ensures Scan(hand).manaUsed == TotalCost(Chosen(hand))
    ensures Scan(hand).damage == TotalDamage(Chosen(hand))
  {
    if hand != [] {
      var init, c := hand[..|hand| - 1], hand[|hand| - 1];
      ScanPlaysChosen(init);
      var before := Chosen(init);
      if Fits(c, Scan(init).manaUsed) {
        var after := before + [c];
        assert Chosen(hand) == after;
        assert after[..|after| - 1] == before;
      } else {
        assert Chosen(hand) == before;
      }
    }
  }

  /** The scan never spends more than the budget. */
  lemma {:induction false} ScanWithinBudget(hand: seq<AnyCard>)
    ensures Scan(hand).manaUsed <= Budget
  {
    if hand != [] {
      ScanWithinBudget(hand[..|hand| - 1]);
    }
  }

  /** The enemy player is attacked, once per played creature or spell, and only then. */
  lemma {:induction false} ScanTargets(hand: seq<AnyCard>)
    ensures forall k :: 0 <= k < |Scan(hand).targets| ==> Scan(hand).targets[k] == "Enemy Player"
    ensures Scan(hand).targets == [] <==> forall k :: 0 <= k < |Chosen(hand)| ==> !Attacks(Chosen(hand)[k])
  {
    if hand != [] {
      var init, c := hand[..|hand| - 1], hand[|hand| - 1];
      ScanTargets(init);
      ScanPlaysChosen(init);
      var before := Chosen(init);
      if Fits(c, Scan(init).manaUsed) {
        var after := before + [c];
        assert Chosen(hand) == after;
        assert forall k :: 0 <= k < |before| ==> after[k] == before[k];
        assert after[|before|] == c;
      } else {
        assert Chosen(hand) == before;
      }
    }
  }

  /** Python `list(set(targets))`, keeping first occurrences; the iteration order of a
      set is not modelled, and it does not matter here since at most one name remains. */
  function Dedup(s: seq<string>): (r: seq<string>)
    ensures forall x :: x in r <==> x in s
  {
    if s == [] then []
    else
      var rest := Dedup(s[..|s| - 1]);
      if s[|s| - 1] in rest then rest else rest + [s[|s| - 1]]
  }

  /** A list holding only "Enemy Player" collapses to at most one entry. */
  lemma {:induction false} DedupEnemy(s: seq<string>)
    requires forall k :: 0 <= k < |s| ==> s[k] == "Enemy Player"
    ensures Dedup(s) == if s == [] then [] else ["Enemy Player"]
  {
    if s != [] {
      DedupEnemy(s[..|s| - 1]);
    }
  }

  /** The dictionary `execute_turn` returns. */
  datatype TurnResult = TurnResult(cardsPlayed: seq<string>, manaUsed: int, targetsAttacked: seq<string>, damageDealt: int)

  function Finish(p: Plan): TurnResult
  {
    TurnResult(p.played, p.manaUsed, Dedup(p.targets), p.damage)
  }

  /** What a turn reports for a hand in its sorted order. */
  lemma TurnReport(sorted: seq<AnyCard>)
    ensures Finish(Scan(sorted)).manaUsed <= Budget
    ensures Finish(Scan(sorted)).cardsPlayed == Names(Chosen(sorted))
    ensures Finish(Scan(sorted)).damageDealt == TotalDamage(Chosen(sorted))
    ensures Finish(Scan(sorted)).targetsAttacked ==
      if forall k :: 0 <= k < |Chosen(sorted)| ==> !Attacks(Chosen(sorted)[k]) then [] else ["Enemy Player"]
  {
    ScanPlaysChosen(sorted);
    ScanWithinBudget(sorted);
    ScanTargets(sorted);
    DedupEnemy(Scan(sorted).targets);
  }

  /** The hand the game engine deals, Fire Dragon (5), Goblin Warrior (2) and
      Lightning Bolt (3), is sorted to Goblin Warrior, Fire Dragon, Lightning Bolt;
      the turn plays the goblin and the bolt for 5 mana and 8 damage. */
  lemma EngineHand(dragon: AnyCard, goblin: AnyCard, bolt: AnyCard)
    requires dragon.Creature? && Name(dragon) == "Fire Dragon" && Cost(dragon) == 5
    requires goblin.Creature? && Name(goblin) == "Goblin Warrior" && Cost(goblin) == 2 && goblin.creature.attack == 5
    requires bolt.Spell? && Name(bolt) == "Lightning Bolt" && Cost(bolt) == 3
    ensures InsertionSort([dragon, goblin, bolt], TurnKey) == [goblin, dragon, bolt]
    ensures Finish(Scan([goblin, dragon, bolt])) == TurnResult(["Goblin Warrior", "Lightning Bolt"], 5, ["Enemy Player"], 8)
  {
    EngineSort(dragon, goblin, bolt);
    EngineTurn(dragon, goblin, bolt);
  }

  lemma EngineSort(dragon: AnyCard, goblin: AnyCard, bolt: AnyCard)
    requires dragon.Creature? && Cost(dragon) == 5
    requires goblin.Creature? && Cost(goblin) == 2
    requires bolt.Spell? && Cost(bolt) == 3
    ensures InsertionSort([dragon, goblin, bolt], TurnKey) == [goblin, dragon, bolt]
  {
    var h := [dragon, goblin, bolt];
    assert h[..1] == [dragon] && h[..2] == [dragon, goblin];
    assert [dragon][..0] == [];
    assert InsertionSort([dragon], TurnKey) == [dragon];
    assert [dragon, goblin][..1] == [dragon];
    assert Insert([dragon], goblin, TurnKey) == [goblin, dragon] by {
      assert [dragon][..0] == [];
    }
    assert InsertionSort(h[..2], TurnKey) == [goblin, dragon];
    assert Insert([goblin, dragon], bolt, TurnKey) == [goblin, dragon, bolt];
  }

  lemma EngineTurn(dragon: AnyCard, goblin: AnyCard, bolt: AnyCard)
    requires dragon.Creature? && Name(dragon) == "Fire Dragon" && Cost(dragon) == 5
    requires goblin.Creature? && Name(goblin) == "Goblin Warrior" && Cost(goblin) == 2 && goblin.creature.attack == 5
    requires bolt.Spell? && Name(bolt) == "Lightning Bolt" && Cost(bolt) == 3
    ensures Finish(Scan([goblin, dragon, bolt])) == TurnResult(["Goblin Warrior", "Lightning Bolt"], 5, ["Enemy Player"], 8)
  {
    var s := [goblin, dragon, bolt];
    assert s[..1] == [goblin] && s[..2] == [goblin, dragon];
    assert [goblin][..0] == [];
    assert [goblin, dragon][..1] == [goblin];
    assert Scan([goblin]) == Plan(["Goblin Warrior"], 2, 5, ["Enemy Player"]);
    assert Scan([goblin, dragon]) == Plan(["Goblin Warrior"], 2, 5, ["Enemy Player"]);
    assert Scan(s) == Plan(["Goblin Warrior", "Lightning Bolt"], 5, 8, ["Enemy Player", "Enemy Player"]);
    DedupEnemy(["Enemy Player", "Enemy Player"]);
  }

  class AggressiveStrategy {

    constructor ()
    {
    }

    /** `execute_turn`: sorts the caller's hand in place (stable, creatures first,
        then ascending cost) and scans it; the battlefield is ignored. */
    method ExecuteTurn(hand: array<AnyCard>, battlefield: seq<AnyCard>) returns (r: TurnResult)
      modifies hand
      ensures hand[..] == InsertionSort(old(hand[..]), TurnKey)
      ensures r == Finish(Scan(hand[..]))
    {
      SortInPlace(hand, TurnKey);
      var played: seq<string> := [];
      var manaUsed := 0;
      var damage := 0;
      var targets: seq<string> := [];
      var i := 0;
      while i < hand.Length
        invariant 0 <= i <= hand.Length
        invariant Plan(played, manaUsed, damage, targets) == Scan(hand[..i])
      {
        var card := hand[i];
        assert hand[..i + 1][..i] == hand[..i];
        if Cost(card) <= Budget - manaUsed {
          manaUsed := manaUsed + Cost(card);
          played := played + [Name(card)];
          if card.Creature? {
            damage := damage + card.creature.attack;
            targets := targets + ["Enemy Player"];
          } else if card.Spell? {
            damage := damage + card.spell.cost;
            targets := targets + ["Enemy Player"];
          }
        }
        i := i + 1;
      }
      assert hand[..hand.Length] == hand[..];
      r := TurnResult(played, manaUsed, Dedup(targets), damage);
    }

    function GetStrategyName(): (n: string)
      ensures n == "AggressiveStrategy"
    {
      "AggressiveStrategy"
    }

    /** `prioritize_targets` ignores the available targets. */
    function PrioritizeTargets<T>(available: seq<T>): (r: seq<string>)
      ensures r == ["Enemy Player"]
    {
      ["Enemy Player"]
    }
  }
}
