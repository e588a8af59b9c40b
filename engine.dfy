/** `GameEngine`: configured with a factory and a strategy, it deals a three-card
    hand per turn and accumulates turn, damage and card counters that only grow. */
module Engine {
  import opened Wrappers
  import opened PyValues
  import opened AnyCards
  import opened Factory
  import opened Strategy
  import opened Sorting
  import opened CreatureCards
  import opened SpellCards

  datatype EngineStatus = EngineStatus(turnsSimulated: int, strategyUsed: Option<string>, totalDamage: int, cardsCreated: int)

  class GameEngine {
    var factory: FantasyCardFactory?
    var strategy: AggressiveStrategy?
    var turnsSimulated: int
    var totalDamage: int
    var cardsCreated: int

    constructor ()
      ensures factory == null && strategy == null
      ensures turnsSimulated == 0 && totalDamage == 0 && cardsCreated == 0
    {
      factory := null;
      strategy := null;
      turnsSimulated := 0;
      totalDamage := 0;
      cardsCreated := 0;
    }

    /** `configure_engine` replaces both parts and keeps the counters. */
    method ConfigureEngine(f: FantasyCardFactory?, s: AggressiveStrategy?)
      modifies this
      ensures factory == f && strategy == s
      ensures turnsSimulated == old(turnsSimulated) && totalDamage == old(totalDamage)
      ensures cardsCreated == old(cardsCreated)
    {
      factory := f;
      strategy := s;
    }

    /** `simulate_turn`: without a factory or a strategy it raises ValueError and
        changes nothing; otherwise it builds Fire Dragon, Goblin Warrior and
        Lightning Bolt, lets the strategy play them and books the turn. */
    method SimulateTurn() returns (r: Result<TurnResult, string>)
      modifies this
      ensures factory == old(factory) && strategy == old(strategy)
      ensures old(factory) == null || old(strategy) == null ==>
        r == Err("Engine not configured") &&
        turnsSimulated == old(turnsSimulated) && totalDamage == old(totalDamage) && cardsCreated == old(cardsCreated)
      ensures old(factory) != null && old(strategy) != null ==>
        r == Ok(TurnResult(["Goblin Warrior", "Lightning Bolt"], 5, ["Enemy Player"], 8)) &&
        cardsCreated == old(cardsCreated) + 3 && turnsSimulated == old(turnsSimulated) + 1 &&
        totalDamage == old(totalDamage) + r.value.damageDealt
    {
      if factory == null || strategy == null {
        return Err("Engine not configured");
      }
      var result, created := PlayDealtHand(factory, strategy);
      cardsCreated := cardsCreated + created;
      turnsSimulated := turnsSimulated + 1;
      totalDamage := totalDamage + result.damageDealt;
      r := Ok(result);
    }

    /** `get_engine_status`: the counters and the strategy's name, None without one. */
    function GetEngineStatus(): (st: EngineStatus)
      reads this
      ensures st.turnsSimulated == turnsSimulated && st.totalDamage == totalDamage && st.cardsCreated == cardsCreated
      ensures st.strategyUsed == if strategy == null then None else Some("AggressiveStrategy")
    {
      EngineStatus(turnsSimulated, if strategy == null then None else Some(strategy.GetStrategyName()), totalDamage, cardsCreated)
    }
  }

  /** The body of a configured turn: the three cards the engine builds, and what
      the strategy makes of them. */
  method PlayDealtHand(factory: FantasyCardFactory, strategy: AggressiveStrategy) returns (result: TurnResult, created: int)
    ensures created == 3
    ensures result == TurnResult(["Goblin Warrior", "Lightning Bolt"], 5, ["Enemy Player"], 8)
  {
    var hand := DealHand(factory);
    created := hand.Length;
    ghost var dealt := hand[..];
    result := strategy.ExecuteTurn(hand, []);
    DealtTurn(dealt[0], dealt[1], dealt[2], hand[..], result);
  }

  /** `hand.append(...)` three times: a new Fire Dragon, Goblin Warrior and Lightning Bolt. */
  method DealHand(factory: FantasyCardFactory) returns (hand: array<AnyCard>)
    ensures fresh(hand) && hand.Length == 3
    ensures hand[0].Creature? && Name(hand[0]) == "Fire Dragon" && Cost(hand[0]) == 5
    ensures hand[1].Creature? && Name(hand[1]) == "Goblin Warrior" && Cost(hand[1]) == 2 && hand[1].creature.attack == 5
    ensures hand[2].Spell? && Name(hand[2]) == "Lightning Bolt" && Cost(hand[2]) == 3
    ensures hand[..] == [hand[0], hand[1], hand[2]]
  {
    var dragon := DealCreature(factory, "Dragon");
    var goblin := DealCreature(factory, "Goblin");
    var bolt := DealSpell(factory);
    hand := new AnyCard[3][Creature(dragon), Creature(goblin), Spell(bolt)];
    DealtHand(hand, Creature(dragon), Creature(goblin), Spell(bolt));
  }

  method DealCreature(factory: FantasyCardFactory, hint: string) returns (c: CreatureCard)
    requires hint == "Dragon" || hint == "Goblin"
    ensures hint == "Dragon" ==> c.name == "Fire Dragon" && c.cost == 5
    ensures hint == "Goblin" ==> c.name == "Goblin Warrior" && c.cost == 2 && c.attack == 5
  {
    EngineCreatureHints();
    c := factory.CreateCreature(VStr(hint));
  }

  method DealSpell(factory: FantasyCardFactory) returns (c: SpellCard)
    ensures c.name == "Lightning Bolt" && c.cost == 3
  {
    SpellHints();
    c := factory.CreateSpell(VStr("Lightning Bolt"));
  }

  /** The turn the strategy plays on the dealt hand. */
  lemma DealtTurn(dragon: AnyCard, goblin: AnyCard, bolt: AnyCard, sorted: seq<AnyCard>, result: TurnResult)
    requires dragon.Creature? && Name(dragon) == "Fire Dragon" && Cost(dragon) == 5
    requires goblin.Creature? && Name(goblin) == "Goblin Warrior" && Cost(goblin) == 2 && goblin.creature.attack == 5
    requires bolt.Spell? && Name(bolt) == "Lightning Bolt" && Cost(bolt) == 3
    requires sorted == InsertionSort([dragon, goblin, bolt], TurnKey)
    requires result == Finish(Scan(sorted))
    ensures result == TurnResult(["Goblin Warrior", "Lightning Bolt"], 5, ["Enemy Player"], 8)
  {
    EngineHand(dragon, goblin, bolt);
  }

  lemma DealtHand(hand: array<AnyCard>, a: AnyCard, b: AnyCard, c: AnyCard)
    requires hand.Length == 3 && hand[0] == a && hand[1] == b && hand[2] == c
    ensures hand[..] == [a, b, c]
  {
  }
}
