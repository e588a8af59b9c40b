/** `CreatureCard`: a card with attack and health. Construction clamps both to be
    non-negative; attacking another creature lowers its health with no floor. */
module CreatureCards {
  import opened Card

  class CreatureCard {
    const name: string
    const cost: int
    const rarity: string
    const attack: int
    var health: int

    /** Non-positive health or attack is reported and replaced by 0. */
    constructor (name: string, cost: int, rarity: string, attack: int, health: int)
      ensures this.name == name && this.cost == cost && this.rarity == rarity
      ensures this.health >= 0 && this.attack >= 0
      ensures health > 0 ==> this.health == health
      ensures health <= 0 ==> this.health == 0
      ensures attack > 0 ==> this.attack == attack
      ensures attack <= 0 ==> this.attack == 0
    {
      this.name := name;
      this.cost := cost;
      this.rarity := rarity;
      var h := 0;
      var a := 0;
      if health > 0 {
        h := health;
      }
      if attack > 0 {
        a := attack;
      }
      this.health := h;
      this.attack := a;
    }

    /** The inherited `get_card_info`. */
    function Info(): CardInfo
    {
      BaseInfo(name, cost, rarity)
    }

    /** `play`: the creature is summoned iff the mana is an int of at least its cost. */
    function Play(state: GameState): (r: PlayResult)
      ensures r.Played? <==> "mana" in state && state["mana"].VInt? && state["mana"].i >= cost
      ensures r.Played? ==> r == Played(name, cost, "Creature summoned to battlefield")
      ensures !r.Played? ==> (r.MissingManaKey? <==> "mana" !in state)
    {
      PlayWith(name, cost, state, "Creature summoned to battlefield")
    }

    /** `get_card_info`: the base fields plus the type (the class name without
        "Card"), attack and current health. */
    function GetCardInfo(): (info: CreatureInfo)
      reads this
      ensures info.base == Info()
      ensures info.kind == "Creature"
      ensures info.attack == attack && info.health == health
    {
      CreatureInfo(Info(), "Creature", attack, health)
    }

    /** `attack_target`: only a target whose exact type is CreatureCard is hit; its
        health drops by this card's attack, possibly below zero. */
    method AttackTarget(target: Target) returns (r: AttackResult)
      modifies if target.CreatureTarget? then {target.creature} else {}
      ensures target.CreatureTarget? ==>
        target.creature.health == old(target.creature.health) - attack &&
        r == Attacked(name, target.creature.name, attack, target.creature.health <= 0)
      ensures target.OtherTarget? ==> r == AttackFailed
    {
      if target.CreatureTarget? {
        var t := target.creature;
        t.health := t.health - attack;
        r := Attacked(name, t.name, attack, t.health <= 0);
      } else {
        r := AttackFailed;
      }
    }
  }

  datatype CreatureInfo = CreatureInfo(base: CardInfo, kind: string, attack: int, health: int)

  /** Anything a creature can be pointed at: a card whose exact type is
      CreatureCard, or any other object. */
  datatype Target = CreatureTarget(creature: CreatureCard) | OtherTarget

  /** The record of `attack_target`, or `{"success": False}`. */
  datatype AttackResult =
    | Attacked(attacker: string, target: string, damageDealt: int, combatResolved: bool)
    | AttackFailed
}
