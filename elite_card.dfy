/** `EliteCard`: a card that is both combatant and spell caster. Its combat and
    magic reports are computed from its fields; only channelling changes its mana. */
module EliteCards {
  import opened Card

  class EliteCard {
    const name: string
    const cost: int
    const rarity: string
    const attackPower: int
    const defense: int
    var mana: int

    /** The Python defaults are attack power 5, defense 3 and mana 4. */
    constructor (name: string, cost: int, rarity: string, attackPower: int, defense: int, mana: int)
      ensures this.name == name && this.cost == cost && this.rarity == rarity
      ensures this.attackPower == attackPower && this.defense == defense && this.mana == mana
    {
      this.name := name;
      this.cost := cost;
      this.rarity := rarity;
      this.attackPower := attackPower;
      this.defense := defense;
      this.mana := mana;
    }

    /** `EliteCard(name, cost, rarity)` with every optional argument left out. */
    constructor WithDefaults(name: string, cost: int, rarity: string)
      ensures this.name == name && this.cost == cost && this.rarity == rarity
      ensures attackPower == 5 && defense == 3 && mana == 4
    {
      this.name := name;
      this.cost := cost;
      this.rarity := rarity;
      this.attackPower := 5;
      this.defense := 3;
      this.mana := 4;
    }

    /** The inherited `get_card_info`. */
    function Info(): CardInfo
    {
      BaseInfo(name, cost, rarity)
    }

    /** `play` has no mana check: it always enters the battlefield. */
    function Play(state: GameState): (r: ElitePlay)
      ensures r.card == name && r.action == "play"
      ensures r.effect == "Enters the battlefield with combat and magic capabilities"
    {
      ElitePlay("play", name, "Enters the battlefield with combat and magic capabilities")
    }

    /** `attack`: a melee hit for the full attack power, whatever the target. */
    function Attack<T>(target: T): (r: EliteAttack<T>)
      ensures r.damage == attackPower && r.target == target && r.attacker == name
      ensures r.combatType == "melee"
    {
      EliteAttack(name, target, attackPower, "melee")
    }

    /** `defend`: the damage above the defense gets through, never less than 0;
        the card always survives. */
    function Defend(incoming: int): (r: Defense)
      ensures r.damageTaken >= 0 && r.damageTaken >= incoming - defense
      ensures r.damageTaken == 0 || r.damageTaken == incoming - defense
      ensures r.damageBlocked == defense && r.stillAlive
    {
      Defense(name, if incoming - defense > 0 then incoming - defense else 0, defense, true)
    }

    function GetCombatStats(): (s: CombatStats)
      ensures s.attack == attackPower && s.defense == defense
    {
      CombatStats(attackPower, defense)
    }

    /** `cast_spell` reports the whole current mana as used but deducts nothing. */
    function CastSpell<T>(spellName: string, targets: seq<T>): (r: SpellCast<T>)
      reads this
      ensures r.manaUsed == mana && r.spell == spellName && r.targets == targets && r.caster == name
    {
      SpellCast(name, spellName, targets, mana)
    }

    /** `channel_mana`: adds any amount, negative ones included, and reports the total. */
    method ChannelMana(amount: int) returns (r: Channel)
      modifies this
      ensures mana == old(mana) + amount
      ensures r.channeled == amount && r.totalMana == mana
    {
      mana := mana + amount;
      r := Channel(amount, mana);
    }

    function GetMagicStats(): (m: int)
      reads this
      ensures m == mana
    {
      mana
    }
  }

  datatype ElitePlay = ElitePlay(action: string, card: string, effect: string)
  datatype EliteAttack<T> = EliteAttack(attacker: string, target: T, damage: int, combatType: string)
  datatype Defense = Defense(defender: string, damageTaken: int, damageBlocked: int, stillAlive: bool)
  datatype CombatStats = CombatStats(attack: int, defense: int)
  datatype SpellCast<T> = SpellCast(caster: string, spell: string, targets: seq<T>, manaUsed: int)
  datatype Channel = Channel(channeled: int, totalMana: int)
}
