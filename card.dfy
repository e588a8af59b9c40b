/** The abstract `Card` of the DataDeck game: the name, cost and rarity every card
    has, the mana test `is_playable`, and the mana gate that the basic card kinds
    apply when they are played from a `game_state` dictionary. */
module Card {
  import opened PyValues

  /** The `game_state` dictionary passed to `play`. */
  type GameState = map<string, Value>

  /** `Card.get_card_info`: the three fields set by `Card.__init__`. */
  datatype CardInfo = CardInfo(name: string, cost: int, rarity: string)

  /** `Card.get_card_info`, which every kind of card inherits: the card's own
      name, cost and rarity. */
  function BaseInfo(name: string, cost: int, rarity: string): (info: CardInfo)
    ensures info.name == name && info.cost == cost && info.rarity == rarity
  {
    CardInfo(name, cost, rarity)
  }

  /** `Card.is_playable`: a card can be played with at least its cost in mana. */
  predicate IsPlayable(cost: int, availableMana: int)
  {
    availableMana >= cost
  }

  /** More mana never makes a playable card unplayable. */
  lemma PlayableMonotone(cost: int, m: int, more: int)
    requires IsPlayable(cost, m) && m <= more
    ensures IsPlayable(cost, more)
  {
  }

  /** The result of `play` for creatures, spells and artifacts: the played record,
      `{"success": False}`, or the KeyError raised when `game_state` has no "mana". */
  datatype PlayResult =
    | Played(cardPlayed: string, manaUsed: int, effect: string)
    | NotPlayed
    | MissingManaKey

  /** The shared body of the three basic `play` methods: the mana must be an
      `int` (exactly, so `True` does not pass) and at least the cost. */
  function PlayWith(name: string, cost: int, state: GameState, effect: string): (r: PlayResult)
    ensures r.MissingManaKey? <==> "mana" !in state
    ensures r.Played? <==> "mana" in state && state["mana"].VInt? && IsPlayable(cost, state["mana"].i)
    ensures r.Played? ==> r.cardPlayed == name && r.manaUsed == cost && r.effect == effect
  {
    if "mana" !in state then MissingManaKey
    else
      var mana := state["mana"];
      if mana.VInt? && IsPlayable(cost, mana.i) then Played(name, cost, effect) else NotPlayed
  }

  /** A play that succeeds with some mana succeeds with any larger mana. */
  lemma PlayMonotone(name: string, cost: int, effect: string, m: int, more: int)
    requires PlayWith(name, cost, map["mana" := VInt(m)], effect).Played?
    requires m <= more
    ensures PlayWith(name, cost, map["mana" := VInt(more)], effect) == Played(name, cost, effect)
  {
  }

  /** The play record in the situations the demos use: enough integer mana plays
      the card, too little or non-integer mana does not. */
  lemma PlayGateExamples(name: string, effect: string)
    ensures PlayWith(name, 5, map["mana" := VInt(6)], effect) == Played(name, 5, effect)
    ensures PlayWith(name, 5, map["mana" := VInt(4)], effect) == NotPlayed
    ensures PlayWith(name, 5, map["mana" := VStr("6")], effect) == NotPlayed
    ensures PlayWith(name, 1, map["mana" := VBool(true)], effect) == NotPlayed
    ensures PlayWith(name, 5, map[], effect) == MissingManaKey
  {
  }
}
