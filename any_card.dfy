/** A card of any of the concrete kinds, as the heterogeneous Python lists hold
    them. Equality of two `AnyCard` values is identity of the card objects, which is
    what Python's `==` means for cards, since Card defines no `__eq__`. */
module AnyCards {
  import opened CreatureCards
  import opened SpellCards
  import opened ArtifactCards
  import opened EliteCards
  import opened TournamentCards
  import opened PyValues

  datatype AnyCard =
    | Creature(creature: CreatureCard)
    | Spell(spell: SpellCard)
    | Artifact(artifact: ArtifactCard)
    | Elite(elite: EliteCard)
    | Tournament(tournament: TournamentCard)

  function Name(c: AnyCard): string
  {
    match c
    case Creature(x) => x.name
    case Spell(x) => x.name
    case Artifact(x) => x.name
    case Elite(x) => x.name
    case Tournament(x) => x.name
  }

  function Cost(c: AnyCard): int
  {
    match c
    case Creature(x) => x.cost
    case Spell(x) => x.cost
    case Artifact(x) => x.cost
    case Elite(x) => x.cost
    case Tournament(x) => x.cost
  }

  /** The card as a target of a creature's attack or a spell. */
  function AsTarget(c: AnyCard): (t: Target)
    ensures t.CreatureTarget? <==> c.Creature?
    ensures c.Creature? ==> t.creature == c.creature
  {
    if c.Creature? then CreatureTarget(c.creature) else OtherTarget
  }

  /** Any Python object a list operation may be handed: a card or another value. */
  datatype Entity = CardEntity(card: AnyCard) | ValueEntity(value: Value)

  /** Python `x == card` for a card in a list: identity for cards, never for other values. */
  predicate Matches(x: Entity, c: AnyCard)
  {
    x.CardEntity? && x.card == c
  }
}
