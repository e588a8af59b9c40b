/** `SpellCard`: a card with an effect type. Playing it deals its cost as damage;
    resolving it names the creature targets it affects. */
module SpellCards {
  import opened Card
  import opened CreatureCards
  import Numerals

  class SpellCard {
    const name: string
    const cost: int
    const rarity: string
    const effectType: string

    constructor (name: string, cost: int, rarity: string, effectType: string)
      ensures this.name == name && this.cost == cost && this.rarity == rarity
      ensures this.effectType == effectType
    {
      this.name := name;
      this.cost := cost;
      this.rarity := rarity;
      this.effectType := effectType;
    }

    /** The inherited `get_card_info`. */
    function Info(): CardInfo
    {
      BaseInfo(name, cost, rarity)
    }

    /** `play`: with an int mana of at least the cost, the spell deals its cost
        as damage of its effect type. */
    function Play(state: GameState): (r: PlayResult)
      ensures r.Played? <==> "mana" in state && state["mana"].VInt? && state["mana"].i >= cost
      ensures r.Played? ==> r.cardPlayed == name && r.manaUsed == cost
      ensures r.Played? ==> r.effect == "Deal " + Numerals.IntToString(cost) + " " + effectType + " to target"
      ensures !r.Played? ==> (r.MissingManaKey? <==> "mana" !in state)
    {
      PlayWith(name, cost, state, "Deal " + Numerals.IntToString(cost) + " " + effectType + " to target")
    }

    /** `resolve_effect`: the names of the creature targets, in target order. */
    method ResolveEffect(targets: seq<Target>) returns (r: Resolution)
      ensures r.affectedTargets == CreatureNames(targets)
      ensures r.status == "resolved"
    {
      var affected: seq<string> := [];
      var i := 0;
      while i < |targets|
        invariant 0 <= i <= |targets|
        invariant affected == CreatureNames(targets[..i])
      {
        assert targets[..i + 1] == targets[..i] + [targets[i]];
        CreatureNamesAppend(targets[..i], [targets[i]]);
        if targets[i].CreatureTarget? {
          affected := affected + [targets[i].creature.name];
        }
        i := i + 1;
      }
      assert targets[..i] == targets;
      r := Resolution("resolve_effect", affected, "resolved");
    }
  }

  datatype Resolution = Resolution(action: string, affectedTargets: seq<string>, status: string)

  /** The names of the creature targets, in order. */
  function CreatureNames(targets: seq<Target>): (names: seq<string>)
    ensures |names| <= |targets|
  {
    if targets == [] then []
    else (if targets[0].CreatureTarget? then [targets[0].creature.name] else []) + CreatureNames(targets[1..])
  }

  lemma {:induction false} CreatureNamesAppend(a: seq<Target>, b: seq<Target>)
    ensures CreatureNames(a + b) == CreatureNames(a) + CreatureNames(b)
  {
    if a == [] {
      assert a + b == b;
    } else {
      var head := if a[0].CreatureTarget? then [a[0].creature.name] else [];
      assert (a + b)[0] == a[0] && (a + b)[1..] == a[1..] + b;
      assert CreatureNames(a + b) == head + CreatureNames(a[1..] + b);
      CreatureNamesAppend(a[1..], b);
      assert head + (CreatureNames(a[1..]) + CreatureNames(b)) == (head + CreatureNames(a[1..])) + CreatureNames(b);
    }
  }

  /** One name per creature target: the affected list is as long as the number of
      creatures, and empty exactly when no target is a creature. */
  lemma {:induction false} CreatureNamesCount(targets: seq<Target>)
    ensures |CreatureNames(targets)| == CreatureCount(targets)
    ensures CreatureNames(targets) == [] <==> forall i :: 0 <= i < |targets| ==> targets[i].OtherTarget?
  {
    if targets != [] {
      CreatureNamesCount(targets[1..]);
      if targets[0].OtherTarget? {
        assert forall i :: 1 <= i < |targets| ==> targets[i] == targets[1..][i - 1];
      }
    }
  }

  function CreatureCount(targets: seq<Target>): nat
  {
    if targets == [] then 0 else (if targets[0].CreatureTarget? then 1 else 0) + CreatureCount(targets[1..])
  }
}
