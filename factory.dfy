/** `FantasyCardFactory`: a closed mapping from hints to freshly built cards. Only
    the hints "dragon" and "fireball" (ignoring case) select something other than
    the default card; any other hint, a non-string included, gets the default. */
module Factory {
  import opened PyValues
  import opened CreatureCards
  import opened SpellCards
  import opened ArtifactCards
  import Strings

  /** The constructor arguments of a creature, in `CreatureCard(...)` order. */
  datatype CreatureSpec = CreatureSpec(name: string, cost: int, rarity: string, attack: int, health: int)
  datatype SpellSpec = SpellSpec(name: string, cost: int, rarity: string, effectType: string)
  datatype ArtifactSpec = ArtifactSpec(name: string, cost: int, rarity: string, durability: int, effect: string)

  /** `isinstance(hint, str) and hint.lower() == word`. */
  predicate HintIs(hint: Value, word: string)
  {
    hint.VStr? && Strings.Lower(hint.s) == word
  }

  function CreatureFor(hint: Value): (spec: CreatureSpec)
    ensures HintIs(hint, "dragon") ==> spec == CreatureSpec("Fire Dragon", 5, "Rare", 5, 5)
    ensures !HintIs(hint, "dragon") ==> spec == CreatureSpec("Goblin Warrior", 2, "Common", 5, 2)
  {
    if HintIs(hint, "dragon") then CreatureSpec("Fire Dragon", 5, "Rare", 5, 5)
    else CreatureSpec("Goblin Warrior", 2, "Common", 5, 2)
  }

  function SpellFor(hint: Value): (spec: SpellSpec)
    ensures HintIs(hint, "fireball") ==> spec == SpellSpec("Fireball", 4, "Uncommon", "Fire")
    ensures !HintIs(hint, "fireball") ==> spec == SpellSpec("Lightning Bolt", 3, "Common", "Lightning")
  {
    if HintIs(hint, "fireball") then SpellSpec("Fireball", 4, "Uncommon", "Fire")
    else SpellSpec("Lightning Bolt", 3, "Common", "Lightning")
  }

  /** The creature hints the game engine passes: the case of a hint does not matter. */
  lemma EngineCreatureHints()
    ensures CreatureFor(VStr("Dragon")) == CreatureSpec("Fire Dragon", 5, "Rare", 5, 5)
    ensures CreatureFor(VStr("Goblin")) == CreatureSpec("Goblin Warrior", 2, "Common", 5, 2)
  {
    HintDragon("Dragon");
    HintGoblin();
  }

  /** Only the exact word selects the special creature; other values get the default. */
  lemma OtherCreatureHints()
    ensures CreatureFor(VStr("DRAGON")).name == "Fire Dragon"
    ensures CreatureFor(VStr("dragons")).name == "Goblin Warrior"
    ensures CreatureFor(VInt(7)).name == "Goblin Warrior"
    ensures CreatureFor(VNone).name == "Goblin Warrior"
  {
    HintDragon("DRAGON");
    HintDragons();
  }

  /** The spell hint the game engine passes gets the default; "fireball" in any case does not. */
  lemma SpellHints()
    ensures SpellFor(VStr("FIREBALL")).name == "Fireball"
    ensures SpellFor(VStr("Lightning Bolt")) == SpellSpec("Lightning Bolt", 3, "Common", "Lightning")
  {
    HintFireball();
    HintLightning();
  }

  /** The case-insensitive match of the hints used above. */
  lemma HintDragon(word: string)
    requires word == "Dragon" || word == "DRAGON"
    ensures HintIs(VStr(word), "dragon")
  {
    if word == "Dragon" {
      LowerDragon(word, "D", "ragon");
    } else {
      LowerDragon(word, "DRA", "GON");
    }
  }

  /** Lower-casing a spelling of "dragon" split in two. */
  lemma LowerDragon(word: string, front: string, back: string)
    requires (front == "D" && back == "ragon") || (front == "DRA" && back == "GON")
    requires word == front + back
    ensures Strings.Lower(word) == "dragon"
  {
    Strings.LowerAppend(front, back);
    if front == "D" {
      assert Strings.Lower(front) == "d";
      assert Strings.Lower(back) == "ragon";
    } else {
      assert Strings.Lower(front) == "dra";
      assert Strings.Lower(back) == "gon";
    }
  }

  lemma HintGoblin()
    ensures !HintIs(VStr("Goblin"), "dragon")
  {
    assert Strings.Lower("Goblin")[0] == 'g';
  }

  lemma HintDragons()
    ensures !HintIs(VStr("dragons"), "dragon")
  {
    assert |Strings.Lower("dragons")| == 7;
  }

  lemma HintFireball()
    ensures HintIs(VStr("FIREBALL"), "fireball")
  {
    LowerHalves("FIRE", "BALL");
    assert "FIREBALL" == "FIRE" + "BALL";
    assert "fireball" == "fire" + "ball";
  }

  /** Lower-casing distributes over the two halves of the word used above. */
  lemma LowerHalves(a: string, b: string)
    requires a == "FIRE" && b == "BALL"
    ensures Strings.Lower(a + b) == "fire" + "ball"
  {
    var low := Strings.Lower(a + b);
    assert low[..4] == "fire" by {
      assert low[0] == 'f' && low[1] == 'i' && low[2] == 'r' && low[3] == 'e';
    }
    assert low[4..] == "ball" by {
      assert low[4] == 'b' && low[5] == 'a' && low[6] == 'l' && low[7] == 'l';
    }
    assert low == low[..4] + low[4..];
  }

  lemma HintLightning()
    ensures !HintIs(VStr("Lightning Bolt"), "fireball")
  {
    assert |Strings.Lower("Lightning Bolt")| == 14;
  }

  /** The catalogue `get_supported_types` reports. */
  datatype SupportedTypes = SupportedTypes(creatures: seq<string>, spells: seq<string>, artifacts: seq<string>)

  class FantasyCardFactory {

    constructor ()
    {
    }

    /** `create_creature`: a new card, Fire Dragon for a "dragon" hint, else Goblin Warrior. */
    method CreateCreature(hint: Value) returns (c: CreatureCard)
      ensures fresh(c)
      ensures CreatureSpec(c.name, c.cost, c.rarity, c.attack, c.health) == CreatureFor(hint)
    {
      var spec := CreatureFor(hint);
      c := new CreatureCard(spec.name, spec.cost, spec.rarity, spec.attack, spec.health);
    }

    /** `create_spell`: a new card, Fireball for a "fireball" hint, else Lightning Bolt. */
    method CreateSpell(hint: Value) returns (c: SpellCard)
      ensures fresh(c)
      ensures SpellSpec(c.name, c.cost, c.rarity, c.effectType) == SpellFor(hint)
    {
      var spec := SpellFor(hint);
      c := new SpellCard(spec.name, spec.cost, spec.rarity, spec.effectType);
    }

    /** `create_artifact` ignores its hint: always a new Mana Ring. */
    method CreateArtifact(hint: Value) returns (c: ArtifactCard)
      ensures fresh(c)
      ensures ArtifactSpec(c.name, c.cost, c.rarity, c.durability, c.effect) == ArtifactSpec("Mana Ring", 3, "Uncommon", 5, "Mana")
    {
      c := new ArtifactCard("Mana Ring", 3, "Uncommon", 5, "Mana");
    }

    /** `create_themed_deck`: `size` new default creatures (none when `size <= 0`). */
    method CreateThemedDeck(size: int) returns (deck: seq<CreatureCard>)
      ensures |deck| == if size > 0 then size else 0
      ensures forall k :: 0 <= k < |deck| ==> fresh(deck[k])
      ensures forall k :: 0 <= k < |deck| ==> CreatureSpec(deck[k].name, deck[k].cost, deck[k].rarity, deck[k].attack, deck[k].health) == CreatureSpec("Goblin Warrior", 2, "Common", 5, 2)
      ensures forall j, k :: 0 <= j < k < |deck| ==> deck[j] != deck[k]
    {
      deck := [];
      var i := 0;
      while i < size
        invariant |deck| == i && i == (if size > 0 then i else 0)
        invariant size > 0 ==> 0 <= i <= size
        invariant forall k :: 0 <= k < |deck| ==> fresh(deck[k])
        invariant forall k :: 0 <= k < |deck| ==> CreatureSpec(deck[k].name, deck[k].cost, deck[k].rarity, deck[k].attack, deck[k].health) == CreatureSpec("Goblin Warrior", 2, "Common", 5, 2)
        invariant forall j, k :: 0 <= j < k < |deck| ==> deck[j] != deck[k]
      {
        var c := CreateCreature(VNone);
        deck := deck + [c];
        i := i + 1;
      }
    }

    function GetSupportedTypes(): (t: SupportedTypes)
      ensures t.creatures == ["dragon", "goblin"]
      ensures t.spells == ["fireball"] && t.artifacts == ["mana_ring"]
    {
      SupportedTypes(["dragon", "goblin"], ["fireball"], ["mana_ring"])
    }
  }

  /** Each advertised type, passed back as a hint, selects what it names: the two
      creature types build different creatures (the dragon one the Fire Dragon),
      and the spell type builds the Fireball rather than the default bolt. */
  lemma SupportedTypesSelect(f: FantasyCardFactory)
    ensures CreatureFor(VStr(f.GetSupportedTypes().creatures[0])).name == "Fire Dragon"
    ensures CreatureFor(VStr(f.GetSupportedTypes().creatures[1])).name == "Goblin Warrior"
    ensures SpellFor(VStr(f.GetSupportedTypes().spells[0])).name == "Fireball"
  {
    HintLowerDragon();
    HintLowerGoblin();
    HintLowerFireball();
  }

  lemma HintLowerDragon()
    ensures HintIs(VStr("dragon"), "dragon")
  {
    Strings.LowerOfLowercase("dragon");
  }

  lemma HintLowerGoblin()
    ensures !HintIs(VStr("goblin"), "dragon")
  {
    assert Strings.Lower("goblin")[0] == 'g';
  }

  lemma HintLowerFireball()
    ensures HintIs(VStr("fireball"), "fireball")
  {
    Strings.LowerOfLowercase("fireball");
  }
}
