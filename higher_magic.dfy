/** Combinators that build spells from spells. A spell takes one argument;
    the source's variadic forwarding is reduced to that single argument. */
module HigherMagic {

  /** `spell_combiner`: both spells applied to the same argument, as a pair. */
  function SpellCombiner<A(!new), B, C>(spell1: A -> B, spell2: A -> C): (combined: A -> (B, C))
    ensures forall x :: combined(x).0 == spell1(x) && combined(x).1 == spell2(x)
  {
    x => (spell1(x), spell2(x))
  }

  /** `power_amplifier`: the spell's result multiplied. */
  function PowerAmplifier<A(!new)>(baseSpell: A -> int, multiplier: int): (amplified: A -> int)
    ensures forall x :: amplified(x) == multiplier * baseSpell(x)
  {
    x => multiplier * baseSpell(x)
  }

  /** `conditional_caster`: the spell when the condition holds, otherwise
      "Spell fizzled". */
  function ConditionalCaster<A(!new)>(condition: A -> bool, spell: A -> string): (cast: A -> string)
    ensures forall x :: condition(x) ==> cast(x) == spell(x)
    ensures forall x :: !condition(x) ==> cast(x) == "Spell fizzled"
  {
    x => if condition(x) then spell(x) else "Spell fizzled"
  }

  /** The results of the spells, in order, on one argument. */
  function Results<A, B>(spells: seq<A -> B>, x: A): (rs: seq<B>)
    ensures |rs| == |spells|
    ensures forall i :: 0 <= i < |spells| ==> rs[i] == spells[i](x)
  {
    if spells == [] then [] else [spells[0](x)] + Results(spells[1..], x)
  }

  /** `spell_sequence`: every spell applied to the same argument. */
  function SpellSequence<A(!new), B>(spells: seq<A -> B>): (sequenced: A -> seq<B>)
    ensures forall x :: sequenced(x) == Results(spells, x)
  {
    x => Results(spells, x)
  }

  /** Amplifying twice multiplies the multipliers. */
  lemma AmplifyTwice<A(!new)>(baseSpell: A -> int, m: int, n: int, x: A)
    ensures PowerAmplifier(PowerAmplifier(baseSpell, m), n)(x) == (n * m) * baseSpell(x)
  {
    assert n * (m * baseSpell(x)) == (n * m) * baseSpell(x);
  }

  /** A sequence of two lists of spells is the two sequences, one after the other. */
  lemma {:induction false} SequenceAppend<A(!new), B>(fs: seq<A -> B>, gs: seq<A -> B>, x: A)
    ensures SpellSequence(fs + gs)(x) == SpellSequence(fs)(x) + SpellSequence(gs)(x)
  {
    var l := Results(fs + gs, x);
    var r := Results(fs, x) + Results(gs, x);
    assert |l| == |r|;
    forall i | 0 <= i < |l| ensures l[i] == r[i] {
      if i < |fs| { assert (fs + gs)[i] == fs[i]; } else { assert (fs + gs)[i] == gs[i - |fs|]; }
    }
  }

  /** Nesting casters tests both conditions: the inner spell is cast only
      when the outer and the inner condition hold, and fizzles otherwise. */
  lemma NestedCasters<A(!new)>(outer: A -> bool, inner: A -> bool, spell: A -> string, x: A)
    ensures ConditionalCaster(outer, ConditionalCaster(inner, spell))(x)
         == ConditionalCaster(y => outer(y) && inner(y), spell)(x)
  {
  }

  /** Combining two spells gives the same results as sequencing them, as a pair
      instead of a list. */
  lemma CombinerIsPairSequence<A(!new), B>(spell1: A -> B, spell2: A -> B, x: A)
    ensures SpellSequence([spell1, spell2])(x) == [SpellCombiner(spell1, spell2)(x).0, SpellCombiner(spell1, spell2)(x).1]
  {
  }

  /** The demonstration: an empty-name test, false on "Test", makes the
      fireball fizzle. */
  lemma FizzleDemo(fireball: string -> string)
    ensures ConditionalCaster((arg: string) => |arg| == 0, fireball)("Test") == "Spell fizzled"
  {
  }
}
