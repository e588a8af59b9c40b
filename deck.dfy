/** `Deck`: an ordered list of cards changed in place by adding at the end,
    drawing from the front, removing a card and shuffling. */
module Decks {
  import opened Wrappers
  import opened AnyCards
  import opened PyValues
  import Seqs

  /** Index of the first card equal to `x` (Python `list.index`), or None (ValueError). */
  function IndexOf(cards: seq<AnyCard>, x: Entity): (r: Option<nat>)
    ensures r.Some? ==> r.value < |cards| && Matches(x, cards[r.value])
    ensures r.Some? ==> forall k :: 0 <= k < r.value ==> !Matches(x, cards[k])
    ensures r.None? ==> forall k :: 0 <= k < |cards| ==> !Matches(x, cards[k])
  {
    if cards == [] then None
    else if Matches(x, cards[0]) then Some(0)
    else match IndexOf(cards[1..], x)
      case None => None
      case Some(i) => Some(i + 1)
  }

  /** As written, `remove_card` hands a name to `list.index`, and a string is never
      equal to a card: no name ever finds a card, whatever the deck holds. */
  lemma NameNeverFound(cards: seq<AnyCard>, name: string)
    ensures IndexOf(cards, ValueEntity(VStr(name))).None?
  {
  }

  /** The index of the first card carrying `name`, what removing "by name" means. */
  function IndexOfName(cards: seq<AnyCard>, name: string): (r: Option<nat>)
    ensures r.Some? ==> r.value < |cards| && Name(cards[r.value]) == name
    ensures r.Some? ==> forall k :: 0 <= k < r.value ==> Name(cards[k]) != name
    ensures r.None? ==> forall k :: 0 <= k < |cards| ==> Name(cards[k]) != name
  {
    if cards == [] then None
    else if Name(cards[0]) == name then Some(0)
    else match IndexOfName(cards[1..], name)
      case None => None
      case Some(i) => Some(i + 1)
  }

  /** Removing the first card of a name takes exactly that one card out: the other
      cards stay, in order, and the deck holds one copy fewer of it. */
  lemma RemoveFirstNamed(cards: seq<AnyCard>, name: string, i: nat)
    requires IndexOfName(cards, name) == Some(i)
    ensures |cards[..i] + cards[i + 1..]| == |cards| - 1
    ensures multiset(cards[..i] + cards[i + 1..]) + multiset{cards[i]} == multiset(cards)
  {
    Seqs.RemoveAt(cards, i);
  }

  /** A deck holding the card "Fire Dragon": the name finds it at the front, yet
      `remove_card("Fire Dragon")` as written looks it up with `list.index` and
      finds nothing. */
  lemma RemoveByNameDemo(dragon: AnyCard)
    requires Name(dragon) == "Fire Dragon"
    ensures IndexOfName([dragon], "Fire Dragon") == Some(0)
    ensures IndexOf([dragon], ValueEntity(VStr("Fire Dragon"))).None?
  {
    NameNeverFound([dragon], "Fire Dragon");
  }

  /** `s` with the elements at `i` and `j` exchanged. */
  function Swap<T>(s: seq<T>, i: nat, j: nat): (r: seq<T>)
    requires i < |s| && j < |s|
    ensures |r| == |s| && multiset(r) == multiset(s)
  {
    s[i := s[j]][j := s[i]]
  }

  /** The swaps `random.shuffle` performs: for `i` from the last index down to 1,
      exchange position `i` with position `draws[i]`, a random index in `[0, i]`. */
  function ShuffleDown<T>(s: seq<T>, draws: seq<nat>, i: nat): (r: seq<T>)
    requires i < |s| == |draws|
    requires forall k :: 0 <= k < |draws| ==> draws[k] <= k
    decreases i
  {
    if i == 0 then s else ShuffleDown(Swap(s, i, draws[i]), draws, i - 1)
  }

  /** Shuffling only reorders: the same cards, as many times each. */
  lemma {:induction false} ShuffleDownPermutes<T>(s: seq<T>, draws: seq<nat>, i: nat)
    requires i < |s| == |draws|
    requires forall k :: 0 <= k < |draws| ==> draws[k] <= k
    ensures |ShuffleDown(s, draws, i)| == |s|
    ensures multiset(ShuffleDown(s, draws, i)) == multiset(s)
    decreases i
  {
    if i > 0 {
      ShuffleDownPermutes(Swap(s, i, draws[i]), draws, i - 1);
    }
  }

  predicate IsCreature(c: AnyCard) { c.Creature? }
  predicate IsSpell(c: AnyCard) { c.Spell? }
  predicate IsArtifact(c: AnyCard) { c.Artifact? }

  function TotalCost(cards: seq<AnyCard>): int
  {
    if cards == [] then 0 else Cost(cards[0]) + TotalCost(cards[1..])
  }

  /** `get_deck_stats`. The average is the exact mean cost; Python sums the float
      quotients `cost / total`. */
  datatype DeckStats = DeckStats(totalCards: nat, creatures: nat, spells: nat, artifacts: nat, avgCost: real)

  function Stats(cards: seq<AnyCard>): (st: DeckStats)
    ensures st.totalCards == |cards|
    ensures st.creatures + st.spells + st.artifacts <= st.totalCards
    ensures cards == [] ==> st.avgCost == 0.0
  {
    KindCountsBound(cards);
    DeckStats(|cards|, Seqs.Count(cards, IsCreature), Seqs.Count(cards, IsSpell), Seqs.Count(cards, IsArtifact),
      if |cards| == 0 then 0.0 else TotalCost(cards) as real / |cards| as real)
  }

  /** Each card is of at most one kind, so the three counts never exceed the length;
      they reach it exactly when the deck holds only creatures, spells and artifacts. */
  lemma {:induction false} KindCountsBound(cards: seq<AnyCard>)
    ensures Seqs.Count(cards, IsCreature) + Seqs.Count(cards, IsSpell) + Seqs.Count(cards, IsArtifact) <= |cards|
    ensures (Seqs.Count(cards, IsCreature) + Seqs.Count(cards, IsSpell) + Seqs.Count(cards, IsArtifact) == |cards|)
        <==> forall k :: 0 <= k < |cards| ==> cards[k].Creature? || cards[k].Spell? || cards[k].Artifact?
  {
    if cards != [] {
      KindCountsBound(cards[1..]);
      assert forall k :: 1 <= k < |cards| ==> cards[k] == cards[1..][k - 1];
    }
  }

  /** Adding a card raises exactly the count of its own kind. */
  lemma AddCardStats(cards: seq<AnyCard>, c: AnyCard)
    ensures Stats(cards + [c]).totalCards == Stats(cards).totalCards + 1
    ensures Stats(cards + [c]).creatures == Stats(cards).creatures + (if c.Creature? then 1 else 0)
    ensures Stats(cards + [c]).spells == Stats(cards).spells + (if c.Spell? then 1 else 0)
    ensures Stats(cards + [c]).artifacts == Stats(cards).artifacts + (if c.Artifact? then 1 else 0)
  {
    Seqs.CountAppend(cards, [c], IsCreature);
    Seqs.CountAppend(cards, [c], IsSpell);
    Seqs.CountAppend(cards, [c], IsArtifact);
  }

  class Deck {
    var cards: seq<AnyCard>

    constructor ()
      ensures cards == []
    {
      cards := [];
    }

    /** `add_card`: appends at the end. */
    method AddCard(c: AnyCard)
      modifies this
      ensures cards == old(cards) + [c]
    {
      cards := cards + [c];
    }

    /** `remove_card`: removes the first card equal to `x`, if any. A name string
        never equals a card, so passing a name always answers False. */
    method RemoveCard(x: Entity) returns (removed: bool)
      modifies this
      ensures removed <==> exists k :: 0 <= k < |old(cards)| && Matches(x, old(cards)[k])
      ensures removed ==> IndexOf(old(cards), x).Some?
      ensures removed ==> (var i := IndexOf(old(cards), x).value; cards == old(cards)[..i] + old(cards)[i + 1..])
      ensures !removed ==> cards == old(cards)
      ensures x.ValueEntity? ==> !removed
    {
      match IndexOf(cards, x)
      case None =>
        removed := false;
      case Some(i) =>
        cards := cards[..i] + cards[i + 1..];
        removed := true;
    }

    /** `remove_card` as its documentation intends: removes the first card whose
        name is `name` and answers whether there was one. */
    method RemoveByName(name: string) returns (removed: bool)
      modifies this
      ensures removed <==> exists k :: 0 <= k < |old(cards)| && Name(old(cards)[k]) == name
      ensures removed ==> IndexOfName(old(cards), name).Some?
      ensures removed ==> (var i := IndexOfName(old(cards), name).value; cards == old(cards)[..i] + old(cards)[i + 1..])
      ensures !removed ==> cards == old(cards)
    {
      match IndexOfName(cards, name)
      case None =>
        removed := false;
      case Some(i) =>
        cards := cards[..i] + cards[i + 1..];
        removed := true;
    }

    /** `shuffle`, with the random indices as a parameter: `draws[i]` is the index
        `random.shuffle` picks in `[0, i]` when it reaches position `i`. */
    method Shuffle(draws: seq<nat>)
      requires |draws| == |cards|
      requires forall k :: 0 <= k < |draws| ==> draws[k] <= k
      modifies this
      ensures |cards| == |old(cards)| && multiset(cards) == multiset(old(cards))
      ensures cards == if old(cards) == [] then [] else ShuffleDown(old(cards), draws, |old(cards)| - 1)
    {
      if cards != [] {
        ShuffleDownPermutes(cards, draws, |cards| - 1);
        cards := ShuffleDown(cards, draws, |cards| - 1);
      }
    }

    /** `draw_card`: takes the first card, or None from an empty deck. */
    method DrawCard() returns (c: Option<AnyCard>)
      modifies this
      ensures old(cards) == [] ==> c.None? && cards == []
      ensures old(cards) != [] ==> c == Some(old(cards)[0]) && cards == old(cards)[1..]
    {
      if |cards| > 0 {
        c := Some(cards[0]);
        cards := cards[1..];
      } else {
        c := None;
      }
    }

    function GetDeckStats(): (st: DeckStats)
      reads this
      ensures st == Stats(cards)
    {
      Stats(cards)
    }
  }
}
