/** The achievement tracker: set algebra over the achievements of three players. */
module AchievementTracker {

  /** Every achievement of any of the three players. */
  function All(a: set<string>, b: set<string>, c: set<string>): (r: set<string>)
    ensures forall x :: x in r <==> Holders(x, a, b, c) >= 1
  {
    a + b + c
  }

  /** The achievements all three players share. */
  function Common(a: set<string>, b: set<string>, c: set<string>): (r: set<string>)
    ensures forall x :: x in r <==> Holders(x, a, b, c) == 3
  {
    a * b * c
  }

  /** All achievements minus those any two players share: exactly the ones a
      single player holds. */
  function Rare(a: set<string>, b: set<string>, c: set<string>): (r: set<string>)
    ensures forall x :: x in r <==> Holders(x, a, b, c) == 1
  {
    All(a, b, c) - (a * b) - (a * c) - (b * c)
  }

  /** How many of the three players hold an achievement. */
  function Holders(x: string, a: set<string>, b: set<string>, c: set<string>): nat
  {
    (if x in a then 1 else 0) + (if x in b then 1 else 0) + (if x in c then 1 else 0)
  }

  /** The pairwise comparison of two players: the ones only the first holds,
      the ones only the second holds, and the shared ones never overlap, and
      together they make up everything either holds. */
  lemma PairwiseDisjoint(a: set<string>, b: set<string>)
    ensures (a - b) * (b - a) == {}
    ensures (a - b) * (a * b) == {}
    ensures (b - a) * (a * b) == {}
    ensures (a - b) + (b - a) + (a * b) == a + b
  {
  }
}
