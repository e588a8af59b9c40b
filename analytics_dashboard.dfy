/** The game analytics dashboard: list, dictionary and set comprehensions over a
    dictionary of players, each with an optional score, active flag,
    achievement set and region. */
module AnalyticsDashboard {
  import opened Wrappers
  import Seqs

  /** A player's record; a field that is absent from the dictionary is None. */
  datatype Player = Player(score: Option<int>, active: Option<bool>,
                           achievements: Option<set<string>>, region: Option<string>)

  /** The players dictionary as its entries, in insertion order. */
  type Players = seq<(string, Player)>

  /** `player.get("score", 0)`, the key of `get_score`. */
  function Score(p: Player): int
  {
    if p.score.Some? then p.score.value else 0
  }

  /** `player.get("active", False)`. */
  predicate IsActive(p: Player)
  {
    p.active.Some? && p.active.value
  }

  /** `[name for name, player in players.items() if keep(player)]`. */
  function NamesWhere(ps: Players, keep: Player -> bool): (names: seq<string>)
    ensures |names| <= |ps|
    ensures forall n :: n in names <==> exists i :: 0 <= i < |ps| && ps[i].0 == n && keep(ps[i].1)
  {
    if ps == [] then []
    else
      var rest := NamesWhere(ps[1..], keep);
      assert forall i :: 0 <= i < |ps[1..]| ==> ps[1..][i] == ps[i + 1];
      (if keep(ps[0].1) then [ps[0].0] else []) + rest
  }

  /** The names are listed in dictionary order: the list for two parts of the
      dictionary is the two lists one after the other. */
  lemma {:induction false} NamesWhereAppend(a: Players, b: Players, keep: Player -> bool)
    ensures NamesWhere(a + b, keep) == NamesWhere(a, keep) + NamesWhere(b, keep)
  {
    if a == [] {
      assert a + b == b;
    } else {
      var head := if keep(a[0].1) then [a[0].0] else [];
      assert (a + b)[0] == a[0] && (a + b)[1..] == a[1..] + b;
      assert NamesWhere(a + b, keep) == head + NamesWhere(a[1..] + b, keep);
      NamesWhereAppend(a[1..], b, keep);
      assert head + (NamesWhere(a[1..], keep) + NamesWhere(b, keep)) == (head + NamesWhere(a[1..], keep)) + NamesWhere(b, keep);
    }
  }

  predicate IsHigh(p: Player) { Score(p) > 2000 }
  predicate IsMedium(p: Player) { 2000 > Score(p) > 1000 }
  predicate IsLow(p: Player) { 1000 > Score(p) > 0 }

  predicate HighEntry(e: (string, Player)) { IsHigh(e.1) }
  predicate MediumEntry(e: (string, Player)) { IsMedium(e.1) }
  predicate LowEntry(e: (string, Player)) { IsLow(e.1) }

  /** The high scorers: the players scoring above 2000, a missing score being 0. */
  function HighScorers(ps: Players): (names: seq<string>)
    ensures forall n :: n in names <==> exists i :: 0 <= i < |ps| && ps[i].0 == n && Score(ps[i].1) > 2000
  {
    NamesWhere(ps, IsHigh)
  }

  /** The active players' names. */
  function ActivePlayers(ps: Players): (names: seq<string>)
    ensures forall n :: n in names <==> exists i :: 0 <= i < |ps| && ps[i].0 == n && IsActive(ps[i].1)
  {
    NamesWhere(ps, IsActive)
  }

  /** Every player's score doubled, in dictionary order. */
  function ScoresDoubled(ps: Players): (r: seq<int>)
    ensures |r| == |ps|
    ensures forall i :: 0 <= i < |ps| ==> r[i] == 2 * Score(ps[i].1)
  {
    if ps == [] then [] else [2 * Score(ps[0].1)] + ScoresDoubled(ps[1..])
  }

  /** `{name: f(player) for name, player in players.items() if active}`: only
      active players appear, each with the value of its own entry. */
  function ActiveMap(ps: Players, f: Player -> int): (m: map<string, int>)
    ensures forall n :: n in m <==> exists i :: 0 <= i < |ps| && ps[i].0 == n && IsActive(ps[i].1)
    ensures forall n :: n in m ==> exists i :: 0 <= i < |ps| && ps[i].0 == n && IsActive(ps[i].1) && m[n] == f(ps[i].1)
  {
    if ps == [] then map[]
    else
      var init := ps[..|ps| - 1];
      var last := ps[|ps| - 1];
      assert forall i :: 0 <= i < |init| ==> init[i] == ps[i];
      var m := ActiveMap(init, f);
      if IsActive(last.1) then m[last.0 := f(last.1)] else m
  }

  /** The number of achievements, `len(player.get("achievements", {}))`. */
  function AchievementCount(p: Player): int
  {
    if p.achievements.Some? then |p.achievements.value| else 0
  }

  /** The scores dictionary of the active players. */
  function Scores(ps: Players): (m: map<string, int>)
    ensures forall n :: n in m <==> exists i :: 0 <= i < |ps| && ps[i].0 == n && IsActive(ps[i].1)
  {
    ActiveMap(ps, Score)
  }

  /** The achievement counts of the active players. */
  function AchievementCounts(ps: Players): (m: map<string, int>)
    ensures forall n :: n in m <==> exists i :: 0 <= i < |ps| && ps[i].0 == n && IsActive(ps[i].1)
    ensures forall n :: n in m ==> m[n] >= 0
  {
    ActiveMap(ps, AchievementCount)
  }

  /** The score categories: high above 2000, medium strictly between 1000 and
      2000, low strictly between 0 and 1000. */
  datatype Categories = Categories(high: nat, medium: nat, low: nat)

  /** `categories`: each count is the length of its own name comprehension, so
      `high` is the number of high scorers; together with the players in no
      category they account for every player exactly once. */
  function ScoreCategories(ps: Players): (c: Categories)
    ensures c.high == |HighScorers(ps)|
    ensures c.medium == |NamesWhere(ps, IsMedium)|
    ensures c.low == |NamesWhere(ps, IsLow)|
    ensures c.high + c.medium + c.low + Seqs.Count(ps, Uncategorised) == |ps|
  {
    CategoriesPartition(ps);
    NamesWhereCount(ps, IsHigh, HighEntry);
    NamesWhereCount(ps, IsMedium, MediumEntry);
    NamesWhereCount(ps, IsLow, LowEntry);
    Categories(Seqs.Count(ps, HighEntry), Seqs.Count(ps, MediumEntry), Seqs.Count(ps, LowEntry))
  }

  /** The length of a name comprehension is the number of entries it keeps. */
  lemma {:induction false} NamesWhereCount(ps: Players, keep: Player -> bool, entry: ((string, Player)) -> bool)
    requires forall e :: entry(e) == keep(e.1)
    ensures |NamesWhere(ps, keep)| == Seqs.Count(ps, entry)
  {
    if ps != [] {
      NamesWhereCount(ps[1..], keep, entry);
    }
  }

  /** A score of exactly 1000, exactly 2000, or at most 0 is in no category. */
  predicate Uncategorised(e: (string, Player))
  {
    Score(e.1) == 1000 || Score(e.1) == 2000 || Score(e.1) <= 0
  }

  /** Every player is in exactly one category or in none, and the ones in none
      are exactly those scoring 1000, 2000, or at most 0. */
  lemma {:induction false} CategoriesPartition(ps: Players)
    ensures Seqs.Count(ps, HighEntry) + Seqs.Count(ps, MediumEntry) + Seqs.Count(ps, LowEntry)
            + Seqs.Count(ps, Uncategorised) == |ps|
  {
    if ps != [] {
      CategoriesPartition(ps[1..]);
    }
  }

  /** The union of every player's achievements; indexing the field directly
      raises KeyError (None here) when some player has none. */
  function UniqueAchievements(ps: Players): (r: Option<set<string>>)
    ensures r.Some? <==> forall i :: 0 <= i < |ps| ==> ps[i].1.achievements.Some?
    ensures r.Some? ==> forall a :: a in r.value <==>
      exists i :: 0 <= i < |ps| && ps[i].1.achievements.Some? && a in ps[i].1.achievements.value
  {
    if ps == [] then Some({})
    else
      var rest := UniqueAchievements(ps[1..]);
      assert forall i :: 0 <= i < |ps[1..]| ==> ps[1..][i] == ps[i + 1];
      if ps[0].1.achievements.None? || rest.None? then None
      else Some(ps[0].1.achievements.value + rest.value)
  }

  /** `player.get("region", "no-region")`. */
  function Region(p: Player): string
  {
    if p.region.Some? then p.region.value else "no-region"
  }

  /** The regions of the active players. */
  function Regions(ps: Players): (r: set<string>)
    ensures forall g :: g in r <==> exists i :: 0 <= i < |ps| && IsActive(ps[i].1) && Region(ps[i].1) == g
  {
    if ps == [] then {}
    else
      var rest := Regions(ps[1..]);
      assert forall i :: 0 <= i < |ps[1..]| ==> ps[1..][i] == ps[i + 1];
      (if IsActive(ps[0].1) then {Region(ps[0].1)} else {}) + rest
  }

  /** `max(players.items(), key=get_score)`: the index of the first player with
      the greatest score; an empty dictionary raises ValueError (None here). */
  function TopPerformer(ps: Players): (r: Option<nat>)
    ensures r.Some? <==> ps != []
    ensures r.Some? ==> r.value < |ps|
    ensures r.Some? ==> forall j :: 0 <= j < |ps| ==> Score(ps[j].1) <= Score(ps[r.value].1)
    ensures r.Some? ==> forall j :: 0 <= j < r.value ==> Score(ps[j].1) < Score(ps[r.value].1)
  {
    if ps == [] then None
    else
      var init := ps[..|ps| - 1];
      assert forall i :: 0 <= i < |init| ==> init[i] == ps[i];
      var best := TopPerformer(init);
      if best.Some? && Score(ps[|ps| - 1].1) <= Score(init[best.value].1) then best
      else Some(|ps| - 1)
  }
}
