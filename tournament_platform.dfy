/** `TournamentPlatform`: a registry of tournament cards under generated ids,
    matches that move rating points from the loser to the winner, a leaderboard and
    a report. Ids have the form `base_NNN`, where `base` comes from the card name and
    `NNN` is one more than the number of ids already starting with `base`. */
module TournamentPlatforms {
  import opened Wrappers
  import opened Numerals
  import opened Sorting
  import opened TournamentCards
  import Strings
  import Seqs

  /** `card.name.lower().replace(" ", "_")`. */
  function BaseId(name: string): string
  {
    Strings.ReplaceAll(Strings.Lower(name), " ", "_")
  }

  /** `sum(1 for cid in ids if cid.startswith(base))`. */
  function CountPrefixed(ids: seq<string>, base: string): (n: nat)
    ensures n <= |ids|
  {
    if ids == [] then 0
    else CountPrefixed(ids[..|ids| - 1], base) + (if base <= ids[|ids| - 1] then 1 else 0)
  }

  /** `f"{base}_{n:03d}"`. */
  function MakeId(base: string, n: nat): string
  {
    base + "_" + Pad3(n)
  }

  /** The id `register_card` generates for `base` when `ids` are registered. */
  function NextId(ids: seq<string>, base: string): string
  {
    MakeId(base, CountPrefixed(ids, base) + 1)
  }

  /** Every registered id was generated from its card's base when it was registered. */
  ghost predicate Generated(ids: seq<string>, bases: seq<string>)
  {
    |ids| == |bases| && forall k {:trigger NextId(ids[..k], bases[k])} :: 0 <= k < |ids| ==> ids[k] == NextId(ids[..k], bases[k])
  }

  /** The index of the last `c` in `s`, or -1. */
  function LastIndex(s: string, c: char): (i: int)
    ensures -1 <= i < |s|
  {
    if s == [] then -1
    else if s[|s| - 1] == c then |s| - 1
    else LastIndex(s[..|s| - 1], c)
  }

  /** In `b + [c] + d` with no `c` in `d`, the last `c` is the one after `b`. */
  lemma {:induction false} LastIndexAfter(b: string, c: char, d: string)
    requires c !in d
    ensures LastIndex(b + [c] + d, c) == |b|
    decreases |d|
  {
    var s := b + [c] + d;
    if d != [] {
      assert s[|s| - 1] == d[|d| - 1];
      assert s[..|s| - 1] == b + [c] + d[..|d| - 1];
      LastIndexAfter(b, c, d[..|d| - 1]);
    }
  }

  /** A base followed by "_" and an underscore-free suffix splits in one way only:
      at the last underscore. */
  lemma SplitAtLastUnderscore(b1: string, d1: string, b2: string, d2: string)
    requires '_' !in d1 && '_' !in d2
    requires b1 + "_" + d1 == b2 + "_" + d2
    ensures b1 == b2 && d1 == d2
  {
    var s := b1 + "_" + d1;
    LastIndexAfter(b1, '_', d1);
    LastIndexAfter(b2, '_', d2);
    assert |b1| == |b2|;
    assert b1 == s[..|b1|] == b2;
    assert d1 == s[|b1| + 1..] == d2;
  }

  /** A padded number has no underscore. */
  lemma Pad3NoUnderscore(n: nat)
    ensures '_' !in Pad3(n)
  {
    var p := Pad3(n);
    assert forall k :: 0 <= k < |p| ==> IsDigit(p[k]);
  }

  /** Generated ids determine their base and their number. */
  lemma MakeIdInjective(b1: string, n1: nat, b2: string, n2: nat)
    requires MakeId(b1, n1) == MakeId(b2, n2)
    ensures b1 == b2 && n1 == n2
  {
    Pad3NoUnderscore(n1);
    Pad3NoUnderscore(n2);
    SplitAtLastUnderscore(b1, Pad3(n1), b2, Pad3(n2));
  }

  /** An id counted in a prefix of the registry is counted in the whole of it. */
  lemma {:induction false} CountPrefixedAt(ids: seq<string>, base: string, k: nat)
    requires k < |ids|
    ensures CountPrefixed(ids, base) >= CountPrefixed(ids[..k], base) + (if base <= ids[k] then 1 else 0)
  {
    var init := ids[..|ids| - 1];
    if k == |ids| - 1 {
      assert init == ids[..k];
    } else {
      CountPrefixedAt(init, base, k);
      assert init[..k] == ids[..k];
    }
  }

  /** The next id for any base is not yet registered: `register_card` never
      overwrites an entry. */
  lemma NextIdFresh(ids: seq<string>, bases: seq<string>, base: string)
    requires Generated(ids, bases)
    ensures NextId(ids, base) !in ids
  {
    forall k | 0 <= k < |ids|
      ensures ids[k] != NextId(ids, base)
    {
      assert ids[k] == NextId(ids[..k], bases[k]);
      LaterIdDiffers(ids, k, bases[k], base);
    }
  }

  /** An id generated from the first `k` ids is not the id generated next from all of them. */
  lemma LaterIdDiffers(ids: seq<string>, k: nat, earlier: string, base: string)
    requires k < |ids| && ids[k] == NextId(ids[..k], earlier)
    ensures ids[k] != NextId(ids, base)
  {
    if ids[k] == NextId(ids, base) {
      MakeIdInjective(earlier, CountPrefixed(ids[..k], earlier) + 1, base, CountPrefixed(ids, base) + 1);
      assert base <= ids[k];
      CountPrefixedAt(ids, base, k);
      assert false;
    }
  }

  /** Registering keeps every id generated. */
  lemma GeneratedExtend(ids: seq<string>, bases: seq<string>, base: string)
    requires Generated(ids, bases)
    ensures Generated(ids + [NextId(ids, base)], bases + [base])
  {
    var ids' := ids + [NextId(ids, base)];
    forall k | 0 <= k < |ids'|
      ensures ids'[k] == NextId(ids'[..k], (bases + [base])[k])
    {
      if k < |ids| {
        assert ids'[..k] == ids[..k];
      } else {
        assert ids'[..k] == ids;
      }
    }
  }

  /** The ids of the demonstration, and the prefix counting rule: "Fire" registered
      after "Fire Dragon" is counted against "fire_dragon_001". */
  lemma IdExamples()
    ensures NextId([], "fire_dragon") == "fire_dragon_001"
    ensures NextId(["fire_dragon_001"], "ice_wizard") == "ice_wizard_001"
    ensures NextId(["fire_dragon_001"], "fire") == "fire_002"
  {
    Pad3Examples();
    FirstIdCounts();
    MakeIdExamples();
  }

  lemma MakeIdExamples()
    ensures MakeId("fire_dragon", 1) == "fire_dragon_001"
    ensures MakeId("ice_wizard", 1) == "ice_wizard_001"
    ensures MakeId("fire", 2) == "fire_002"
  {
    Pad3Examples();
  }

  /** The prefix counts behind the second and third example ids. */
  lemma FirstIdCounts()
    ensures CountPrefixed(["fire_dragon_001"], "ice_wizard") == 0
    ensures CountPrefixed(["fire_dragon_001"], "fire") == 1
  {
    assert !("ice_wizard" <= "fire_dragon_001") by {
      assert "ice_wizard"[0] != "fire_dragon_001"[0];
    }
    assert "fire" <= "fire_dragon_001";
    assert ["fire_dragon_001"][..0] == [];
  }

  /** The match rule `atk1 + def1 + rating1 / 10 >= atk2 + def2 + rating2 / 10`,
      multiplied out by 10 so that it needs no division. */
  predicate FirstWins(a1: int, d1: int, r1: int, a2: int, d2: int, r2: int)
  {
    10 * (a1 + d1) + r1 >= 10 * (a2 + d2) + r2
  }

  /** The integer rule decides exactly as the exact-division score does. */
  lemma FirstWinsIsScoreOrder(a1: int, d1: int, r1: int, a2: int, d2: int, r2: int)
    ensures FirstWins(a1, d1, r1, a2, d2, r2) <==>
      (a1 + d1) as real + r1 as real / 10.0 >= (a2 + d2) as real + r2 as real / 10.0
  {
    var s1 := (a1 + d1) as real + r1 as real / 10.0;
    var s2 := (a2 + d2) as real + r2 as real / 10.0;
    assert 10.0 * s1 == (10 * (a1 + d1) + r1) as real;
    assert 10.0 * s2 == (10 * (a2 + d2) + r2) as real;
  }

  /** Python `int(a / b)` for `b > 0`: the quotient truncated toward zero. */
  function TruncDiv(a: int, b: int): (q: int)
    requires b > 0
    ensures a >= 0 ==> b * q <= a < b * (q + 1)
    ensures a < 0 ==> b * (q - 1) < a <= b * q
  {
    if a >= 0 then a / b else -((-a) / b)
  }

  /** The state of one card as the leaderboard and the report read it. */
  datatype Snapshot = Snapshot(id: string, name: string, rating: int, wins: int, losses: int)

  /** One leaderboard line; `record` is `f"{wins}-{losses}"`. */
  datatype LeaderEntry = LeaderEntry(id: string, name: string, rating: int, record: string)

  datatype MatchResult = MatchResult(winner: string, loser: string, winnerRating: int, loserRating: int)

  datatype Report = Report(totalCards: nat, matchesPlayed: int, avgRating: int, platformStatus: string)

  /** `sorted(..., key=rating, reverse=True)` is stable, so it is the stable
      ascending sort on the negated rating. */
  function RatingKey(s: Snapshot): Key
  {
    Key(-s.rating, 0)
  }

  /** The snapshots in leaderboard order: the same entries, ratings non-increasing,
      and entries of equal rating in registration order. */
  function ByRating(snaps: seq<Snapshot>): (sorted: seq<Snapshot>)
    ensures multiset(sorted) == multiset(snaps) && |sorted| == |snaps|
    ensures forall i, j :: 0 <= i < j < |sorted| ==> sorted[i].rating >= sorted[j].rating
    ensures forall k :: WithKey(sorted, RatingKey, k) == WithKey(snaps, RatingKey, k)
  {
    SortPermutes(snaps, RatingKey);
    SortSorted(snaps, RatingKey);
    forall k
      ensures WithKey(InsertionSort(snaps, RatingKey), RatingKey, k) == WithKey(snaps, RatingKey, k)
    {
      SortStable(snaps, RatingKey, k);
    }
    InsertionSort(snaps, RatingKey)
  }

  function Entry(s: Snapshot): LeaderEntry
  {
    LeaderEntry(s.id, s.name, s.rating, IntToString(s.wins) + "-" + IntToString(s.losses))
  }

  function Entries(snaps: seq<Snapshot>): (r: seq<LeaderEntry>)
    ensures |r| == |snaps| && forall k :: 0 <= k < |snaps| ==> r[k] == Entry(snaps[k])
  {
    if snaps == [] then [] else [Entry(snaps[0])] + Entries(snaps[1..])
  }

  function SumRatings(snaps: seq<Snapshot>): int
  {
    if snaps == [] then 0 else snaps[0].rating + SumRatings(snaps[1..])
  }

  /** The report's average: the mean rating truncated toward zero, 0 when empty. */
  function AverageRating(snaps: seq<Snapshot>): (avg: int)
    ensures snaps == [] ==> avg == 0
    ensures snaps != [] && SumRatings(snaps) >= 0 ==> |snaps| * avg <= SumRatings(snaps) < |snaps| * (avg + 1)
    ensures snaps != [] && SumRatings(snaps) < 0 ==> |snaps| * (avg - 1) < SumRatings(snaps) <= |snaps| * avg
  {
    if snaps == [] then 0 else TruncDiv(SumRatings(snaps), |snaps|)
  }

  /** The registry's bookkeeping: `ids` lists the keys of `cards` once each, and
      every id was generated from its base. */
  ghost predicate Indexed(cards: map<string, TournamentCard>, ids: seq<string>, bases: seq<string>)
  {
    Seqs.Distinct(ids) && (forall id :: id in cards <==> id in ids) && Generated(ids, bases)
  }

  /** Filing a card under the next id keeps the bookkeeping. */
  lemma RegisterKeepsIndex(cards: map<string, TournamentCard>, ids: seq<string>, bases: seq<string>, base: string, id: string, card: TournamentCard)
    requires Indexed(cards, ids, bases) && id == NextId(ids, base)
    ensures id !in cards
    ensures Indexed(cards[id := card], ids + [id], bases + [base])
  {
    NextIdFresh(ids, bases, base);
    GeneratedExtend(ids, bases, base);
  }

  /** The generator expression of `register_card` counting the registered ids that
      start with `base`. */
  method CountIdsWithPrefix(ids: seq<string>, base: string) returns (count: nat)
    ensures count == CountPrefixed(ids, base)
  {
    count := 0;
    var i := 0;
    while i < |ids|
      invariant 0 <= i <= |ids|
      invariant count == CountPrefixed(ids[..i], base)
    {
      assert ids[..i + 1][..i] == ids[..i];
      if base <= ids[i] {
        count := count + 1;
      }
      i := i + 1;
    }
    assert ids[..i] == ids;
  }

  /** The id `register_card` builds from the count of ids starting with `base`. */
  method GenerateId(ids: seq<string>, base: string) returns (id: string)
    ensures id == NextId(ids, base)
  {
    var count := CountIdsWithPrefix(ids, base);
    id := MakeId(base, count + 1);
  }

  /** The bookkeeping of a match on the chosen cards, which are the same object
      when a card is matched against itself. */
  method Settle(winner: TournamentCard, loser: TournamentCard, change: int)
    modifies winner, loser
    ensures winner.wins == old(winner.wins) + 1 && loser.losses == old(loser.losses) + 1
    ensures winner != loser ==>
      winner.rating == old(winner.rating) + change && loser.rating == old(loser.rating) - change &&
      winner.losses == old(winner.losses) && loser.wins == old(loser.wins)
    ensures winner == loser ==> winner.rating == old(winner.rating)
  {
    winner.rating := winner.rating + change;
    loser.rating := loser.rating - change;
    winner.UpdateWins(1);
    loser.UpdateLosses(1);
  }

  class TournamentPlatform {
    var cards: map<string, TournamentCard>
    /** The keys of `cards` in insertion order, which Python dicts keep. */
    var ids: seq<string>
    /** The base each id was generated from. */
    ghost var bases: seq<string>
    var matchesPlayed: int

    ghost predicate Valid()
      reads this
    {
      Indexed(cards, ids, bases)
    }

    constructor ()
      ensures Valid() && cards == map[] && ids == [] && matchesPlayed == 0
    {
      cards := map[];
      ids := [];
      bases := [];
      matchesPlayed := 0;
    }

    /** `register_card`: files the card under a new id generated from its name. The
        id was not registered before, so no entry is overwritten. */
    method RegisterCard(card: TournamentCard) returns (id: string)
      requires Valid()
      modifies this
      ensures Valid()
      ensures id == NextId(old(ids), BaseId(card.name))
      ensures id !in old(cards)
      ensures cards == old(cards)[id := card] && ids == old(ids) + [id]
      ensures matchesPlayed == old(matchesPlayed)
    {
      var base := BaseId(card.name);
      id := GenerateId(ids, base);
      RegisterKeepsIndex(cards, ids, bases, base, id, card);
      cards, ids, bases := cards[id := card], ids + [id], bases + [base];
    }

    /** `create_match`: the card with the higher score wins (the first on a tie) and
        takes `elo(winner rating, loser rating)` points from the loser; `elo` stands
        for `int(32 * (1 - expected score))`, a value in [0, 32]. */
    method CreateMatch(id1: string, id2: string, elo: (int, int) -> int) returns (r: Result<MatchResult, string>)
      requires Valid()
      requires forall w, l :: 0 <= elo(w, l) <= 32
      modifies this, cards.Values
      ensures Valid() && cards == old(cards) && ids == old(ids)
      ensures r.Err? <==> id1 !in cards || id2 !in cards
      ensures r.Err? ==> r.error == "One or both card ID doesn't exist" && matchesPlayed == old(matchesPlayed)
      ensures r.Err? ==> forall c :: c in cards.Values ==> c.rating == old(c.rating) && c.wins == old(c.wins) && c.losses == old(c.losses)
      ensures r.Ok? ==> matchesPlayed == old(matchesPlayed) + 1
      ensures r.Ok? ==>
        var c1, c2 := cards[id1], cards[id2];
        var first := FirstWins(c1.attackPower, c1.defensePower, old(c1.rating), c2.attackPower, c2.defensePower, old(c2.rating));
        var winner, loser := if first then c1 else c2, if first then c2 else c1;
        var change := elo(old(winner.rating), old(loser.rating));
        && r.value.winner == (if first then id1 else id2)
        && r.value.loser == (if first then id2 else id1)
        && r.value.winnerRating == winner.rating && r.value.loserRating == loser.rating
        && winner.wins == old(winner.wins) + 1 && loser.losses == old(loser.losses) + 1
        && (winner != loser ==>
             winner.rating == old(winner.rating) + change && loser.rating == old(loser.rating) - change &&
             winner.losses == old(winner.losses) && loser.wins == old(loser.wins))
        && (winner == loser ==> winner.rating == old(winner.rating))
      ensures r.Ok? ==> cards[id1].rating + cards[id2].rating == old(cards[id1].rating) + old(cards[id2].rating)
      ensures r.Ok? ==> forall c :: c in cards.Values && c != cards[id1] && c != cards[id2] ==>
        c.rating == old(c.rating) && c.wins == old(c.wins) && c.losses == old(c.losses)
    {
      if id1 !in cards || id2 !in cards {
        return Err("One or both card ID doesn't exist");
      }
      var c1 := cards[id1];
      var c2 := cards[id2];
      var first := FirstWins(c1.attackPower, c1.defensePower, c1.rating, c2.attackPower, c2.defensePower, c2.rating);
      var winner, loser := if first then c1 else c2, if first then c2 else c1;
      var change := elo(winner.rating, loser.rating);
      Settle(winner, loser, change);
      matchesPlayed := matchesPlayed + 1;
      r := Ok(MatchResult(if first then id1 else id2, if first then id2 else id1, winner.rating, loser.rating));
    }

    /** The registered cards in registration order. */
    function Snapshots(): (snaps: seq<Snapshot>)
      requires Valid()
      reads this, cards.Values
      ensures |snaps| == |ids| && forall k :: 0 <= k < |ids| ==> snaps[k].id == ids[k]
    {
      SnapshotsOf(ids)
    }

    function SnapshotsOf(keys: seq<string>): (snaps: seq<Snapshot>)
      requires forall k :: 0 <= k < |keys| ==> keys[k] in cards
      reads this, cards.Values
      ensures |snaps| == |keys|
      ensures forall k :: 0 <= k < |keys| ==> snaps[k].id == keys[k] && snaps[k].rating == cards[keys[k]].rating
    {
      if keys == [] then []
      else
        var c := cards[keys[0]];
        [Snapshot(keys[0], c.name, c.rating, c.wins, c.losses)] + SnapshotsOf(keys[1..])
    }

    /** `get_leaderboard`: every registered card, best rating first, ties in
        registration order. */
    function GetLeaderboard(): (board: seq<LeaderEntry>)
      requires Valid()
      reads this, cards.Values
      ensures board == Entries(ByRating(Snapshots()))
      ensures |board| == |ids|
      ensures forall i, j :: 0 <= i < j < |board| ==> board[i].rating >= board[j].rating
    {
      Entries(ByRating(Snapshots()))
    }

    /** `generate_tournament_report`. */
    function GenerateReport(): (rep: Report)
      requires Valid()
      reads this, cards.Values
      ensures rep.totalCards == |ids| && rep.matchesPlayed == matchesPlayed
      ensures rep.avgRating == AverageRating(Snapshots()) && rep.platformStatus == "active"
    {
      Report(|ids|, matchesPlayed, AverageRating(Snapshots()), "active")
    }
  }

  /** The bases of the two demonstration cards. */
  lemma BaseIdExamples(dragon: string, wizard: string)
    requires dragon == "Fire Dragon" && wizard == "Ice Wizard"
    ensures BaseId(dragon) == "fire_dragon" && BaseId(wizard) == "ice_wizard"
  {
    LowerFireDragon(dragon);
    LowerIceWizard(wizard);
    BaseIdOfTwoWords(dragon, "fire", "dragon");
    BaseIdOfTwoWords(wizard, "ice", "wizard");
  }

  lemma LowerFireDragon(name: string)
    requires name == "Fire Dragon"
    ensures Strings.Lower(name) == "fire" + " " + "dragon"
  {
    var low := Strings.Lower(name);
    assert low[..4] == "fire" by {
      assert low[0] == 'f' && low[1] == 'i' && low[2] == 'r' && low[3] == 'e';
    }
    assert low[4..5] == " " && low[5..] == "dragon";
    assert low == low[..4] + low[4..5] + low[5..];
  }

  lemma LowerIceWizard(name: string)
    requires name == "Ice Wizard"
    ensures Strings.Lower(name) == "ice" + " " + "wizard"
  {
    var low := Strings.Lower(name);
    assert low[..3] == "ice" by {
      assert low[0] == 'i' && low[1] == 'c' && low[2] == 'e';
    }
    assert low[3..4] == " " && low[4..] == "wizard";
    assert low == low[..3] + low[3..4] + low[4..];
  }

  /** A two-word name whose lower-cased words have no space. */
  lemma BaseIdOfTwoWords(name: string, first: string, second: string)
    requires Strings.Lower(name) == first + " " + second
    requires ' ' !in first && ' ' !in second
    ensures BaseId(name) == first + "_" + second
  {
    Strings.ReplaceCharFirst(first, ' ', second, "_");
    Strings.ReplaceCharAbsent(second, ' ', "_");
  }

  /** Two snapshots already in rating order stay in that order. */
  lemma ByRatingPair(a: Snapshot, b: Snapshot)
    requires a.rating >= b.rating
    ensures ByRating([a, b]) == [a, b]
  {
    SortTwo(a, b, RatingKey);
  }

  /** The demonstration's match: the Fire Dragon (80/60, rating 1200) beats the Ice
      Wizard (70/40, rating 1150) from either side; afterwards the leaderboard and the
      average are these, whatever the rating change in [0, 32]. */
  lemma DemoStandings(dragon: Snapshot, wizard: Snapshot, change: int)
    requires 0 <= change <= 32
    requires dragon == Snapshot("fire_dragon_001", "Fire Dragon", 1200 + change, 1, 0)
    requires wizard == Snapshot("ice_wizard_001", "Ice Wizard", 1150 - change, 0, 1)
    ensures Entries(ByRating([dragon, wizard])) ==
      [LeaderEntry("fire_dragon_001", "Fire Dragon", 1200 + change, "1-0"),
       LeaderEntry("ice_wizard_001", "Ice Wizard", 1150 - change, "0-1")]
    ensures AverageRating([dragon, wizard]) == 1175
    ensures FirstWins(80, 60, 1200, 70, 40, 1150) && !FirstWins(70, 40, 1150, 80, 60, 1200)
  {
    DemoBoard(dragon, wizard, change);
    SumRatingsPair(dragon, wizard);
  }

  lemma DemoBoard(dragon: Snapshot, wizard: Snapshot, change: int)
    requires 0 <= change <= 32
    requires dragon == Snapshot("fire_dragon_001", "Fire Dragon", 1200 + change, 1, 0)
    requires wizard == Snapshot("ice_wizard_001", "Ice Wizard", 1150 - change, 0, 1)
    ensures Entries(ByRating([dragon, wizard])) ==
      [LeaderEntry("fire_dragon_001", "Fire Dragon", 1200 + change, "1-0"),
       LeaderEntry("ice_wizard_001", "Ice Wizard", 1150 - change, "0-1")]
  {
    ByRatingPair(dragon, wizard);
    EntriesPair(dragon, wizard);
    RecordExamples(dragon.wins, dragon.losses);
  }

  /** The leaderboard lines of two snapshots. */
  lemma EntriesPair(a: Snapshot, b: Snapshot)
    ensures Entries([a, b]) == [Entry(a), Entry(b)]
  {
    assert [a, b][1..] == [b];
  }

  /** The records "1-0" and "0-1". */
  lemma RecordExamples(one: int, zero: int)
    requires one == 1 && zero == 0
    ensures IntToString(one) + "-" + IntToString(zero) == "1-0"
    ensures IntToString(zero) + "-" + IntToString(one) == "0-1"
  {
    assert IntToString(one) == "1" && IntToString(zero) == "0";
  }

  lemma SumRatingsPair(a: Snapshot, b: Snapshot)
    ensures SumRatings([a, b]) == a.rating + b.rating
  {
    assert [a, b][1..] == [b];
    assert SumRatings([b]) == b.rating by {
      assert [b][1..] == [];
    }
  }

  /** The registrations of the demonstration, on a fresh platform. */
  method RegisterDemoCards(dragon: TournamentCard, wizard: TournamentCard) returns (platform: TournamentPlatform, dragonId: string, wizardId: string)
    requires dragon.name == "Fire Dragon" && wizard.name == "Ice Wizard"
    ensures fresh(platform) && platform.Valid() && platform.matchesPlayed == 0
    ensures dragonId == "fire_dragon_001" && wizardId == "ice_wizard_001"
    ensures platform.ids == [dragonId, wizardId] && platform.cards == map[dragonId := dragon, wizardId := wizard]
  {
    platform := new TournamentPlatform();
    BaseIdExamples(dragon.name, wizard.name);
    IdExamples();
    dragonId := platform.RegisterCard(dragon);
    assert platform.ids == [dragonId] && platform.cards == map[dragonId := dragon];
    wizardId := platform.RegisterCard(wizard);
    assert platform.ids == [dragonId, wizardId] by {
      PairAppend(dragonId, wizardId);
    }
  }

  lemma PairAppend<T>(x: T, y: T)
    ensures [x] + [y] == [x, y]
  {
  }
}
