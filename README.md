# A Dafny model of the Python piscine exercises

This project models the behavioural core of a set of Python exercises and proves properties of that model. The exercises come from a course organised in modules.

- **module07, "DataDeck"**: a card game. It has creature, spell, artifact, elite and tournament cards, a deck, a card factory, an aggressive play strategy, a game engine and a tournament platform with generated ids, matches and a leaderboard.
- **module05**: stream processors, typed data streams and a stage pipeline with format adapters.
- **module01**: garden classes. These are plants that grow and age, a guarded plant, a plant factory and garden analytics with a garden network.
- **module02**: the error-handling exercises. They cover a temperature parser, custom garden errors, an ordered guard chain and a garden manager with a water tank.
- **module03**: collection exercises. They include score analytics over program arguments, coordinate parsing, achievement set algebra, an item inventory with a potion transfer, a player dashboard, and generators of game events, Fibonacci numbers and primes.
- **module00**: the seed-inventory line and the recursive harvest countdown.
- **module06**: the ingredient validator and the spellbook that records or rejects spells.
- **module09**: the cross-field rules of the space-mission and alien-contact records, with their declared field ranges.
- **module10**: sorting, filtering and mapping with lambdas, higher-order spell combinators, closures with captured state, reduction, memoised Fibonacci, type dispatch, and the name check, power gate and retry loop of the decorators.

The model follows each source file's own form:

- Objects whose methods update their fields are Dafny classes. Their `modifies` clauses name what changes, and their `ensures` clauses state the new state.
- Loops are methods with invariants, proved against specification functions.
- Pure computations are functions. The properties that relate several of them are lemmas.

Python values that the programs inspect dynamically are modelled by the `PyValues.Value` datatype. A missing key, a raised exception or a `None` result is an `Option` or a `Result` value.

Shared foundations:

- `Seqs`: filters, counts and occurrences.
- `Numerals`: `str(int)`, `int(str)` and zero padding, with their round trips.
- `Strings`: substring search, replace, split and join, and ASCII case mapping.
- `Sorting`: Python's stable sort on tuple keys, both as a function and in place on an array.

Most modules import only these and `Wrappers`; a few import each other:

- The module07 card modules import one another.
- `FunctoolsArtifacts` reuses the Fibonacci function of `GameStream`.
- `Spellbook` imports `Validator`.
- `LambdaSpells`, `TournamentPlatforms`, `Strategy` and `Engine` share `Sorting`.

## Model

| member | source | states |
|---|---|---|
| Card.PlayableMonotone | module07/ex0/Card.py:52-62 | a card playable with some mana stays playable with more mana |
| Card.PlayWith | module07/ex0/CreatureCard.py:46-54 | a missing `mana` key fails (Python's KeyError); the card is played iff the mana is a Python `int` (not a bool) and at least the cost, and then the result reports the card, the cost as mana used and the effect |
| Card.PlayMonotone | module07/ex0/CreatureCard.py:46-54 | a play that succeeds with some mana succeeds with more, with the same result |
| Card.PlayGateExamples | module07/ex0/CreatureCard.py:46-54 | mana 6 plays a cost-5 card, mana 4 does not, a string or a bool mana never plays, an empty state is a missing key |
| CreatureCards.CreatureCard.constructor | module07/ex0/CreatureCard.py:12-34 | non-positive health or attack becomes 0, positive values are kept; name, cost and rarity are stored |
| Card.BaseInfo | module07/ex0/Card.py:39-50 | the card info that every kind of card inherits carries that card's own name, cost and rarity |
| CreatureCards.CreatureCard.Play | module07/ex0/CreatureCard.py:36-54 | played iff the mana is an int at least the cost, with effect "Creature summoned to battlefield"; a failure is a missing key exactly when `mana` is absent |
| CreatureCards.CreatureCard.GetCardInfo | module07/ex0/CreatureCard.py:56-70 | the base info plus type "Creature" (the class name without "Card") and the current attack and health |
| CreatureCards.CreatureCard.AttackTarget | module07/ex0/CreatureCard.py:72-92 | against a creature: its health drops by the attack with no floor, and the result names both cards and says whether health reached 0 or below; any other target fails and nothing changes |
| AnyCards.AsTarget | module07/ex0/CreatureCard.py:82 | a card is an attackable creature target exactly when it is a creature card (the exact-type test) |
| SpellCards.SpellCard.constructor | module07/ex1/SpellCard.py:11-22 | the name, cost, rarity and effect type are stored as given |
| SpellCards.SpellCard.Play | module07/ex1/SpellCard.py:24-42 | played iff the mana is an int at least the cost; the effect is "Deal <cost> <effect type> to target" |
| SpellCards.SpellCard.ResolveEffect | module07/ex1/SpellCard.py:44-62 | the loop collects exactly the names of the creature targets, in order, and the status is "resolved" |
| SpellCards.CreatureNames | module07/ex1/SpellCard.py:44-62 | the affected names are never more than the targets |
| SpellCards.CreatureNamesAppend | module07/ex1/SpellCard.py:44-62 | resolving two target lists together names the union in order |
| SpellCards.CreatureNamesCount | module07/ex1/SpellCard.py:44-62 | as many names as creature targets; none iff no target is a creature |
| ArtifactCards.Activate | module07/ex1/ArtifactCard.py:48-68 | activation is "Active" iff durability is positive, and then durability drops by one; otherwise it is "Broken" and unchanged |
| ArtifactCards.ActivationsFromDurability | module07/ex1/ArtifactCard.py:48-68 | of k successive activations exactly the first `durability` ones are active |
| ArtifactCards.DurabilityNonIncreasing | module07/ex1/ArtifactCard.py:48-68 | durability never rises, never goes below 0 from a non-negative start, and after k activations is `max(d-k, 0)` |
| ArtifactCards.ArtifactCard.constructor | module07/ex1/ArtifactCard.py:12-26 | the fields are stored as given |
| ArtifactCards.ArtifactCard.Play | module07/ex1/ArtifactCard.py:28-46 | played iff the mana is an int at least the cost, with effect "Permanent: +1 <effect> per turn" |
| ArtifactCards.ArtifactCard.ActivateAbility | module07/ex1/ArtifactCard.py:48-68 | the new durability and the status are those of `Activate` on the old durability; the report shows the new durability |
| Decks.IndexOf | module07/ex1/Deck.py:38-39 | `list.index`: the index of the first matching card, or none when no card matches |
| Decks.Swap | module07/ex1/Deck.py:45-49 | one swap step of the shuffle keeps the length and the multiset of cards |
| Decks.ShuffleDownPermutes | module07/ex1/Deck.py:45-49 | the Fisher-Yates shuffle that `random.shuffle` performs, driven by any admissible draws, is a permutation |
| Decks.Stats | module07/ex1/Deck.py:62-83 | the total is the deck size; the three kind counts never exceed it; an empty deck has average cost 0 |
| Decks.KindCountsBound | module07/ex1/Deck.py:76-81 | creatures + spells + artifacts is at most the deck size, with equality iff every card is one of the three kinds |
| Decks.AddCardStats | module07/ex1/Deck.py:19-26 | adding a card raises the total by one and exactly the count of its own kind by one |
| Decks.Deck.constructor | module07/ex1/Deck.py:13-17 | a new deck is empty |
| Decks.Deck.AddCard | module07/ex1/Deck.py:19-26 | the card is appended at the end |
| Decks.Deck.RemoveCard | module07/ex1/Deck.py:28-43 | as written: answers True iff some card equals the argument, and then exactly the first such card is removed; otherwise the deck is unchanged; a name string never equals a card, so it always answers False |
| Decks.NameNeverFound | module07/ex1/Deck.py:38-39 | `list.index` called with a name finds no card in any deck, so `remove_card` as written never removes anything when given a name |
| Decks.RemoveByNameDemo | module07/ex1/Deck.py:28-43 | a deck holding the "Fire Dragon": its name is found at the front, yet the as-written lookup of "Fire Dragon" finds nothing |
| Decks.IndexOfName | module07/ex1/Deck.py:28-37 | the position of the first card carrying the name, or none when no card carries it |
| Decks.RemoveFirstNamed | module07/ex1/Deck.py:28-43 | removing the first card of the name shortens the deck by one and takes out exactly that card, the rest kept |
| Decks.Deck.RemoveByName | module07/ex1/Deck.py:28-43 | as documented: answers True iff some card has the name, and then exactly the first such card is removed; otherwise the deck is unchanged |
| Decks.Deck.Shuffle | module07/ex1/Deck.py:45-49 | the new deck is the Fisher-Yates result for the given draws, a permutation of the old deck |
| Decks.Deck.DrawCard | module07/ex1/Deck.py:51-60 | an empty deck gives None and stays empty; otherwise the first card is returned and removed |
| Decks.Deck.GetDeckStats | module07/ex1/Deck.py:62-83 | the statistics of the current cards, with the properties of `Decks.Stats` |
| EliteCards.EliteCard.constructor | module07/ex2/EliteCard.py:14-30 | all six fields are stored as given |
| EliteCards.EliteCard.WithDefaults | module07/ex2/EliteCard.py:14-30 | the optional arguments default to attack 5, defense 3 and mana 4 |
| EliteCards.EliteCard.Play | module07/ex2/EliteCard.py:32-45 | playing always succeeds, whatever the game state, with the fixed battlefield effect |
| EliteCards.EliteCard.Attack | module07/ex2/EliteCard.py:49-64 | a melee attack on the given target that deals the card's attack power |
| EliteCards.EliteCard.Defend | module07/ex2/EliteCard.py:66-82 | damage taken is `max(0, incoming - defense)`: never negative, never less than the excess; blocked is the defense; the card is always still alive |
| EliteCards.EliteCard.GetCombatStats | module07/ex2/EliteCard.py:84-94 | reports the card's attack power and defense |
| EliteCards.EliteCard.CastSpell | module07/ex2/EliteCard.py:96-112 | casting reports the whole current mana as used and leaves the mana unchanged |
| EliteCards.EliteCard.ChannelMana | module07/ex2/EliteCard.py:114-128 | the mana rises by the amount (no bound, no sign check) and the report shows the new total |
| EliteCards.EliteCard.GetMagicStats | module07/ex2/EliteCard.py:130-139 | reports the current mana |
| Factory.CreatureFor | module07/ex3/FantasyCardFactory.py:10-23 | a string hint equal to "dragon" ignoring case gives the Fire Dragon (5, Rare, 5/5); every other hint, including non-strings and None, gives the Goblin Warrior (2, Common, 5/2) |
| Factory.SpellFor | module07/ex3/FantasyCardFactory.py:25-38 | a string hint equal to "fireball" ignoring case gives Fireball (4, Uncommon, Fire); anything else gives Lightning Bolt (3, Common, Lightning) |
| Factory.EngineCreatureHints | module07/ex3/GameEngine.py:52-53 | the engine's "Dragon" hint gives the Fire Dragon and its "Goblin" hint the Goblin Warrior |
| Factory.OtherCreatureHints | module07/ex3/FantasyCardFactory.py:20-23 | "DRAGON" still gives the dragon; "dragons", an int and None give the goblin |
| Factory.SpellHints | module07/ex3/FantasyCardFactory.py:35-38 | "FIREBALL" gives Fireball; the engine's "Lightning Bolt" hint falls through to the Lightning Bolt default |
| Factory.FantasyCardFactory.CreateCreature | module07/ex3/FantasyCardFactory.py:10-23 | a fresh creature card with the fields `CreatureFor` chooses for the hint |
| Factory.FantasyCardFactory.CreateSpell | module07/ex3/FantasyCardFactory.py:25-38 | a fresh spell card with the fields `SpellFor` chooses for the hint |
| Factory.FantasyCardFactory.CreateArtifact | module07/ex3/FantasyCardFactory.py:40-50 | whatever the hint, a fresh Mana Ring (3, Uncommon, durability 5, Mana) |
| Factory.FantasyCardFactory.CreateThemedDeck | module07/ex3/FantasyCardFactory.py:52-64 | `size` distinct fresh Goblin Warriors (none for a size of 0 or below, as `range` gives) |
| Factory.FantasyCardFactory.GetSupportedTypes | module07/ex3/FantasyCardFactory.py:66-77 | the creature types are the list ["dragon", "goblin"] in that order, the spells ["fireball"] and the artifacts ["mana_ring"] |
| Factory.SupportedTypesSelect | module07/ex3/FantasyCardFactory.py:10-77 | every advertised type, passed back to the factory as a hint, selects what it names: "dragon" the Fire Dragon, "goblin" the Goblin Warrior, "fireball" the Fireball |
| Strategy.ScanPlaysChosen | module07/ex3/AggressiveStrategy.py:32-42 | the loop's played names, mana used and damage are those of the cards it chooses: each card whose cost fits the budget left when it is reached, with skipped cards not stopping the scan |
| Strategy.ScanWithinBudget | module07/ex3/AggressiveStrategy.py:27-34 | the mana used never exceeds the budget of 5 |
| Strategy.ScanTargets | module07/ex3/AggressiveStrategy.py:37-42 | every attacked target is "Enemy Player", and there is none iff no chosen card is a creature or a spell |
| Strategy.Dedup | module07/ex3/AggressiveStrategy.py:43 | `list(set(...))` keeps exactly the same members |
| Strategy.DedupEnemy | module07/ex3/AggressiveStrategy.py:43 | de-duplicating copies of "Enemy Player" leaves one copy, or none when there were none |
| Strategy.TurnReport | module07/ex3/AggressiveStrategy.py:32-44 | the turn report uses at most 5 mana, names the chosen cards, deals their damage and attacks ["Enemy Player"] exactly when a creature or spell was played |
| Strategy.EngineHand | module07/ex3/AggressiveStrategy.py:29-44 | creatures-first-then-cost sorts [Fire Dragon, Goblin Warrior, Lightning Bolt] to [Goblin, Dragon, Bolt], and the turn plays Goblin and Bolt for 5 mana and 8 damage |
| Strategy.AggressiveStrategy.ExecuteTurn | module07/ex3/AggressiveStrategy.py:10-44 | the hand is sorted in place by (not a creature, cost), stably, and the result is the report of the scan over the sorted hand |
| Strategy.AggressiveStrategy.GetStrategyName | module07/ex3/AggressiveStrategy.py:46-53 | the name is "AggressiveStrategy" |
| Strategy.AggressiveStrategy.PrioritizeTargets | module07/ex3/AggressiveStrategy.py:55-65 | whatever is available, the only target is "Enemy Player" |
| Engine.GameEngine.constructor | module07/ex3/GameEngine.py:15-23 | no factory and no strategy; all counters 0 |
| Engine.GameEngine.ConfigureEngine | module07/ex3/GameEngine.py:25-35 | factory and strategy are replaced and the counters kept |
| Engine.GameEngine.SimulateTurn | module07/ex3/GameEngine.py:37-73 | without a factory or a strategy it fails with "Engine not configured" and changes nothing; otherwise it plays Goblin Warrior and Lightning Bolt for 5 mana and 8 damage, counts 3 created cards and one more turn, and adds the damage to the total |
| Engine.GameEngine.GetEngineStatus | module07/ex3/GameEngine.py:75-88 | reports the counters, and the strategy name only when a strategy is set |
| Engine.PlayDealtHand | module07/ex3/GameEngine.py:51-67 | the dealt hand of three cards is played with the result above |
| Engine.DealHand | module07/ex3/GameEngine.py:51-54 | the hand is a fresh Fire Dragon, Goblin Warrior and Lightning Bolt in that order |
| Engine.DealCreature | module07/ex3/GameEngine.py:52-53 | asking the factory for "Dragon" yields the 5-cost Fire Dragon and for "Goblin" the 2-cost, 5-attack Goblin Warrior |
| Engine.DealSpell | module07/ex3/GameEngine.py:54 | asking the factory for "Lightning Bolt" yields the 3-cost Lightning Bolt |
| Engine.DealtTurn | module07/ex3/GameEngine.py:67 | sorting and scanning the dealt hand gives the 5-mana, 8-damage report |
| TournamentCards.TournamentCard.constructor | module07/ex4/TournamentCard.py:17-35 | the stats and an explicitly given rating are stored as given; wins and losses start at 0 |
| TournamentCards.TournamentCard.WithDefaultRating | module07/ex4/TournamentCard.py:17-35 | with the rating argument left out, the card starts at the default rating 1000, with no wins or losses |
| TournamentCards.TournamentCard.Play | module07/ex4/TournamentCard.py:37-51 | playing echoes the game state back under the card's name |
| TournamentCards.TournamentCard.Attack | module07/ex4/TournamentCard.py:53-71 | against a target with a defense the damage is `max(0, attack - defense)`, otherwise the full attack; the target is named by its `name` or "Unknown" |
| TournamentCards.TournamentCard.Defend | module07/ex4/TournamentCard.py:73-88 | damage taken is `max(0, incoming - defense)` and the defense is reported as mitigated |
| TournamentCards.TournamentCard.GetCombatStats | module07/ex4/TournamentCard.py:90-100 | reports attack and defense power |
| TournamentCards.TournamentCard.CalculateRating | module07/ex4/TournamentCard.py:102-109 | the rating is the stored rating, with no recomputation |
| TournamentCards.TournamentCard.UpdateWins | module07/ex4/TournamentCard.py:111-118 | wins rise by the argument; rating and losses are unchanged |
| TournamentCards.TournamentCard.UpdateLosses | module07/ex4/TournamentCard.py:120-127 | losses rise by the argument; rating and wins are unchanged |
| TournamentCards.TournamentCard.GetRankInfo | module07/ex4/TournamentCard.py:129-140 | reports the current rating, wins and losses |
| TournamentCards.TournamentCard.GetTournamentStats | module07/ex4/TournamentCard.py:142-154 | combines the card info, the combat stats and the rank info |
| TournamentPlatforms.CountPrefixed | module07/ex4/TournamentPlatform.py:30-31 | the number of ids that start with the base is at most the number of ids |
| TournamentPlatforms.LastIndex | module07/ex4/TournamentPlatform.py:32 | the position of the last separator lies within the id, or is -1 |
| TournamentPlatforms.LastIndexAfter | module07/ex4/TournamentPlatform.py:32 | in `base + "_" + digits` with no "_" among the digits, the last "_" is the one just after the base |
| TournamentPlatforms.SplitAtLastUnderscore | module07/ex4/TournamentPlatform.py:32 | two ids `base_digits` with underscore-free digit parts are equal only when base and digits are |
| TournamentPlatforms.Pad3NoUnderscore | module07/ex4/TournamentPlatform.py:32 | the `:03d` counter never contains "_" |
| TournamentPlatforms.MakeIdInjective | module07/ex4/TournamentPlatform.py:32 | distinct (base, counter) pairs give distinct ids |
| TournamentPlatforms.CountPrefixedAt | module07/ex4/TournamentPlatform.py:30-31 | the count over all ids is at least the count over the first k plus the k-th id's own match |
| TournamentPlatforms.GenerateId | module07/ex4/TournamentPlatform.py:29-32 | the generated id is the next id of the base: `base_NNN`, NNN one more than the number of ids starting with the base, which NextIdFresh shows is unused |
| TournamentPlatforms.NextIdFresh | module07/ex4/TournamentPlatform.py:29-34 | when every registered id was generated this way, the next id is not already registered, so registering never overwrites a card |
| TournamentPlatforms.GeneratedExtend | module07/ex4/TournamentPlatform.py:29-34 | registering keeps every id generated from its card's base |
| TournamentPlatforms.IdExamples | module07/ex4/TournamentPlatform.py:29-32 | the first Fire Dragon is "fire_dragon_001", then the first Ice Wizard is "ice_wizard_001", and a "fire" card after one fire dragon is "fire_002" |
| TournamentPlatforms.FirstWinsIsScoreOrder | module07/ex4/TournamentPlatform.py:54-58 | the first card wins iff attack + defense + rating/10 is at least the second card's score (ties go to the first card) |
| TournamentPlatforms.TruncDiv | module07/ex4/TournamentPlatform.py:113-118 | `int(total / n)` truncates toward zero, for negative totals too |
| TournamentPlatforms.ByRating | module07/ex4/TournamentPlatform.py:90-94 | `sorted(..., reverse=True)` by rating: a permutation, ratings non-increasing, and cards of equal rating in registration order |
| TournamentPlatforms.Entries | module07/ex4/TournamentPlatform.py:95-103 | one leaderboard entry per card, in order |
| TournamentPlatforms.AverageRating | module07/ex4/TournamentPlatform.py:112-118 | 0 with no cards; otherwise the mean rating truncated toward zero |
| TournamentPlatforms.RegisterKeepsIndex | module07/ex4/TournamentPlatform.py:29-34 | the new id is not a key yet, and the card map still indexes exactly the generated ids |
| TournamentPlatforms.CountIdsWithPrefix | module07/ex4/TournamentPlatform.py:30-31 | the loop counts exactly the ids that start with the base |
| TournamentPlatforms.Settle | module07/ex4/TournamentPlatform.py:68-72 | the winner gains the change and a win, the loser loses the change and gains a loss; a card matched against itself keeps its rating |
| TournamentPlatforms.TournamentPlatform.constructor | module07/ex4/TournamentPlatform.py:12-17 | no cards and no matches |
| TournamentPlatforms.TournamentPlatform.RegisterCard | module07/ex4/TournamentPlatform.py:19-35 | the id is `base_NNN`, where NNN is one more than the number of ids starting with the lower-cased, underscored name; it is new; the card is added under it and nothing else changes |
| TournamentPlatforms.TournamentPlatform.CreateMatch | module07/ex4/TournamentPlatform.py:37-81 | an unknown id fails with "One or both card ID doesn't exist" and changes nothing; otherwise the higher score wins (ties to the first card), ratings move by the Elo change in opposite directions so their sum is kept, the winner and loser records and the match count rise by one, no other card changes, and the result names winner and loser with their new ratings |
| TournamentPlatforms.TournamentPlatform.Snapshots | module07/ex4/TournamentPlatform.py:90-91 | one snapshot per registered card, in registration order |
| TournamentPlatforms.TournamentPlatform.SnapshotsOf | module07/ex4/TournamentPlatform.py:90-91 | each snapshot carries its id and its card's current rating |
| TournamentPlatforms.TournamentPlatform.GetLeaderboard | module07/ex4/TournamentPlatform.py:83-103 | the entries of the cards sorted by rating, highest first: one per card, ratings non-increasing |
| TournamentPlatforms.TournamentPlatform.GenerateReport | module07/ex4/TournamentPlatform.py:105-120 | the card count, the match count, the truncated average rating and the status "active" |
| TournamentPlatforms.BaseIdExamples | module07/ex4/TournamentPlatform.py:29 | "Fire Dragon" gives "fire_dragon" and "Ice Wizard" gives "ice_wizard" |
| TournamentPlatforms.BaseIdOfTwoWords | module07/ex4/TournamentPlatform.py:29 | a two-word name gives its lower-cased words joined by "_" |
| TournamentPlatforms.ByRatingPair | module07/ex4/TournamentPlatform.py:90-94 | two cards already in rating order keep their order |
| TournamentPlatforms.DemoStandings | module07/ex4/TournamentPlatform.py:54-120 | after the dragon (80/60, 1200) beats the wizard (70/40, 1150), the dragon leads at 1-0, the wizard follows at 0-1, and the average is 1175 whatever the Elo change |
| TournamentPlatforms.RegisterDemoCards | module07/ex4/TournamentPlatform.py:19-35 | registering the dragon and then the wizard gives ids "fire_dragon_001" and "ice_wizard_001" |
| StreamProcessors.FormatOutput | module05/ex0/stream_processor.py:52-59 | the output is the result behind the fixed 8-character prefix "Output: " |
| StreamProcessors.ValidateNumeric | module05/ex0/stream_processor.py:98-110 | the loop accepts exactly a list whose every element is a Python `int` (a bool is not) |
| StreamProcessors.Sum | module05/ex0/stream_processor.py:89 | `sum` succeeds iff every element is a number (bools count as 0 or 1) |
| Seqs.SumAppend | module05/ex0/stream_processor.py:89 | the total of a concatenation is the sum of the totals |
| StreamProcessors.SumOfInts | module05/ex0/stream_processor.py:89 | on a list of ints, `sum` is the arithmetic total |
| StreamProcessors.ProcessNumeric | module05/ex0/stream_processor.py:79-96 | `sum` and `len` iterate the data, so it succeeds iff the data is a non-empty list whose items `sum` accepts or a non-empty dict whose keys `sum` accepts, reporting their count and sum; a string or a non-iterable value always fails, and every failure, including the division by zero on no elements, becomes "Data is not an array of int" |
| StreamProcessors.DictSumsKeys | module05/ex0/stream_processor.py:87-90 | a dict is summed over its keys whatever its values: `{1: "a", True: "b"}` processes to count 2 and sum 2 |
| StreamProcessors.ValidNumericProcesses | module05/ex0/stream_processor.py:79-110 | data that validates and is non-empty processes to its count and arithmetic total |
| StreamProcessors.ValidateAndProcessDiffer | module05/ex0/stream_processor.py:79-110 | validation and processing disagree: `[True, 2]` is rejected but processes to sum 3, and `[]` validates but fails to process |
| StreamProcessors.ProcessText | module05/ex0/stream_processor.py:130-146 | the loop counts every character, and the words as one more than the spaces |
| StreamProcessors.ProcessLog | module05/ex0/stream_processor.py:175-188 | a non-string entry reports "Invalid log: " and its text |
| StreamProcessors.FormatLog | module05/ex0/stream_processor.py:202-212 | "[ALERT]" iff the result contains "ERROR", otherwise "[INFO]" |
| StreamProcessors.PlainLogUnchanged | module05/ex0/stream_processor.py:183-187 | a string with neither tag comes back unchanged |
| StreamProcessors.ErrorLogAlerts | module05/ex0/stream_processor.py:183-212 | a log starting with "ERROR:" is rewritten to start "ERROR level detected:" and formats as an alert |
| DataStreams.DataStream.constructor | module05/ex1/data_stream.py:10-17 | the id is stored and the status is "active" |
| DataStreams.DataStream.GetStats | module05/ex1/data_stream.py:49-60 | the id, the status "active" and the stream's class name |
| DataStreams.BaseFilter | module05/ex1/data_stream.py:31-47 | a falsy criterion keeps the batch; otherwise exactly the items whose text contains the criterion's text are kept |
| DataStreams.SensorFilter | module05/ex1/data_stream.py:88-103 | the "critical" criterion keeps exactly the items whose text contains "alert" or "crit"; any other criterion falls back to the base filter |
| DataStreams.SensorFilterAppend | module05/ex1/data_stream.py:100-102 | filtering a concatenation is concatenating the filtered parts |
| DataStreams.ParseTransaction | module05/ex1/data_stream.py:119-122 | items that are not strings or have no ":" are skipped; a parsed item is `action:number` |
| DataStreams.NetFlowIsBuysMinusSells | module05/ex1/data_stream.py:118-126 | the batch fails iff some item fails to unpack or parse; otherwise the net flow is the buys minus the sells |
| DataStreams.SignedText | module05/ex1/data_stream.py:128-130 | "+" before a non-negative flow, "-" before a negative one, then the magnitude |
| DataStreams.ProcessTransactions | module05/ex1/data_stream.py:109-130 | the loop fails with the first item's error, or reports the item count and the signed net flow |
| DataStreams.NetFlowErrSticks | module05/ex1/data_stream.py:119-122 | once an item raises, the rest of the batch cannot change the outcome |
| DataStreams.TransactionFilter | module05/ex1/data_stream.py:132-146 | a criterion other than "high_value" keeps the batch; "high_value" fails unless every item splits and parses, and otherwise keeps exactly the items worth more than 500 |
| DataStreams.ProcessEvents | module05/ex1/data_stream.py:152-163 | the report gives the number of events and, as `data_batch.count("error")`, the exact number of items equal to "error" (their multiplicity in the batch) |
| DataStreams.DemoNetFlow | module05/ex1/data_stream.py:208-211 | buy 100, sell 150, buy 75 nets +25 |
| DataStreams.FoldThree | module05/ex1/data_stream.py:118-126 | three parsed items fold to their signed total |
| DataStreams.DemoEvents | module05/ex1/data_stream.py:161-163 | login, error, logout has one error and reports 3 events with 1 error |
| DataStreams.NetFlowSnoc | module05/ex1/data_stream.py:119-126 | one more item takes one more loop step from the running total |
| DataStreams.BuySellItem | module05/ex1/data_stream.py:121-122 | `action:digits` parses back to the action and the number |
| NexusPipelines.UpperValues | module05/ex2/nexus_pipeline.py:16-20 | the transform upper-cases the text of every value and keeps the keys |
| NexusPipelines.RunAppend | module05/ex2/nexus_pipeline.py:40-43 | no stages return the data; running two stage lists runs the second on the first's output, and the first error stops the run |
| NexusPipelines.BuiltInStagesSucceed | module05/ex2/nexus_pipeline.py:11-25 | the input, transform and output stages never raise |
| NexusPipelines.Output | module05/ex2/nexus_pipeline.py:50-103 | the JSON and CSV adapters prefix "[JSON:id] " or "[CSV:id] ", and the stream adapter returns the result or None on an error |
| NexusPipelines.Pipeline.constructor | module05/ex2/nexus_pipeline.py:29-35 | no stages, no runs, no errors |
| NexusPipelines.Pipeline.AddStage | module05/ex2/nexus_pipeline.py:37-38 | the stage is appended and the counters are kept |
| NexusPipelines.Pipeline.RunStages | module05/ex2/nexus_pipeline.py:40-43 | the loop feeds each stage the previous output and equals `Run` |
| NexusPipelines.Pipeline.Process | module05/ex2/nexus_pipeline.py:55-65 | a successful run adds one run, a failed one adds one error, and the output is the adapter's rendering of the outcome |
| NexusPipelines.RunErrSticks | module05/ex2/nexus_pipeline.py:40-43 | once a prefix of the stages raises, the whole run gives the same error |
| NexusPipelines.NexusManager.constructor | module05/ex2/nexus_pipeline.py:107-108 | no pipelines |
| NexusPipelines.NexusManager.AddPipeline | module05/ex2/nexus_pipeline.py:110-111 | the pipeline is appended |
| NexusPipelines.NexusManager.Process | module05/ex2/nexus_pipeline.py:113-117 | the result is the chain of pipelines applied in order, and each pipeline's runs plus errors rise by the number of times it occurs in the chain |
| NexusPipelines.NexusManager.Stats | module05/ex2/nexus_pipeline.py:119-120 | one (runs, errors) entry per pipeline, in order |
| NexusPipelines.StatsOf | module05/ex2/nexus_pipeline.py:119-120 | one (runs, errors) entry per pipeline, in order |
| NexusPipelines.InputThenTransform | module05/ex2/nexus_pipeline.py:11-20 | input then transform gives `{"input": TEXT}` upper-cased, and the JSON adapter prefixes it |
| NexusPipelines.TransformThenOutput | module05/ex2/nexus_pipeline.py:16-25 | transform leaves a string alone, and output gives "OUTPUT -> text" |
| GardenAnalytics.Plant.constructor | module01/ex6/ft_garden_analytics.py:11-15 | name, height, age and the plant's class are stored |
| GardenAnalytics.Plant.Grow | module01/ex6/ft_garden_analytics.py:17-20 | the plant grows by exactly 1 cm |
| GardenAnalytics.GardenCounter.constructor | module01/ex6/ft_garden_analytics.py:50 | the class-wide garden count starts at 0 |
| GardenAnalytics.Garden.constructor | module01/ex6/ft_garden_analytics.py:53-60 | a new garden has no plants and zeroed counters, and the class-wide count rises by one |
| GardenAnalytics.Garden.AddPlant | module01/ex6/ft_garden_analytics.py:62-66 | the plant is appended and counted; the total growth is kept |
| GardenAnalytics.Garden.GrowAll | module01/ex6/ft_garden_analytics.py:68-73 | every plant grows once per occurrence in the list, and the total growth rises by the number of plants |
| GardenAnalytics.Classify | module01/ex6/ft_garden_analytics.py:106-119 | the three counts classify each plant by its exact class and add up to the number of plants |
| GardenAnalytics.GetStats | module01/ex6/ft_garden_analytics.py:106-119 | the loop's counts are those of `Classify` |
| GardenAnalytics.GardenScore | module01/ex6/ft_garden_analytics.py:122-127 | every plant counted adds between 10 and 100 points, so the score lies between 10 and 100 times the number of plants |
| GardenAnalytics.ScoreIsWeightSum | module01/ex6/ft_garden_analytics.py:121-127 | the weighted score is the sum of each plant's weight: 10 regular, 50 flowering, 100 prize |
| GardenAnalytics.GardenManager.constructor | module01/ex6/ft_garden_analytics.py:89-91 | no gardens |
| GardenAnalytics.GardenManager.AddGarden | module01/ex6/ft_garden_analytics.py:98-100 | the garden is stored under its name, replacing any garden of that name |
| GardenAnalytics.GardenManager.CreateGardenNetwork | module01/ex6/ft_garden_analytics.py:93-96 | the gardens are added in order |
| GardenAnalytics.GardenManager.GetGarden | module01/ex6/ft_garden_analytics.py:102-104 | the garden stored under the name, or None iff there is none |
| GardenAnalytics.AddAllLastWins | module01/ex6/ft_garden_analytics.py:93-100 | after adding several gardens, a name maps to the last garden of that name, and names not added keep their old entry |
| GardenAnalytics.AliceDemo | module01/ex6/ft_garden_analytics.py:134-178 | Alice's oak, rose and sunflower grow to 101, 26 and 51 cm, with 3 added, growth 3, one plant of each class, and score 160 |
| GardenSecurity.SecurePlant.constructor | module01/ex4/ft_garden_security.py:38-43 | the initial values are stored unchecked |
| GardenSecurity.SecurePlant.SetHeight | module01/ex4/ft_garden_security.py:6-16 | a negative height is rejected and nothing changes; otherwise the height is replaced; the age is never touched; a non-negative height stays non-negative |
| GardenSecurity.SecurePlant.SetAge | module01/ex4/ft_garden_security.py:18-28 | a negative age is rejected and nothing changes; otherwise the age is replaced; the height is never touched |
| GardenSecurity.SecurePlant.GetHeight | module01/ex4/ft_garden_security.py:34-36 | the current height |
| GardenSecurity.SecurePlant.GetAge | module01/ex4/ft_garden_security.py:30-32 | the current age |
| GardenSecurity.SecurityDemo | module01/ex4/ft_garden_security.py:46-53 | after the rejected -5 cm, the rose still has 25 cm and 30 days |
| GardenSecurity.GuardedUpdates | module01/ex4/ft_garden_security.py:6-28 | each setter takes a non-negative value and keeps the old value otherwise |
| PlantFactory.CreatePlants | module01/ex3/ft_plant_factory.py:18-20 | one plant per tuple, in order, with its name, height and days |
| PlantFactory.CreatePlantsAppend | module01/ex3/ft_plant_factory.py:18-20 | creating from two lists is concatenating the results |
| PlantFactory.FactoryDemo | module01/ex3/ft_plant_factory.py:25-33 | the five demo tuples give five plants |
| PlantGrowth.Plant.constructor | module01/ex2/ft_plant_growth.py:4-7 | the fields are stored as given |
| PlantGrowth.Plant.Grow | module01/ex2/ft_plant_growth.py:9-10 | the height rises by the argument and the age is kept |
| PlantGrowth.Plant.Age | module01/ex2/ft_plant_growth.py:12-14 | ageing by d days also grows the plant by d cm |
| PlantGrowth.Plant.GetInfo | module01/ex2/ft_plant_growth.py:16-18 | returns the current height |
| PlantGrowth.GrowthOver | module01/ex2/ft_plant_growth.py:23-26 | the growth measured across `age(d)` is d |
| PlantGrowth.WeekDemo | module01/ex2/ft_plant_growth.py:21-27 | the rose (20 cm, 30 days) aged 6 days grows 6 to 26 cm and is 36 days old |
| GardenManagement.Plant.constructor | module02/ex5/ft_garden_management.py:24-30 | a named plant stores its water and sunlight levels |
| GardenManagement.Health | module02/ex5/ft_garden_management.py:53-65 | healthy iff water is in 1..10 and sunlight in 2..12; a water failure is a WaterError, a sunlight failure with good water is a PlantError, and no failure is a plain GardenError |
| GardenManagement.HealthLine | module02/ex5/ft_garden_management.py:66-69 | a healthy plant prints "name: healthy (water: W, sun: S)", and any other plant prints "Error checking name: " and the first failure's message |
| GardenManagement.HealthLines | module02/ex5/ft_garden_management.py:52-69 | one line per plant, in order; one plant's error does not stop the loop |
| GardenManagement.GardenManager.constructor | module02/ex5/ft_garden_management.py:37-40 | no plants and a full tank of 100 |
| GardenManagement.GardenManager.GetWater | module02/ex5/ft_garden_management.py:42-48 | an amount in (0, tank] is taken from the tank and returned; any other amount raises "Not enough water in tank" and leaves the tank as it was |
| GardenManagement.GardenManager.AddPlant | module02/ex5/ft_garden_management.py:71-78 | a missing name is refused with "Plant name cannot be empty!" and nothing is added; otherwise a fresh plant with the given levels is appended |
| GardenManagement.GardenManager.WaterPlant | module02/ex5/ft_garden_management.py:80-91 | the first `tank / 5` plants get 5 units each, the rest get nothing (each failing draw is caught), the tank loses what was given, and sunlight is unchanged |
| GardenManagement.GardenManager.CheckPlantHealth | module02/ex5/ft_garden_management.py:50-69 | one health line per plant, in order |
| GardenManagement.HealthBoundaries | module02/ex5/ft_garden_management.py:53-65 | the bounds 1, 10, 2 and 12 are inclusive; 0, 11, 1 and 13 fail; bad water is reported as a WaterError whatever the sunlight |
| GardenManagement.ManagementDemo | module02/ex5/ft_garden_management.py:94-116 | tomato and lettuce are watered to 5 and 15 from a tank left at 90; tomato is healthy and lettuce is not; drawing 100 then fails |
| RaiseErrors.CheckPlantHealth | module02/ex4/ft_raise_errors.py:3-17 | healthy iff a name is given, water is in 1..10 and sunlight in 2..12, with the message "Plant 'name' is healthy!"; a missing name raises "Plant name cannot be empty" |
| RaiseErrors.CheckOrder | module02/ex4/ft_raise_errors.py:6-16 | the error raised is the message of the first failing check, in the order name, water low, water high, sunlight low, sunlight high |
| RaiseErrors.Boundaries | module02/ex4/ft_raise_errors.py:8-16 | the bounds are inclusive and the values just outside them fail |
| RaiseErrors.SunTooHighMessage | module02/ex4/ft_raise_errors.py:14-16 | too much sunlight raises "Sunlight hours N is too high (max 2)", with the "(max 2)" exactly as written |
| CustomErrors.GetWater | module02/ex2/ft_custom_errors.py:22-27 | raises a WaterError iff the volume is at most 50 |
| CustomErrors.GetPlantStatus | module02/ex2/ft_custom_errors.py:30-35 | raises a PlantError iff the water level is at most 0 |
| CustomErrors.ErrorsDemo | module02/ex2/ft_custom_errors.py:38-63 | level -5 gives "The tomato plant is wilting!" and volume 20 gives "Not enough water in the tank!" |
| FirstException.CheckTemperature | module02/ex0/ft_first_exception.py:3-16 | returns the temperature iff the text parses as an integer in 0..40; a non-number or an out-of-range value returns None |
| FirstException.CheckTemperatureOfText | module02/ex0/ft_first_exception.py:3-16 | the text of any integer t gives t when 0 ≤ t ≤ 40 and None otherwise |
| FirstException.NotANumber | module02/ex0/ft_first_exception.py:6-16 | `int()` raises ValueError, caught as "not a valid number", for the empty text and for any text with a character that is neither a digit nor a leading sign before more characters, so no such text is ever accepted |
| FirstException.NotANumberDemo | module02/ex0/ft_first_exception.py:22 | the demonstration's "abc" is rejected |
| FirstException.TemperatureDemo | module02/ex0/ft_first_exception.py:22-24 | "25" is accepted; "100" and "-50" are not |
| ScoreAnalytics.ParseAll | module03/ex1/ft_score_analytics.py:14-19 | parsing succeeds exactly when every argument is an integer, and the scores are their values in order |
| ScoreAnalytics.ParseAllFirstFailure | module03/ex1/ft_score_analytics.py:14-19 | when parsing fails, the failure names the first argument that is not an integer |
| ScoreAnalytics.Max | module03/ex1/ft_score_analytics.py:24 | `max` is a score at least every score |
| ScoreAnalytics.Min | module03/ex1/ft_score_analytics.py:25 | `min` is a score at most every score |
| ScoreAnalytics.Analyse | module03/ex1/ft_score_analytics.py:6-28 | with no arguments, the usage message; an unparsable argument gives "Invalid input" naming it; otherwise the scores, the player count, the total, the high and low scores (attained and bounding every score), and the range high - low |
| ScoreAnalytics.ParseAllSnoc | module03/ex1/ft_score_analytics.py:16-18 | one more argument either appends its value or becomes the failing argument |
| ScoreAnalytics.ParseAllExtend | module03/ex1/ft_score_analytics.py:15-28 | once an argument fails, later arguments cannot change the outcome |
| CoordinateSystem.ParseCoordinates | module03/ex2/ft_coordinate_system.py:13-16 | succeeds iff the comma split has at least 3 parts and the first three parse, giving their values; an unparsable first part is a ValueError naming it; which error a failure raises in general is stated by FirstFailureDecides |
| CoordinateSystem.FirstFailureDecides | module03/ex2/ft_coordinate_system.py:15-16 | the parts are converted in order, so the first of parts 0, 1 and 2 that is missing or unparsable decides the error: a missing part is an IndexError, an unparsable one a ValueError naming it |
| CoordinateSystem.OnePartWord | module03/ex2/ft_coordinate_system.py:16 | "abc" has fewer than 3 parts yet raises a ValueError on "abc", because `int(parts[0])` runs before `parts[1]` is indexed |
| CoordinateSystem.NoComma | module03/ex2/ft_coordinate_system.py:15 | the text of an integer has no comma |
| CoordinateSystem.ParseTexts | module03/ex2/ft_coordinate_system.py:13-16 | parts that are the texts of x, y and z parse to (x, y, z) |
| CoordinateSystem.ParseRoundTrip | module03/ex2/ft_coordinate_system.py:13-16 | "x,y,z" built from any integers parses back to (x, y, z) |
| CoordinateSystem.SplitThree | module03/ex2/ft_coordinate_system.py:15 | comma-free pieces joined by commas split back into those pieces first |
| CoordinateSystem.ExtraPartsIgnored | module03/ex2/ft_coordinate_system.py:15-16 | parts after the third are ignored |
| CoordinateSystem.TooFewParts | module03/ex2/ft_coordinate_system.py:16 | "x,y" raises IndexError |
| CoordinateSystem.InvalidCoordinates | module03/ex2/ft_coordinate_system.py:39-45 | "abc,def,ghi" raises a ValueError on "abc" |
| AchievementTracker.All | module03/ex3/ft_achievement_tracker.py:20 | an achievement is in `A \| B \| C` iff at least one player holds it |
| AchievementTracker.Common | module03/ex3/ft_achievement_tracker.py:24 | an achievement is in `A & B & C` iff all three players hold it |
| AchievementTracker.Rare | module03/ex3/ft_achievement_tracker.py:27-28 | the union minus every pairwise intersection holds exactly the achievements that a single player holds, as the "(1 player)" label says |
| AchievementTracker.PairwiseDisjoint | module03/ex3/ft_achievement_tracker.py:30-32 | "Alice unique", "Bob unique" and "common" are pairwise disjoint and together make up A ∪ B |
| InventorySystem.InventoryValue | module03/ex4/ft_inventory_system.py:3-8 | the loop sums quantity times value over the items |
| InventorySystem.ItemCount | module03/ex4/ft_inventory_system.py:11-16 | the loop sums the quantities |
| InventorySystem.Types | module03/ex4/ft_inventory_system.py:19-27 | the category keys are exactly the item types, each once |
| InventorySystem.TypesSnoc | module03/ex4/ft_inventory_system.py:22-26 | one more item adds its type to the keys |
| InventorySystem.TypeTotalSnoc | module03/ex4/ft_inventory_system.py:22-26 | one more item adds its quantity to its own type's total only |
| InventorySystem.TypeTotalAbsent | module03/ex4/ft_inventory_system.py:24-25 | a type no item has totals 0 |
| InventorySystem.Categories | module03/ex4/ft_inventory_system.py:19-27 | the loop builds a map whose keys are the item types and whose values are each type's total quantity |
| InventorySystem.SumTotalsStep | module03/ex4/ft_inventory_system.py:22-26 | the category totals grow by the new item's quantity when its type is listed |
| InventorySystem.CategoriesSumToCount | module03/ex4/ft_inventory_system.py:11-27 | the category totals add up to the item count |
| InventorySystem.LookupFinds | module03/ex4/ft_inventory_system.py:72-74 | `dict.get`: None iff no item has the name, otherwise the named item |
| InventorySystem.SetQtyEntries | module03/ex4/ft_inventory_system.py:73-75 | setting a quantity changes only the named item's quantity |
| InventorySystem.LookupSetQty | module03/ex4/ft_inventory_system.py:73-75 | after the change the named item has the new quantity and every other item is as before |
| InventorySystem.LookupAppend | module03/ex4/ft_inventory_system.py:77-84 | `update` with a new name adds that item and keeps the others |
| InventorySystem.Give | module03/ex4/ft_inventory_system.py:72-87 | the transfer happens iff the giver has the item with enough quantity; a failed transfer changes nothing; a receiver without the item gets a fresh entry |
| InventorySystem.GiveMoves | module03/ex4/ft_inventory_system.py:72-87 | a successful transfer moves exactly the amount, and the total held by both is always conserved |
| InventorySystem.GiveFrameFrom | module03/ex4/ft_inventory_system.py:72-87 | the giver's other items are untouched |
| InventorySystem.GiveFrameTo | module03/ex4/ft_inventory_system.py:72-87 | the receiver's other items are untouched |
| InventorySystem.GivePotions | module03/ex4/ft_inventory_system.py:71-87 | Alice gives Bob 2 potions iff she has at least 2; then she has 2 fewer and he 2 more, the potion total is conserved, Bob gets a new common consumable entry if he had none, and no other item changes |
| InventorySystem.BestIsFirstMaximum | module03/ex4/ft_inventory_system.py:100-113 | the strict `>` scan from -1 finds the first maximal index, or none when every value is at most -1 |
| InventorySystem.Values | module03/ex4/ft_inventory_system.py:106 | each player's inventory value, in order |
| InventorySystem.Counts | module03/ex4/ft_inventory_system.py:107 | each player's item count, in order |
| InventorySystem.Leaders | module03/ex4/ft_inventory_system.py:100-113 | the loop finds the most valuable player and the player with most items as the first maxima of the scans |
| GameStream.EventAt | module03/ex5/ft_data_stream.py:3-15 | event i has id i+1 and level 5, 8 or 12 by i mod 3 |
| GameStream.GameEvents | module03/ex5/ft_data_stream.py:3-15 | the generator yields n events, the i-th being `EventAt(i)` |
| GameStream.CountEvents | module03/ex5/ft_data_stream.py:49-58 | the loop counts the high-level (level ≥ 10), treasure and level-up events |
| GameStream.EventKinds | module03/ex5/ft_data_stream.py:9-15 | event i is high-level and a level-up iff i mod 3 = 2, and a treasure iff i mod 3 = 1 |
| GameStream.ResidueCount | module03/ex5/ft_data_stream.py:9-15 | among n events, those with index ≡ r mod 3 number (n + 2 - r) / 3 |
| GameStream.EventCounts | module03/ex5/ft_data_stream.py:49-58 | of n events, n/3 are high-level, n/3 are level-ups and (n+1)/3 are treasures |
| GameStream.StreamAnalytics | module03/ex5/ft_data_stream.py:43-65 | the 1000 events give 333 high-level, 333 treasure and 333 level-up events |
| GameStream.Fibonacci | module03/ex5/ft_data_stream.py:18-24 | the generator yields the first n Fibonacci numbers |
| GameStream.FibonacciFirstTen | module03/ex5/ft_data_stream.py:70-75 | the 9th and 10th values are 21 and 34 |
| GameStream.FactDivisible | module03/ex5/ft_data_stream.py:31-40 | m! is divisible by every d in 1..m (used to show the prime loop ends) |
| GameStream.PrimeAbove | module03/ex5/ft_data_stream.py:31-40 | there is always a prime above any bound, so the search for the next prime terminates |
| GameStream.PrimeNumbers | module03/ex5/ft_data_stream.py:27-40 | the generator yields n primes in increasing order, with no prime skipped below the last |
| AnalyticsDashboard.NamesWhere | module03/ex6/ft_analytics_dashboard.py:37-41 | a name comprehension keeps exactly the names of the players that pass the test |
| AnalyticsDashboard.NamesWhereAppend | module03/ex6/ft_analytics_dashboard.py:37-41 | the comprehension over a concatenation concatenates the results |
| AnalyticsDashboard.HighScorers | module03/ex6/ft_analytics_dashboard.py:37-38 | exactly the players scoring above 2000, a missing score being 0 |
| AnalyticsDashboard.ActivePlayers | module03/ex6/ft_analytics_dashboard.py:40-41 | exactly the active players, a missing flag being False |
| AnalyticsDashboard.ScoresDoubled | module03/ex6/ft_analytics_dashboard.py:39 | twice each score, in order |
| AnalyticsDashboard.ActiveMap | module03/ex6/ft_analytics_dashboard.py:48-51 | a dict comprehension over active players: the keys are their names and each value is computed from a player of that name |
| AnalyticsDashboard.Scores | module03/ex6/ft_analytics_dashboard.py:48-51 | the score map has exactly the active players' names as keys |
| AnalyticsDashboard.AchievementCounts | module03/ex6/ft_analytics_dashboard.py:66-70 | the achievement-count map has exactly the active players as keys, with non-negative counts |
| AnalyticsDashboard.ScoreCategories | module03/ex6/ft_analytics_dashboard.py:52-65 | `high` is the number of high scorers, `medium` the number of names scoring strictly between 1000 and 2000, `low` the number strictly between 0 and 1000; with the players in no category they count every player exactly once |
| AnalyticsDashboard.NamesWhereCount | module03/ex6/ft_analytics_dashboard.py:52-65 | the `len` of a name comprehension is the number of players its test keeps |
| AnalyticsDashboard.CategoriesPartition | module03/ex6/ft_analytics_dashboard.py:52-65 | with the uncategorised players (scores of exactly 1000 or 2000, or at most 0), the categories cover every player exactly once |
| AnalyticsDashboard.UniqueAchievements | module03/ex6/ft_analytics_dashboard.py:77-81 | fails (KeyError) iff some player has no achievements key; otherwise the union of all achievement sets |
| AnalyticsDashboard.Regions | module03/ex6/ft_analytics_dashboard.py:82-85 | exactly the regions of active players, "no-region" when missing |
| AnalyticsDashboard.TopPerformer | module03/ex6/ft_analytics_dashboard.py:3-4 | `max(..., key=get_score)`: none for no players, otherwise the first player with the highest score |
| SeedInventory.UnitText | module00/ex7/ft_seed_inventory.py:4-10 | a unit text exists iff the unit is "packets", "grams" or "area" |
| SeedInventory.SeedLine | module00/ex7/ft_seed_inventory.py:3-18 | an unknown unit prints "Unknown unit type"; a known one prints a line starting with the title-cased seed type and " seeds: " |
| SeedInventory.UnknownUnitIgnoresSeed | module00/ex7/ft_seed_inventory.py:17-18 | for an unknown unit the seed type and quantity make no difference |
| SeedInventory.PacketsLine | module00/ex7/ft_seed_inventory.py:5-16 | "Title seeds: N packets available" |
| SeedInventory.GramsLine | module00/ex7/ft_seed_inventory.py:7-16 | "Title seeds: N grams total" |
| SeedInventory.AreaLine | module00/ex7/ft_seed_inventory.py:9-16 | "Title seeds: covers N square meters" |
| CountHarvest.HarvestLines | module00/ex5/ft_count_harvest_recursive.py:3-12 | the printed lines always end with "Harvest time!" (CPython's recursion limit aside, see Left out) |
| CountHarvest.HarvestCountdown | module00/ex5/ft_count_harvest_recursive.py:3-12 | from `current` to `days` it prints one "Day k" line per day, in order, and then the harvest line |
| CountHarvest.HarvestNow | module00/ex5/ft_count_harvest_recursive.py:7-9 | once the current day is past the harvest, only "Harvest time!" is printed |
| CountHarvest.TextsDistinct | module00/ex5/ft_count_harvest_recursive.py:8-11 | two printed lines have the same text iff they are the same line: every day prints its own "Day k" text and none reads "Harvest time!" |
| Validator.ValidateIngredients | module06/alchemy/transmutation/grimoire/validator.py:1-16 | " - VALID" is appended iff "fire", "air", "earth" or "water" occurs as a substring, otherwise " - INVALID"; the ingredients are kept as the prefix |
| Validator.SubstringMatch | module06/alchemy/transmutation/grimoire/validator.py:11-15 | "chair" is valid because it contains "air" |
| Validator.NoLetterR | module06/alchemy/transmutation/grimoire/validator.py:11-16 | a text without the letter "r" is always invalid |
| Validator.NoCharNoWord | module06/alchemy/transmutation/grimoire/validator.py:11-14 | a word with a letter the text lacks does not occur in it |
| Validator.CaseSensitive | module06/alchemy/transmutation/grimoire/validator.py:11-16 | "Fire" is invalid: the test is case-sensitive |
| Spellbook.RecordSpell | module06/alchemy/transmutation/grimoire/spellbook.py:1-19 | the spell is rejected iff the validation result contains "INVALID", and the message carries the spell name and the result |
| Spellbook.NoStraddle | module06/alchemy/transmutation/grimoire/spellbook.py:16 | a pattern cannot straddle the verdict suffix, so "INVALID" occurs in the result iff it occurs in the ingredients or the suffix |
| Spellbook.ValidSuffixClean | module06/alchemy/transmutation/grimoire/validator.py:15 | " - VALID" does not contain "INVALID" |
| Spellbook.InvalidSuffixFlags | module06/alchemy/transmutation/grimoire/validator.py:16 | " - INVALID" contains "INVALID" |
| Spellbook.RejectedIff | module06/alchemy/transmutation/grimoire/spellbook.py:15-19 | a spell is rejected iff its ingredients have no element or themselves contain "INVALID" |
| SpaceCrew.ValidateMission | module09/ex2/space_crew.py:38-56 | a mission is accepted unchanged iff its id starts with "M", some member is a Commander or Captain, every member is active, and a mission over 365 days has at least half its crew with 5 or more years; each error is raised exactly when all earlier checks pass and its own fails |
| SpaceCrew.CreateMission | module09/ex2/space_crew.py:18-56 | a field outside its declared range is a field error, checked before the cross-field rules; with valid fields the outcome is exactly that of `ValidateMission`: the mission, or the rule error the `model_validator` raises, passed through |
| SpaceCrew.ShortMissionExempt | module09/ex2/space_crew.py:51-55 | for missions of at most 365 days, the crew's experience does not affect validity |
| SpaceCrew.MarsMission | module09/ex2/space_crew.py:59-130 | the 900-day Mars mission with a commander and three experienced members is accepted, and the same mission crewed only by the officer fails for lack of a leader |
| AlienContact.Validate | module09/ex1/alien_contact.py:28-40 | as written: accepted unchanged iff the id starts with "AC", a physical contact is verified, and a telepathic contact has at least 3 witnesses; each error is raised exactly when the earlier checks pass and its own fails |
| AlienContact.CreateContact | module09/ex1/alien_contact.py:17-40 | a field outside its declared range is a field error, checked first; with valid fields the outcome is exactly that of `Validate`: the contact, or the rule error the `model_validator` raises, passed through |
| AlienContact.StrongSignalNeverFires | module09/ex1/alien_contact.py:37-39 | the strong-signal check never rejects: the `message_received` attribute always exists |
| AlienContact.SilentStrongSignalAccepted | module09/ex1/alien_contact.py:25-39 | a radio contact with signal 8.5 and no message is accepted |
| AlienContact.ValidateIntended | module09/ex1/alien_contact.py:28-40 | as intended: as `Validate`, and a signal above 7.0 also needs a message; a missing message is reported exactly when everything else passes |
| AlienContact.IntendedDiffers | module09/ex1/alien_contact.py:37-39 | the two validators disagree exactly on otherwise valid contacts with a strong signal and no message |
| AlienContact.ContactDemo | module09/ex1/alien_contact.py:43-79 | the radio report from Area 51 is accepted, and the telepathic one with 2 witnesses is rejected for too few witnesses |
| LambdaSpells.ArtifactSorter | module10/ex0/lambda_spells.py:3-4 | the result is a permutation of the artifacts, ordered by non-increasing power (a missing power counting as 0), and artifacts of equal power keep their original relative order, as Python's stable `sorted(..., reverse=True)` does |
| LambdaSpells.PowerFilter | module10/ex0/lambda_spells.py:7-8 | the filter never yields more mages than it is given |
| LambdaSpells.PowerFilterCounts | module10/ex0/lambda_spells.py:7-8 | every mage with power at least the minimum is kept as often as it occurs, every other mage is dropped |
| LambdaSpells.PowerFilterAppend | module10/ex0/lambda_spells.py:7-8 | filtering keeps order: filtering a concatenation is the concatenation of the filtered parts |
| LambdaSpells.SpellTransformer | module10/ex0/lambda_spells.py:11-12 | one output per spell, in order, each the spell name framed as "* name *" |
| LambdaSpells.TransformerUnframes | module10/ex0/lambda_spells.py:11-12 | stripping two characters from both ends of a transformed spell gives back the original name |
| LambdaSpells.MaxBy | module10/ex0/lambda_spells.py:17 | `max(mages, key=...)` of a non-empty list is one of the mages, and no mage has more power |
| LambdaSpells.MinBy | module10/ex0/lambda_spells.py:18 | `min(mages, key=...)` of a non-empty list is one of the mages, and no mage has less power |
| LambdaSpells.MageStats | module10/ex0/lambda_spells.py:15-24 | an empty list is an error (Python's `max` raises before the empty branch is reached); otherwise the minimum and maximum power are attained by some mage and bound every mage's power |
| LambdaSpells.SorterDemo | module10/ex0/lambda_spells.py:27-42 | the 92-power Fire Staff comes before the 85-power Crystal Orb whatever their input order |
| HigherMagic.SpellCombiner | module10/ex1/higher_magic.py:3-4 | the combined spell returns the pair of both spells' results on the same argument |
| HigherMagic.PowerAmplifier | module10/ex1/higher_magic.py:7-8 | the amplified spell returns the multiplier times the base spell's result |
| HigherMagic.ConditionalCaster | module10/ex1/higher_magic.py:11-12 | the spell's result when the condition holds, "Spell fizzled" otherwise |
| HigherMagic.Results | module10/ex1/higher_magic.py:16 | the list comprehension has one result per spell, each the spell applied to the argument, in order |
| HigherMagic.SpellSequence | module10/ex1/higher_magic.py:15-16 | the sequenced spell returns every spell's result, in list order |
| HigherMagic.AmplifyTwice | module10/ex1/higher_magic.py:7-8 | amplifying by m and then by n amplifies by n * m |
| HigherMagic.SequenceAppend | module10/ex1/higher_magic.py:15-16 | sequencing two spell lists one after the other gives the concatenation of their results |
| HigherMagic.NestedCasters | module10/ex1/higher_magic.py:11-12 | a caster wrapped in a caster casts the spell only when both conditions hold and fizzles otherwise |
| HigherMagic.CombinerIsPairSequence | module10/ex1/higher_magic.py:3-16 | combining two spells gives the same two results as sequencing them, as a pair rather than a list |
| HigherMagic.FizzleDemo | module10/ex1/higher_magic.py:31-33 | the empty-argument condition applied to "Test" fizzles |
| ScopeMysteries.MageCounter.constructor | module10/ex2/scope_mysteries.py:3-4 | a fresh counter starts at 0 |
| ScopeMysteries.MageCounter.Call | module10/ex2/scope_mysteries.py:5-8 | each call increments the closed-over counter by one and returns its new value |
| ScopeMysteries.CountCalls | module10/ex2/scope_mysteries.py:47-49 | the i-th call on a fresh counter returns i |
| ScopeMysteries.Independent | module10/ex2/scope_mysteries.py:3-9 | two counters made by separate calls do not share state: calling one leaves the other unchanged |
| ScopeMysteries.SpellAccumulator.constructor | module10/ex2/scope_mysteries.py:12-13 | the accumulator starts at the initial power |
| ScopeMysteries.SpellAccumulator.Call | module10/ex2/scope_mysteries.py:14-17 | each call adds the amount to the accumulated power and returns the new total |
| ScopeMysteries.RunningTotals | module10/ex2/scope_mysteries.py:12-18 | the i-th call returns the initial power plus the sum of the first i + 1 amounts |
| ScopeMysteries.EnchantmentFactory | module10/ex2/scope_mysteries.py:21-24 | the enchanter returns the capitalised enchantment type, a space, and the capitalised item name |
| ScopeMysteries.EnchantmentShape | module10/ex2/scope_mysteries.py:21-24 | the enchantment is the capitalised type, then a single space at the position of the type's length, then the capitalised item name, and nothing else |
| ScopeMysteries.MemoryVault.constructor | module10/ex2/scope_mysteries.py:27-28 | a fresh vault holds no memories |
| ScopeMysteries.MemoryVault.Store | module10/ex2/scope_mysteries.py:29-31 | storing sets the key to the value and leaves every other key as it was |
| ScopeMysteries.MemoryVault.Recall | module10/ex2/scope_mysteries.py:33-36 | the stored value when the key is present and the value is truthy; "Memory not found" otherwise, including for a stored falsy value |
| ScopeMysteries.StoreThenRecall | module10/ex2/scope_mysteries.py:27-41 | a value stored under a key is recalled (when truthy) from the same vault, and a second vault does not see it |
| ScopeMysteries.Overwrite | module10/ex2/scope_mysteries.py:29-36 | storing twice under one key keeps the second (truthy) value |
| FunctoolsArtifacts.LookupOp | module10/ex3/functools_artifacts.py:7-13 | exactly "add", "multiply", "max" and "min" are supported operations |
| FunctoolsArtifacts.SpellReducer | module10/ex3/functools_artifacts.py:6-24 | an unsupported operation is a ValueError naming it; an empty list gives 1 for "multiply" and 0 otherwise; a non-empty list is folded with the operation |
| Seqs.SumSnoc | module10/ex3/functools_artifacts.py:8 | the sum of a list extended by one element is the old sum plus that element |
| FunctoolsArtifacts.ProductSnoc | module10/ex3/functools_artifacts.py:9 | the product of a list extended by one element is the old product times that element |
| FunctoolsArtifacts.ReduceAdd | module10/ex3/functools_artifacts.py:16-24 | reducing with `operator.add` is the sum of the list |
| FunctoolsArtifacts.ReduceMultiply | module10/ex3/functools_artifacts.py:16-24 | reducing with `operator.mul` is the product of the list |
| FunctoolsArtifacts.ReduceMax | module10/ex3/functools_artifacts.py:16-24 | reducing with `max` yields an element of the list that no element exceeds |
| FunctoolsArtifacts.ReduceMin | module10/ex3/functools_artifacts.py:16-24 | reducing with `min` yields an element of the list that no element is below |
| FunctoolsArtifacts.ReducerDemo | module10/ex3/functools_artifacts.py:57-60 | the sum of 10, 20, 30, 40 is 100, their product 240000 and their maximum 40 |
| FunctoolsArtifacts.MemoizedFibonacci | module10/ex3/functools_artifacts.py:33-39 | a negative argument is a ValueError; otherwise the result is the n-th Fibonacci number of the reference definition |
| FunctoolsArtifacts.FibonacciRecurrence | module10/ex3/functools_artifacts.py:39 | from 2 on, each value is the sum of the two before it |
| FunctoolsArtifacts.FibonacciDemo | module10/ex3/functools_artifacts.py:62-64 | Fib(10) is 55 and Fib(15) is 610 |
| FunctoolsArtifacts.Dispatch | module10/ex3/functools_artifacts.py:41-54 | ints (and bools, which are ints to `singledispatch`) deal damage, strings enchant, lists report their length, and anything else is an unknown spell type |
| FunctoolsArtifacts.DamageReadBack | module10/ex3/functools_artifacts.py:45-47 | the damage amount can be parsed back from the dispatched message |
| DecoratorMastery.AllNameChars | module10/ex4/decorator_mastery.py:64 | true iff every character is a letter or a space |
| DecoratorMastery.ValidateMageName | module10/ex4/decorator_mastery.py:60-64 | a name is valid iff it is a string of at least 3 characters, all letters or spaces; empty and non-string names are invalid |
| DecoratorMastery.NameDemo | module10/ex4/decorator_mastery.py:60-64 | "Merlin" is a valid name and "Al" is not |
| DecoratorMastery.PowerGate | module10/ex4/decorator_mastery.py:39-42 | a power found below the minimum replaces the call by "Insufficient power for this spell"; otherwise the wrapped function's result is returned |
| DecoratorMastery.CastSpell | module10/ex4/decorator_mastery.py:66-68 | below power 10 the cast is refused, otherwise it reports the spell name and power |
| DecoratorMastery.GateMonotone | module10/ex4/decorator_mastery.py:39-40 | a power that passes the gate stays passing when it is raised |
| DecoratorMastery.CastDemo | module10/ex4/decorator_mastery.py:66-68 | power 5 is refused, powers 15 and 10 succeed |
| DecoratorMastery.FirstSuccess | module10/ex4/decorator_mastery.py:50-52 | the first attempt in range that does not raise, or none when every attempt raises |
| DecoratorMastery.RetrySpell | module10/ex4/decorator_mastery.py:46-57 | the function is called until its first success, which is returned after exactly that many calls; if all max_attempts calls raise, the result is "Spell casting failed after max_attempts attempts" after max_attempts calls (none when max_attempts is not positive) |
| DecoratorMastery.BrokenSpellDemo | module10/ex4/decorator_mastery.py:46-57 | a spell that always raises fails after 3 calls with the failure message |

## Left out

- Floating point is not modelled. This covers the printed averages of `NumericProcessor.process`, `mage_stats`, the score analytics and the dashboard, `distance_3d` in the coordinate system, the sensor temperatures of `SensorStream.process_batch`, the `signal_strength` and `budget_millions` fields, and the float `rating / 10` in `create_match`, which is compared exactly as `10 * (attack + defense) + rating`.
- TournamentPlatforms.TournamentPlatform.CreateMatch: the Elo change `int(32 * (1 - 1 / (1 + 10 ** (...))))` needs float exponentiation, so it is a parameter constrained to [0, 32]; conservation of the rating sum and the win/loss bookkeeping are proved for every such value.
- Decks.Stats: the average cost is the exact rational mean, not Python's float sum of `cost / total` quotients; only the empty-deck average is stated in the contract.
- LambdaSpells.MageStats: `avg_power` (a float) is not part of the result; only the minimum and maximum are modelled.
- CountHarvest.HarvestLines: CPython's recursion limit (about 1000 frames) is not modelled; the source raises RecursionError once `days - current` approaches 1000, where the model goes on counting down.
- FunctoolsArtifacts.MemoizedFibonacci: CPython's recursion limit is not modelled; with a cold cache the source raises RecursionError for `n` near 1000, where the model returns the Fibonacci number.
- StreamProcessors.ProcessNumeric: a value the model knows only by its text (a tuple, a set, a float, a generator) is treated as neither iterable nor a number, so `sum` over a tuple or over floats is not modelled.
- StreamProcessors.ProcessLog: its own contract states only the non-string case; the string case is stated by the lemmas beside it for logs with and without "ERROR:".
- SeedInventory.SeedLine: its own contract states only the unknown-unit line and the common prefix; the full line for each unit is stated by the lemmas beside it.
- Printing, `input()` and every other I/O: printed lines are returned as strings or sequences (the harvest countdown, the seed line), and the number of days that `input()` reads is a parameter.
- Randomness: `Deck.shuffle` takes the random draws as a parameter (Fisher–Yates order) and is proved to permute the deck whatever the draws are.
- Clocks and timing: `spell_timer`, the pipeline adapters' `last_duration` and every `datetime` field (`timestamp`, `launch_date`) are left out, because they only record wall-clock time.
- `functools.partial` (`partial_enchanter`) is left out, because it fixes keyword arguments of an arbitrary callable, which a Dafny function value cannot express. `lru_cache` is left out because it changes speed, not results.
- `power_validator` for functions other than `cast_spell`: the signature binding through `inspect` is not modelled. The gate is modelled on the power argument, found or absent.
- The higher-order combinators take single-argument functions; `*args` and `**kwargs` forwarding is not modelled.
- Python's Unicode-aware `str.isalpha`, `str.isspace`, `upper`, `lower`, `capitalize` and `title` are modelled on ASCII letters and ASCII whitespace only.
- `int()` parsing accepts an optional sign and ASCII digits; surrounding whitespace and underscores are not modelled.
- `repr` and `str` of values are modelled for ints, bools, None, strings and lists of these.
- Dictionary results are modelled as datatypes with one field per key. Dictionaries that the source mutates are `map`s or association lists; the potion transfer in the inventory `main` works on association-list values rather than on shared dict objects.
- The abstract interfaces (`Combatable`, `Magical`, `Rankable`, `CardFactory`, `GameStrategy`, `DataProcessor`, `DataStream`, `ProcessingStage`) have no behaviour of their own. Dispatch over them is a `match` on a datatype of the concrete classes.
- Pydantic's own checks are modelled as range predicates and a field error; pydantic's message formatting is left out.
- The demo `main` functions are modelled only where they fix a concrete result (the sorter, reducer, Fibonacci, cast, tournament and mission demos); their printed formatting is left out.

## Findings

| source | as written | input that shows it | evidently intended | confidence | as-written member | corrected member |
|---|---|---|---|---|---|---|
| module09/ex1/alien_contact.py:37-39 | the strong-signal rule tests `hasattr(self, "message_received")`, which always holds for a declared field, so it never rejects | signal strength 8.5 with no message received is accepted | a contact with signal strength above 7.0 must have received a message | not executed | AlienContact.Validate, AlienContact.SilentStrongSignalAccepted | AlienContact.ValidateIntended, AlienContact.IntendedDiffers |
| module07/ex1/Deck.py:38-39 | `remove_card(card_name)` looks the name up with `self.cards.index(card_name)` in a list of card objects, and cards define no `__eq__`, so a string never matches | a deck holding the card named "Fire Dragon" answers False to `remove_card("Fire Dragon")` and keeps the card | the first card with that name is removed and True is answered, as the docstring says | not executed | Decks.Deck.RemoveCard, Decks.RemoveByNameDemo | Decks.Deck.RemoveByName, Decks.RemoveFirstNamed |
