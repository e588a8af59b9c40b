/** `TournamentCard`: a combatant with an Elo-style rating and a win/loss record. */
module TournamentCards {
  import opened Card
  import opened PyValues

  class TournamentCard {
    const name: string
    const cost: int
    const rarity: string
    const attackPower: int
    const defensePower: int
    var rating: int
    var wins: int
    var losses: int

    /** A new card starts with the given rating (1000 by default) and no games. */
    constructor (name: string, cost: int, rarity: string, attackPower: int, defensePower: int, rating: int)
      ensures this.name == name && this.cost == cost && this.rarity == rarity
      ensures this.attackPower == attackPower && this.defensePower == defensePower
      ensures this.rating == rating && wins == 0 && losses == 0
    {
      this.name := name;
      this.cost := cost;
      this.rarity := rarity;
      this.attackPower := attackPower;
      this.defensePower := defensePower;
      this.rating := rating;
      this.wins := 0;
      this.losses := 0;
    }

    /** `TournamentCard(name, cost, rarity, attack_power, defense_power)` with the
        rating left out: it starts at the default 1000. */
    constructor WithDefaultRating(name: string, cost: int, rarity: string, attackPower: int, defensePower: int)
      ensures this.name == name && this.cost == cost && this.rarity == rarity
      ensures this.attackPower == attackPower && this.defensePower == defensePower
      ensures rating == 1000 && wins == 0 && losses == 0
    {
      this.name := name;
      this.cost := cost;
      this.rarity := rarity;
      this.attackPower := attackPower;
      this.defensePower := defensePower;
      this.rating := 1000;
      this.wins := 0;
      this.losses := 0;
    }

    /** The inherited `get_card_info`. */
    function Info(): CardInfo
    {
      BaseInfo(name, cost, rarity)
    }

    /** `play` has no mana check and echoes the game state. */
    function Play(state: GameState): (r: TournamentPlay)
      ensures r.card == name && r.gameState == state && r.action == "play_tournament_card"
    {
      TournamentPlay("play_tournament_card", name, state)
    }

    /** `attack`: against a target with a defense power only the excess gets through
        (never below 0); against any other target the full attack power. */
    function Attack(target: Opponent): (r: TournamentAttack)
      reads if target.Ranked? then {target.card} else {}
      ensures target.Ranked? ==> r.damageDealt >= 0 && r.damageDealt >= attackPower - target.card.defensePower
      ensures target.Ranked? ==> r.damageDealt == 0 || r.damageDealt == attackPower - target.card.defensePower
      ensures !target.Ranked? ==> r.damageDealt == attackPower
      ensures r.target == (match target
                           case Ranked(c) => c.name
                           case Named(n) => n
                           case Anonymous => "Unknown")
      ensures r.attacker == name
    {
      var damage :=
        if target.Ranked? then (if attackPower - target.card.defensePower > 0 then attackPower - target.card.defensePower else 0)
        else attackPower;
      var targetName := match target
        case Ranked(c) => c.name
        case Named(n) => n
        case Anonymous => "Unknown";
      TournamentAttack(name, targetName, damage)
    }

    /** `defend`: the damage above the defense power gets through, never less than 0. */
    function Defend(incoming: int): (r: TournamentDefense)
      ensures r.damageTaken >= 0 && r.damageTaken >= incoming - defensePower
      ensures r.damageTaken == 0 || r.damageTaken == incoming - defensePower
      ensures r.damageMitigated == defensePower && r.defender == name
    {
      TournamentDefense(name, if incoming - defensePower > 0 then incoming - defensePower else 0, defensePower)
    }

    function GetCombatStats(): (s: (int, int))
      ensures s == (attackPower, defensePower)
    {
      (attackPower, defensePower)
    }

    /** `calculate_rating` returns the current rating, unchanged. */
    function CalculateRating(): (r: int)
      reads this
      ensures r == rating
    {
      rating
    }

    /** `update_wins`: adds to the win count and nothing else. */
    method UpdateWins(n: int)
      modifies this
      ensures wins == old(wins) + n
      ensures rating == old(rating) && losses == old(losses)
    {
      wins := wins + n;
    }

    /** `update_losses`: adds to the loss count and nothing else. */
    method UpdateLosses(n: int)
      modifies this
      ensures losses == old(losses) + n
      ensures rating == old(rating) && wins == old(wins)
    {
      losses := losses + n;
    }

    /** `get_rank_info` mirrors the rating and the record. */
    function GetRankInfo(): (r: RankInfo)
      reads this
      ensures r == RankInfo(rating, wins, losses)
    {
      RankInfo(rating, wins, losses)
    }

    /** `get_tournament_stats`: card info, combat stats and rank info merged. */
    function GetTournamentStats(): (s: TournamentStats)
      reads this
      ensures s.info == Info() && s.attack == attackPower && s.defense == defensePower
      ensures s.rank == GetRankInfo()
    {
      TournamentStats(Info(), attackPower, defensePower, GetRankInfo())
    }
  }

  /** What an attack is aimed at: another tournament card (it has a defense power),
      some other object with a name, or an object without one. */
  datatype Opponent = Ranked(card: TournamentCard) | Named(n: string) | Anonymous

  datatype TournamentPlay = TournamentPlay(action: string, card: string, gameState: GameState)
  datatype TournamentAttack = TournamentAttack(attacker: string, target: string, damageDealt: int)
  datatype TournamentDefense = TournamentDefense(defender: string, damageTaken: int, damageMitigated: int)
  datatype RankInfo = RankInfo(rating: int, wins: int, losses: int)
  datatype TournamentStats = TournamentStats(info: CardInfo, attack: int, defense: int, rank: RankInfo)
}
