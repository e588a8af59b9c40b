/** `ArtifactCard`: a permanent with a durability that each activation wears down
    by one until it reads "broken". */
module ArtifactCards {
  import opened Card

  /** The status an activation reports. */
  datatype Status = Active | Broken

  /** One activation on durability `d`: the new durability and the status. */
  function Activate(d: int): (r: (int, Status))
    ensures r.1 == Active <==> d > 0
    ensures r.0 <= d && (r.1 == Active ==> r.0 == d - 1) && (r.1 == Broken ==> r.0 == d)
  {
    if d > 0 then (d - 1, Active) else (d, Broken)
  }

  /** The statuses reported by `k` successive activations starting from durability `d`. */
  function Activations(d: int, k: nat): seq<Status>
  {
    if k == 0 then [] else [Activate(d).1] + Activations(Activate(d).0, k - 1)
  }

  /** Starting from durability `d`, exactly the first `d` activations are active
      and every later one is broken. */
  lemma {:induction false} ActivationsFromDurability(d: int, k: nat)
    ensures |Activations(d, k)| == k
    ensures forall i :: 0 <= i < k ==> (Activations(d, k)[i] == Active <==> i < d)
  {
    if k > 0 {
      ActivationsFromDurability(Activate(d).0, k - 1);
      var rest := Activations(Activate(d).0, k - 1);
      assert forall i :: 1 <= i < k ==> Activations(d, k)[i] == rest[i - 1];
    }
  }

  /** Durability never increases, over any number of activations. */
  lemma {:induction false} DurabilityNonIncreasing(d: int, k: nat)
    ensures After(d, k) <= d
    ensures d <= 0 ==> After(d, k) == d
    ensures d >= 0 ==> After(d, k) == if k <= d then d - k else 0
  {
    if k > 0 {
      DurabilityNonIncreasing(Activate(d).0, k - 1);
    }
  }

  /** The durability after `k` activations. */
  function After(d: int, k: nat): int
  {
    if k == 0 then d else After(Activate(d).0, k - 1)
  }

  class ArtifactCard {
    const name: string
    const cost: int
    const rarity: string
    var durability: int
    const effect: string

    /** Durability is stored as given, negative values included. */
    constructor (name: string, cost: int, rarity: string, durability: int, effect: string)
      ensures this.name == name && this.cost == cost && this.rarity == rarity
      ensures this.durability == durability && this.effect == effect
    {
      this.name := name;
      this.cost := cost;
      this.rarity := rarity;
      this.durability := durability;
      this.effect := effect;
    }

    /** The inherited `get_card_info`. */
    function Info(): CardInfo
    {
      BaseInfo(name, cost, rarity)
    }

    /** `play`: with an int mana of at least the cost, the artifact becomes permanent. */
    function Play(state: GameState): (r: PlayResult)
      ensures r.Played? <==> "mana" in state && state["mana"].VInt? && state["mana"].i >= cost
      ensures r.Played? ==> r == Played(name, cost, "Permanent: +1 " + effect + " per turn")
      ensures !r.Played? ==> (r.MissingManaKey? <==> "mana" !in state)
    {
      PlayWith(name, cost, state, "Permanent: +1 " + effect + " per turn")
    }

    /** `activate_ability`: one activation; the report carries the durability after it. */
    method ActivateAbility() returns (r: AbilityReport)
      modifies this
      ensures (durability, r.status) == Activate(old(durability))
      ensures r == AbilityReport(name, effect, durability, r.status)
    {
      var status;
      if durability > 0 {
        durability := durability - 1;
        status := Active;
      } else {
        status := Broken;
      }
      r := AbilityReport(name, effect, durability, status);
    }
  }

  datatype AbilityReport = AbilityReport(card: string, effect: string, durability: int, status: Status)
}
