/** The mage guild's name check, the power gate of `power_validator` and
    the attempt loop of `retry_spell`. */
module DecoratorMastery {
  import opened Wrappers
  import Numerals
  import PyValues
  import Strings

  /** `str.isspace` on ASCII characters. */
  predicate IsSpace(c: char)
  {
    c == ' ' || c == '\t' || c == '\n' || c == '\r' || c == '\U{B}' || c == '\U{C}'
    || ('\U{1C}' <= c <= '\U{1F}')
  }

  predicate NameChar(c: char) { Strings.IsAlpha(c) || IsSpace(c) }

  /** `all(c.isalpha() or c.isspace() for c in name)`. */
  function AllNameChars(name: string): (b: bool)
    ensures b <==> forall i :: 0 <= i < |name| ==> NameChar(name[i])
  {
    if name == [] then true
    else NameChar(name[0]) && AllNameChars(name[1..])
  }

  /** `MageGuild.validate_mage_name`: a falsy or non-string name is refused;
      otherwise at least three characters, letters and spaces only. */
  function ValidateMageName(name: PyValues.Value): (ok: bool)
    ensures ok <==> name.VStr? && |name.s| >= 3 && forall i :: 0 <= i < |name.s| ==> NameChar(name.s[i])
  {
    if !PyValues.Truthy(name) || !name.VStr? then false
    else |name.s| >= 3 && AllNameChars(name.s)
  }

  /** The demonstration: "Merlin" passes, "Al" is too short. */
  lemma NameDemo()
    ensures ValidateMageName(PyValues.VStr("Merlin"))
    ensures !ValidateMageName(PyValues.VStr("Al"))
  {
    var s := "Merlin";
    assert forall i :: 0 <= i < |s| ==> Strings.IsAlpha(s[i]);
  }

  const InsufficientPower: string := "Insufficient power for this spell"

  /** The wrapper of `power_validator(min_power)`: when a power was found and
      it is below the minimum, the message replaces the call's result. */
  function PowerGate(minPower: int, power: Option<int>, result: string): (r: string)
    ensures power.Some? && power.value < minPower ==> r == InsufficientPower
    ensures !(power.Some? && power.value < minPower) ==> r == result
  {
    if power.Some? && power.value < minPower then InsufficientPower else result
  }

  /** `MageGuild.cast_spell`, gated at power 10; `power` is bound by name. */
  function CastSpell(spellName: string, power: int): (r: string)
    ensures power < 10 ==> r == InsufficientPower
    ensures power >= 10 ==> r == "Successfully cast " + spellName + " with power " + Numerals.IntToString(power)
  {
    PowerGate(10, Some(power), "Successfully cast " + spellName + " with power " + Numerals.IntToString(power))
  }

  /** Enough power stays enough: the gate is monotone in the power. */
  lemma GateMonotone(minPower: int, p: int, q: int, result: string)
    requires p <= q && PowerGate(minPower, Some(p), result) == result && result != InsufficientPower
    ensures PowerGate(minPower, Some(q), result) == result
  {
  }

  /** The demonstration: power 15 casts, power 5 does not, 10 is enough. */
  lemma CastDemo()
    ensures CastSpell("Frost", 5) == InsufficientPower
    ensures CastSpell("Lightning", 15) != InsufficientPower
    ensures CastSpell("Spark", 10) != InsufficientPower
  {
    var m := "Successfully cast Lightning with power " + Numerals.IntToString(15);
    assert m[0] != InsufficientPower[0];
    var n := "Successfully cast Spark with power " + Numerals.IntToString(10);
    assert n[0] != InsufficientPower[0];
  }

  /** The first attempt in `lo..hi` that does not raise. */
  function FirstSuccess(attempt: nat -> Option<string>, lo: nat, hi: int): (r: Option<nat>)
    ensures r.Some? ==> lo <= r.value <= hi && attempt(r.value).Some?
    ensures r.Some? ==> forall j :: lo <= j < r.value ==> attempt(j).None?
    ensures r.None? ==> forall j :: lo <= j <= hi ==> attempt(j).None?
    decreases hi - lo
  {
    if lo > hi then None
    else if attempt(lo).Some? then Some(lo)
    else FirstSuccess(attempt, lo + 1, hi)
  }

  function FailureMessage(maxAttempts: int): string
  {
    "Spell casting failed after " + Numerals.IntToString(maxAttempts) + " attempts"
  }

  /** The wrapper of `retry_spell(max_attempts)`. Attempt `k` (from 1) of the
      wrapped function raises when `attempt(k)` is `None`. It returns the
      first result that did not raise, or the failure message once every
      attempt has raised; `calls` counts the calls made. */
  method RetrySpell(maxAttempts: int, attempt: nat -> Option<string>) returns (r: string, calls: nat)
    ensures match FirstSuccess(attempt, 1, maxAttempts)
      case Some(k) => r == attempt(k).value && calls == k
      case None => r == FailureMessage(maxAttempts) && calls == if maxAttempts > 0 then maxAttempts else 0
  {
    var k: nat := 1;
    calls := 0;
    while k <= maxAttempts
      invariant 1 <= k && calls == k - 1
      invariant k - 1 <= maxAttempts || k == 1
      invariant FirstSuccess(attempt, 1, maxAttempts) == FirstSuccess(attempt, k, maxAttempts)
      decreases maxAttempts - k
    {
      calls := calls + 1;
      var outcome := attempt(k);
      if outcome.Some? {
        r := outcome.value;
        return;
      }
      k := k + 1;
    }
    r := FailureMessage(maxAttempts);
  }

  /** A spell that always raises fails after all three attempts, each made. */
  method BrokenSpellDemo() returns (r: string, calls: nat)
    ensures r == FailureMessage(3) && calls == 3
  {
    r, calls := RetrySpell(3, _ => None);
  }
}
