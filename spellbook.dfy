/** The spellbook: a spell is recorded or rejected according to the text the
    validator returns for its ingredients. */
module Spellbook {
  import Strings
  import Validator

  /** `record_spell`: rejected when the validator's text contains "INVALID". */
  function RecordSpell(spellName: string, ingredients: string): (msg: string)
    ensures var result := Validator.ValidateIngredients(ingredients);
      msg == (if Strings.Contains(result, "INVALID") then "Spell rejected: " else "Spell recorded: ")
        + spellName + " (" + result + ")"
  {
    var result := Validator.ValidateIngredients(ingredients);
    if Strings.Contains(result, "INVALID") then "Spell rejected: " + spellName + " (" + result + ")"
    else "Spell recorded: " + spellName + " (" + result + ")"
  }

  predicate Rejected(spellName: string, ingredients: string)
  {
    Strings.Contains(Validator.ValidateIngredients(ingredients), "INVALID")
  }

  /** Each character of an occurrence is the pattern's character. */
  lemma OccurrenceChar(s: string, pat: string, i: int, k: int)
    requires Strings.OccursAt(s, pat, i) && 0 <= k < |pat|
    ensures s[i + k] == pat[k]
  {
    assert s[i..i + |pat|][k] == s[i + k];
  }

  /** An occurrence of `pat` in `a + b` lies inside `a` when `b` holds none
      and `b` starts with a character `pat` lacks, so none can straddle. */
  lemma {:induction false} NoStraddle(a: string, b: string, pat: string)
    requires |pat| > 0 && |b| > 0 && b[0] !in pat && !Strings.Contains(b, pat)
    ensures Strings.Contains(a + b, pat) <==> Strings.Contains(a, pat)
  {
    Strings.ContainsConcat(a, b, pat);
    var s := a + b;
    if Strings.Contains(s, pat) {
      var i := Strings.ContainsWitness(s, pat);
      if i + |pat| <= |a| {
        assert a[i..i + |pat|] == s[i..i + |pat|];
        Strings.ContainsAt(a, pat, i);
      } else if |a| <= i {
        assert b[i - |a|..i - |a| + |pat|] == s[i..i + |pat|];
        Strings.ContainsAt(b, pat, i - |a|);
      } else {
        OccurrenceChar(s, pat, i, |a| - i);
      }
    }
  }

  /** The verdict " - VALID" does not itself contain "INVALID". */
  lemma ValidSuffixClean()
    ensures !Strings.Contains(Validator.ValidSuffix, "INVALID")
  {
    var b := Validator.ValidSuffix;
    if Strings.Contains(b, "INVALID") {
      var j := Strings.ContainsWitness(b, "INVALID");
      OccurrenceChar(b, "INVALID", j, 0);
    }
  }

  /** The verdict " - VALID" starts with a character "INVALID" lacks. */
  lemma ValidSuffixStart()
    ensures |Validator.ValidSuffix| > 0 && Validator.ValidSuffix[0] !in "INVALID"
  {
    var pat := "INVALID";
    assert forall k :: 0 <= k < |pat| ==> pat[k] != ' ';
  }

  /** The verdict " - INVALID" contains "INVALID". */
  lemma InvalidSuffixFlags()
    ensures Strings.Contains(Validator.InvalidSuffix, "INVALID")
  {
    assert Validator.InvalidSuffix[3..10] == "INVALID";
    Strings.ContainsAt(Validator.InvalidSuffix, "INVALID", 3);
  }

  /** A spell is rejected exactly when its ingredients name no element, or
      when they contain the text "INVALID" themselves. */
  lemma RejectedIff(spellName: string, ingredients: string)
    ensures Rejected(spellName, ingredients) <==>
      !Validator.HasElement(ingredients) || Strings.Contains(ingredients, "INVALID")
  {
    var result := Validator.ValidateIngredients(ingredients);
    if Validator.HasElement(ingredients) {
      ValidSuffixClean();
      ValidSuffixStart();
      NoStraddle(ingredients, Validator.ValidSuffix, "INVALID");
    } else {
      InvalidSuffixFlags();
      Strings.ContainsConcat(ingredients, Validator.InvalidSuffix, "INVALID");
    }
  }
}
