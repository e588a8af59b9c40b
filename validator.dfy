/** The ingredient validator: ingredients are valid when they mention one of
    the four elements. */
module Validator {
  import Strings

  /** Some element word occurs in the text, with exactly that case. */
  predicate HasElement(ingredients: string)
  {
    Strings.Contains(ingredients, "fire") || Strings.Contains(ingredients, "air")
    || Strings.Contains(ingredients, "earth") || Strings.Contains(ingredients, "water")
  }

  const ValidSuffix: string := " - VALID"
  const InvalidSuffix: string := " - INVALID"

  /** `validate_ingredients`: the ingredients followed by the verdict. */
  function ValidateIngredients(ingredients: string): (r: string)
    ensures HasElement(ingredients) ==> r == ingredients + ValidSuffix
    ensures !HasElement(ingredients) ==> r == ingredients + InvalidSuffix
    ensures ingredients <= r
  {
    if HasElement(ingredients) then ingredients + ValidSuffix else ingredients + InvalidSuffix
  }

  /** Matching is by substring: "chair" is valid through "air". */
  lemma SubstringMatch(ingredients: string)
    requires ingredients == "chair"
    ensures ValidateIngredients(ingredients) == ingredients + ValidSuffix
  {
    assert ingredients[2..5] == "air";
    Strings.ContainsAt(ingredients, "air", 2);
  }

  /** A text without any lower-case 'r' has no element word, so it is invalid;
      every element word contains an 'r'. */
  lemma NoLetterR(ingredients: string)
    requires 'r' !in ingredients
    ensures ValidateIngredients(ingredients) == ingredients + InvalidSuffix
  {
    NoCharNoWord(ingredients, "fire", 2);
    NoCharNoWord(ingredients, "air", 2);
    NoCharNoWord(ingredients, "earth", 2);
    NoCharNoWord(ingredients, "water", 4);
  }

  /** A word with a character absent from the text does not occur in it. */
  lemma NoCharNoWord(s: string, word: string, at: nat)
    requires at < |word| && word[at] !in s
    ensures !Strings.Contains(s, word)
  {
    if Strings.Contains(s, word) {
      var i := Strings.ContainsWitness(s, word);
    }
  }

  /** Matching is case-sensitive: "Fire" alone is invalid. */
  lemma CaseSensitive(ingredients: string)
    requires ingredients == "Fire"
    ensures ValidateIngredients(ingredients) == ingredients + InvalidSuffix
  {
    NoCharNoWord(ingredients, "fire", 0);
    NoCharNoWord(ingredients, "air", 0);
    NoCharNoWord(ingredients, "earth", 1);
    NoCharNoWord(ingredients, "water", 0);
  }
}
