/** The temperature checker: a text is parsed as an integer and accepted when it
    lies between 0 and 40 degrees; anything else gives None without raising. */
module FirstException {
  import opened Wrappers
  import Numerals

  /** `check_temperature`: the parsed temperature when it is in [0, 40];
      None when it is colder, hotter, or not a number. */
  function CheckTemperature(text: string): (r: Option<int>)
    ensures r.Some? <==> Numerals.ParseInt(text).Some? && 0 <= Numerals.ParseInt(text).value <= 40
    ensures r.Some? ==> r.value == Numerals.ParseInt(text).value
  {
    match Numerals.ParseInt(text)
    case None => None
    case Some(t) => if t < 0 then None else if t > 40 then None else Some(t)
  }

  /** The decimal text of a temperature is accepted exactly when the
      temperature is in range, and then gives it back. */
  lemma CheckTemperatureOfText(t: int)
    ensures CheckTemperature(Numerals.IntToString(t)) == (if 0 <= t <= 40 then Some(t) else None)
  {
    Numerals.ParseIntToString(t);
  }

  /** Text that is not a signed digit string is never accepted: the empty text,
      and any text with a character at position `k` that is neither a digit nor a
      leading sign in front of more characters. */
  lemma NotANumber(text: string, k: nat)
    requires text == [] || (k < |text| && !Numerals.IsDigit(text[k])
                            && (k > 0 || |text| == 1 || (text[0] != '-' && text[0] != '+')))
    ensures CheckTemperature(text) == None
  {
    if text != [] {
      assert !Numerals.AllDigits(text);
      if k > 0 {
        assert text[1..][k - 1] == text[k];
      }
    }
  }

  /** "abc", the demonstration's non-number, is rejected. */
  lemma NotANumberDemo()
    ensures CheckTemperature("abc") == None
  {
    NotANumber("abc", 0);
  }

  /** The demonstration inputs: 25 is accepted, 100 and -50 are not. */
  lemma TemperatureDemo()
    ensures CheckTemperature(Numerals.IntToString(25)) == Some(25)
    ensures CheckTemperature(Numerals.IntToString(100)) == None
    ensures CheckTemperature(Numerals.IntToString(-50)) == None
  {
    CheckTemperatureOfText(25);
    CheckTemperatureOfText(100);
    CheckTemperatureOfText(-50);
  }
}
