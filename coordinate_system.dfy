/** Parsing of 3D coordinates written "x,y,z". */
module CoordinateSystem {
  import opened Wrappers
  import Numerals
  import Strings

  /** The exception `parse_coordinates` lets escape: IndexError when there
      are fewer than three parts, ValueError naming the part `int` refused. */
  datatype CoordError = IndexError | ValueError(part: string)

  /** `int(parts[k])`, raising IndexError for a missing part. */
  function PartAt(parts: seq<string>, k: nat): Result<int, CoordError>
  {
    if k >= |parts| then Err(IndexError)
    else match Numerals.ParseInt(parts[k])
      case Some(v) => Ok(v)
      case None => Err(ValueError(parts[k]))
  }

  /** Part j exists and `int` accepts it. */
  predicate Parses(parts: seq<string>, j: nat)
  {
    j < |parts| && Numerals.ParseInt(parts[j]).Some?
  }

  /** `parse_coordinates`: split on ',' and convert parts 0, 1 and 2 in order;
      the first failure raises, and any further parts are ignored. */
  function ParseCoordinates(s: string): (r: Result<(int, int, int), CoordError>)
    ensures r.Ok? <==> (|Strings.Split(s, ',')| >= 3 &&
      forall k :: 0 <= k < 3 ==> Numerals.ParseInt(Strings.Split(s, ',')[k]).Some?)
    ensures r.Ok? ==> var parts := Strings.Split(s, ',');
      r.value == (Numerals.ParseInt(parts[0]).value, Numerals.ParseInt(parts[1]).value, Numerals.ParseInt(parts[2]).value)
  {
    var parts := Strings.Split(s, ',');
    match PartAt(parts, 0)
    case Err(e) => Err(e)
    case Ok(x) =>
      match PartAt(parts, 1)
      case Err(e) => Err(e)
      case Ok(y) =>
        match PartAt(parts, 2)
        case Err(e) => Err(e)
        case Ok(z) => Ok((x, y, z))
  }

  /** The error raised is decided by the first of parts 0, 1 and 2 that is
      missing (IndexError) or that `int` refuses (ValueError naming it). */
  lemma FirstFailureDecides(s: string)
    ensures var parts := Strings.Split(s, ',');
      forall k :: 0 <= k < 3 && (forall j :: 0 <= j < k ==> Parses(parts, j)) && !Parses(parts, k) ==>
        ParseCoordinates(s) == (if k < |parts| then Err(ValueError(parts[k])) else Err(IndexError))
  {
    var parts := Strings.Split(s, ',');
    forall k | 0 <= k < 3 && (forall j :: 0 <= j < k ==> Parses(parts, j)) && !Parses(parts, k)
      ensures ParseCoordinates(s) == (if k < |parts| then Err(ValueError(parts[k])) else Err(IndexError))
    {
      if k >= 1 {
        assert Parses(parts, 0);
      }
      if k == 2 {
        assert Parses(parts, 1);
      }
    }
  }

  /** The text of an integer contains no comma. */
  lemma NoComma(x: int)
    ensures ',' !in Numerals.IntToString(x)
  {
    var s := Numerals.IntToString(x);
    if x < 0 {
      assert s == "-" + Numerals.NatToString(-x);
      assert forall i :: 1 <= i < |s| ==> s[i] == Numerals.NatToString(-x)[i - 1];
    }
  }

  /** Three parts that are the texts of x, y and z parse to (x, y, z). */
  lemma ParseTexts(s: string, x: int, y: int, z: int)
    requires var parts := Strings.Split(s, ',');
      |parts| >= 3 && parts[0] == Numerals.IntToString(x) &&
      parts[1] == Numerals.IntToString(y) && parts[2] == Numerals.IntToString(z)
    ensures ParseCoordinates(s) == Ok((x, y, z))
  {
    Numerals.ParseIntToString(x);
    Numerals.ParseIntToString(y);
    Numerals.ParseIntToString(z);
  }

  /** Coordinates written out with commas parse back to themselves. */
  lemma ParseRoundTrip(x: int, y: int, z: int)
    ensures ParseCoordinates(Numerals.IntToString(x) + "," + Numerals.IntToString(y) + "," + Numerals.IntToString(z))
      == Ok((x, y, z))
  {
    var xs, ys, zs := Numerals.IntToString(x), Numerals.IntToString(y), Numerals.IntToString(z);
    NoComma(x);
    NoComma(y);
    NoComma(z);
    Strings.SplitNone(zs, ',');
    Strings.SplitCons(ys, ',', zs);
    Strings.SplitCons(xs, ',', ys + [','] + zs);
    assert xs + "," + ys + "," + zs == xs + [','] + (ys + [','] + zs);
    ParseTexts(xs + "," + ys + "," + zs, x, y, z);
  }

  /** Splitting three comma-free texts joined by commas, followed by a comma
      and anything, gives the three texts first. */
  lemma SplitThree(xs: string, ys: string, zs: string, rest: string)
    requires ',' !in xs && ',' !in ys && ',' !in zs
    ensures var parts := Strings.Split(xs + [','] + ys + [','] + zs + [','] + rest, ',');
      |parts| >= 3 && parts[0] == xs && parts[1] == ys && parts[2] == zs
  {
    Strings.SplitCons(zs, ',', rest);
    Strings.SplitCons(ys, ',', zs + [','] + rest);
    Strings.SplitCons(xs, ',', ys + [','] + (zs + [','] + rest));
    assert xs + [','] + ys + [','] + zs + [','] + rest == xs + [','] + (ys + [','] + (zs + [','] + rest));
  }

  /** Parts after the third are ignored. */
  lemma ExtraPartsIgnored(x: int, y: int, z: int, rest: string)
    ensures ParseCoordinates(Numerals.IntToString(x) + "," + Numerals.IntToString(y) + "," + Numerals.IntToString(z)
      + "," + rest) == Ok((x, y, z))
  {
    var xs, ys, zs := Numerals.IntToString(x), Numerals.IntToString(y), Numerals.IntToString(z);
    NoComma(x);
    NoComma(y);
    NoComma(z);
    SplitThree(xs, ys, zs, rest);
    ParseTexts(xs + "," + ys + "," + zs + "," + rest, x, y, z);
  }

  /** With fewer than three parts the parse raises IndexError, unless a part
      before the missing one is not a number. */
  lemma TooFewParts(x: int, y: int)
    ensures ParseCoordinates(Numerals.IntToString(x) + "," + Numerals.IntToString(y)) == Err(IndexError)
  {
    var xs, ys := Numerals.IntToString(x), Numerals.IntToString(y);
    NoComma(x);
    NoComma(y);
    Numerals.ParseIntToString(x);
    Numerals.ParseIntToString(y);
    Strings.SplitNone(ys, ',');
    Strings.SplitCons(xs, ',', ys);
  }

  /** Words where numbers are expected: the first part is the one refused. */
  lemma InvalidCoordinates(s: string)
    requires s == "abc,def,ghi"
    ensures ParseCoordinates(s) == Err(ValueError("abc"))
  {
    FirstPart(s, "abc", "def,ghi");
    assert Numerals.ParseInt("abc").None? by {
      assert !Numerals.IsDigit("abc"[0]);
    }
  }

  /** A single word is one part: `int` refuses it before the missing second
      part is reached, so the error is a ValueError, not an IndexError. */
  lemma OnePartWord(s: string)
    requires s == "abc"
    ensures ParseCoordinates(s) == Err(ValueError("abc"))
  {
    Strings.SplitNone(s, ',');
    assert Numerals.ParseInt("abc").None? by {
      assert !Numerals.IsDigit("abc"[0]);
    }
  }

  /** The first part of a string that starts with a comma-free piece and a comma. */
  lemma FirstPart(s: string, first: string, rest: string)
    requires ',' !in first && s == first + [','] + rest
    ensures Strings.Split(s, ',')[0] == first
  {
    Strings.SplitCons(first, ',', rest);
  }
}
