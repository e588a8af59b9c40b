/** Sorting, filtering and mapping spell records by their "power" key. */
module LambdaSpells {
  import opened Wrappers
  import opened Sorting
  import Seqs

  /** A record of the source's dicts: its name, its optional "power" entry
      and the rest of its entries, carried along unchanged. */
  datatype Record = Record(name: string, power: Option<int>, kind: string)

  /** `dic.get("power", 0)`. */
  function Power(r: Record): int
  {
    if r.power.Some? then r.power.value else 0
  }

  predicate NonIncreasing(s: seq<Record>)
  {
    forall i, j :: 0 <= i < j < |s| ==> Power(s[i]) >= Power(s[j])
  }

  /** `sorted(..., reverse=True)` is stable, so it is the stable ascending
      sort on the negated power. */
  function PowerKey(r: Record): Key
  {
    Key(-Power(r), 0)
  }

  /** `artifact_sorter`: the same records, most powerful first, records of
      equal power in their input order. */
  function ArtifactSorter(artifacts: seq<Record>): (sorted: seq<Record>)
    ensures multiset(sorted) == multiset(artifacts) && |sorted| == |artifacts|
    ensures NonIncreasing(sorted)
    ensures forall k :: WithKey(sorted, PowerKey, k) == WithKey(artifacts, PowerKey, k)
  {
    SortPermutes(artifacts, PowerKey);
    SortSorted(artifacts, PowerKey);
    forall k
      ensures WithKey(InsertionSort(artifacts, PowerKey), PowerKey, k) == WithKey(artifacts, PowerKey, k)
    {
      SortStable(artifacts, PowerKey, k);
    }
    InsertionSort(artifacts, PowerKey)
  }

  /** `power_filter`: the mages with power at least `minPower`, in order. */
  function PowerFilter(mages: seq<Record>, minPower: int): (r: seq<Record>)
    ensures |r| <= |mages|
  {
    if mages == [] then []
    else (if Power(mages[0]) >= minPower then [mages[0]] else []) + PowerFilter(mages[1..], minPower)
  }

  /** The filter keeps every record of enough power, as often as it occurs,
      and no other. */
  lemma {:induction false} PowerFilterCounts(mages: seq<Record>, minPower: int, x: Record)
    ensures multiset(PowerFilter(mages, minPower))[x] == if Power(x) >= minPower then multiset(mages)[x] else 0
  {
    if mages != [] {
      PowerFilterCounts(mages[1..], minPower, x);
      FilterHeadCount(mages, minPower, x);
      Seqs.HeadCount(mages, x);
    }
  }

  /** The filter's count of `x` gains one for a kept head equal to `x`. */
  lemma FilterHeadCount(mages: seq<Record>, minPower: int, x: Record)
    requires mages != []
    ensures multiset(PowerFilter(mages, minPower))[x] ==
      multiset(PowerFilter(mages[1..], minPower))[x] + (if mages[0] == x && Power(x) >= minPower then 1 else 0)
  {
    var h := if Power(mages[0]) >= minPower then [mages[0]] else [];
    assert PowerFilter(mages, minPower) == h + PowerFilter(mages[1..], minPower);
  }

  /** Filtering a concatenation filters each part: the order is kept. */
  lemma {:induction false} PowerFilterAppend(a: seq<Record>, b: seq<Record>, minPower: int)
    ensures PowerFilter(a + b, minPower) == PowerFilter(a, minPower) + PowerFilter(b, minPower)
  {
    if a != [] {
      PowerFilterAppend(a[1..], b, minPower);
      var h := if Power(a[0]) >= minPower then [a[0]] else [];
      assert (a + b)[0] == a[0] && (a + b)[1..] == a[1..] + b;
      calc {
        PowerFilter(a + b, minPower);
        h + PowerFilter(a[1..] + b, minPower);
        h + (PowerFilter(a[1..], minPower) + PowerFilter(b, minPower));
        (h + PowerFilter(a[1..], minPower)) + PowerFilter(b, minPower);
        PowerFilter(a, minPower) + PowerFilter(b, minPower);
      }
    } else {
      assert a + b == b;
    }
  }

  /** `spell_transformer`: each name framed by "* " and " *". */
  function SpellTransformer(spells: seq<string>): (r: seq<string>)
    ensures |r| == |spells|
    ensures forall i :: 0 <= i < |r| ==> r[i] == "* " + spells[i] + " *"
  {
    if spells == [] then [] else ["* " + spells[0] + " *"] + SpellTransformer(spells[1..])
  }

  /** Each name can be read back from its framed form. */
  lemma TransformerUnframes(spells: seq<string>, i: int)
    requires 0 <= i < |spells|
    ensures var t := SpellTransformer(spells)[i]; |t| == |spells[i]| + 4 && t[2..|t| - 2] == spells[i]
  {
    var t := SpellTransformer(spells)[i];
    assert t == "* " + spells[i] + " *";
  }

  /** `max(mages, key=...)`: the first record of greatest power. */
  function MaxBy(mages: seq<Record>): (m: Record)
    requires mages != []
    ensures m in mages && forall i :: 0 <= i < |mages| ==> Power(mages[i]) <= Power(m)
  {
    if |mages| == 1 then mages[0]
    else
      var rest := MaxBy(mages[1..]);
      assert forall i :: 1 <= i < |mages| ==> mages[i] == mages[1..][i - 1];
      if Power(rest) > Power(mages[0]) then rest else mages[0]
  }

  /** `min(mages, key=...)`: the first record of least power. */
  function MinBy(mages: seq<Record>): (m: Record)
    requires mages != []
    ensures m in mages && forall i :: 0 <= i < |mages| ==> Power(m) <= Power(mages[i])
  {
    if |mages| == 1 then mages[0]
    else
      var rest := MinBy(mages[1..]);
      assert forall i :: 1 <= i < |mages| ==> mages[i] == mages[1..][i - 1];
      if Power(rest) < Power(mages[0]) then rest else mages[0]
  }

  datatype Stats = Stats(maxPower: int, minPower: int)

  /** `mage_stats`, its maximum and minimum: `max` raises on an empty list
      before the length guard is reached. */
  function MageStats(mages: seq<Record>): (r: Result<Stats, string>)
    ensures r.Err? <==> mages == []
    ensures r.Ok? ==> r.value.minPower <= r.value.maxPower
    ensures r.Ok? ==> exists i :: 0 <= i < |mages| && Power(mages[i]) == r.value.maxPower
    ensures r.Ok? ==> exists i :: 0 <= i < |mages| && Power(mages[i]) == r.value.minPower
    ensures r.Ok? ==> forall i :: 0 <= i < |mages| ==> r.value.minPower <= Power(mages[i]) <= r.value.maxPower
  {
    if mages == [] then Err("max() arg is an empty sequence")
    else
      var hi := MaxBy(mages);
      var lo := MinBy(mages);
      Ok(Stats(Power(hi), Power(lo)))
  }

  /** The demonstration: the Fire Staff (92) comes before the Crystal Orb (85). */
  lemma SorterDemo(staff: Record, orb: Record)
    requires staff.power == Some(92) && orb.power == Some(85)
    ensures ArtifactSorter([staff, orb]) == [staff, orb]
    ensures ArtifactSorter([orb, staff]) == [staff, orb]
  {
    SortTwo(staff, orb, PowerKey);
    SortTwo(orb, staff, PowerKey);
  }
}
