/** The recursive harvest countdown: one line per day from `current` to `days`,
    then the harvest line. */
module CountHarvest {
  import Numerals

  /** A line the countdown prints. */
  datatype Line = DayLine(day: int) | HarvestLine

  /** The printed text of a line. */
  function Text(line: Line): string
  {
    match line
    case DayLine(day) => "Day " + Numerals.IntToString(day)
    case HarvestLine => "Harvest time!"
  }

  /** `ft_count_harvest_recursive(days, current)`: the lines it prints. The
      recursion stops once `current` passes `days`. */
  function HarvestLines(days: int, current: int): (lines: seq<Line>)
    ensures |lines| >= 1 && lines[|lines| - 1] == HarvestLine
    decreases days - current + 1
  {
    if current > days then [HarvestLine]
    else [DayLine(current)] + HarvestLines(days, current + 1)
  }

  /** Starting at `current`, there is one "Day k" line for each k from
      `current` to `days`, in order, and then the harvest line. */
  lemma {:induction false} HarvestCountdown(days: int, current: int)
    ensures |HarvestLines(days, current)| == if days >= current then days - current + 2 else 1
    ensures forall k :: 0 <= k <= days - current ==> HarvestLines(days, current)[k] == DayLine(current + k)
    decreases days - current + 1
  {
    if current <= days {
      HarvestCountdown(days, current + 1);
      var rest := HarvestLines(days, current + 1);
      assert HarvestLines(days, current) == [DayLine(current)] + rest;
      forall k | 0 <= k <= days - current
        ensures HarvestLines(days, current)[k] == DayLine(current + k)
      {
        if k > 0 {
          assert rest[k - 1] == DayLine(current + 1 + (k - 1));
        }
      }
    }
  }

  /** When the countdown has already passed, only the harvest line is printed. */
  lemma HarvestNow(days: int, current: int)
    requires current > days
    ensures HarvestLines(days, current) == [HarvestLine]
  {
  }

  /** The printed text tells the lines apart: two lines print the same text only
      when they are the same line, so every day of a countdown prints its own line
      and none reads "Harvest time!". */
  lemma TextsDistinct(a: Line, b: Line)
    ensures Text(a) == Text(b) <==> a == b
  {
    if a.DayLine? && b.DayLine? && Text(a) == Text(b) {
      assert Text(a)[4..] == Numerals.IntToString(a.day);
      assert Text(b)[4..] == Numerals.IntToString(b.day);
      Numerals.ParseIntToString(a.day);
      Numerals.ParseIntToString(b.day);
    } else if a.DayLine? && b.HarvestLine? {
      assert Text(a)[0] == 'D' != 'H' == Text(b)[0];
    } else if a.HarvestLine? && b.DayLine? {
      assert Text(a)[0] == 'H' != 'D' == Text(b)[0];
    }
  }
}
