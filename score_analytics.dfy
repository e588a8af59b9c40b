/** The player score analytics of the command line: every argument after the
    program name is parsed as a score, and the scores are summarised. */
module ScoreAnalytics {
  import opened Wrappers
  import Numerals
  import Seqs

  datatype Outcome =
    /** Only the program name was given. */
    | NoScores
    /** `int` refused this argument, and processing stopped there. */
    | InvalidInput(arg: string)
    /** The parsed scores and their summary. */
    | Summary(scores: seq<int>, players: int, total: int, high: int, low: int, range: int)

  /** The scores of `args`, or the first argument that is not an integer. */
  function ParseAll(args: seq<string>): (r: Result<seq<int>, string>)
    ensures r.Ok? ==> |r.value| == |args|
    ensures r.Ok? <==> forall k :: 0 <= k < |args| ==> Numerals.ParseInt(args[k]).Some?
    ensures r.Ok? ==> forall k :: 0 <= k < |args| ==> r.value[k] == Numerals.ParseInt(args[k]).value
  {
    if args == [] then Ok([])
    else
      var rest := ParseAll(args[1..]);
      assert forall k :: 0 <= k < |args[1..]| ==> args[1..][k] == args[k + 1];
      match Numerals.ParseInt(args[0])
      case None => Err(args[0])
      case Some(v) =>
        if rest.Err? then Err(rest.error)
        else Ok([v] + rest.value)
  }

  /** The failure names the first argument that does not parse. */
  lemma {:induction false} ParseAllFirstFailure(args: seq<string>, k: nat)
    requires k < |args| && Numerals.ParseInt(args[k]).None?
    requires forall j :: 0 <= j < k ==> Numerals.ParseInt(args[j]).Some?
    ensures ParseAll(args) == Err(args[k])
  {
    if k > 0 {
      assert Numerals.ParseInt(args[0]).Some?;
      assert forall j :: 0 <= j < k - 1 ==> args[1..][j] == args[j + 1];
      ParseAllFirstFailure(args[1..], k - 1);
    }
  }

  /** Python `max` of a non-empty list. */
  function Max(xs: seq<int>): (m: int)
    requires xs != []
    ensures m in xs && forall k :: 0 <= k < |xs| ==> xs[k] <= m
  {
    if |xs| == 1 then xs[0]
    else
      var rest := Max(xs[1..]);
      assert forall k :: 1 <= k < |xs| ==> xs[k] == xs[1..][k - 1];
      if xs[0] >= rest then xs[0] else rest
  }

  /** Python `min` of a non-empty list. */
  function Min(xs: seq<int>): (m: int)
    requires xs != []
    ensures m in xs && forall k :: 0 <= k < |xs| ==> m <= xs[k]
  {
    if |xs| == 1 then xs[0]
    else
      var rest := Min(xs[1..]);
      assert forall k :: 1 <= k < |xs| ==> xs[k] == xs[1..][k - 1];
      if xs[0] <= rest then xs[0] else rest
  }

  /** `main` on the argument vector (whose first element is the program name):
      the loop parses the arguments after the first in order, and the summary
      reports the count, sum, highest, lowest and their difference. */
  method Analyse(argv: seq<string>) returns (r: Outcome)
    requires |argv| >= 1
    ensures |argv| == 1 ==> r == NoScores
    ensures |argv| > 1 ==> (r.InvalidInput? <==> ParseAll(argv[1..]).Err?)
    ensures |argv| > 1 && r.InvalidInput? ==> r.arg == ParseAll(argv[1..]).error
    ensures r.Summary? ==> r.scores == ParseAll(argv[1..]).value && r.players == |argv| - 1
    ensures r.Summary? ==> r.total == Seqs.Sum(r.scores) && r.range == r.high - r.low >= 0
    ensures r.Summary? ==> r.high in r.scores && r.low in r.scores
    ensures r.Summary? ==> forall k :: 0 <= k < |r.scores| ==> r.low <= r.scores[k] <= r.high
  {
    if |argv| == 1 {
      return NoScores;
    }
    var scores: seq<int> := [];
    var i := 0;
    while i < |argv|
      invariant 0 <= i <= |argv|
      invariant i > 0 ==> ParseAll(argv[1..i]) == Ok(scores)
      invariant i == 0 ==> scores == []
    {
      if i > 0 {
        var parsed := Numerals.ParseInt(argv[i]);
        ParseAllSnoc(argv[1..i], argv[i]);
        Seqs.SliceSnoc(argv, 1, i);
        if parsed.None? {
          ParseAllExtend(argv[1..i + 1], argv[i + 1..]);
          Seqs.SliceRest(argv, 1, i + 1);
          return InvalidInput(argv[i]);
        }
        scores := scores + [parsed.value];
      } else {
        assert argv[1..1] == [];
      }
      i := i + 1;
    }
    assert argv[1..i] == argv[1..];
    var high, low := Max(scores), Min(scores);
    r := Summary(scores, i - 1, Seqs.Sum(scores), high, low, high - low);
  }

  /** Parsing one more argument: an error so far stays, otherwise the new
      argument decides. */
  lemma ParseAllSnoc(args: seq<string>, a: string)
    ensures ParseAll(args).Ok? && Numerals.ParseInt(a).Some? ==>
      ParseAll(args + [a]) == Ok(ParseAll(args).value + [Numerals.ParseInt(a).value])
    ensures ParseAll(args).Ok? && Numerals.ParseInt(a).None? ==> ParseAll(args + [a]) == Err(a)
  {
    var all := args + [a];
    assert forall k :: 0 <= k < |args| ==> all[k] == args[k];
    assert all[|args|] == a;
    if ParseAll(args).Ok? && Numerals.ParseInt(a).Some? {
      var vs := ParseAll(args).value + [Numerals.ParseInt(a).value];
      assert forall k :: 0 <= k < |all| ==> vs[k] == Numerals.ParseInt(all[k]).value;
      assert ParseAll(all).Ok?;
      assert ParseAll(all).value == vs;
    } else if ParseAll(args).Ok? {
      ParseAllFirstFailure(all, |args|);
    }
  }

  /** The first refused argument stays the reported one whatever follows. */
  lemma {:induction false} ParseAllExtend(args: seq<string>, more: seq<string>)
    requires ParseAll(args).Err?
    ensures ParseAll(args + more) == ParseAll(args)
  {
    assert (args + more)[0] == args[0];
    if Numerals.ParseInt(args[0]).Some? {
      assert (args + more)[1..] == args[1..] + more;
      ParseAllExtend(args[1..], more);
    }
  }
}
