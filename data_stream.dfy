/** The polymorphic data streams of the Code Nexus: a base stream whose filter keeps
    the items whose text mentions the criteria, a sensor stream with a "critical"
    filter, a transaction stream that folds "buy:N"/"sell:N" items into a net flow,
    and an event stream that counts "error" items. */
module DataStreams {
  import opened Wrappers
  import opened PyValues
  import opened Numerals
  import Strings
  import Seqs

  datatype StreamKind = SensorStream | TransactionStream | EventStream

  /** `self.__class__.__name__`. */
  function TypeName(kind: StreamKind): string
  {
    match kind
    case SensorStream => "SensorStream"
    case TransactionStream => "TransactionStream"
    case EventStream => "EventStream"
  }

  datatype StreamStats = StreamStats(id: string, status: string, kind: string)

  class DataStream {
    const kind: StreamKind
    const streamId: string
    /** Set to "active" at construction and never changed. */
    const status: string := "active"

    constructor (kind: StreamKind, streamId: string)
      ensures this.kind == kind && this.streamId == streamId
    {
      this.kind := kind;
      this.streamId := streamId;
    }

    /** `get_stats`: the id, the status (always "active") and the class name. */
    function GetStats(): (stats: StreamStats)
      ensures stats.id == streamId && stats.status == "active" && stats.kind == TypeName(kind)
    {
      StreamStats(streamId, status, TypeName(kind))
    }
  }

  /** The base `filter_data`: a falsy criteria keeps the batch; otherwise the items
      whose `str` contains `str(criteria)` are kept, in order. */
  function BaseFilter(batch: seq<Value>, criteria: Value): (r: seq<Value>)
    ensures !Truthy(criteria) ==> r == batch
    ensures Truthy(criteria) ==>
      && (forall i :: 0 <= i < |r| ==> r[i] in batch && Strings.Contains(Str(r[i]), Str(criteria)))
      && (forall i :: 0 <= i < |batch| && Strings.Contains(Str(batch[i]), Str(criteria)) ==> batch[i] in r)
  {
    if !Truthy(criteria) then batch
    else Seqs.Filter(batch, (item: Value) => Strings.Contains(Str(item), Str(criteria)))
  }

  predicate Critical(item: Value)
  {
    Strings.Contains(Str(item), "alert") || Strings.Contains(Str(item), "crit")
  }

  /** `SensorStream.filter_data`: "critical" keeps the items mentioning "alert" or
      "crit"; any other criteria is the base filter. */
  function SensorFilter(batch: seq<Value>, criteria: Value): (r: seq<Value>)
    ensures criteria == VStr("critical") ==>
      && (forall i :: 0 <= i < |r| ==> r[i] in batch && Critical(r[i]))
      && (forall i :: 0 <= i < |batch| && Critical(batch[i]) ==> batch[i] in r)
    ensures criteria != VStr("critical") ==> r == BaseFilter(batch, criteria)
  {
    if criteria == VStr("critical") then Seqs.Filter(batch, Critical) else BaseFilter(batch, criteria)
  }

  /** Filtering a batch in two parts filters each part, so the filters keep order. */
  lemma SensorFilterAppend(a: seq<Value>, b: seq<Value>)
    ensures SensorFilter(a + b, VStr("critical")) == SensorFilter(a, VStr("critical")) + SensorFilter(b, VStr("critical"))
  {
    Seqs.FilterAppend(a, b, Critical);
  }

  /** The exceptions `TransactionStream.process_batch` lets escape: unpacking
      `item.split(":")` into two names, and `int(val_str)`. */
  datatype TxError = UnpackError | NotAnInteger(text: string)

  /** One item of a transaction batch: ignored (`None`) unless it is a string with a
      colon, in which case it must be exactly `action:integer`. */
  function ParseTransaction(item: Value): (r: Result<Option<(string, int)>, TxError>)
    ensures r == Ok(None) <==> !item.VStr? || ':' !in item.s
    ensures r.Ok? && r.value.Some? ==> item.VStr? && item.s == r.value.value.0 + ":" + IntTextOf(item.s)
  {
    if !item.VStr? || ':' !in item.s then Ok(None)
    else
      var parts := Strings.Split(item.s, ':');
      Strings.SplitJoin(item.s, ':');
      if |parts| != 2 then Err(UnpackError)
      else
        match ParseInt(parts[1])
        case None => Err(NotAnInteger(parts[1]))
        case Some(v) => Ok(Some((parts[0], v)))
  }

  /** The text after the colon of an `action:value` item. */
  function IntTextOf(s: string): string
  {
    var parts := Strings.Split(s, ':');
    if |parts| >= 2 then parts[1] else ""
  }

  /** The effect of one item on the net flow. */
  function Step(net: int, item: Value): Result<int, TxError>
  {
    match ParseTransaction(item)
    case Err(e) => Err(e)
    case Ok(None) => Ok(net)
    case Ok(Some((action, v))) =>
      Ok(if action == "buy" then net + v else if action == "sell" then net - v else net)
  }

  /** The net flow of a batch, processed left to right; the first bad item raises. */
  function NetFlow(batch: seq<Value>): Result<int, TxError>
  {
    if batch == [] then Ok(0)
    else
      match NetFlow(batch[..|batch| - 1])
      case Err(e) => Err(e)
      case Ok(net) => Step(net, batch[|batch| - 1])
  }

  /** The value an item adds to the total of `action`. */
  function ActionValue(item: Value, action: string): int
  {
    match ParseTransaction(item)
    case Ok(Some((a, v))) => if a == action then v else 0
    case _ => 0
  }

  /** The sum of the values of the well-formed items with the given action. */
  function ActionTotal(batch: seq<Value>, action: string): int
  {
    if batch == [] then 0 else ActionTotal(batch[..|batch| - 1], action) + ActionValue(batch[|batch| - 1], action)
  }

  /** The net flow raises exactly when some item is malformed; otherwise it is the
      total bought minus the total sold, other actions and other items not counting. */
  lemma {:induction false} NetFlowIsBuysMinusSells(batch: seq<Value>)
    ensures NetFlow(batch).Err? <==> exists i :: 0 <= i < |batch| && ParseTransaction(batch[i]).Err?
    ensures NetFlow(batch).Ok? ==> NetFlow(batch).value == ActionTotal(batch, "buy") - ActionTotal(batch, "sell")
  {
    if batch != [] {
      var init := batch[..|batch| - 1];
      NetFlowIsBuysMinusSells(init);
      assert forall i :: 0 <= i < |init| ==> init[i] == batch[i];
      if NetFlow(batch).Err? && NetFlow(init).Ok? {
        assert ParseTransaction(batch[|batch| - 1]).Err?;
      }
      if NetFlow(init).Err? {
        var i :| 0 <= i < |init| && ParseTransaction(init[i]).Err?;
        assert ParseTransaction(batch[i]).Err?;
      }
    }
  }

  /** `f"{sign}{net_flow}"`: a "+" exactly for a non-negative flow. */
  function SignedText(net: int): (t: string)
    ensures |t| >= 2
    ensures t[0] == '+' <==> net >= 0
    ensures t[0] == '-' <==> net < 0
    ensures t[1..] == NatToString(if net >= 0 then net else -net)
  {
    (if net >= 0 then "+" else "") + IntToString(net)
  }

  function TransactionReport(count: nat, net: int): string
  {
    "Transaction analysis: " + IntToString(count) + " operations, net flow: " + SignedText(net) + " units"
  }

  /** `TransactionStream.process_batch`: the folding loop. */
  method ProcessTransactions(batch: seq<Value>) returns (r: Result<string, TxError>)
    ensures NetFlow(batch).Err? ==> r == Err(NetFlow(batch).error)
    ensures NetFlow(batch).Ok? ==> r == Ok(TransactionReport(|batch|, NetFlow(batch).value))
  {
    var net := 0;
    var i := 0;
    while i < |batch|
      invariant 0 <= i <= |batch|
      invariant NetFlow(batch[..i]) == Ok(net)
    {
      assert batch[..i + 1][..i] == batch[..i];
      var step := Step(net, batch[i]);
      if step.Err? {
        NetFlowErrSticks(batch, i + 1);
        return Err(step.error);
      }
      net := step.value;
      i := i + 1;
    }
    assert batch[..i] == batch;
    r := Ok(TransactionReport(|batch|, net));
  }

  /** Once a prefix raises, the whole batch raises with the same error. */
  lemma {:induction false} NetFlowErrSticks(batch: seq<Value>, n: nat)
    requires n <= |batch| && NetFlow(batch[..n]).Err?
    ensures NetFlow(batch) == NetFlow(batch[..n])
    decreases |batch| - n
  {
    if n < |batch| {
      assert batch[..n + 1][..n] == batch[..n];
      NetFlowErrSticks(batch, n + 1);
    } else {
      assert batch[..n] == batch;
    }
  }

  /** The value `int(x.split(":")[1])` of the high-value filter; `None` for the
      AttributeError, IndexError or ValueError it raises. */
  function TxValue(x: Value): Option<int>
  {
    if !x.VStr? then None
    else
      var parts := Strings.Split(x.s, ':');
      if |parts| < 2 then None else ParseInt(parts[1])
  }

  predicate HighValue(x: Value)
  {
    TxValue(x).Some? && TxValue(x).value > 500
  }

  /** `TransactionStream.filter_data`: "high_value" keeps the items worth more than
      500 and raises on an item without a value; any other criteria, including
      none, keeps the batch. */
  function TransactionFilter(batch: seq<Value>, criteria: Value): (r: Result<seq<Value>, string>)
    ensures criteria != VStr("high_value") ==> r == Ok(batch)
    ensures criteria == VStr("high_value") ==>
      (r.Ok? <==> forall i :: 0 <= i < |batch| ==> TxValue(batch[i]).Some?)
    ensures criteria == VStr("high_value") && r.Ok? ==>
      && (forall i :: 0 <= i < |r.value| ==> r.value[i] in batch && HighValue(r.value[i]))
      && (forall i :: 0 <= i < |batch| && HighValue(batch[i]) ==> batch[i] in r.value)
  {
    if criteria != VStr("high_value") then Ok(batch)
    else if forall i :: 0 <= i < |batch| ==> TxValue(batch[i]).Some? then Ok(Seqs.Filter(batch, HighValue))
    else Err("invalid transaction item")
  }

  function EventReport(count: nat, errors: nat): string
  {
    "Event analysis: " + IntToString(count) + " events, " + IntToString(errors) + " error detected"
  }

  /** `EventStream.process_batch`: the number of items equal to "error". */
  function ProcessEvents(batch: seq<Value>): (r: string)
    ensures r == EventReport(|batch|, multiset(batch)[VStr("error")])
  {
    Seqs.OccurrencesMultiset(batch, VStr("error"));
    EventReport(|batch|, Seqs.Occurrences(batch, VStr("error")))
  }

  /** The item `f"{action}:{v}"`. */
  function TxItem(action: string, v: nat): Value
  {
    VStr(action + ":" + NatToString(v))
  }

  /** The transaction batch of the demonstration, "buy:100", "sell:150", "buy:75",
      has a net flow of +25. */
  lemma DemoNetFlow()
    ensures NetFlow([TxItem("buy", 100), TxItem("sell", 150), TxItem("buy", 75)]) == Ok(25)
  {
    BuySellItem("buy", 100);
    BuySellItem("sell", 150);
    BuySellItem("buy", 75);
    FoldThree(TxItem("buy", 100), TxItem("sell", 150), TxItem("buy", 75));
  }

  lemma FoldThree(x1: Value, x2: Value, x3: Value)
    requires ParseTransaction(x1) == Ok(Some(("buy", 100)))
    requires ParseTransaction(x2) == Ok(Some(("sell", 150)))
    requires ParseTransaction(x3) == Ok(Some(("buy", 75)))
    ensures NetFlow([x1, x2, x3]) == Ok(25)
  {
    assert NetFlow([x1]) == Ok(100) by {
      NetFlowSnoc([], x1);
      assert [] + [x1] == [x1];
    }
    assert NetFlow([x1, x2]) == Ok(-50) by {
      NetFlowSnoc([x1], x2);
      assert [x1] + [x2] == [x1, x2];
    }
    NetFlowSnoc([x1, x2], x3);
    assert [x1, x2] + [x3] == [x1, x2, x3];
  }

  /** The event batch of the demonstration has one error. */
  lemma DemoEvents(e: seq<Value>)
    requires e == [VStr("login"), VStr("error"), VStr("logout")]
    ensures Seqs.Occurrences(e, VStr("error")) == 1
    ensures ProcessEvents(e) == EventReport(3, 1)
  {
    assert e[1..] == [VStr("error"), VStr("logout")];
    assert e[1..][1..] == [VStr("logout")];
    assert e[1..][1..][1..] == [];
    Seqs.OccurrencesMultiset(e, VStr("error"));
  }

  /** The net flow of a batch with one more item. */
  lemma NetFlowSnoc(init: seq<Value>, x: Value)
    ensures NetFlow(init + [x]) == match NetFlow(init) case Err(e) => Err(e) case Ok(n) => Step(n, x)
  {
    assert (init + [x])[..|init|] == init;
  }

  /** An `action:value` item parses to its action and value. */
  lemma BuySellItem(action: string, v: nat)
    requires ':' !in action
    ensures ParseTransaction(VStr(action + ":" + NatToString(v))) == Ok(Some((action, v)))
  {
    var d := NatToString(v);
    var s := action + ":" + d;
    assert ':' in s by {
      assert s == action + [':'] + d;
      assert s[|action|] == ':';
    }
    assert Strings.Split(s, ':') == [action, d] by {
      assert s == action + [':'] + d;
      assert ':' !in d by {
        forall k | 0 <= k < |d| ensures d[k] != ':' { assert IsDigit(d[k]); }
      }
      Strings.SplitCons(action, ':', d);
      Strings.SplitNone(d, ':');
    }
    assert ParseInt(d) == Some(v) by {
      NatToStringValue(v);
    }
    assert IsDigit(d[0]);
  }
}
