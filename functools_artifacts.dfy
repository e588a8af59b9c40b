/** Reduction by a named operation, the memoised Fibonacci function and the
    dispatch of a spell on the type of its argument. */
module FunctoolsArtifacts {
  import opened Wrappers
  import Numerals
  import PyValues
  import GameStream
  import Seqs

  datatype Op = Add | Multiply | Max | Min

  /** The `ops` table: the supported operation names. */
  function LookupOp(operation: string): (r: Option<Op>)
    ensures r.Some? <==> operation in {"add", "multiply", "max", "min"}
  {
    if operation == "add" then Some(Add)
    else if operation == "multiply" then Some(Multiply)
    else if operation == "max" then Some(Max)
    else if operation == "min" then Some(Min)
    else None
  }

  function Apply(op: Op, a: int, b: int): int
  {
    match op
    case Add => a + b
    case Multiply => a * b
    case Max => if b > a then b else a
    case Min => if b < a then b else a
  }

  /** `functools.reduce(op, spells)`: folded from the left, starting with the
      first element. */
  function Reduce(op: Op, spells: seq<int>): int
    requires spells != []
  {
    if |spells| == 1 then spells[0] else Apply(op, Reduce(op, spells[..|spells| - 1]), spells[|spells| - 1])
  }

  /** `spell_reducer`: an unknown operation is an error even for an empty
      list; an empty list gives 0 for every operation but multiply, which gives 1. */
  function SpellReducer(spells: seq<int>, operation: string): (r: Result<int, string>)
    ensures r.Err? <==> LookupOp(operation).None?
    ensures r.Err? ==> r.error == "Unsupported operation: " + operation
    ensures r.Ok? && spells == [] ==> r.value == (if operation == "multiply" then 1 else 0)
    ensures r.Ok? && spells != [] ==> r.value == Reduce(LookupOp(operation).value, spells)
  {
    match LookupOp(operation)
    case None => Err("Unsupported operation: " + operation)
    case Some(op) =>
      if spells == [] then (if operation == "add" then Ok(0) else if operation == "multiply" then Ok(1) else Ok(0))
      else Ok(Reduce(op, spells))
  }

  /** The product, taken from the front. */
  function Product(s: seq<int>): int
  {
    if s == [] then 1 else s[0] * Product(s[1..])
  }

  lemma {:induction false} ProductSnoc(s: seq<int>, x: int)
    ensures Product(s + [x]) == Product(s) * x
  {
    if s != [] {
      assert (s + [x])[1..] == s[1..] + [x];
      ProductSnoc(s[1..], x);
      assert s[0] * (Product(s[1..]) * x) == (s[0] * Product(s[1..])) * x;
    } else {
      assert s + [x] == [x];
    }
  }

  /** Reducing with add is the sum. */
  lemma {:induction false} ReduceAdd(spells: seq<int>)
    requires spells != []
    ensures Reduce(Add, spells) == Seqs.Sum(spells)
    decreases |spells|
  {
    if |spells| == 1 {
      assert spells[1..] == [];
    } else {
      var init := spells[..|spells| - 1];
      ReduceAdd(init);
      Seqs.SumSnoc(init, spells[|spells| - 1]);
      assert init + [spells[|spells| - 1]] == spells;
    }
  }

  /** Reducing with multiply is the product. */
  lemma {:induction false} ReduceMultiply(spells: seq<int>)
    requires spells != []
    ensures Reduce(Multiply, spells) == Product(spells)
    decreases |spells|
  {
    if |spells| == 1 {
      assert spells[1..] == [];
    } else {
      var init := spells[..|spells| - 1];
      ReduceMultiply(init);
      ProductSnoc(init, spells[|spells| - 1]);
      assert init + [spells[|spells| - 1]] == spells;
    }
  }

  /** Reducing with max gives an element no smaller than any other. */
  lemma {:induction false} ReduceMax(spells: seq<int>)
    requires spells != []
    ensures Reduce(Max, spells) in spells
    ensures forall i :: 0 <= i < |spells| ==> spells[i] <= Reduce(Max, spells)
    decreases |spells|
  {
    if |spells| > 1 {
      var init := spells[..|spells| - 1];
      ReduceMax(init);
      assert forall i :: 0 <= i < |init| ==> init[i] == spells[i];
    }
  }

  /** Reducing with min gives an element no larger than any other. */
  lemma {:induction false} ReduceMin(spells: seq<int>)
    requires spells != []
    ensures Reduce(Min, spells) in spells
    ensures forall i :: 0 <= i < |spells| ==> Reduce(Min, spells) <= spells[i]
    decreases |spells|
  {
    if |spells| > 1 {
      var init := spells[..|spells| - 1];
      ReduceMin(init);
      assert forall i :: 0 <= i < |init| ==> init[i] == spells[i];
    }
  }

  /** The demonstration's sum, product and maximum. */
  lemma ReducerDemo()
    ensures SpellReducer([10, 20, 30, 40], "add") == Ok(100)
    ensures SpellReducer([20, 30, 40, 10], "multiply") == Ok(240000)
    ensures SpellReducer([10, 20, 40, 30], "max") == Ok(40)
  {
    ReduceAdd([10, 20, 30, 40]);
    ReduceMultiply([20, 30, 40, 10]);
    ReduceMax([10, 20, 40, 30]);
  }

  /** `memoized_fibonacci`: the same recursion, refusing negative numbers at
      every level; the cache changes only the cost, not the values. */
  function MemoizedFibonacci(n: int): (r: Result<nat, string>)
    ensures r.Err? <==> n < 0
    ensures r.Err? ==> r.error == "Fibonacci is not defined for negative numbers"
    ensures r.Ok? ==> r.value == GameStream.Fib(n)
    decreases n
  {
    if n < 0 then Err("Fibonacci is not defined for negative numbers")
    else if n <= 1 then Ok(n as nat)
    else
      match (MemoizedFibonacci(n - 1), MemoizedFibonacci(n - 2))
      case (Ok(a), Ok(b)) => Ok(a + b)
      case _ => assert false; Err("Fibonacci is not defined for negative numbers")
  }

  /** The recurrence, as the memoised function sees it. */
  lemma FibonacciRecurrence(n: int)
    requires n >= 2
    ensures MemoizedFibonacci(n).value == MemoizedFibonacci(n - 1).value + MemoizedFibonacci(n - 2).value
  {
  }

  /** The demonstration's values. */
  lemma FibonacciDemo()
    ensures MemoizedFibonacci(10) == Ok(55) && MemoizedFibonacci(15) == Ok(610)
  {
    assert GameStream.Fib(2) == 1 && GameStream.Fib(3) == 2 && GameStream.Fib(4) == 3 && GameStream.Fib(5) == 5;
    assert GameStream.Fib(6) == 8 && GameStream.Fib(7) == 13 && GameStream.Fib(8) == 21 && GameStream.Fib(9) == 34;
    assert GameStream.Fib(10) == 55 && GameStream.Fib(11) == 89 && GameStream.Fib(12) == 144;
    assert GameStream.Fib(13) == 233 && GameStream.Fib(14) == 377;
  }

  /** The dispatcher built by `spell_dispatcher`: by the type of the
      argument. A bool is an int to the dispatch, so it deals "True" or
      "False" damage. */
  function Dispatch(arg: PyValues.Value): (msg: string)
    ensures arg.VInt? || arg.VBool? ==> msg == "Dealing " + PyValues.Str(arg) + " damage"
    ensures arg.VStr? ==> msg == "Enchanting with " + arg.s
    ensures arg.VList? ==> msg == "Casting multiple spells: " + Numerals.IntToString(|arg.items|) + " spells"
    ensures !(arg.VInt? || arg.VBool? || arg.VStr? || arg.VList?) ==> msg == "Unknown spell type"
  {
    match arg
    case VInt(n) => "Dealing " + Numerals.IntToString(n) + " damage"
    case VBool(b) => "Dealing " + (if b then "True" else "False") + " damage"
    case VStr(s) => "Enchanting with " + s
    case VList(items) => "Casting multiple spells: " + Numerals.IntToString(|items|) + " spells"
    case _ => "Unknown spell type"
  }

  /** The damage of an int spell can be read back from the message. */
  lemma DamageReadBack(n: int)
    ensures var msg := Dispatch(PyValues.VInt(n));
      |msg| >= 15 && Numerals.ParseInt(msg[8..|msg| - 7]) == Some(n)
  {
    var msg := Dispatch(PyValues.VInt(n));
    var t := Numerals.IntToString(n);
    assert msg == "Dealing " + t + " damage";
    assert msg[8..|msg| - 7] == t;
    Numerals.ParseIntToString(n);
  }
}
