/** The data processors of the Code Nexus foundation: a numeric processor that
    validates and sums lists of integers, a text processor that counts characters
    and words, and a log processor that rewrites and tags log lines. The `silent`
    flag only controls printing and is not modelled. */
module StreamProcessors {
  import opened Wrappers
  import opened PyValues
  import opened Numerals
  import Strings
  import Seqs

  /** The base `format_output`. */
  function FormatOutput(result: string): (out: string)
    ensures |out| == |result| + 8 && out[8..] == result
  {
    "Output: " + result
  }

  /** `NumericProcessor.validate`: a list whose every element has exact type int
      (so `True` is rejected). */
  predicate IsIntList(data: Value)
  {
    data.VList? && forall i :: 0 <= i < |data.items| ==> data.items[i].VInt?
  }

  /** The loop of `NumericProcessor.validate`. */
  method ValidateNumeric(data: Value) returns (ok: bool)
    ensures ok <==> IsIntList(data)
  {
    if !data.VList? {
      return false;
    }
    var i := 0;
    while i < |data.items|
      invariant 0 <= i <= |data.items|
      invariant forall k :: 0 <= k < i ==> data.items[k].VInt?
    {
      if !data.items[i].VInt? {
        return false;
      }
      i := i + 1;
    }
    return true;
  }

  /** The numeric value `sum` adds for an element: ints, and bools as 0 or 1. */
  function NumValue(v: Value): Option<int>
  {
    match v
    case VInt(i) => Some(i)
    case VBool(b) => Some(if b then 1 else 0)
    case _ => None
  }

  /** Python `sum(items)`; `None` stands for the TypeError of a non-number. */
  function Sum(items: seq<Value>): (r: Option<int>)
    ensures r.Some? <==> forall i :: 0 <= i < |items| ==> NumValue(items[i]).Some?
  {
    if items == [] then Some(0)
    else
      match (NumValue(items[0]), Sum(items[1..]))
      case (Some(x), Some(rest)) => Some(x + rest)
      case _ => None
  }

  /** The integers of an int list, for stating its sum. */
  function Ints(items: seq<Value>): seq<int>
    requires forall i :: 0 <= i < |items| ==> items[i].VInt?
  {
    if items == [] then [] else [items[0].i] + Ints(items[1..])
  }

  /** On an int list, `sum` is the sum of its integers. */
  lemma {:induction false} SumOfInts(items: seq<Value>)
    requires forall i :: 0 <= i < |items| ==> items[i].VInt?
    ensures Sum(items) == Some(Seqs.Sum(Ints(items)))
  {
    if items != [] {
      SumOfInts(items[1..]);
    }
  }

  /** What `NumericProcessor.process` reports besides the float average. */
  datatype NumericSummary = NumericSummary(count: nat, total: int)

  /** The keys of a dict, in insertion order: what iterating the dict yields. */
  function Keys(entries: seq<Entry>): (keys: seq<Value>)
    ensures |keys| == |entries|
    ensures forall i :: 0 <= i < |entries| ==> keys[i] == entries[i].key
  {
    if entries == [] then [] else [entries[0].key] + Keys(entries[1..])
  }

  /** The one-character strings that iterating a string yields. */
  function Chars(s: string): (chars: seq<Value>)
    ensures |chars| == |s|
    ensures forall i :: 0 <= i < |s| ==> chars[i] == VStr([s[i]])
  {
    if s == [] then [] else [VStr([s[0]])] + Chars(s[1..])
  }

  /** The count and sum of iterated elements: `sum` fails on a non-number and the
      average divides by zero on no elements. */
  function Summarise(elements: seq<Value>): Result<NumericSummary, string>
  {
    if elements == [] then Err("Data is not an array of int")
    else
      match Sum(elements)
      case None => Err("Data is not an array of int")
      case Some(s) => Ok(NumericSummary(|elements|, s))
  }

  /** `NumericProcessor.process`: `sum` and `len` iterate the data, so a list
      gives its items, a dict its keys and a string its characters. It succeeds on
      a non-empty list or dict whose elements (the keys, for a dict) `sum` accepts,
      reporting their count and sum. A string never succeeds (`sum` refuses its
      characters, and the empty string divides by zero), nor does a value that is
      not iterable; every failure becomes `Exception("Data is not an array of int")`. */
  function ProcessNumeric(data: Value): (r: Result<NumericSummary, string>)
    ensures r.Ok? <==>
      || (data.VList? && data.items != [] && Sum(data.items).Some?)
      || (data.VDict? && data.entries != [] && Sum(Keys(data.entries)).Some?)
    ensures r.Ok? && data.VList? ==> r.value == NumericSummary(|data.items|, Sum(data.items).value)
    ensures r.Ok? && data.VDict? ==> r.value == NumericSummary(|data.entries|, Sum(Keys(data.entries)).value)
    ensures r.Err? ==> r.error == "Data is not an array of int"
  {
    match data
    case VList(items) => Summarise(items)
    case VDict(entries) => Summarise(Keys(entries))
    case VStr(s) =>
      assert s != [] ==> NumValue(Chars(s)[0]).None?;
      Summarise(Chars(s))
    case _ => Err("Data is not an array of int")
  }

  /** Iterating a dict yields its keys: `{1: "a", True: "b"}` sums its keys 1 and
      True to 2, whatever the values. */
  lemma DictSumsKeys()
    ensures ProcessNumeric(VDict([Entry(VInt(1), VStr("a")), Entry(VBool(true), VStr("b"))]))
            == Ok(NumericSummary(2, 2))
  {
    var entries := [Entry(VInt(1), VStr("a")), Entry(VBool(true), VStr("b"))];
    assert Keys(entries) == [VInt(1), VBool(true)];
    assert [VInt(1), VBool(true)][1..] == [VBool(true)];
    assert [VBool(true)][1..] == [];
  }

  /** Validated non-empty data always processes, to its count and integer sum. */
  lemma ValidNumericProcesses(data: Value)
    requires IsIntList(data) && data.items != []
    ensures ProcessNumeric(data) == Ok(NumericSummary(|data.items|, Seqs.Sum(Ints(data.items))))
  {
    SumOfInts(data.items);
  }

  /** Validation is stricter than processing: a list with a bool is rejected by
      `validate` but summed by `process`; the empty list passes `validate` and fails
      `process`. */
  lemma ValidateAndProcessDiffer()
    ensures !IsIntList(VList([VBool(true), VInt(2)]))
    ensures ProcessNumeric(VList([VBool(true), VInt(2)])) == Ok(NumericSummary(2, 3))
    ensures IsIntList(VList([])) && ProcessNumeric(VList([])).Err?
  {
    assert !VList([VBool(true), VInt(2)]).items[0].VInt?;
    assert [VBool(true), VInt(2)][1..] == [VInt(2)];
    assert [VInt(2)][1..] == [];
  }

  /** `TextProcessor.validate`. */
  predicate IsText(data: Value)
  {
    data.VStr?
  }

  function TextReport(characters: int, words: int): string
  {
    "Processed text: " + IntToString(characters) + " characters, " + IntToString(words) + " words"
  }

  /** `TextProcessor.process` on a string: the counting loop gives the length and
      one more word than there are spaces, so the empty string has one word. */
  method ProcessText(data: string) returns (characters: nat, words: nat, report: string)
    ensures characters == |data| && words == 1 + Seqs.Occurrences(data, ' ')
    ensures report == TextReport(characters, words)
  {
    characters := 0;
    words := 1;
    var i := 0;
    while i < |data|
      invariant 0 <= i <= |data|
      invariant characters == i && words == 1 + Seqs.Occurrences(data[..i], ' ')
    {
      Seqs.OccurrencesAppend(data[..i], [data[i]], ' ');
      assert data[..i + 1] == data[..i] + [data[i]];
      characters := characters + 1;
      if data[i] == ' ' {
        words := words + 1;
      }
      i := i + 1;
    }
    assert data[..i] == data;
    report := TextReport(characters, words);
  }

  /** `LogProcessor.validate`: a string holding "ERROR:" or "INFO:". */
  predicate IsLog(data: Value)
  {
    data.VStr? && (Strings.Contains(data.s, "ERROR:") || Strings.Contains(data.s, "INFO:"))
  }

  const ErrorTag: string := "ERROR level detected:"
  const InfoTag: string := "INFO level detected:"

  /** `LogProcessor.process`: every "ERROR:" and then every "INFO:" of a string is
      spelled out; anything else is reported as an invalid log. */
  function ProcessLog(data: Value): (r: string)
    ensures !data.VStr? ==> r == "Invalid log: " + Str(data)
  {
    if data.VStr? then
      Strings.ReplaceAll(Strings.ReplaceAll(data.s, "ERROR:", ErrorTag), "INFO:", InfoTag)
    else "Invalid log: " + Str(data)
  }

  /** `LogProcessor.format_output`: ALERT when the result mentions "ERROR", INFO otherwise. */
  function FormatLog(result: string): (out: string)
    ensures Strings.Contains(result, "ERROR") ==> out == "Output: [ALERT] " + result
    ensures !Strings.Contains(result, "ERROR") ==> out == "Output: [INFO] " + result
  {
    var tag := if Strings.Contains(result, "ERROR") then "ALERT" else "INFO";
    "Output: [" + tag + "] " + result
  }

  /** A log line with neither marker comes back unchanged. */
  lemma PlainLogUnchanged(s: string)
    requires !Strings.Contains(s, "ERROR:") && !Strings.Contains(s, "INFO:")
    ensures ProcessLog(VStr(s)) == s
  {
    Strings.ReplaceAbsent(s, "ERROR:", ErrorTag);
    Strings.ReplaceAbsent(s, "INFO:", InfoTag);
  }

  /** A log line that starts with "ERROR:" is processed to one that starts with the
      spelled-out tag, and is therefore formatted as an ALERT. */
  lemma ErrorLogAlerts(s: string)
    requires "ERROR:" <= s
    ensures ErrorTag <= ProcessLog(VStr(s))
    ensures FormatLog(ProcessLog(VStr(s))) == "Output: [ALERT] " + ProcessLog(VStr(s))
  {
    var rest := Strings.ReplaceAll(s[6..], "ERROR:", ErrorTag);
    assert Strings.ReplaceAll(s, "ERROR:", ErrorTag) == ErrorTag + rest;
    assert forall k :: 0 <= k < |ErrorTag| ==> ErrorTag[k] != 'I';
    Strings.ReplaceSkip(ErrorTag, rest, "INFO:", InfoTag);
    var r := ProcessLog(VStr(s));
    assert r[..5] == "ERROR";
    Strings.ContainsAt(r, "ERROR", 0);
  }
}
