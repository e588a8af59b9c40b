/** Dynamically typed Python values, as far as the programs inspect them:
    their exact type, their `str`/`repr` text and their truthiness. */
module PyValues {
  import Numerals

  datatype Value =
    | VNone
    | VBool(b: bool)
    | VInt(i: int)
    | VStr(s: string)
    | VList(items: seq<Value>)
    | VDict(entries: seq<Entry>)
    /** Any other object (a float, a card, ...), known by its `str` text. */
    | VObject(text: string)

  /** One key/value pair of a dict, in insertion order. */
  datatype Entry = Entry(key: Value, val: Value)

  /** Python `str(v)`. */
  function Str(v: Value): string
    decreases v, 1
  {
    match v
    case VNone => "None"
    case VBool(b) => if b then "True" else "False"
    case VInt(i) => Numerals.IntToString(i)
    case VStr(s) => s
    case VList(items) => "[" + ReprItems(v, items) + "]"
    case VDict(entries) => "{" + ReprEntries(v, entries) + "}"
    case VObject(text) => text
  }

  /** Python `repr(v)`, the text of an element inside a container. Strings are
      quoted with single quotes; escaping of quotes inside them is not modelled. */
  function Repr(v: Value): string
    decreases v, 2
  {
    if v.VStr? then "'" + v.s + "'" else Str(v)
  }

  function ReprItems(ghost parent: Value, items: seq<Value>): string
    requires forall i :: 0 <= i < |items| ==> items[i] < parent
    decreases parent, 0, |items|
  {
    if items == [] then ""
    else if |items| == 1 then Repr(items[0])
    else Repr(items[0]) + ", " + ReprItems(parent, items[1..])
  }

  function ReprEntries(ghost parent: Value, entries: seq<Entry>): string
    requires forall i :: 0 <= i < |entries| ==> entries[i].key < parent && entries[i].val < parent
    decreases parent, 0, |entries|
  {
    if entries == [] then ""
    else
      var e := entries[0];
      var head := Repr(e.key) + ": " + Repr(e.val);
      if |entries| == 1 then head else head + ", " + ReprEntries(parent, entries[1..])
  }

  /** Python truthiness: `None`, `False`, `0`, empty strings and empty containers are falsy. */
  predicate Truthy(v: Value)
  {
    match v
    case VNone => false
    case VBool(b) => b
    case VInt(i) => i != 0
    case VStr(s) => s != ""
    case VList(items) => items != []
    case VDict(entries) => entries != []
    case VObject(_) => true
  }
}
