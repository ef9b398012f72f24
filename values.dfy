/** Python values as the SDK's methods receive them, with the few built-in
    operations the SDK applies to them: truth testing, `isinstance`, `str()`,
    dict item assignment and subscription. */
module Values {

  /** A dynamically typed argument. Dict keys are strings and keep insertion
      order, as Python dicts do. */
  datatype Value =
    | Null                                 // None
    | Int(i: int)
    | Str(s: string)
    | List(items: seq<Value>)
    | Dict(entries: seq<(string, Value)>)

  /** The exceptions the SDK raises before (or instead of) a request. */
  datatype Error =
    | TypeError(param: string)    // an isinstance / check_type failure, naming the parameter
    | NotSubscriptable            // `v[key]` on a value that is not a dict (Python's TypeError)
    | ValueError(message: string)
    | KeyError(key: string)
    | HttpError(status: int)      // raise_for_status on a 4xx or 5xx reply

  datatype Option<+T> = None | Some(value: T)

  datatype Result<+T> = Ok(value: T) | Err(error: Error)

  /** Python's truth test `bool(v)`. */
  predicate Truthy(v: Value) {
    match v
    case Null => false
    case Int(i) => i != 0
    case Str(s) => s != ""
    case List(items) => items != []
    case Dict(entries) => entries != []
  }

  /** The classes the SDK passes to `isinstance` and `check_type`. */
  datatype Kind = StrKind | IntKind | DictKind | ListKind

  predicate IsInstance(v: Value, k: Kind) {
    match k
    case StrKind => v.Str?
    case IntKind => v.Int?
    case DictKind => v.Dict?
    case ListKind => v.List?
  }

  // ---------------------------------------------------------------------
  // str()

  function Digit(d: nat): (c: char)
    requires d < 10
    ensures '0' <= c <= '9'
    ensures c as int - '0' as int == d
  {
    ('0' as int + d) as char
  }

  /** The number a string of decimal digits denotes, most significant digit first. */
  function DecimalValue(s: string): int {
    if s == [] then 0 else DecimalValue(s[..|s| - 1]) * 10 + (s[|s| - 1] as int - '0' as int)
  }

  /** The decimal numeral of a natural number, most significant digit first:
      digits only, no leading zero, and denoting the number itself. */
  function NatToDecimal(n: nat): (r: string)
    ensures |r| >= 1
    ensures forall k :: 0 <= k < |r| ==> '0' <= r[k] <= '9'
    ensures r[0] == '0' ==> n == 0
    ensures DecimalValue(r) == n
    decreases n
  {
    if n < 10 then [Digit(n)]
    else
      var prefix := NatToDecimal(n / 10);
      assert (prefix + [Digit(n % 10)])[..|prefix|] == prefix;
      prefix + [Digit(n % 10)]
  }

  function IntToDecimal(i: int): string {
    if i < 0 then "-" + NatToDecimal(-i) else NatToDecimal(i)
  }

  /** `repr(v)`, with strings always quoted by single quotes. */
  function Repr(v: Value): string
    decreases v
  {
    match v
    case Null => "None"
    case Int(i) => IntToDecimal(i)
    case Str(s) => "'" + s + "'"
    case List(items) => "[" + ReprItems(items) + "]"
    case Dict(entries) => "{" + ReprEntries(entries) + "}"
  }

  function ReprItems(items: seq<Value>): string
    decreases items
  {
    if items == [] then ""
    else if |items| == 1 then Repr(items[0])
    else Repr(items[0]) + ", " + ReprItems(items[1..])
  }

  function ReprEntries(entries: seq<(string, Value)>): string
    decreases entries
  {
    if entries == [] then ""
    else if |entries| == 1 then ReprEntry(entries[0])
    else ReprEntry(entries[0]) + ", " + ReprEntries(entries[1..])
  }

  function ReprEntry(entry: (string, Value)): string
    decreases entry
  {
    "'" + entry.0 + "': " + Repr(entry.1)
  }

  /** `str(v)`: a string is itself, everything else is its repr. */
  function PyStr(v: Value): (r: string)
    ensures v.Str? ==> r == v.s
    ensures v.Int? ==> r == IntToDecimal(v.i)
    ensures v.Null? ==> r == "None"
  {
    if v.Str? then v.s else Repr(v)
  }

  // ---------------------------------------------------------------------
  // dicts

  function Keys(entries: seq<(string, Value)>): (ks: seq<string>)
    ensures |ks| == |entries|
    ensures forall i :: 0 <= i < |entries| ==> ks[i] == entries[i].0
  {
    if entries == [] then [] else [entries[0].0] + Keys(entries[1..])
  }

  /** Every real Python dict has distinct keys. */
  predicate DistinctKeys(entries: seq<(string, Value)>) {
    forall i, j :: 0 <= i < j < |entries| ==> entries[i].0 != entries[j].0
  }

  /** `d.get(k)`: the value stored under `k`, if any. */
  function Lookup(entries: seq<(string, Value)>, k: string): (r: Option<Value>)
    ensures r.None? <==> k !in Keys(entries)
  {
    if entries == [] then None
    else if entries[0].0 == k then Some(entries[0].1)
    else Lookup(entries[1..], k)
  }

  /** In a real dict, looking up the i-th key finds the i-th value. */
  lemma {:induction false} LookupIndex(entries: seq<(string, Value)>, i: nat)
    requires DistinctKeys(entries) && i < |entries|
    ensures Lookup(entries, entries[i].0) == Some(entries[i].1)
  {
    if i > 0 {
      assert entries[0].0 != entries[i].0;
      assert entries[1..][i - 1] == entries[i];
      LookupIndex(entries[1..], i - 1);
    }
  }

  /** `d[k] = v`: an existing key keeps its position and takes the new value;
      a new key goes to the end. */
  function Assign(entries: seq<(string, Value)>, k: string, v: Value): (r: seq<(string, Value)>)
    ensures Lookup(r, k) == Some(v)
    ensures forall k' :: k' != k ==> Lookup(r, k') == Lookup(entries, k')
  {
    if entries == [] then [(k, v)]
    else if entries[0].0 == k then [(k, v)] + entries[1..]
    else [entries[0]] + Assign(entries[1..], k, v)
  }

  lemma {:induction false} AssignKeys(entries: seq<(string, Value)>, k: string, v: Value)
    ensures k in Keys(entries) ==> Keys(Assign(entries, k, v)) == Keys(entries)
    ensures k !in Keys(entries) ==> Keys(Assign(entries, k, v)) == Keys(entries) + [k]
  {
    if entries != [] && entries[0].0 != k {
      AssignKeys(entries[1..], k, v);
      assert Keys(entries) == [entries[0].0] + Keys(entries[1..]);
    }
  }

  /** Assigning into a real dict yields a real dict. */
  lemma AssignDistinct(entries: seq<(string, Value)>, k: string, v: Value)
    requires DistinctKeys(entries)
    ensures DistinctKeys(Assign(entries, k, v))
  {
    AssignKeys(entries, k, v);
    var r := Assign(entries, k, v);
    assert Keys(r) == Keys(entries) || Keys(r) == Keys(entries) + [k];
    forall i, j | 0 <= i < j < |r| ensures r[i].0 != r[j].0 {
      assert r[i].0 == Keys(r)[i] && r[j].0 == Keys(r)[j];
      if j == |entries| {
        assert Keys(r)[j] == k && k !in Keys(entries);
        assert Keys(entries)[i] == Keys(r)[i];
      } else {
        assert Keys(r)[i] == Keys(entries)[i] && Keys(r)[j] == Keys(entries)[j];
      }
    }
  }

  /** `v[key]` on a dict-typed response: a KeyError for a missing key and a
      TypeError for anything that is not a dict. */
  function Subscript(v: Value, key: string): (r: Result<Value>)
    ensures r.Ok? <==> v.Dict? && key in Keys(v.entries)
    ensures r.Ok? ==> Lookup(v.entries, key) == Some(r.value)
    ensures v.Dict? && r.Err? ==> r.error == KeyError(key)
    ensures !v.Dict? ==> r == Err(NotSubscriptable)
  {
    match v
    case Dict(entries) =>
      (match Lookup(entries, key)
       case Some(x) => Ok(x)
       case None => Err(KeyError(key)))
    case _ => Err(NotSubscriptable)
  }
}
