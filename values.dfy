/** The dynamically typed values that flow through the graph model (JSON
    metadata, database columns, request parameters) and the Ruby operations the
    source applies to them. */
module Values {
  import opened Text

  /** A JSON-shaped Ruby value: nil, true/false, an Integer, a String or an Array. */
  datatype Value = Nil | Bool(flag: bool) | Int(num: int) | Str(text: string) | List(items: seq<Value>)

  /** A Hash with String keys (a database row, a decoded metadata map, update arguments). */
  type Hash = map<string, Value>

  datatype Option<T> = None | Some(value: T)

  /** The Ruby exception raised: NoMethodError by the name of the method the
      receiver lacks, or ArgumentError for a call with the wrong number of arguments. */
  datatype Error = NoMethodError(name: string) | ArgumentError

  datatype Result<T> = Ok(value: T) | Err(error: Error)

  /** Ruby truthiness: everything except nil and false. */
  predicate Truthy(v: Value) { !v.Nil? && v != Bool(false) }

  /** h[k]: nil when the key is missing. */
  function Get(h: Hash, k: string): Value
  {
    if k in h then h[k] else Nil
  }

  /** h[k] || d: the stored value unless it is missing, nil or false. */
  function Or(h: Hash, k: string, d: Value): (r: Value)
    ensures k !in h ==> r == d
    ensures k in h && Truthy(h[k]) ==> r == h[k]
    ensures k in h && !Truthy(h[k]) ==> r == d
  {
    var v := Get(h, k);
    if Truthy(v) then v else d
  }

  /** h.fetch(k, d): the stored value, even nil or false, when the key is present. */
  function Fetch(h: Hash, k: string, d: Value): (r: Value)
    ensures k in h ==> r == h[k]
    ensures k !in h ==> r == d
  {
    if k in h then h[k] else d
  }

  /** v.to_i: nil gives 0, a String is parsed by String#to_i, and true, false
      and Arrays have no to_i. */
  function ToI(v: Value): (r: Result<int>)
    ensures r.Ok? <==> (v.Nil? || v.Int? || v.Str?)
    ensures v.Int? ==> r == Ok(v.num)
    ensures v.Nil? ==> r == Ok(0)
  {
    match v
    case Nil => Ok(0)
    case Int(n) => Ok(n)
    case Str(s) => Ok(StrToI(s))
    case _ => Err(NoMethodError("to_i"))
  }

  /** How Array#join(':') writes an element: nil as "", true/false by name,
      Integers in decimal, and a nested Array joined recursively with ':'. */
  function JoinStr(v: Value): (s: string)
    ensures v.Nil? ==> s == ""
    ensures v.Int? ==> StrToI(s) == v.num
    decreases v, 2
  {
    match v
    case Nil => ""
    case Bool(b) => if b then "true" else "false"
    case Int(n) => StrToIOfIntToStr(n); IntToStr(n)
    case Str(s) => s
    case List(xs) => JoinValues(xs)
  }

  /** The written form of each element, in order. */
  function Written(vs: seq<Value>): (ss: seq<string>)
    ensures |ss| == |vs|
    decreases vs, 0
  {
    if vs == [] then [] else [JoinStr(vs[0])] + Written(vs[1..])
  }

  /** vs.join(':'). */
  function JoinValues(vs: seq<Value>): (s: string)
    ensures |vs| == 1 ==> s == JoinStr(vs[0])
    decreases vs, 1
  {
    Join(Written(vs), ':')
  }

  /** Splitting vs.join(':') at ':' gives back the written elements when none of them holds ':'. */
  lemma JoinValuesSplit(vs: seq<Value>)
    requires |vs| >= 1
    requires forall i :: 0 <= i < |vs| ==> ':' !in JoinStr(vs[i])
    ensures Split(JoinValues(vs), ':') == Written(vs)
  {
    WrittenAt(vs);
    SplitJoin(Written(vs), ':');
  }

  /** Entry i of Written(vs) is the written form of vs[i]. */
  lemma {:induction false} WrittenAt(vs: seq<Value>)
    ensures forall i :: 0 <= i < |vs| ==> Written(vs)[i] == JoinStr(vs[i])
  {
    if vs != [] {
      WrittenAt(vs[1..]);
      assert forall i :: 1 <= i < |vs| ==> vs[1..][i - 1] == vs[i];
    }
  }

  /** [v].flatten: the non-Array leaves of v, left to right. */
  function Flatten(v: Value): seq<Value>
    decreases v
  {
    match v
    case List(xs) => FlattenAll(xs)
    case _ => [v]
  }

  function FlattenAll(vs: seq<Value>): seq<Value>
    decreases vs
  {
    if vs == [] then [] else Flatten(vs[0]) + FlattenAll(vs[1..])
  }

  function Pow2(n: nat): (p: nat)
    ensures p >= 1
  {
    if n == 0 then 1 else 2 * Pow2(n - 1)
  }

  /** v[i] for an index i >= 0: an Array's element, a String's one-character
      substring or an Integer's bit i (two's complement), nil past the end; nil
      and true/false have no [] method. */
  function At(v: Value, i: nat): (r: Result<Value>)
    ensures r.Ok? <==> (v.List? || v.Str? || v.Int?)
    ensures v.List? ==> r == Ok(if i < |v.items| then v.items[i] else Nil)
  {
    match v
    case List(xs) => Ok(if i < |xs| then xs[i] else Nil)
    case Str(s) => Ok(if i < |s| then Str([s[i]]) else Nil)
    case Int(n) => Ok(Int((n / Pow2(i)) % 2))
    case _ => Err(NoMethodError("[]"))
  }
}
