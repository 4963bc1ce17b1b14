/**
 * The Python values a tool request carries in its `params` dictionary, and the
 * few built-in operations the server applies to them: truthiness, `dict.get`,
 * `len`, slicing `[:n]`, `str(...)` and `', '.join(...)`.
 */
module PyValues {
  import opened Wrappers

  /** A JSON-shaped Python value (floats are not modelled). */
  datatype Value =
    | Str(s: string)
    | Int(i: int)
    | Bool(b: bool)
    | List(items: seq<Value>)
    | Dict(entries: map<string, Value>)
    | Null  // Python's None

  /** An exception other than ValueError raised by a built-in while a query is built. */
  datatype Fault =
    | JoinNonString  // TypeError: join over a list holding a non-str element
    | NoLength       // TypeError: len() of an int or a bool
    | NotSliceable   // TypeError (or KeyError for a dict): [:n] on a value that is neither str nor list

  /**
   * The parts of the Python runtime whose exact text the model does not fix:
   * `str()` of a list or a dict, `json.dumps(params, default=str)`, and the
   * message `str(e)` of the exception a fault stands for.
   */
  datatype Runtime = Runtime(
    containerText: Value -> string,
    dumps: map<string, Value> -> string,
    faultText: Fault -> string)

  /** Python truthiness: empty strings, empty containers, 0, False and None are false. */
  predicate Truthy(v: Value) {
    match v
    case Str(s) => s != ""
    case Int(i) => i != 0
    case Bool(b) => b
    case List(xs) => xs != []
    case Dict(m) => m != map[]
    case Null => false
  }

  /** `d.get(key, default)`: a key that is present wins even when its value is None. */
  function Get(d: map<string, Value>, key: string, default: Value): Value {
    if key in d then d[key] else default
  }

  function Min(a: nat, b: nat): nat {
    if a <= b then a else b
  }

  /** `len(v)` */
  function Len(v: Value): (r: Result<nat, Fault>)
    ensures r.Success? <==> !(v.Int? || v.Bool? || v.Null?)
    ensures v.Str? ==> r == Success(|v.s|)
  {
    match v
    case Str(s) => Success(|s|)
    case List(xs) => Success(|xs|)
    case Dict(m) => Success(|m|)
    case _ => Failure(NoLength)
  }

  /** `v[:n]`: a prefix of at most n characters or elements. */
  function Prefix(v: Value, n: nat): (r: Result<Value, Fault>)
    ensures r.Success? <==> v.Str? || v.List?
    ensures v.Str? ==> r.Success? && r.value.Str? && r.value.s <= v.s && |r.value.s| == Min(n, |v.s|)
    ensures v.List? ==> r.Success? && r.value.List? && r.value.items <= v.items && |r.value.items| == Min(n, |v.items|)
  {
    match v
    case Str(s) => Success(Str(s[..Min(n, |s|)]))
    case List(xs) => Success(List(xs[..Min(n, |xs|)]))
    case _ => Failure(NotSliceable)
  }

  function DigitChar(d: nat): char
    requires d < 10
  {
    ('0' as int + d) as char
  }

  predicate IsDigit(c: char) {
    '0' <= c <= '9'
  }

  /** The decimal digits of n, as `str(n)` writes them. */
  function Digits(n: nat): (r: string)
    ensures |r| > 0
    ensures forall k :: 0 <= k < |r| ==> IsDigit(r[k])
    ensures r[0] == '0' ==> n == 0
    decreases n
  {
    if n < 10 then [DigitChar(n)] else Digits(n / 10) + [DigitChar(n % 10)]
  }

  /** The number a string of decimal digits denotes: the inverse of Digits. */
  function DigitsValue(s: string): nat
    requires forall k :: 0 <= k < |s| ==> IsDigit(s[k])
  {
    if s == [] then 0 else DigitsValue(s[..|s| - 1]) * 10 + DigitValue(s[|s| - 1])
  }

  function DigitValue(c: char): nat
    requires IsDigit(c)
  {
    c as int - '0' as int
  }

  lemma {:induction false} DigitsRoundTrip(n: nat)
    ensures DigitsValue(Digits(n)) == n
    decreases n
  {
    if n >= 10 {
      var s := Digits(n);
      assert s[..|s| - 1] == Digits(n / 10);
      DigitsRoundTrip(n / 10);
    }
  }

  /** `str(i)` for an int: an optional minus sign, then the digits of |i|. */
  function Decimal(i: int): (r: string)
    ensures |r| > 0
    ensures r[0] == '-' <==> i < 0
    ensures r[0] == '-' || IsDigit(r[0])
    ensures forall k :: 0 < k < |r| ==> IsDigit(r[k])
  {
    if i < 0 then "-" + Digits(-i) else Digits(i)
  }

  /** The int a string written by Decimal denotes. */
  function DecimalValue(s: string): int
    requires |s| > 0
    requires forall k :: 0 < k < |s| ==> IsDigit(s[k])
    requires s[0] == '-' || IsDigit(s[0])
  {
    if s[0] == '-' then 0 - DigitsValue(s[1..]) else DigitsValue(s)
  }

  lemma DecimalRoundTrip(i: int)
    ensures DecimalValue(Decimal(i)) == i
  {
    if i < 0 {
      assert Decimal(i)[1..] == Digits(-i);
      DigitsRoundTrip(-i);
    } else {
      DigitsRoundTrip(i);
    }
  }

  /** `str(v)`, which is also what an f-string shows for v. */
  function ToStr(rt: Runtime, v: Value): (r: string)
    ensures v.Str? ==> r == v.s
    ensures v.Int? ==> r == Decimal(v.i)
  {
    match v
    case Str(s) => s
    case Int(i) => Decimal(i)
    case Bool(b) => if b then "True" else "False"
    case Null => "None"
    case _ => rt.containerText(v)
  }

  /** `sep.join(items)` for a list of Python values: only str elements may be joined. */
  function Join(sep: string, items: seq<Value>): (r: Result<string, Fault>)
    ensures r.Success? <==> forall k :: 0 <= k < |items| ==> items[k].Str?
    ensures r.Failure? ==> r.error == JoinNonString
    decreases |items|
  {
    if items == [] then Success("")
    else if !items[0].Str? then Failure(JoinNonString)
    else if |items| == 1 then Success(items[0].s)
    else
      match Join(sep, items[1..])
      case Success(rest) => Success(items[0].s + sep + rest)
      case Failure(f) => Failure(f)
  }

  /** The str values holding each of the given strings, in order. */
  function StrList(xs: seq<string>): (r: seq<Value>)
    ensures |r| == |xs|
    ensures forall k :: 0 <= k < |xs| ==> r[k] == Str(xs[k])
  {
    seq(|xs|, k requires 0 <= k < |xs| => Str(xs[k]))
  }

  /** Joining plain strings: the reference the Python join is compared with. */
  function JoinText(sep: string, xs: seq<string>): string {
    if xs == [] then "" else if |xs| == 1 then xs[0] else xs[0] + sep + JoinText(sep, xs[1..])
  }

  lemma {:induction false} JoinOfStrings(sep: string, xs: seq<string>)
    ensures Join(sep, StrList(xs)) == Success(JoinText(sep, xs))
    decreases |xs|
  {
    if |xs| > 1 {
      assert StrList(xs)[1..] == StrList(xs[1..]);
      JoinOfStrings(sep, xs[1..]);
    }
  }

  /** The total length of a list of strings. */
  function TotalLength(xs: seq<string>): nat {
    if xs == [] then 0 else |xs[0]| + TotalLength(xs[1..])
  }

  /** Joining n strings adds n - 1 separators and nothing else. */
  lemma {:induction false} JoinTextLength(sep: string, xs: seq<string>)
    requires xs != []
    ensures |JoinText(sep, xs)| == TotalLength(xs) + (|xs| - 1) * |sep|
    decreases |xs|
  {
    if |xs| > 1 {
      JoinTextLength(sep, xs[1..]);
    }
  }
}
