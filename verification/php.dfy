/** The slice of PHP's value semantics the client library relies on:
    decoded JSON values, truthiness (`empty`), string conversion, the
    array helpers it calls and the exceptions it throws. */
module Php {
  import opened Wrappers

  /** A decoded JSON value as PHP holds it. `List` is a PHP list array,
      `Assoc` a string-keyed array (a decoded JSON object). */
  datatype Value =
    | Null
    | Bool(b: bool)
    | Int(i: int)
    | Str(s: string)
    | List(items: seq<Value>)
    | Assoc(fields: map<string, Value>)

  /** A resource's attribute array, a request payload or a decoded body. */
  type Attrs = map<string, Value>

  /** What the library throws. `MissingConfig` and `RequestFailed` are
      plain `Exception`s in PHP; `Remote` is the `Exception` raised for an
      error envelope; `Fatal` is a PHP fatal error (call on null, class
      not found, `[]` on a string); `ArgumentCount` is a call with too few
      arguments; `Malformed` is a response without the expected shape;
      `Unmodelled` is a case where PHP carries on with a coerced value
      this model does not represent. */
  datatype Error =
    | MissingConfig(key: string)
    | InvalidArgument(reason: string)
    | BadMethodCall(name: string)
    | RequiredField(field: string)
    | Remote(code: Value, phrase: Value)
    | RequestFailed
    | Fatal(reason: string)
    | Thrown(message: string)
    | ArgumentCount
    | Malformed
    | Unmodelled

  /** PHP's `empty()`: null, false, 0, "", "0" and the empty array. */
  predicate Empty(v: Value) {
    match v
    case Null => true
    case Bool(b) => !b
    case Int(i) => i == 0
    case Str(s) => s == "" || s == "0"
    case List(xs) => |xs| == 0
    case Assoc(m) => |m| == 0
  }

  predicate Truthy(v: Value) {
    !Empty(v)
  }

  /** `is_scalar`: booleans, integers and strings (null is not scalar). */
  predicate IsScalar(v: Value) {
    v.Bool? || v.Int? || v.Str?
  }

  /** `is_array` */
  predicate IsArray(v: Value) {
    v.List? || v.Assoc?
  }

  /** Reading `$a[$key]` where a missing key reads as null. */
  function Get(m: Attrs, key: string): Value {
    if key in m then m[key] else Null
  }

  /** `$v[$i]` on a list; anything else reads as null. */
  function At(v: Value, i: nat): Value {
    if v.List? && i < |v.items| then v.items[i] else Null
  }

  /** `$v[$key]` on a string-keyed array; anything else reads as null. */
  function Field(v: Value, key: string): Value {
    if v.Assoc? then Get(v.fields, key) else Null
  }

  function DigitChar(d: nat): (c: char)
    requires d < 10
    ensures '0' <= c <= '9'
  {
    ('0' as int + d) as char
  }

  function Digits(n: nat): (s: string)
    ensures |s| >= 1
    ensures n >= 10 ==> |s| >= 2
    decreases n
  {
    if n < 10 then [DigitChar(n)] else Digits(n / 10) + [DigitChar(n % 10)]
  }

  /** Distinct numbers have distinct renderings. */
  lemma {:induction false} DigitsInjective(a: nat, b: nat)
    requires Digits(a) == Digits(b)
    ensures a == b
    decreases a
  {
    if a >= 10 && b >= 10 {
      var sa, sb := Digits(a), Digits(b);
      assert sa[..|sa| - 1] == Digits(a / 10) && sa[|sa| - 1] == DigitChar(a % 10);
      assert sb[..|sb| - 1] == Digits(b / 10) && sb[|sb| - 1] == DigitChar(b % 10);
      DigitsInjective(a / 10, b / 10);
    } else if a < 10 && b < 10 {
      assert Digits(a)[0] == DigitChar(a) && Digits(b)[0] == DigitChar(b);
    }
  }

  /** Decimal rendering of an integer, as `(string)$i`. */
  function Decimal(i: int): string {
    if i < 0 then "-" + Digits(-i) else Digits(i)
  }

  /** Array indices render to distinct keys. */
  lemma DecimalIndicesDistinct()
    ensures forall i: nat, j: nat :: Decimal(i) == Decimal(j) ==> i == j
  {
    forall i: nat, j: nat | Decimal(i) == Decimal(j)
      ensures i == j
    {
      DigitsInjective(i, j);
    }
  }

  /** PHP's string conversion, as used by `implode` and interpolation:
      null and false become "", true becomes "1", arrays become "Array". */
  function ToStr(v: Value): string {
    match v
    case Null => ""
    case Bool(b) => if b then "1" else ""
    case Int(i) => Decimal(i)
    case Str(s) => s
    case List(_) => "Array"
    case Assoc(_) => "Array"
  }

  /** `array_filter($m, fn ($v) => !is_null($v))` */
  function DropNulls(m: Attrs): (r: Attrs)
    ensures forall k :: k in r <==> k in m && m[k] != Null
    ensures forall k :: k in r ==> r[k] == m[k]
  {
    map k | k in m && m[k] != Null :: m[k]
  }

  /** `array_intersect_key($m, array_flip($keys))` */
  function OnlyKeys(m: Attrs, keys: set<string>): (r: Attrs)
    ensures r.Keys == m.Keys * keys
    ensures forall k :: k in r ==> r[k] == m[k]
  {
    map k | k in m && k in keys :: m[k]
  }

  /** `array_diff_key($m, $keys)` */
  function WithoutKeys(m: Attrs, keys: set<string>): (r: Attrs)
    ensures r.Keys == m.Keys - keys
    ensures forall k :: k in r ==> r[k] == m[k]
  {
    map k | k in m && k !in keys :: m[k]
  }

  /** `implode($sep, $parts)` */
  function Join(parts: seq<string>, sep: string): string {
    if |parts| == 0 then ""
    else if |parts| == 1 then parts[0]
    else parts[0] + sep + Join(parts[1..], sep)
  }

  lemma {:induction false} JoinSnoc(parts: seq<string>, x: string, sep: string)
    requires |parts| > 0
    ensures Join(parts + [x], sep) == Join(parts, sep) + sep + x
  {
    if |parts| == 1 {
      assert parts + [x] == [parts[0], x];
      assert ([parts[0], x])[1..] == [x];
    } else {
      assert (parts + [x])[1..] == parts[1..] + [x];
      JoinSnoc(parts[1..], x, sep);
    }
  }

  function Reverse<T>(s: seq<T>): seq<T> {
    if |s| == 0 then [] else Reverse(s[1..]) + [s[0]]
  }

  lemma {:induction false} ReverseAppend<T>(a: seq<T>, b: seq<T>)
    ensures Reverse(a + b) == Reverse(b) + Reverse(a)
  {
    if |a| == 0 {
      assert a + b == b;
    } else {
      assert (a + b)[1..] == a[1..] + b;
      ReverseAppend(a[1..], b);
    }
  }

  predicate IsUpper(c: char) {
    'A' <= c <= 'Z'
  }

  predicate IsLowerAlpha(c: char) {
    'a' <= c <= 'z'
  }

  function LowerChar(c: char): char {
    if IsUpper(c) then (c as int + 32) as char else c
  }

  /** `strtolower` in the C locale. */
  function Lower(s: string): (r: string)
    ensures |r| == |s|
  {
    seq(|s|, i requires 0 <= i < |s| => LowerChar(s[i]))
  }

  /** `ucwords` on a method name: the first ASCII letter is upper-cased. */
  function UcFirst(s: string): string {
    if |s| > 0 && IsLowerAlpha(s[0]) then [(s[0] as int - 32) as char] + s[1..] else s
  }

  /** The last `n` characters, as `substr($s, -$n)`: a length of zero or
      one beyond the string yields the whole string. */
  function Suffix(s: string, n: nat): string {
    if n == 0 || n >= |s| then s else s[|s| - n..]
  }
}
