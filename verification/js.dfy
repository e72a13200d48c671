/** JavaScript values and the few built-in operations on them that the logger
    and the webhook handler rely on: truthiness, `||`, property reads,
    `String(v)`, `startsWith` and `split` on a one-character separator. */
module Js {

  datatype Option<+T> = None | Some(value: T)

  /** A JavaScript value as it occurs in request bodies, log metadata and
      analytics fields.  Numbers are integers (NaN and fractions are not
      modelled); `Err` is an `Error` object with its message. */
  datatype Value =
    | Undefined
    | Null
    | Bool(b: bool)
    | Num(n: int)
    | Str(s: string)
    | Arr(elems: seq<Value>)
    | Obj(fields: map<string, Value>)
    | Err(message: string)

  /** JavaScript truthiness. */
  predicate Truthy(v: Value) {
    match v
    case Undefined => false
    case Null => false
    case Bool(b) => b
    case Num(n) => n != 0
    case Str(s) => s != ""
    case _ => true
  }

  predicate Nullish(v: Value) {
    v.Undefined? || v.Null?
  }

  /** Objects in the JavaScript sense (as opposed to primitives). */
  predicate IsObject(v: Value) {
    v.Obj? || v.Arr? || v.Err?
  }

  /** `a || b`: the first operand when it is truthy, otherwise the second. */
  function Or(a: Value, b: Value): (r: Value)
    ensures Truthy(a) ==> r == a
    ensures !Truthy(a) ==> r == b
    ensures Truthy(r) <==> Truthy(a) || Truthy(b)
  {
    if Truthy(a) then a else b
  }

  /** `v.key` for the keys the code reads: an object's own properties,
      and an `Error`'s `message` and `name`.  Other keys, and every key of
      other values, read as undefined; that includes undefined and null,
      where JavaScript throws instead, and built-in properties such as an
      array's `length`. */
  function Get(v: Value, key: string): Value
  {
    match v
    case Obj(fields) => if key in fields then fields[key] else Undefined
    case Err(message) =>
      if key == "message" then Str(message)
      else if key == "name" then Str("Error")
      else Undefined
    case _ => Undefined
  }

  /** `Object.keys(v).length` for an object (an `Error` has no enumerable
      own property). */
  function KeyCount(v: Value): nat
    requires IsObject(v)
  {
    match v
    case Obj(fields) => |fields|
    case Arr(elems) => |elems|
    case Err(_) => 0
  }

  /** `s.startsWith(prefix)`. */
  predicate StartsWith(s: string, prefix: string) {
    |prefix| <= |s| && s[..|prefix|] == prefix
  }

  /** The decimal text of an integer, as `String(n)` gives it: a minus
      sign for a negative number, then the digits of its magnitude without
      leading zeros, which read back as that magnitude. */
  function DecimalText(n: int): (r: string)
    ensures |r| > 0
    ensures n >= 0 ==> IsDigitText(r) && DigitsValue(r) == n
    ensures n < 0 ==> |r| > 1 && r[0] == '-' && IsDigitText(r[1..]) && DigitsValue(r[1..]) == -n
    decreases if n < 0 then -n + 1 else n
  {
    if n < 0 then "-" + DecimalText(-n)
    else if n < 10 then [DigitChar(n)]
    else
      var high := DecimalText(n / 10);
      var r := high + [DigitChar(n % 10)];
      assert r[..|r| - 1] == high;
      r
  }

  function DigitChar(d: int): (c: char)
    requires 0 <= d < 10
    ensures IsDigit(c) && DigitValue(c) == d
  {
    ('0' as int + d) as char
  }

  predicate IsDigit(c: char) {
    '0' <= c <= '9'
  }

  function DigitValue(c: char): int {
    c as int - '0' as int
  }

  /** A non-empty run of decimal digits with no leading zero (except "0"). */
  predicate IsDigitText(s: string) {
    && |s| > 0
    && (forall i :: 0 <= i < |s| ==> IsDigit(s[i]))
    && (s[0] == '0' ==> |s| == 1)
  }

  /** The number a run of decimal digits denotes. */
  function DigitsValue(s: string): int {
    if |s| == 0 then 0 else DigitsValue(s[..|s| - 1]) * 10 + DigitValue(s[|s| - 1])
  }

  /** `Number(s)` for the texts `DecimalText` produces. */
  function ParseDecimal(s: string): int {
    if |s| > 0 && s[0] == '-' then -DigitsValue(s[1..]) else DigitsValue(s)
  }

  /** Reading the decimal text of a number gives the number back, so
      different numbers have different texts. */
  lemma DecimalTextRoundTrip(n: int, m: int)
    ensures ParseDecimal(DecimalText(n)) == n
    ensures DecimalText(n) == DecimalText(m) ==> n == m
  {
    assert ParseDecimal(DecimalText(m)) == m;
  }

  /** `String(v)`, which template literals use for `${v}`. */
  function ToText(v: Value): string
    decreases v
  {
    match v
    case Undefined => "undefined"
    case Null => "null"
    case Bool(b) => if b then "true" else "false"
    case Num(n) => DecimalText(n)
    case Str(s) => s
    case Obj(_) => "[object Object]"
    case Err(message) => if message == "" then "Error" else "Error: " + message
    case Arr(elems) => JoinTexts(elems, v)
  }

  /** `Array.prototype.join(",")` as used by `String(array)`: null and
      undefined elements contribute the empty text. */
  function JoinTexts(elems: seq<Value>, ghost whole: Value): string
    requires whole.Arr? && elems <= whole.elems
    decreases whole, |elems|
  {
    if |elems| == 0 then ""
    else
      var last := elems[|elems| - 1];
      assert last == whole.elems[|elems| - 1];
      var text := if Nullish(last) then "" else ToText(last);
      if |elems| == 1 then text
      else JoinTexts(elems[..|elems| - 1], whole) + "," + text
  }

  /** `s.split(c)` for a one-character separator `c`: the pieces between
      occurrences of `c`, in order; there is always at least one piece. */
  function Split(s: string, c: char): (pieces: seq<string>)
    ensures |pieces| >= 1
    ensures forall i :: 0 <= i < |pieces| ==> c !in pieces[i]
  {
    if |s| == 0 then [""]
    else
      var rest := Split(s[1..], c);
      if s[0] == c then [""] + rest
      else [[s[0]] + rest[0]] + rest[1..]
  }

  /** `pieces.join(c)`: the inverse of `Split`. */
  function Join(pieces: seq<string>, c: char): string
    requires |pieces| >= 1
  {
    if |pieces| == 1 then pieces[0]
    else pieces[0] + [c] + Join(pieces[1..], c)
  }

  /** Splitting loses nothing: joining the pieces again gives the text back. */
  lemma {:induction false} JoinSplit(s: string, c: char)
    ensures Join(Split(s, c), c) == s
  {
    if |s| > 0 {
      JoinSplit(s[1..], c);
      var rest := Split(s[1..], c);
      if s[0] == c {
        assert Split(s, c) == [""] + rest;
        assert ([""] + rest)[1..] == rest;
      } else if |rest| == 1 {
        assert Split(s, c) == [[s[0]] + rest[0]];
      } else {
        var pieces := Split(s, c);
        assert pieces[1..] == rest[1..];
        assert Join(rest, c) == rest[0] + [c] + Join(rest[1..], c);
      }
    }
  }

  /** The text before the first separator is the first piece, and the
      remaining pieces are those of the text after it. */
  lemma {:induction false} SplitAtFirst(m: string, c: char, rest: string)
    requires c !in m
    ensures Split(m + [c] + rest, c) == [m] + Split(rest, c)
  {
    if |m| == 0 {
      assert m + [c] + rest == [c] + rest;
      assert ([c] + rest)[1..] == rest;
    } else {
      SplitAtFirst(m[1..], c, rest);
      assert (m + [c] + rest)[1..] == m[1..] + [c] + rest;
      assert [m[0]] + m[1..] == m;
    }
  }

  /** A text without the separator is a single piece. */
  lemma {:induction false} SplitWithout(s: string, c: char)
    requires c !in s
    ensures Split(s, c) == [s]
  {
    if |s| > 0 {
      SplitWithout(s[1..], c);
      assert [s[0]] + s[1..] == s;
    }
  }
}
