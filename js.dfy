/** JavaScript values and the few language rules the extension's logic depends on:
    truthiness, property access that throws on null/undefined, multiplication with
    NaN, and parseInt. */
module Js {

  datatype Option<+T> = None | Some(value: T)

  /** A value as JavaScript code sees it: parsed JSON, header strings, stored records. */
  datatype JsValue =
    | Undefined
    | Null
    | Bool(b: bool)
    | Num(n: real)
    | NaN
    | Str(s: string)
    | Arr(items: seq<JsValue>)
    | Obj(fields: map<string, JsValue>)

  predicate Nullish(v: JsValue) {
    v.Undefined? || v.Null?
  }

  /** `!!v`: undefined, null, false, 0, NaN and "" are the falsy values. */
  predicate Truthy(v: JsValue) {
    match v
    case Undefined | Null | NaN => false
    case Bool(b) => b
    case Num(n) => n != 0.0
    case Str(s) => s != ""
    case Arr(_) | Obj(_) => true
  }

  /** The falsy values are exactly undefined, null, false, 0, NaN and the empty string. */
  lemma FalsyValues(v: JsValue)
    ensures !Truthy(v) <==>
      v == Undefined || v == Null || v == Bool(false) || v == Num(0.0) || v == NaN || v == Str("")
  {
  }

  /** A `string | null` (a header value, an attribute) as a JavaScript value. */
  function OptionalString(s: Option<string>): (v: JsValue)
    ensures v.Null? <==> s.None?
    ensures Truthy(v) <==> s.Some? && s.value != ""
  {
    match s
    case None => Null
    case Some(t) => Str(t)
  }

  // ---------------------------------------------------------------------------
  // Decimal digits

  predicate IsDigit(c: char) {
    '0' <= c <= '9'
  }

  predicate AllDigits(s: string) {
    forall i :: 0 <= i < |s| ==> IsDigit(s[i])
  }

  /** The value of a string of decimal digits, most significant first. */
  function DigitsValue(ds: string): nat
    requires AllDigits(ds)
  {
    if ds == [] then 0
    else 10 * DigitsValue(ds[..|ds| - 1]) + (ds[|ds| - 1] as int - '0' as int)
  }

  /** The longest prefix of `s` made of decimal digits. */
  function LeadingDigits(s: string): (ds: string)
    ensures |ds| <= |s| && ds == s[..|ds|]
    ensures AllDigits(ds)
    ensures |ds| < |s| ==> !IsDigit(s[|ds|])
  {
    if s != [] && IsDigit(s[0]) then [s[0]] + LeadingDigits(s[1..]) else ""
  }

  /** A canonical array-index property name ("0", "1", ... without leading zeros). */
  function CanonicalIndex(key: string): (r: Option<nat>)
    ensures r.Some? ==> key != "" && AllDigits(key) && r.value == DigitsValue(key)
    ensures key == "0" ==> r == Some(0)
  {
    if key != "" && AllDigits(key) && (key == "0" || key[0] != '0') then Some(DigitsValue(key)) else None
  }

  // ---------------------------------------------------------------------------
  // Property access

  /** The result of evaluating an expression that may throw. */
  datatype Outcome = Value(v: JsValue) | Thrown

  /** `target[key]`: a TypeError on null and undefined, `undefined` for a missing property. */
  function Get(target: JsValue, key: string): (r: Outcome)
    ensures r.Thrown? <==> Nullish(target)
    ensures target.Obj? ==> r == Value(if key in target.fields then target.fields[key] else Undefined)
    ensures target.Arr? && key == "0" ==> r == Value(if target.items != [] then target.items[0] else Undefined)
  {
    match target
    case Undefined | Null => Thrown
    case Obj(m) => Value(if key in m then m[key] else Undefined)
    case Arr(items) =>
      Value(match CanonicalIndex(key)
            case Some(i) => if i < |items| then items[i] else Undefined
            case None => Undefined)
    case Str(s) =>
      Value(match CanonicalIndex(key)
            case Some(i) => if i < |s| then Str([s[i]]) else Undefined
            case None => Undefined)
    case Bool(_) | Num(_) | NaN => Value(Undefined)
  }

  /** `target[k0][k1]...`, evaluated left to right; the first nullish step throws. */
  function Path(target: JsValue, keys: seq<string>): Outcome
    decreases |keys|
  {
    if keys == [] then Value(target)
    else match Get(target, keys[0])
      case Thrown => Thrown
      case Value(next) => Path(next, keys[1..])
  }

  /** Extending a path by one key accesses that key on the value the path reached. */
  lemma {:induction false} PathSnoc(target: JsValue, keys: seq<string>, key: string)
    ensures Path(target, keys + [key]) ==
      match Path(target, keys)
      case Thrown => Thrown
      case Value(w) => Get(w, key)
    decreases |keys|
  {
    if keys != [] {
      assert (keys + [key])[1..] == keys[1..] + [key];
      match Get(target, keys[0])
      case Thrown =>
      case Value(next) => PathSnoc(next, keys[1..], key);
    }
  }

  /** A path throws exactly when a step before its last key reaches null or undefined. */
  lemma {:induction false} PathThrowsIff(target: JsValue, keys: seq<string>)
    ensures Path(target, keys).Thrown? <==>
      exists i :: 0 <= i < |keys| && Path(target, keys[..i]).Value? && Nullish(Path(target, keys[..i]).v)
    decreases |keys|
  {
    if keys == [] {
    } else {
      assert keys[..0] == [];
      match Get(target, keys[0])
      case Thrown =>
        assert Path(target, keys[..0]) == Value(target);
      case Value(next) =>
        PathThrowsIff(next, keys[1..]);
        forall i | 1 <= i <= |keys|
          ensures Path(target, keys[..i]) == Path(next, keys[1..][..i - 1])
        {
          assert keys[..i][1..] == keys[1..][..i - 1];
        }
        if Path(next, keys[1..]).Thrown? {
          var j :| 0 <= j < |keys[1..]| && Path(next, keys[1..][..j]).Value? && Nullish(Path(next, keys[1..][..j]).v);
          assert Path(target, keys[..j + 1]) == Path(next, keys[1..][..j]);
        } else {
          forall i | 0 <= i < |keys| && Path(target, keys[..i]).Value?
            ensures !Nullish(Path(target, keys[..i]).v)
          {
            if i > 0 {
              assert Path(target, keys[..i]) == Path(next, keys[1..][..i - 1]);
            }
          }
        }
    }
  }

  /** `a === b`. Values of different kinds are never equal, NaN equals nothing, and
      arrays or objects obtained separately are distinct references. */
  predicate StrictEquals(a: JsValue, b: JsValue) {
    match (a, b)
    case (Undefined, Undefined) => true
    case (Null, Null) => true
    case (Bool(x), Bool(y)) => x == y
    case (Num(x), Num(y)) => x == y
    case (Str(x), Str(y)) => x == y
    case _ => false
  }

  /** `===` holds only between equal values of the same kind: a string never equals a
      number, NaN equals nothing, not even itself, and neither does an array or object. */
  lemma StrictEqualsKinds(a: JsValue, b: JsValue)
    ensures StrictEquals(a, b) ==> a == b
    ensures a.Str? && b.Num? ==> !StrictEquals(a, b)
    ensures !StrictEquals(NaN, b)
    ensures StrictEquals(a, a) <==> !(a.NaN? || a.Arr? || a.Obj?)
  {
  }

  // ---------------------------------------------------------------------------
  // Numbers

  /** `Number(v)` for the values the branding service sends as numbers. */
  function ToNumber(v: JsValue): (r: JsValue)
    ensures r.Num? || r.NaN?
    ensures v.Num? ==> r == v
  {
    match v
    case Null => Num(0.0)
    case Bool(b) => Num(if b then 1.0 else 0.0)
    case Num(n) => Num(n)
    case _ => NaN
  }

  /** `a * b`: NaN as soon as either operand converts to NaN. */
  function Multiply(a: JsValue, b: JsValue): (r: JsValue)
    ensures r.Num? <==> ToNumber(a).Num? && ToNumber(b).Num?
    ensures r.Num? ==> r.n == ToNumber(a).n * ToNumber(b).n
  {
    match (ToNumber(a), ToNumber(b))
    case (Num(x), Num(y)) => Num(x * y)
    case _ => NaN
  }

  /** `parseInt(s)` in base 10: an optional sign, then the leading digits; NaN (None)
      when no digit follows the sign. */
  function ParseInt(s: string): (r: Option<int>)
    ensures r.Some? <==>
      (if s != [] && (s[0] == '-' || s[0] == '+') then |s| > 1 && IsDigit(s[1]) else s != [] && IsDigit(s[0]))
  {
    var negative := s != [] && s[0] == '-';
    var unsigned := if s != [] && (s[0] == '-' || s[0] == '+') then s[1..] else s;
    var digits := LeadingDigits(unsigned);
    if digits == "" then None
    else
      var magnitude: int := DigitsValue(digits);
      Some(if negative then -magnitude else magnitude)
  }

  lemma ParseIntOfDigits(ds: string)
    requires ds != [] && AllDigits(ds)
    ensures ParseInt(ds) == Some(DigitsValue(ds))
  {
    assert LeadingDigits(ds) == ds;
  }

  /** JavaScript number arithmetic on integer-or-NaN values: None is NaN. */
  function Add(a: Option<int>, b: Option<int>): (r: Option<int>)
    ensures r.Some? <==> a.Some? && b.Some?
    ensures r.Some? ==> r.value == a.value + b.value
  {
    if a.Some? && b.Some? then Some(a.value + b.value) else None
  }

  function Scale(a: Option<int>, k: int): (r: Option<int>)
    ensures r.Some? <==> a.Some?
    ensures r.Some? ==> r.value == a.value * k
  {
    if a.Some? then Some(a.value * k) else None
  }

  /** `a < b`: every comparison involving NaN is false. */
  predicate Less(a: Option<int>, b: Option<int>) {
    a.Some? && b.Some? && a.value < b.value
  }
}
