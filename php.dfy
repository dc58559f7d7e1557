/**
 * PHP values, as the SDK passes them around, and the few PHP and Laravel rules the
 * core relies on: blank()/filled(), truthiness, loose `==` in `switch`, `< 1`,
 * `+`, isset() and reading an offset.
 *
 * Library routines whose workings lie outside the core (JSON, strip_tags, the
 * mbstring functions, base64, float parsing, Formatter's date casts, objects'
 * toArray()/count()) are fields of a `Runtime` record passed in by the caller.
 */
module Php {
  import opened Wrappers
  import opened PhpStrings

  /** An array key: PHP keys are integers or strings. */
  datatype Key = IntKey(i: int) | StrKey(s: string)

  /**
   * A PHP value. Arrays are ordered sequences of key/value pairs; objects are opaque
   * handles whose behaviour is looked up in the `Runtime`.
   */
  datatype Value =
    | Null
    | Bool(b: bool)
    | Int(i: int)
    | Float(f: real)
    | Str(s: string)
    | Arr(entries: seq<(Key, Value)>)
    | Obj(handle: nat)

  /** What a PHP expression can throw in the parts of the core that evaluate arbitrary values. */
  datatype EngineError = TypeError(what: string) | ConversionError(what: string) | UndefinedKey(key: Key)

  /** PHP_INT_MIN and PHP_INT_MAX on a 64-bit build. */
  const IntMin: int := -0x8000_0000_0000_0000
  const IntMax: int := 0x7FFF_FFFF_FFFF_FFFF

  datatype Runtime = Runtime(
    /** The float a numeric string denotes (used when it is not an integer in range). */
    floatOf: string -> real,
    /** mb_detect_encoding($s, 'auto'): None stands for `false`. */
    detectEncoding: string -> Option<string>,
    /** mb_convert_encoding($s, 'UTF-8'). */
    convertToUtf8: string -> string,
    /** count() of a Countable object; None when the object is not Countable. */
    objectCount: nat -> Option<nat>,
    /** The object's toArray(). */
    objectToArray: nat -> seq<(Key, Value)>,
    /** strip_tags(). */
    stripTags: string -> string,
    /** json_decode($s, true); None when json_last_error() reports an error. */
    jsonDecode: string -> Option<Value>,
    /** json_encode(). */
    jsonEncode: Value -> string,
    /** base64_encode(). */
    base64Encode: string -> string,
    /** Formatter's casts to a date, interval, size and so on. */
    formatterCast: (string, Value) -> Value,
    /** The decimal text PHP prints for a float. */
    floatToString: real -> string,
    /** The object's __toString(); None when it has none. */
    objectToString: nat -> Option<string>,
    /** Whether the object implements Arrayable. */
    arrayable: nat -> bool
  )

  // ---------------------------------------------------------------- arrays

  function KeysOf(es: seq<(Key, Value)>): (r: seq<Key>)
    ensures |r| == |es|
    ensures forall i | 0 <= i < |es| :: r[i] == es[i].0
  {
    if es == [] then [] else [es[0].0] + KeysOf(es[1..])
  }

  /** PHP arrays never hold a key twice. */
  predicate UniqueKeys(es: seq<(Key, Value)>) {
    forall i, j | 0 <= i < j < |es| :: es[i].0 != es[j].0
  }

  /** `$a[$k]` on an array, when the key exists. */
  function Lookup(es: seq<(Key, Value)>, k: Key): (r: Option<Value>)
    ensures r.Some? <==> exists i | 0 <= i < |es| :: es[i].0 == k
    ensures r.Some? ==> (k, r.value) in es
  {
    if es == [] then None
    else if es[0].0 == k then Some(es[0].1)
    else
      var r := Lookup(es[1..], k);
      assert forall i | 1 <= i < |es| :: es[i] == es[1..][i - 1];
      r
  }

  /** array_key_exists(). */
  predicate HasKey(es: seq<(Key, Value)>, k: Key) {
    Lookup(es, k).Some?
  }

  /** `$a[$k] = $v`: an existing key keeps its place, a new key goes at the end. */
  function Assign(es: seq<(Key, Value)>, k: Key, v: Value): (r: seq<(Key, Value)>)
    ensures HasKey(es, k) ==> KeysOf(r) == KeysOf(es)
    ensures !HasKey(es, k) ==> KeysOf(r) == KeysOf(es) + [k]
  {
    if es == [] then [(k, v)]
    else if es[0].0 == k then [(k, v)] + es[1..]
    else [es[0]] + Assign(es[1..], k, v)
  }

  lemma {:induction false} AssignLookup(es: seq<(Key, Value)>, k: Key, v: Value)
    ensures Lookup(Assign(es, k, v), k) == Some(v)
    ensures forall k' | k' != k :: Lookup(Assign(es, k, v), k') == Lookup(es, k')
  {
    if es != [] && es[0].0 != k {
      AssignLookup(es[1..], k, v);
      assert Assign(es, k, v)[1..] == Assign(es[1..], k, v);
    } else if es != [] {
      assert Assign(es, k, v)[1..] == es[1..];
    }
  }

  /** Every key an array holds at some index is one it has. */
  lemma HasKeyAt(es: seq<(Key, Value)>, i: nat)
    requires i < |es|
    ensures HasKey(es, es[i].0)
  {
  }

  /** The key at each index after an assignment: the old one, or the assigned key at the new last place. */
  lemma AssignKeyAt(es: seq<(Key, Value)>, k: Key, v: Value, j: nat)
    requires j < |Assign(es, k, v)|
    ensures Assign(es, k, v)[j].0 == (if j < |es| then es[j].0 else k)
    ensures j >= |es| ==> !HasKey(es, k)
  {
    var r := Assign(es, k, v);
    assert KeysOf(r)[j] == r[j].0;
    if j < |es| {
      assert KeysOf(es)[j] == es[j].0;
    }
  }

  lemma AssignKeepsUnique(es: seq<(Key, Value)>, k: Key, v: Value)
    requires UniqueKeys(es)
    ensures UniqueKeys(Assign(es, k, v))
  {
    var r := Assign(es, k, v);
    forall i, j | 0 <= i < j < |r| ensures r[i].0 != r[j].0 {
      AssignKeyAt(es, k, v, i);
      AssignKeyAt(es, k, v, j);
      if j >= |es| {
        HasKeyAt(es, i);
      }
    }
  }

  /** A string key as PHP stores it: a canonical decimal integer in range becomes an integer key. */
  predicate IsCanonicalInt(s: string) {
    s == "0"
    || (|s| > 0 && s[0] != '0' && AllDigits(s))
    || (|s| > 1 && s[0] == '-' && s[1] != '0' && AllDigits(s[1..]))
  }

  function CanonicalValue(s: string): int
    requires IsCanonicalInt(s)
  {
    if s[0] == '-' then 0 - DigitsValue(s[1..]) as int else DigitsValue(s) as int
  }

  function ArrayKey(s: string): (k: Key)
    ensures k.StrKey? ==> k.s == s
  {
    if IsCanonicalInt(s) && IntMin <= CanonicalValue(s) <= IntMax then IntKey(CanonicalValue(s)) else StrKey(s)
  }

  /** A key starting with a letter is never an integer key. */
  lemma LetterKeyIsString(s: string)
    requires |s| > 0 && ('a' <= s[0] <= 'z' || 'A' <= s[0] <= 'Z')
    ensures ArrayKey(s) == StrKey(s)
  {
    assert !IsDigit(s[0]);
  }

  /** The string a key becomes when passed where a string is expected. */
  function KeyName(k: Key): string {
    match k
    case IntKey(i) => IntToString(i)
    case StrKey(s) => s
  }

  /** `$a + $b` on two arrays: the left one, then the entries of the right one whose keys it lacks. */
  function Union(a: seq<(Key, Value)>, b: seq<(Key, Value)>): (r: seq<(Key, Value)>)
    ensures forall k :: Lookup(r, k) == (if HasKey(a, k) then Lookup(a, k) else Lookup(b, k))
    ensures |a| <= |r| && r[..|a|] == a
    decreases |b|
  {
    if b == [] then a
    else if HasKey(a, b[0].0) then Union(a, b[1..])
    else
      var r := Union(a + [b[0]], b[1..]);
      assert Lookup(b, b[0].0) == Some(b[0].1);
      assert forall k | k != b[0].0 :: Lookup(b, k) == Lookup(b[1..], k);
      LookupSnoc(a, b[0]);
      assert r[..|a|] == (r[..|a| + 1])[..|a|];
      r
  }

  lemma LookupSnoc(a: seq<(Key, Value)>, e: (Key, Value))
    requires !HasKey(a, e.0)
    ensures forall k :: Lookup(a + [e], k) == (if HasKey(a, k) then Lookup(a, k) else if k == e.0 then Some(e.1) else None)
  {
    forall k ensures Lookup(a + [e], k) == (if HasKey(a, k) then Lookup(a, k) else if k == e.0 then Some(e.1) else None) {
      LookupAppend(a, [e], k);
    }
  }

  lemma {:induction false} LookupAppend(a: seq<(Key, Value)>, b: seq<(Key, Value)>, k: Key)
    ensures Lookup(a + b, k) == (if HasKey(a, k) then Lookup(a, k) else Lookup(b, k))
  {
    if a != [] {
      assert (a + b)[0] == a[0] && (a + b)[1..] == a[1..] + b;
      LookupAppend(a[1..], b, k);
    } else {
      assert a + b == b;
    }
  }

  /** A literal array of string keys, as `compact()` and `[...]` build them. */
  function StrKeys(names: seq<string>, values: seq<Value>): (r: seq<(Key, Value)>)
    requires |names| == |values|
    ensures |r| == |names|
    ensures forall i | 0 <= i < |r| :: r[i] == (StrKey(names[i]), values[i])
  {
    if names == [] then [] else [(StrKey(names[0]), values[0])] + StrKeys(names[1..], values[1..])
  }

  // ---------------------------------------------------------------- blank / filled

  /**
   * Laravel's blank(): null; a string that trims to ''; never a number or a boolean;
   * a Countable object of count 0; otherwise empty(), which for an array means [].
   */
  predicate Blank(rt: Runtime, v: Value) {
    match v
    case Null => true
    case Str(s) => IsBlankString(s)
    case Int(_) => false
    case Float(_) => false
    case Bool(_) => false
    case Arr(es) => es == []
    case Obj(h) => rt.objectCount(h) == Some(0)
  }

  predicate Filled(rt: Runtime, v: Value) {
    !Blank(rt, v)
  }

  // ---------------------------------------------------------------- comparisons

  /** is_numeric(). */
  predicate IsNumeric(v: Value) {
    v.Int? || v.Float? || (v.Str? && IsNumericString(v.s))
  }

  /** The number `$s + 0` yields for a numeric string: an integer when it has integer form and fits, else a float. */
  function NumberOfString(rt: Runtime, s: string): (r: Value)
    requires IsNumericString(s)
    ensures r.Int? || r.Float?
    ensures IsIntegerString(s) && IntMin <= IntegerValue(s) <= IntMax ==> r == Int(IntegerValue(s))
  {
    if IsIntegerString(s) && IntMin <= IntegerValue(s) <= IntMax then Int(IntegerValue(s))
    else Float(rt.floatOf(s))
  }

  /** The value of a number as a real, for comparisons. */
  function NumberValue(rt: Runtime, v: Value): real
    requires v.Int? || v.Float?
  {
    if v.Int? then v.i as real else v.f
  }

  /** PHP truthiness, `(bool) $v`. */
  predicate Truthy(rt: Runtime, v: Value) {
    match v
    case Null => false
    case Bool(b) => b
    case Int(i) => i != 0
    case Float(f) => f != 0.0
    case Str(s) => s != "" && s != "0"
    case Arr(es) => es != []
    case Obj(_) => true
  }

  /**
   * PHP 8 `$v == $c` for an integer constant `$c`, as a `switch` over integer cases
   * performs it: null and booleans compare as booleans, numbers and numeric strings by
   * value, a non-numeric string compares as a string with "$c" (and so never equals it),
   * an array never equals an integer, and an object equals only 1.
   */
  predicate LooseEqualsInt(rt: Runtime, v: Value, c: int) {
    match v
    case Null => c == 0
    case Bool(b) => b == (c != 0)
    case Int(i) => i == c
    case Float(f) => f == c as real
    case Str(s) => IsNumericString(s) && NumberValue(rt, NumberOfString(rt, s)) == c as real
    case Arr(_) => false
    case Obj(_) => c == 1
  }

  /** PHP 8 `$v == null`: false for objects, `$v === ''` for strings, otherwise falsiness. */
  predicate LooseEqualsNull(rt: Runtime, v: Value) {
    match v
    case Str(s) => s == ""
    case Obj(_) => false
    case _ => !Truthy(rt, v)
  }

  /**
   * PHP 8 `$v < 1`: null and booleans compare as booleans, numbers and numeric strings by
   * value, a non-numeric string as a string with "1", an array is never smaller, and an
   * object compares as 1.
   */
  predicate LessThanOne(rt: Runtime, v: Value) {
    match v
    case Null => true
    case Bool(b) => !b
    case Int(i) => i < 1
    case Float(f) => f < 1.0
    case Str(s) =>
      if IsNumericString(s) then NumberValue(rt, NumberOfString(rt, s)) < 1.0
      else s == "" || s[0] < '1'
    case Arr(_) => false
    case Obj(_) => false
  }

  /** The number an operand of `+` contributes, or the TypeError PHP 8 throws for it. */
  function ArithmeticOperand(rt: Runtime, v: Value): (r: Result<Value, EngineError>)
    ensures r.Ok? ==> r.value.Int? || r.value.Float?
    ensures r.Ok? <==> !v.Arr? && !v.Obj? && (v.Str? ==> IsNumericString(v.s))
  {
    match v
    case Null => Ok(Int(0))
    case Bool(b) => Ok(Int(if b then 1 else 0))
    case Int(_) => Ok(v)
    case Float(_) => Ok(v)
    case Str(s) => if IsNumericString(s) then Ok(NumberOfString(rt, s)) else Err(TypeError("Unsupported operand types"))
    case Arr(_) => Err(TypeError("Unsupported operand types"))
    case Obj(_) => Err(TypeError("Unsupported operand types"))
  }

  /**
   * `$a + $b` in PHP 8: two arrays give their union; otherwise both must be numbers, null,
   * booleans or numeric strings; integers add exactly unless the sum leaves the 64-bit range,
   * where it becomes a float, and anything involving a float is a float.
   */
  function Add(rt: Runtime, a: Value, b: Value): (r: Result<Value, EngineError>)
    ensures a.Arr? && b.Arr? ==> r == Ok(Arr(Union(a.entries, b.entries)))
    ensures !(a.Arr? && b.Arr?) ==> (r.Ok? <==> ArithmeticOperand(rt, a).Ok? && ArithmeticOperand(rt, b).Ok?)
    ensures a.Int? && b.Int? && IntMin <= a.i + b.i <= IntMax ==> r == Ok(Int(a.i + b.i))
    ensures a.Int? && b.Int? && !(IntMin <= a.i + b.i <= IntMax) ==> r == Ok(Float((a.i + b.i) as real))
  {
    if a.Arr? && b.Arr? then Ok(Arr(Union(a.entries, b.entries)))
    else
      match (ArithmeticOperand(rt, a), ArithmeticOperand(rt, b))
      case (Ok(x), Ok(y)) =>
        if x.Int? && y.Int? then
          if IntMin <= x.i + y.i <= IntMax then Ok(Int(x.i + y.i)) else Ok(Float((x.i + y.i) as real))
        else Ok(Float(NumberValue(rt, x) + NumberValue(rt, y)))
      case (Err(e), _) => Err(e)
      case (_, Err(e)) => Err(e)
  }

  // ---------------------------------------------------------------- reading offsets

  /**
   * `$v[$k]` read in PHP 8: an array yields the entry or, for a missing key, null (with a
   * warning); null and other scalars yield null (with a warning); a string offset by a
   * string key and an object that is not ArrayAccess throw.
   */
  function Index(v: Value, k: Key): (r: Result<Value, EngineError>)
    ensures v.Arr? && HasKey(v.entries, k) ==> r == Ok(Lookup(v.entries, k).value)
    ensures r.Err? <==> v.Str? || v.Obj?
  {
    match v
    case Arr(es) => Ok(Lookup(es, k).GetOr(Null))
    case Str(_) => Err(TypeError("Cannot access offset on string"))
    case Obj(_) => Err(TypeError("Cannot use object as array"))
    case _ => Ok(Null)
  }

  /** isset($v[$k]): an array holding the key with a non-null value. */
  predicate Isset(v: Value, k: Key) {
    v.Arr? && Lookup(v.entries, k).Some? && Lookup(v.entries, k).value != Null
  }

  /** The items `collect($v)` (Collection's constructor) holds. */
  function ArrayableItems(rt: Runtime, v: Value): (r: seq<(Key, Value)>)
    ensures v.Arr? ==> r == v.entries
    ensures v == Null ==> r == []
    ensures !v.Arr? && !v.Obj? && v != Null ==> r == [(IntKey(0), v)]
  {
    match v
    case Null => []
    case Arr(es) => es
    case Obj(h) => rt.objectToArray(h)
    case _ => [(IntKey(0), v)]
  }

  /**
   * The string `.` concatenates for `$v`: null and false give '', true '1', numbers their
   * decimal text, an array 'Array' (with a warning); an object without __toString throws.
   */
  function ToText(rt: Runtime, v: Value): (r: Result<string, EngineError>)
    ensures v.Str? ==> r == Ok(v.s)
    ensures v == Null || v == Bool(false) ==> r == Ok("")
    ensures r.Err? <==> v.Obj? && rt.objectToString(v.handle).None?
  {
    match v
    case Null => Ok("")
    case Bool(b) => Ok(if b then "1" else "")
    case Int(i) => Ok(IntToString(i))
    case Float(f) => Ok(rt.floatToString(f))
    case Str(s) => Ok(s)
    case Arr(_) => Ok("Array")
    case Obj(h) =>
      match rt.objectToString(h)
      case Some(t) => Ok(t)
      case None => Err(ConversionError("Object could not be converted to string"))
  }

  // ---------------------------------------------------------------- lemmas

  /** `false` and `0` are not blank. */
  lemma FalseAndZeroNotBlank(rt: Runtime)
    ensures !Blank(rt, Bool(false)) && !Blank(rt, Int(0))
  {
  }

  /** A string holding a character trim() does not strip is not blank. */
  lemma KeptCharNotBlank(rt: Runtime, s: string, i: nat)
    requires i < |s| && !IsTrimChar(s[i])
    ensures !Blank(rt, Str(s))
  {
    BlankStringIff(s);
  }

  /** `'0'` is not blank: '0' is not a character trim() strips. */
  lemma ZeroStringNotBlank(rt: Runtime)
    ensures !Blank(rt, Str("0"))
  {
    KeptCharNotBlank(rt, "0", 0);
  }

  /** null, '' and [] are blank. */
  lemma BlankExamples(rt: Runtime)
    ensures Blank(rt, Null) && Blank(rt, Str("")) && Blank(rt, Arr([]))
  {
  }

  /** A `switch` over a null subject takes the first `case 0` before any `case null`. */
  lemma NullMatchesZeroCase(rt: Runtime)
    ensures LooseEqualsInt(rt, Null, 0) && LooseEqualsNull(rt, Null)
    ensures forall c: int | c != 0 :: !LooseEqualsInt(rt, Null, c)
  {
  }

  /** An integer loosely equals exactly one integer constant: itself. */
  lemma IntLooseEqualsIsStrict(rt: Runtime, i: int, c: int)
    ensures LooseEqualsInt(rt, Int(i), c) <==> i == c
  {
  }
}
