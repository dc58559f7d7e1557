/**
 * Transmission\Models\AbstractModel: a collection of attributes that casts some of them,
 * by the per-class `$casts` table, when casting is enabled; and Formatter::castAttribute,
 * the cast it delegates to.
 */
module Models {
  import opened Wrappers
  import opened PhpStrings
  import opened Php
  import opened Failures

  /** The cast types Formatter::castAttribute has a case for. */
  const FormatterTypes: set<string> := {"collection", "interval", "date", "datetime", "timestamp", "size", "memory", "datarate"}

  /**
   * Formatter::castAttribute($type, $value): null is returned as it is, a type with a case
   * is handed to the library, and any other type falls to the default, which returns the value.
   */
  function FormatterCast(rt: Runtime, castType: string, value: Value): Value {
    if value == Null then Null
    else if castType in FormatterTypes then rt.formatterCast(castType, value)
    else value
  }

  /** castAttribute($key, $value, $castingEnabled). */
  function CastAttribute(rt: Runtime, casts: map<string, string>, key: string, value: Value, enabled: bool): (r: Value)
    ensures !enabled || key !in casts ==> r == value
    ensures value == Null ==> r == Null
  {
    if enabled && key in casts then FormatterCast(rt, casts[key], value) else value
  }

  /** Collection::get($key, $default): the entry when the key exists, even holding null; else the default. */
  function CollectionGet(items: seq<(Key, Value)>, k: Key, default: Value): Value {
    Lookup(items, k).GetOr(default)
  }

  /** get($key, $default, $castingEnabled): an explicit flag wins; with none the instance flag decides. */
  function ModelGet(rt: Runtime, casts: map<string, string>, items: seq<(Key, Value)>, flag: bool,
                    key: string, default: Value, castingEnabled: Option<bool>): (r: Value)
    ensures !castingEnabled.GetOr(flag) || key !in casts ==> r == CollectionGet(items, ArrayKey(key), default)
    ensures !HasKey(items, ArrayKey(key)) && default == Null ==> r == Null
  {
    CastAttribute(rt, casts, key, CollectionGet(items, ArrayKey(key), default), castingEnabled.GetOr(flag))
  }

  /** castAllAttributes(): every item replaced by its cast under the given flag, keys and order kept. */
  function CastAll(rt: Runtime, casts: map<string, string>, items: seq<(Key, Value)>, enabled: bool): (r: seq<(Key, Value)>)
    ensures |r| == |items|
  {
    seq(|items|, i requires 0 <= i < |items| => (items[i].0, CastAttribute(rt, casts, KeyName(items[i].0), items[i].1, enabled)))
  }

  /** Collection::toArray(): an Arrayable item becomes its toArray(), anything else stays. */
  function Arrayed(rt: Runtime, items: seq<(Key, Value)>): (r: seq<(Key, Value)>)
    ensures |r| == |items|
    ensures forall i | 0 <= i < |r| :: r[i].0 == items[i].0
    ensures forall i | 0 <= i < |r| ::
      r[i].1 == (if items[i].1.Obj? && rt.arrayable(items[i].1.handle) then Arr(rt.objectToArray(items[i].1.handle)) else items[i].1)
    ensures (forall i | 0 <= i < |items| :: !items[i].1.Obj?) ==> r == items
  {
    seq(|items|, i requires 0 <= i < |items| =>
      (items[i].0, if items[i].1.Obj? && rt.arrayable(items[i].1.handle) then Arr(rt.objectToArray(items[i].1.handle)) else items[i].1))
  }

  /** A value passed for a `bool` parameter outside strict mode: scalars by truthiness; arrays and objects are refused. */
  function BoolArgument(rt: Runtime, v: Value): (r: Result<bool, EngineError>)
    ensures v.Bool? ==> r == Ok(v.b)
  {
    match v
    case Arr(_) => Err(TypeError("Argument #3 ($castingEnabled) must be of type bool"))
    case Obj(_) => Err(TypeError("Argument #3 ($castingEnabled) must be of type bool"))
    case _ => Ok(Truthy(rt, v))
  }

  /** The message __call's BadMethodCallException carries. */
  function NoSuchMethod(className: string, name: string): string {
    "Method " + className + "::" + name + " does not exist."
  }

  /**
   * __call($method, $arguments): a name starting with 'get' whose camel-cased rest is an
   * attribute reads that attribute, cast under `$arguments[0] ?? $this->castingEnabled`;
   * any other name throws.
   */
  function MagicCall(rt: Runtime, casts: map<string, string>, className: string, items: seq<(Key, Value)>, flag: bool,
                     name: string, arguments: seq<Value>): (r: Result<Value, Failure>)
    ensures r.Ok? ==> StartsWith(name, "get") && HasKey(items, ArrayKey(Camel(After(name, "get"))))
    ensures r.Ok? && (|arguments| == 0 || arguments[0] == Null) ==>
      r.value == ModelGet(rt, casts, items, flag, Camel(After(name, "get")), Null, None)
    ensures r.Ok? && |arguments| > 0 && arguments[0].Bool? ==>
      r.value == ModelGet(rt, casts, items, flag, Camel(After(name, "get")), Null, Some(arguments[0].b))
    ensures |arguments| > 0 && (arguments[0].Arr? || arguments[0].Obj?) ==> r.Err?
  {
    var attribute := Camel(After(name, "get"));
    if !StartsWith(name, "get") || !HasKey(items, ArrayKey(attribute)) then
      Err(BadMethodCallException(NoSuchMethod(className, name)))
    else
      var given := if |arguments| > 0 then arguments[0] else Null;
      match (if given != Null then BoolArgument(rt, given) else Ok(flag))
      case Err(e) => Err(Engine(e))
      case Ok(enabled) => Ok(CastAttribute(rt, casts, attribute, CollectionGet(items, ArrayKey(attribute), Null), enabled))
  }

  class AbstractModel {
    const rt: Runtime
    /** The subclass's `$casts` table: attribute name to cast type. */
    const casts: map<string, string>
    /** static::class, as __call names it. */
    const className: string
    /** The collection's items. */
    var items: seq<(Key, Value)>
    var castingEnabled: bool

    /** A model over these items; casting starts disabled. */
    constructor(rt: Runtime, casts: map<string, string>, className: string, items: seq<(Key, Value)>)
      ensures this.rt == rt && this.casts == casts && this.className == className
      ensures this.items == items && !castingEnabled
    {
      this.rt := rt;
      this.casts := casts;
      this.className := className;
      this.items := items;
      castingEnabled := false;
    }

    /** get($key, $default, $castingEnabled). */
    function Get(key: string, default: Value, castingEnabled: Option<bool>): Value
      reads this
    {
      ModelGet(rt, casts, items, this.castingEnabled, key, default, castingEnabled)
    }

    /** __call($method, $arguments). */
    function Call(name: string, arguments: seq<Value>): Result<Value, Failure>
      reads this
    {
      MagicCall(rt, casts, className, items, castingEnabled, name, arguments)
    }

    /** enableCasting($castingEnabled = true): sets the flag and returns the model itself. */
    method EnableCasting(enabled: bool := true) returns (self: AbstractModel)
      modifies this
      ensures castingEnabled == enabled && items == old(items) && self == this
    {
      castingEnabled := enabled;
      self := this;
    }

    /** castAllAttributes(): replaces the items in place with their casts under the instance flag. */
    method CastAllAttributes()
      modifies this
      ensures items == CastAll(rt, casts, old(items), castingEnabled) && castingEnabled == old(castingEnabled)
    {
      items := CastAll(rt, casts, items, castingEnabled);
    }

    /** toArray(): casts every item in place, then answers the items as an array. */
    method ToArray() returns (r: seq<(Key, Value)>)
      modifies this
      ensures items == CastAll(rt, casts, old(items), castingEnabled) && castingEnabled == old(castingEnabled)
      ensures r == Arrayed(rt, items)
    {
      CastAllAttributes();
      r := Arrayed(rt, items);
    }
  }

  // ---------------------------------------------------------------- lemmas

  /** Formatter returns null unchanged, and leaves a value alone under a type it has no case for, such as 'bytes'. */
  lemma FormatterPassesThrough(rt: Runtime, castType: string, v: Value)
    ensures FormatterCast(rt, castType, Null) == Null
    ensures castType !in FormatterTypes ==> FormatterCast(rt, castType, v) == v
    ensures FormatterCast(rt, "bytes", v) == v
  {
    assert "bytes" !in FormatterTypes;
  }

  /** castAttribute() changes a value only when casting is enabled and the key is in the table. */
  lemma CastOnlyWhenEnabledAndListed(rt: Runtime, casts: map<string, string>, key: string, v: Value, enabled: bool)
    ensures !enabled || key !in casts ==> CastAttribute(rt, casts, key, v, enabled) == v
    ensures enabled && key in casts ==> CastAttribute(rt, casts, key, v, enabled) == FormatterCast(rt, casts[key], v)
  {
  }

  /**
   * get() obeys an explicit flag, `false` included, whatever the instance flag; with no
   * explicit flag it uses the instance flag.
   */
  lemma GetFlagPrecedence(rt: Runtime, casts: map<string, string>, items: seq<(Key, Value)>, flag: bool,
                          key: string, default: Value, b: bool)
    ensures ModelGet(rt, casts, items, flag, key, default, Some(b)) == ModelGet(rt, casts, items, !flag, key, default, Some(b))
    ensures ModelGet(rt, casts, items, flag, key, default, None) == ModelGet(rt, casts, items, !flag, key, default, Some(flag))
    ensures ModelGet(rt, casts, items, flag, key, default, Some(false)) == CollectionGet(items, ArrayKey(key), default)
  {
  }

  /** castAllAttributes() keeps every key in its place, and with casting disabled changes nothing. */
  lemma CastAllKeepsKeys(rt: Runtime, casts: map<string, string>, items: seq<(Key, Value)>, enabled: bool)
    ensures KeysOf(CastAll(rt, casts, items, enabled)) == KeysOf(items)
    ensures !enabled ==> CastAll(rt, casts, items, enabled) == items
  {
    var r := CastAll(rt, casts, items, enabled);
    assert KeysOf(r) == KeysOf(items) by {
      forall i | 0 <= i < |items| ensures KeysOf(r)[i] == KeysOf(items)[i] {
        assert r[i].0 == items[i].0;
      }
    }
    if !enabled {
      assert forall i | 0 <= i < |items| :: r[i] == items[i];
    }
  }

  /** Reading a key after castAllAttributes() reads the cast of what it held before. */
  lemma {:induction false} LookupCastAll(rt: Runtime, casts: map<string, string>, items: seq<(Key, Value)>, enabled: bool, k: Key)
    ensures Lookup(CastAll(rt, casts, items, enabled), k)
         == (if HasKey(items, k) then Some(CastAttribute(rt, casts, KeyName(k), Lookup(items, k).value, enabled)) else None)
  {
    if items != [] {
      var r := CastAll(rt, casts, items, enabled);
      assert r[1..] == CastAll(rt, casts, items[1..], enabled);
      LookupCastAll(rt, casts, items[1..], enabled, k);
    }
  }

  /**
   * After toArray() a plain read of an attribute present under a string key gives what get()
   * with the instance flag gave before: casting in place and casting on read agree.
   */
  lemma ReadAfterCastAll(rt: Runtime, casts: map<string, string>, items: seq<(Key, Value)>, flag: bool, key: string, default: Value)
    requires ArrayKey(key).StrKey? && HasKey(items, ArrayKey(key))
    ensures CollectionGet(CastAll(rt, casts, items, flag), ArrayKey(key), default) == ModelGet(rt, casts, items, flag, key, default, None)
  {
    LookupCastAll(rt, casts, items, flag, ArrayKey(key));
  }

  /** __call throws exactly when the name does not start with 'get' or names no attribute. */
  lemma MagicCallThrows(rt: Runtime, casts: map<string, string>, className: string, items: seq<(Key, Value)>, flag: bool,
                        name: string, arguments: seq<Value>)
    ensures var r := MagicCall(rt, casts, className, items, flag, name, arguments);
      (r.Err? && r.error.BadMethodCallException?)
        <==> !StartsWith(name, "get") || !HasKey(items, ArrayKey(Camel(After(name, "get"))))
    ensures var r := MagicCall(rt, casts, className, items, flag, name, arguments);
      (!StartsWith(name, "get") || !HasKey(items, ArrayKey(Camel(After(name, "get")))))
        ==> r == Err(BadMethodCallException(NoSuchMethod(className, name)))
  {
  }

  /** The attribute the magic getter `getX` reads, for a name X of letters: X with its first letter lower-cased. */
  lemma GetterAttribute(name: string, x: string, attribute: string)
    requires |x| > 0 && AllLetters(x) && name == "get" + x && attribute == [AsciiLower(x[0])] + x[1..]
    ensures StartsWith(name, "get") && Camel(After(name, "get")) == attribute
  {
    assert name[..3] == "get";
    AfterPrefix(name, "get");
    assert name[3..] == x;
    CamelOfLetters(x);
  }

  /**
   * `getX(false)` for a name X of letters reads the attribute x (X with its first letter
   * lower-cased), uncast, when the model holds it under a string key.
   */
  lemma MagicGetterReads(rt: Runtime, casts: map<string, string>, className: string, items: seq<(Key, Value)>, flag: bool,
                         x: string)
    requires |x| > 0 && AllLetters(x)
    requires var attribute := [AsciiLower(x[0])] + x[1..]; ArrayKey(attribute) == StrKey(attribute) && HasKey(items, StrKey(attribute))
    ensures var attribute := [AsciiLower(x[0])] + x[1..];
      MagicCall(rt, casts, className, items, flag, "get" + x, [Bool(false)]) == Ok(Lookup(items, StrKey(attribute)).value)
  {
    GetterAttribute("get" + x, x, [AsciiLower(x[0])] + x[1..]);
  }

  /** `getX(...)` for a name X of letters whose attribute the model lacks throws BadMethodCallException. */
  lemma MagicGetterMissing(rt: Runtime, casts: map<string, string>, className: string, items: seq<(Key, Value)>, flag: bool,
                           x: string, arguments: seq<Value>)
    requires |x| > 0 && AllLetters(x)
    requires var attribute := [AsciiLower(x[0])] + x[1..]; ArrayKey(attribute) == StrKey(attribute) && !HasKey(items, StrKey(attribute))
    ensures MagicCall(rt, casts, className, items, flag, "get" + x, arguments) == Err(BadMethodCallException(NoSuchMethod(className, "get" + x)))
  {
    GetterAttribute("get" + x, x, [AsciiLower(x[0])] + x[1..]);
  }
}
