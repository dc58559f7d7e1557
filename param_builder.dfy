/**
 * ParamBuilder::build: the argument array of an RPC call, with blank entries rejected and
 * every kept value transformed (objects to their toArray(), arrays recursively, numbers
 * and numeric strings to numbers, booleans to 0/1, non-UTF-8 strings converted).
 */
module ParamBuilder {
  import opened Wrappers
  import opened PhpStrings
  import opened Php
  import opened Sequences

  /** `reject(fn ($value) => blank($value))`: the non-blank entries, keys and order kept. */
  function Reject(rt: Runtime, es: seq<(Key, Value)>): (r: seq<(Key, Value)>)
    ensures forall e | e in r :: e in es && !Blank(rt, e.1)
    ensures forall e | e in es && !Blank(rt, e.1) :: e in r
    ensures Subsequence(r, es)
  {
    if es == [] then []
    else
      var rest := Reject(rt, es[1..]);
      assert forall e | e in es :: e == es[0] || e in es[1..];
      if Blank(rt, es[0].1) then
        SubsequenceWeaken(rest, es[1..], es[0]);
        assert [es[0]] + es[1..] == es;
        rest
      else
        assert ([es[0]] + rest)[1..] == rest;
        [es[0]] + rest
  }

  /**
   * The transform callback, applied to one kept value. No boolean reaches the wire; arrays
   * and objects come out as arrays, numbers, numeric strings and booleans as numbers, and
   * null only from null.
   */
  function Transform(rt: Runtime, v: Value): (r: Value)
    ensures !r.Bool?
    ensures r.Null? <==> v.Null?
    ensures r.Arr? <==> v.Arr? || v.Obj?
    ensures r.Int? || r.Float? <==> IsNumeric(v) || v.Bool?
    decreases v
  {
    match v
    case Obj(h) => Arr(rt.objectToArray(h))
    case Arr(es) =>
      var kept := Reject(rt, es);
      Arr(seq(|kept|, i requires 0 <= i < |kept| =>
        assert kept[i] in es;
        (kept[i].0, Transform(rt, kept[i].1))))
    case Int(_) => v
    case Float(_) => v
    case Str(s) =>
      if IsNumericString(s) then NumberOfString(rt, s)
      else if rt.detectEncoding(s) != Some("UTF-8") then Str(rt.convertToUtf8(s))
      else v
    case Bool(b) => Int(if b then 1 else 0)
    case Null => Null
  }

  /** ParamBuilder::build($params): no value sent is null or a boolean. */
  function Build(rt: Runtime, params: seq<(Key, Value)>): (r: seq<(Key, Value)>)
    ensures forall i | 0 <= i < |r| :: r[i].1 != Null && !r[i].1.Bool?
  {
    TransformedValues(rt, params);
    Transform(rt, Arr(params)).entries
  }

  /** Each value of the transformed array is the transform of a kept, hence non-null, value. */
  lemma TransformedValues(rt: Runtime, params: seq<(Key, Value)>)
    ensures var b := Transform(rt, Arr(params)).entries;
      forall i | 0 <= i < |b| :: b[i].1 != Null && !b[i].1.Bool?
  {
    var kept := Reject(rt, params);
    var b := Transform(rt, Arr(params)).entries;
    forall i | 0 <= i < |b| ensures b[i].1 != Null && !b[i].1.Bool? {
      assert kept[i] in kept && kept[i].1 != Null;
      assert b[i] == (kept[i].0, Transform(rt, kept[i].1));
    }
  }

  /** What one entry contributes to build()'s output: nothing when blank, else its transformed value. */
  function Sent(rt: Runtime, k: Key, v: Value): seq<(Key, Value)> {
    if Blank(rt, v) then [] else [(k, Transform(rt, v))]
  }

  // ---------------------------------------------------------------- structure

  /** The kept entries with their values transformed, keys and order unchanged. */
  function TransformEntries(rt: Runtime, kept: seq<(Key, Value)>): (r: seq<(Key, Value)>)
    ensures |r| == |kept|
  {
    seq(|kept|, i requires 0 <= i < |kept| => (kept[i].0, Transform(rt, kept[i].1)))
  }

  /** build() is reject, then transform. */
  lemma BuildIsRejectThenTransform(rt: Runtime, params: seq<(Key, Value)>)
    ensures Build(rt, params) == TransformEntries(rt, Reject(rt, params))
  {
  }

  lemma TransformEntriesCons(rt: Runtime, e: (Key, Value), rest: seq<(Key, Value)>)
    ensures TransformEntries(rt, [e] + rest) == [(e.0, Transform(rt, e.1))] + TransformEntries(rt, rest)
  {
    var lhs := TransformEntries(rt, [e] + rest);
    var rhs := [(e.0, Transform(rt, e.1))] + TransformEntries(rt, rest);
    forall i | 0 <= i < |lhs| ensures lhs[i] == rhs[i] {
      if i > 0 {
        assert ([e] + rest)[i] == rest[i - 1];
      }
    }
  }

  /** build() is a left-to-right map-and-filter: one entry at a time, blank ones dropped. */
  lemma BuildCons(rt: Runtime, k: Key, v: Value, rest: seq<(Key, Value)>)
    ensures Build(rt, [(k, v)] + rest)
         == (if Blank(rt, v) then [] else [(k, Transform(rt, v))]) + Build(rt, rest)
  {
    BuildIsRejectThenTransform(rt, [(k, v)] + rest);
    BuildIsRejectThenTransform(rt, rest);
    RejectCons(rt, (k, v), rest);
    if Blank(rt, v) {
      assert Reject(rt, [(k, v)] + rest) == Reject(rt, rest);
    } else {
      TransformEntriesCons(rt, (k, v), Reject(rt, rest));
    }
  }

  /** Rejecting works one entry at a time from the front. */
  lemma RejectCons(rt: Runtime, e: (Key, Value), rest: seq<(Key, Value)>)
    ensures Reject(rt, [e] + rest) == (if Blank(rt, e.1) then [] else [e]) + Reject(rt, rest)
  {
    assert ([e] + rest)[0] == e && ([e] + rest)[1..] == rest;
  }

  lemma BuildEmpty(rt: Runtime)
    ensures Build(rt, []) == []
  {
  }

  /** One entry on its own: no key, `ids` included, is handled differently from any other. */
  lemma BuildSingle(rt: Runtime, k: Key, v: Value)
    ensures Build(rt, [(k, v)]) == if Blank(rt, v) then [] else [(k, Transform(rt, v))]
  {
    BuildCons(rt, k, v, []);
    assert [(k, v)] + [] == [(k, v)];
  }

  /** The output keys are the input keys of the non-blank entries, in their input order. */
  lemma {:induction false} BuildKeys(rt: Runtime, params: seq<(Key, Value)>)
    ensures KeysOf(Build(rt, params)) == KeysOf(Reject(rt, params))
    ensures Subsequence(KeysOf(Build(rt, params)), KeysOf(params))
  {
    var b := Build(rt, params);
    var kept := Reject(rt, params);
    assert |b| == |kept|;
    assert forall i | 0 <= i < |b| :: b[i].0 == kept[i].0;
    KeysOfSubsequence(kept, params);
  }

  lemma {:induction false} KeysOfSubsequence(a: seq<(Key, Value)>, b: seq<(Key, Value)>)
    requires Subsequence(a, b)
    ensures Subsequence(KeysOf(a), KeysOf(b))
    decreases |b|
  {
    if a != [] && b != [] {
      assert KeysOf(b) == [b[0].0] + KeysOf(b[1..]);
      assert KeysOf(a) == [a[0].0] + KeysOf(a[1..]);
      if a[0] == b[0] {
        KeysOfSubsequence(a[1..], b[1..]);
        assert KeysOf(a)[1..] == KeysOf(a[1..]);
        assert KeysOf(b)[1..] == KeysOf(b[1..]);
      } else {
        KeysOfSubsequence(a, b[1..]);
        SubsequenceWeaken(KeysOf(a), KeysOf(b[1..]), b[0].0);
      }
    }
  }

  /**
   * With the unique keys of a PHP array, an entry of the output exists exactly when the
   * input holds that key with a non-blank value, and it is that value transformed.
   */
  lemma {:induction false} BuildLookup(rt: Runtime, params: seq<(Key, Value)>, k: Key)
    requires UniqueKeys(params)
    ensures Lookup(Build(rt, params), k)
         == match Lookup(params, k)
            case None => None
            case Some(v) => if Blank(rt, v) then None else Some(Transform(rt, v))
  {
    if params != [] {
      var head := params[0];
      var rest := params[1..];
      assert params == [head] + rest;
      BuildCons(rt, head.0, head.1, rest);
      UniqueKeysTail(params);
      BuildLookup(rt, rest, k);
      var sent := if Blank(rt, head.1) then [] else [(head.0, Transform(rt, head.1))];
      LookupAppend(sent, Build(rt, rest), k);
      assert Lookup(params, k) == if head.0 == k then Some(head.1) else Lookup(rest, k);
      assert Lookup(sent, k) == if head.0 == k && !Blank(rt, head.1) then Some(Transform(rt, head.1)) else None;
    }
  }

  /** The rest of an array with unique keys has unique keys, none of them the first key. */
  lemma UniqueKeysTail(params: seq<(Key, Value)>)
    requires params != [] && UniqueKeys(params)
    ensures UniqueKeys(params[1..]) && Lookup(params[1..], params[0].0).None?
  {
    var rest := params[1..];
    forall i, j | 0 <= i < j < |rest| ensures rest[i].0 != rest[j].0 {
      assert rest[i] == params[i + 1] && rest[j] == params[j + 1];
    }
    forall i | 0 <= i < |rest| ensures rest[i].0 != params[0].0 {
      assert rest[i] == params[i + 1];
    }
  }

  /** A blank entry (null, a string that trims to '', an empty array) never reaches the output. */
  lemma BlankEntryAbsent(rt: Runtime, params: seq<(Key, Value)>, k: Key)
    requires UniqueKeys(params)
    requires Lookup(params, k).Some? && Blank(rt, Lookup(params, k).value)
    ensures !HasKey(Build(rt, params), k)
  {
    BuildLookup(rt, params, k);
  }

  /** A filled entry always reaches the output under its own key. */
  lemma FilledEntryKept(rt: Runtime, params: seq<(Key, Value)>, k: Key)
    requires UniqueKeys(params)
    requires Lookup(params, k).Some? && Filled(rt, Lookup(params, k).value)
    ensures Lookup(Build(rt, params), k) == Some(Transform(rt, Lookup(params, k).value))
  {
    BuildLookup(rt, params, k);
  }

  // ---------------------------------------------------------------- values

  /** `false` becomes 0 and `true` becomes 1; both are kept, never rejected. */
  lemma BooleansBecomeIntegers(rt: Runtime, k: Key)
    ensures Build(rt, [(k, Bool(false))]) == [(k, Int(0))]
    ensures Build(rt, [(k, Bool(true))]) == [(k, Int(1))]
  {
    BuildSingle(rt, k, Bool(false));
    BuildSingle(rt, k, Bool(true));
  }

  /** `0` is kept as 0 and `'0'` is kept and becomes the integer 0. */
  lemma ZerosAreKept(rt: Runtime, k: Key)
    ensures Build(rt, [(k, Int(0))]) == [(k, Int(0))]
    ensures Build(rt, [(k, Str("0"))]) == [(k, Int(0))]
  {
    BuildSingle(rt, k, Int(0));
    BuildSingle(rt, k, Str("0"));
    ZeroStringNotBlank(rt);
    ZeroStringBecomesZero(rt);
  }

  lemma ZeroStringBecomesZero(rt: Runtime)
    ensures Transform(rt, Str("0")) == Int(0)
  {
    DigitStringIsInteger("0");
    assert "0"[0..1] == "0";
  }

  /** A string of decimal digits becomes the integer it spells, when it fits in 64 bits. */
  lemma DigitStringBecomesInteger(rt: Runtime, s: string)
    requires |s| > 0 && AllDigits(s) && DigitsValue(s) <= IntMax
    ensures Transform(rt, Str(s)) == Int(DigitsValue(s))
  {
    DigitStringIsInteger(s);
  }

  /** Numbers pass through unchanged. */
  lemma NumbersUnchanged(rt: Runtime, v: Value)
    requires v.Int? || v.Float?
    ensures Transform(rt, v) == v
  {
  }

  /** Every numeric string becomes a number; every other string stays a string. */
  lemma StringsBecomeNumbersIffNumeric(rt: Runtime, s: string)
    ensures IsNumericString(s) ==> Transform(rt, Str(s)).Int? || Transform(rt, Str(s)).Float?
    ensures !IsNumericString(s) ==> Transform(rt, Str(s)).Str?
  {
  }

  /** A non-numeric string that mbstring reports as UTF-8 (text beyond ASCII) is sent as it is. */
  lemma Utf8TextUnchanged(rt: Runtime, s: string)
    requires !IsNumericString(s) && rt.detectEncoding(s) == Some("UTF-8")
    ensures Transform(rt, Str(s)) == Str(s)
  {
  }

  /**
   * 'recently-active' is text like any other: it is never turned into a number and reaches
   * the daemon as a string, converted by mb_convert_encoding whenever mbstring does not
   * report UTF-8 for it (for pure ASCII it reports 'ASCII').
   */
  lemma RecentlyActiveUnchanged(rt: Runtime)
    ensures Transform(rt, Str("recently-active")) in {Str("recently-active"), Str(rt.convertToUtf8("recently-active"))}
    ensures rt.detectEncoding("recently-active") == Some("ASCII")
        ==> Transform(rt, Str("recently-active")) == Str(rt.convertToUtf8("recently-active"))
  {
    RecentlyActiveIsNotNumeric();
  }

  /** A string that mbstring does not detect as UTF-8 is sent converted. */
  lemma OtherEncodingsConverted(rt: Runtime, s: string)
    requires !IsNumericString(s) && rt.detectEncoding(s) != Some("UTF-8")
    ensures Transform(rt, Str(s)) == Str(rt.convertToUtf8(s))
  {
  }

  /**
   * Blanks are rejected before the transform, so a non-empty nested array of blanks is
   * kept, and comes out as an empty array.
   */
  lemma AllBlankNestedArrayKept(rt: Runtime, k: Key, es: seq<(Key, Value)>)
    requires es != []
    requires forall e | e in es :: Blank(rt, e.1)
    ensures Build(rt, [(k, Arr(es))]) == [(k, Arr([]))]
  {
    BuildSingle(rt, k, Arr(es));
    assert Reject(rt, es) == [];
    assert Transform(rt, Arr(es)) == Arr([]);
  }

  /**
   * A nested array is sanitised by the same rules as the top level: its blank entries are
   * dropped, the others keep their keys in order, and no null or boolean is left inside.
   */
  lemma NestedArraysSanitised(rt: Runtime, es: seq<(Key, Value)>)
    ensures Transform(rt, Arr(es)).Arr?
    ensures KeysOf(Transform(rt, Arr(es)).entries) == KeysOf(Reject(rt, es))
    ensures var b := Transform(rt, Arr(es)).entries;
      forall i | 0 <= i < |b| :: b[i].1 != Null && !b[i].1.Bool?
  {
    BuildKeys(rt, es);
  }

  /**
   * A filled object is sent as its toArray() result, which is not sanitised further: a null
   * inside it survives.
   */
  lemma ObjectsNotSanitised(rt: Runtime, k: Key, h: nat)
    requires rt.objectCount(h) != Some(0)
    ensures Build(rt, [(k, Obj(h))]) == [(k, Arr(rt.objectToArray(h)))]
    ensures rt.objectToArray(h) == [(StrKey("a"), Null)] ==> Build(rt, [(k, Obj(h))]) == [(k, Arr([(StrKey("a"), Null)]))]
  {
    BuildSingle(rt, k, Obj(h));
  }

  /**
   * build() is not idempotent: sanitising its own output can drop more, because a nested
   * array whose entries were all blank comes out empty, and an empty array is blank.
   */
  lemma NotIdempotent(rt: Runtime)
    ensures Build(rt, [(StrKey("a"), Arr([(StrKey("b"), Null)]))]) == [(StrKey("a"), Arr([]))]
    ensures Build(rt, Build(rt, [(StrKey("a"), Arr([(StrKey("b"), Null)]))])) == []
  {
    AllBlankNestedArrayKept(rt, StrKey("a"), [(StrKey("b"), Null)]);
    BuildSingle(rt, StrKey("a"), Arr([]));
  }
}
