/** JavaScript values as the logger sees them: the primitive values it may be handed,
    `Date` objects, and plain objects whose string-keyed properties keep insertion order.
    What the JavaScript runtime does natively and this model cannot see (JSON
    serialisation, rendering a date) is supplied by a `Host`. */
module JsValue {

  /** A JavaScript value. Numbers are limited to integers; a `Date` carries the instant
      it denotes, in milliseconds since the epoch. */
  datatype Value =
    | Undefined
    | Null
    | Bool(b: bool)
    | Num(n: int)
    | Str(s: string)
    | Date(millis: int)
    | Object(fields: seq<Field>)

  /** One own enumerable property of a plain object. */
  datatype Field = Field(key: string, value: Value)

  /** The properties of a plain object, in the order in which they were created. */
  type Record = seq<Field>

  /** The runtime services the logger calls but whose algorithms are not modelled:
      `JSON.stringify` of an object or `null` (which writes an object's properties in the
      order `OwnKeys` gives), `String(date)`, and `value.toLocaleString("en", options)`. */
  datatype Host = Host(
    stringify: Value -> string,
    dateString: int -> string,
    localeString: Value -> string)

  /** JavaScript truthiness (`if (v)`, `v || w`); NaN is not modelled. */
  predicate Truthy(v: Value)
  {
    match v
    case Undefined => false
    case Null => false
    case Bool(b) => b
    case Num(n) => n != 0
    case Str(s) => s != ""
    case Date(_) => true
    case Object(_) => true
  }

  /** `typeof v === "object"`, which holds of `null` too. */
  predicate IsObjectType(v: Value)
  {
    v.Null? || v.Date? || v.Object?
  }

  // ---------------------------------------------------------------------------
  // Number to string

  function DigitChar(d: nat): (c: char)
    requires d < 10
    ensures '0' <= c <= '9'
  {
    ('0' as int + d) as char
  }

  /** The decimal digits of `n`, most significant first, without leading zeros. */
  function NatDigits(n: nat): (s: string)
    ensures |s| >= 1
    ensures forall i :: 0 <= i < |s| ==> '0' <= s[i] <= '9'
    ensures |s| > 1 ==> s[0] != '0'
  {
    if n < 10 then [DigitChar(n)] else NatDigits(n / 10) + [DigitChar(n % 10)]
  }

  /** `String(n)` for an integer `n`. */
  function Decimal(n: int): string
  {
    if n < 0 then "-" + NatDigits(-n) else NatDigits(n)
  }

  /** The value of a string of decimal digits; the partner of `NatDigits`. */
  function DigitsValue(s: string): int
  {
    if s == [] then 0 else 10 * DigitsValue(s[..|s| - 1]) + (s[|s| - 1] as int - '0' as int)
  }

  /** Reading back the digits `String(n)` produces gives `n`. */
  lemma {:induction false} NatDigitsRoundTrip(n: nat)
    ensures DigitsValue(NatDigits(n)) == n
  {
    var s := NatDigits(n);
    if n >= 10 {
      NatDigitsRoundTrip(n / 10);
      assert s[..|s| - 1] == NatDigits(n / 10);
    }
  }

  /** `String(n)` is the digits of |n|, preceded by a minus sign exactly when n is negative. */
  lemma DecimalShape(n: int)
    ensures Decimal(n)[0] == '-' <==> n < 0
    ensures n < 0 ==> DigitsValue(Decimal(n)[1..]) == -n
    ensures n >= 0 ==> DigitsValue(Decimal(n)) == n
  {
    assert Decimal(n)[0] == '-' <==> n < 0 by {
      if n >= 0 {
        var d := NatDigits(n);
        assert '0' <= d[0] <= '9';
      }
    }
    if n < 0 {
      assert DigitsValue(Decimal(n)[1..]) == -n by {
        assert Decimal(n)[1..] == NatDigits(-n);
        NatDigitsRoundTrip(-n);
      }
    } else {
      assert DigitsValue(Decimal(n)) == n by {
        NatDigitsRoundTrip(n);
      }
    }
  }

  // ---------------------------------------------------------------------------
  // String(value) and toUpperCase

  /** `String(v)`, which is also what a template literal `${v}` inserts. */
  function ToString(v: Value, host: Host): string
  {
    match v
    case Undefined => "undefined"
    case Null => "null"
    case Bool(b) => if b then "true" else "false"
    case Num(n) => Decimal(n)
    case Str(s) => s
    case Date(t) => host.dateString(t)
    case Object(_) => "[object Object]"
  }

  predicate IsLower(c: char)
  {
    'a' <= c <= 'z'
  }

  function UpperChar(c: char): char
  {
    if IsLower(c) then (c as int - 32) as char else c
  }

  /** `s.toUpperCase()` for ASCII letters; other characters are kept. */
  function ToUpper(s: string): (r: string)
    ensures |r| == |s|
    ensures forall i :: 0 <= i < |r| ==> !IsLower(r[i])
    ensures forall i :: 0 <= i < |r| && !IsLower(s[i]) ==> r[i] == s[i]
    ensures forall i :: 0 <= i < |r| && IsLower(s[i]) ==> r[i] == (s[i] as int - 32) as char
  {
    seq(|s|, i requires 0 <= i < |s| => UpperChar(s[i]))
  }

  // ---------------------------------------------------------------------------
  // Properties of plain objects

  /** The keys of an object in the order their properties were created. */
  function Keys(r: Record): (ks: seq<string>)
    ensures |ks| == |r|
    ensures forall i :: 0 <= i < |r| ==> ks[i] == r[i].key
  {
    if r == [] then [] else [r[0].key] + Keys(r[1..])
  }

  /** A JavaScript object never has the same key twice. */
  predicate UniqueKeys(r: Record)
  {
    forall i, j :: 0 <= i < j < |r| ==> r[i].key != r[j].key
  }

  /** `o[k]`: the value of property `k`, or `undefined` when there is none. */
  function Get(r: Record, k: string): Value
  {
    if r == [] then Undefined
    else if r[0].key == k then r[0].value
    else Get(r[1..], k)
  }

  /** `o[k] = v`: an existing property keeps its position, a new one is appended. */
  function Put(r: Record, k: string, v: Value): Record
  {
    if r == [] then [Field(k, v)]
    else if r[0].key == k then [Field(k, v)] + r[1..]
    else [r[0]] + Put(r[1..], k, v)
  }

  /** `Object.assign(target, source)`: the properties of `source`, in order, each put on `target`. */
  function Assign(target: Record, source: Record): Record
    decreases |source|
  {
    if source == [] then target
    else Assign(Put(target, source[0].key, source[0].value), source[1..])
  }

  /** Reading a property after writing one. */
  lemma {:induction false} GetPut(r: Record, k: string, v: Value, j: string)
    ensures Get(Put(r, k, v), j) == if j == k then v else Get(r, j)
  {
    if r != [] && r[0].key != k {
      GetPut(r[1..], k, v, j);
    }
  }

  /** Writing a property keeps the creation order and appends a key only when it is new. */
  lemma {:induction false} KeysPut(r: Record, k: string, v: Value)
    ensures Keys(Put(r, k, v)) == if k in Keys(r) then Keys(r) else Keys(r) + [k]
  {
    if r != [] && r[0].key != k {
      KeysPut(r[1..], k, v);
      assert Keys(r) == [r[0].key] + Keys(r[1..]);
    }
  }

  /** After `Object.assign(target, source)` a key of `source` reads as in `source`
      (the source overrides on collision) and every other key reads as in `target`. */
  lemma {:induction false} GetAssign(target: Record, source: Record, k: string)
    requires UniqueKeys(source)
    ensures Get(Assign(target, source), k) == if k in Keys(source) then Get(source, k) else Get(target, k)
    decreases |source|
  {
    if source != [] {
      var f := source[0];
      var rest := source[1..];
      assert Keys(source) == [f.key] + Keys(rest);
      GetAssign(Put(target, f.key, f.value), rest, k);
      GetPut(target, f.key, f.value, k);
      if k in Keys(rest) {
        var i :| 0 <= i < |rest| && Keys(rest)[i] == k;
        assert source[i + 1].key == k;
        assert f.key != k;
      }
    }
  }

  /** `Object.assign` keeps the target's keys where they were in creation order and appends
      the new keys of the source in the source's creation order; so it keeps an object's keys unique. */
  lemma {:induction false} KeysAssign(target: Record, source: Record)
    requires UniqueKeys(target)
    ensures Keys(target) <= Keys(Assign(target, source))
    ensures forall k :: k in Keys(Assign(target, source)) <==> k in Keys(target) || k in Keys(source)
    ensures UniqueKeys(Assign(target, source))
    decreases |source|
  {
    if source != [] {
      var f := source[0];
      var next := Put(target, f.key, f.value);
      KeysPut(target, f.key, f.value);
      assert Keys(source) == [f.key] + Keys(source[1..]);
      assert UniqueKeys(next) by {
        if f.key !in Keys(target) {
          assert forall i :: 0 <= i < |target| ==> Keys(next)[i] == target[i].key;
        }
        assert forall i :: 0 <= i < |next| ==> next[i].key == Keys(next)[i];
      }
      KeysAssign(next, source[1..]);
    }
  }

  // ---------------------------------------------------------------------------
  // Enumeration order

  predicate IsDigits(s: string)
  {
    forall i :: 0 <= i < |s| ==> '0' <= s[i] <= '9'
  }

  /** A key that is an array index: the canonical decimal text of an integer from 0 to
      2^32 - 2, with no sign and no leading zero. */
  predicate IsArrayIndex(k: string)
  {
    |k| >= 1 && IsDigits(k) && (|k| == 1 || k[0] != '0') && DigitsValue(k) < 0xFFFF_FFFF
  }

  /** The text of a natural number is an array index exactly when the number is below 2^32 - 1. */
  lemma ArrayIndexOfNumber(n: nat)
    ensures IsArrayIndex(NatDigits(n)) <==> n < 0xFFFF_FFFF
  {
    NatDigitsRoundTrip(n);
  }

  /** The keys of `ks` that are array indices, in the order given. */
  function IndexKeys(ks: seq<string>): (r: seq<string>)
    ensures forall k :: k in r <==> k in ks && IsArrayIndex(k)
  {
    if ks == [] then [] else (if IsArrayIndex(ks[0]) then [ks[0]] else []) + IndexKeys(ks[1..])
  }

  /** The keys of `ks` that are not array indices, in the order given. */
  function NamedKeys(ks: seq<string>): (r: seq<string>)
    ensures forall k :: k in r <==> k in ks && !IsArrayIndex(k)
  {
    if ks == [] then [] else (if IsArrayIndex(ks[0]) then [] else [ks[0]]) + NamedKeys(ks[1..])
  }

  /** Picking out the array indices distributes over concatenation. */
  lemma {:induction false} IndexKeysAppend(a: seq<string>, b: seq<string>)
    ensures IndexKeys(a + b) == IndexKeys(a) + IndexKeys(b)
  {
    if a == [] {
      assert a + b == b;
    } else {
      assert (a + b)[1..] == a[1..] + b;
      IndexKeysAppend(a[1..], b);
    }
  }

  /** Picking out the other keys distributes over concatenation. */
  lemma {:induction false} NamedKeysAppend(a: seq<string>, b: seq<string>)
    ensures NamedKeys(a + b) == NamedKeys(a) + NamedKeys(b)
  {
    if a == [] {
      assert a + b == b;
    } else {
      assert (a + b)[1..] == a[1..] + b;
      NamedKeysAppend(a[1..], b);
    }
  }

  /** Every key is either an array index or not: the two selections lose no key. */
  lemma {:induction false} SplitKeys(a: seq<string>)
    ensures multiset(IndexKeys(a)) + multiset(NamedKeys(a)) == multiset(a)
  {
    if a != [] {
      SplitKeys(a[1..]);
      assert a == [a[0]] + a[1..];
    }
  }

  /** Each array index is no larger, as a number, than the next one. */
  predicate Ascending(ks: seq<string>)
  {
    forall i :: 0 < i < |ks| ==> DigitsValue(ks[i - 1]) <= DigitsValue(ks[i])
  }

  function InsertIndex(k: string, ks: seq<string>): (r: seq<string>)
    requires Ascending(ks)
    ensures Ascending(r)
    ensures multiset(r) == multiset(ks) + multiset{k}
    ensures |r| == |ks| + 1 && (r[0] == k || (|ks| > 0 && r[0] == ks[0]))
  {
    if ks == [] || DigitsValue(k) <= DigitsValue(ks[0]) then [k] + ks
    else
      var rest := InsertIndex(k, ks[1..]);
      assert ks == [ks[0]] + ks[1..];
      [ks[0]] + rest
  }

  /** The array indices of `ks` in ascending numeric order. */
  function SortIndices(ks: seq<string>): (r: seq<string>)
    ensures Ascending(r)
    ensures multiset(r) == multiset(ks)
  {
    if ks == [] then []
    else
      assert ks == [ks[0]] + ks[1..];
      InsertIndex(ks[0], SortIndices(ks[1..]))
  }

  /** The order in which JavaScript enumerates an object's keys (`Object.keys`,
      `JSON.stringify`): the array indices in ascending numeric order, then the other keys
      in creation order (OrdinaryOwnPropertyKeys, section 10.1.11.1 of ECMA-262). */
  function OwnKeys(r: Record): seq<string>
  {
    SortIndices(IndexKeys(Keys(r))) + NamedKeys(Keys(r))
  }

  /** Enumeration lists every key exactly as often as the object has it: it reorders the
      creation order and nothing more. */
  lemma OwnKeysPermutes(r: Record)
    ensures multiset(OwnKeys(r)) == multiset(Keys(r))
  {
    SplitKeys(Keys(r));
  }

  /** Enumeration starts with the array indices, ascending, and continues with the other
      keys in creation order. */
  lemma OwnKeysShape(r: Record)
    ensures var n := |IndexKeys(Keys(r))|;
      && n <= |OwnKeys(r)|
      && Ascending(OwnKeys(r)[..n])
      && (forall i :: 0 <= i < n ==> IsArrayIndex(OwnKeys(r)[i]))
      && OwnKeys(r)[n..] == NamedKeys(Keys(r))
  {
    var ks := Keys(r);
    var sorted := SortIndices(IndexKeys(ks));
    SortedIndices(ks);
    assert OwnKeys(r)[..|sorted|] == sorted;
    assert OwnKeys(r)[|sorted|..] == NamedKeys(ks);
  }

  /** Sorting the array indices keeps their number, and yields array indices only. */
  lemma SortedIndices(ks: seq<string>)
    ensures var sorted := SortIndices(IndexKeys(ks));
      && |sorted| == |IndexKeys(ks)|
      && forall i :: 0 <= i < |sorted| ==> IsArrayIndex(sorted[i])
  {
    var sorted := SortIndices(IndexKeys(ks));
    assert |multiset(sorted)| == |multiset(IndexKeys(ks))|;
    forall i | 0 <= i < |sorted|
      ensures IsArrayIndex(sorted[i])
    {
      assert sorted[i] in multiset(sorted);
      assert sorted[i] in IndexKeys(ks);
    }
  }

  /** Writing a property: an existing key keeps its place; a new array index joins the
      other array indices in numeric order, ahead of every other key; any other new key
      is enumerated last. */
  lemma OwnKeysPut(r: Record, k: string, v: Value)
    ensures k in Keys(r) ==> OwnKeys(Put(r, k, v)) == OwnKeys(r)
    ensures k !in Keys(r) && IsArrayIndex(k) ==>
      OwnKeys(Put(r, k, v)) == SortIndices(IndexKeys(Keys(r)) + [k]) + NamedKeys(Keys(r))
    ensures k !in Keys(r) && !IsArrayIndex(k) ==> OwnKeys(Put(r, k, v)) == OwnKeys(r) + [k]
  {
    KeysPut(r, k, v);
    if k !in Keys(r) {
      if IsArrayIndex(k) {
        PutNewIndex(r, k, v);
      } else {
        PutNewNamed(r, k, v);
      }
    }
  }

  /** A new array-index key joins the array indices, in numeric order. */
  lemma PutNewIndex(r: Record, k: string, v: Value)
    requires k !in Keys(r) && IsArrayIndex(k)
    ensures OwnKeys(Put(r, k, v)) == SortIndices(IndexKeys(Keys(r)) + [k]) + NamedKeys(Keys(r))
  {
    KeysPut(r, k, v);
    OwnKeysAppend(Keys(r), k);
  }

  /** A new key that is not an array index is enumerated last. */
  lemma PutNewNamed(r: Record, k: string, v: Value)
    requires k !in Keys(r) && !IsArrayIndex(k)
    ensures OwnKeys(Put(r, k, v)) == OwnKeys(r) + [k]
  {
    KeysPut(r, k, v);
    OwnKeysAppend(Keys(r), k);
  }

  /** Appending one key adds it to the array indices or to the other keys, as it is one or not. */
  lemma OwnKeysAppend(ks: seq<string>, k: string)
    ensures IsArrayIndex(k) ==> IndexKeys(ks + [k]) == IndexKeys(ks) + [k] && NamedKeys(ks + [k]) == NamedKeys(ks)
    ensures !IsArrayIndex(k) ==> IndexKeys(ks + [k]) == IndexKeys(ks) && NamedKeys(ks + [k]) == NamedKeys(ks) + [k]
  {
    IndexKeysAppend(ks, [k]);
    NamedKeysAppend(ks, [k]);
    assert [k][1..] == [];
    if IsArrayIndex(k) {
      assert IndexKeys([k]) == [k] + IndexKeys([]);
      assert NamedKeys([k]) == [] + NamedKeys([]);
    } else {
      assert IndexKeys([k]) == [] + IndexKeys([]);
      assert NamedKeys([k]) == [k] + NamedKeys([]);
    }
  }

  /** A key that does not start with a digit is not an array index. */
  lemma NotArrayIndex(k: string)
    requires |k| > 0 && !('0' <= k[0] <= '9')
    ensures !IsArrayIndex(k)
  {
  }

  /** Keys none of which is an array index are enumerated in creation order. */
  lemma {:induction false} NoIndexKeys(ks: seq<string>)
    requires forall i :: 0 <= i < |ks| ==> !IsArrayIndex(ks[i])
    ensures IndexKeys(ks) == [] && NamedKeys(ks) == ks
  {
    if ks != [] {
      NoIndexKeys(ks[1..]);
    }
  }

  /** An object with no array-index key is enumerated in creation order. */
  lemma OnlyNamedKeys(r: Record)
    requires forall i :: 0 <= i < |r| ==> !IsArrayIndex(Keys(r)[i])
    ensures OwnKeys(r) == Keys(r)
  {
    NoIndexKeys(Keys(r));
  }

  /** When an object's first keys are none of them array indices, enumeration lists the
      array indices among the later keys, then those first keys, then the later other keys. */
  lemma NamedPrefix(r: Record, first: seq<string>)
    requires first <= Keys(r)
    requires forall i :: 0 <= i < |first| ==> !IsArrayIndex(first[i])
    ensures var rest := Keys(r)[|first|..];
      && IndexKeys(Keys(r)) == IndexKeys(rest)
      && OwnKeys(r) == SortIndices(IndexKeys(rest)) + first + NamedKeys(rest)
  {
    var rest := Keys(r)[|first|..];
    assert Keys(r) == first + rest;
    NoIndexKeys(first);
    IndexKeysAppend(first, rest);
    NamedKeysAppend(first, rest);
  }

  /** So those first keys sit right after the array indices, and enumeration starts with
      them exactly when the object has no array-index key. */
  lemma NamedPrefixPosition(r: Record, first: seq<string>)
    requires first <= Keys(r)
    requires forall i :: 0 <= i < |first| ==> !IsArrayIndex(first[i])
    ensures var own := OwnKeys(r); var n := |IndexKeys(Keys(r))|;
      && |own| == |Keys(r)| && n + |first| <= |own|
      && own[n..n + |first|] == first
      && (|first| > 0 ==> (own[..|first|] == first <==> n == 0))
  {
    NamedPrefix(r, first);
    var own := OwnKeys(r);
    var sorted := SortIndices(IndexKeys(Keys(r)));
    SortedIndices(Keys(r));
    assert |own| == |Keys(r)| by {
      OwnKeysPermutes(r);
      assert |multiset(own)| == |multiset(Keys(r))|;
    }
    assert own[|sorted|..|sorted| + |first|] == first;
  }
}
